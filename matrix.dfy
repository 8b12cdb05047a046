/** Two-axis arrays as sequences of rows, and `jnp.swapaxes(x, 0, 1)` on them. */
module Matrix {

  /** Every row of `m` has `width` entries. */
  predicate Rectangular<T>(m: seq<seq<T>>, width: nat)
  {
    forall i :: 0 <= i < |m| ==> |m[i]| == width
  }

  /** All rows one after another. */
  function Flatten<T>(m: seq<seq<T>>): seq<T>
  {
    if m == [] then [] else m[0] + Flatten(m[1..])
  }

  /** A rectangular array flattens to `rows x width` entries. */
  lemma {:induction false} FlattenLength<T>(m: seq<seq<T>>, w: nat)
    requires Rectangular(m, w)
    ensures |Flatten(m)| == |m| * w
  {
    if m != [] {
      FlattenLength(m[1..], w);
    }
  }

  /** Swaps the two leading axes: a `|m|` x `width` array becomes `width` x `|m|`.
      The width is passed explicitly because an array with no rows still has one. */
  function Transpose<T>(m: seq<seq<T>>, width: nat): (r: seq<seq<T>>)
    requires Rectangular(m, width)
    ensures |r| == width && Rectangular(r, |m|)
    ensures forall b, t :: 0 <= b < width && 0 <= t < |m| ==> r[b][t] == m[t][b]
  {
    seq(width, b requires 0 <= b < width => seq(|m|, t requires 0 <= t < |m| => m[t][b]))
  }

  /** Swapping the axes twice gives back the original array. */
  lemma {:induction false} TransposeInvolution<T>(m: seq<seq<T>>, width: nat)
    requires Rectangular(m, width)
    ensures Transpose(Transpose(m, width), |m|) == m
  {
    var back := Transpose(Transpose(m, width), |m|);
    assert |back| == |m|;
    forall t | 0 <= t < |m|
      ensures back[t] == m[t]
    {
      assert |back[t]| == width == |m[t]|;
      forall b | 0 <= b < width
        ensures back[t][b] == m[t][b]
      {
      }
    }
  }

  /** Row `b` of the transposed array is column `b` of the original. */
  function Column<T>(m: seq<seq<T>>, width: nat, b: nat): (c: seq<T>)
    requires Rectangular(m, width) && b < width
    ensures |c| == |m| && forall t :: 0 <= t < |m| ==> c[t] == m[t][b]
  {
    seq(|m|, t requires 0 <= t < |m| => m[t][b])
  }

  /** Dropping the first row of an array drops the first entry of each of its columns. */
  lemma {:induction false} ColumnOfTail<T>(m: seq<seq<T>>, width: nat, b: nat)
    requires Rectangular(m, width) && b < width && |m| > 0
    ensures Column(m[1..], width, b) == Column(m, width, b)[1..]
  {
  }

  /** The transposed array is the array of columns. */
  lemma {:induction false} TransposeRows<T>(m: seq<seq<T>>, width: nat, b: nat)
    requires Rectangular(m, width) && b < width
    ensures Transpose(m, width)[b] == Column(m, width, b)
  {
  }
}
