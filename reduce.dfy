/** Means over the two parallel axes: `jax.lax.pmean(x, axis_name="batch")` followed by
    `jax.lax.pmean(x, axis_name="device")`. A group holds one value per replica, indexed
    `[device][batch row]`; a value is a vector (the leaves of a gradient or of loss info). */
module Reduce {
  import Matrix

  function Sum(xs: seq<real>): real
  {
    if xs == [] then 0.0 else xs[0] + Sum(xs[1..])
  }

  function Mean(xs: seq<real>): real
    requires |xs| > 0
  {
    Sum(xs) / (|xs| as real)
  }

  lemma {:induction false} SumConcat(a: seq<real>, b: seq<real>)
    ensures Sum(a + b) == Sum(a) + Sum(b)
  {
    if a != [] {
      assert (a + b)[0] == a[0];
      assert (a + b)[1..] == a[1..] + b;
      SumConcat(a[1..], b);
      assert Sum(a + b) == a[0] + Sum(a[1..] + b);
    } else {
      assert a + b == b;
    }
  }

  /** The sum of the row sums. */
  function SumOfRows(m: seq<seq<real>>): real
  {
    if m == [] then 0.0 else Sum(m[0]) + SumOfRows(m[1..])
  }

  lemma {:induction false} SumFlatten(m: seq<seq<real>>)
    ensures Sum(Matrix.Flatten(m)) == SumOfRows(m)
  {
    if m != [] {
      SumConcat(m[0], Matrix.Flatten(m[1..]));
      SumFlatten(m[1..]);
    }
  }

  /** The mean of each row. */
  function RowMeans(m: seq<seq<real>>, w: nat): (r: seq<real>)
    requires w > 0 && Matrix.Rectangular(m, w)
    ensures |r| == |m| && forall i :: 0 <= i < |m| ==> r[i] == Mean(m[i])
  {
    seq(|m|, i requires 0 <= i < |m| => Mean(m[i]))
  }

  lemma {:induction false} SumRowMeans(m: seq<seq<real>>, w: nat)
    requires w > 0 && Matrix.Rectangular(m, w)
    ensures Sum(RowMeans(m, w)) == SumOfRows(m) / (w as real)
  {
    if m != [] {
      var r := RowMeans(m, w);
      assert r[1..] == RowMeans(m[1..], w);
      SumRowMeans(m[1..], w);
      assert r[0] == Sum(m[0]) / (w as real);
      AddDivisions(Sum(m[0]), SumOfRows(m[1..]), w as real);
    }
  }

  lemma {:induction false} AddDivisions(a: real, b: real, c: real)
    requires c > 0.0
    ensures a / c + b / c == (a + b) / c
  {
  }

  /** With equal row lengths, the mean of the row means is the mean of all entries. */
  lemma {:induction false} MeanOfMeans(m: seq<seq<real>>, w: nat)
    requires |m| > 0 && w > 0 && Matrix.Rectangular(m, w)
    ensures Mean(RowMeans(m, w)) == Mean(Matrix.Flatten(m))
  {
    MeanOfRowMeans(m, w);
    MeanOfFlatten(m, w);
  }

  lemma {:induction false} MeanOfRowMeans(m: seq<seq<real>>, w: nat)
    requires |m| > 0 && w > 0 && Matrix.Rectangular(m, w)
    ensures Mean(RowMeans(m, w)) == SumOfRows(m) / ((|m| as real) * (w as real))
  {
    var r := RowMeans(m, w);
    SumRowMeans(m, w);
    assert Mean(r) == (SumOfRows(m) / (w as real)) / (|m| as real);
    DivideTwice(SumOfRows(m), w as real, |m| as real);
  }

  lemma {:induction false} MeanOfFlatten(m: seq<seq<real>>, w: nat)
    requires |m| > 0 && w > 0 && Matrix.Rectangular(m, w)
    ensures |Matrix.Flatten(m)| > 0
    ensures Mean(Matrix.Flatten(m)) == SumOfRows(m) / ((|m| as real) * (w as real))
  {
    SumFlatten(m);
    Matrix.FlattenLength(m, w);
    CastProduct(|m|, w, |Matrix.Flatten(m)|);
  }

  lemma {:induction false} CastProduct(x: nat, y: nat, n: nat)
    requires n == x * y
    ensures (n as real) == (x as real) * (y as real)
  {
  }

  lemma {:induction false} DivideTwice(s: real, b: real, d: real)
    requires b > 0.0 && d > 0.0
    ensures (s / b) / d == s / (d * b)
  {
    var y := (s / b) / d;
    assert y * d == s / b;
    assert y * d * b == s;
  }

  /** The mean of a constant sequence is that constant. */
  lemma {:induction false} MeanConstant(xs: seq<real>, x: real)
    requires |xs| > 0 && forall i :: 0 <= i < |xs| ==> xs[i] == x
    ensures Mean(xs) == x
  {
    SumConstant(xs, x);
  }

  lemma {:induction false} SumConstant(xs: seq<real>, x: real)
    requires forall i :: 0 <= i < |xs| ==> xs[i] == x
    ensures Sum(xs) == (|xs| as real) * x
  {
    if xs != [] {
      SumConstant(xs[1..], x);
    }
  }

  /** A group of `|g|` devices with `rows` replicas each, every value a vector of `dim` leaves. */
  predicate Group(g: seq<seq<seq<real>>>, rows: nat, dim: nat)
  {
    |g| > 0 && rows > 0 && forall d :: 0 <= d < |g| ==> Matrix.Rectangular(g[d], dim) && |g[d]| == rows
  }

  /** The mean of a non-empty list of vectors, leaf by leaf. */
  function MeanVec(vs: seq<seq<real>>, dim: nat): (m: seq<real>)
    requires |vs| > 0 && Matrix.Rectangular(vs, dim)
    ensures |m| == dim && forall j :: 0 <= j < dim ==> m[j] == Mean(Matrix.Column(vs, dim, j))
  {
    seq(dim, j requires 0 <= j < dim => Mean(Matrix.Column(vs, dim, j)))
  }

  /** `pmean` over "batch": every replica on a device gets the mean over that device's replicas. */
  function PMeanBatch(g: seq<seq<seq<real>>>, rows: nat, dim: nat): (h: seq<seq<seq<real>>>)
    requires Group(g, rows, dim)
    ensures Group(h, rows, dim) && |h| == |g|
  {
    seq(|g|, d requires 0 <= d < |g| => Repeat(MeanVec(g[d], dim), rows))
  }

  /** `pmean` over "device": every replica gets the mean over the replicas with its batch index. */
  function PMeanDevice(h: seq<seq<seq<real>>>, rows: nat, dim: nat): (k: seq<seq<seq<real>>>)
    requires Group(h, rows, dim)
    ensures Group(k, rows, dim) && |k| == |h|
  {
    Repeat(MeansAcrossDevices(h, rows, dim), |h|)
  }

  /** For each batch index, the mean over devices. */
  function MeansAcrossDevices(h: seq<seq<seq<real>>>, rows: nat, dim: nat): (r: seq<seq<real>>)
    requires Group(h, rows, dim)
    ensures |r| == rows && Matrix.Rectangular(r, dim)
    ensures forall b :: 0 <= b < rows ==> r[b] == MeanVec(AcrossDevices(h, rows, dim, b), dim)
  {
    seq(rows, b requires 0 <= b < rows => MeanVec(AcrossDevices(h, rows, dim, b), dim))
  }

  /** `n` copies of `x`. */
  function Repeat<T>(x: T, n: nat): (r: seq<T>)
    ensures |r| == n && forall i :: 0 <= i < n ==> r[i] == x
  {
    seq(n, i => x)
  }

  /** The values of the replicas with batch index `b`, one per device. */
  function AcrossDevices(h: seq<seq<seq<real>>>, rows: nat, dim: nat, b: nat): (c: seq<seq<real>>)
    requires Group(h, rows, dim) && b < rows
    ensures |c| == |h| && Matrix.Rectangular(c, dim)
    ensures forall d :: 0 <= d < |h| ==> c[d] == h[d][b]
  {
    seq(|h|, d requires 0 <= d < |h| => h[d][b])
  }

  /** The reduction the learner applies: over "batch", then over "device". */
  function PMean(g: seq<seq<seq<real>>>, rows: nat, dim: nat): (k: seq<seq<seq<real>>>)
    requires Group(g, rows, dim)
    ensures Group(k, rows, dim) && |k| == |g|
  {
    PMeanDevice(PMeanBatch(g, rows, dim), rows, dim)
  }

  /** Leaf `j` of every replica's value, as a `devices x rows` array. */
  function Leaf(g: seq<seq<seq<real>>>, rows: nat, dim: nat, j: nat): (m: seq<seq<real>>)
    requires Group(g, rows, dim) && j < dim
    ensures |m| == |g| && Matrix.Rectangular(m, rows)
  {
    seq(|g|, d requires 0 <= d < |g| => Matrix.Column(g[d], dim, j))
  }

  /** Mean of means: after both reductions every replica holds, leaf by leaf, the mean over all
      `devices x rows` replicas (the group sizes are equal by construction). */
  lemma {:induction false} PMeanIsGlobalMean(g: seq<seq<seq<real>>>, rows: nat, dim: nat, d: nat, b: nat, j: nat)
    requires Group(g, rows, dim) && d < |g| && b < rows && j < dim
    ensures PMean(g, rows, dim)[d][b][j] == Mean(Matrix.Flatten(Leaf(g, rows, dim, j)))
  {
    var h := PMeanBatch(g, rows, dim);
    var m := Leaf(g, rows, dim, j);
    var col := AcrossDevices(h, rows, dim, b);
    assert PMean(g, rows, dim)[d][b] == MeanVec(col, dim);
    forall d' | 0 <= d' < |g|
      ensures Matrix.Column(col, dim, j)[d'] == RowMeans(m, rows)[d']
    {
      assert col[d'] == MeanVec(g[d'], dim);
    }
    assert Matrix.Column(col, dim, j) == RowMeans(m, rows);
    MeanOfMeans(m, rows);
  }

  /** After the reduction all replicas hold the same value. */
  lemma {:induction false} PMeanReplicasAgree(g: seq<seq<seq<real>>>, rows: nat, dim: nat, d: nat, b: nat, d': nat, b': nat)
    requires Group(g, rows, dim) && d < |g| && b < rows && d' < |g| && b' < rows
    ensures PMean(g, rows, dim)[d][b] == PMean(g, rows, dim)[d'][b']
  {
    var k := PMean(g, rows, dim);
    forall j | 0 <= j < dim
      ensures k[d][b][j] == k[d'][b'][j]
    {
      PMeanIsGlobalMean(g, rows, dim, d, b, j);
      PMeanIsGlobalMean(g, rows, dim, d', b', j);
    }
  }

  /** One device with one batch row: the "mean" returns the value unchanged (a mean, not a sum). */
  lemma {:induction false} PMeanSingleReplica(x: seq<real>)
    ensures Group([[x]], 1, |x|)
    ensures PMean([[x]], 1, |x|) == [[x]]
  {
    var g := [[x]];
    var k := PMean(g, 1, |x|);
    forall j | 0 <= j < |x|
      ensures k[0][0][j] == x[j]
    {
      PMeanIsGlobalMean(g, 1, |x|, 0, 0, j);
      var leaf := Leaf(g, 1, |x|, j);
      assert leaf[0] == Matrix.Column(g[0], |x|, j);
      assert leaf[0] == [x[j]];
      assert leaf == [[x[j]]];
      assert Matrix.Flatten(leaf) == [x[j]] + Matrix.Flatten([]);
      assert Sum([x[j]]) == x[j] + Sum([]);
    }
    assert k[0][0] == x;
    assert k[0] == [x];
  }
}
