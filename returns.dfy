/** n-step bootstrapped returns. The source calls `batch_n_step_bootstrapped_returns`, whose body is
    not part of this model; it is an injected function here, and `NStepTarget` is the reference it
    is expected to agree with wherever the full horizon of n steps fits in the sequence. */
module Returns {

  /** The three inputs have the same shape, row by row. */
  predicate SameShape(r: seq<seq<real>>, d: seq<seq<real>>, v: seq<seq<real>>)
  {
    |d| == |r| && |v| == |r| && forall b :: 0 <= b < |r| ==> |d[b]| == |r[b]| && |v[b]| == |r[b]|
  }

  /** `x` has the shape of `y`. */
  predicate ShapedLike(x: seq<seq<real>>, y: seq<seq<real>>)
  {
    |x| == |y| && forall b :: 0 <= b < |y| ==> |x[b]| == |y[b]|
  }

  /** The reference target on one aligned row: rewards `r`, discounts `d` and bootstrap values `v`,
      where `v[t]` is the value of the state AFTER step `t`:
        r[t] + d[t] r[t+1] + ... + d[t]..d[t+n-2] r[t+n-1] + d[t]..d[t+n-1] v[t+n-1]. */
  function NStepTarget(r: seq<real>, d: seq<real>, v: seq<real>, t: nat, n: nat): real
    requires 1 <= n && t + n <= |r| && |d| == |r| && |v| == |r|
    decreases n
  {
    if n == 1 then r[t] + d[t] * v[t]
    else r[t] + d[t] * NStepTarget(r, d, v, t + 1, n - 1)
  }

  /** The first `m` rewards from `t`, each discounted by the product of the discounts before it. */
  function DiscountedRewardSum(r: seq<real>, d: seq<real>, t: nat, m: nat): real
    requires t + m <= |r| && |d| == |r|
    decreases m
  {
    if m == 0 then 0.0 else r[t] + d[t] * DiscountedRewardSum(r, d, t + 1, m - 1)
  }

  /** `d[t] * d[t+1] * ... * d[t+m-1]`. */
  function DiscountProduct(d: seq<real>, t: nat, m: nat): real
    requires t + m <= |d|
    decreases m
  {
    if m == 0 then 1.0 else d[t] * DiscountProduct(d, t + 1, m - 1)
  }

  /** The target is the discounted reward sum plus the discounted bootstrap value n steps on. */
  lemma {:induction false} NStepDecomposition(r: seq<real>, d: seq<real>, v: seq<real>, t: nat, n: nat)
    requires 1 <= n && t + n <= |r| && |d| == |r| && |v| == |r|
    ensures NStepTarget(r, d, v, t, n)
            == DiscountedRewardSum(r, d, t, n) + DiscountProduct(d, t, n) * v[t + n - 1]
    decreases n
  {
    if n == 1 {
      assert DiscountedRewardSum(r, d, t + 1, 0) == 0.0 && DiscountProduct(d, t + 1, 0) == 1.0;
    } else {
      NStepDecomposition(r, d, v, t + 1, n - 1);
      var sum := DiscountedRewardSum(r, d, t + 1, n - 1);
      var product := DiscountProduct(d, t + 1, n - 1);
      var x := v[t + n - 1];
      assert NStepTarget(r, d, v, t, n) == r[t] + d[t] * (sum + product * x);
      assert d[t] * (sum + product * x) == d[t] * sum + (d[t] * product) * x;
      assert DiscountedRewardSum(r, d, t, n) == r[t] + d[t] * sum;
      assert DiscountProduct(d, t, n) == d[t] * product;
    }
  }

  /** A zero discount inside the horizon zeroes the whole product. */
  lemma {:induction false} DiscountProductZero(d: seq<real>, t: nat, m: nat, k: nat)
    requires t + m <= |d| && k < m && d[t + k] == 0.0
    ensures DiscountProduct(d, t, m) == 0.0
    decreases k
  {
    if k > 0 {
      DiscountProductZero(d, t + 1, m - 1, k - 1);
    }
  }

  /** Termination cuts the return: if the discount is zero at step `t + k` inside the horizon, the
      target is the finite discounted sum of the rewards up to and including step `t + k`; no
      later reward and no bootstrap value reaches it. */
  lemma {:induction false} TerminationTruncates(r: seq<real>, d: seq<real>, v: seq<real>, t: nat, n: nat, k: nat)
    requires 1 <= n && t + n <= |r| && |d| == |r| && |v| == |r|
    requires k < n && d[t + k] == 0.0
    ensures NStepTarget(r, d, v, t, n) == DiscountedRewardSum(r, d, t, k + 1)
    decreases k
  {
    if k > 0 {
      TerminationTruncates(r, d, v, t + 1, n - 1, k - 1);
    }
  }

  /** Rewards 1, no termination, discount 0.9, n = 2 and search values 5: the first target is
      1 + 0.9 * 1 + 0.81 * 5 = 5.95. */
  lemma {:induction false} NStepExample()
    ensures NStepTarget([1.0, 1.0, 1.0], [0.9, 0.9, 0.9], [5.0, 5.0, 5.0], 0, 2) == 5.95
  {
  }

  /** The injected batched returns function keeps the shape of its inputs. */
  ghost predicate ShapePreserving(f: (seq<seq<real>>, seq<seq<real>>, seq<seq<real>>, nat) -> seq<seq<real>>)
  {
    forall r, d, v, n :: SameShape(r, d, v) ==> ShapedLike(f(r, d, v, n), r)
  }

  /** The injected batched returns function is an n-step return: it keeps the shape and agrees with
      the reference wherever the full horizon fits. What it does near the end of a row is left open. */
  ghost predicate IsNStepReturns(f: (seq<seq<real>>, seq<seq<real>>, seq<seq<real>>, nat) -> seq<seq<real>>)
  {
    && ShapePreserving(f)
    && forall r, d, v, n, b, t :: SameShape(r, d, v) && 1 <= n && 0 <= b < |r| && 0 <= t && t + n <= |r[b]| ==>
         |f(r, d, v, n)| == |r| && |f(r, d, v, n)[b]| == |r[b]|
         && f(r, d, v, n)[b][t] == NStepTarget(r[b], d[b], v[b], t, n)
  }

  /** One row with the largest available horizon at the end of the row (at least one step). */
  function PartialHorizonRow(r: seq<real>, d: seq<real>, v: seq<real>, n: nat): (g: seq<real>)
    requires |d| == |r| && |v| == |r|
    ensures |g| == |r|
    ensures forall t :: 0 <= t < |r| && 1 <= n && t + n <= |r| ==> g[t] == NStepTarget(r, d, v, t, n)
  {
    seq(|r|, t requires 0 <= t < |r| =>
      NStepTarget(r, d, v, t, if n == 0 then 1 else if t + n <= |r| then n else |r| - t))
  }

  /** A returns function of the injected kind: every row with the partial-horizon rule. */
  function PartialHorizonReturns(r: seq<seq<real>>, d: seq<seq<real>>, v: seq<seq<real>>, n: nat): seq<seq<real>>
  {
    if SameShape(r, d, v) then seq(|r|, b requires 0 <= b < |r| => PartialHorizonRow(r[b], d[b], v[b], n))
    else r
  }

  /** The partial-horizon rule is an n-step return in the sense above, so the assumption the critic
      lemmas make about the injected function can be met. */
  lemma {:induction false} PartialHorizonIsNStepReturns()
    ensures IsNStepReturns((r, d, v, n: nat) => PartialHorizonReturns(r, d, v, n))
  {
    var f := (r, d, v, n: nat) => PartialHorizonReturns(r, d, v, n);
    forall r, d, v, n: nat | SameShape(r, d, v)
      ensures ShapedLike(f(r, d, v, n), r)
    {
    }
    forall r, d, v, n: nat, b, t | SameShape(r, d, v) && 1 <= n && 0 <= b < |r| && 0 <= t && t + n <= |r[b]|
      ensures |f(r, d, v, n)| == |r| && |f(r, d, v, n)[b]| == |r[b]|
      ensures f(r, d, v, n)[b][t] == NStepTarget(r[b], d[b], v[b], t, n)
    {
    }
  }
}
