/** The evaluation loop of `run_experiment`: train with `learn`, evaluate the trained parameters,
    log at the accounted timestep, and keep the best parameters seen when the absolute metric is
    requested. Logging, timing, checkpointing and the evaluators' internals are outside the model;
    the evaluator is a function from parameters and a key to the mean episode return. */
module Driver {
  import Config

  /** The starting value of `max_episode_return`, `jnp.float32(-1e7)`. */
  const InitialMaxReturn: real := -10000000.0

  datatype Option<T> = None | Some(value: T)

  /** The number of iterations of `range(num_evaluation)`. */
  function Steps(numEvaluation: int): nat
  {
    if numEvaluation < 0 then 0 else numEvaluation
  }

  /** The learner state after `k` calls of `learn`. */
  function Iterate<S>(learn: S -> S, s: S, k: nat): S
    decreases k
  {
    if k == 0 then s else learn(Iterate(learn, s, k - 1))
  }

  /** The evaluation key `key_e` after `k` evaluations: each evaluation splits it and keeps the
      first part. */
  function EvalKeyAt<K>(split: K -> (K, K), key: K, k: nat): K
    decreases k
  {
    if k == 0 then key else split(EvalKeyAt(split, key, k - 1)).0
  }

  /** Best-return tracking over the returns seen so far: `(index, maximum)`, where index `-1`
      means the initial parameters are still the best. A return at least as large as the current
      maximum replaces it, so a tie goes to the later evaluation. */
  function Best(episodeReturns: seq<real>, initial: real): (r: (int, real))
    ensures -1 <= r.0 < |episodeReturns|
    decreases |episodeReturns|
  {
    if episodeReturns == [] then (-1, initial)
    else
      var (i, m) := Best(episodeReturns[..|episodeReturns| - 1], initial);
      if m <= episodeReturns[|episodeReturns| - 1] then (|episodeReturns| - 1, episodeReturns[|episodeReturns| - 1]) else (i, m)
  }

  /** Seeing one more return updates the tracked pair exactly as the loop does. */
  lemma {:induction false} BestSnoc(seen: seq<real>, x: real, initial: real)
    ensures Best(seen + [x], initial)
            == if Best(seen, initial).1 <= x then (|seen|, x) else Best(seen, initial)
  {
    assert (seen + [x])[..|seen|] == seen;
  }

  /** The tracked maximum bounds the initial value and every return. If the index is `-1`, the
      maximum is the initial value and every return fell short of it; otherwise the maximum is the
      return at that index and every later return is strictly smaller. */
  lemma {:induction false} BestIsLastMaximum(episodeReturns: seq<real>, initial: real)
    ensures var (i, m) := Best(episodeReturns, initial);
            && initial <= m
            && (forall j :: 0 <= j < |episodeReturns| ==> episodeReturns[j] <= m)
            && (i == -1 ==> m == initial && forall j :: 0 <= j < |episodeReturns| ==> episodeReturns[j] < initial)
            && (i >= 0 ==> m == episodeReturns[i] && forall j :: i < j < |episodeReturns| ==> episodeReturns[j] < m)
    decreases |episodeReturns|
  {
    if episodeReturns != [] {
      var front := episodeReturns[..|episodeReturns| - 1];
      BestIsLastMaximum(front, initial);
      assert forall j :: 0 <= j < |front| ==> episodeReturns[j] == front[j];
    }
  }

  /** The return the evaluator reports at evaluation step `e`: the parameters after `e + 1`
      calls of `learn`, evaluated with the keys split off at that step. */
  function ReturnAt<S, P, K>(learn: S -> S, paramsOf: S -> P, evaluate: (P, K) -> real, split: K -> (K, K),
                             init: S, keyE: K, e: nat): real
  {
    evaluate(paramsOf(Iterate(learn, init, e + 1)), split(EvalKeyAt(split, keyE, e)).1)
  }

  /** The loop of `run_experiment` over `numEvaluation` evaluation steps. Returns the final
      learner state, the logged timesteps and evaluation returns in order, the best parameters
      and maximum return, and the result of the absolute-metric evaluation of the best parameters
      when that is requested. */
  method RunExperiment<S, P, K>(learn: S -> S, paramsOf: S -> P, evaluate: (P, K) -> real,
                                absoluteEvaluate: (P, K) -> real, split: K -> (K, K),
                                init: S, keyE: K, numEvaluation: int, stepsPerRollout: int,
                                absoluteMetric: bool)
    returns (state: S, logged: seq<int>, episodeReturns: seq<real>, best: P, maxReturn: real, absolute: Option<real>)
    ensures state == Iterate(learn, init, Steps(numEvaluation))
    ensures |logged| == Steps(numEvaluation) && |episodeReturns| == Steps(numEvaluation)
    ensures forall e :: 0 <= e < |logged| ==> logged[e] == Config.LoggedTimestep(stepsPerRollout, e)
    ensures forall e :: 0 <= e < |episodeReturns| ==>
              episodeReturns[e] == ReturnAt(learn, paramsOf, evaluate, split, init, keyE, e)
    ensures !absoluteMetric ==> best == paramsOf(init) && maxReturn == InitialMaxReturn && absolute == None
    ensures absoluteMetric ==>
              var (i, m) := Best(episodeReturns, InitialMaxReturn);
              && maxReturn == m
              && best == (if i == -1 then paramsOf(init) else paramsOf(Iterate(learn, init, i + 1)))
              && absolute == Some(absoluteEvaluate(best, split(EvalKeyAt(split, keyE, |episodeReturns|)).1))
  {
    state := init;
    logged := [];
    episodeReturns := [];
    best := paramsOf(init);
    maxReturn := InitialMaxReturn;
    var key := keyE;
    var bestIndex: int := -1;
    var e: nat := 0;
    while e < Steps(numEvaluation)
      invariant e <= Steps(numEvaluation)
      invariant state == Iterate(learn, init, e) && key == EvalKeyAt(split, keyE, e)
      invariant |logged| == e && |episodeReturns| == e
      invariant forall j :: 0 <= j < e ==> logged[j] == Config.LoggedTimestep(stepsPerRollout, j)
      invariant forall j :: 0 <= j < e ==>
        episodeReturns[j] == ReturnAt(learn, paramsOf, evaluate, split, init, keyE, j)
      invariant !absoluteMetric ==> best == paramsOf(init) && maxReturn == InitialMaxReturn
      invariant absoluteMetric ==> (bestIndex, maxReturn) == Best(episodeReturns, InitialMaxReturn)
      invariant absoluteMetric ==>
        best == (if bestIndex == -1 then paramsOf(init) else paramsOf(Iterate(learn, init, bestIndex + 1)))
      decreases Steps(numEvaluation) - e
    {
      var next := learn(state);
      assert next == Iterate(learn, init, e + 1);
      logged := logged + [Config.LoggedTimestep(stepsPerRollout, e)];
      var trained := paramsOf(next);
      var evalKey := split(key).1;
      key := split(key).0;
      assert key == EvalKeyAt(split, keyE, e + 1);
      var episodeReturn := evaluate(trained, evalKey);
      assert episodeReturn == ReturnAt(learn, paramsOf, evaluate, split, init, keyE, e);
      BestSnoc(episodeReturns, episodeReturn, InitialMaxReturn);
      episodeReturns := episodeReturns + [episodeReturn];
      if absoluteMetric && maxReturn <= episodeReturn {
        best := trained;
        maxReturn := episodeReturn;
        bestIndex := e;
      }
      state := next;
      e := e + 1;
    }
    absolute := None;
    if absoluteMetric {
      var evalKey := split(key).1;
      absolute := Some(absoluteEvaluate(best, evalKey));
    }
  }
}
