/** Acting in the environment: one search-guided environment step (`_env_step`), its fold over a
    fixed number of steps (`jax.lax.scan`), the warmup that fills the replay buffer, and the same
    fold over a whole learner state. */
module Rollout {
  import opened MuZeroTypes
  import Planner
  import Matrix

  /** Everything acting needs from outside: the networks, the tree search (row `i` of its output
      on a batch of roots), the per-row environment step and the key split. */
  datatype Acting = Acting(
    nets: Networks,
    search: (MZParams, Key, seq<RootFnOutput>, nat) -> SearchOutput,
    envStep: (EnvState, Action) -> (EnvState, TimeStep),
    split: Key -> (Key, Key))

  /** The scan carry `(env_state, last_timestep, key)`, one entry per environment row. */
  datatype Carry = Carry(envStates: seq<EnvState>, timesteps: seq<TimeStep>, key: Key)

  predicate WellFormed(c: Carry)
  {
    |c.envStates| == |c.timesteps|
  }

  /** The batch of roots, one per environment row, from the last observations. */
  function Roots(nets: Networks, params: MZParams, c: Carry): (roots: seq<RootFnOutput>)
    requires WellFormed(c)
    ensures |roots| == |c.timesteps|
    ensures forall i :: 0 <= i < |roots| ==>
      roots[i] == Planner.RootFn(nets, params, c.timesteps[i].observation, c.envStates[i])
  {
    seq(|c.timesteps|, i requires 0 <= i < |c.timesteps| =>
      Planner.RootFn(nets, params, c.timesteps[i].observation, c.envStates[i]))
  }

  /** What one step records for row `i`, given the carry before (`c`) and after (`next`): the
      search runs on the key split off the carry, the transition pairs the PRE-step observation
      with the chosen action and with reward, done flag and metrics of the POST-step timestep, and
      its behaviour value is the value the root already carries. */
  ghost predicate StepRow(act: Acting, params: MZParams, c: Carry, i: nat, next: Carry, tr: AZTransition)
    requires WellFormed(c) && WellFormed(next) && i < |c.timesteps| && i < |next.timesteps|
  {
    var roots := Roots(act.nets, params, c);
    var out := act.search(params, act.split(c.key).1, roots, i);
    && (next.envStates[i], next.timesteps[i]) == act.envStep(c.envStates[i], out.action)
    && tr.obs == c.timesteps[i].observation
    && tr.action == out.action
    && tr.searchPolicy == out.actionWeights
    && tr.searchValue == out.rootValue
    && tr.value == roots[i].value
    && tr.reward == next.timesteps[i].reward
    && tr.done == next.timesteps[i].last
    && tr.info == next.timesteps[i].episodeMetrics
  }

  /** One environment step for every row: split the key, build the roots, search, evaluate the
      behaviour value, step each row's environment with the chosen action and record one
      transition per row. The remainder of the split is carried forward. */
  function EnvStep(act: Acting, params: MZParams, c: Carry): (r: (Carry, seq<AZTransition>))
    requires WellFormed(c)
    ensures WellFormed(r.0) && |r.0.timesteps| == |c.timesteps| && |r.1| == |c.timesteps|
    ensures r.0.key == act.split(c.key).0
    ensures forall i :: 0 <= i < |r.1| ==> StepRow(act, params, c, i, r.0, r.1[i])
  {
    var (key, policyKey) := act.split(c.key);
    var roots := Roots(act.nets, params, c);
    var n := |c.timesteps|;
    var outs := seq(n, i requires 0 <= i < n => act.search(params, policyKey, roots, i));
    var behaviour := seq(n, i requires 0 <= i < n =>
      act.nets.critic(params.prediction.critic,
                      act.nets.representation(params.worldModel.representation, c.timesteps[i].observation)));
    var stepped := seq(n, i requires 0 <= i < n => act.envStep(c.envStates[i], outs[i].action));
    var transitions := seq(n, i requires 0 <= i < n =>
      AZTransition(stepped[i].1.last, outs[i].action, behaviour[i], stepped[i].1.reward,
                   outs[i].rootValue, outs[i].actionWeights, c.timesteps[i].observation,
                   stepped[i].1.episodeMetrics));
    (Carry(seq(n, i requires 0 <= i < n => stepped[i].0), seq(n, i requires 0 <= i < n => stepped[i].1), key),
     transitions)
  }

  /** `jax.lax.scan(_env_step, carry, None, k)`: the final carry and the time-major trajectory,
      one row of transitions per step, in step order. */
  function Rollout(act: Acting, params: MZParams, c: Carry, k: nat): (r: (Carry, seq<seq<AZTransition>>))
    requires WellFormed(c)
    ensures WellFormed(r.0) && |r.0.timesteps| == |c.timesteps|
    ensures |r.1| == k && Matrix.Rectangular(r.1, |c.timesteps|)
    decreases k
  {
    if k == 0 then (c, [])
    else
      var (c1, tr) := EnvStep(act, params, c);
      var (ck, rest) := Rollout(act, params, c1, k - 1);
      (ck, [tr] + rest)
  }

  /** The carry after the first `t` steps. */
  function CarryAt(act: Acting, params: MZParams, c: Carry, t: nat): (r: Carry)
    requires WellFormed(c)
    ensures WellFormed(r) && |r.timesteps| == |c.timesteps|
  {
    Rollout(act, params, c, t).0
  }

  /** Entry `t` of the trajectory is exactly the step taken from the carry after `t` steps, and
      that step produces the carry after `t + 1` steps. */
  lemma {:induction false} RolloutAt(act: Acting, params: MZParams, c: Carry, k: nat, t: nat)
    requires WellFormed(c) && t < k
    ensures Rollout(act, params, c, k).1[t] == EnvStep(act, params, CarryAt(act, params, c, t)).1
    ensures CarryAt(act, params, c, t + 1) == EnvStep(act, params, CarryAt(act, params, c, t)).0
    decreases t
  {
    var c1 := EnvStep(act, params, c).0;
    if t > 0 {
      RolloutAt(act, params, c1, k - 1, t - 1);
      assert CarryAt(act, params, c, t) == CarryAt(act, params, c1, t - 1);
      assert CarryAt(act, params, c, t + 1) == CarryAt(act, params, c1, t);
    } else {
      assert Rollout(act, params, c, 1).0 == Rollout(act, params, c1, 0).0 == c1;
    }
  }

  /** Step order and key threading: transition `t` of row `i` holds the observation of the
      timestep before step `t`, and the reward and done flag of the timestep after it; between
      consecutive steps the key is replaced by the remainder of its split. */
  lemma {:induction false} TransitionAt(act: Acting, params: MZParams, c: Carry, k: nat, t: nat, i: nat)
    requires WellFormed(c) && t < k && i < |c.timesteps|
    ensures var tr := Rollout(act, params, c, k).1[t][i];
            && tr.obs == CarryAt(act, params, c, t).timesteps[i].observation
            && tr.reward == CarryAt(act, params, c, t + 1).timesteps[i].reward
            && tr.done == CarryAt(act, params, c, t + 1).timesteps[i].last
    ensures CarryAt(act, params, c, t + 1).key == act.split(CarryAt(act, params, c, t).key).0
  {
    RolloutAt(act, params, c, k, t);
    var ct := CarryAt(act, params, c, t);
    assert StepRow(act, params, ct, i, EnvStep(act, params, ct).0, EnvStep(act, params, ct).1[i]);
  }

  /** The trajectory with batch and time swapped, as handed to the buffer's add. */
  function BatchMajor(act: Acting, params: MZParams, c: Carry, k: nat): (r: seq<seq<AZTransition>>)
    requires WellFormed(c)
    ensures |r| == |c.timesteps| && Matrix.Rectangular(r, k)
  {
    Matrix.Transpose(Rollout(act, params, c, k).1, |c.timesteps|)
  }

  /** Entry `[b][t]` of what the buffer receives is environment row `b`'s transition at step `t`. */
  lemma {:induction false} BatchMajorAt(act: Acting, params: MZParams, c: Carry, k: nat, b: nat, t: nat)
    requires WellFormed(c) && b < |c.timesteps| && t < k
    ensures BatchMajor(act, params, c, k)[b][t] == EnvStep(act, params, CarryAt(act, params, c, t)).1[b]
  {
    RolloutAt(act, params, c, k, t);
  }

  /** Swapping the axes back recovers the time-major trajectory. */
  lemma {:induction false} BatchMajorRoundTrip(act: Acting, params: MZParams, c: Carry, k: nat)
    requires WellFormed(c)
    ensures Matrix.Transpose(BatchMajor(act, params, c, k), k) == Rollout(act, params, c, k).1
  {
    Matrix.TransposeInvolution(Rollout(act, params, c, k).1, |c.timesteps|);
  }

  /** `warmup`: run `warmupSteps` steps with fixed parameters, then add the batch-major trajectory
      to the buffer. Returns the new environment states, timesteps, key and buffer state. */
  function Warmup(act: Acting, params: MZParams, add: (BufferState, seq<seq<AZTransition>>) -> BufferState,
                  warmupSteps: nat, envStates: seq<EnvState>, timesteps: seq<TimeStep>,
                  bufferState: BufferState, key: Key): (r: (seq<EnvState>, seq<TimeStep>, Key, BufferState))
    requires |envStates| == |timesteps|
    ensures var c := Carry(envStates, timesteps, key);
            && Carry(r.0, r.1, r.2) == CarryAt(act, params, c, warmupSteps)
            && r.3 == add(bufferState, BatchMajor(act, params, c, warmupSteps))
  {
    var (c, traj) := Rollout(act, params, Carry(envStates, timesteps, key), warmupSteps);
    var batchMajor := Matrix.Transpose(traj, |timesteps|);
    (c.envStates, c.timesteps, c.key, add(bufferState, batchMajor))
  }

  /** The acting part of a learner state. */
  function CarryOf(s: MZLearnerState): Carry
  {
    Carry(s.envStates, s.timesteps, s.key)
  }

  /** The learner's `_env_step`: the same step on the learner state's carry; parameters, optimiser
      states and buffer state pass through untouched. */
  function LearnerEnvStep(act: Acting, s: MZLearnerState): (r: (MZLearnerState, seq<AZTransition>))
    requires WellFormed(CarryOf(s))
    ensures r.0.params == s.params && r.0.optStates == s.optStates && r.0.bufferState == s.bufferState
    ensures (CarryOf(r.0), r.1) == EnvStep(act, s.params, CarryOf(s))
  {
    var (c, tr) := EnvStep(act, s.params, CarryOf(s));
    (MZLearnerState(s.params, s.optStates, s.bufferState, c.key, c.envStates, c.timesteps), tr)
  }

  /** The learner's scan of `_env_step` over `rollout_length` steps. */
  function LearnerRollout(act: Acting, s: MZLearnerState, k: nat): (r: (MZLearnerState, seq<seq<AZTransition>>))
    requires WellFormed(CarryOf(s))
    ensures WellFormed(CarryOf(r.0))
    decreases k
  {
    if k == 0 then (s, [])
    else
      var (s1, tr) := LearnerEnvStep(act, s);
      var (sk, rest) := LearnerRollout(act, s1, k - 1);
      (sk, [tr] + rest)
  }

  /** Folding over the whole learner state is the same rollout as folding over the carry alone,
      with the parameters held fixed; parameters, optimiser states and buffer state come out as
      they went in. */
  lemma {:induction false} LearnerRolloutIsRollout(act: Acting, s: MZLearnerState, k: nat)
    requires WellFormed(CarryOf(s))
    ensures var (sk, traj) := LearnerRollout(act, s, k);
            && (CarryOf(sk), traj) == Rollout(act, s.params, CarryOf(s), k)
            && sk.params == s.params && sk.optStates == s.optStates && sk.bufferState == s.bufferState
    decreases k
  {
    if k > 0 {
      var s1 := LearnerEnvStep(act, s).0;
      LearnerRolloutIsRollout(act, s1, k - 1);
    }
  }
}
