/** The three losses of one update epoch (`_actor_loss_fn`, `_critic_loss_fn`,
    `_world_model_loss_fn`) on a sampled batch of sequences, indexed `[row][time]`. Every network
    is applied to each example on its own. */
module Losses {
  import opened MuZeroTypes
  import Matrix
  import Reduce
  import Returns
  import Planner

  /** Library numerics: the KL divergence from `Categorical(probs=search_policy)` to the actor's
      policy, the policy's entropy, `rlax.l2_loss` and `batch_n_step_bootstrapped_returns`. */
  datatype Numerics = Numerics(
    kl: (seq<real>, Policy) -> real,
    entropy: Policy -> real,
    l2: (real, real) -> real,
    nStepReturns: (seq<seq<real>>, seq<seq<real>>, seq<seq<real>>, nat) -> seq<seq<real>>)

  /** `x[:-1]`. */
  function DropLast<T>(s: seq<T>): (r: seq<T>)
    ensures |r| == if |s| == 0 then 0 else |s| - 1
    ensures forall i :: 0 <= i < |r| ==> r[i] == s[i]
  {
    if |s| == 0 then [] else s[..|s| - 1]
  }

  /** `x[1:]`. */
  function DropFirst<T>(s: seq<T>): (r: seq<T>)
    ensures |r| == if |s| == 0 then 0 else |s| - 1
    ensures forall i :: 0 <= i < |r| ==> r[i] == s[i + 1]
  {
    if |s| == 0 then [] else s[1..]
  }

  /** The number of aligned critic entries per row: `T - 1`, or none for an empty row. */
  function Aligned(t: nat): nat
  {
    if t == 0 then 0 else t - 1
  }

  /** `d_t = (1 - float(done)) * gamma`: the discount factor where the episode goes on, exactly
      zero where it ended. */
  function Discounts(row: seq<AZTransition>, gamma: real): (d: seq<real>)
    ensures |d| == |row|
    ensures forall t :: 0 <= t < |row| ==> d[t] == if row[t].done then 0.0 else gamma
  {
    seq(|row|, t requires 0 <= t < |row| => (1.0 - (if row[t].done then 1.0 else 0.0)) * gamma)
  }

  /** The four index-aligned inputs of the critic loss. */
  datatype CriticInputs = CriticInputs(
    predValues: seq<seq<real>>,
    rewards: seq<seq<real>>,
    discounts: seq<seq<real>>,
    bootstrapValues: seq<seq<real>>)

  /** `critic_apply_fn(critic_params, representation_apply_fn(representation_params, obs))[:-1]`
      for one row. */
  function PredValueRow(nets: Networks, criticParams: CriticParams, representationParams: RepresentationParams,
                        row: seq<AZTransition>): (v: seq<real>)
    ensures |v| == Aligned(|row|)
    ensures forall t :: 0 <= t < |v| ==> v[t] == nets.critic(criticParams, nets.representation(representationParams, row[t].obs))
  {
    DropLast(seq(|row|, t requires 0 <= t < |row| => nets.critic(criticParams, nets.representation(representationParams, row[t].obs))))
  }

  /** `reward[:-1]` for one row. */
  function RewardRow(row: seq<AZTransition>): (r: seq<real>)
    ensures |r| == Aligned(|row|)
    ensures forall t :: 0 <= t < |r| ==> r[t] == row[t].reward
  {
    DropLast(seq(|row|, t requires 0 <= t < |row| => row[t].reward))
  }

  /** `d_t[:-1]` for one row. */
  function DiscountRow(row: seq<AZTransition>, gamma: real): (d: seq<real>)
    ensures |d| == Aligned(|row|)
    ensures forall t :: 0 <= t < |d| ==> d[t] == if row[t].done then 0.0 else gamma
  {
    DropLast(Discounts(row, gamma))
  }

  /** `search_value[1:]` for one row. */
  function BootstrapRow(row: seq<AZTransition>): (v: seq<real>)
    ensures |v| == Aligned(|row|)
    ensures forall t :: 0 <= t < |v| ==> v[t] == row[t + 1].searchValue
  {
    DropFirst(seq(|row|, t requires 0 <= t < |row| => row[t].searchValue))
  }

  /** Critic target preparation: values predicted from freshly encoded observations, rewards and
      discounts are taken at steps `0..T-2`, bootstrap values are the search values at steps
      `1..T-1`; all four have `T - 1` entries per row and entry `t` of each belongs to step `t`. */
  function PrepareCriticInputs(nets: Networks, criticParams: CriticParams, representationParams: RepresentationParams,
                               batch: seq<seq<AZTransition>>, T: nat, gamma: real): (c: CriticInputs)
    requires Matrix.Rectangular(batch, T)
    ensures |c.predValues| == |c.rewards| == |c.discounts| == |c.bootstrapValues| == |batch|
    ensures Matrix.Rectangular(c.predValues, Aligned(T)) && Matrix.Rectangular(c.rewards, Aligned(T))
    ensures Matrix.Rectangular(c.discounts, Aligned(T)) && Matrix.Rectangular(c.bootstrapValues, Aligned(T))
    ensures forall b, t :: 0 <= b < |batch| && 0 <= t < Aligned(T) ==>
      && c.predValues[b][t] == nets.critic(criticParams, nets.representation(representationParams, batch[b][t].obs))
      && c.rewards[b][t] == batch[b][t].reward
      && c.discounts[b][t] == (if batch[b][t].done then 0.0 else gamma)
      && c.bootstrapValues[b][t] == batch[b][t + 1].searchValue
  {
    var B := |batch|;
    CriticInputs(
      seq(B, b requires 0 <= b < B => PredValueRow(nets, criticParams, representationParams, batch[b])),
      seq(B, b requires 0 <= b < B => RewardRow(batch[b])),
      seq(B, b requires 0 <= b < B => DiscountRow(batch[b], gamma)),
      seq(B, b requires 0 <= b < B => BootstrapRow(batch[b])))
  }

  /** The critic's regression targets: the injected n-step returns on the aligned inputs. */
  function CriticTargets(nets: Networks, num: Numerics, criticParams: CriticParams,
                         representationParams: RepresentationParams, batch: seq<seq<AZTransition>>,
                         T: nat, gamma: real, nSteps: nat): (g: seq<seq<real>>)
    requires Matrix.Rectangular(batch, T) && Returns.ShapePreserving(num.nStepReturns)
    ensures |g| == |batch| && Matrix.Rectangular(g, Aligned(T))
  {
    var c := PrepareCriticInputs(nets, criticParams, representationParams, batch, T, gamma);
    assert Returns.SameShape(c.rewards, c.discounts, c.bootstrapValues);
    num.nStepReturns(c.rewards, c.discounts, c.bootstrapValues, nSteps)
  }

  /** Where the full horizon fits, the critic target of step `t` is the reference n-step return
      over the rewards and done flags of steps `t..t+n-1` and the search value of step `t+n`. If an
      episode ends at step `t+k` inside the horizon, the target is the discounted sum of the rewards
      of steps `t..t+k` alone: nothing from after the episode boundary leaks in. */
  lemma {:induction false} CriticTargetAt(nets: Networks, num: Numerics, criticParams: CriticParams,
                                          representationParams: RepresentationParams,
                                          batch: seq<seq<AZTransition>>, T: nat, gamma: real, nSteps: nat,
                                          b: nat, t: nat, k: nat)
    requires Matrix.Rectangular(batch, T) && Returns.IsNStepReturns(num.nStepReturns)
    requires b < |batch| && 1 <= nSteps && t + nSteps <= Aligned(T)
    ensures var c := PrepareCriticInputs(nets, criticParams, representationParams, batch, T, gamma);
            CriticTargets(nets, num, criticParams, representationParams, batch, T, gamma, nSteps)[b][t]
            == Returns.NStepTarget(c.rewards[b], c.discounts[b], c.bootstrapValues[b], t, nSteps)
    ensures k < nSteps && batch[b][t + k].done ==>
            var c := PrepareCriticInputs(nets, criticParams, representationParams, batch, T, gamma);
            CriticTargets(nets, num, criticParams, representationParams, batch, T, gamma, nSteps)[b][t]
            == Returns.DiscountedRewardSum(c.rewards[b], c.discounts[b], t, k + 1)
  {
    var c := PrepareCriticInputs(nets, criticParams, representationParams, batch, T, gamma);
    assert Returns.SameShape(c.rewards, c.discounts, c.bootstrapValues);
    if k < nSteps && batch[b][t + k].done {
      Returns.TerminationTruncates(c.rewards[b], c.discounts[b], c.bootstrapValues[b], t, nSteps, k);
    }
  }

  /** `(critic_total_loss, value_loss)`: the total is `vf_coef` times the value loss. */
  predicate CriticTotal(r: (real, real), vfCoef: real)
  {
    r.0 == vfCoef * r.1
  }

  /** The per-entry value losses, `[row][time]`: the l2 loss between the predicted value and the
      critic target of each aligned entry. */
  function ValueLosses(nets: Networks, num: Numerics, criticParams: CriticParams,
                       representationParams: RepresentationParams, batch: seq<seq<AZTransition>>,
                       T: nat, gamma: real, nSteps: nat): (l: seq<seq<real>>)
    requires Matrix.Rectangular(batch, T) && Returns.ShapePreserving(num.nStepReturns)
    ensures |l| == |batch| && Matrix.Rectangular(l, Aligned(T))
    ensures forall b, t :: 0 <= b < |batch| && 0 <= t < Aligned(T) ==>
      l[b][t] == num.l2(PrepareCriticInputs(nets, criticParams, representationParams, batch, T, gamma).predValues[b][t],
                        CriticTargets(nets, num, criticParams, representationParams, batch, T, gamma, nSteps)[b][t])
  {
    var c := PrepareCriticInputs(nets, criticParams, representationParams, batch, T, gamma);
    var targets := CriticTargets(nets, num, criticParams, representationParams, batch, T, gamma, nSteps);
    seq(|batch|, b requires 0 <= b < |batch| =>
      seq(Aligned(T), t requires 0 <= t < Aligned(T) => num.l2(c.predValues[b][t], targets[b][t])))
  }

  /** `_critic_loss_fn`: returns `(critic_total_loss, value_loss)`; the value loss is the mean of
      the l2 loss between prediction and target over all aligned entries. */
  function CriticLoss(nets: Networks, num: Numerics, criticParams: CriticParams,
                      representationParams: RepresentationParams, batch: seq<seq<AZTransition>>,
                      T: nat, gamma: real, nSteps: nat, vfCoef: real): (r: (real, real))
    requires Matrix.Rectangular(batch, T) && |batch| > 0 && T >= 2
    requires Returns.ShapePreserving(num.nStepReturns)
    ensures CriticTotal(r, vfCoef)
    ensures var losses := ValueLosses(nets, num, criticParams, representationParams, batch, T, gamma, nSteps);
            |Matrix.Flatten(losses)| > 0 && r.1 == Reduce.Mean(Matrix.Flatten(losses))
  {
    var losses := ValueLosses(nets, num, criticParams, representationParams, batch, T, gamma, nSteps);
    Matrix.FlattenLength(losses, T - 1);
    var valueLoss := Reduce.Mean(Matrix.Flatten(losses));
    (vfCoef * valueLoss, valueLoss)
  }

  /** The transitions of `x` and `y` agree on what the critic reads: observation, reward and done
      flag before the last step, search value after the first. */
  ghost predicate SameCriticView(x: seq<seq<AZTransition>>, y: seq<seq<AZTransition>>, T: nat)
    requires Matrix.Rectangular(x, T) && Matrix.Rectangular(y, T) && |x| == |y|
  {
    forall b, t :: 0 <= b < |x| && 0 <= t < T ==>
      && (t < T - 1 ==> x[b][t].obs == y[b][t].obs && x[b][t].reward == y[b][t].reward && x[b][t].done == y[b][t].done)
      && (t > 0 ==> x[b][t].searchValue == y[b][t].searchValue)
  }

  /** The critic inputs ignore the observation, reward and done flag of the last step and the
      search value of the first: the last step only supplies a bootstrap value. */
  lemma {:induction false} CriticInputsView(nets: Networks, criticParams: CriticParams,
                                            representationParams: RepresentationParams,
                                            x: seq<seq<AZTransition>>, y: seq<seq<AZTransition>>, T: nat, gamma: real)
    requires Matrix.Rectangular(x, T) && Matrix.Rectangular(y, T) && |x| == |y|
    requires SameCriticView(x, y, T)
    ensures PrepareCriticInputs(nets, criticParams, representationParams, x, T, gamma)
         == PrepareCriticInputs(nets, criticParams, representationParams, y, T, gamma)
  {
    var cx := PrepareCriticInputs(nets, criticParams, representationParams, x, T, gamma);
    var cy := PrepareCriticInputs(nets, criticParams, representationParams, y, T, gamma);
    forall b | 0 <= b < |x|
      ensures cx.predValues[b] == cy.predValues[b] && cx.rewards[b] == cy.rewards[b]
      ensures cx.discounts[b] == cy.discounts[b] && cx.bootstrapValues[b] == cy.bootstrapValues[b]
    {
    }
  }

  /** The critic loss reads only what the critic inputs read: batches that agree on the
      observations, rewards and done flags before the last step and on the search values after the
      first have the same value loss and the same total. */
  lemma {:induction false} CriticLossView(nets: Networks, num: Numerics, criticParams: CriticParams,
                                          representationParams: RepresentationParams,
                                          x: seq<seq<AZTransition>>, y: seq<seq<AZTransition>>,
                                          T: nat, gamma: real, nSteps: nat, vfCoef: real)
    requires Matrix.Rectangular(x, T) && Matrix.Rectangular(y, T) && |x| == |y| > 0 && T >= 2
    requires Returns.ShapePreserving(num.nStepReturns) && SameCriticView(x, y, T)
    ensures CriticLoss(nets, num, criticParams, representationParams, x, T, gamma, nSteps, vfCoef)
         == CriticLoss(nets, num, criticParams, representationParams, y, T, gamma, nSteps, vfCoef)
  {
    CriticInputsView(nets, criticParams, representationParams, x, y, T, gamma);
    assert CriticTargets(nets, num, criticParams, representationParams, x, T, gamma, nSteps)
        == CriticTargets(nets, num, criticParams, representationParams, y, T, gamma, nSteps);
    var lx := ValueLosses(nets, num, criticParams, representationParams, x, T, gamma, nSteps);
    var ly := ValueLosses(nets, num, criticParams, representationParams, y, T, gamma, nSteps);
    forall b | 0 <= b < |x|
      ensures lx[b] == ly[b]
    {
    }
    assert lx == ly;
    var rx := CriticLoss(nets, num, criticParams, representationParams, x, T, gamma, nSteps, vfCoef);
    var ry := CriticLoss(nets, num, criticParams, representationParams, y, T, gamma, nSteps, vfCoef);
    assert rx.1 == ry.1;
    CriticTotalDetermined(rx, ry, vfCoef);
  }

  /** The critic total is determined by the value loss. */
  lemma {:induction false} CriticTotalDetermined(a: (real, real), b: (real, real), vfCoef: real)
    requires CriticTotal(a, vfCoef) && CriticTotal(b, vfCoef) && a.1 == b.1
    ensures a == b
  {
    assert a.0 == b.0;
  }

  /** The per-example actor terms, `[row][time]`: the KL divergence from the recorded search
      policy to the actor's policy on the freshly encoded observation, and that policy's entropy. */
  function ActorTerms(nets: Networks, num: Numerics, actorParams: ActorParams,
                      representationParams: RepresentationParams, batch: seq<seq<AZTransition>>, T: nat)
    : (r: (seq<seq<real>>, seq<seq<real>>))
    requires Matrix.Rectangular(batch, T)
    ensures |r.0| == |r.1| == |batch| && Matrix.Rectangular(r.0, T) && Matrix.Rectangular(r.1, T)
    ensures forall b, t :: 0 <= b < |batch| && 0 <= t < T ==>
      var pi := nets.actor(actorParams, nets.representation(representationParams, batch[b][t].obs));
      r.0[b][t] == num.kl(batch[b][t].searchPolicy, pi) && r.1[b][t] == num.entropy(pi)
  {
    var B := |batch|;
    var policies := seq(B, b requires 0 <= b < B => seq(T, t requires 0 <= t < T =>
      nets.actor(actorParams, nets.representation(representationParams, batch[b][t].obs))));
    (seq(B, b requires 0 <= b < B => seq(T, t requires 0 <= t < T => num.kl(batch[b][t].searchPolicy, policies[b][t]))),
     seq(B, b requires 0 <= b < B => seq(T, t requires 0 <= t < T => num.entropy(policies[b][t]))))
  }

  /** `(total_loss_actor, actor_loss, entropy)`: the total is the actor loss less `ent_coef` times
      the entropy. */
  predicate ActorTotal(r: (real, real, real), entCoef: real)
  {
    r.0 == r.1 - entCoef * r.2
  }

  /** `_actor_loss_fn`: returns `(total_loss_actor, actor_loss, entropy)`. The actor is distilled
      towards the recorded search policy (mean KL over the batch); the mean entropy is a bonus
      weighted by `ent_coef`. */
  function ActorLoss(nets: Networks, num: Numerics, actorParams: ActorParams,
                     representationParams: RepresentationParams, batch: seq<seq<AZTransition>>,
                     T: nat, entCoef: real): (r: (real, real, real))
    requires Matrix.Rectangular(batch, T) && |batch| > 0 && T > 0
    ensures ActorTotal(r, entCoef)
    ensures var terms := ActorTerms(nets, num, actorParams, representationParams, batch, T);
            && |Matrix.Flatten(terms.0)| > 0 && |Matrix.Flatten(terms.1)| > 0
            && r.1 == Reduce.Mean(Matrix.Flatten(terms.0)) && r.2 == Reduce.Mean(Matrix.Flatten(terms.1))
  {
    var (kls, entropies) := ActorTerms(nets, num, actorParams, representationParams, batch, T);
    Matrix.FlattenLength(kls, T);
    Matrix.FlattenLength(entropies, T);
    var actorLoss := Reduce.Mean(Matrix.Flatten(kls));
    var entropy := Reduce.Mean(Matrix.Flatten(entropies));
    (actorLoss - entCoef * entropy, actorLoss, entropy)
  }

  /** The actor loss reads each transition's observation and search policy and nothing else: not
      the action taken, the reward, the done flag or any value. */
  lemma {:induction false} ActorLossView(nets: Networks, num: Numerics, actorParams: ActorParams,
                                         representationParams: RepresentationParams,
                                         x: seq<seq<AZTransition>>, y: seq<seq<AZTransition>>, T: nat, entCoef: real)
    requires Matrix.Rectangular(x, T) && Matrix.Rectangular(y, T) && |x| == |y| > 0 && T > 0
    requires forall b, t :: 0 <= b < |x| && 0 <= t < T ==>
      x[b][t].obs == y[b][t].obs && x[b][t].searchPolicy == y[b][t].searchPolicy
    ensures ActorLoss(nets, num, actorParams, representationParams, x, T, entCoef)
         == ActorLoss(nets, num, actorParams, representationParams, y, T, entCoef)
  {
    var tx := ActorTerms(nets, num, actorParams, representationParams, x, T);
    var ty := ActorTerms(nets, num, actorParams, representationParams, y, T);
    forall b | 0 <= b < |x|
      ensures tx.0[b] == ty.0[b] && tx.1[b] == ty.1[b]
    {
    }
    assert tx.0 == ty.0 && tx.1 == ty.1;
    var lx := ActorLoss(nets, num, actorParams, representationParams, x, T, entCoef);
    var ly := ActorLoss(nets, num, actorParams, representationParams, y, T, entCoef);
    assert lx.1 == ly.1 && lx.2 == ly.2;
    assert lx.0 == ly.0;
  }

  /** The world model's imagined rollout from one embedding: each action moves the latent through
      the dynamics network and yields one predicted reward. No real observation is consulted. */
  function Unroll(dynamics: (DynamicsParams, Embedding, Action) -> (Embedding, real), dynamicsParams: DynamicsParams,
                  embedding: Embedding, actions: seq<Action>): (rewards: seq<real>)
    ensures |rewards| == |actions|
    decreases |actions|
  {
    if actions == [] then []
    else
      var (next, reward) := dynamics(dynamicsParams, embedding, actions[0]);
      [reward] + Unroll(dynamics, dynamicsParams, next, actions[1..])
  }

  /** Predicted reward `t` depends on the actions `0..t` only: unrolling a prefix of the actions
      gives the same prefix of rewards. */
  lemma {:induction false} UnrollPrefix(dynamics: (DynamicsParams, Embedding, Action) -> (Embedding, real),
                                        dynamicsParams: DynamicsParams, embedding: Embedding,
                                        actions: seq<Action>, k: nat)
    requires k <= |actions|
    ensures Unroll(dynamics, dynamicsParams, embedding, actions)[..k]
         == Unroll(dynamics, dynamicsParams, embedding, actions[..k])
    decreases k
  {
    if k > 0 {
      var next := dynamics(dynamicsParams, embedding, actions[0]).0;
      UnrollPrefix(dynamics, dynamicsParams, next, actions[1..], k - 1);
      assert actions[..k][1..] == actions[1..][..k - 1];
    }
  }

  /** The first imagined reward is the reward the search's recurrent function reports for the same
      action from the same embedding: search and world-model training share one dynamics model. */
  lemma {:induction false} UnrollMatchesRecurrentFn(nets: Networks, params: MZParams, key: Key, embedding: Embedding, actions: seq<Action>)
    requires |actions| > 0
    ensures Unroll(nets.dynamics, params.worldModel.dynamics, embedding, actions)[0]
         == Planner.RecurrentFn(nets, params, key, actions[0], embedding).0.reward
  {
  }

  /** The `jax.lax.scan` of `unroll_fn` over time-major actions, all rows at once: the carry holds
      one embedding per row, each step emits one predicted reward per row. */
  function UnrollScan(dynamics: (DynamicsParams, Embedding, Action) -> (Embedding, real), dynamicsParams: DynamicsParams,
                      carry: seq<Embedding>, actions: seq<seq<Action>>): (out: seq<seq<real>>)
    requires Matrix.Rectangular(actions, |carry|)
    ensures |out| == |actions| && Matrix.Rectangular(out, |carry|)
    decreases |actions|
  {
    if actions == [] then []
    else
      var n := |carry|;
      var stepped := seq(n, b requires 0 <= b < n => dynamics(dynamicsParams, carry[b], actions[0][b]));
      [seq(n, b requires 0 <= b < n => stepped[b].1)]
        + UnrollScan(dynamics, dynamicsParams, seq(n, b requires 0 <= b < n => stepped[b].0), actions[1..])
  }

  /** A sequence whose head is the first step's reward and whose tail is the unroll from the
      first step's embedding is the whole unroll. */
  lemma {:induction false} UnrollCons(dynamics: (DynamicsParams, Embedding, Action) -> (Embedding, real),
                                      dynamicsParams: DynamicsParams, embedding: Embedding,
                                      actions: seq<Action>, rewards: seq<real>)
    requires |actions| > 0 && |rewards| > 0
    requires rewards[0] == dynamics(dynamicsParams, embedding, actions[0]).1
    requires rewards[1..] == Unroll(dynamics, dynamicsParams, dynamics(dynamicsParams, embedding, actions[0]).0, actions[1..])
    ensures rewards == Unroll(dynamics, dynamicsParams, embedding, actions)
  {
    assert rewards == [rewards[0]] + rewards[1..];
  }

  /** Column `b` of the batched scan is the single-row unroll of row `b`. */
  lemma {:induction false} UnrollScanColumn(dynamics: (DynamicsParams, Embedding, Action) -> (Embedding, real),
                                            dynamicsParams: DynamicsParams, carry: seq<Embedding>,
                                            actions: seq<seq<Action>>, b: nat)
    requires Matrix.Rectangular(actions, |carry|) && b < |carry|
    ensures Matrix.Column(UnrollScan(dynamics, dynamicsParams, carry, actions), |carry|, b)
         == Unroll(dynamics, dynamicsParams, carry[b], Matrix.Column(actions, |carry|, b))
    decreases |actions|
  {
    if actions != [] {
      var n := |carry|;
      var stepped := seq(n, i requires 0 <= i < n => dynamics(dynamicsParams, carry[i], actions[0][i]));
      var next := seq(n, i requires 0 <= i < n => stepped[i].0);
      var out := UnrollScan(dynamics, dynamicsParams, carry, actions);
      var col := Matrix.Column(out, n, b);
      var acts := Matrix.Column(actions, n, b);
      assert out[1..] == UnrollScan(dynamics, dynamicsParams, next, actions[1..]);
      assert col[1..] == Unroll(dynamics, dynamicsParams, next[b], acts[1..]) by {
        UnrollScanColumn(dynamics, dynamicsParams, next, actions[1..], b);
        Matrix.ColumnOfTail(actions, n, b);
        Matrix.ColumnOfTail(out, n, b);
      }
      assert col[0] == stepped[b].1 && acts[0] == actions[0][b];
      UnrollCons(dynamics, dynamicsParams, carry[b], acts, col);
    }
  }

  /** The actions of a batch, `[row][time]`. */
  function Actions(batch: seq<seq<AZTransition>>, T: nat): (a: seq<seq<Action>>)
    requires Matrix.Rectangular(batch, T)
    ensures |a| == |batch| && Matrix.Rectangular(a, T)
    ensures forall b, t :: 0 <= b < |batch| && 0 <= t < T ==> a[b][t] == batch[b][t].action
  {
    seq(|batch|, b requires 0 <= b < |batch| => seq(T, t requires 0 <= t < T => batch[b][t].action))
  }

  /** The embedding of each row's first observation, the only one the world model encodes. */
  function FirstEmbeddings(nets: Networks, worldModel: WorldModelParams, batch: seq<seq<AZTransition>>, T: nat)
    : (e: seq<Embedding>)
    requires Matrix.Rectangular(batch, T) && T > 0
    ensures |e| == |batch|
    ensures forall b :: 0 <= b < |batch| ==> e[b] == nets.representation(worldModel.representation, batch[b][0].obs)
  {
    seq(|batch|, b requires 0 <= b < |batch| => nets.representation(worldModel.representation, batch[b][0].obs))
  }

  /** The world model's predicted rewards, `[row][time]`: encode the observations, keep the
      embedding of step 0 only, swap the actions to time-major, scan, and swap back. */
  function PredictedRewards(nets: Networks, worldModel: WorldModelParams, batch: seq<seq<AZTransition>>, T: nat)
    : (p: seq<seq<real>>)
    requires Matrix.Rectangular(batch, T) && T > 0
    ensures |p| == |batch| && Matrix.Rectangular(p, T)
  {
    var B := |batch|;
    var first := FirstEmbeddings(nets, worldModel, batch, T);
    var timeMajor := Matrix.Transpose(Actions(batch, T), T);
    Matrix.Transpose(UnrollScan(nets.dynamics, worldModel.dynamics, first, timeMajor), B)
  }

  /** Row `b` of the predictions is the imagined rollout from the embedding of row `b`'s first
      observation along row `b`'s recorded actions: one reward per action. */
  lemma {:induction false} PredictedRewardsRow(nets: Networks, worldModel: WorldModelParams,
                                               batch: seq<seq<AZTransition>>, T: nat, b: nat)
    requires Matrix.Rectangular(batch, T) && T > 0 && b < |batch|
    ensures PredictedRewards(nets, worldModel, batch, T)[b]
         == Unroll(nets.dynamics, worldModel.dynamics,
                   nets.representation(worldModel.representation, batch[b][0].obs), Actions(batch, T)[b])
  {
    var B := |batch|;
    var first := FirstEmbeddings(nets, worldModel, batch, T);
    var timeMajor := Matrix.Transpose(Actions(batch, T), T);
    UnrollScanColumn(nets.dynamics, worldModel.dynamics, first, timeMajor, b);
    Matrix.TransposeInvolution(Actions(batch, T), T);
    Matrix.TransposeRows(timeMajor, B, b);
    var scan := UnrollScan(nets.dynamics, worldModel.dynamics, first, timeMajor);
    Matrix.TransposeRows(scan, B, b);
  }

  /** Predicted reward `t` of a row depends on the row's first observation and its actions
      `0..t` only: later observations, rewards and done flags never reach it. */
  lemma {:induction false} PredictedRewardReads(nets: Networks, worldModel: WorldModelParams,
                                                x: seq<seq<AZTransition>>, y: seq<seq<AZTransition>>, T: nat,
                                                b: nat, t: nat)
    requires Matrix.Rectangular(x, T) && Matrix.Rectangular(y, T) && b < |x| && b < |y| && t < T
    requires x[b][0].obs == y[b][0].obs
    requires forall i :: 0 <= i <= t ==> x[b][i].action == y[b][i].action
    ensures PredictedRewards(nets, worldModel, x, T)[b][t] == PredictedRewards(nets, worldModel, y, T)[b][t]
  {
    PredictedRewardsRow(nets, worldModel, x, T, b);
    PredictedRewardsRow(nets, worldModel, y, T, b);
    var e := nets.representation(worldModel.representation, x[b][0].obs);
    var ax := Actions(x, T)[b];
    var ay := Actions(y, T)[b];
    UnrollPrefix(nets.dynamics, worldModel.dynamics, e, ax, t + 1);
    UnrollPrefix(nets.dynamics, worldModel.dynamics, e, ay, t + 1);
    assert ax[..t + 1] == ay[..t + 1];
    assert Unroll(nets.dynamics, worldModel.dynamics, e, ax)[t]
        == Unroll(nets.dynamics, worldModel.dynamics, e, ax)[..t + 1][t];
    assert Unroll(nets.dynamics, worldModel.dynamics, e, ay)[t]
        == Unroll(nets.dynamics, worldModel.dynamics, e, ay)[..t + 1][t];
  }

  /** The per-example reward losses, `[row][time]`: the l2 loss between predicted and recorded
      reward, with no mask (the episode-boundary mask is commented out in the source). */
  function RewardLosses(nets: Networks, num: Numerics, worldModel: WorldModelParams,
                        batch: seq<seq<AZTransition>>, T: nat): (l: seq<seq<real>>)
    requires Matrix.Rectangular(batch, T) && T > 0
    ensures |l| == |batch| && Matrix.Rectangular(l, T)
    ensures forall b, t :: 0 <= b < |batch| && 0 <= t < T ==>
      l[b][t] == num.l2(PredictedRewards(nets, worldModel, batch, T)[b][t], batch[b][t].reward)
  {
    var predicted := PredictedRewards(nets, worldModel, batch, T);
    seq(|batch|, b requires 0 <= b < |batch| =>
      seq(T, t requires 0 <= t < T => num.l2(predicted[b][t], batch[b][t].reward)))
  }

  /** `_world_model_loss_fn`: the mean reward loss over every entry of the batch. */
  function WorldModelLoss(nets: Networks, num: Numerics, worldModel: WorldModelParams,
                          batch: seq<seq<AZTransition>>, T: nat): real
    requires Matrix.Rectangular(batch, T) && |batch| > 0 && T > 0
  {
    var losses := RewardLosses(nets, num, worldModel, batch, T);
    Matrix.FlattenLength(losses, T);
    Reduce.Mean(Matrix.Flatten(losses))
  }

  /** The reward loss depends on each row's first observation, the actions and the rewards only;
      in particular done flags do not mask anything. */
  lemma {:induction false} WorldModelLossReads(nets: Networks, num: Numerics, worldModel: WorldModelParams,
                                               x: seq<seq<AZTransition>>, y: seq<seq<AZTransition>>, T: nat)
    requires Matrix.Rectangular(x, T) && Matrix.Rectangular(y, T) && |x| == |y| > 0 && T > 0
    requires forall b :: 0 <= b < |x| ==> x[b][0].obs == y[b][0].obs
    requires forall b, t :: 0 <= b < |x| && 0 <= t < T ==>
      x[b][t].action == y[b][t].action && x[b][t].reward == y[b][t].reward
    ensures WorldModelLoss(nets, num, worldModel, x, T) == WorldModelLoss(nets, num, worldModel, y, T)
  {
    var px := PredictedRewards(nets, worldModel, x, T);
    var py := PredictedRewards(nets, worldModel, y, T);
    var lx := RewardLosses(nets, num, worldModel, x, T);
    var ly := RewardLosses(nets, num, worldModel, y, T);
    forall b | 0 <= b < |x|
      ensures lx[b] == ly[b]
    {
      forall t | 0 <= t < T
        ensures lx[b][t] == ly[b][t]
      {
        PredictedRewardReads(nets, worldModel, x, y, T, b, t);
      }
    }
    assert lx == ly;
  }
}
