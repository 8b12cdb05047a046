/** The learner (`get_learner_fn`): update epochs with gradients averaged over every replica, the
    update step (rollout, buffer add, epochs) and its fold `learner_fn`, and the replicated
    initial learner state built by `learner_setup`. A group of replicas is indexed
    `[device][batch row]`: `jax.pmap` over devices, `jax.vmap` over the update batch. */
module Update {
  import opened MuZeroTypes
  import Matrix
  import Reduce
  import Returns
  import Rollout
  import Losses

  /** An optax gradient transformation (`update`) and `optax.apply_updates` for one parameter
      tree. */
  datatype Optimiser<!P> = Optimiser(update: (Grad, OptState) -> (Grad, OptState), apply: (P, Grad) -> P)

  /** The gradients `jax.value_and_grad` computes: each with respect to the FIRST argument of its
      loss only, so the actor and critic gradients have the shape of the actor and critic
      parameters and carry nothing for the representation network. */
  datatype Gradients = Gradients(
    actor: (ActorParams, RepresentationParams, seq<seq<AZTransition>>) -> Grad,
    critic: (CriticParams, RepresentationParams, seq<seq<AZTransition>>) -> Grad,
    worldModel: (WorldModelParams, seq<seq<AZTransition>>) -> Grad)

  /** The configuration values the learner reads, and the leaf counts of the three gradients. */
  datatype Hyper = Hyper(
    gamma: real, nSteps: nat, vfCoef: real, entCoef: real,
    epochs: nat, rolloutLength: nat, batchSize: nat, sequenceLength: nat,
    actorDim: nat, criticDim: nat, worldModelDim: nat)

  /** Everything the learner function closes over. */
  datatype Learner = Learner(
    acting: Rollout.Acting,
    num: Losses.Numerics,
    grads: Gradients,
    actorOpt: Optimiser<ActorParams>,
    criticOpt: Optimiser<CriticParams>,
    worldModelOpt: Optimiser<WorldModelParams>,
    add: (BufferState, seq<seq<AZTransition>>) -> BufferState,
    sample: (BufferState, Key) -> seq<seq<AZTransition>>,
    hyper: Hyper)

  /** What the collaborators guarantee: the buffer samples `batch_size` sequences of
      `sample_sequence_length` (at least two) steps, the returns function keeps shapes, and each
      gradient has a fixed number of leaves. */
  ghost predicate Valid(L: Learner)
  {
    && L.hyper.batchSize > 0 && L.hyper.sequenceLength >= 2
    && Returns.ShapePreserving(L.num.nStepReturns)
    && (forall s, k :: |L.sample(s, k)| == L.hyper.batchSize
                       && Matrix.Rectangular(L.sample(s, k), L.hyper.sequenceLength))
    && (forall p, r, s :: |L.grads.actor(p, r, s)| == L.hyper.actorDim)
    && (forall p, r, s :: |L.grads.critic(p, r, s)| == L.hyper.criticDim)
    && (forall p, s :: |L.grads.worldModel(p, s)| == L.hyper.worldModelDim)
  }

  /** The scan carry of `_update_epoch`. */
  datatype UpdateState = UpdateState(params: MZParams, optStates: MZOptStates, bufferState: BufferState, key: Key)

  /** The loss info each epoch reports. */
  datatype LossInfo = LossInfo(totalLoss: real, valueLoss: real, actorLoss: real, entropy: real, rewardLoss: real)

  /** A group of replicas: at least one device, `rows` replicas on each. */
  predicate Shaped<T>(g: seq<seq<T>>, rows: nat)
  {
    |g| > 0 && rows > 0 && Matrix.Rectangular(g, rows)
  }

  /** One optimiser step on one parameter tree. */
  function Step<P>(o: Optimiser<P>, params: P, state: OptState, grad: Grad): (P, OptState)
  {
    var (updates, newState) := o.update(grad, state);
    (o.apply(params, updates), newState)
  }

  /** The three optimiser steps and the repacking of `MZParams` and `MZOptStates`: each parameter
      tree moves by its own optimiser, with its own gradient and its own optimiser state. */
  function ApplyUpdates(L: Learner, params: MZParams, opt: MZOptStates,
                        actorGrad: Grad, criticGrad: Grad, worldModelGrad: Grad): (r: (MZParams, MZOptStates))
    ensures (r.0.prediction.actor, r.1.actor) == Step(L.actorOpt, params.prediction.actor, opt.actor, actorGrad)
    ensures (r.0.prediction.critic, r.1.critic) == Step(L.criticOpt, params.prediction.critic, opt.critic, criticGrad)
    ensures (r.0.worldModel, r.1.worldModel) == Step(L.worldModelOpt, params.worldModel, opt.worldModel, worldModelGrad)
  {
    var (actor, actorState) := Step(L.actorOpt, params.prediction.actor, opt.actor, actorGrad);
    var (critic, criticState) := Step(L.criticOpt, params.prediction.critic, opt.critic, criticGrad);
    var (worldModel, worldModelState) := Step(L.worldModelOpt, params.worldModel, opt.worldModel, worldModelGrad);
    (MZParams(ActorCriticParams(actor, critic), worldModel), MZOptStates(actorState, criticState, worldModelState))
  }

  /** No cross-wiring: the new representation and dynamics parameters do not depend on the actor
      or critic gradients, and the new actor parameters do not depend on the critic or world-model
      gradients. In particular only the world-model loss trains the representation network. */
  lemma {:induction false} ApplyUpdatesSeparate(L: Learner, params: MZParams, opt: MZOptStates,
                             a1: Grad, c1: Grad, w1: Grad, a2: Grad, c2: Grad, w2: Grad)
    ensures w1 == w2 ==>
      && ApplyUpdates(L, params, opt, a1, c1, w1).0.worldModel == ApplyUpdates(L, params, opt, a2, c2, w2).0.worldModel
      && ApplyUpdates(L, params, opt, a1, c1, w1).1.worldModel == ApplyUpdates(L, params, opt, a2, c2, w2).1.worldModel
    ensures a1 == a2 ==>
      && ApplyUpdates(L, params, opt, a1, c1, w1).0.prediction.actor == ApplyUpdates(L, params, opt, a2, c2, w2).0.prediction.actor
      && ApplyUpdates(L, params, opt, a1, c1, w1).1.actor == ApplyUpdates(L, params, opt, a2, c2, w2).1.actor
    ensures c1 == c2 ==>
      && ApplyUpdates(L, params, opt, a1, c1, w1).0.prediction.critic == ApplyUpdates(L, params, opt, a2, c2, w2).0.prediction.critic
      && ApplyUpdates(L, params, opt, a1, c1, w1).1.critic == ApplyUpdates(L, params, opt, a2, c2, w2).1.critic
  {
  }

  /** What one replica computes before the reductions: the key it keeps, the three gradients and
      the three loss-info vectors `(total, actor_loss, entropy)`, `(total, value_loss)` and
      `(reward_loss, reward_loss)`. */
  datatype Local = Local(
    key: Key,
    actorGrad: Grad, criticGrad: Grad, worldModelGrad: Grad,
    actorInfo: seq<real>, criticInfo: seq<real>, worldModelInfo: seq<real>)

  /** How each loss-info vector's total relates to its parts: the actor total is the actor loss
      less `ent_coef` times the entropy, the critic total is `vf_coef` times the value loss, and the
      world model reports its reward loss twice. */
  predicate Totals(H: Hyper, actor: seq<real>, critic: seq<real>, reward: seq<real>)
    requires |actor| == 3 && |critic| == 2 && |reward| == 2
  {
    && actor[0] == actor[1] - H.entCoef * actor[2]
    && critic[0] == H.vfCoef * critic[1]
    && reward[0] == reward[1]
  }

  /** The three loss results as loss-info vectors. */
  function Vectors(H: Hyper, actor: (real, real, real), critic: (real, real), reward: real)
    : (r: (seq<real>, seq<real>, seq<real>))
    requires Losses.ActorTotal(actor, H.entCoef) && Losses.CriticTotal(critic, H.vfCoef)
    ensures |r.0| == 3 && |r.1| == 2 && |r.2| == 2
    ensures Totals(H, r.0, r.1, r.2)
    ensures r.0 == [actor.0, actor.1, actor.2] && r.1 == [critic.0, critic.1] && r.2 == [reward, reward]
  {
    ([actor.0, actor.1, actor.2], [critic.0, critic.1], [reward, reward])
  }

  /** The loss info of the three losses on one sampled batch: `(total, actor_loss, entropy)`,
      `(total, value_loss)` and `(reward_loss, reward_loss)`. */
  function LossInfos(L: Learner, p: MZParams, batch: seq<seq<AZTransition>>): (r: (seq<real>, seq<real>, seq<real>))
    requires Matrix.Rectangular(batch, L.hyper.sequenceLength) && |batch| > 0 && L.hyper.sequenceLength >= 2
    requires Returns.ShapePreserving(L.num.nStepReturns)
    ensures |r.0| == 3 && |r.1| == 2 && |r.2| == 2
    ensures Totals(L.hyper, r.0, r.1, r.2)
    ensures var actor := Losses.ActorLoss(L.acting.nets, L.num, p.prediction.actor, p.worldModel.representation,
                                          batch, L.hyper.sequenceLength, L.hyper.entCoef);
            r.0 == [actor.0, actor.1, actor.2]
    ensures var critic := Losses.CriticLoss(L.acting.nets, L.num, p.prediction.critic, p.worldModel.representation,
                                            batch, L.hyper.sequenceLength, L.hyper.gamma, L.hyper.nSteps, L.hyper.vfCoef);
            r.1 == [critic.0, critic.1]
    ensures var reward := Losses.WorldModelLoss(L.acting.nets, L.num, p.worldModel, batch, L.hyper.sequenceLength);
            r.2 == [reward, reward]
  {
    var H := L.hyper;
    var nets := L.acting.nets;
    var actor := Losses.ActorLoss(nets, L.num, p.prediction.actor, p.worldModel.representation, batch,
                                  H.sequenceLength, H.entCoef);
    var critic := Losses.CriticLoss(nets, L.num, p.prediction.critic, p.worldModel.representation, batch,
                                    H.sequenceLength, H.gamma, H.nSteps, H.vfCoef);
    var reward := Losses.WorldModelLoss(nets, L.num, p.worldModel, batch, H.sequenceLength);
    Vectors(H, actor, critic, reward)
  }

  /** The batch one replica samples: from its own buffer, with the second half of its key's
      split (the first half is carried on). */
  function Batch(L: Learner, u: UpdateState): (batch: seq<seq<AZTransition>>)
    requires Valid(L)
    ensures |batch| == L.hyper.batchSize > 0 && Matrix.Rectangular(batch, L.hyper.sequenceLength)
  {
    L.sample(u.bufferState, L.acting.split(u.key).1)
  }

  /** The per-replica part of `_update_epoch`: split the key, sample a batch of sequences from
      this replica's buffer, and evaluate the three losses and their gradients at this replica's
      parameters. */
  function LocalStep(L: Learner, u: UpdateState): (l: Local)
    requires Valid(L)
    ensures l.key == L.acting.split(u.key).0
    ensures var batch := Batch(L, u);
            && l.actorGrad == L.grads.actor(u.params.prediction.actor, u.params.worldModel.representation, batch)
            && l.criticGrad == L.grads.critic(u.params.prediction.critic, u.params.worldModel.representation, batch)
            && l.worldModelGrad == L.grads.worldModel(u.params.worldModel, batch)
            && (l.actorInfo, l.criticInfo, l.worldModelInfo) == LossInfos(L, u.params, batch)
    ensures |l.actorGrad| == L.hyper.actorDim && |l.criticGrad| == L.hyper.criticDim
    ensures |l.worldModelGrad| == L.hyper.worldModelDim
    ensures |l.actorInfo| == 3 && |l.criticInfo| == 2 && |l.worldModelInfo| == 2
    ensures Totals(L.hyper, l.actorInfo, l.criticInfo, l.worldModelInfo)
  {
    var batch := Batch(L, u);
    var p := u.params;
    var info := LossInfos(L, p, batch);
    Local(L.acting.split(u.key).0,
          L.grads.actor(p.prediction.actor, p.worldModel.representation, batch),
          L.grads.critic(p.prediction.critic, p.worldModel.representation, batch),
          L.grads.worldModel(p.worldModel, batch),
          info.0, info.1, info.2)
  }

  /** A replica's gradients have the sizes of their parameter trees and its loss-info vectors
      have three, two and two entries. */
  predicate Sized(H: Hyper, x: Local)
  {
    && |x.actorGrad| == H.actorDim && |x.criticGrad| == H.criticDim && |x.worldModelGrad| == H.worldModelDim
    && |x.actorInfo| == 3 && |x.criticInfo| == 2 && |x.worldModelInfo| == 2
  }

  /** A group of per-replica results, every one of them sized. */
  predicate LocalsShaped(H: Hyper, l: seq<seq<Local>>, rows: nat)
  {
    Shaped(l, rows) && forall d, b :: 0 <= d < |l| && 0 <= b < rows ==> Sized(H, l[d][b])
  }

  /** `LocalStep` on every replica of the group. */
  function Locals(L: Learner, g: seq<seq<UpdateState>>, rows: nat): (l: seq<seq<Local>>)
    requires Valid(L) && Shaped(g, rows)
    ensures |l| == |g| && LocalsShaped(L.hyper, l, rows)
    ensures forall d, b {:trigger LocalStep(L, g[d][b])} :: 0 <= d < |g| && 0 <= b < rows ==> l[d][b] == LocalStep(L, g[d][b])
  {
    seq(|g|, d requires 0 <= d < |g| => seq(rows, b requires 0 <= b < rows => LocalStep(L, g[d][b])))
  }

  /** One vector-valued field of every replica, as a group for the reductions. */
  function Project(l: seq<seq<Local>>, rows: nat, dim: nat, field: Local -> seq<real>): (g: seq<seq<seq<real>>>)
    requires Shaped(l, rows)
    requires forall d, b :: 0 <= d < |l| && 0 <= b < rows ==> |field(l[d][b])| == dim
    ensures Reduce.Group(g, rows, dim) && |g| == |l|
    ensures forall d, b :: 0 <= d < |l| && 0 <= b < rows ==> g[d][b] == field(l[d][b])
  {
    seq(|l|, d requires 0 <= d < |l| => seq(rows, b requires 0 <= b < rows => field(l[d][b])))
  }

  /** The six reduced groups of one epoch: every gradient and every loss-info vector after
      `pmean` over "batch" and then over "device". */
  datatype Reduction = Reduction(
    actorGrads: seq<seq<seq<real>>>, criticGrads: seq<seq<seq<real>>>, worldModelGrads: seq<seq<seq<real>>>,
    actorInfo: seq<seq<seq<real>>>, criticInfo: seq<seq<seq<real>>>, worldModelInfo: seq<seq<seq<real>>>)

  /** The six groups of a reduction over `devices` devices have the sizes of their fields. */
  predicate ReductionShaped(H: Hyper, r: Reduction, devices: nat, rows: nat)
  {
    && Reduce.Group(r.actorGrads, rows, H.actorDim) && |r.actorGrads| == devices
    && Reduce.Group(r.criticGrads, rows, H.criticDim) && |r.criticGrads| == devices
    && Reduce.Group(r.worldModelGrads, rows, H.worldModelDim) && |r.worldModelGrads| == devices
    && Reduce.Group(r.actorInfo, rows, 3) && |r.actorInfo| == devices
    && Reduce.Group(r.criticInfo, rows, 2) && |r.criticInfo| == devices
    && Reduce.Group(r.worldModelInfo, rows, 2) && |r.worldModelInfo| == devices
  }

  /** The reductions applied to a group of per-replica results. */
  function ReduceAll(H: Hyper, l: seq<seq<Local>>, rows: nat): (r: Reduction)
    requires LocalsShaped(H, l, rows)
    ensures ReductionShaped(H, r, |l|, rows)
  {
    Reduction(
      Reduce.PMean(Project(l, rows, H.actorDim, (x: Local) => x.actorGrad), rows, H.actorDim),
      Reduce.PMean(Project(l, rows, H.criticDim, (x: Local) => x.criticGrad), rows, H.criticDim),
      Reduce.PMean(Project(l, rows, H.worldModelDim, (x: Local) => x.worldModelGrad), rows, H.worldModelDim),
      Reduce.PMean(Project(l, rows, 3, (x: Local) => x.actorInfo), rows, 3),
      Reduce.PMean(Project(l, rows, 2, (x: Local) => x.criticInfo), rows, 2),
      Reduce.PMean(Project(l, rows, 2, (x: Local) => x.worldModelInfo), rows, 2))
  }

  /** The reductions of one epoch of the group. */
  function Reduced(L: Learner, g: seq<seq<UpdateState>>, rows: nat): (r: Reduction)
    requires Valid(L) && Shaped(g, rows)
    ensures ReductionShaped(L.hyper, r, |g|, rows)
  {
    ReduceAll(L.hyper, Locals(L, g, rows), rows)
  }

  /** Packs the loss info: the total is the sum of the three losses' totals. */
  function Pack(actor: seq<real>, critic: seq<real>, worldModel: seq<real>): (i: LossInfo)
    requires |actor| == 3 && |critic| == 2 && |worldModel| == 2
  {
    LossInfo(actor[0] + critic[0] + worldModel[0], critic[1], actor[1], actor[2], worldModel[1])
  }

  /** One replica's update state moved by the given gradients: new parameters and optimiser
      states, the same buffer, the remainder of the key's split. */
  function Advance(L: Learner, u: UpdateState, actorGrad: Grad, criticGrad: Grad, worldModelGrad: Grad): UpdateState
  {
    var (params, opt) := ApplyUpdates(L, u.params, u.optStates, actorGrad, criticGrad, worldModelGrad);
    UpdateState(params, opt, u.bufferState, L.acting.split(u.key).0)
  }

  /** Replica `(d, b)` after the epoch: its parameters and optimiser states moved by the reduced
      gradients, its buffer untouched, its key the remainder of its split. */
  function Updated(L: Learner, g: seq<seq<UpdateState>>, rows: nat, d: nat, b: nat): (u: UpdateState)
    requires Valid(L) && Shaped(g, rows) && d < |g| && b < rows
    ensures u.bufferState == g[d][b].bufferState && u.key == L.acting.split(g[d][b].key).0
    ensures var r := Reduced(L, g, rows);
            (u.params, u.optStates)
            == ApplyUpdates(L, g[d][b].params, g[d][b].optStates, r.actorGrads[d][b], r.criticGrads[d][b], r.worldModelGrads[d][b])
  {
    var r := Reduced(L, g, rows);
    Advance(L, g[d][b], r.actorGrads[d][b], r.criticGrads[d][b], r.worldModelGrads[d][b])
  }

  /** The loss info replica `(d, b)` reports, given the per-replica results of the group. */
  function ReducedInfo(H: Hyper, l: seq<seq<Local>>, rows: nat, d: nat, b: nat): LossInfo
    requires LocalsShaped(H, l, rows) && d < |l| && b < rows
  {
    var r := ReduceAll(H, l, rows);
    Pack(r.actorInfo[d][b], r.criticInfo[d][b], r.worldModelInfo[d][b])
  }

  /** The loss info replica `(d, b)` reports for the epoch. */
  function InfoAt(L: Learner, g: seq<seq<UpdateState>>, rows: nat, d: nat, b: nat): LossInfo
    requires Valid(L) && Shaped(g, rows) && d < |g| && b < rows
  {
    ReducedInfo(L.hyper, Locals(L, g, rows), rows, d, b)
  }

  /** Every replica moved by its reduced gradients. */
  function AdvanceAll(L: Learner, g: seq<seq<UpdateState>>, rows: nat, r: Reduction): (n: seq<seq<UpdateState>>)
    requires Shaped(g, rows) && ReductionShaped(L.hyper, r, |g|, rows)
    ensures |n| == |g| && Shaped(n, rows)
    ensures forall d, b :: 0 <= d < |g| && 0 <= b < rows ==>
      n[d][b] == Advance(L, g[d][b], r.actorGrads[d][b], r.criticGrads[d][b], r.worldModelGrads[d][b])
  {
    seq(|g|, d requires 0 <= d < |g| => seq(rows, b requires 0 <= b < rows =>
      Advance(L, g[d][b], r.actorGrads[d][b], r.criticGrads[d][b], r.worldModelGrads[d][b])))
  }

  /** Every replica's packed loss info. */
  function PackAll(H: Hyper, r: Reduction, devices: nat, rows: nat): (i: seq<seq<LossInfo>>)
    requires ReductionShaped(H, r, devices, rows)
    ensures |i| == devices && Matrix.Rectangular(i, rows)
    ensures forall d, b :: 0 <= d < devices && 0 <= b < rows ==>
      i[d][b] == Pack(r.actorInfo[d][b], r.criticInfo[d][b], r.worldModelInfo[d][b])
  {
    seq(devices, d requires 0 <= d < devices => seq(rows, b requires 0 <= b < rows =>
      Pack(r.actorInfo[d][b], r.criticInfo[d][b], r.worldModelInfo[d][b])))
  }

  /** `_update_epoch` over the whole group: the new update states and every replica's loss info. */
  function UpdateEpoch(L: Learner, g: seq<seq<UpdateState>>, rows: nat): (r: (seq<seq<UpdateState>>, seq<seq<LossInfo>>))
    requires Valid(L) && Shaped(g, rows)
    ensures |r.0| == |g| && Shaped(r.0, rows) && |r.1| == |g| && Shaped(r.1, rows)
    ensures forall d, b :: 0 <= d < |g| && 0 <= b < rows ==> r.0[d][b] == Updated(L, g, rows, d, b)
    ensures forall d, b :: 0 <= d < |g| && 0 <= b < rows ==> r.1[d][b] == InfoAt(L, g, rows, d, b)
  {
    var reduction := Reduced(L, g, rows);
    (AdvanceAll(L, g, rows, reduction), PackAll(L.hyper, reduction, |g|, rows))
  }

  /** Every replica holds the same parameters and optimiser states as replica `(0, 0)`. */
  ghost predicate Synchronised(g: seq<seq<UpdateState>>, rows: nat)
    requires Shaped(g, rows)
  {
    forall d, b :: 0 <= d < |g| && 0 <= b < rows ==>
      g[d][b].params == g[0][0].params && g[d][b].optStates == g[0][0].optStates
  }

  /** The reduced gradients are the same on every replica. */
  lemma {:induction false} ReducedGradsAgree(H: Hyper, l: seq<seq<Local>>, rows: nat, d: nat, b: nat)
    requires LocalsShaped(H, l, rows) && d < |l| && b < rows
    ensures var r := ReduceAll(H, l, rows);
            && r.actorGrads[d][b] == r.actorGrads[0][0]
            && r.criticGrads[d][b] == r.criticGrads[0][0]
            && r.worldModelGrads[d][b] == r.worldModelGrads[0][0]
  {
    Reduce.PMeanReplicasAgree(Project(l, rows, H.actorDim, (x: Local) => x.actorGrad), rows, H.actorDim, d, b, 0, 0);
    Reduce.PMeanReplicasAgree(Project(l, rows, H.criticDim, (x: Local) => x.criticGrad), rows, H.criticDim, d, b, 0, 0);
    Reduce.PMeanReplicasAgree(Project(l, rows, H.worldModelDim, (x: Local) => x.worldModelGrad), rows, H.worldModelDim, d, b, 0, 0);
  }

  /** Replicas that start an epoch with the same parameters and optimiser states end it with the
      same ones, although each sampled its own batch from its own buffer: the averaged gradients
      are what keeps the copies in step. */
  lemma {:induction false} EpochKeepsSynchronised(L: Learner, g: seq<seq<UpdateState>>, rows: nat)
    requires Valid(L) && Shaped(g, rows) && Synchronised(g, rows)
    ensures Synchronised(UpdateEpoch(L, g, rows).0, rows)
  {
    var n: seq<seq<UpdateState>> := UpdateEpoch(L, g, rows).0;
    forall d, b | 0 <= d < |g| && 0 <= b < rows
      ensures n[d][b].params == n[0][0].params && n[d][b].optStates == n[0][0].optStates
    {
      ReducedGradsAgree(L.hyper, Locals(L, g, rows), rows, d, b);
      assert n[d][b] == Updated(L, g, rows, d, b);
      assert n[0][0] == Updated(L, g, rows, 0, 0);
    }
  }

  /** Every replica reports the same loss info: each loss is the mean of the per-replica losses
      over all `devices x rows` replicas, and the total is the sum of the three averaged totals.
      `UpdateEpoch` reports `ReducedInfo` of the group's `Locals`. */
  lemma {:induction false} EpochLossInfo(H: Hyper, l: seq<seq<Local>>, rows: nat, d: nat, b: nat)
    requires LocalsShaped(H, l, rows) && d < |l| && b < rows
    ensures var i := ReducedInfo(H, l, rows, d, b);
            var actor := Project(l, rows, 3, (x: Local) => x.actorInfo);
            var critic := Project(l, rows, 2, (x: Local) => x.criticInfo);
            var reward := Project(l, rows, 2, (x: Local) => x.worldModelInfo);
            && i.actorLoss == Reduce.Mean(Matrix.Flatten(Reduce.Leaf(actor, rows, 3, 1)))
            && i.entropy == Reduce.Mean(Matrix.Flatten(Reduce.Leaf(actor, rows, 3, 2)))
            && i.valueLoss == Reduce.Mean(Matrix.Flatten(Reduce.Leaf(critic, rows, 2, 1)))
            && i.rewardLoss == Reduce.Mean(Matrix.Flatten(Reduce.Leaf(reward, rows, 2, 1)))
            && i.totalLoss == Reduce.Mean(Matrix.Flatten(Reduce.Leaf(actor, rows, 3, 0)))
                            + Reduce.Mean(Matrix.Flatten(Reduce.Leaf(critic, rows, 2, 0)))
                            + Reduce.Mean(Matrix.Flatten(Reduce.Leaf(reward, rows, 2, 0)))
    ensures ReducedInfo(H, l, rows, d, b) == ReducedInfo(H, l, rows, 0, 0)
  {
    var actor := Project(l, rows, 3, (x: Local) => x.actorInfo);
    var critic := Project(l, rows, 2, (x: Local) => x.criticInfo);
    var reward := Project(l, rows, 2, (x: Local) => x.worldModelInfo);
    Reduce.PMeanIsGlobalMean(actor, rows, 3, d, b, 0);
    Reduce.PMeanIsGlobalMean(actor, rows, 3, d, b, 1);
    Reduce.PMeanIsGlobalMean(actor, rows, 3, d, b, 2);
    Reduce.PMeanIsGlobalMean(critic, rows, 2, d, b, 0);
    Reduce.PMeanIsGlobalMean(critic, rows, 2, d, b, 1);
    Reduce.PMeanIsGlobalMean(reward, rows, 2, d, b, 0);
    Reduce.PMeanIsGlobalMean(reward, rows, 2, d, b, 1);
    Reduce.PMeanReplicasAgree(actor, rows, 3, d, b, 0, 0);
    Reduce.PMeanReplicasAgree(critic, rows, 2, d, b, 0, 0);
    Reduce.PMeanReplicasAgree(reward, rows, 2, d, b, 0, 0);
  }

  /** `jax.lax.scan(_update_epoch, update_state, None, epochs)`: the final states and the loss info
      of every epoch, in order. */
  function UpdateEpochs(L: Learner, g: seq<seq<UpdateState>>, rows: nat, n: nat)
    : (r: (seq<seq<UpdateState>>, seq<seq<seq<LossInfo>>>))
    requires Valid(L) && Shaped(g, rows)
    ensures |r.0| == |g| && Shaped(r.0, rows) && |r.1| == n
    ensures forall d, b :: 0 <= d < |g| && 0 <= b < rows ==> r.0[d][b].bufferState == g[d][b].bufferState
    decreases n
  {
    if n == 0 then (g, [])
    else
      var (g1, info) := UpdateEpoch(L, g, rows);
      var (gn, rest) := UpdateEpochs(L, g1, rows, n - 1);
      (gn, [info] + rest)
  }

  /** Synchronisation survives any number of epochs. */
  lemma {:induction false} EpochsKeepSynchronised(L: Learner, g: seq<seq<UpdateState>>, rows: nat, n: nat)
    requires Valid(L) && Shaped(g, rows) && Synchronised(g, rows)
    ensures Synchronised(UpdateEpochs(L, g, rows, n).0, rows)
    decreases n
  {
    if n > 0 {
      EpochKeepsSynchronised(L, g, rows);
      EpochsKeepSynchronised(L, UpdateEpoch(L, g, rows).0, rows, n - 1);
    }
  }

  /** Every replica's acting state is well formed. */
  predicate ActingShaped(g: seq<seq<MZLearnerState>>, rows: nat)
    requires Shaped(g, rows)
  {
    forall d, b :: 0 <= d < |g| && 0 <= b < rows ==> Rollout.WellFormed(Rollout.CarryOf(g[d][b]))
  }

  /** The first half of `_update_step` on one replica: roll out `rollout_length` steps with the
      current parameters, swap the trajectory to batch-major and add it to this replica's buffer.
      Returns the new learner state and the batch-major trajectory. */
  function Collect(L: Learner, s: MZLearnerState): (r: (MZLearnerState, seq<seq<AZTransition>>))
    requires Rollout.WellFormed(Rollout.CarryOf(s))
    ensures r.0.params == s.params && r.0.optStates == s.optStates
    ensures Rollout.CarryOf(r.0) == Rollout.Rollout(L.acting, s.params, Rollout.CarryOf(s), L.hyper.rolloutLength).0
    ensures r.1 == Rollout.BatchMajor(L.acting, s.params, Rollout.CarryOf(s), L.hyper.rolloutLength)
    ensures r.0.bufferState == L.add(s.bufferState, r.1)
  {
    Rollout.LearnerRolloutIsRollout(L.acting, s, L.hyper.rolloutLength);
    var (s1, traj) := Rollout.LearnerRollout(L.acting, s, L.hyper.rolloutLength);
    var batchMajor := Matrix.Transpose(traj, |s.timesteps|);
    (s1.(bufferState := L.add(s1.bufferState, batchMajor)), batchMajor)
  }

  /** The update state of each replica after collection. */
  function Collected(L: Learner, g: seq<seq<MZLearnerState>>, rows: nat): (u: seq<seq<UpdateState>>)
    requires Shaped(g, rows) && ActingShaped(g, rows)
    ensures |u| == |g| && Shaped(u, rows)
    ensures forall d, b :: 0 <= d < |g| && 0 <= b < rows ==>
      var s := Collect(L, g[d][b]).0;
      u[d][b] == UpdateState(s.params, s.optStates, s.bufferState, s.key)
  {
    seq(|g|, d requires 0 <= d < |g| => seq(rows, b requires 0 <= b < rows =>
      var s := Collect(L, g[d][b]).0;
      UpdateState(s.params, s.optStates, s.bufferState, s.key)))
  }

  /** A learner state from an update state (parameters, optimiser states, buffer, key) and the
      environment states and timesteps of a rolled-out learner state. */
  function Assemble(u: UpdateState, c: MZLearnerState): (s: MZLearnerState)
    ensures Rollout.WellFormed(Rollout.CarryOf(s)) == Rollout.WellFormed(Rollout.CarryOf(c))
  {
    MZLearnerState(u.params, u.optStates, u.bufferState, u.key, c.envStates, c.timesteps)
  }

  /** The learner state of replica `(d, b)` after the update step: parameters, optimiser states,
      buffer and key from the epochs, environment states and timesteps from the rollout. */
  function Reassembled(L: Learner, g: seq<seq<MZLearnerState>>, rows: nat, d: nat, b: nat): (s: MZLearnerState)
    requires Valid(L) && Shaped(g, rows) && ActingShaped(g, rows) && d < |g| && b < rows
    ensures Rollout.WellFormed(Rollout.CarryOf(s))
  {
    Assemble(UpdateEpochs(L, Collected(L, g, rows), rows, L.hyper.epochs).0[d][b], Collect(L, g[d][b]).0)
  }

  /** Every replica's learner state assembled from its update state in `e` and its rollout. */
  function AssembleAll(L: Learner, e: seq<seq<UpdateState>>, g: seq<seq<MZLearnerState>>, rows: nat)
    : (n: seq<seq<MZLearnerState>>)
    requires Shaped(g, rows) && ActingShaped(g, rows) && Shaped(e, rows) && |e| == |g|
    ensures |n| == |g| && Shaped(n, rows) && ActingShaped(n, rows)
    ensures forall d, b :: 0 <= d < |g| && 0 <= b < rows ==> n[d][b] == Assemble(e[d][b], Collect(L, g[d][b]).0)
  {
    seq(|g|, d requires 0 <= d < |g| => seq(rows, b requires 0 <= b < rows => Assemble(e[d][b], Collect(L, g[d][b]).0)))
  }

  /** Every replica's batch-major trajectory of the update step. */
  function Trajectories(L: Learner, g: seq<seq<MZLearnerState>>, rows: nat): (t: seq<seq<seq<seq<AZTransition>>>>)
    requires Shaped(g, rows) && ActingShaped(g, rows)
    ensures |t| == |g| && Shaped(t, rows)
    ensures forall d, b :: 0 <= d < |g| && 0 <= b < rows ==>
      t[d][b] == Rollout.BatchMajor(L.acting, g[d][b].params, Rollout.CarryOf(g[d][b]), L.hyper.rolloutLength)
  {
    seq(|g|, d requires 0 <= d < |g| => seq(rows, b requires 0 <= b < rows => Collect(L, g[d][b]).1))
  }

  /** `_update_step` on the whole group: the new learner states, each replica's batch-major
      trajectory (whose `info` is the episode metric) and the loss info of every epoch. */
  function UpdateStep(L: Learner, g: seq<seq<MZLearnerState>>, rows: nat)
    : (r: (seq<seq<MZLearnerState>>, seq<seq<seq<seq<AZTransition>>>>, seq<seq<seq<LossInfo>>>))
    requires Valid(L) && Shaped(g, rows) && ActingShaped(g, rows)
    ensures |r.0| == |g| && Shaped(r.0, rows) && ActingShaped(r.0, rows)
    ensures forall d, b :: 0 <= d < |g| && 0 <= b < rows ==> r.0[d][b] == Reassembled(L, g, rows, d, b)
    ensures |r.1| == |g| && Shaped(r.1, rows)
    ensures forall d, b :: 0 <= d < |g| && 0 <= b < rows ==>
      r.1[d][b] == Rollout.BatchMajor(L.acting, g[d][b].params, Rollout.CarryOf(g[d][b]), L.hyper.rolloutLength)
    ensures |r.2| == L.hyper.epochs && r.2 == UpdateEpochs(L, Collected(L, g, rows), rows, L.hyper.epochs).1
  {
    var epochs := UpdateEpochs(L, Collected(L, g, rows), rows, L.hyper.epochs);
    (AssembleAll(L, epochs.0, g, rows), Trajectories(L, g, rows), epochs.1)
  }

  /** Every replica holds the same parameters and optimiser states as replica `(0, 0)`. */
  ghost predicate LearnersSynchronised(g: seq<seq<MZLearnerState>>, rows: nat)
    requires Shaped(g, rows)
  {
    forall d, b :: 0 <= d < |g| && 0 <= b < rows ==>
      g[d][b].params == g[0][0].params && g[d][b].optStates == g[0][0].optStates
  }

  /** An update step keeps synchronised replicas synchronised: the rollout leaves parameters
      alone, and every epoch applies the same averaged gradients everywhere. Each replica's buffer
      has gained exactly its own trajectory. */
  lemma {:induction false} UpdateStepKeepsSynchronised(L: Learner, g: seq<seq<MZLearnerState>>, rows: nat)
    requires Valid(L) && Shaped(g, rows) && ActingShaped(g, rows) && LearnersSynchronised(g, rows)
    ensures LearnersSynchronised(UpdateStep(L, g, rows).0, rows)
    ensures forall d, b :: 0 <= d < |g| && 0 <= b < rows ==>
      UpdateStep(L, g, rows).0[d][b].bufferState
      == L.add(g[d][b].bufferState, Rollout.BatchMajor(L.acting, g[d][b].params, Rollout.CarryOf(g[d][b]), L.hyper.rolloutLength))
  {
    var u := Collected(L, g, rows);
    assert Synchronised(u, rows) by {
      forall d, b | 0 <= d < |g| && 0 <= b < rows
        ensures u[d][b].params == u[0][0].params && u[d][b].optStates == u[0][0].optStates
      {
      }
    }
    EpochsKeepSynchronised(L, u, rows, L.hyper.epochs);
    var n: seq<seq<MZLearnerState>> := UpdateStep(L, g, rows).0;
    var e: seq<seq<UpdateState>> := UpdateEpochs(L, u, rows, L.hyper.epochs).0;
    forall d, b | 0 <= d < |g| && 0 <= b < rows
      ensures n[d][b].params == n[0][0].params && n[d][b].optStates == n[0][0].optStates
      ensures n[d][b].bufferState
              == L.add(g[d][b].bufferState, Rollout.BatchMajor(L.acting, g[d][b].params, Rollout.CarryOf(g[d][b]), L.hyper.rolloutLength))
    {
      assert n[d][b] == Reassembled(L, g, rows, d, b);
      assert n[0][0] == Reassembled(L, g, rows, 0, 0);
      assert n[d][b].bufferState == e[d][b].bufferState == u[d][b].bufferState;
    }
  }

  /** `learner_fn`: `num_updates_per_eval` update steps in sequence; returns the final states and,
      per update, the trajectories and the loss info. */
  function LearnerFn(L: Learner, g: seq<seq<MZLearnerState>>, rows: nat, n: nat)
    : (r: (seq<seq<MZLearnerState>>, seq<seq<seq<seq<seq<AZTransition>>>>>, seq<seq<seq<seq<LossInfo>>>>))
    requires Valid(L) && Shaped(g, rows) && ActingShaped(g, rows)
    ensures |r.0| == |g| && Shaped(r.0, rows) && ActingShaped(r.0, rows)
    ensures |r.1| == n && |r.2| == n
    decreases n
  {
    if n == 0 then (g, [], [])
    else
      var (g1, traj, info) := UpdateStep(L, g, rows);
      var (gn, trajs, infos) := LearnerFn(L, g1, rows, n - 1);
      (gn, [traj] + trajs, [info] + infos)
  }

  /** The replicas stay synchronised across a whole `learner_fn` call. */
  lemma {:induction false} LearnerFnKeepsSynchronised(L: Learner, g: seq<seq<MZLearnerState>>, rows: nat, n: nat)
    requires Valid(L) && Shaped(g, rows) && ActingShaped(g, rows) && LearnersSynchronised(g, rows)
    ensures LearnersSynchronised(LearnerFn(L, g, rows, n).0, rows)
    decreases n
  {
    if n > 0 {
      UpdateStepKeepsSynchronised(L, g, rows);
      LearnerFnKeepsSynchronised(L, UpdateStep(L, g, rows).0, rows, n - 1);
    }
  }

  /** The end of `learner_setup`: broadcast parameters, optimiser states, buffer state and the
      two keys to every replica, warm each replica's buffer up on its own environments, and build
      the initial learner state with the broadcast step key. The key the warmup hands back is
      dropped. */
  function Setup(L: Learner, warmupSteps: nat, params: MZParams, opt: MZOptStates, bufferState: BufferState,
                 stepKey: Key, warmupKey: Key, envStates: seq<seq<seq<EnvState>>>,
                 timesteps: seq<seq<seq<TimeStep>>>, rows: nat): (g: seq<seq<MZLearnerState>>)
    requires Shaped(envStates, rows) && Matrix.Rectangular(timesteps, rows) && |timesteps| == |envStates|
    requires forall d, b :: 0 <= d < |envStates| && 0 <= b < rows ==> |envStates[d][b]| == |timesteps[d][b]|
    ensures |g| == |envStates| && Shaped(g, rows) && ActingShaped(g, rows)
    ensures forall d, b :: 0 <= d < |g| && 0 <= b < rows ==>
      var w := Rollout.Warmup(L.acting, params, L.add, warmupSteps, envStates[d][b], timesteps[d][b], bufferState, warmupKey);
      g[d][b] == MZLearnerState(params, opt, w.3, stepKey, w.0, w.1)
  {
    seq(|envStates|, d requires 0 <= d < |envStates| => seq(rows, b requires 0 <= b < rows =>
      var w := Rollout.Warmup(L.acting, params, L.add, warmupSteps, envStates[d][b], timesteps[d][b], bufferState, warmupKey);
      MZLearnerState(params, opt, w.3, stepKey, w.0, w.1)))
  }

  /** The initial replicas are synchronised and share one key. Two replicas whose environments
      start in the same states therefore hold identical learner states: the keys do nothing to
      decorrelate them. */
  lemma {:induction false} SetupReplicas(L: Learner, warmupSteps: nat, params: MZParams, opt: MZOptStates,
                                         bufferState: BufferState, stepKey: Key, warmupKey: Key,
                                         envStates: seq<seq<seq<EnvState>>>, timesteps: seq<seq<seq<TimeStep>>>,
                                         rows: nat, d: nat, b: nat, d': nat, b': nat)
    requires Shaped(envStates, rows) && Matrix.Rectangular(timesteps, rows) && |timesteps| == |envStates|
    requires forall d, b :: 0 <= d < |envStates| && 0 <= b < rows ==> |envStates[d][b]| == |timesteps[d][b]|
    requires d < |envStates| && d' < |envStates| && b < rows && b' < rows
    ensures var g := Setup(L, warmupSteps, params, opt, bufferState, stepKey, warmupKey, envStates, timesteps, rows);
            && LearnersSynchronised(g, rows)
            && g[d][b].key == stepKey
            && (envStates[d][b] == envStates[d'][b'] && timesteps[d][b] == timesteps[d'][b'] ==> g[d][b] == g[d'][b'])
  {
    var g: seq<seq<MZLearnerState>> := Setup(L, warmupSteps, params, opt, bufferState, stepKey, warmupKey, envStates, timesteps, rows);
    assert g[0][0].params == params && g[0][0].optStates == opt;
  }
}
