# MuZero learner (Stoix) in Dafny

This project models the training logic of Stoix's single-file MuZero agent,
`stoix/systems/search/muzero.py`. It covers the following parts:

- the root and recurrent evaluation closures handed to the tree search;
- the warmup and learner rollouts, which fold `_env_step` over an explicit
  `(env_state, last_timestep, key)` carry and swap the time and batch axes
  before the buffer add;
- the three losses, with critic target alignment and the world-model latent
  unroll;
- the `pmean` reductions over the "batch" and "device" axes, the three
  separate optimiser steps and the repacking of parameters and optimiser
  states;
- the epoch and update-step scans and `learner_fn`;
- the replication in `learner_setup`;
- `parse_search_method`, the update and timestep accounting, the
  environment-key reshape, and the evaluation loop of `run_experiment` with
  best-parameter tracking.

Neural networks, the tree search, the optimisers, the replay buffer, the
environment, KL divergence, entropy, the l2 loss and the n-step return
routine are injected functions. They are bundled in the `Networks`,
`Acting`, `Numerics`, `Optimiser` and `Learner` datatypes. Floating-point
values are exact `real`s. Batched arrays are sequences: `[b][t]` for the
buffer's batch-major layout and `[t][b]` for scan outputs. A group of
replicas is `seq<seq<_>>`, indexed `[device][update-batch row]`.

Modules:

- `MuZeroTypes` (`types.dfy`): the records `MZParams`, `MZOptStates`,
  `AZTransition`, `MZLearnerState`, `TimeStep` and the search outputs.
- `Matrix`: transpose (`jnp.swapaxes(x, 0, 1)`) and columns.
- `Planner`: `make_root_fn` and `make_recurrent_fn`.
- `Rollout`: `_env_step`, the `jax.lax.scan` rollouts and `warmup`.
- `Returns`: a reference n-step bootstrapped return.
- `Reduce`: means and `pmean`.
- `Losses`: `_actor_loss_fn`, `_critic_loss_fn` and `_world_model_loss_fn`.
- `Update`: `_update_epoch`, `_update_step`, `learner_fn` and the
  replication in `learner_setup`.
- `Config`: `parse_search_method`, the step accounting and the environment
  keys.
- `Driver`: the `run_experiment` loop. It is a `method` with a `while` loop,
  because the source reassigns its variables step by step.

## Model

| member | source | states |
|---|---|---|
| Planner.RootFn | stoix/systems/search/muzero.py:60-86 | The root embedding is the representation of the observation under the world model's representation params. The prior logits and the value are the actor and the critic applied to that embedding. |
| Planner.RecurrentFn | stoix/systems/search/muzero.py:89-118 | The discount is exactly 1. The next embedding and the reward are the dynamics output. Logits and value are computed on the next embedding, not the input one. |
| Planner.RootFnReads | stoix/systems/search/muzero.py:65-84 | The root output depends only on the representation, actor and critic params and the observation. The environment state passed alongside is ignored. |
| Planner.RecurrentFnReads | stoix/systems/search/muzero.py:94-116 | The recurrent output depends only on the dynamics, actor and critic params, the action and the embedding. The random key is ignored. |
| Rollout.Roots | stoix/systems/search/muzero.py:144 | Each environment's root is `root_fn` applied to the current params and the last timestep's observation. |
| Rollout.EnvStep | stoix/systems/search/muzero.py:136-174 | One step emits exactly one transition per environment and keeps the number of environments. The carried key becomes the first half of the split. Each transition pairs: the pre-step observation; the search-chosen action, weights and root value; the behaviour value; the reward and `last()` flag of the post-step timestep; and the episode metrics. |
| Rollout.Rollout | stoix/systems/search/muzero.py:177-179 | A rollout of `k` steps yields exactly `k` rows of transitions, one per environment, and keeps the carry well formed. |
| Rollout.RolloutAt | stoix/systems/search/muzero.py:177-179 | Row `t` of the trajectory is what `_env_step` emits from the carry after `t` steps, and step `t` takes that carry to the carry after `t + 1` steps. |
| Rollout.TransitionAt | stoix/systems/search/muzero.py:141-174 | Transition `t` of environment `i` holds the observation of the timestep before step `t` and the reward and done flag of the timestep after it. Between consecutive steps the key is replaced by the remainder of its split. |
| Rollout.BatchMajor | stoix/systems/search/muzero.py:183 | The swapped trajectory has one row per environment, and each row has `k` transitions. |
| Rollout.BatchMajorAt | stoix/systems/search/muzero.py:183 | Element `[b][t]` of the batch-major trajectory is environment `b`'s transition at step `t`. |
| Rollout.BatchMajorRoundTrip | stoix/systems/search/muzero.py:269 | Swapping the axes back recovers the time-major trajectory exactly. |
| Rollout.Warmup | stoix/systems/search/muzero.py:133-186 | Warmup returns the environment states, timesteps and key after `warmup_steps` steps with fixed params. The buffer is the old buffer with the batch-major trajectory added. |
| Rollout.LearnerEnvStep | stoix/systems/search/muzero.py:221-259 | The learner's step is the same step on the learner state's carry. Params, optimiser states and buffer state pass through unchanged. |
| Rollout.LearnerRollout | stoix/systems/search/muzero.py:262-264 | The learner's scan keeps the acting part of the state well formed. |
| Rollout.LearnerRolloutIsRollout | stoix/systems/search/muzero.py:221-264 | Scanning the whole learner state equals the carry rollout with params held fixed. Params, optimiser states and buffer come out unchanged. |
| Matrix.Transpose | stoix/systems/search/muzero.py:269 | The swap maps element `[t][b]` to `[b][t]` and gives a rectangle with the dimensions exchanged. |
| Matrix.TransposeInvolution | stoix/systems/search/muzero.py:183 | Applying the swap twice is the identity. |
| Returns.NStepDecomposition | stoix/systems/search/muzero.py:307-309 | The reference n-step target is the discounted sum of `n` rewards plus the product of the `n` discounts times the bootstrap value at `t + n - 1`. |
| Returns.TerminationTruncates | stoix/systems/search/muzero.py:302-309 | If the discount is zero at offset `k` within the horizon, the target is the discounted reward sum of offsets `0..k` only. |
| Returns.NStepExample | stoix/systems/search/muzero.py:307-309 | A concrete two-step target: rewards 1, discounts 0.9 and bootstrap 5 give 5.95. |
| Returns.PartialHorizonIsNStepReturns | stoix/systems/search/muzero.py:307-309 | At least one shape-preserving function agrees with the reference target wherever the full horizon fits. So the assumption placed on the injected routine can be met. |
| Losses.Discounts | stoix/systems/search/muzero.py:302-303 | The discount is `gamma` where `done` is false and exactly 0 where it is true, one entry per step. |
| Losses.PrepareCriticInputs | stoix/systems/search/muzero.py:299-305 | The predicted values, rewards and discounts use steps `0..T-2`. The bootstrap values use `search_value` at steps `1..T-1`. All four have `T-1` entries per row, and entry `t` of each belongs to step `t`. The predicted value is the critic applied to a fresh encoding of the observation. |
| Losses.CriticTargets | stoix/systems/search/muzero.py:307-309 | The critic targets have the batch's row count and `T-1` entries per row. |
| Losses.CriticTargetAt | stoix/systems/search/muzero.py:300-309 | Where the horizon fits, target `t` is the n-step return of rewards `t..t+n-1` with bootstrap `search_value[t+n]`. If `done` holds at step `t+k` inside the horizon, the target is the discounted reward sum up to that step and nothing after the episode boundary enters. |
| Losses.ValueLosses | stoix/systems/search/muzero.py:299-311 | Entry `[b][t]` is the l2 loss between the predicted value and the n-step critic target of that aligned entry, with `T-1` entries per row. |
| Losses.CriticLoss | stoix/systems/search/muzero.py:299-314 | The value loss is the mean of the per-entry value losses over all aligned entries, and the critic total loss is `vf_coef` times the value loss. |
| Losses.CriticLossView | stoix/systems/search/muzero.py:299-314 | Batches that agree on observations, rewards and done flags before the last step and on search values after the first have the same critic loss. |
| Losses.CriticInputsView | stoix/systems/search/muzero.py:299-305 | The critic inputs depend only on observations, rewards and done flags at steps `0..T-2` and search values at steps `1..T-1`. |
| Losses.ActorTerms | stoix/systems/search/muzero.py:280-287 | The per-entry KL term and entropy use the actor policy on a fresh encoding of `obs`, and the KL is taken from the recorded search policy. |
| Losses.ActorLoss | stoix/systems/search/muzero.py:279-290 | The total actor loss is the KL mean minus `ent_coef` times the entropy mean. Both are means over all batch and time entries. |
| Losses.ActorLossView | stoix/systems/search/muzero.py:280-287 | The actor loss depends only on the observations and search policies, not on the stored actions, rewards or values. |
| Losses.Unroll | stoix/systems/search/muzero.py:328-340 | The latent unroll emits exactly one predicted reward per action. |
| Losses.UnrollPrefix | stoix/systems/search/muzero.py:328-340 | The first `k` predicted rewards are the unroll of the first `k` actions. |
| Losses.UnrollMatchesRecurrentFn | stoix/systems/search/muzero.py:331-335 | The unroll's first reward is the reward `recurrent_fn` gives for the same embedding and action. |
| Losses.UnrollScan | stoix/systems/search/muzero.py:337-340 | The time-major scan has one row of rewards per time step and one entry per batch row. |
| Losses.UnrollScanColumn | stoix/systems/search/muzero.py:337-341 | Column `b` of the batched scan is the unroll of batch row `b`'s actions from its own embedding. |
| Losses.Actions | stoix/systems/search/muzero.py:337 | The action array has the batch's shape and holds each transition's action. |
| Losses.FirstEmbeddings | stoix/systems/search/muzero.py:322-326 | The unroll starts from the representation of observation 0 of each row only. |
| Losses.PredictedRewards | stoix/systems/search/muzero.py:322-341 | The predicted rewards have the batch's shape: `T` per row, equal to the reward sequence length. |
| Losses.PredictedRewardsRow | stoix/systems/search/muzero.py:322-341 | Row `b`'s predictions are the unroll of row `b`'s actions from the embedding of its observation 0. |
| Losses.PredictedRewardReads | stoix/systems/search/muzero.py:322-341 | Predicted reward `t` depends only on `obs[0]` and `actions[0..t]`. |
| Losses.RewardLosses | stoix/systems/search/muzero.py:343 | Each reward loss entry is the l2 loss between the predicted and recorded reward at that entry. |
| Losses.WorldModelLossReads | stoix/systems/search/muzero.py:343-352 | The world-model loss depends only on `obs[0]`, the actions and the rewards. The done flags play no part, because the mask is commented out. |
| Reduce.MeanOfMeans | stoix/systems/search/muzero.py:388-394 | For equal-sized groups, the mean of group means is the mean over all elements. |
| Reduce.PMeanIsGlobalMean | stoix/systems/search/muzero.py:388-410 | After `pmean` over "batch" and then "device", every replica's value is the mean over all `devices x rows` replicas. |
| Reduce.PMeanReplicasAgree | stoix/systems/search/muzero.py:388-410 | After both reductions every replica holds the same vector. |
| Reduce.PMeanSingleReplica | stoix/systems/search/muzero.py:388-394 | With one batch row and one device the reductions are the identity. |
| Update.ApplyUpdates | stoix/systems/search/muzero.py:412-441 | Actor, critic and world-model slots of the repacked params and optimiser states each come from their own optimiser step, with their own gradient and their own optimiser state. |
| Update.ApplyUpdatesSeparate | stoix/systems/search/muzero.py:412-441 | Each updated subtree is independent of the other two gradients. In particular the representation params move only with the world-model gradient. |
| Update.Batch | stoix/systems/search/muzero.py:356-360 | A replica samples `batch_size` sequences of `sample_sequence_length` steps from its own buffer, with the second half of its key's split. |
| Update.LocalStep | stoix/systems/search/muzero.py:354-382 | A replica keeps the first half of its split key and samples with the second (`Batch`). The three gradients are the injected gradients at its own params on that batch, each of its subtree's size. The loss info is `LossInfos` of its params on that batch. |
| Update.LossInfos | stoix/systems/search/muzero.py:362-382 | The actor info is `ActorLoss`'s `(total, actor_loss, entropy)`, the critic info is `CriticLoss`'s `(total, value_loss)`, and the world-model info is `WorldModelLoss` twice. The actor total is the actor loss minus `ent_coef` times the entropy, and the critic total is `vf_coef` times the value loss. |
| Update.Locals | stoix/systems/search/muzero.py:354-382 | Every replica's result is its own `LocalStep`, and every gradient and loss-info vector has the size the reductions expect. |
| Update.ReduceAll | stoix/systems/search/muzero.py:388-410 | The six reduced groups keep the replica group's shape and each field's size. |
| Update.Updated | stoix/systems/search/muzero.py:412-456 | After the epoch, a replica's params and optimiser states are `ApplyUpdates` with the reduced gradients. Its buffer is untouched, and its key is the remainder of its split. |
| Update.UpdateEpoch | stoix/systems/search/muzero.py:272-456 | The epoch keeps the replica group's shape, and each replica's new state and loss info are those of `Updated` and the packed reduced info. |
| Update.ReducedGradsAgree | stoix/systems/search/muzero.py:388-410 | All three reduced gradients are the same on every replica. |
| Update.EpochKeepsSynchronised | stoix/systems/search/muzero.py:354-441 | Replicas that start an epoch with equal params and optimiser states end it equal, although each samples from its own buffer. |
| Update.EpochLossInfo | stoix/systems/search/muzero.py:384-455 | For any group of per-replica results, and so for the `Locals` whose reduction `UpdateEpoch` reports, each reported loss is the mean over all replicas. `total_loss` is the sum of the three averaged totals, and every replica reports the same info. |
| Update.UpdateEpochs | stoix/systems/search/muzero.py:458-463 | The epoch scan yields one loss-info entry per epoch and never changes a buffer. |
| Update.EpochsKeepSynchronised | stoix/systems/search/muzero.py:458-463 | Replicas stay synchronised through any number of epochs. |
| Update.Collect | stoix/systems/search/muzero.py:262-270 | Collection is the rollout with the current params. It returns the batch-major trajectory and adds exactly that trajectory to the replica's buffer. Params and optimiser states are unchanged. |
| Update.Collected | stoix/systems/search/muzero.py:265-270 | Each replica's update state is taken from its own collected learner state. |
| Update.Reassembled | stoix/systems/search/muzero.py:465-468 | The rebuilt learner state keeps the acting part well formed. |
| Update.Trajectories | stoix/systems/search/muzero.py:262-269 | Each replica's trajectory is the batch-major form of its own rollout. |
| Update.UpdateStep | stoix/systems/search/muzero.py:218-470 | Each replica's new learner state takes params, optimiser states, buffer and key from the epochs and environment states and timesteps from its rollout. Each replica's trajectory output is its batch-major rollout, whose `info` is the metric. The loss info is that of the epoch scan over the collected states, one entry per epoch. |
| Update.UpdateStepKeepsSynchronised | stoix/systems/search/muzero.py:218-470 | Synchronised replicas stay synchronised through an update step. Each replica's buffer is its old buffer plus exactly its own batch-major trajectory. |
| Update.LearnerFn | stoix/systems/search/muzero.py:472-486 | `learner_fn` runs `num_updates_per_eval` update steps and returns one trajectory group and one loss-info group per update. |
| Update.LearnerFnKeepsSynchronised | stoix/systems/search/muzero.py:472-486 | Replicas stay synchronised across a whole `learner_fn` call. |
| Update.Setup | stoix/systems/search/muzero.py:694-713 | Every replica gets the broadcast params, optimiser states and step key. Each buffer and acting state comes from warming up that replica's own environments with the broadcast warmup key. |
| Update.SetupReplicas | stoix/systems/search/muzero.py:694-713 | The initial replicas are synchronised and all hold the same step key. Replicas whose environments start equal are identical. |
| Config.Lower | stoix/systems/search/muzero.py:491 | Lowercasing keeps the length, maps `A`-`Z` to `a`-`z` and leaves every other character alone. |
| Config.ParseSearchMethodCases | stoix/systems/search/muzero.py:489-498 | The result is the MuZero policy if and only if the lowercased name is "muzero", and the Gumbel policy if and only if it is "gumbel". Every other name gives the error "Search method <name> not supported.". |
| Config.ParseSearchMethodCaseInsensitive | stoix/systems/search/muzero.py:491-494 | Names that agree after lowercasing select the same policy. |
| Config.ParseSearchMethodExamples | stoix/systems/search/muzero.py:491-494 | "MuZero" selects the MuZero policy and "GUMBEL" the Gumbel policy. |
| Config.FloorDiv | stoix/systems/search/muzero.py:753 | Python's `//`: for a positive divisor `q*b <= a < q*b + b`, for a negative one `q*b + b < a <= q*b`. |
| Config.UpdatesPerEvalBounds | stoix/systems/search/muzero.py:725-753 | The accounting succeeds if and only if `num_updates > num_evaluation` and `num_evaluation != 0`. With a positive evaluation count, `num_updates_per_eval` is at least 1 and leaves fewer than `num_evaluation` updates over. |
| Config.LoggedTimestepIncreasing | stoix/systems/search/muzero.py:754-789 | With positive factors, steps per rollout is positive, and the logged timestep `steps_per_rollout*(e+1)` strictly increases with `e`. |
| Config.ReshapeAt | stoix/systems/search/muzero.py:675-680 | Element `[d][u][e]` of the reshaped keys is flat key `d*(rows*envs) + u*envs + e`. |
| Config.ReshapeRoundTrip | stoix/systems/search/muzero.py:675-680 | Flattening the reshaped array gives back the flat sequence. |
| Config.EnvKeys | stoix/systems/search/muzero.py:669-680 | The split draws `devices*rows*envs + 1` keys. The first is kept, and the rest are `Reshape`d into the `devices x rows x envs` array, so slot `(d, b, e)` holds key `1 + d*rows*envs + b*envs + e` (`Config.ReshapeAt`). Flattening gives the rest back in order. A split that returns the wrong count is an error. |
| Driver.Best | stoix/systems/search/muzero.py:832-834 | The tracked index is -1 (initial params) or a valid evaluation index. |
| Driver.BestSnoc | stoix/systems/search/muzero.py:832-834 | A new return replaces the tracked pair exactly when it is at least the current maximum. |
| Driver.BestIsLastMaximum | stoix/systems/search/muzero.py:832-834 | The tracked maximum is at least the initial value and every return. If it is the initial value, every return fell strictly below it. Otherwise it is the return at the tracked index, and every later return is strictly smaller, so ties go to the later evaluation. |
| Driver.RunExperiment | stoix/systems/search/muzero.py:778-847 | After the loop the state is `learn` applied `num_evaluation` times. The logged timesteps and evaluation returns are in order, and return `e` evaluates the params after `e+1` learns with the key split off at step `e`. Without the absolute metric, the best params stay the initial ones. With it, they are the params of the last maximal evaluation, and the absolute evaluation uses them with the next split key. |

## Left out

- Network architectures, tree search internals (`mctx`), optimiser internals (clipping, Adam, the learning-rate schedule), replay-buffer add and sample, and environment step and reset are foreign code. They are injected functions. Gradient sizes and the shape of a sampled batch (`batch_size` sequences of `sample_sequence_length` steps) are assumptions in `Update.Valid`. Environment counts are per replica: `Update.ActingShaped` and `Rollout.WellFormed` require one timestep per environment state on each replica, and nothing requires equal counts across replicas.
- `batch_n_step_bootstrapped_returns` is not part of this model. It is injected, and `Returns.IsNStepReturns` only requires it to agree with the reference target where the full horizon fits. Its behaviour near the end of a sequence is not asserted.
- KL divergence, entropy and `rlax.l2_loss` are injected numerics. Gradients are injected functions of the parameters they are taken with respect to. They are not derivatives of the modelled losses, because automatic differentiation is not modelled.
- Floating point: all values are exact reals. float32 rounding, NaN and infinity are not modelled.
- Losses.CriticLoss: requires at least one batch row and `T >= 2`. With fewer, the source takes the mean of an empty array and gets NaN.
- Losses.ActorLoss: requires at least one batch row and one time step, for the same reason.
- Losses.WorldModelLoss: requires at least one batch row and one time step, for the same reason. It carries no contract of its own; `Losses.WorldModelLossReads` states what it depends on.
- Config.Lower: lowercases ASCII letters only. Python's `str.lower` also folds other Unicode letters.
- JAX `vmap`, `pmap` and `scan` are modelled as nested sequences and recursive folds. Parallel execution and device placement are not modelled.
- `learner_setup`: network and optimiser construction and initialisation, the dummy transition, buffer creation and checkpoint restore are not modelled. The model starts from given params, optimiser states, buffer state and keys (`Update.Setup`).
- `run_experiment`: `check_total_timesteps`, environment and evaluator construction, the logger, checkpoint saving, timing, `steps_per_second`, `get_final_step_metrics` and printing are I/O or driver glue and are left out. The evaluators are functions from params and a key to a mean return. The per-device reshape of evaluation keys is folded into the injected key split.
- Driver.RunExperiment: takes `num_evaluation` on its own and is not tied to `Config.UpdatesPerEvalBounds`. For `num_evaluation == 0` it returns normally with no evaluations, although the source raises `ZeroDivisionError` at muzero.py:753 before the loop is reached. With a negative `num_evaluation` and the absolute metric on, the loop never runs and the source then reads the unbound `eval_step` at muzero.py:851, after the absolute evaluation. That line is logging and is not modelled, so the model returns the evaluation.
- `hydra_entry_point` and the colour printout are entry-point glue.

Where the code differs from its own description, the model follows the code:

- Only the world-model loss trains the representation network. `jax.value_and_grad` differentiates argument 0 only, that is the actor or critic params, so the representation params passed to the actor and critic losses get no gradient (`Update.ApplyUpdatesSeparate`).
- Every replica receives the same step key and the same warmup key (lines 694-710). Replicas whose environments start in equal states are therefore identical (`Update.SetupReplicas`). The key returned by the warmup is dropped.
- The world-model loss applies no done mask, because the masking code is commented out (lines 345-350).
- `num_updates // num_evaluation` is Python floor division. With `num_evaluation == 0` the assertion passes whenever `num_updates > 0`, and the division then fails; this is modelled as an error (`Config.UpdatesPerEvalBounds`).
