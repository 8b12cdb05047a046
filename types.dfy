/** Entities of the MuZero learner: parameter trees, optimiser states, timesteps,
    transitions, search outputs and learner state. Everything produced by foreign
    code (networks, environment, random keys, replay buffer) is an opaque type. */
module MuZeroTypes {

  /** An environment observation (an arbitrary array tree in the source). */
  type Observation(!new)
  /** A latent embedding produced by the representation or dynamics network. */
  type Embedding(!new)
  /** The environment's own state, threaded through `env.step`. */
  type EnvState(!new)
  /** A PRNG key; only `split` gives new keys. */
  type Key(!new)
  /** The episode metrics a timestep carries in `extras["episode_metrics"]`. */
  type EpisodeInfo(!new)
  /** The distribution object an actor network returns. */
  type Policy(!new)
  /** The replay buffer's state; only the buffer's own add and sample touch it. */
  type BufferState(!new)

  /** Parameter subtrees of the four networks. */
  type RepresentationParams(!new)
  type DynamicsParams(!new)
  type ActorParams(!new)
  type CriticParams(!new)

  /** One optimiser state (clip-by-global-norm then Adam); the three objectives each own one. */
  type OptState(!new)

  /** A discrete action index. */
  type Action = nat

  /** A gradient (or an optimiser update) flattened to its leaves, so that a mean over replicas is
      a mean per coordinate. */
  type Grad = seq<real>

  datatype WorldModelParams = WorldModelParams(representation: RepresentationParams, dynamics: DynamicsParams)

  datatype ActorCriticParams = ActorCriticParams(actor: ActorParams, critic: CriticParams)

  /** `MZParams(prediction_params, world_model_params)`. */
  datatype MZParams = MZParams(prediction: ActorCriticParams, worldModel: WorldModelParams)

  /** `MZOptStates(actor_opt_state, critic_opt_state, world_model_opt_state)`, in that slot order. */
  datatype MZOptStates = MZOptStates(actor: OptState, critic: OptState, worldModel: OptState)

  /** What the environment returns for one row: `last` is `timestep.last()`. */
  datatype TimeStep = TimeStep(observation: Observation, reward: real, last: bool, episodeMetrics: EpisodeInfo)

  /** One row of one environment step, fields in the source's order:
      done, action, behaviour value, reward, search value, search policy, observation, info. */
  datatype AZTransition = AZTransition(
    done: bool,
    action: Action,
    value: real,
    reward: real,
    searchValue: real,
    searchPolicy: seq<real>,
    obs: Observation,
    info: EpisodeInfo)

  /** Per row of a search: the chosen action, the visit-based policy and the root node's value. */
  datatype SearchOutput = SearchOutput(action: Action, actionWeights: seq<real>, rootValue: real)

  /** `mctx.RootFnOutput`. */
  datatype RootFnOutput = RootFnOutput(priorLogits: seq<real>, value: real, embedding: Embedding)

  /** `mctx.RecurrentFnOutput`. */
  datatype RecurrentFnOutput = RecurrentFnOutput(reward: real, discount: real, priorLogits: seq<real>, value: real)

  /** `MZLearnerState(params, opt_states, buffer_state, key, env_state, timestep)` of one replica;
      the environment state and last timestep hold one entry per environment row. */
  datatype MZLearnerState = MZLearnerState(
    params: MZParams,
    optStates: MZOptStates,
    bufferState: BufferState,
    key: Key,
    envStates: seq<EnvState>,
    timesteps: seq<TimeStep>)

  /** The four networks' apply functions, each on one example, and the distribution accessors. */
  datatype Networks = Networks(
    representation: (RepresentationParams, Observation) -> Embedding,
    dynamics: (DynamicsParams, Embedding, Action) -> (Embedding, real),
    actor: (ActorParams, Embedding) -> Policy,
    critic: (CriticParams, Embedding) -> real,
    logits: Policy -> seq<real>)
}
