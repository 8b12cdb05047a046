/** The two evaluation closures the tree search calls: the root function
    (`make_root_fn`) and the recurrent function (`make_recurrent_fn`). */
module Planner {
  import opened MuZeroTypes

  /** Root evaluation: encode the real observation with the representation network, then score
      that one embedding with the actor (prior logits) and the critic (value). The environment
      state argument is accepted and ignored. */
  function RootFn(nets: Networks, params: MZParams, observation: Observation, envState: EnvState): (r: RootFnOutput)
    ensures r.embedding == nets.representation(params.worldModel.representation, observation)
    ensures r.priorLogits == nets.logits(nets.actor(params.prediction.actor, r.embedding))
    ensures r.value == nets.critic(params.prediction.critic, r.embedding)
  {
    var embedding := nets.representation(params.worldModel.representation, observation);
    var pi := nets.actor(params.prediction.actor, embedding);
    var value := nets.critic(params.prediction.critic, embedding);
    RootFnOutput(nets.logits(pi), value, embedding)
  }

  /** One simulated step inside the search: the dynamics network moves the embedding and predicts
      the reward, actor and critic score the NEXT embedding, and the discount is always 1. The
      random key is accepted and ignored. */
  function RecurrentFn(nets: Networks, params: MZParams, key: Key, action: Action, embedding: Embedding)
    : (r: (RecurrentFnOutput, Embedding))
    ensures r.0.discount == 1.0
    ensures (r.1, r.0.reward) == nets.dynamics(params.worldModel.dynamics, embedding, action)
    ensures r.0.priorLogits == nets.logits(nets.actor(params.prediction.actor, r.1))
    ensures r.0.value == nets.critic(params.prediction.critic, r.1)
  {
    var (next, reward) := nets.dynamics(params.worldModel.dynamics, embedding, action);
    var pi := nets.actor(params.prediction.actor, next);
    var value := nets.critic(params.prediction.critic, next);
    (RecurrentFnOutput(reward, 1.0, nets.logits(pi), value), next)
  }

  /** Two parameter trees that agree on representation, actor and critic. */
  ghost predicate SameRootParams(p: MZParams, q: MZParams)
  {
    p.worldModel.representation == q.worldModel.representation && p.prediction == q.prediction
  }

  /** Two parameter trees that agree on dynamics, actor and critic. */
  ghost predicate SameRecurrentParams(p: MZParams, q: MZParams)
  {
    p.worldModel.dynamics == q.worldModel.dynamics && p.prediction == q.prediction
  }

  /** The root depends on the observation and the representation, actor and critic parameters
      only: neither the dynamics parameters nor the environment state reach it. */
  lemma {:induction false} RootFnReads(nets: Networks, p: MZParams, q: MZParams, o: Observation, s1: EnvState, s2: EnvState)
    requires SameRootParams(p, q)
    ensures RootFn(nets, p, o, s1) == RootFn(nets, q, o, s2)
  {
  }

  /** A simulated step depends on the action, the embedding and the dynamics, actor and critic
      parameters only: neither the key nor the representation parameters reach it. */
  lemma {:induction false} RecurrentFnReads(nets: Networks, p: MZParams, q: MZParams, k1: Key, k2: Key, a: Action, e: Embedding)
    requires SameRecurrentParams(p, q)
    ensures RecurrentFn(nets, p, k1, a, e) == RecurrentFn(nets, q, k2, a, e)
  {
  }
}
