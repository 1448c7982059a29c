/**
 What a split layer's result means to the code that runs a node's layers: a
 failed peer is the one failure its handlers catch, and every other failure
 escapes them (expert_orchestrator.py, moe.py, node.py).
 */
module LayerOutcomes {
  import opened Common
  import opened Moe
  import Orchestrator
  import NodeState

  /** The outcome of a node's layers, given the result of a split layer among them. */
  function RunOf<T>(r: Result<T>): NodeState.LayerRun {
    match r
    case Ok(_) => NodeState.Fine
    case Err(PeerFailed(_)) => NodeState.ExpertFails
    case Err(_) => NodeState.Raises
  }

  /** Run a split layer and say how it ended: well when the bad peers can be weathered, with an uncaught exception when
      some routed expert has no owner. */
  method RunAndClassify<V(!new), W>(o: Orchestrator.ExpertOrchestrator, layer: Layer<V, W>, h: Tensor<V>,
                                    env: Orchestrator.Env<V>, request: string, ghost bad: set<ShardId>)
    returns (out: Result<Tensor<V>>, run: NodeState.LayerRun)
    requires Orchestrator.HonestPeers(env, layer) && Shaped(layer, layer.route(h))
    modifies o`inFlight
    ensures o.Promised(layer, h, env, out) && run == RunOf(out)
    ensures o.Serviceable(layer, h, env, bad) ==> run == NodeState.Fine
    ensures o.Ownerless(layer, h, env) ==> run == NodeState.Raises
  {
    out := o.RunSplitLayer(layer, h, env, request, bad);
    run := RunOf(out);
  }

  /** A turn of the decode loop whose token went out and whose layers ended with this result. */
  ghost predicate TurnEndedWith<T>(script: nat -> NodeState.Round, n: nat, out: Result<T>) {
    && script(n).item != NodeState.Poison && !script(n).clientDown && !script(n).evicted
    && script(n).layers == RunOf(out)
  }

  /** If some routed expert has no owner, the loop dies in that turn and leaves the request in the head's tables. */
  lemma MissingOwnerLeavesEntry<V(!new), W>(
    o: Orchestrator.ExpertOrchestrator, layer: Layer<V, W>, h: Tensor<V>, env: Orchestrator.Env<V>,
    out: Result<Tensor<V>>, script: nat -> NodeState.Round, max: nat)
    requires Shaped(layer, layer.route(h)) && o.Promised(layer, h, env, out) && o.Ownerless(layer, h, env)
    requires TurnEndedWith(script, 0, out) && max >= 2
    ensures NodeState.Run(script, 0, max) == NodeState.Ending(1, 0, NodeState.Escaped)
    ensures NodeState.LeavesEntry(NodeState.Run(script, 0, max).exit)
  {}

  /** A failed peer is caught: the loop gives up, tells the client and leaves nothing behind. */
  lemma FailedPeerIsHandled<T>(peer: ShardId, script: nat -> NodeState.Round, max: nat)
    requires TurnEndedWith(script, 0, Result<T>.Err(PeerFailed(peer))) && max >= 2
    ensures NodeState.Run(script, 0, max) == NodeState.Ending(1, 0, NodeState.ExpertFailed)
    ensures !NodeState.LeavesEntry(NodeState.Run(script, 0, max).exit)
    ensures NodeState.Aborted(NodeState.Run(script, 0, max).exit)
  {}

  /** The loop leaves an entry in its first turn exactly when the layer failed for a reason other than a peer. */
  lemma LeavesEntryIffNotPeer<T>(out: Result<T>, script: nat -> NodeState.Round)
    requires TurnEndedWith(script, 0, out)
    ensures NodeState.Run(script, 0, 2).exit == NodeState.Escaped <==> out.Err? && !out.error.PeerFailed?
  {}
}
