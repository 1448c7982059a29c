# A verified model of the shard runtime

The repository runs a mixture-of-experts language model over many machines. Each node hosts a contiguous range of
decoder layers and, at some layers, a subset of the experts. Nodes find each other through SWIM-style gossip, pass
hidden states around a ring of shards, ask each other for expert outputs, copy expert weights between themselves and
record who computed what in a provenance chain. This project models that logic in Dafny and proves what the parts
promise together.

Tensors, layer functions, expert functions and the digest are arbitrary functions. Clocks, random draws, message
delivery, socket failures and other threads are parameters: a statement holds for every choice of them.

Verify everything with `dafny verify dfyconfig.toml`.

## How the files fit together

| part | files |
|---|---|
| membership state machine | `Records`, `Backlog`, `BacklogLemmas`, `Swim` (values), `MembershipState` (the object), `Runner` |
| membership, call by call | `SwimProbing` (a tick), `SwimReplies` (a message), `SwimHousekeeping` (the queues) |
| membership theorems | `SwimInvariants`, `SwimView`, `SwimMessages`, `SwimTiming`, `SwimWindow`, `SwimFairness`, `SwimCluster`, `SwimRefutation`, `SwimAccusation` |
| split layers with retry | `Moe`, `Orchestrator`, `LayerService` (the contract in plain terms), `LayerOutcomes` (what a failure means to the node) |
| expert placement | `Ownership`, `Transport`, `ExpertStack`, `Placement`, `PlacementOwners` (views, gossip and progress), `Heat`, `Scanner` |
| provenance | `Provenance` (validator, soundness), `ProvenanceRules` (the rules by position), `ProvenanceBuild` (honest builders, completeness), `ProvenanceEntries` (what they write) |
| pipeline decoding | `Pipeline` (layers, greedy reference), `GreedyTrace` (what both compute), `Ring`, `RingProof`, `RingTheorems`, `NodeState` (the objects), `HeadRefinement` |

The membership object is cut into micro-steps: a write to the view, a sent message, a bookkeeping update.
`Swim.StepInduction` lifts any property that each micro-step keeps to whole calls of `tick` and `recv`, and
`MembershipMachine.MembershipState` proves each method equal to the corresponding composition of micro-steps. What such
a composition does is then told again without it: `SwimProbing`, `SwimReplies` and `SwimHousekeeping` relate the node
before a call to the node and the messages after it.

## Where a tempting property is false

- A peer's recorded incarnation can fall. It falls exactly on an admitted Join that announces less than what is
  recorded and does not meet the floor for DEAD members (`SwimView.IncarnationFallsIffLoweringJoin`);
  `SwimView.JoinLowers` shows it on a booted node. The cluster theorem therefore speaks of runs without Join.
- Attaching an expert to a layer that was loaded whole labels row 0 with the new id
  (`ExpertStack.AttachToFullLayerMislabels`). Attaching keeps the rows right if and only if the held list was not
  empty (`ExpertStack.AttachRightIffHeld`).
- Last-writer-wins ownership depends on delivery order exactly when two newest deltas for one key disagree on the
  action (`Ownership.OrderIrrelevantIffNoTies`).
- The node stamps its own REMOVE with the plain clock while the runner lifts its own above what it holds. After an ADD
  and a REMOVE the two agree on the own row if and only if the node's clock moved in between
  (`Ownership.AddThenRemoveAgreesIffClockMoved`).
- An accepted request is not always removed from the head's tables. It stays exactly when its prefill activation cannot
  be forwarded, or when a layer raises something other than a failed expert call, in the prefill or in a turn the loop
  reaches: no handler catches that (`NodeState.HeadNode.HandleBegin`, `NodeState.EscapedIffRaises`,
  `LayerOutcomes.MissingOwnerLeavesEntry`). An expert without an owner and an expert not held are such cases: of the
  failures of `Orchestrator.ExpertOrchestrator.RunSplitLayer` only a failed peer is caught
  (`LayerOutcomes.LeavesEntryIffNotPeer`).
- A tick can leave a suspicion whose deadline has passed. Over all configurations, none does if and only if the
  suspicion window is positive (`SwimWindow.NoneExpiredIffPositiveWindow`); with a zero window it happens two ticks
  after boot (`SwimWindow.ZeroWindowLate`).
- b's own record does not always win. After its delivery the receiver holds b at b's incarnation, and as ALIVE unless it
  already held, and not from b itself, or the same message brought, an accusation at that very incarnation
  (`SwimRefutation.RefutationWins`); `SwimAccusation.OwnRecordLoses` is a run from boot in which it loses. Right after a
  refutation no such accusation exists (`SwimRefutation.RefutationSpreads`).

One comment in the source is out of date: the text in `_broadcast_end` (src/model_shard/node.py:1096-1099) says that
EndRequest is not relayed, but `_handle_end` relays it from every shard except the tail. The model follows the code.

## Model

| member | source | states |
|---|---|---|
| `BacklogLemmas.SortedSpec` | src/model_shard/membership/state.py:588-597 | the selection order is a permutation of the backlog, ordered by (priority, insertion) |
| `BacklogLemmas.EnqueueHealthy` | src/model_shard/membership/state.py:170-178 | replacing a member's entry keeps one entry per member, each equal to the view's record, with distinct insertion numbers |
| `BacklogLemmas.FreshHealthy` | src/model_shard/membership/state.py:180-182 | garbage collection of old entries keeps the same invariant |
| `BacklogLemmas.PickHealthy` | src/model_shard/membership/state.py:588-597 | a gossip selection, which sorts and bumps priorities, keeps the same invariant |
| `Swim.StepInduction` | src/model_shard/membership/state.py:149-168 | any property that every enabled micro-step keeps holds after a whole tick or recv |
| `SwimInvariants.BootKeeps` | src/model_shard/membership/state.py:70-130 | a constructed node satisfies the invariant, ALIVE in its own view, incarnation 0 for everyone else |
| `SwimInvariants.BootAsGiven` | src/model_shard/membership/state.py:70-130 | it knows exactly itself and the given peers, waits one ping period, has no probe, help or log, and has its own record to gossip exactly when its incarnation is positive |
| `SwimInvariants.StepKeeps` | src/model_shard/membership/state.py:149-447 | every tick and every message keeps: self ALIVE in its own view, view = replay of the transition log, each log entry naming the true old state, backlog = current records, pending probe unanswered with fewer negative acks than helpers |
| `SwimMessages.StepHonest` | src/model_shard/membership/state.py:588-597 | a call only appends to the log; each Ping-family message carries the sender's own record first and at most k_gossip others, all as the view stood when it was built |
| `SwimMessages.StepBalances` | src/model_shard/membership/state.py:639-683 | one call: help requests pending before plus accepted = pending after plus answered, as multisets |
| `SwimMessages.HelpsConserved` | src/model_shard/membership/state.py:618-683 | over every run, accepted PingReqs = PingReqAcks emitted + still pending, counted by requester, target and probe |
| `SwimMessages.TickLeavesHelpsYoung` | src/model_shard/membership/state.py:663-683 | after a tick every pending help is younger than the timeout |
| `SwimHousekeeping.TickHelps` | src/model_shard/membership/state.py:663-683 | after a tick a help request is pending exactly when it was before and has not timed out |
| `SwimHousekeeping.ChangesAreQueued` | src/model_shard/membership/state.py:170-182 | after any call every member whose record changed, and every member that was waiting within the cutoff, has its current record in the gossip backlog |
| `SwimHousekeeping.TickCollects` | src/model_shard/membership/state.py:180-182 | after a tick nothing older than three suspicion windows waits in the backlog |
| `SwimProbing.TickWithinPeriod` | src/model_shard/membership/state.py:149-221 | a tick before the period is over pings nobody and leaves a probe that is not due alone; a due one loses its target when nobody can help, otherwise as many distinct other ALIVE members as configured and available are noted and asked |
| `SwimProbing.TickOpensPeriod` | src/model_shard/membership/state.py:223-267 | a tick at or past the period leaves an escalated probe's target not ALIVE; if another ALIVE member is left it sends exactly one Ping, to the new probe's target, one of them, under a fresh id; otherwise no Ping and no probe; the next period is one ping period later |
| `SwimProbing.EscalationAsksHelpers` | src/model_shard/membership/state.py:184-221 | whenever a tick leaves a probe newly escalated, its helpers are min(k_indirect, number of other ALIVE members than the target) distinct such members, and the output holds exactly one PingReq with that target and probe id to each and none to anyone else |
| `SwimProbing.TickView` | src/model_shard/membership/state.py:397-447 | every record after a tick: passed deadlines are DEAD, exactly the accused ALIVE members are SUSPECT with deadline now plus window, all others stand, nobody enters or leaves |
| `SwimProbing.TickRefuses` | src/model_shard/membership/state.py:663-683 | every help answer a tick sends is a refusal, and the node keeps its id and incarnation |
| `SwimProbing.AnyoneCanBePinged` | src/model_shard/membership/state.py:237-246 | each ALIVE member left is the one pinged for some random choice |
| `SwimProbing.AnyoneCanHelp` | src/model_shard/membership/state.py:191-199 | any choice of as many helpers as are to be asked is made by some shuffle |
| `SwimReplies.PingIsAcked` | src/model_shard/membership/state.py:449-471 | a Ping from a known member yields exactly one message, an Ack to the sender with the node's own id, its incarnation after the call and its own record first; the sender counts as ALIVE, each peer ends with the highest admitted record and the own incarnation is just above every accusation; one from a stranger changes and sends nothing |
| `SwimReplies.AckSettles` | src/model_shard/membership/state.py:599-637 | an Ack clears the probe of its sender, is taken in like a Ping, and answers exactly the pending helps about its sender, all positively |
| `SwimReplies.PingReqIsRelayed` | src/model_shard/membership/state.py:639-661 | a PingReq about a known target yields exactly one Ping to it and is remembered; about a stranger nothing |
| `SwimReplies.HelperAnswerCounts` | src/model_shard/membership/state.py:370-395 | a positive answer to the pending probe leaves no probe and all else unchanged, a negative one is counted, the last negative one clears the probe and suspects the target, any other answer changes nothing |
| `SwimReplies.JoinIsEchoed` | src/model_shard/membership/state.py:305-343 | an admitted Join enters the newcomer as ALIVE as announced, unless it meets the DEAD floor, and yields exactly one MembershipDelta to it with every member's record once; a foreign one yields nothing |
| `SwimReplies.DeltaIsTaken` | src/model_shard/membership/state.py:345-368 | a MembershipDelta sends nothing; each known peer ends with the highest admitted record, each unknown one is learned from its first admitted record, and accusations of the node are refuted |
| `SwimTiming.TickLeavesNoneExpired` | src/model_shard/membership/state.py:421-447 | after a tick no SUSPECT member is past its deadline; with a zero window only deadlines this tick set remain |
| `SwimWindow.NoneExpiredIffPositiveWindow` | src/model_shard/membership/state.py:397-447 | for every configuration: no tick of any node satisfying the invariant leaves an expired suspicion if and only if the window is positive |
| `SwimWindow.ZeroWindowLate` | src/model_shard/membership/state.py:184-267 | with a zero window and a timeout shorter than the period, the second tick after booting with one peer leaves it SUSPECT with a passed deadline |
| `SwimTiming.TickDeathsAreDue` | src/model_shard/membership/state.py:421-447 | a tick makes a member DEAD only from SUSPECT with a recorded deadline that has passed |
| `SwimTiming.StepStory` | src/model_shard/membership/state.py:184-267 | a tick takes a peer out of ALIVE only when its ping is at least the timeout old, and a probe is escalated only after the timeout |
| `SwimTiming.AckClearsProbe` | src/model_shard/membership/state.py:599-637 | an Ack from the probed peer clears the probe |
| `SwimTiming.ProbeHistory` | src/model_shard/membership/state.py:223-267 | in every run with a monotone clock a pending probe comes from a tick that pinged its target, with no Ack from the target since |
| `SwimTiming.SuspicionJustified` | src/model_shard/membership/state.py:184-267 | in every such run a tick that moves a peer from ALIVE to SUSPECT was preceded, at least one timeout earlier, by a ping to it and no Ack from it in between |
| `SwimView.IncarnationFallsIffLoweringJoin` | src/model_shard/membership/state.py:305-343 | a recorded peer incarnation falls on a call if and only if the call is an admitted lowering Join |
| `SwimView.JoinLowers` | src/model_shard/membership/state.py:305-343 | a booted node that heard a peer at 5 records 0 after that peer joins at 0 |
| `SwimView.ForeignModelsStayOut` | src/model_shard/membership/state.py:284-303 | with a local model id, no record of another model enters the view |
| `SwimView.RankIsLexicographic` | src/model_shard/membership/state.py:554-586 | the order deltas are compared by is lexicographic on (incarnation, severity) |
| `SwimView.ApplyAllReachesTop` | src/model_shard/membership/state.py:512-586 | applying a list of deltas leaves each known peer at the maximum of its old rank and the admitted deltas' ranks |
| `SwimView.RunReachesTop` | src/model_shard/membership/state.py:345-368 | the same over any sequence of delta messages |
| `SwimView.DeliveryOrderIrrelevant` | src/model_shard/membership/state.py:512-586 | two deliveries of the same set of records, in any order, batching, multiplicity and timing, leave the same incarnation and state for every known peer |
| `SwimFairness.SkipLowersDebt` | src/model_shard/membership/state.py:588-597 | a selection that skips an entry lowers its debt by exactly k_gossip |
| `SwimFairness.PickedInTime` | src/model_shard/membership/state.py:588-597 | with k at least 1 an entry is selected within floor(debt / k) + 1 selections |
| `SwimFairness.GossipIsFair` | src/model_shard/membership/state.py:588-597 | on the node, the entry's record is in the gossip of one of that many messages |
| `SwimCluster.ReachableSafe` | src/model_shard/membership/state.py:449-586 | in every reachable state of a cluster whose network loses, duplicates and reorders and whose nodes may restart with a higher incarnation, each node satisfies its invariant and every view record and in-flight delta about b has incarnation at most b's own |
| `SwimRefutation.RefutationBumpsByOne` | src/model_shard/membership/state.py:525-552 | in every reachable state a delivery raises the receiver's incarnation by at most one and leaves it ALIVE in its own view; when it raises it, the new value exceeds every record of the receiver in other views and every accusation in flight, both before the delivery and after it |
| `SwimRefutation.RefutationWins` | src/model_shard/membership/state.py:449-586 | in every reachable state the delivery of a Ping or Ack with b's own record to a node that admits it leaves b there at exactly b's incarnation, and not ALIVE if and only if the node already held, not from b itself, or the message brought, an accusation at that incarnation |
| `SwimRefutation.RefutationSpreads` | src/model_shard/membership/state.py:525-586 | after a delivery that made b refute, any Ping or Ack with b's new record, delivered to any node that admits it, leaves b ALIVE there at the new incarnation |
| `SwimAccusation.OwnRecordLoses` | src/model_shard/membership/state.py:554-586 | a run from a booted cluster of three: a hears b at incarnation 1 through c, suspects b at it, and after the same message again still does not hold b ALIVE |
| `SwimCluster.RestartSafe` | src/model_shard/membership/runner.py:70-84 | a node that restarts with everything forgotten and an incarnation above its last one keeps the cluster within bounds |
| `MembershipMachine.MembershipState.constructor` | src/model_shard/membership/state.py:70-130 | the object starts in the boot state and satisfies the invariant |
| `MembershipMachine.MembershipState.Tick` | src/model_shard/membership/state.py:149-168 | new state and messages equal the step that the `SwimProbing` and `SwimHousekeeping` rows describe, in the source's order of stages; invariant kept |
| `MembershipMachine.MembershipState.Recv` | src/model_shard/membership/state.py:269-282 | new state and replies equal the step that the `SwimReplies` rows describe, for any message; invariant kept |
| `MembershipMachine.MembershipState.SelectOutgoingDeltas` | src/model_shard/membership/state.py:588-597 | returns own record plus the picked entries and leaves the re-sorted, bumped backlog |
| `MembershipMachine.MembershipState.MaybeRefute` | src/model_shard/membership/state.py:525-552 | installs own record above the accusation and takes its incarnation, or does nothing |
| `MembershipMachine.MembershipState.MaybeApplyPeerDelta` | src/model_shard/membership/state.py:554-586 | installs an admitted, higher-ranked record for a known peer and nothing else |
| `MembershipMachine.MembershipState.MaybeEscalateProbe` | src/model_shard/membership/state.py:184-221 | new state and messages equal the last stage of the tick, whose whole effect is in `SwimProbing.EscalationAsksHelpers` and `SwimProbing.TickView` |
| `MembershipMachine.MembershipState.StartProtocolPeriod` | src/model_shard/membership/state.py:223-267 | closes the old probe, suspecting its target, and pings the next one |
| `MembershipMachine.MembershipState.MaybePromoteDead` | src/model_shard/membership/state.py:421-447 | every SUSPECT member with a passed deadline becomes DEAD |
| `MembershipMachine.MembershipState.HandlePingReqAck` | src/model_shard/membership/state.py:370-395 | counts a negative answer or clears the probe; the last negative answer suspects the target |
| `MembershipMachine.MembershipState.HandleJoin` | src/model_shard/membership/state.py:305-343 | records an admitted newcomer above the DEAD floor and echoes the view |
| `MembershipMachine.MembershipState.HandleAck` | src/model_shard/membership/state.py:599-637 | clears the probe, promotes the sender, applies deltas and answers the helps that waited for it |
| `Runner.MembershipRunner.Iterate` | src/model_shard/membership/runner.py:302-376 | one round is a tick and then each inbox message in order, every step taken by the state machine, and all they produce goes out in order; the observers have then been handed the whole transition log, each entry once and in order |
| `Ownership.OrderIrrelevantIffNoTies` | src/model_shard/membership/runner.py:273-291 | the last-writer-wins map is independent of delivery order and duplication if and only if newest deltas for one key agree on the action |
| `Ownership.RelayKeepsMirror` | src/model_shard/node.py:1390-1396 | after any gossip with positive timestamps the node's view of other shards is the runner's entry where there is one and the static map elsewhere |
| `Ownership.OwnershipViews.constructor` | src/model_shard/node.py:149-160 | the node's view starts as the static map at timestamp zero |
| `Ownership.OwnershipViews.NodePut` | src/model_shard/node.py:1198-1210 | installs a delta only if it is strictly newer; ties keep the first writer |
| `Ownership.OwnershipViews.Ingest` | src/model_shard/membership/runner.py:273-291 | both views become the specified folds, the node's over exactly what the runner accepted, and stay mirrored |
| `Ownership.OwnershipViews.AnnounceAdd` | src/model_shard/membership/runner.py:181-200 | an own ADD enters both views, each with its own clock reading |
| `Ownership.OwnershipViews.AnnounceRemove` | src/model_shard/membership/runner.py:202-224 | the REMOVE sent is stamped with the clock reading or one past the entry the runner held, whichever is later, so it beats that entry; the node stamps the plain clock |
| `Ownership.RemoveAgreesIffLater` | src/model_shard/node.py:1282-1287 | after an own REMOVE the runner's row is REMOVE; the node's is too exactly when its clock passed its entry or the entry was a REMOVE |
| `Ownership.AddThenRemoveAgreesIffClockMoved` | src/model_shard/membership/runner.py:202-224 | after an own ADD and REMOVE the runner does not list itself; the node still does exactly when its clock did not move in between |
| `Ownership.OwnershipViews.OwnersOf` | src/model_shard/node.py:1212-1222 | exactly the shards whose latest observed action is ADD |
| `Moe.Winner` | src/model_shard/moe.py:264-290 | the chosen owner is a candidate and no more loaded than some other candidate |
| `Moe.AnyTwoCanBeCompared` | src/model_shard/moe.py:282-289 | of three or more candidates any ordered pair is compared for some draw, and the lighter wins, the first on a tie |
| `Moe.GroupByOwnerLoaded` | src/model_shard/moe.py:242-291 | for any list, repeats included, succeeds exactly when every id has a candidate, and then equals the specified grouping |
| `Moe.GroupsOfIsGrouped` | src/model_shard/moe.py:271-291 | the grouping asks only candidates, each a winner of its load comparison; every id is asked of someone, and of one shard only when the list has no repeats |
| `Moe.GroupsConserveIds` | src/model_shard/moe.py:271-291 | the groups together hold exactly the list, with multiplicity |
| `Moe.AggregateOne` | src/model_shard/moe.py:206-239 | shared + norm(weighted sum in slot order); fails exactly on an empty top-k or a missing output |
| `Moe.AggregateExperts` | src/model_shard/backends/mlx_backend.py:112-155 | every position gets the one-node value; succeeds exactly when all rows are filled and all routed outputs are present |
| `Orchestrator.RunSelectedExperts` | src/model_shard/moe.py:102-179 | returns each asked expert's own output; refuses exactly an id outside a non-empty held list |
| `Orchestrator.Route` | src/model_shard/expert_orchestrator.py:471-535 | covers exactly the ids given, each by one peer that owns it and is not excluded, or locally with the right output; succeeds when every id is servable |
| `Orchestrator.Gather` | src/model_shard/expert_orchestrator.py:255-329 | no failure exactly when every asked peer's call returns and a poll sees it done before any abort of it or deadline; a blamed peer is one that does not; outputs only grow, stay right, hold only asked ids and keep what was done before the failure; a peer that keeps its word is never blamed |
| `Orchestrator.Drain` | src/model_shard/expert_orchestrator.py:445-470 | everything survivors finished before the round was closed is kept, and right |
| `Orchestrator.NeverAskedAgain` | src/model_shard/expert_orchestrator.py:411-549 | over all rounds a failed peer and an id already answered are never dispatched again, so no peer fails twice |
| `Orchestrator.ExpertOrchestrator.Attempt` | src/model_shard/expert_orchestrator.py:425-535 | a round finishes with all answers, gives up naming the failed peer, on the last attempt or when some id can no longer be placed, or continues with exactly the missing ids re-partitioned |
| `Orchestrator.ExpertOrchestrator.BlameIsBad` | src/model_shard/expert_orchestrator.py:448-451 | when bad peers are fewer than the attempts, a failure is a bad peer's not excluded before, it is not the last attempt, and every id can be placed again |
| `Orchestrator.ExpertOrchestrator.PhaseBWithRetry` | src/model_shard/expert_orchestrator.py:340-549 | at most max(1, max_attempts) rounds, each partitioning exactly the missing ids over peers not excluded; a result answers exactly the ids needed, and there is one whenever the bad peers are fewer than the attempts, the others keep their word and every id can be placed without the bad ones; the request is gone from the in-flight table on every exit |
| `Orchestrator.CollectIds` | src/model_shard/expert_orchestrator.py:573-578 | the sorted duplicate-free union of all routed ids |
| `Orchestrator.ExpertOrchestrator.FanOut` | src/model_shard/expert_orchestrator.py:551-646 | every routed expert's own output, computed here or fetched; no owner for some routed expert gives exactly that error |
| `Orchestrator.Combine` | src/model_shard/expert_orchestrator.py:648-663 | with all outputs present, succeeds exactly on a filled routing and gives the one-node layer |
| `Orchestrator.ExpertOrchestrator.RunSplitLayer` | src/model_shard/expert_orchestrator.py:551-683 | whatever it returns equals the one-node layer, for every owner map, load table, draw, failure and abort pattern; it does return whenever fewer peers than attempts are bad, the others keep their word and every routed expert can be placed without the bad ones; a routed expert without an owner gives that error |
| `LayerService.CandidatesAreOwners` | src/model_shard/moe.py:259-280 | the candidates for an expert are exactly its static and live owners that are not excluded |
| `LayerService.ServableIff` | src/model_shard/expert_orchestrator.py:471-535 | an expert can be placed exactly when some static or live owner is not excluded and this shard, if it is one, holds it |
| `LayerService.SomeLayerIsServiceable` | src/model_shard/expert_orchestrator.py:551-683 | those conditions can be met with any bad peers, always failing and fewer than the attempts, as long as every routed expert has a static or live owner that is not bad and this shard holds what it owns; so a migrated replica saves a layer whose static owners all fail |
| `LayerService.OneNodeValue` | src/model_shard/moe.py:206-239 | the one-node layer written out: at each position the shared output plus the norm of the last of the running sums of weight times expert output, in slot order, through the outer operations |
| `LayerOutcomes.RunAndClassify` | src/model_shard/mlx_engine.py:188-202 | how running a split layer ends for the node: well when the bad peers are weathered, with an uncaught exception when a routed expert has no owner |
| `LayerOutcomes.MissingOwnerLeavesEntry` | src/model_shard/moe.py:279-280 | when a routed expert has no owner, the decode loop dies in that turn, after the token and before the activation, and the request stays in the head's tables |
| `LayerOutcomes.FailedPeerIsHandled` | src/model_shard/node.py:578-593 | a failed peer ends the loop through its handler, which leaves no entry |
| `LayerOutcomes.LeavesEntryIffNotPeer` | src/model_shard/node.py:560-608 | among a layer's failures, exactly those other than a failed peer leave an entry |
| `Transport.PackUnpack` | src/model_shard/transport.py:28-42 | the four-byte big-endian length round-trips |
| `Transport.PackIsBigEndian` | src/model_shard/transport.py:28-42 | a length is spelled by four bytes, most significant first |
| `Transport.FrameRoundTrip` | src/model_shard/transport.py:28-42 | a written frame is read back with whatever follows left untouched |
| `Transport.FrameLayout` | src/model_shard/transport.py:28-34 | the frame by position: length, message, length, tensor, and nothing else |
| `Transport.TruncationDetected` | src/model_shard/transport.py:18-25 | every proper prefix of a frame is rejected |
| `Transport.Stream.ReadExact` | src/model_shard/transport.py:18-25 | under any short reads returns exactly the next n bytes or reports the stream's end |
| `Transport.Stream.ReadFrame` | src/model_shard/transport.py:37-42 | equals the parse of the remaining bytes |
| `Transport.Stream.WriteFrame` | src/model_shard/transport.py:28-34 | appends exactly the frame |
| `Transport.CutIffJoin` | src/model_shard/migration.py:85-103 | splitting a payload by byte counts succeeds with given blobs exactly when the payload is their concatenation |
| `Transport.SplitPayload` | src/model_shard/migration.py:85-103 | the running-offset loop computes that split or fails |
| `ExpertStack.LoadRight` | src/model_shard/partial_load.py:66-102 | a partial load with a non-empty duplicate-free list has one right row per id in all nine stacks |
| `ExpertStack.SliceRight` | src/model_shard/partial_load.py:113-143 | slicing succeeds exactly for held ids and returns the original nine tensors |
| `ExpertStack.AttachRight` | src/model_shard/partial_load.py:146-186 | attaching the original tensors of a new id keeps every row right and adds exactly that id |
| `ExpertStack.DetachRight` | src/model_shard/partial_load.py:189-238 | detaching keeps every remaining row right and removes exactly that id |
| `ExpertStack.DetachUndoesAttach` | src/model_shard/partial_load.py:146-238 | detach after attach of a new id is the identity |
| `ExpertStack.RowForRight` | src/model_shard/moe.py:150-179 | slot translation finds the original row exactly for held ids |
| `ExpertStack.AttachToFullLayerMislabels` | src/model_shard/moe.py:157-160 | after attaching to a layer loaded whole, the new id answers with row 0 of the original |
| `ExpertStack.AttachRightIffHeld` | src/model_shard/partial_load.py:146-186 | attaching to a fresh load keeps rows right if and only if its held list was not empty |
| `ExpertStack.LoadedModel.Slice` | src/model_shard/partial_load.py:113-143 | the nine-tensor loop returns the specified slice or nothing |
| `ExpertStack.LoadedModel.Attach` | src/model_shard/partial_load.py:146-186 | the layer becomes the specified grown stack or stays; other layers untouched |
| `ExpertStack.LoadedModel.Detach` | src/model_shard/partial_load.py:189-238 | the layer becomes the specified shrunk stack or stays; other layers untouched |
| `Placement.TransferRoundTrip` | src/model_shard/node.py:1004-1014 | nine tensors survive serialization, framing, splitting and deserialization with their declared shapes and element types |
| `Placement.ReachablePlaced` | src/model_shard/migration.py:163-258 | over every run of pulls, serves, attaches, evictions and arbitrarily delayed gossip: every held row on every node is the original's, live set = backend's held set, bootstrap kept, each layer within max(bootstrap size, capacity) |
| `Placement.BootstrapAlwaysHeld` | src/model_shard/node.py:1240-1287 | over every run an expert with a bootstrap owner is held there with the right row |
| `Placement.LastReplicaNeverFires` | src/model_shard/node.py:1240-1287 | over every run the last-replica guard never refuses a migrated-in victim |
| `PlacementOwners.ListsItselfIffHolds` | src/model_shard/node.py:1212-1287 | over every run in which each node's clock moves between its own announcements, whatever gossip it hears: a node is among the owners its own view lists for an expert exactly when the expert is in its live set |
| `PlacementOwners.ChangesAreAnnounced` | src/model_shard/node.py:1224-1287 | in every reachable cluster an expert starts to be live only by a finished pull, after which gossip holds an ADD of it, and stops only by an eviction, after which gossip holds a REMOVE; nothing else is gossiped about it |
| `PlacementOwners.HeardIsBelieved` | src/model_shard/node.py:1198-1222 | hearing a newer delta makes its shard an owner or not as the delta says |
| `PlacementOwners.PullCompletes` | src/model_shard/migration.py:47-105 | in every reachable cluster a pending pull whose source holds the expert and whose parts fit a frame, served and then finished, leaves the expert live at the puller with the original row in each of the nine tensors |
| `PlacementOwners.MigrationCompletes` | src/model_shard/migration.py:195-222 | in every reachable cluster a node with room that selects a known owner which holds the expert, is served and finishes, has it live |
| `Scanner.SelectCandidate` | src/model_shard/migration.py:163-184 | picks an eligible expert no eligible reported one is hotter than, from a least-loaded other owner; nothing exactly when none is eligible |
| `Scanner.Coldest` | src/model_shard/migration.py:224-258 | the coldest cooled-down non-bootstrap expert of a full layer, or none |
| `Scanner.MaybeEvictOne` | src/model_shard/migration.py:224-258 | at most one victim: the coldest candidate of the first layer whose coldest is not refused; none exactly when every layer is passed over |
| `Scanner.ScanEvicts` | src/model_shard/migration.py:224-258 | in every reachable cluster a candidate's detach succeeds |
| `Heat.SparseIsDense` | src/model_shard/heat.py:25-49 | across any run of observe and reset the sparse dictionary equals the dense recurrence alpha*c + (1-alpha)*e |
| `Heat.TotalHeatBounded` | src/model_shard/heat.py:25-49 | no duplicate-free list of a layer's experts is hotter in total than the largest batch seen |
| `Heat.CountIsMultiplicity` | src/model_shard/heat.py:25-49 | an expert counts as often as the batch names it |
| `Heat.HeatTracker.Observe` | src/model_shard/heat.py:25-49 | every expert of the layer keeps (1 - alpha) of its heat and gains alpha per occurrence in the batch; other layers, and everything on an empty batch, stay |
| `Heat.HeatTracker.Reset` | src/model_shard/heat.py:74-79 | forgets exactly one expert |
| `Heat.HeatTracker.LocalHeat` | src/model_shard/heat.py:67-72 | the rounded value of the dense recurrence over the whole history |
| `Heat.RoundIsNearest` | src/model_shard/heat.py:67-72 | the reported integer is nearest, and even on a tie |
| `Heat.HeatTracker.Report` | src/model_shard/heat.py:51-65 | at most top_n positive entries, hottest first, none hotter left out |
| `Provenance.CheckComplete` | src/model_shard/provenance.py:151-172 | accepts exactly the chains whose required layers are all covered |
| `Provenance.CheckBucket` | src/model_shard/provenance.py:188-229 | accepts exactly one route, one shared expert, distinct experts and one aggregate over all of them |
| `Provenance.ValidateChain` | src/model_shard/provenance.py:111-293 | accepts exactly the chains that satisfy the five rules, which `ProvenanceRules.ValidIffAcceptable` writes out |
| `Provenance.AcceptedChainSound` | src/model_shard/provenance.py:142-277 | with disjoint ranges, in an accepted finalized chain every layer is covered, only by the shard hosting it, and is either purely atomic or one well-shaped split without atomic entries |
| `Provenance.EndsAuthorized` | src/model_shard/provenance.py:142-149 | only a head embeds, only a tail finalizes, and finalize comes last |
| `ProvenanceRules.ValidIffAcceptable` | src/model_shard/provenance.py:111-293 | the rules entry by entry: embed first, finalize only last, required layers finished, each split layer with one route, one shared expert, each expert once and one aggregate naming their hashes, each node entitled to its operation, and the last hash the digest of the tensor |
| `ProvenanceRules.OneTensorPerChain` | src/model_shard/provenance.py:279-293 | with an accepted chain the tensor's digest is the last hash, and other bytes are accepted exactly when they have the same digest |
| `ProvenanceRules.ExpertsComeFromOwners` | src/model_shard/provenance.py:271-277 | every expert entry of an accepted chain is by a live owner of that expert |
| `ProvenanceBuild.CollectChildren` | src/model_shard/expert_orchestrator.py:666-674 | collects exactly the hashes of the layer's shared-expert and expert entries |
| `ProvenanceBuild.RunSplitLayer` | src/model_shard/expert_orchestrator.py:599-681 | appends route, shared, expert and aggregate entries as specified |
| `ProvenanceBuild.RunTracedLayers` | src/model_shard/mlx_engine.py:187-216 | the layer loop computes the specified hidden state and chain |
| `ProvenanceEntries.LayerAdds` | src/model_shard/expert_orchestrator.py:599-681 | the entries an honest layer adds, field by field: node, operation, parents and the digest over the right bytes; the aggregate names exactly the shared and expert entries in order |
| `ProvenanceBuild.StepKeepsSound` | src/model_shard/mlx_engine.py:188-216 | one honest layer, atomic or split, turns a chain sound up to m into one sound up to m + 1 |
| `ProvenanceBuild.SoundIsValid` | src/model_shard/provenance.py:111-293 | a chain sound up to any layer passes the validator's rules with the current tensor's bytes |
| `ProvenanceBuild.FinishedIsValid` | src/model_shard/node.py:725-738 | with the tail's finalize entry the full chain is valid for the logits |
| `ProvenanceBuild.Hop` | src/model_shard/node.py:623-700 | a receiving shard accepts the honest chain and extends it over its own range, each layer applied to the state before it |
| `ProvenanceBuild.RunRing` | src/model_shard/node.py:462-500 | for any contiguous partition and honest local splits no hop rejects, the final chain covers every layer, and the result is the finalized state that the layers, each on a shard hosting it, make of the embedding one after the other |
| `Pipeline.RunLayers` | src/model_shard/mlx_engine.py:187-216 | the in-place loop over layers equals the fold that `GreedyTrace.LayersDescribed` writes out |
| `Pipeline.GenerateGreedy` | src/model_shard/reference.py:57-83 | returns the generation that `GreedyTrace.GreedyIffGeneration` characterises, of length max(1, max_new_tokens) |
| `GreedyTrace.LayersTraced` | src/model_shard/mlx_engine.py:187-216 | a range of layers is a sequence of hidden states and caches: layer l turns state and slot into the next state, updates its slot from the same two and leaves every other slot |
| `GreedyTrace.LayersDescribed` | src/model_shard/mlx_engine.py:138-156 | with a slot of its own, layer l maps hs[l] and its slot of the starting cache to hs[l+1], and the slot then holds its update; other slots stay |
| `GreedyTrace.GreedyIffGeneration` | src/model_shard/reference.py:57-83 | a token list is the greedy generation if and only if it has that length and arises pass by pass: prompt first, then each token, all layers on the one cache that started blank, token picked from the last state |
| `Pipeline.LayersLocal` | src/model_shard/mlx_engine.py:138-156 | a range of layers depends only on its own cache slots |
| `Pipeline.MaskAgrees` | src/model_shard/mlx_engine.py:114-135 | the mask a shard rebuilds from its own cache is the reference's |
| `Pipeline.HopMatches` | src/model_shard/node.py:1018-1042 | a shard ready for pass t that gets the reference's hidden state hands on the reference's and is ready for pass t + 1 |
| `Ring.ResolveDownstream` | src/model_shard/node.py:1461-1474 | returns a listed peer at the target start other than itself, or nothing exactly when there is none |
| `Ring.DownstreamIsNext` | src/model_shard/node.py:1461-1474 | in a tiling of two or more shards the downstream peer is the next shard, and the tail's is the head |
| `RingProof.StepKeeps` | src/model_shard/node.py:426-808 | every action of the ring keeps the invariant for every request: one awaited message or token at a time, matching the reference, caches in step |
| `RingProof.ShardAnswers` | src/model_shard/node.py:679-742 | a shard answers the reference's activation with the reference's next activation or token |
| `RingProof.EndMoves` | src/model_shard/node.py:789-808 | End clears one shard, moves one down, and stops at the tail |
| `RingTheorems.ClientsSeeGreedy` | src/model_shard/node.py:462-549 | in every reachable state, with any interleaving of requests, delivery order and failures, a client has a prefix of the greedy generation, and all of it exactly when its request is done |
| `RingTheorems.NothingLeftBehind` | src/model_shard/node.py:1091-1106 | a request done without failure and with nothing in flight has no cache on any shard |
| `RingTheorems.NeverStuck` | src/model_shard/node.py:497-549 | from every reachable state a request that met no failure can be driven to the end: the client has exactly the greedy generation and every cache is cleared |
| `NodeState.ShardNode.HandleActivation` | src/model_shard/node.py:610-742 | runs the shard's range on the request's cache, made fresh on first contact, and answers; drops a misrouted activation; a failed expert call drops the cache, anything else a layer raises leaves it and answers nothing |
| `NodeState.ShardNode.HandleEnd` | src/model_shard/node.py:789-808 | drops the cache and relays End unless it is the tail |
| `NodeState.ArriveIsLocal` | src/model_shard/node.py:679-742 | the object's effect is the ring's step on its own row, and no other row changes |
| `NodeState.ClearIsLocal` | src/model_shard/node.py:789-808 | the same for End |
| `NodeState.FinishedIffSmooth` | src/model_shard/node.py:502-549 | the loop finishes exactly when every turn is free of poison and failure |
| `NodeState.EscapedIffRaises` | src/model_shard/node.py:502-608 | the loop dies of an uncaught exception exactly when some turn it reaches has a layer raise one |
| `NodeState.HeadNode.DriveDecodeLoop` | src/model_shard/node.py:502-608 | at the i-th blocking get i tokens were taken and i + 1 activations forwarded; the exit, client trace and activations are exactly those of the script; the request is out of both tables on every exit except an uncaught exception from a layer, which leaves both and sends nothing |
| `NodeState.HeadNode.HandleBegin` | src/model_shard/node.py:426-500 | refusals change nothing but the client; an accepted request is left in a table exactly when its prefill forward failed or a layer raised something no handler catches, in the prefill or in a turn reached; other requests keep their entries |
| `NodeState.StoryIsOrderly` | src/model_shard/node.py:502-608 | positions count from 0, only the max-th token is final and nothing follows it, an error is said at most once and last |
| `NodeState.GivenUpIsTold` | src/model_shard/node.py:552-608 | the client is told of the failure, last, exactly when the request ends by a failed expert call, a lost peer or a broken connection |
| `HeadRefinement.BeginIsPrefill` | src/model_shard/node.py:457-497 | the ring's begin step does to its head's row, tables and outgoing messages what the object's prefill does |
| `HeadRefinement.TakeIsTurn` | src/model_shard/node.py:505-552 | the ring's take step does to them what one turn of the object's loop does, last turn included |
| `HeadRefinement.AbortIsGiveUp` | src/model_shard/node.py:560-608 | the ring's abort step does to them what the failure handlers do |
| `HeadRefinement.LoopFollowsRing` | src/model_shard/node.py:502-549 | with anything happening elsewhere between turns, after n turns the ring has told the script's first n tokens and its head's cache is the object's |
| `HeadRefinement.HeadTellsGreedy` | src/model_shard/node.py:502-549 | from any reachable state, an object fed what the ring delivers tells token i as the i-th greedy token at position i, final exactly when it is the last asked for, and is done exactly after that many turns |

## Left out

- Sockets, UDP, threads, locks, the HTTP endpoint, YAML loading, environment flags and scripts: I/O and wiring.
- MLX, PyTorch and Hugging Face numerics: tensors and layer, expert and mask functions are abstract and deterministic.
- The PyTorch split-layer path: its routing result does not fit the unpacking that follows it.
- Protobuf adapters, `load.py`, `client.py`, `shard_map.py` and `shard.py`: field copying and simple lookups.
- Loads, heat reports and ownership deltas piggybacked on gossip messages are not fields of the membership messages; ownership gossip is modelled on its own.
- The TTL countdown of outbound ownership deltas (`membership/runner.py`): it only bounds how often a delta is repeated, and delivery is arbitrary here.
- A probe id is a pair (origin, counter) instead of a formatted string; timestamps of provenance entries are dropped since no rule reads them.
- Random choices (probe target, helper shuffle, candidate pairs) are data of the event; set iteration order is a parameter.
- SwimCluster.ReachableSafe: runs without Join, because a Join can lower an incarnation; a restarted node's clock gives it an incarnation above its last one.
- Swim.StepInduction: the address table of the source is not part of the state.
- Placement.ReachablePlaced: pulls happen only at layers with a non-empty held list; the other case is shown false by `AttachToFullLayerMislabels`.
- PlacementOwners.ListsItselfIffHolds: speaks of runs in which a node's clock moves between its own announcements; within one millisecond `Ownership.AddThenRemoveAgreesIffClockMoved` shows the case that fails.
- Orchestrator.Gather: the polling loop sees finitely many polls, after which the deadline counts as passed.
- Pipeline.MaskAgrees: assumes that masks depend on the hidden state only through its width and that a one-token mask ignores the cache.
- RingTheorems.ClientsSeeGreedy: request ids are not reused; a stream delivers each message at most once.
- NodeState.HeadNode.DriveDecodeLoop: does not say which partly updated cache an uncaught exception leaves behind; the trace is the loop's own; the separate upstream-error handler, which also writes an error to the client, enters only as the removal of the request from both tables.
- Closing and reopening of the outbound connection is not modelled.
- Provenance of remote experts: the prefix sent with an expert request is taken while the layer is open, and the validator demands its aggregate.
- Exactly one provenance entry per expert under retry: outputs and their provenance are merged in two steps.
- The strength of the hash: any function is allowed.
