# Shard assignment, checkpoint fencing and delivery

A Dafny model of the consumer group of a Kinesis stream: the manager that assigns shards to workers, the indexed
priority queue it relies on, the discovery service that knows the lineage of the shards, the checkpoint protocol over
a shared key/value store, the shard processors, and the worker's reconcile loop. `dafny verify dfyconfig.toml` checks
everything.

## How it is built

| file | what it holds |
|---|---|
| `Finite.dfy` | sequences without repetition, sums over finite maps |
| `PriorityQueues.dfy` | the binary heap with its back-index, in place, refining a map from value to priority |
| `Lineage.dfy`, `Discovery.dfy`, `DiscoveryConverges.dfy` | shards, the index built in place from listings, and when it is complete |
| `WorkerRecord.dfy`, `ManagerModel.dfy` | worker objects, and the manager's state and atomic moves as functions |
| `Conservation.dfy`, `ManagerRuns.dfy` | the invariant that every move keeps, and what it says about runs |
| `Rebalancing.dfy`, `PingPong.dfy`, `GracePeriod.dfy`, `Expiry.dfy`, `AssignmentIds.dfy`, `PoolOrder.dfy` | what follows for stealing, hand-over times, timeouts, ids and the order of the pool |
| `Frontier.dfy`, `Worklist.dfy`, `LineageGrowth.dfy` | the live set and the close worklist over the lineage, fixed or growing |
| `GuardsNeeded.dfy`, `OverwrittenCloses.dfy` | that the hypotheses G1, G2 and G3 are exact |
| `Witnesses.dfy`, `LateReads.dfy`, `StuckStealing.dfy` | runs from the start that break a hypothesis, and what becomes of them |
| `OfferRecords.dfy`, `AssignCalls.dfy`, `ManagerService.dfy` | the manager service as a class whose handlers are proved to perform the moves |
| `AssignResults.dfy`, `HandlerCalls.dfy`, `OffersHonoured.dfy` | what one whole assign call amounts to, that calls compose, and when a stolen shard arrives |
| `MarkHistory.dfy`, `Responses.dfy` | where the checkpoint that a worker is told comes from, in one manager and across takeovers |
| `Fencing.dfy` | ids as texts, the three-try commit, any interleaving of any number of managers |
| `ShardProcessors.dfy`, `ReadingOn.dfy` | the shard processor in place, and which answers let it read on |
| `Delivery.dfy`, `ProcessorMoves.dfy` | the end-to-end argument, and its link to the processor's code |
| `Leadership.dfy`, `StoredOrder.dfy` | change of leader: who may still commit, and in what order the store records closes |
| `Handover.dfy`, `WorkerService.dfy` | processors over any sequence of responses, and the reconcile loop in place |

The manager appears twice. `ManagerModel` gives its state as a value and its atomic moves as functions (expire a
worker, settle one close notification, register, acquire one loan, take from the pool, steal, checkpoint, take over,
retire). `ManagerService.Manager` has the service's own fields and loops; its predicate `Shows(t)` says that the fields
hold the state `t`, and every method is proved to lead from one shown state to the one its moves lead to.
`HandlerCalls.CallsCompose` puts the calls together: in every run of calls under G1 to G4 each call finds the manager
as its handler needs it, and the state is that of an orderly run of moves, so that what is proved of every such run of
moves holds of every run of handlers. Workers are objects: one that times out and returns is a new object, while offers
and close notifications still refer to the old one.

## Hypotheses

Some intended properties hold only of runs that avoid what the code does not defend against. They are carried as
named predicates.

- G1 (`Conservation.ClosedOnce`): an assignment is closed once, and not while it has a reassignment request.
  `GuardsNeeded.CloseOnceExact` and `GuardsNeeded.CloseExact` show that each half is exact, whatever else is on the
  worklist; `Witnesses.ClosedTwice` and `Witnesses.LentShardClosed` that a fresh manager gets there.
- G2 (`Conservation.ClosesSettled`, per request `AssignCalls.ClosesRecent`): a worker with an unsettled close does not
  time out before the next assign. `GuardsNeeded.ExpireExact` shows that it is exact, `Witnesses.CloserTimesOut` that a
  fresh manager gets there, and `StuckStealing.NeverEnds` that the stealing loop can then find nothing to steal where it
  looks, and go round for ever.
- G3 (`Frontier.ClosedKept`; in the store `StoredOrder.StoreKeeps`): a CLOSED checkpoint is not overwritten by another
  value. `OverwrittenCloses.OverwriteExact` shows that it is exact while the close is unsettled,
  `Witnesses.CloseOverwritten` that a fresh manager gets there.
- G4 (`Lineage.Index.Complete`, `Lineage.Index.Acyclic`): lineage is acyclic, a non-root's named parents are known, a
  child with a second parent names a first one, and the child index is complete (`DiscoveryConverges` says when it is).
- G5 (hypothesis of `AssignmentIds.NewLeaderAbove`, in the world `Leadership.Outnumbered`): a new leader's first id
  exceeds every id issued elsewhere. `Witnesses.IdsCollide` is a run from an empty store in which all else holds and the
  old leader's request commits after the new one's.
- G6 (`Delivery.NothingSkipped`, `ShardProcessors.Skipless`): a subscription at LATEST to a shard that has been
  subscribed to before skips nothing. `Delivery.GapReachesStore` and `Delivery.EmptySubscriptionSkips` show why it is
  needed, `Witnesses.RecordSkipped` does so from an empty store.
- `Frontier.StoredInOrder`: what a new leader reads records no shard CLOSED before its parents.
  `StoredOrder.TakeoverInOrder` derives it, from G3 in the store, of every takeover during whose reads nothing is closed;
  `LateReads.ReadTooLate` shows that without that the live set need not be the frontier.

## Model

| member | source | states |
|---|---|---|
| PriorityQueues.Heap.Swap | src/primitives/priority_queue.go:28-32 | two items change places and both know their new position; everything else stays |
| PriorityQueues.Heap.Up | src/primitives/priority_queue.go:66-79 | sifting up restores heap order when only the link to the parent may fail |
| PriorityQueues.Heap.Down | src/primitives/priority_queue.go:81-85 | sifting down restores heap order below, and says whether anything moved |
| PriorityQueues.Heap.Fix | src/primitives/priority_queue.go:75-78 | after one item's priority changed, heap order is restored with the same items |
| PriorityQueues.Heap.RemoveAt | src/primitives/priority_queue.go:96-104 | the item at a position leaves, the others stay a heap, each at its recorded index |
| PriorityQueues.PriorityQueue.constructor | src/primitives/priority_queue.go:56-64 | an empty queue in the given direction |
| PriorityQueues.PriorityQueue.Push | src/primitives/priority_queue.go:66-79 | the queue, seen as a map, gets the value at the priority, whether it was there or not |
| PriorityQueues.PriorityQueue.Pop | src/primitives/priority_queue.go:81-85 | the value that Peek would have shown leaves the map, and is an extreme one in the queue's direction |
| PriorityQueues.PriorityQueue.Peek | src/primitives/priority_queue.go:87-94 | nothing exactly when the map is empty, else the value Pop would remove |
| PriorityQueues.PriorityQueue.Remove | src/primitives/priority_queue.go:96-104 | any value leaves the map; reports whether it was there |
| PriorityQueues.RootLeast | src/primitives/priority_queue.go:20-26 | the root of a heap is at least as early as every item |
| PriorityQueues.DrainSorted | src/primitives/priority_queue.go:81-85 | values popped until a queue is empty are all its values, each once, in priority order |
| PriorityQueues.PriorityQueue.Drain | src/primitives/priority_queue.go:81-94 | popping until Peek finds nothing delivers such a sequence of the queue's contents, and leaves it empty |
| Discovery.ShardDiscoveryService.DiscoverOnce | src/consumer/shard_discovery_service.go:80-116 | one pass over a listing in any order leaves the index that recording its entries one by one gives; a failed listing changes nothing |
| Discovery.ShardDiscoveryService.GetAll | src/consumer/shard_discovery_service.go:143-154 | every known shard's record, once |
| Discovery.ShardDiscoveryService.GetRoots | src/consumer/shard_discovery_service.go:156-167 | exactly the known shards without a first parent, or whose first parent is not known |
| Discovery.ShardDiscoveryService.GetChildren | src/consumer/shard_discovery_service.go:169-180 | the records of exactly the children in the index, once each |
| DiscoveryConverges.OnePass | src/consumer/shard_discovery_service.go:90-113 | after one pass p lists c as a child exactly if it did before or c's record named p when p was already known |
| DiscoveryConverges.TwoPasses | src/consumer/shard_discovery_service.go:90-113 | after two passes over one listing, the exact set of links, whatever the order |
| DiscoveryConverges.TwoPassesExact | src/consumer/shard_discovery_service.go:90-113 | after two passes over one listing the child index is exact precisely if no known but unlisted child lacks a link |
| DiscoveryConverges.FirstTwoPasses | src/consumer/shard_discovery_service.go:90-113 | starting from nothing, two passes make the child index exact: the children of each shard are those naming it as either parent |
| DiscoveryConverges.FirstPassExact | src/consumer/shard_discovery_service.go:90-113 | one pass from nothing suffices exactly if every listed parent comes before its children |
| DiscoveryConverges.LastRecordStays | src/consumer/shard_discovery_service.go:90-99 | whatever is listed, a pass leaves the last record listed for each shard, and the records of the others as they were |
| DiscoveryConverges.Reachable | src/consumer/shard_discovery_service.go:156-180 | on an acyclic lineage every known shard is reached from a root through children |
| ManagerRuns.ConservedAlways | src/consumer/manager_service.go:189-392 | after every move of every orderly run each live shard is in exactly one of the pool, one registered worker's unrequested assignments, one registered worker's offer; no two registered workers hold a shard; requested assignments and loans match one to one |
| Conservation.MoveSound | src/consumer/manager_service.go:189-392 | each move keeps the conservation invariant and moves each shard to the one place that Moved names; a takeover establishes it |
| Expiry.InSyncAlways | src/consumer/manager_service.go:238-248 | in every run, without any hypothesis, the heartbeat queue holds exactly the registered ids at their heartbeats: the out-of-sync panic cannot happen |
| Expiry.ExpiryExact | src/consumer/manager_service.go:238-279 | when the release loop ends, the workers gone are exactly those silent for at least the timeout, and the others are the same objects |
| Expiry.StaysDropped | src/consumer/manager_service.go:273-277 | a worker object that has been dropped is not registered in any later state of any run |
| Rebalancing.LiveCount | src/consumer/manager_service.go:361-362 | live shards = pool + active counts of all workers + sizes of all offers |
| Rebalancing.ExactSteal | src/consumer/manager_service.go:359-392 | one rebalance offers exactly min(max(ideal - active, 0), what the others hold above ideal); no donor falls below ideal, the requester is not offered above it |
| Rebalancing.RebalanceFixedPoint | src/consumer/manager_service.go:216-219 | with an empty pool and no offers outstanding, rebalance offers nothing exactly if the requester holds at least floor(live / workers) |
| AssignCalls.TurnSteals | src/consumer/manager_service.go:371-387 | when the busiest worker exceeds the ideal and the requester wants more, a turn of the stealing loop steals if and only if that worker has an assignment without a request; under conservation it always has |
| StuckStealing.NeverEnds | src/consumer/manager_service.go:371-387 | a run of a fresh manager, in which a worker times out before its close is settled, to such a turn with no assignment left to mark: there the loop does not end |
| PingPong.StealsBounded | src/consumer/manager_service.go:335-392 | while workers and live shards are fixed and the pool is empty, every steal lowers the sum of squares by at least 2 and acquiring leaves it, so all steals together are at most half its first value |
| GracePeriod.GracePeriodHolds | src/consumer/manager_service.go:320-391 | from a conserving state dated no later than now, a stolen shard stays with a donor that stays registered for at least the release timeout, whatever happens to the offer |
| GracePeriod.GracePeriodAlways | src/consumer/manager_service.go:320-391 | the same at any point of any orderly run of a fresh manager with nondecreasing request times |
| OffersHonoured.StillPasses | src/consumer/manager_service.go:498-511 | for the whole release timeout a donor that stays registered passes the ownership check for the stolen shard under its old id |
| OffersHonoured.AnswerOffer | src/consumer/manager_service.go:335-349 | a call of a worker with an offer made at c, heard from in time: if at - c is at least the release timeout, every loan is held under a new id and the offer is gone; otherwise the offer stays, none of its shards is held, and all that the worker held when it was served it still holds |
| OffersHonoured.StolenArrives | src/consumer/manager_service.go:320-391 | over runs of calls: a shard put on offer to a worker in one call is held by it, under a new id, after its first served call at or after the release timeout, whoever has asked for what in between |
| PoolOrder.FirstInFirstOut | src/consumer/manager_service.go:351-357 | over any run without a takeover, the shards taken from the pool followed by those left are those that were there followed by those that came |
| PoolOrder.NoneOvertakes | src/consumer/manager_service.go:351-357 | of two shards in the pool the one behind is never taken first |
| AssignmentIds.RunIds | src/consumer/manager_service.go:394-398 | along a run every assignment keeps its id or carries one issued since, across terms taken in increasing order |
| AssignmentIds.IssuedIncreasing | src/consumer/manager_service.go:394-398 | the ids one process hands out strictly increase |
| AssignmentIds.EarlierOwnersRefused | src/consumer/manager_service.go:477-511 | every later owner of a shard has a larger id, and then nobody passes either ownership check under the earlier one |
| AssignmentIds.NeverAgain | src/consumer/manager_service.go:477-511 | an issued id that does not pass the ownership checks of its shard passes them in no later state |
| AssignmentIds.NewLeaderAbove | src/consumer/manager_service.go:579-580 | under G5 whoever passes the ownership checks of a new leader does so under an id above all those issued elsewhere |
| Leadership.OldLeaderShutOut | src/consumer/manager_service.go:394-468 | in every interleaving, whatever happened before a takeover and whatever follows it: under G5, once a request let through by the new leader has committed for a shard, none let through by an older leader, or by itself in an earlier term, commits for it |
| Witnesses.IdsCollide | src/consumer/manager_service.go:394-468 | from an empty store, with rising terms: the new leader's first id is one that the old leader has issued, and the old leader's request commits after the new one's |
| Frontier.FrontierExact | src/consumer/manager_service.go:281-318 | from a takeover on, whenever the worklist has been drained, the live set equals the non-CLOSED shards that are roots or have all named parents CLOSED |
| Frontier.LineageOrder | src/consumer/manager_service.go:302-314 | at every moment a live shard that is not a root has all its named parents CLOSED, in whatever order a merge's parents close |
| Frontier.ShutStays | src/consumer/manager_service.go:483-488 | along any run without a takeover, under G3, what was CLOSED is still CLOSED |
| StoredOrder.StoreInOrder | src/consumer/manager_service.go:441-488 | in every interleaving of managers, takeovers and commits, under G3 in the store: a shard stored CLOSED is a root or all its named parents are stored CLOSED, and no manager records CLOSED what the store does not |
| StoredOrder.TakeoverInOrder | src/consumer/manager_service.go:530-566 | whatever happened before, if nothing is stored CLOSED while a manager reads the checkpoints, it takes over no shard CLOSED before its parents, and forgets nothing CLOSED |
| StoredOrder.ShutStaysThrough | src/consumer/manager_service.go:483-583 | a known shard that a manager has recorded CLOSED stays CLOSED in it through all its terms, under G3 and if its reads are still right when it takes over |
| LateReads.ReadTooLate | src/consumer/manager_service.go:534-566 | from an empty store: a parent's checkpoint is read before, its child's after both are closed under the old leader; the store is in order, but the new leader's live set is not the frontier |
| Frontier.HandedOutOpen | src/consumer/manager_service.go:281-318 | whenever the worklist has been drained, no worker holds a shard whose checkpoint is empty or CLOSED |
| ManagerService.ResponseStartable | src/consumer/manager_service.go:221-225 | whatever happened since a takeover, no assignment in a response has an empty or CLOSED checkpoint: the processors' fatal checks never fire |
| ManagerService.ResponseExact | src/consumer/manager_service.go:221-225 | a response lists exactly the shards, lent or not, with exactly the ids, under which its worker then passes the ownership check, each with the checkpoint recorded for it |
| Responses.GrantsTold | src/consumer/manager_service.go:221-225 | the grants that a worker can be handed in the world are the entries of the response to it, and no others |
| Responses.ToldAsRecorded | src/consumer/manager_service.go:477-484 | over runs of calls: a checkpoint recorded for its owner is what every worker is told that is given the shard, until another one is recorded or a takeover |
| Responses.ToldAsStored | src/consumer/manager_service.go:530-570 | over runs of calls: after a takeover every worker is told what was stored for its shard, or LATEST if nothing was, until a checkpoint is recorded |
| MarkHistory.LastRecorded | src/consumer/manager_service.go:477-484 | in any run without a takeover a shard's checkpoint is the last one recorded for it |
| MarkHistory.TakenMarks | src/consumer/manager_service.go:534-551 | after a takeover every known shard has its stored checkpoint, or LATEST if there is none, and no other shard has one |
| MarkHistory.ReadsLead | src/consumer/manager_service.go:534-583 | whatever a manager has read of all known shards admits a takeover |
| MarkHistory.LeadsAsRead | src/consumer/manager_service.go:534-570 | after any takeover the manager's checkpoints are those that it has read |
| MarkHistory.NewLeaderHandsOn | src/consumer/manager_service.go:534-570 | in every interleaving: what is stored for a shard when a manager begins to read, and not overwritten before it takes over, is what the new leader hands out until a checkpoint of the shard is recorded in it |
| MarkHistory.RecordedHandsOn | src/consumer/manager_service.go:470-484 | in every interleaving: the checkpoint of an accepted request whose worker still owns the shard is what whoever is handed the shard next is told |
| LineageGrowth.GrowingFrontier | src/consumer/manager_service.go:295-301 | the frontier result for runs during which the lineage grows, any number of times, between requests |
| LineageGrowth.DiscoveryGrows | src/consumer/shard_discovery_service.go:90-113 | two discovery passes over a listing that only adds children to childless shards are such a growth, and keep the index complete |
| Worklist.SettleFalls | src/consumer/manager_service.go:281-318 | every turn lowers the summed weight of the pending notifications, although it may append some |
| GuardsNeeded.CloseExact | src/consumer/manager_service.go:286-294 | from any conserving state, whatever else waits to be settled: a CLOSED checkpoint is recorded, the first of its shard that waits, and all closes are settled; each live shard is in one place if and only if the assignment had no reassignment request |
| GuardsNeeded.CloseOnceExact | src/consumer/manager_service.go:286-294 | from any conserving state: a CLOSED checkpoint of an unrequested assignment is recorded and all closes are settled; its worker is counted right if and only if no close of that assignment was waiting already |
| GuardsNeeded.ExpireExact | src/consumer/manager_service.go:253-294 | from any conserving state: a worker expires and all closes are settled; each live shard is in one place if and only if none of the closes waiting was that worker's |
| Witnesses.LentShardClosed | src/consumer/manager_service.go:286-294 | a run of a fresh manager: a shard on loan is closed by its donor, and conservation fails |
| Witnesses.ClosedTwice | src/consumer/manager_service.go:286-294 | a run of a fresh manager: one assignment is closed twice, and its worker's active count is wrong |
| Witnesses.CloserTimesOut | src/consumer/manager_service.go:253-294 | a run of a fresh manager: a worker times out before its close is settled, and conservation fails |
| OverwrittenCloses.OverwriteExact | src/consumer/manager_service.go:286-314 | while a close waits to be settled, a further checkpoint of its shard is recorded and the worklist is drained: the live set is the frontier if and only if that checkpoint was CLOSED too |
| Witnesses.CloseOverwritten | src/consumer/manager_service.go:477-488 | a run of a fresh manager: a delayed checkpoint overwrites CLOSED, and the worklist is drained with the shard neither live nor CLOSED |
| ManagerService.Manager.constructor | src/consumer/manager_service.go:113-128 | a manager out of service that knows no worker |
| ManagerService.Manager.GetNextAssignmentId | src/consumer/manager_service.go:394-398 | the term plus an offset that grows by one |
| ManagerService.Manager.ReleaseWorker | src/consumer/manager_service.go:250-277 | one turn of the release loop: the oldest worker's unrequested shards and those offered to it return to the pool unless released before, each once, its donors forget them, and it leaves all structures |
| ManagerService.Manager.ReleaseInactiveWorkers | src/consumer/manager_service.go:238-279 | the loop is a run of expiries, ends only when the oldest heartbeat is recent enough, and keeps conservation |
| ManagerService.Manager.VisitChild | src/consumer/manager_service.go:302-315 | a child whose parents are CLOSED goes live and into the pool, or passes the notification on |
| ManagerService.Manager.SettleNext | src/consumer/manager_service.go:283-316 | one turn of the worklist: the head leaves its worker and the live set once, its children are visited, a childless one comes back |
| ManagerService.Manager.ProcessClosedShards | src/consumer/manager_service.go:281-318 | the loop ends on every acyclic lineage, is a run of settlings, and keeps only notifications of childless shards |
| ManagerService.Manager.ResolveActiveWorker | src/consumer/manager_service.go:320-333 | the requester is the registered object or a new one, with this heartbeat in record and queue |
| ManagerService.Manager.AcquireDueReassignments | src/consumer/manager_service.go:335-349 | an offer changes hands in full and is gone exactly if the release timeout has passed since it was made; otherwise it is left alone; returns the number acquired |
| ManagerService.Manager.AssignFromUnassignedPool | src/consumer/manager_service.go:351-357 | exactly count shards come off the front of the pool |
| ManagerService.Manager.Rebalance | src/consumer/manager_service.go:359-392 | the stealing loop ends, only steals for the requester from the busiest worker, and stops only for want of need or of a donor above ideal |
| ManagerService.Manager.HandleAssignRequest | src/consumer/manager_service.go:189-235 | the request is refused unchanged exactly out of service; else release, worklist, registration, claims, takes and steals happen in this order as Answers says, conservation is kept, the response lists exactly the shards and ids under which the requester now passes the ownership check, with their recorded checkpoints, and the notifications left are as the next call needs them |
| ManagerService.Manager.EnsureCheckpointOwnership | src/consumer/manager_service.go:498-511 | lets a request pass exactly if in service and the registered worker of that name holds the shard under that id |
| ManagerService.Manager.FinishCheckpoint | src/consumer/manager_service.go:470-496 | exactly if ownership still holds, the shard gets the checkpoint sent, no other changes, and a close is noted; the answer says whether the shard was lost or is on loan |
| ManagerService.Manager.SetToInService | src/consumer/manager_service.go:530-583 | takes over with each known shard at its stored checkpoint, or LATEST if there is none, roots split by CLOSED, fresh queues and the new term, or changes nothing if canceled |
| ManagerService.Manager.SetToOutOfService | src/consumer/manager_service.go:585-589 | only the service flag falls |
| AssignResults.AnswerRuns | src/consumer/manager_service.go:189-235 | every assign call is an orderly run of moves made at the time of the call, so all run properties apply to it |
| AssignResults.AnswerReady | src/consumer/manager_service.go:189-235 | after an assign call nothing is set aside, and every pending notification is again about a known shard and a recorded worker, as the next call needs it |
| HandlerCalls.CallsCompose | src/consumer/manager_service.go:189-235 | before every call of every run of assign calls, recorded checkpoints, takeovers and retirements under G1 to G4, what the handlers ask for holds, and the state is that of an orderly run of moves |
| AssignResults.AnswerKeeps | src/consumer/manager_service.go:199-201 | after a call exactly the workers whose last call was less than the inactivity timeout ago are registered, as the objects they were, and the requester |
| AssignResults.AnswerFrontier | src/consumer/manager_service.go:200-235 | after a takeover and whatever happened since, every call leaves as live exactly the frontier of the lineage |
| AssignResults.ClaimedInFull | src/consumer/manager_service.go:335-349 | as many acquisitions as loans if the release timeout has passed since the offer was made, none otherwise |
| AssignResults.TakesInOrder | src/consumer/manager_service.go:351-357 | shards come off the pool in order, each under the next id; other assignments stay |
| AssignResults.ServeNumbers | src/consumer/manager_service.go:207-219 | how many shards a call claims, takes and steals: all due loans, then min(room, pool), and only if both are none and no offer is outstanding the exact steal amount |
| Fencing.TextOrder | src/consumer/manager_service.go:442-445 | on non-negative 64-bit ids the byte order of 20-digit padded texts is the order of the numbers, and texts are equal only for equal numbers |
| Fencing.TextReads | src/consumer/manager_service.go:442 | an id is written in twenty decimal digits, from which it can be read back |
| Fencing.FencedAlways | src/consumer/manager_service.go:441-468 | in every interleaving, with answers lost or not, commits of a shard never go back to a smaller id, the store holds the last commit, a request commits at most once and never if rejected, and a rejected one faced an id at least its own |
| Fencing.StoredNeverFalls | src/consumer/manager_service.go:441-468 | the id stored for a shard never decreases |
| Fencing.StaleRefused | src/consumer/manager_service.go:441-468 | once an id has committed, no request under a smaller one is accepted, whatever happened in between |
| Fencing.RejectionExact | src/consumer/manager_service.go:453-468 | in every interleaving a rejected request found a larger id at its last try if and only if it did not lose a race: no other request of the same assignment committed after its first try with no larger id committing before its last |
| Fencing.RejectedSuperseded | src/consumer/manager_service.go:453-468 | if no two requests of one assignment are ever in flight at once, every rejected request found a larger id |
| Fencing.TwinWins | src/consumer/manager_service.go:453-468 | from any state where a request is past its first try and another of the same assignment is about to commit, the first ends up rejected with its own id stored |
| Fencing.RaceToCreate | src/consumer/manager_service.go:453-468 | such a state, in which the other creates the key, is reached from an empty store |
| Fencing.RaceToRaise | src/consumer/manager_service.go:453-468 | and so is one in which the other raises a key that holds a smaller id |
| Fencing.KeyValueStore.Txn | src/consumer/manager_service.go:454-464 | the id and the checkpoint are put together if the condition holds, else nothing changes |
| Fencing.CommitCheckpoint | src/consumer/manager_service.go:453-468 | with others committing before each try, and answers lost or not: acceptance leaves the request's own entry over no larger id, rejection means an id at least its own is there, an error ends it, no id falls, and undisturbed it succeeds exactly if no larger id is stored |
| ShardProcessors.ShardProcessor.Checkpoint | src/consumer/shard_processor.go:177-239 | sent until answered, stopped, or ended by a fatal reply |
| ShardProcessors.ShardProcessor.HandleEvent | src/consumer/shard_processor.go:111-169 | one event: records first, then a checkpoint if the shard ended or the interval has passed; reading goes on exactly if the shard is open and either no checkpoint was due or its answer refuses nothing |
| ShardProcessors.ShardProcessor.HandleSubscription | src/consumer/shard_processor.go:105-175 | what one subscription does, whether to subscribe again and from which number |
| ShardProcessors.ShardProcessor.Start | src/consumer/shard_processor.go:44-103 | fatal exactly on an empty or CLOSED assignment, else all that the subscriptions make it do, in order |
| ShardProcessors.NumberedHonest | src/consumer/shard_processor.go:44-175 | assigned with a number, whatever it meets, every checkpoint it sends and every number it subscribes after has all records since the assigned number processed before |
| ShardProcessors.LatestHonest | src/consumer/shard_processor.go:69-72 | the same from the first start of a LATEST assignment, if no later subscription at LATEST skips a record |
| ShardProcessors.ResumeNumber | src/consumer/shard_processor.go:108-115 | a stream that closes leaves the number of the last record delivered, and none at all if it delivered no event |
| ShardProcessors.StopsForGood | src/consumer/shard_processor.go:162-166 | what a stream holds after the event that made the processor stop is never read |
| ReadingOn.NothingFollows | src/consumer/shard_processor.go:145-166 | once a due checkpoint is answered with ownership changed or not in service, ends fatally, or gets no answer, and once the shard has ended, no act follows, whatever the stream still holds and whatever might be subscribed to later |
| ReadingOn.NextBatch | src/consumer/shard_processor.go:128-169 | after a clean answer on an open shard, or a batch that led to no checkpoint, the records of the next batch are processed |
| ReadingOn.ReadsOn | src/consumer/shard_processor.go:64-175 | a stream in which nothing ends the reading starts after the number left, after the number assigned, or at the tip; all its records are processed, checkpoints are sent exactly where the interval has passed since the one before, each for the records up to there, and unless stopped the processor subscribes again from where it got to |
| ReadingOn.ReadsToEnd | src/consumer/shard_processor.go:64-169 | the same of a stream up to the batch that ends the reading, whose own checkpoint is the last, CLOSED exactly if the shard has ended |
| ReadingOn.TriesExact | src/consumer/shard_processor.go:177-196 | a checkpoint is sent once more than there are errors before its first answer |
| ShardProcessors.ClosedIsFinal | src/consumer/shard_processor.go:59-61 | after CLOSED is sent nothing is processed or subscribed to any more |
| ProcessorMoves.StartMoves | src/consumer/shard_processor.go:44-175 | whatever the processor meets, what it does is a run of the local moves of the delivery model |
| ProcessorMoves.StartInWorld | src/consumer/shard_processor.go:44-175 | and, if its acts tell of one log, part of a run of the world of managers, store and processors, in which all it processed is done, the checkpoints it sent have begun as requests if its worker owns the shard at the manager it talks to, and nothing else has changed |
| Delivery.AtLeastOnce | src/consumer/manager_service.go:448-484 | in every interleaving of managers, store, requests and processors that respects G6: each number stored, remembered, handed out or resumed from has all records since the shard's first start processed, and each CLOSED shard has ended and been processed to its end |
| Delivery.MovesAddLatest | src/consumer/manager_service.go:305-308 | but for checkpoints and takeovers no checkpoint of a manager changes, except that a missing or empty one may become LATEST |
| Delivery.GapReachesStore | src/consumer/shard_processor.go:69-72 | without G6: from any state where a processor subscribes at LATEST past an unprocessed record and may still commit, a run stores a number covering that record |
| Delivery.EmptySubscriptionSkips | src/consumer/shard_processor.go:108-115 | one subscription that ends before any event, and one new record, lead there |
| Witnesses.RecordSkipped | src/consumer/shard_processor.go:108-115 | from an empty store: a worker takes a shard, its first subscription delivers nothing, and the store ends up with a number that covers an unprocessed record |
| Handover.StoppedOnce | src/consumer/worker_service.go:185-204 | over any sequence of responses, stops, starts and a shutdown no processor is stopped twice |
| Handover.ExactlyAssigned | src/consumer/worker_service.go:147-204 | a response with assignments leaves exactly the assigned shards with a processor, queued or running and not asked to stop, replaced exactly when the id is larger, so ids never go down while held |
| Handover.OneRuns | src/consumer/worker_service.go:185-195 | of two processors in one chain of restarts at most one runs |
| Handover.HeldChain | src/consumer/worker_service.go:165-195 | while a shard is held its processors form one unbroken chain |
| Handover.HandedOver | src/consumer/worker_service.go:71-79 | while a shard is held, when its present processor has begun, the first one is the same or done |
| Handover.BrokenChain | src/consumer/worker_service.go:179-204 | a shard given up and given again gets a processor that waits for nobody: the two may run at once |
| Witnesses.BothRun | src/consumer/worker_service.go:179-204 | from a worker without processors: given a shard, then another one, then both, it runs two processors for the first |
| WorkerService.WorkerService.Evaluate | src/consumer/worker_service.go:148-168 | one new processor for each shard to start or restart, and for no other, with the id and the sequence number that the response gives |
| WorkerService.WorkerService.Reconcile | src/consumer/worker_service.go:147-205 | afterwards there is a processor for each shard of the response and for no other: the one there was, unless the response has a larger id, else a new one with that id and its sequence number; the order of all processors is kept |
| WorkerService.WorkerService.Shutdown | src/consumer/worker_service.go:71-79 | every current processor is asked to stop once, and nothing else changes |

## Left out

- HTTP handlers, JSON, logging, middleware and the State, Status and Health endpoints: plumbing without state of its own.
- The embedded etcd server, leader election, sessions and TTLs: a change of leader is a takeover with a given term, and an old leader may stay in service beside the new one.
- ListShards paging and the AWS clients: a listing is any sequence of shards, a shard's log is counted, and a subscription delivers consecutive batches.
- Real time, goroutine scheduling and the mutex: handlers under the lock are atomic, times are whole milliseconds given by the caller, and any interleaving of the atomic steps is allowed.
- Floating-point priorities: the queue orders integers; the counts and millisecond times that the manager queues are exact in a float64.
- Overflow of ids, counts and maxShards: integers are unbounded, except that ids compared as texts are non-negative 64-bit.
- The worker's doubling of maxShards, its rotation of managers, and the sorting of responses: a response is a map from shard to assignment.
- Fields nobody reads: the creation time of a reassignment request and its back pointer, the shard and worker pointers of an assignment. An assignment is its id and whether it is requested; the pool and the live set hold shard ids.
- Errors of the store other than cancellation during a takeover, on which the source panics, and stored checkpoints that change the lineage between the two discovery calls of a takeover.
- ManagerService.Manager.HandleAssignRequest: in service it asks for the conservation invariant, G2 for the one request, and G4 for the notifications pending; outside them the source goes on with a broken invariant, as `GuardsNeeded` and `Witnesses` show, or may not end, as `StuckStealing.NeverEnds` shows. `HandlerCalls.CallsCompose` derives all of it before every call of a run under G1 to G4.
- ManagerService.Manager.ReleaseInactiveWorkers: asks for the conservation invariant and G2, as HandleAssignRequest does.
- Frontier.FrontierExact: the lineage index is fixed along the run; `LineageGrowth.GrowingFrontier` lets it grow between requests, when every notification of a childless shard has been put back.
- Delivery.AtLeastOnce: the first start of a shard is where it was first subscribed to at LATEST; records before that are not promised to anyone. A processor that the source has run into a fatal error is simply gone.
- ShardProcessors.ShardProcessor.Start: the stop signal is looked for between subscriptions, at the end of a stream's items and after a checkpoint's replies; where the source could pick it earlier from its select, the items after it are left out of the script.
- WorkerService.WorkerService.Evaluate: asks for a response that lists no shard twice; the manager makes it from a map, with one entry a shard.
- WorkerService.WorkerService.Reconcile: asks for the same. A goroutine is recorded as launched; when it runs is up to the events of `Handover`.
