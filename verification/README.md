# stark8s: a verified model of the dataflow runtime

stark8s runs a graph of operations connected by channels. A single coordinator, one object under one lock, indexes the segments that workers announce, hands them to consumers, returns them when a process goes away, drives the supersteps of Synchronous loops and finds out when Asynchronous loops are finished. Workers buffer, combine and ship records, and may checkpoint their state so that each input takes effect exactly once. This project models that logic and proves what it promises.

## How the project is organised

| file | contents |
|---|---|
| `Topology.dfy`, `Sums.dfy` | vocabulary of the graph; sums over finite maps |
| `Graph.dfy` | the depth-first cycle check, the members of a loop, the component of a loop |
| `Channels.dfy`, `Deliveries.dfy` | one channel: where a segment is, who leases it, its counters; every change keeps the invariant |
| `ChannelOps.dfy` | the loops over one channel: counting, delivering, returning, losing, promoting, indexing |
| `Operations.dfy` | pods, cohort slots, retired processes, sticky and balanced hash ownership |
| `Persistence.dfy` | snapshot and restore |
| `States.dfy`, `Termination.dfy` | the invariant over all channels and operations, epoch skew, dead loops |
| `Expiry.dfy`, `Registry.dfy`, `Settlement.dfy`, `Supersteps.dfy`, `Consuming.dfy`, `Requests.dfy` | one request each, on the state as a whole |
| `Deletion.dfy` | when an id may be deleted: clashes between segment ids |
| `Coordinator.dfy` | the class `Coordinator`: its public methods are the requests, each keeps `Valid()` |
| `Guarantees.dfy` | what follows for whole runs |
| `Limits.dfy` | states in which a promise fails without its condition |
| `Grouping.dfy` | records from outside grouped into segments |
| `RetainedLog.dfy` | retained channels with named cursors |
| `Checkpoints.dfy` | fenced writers of one checkpoint object |
| `ExactlyOnce.dfy` | the checkpointing worker among crashes and zombies |
| `Combining.dfy`, `Producer.dfy` | combining, buffering and shipping records |
| `Blobs.dfy` | lifetimes of large payloads |

The coordinator's state consists of records held in maps. Its invariant `States.StateOk` has one part per concern, and a ghost history remembers the last epoch each operation finished, the most pods it ever had alive, every delivery of a hash partition with the end of every process, and for each Broadcast segment the slots whose own process acknowledged it. A property of a run is a property of the invariant, or a lemma over a sequence of states whose neighbours are related by what each public method ensures (`Termination.Step`, `Registry.RetiredGrows`).

Requests that fail at the store are part of the model: a write may not happen, or happen and lose its answer. Time is a number that only grows. Identifiers are abstract, and the append ids the coordinator numbers its own segments with are new.

## What was found

Each of these is a promise that does not hold without a condition. The exact condition is proved, and each item names a state or request in which condition and promise fail.

* **An Asynchronous loop may be sealed while it holds work.** `settle` asks whether channels between members are quiet, and `quiet` does not count what is held for a later epoch (`pkg/coordinator/coordinator.go:1174`, `pkg/coordinator/coordinator.go:1641-1656`). Beside a Synchronous loop the channels of an Asynchronous one run on finite epochs and may hold segments. The sealed loop is dead exactly when the channels between members hold no record and no other feedback channel between them has work (`Termination.FinishedLoopIsDeadExactly`). Without Synchronous loops in its component this is always so (`Termination.PlainLoopOverlooksNothing`); beside one, `Limits.SealedLoopWakes`.
* **A dead loop may be brought back to life.** The coordinator does not ask whether the sender of a publish request holds work (`pkg/coordinator/coordinator.go:841-869`). Over all requests it accepts, a dead loop stays dead exactly when every channel into a member is sealed (`Termination.DeadStaysOpenlyExactly`). Workers that produce only from a delivery in hand leave it dead exactly when no operation outside may publish on one of its open channels (`Termination.DeadStaysExactly`): `mayProduce` also admits an operation whose own loop overflows into the channel (`pkg/coordinator/coordinator.go:804-814`), and nothing stops that channel from lying on another loop (`pkg/controller/reconciler.go:456-463`). The worker's `Run` keeps this discipline in its record handlers but not in `Tick`, `OnDrain` and `OnEpochEnd` (`pkg/sdk/sdk.go:1330-1372`). Failing states: `Limits.IdleMemberWakes`, `Limits.OverflowWakes`.
* **A seal at the loop bound may drop held segments.** The next announcement can be held and then dropped exactly when the consumer has not reached the last epoch (`States.BoundDropsExactly`); around unsealed edges it has (`States.BoundDropsNothing`). Behind a sealed edge it may lag: `Limits.SealedEdgeDropsHeld`.
* **An acknowledgement may count for another pod.** `AckSession` takes the cohort slot from the operation named in the request and does not compare that operation with the channel's consumer (`pkg/coordinator/coordinator.go:1304-1357`), and the sweep only counts acknowledgements (`pkg/coordinator/coordinator.go:1457-1484`). The acknowledgements are those of the processes in their own slots exactly when each request names no delivery of its process or counts for the slot the process has in the consumer (`Requests.HonestExactly`), as every request that names the consumer does (`Requests.ConsumerMayAck`). A process active in two operations need not, and then a segment is released that a live pod still has in flight: `Limits.ForeignSlotCounts`.
* **Tombstones name ids, not segments.** Two segments with one id and different holders, or on different channels, are both indexed (`pkg/coordinator/coordinator.go:905-909`). The tombstones never name a segment that waits, whatever happens before the next announcement, exactly when no waiting segment shares its id with a tombstone or with another indexed Ephemeral segment (`Deletion.NoClashExactly`). An accepted batch keeps it so exactly when its ids are free (`Deletion.OwnIdsExactly`, `Deletion.FreeIdExactly`). With a shared id: `Limits.SharedIdNamesLiveSegment`.
* **A segment without records passes the superstep barrier.** `quiet` counts records. With segments of no records included, the barrier survives an epoch exactly when nothing is queued (`ChannelOps.StrictBarrierExactly`, `ChannelOps.RecordlessSegmentPassesBarrier`). Barrier and termination results are therefore stated for segments that carry records; the worker never writes others (`pkg/sdk/sdk.go:764`), nor does grouping (`Grouping.Group`).
* **Publishing a batch again counts overflow again**, exactly that of the entries without an indexed segment: `ChannelOps.RepublishAddsOnlyOverflow`.
* **A retention request that goes back in a partition ends half way.** Positions are checked against what was retained before the request, so a later, smaller one makes a negative count (`pkg/coordinator/subscriptions.go:274-277`): `RetainedLog.RetainedChannel.DeleteBefore`.

## Model

| member | source | states |
|---|---|---|
| Graph.Validate | pkg/controller/reconciler.go:434-497 | accepts a graph exactly when its names are distinct, its references resolve, collective producers have an object store and its non-feedback edges are acyclic; reports an unmarked cycle exactly when only the last fails |
| Graph.Colouring.Visit | pkg/controller/reconciler.go:474-488 | the recursive colouring terminates, finds a cycle only if there is one, and otherwise leaves everything reached ranked below what reaches it |
| Graph.RankedIsAcyclic | pkg/controller/reconciler.go:471-496 | edges that descend in rank form no cycle |
| Graph.CycleMembers | pkg/coordinator/coordinator.go:1665-1691 | the saturation loop finds exactly the operations that the feedback consumer reaches and that reach its producer over non-feedback channels, and the two endpoints |
| Graph.FiniteOperations | pkg/coordinator/coordinator.go:411-431 | the saturation loop finds exactly the ends connected, in either direction, to a Synchronous feedback channel |
| Deliveries.Conservation | pkg/coordinator/coordinator.go:905-933 | records produced are pending, held, in flight, acknowledged, lost or dropped, and the counts add up; nothing is dropped unless the channel is a Synchronous loop that was sealed |
| Deliveries.InOnePlace | pkg/coordinator/coordinator.go:693-745 | on a partitioned channel a live segment is in exactly one of its queue, the held list and the in-flight set, once; a released one in none |
| Deliveries.IndexedKeeps | pkg/coordinator/coordinator.go:905-933 | indexing keeps placement, barrier and counters, adds exactly one segment and drops none |
| Deliveries.HandedKeeps | pkg/coordinator/coordinator.go:1259-1268 | taking the head of a queue leases it to one process, keeps the invariant and drops nothing |
| Deliveries.AckedKeeps | pkg/coordinator/coordinator.go:1331-1353 | an acknowledgement keeps the invariant and adds one acknowledger at most |
| Deliveries.ReturnedKeeps | pkg/coordinator/coordinator.go:716-742 | giving a delivery back keeps the invariant: the segment is at the head of its queue and nowhere else |
| Deliveries.NackedKeeps | pkg/coordinator/coordinator.go:1376-1397 | refusing a delivery keeps the invariant |
| Deliveries.MarkedLostKeeps | pkg/coordinator/coordinator.go:776-786 | losing a segment takes it out of every place and moves its records to the lost count |
| Deliveries.SealedKeeps | pkg/coordinator/coordinator.go:1067-1078 | a seal keeps the invariant and drops exactly the held segments of a Synchronous loop |
| ChannelOps.PendingRecords | pkg/coordinator/coordinator.go:1116-1143 | the loop over the queues counts the records of exactly the queued segments |
| ChannelOps.Quiet | pkg/coordinator/coordinator.go:1116-1174 | quiet means no unread record and nothing in flight, on partitioned and Broadcast channels |
| ChannelOps.QuietIsEmpty | pkg/coordinator/coordinator.go:1174 | a quiet partitioned channel that holds nothing has no live segment with a record |
| ChannelOps.DeliverPartition | pkg/coordinator/coordinator.go:1257-1269 | exactly a prefix of the queue goes to the process in order; it ends early only at a delayed retry |
| ChannelOps.DeliverLog | pkg/coordinator/coordinator.go:1238-1252 | exactly the entries between the old and the new cursor that are neither released nor acknowledged for the slot are leased, in log order; it ends early only at a delayed retry |
| ChannelOps.AckAll | pkg/coordinator/coordinator.go:1327-1354 | exactly the named deliveries the process holds are acknowledged, and on a partitioned channel released; the records of those it had not acknowledged before are counted, released bytes leave the coordinator unless the channel retains them, and no cursor moves |
| ChannelOps.NackAll | pkg/coordinator/coordinator.go:1374-1397 | exactly the named deliveries of the process go back, ahead of what was queued; the first receipt for one says how long the process is not to get it again; a Broadcast reader that gave something back starts over, and no other cursor moves |
| ChannelOps.ReturnDeliveries | pkg/coordinator/coordinator.go:711-743 | exactly the deliveries of the process go back, ahead of what was queued; its cursor is forgotten |
| ChannelOps.MarkLost | pkg/coordinator/coordinator.go:776-796 | the imperative removal equals losing the segment everywhere |
| ChannelOps.ExpireHolder | pkg/coordinator/coordinator.go:765-774 | exactly the unreleased, undurable segments of the gone pod are lost |
| ChannelOps.ReleaseBroadcast | pkg/coordinator/coordinator.go:1422-1444 | exactly the indexed segments with enough acknowledgements are released; queues, log and cursors stay |
| ChannelOps.SealUp | pkg/coordinator/coordinator.go:1067-1078 | the loop over the held segments equals the abstract seal |
| ChannelOps.AdvanceEpoch | pkg/coordinator/coordinator.go:1601-1615 | on a quiet channel the epoch advances by one, exactly the held segments of the new epoch become deliverable, behind what was there and in the order they were held, and the barrier holds again |
| ChannelOps.AdvanceDropsNothing | pkg/coordinator/coordinator.go:1601-1615 | advancing drops no segment |
| ChannelOps.StrictBarrierExactly | pkg/coordinator/coordinator.go:1601-1615 | counting segments without records too, the barrier survives an epoch exactly when nothing was queued |
| ChannelOps.RecordlessSegmentPassesBarrier | pkg/coordinator/coordinator.go:1174 | one announcement without records is enough to break it |
| ChannelOps.LaterThanSound | pkg/coordinator/coordinator.go:1606-1614 | exactly what is not of the new epoch stays held |
| ChannelOps.IndexAll | pkg/coordinator/coordinator.go:873-899 | exactly the new segments of an accepted batch enter, behind everything queued, logged or held before and in the order they were announced; beyond the loop bound they are dropped, before their epoch they are held; every overflow count is added once |
| ChannelOps.FoldedBehind | pkg/coordinator/coordinator.go:873-933 | so the specification of the loop says where each segment of a batch goes |
| ChannelOps.RepublishAddsOnlyOverflow | pkg/coordinator/coordinator.go:841-899 | publishing a batch twice differs from publishing it once only in the overflow count, by the counts of the entries that no indexed segment stands for |
| Operations.TouchedKeeps | pkg/coordinator/coordinator.go:543-565 | live and free cohort slots stay disjoint, the free ones ascending, and together exactly 0 to the next slot |
| Operations.LeftKeeps | pkg/coordinator/coordinator.go:664-681 | so they do when a pod expires |
| Operations.ReplacedKeeps | pkg/coordinator/coordinator.go:518-533 | so they do when a process is replaced, and the active process is never a retired one |
| Operations.LiveIds | pkg/coordinator/coordinator.go:79-86 | the live pods in ascending order |
| Operations.BalanceHash | pkg/coordinator/coordinator.go:108-143 | the loops compute the balance the following lemmas are about |
| Operations.BalancedMeans | pkg/coordinator/coordinator.go:90-143 | every partition has one live owner, a pinned partition with a live owner does not move, other partition counts are untouched, and a pod given a free partition is within one of any other |
| Operations.BalanceIsFixedPoint | pkg/coordinator/coordinator.go:102-107 | balancing again changes nothing, so ownership does not flap |
| Operations.Assigned | pkg/coordinator/coordinator.go:1088-1111 | exactly the partitions owned by the pod, or its turn in the round robin, in ascending order |
| Operations.AssignedOnce | pkg/coordinator/coordinator.go:1080-1111 | with a live pod each partition is assigned to exactly one live pod |
| Persistence.SnapshotChannel | pkg/coordinator/persistence.go:149-181 | the stored form lists what the channel indexes |
| Persistence.RestoreChannel | pkg/coordinator/persistence.go:215-299 | the loops rebuild the indexes, and the in-flight set from the delivery sets |
| Persistence.RoundTripExactly | pkg/coordinator/persistence.go:138-302 | restoring a snapshot gives the same channel if and only if every list names indexed segments and in flight is what some process holds |
| Persistence.RoundTrip | pkg/coordinator/persistence.go:138-302 | restoring the snapshot of a valid coordinator gives the same channels and operations |
| Persistence.Tombstones | pkg/coordinator/persistence.go:119-136 | the tombstones are the ids handed out and those of every released segment still indexed |
| States.SharedEpoch | pkg/coordinator/coordinator.go:1555-1562 | all finite inbound channels of one operation share one epoch |
| States.SkewBounded | pkg/coordinator/coordinator.go:1547-1615 | along unsealed edges nobody downstream has finished more epochs |
| States.LoopSkewBounded | pkg/coordinator/coordinator.go:1547-1615 | around an unsealed Synchronous loop the two ends of the feedback edge are at most one epoch apart |
| States.EpochsAfterFinish | pkg/coordinator/coordinator.go:1579-1597 | finishing an epoch keeps the relations between the clocks on any graph |
| States.BoundDropsExactly | pkg/coordinator/coordinator.go:1583-1590 | at the loop bound the seal can drop a segment exactly when the consumer has not reached the last epoch |
| States.BoundDropsNothing | pkg/coordinator/coordinator.go:1583-1590 | when the loop bound seals a feedback channel whose loop runs over unsealed edges, it holds no segment |
| States.StickyGave | pkg/coordinator/coordinator.go:1270-1277 | delivering to the owner keeps hash partitions sticky over the run |
| States.StickyGone | pkg/coordinator/coordinator.go:693-699 | so does the end of a process |
| Termination.FinishedLoopIsDeadExactly | pkg/coordinator/coordinator.go:1634-1660 | a partitioned loop found finished has no record left and no open producer outside exactly when channels between members hold nothing and other feedback channels between them are idle |
| Termination.PlainLoopOverlooksNothing | pkg/coordinator/coordinator.go:1641-1656 | with one feedback channel and no finite epochs between members that is so |
| Termination.DeadStays | pkg/coordinator/coordinator.go:804-814 | no request of workers that publish before they acknowledge gives a dead loop of consuming members work, unless an operation outside may publish on it |
| Termination.DeadStaysExactly | pkg/coordinator/coordinator.go:804-814 | and if one may, some request does: for workers that hold work while they publish, a dead loop stays dead exactly when no operation outside may publish on it |
| Termination.DeadStaysOpenlyExactly | pkg/coordinator/coordinator.go:822-902 | over all accepted publish requests, of workers with or without work in hand, it stays dead exactly when every channel into a member is sealed |
| Termination.ClosedHasNoIntruder | pkg/coordinator/coordinator.go:804-814 | none may if no other loop overflows into this one |
| Termination.DeadForever | pkg/coordinator/coordinator.go:1626-1660 | so a dead loop of consuming members into which no other loop overflows stays dead along every run |
| Termination.EverySlotAcked | pkg/coordinator/coordinator.go:1457-1484 | with as many acknowledgements as slots ever opened, every slot acknowledged |
| Expiry.ReturnConsumerDeliveries | pkg/coordinator/coordinator.go:693-745 | afterwards no channel into the operation holds a lease of the pod, every other lease is still there, and nothing is lost, released or sealed |
| Expiry.ExpireAllExcept | pkg/coordinator/coordinator.go:664-681 | exactly the silent pods leave, exactly what only they held is lost, every other lease stays unless its segment is lost, and the state stays valid |
| Registry.RegisterPod | pkg/coordinator/coordinator.go:507-540 | silent pods are gone before; a retired or session-less process of a known pod is refused; otherwise the pod is alive in its own slot or the lowest free one, a new pod or process has finished no epoch, a replaced process is retired and keeps no lease and no partition, and nothing else about any operation changes |
| Registry.RegisteredKeeps | pkg/coordinator/coordinator.go:534-565 | a heartbeat or a new pod keeps the state valid |
| Settlement.LoopInputsDone | pkg/coordinator/coordinator.go:1641-1656 | the check over the channels holds exactly when every input of the loop is done and the feedback channel is quiet |
| Settlement.Settle | pkg/coordinator/coordinator.go:1634-1660 | exactly the Broadcast segments with as many acknowledgements as replicas and as live pods are released, every finished Asynchronous loop is sealed, and only finished ones are |
| Supersteps.CountDone | pkg/coordinator/coordinator.go:1570-1575 | counts exactly the pods heard from lately that finished the epoch; a pod that never reported has finished epoch zero |
| Supersteps.QuorumExactly | pkg/coordinator/coordinator.go:1566-1578 | the count reaches the published replicas and the live pods exactly when every pod of the operation was heard from lately and has finished the epoch, and no replica is missing |
| Supersteps.CheckInputs | pkg/coordinator/coordinator.go:1555-1562 | holds exactly when every finite input is at the epoch, closed for it and quiet |
| Supersteps.FinishEpoch | pkg/coordinator/coordinator.go:1579-1597 | outputs are closed for the epoch, one later on a Synchronous feedback edge, or sealed at its bound; then inputs at the epoch enter the next one; no other channel changes |
| Supersteps.RecordEpochDone | pkg/coordinator/coordinator.go:1547-1599 | the epoch is finished exactly when the report is news, the inputs are at the epoch, closed and quiet, and every pod has finished it; then exactly the operation's inputs and outputs move; a loop bound drops nothing on an unsealed loop |
| Consuming.DeliverPartitions | pkg/coordinator/coordinator.go:1257-1279 | each assigned partition gives the front of its queue, in ascending order; a response below the limit leaves nothing that could be handed out; exactly the hash partitions that gave work are pinned and recorded |
| Requests.CheckAll | pkg/coordinator/coordinator.go:840-869 | the first entry that cannot be accepted decides the answer for the whole batch: another channel, other metadata under a known append id, a sealed channel, an epoch behind, a partition out of range |
| Requests.AckDeliveries | pkg/coordinator/coordinator.go:1304-1354 | acknowledgements of an active process keep the state valid and are remembered for the slot it has in the consumer |
| Requests.HonestExactly | pkg/coordinator/coordinator.go:1304-1357 | the acknowledgements of a Broadcast channel stay those of the processes in their own slots exactly when the request counts for the slot its process has in the consumer or names no delivery of it |
| Requests.AckedSlots | pkg/coordinator/coordinator.go:1304-1357 | then nobody who still has a delivery counts as having acknowledged it |
| Requests.ConsumerMayAck | pkg/coordinator/coordinator.go:1304-1357 | a process of the consumer always may |
| Requests.StrangerMayAck | pkg/coordinator/coordinator.go:1328-1334 | so may one that is not active in the consumer, because it holds nothing |
| Requests.Prepare | pkg/coordinator/coordinator.go:1212-1227 | the consumer is heard from and stays active while exactly the silent pods expire; then the sweep releases and seals |
| Requests.Deliver | pkg/coordinator/coordinator.go:1235-1281 | a materialized channel gives nothing before it is sealed or, on finite epochs, its epoch is closed; otherwise work is handed out in order, is leased to this process, has the channel's epoch, and is recorded; a response below the limit leaves nothing that could be handed out |
| Requests.ReadToTheEnd | pkg/coordinator/coordinator.go:1238-1252 | a Broadcast reader at the end of the log has in hand, or acknowledged for its slot, every live segment that is not held |
| Coordination.Coordinator.constructor | pkg/coordinator/coordinator.go:363-438 | the declared graph starts valid, with at least one partition a channel; a channel is finite exactly if it is connected to a Synchronous loop |
| Coordination.Coordinator.Commit | pkg/coordinator/persistence.go:97-113 | success means the whole state and its tombstones are stored; otherwise the stored state is the old or the new one; after any failure nothing is committed again |
| Coordination.Coordinator.SetReplicas | pkg/coordinator/coordinator.go:473-482 | only the published replica count of the operation changes |
| Coordination.Coordinator.Register | pkg/coordinator/coordinator.go:507-540 | exactly the silent pods leave and only their deliveries return; refuses exactly the retired and the session-less; a new pod takes the lowest free slot and has finished no epoch; a replaced process is retired and holds nothing; nothing else about the pods changes |
| Coordination.Coordinator.SourceDone | pkg/coordinator/coordinator.go:569-597 | marks the pod done and changes no other pod; for an operation without inputs epoch zero is closed on its outputs exactly when the report is the first of the pod and every pod has made it |
| Coordination.Coordinator.Announce | pkg/coordinator/coordinator.go:822-902 | a batch is refused as a whole without effect, or indexed as a whole behind what was there and swept; it is a step of the run, of disciplined workers if its sender holds work; whether its ids were free is remembered |
| Coordination.Coordinator.Produce | pkg/coordinator/coordinator.go:980-1039 | outside records become coordinator-held segments, one for each partition and epoch with all its records; a channel without a consumer counts them |
| Coordination.Coordinator.ProduceGroups | pkg/coordinator/coordinator.go:1014-1039 | when the store fails half way exactly the groups written before are indexed, behind what was there |
| Coordination.GroupsCount | pkg/coordinator/coordinator.go:1000-1012 | the groups hold as many records as came |
| Coordination.Coordinator.Seal | pkg/coordinator/coordinator.go:1055-1078 | seals the channel and sweeps |
| Coordination.Coordinator.Consume | pkg/coordinator/coordinator.go:1192-1292 | silent pods leave and the sweep runs; then work of the settled channel is handed out, stored before it is answered; work of a materialized channel only when its input is complete; a response below the limit leaves the process nothing to get but what it gave back for later; a failed commit undoes everything; nothing handed out for deletion is delivered, and, while ids were free, nothing a replacement deleted |
| Coordination.Coordinator.Ack | pkg/coordinator/coordinator.go:1304-1357 | only an active process acknowledges, exactly what it holds, for the slot its process has in the consumer |
| Coordination.Coordinator.Nack | pkg/coordinator/coordinator.go:1363-1400 | only an active process gives back, exactly what it holds, ahead of the queue, with the delay it asks for; a Broadcast reader starts over |
| Coordination.Coordinator.OperationEpochDone | pkg/coordinator/coordinator.go:1529-1599 | only an active process reports; after expiry the channels move exactly when the report is news, the inputs are ready and every pod of the operation was heard from lately and has finished the epoch |
| Coordination.Coordinator.Sweep | pkg/coordinator/coordinator.go:1745-1749 | exactly the silent pods leave, exactly what only they held is lost, and the sweep runs on what is left |
| Coordination.Coordinator.Released | pkg/coordinator/coordinator.go:615-657 | hands out for deletion exactly the segments that the pod itself announced, that are released and whose bytes the coordinator does not hold, on channels that are not retained; they are released in the committed state and named by its tombstones; nothing is handed out if that cannot be stored |
| Coordination.Coordinator.Restart | pkg/coordinator/coordinator.go:283-309 | a replacement starts from the committed state and everything ever handed out is released in it; while ids were free, no segment that waits has an id it deletes |
| Coordination.ForgetReleased | pkg/coordinator/coordinator.go:631-644 | exactly the deletable segments leave the index |
| Coordination.AdmitsProducer | pkg/coordinator/coordinator.go:804-814 | admits the declared producer, anyone on an external channel, and the operation of a loop that overflows into it |
| Coordination.IsFed | pkg/coordinator/coordinator.go:1617-1624 | looks for a channel into the operation |
| Deletion.NoClashExactly | pkg/coordinator/persistence.go:119-136 | the tombstones never name a segment that waits, whatever happens before the next announcement, exactly when no ids clash |
| Deletion.ClashDeletes | pkg/coordinator/coordinator.go:776-786 | of two segments that clash, losing one puts the other's id among the tombstones |
| Deletion.FreeIdExactly | pkg/coordinator/coordinator.go:905-933 | indexing one segment brings a clash exactly if its id is not free |
| Deletion.OwnIdsExactly | pkg/coordinator/coordinator.go:873-909 | so a batch does, exactly if one of its segments is indexed under an id that is not free |
| Deletion.OwnGroupIdsExactly | pkg/coordinator/coordinator.go:1014-1039 | so do segments the coordinator stores itself |
| Coordination.NeverErased | pkg/coordinator/coordinator.go:298-302 | work handed out shares no id with what a replacement deleted, if all of that is released |
| Coordination.NeverDeleted | pkg/coordinator/coordinator.go:1238-1269 | work handed out is disjoint from everything handed out for deletion |
| Guarantees.BroadcastReleasedByAll | pkg/coordinator/coordinator.go:1457-1484 | with a fixed replica count that the live pods never exceed, a Broadcast segment is released only after the process in every slot acknowledged it, and nobody has it in flight |
| Guarantees.ReaderMissesNothing | pkg/coordinator/coordinator.go:1238-1252 | everything in the log before the cursor of a Broadcast reader is released, in the reader's hands or acknowledged for its slot, in every state |
| Guarantees.SealedLoopNeverWakes | pkg/coordinator/coordinator.go:1626-1660 | after the sweep sealed a closed Asynchronous loop, the loop is dead exactly when nothing was overlooked, and then no member is ever handed work again, along any run |
| Limits.SealedLoopWakes | pkg/coordinator/coordinator.go:1641-1656 | beside a Synchronous loop the sweep seals an Asynchronous one that holds a segment, and the next epoch queues it |
| Limits.MixedLoopsState | pkg/coordinator/coordinator.go:1641-1656 | the state before that sweep satisfies the invariant; its input is complete and drained |
| Limits.MixedLoopsAreFinite | pkg/coordinator/coordinator.go:411-431 | that graph runs on finite epochs |
| Limits.OverflowWakes | pkg/coordinator/coordinator.go:804-814 | a dead loop that another loop overflows into gets work again |
| Limits.IdleMemberWakes | pkg/sdk/sdk.go:1330-1342 | so does one with a member that publishes without work in hand, though nobody outside may publish |
| Limits.SealedEdgeDropsHeld | pkg/coordinator/coordinator.go:1583-1590 | behind a sealed edge the seal at the bound drops a held segment |
| Limits.ForeignSlotCounts | pkg/coordinator/coordinator.go:1304-1357 | a process active in two operations acknowledges for the slot of another pod, which still has the segment when every slot is counted |
| Limits.SharedIdNamesLiveSegment | pkg/coordinator/persistence.go:119-136 | with a shared id the tombstones name a segment that waits |
| Grouping.Group | pkg/coordinator/coordinator.go:1000-1012 | every group holds exactly the records of its partition and epoch, in order; none is empty; groups are ordered by their first record |
| Grouping.GroupsMakeUpAll | pkg/coordinator/coordinator.go:1000-1012 | every record is in the group of its partition and epoch |
| Grouping.KeyStaysTogether | pkg/coordinator/coordinator.go:953-972 | with Hash routing records of one key share a partition, across batches |
| Grouping.TurnsGoRound | pkg/coordinator/coordinator.go:959-962 | in turn, each record goes to the partition after that of the one before, and the next batch goes on from there |
| Guarantees.DrainedForever | pkg/coordinator/coordinator.go:1282-1283 | a sealed channel without work stays without work along any run |
| Guarantees.DrainedMeansEmpty | pkg/coordinator/coordinator.go:1174 | no live work is the same as no record queued, held or in flight |
| Guarantees.RetiredForever | pkg/coordinator/coordinator.go:515-533 | a retired process is never active again along any run |
| Guarantees.HashWorkIsSticky | pkg/coordinator/coordinator.go:91-107 | two deliveries of one hash partition go to different processes only if the first one ended in between |
| Guarantees.ExclusiveLease | pkg/coordinator/coordinator.go:588-597 | a leased segment of a partitioned channel has one lease, of a live pod's active process |
| RetainedLog.RetainedChannel.Append | pkg/coordinator/subscriptions.go:21-65 | an append gets the next offset of its log; a retry gets the same offset and changes nothing; refused are exactly a channel that is not retained, a foreign producer, a replaced process, a partition out of range, other records under a known append id, and anything new on a sealed channel; after a failed commit every append is refused |
| RetainedLog.RetainedChannel.SetSubscription | pkg/coordinator/subscriptions.go:87-112 | a new cursor starts at what is retained; rebinding is refused and repeating changes nothing |
| RetainedLog.RetainedChannel.Consume | pkg/coordinator/subscriptions.go:116-191 | the reader gets the entry at the cursor of each of its partitions, which are all of them for an external reader, and nobody else's; a lost position stops the request but not what it handed out before |
| RetainedLog.RetainedChannel.Ack | pkg/coordinator/subscriptions.go:194-220 | exactly the acknowledgements of what the reader has in flight move a cursor and are remembered |
| RetainedLog.RetainedChannel.Replay | pkg/coordinator/subscriptions.go:223-250 | an idle cursor moves to the given positions if all are retained, else not at all |
| RetainedLog.RetainedChannel.DeleteBefore | pkg/coordinator/subscriptions.go:254-290 | history and its receipts disappear exactly below the positions; offsets and cursors stay; a request that goes back in a partition ends in a run-time error exactly at the first position that does |
| RetainedLog.RetainedChannel.Snapshot | pkg/coordinator/persistence.go:149-177 | the stored log has a receipt for each retained append, the history as append ids, and the cursors with what is in flight |
| RetainedLog.RetainedChannel.Restored | pkg/coordinator/persistence.go:236-277 | a replacement coordinator rebuilds a right log with the same receipts, history and cursors |
| RetainedLog.LogRoundTrip | pkg/coordinator/persistence.go:138-302 | restoring the snapshot of a right log gives the same receipts, history, offsets and subscriptions |
| RetainedLog.RetainedChannel.ReturnDeliveries | pkg/coordinator/coordinator.go:701-710 | exactly what the process had in flight is free again; cursors stay |
| RetainedLog.OffsetsNameOneAppend | pkg/coordinator/subscriptions.go:194-220 | offsets acknowledged between replays are consecutive and name the same append for every subscription |
| RetainedLog.AppendedOnce | pkg/coordinator/subscriptions.go:48-53 | an append id stands at one place of the retained history |
| RetainedLog.AppendKeeps | pkg/coordinator/coordinator.go:913-919 | entry i of a partition has offset base plus i, and no offset is used again |
| Checkpoints.Claim | pkg/storage/checkpoint.go:50-77 | a claim gives back exactly the checkpoint it replaces and keeps its state, among any interleaved writers |
| Checkpoints.Writer.Commit | pkg/storage/checkpoint.go:80-109 | a commit succeeds only right behind the writer's own last write, and never after anything else was written |
| Checkpoints.ClaimFences | pkg/storage/checkpoint.go:48-77 | no earlier writer commits after a later claim, whatever the writer ids |
| Checkpoints.NoValueRepeats | pkg/storage/checkpoint.go:66 | generations rise by one, so no version ever comes back |
| Checkpoints.FencedForGood | pkg/storage/checkpoint.go:48-49 | a replaced writer stays fenced |
| Checkpoints.HandleIsContiguous | pkg/storage/checkpoint.go:89-103 | between two writes of one writer nobody else wrote |
| ExactlyOnce.Worker.FromManifest | pkg/sdk/checkpoint.go:67-82 | the restored state is what the manifest's inputs produce, and its outputs are to be published again |
| ExactlyOnce.Worker.Prepare | pkg/sdk/checkpoint.go:107-126 | the state is stored before a manifest names it, and the extended manifest is right |
| ExactlyOnce.Worker.WriteManifest | pkg/sdk/checkpoint.go:115-142 | success covers exactly the new inputs, and nothing is published yet |
| ExactlyOnce.Worker.CommitCheckpoint | pkg/sdk/checkpoint.go:107-156 | success means committed, published and acknowledged, in that order |
| ExactlyOnce.Worker.Handle | pkg/sdk/sdk.go:1265-1302 | a delivered input is covered and acknowledged afterwards: committed if it was not covered, else only acknowledged |
| ExactlyOnce.Worker.Publish | pkg/sdk/sdk.go:879-888 | success means every output of the manifest is indexed |
| ExactlyOnce.Worker.Run | pkg/sdk/sdk.go:1237-1312 | every delivery but the one in hand when the process stops is covered by the stored manifest and acknowledged; a drained run handled all of them, and its complete, published manifest covers exactly these and what it started from |
| ExactlyOnce.HandledAre | pkg/sdk/sdk.go:1264-1302 | so a drained manifest covers what was delivered and what was covered before, and nothing else |
| ExactlyOnce.Process | pkg/sdk/checkpoint.go:48-83 | a process that claims, restores and runs keeps the world right wherever it stops; what it was handed is covered and acknowledged but for the delivery in hand, and a drained one covers exactly that on top of the checkpoint it claimed |
| ExactlyOnce.InputIsGood | pkg/sdk/checkpoint.go:115-124 | a manifest extended by a new input stores the state with that input applied once and exactly its outputs added |
| ExactlyOnce.DrainIsGood | pkg/sdk/sdk.go:1349-1358 | so does the final drain |
| ExactlyOnce.StoreHistoryIsHistory | pkg/sdk/checkpoint.go:48-66 | the history of the fenced store is one the worker's results are about, as long as each commit extends what it replaces |
| ExactlyOnce.CoversLater | pkg/sdk/checkpoint.go:115-122 | later manifests cover all that earlier ones covered |
| ExactlyOnce.EffectsAtAnyMoment | pkg/sdk/checkpoint.go:48-156 | at any moment each covered input was applied once, everything announced is in the manifest and indexed once, and only covered inputs are acknowledged |
| ExactlyOnce.EffectOfDrainedRun | pkg/sdk/checkpoint.go:48-156 | after a drained run the published outputs are exactly those of one fault-free pass over the covered inputs |
| Combining.FoldedIn | pkg/sdk/sdk.go:696-715 | folding a value into a buffered record folds it into that key's result and no other |
| Combining.ReceivedIsResult | pkg/sdk/sdk.go:696-715 | the result of Min is a number received for the key with none below it, of Max one with none above, of Sum and Count the sum of the numbers |
| Combining.MeantIsResult | pkg/sdk/sdk.go:668-715 | emitted values mean that of their numbers, and under Count how many there are |
| Combining.RedeliveryAbsorbed | api/graph/graph.go:69-75 | for Min and Max the results depend only on which records were received: any redelivery, at any point, leaves them unchanged |
| Combining.RedeliveryCounted | api/graph/graph.go:69-75 | redelivering a record with a non-zero number leaves the result alone if and only if the mode is Min or Max |
| Producing.Producer.FlushBuffer | pkg/sdk/sdk.go:762-840 | a buffer becomes one segment, or stays when writing fails; bytes and indexes follow |
| Producing.Producer.Reserve | pkg/sdk/sdk.go:631-650 | eviction terminates and makes room, unless nothing is buffered or a flush fails |
| Producing.Producer.CombineInto | pkg/sdk/sdk.go:656-728 | exactly non-numbers are refused where numbers are needed; otherwise the record is accounted for and the index stays the inverse of the buffer |
| Producing.Producer.FoldRecord | pkg/sdk/sdk.go:719-728 | a record rewritten in place keeps the byte accounting and the meaning |
| Producing.Producer.Buffer | pkg/sdk/sdk.go:581-629 | every record is kept under its channel and epoch, and channels that do not combine stay within the byte limit |
| Producing.Producer.Emit | pkg/sdk/sdk.go:549-579 | a record goes to its channel or overflow channel with the right partition and epoch, and takes a turn only on a round-robin channel, or is dropped and counted at the loop bound |
| Producing.KeyStaysTogether | pkg/sdk/sdk.go:593-602 | on a Hash channel the records of one key share a partition |
| Producing.TurnsGoRound | pkg/sdk/sdk.go:599-602 | on a round-robin channel the next record goes to the next partition |
| Producing.Producer.Materialize | pkg/sdk/sdk.go:855-877 | unless a flush failed, every buffer was written and every drop was counted once |
| Producing.AllShipped | pkg/sdk/sdk.go:845-877 | then what was shipped is what was emitted: in order without combining, in meaning with it |
| Producing.ShippedInNumbers | pkg/sdk/sdk.go:845-877 | in numbers: the shipped records of a key have the least, the greatest or the sum of the numbers emitted for it, or add up to how many records were emitted |
| Producing.FoldedAccounted | pkg/sdk/sdk.go:696-728 | combining a value into the buffer means the same as emitting it |
| Producing.InverseIsDistinct | pkg/sdk/sdk.go:652-665 | an index that is the inverse of a buffer leaves one record per key |
| Blobs.SegmentStore.WriteBlob | pkg/sdk/blob.go:242-284 | a payload that does not fit is refused, and the used bytes are the stored bytes |
| Blobs.SegmentStore.WriteSegment | pkg/sdk/sdk.go:445-473 | so for segments |
| Blobs.SegmentStore.Bind | pkg/sdk/blob.go:288-306 | the segment becomes an owner of exactly the blobs that exist |
| Blobs.SegmentStore.ReleaseBlobs | pkg/sdk/blob.go:310-330 | exactly the blobs that no other segment owns are deleted; an unbound blob never is |
| Blobs.SegmentStore.DropBlob | pkg/sdk/blob.go:334-339 | exactly the one blob goes |
| Blobs.SegmentStore.Remove | pkg/sdk/sdk.go:493-503 | a removed segment takes with it exactly what only it owned |

## Left out

- Coordination.Coordinator.Ack: a request that counts for another pod is excluded by `Requests.MayAck`, the exact condition of `Requests.HonestExactly`; the legacy form that names a pod for each acknowledgement, and acknowledgements by holder and id instead of append id, are not modelled.
- Coordination.Coordinator.constructor: declaring channels again while running (`Configure` on existing names) is not modelled; the graph is fixed. The bound on epochs of a component is only reported to workers and not modelled.
- Coordination.Coordinator.Sweep: the metrics themselves, and the latched completion of operations derived from them, are not modelled.
- Coordination.Coordinator.Restart: `rebindHeldSegments`, which renames the holder of coordinator-held segments, is not modelled. A fenced former coordinator that keeps running beside its replacement is not part of this model either; that the commits of a fenced writer fail is `Checkpoints.ClaimFences`, and no lemma joins the store there with the one here.
- Coordination.Coordinator.Produce: the record log of a channel without a consumer is only counted, and the round-robin turn is an input.
- Coordination.Coordinator.SourceDone: `EpochDoneSession`, the channel-scoped form of an epoch report kept for older workers, is not modelled.
- Persistence.RoundTrip: the round-robin counters and the numbering of coordinator segments are outside the stored state of the model; retained histories and subscriptions come back by `RetainedLog.LogRoundTrip`.
- RetainedLog.RetainedChannel.Consume: the partitions assigned to a pod are an input; `Operations.Assigned` computes them.
- RetainedLog.RetainedChannel.Append: the writer's rights and process are passed in as answers; segments that workers announce on a retained channel are not part of this log.
- Termination.DeadForever: about runs between restarts, since a restart goes back to the committed state, and of workers that publish only with a delivery in hand; `Tick`, `OnDrain` and `OnEpochEnd` handlers publish without one (`Termination.DeadStaysOpenlyExactly`).
- Deletion.OwnIdsExactly: when bytes are written is not modelled, so an id whose bytes were deleted counts as free again once its tombstone is cleared.
- Producing.Producer.Buffer: the byte bound is not claimed for channels that combine, where a rewritten value may grow past what was reserved.
- Producing.Producer.Emit: whether a record that is refused after it was routed took its turn is not stated.
- Producing.Producer.CombineInto: numbers are integers; rounding of floating point sums is not modelled.
- ExactlyOnce.Worker.Run: epoch callbacks and their manifests, overflow counts in manifests, and handlers whose effect depends on more than state and input are not modelled.
- Blobs.SegmentStore.WriteBlob: callers are serial; two writes at once can both pass the capacity test.
- Channels and operations are values in the coordinator's maps rather than objects updated in place, so aliasing between a queue and the segment index is not modelled.
- Barrier and termination results leave segments without records aside; the worker never writes one.
- Liveness is not claimed: two Asynchronous loops that share an operation wait for each other to be sealed.
- HTTP handlers, the web editor, object-store signing, file-system calls, Kubernetes objects, collectives, the examples and the extract-transform-load package are not part of this model.
