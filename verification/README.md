# Penteract: the ordering pipeline, verified

A Dafny model of the part of the SLOG/Detock database that decides in which order transactions
run, with proofs that whatever the interleaving of messages, every machine hands out the same
sequence.  It follows a transaction from the server to the log and back:

* **Forwarder** (`Forwarder`, `ForwarderSystem`): finds the masters of a transaction's keys with
  batched lookups, then sends the transaction on.
* **Splitting and merging** (`TxnSplit`, `TxnMerge`, `Server`): lock-only pieces per home and
  partition; merging the partitions' results into one answer.
* **Paxos** (`PaxosRoles`, `PaxosSystem`, `PaxosSafety`, `PaxosRest`, `PaxosProgress`, `PaxosWork`,
  `PaxosReordering`): fixed-leader multi-Paxos, as a step system over queues.
* **Logs** (`AsyncLog`, `LocalLog`, `BatchLog`, `BatchLogConfluence`, `LogManager`,
  `LogManagerModule`, `LogNode`): out-of-order arrivals turned back into one log per home region.
* **The cluster** (`Deployment`, `Fanout`, `Spreading`, `RegionOrder`, `Exchange`, `Reception`,
  `Sending`, `Generation`, `Growth`, `Cluster`, `ClusterInvariant`, `ClusterLogs`, `ClusterForgets`,
  `ClusterRest`, `ClusterGiven`, `ClusterRoutes`, `ClusterWork`): generators, Paxos groups and log
  managers of all regions, replicas and partitions together.
* **Multi-home ordering** (`Orderer`, `OrdererSystem`, `OrdererInvariant`, `OrdererStreams`,
  `OrdererRest`, `OrdererSubmits`, `OrdererWork`): one global order of rounds, projected onto each region.
* **Storage helpers** (`HashSegment`, `RwLatch`, `Ids`): the hash map segment, the reader-writer
  latch, packed identifiers and lock names.

`Topology`, `Counting` and `Listing` hold shared names and small facts about sets and sequences.  To
check the project, run `dafny verify dfyconfig.toml`.

## How the proofs go

Protocols are step systems: a state, a `Step` datatype, `Enabled`, `Next`, and `Run`, which lists
the states that a sequence of steps goes through.  Main results quantify over every run.  All
links, those of Paxos included, may deliver in any order.  What first-in-first-out Paxos links add
is stated separately (`PaxosProgress`, `ClusterRest.RestInOrder`, `OrdererRest.RestInOrder`).

The invariants are conservation laws.  In the cluster, for each machine and each item meant for
it (a batch, a local order, a remote order, an acknowledgement), either the machine has the item
or exactly one packet is on its way that brings it there.  So nothing arrives twice, and
`AsyncLog::Insert` never meets a taken position.

Code that works by changing fields is modelled as classes with loops, each proved equal to a
function on values; the step systems use those functions.  States carry history (what was
received, generated, submitted, decided) that the source does not store; separate results tie that
history to the steps of the run (`PaxosSafety.TicketsAreSubmitted`, `ClusterGiven.MadeAsFinished`,
`OrdererSubmits.RoundsAsGiven`, `ForwarderSystem.ArrivedAsBrought`).

Every lemma is marked `{:induction false}` and does its inductions by explicit recursive calls.  Keep
it so in new lemmas: the induction hypothesis that Dafny 4.11 generates by itself can be
inconsistent for a parameter of a sequence type, in which case the lemma proves anything.

## Where the code and its intent differ

* `paxos/leader.cpp:81` takes the slot of a commit response from a field that such a response does
  not have, so it is always 0: only slot 0's instance is ever collected, by as many responses for any
  slots as there are acceptors (`PaxosRest.SlotZeroHeldIff`).  Agreement does not depend on it.  Every proposal is learned in the end exactly if no step
  erases slot 0's instance before a majority answered for slot 0
  (`PaxosRest.QuiescentIsCompleteIff`), which over first-in-first-out links never happens
  (`PaxosProgress.InOrderNeverForgot`) and over reordering links can
  (`PaxosReordering.SlotZeroLost`).  A region to which it happens never hands out anything of its log,
  on any machine (`ClusterRest.RestIsComplete`); if it happens to the global group, no region is given
  any multi-home transaction (`OrdererRest.RestIsComplete`).
* A batch log gives the same output for every order of arrivals exactly if its head batch is not
  acknowledged more often than its slot asks (`BatchLogConfluence.ConfluentIff`).
* A home region hands out its own log exactly if its replication order has factor-1 entries and the
  first factor-1 of them are distinct; otherwise it never hands out anything of it, while all other
  regions do (`ClusterRest.RestIsComplete`).
* The latch wakes a single reader when room appears.  It loses no wakeup exactly as long as there
  is at most one thread more than the limit on readers (`RwLatch.NoWakeupLostIff`), and a reader can
  be left sleeping for good at a latch that nobody holds exactly if the limit is at least 2 and there
  are at least two threads more than it (`RwLatch.NeverStuckIff`).
* A transaction without keys that reaches the forwarder disappears (`ForwarderSystem.NoneStuck`);
  the server turns such transactions away beforehand.
* A packed transaction id gives its counter back exactly if the counter fits into 32 bits
  (`Ids.TxnIdRoundTrip`); beyond that, ids repeat (`Ids.TxnIdsRepeat`).

## Model

| member | source | states |
|---|---|---|
| `AsyncLogs.AsyncLog.constructor` | common/async_log.h:20 | a new log is empty and starts at the given position |
| `AsyncLogs.AsyncLog.Insert` | common/async_log.h:22-32 | positions already passed are ignored, taken ones are an error, others are stored and nothing else changes |
| `AsyncLogs.AsyncLog.Next` | common/async_log.h:38-50 | hands out the item at the cursor and moves on by one; an error exactly if there is none |
| `LocalLogs.LocalLog.AddBatchId` | module/log_manager.cpp:29-32 | the log's value becomes the specified one; an error exactly on a taken position |
| `LocalLogs.LocalLog.AddSlot` | module/log_manager.cpp:34-37 | the log's value becomes the specified one; an error exactly on a taken slot |
| `LocalLogs.LocalLog.NextBatch` | module/log_manager.cpp:41-48 | the oldest ready slot leaves; an error exactly if none is ready |
| `LocalLogs.LocalLog.UpdateReadyBatches` | module/log_manager.cpp:50-64 | the loop over windows and queues reaches the value of the specification |
| `LocalLogs.AddSlotSettles` | module/log_manager.cpp:34-64 | a new slot is accepted and the log again is the function of what has arrived |
| `LocalLogs.AddBatchIdSettles` | module/log_manager.cpp:29-64 | the same for a new batch id |
| `LocalLogs.PopSettles` | module/log_manager.cpp:41-48 | the slot handed out carries the batch at position #{earlier slots of the same queue} |
| `LocalLogs.RankStrict` | module/log_manager.cpp:50-64 | no two slots use the same batch of a queue |
| `LocalLogs.LocalLogConfluent` | module/log_manager.cpp:29-64 | every interleaving of the same arrivals gives the same output: the longest prefix of slots whose batches are there, each paired by rank |
| `BatchLogs.BatchLog.AddBatch` | common/batch_log.cpp:14-18 | the log's value becomes the specified one |
| `BatchLogs.BatchLog.AckReplication` | common/batch_log.cpp:20-23 | the same; the counter may go below zero before its slot comes |
| `BatchLogs.BatchLog.AddSlot` | common/batch_log.cpp:25-30 | the same; an error exactly on a taken slot |
| `BatchLogs.BatchLog.NextBatch` | common/batch_log.cpp:34-50 | hands out the oldest ready batch and forgets its data; an error exactly if none is ready |
| `BatchLogs.BatchLog.UpdateReadyBatches` | common/batch_log.cpp:52-63 | the loop reaches the value of the specification |
| `BatchLogs.BatchAddedSettles` | common/batch_log.cpp:14-18 | new data is taken in and the log again is the function of what has arrived |
| `BatchLogs.AckedSettles` | common/batch_log.cpp:20-23 | the same for an acknowledgement of a batch not yet released |
| `BatchLogs.SlotAddedSettles` | common/batch_log.cpp:25-30 | the same for a new slot with a batch that has none |
| `BatchLogs.PopSettles` | common/batch_log.cpp:34-50 | what is handed out is the data that arrived for the slot's batch |
| `BatchLogs.SettledReadyHasData` | common/batch_log.cpp:34-63 | every ready batch still has its data |
| `BatchLogConfluence.ConfluentIff` | common/batch_log.cpp:14-63 | all orders of the same arrivals give the same output if and only if the head batch is not over-acknowledged |
| `BatchLogConfluence.NotOverackedOutput` | common/batch_log.cpp:14-63 | that output is the longest prefix of slots with data and with exactly the acknowledgements asked for |
| `BatchLogConfluence.AcksFirst` | common/batch_log.cpp:20-63 | with all acknowledgements first, an over-acknowledged head batch is never released |
| `BatchLogConfluence.JustEnoughAcks` | common/batch_log.cpp:20-63 | with just enough acknowledgements first, the same batch is released |
| `PaxosRoles.Acceptor.constructor` | paxos/acceptor.cpp:11 | an acceptor starts at ballot 0 |
| `PaxosRoles.Acceptor.HandleRequest` | paxos/acceptor.cpp:13-44 | ballot and answers are those of the specification for every message |
| `PaxosRoles.AcceptsHighest` | paxos/acceptor.cpp:26-36 | whatever came before, an acceptor accepts a request exactly if its ballot is not below any ballot asked for so far |
| `PaxosRoles.Leader.constructor` | paxos/leader.cpp:15-30 | the first acceptor leads; an acceptor's ballot is its first position; everybody else forwards to the leader |
| `PaxosRoles.Leader.Handle` | paxos/leader.cpp:32-92 | state, messages and reported commits are those of the specification for every message |
| `PaxosRoles.Leader.StartNewInstance` | paxos/leader.cpp:94-105 | the next slot gets an instance and all acceptors an accept request |
| `PaxosSafety.StepSafe` | paxos/simulated_multi_paxos.cpp:15-33 | every step, in any delivery order, keeps the accounting of all messages |
| `PaxosSafety.TicketsAreSubmitted` | paxos/simulated_multi_paxos.cpp:15-33 | the proposals on record are the values of the submit steps, in order |
| `PaxosSafety.Agreement` | paxos/leader.cpp:51-105 | two reports of a slot, on any machines at any times, have the same proposed value and leader |
| `PaxosSafety.CommittedOnceByMajority` | paxos/leader.cpp:62-79 | a slot's commit is broadcast at most once and only after a majority of distinct acceptors answered |
| `PaxosSafety.AnnouncedIffMajority` | paxos/leader.cpp:62-79 | in every state of every run, a slot that the leader still holds has been broadcast if and only if more than half of the acceptors answered for it |
| `PaxosSafety.AnnouncedAtMajority` | paxos/leader.cpp:62-79 | the answer that makes the leader broadcast a commit is the one that completes a strict majority: more than half have answered, and without it not |
| `PaxosSafety.LearnedOnce` | paxos/leader.cpp:51-60 | a machine is told of a slot at most once, and only after its broadcast |
| `PaxosRest.SlotZeroHeldIff` | paxos/leader.cpp:80-91 | in every run the leader holds slot 0's instance if and only if a slot was given away and it has taken fewer commit responses, of any slots, than there are acceptors |
| `PaxosRest.LostStep` | paxos/leader.cpp:80-91 | slot 0 is lost by exactly the steps that erase its instance before a majority answered for it, and then for ever |
| `PaxosRest.QuiescentTold` | paxos/leader.cpp:32-105 | in any delivery order, once nothing is on its way, proposals and slots 0..n-1 correspond one to one, and each learner was told exactly once of every slot after 0, and of slot 0 once if its commit was broadcast, otherwise not at all |
| `PaxosRest.QuiescentIsCompleteIff` | paxos/leader.cpp:80-91 | in any delivery order, once nothing is on its way, all learners know all slots if and only if no step erased slot 0's instance before a majority answered for it |
| `PaxosProgress.StepLive` | paxos/leader.cpp:32-105 | deliveries in order keep each acceptor's answers in slot order and never lose slot 0 |
| `PaxosProgress.AnnouncedSlotZero` | paxos/leader.cpp:80-91 | over first-in-first-out links, once the commit of any slot has been broadcast, so has that of slot 0 |
| `PaxosProgress.InOrderNeverForgot` | paxos/leader.cpp:80-91 | over first-in-first-out links no step erases slot 0's instance too early |
| `PaxosProgress.QuiescentIsComplete` | paxos/leader.cpp:32-105 | over first-in-first-out links, once nothing is on its way, proposals and slots 0..n-1 correspond one to one and every learner was told of each slot exactly once |
| `PaxosWork.DeliveriesBounded` | paxos/simulated_multi_paxos.cpp:15-33 | in any delivery order, the deliveries made and the work left are at most a fixed amount per proposal |
| `PaxosWork.AtRest` | paxos/simulated_multi_paxos.cpp:15-33 | when no work is left nothing is on its way |
| `PaxosReordering.SlotZeroLost` | paxos/leader.cpp:80-91 | a run with reordered deliveries that forgets slot 0 too early and ends with nothing on its way and slot 0 never committed |
| `Deployments.GetMembers` | module/consensus.cpp:15-51 | the loops give the group of the specification in both replication modes |
| `Deployments.MembersSound` | module/consensus.cpp:15-51 | an odd number of distinct acceptors led by the first machine: the first replicas with synchronous replication, otherwise the first partitions, all of them or all but one; learners are exactly, and once each, the leader replica and the first partitions |
| `Deployments.NeededIs` | module/log_manager.cpp:86-91 | a region is asked to acknowledge if and only if it is one of the first factor-1 entries of the replication order |
| `Deployments.NeededBounded` | module/log_manager.cpp:86-91 | never more regions are asked to acknowledge than a slot waits for, and never the home region |
| `Deployments.NeededEnough` | module/log_manager.cpp:86-91 | as many regions acknowledge as a slot waits for if and only if the order has factor-1 entries and its first factor-1 are distinct |
| `Deployments.EntryIsMachine` | module/log_manager.cpp:277-290 | the machine chosen for a remote log exists |
| `Deployments.EntryRotates` | module/log_manager.cpp:277-290 | the log of a region enters the k-th next region, going around, at partition k modulo the number of partitions |
| `Deployments.LogsBalanced` | module/log_manager.cpp:277-290 | in any region, the numbers of remote logs that enter at two partitions differ by at most one |
| `Fanout.ForwardsPartition` | module/log_manager.cpp:113-247 | the machines a packet gets to are its receiver and, without overlap, those that the forwarded packets get to |
| `Spreading.SpreadsOnce` | module/log_manager.cpp:113-247 | a packet that enters a region gets to each machine once, each with its own share, and forwarding stops |
| `Spreading.EntersWholeRegion` | module/log_manager.cpp:119-131 | what comes from another region is meant for every machine of the region |
| `LogManagerModule.LogManager.constructor` | module/log_manager.cpp:66-92 | the peer lists hold exactly the other partitions of the replica and the same partition of the other replicas, and the regions to acknowledge are exactly the first factor-1 entries of the replication order |
| `LogManagerModule.OtherPartitions` | module/log_manager.cpp:74-78 | exactly the other partitions of the same replica, in order |
| `LogManagerModule.OtherReplicas` | module/log_manager.cpp:80-84 | exactly the same partition of the other replicas, in order |
| `LogManagerModule.NeedAckFrom` | module/log_manager.cpp:86-91 | the loop marks exactly the regions among the first factor-1 entries of the replication order |
| `LogManagerModule.LogManager.ProcessBatchReplicationAck` | module/log_manager.cpp:113-133 | state and forwarded packets are those of the specification |
| `LogManagerModule.LogManager.Distribute` | module/log_manager.cpp:157-177 | taking shares off the end gives each partition its own and the receiver its own |
| `LogManagerModule.LogManager.ProcessForwardBatchData` | module/log_manager.cpp:135-191 | state, forwarded packets and errors are those of the specification |
| `LogManagerModule.LogManager.ProcessLocalBatchOrder` | module/log_manager.cpp:201-213 | the same for an order of the region's own Paxos group |
| `LogManagerModule.LogManager.ProcessRemoteBatchOrder` | module/log_manager.cpp:214-247 | the same for an order of another region; the acknowledgement goes out between the two rounds of forwarding |
| `LogManagerModule.LogManager.Orders` | module/log_manager.cpp:263-298 | one order per other region, marked exactly where an acknowledgement is needed |
| `LogManagerModule.LogManager.AdvanceLocalLog` | module/log_manager.cpp:253-301 | the loop passes every ready slot on, with orders sent by the leader only |
| `LogManagerModule.LogManager.DrainAll` | module/log_manager.cpp:303-318 | draining log by log, in any order of logs, hands out everything ready |
| `LogManagerModule.LogManager.OnInternalRequestReceived` | module/log_manager.cpp:94-111 | a handler call does what `Receive` says and fails exactly where it fails; its packets are those of `Receive`, in the order in which the source sends them |
| `LogNodes.NodeReceives` | module/log_manager.cpp:94-319 | a handler call on something new throws nothing, keeps the node's state the function of what it received, and only adds to what was handed out |
| `LogNodes.PairedDistinct` | module/log_manager.cpp:50-64 | different slots stand for different batches |
| `Generation.CountDataPackets` | module/sequencer_components/batcher.cpp:175-236 | a batch is sent so that it gets to every machine of the cluster exactly once |
| `Generation.DataPacketsOk` | module/sequencer_components/batcher.cpp:175-215 | every packet of a batch carries the right shares |
| `RegionOrders.DeliverOrder` | module/consensus.cpp:83-91 | a Paxos delivery reports at most one commit, of a slot new to the machine and as the order has it |
| `RegionOrders.CommonDistinct` | module/log_manager.cpp:50-64 | no batch stands in two slots of a region's order |
| `RegionOrders.CommonInOrder` | module/log_manager.cpp:50-64 | a generator's batches stand in a region's order as it made them |
| `RegionOrders.RankTotal` | module/sequencer_components/batcher.cpp:166-174 | when every proposal has its slot, the order names each generator as often as it proposed |
| `Exchange.CountAnnouncements` | module/log_manager.cpp:263-298 | the leader's orders bring each new slot to every machine of every other region once |
| `Receptions.IsNew` | common/async_log.h:22-32 | whatever a reachable machine receives is new to it |
| `Receptions.TokensReceive` | module/log_manager.cpp:113-319 | a handler call keeps the conservation law of items |
| `ClusterInvariant.InvStep` | module/log_manager.cpp:94-319 | every step of the cluster succeeds and keeps the invariant |
| `ClusterInvariant.RunInv` | module/log_manager.cpp:94-319 | the invariant holds in every state of every run |
| `ClusterLogs.NeverThrows` | common/async_log.h:22-32 | in every run, for any replica and partition counts, both replication modes and any delivery order, no handler call throws |
| `ClusterLogs.EmitsCommonPrefix` | module/log_manager.cpp:193-319 | at any time, what any machine has handed out for a home region is a prefix of the one sequence that the region's order gives then and ever after, each batch as the machine's own share |
| `ClusterLogs.EmitAlike` | module/log_manager.cpp:193-319 | of what two machines have handed out for a home region, at any two times, one is a prefix of the other |
| `ClusterRest.EmitsAfterReplication` | module/log_manager.cpp:253-319 | a home machine hands a batch out only after the regions of the first factor-1 entries of its replication order, which are distinct, have its order and acknowledged it; its counter is then settled for good |
| `ClusterRest.RestIsComplete` | module/log_manager.cpp:86-91 | in any delivery order, once nothing is on its way, every other region has handed out the whole log, and the home region all of it if and only if its replication order has factor-1 entries, the first factor-1 distinct, otherwise nothing; but nobody has handed out anything if the region's Paxos leader forgot slot 0 too early |
| `ClusterRest.RestInOrder` | module/log_manager.cpp:86-91 | the same over first-in-first-out Paxos links, where the exception does not occur |
| `ClusterForgets.LostIsForgotten` | paxos/leader.cpp:80-91 | in every run of the cluster a region's slot 0 is lost exactly if some step made its leader forget it too early |
| `ClusterForgets.LostIsSilent` | module/log_manager.cpp:253-319 | no machine anywhere hands out anything of a region whose slot 0 is lost, although its order is not empty |
| `ClusterWork.WorkBounded` | module/log_manager.cpp:94-319 | in any delivery order, Paxos deliveries and packets received are at most a fixed number per batch generated |
| `ClusterWork.RestsOrGoesOn` | module/log_manager.cpp:94-319 | a cluster that is not at rest has a delivery or a packet to process, and processing it succeeds |
| `ClusterRest.RestHoldsAll` | module/log_manager.cpp:29-64 | once nothing is on its way, every batch generated is in its region's log |
| `ClusterGiven.MadeAsFinished` | module/sequencer_components/batcher.cpp:160-187 | the batches on record for a generator are those that its steps finished, numbered from 1 in order, one share per partition |
| `ClusterGiven.EmitsFinished` | module/log_manager.cpp:303-318 | whatever a machine hands out in a slot is what the steps of the generator named there finished for the machine's partition |
| `ClusterGiven.EmitsOnce` | module/log_manager.cpp:303-318 | no machine hands out a batch twice |
| `ClusterGiven.RestEmitsFinished` | module/log_manager.cpp:86-91 | once nothing is on its way, a machine has handed out its share of a finished batch, as the generator finished it, if and only if the region's leader did not forget slot 0 too early and the machine is elsewhere or the first factor-1 entries of the region's replication order exist and are distinct |
| `ClusterRoutes.BatchEntersAt` | module/sequencer_components/batcher.cpp:188-215 | a whole batch comes straight from its generator, to the first replica of another region or to another replica of its own, at the partition given by its position (round robin) or else by the distance |
| `ClusterRoutes.AckReturnsToLeader` | module/log_manager.cpp:214-237 | an acknowledgement comes from the machine at which the order entered the other region and goes to the home's leader |
| `ClusterRoutes.OrderEntersAt` | module/log_manager.cpp:263-298 | an order comes to another region from the home's leader, at the first replica and the partition given by the distance, and asks for an acknowledgement exactly if the region is among the first factor-1 entries of the replication order |
| `Orderers.MultiHomeOrderer.constructor` | module/multi_home_orderer.cpp:18-24 | an orderer starts with round 1 open and empty |
| `Orderers.MultiHomeOrderer.NewBatch` | module/multi_home_orderer.cpp:26-37 | the next round is open, with an empty batch under its id for each region |
| `Orderers.MultiHomeOrderer.AddToBatch` | module/multi_home_orderer.cpp:104-129 | each region's batch stays the round's transactions that involve the region, in order |
| `Orderers.MultiHomeOrderer.SendBatch` | module/multi_home_orderer.cpp:131-152 | the round's id is proposed once and each region is sent exactly its part |
| `Orderers.MultiHomeOrderer.ProcessForwardBatchData` | module/multi_home_orderer.cpp:64-75 | the log and the transactions handed out are those of the specification |
| `Orderers.MultiHomeOrderer.ProcessForwardBatchOrder` | module/multi_home_orderer.cpp:77-86 | the same, with the error of a taken place |
| `Orderers.MultiHomeOrderer.AdvanceLog` | module/multi_home_orderer.cpp:88-102 | everything ready is handed out, unbatched, in order |
| `Orderers.Unbatch` | common/proto_utils.cpp:351-367 | taking transactions off the end yields them in their order |
| `OrdererInvariant.GroupDelivers` | module/consensus.cpp:66-75 | a delivery in the global group reports at most one new place, and no round gets two places |
| `OrdererInvariant.InvStep` | module/multi_home_orderer.cpp:26-152 | every step of the orderers succeeds and keeps the invariant |
| `OrdererStreams.NeverThrows` | module/multi_home_orderer.cpp:77-86 | no run of the orderers throws |
| `OrdererStreams.StreamIsPrefix` | module/multi_home_orderer.cpp:64-152 | a region's stream is a prefix of the global sequence, then and ever after, filtered to the region |
| `OrdererRest.OrderedAlike` | module/multi_home_orderer.cpp:64-152 | two transactions that involve two regions come in the same order in both, at whatever times |
| `OrdererRest.RestIsComplete` | module/multi_home_orderer.cpp:64-152 | in any delivery order, once nothing is on its way, exactly the finished rounds have places and each region's stream is all of its share, or empty if the global leader forgot slot 0 too early |
| `OrdererRest.RestInOrder` | module/multi_home_orderer.cpp:64-152 | over first-in-first-out Paxos links each region's stream is then all of its share |
| `OrdererSubmits.RoundsAsGiven` | module/multi_home_orderer.cpp:104-152 | the rounds of a machine are the transactions of its submit steps, in order and each once, cut exactly at its finishing steps |
| `OrdererSubmits.NeverMoreThanGiven` | module/multi_home_orderer.cpp:64-152 | at no time has a region been given a transaction more often than it was submitted to finished rounds, or one that does not involve it |
| `OrdererSubmits.RestHasAllGiven` | module/multi_home_orderer.cpp:64-152 | once nothing is on its way, each region that a transaction involves has been given it exactly as often as it was submitted to rounds finished by then, other regions never; nobody has been given anything if the global leader forgot slot 0 too early |
| `OrdererWork.WorkBounded` | module/multi_home_orderer.cpp:131-152 | in any delivery order, deliveries in the global group and parcels taken are at most a fixed number per finished round |
| `OrdererWork.RestsOrGoesOn` | module/multi_home_orderer.cpp:64-152 | orderers that are not at rest have a delivery or a parcel to process, and processing it succeeds |
| `ForwarderSystem.OpenKeysCovered` | module/forwarder.cpp:87-251 | in every run each key whose master is unknown is covered, with its transaction's id, by a buffered request, a request or a reply on its way |
| `ForwarderSystem.ArrivedAsBrought` | module/forwarder.cpp:87-154 | the transactions on record, with their keys, are exactly those that the run's steps brought |
| `ForwarderSystem.LeavesOnce` | module/forwarder.cpp:87-251 | a transaction leaves at most once, complete, with its own keys, and is not pending any more |
| `ForwarderSystem.NoneStuck` | module/forwarder.cpp:87-251 | with nothing buffered or on its way no transaction is pending, and exactly those with keys have left |
| `ForwarderSystem.LeavesWithMasters` | module/forwarder.cpp:87-251 | if lookups agree on one table, a transaction leaves with the table's master for each of its keys |
| `ForwarderSystem.LeavesWithKind` | module/forwarder.cpp:87-251 | if lookups agree on one table, a transaction leaves as single-home at h exactly if the table names h for all its keys, and as multi-home exactly if it names different masters |
| `ForwarderSystem.UpdatedSpec` | module/forwarder.cpp:217-251 | a reply has the same effect on each pending transaction whatever the order of its ids |
| `Forwarders.Forwarder.ProcessForwardTxn` | module/forwarder.cpp:87-154 | state and transactions sent on are those of the specification; a timer is set for the first of a batch |
| `Forwarders.Forwarder.SendLookupMasterRequestBatch` | module/forwarder.cpp:156-172 | the requests with transactions go out and are cleared |
| `Forwarders.ProcessLookUpMasterRequest` | module/forwarder.cpp:174-202 | the reply holds the metadata of every key asked for that is local |
| `Forwarders.Forwarder.UpdateMasterInfo` | module/forwarder.cpp:217-251 | pending transactions and those sent on are those of the specification |
| `Forwarders.SetTransactionType` | common/proto_utils.cpp:53-92 | unknown exactly while a master is missing or there is no key; single-home at h exactly if there are keys and all are mastered by h; multi-home exactly if all masters are known and two differ |
| `Forwarders.PopulateInvolvedPartitions` | common/proto_utils.cpp:190-212 | exactly the partitions of the keys and exactly those of the written keys, each ascending |
| `TxnSplit.PopulateInvolvedRegions` | common/proto_utils.cpp:161-188 | the masters of the keys are listed in ascending order, once each, after what was listed before |
| `TxnSplit.GeneratePartitionedTxn` | common/proto_utils.cpp:114-159 | erasing keys in place gives the specified piece or nothing |
| `TxnSplit.PieceIs` | common/proto_utils.cpp:114-159 | for any kind of transaction, a partition has a piece exactly if one of its keys is mastered at the transaction's home; the piece has exactly the partition's keys, as often as listed; only a multi-home one has its regions changed, to exactly the masters of these keys, ascending; nothing else changes |
| `TxnSplit.SurvivorsAreMasters` | common/proto_utils.cpp:94-159 | the homes whose lock-only piece survives at a partition are exactly the masters of its keys; each survivor has exactly those keys and lists exactly those homes |
| `TxnSplit.EveryKeyLocked` | common/proto_utils.cpp:94-159 | every key is held, in its own partition and no other, by the piece whose home masters it |
| `Listings.AscendingUnique` | common/proto_utils.cpp:182-187 | an ascending list of regions is determined by its elements |
| `TxnMerge.MergeTransaction` | common/proto_utils.cpp:214-250 | the merged result and both errors are those of the specification |
| `TxnMerge.MergedAllSucceeds` | common/proto_utils.cpp:214-225 | merging a list of results throws exactly if two of them name different transactions or types |
| `TxnMerge.MergedAllAnswers` | common/proto_utils.cpp:214-250 | merging results that agree on shared keys: aborted exactly if one is, with the reason of the last aborted one, otherwise with the first one's status and reason; exactly the keys of the results before the first aborted one (of the first in any case), each once if no result lists one twice; and the union of regions, ascending once two are merged |
| `TxnMerge.AnswersAlike` | common/proto_utils.cpp:214-250 | two orders of the same results give the same verdict, keys and regions |
| `Servers.Server.AddSubTxn` | module/server.cpp:30-48 | one more result is counted and merged |
| `Servers.Server.NextTxnId` | module/server.cpp:109-110 | a client's request gets the next id, and its answer is awaited under it |
| `Servers.Server.ProcessFinishedSubtxn` | module/server.cpp:219-239 | the server's tables and answers are those of the specification |
| `Servers.AnsweredOnce` | module/server.cpp:219-319 | whenever clients ask and results come, a client gets exactly one answer once all announced results are in and none before; it is the merge of these results and lists the partitions they came from; ids under which nobody asked get none |
| `Servers.OrderIrrelevant` | module/server.cpp:30-48 | with one result per announced partition, the order of arrival does not change the answer |
| `HashSegment.Segment.constructor` | common/concurrent_hash_map.h:48-51 | a new segment stands for the empty map |
| `HashSegment.Segment.Get` | common/concurrent_hash_map.h:53-75 | a lookup gives what the plain map has |
| `HashSegment.Segment.InsertOrUpdate` | common/concurrent_hash_map.h:90-138 | the plain map is updated, the flag says whether the key was there, the size counts new keys only, and the buckets double exactly if the size reaches the limit |
| `HashSegment.Segment.Erase` | common/concurrent_hash_map.h:140-167 | the key leaves the plain map, the flag says whether it was there, and the size stays |
| `HashSegment.Segment.Rehash` | common/concurrent_hash_map.h:201-224 | twice as many buckets stand for the same map: no node is lost, doubled or misplaced |
| `HashSegment.Segment.GetKeyCount` | common/concurrent_hash_map.h:169-181 | the number of keys of the plain map, never above the size |
| `HashSegment.Segment.ForEach` | common/concurrent_hash_map.h:183-194 | every pair of the plain map is visited once |
| `HashSegment.GetIndex` | common/concurrent_hash_map.h:198 | the bucket is in range |
| `HashSegment.IndexIs` | common/concurrent_hash_map.h:198 | the bucket is the hash without its lowest 8 bits, modulo the number of buckets |
| `HashSegment.MoveOne` | common/concurrent_hash_map.h:211-219 | moving a node to the front of its new chain keeps what the two tables together stand for |
| `RwLatch.MutualExclusion` | common/rwlatch.h:45-91 | for any number of threads, a writer holds the latch alone and readers never exceed the limit |
| `RwLatch.NoWakeupLostIff` | common/rwlatch.h:45-91 | no thread sleeps, unnotified, on a condition that no longer holds, in any interleaving, if and only if there are at most limit + 1 threads |
| `RwLatch.LostWakeup` | common/rwlatch.h:68-91 | a run with more threads in which a reader sleeps on although there is room |
| `RwLatch.NeverStuckIff` | common/rwlatch.h:45-91 | in every interleaving nobody is left waiting at a latch that nobody holds or contends for, if and only if the limit is 1 or there are at most limit + 1 threads |
| `RwLatch.GetsIff` | common/rwlatch.h:45-80 | in every run a contending thread that goes on gets the latch, in the mode it asked for, exactly if no other thread is in its way: no writer has entered and there is room among the readers, or no other writer has entered and there is no reader |
| `RwLatch.UnlockFrees` | common/rwlatch.h:56-91 | only a holder unlocks, and is then done; other threads are at most woken |
| `RwLatch.SomeoneCanGet` | common/rwlatch.h:45-91 | in every run, where nobody holds the latch and somebody contends, some thread gets it by its next step |
| `RwLatch.SomeoneGets` | common/rwlatch.h:45-91 | bounded progress: where somebody contends, fewer steps of contending threads than there are threads pass before somebody holds the latch |
| `RwLatch.LeftBehind` | common/rwlatch.h:68-91 | for a limit of at least 2 and at least limit + 2 threads, a run after which everybody has gone and one reader sleeps on |
| `Ids.MachineRoundTrip` | common/types.h:26-45 | packing and unpacking machine ids undo each other |
| `Ids.MachineIdLayout` | common/types.h:26-29 | the region is in the highest 8 bits, the replica in the next 8, the partition in the lowest 16 |
| `Ids.TxnIdRoundTrip` | common/types.h:35-37 | the machine is always recovered, the counter if and only if it fits into 32 bits |
| `Ids.TxnIdLayout` | common/types.h:35-37 | the machine is in the lowest 32 bits and the counter, if it fits, in those above |
| `Ids.TxnIdsDistinct` | module/server.cpp:321-324 | ids of different machines or different counters that fit differ |
| `Ids.TxnIdsRepeat` | module/multi_home_orderer.h:42 | ids repeat when the counter has grown by 2^32 |
| `Ids.DecimalRoundTrip` | common/types.h:113 | reading a number's decimal notation back gives the number; there are no leading zeros |
| `Ids.KeyRegionInjective` | common/types.h:111-119 | a lock name is the key, a colon and the master; different pairs, also with colons in keys, never share one |

## Left out

- Sockets, brokers, pollers, serialization and clocks: links are queues or bags of values, timers are steps that may happen at any time.
- The scheduler, workers, lock managers, storage and execution engines, which come after the log.
- The batcher beyond what it sends for a finished batch: how it fills batches, and its optional replication delay, whose early return skips the remaining batches of a round.
- Several log managers on one machine, each for some of the home regions: they are one here, which is possible because the logs of different homes do not interact.
- Remaster transactions and the builds that support them.
- Routing in `Forwarder::Forward` (random partitions, latency-based timestamps, bypassing the orderer), and the exception for non-numeric keys.
- The server's checks on client requests, its rate limiter and its statistics; ids are counters here, packed ids are in `Ids`.
- Events, timestamps and log positions recorded for debugging in batches and transactions.
- Slots, positions and counters are unbounded numbers: 32-bit wrap-around of slots and positions is not modelled, except for packed ids in `Ids`.
- HashSegment.Segment.Rehash: chains are sequences, so that nodes are moved and not copied is not expressed; nor are the latch around each operation, the segments' lazy creation by compare-and-swap, and 64-bit overflow of the bucket count.
- HashSegment.Segment.InsertOrUpdate: the load limit is any function of the bucket count instead of a rounded floating-point product.
