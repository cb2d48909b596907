# Verified model of the streams client

This project models the hardest logic of the Kafka Streams client in `crates/client-streams` and
proves what that logic promises. `dafny verify dfyconfig.toml` checks all of it.

**The processor graph** (`Dispatch`, `StatelessDataflow`, `TreeDataflow`, `EdgeOrder`, `DepthFirst`,
`DataflowLimits`). A record is driven through a graph of processors by a first-in first-out
worklist. The model runs the worklist over nodes with arbitrary state, fan-out and failures. It is
proved to terminate on every acyclic graph, to be the sum over all paths when the nodes keep no
state, to keep the order of every edge on every graph, and, in a forest, to give each node the
history that depth-first recursion would give it.

**Cache flushing** (`CacheFlush`). One pass over the cached stores, in node order, flushes each store
and drains what it releases. No pass loses a change, and the model says exactly which wirings one
pass leaves clean.

**Punctuation** (`Punctuation`). Periodic callbacks with resynchronised next times, over whole runs
in which punctuators register and cancel others.

**The group heartbeat** (`Membership`, `Heartbeat`, `HeartbeatProofs`, `Coordinator`). The client's
side of the KIP-1071 streams group protocol against a broker that may refuse, fence, expire the
member, lose replies, and see a request twice.

**Barrier cuts** (`Bytes`, `Parsing`, `BarrierLayout`, `BarrierSize`, `BarrierReader`,
`BarrierEncode`, `BarrierWriter`, `BarrierRoundTrip`, `BarrierBytes`, `CutLog`, `CutRecords`,
`CutQueries`, `CutReader`). The binary layout of cut records, its decoder and encoder, and the reader
that keeps the complete cuts of a partitioned, compacted log up to date across failed reads.

**The stream builder** (`LogicalGraph`, `Lowering`, `Meaning`, `MeaningExact`, `Merging`,
`MergingAnywhere`, `Delivery`, `Cogroups`, `Names`). The logical graph, the pass that merges
repartition topics, lowering to a processor topology, what a topology means and delivers, and exactly
when merging preserves it.

**Serdes and windows** (`Varint`, `ChangedSerde`, `WindowedSerde`, `Windows`).

`Common` holds what several modules share.

## What turned out to be false

- The worklist and depth-first recursion do not agree from all seeds, even in a forest. They do, for
  all nodes, exactly when no seed lies below an earlier one (`DepthFirst.FifoIsDepthFirst`,
  `DataflowLimits.OrderIsNeeded`). That is so for the fires of punctuators and cache flushes, which
  seed the children of one node (`DepthFirst.FanOutInOrder`), and for records that enter at nodes
  with no other parent than sources (`DepthFirst.SourcesInOrder`). It is not when a source feeds a
  node and, behind it, another (`DataflowLimits.LateChildDiffers`), as where a stream is merged with
  a mapping of itself (`DataflowLimits.BranchDiffers`).
- A pass of cache flushing does not always leave every store clean. It does, for all nodes that keep
  to their write sets, exactly when no flush reaches a writer of a store that was flushed with it or
  before it (`CacheFlush.FlushLeavesClean`, `CacheFlush.UnsafeLeavesDirty`). What the builder makes of
  aggregates, tables and cogroups meets the condition (`CacheFlush.WrittenByOwnerIsSafe`,
  `CacheFlush.CogroupsAreSafe`). A user's processor that writes the store of an aggregate upstream of
  it does not (`CacheFlush.RecountStaysDirty`).
- Merging repartitions does not always preserve meaning. It does, for every input and every operator,
  exactly when each repartition topic keeps its origins: the outside topics and processors whose
  streams reach it, in order (`Merging.MergingPreservesMeaning`, `Merging.MergingChangesMeaning`). What
  outside topics receive is then the same, too (`Delivery.MergingKeepsDeliveries`), and is not where a
  node that is sent to one has other origins (`Delivery.MergingChangesDelivery`).
  Merging two repartitions of one topic never keeps them (`Cogroups.SharedMergeChanges`), as in a
  cogroup of a stream with itself: unmerged, its topic delivers every record twice
  (`Cogroups.PlainDoubles`, `Cogroups.OptimizedDoesNot`). Merging repartitions that have their topics
  to themselves does (`Merging.IsolatedIsAligned`), and so does merging those of two cogroups over
  the same streams, which share theirs (`Cogroups.TwinsKeepMeaning`). Where every topic keeps its
  feeders, the two topologies have the same solutions in graphs of any shape
  (`MergingAnywhere.AlignedCarriesOver`, `MergingAnywhere.AlignedCarriesBack`).
- The cuts above the greatest 64-bit epoch are all cuts, in a build whose arithmetic wraps. The
  query lists exactly the newer cuts unless the bound is greatest and something is held
  (`CutQueries.ListsTheNewer`).
- A length from 2^63 on does not survive the varint (`Varint.ReadsBack`); a windowed key whose
  window is not of the serde's size, up to 2^64, does not survive that serde
  (`WindowedSerde.TimeRoundTrip`).
- `windows_for` leaves the range of 64-bit integers at both ends of the clock
  (`Windows.WindowsFor`), and the next fire time of a schedule is above the present exactly below
  the end of the clock (`Punctuation.ResyncWindow`).
- A schedule whose fire fails is not resynchronised: it has fired and is due again at once, so the
  rate bound is one of successful passes (`Punctuation.Scheduler.Punctuate`).

## Model

| member | source | states |
|---|---|---|
| Dispatch.Forward | crates/client-streams/src/processor/api.rs:122-145 | forwarding a record appends one entry per child, in child order, behind what is pending |
| Dispatch.HaltedIsFinal | crates/client-streams/src/processor/graph.rs:138-179 | once the worklist is empty or a node failed, further turns change nothing, so a drain has one outcome |
| Dispatch.Graph.Drain | crates/client-streams/src/processor/graph.rs:138-179 | on every acyclic graph, with any node state and fan-out, the loop terminates. Its outcome is told call by call: the calls it made, in order, the first on the seeds and each in the world that the one before it left, their outputs in that order, and behind the pending entries every forward to every child; it succeeds exactly when all calls did and nothing is pending, and fails exactly when the last did not, keeping what that call changed and emitted. The child lists taken for the borrow are all put back, on the error path too |
| Dispatch.DrainIsChronicled | crates/client-streams/src/processor/graph.rs:138-179 | the same of every halted run of the worklist: nothing of a drain is lost, added, reordered or retried |
| Dispatch.FanOutDeals | crates/client-streams/src/processor/api.rs:122-145 | a series of forwards reaches every child with every record: record by record, and the children in their order |
| Dispatch.DrainHalts | crates/client-streams/src/processor/graph.rs:138-179 | on every acyclic graph, whatever the nodes do, some number of turns halts the worklist, and all that do lead to the same end |
| Dispatch.Seed | crates/client-streams/src/processor/graph.rs:121-128 | a record is read once per child of each source on its topic, in source and child order, and nothing is seeded when a reading fails |
| Dispatch.SeedsFailExactly | crates/client-streams/src/processor/graph.rs:118-128 | a record fails to enter exactly when some source on its topic that has a child cannot read it |
| Dispatch.SeedsOfOne | crates/client-streams/src/processor/graph.rs:121-128 | a source on the topic seeds one entry for each child, in order; one on another topic seeds nothing |
| Dispatch.SeedsConcat | crates/client-streams/src/processor/graph.rs:121-128 | sources seed one after the other |
| Dispatch.Graph.Pipe | crates/client-streams/src/processor/graph.rs:101-131 | a record raises the stream time whatever becomes of it; one that cannot be read fails before anything is processed, one of a topic without a source is ignored, and any other is drained from its seeds, as told call by call |
| StatelessDataflow.DrainIsPathSum | crates/client-streams/src/processor/graph.rs:138-179 | with stateless nodes the worklist halts after exactly as many deliveries as the recursion over all paths counts, and its outputs are, as a multiset, the sum over all paths |
| StatelessDataflow.DrainedIsPathSum | crates/client-streams/src/processor/graph.rs:138-179 | the same of what the drain method returns: it never fails and appends exactly the path sum |
| TreeDataflow.IterKeepsFifo | crates/client-streams/src/processor/graph.rs:138-179 | after every turn, what a node received and what is pending for it are, in order, its seeds and its parent's forwards over the parent's own history |
| EdgeOrder.EdgesKeepOrder | crates/client-streams/src/processor/graph.rs:138-179 | on every graph, nodes with several parents and cycles included, after every turn: the run is one whose records carry their senders, and what a node received and has pending from each parent is what that parent forwarded over its own history, in order, once for each time the child is listed |
| EdgeOrder.EdgesDeliver | crates/client-streams/src/processor/graph.rs:138-179 | on every acyclic graph the worklist ends with all of it delivered |
| EdgeOrder.StutterOnce | crates/client-streams/src/topology/builder.rs:1632-1641 | a child that is listed once is owed each record once |
| DepthFirst.FifoIsDepthFirst | crates/client-streams/src/processor/graph.rs:138-179 | where each node has one parent and its own state, and no seed lies below an earlier one, the worklist ends, and it and depth-first recursive forwarding leave every node with the same input sequence, the same state and the same outputs |
| DataflowLimits.OrderIsNeeded | crates/client-streams/src/processor/graph.rs:138-179 | conversely, in every forest, when a seed lies below an earlier one there are nodes under which the worklist ends and has given its node another input sequence |
| DataflowLimits.LateChildDiffers | crates/client-streams/src/topology/builder.rs:1651-1675 | so it is, with a single record, for every source one of whose children lies below an earlier child |
| DataflowLimits.BranchDiffers | crates/client-streams/src/dsl/kstream.rs:642-673 | and in particular for a stream merged with a mapping of itself |
| DepthFirst.FanOutInOrder | crates/client-streams/src/processor/graph.rs:183-261 | in every forest the seeds of a punctuator's fire and of a cache flush, the children of one node, are in such an order |
| DepthFirst.SourcesInOrder | crates/client-streams/src/processor/graph.rs:118-131 | and so are those of a record, where the children of sources have no other parent |
| DataflowLimits.WorklistSeedsFirst | crates/client-streams/src/processor/graph.rs:138-179 | the worklist delivers every node's seeds before anything forwarded to it |
| DataflowLimits.RecursionSeedsLate | crates/client-streams/src/processor/api.rs:122-145 | recursion delivers what an earlier seed leads to before a later seed below it |
| DepthFirst.DepthFirstBalanced | crates/client-streams/src/processor/api.rs:122-145 | depth-first recursion, too, delivers to each node exactly its seeds and its parent's forwards in order |
| DepthFirst.BalancedIsUnique | crates/client-streams/src/processor/graph.rs:138-179 | with nothing pending, that balance determines the input sequence of every node |
| CacheFlush.FlushLeavesClean | crates/client-streams/src/processor/graph.rs:231-261 | when no flush reaches a writer of a store flushed before it or at the same time, one successful pass leaves every cached store clean, whatever the nodes do within their write sets |
| CacheFlush.UnsafeLeavesDirty | crates/client-streams/src/processor/graph.rs:231-261 | conversely, for every wiring where some flush does, there are nodes that keep to their write sets and whose pass, from every state with dirty stores, ends with success and leaves a store dirty |
| CacheFlush.FlushEnds | crates/client-streams/src/processor/graph.rs:231-261 | on every acyclic graph a pass ends, and succeeds where no node fails |
| CacheFlush.WrittenByOwnerIsSafe | crates/client-streams/src/processor/graph.rs:231-261 | graphs whose children come after their parents and whose stores are written by no node after their owner, in particular by the owner alone, are wired safely |
| CacheFlush.CogroupsAreSafe | crates/client-streams/src/dsl/cogrouped.rs:418-504 | graphs with cogroups, whose store is owned by the first of the aggregates that write it and whose aggregates feed a merge node behind all of them, are wired safely, whatever feeds the aggregates |
| CacheFlush.RecountStaysDirty | crates/client-streams/src/processor/api.rs:147-155 | a processor that writes, by name, the store of an aggregate upstream of it leaves that store dirty after a successful pass |
| CacheFlush.CachedGraph.SortedOwners | crates/client-streams/src/processor/graph.rs:231-261 | the stores are visited in the order of their owning nodes, each once |
| CacheFlush.CachedGraph.FlushCaches | crates/client-streams/src/processor/graph.rs:231-261 | the method runs that pass. Store by store in flush order: all that the store held when its turn came goes, in order, to every child of its owner, the store alone is emptied, and exactly these entries are drained, call by call; the first drain that fails ends the pass. After a successful one in a safely wired graph no store is dirty |
| CacheFlush.FlushConserves | crates/client-streams/src/processor/graph.rs:231-261 | so it is with every pass: no change is lost, added or reordered on its way out of a store |
| Punctuation.ResyncWindow | crates/client-streams/src/processor/graph.rs:295-326 | a resynchronised next time is one interval after the old one, or after the present when that is a whole interval on, or the end of the clock; it is above the present exactly when the present is not the end of the clock, and at most one interval above it |
| Punctuation.RateBound | crates/client-streams/src/processor/graph.rs:295-326 | over any passes, the k-th fire is no earlier than the first due time plus k intervals, fires strictly advance, and three in a row span more than one interval |
| Punctuation.NextTimeBounds | crates/client-streams/src/processor/graph.rs:295-326 | what the fires so far say about the next due time |
| Punctuation.Scheduler.Register | crates/client-streams/src/processor/api.rs:276-314 | a new schedule is first due one interval after the present of its clock, saturating at the end of the clock |
| Punctuation.Scheduler.Fire | crates/client-streams/src/processor/graph.rs:183-221 | firing runs the punctuator in the world of the moment and leaves the world that it made; the schedules it registered follow the old ones in order, first due one interval after their clock, exactly those it cancelled are cancelled besides, and no other schedule's due time is touched |
| Punctuation.Scheduler.Turn | crates/client-streams/src/processor/graph.rs:303-323 | on its turn a schedule fires exactly when it is of the type, due and not cancelled by then |
| Punctuation.Scheduler.Punctuate | crates/client-streams/src/processor/graph.rs:295-326 | a pass fires each schedule of its type that was there at its start at most once, leaves cancelled ones out, resynchronises those that fired, and stops at a failed fire, whose schedule stays due; the fires run in schedule order, each in the world that the one before it left |
| Punctuation.Scheduler.PunctuateStreamTime | crates/client-streams/src/processor/graph.rs:266-279 | the stream clock never goes back, and the pass runs at its new value |
| Punctuation.Scheduler.PunctuateWallClock | crates/client-streams/src/processor/graph.rs:280-294 | the pass runs at the given wall-clock time |
| Punctuation.PassedIsAhead | crates/client-streams/src/processor/graph.rs:295-326 | after a successful pass every live schedule of its type is due above the present, and one that fired at most an interval above it |
| Punctuation.Scheduler.EveryScheduleKeepsRate | crates/client-streams/src/processor/graph.rs:295-326 | in every run of successful passes every schedule ever registered kept the rate bound |
| Membership.Resolve | crates/client-streams/src/membership/assignment.rs:12-39 | every task is resolved to every source topic of its subtopology paired with every partition of the task, in order; no tasks resolve to none |
| Membership.SourcesAt | crates/client-streams/src/membership/assignment.rs:12-39 | position i * topics + j of that list is topic j, partition i |
| Membership.ResolvedReads | crates/client-streams/src/membership/assignment.rs:12-39 | a resolved task keeps its name and partitions and reads exactly the source topics of its own subtopology at its own partitions |
| HeartbeatProofs.RunInSync | crates/client-streams/src/membership/coordinator.rs:228-306 | over every run with lost replies, errors, fences and duplicates, lists recorded as sent are the lists the broker holds, if it still knows the member |
| HeartbeatProofs.DeltaRefinesAlwaysSend | crates/client-streams/src/membership/coordinator.rs:273-306 | sending the lists only when they changed leads to the same client, broker and events as sending them always, over every run |
| HeartbeatProofs.AcceptedHeartbeatReports | crates/client-streams/src/membership/coordinator.rs:228-347 | after every accepted heartbeat at an epoch above zero the broker holds exactly the lists owned when it was sent, though the request may have carried none |
| HeartbeatProofs.SendIgnoresRepeat | crates/client-streams/src/membership/client.rs:129-144 | to a broker that has the lists, leaving them out or repeating them makes no difference, though the transport may deliver the request twice |
| HeartbeatProofs.NextRequestValid | crates/client-streams/src/membership/coordinator.rs:680-739 | exactly when Kafka's validation accepts the next heartbeat, and that an accepted one carries the topology just when it joins, three empty lists then, and all lists or none otherwise |
| HeartbeatProofs.LeaveValid | crates/client-streams/src/membership/coordinator.rs:160-170 | exactly when it accepts the leave |
| HeartbeatProofs.EveryRequestValid | crates/client-streams/src/membership/coordinator.rs:133-268 | every request of every run from the start, the first join, steady heartbeats, rejoins and the leave, passes that validation, for properly named members and adopted epochs that a member may echo |
| HeartbeatProofs.ConsumerStaysInformed | crates/client-streams/src/membership/coordinator.rs:354-403 | a consumer that folds the events always holds the last assignment, which is always the resolution of the owned lists |
| HeartbeatProofs.NeighboursDiffer | crates/client-streams/src/membership/coordinator.rs:382-403 | two assignment events in a row with no fence between them differ |
| HeartbeatProofs.RequestSays | crates/client-streams/src/membership/coordinator.rs:133-268 | what a heartbeat carries: the member's names and the adopted epoch always, the topology and three empty lists in a join, and otherwise the owned lists, unless they were the last ones sent |
| HeartbeatProofs.ResendsExactly | crates/client-streams/src/membership/client.rs:129-166 | a request goes out a second time exactly after error 15 or 16 or a failed send that may be retried, once, and only to a coordinator that was found |
| HeartbeatProofs.FencedExactly | crates/client-streams/src/membership/coordinator.rs:310-347 | a fenced event is raised exactly by the errors 110, 25 and 113; it clears epoch, lists and assignment, and the next request joins with the topology |
| HeartbeatProofs.ErrorKeeps | crates/client-streams/src/membership/coordinator.rs:310-347 | any other error and a lost reply keep the epoch, the lists and the assignment, raise nothing, and make the next heartbeat report the lists again |
| HeartbeatProofs.AcceptedAdopts | crates/client-streams/src/membership/coordinator.rs:310-403 | an accepted response gives its epoch, and each role that it names its tasks and their source partitions; other roles keep theirs, and the events are the statuses and then the assignment if it changed |
| HeartbeatProofs.StartAdopts | crates/client-streams/src/membership/client.rs:465-484 | and so does the first join, from nothing |
| HeartbeatProofs.LeaveLeaves | crates/client-streams/src/membership/coordinator.rs:160-207 | the last request is a leave at epoch -1 without lists and topology, and a broker that accepts it no longer has the member |
| Coordinator.CoordinatorState.constructor | crates/client-streams/src/membership/client.rs:473-484 | the state and the first events that an accepted join hands to the loop |
| Coordinator.CoordinatorState.ChangedTaskLists | crates/client-streams/src/membership/coordinator.rs:273-306 | the owned lists when they differ from those last sent, which they then are |
| Coordinator.CoordinatorState.AssignmentEvent | crates/client-streams/src/membership/coordinator.rs:382-403 | roles that a response omits keep their tasks, and an event is due exactly when the assignment changes |
| Coordinator.CoordinatorState.EmitResponse | crates/client-streams/src/membership/coordinator.rs:354-376 | the events of a response: the statuses, then a changed assignment |
| Coordinator.CoordinatorState.SendAndAdopt | crates/client-streams/src/membership/coordinator.rs:310-347 | what is adopted of a response, exactly those with error 0; that the member is to rejoin exactly on the errors 110, 25 and 113; and that any error and a lost reply adopt nothing |
| Coordinator.CoordinatorState.HeartbeatOnce | crates/client-streams/src/membership/coordinator.rs:228-268 | one heartbeat, a join at epoch zero and a steady one otherwise, with an outcome by the same error codes; unless it is accepted, the record of what was sent is forgotten, and all else is kept |
| Coordinator.CoordinatorState.ResetForRejoin | crates/client-streams/src/membership/coordinator.rs:209-220 | a fence clears the epoch, the lists and the assignment |
| Coordinator.CoordinatorState.RunLoop | crates/client-streams/src/membership/coordinator.rs:179-207 | every run of heartbeats with a final leave goes as in the protocol model, a fenced event included |
| Bytes.GetPut | crates/client-streams/src/barrier/cut.rs:295-312 | a big-endian signed integer that was written is read back |
| Bytes.PutGet | crates/client-streams/src/barrier/cut.rs:295-312 | and bytes that were read are written back |
| Bytes.NumberBytes | crates/client-streams/src/barrier/cut.rs:295-312 | byte i of a written integer is its base-256 digit of that weight, the greatest first, in two's complement |
| Parsing.PrefixFree | crates/client-streams/src/barrier/cut.rs:277-293 | a layout whose success depends only on the bytes it consumes is prefix-free |
| BarrierLayout.KeyPrefixFree | crates/client-streams/src/barrier/cut.rs:211-225 | every strict prefix of a decodable key is truncated, every proper extension has trailing bytes |
| BarrierLayout.ValuePrefixFree | crates/client-streams/src/barrier/cut.rs:229-256 | and so it is with cut values |
| BarrierLayout.CutOfKey | crates/client-streams/src/barrier/cut.rs:229-256 | a decoded cut carries the group and the epoch of its key |
| BarrierLayout.EpochFits | crates/client-streams/src/barrier/cut.rs:211-225 | a decoded epoch is a 64-bit integer |
| BarrierSize.EntriesBounded | crates/client-streams/src/barrier/cut.rs:333-376 | whatever counts a value declares, the offsets, topics and missing partitions it decodes to are paid for by its length: twelve bytes an offset, six each other |
| BarrierReader.Reader.Finish | crates/client-streams/src/barrier/cut.rs:277-285 | fails exactly when bytes remain |
| BarrierReader.Reader.Slice | crates/client-streams/src/barrier/cut.rs:287-293 | takes that many bytes or reports truncation |
| BarrierReader.Reader.Integer | crates/client-streams/src/barrier/cut.rs:295-312 | reads a signed integer of the given width |
| BarrierReader.Reader.String | crates/client-streams/src/barrier/cut.rs:314-331 | a length, which must not be negative, and so many bytes, which must be UTF-8 |
| BarrierReader.Reader.ArrayLength | crates/client-streams/src/barrier/cut.rs:338-350 | a count, which must not be negative |
| BarrierReader.Reader.PartitionOffset | crates/client-streams/src/barrier/cut.rs:358-361 | one partition and its offset, inserted over any earlier one |
| BarrierReader.Reader.PartitionOffsets | crates/client-streams/src/barrier/cut.rs:358-361 | the offsets of a topic, in a loop |
| BarrierReader.Reader.TopicOffsets | crates/client-streams/src/barrier/cut.rs:355-361 | a topic with its offsets, added to those the topic has |
| BarrierReader.Reader.TopicsOffsets | crates/client-streams/src/barrier/cut.rs:352-364 | so many topics, in a loop |
| BarrierReader.Reader.CutOffsets | crates/client-streams/src/barrier/cut.rs:352-364 | accepts what the layout of the offsets accepts, to the same position |
| BarrierReader.Reader.MissingPartition | crates/client-streams/src/barrier/cut.rs:369-373 | one missing partition |
| BarrierReader.Reader.MissingFrom | crates/client-streams/src/barrier/cut.rs:366-376 | so many missing partitions, in a loop |
| BarrierReader.Reader.MissingPartitions | crates/client-streams/src/barrier/cut.rs:366-376 | accepts what the layout of the missing partitions accepts |
| BarrierReader.ReadKey | crates/client-streams/src/barrier/cut.rs:211-225 | the cursor decodes a key as the frozen layout has it, with the same errors in the same order |
| BarrierReader.ReadStatus | crates/client-streams/src/barrier/cut.rs:83-92 | a status code other than the two known ones is malformed |
| BarrierReader.ReadCutValue | crates/client-streams/src/barrier/cut.rs:229-256 | and so it decodes a cut value |
| BarrierReader.ReadBarrierCut | crates/client-streams/src/barrier/cut.rs:196-208 | a record decodes to a cut, or to nothing when it is of another kind or a tombstone, and a malformed key is reported first |
| BarrierEncode.Expected | crates/client-streams/src/barrier/testing.rs:53-77 | the cut a decoder must produce: the last offset listed for each partition |
| BarrierEncode.InsertSorted | crates/client-streams/src/barrier/testing.rs:102-108 | grouping keeps the topics in byte order, each once |
| BarrierEncode.GroupedIsLatest | crates/client-streams/src/barrier/testing.rs:102-108 | regrouping the offsets by topic loses nothing: the groups decode to the last offset of each partition |
| BarrierWriter.WriteKey | crates/client-streams/src/barrier/testing.rs:86-93 | the writer appends the fields of a key |
| BarrierWriter.GroupByTopic | crates/client-streams/src/barrier/testing.rs:102-108 | and groups the offsets |
| BarrierWriter.WriteCutValue | crates/client-streams/src/barrier/testing.rs:101-129 | and appends the fields of a cut value |
| BarrierRoundTrip.RoundTrip | crates/client-streams/src/barrier/testing.rs:53-129 | decoding an encoded cut record yields exactly the expected cut, for any order of offsets and any duplicates |
| BarrierRoundTrip.KeyRoundTrip | crates/client-streams/src/barrier/testing.rs:86-98 | decoding an encoded key of any kind yields the key |
| BarrierRoundTrip.NoCut | crates/client-streams/src/barrier/cut.rs:196-208 | encoded records of other kinds and tombstones decode to no cut |
| BarrierRoundTrip.KeyWritesBack | crates/client-streams/src/barrier/cut.rs:211-225 | whatever decodes as a key is the encoding of that key, whose fields fit |
| BarrierRoundTrip.KeysCorrespond | crates/client-streams/src/barrier/cut.rs:211-225 | so keys are equal as bytes exactly when they are equal as keys, and a compacted log and the reader replace the same records |
| BarrierBytes.KeyBytes | crates/client-streams/src/barrier/testing.rs:80-98 | the key of a cut byte by byte: version 0, kind 2, the length and the bytes of the group, the epoch |
| BarrierBytes.ValueBytes | crates/client-streams/src/barrier/testing.rs:101-113 | the value: version 0, the two times, status 0 for complete and 1 for partial, the partitions |
| BarrierBytes.PartitionBytes | crates/client-streams/src/barrier/testing.rs:114-128 | one offset and one missing partition: counts of four bytes, texts behind their length, partition before offset, offsets before missing ones |
| CutReader.SlotsAreKeys | crates/client-streams/src/barrier/reader.rs:186-209 | cut records name the same group and epoch exactly when they have the same key |
| CutLog.ApplyWrites | crates/client-streams/src/barrier/reader.rs:186-215 | applying a record changes one epoch of one group at most: a complete cut is held, a partial cut or a tombstone is not |
| CutLog.ReplayDecides | crates/client-streams/src/barrier/reader.rs:186-215 | applying records in order leaves every key as the last record that writes it says |
| CutLog.RecordsAreGenuine | crates/client-streams/src/barrier/reader.rs:186-209 | whatever bytes a record holds, it makes only a complete cut held, at a 64-bit epoch, and it writes the cut its key names unless it is malformed |
| CutRecords.RecordsStore | crates/client-streams/src/barrier/reader.rs:186-215 | told from the bytes: an encoded cut makes its key hold exactly that cut if it is complete and nothing if not, a tombstone makes it hold nothing, and every other key keeps what it had |
| CutRecords.UpToDate | crates/client-streams/src/barrier/reader.rs:186-215 | after a log the key holds the cut that the last record of the key carries, if that is complete |
| CutRecords.NothingLeft | crates/client-streams/src/barrier/reader.rs:186-215 | and nothing if that record is a tombstone or the key has none |
| CutLog.RunAdvances | crates/client-streams/src/barrier/reader.rs:153-177 | reading again what compaction left of a run that starts at or below the position brings the cached cut up to the run's end, or a record of its key lies ahead |
| CutReader.BumpOfRun | crates/client-streams/src/barrier/reader.rs:165-172 | after what is left of a run the offset is just past its last record, and it has moved |
| CutReader.Reader.constructor | crates/client-streams/src/barrier/reader.rs:61-69 | a new reader knows nothing and is consistent with every log |
| CutReader.Reader.Accept | crates/client-streams/src/barrier/reader.rs:186-209 | a malformed record is rejected and changes nothing; any other is applied. A record that is the encoding of a cut, or a tombstone of one, is never rejected; the reader then holds exactly the cut if it is complete and nothing otherwise, and every other key keeps what it had |
| CutReader.Reader.AcceptValue | crates/client-streams/src/barrier/reader.rs:194-208 | a value that encodes a cut makes the key hold exactly that cut if it is complete and nothing if not; a missing or empty value makes it hold nothing; other keys keep what they had |
| CutReader.Reader.Forgets | crates/client-streams/src/barrier/reader.rs:211-215 | drops an epoch |
| CutReader.Reader.ApplyBatch | crates/client-streams/src/barrier/reader.rs:164-172 | a batch is applied up to its first malformed record, and the offset follows |
| CutReader.Reader.Pull | crates/client-streams/src/barrier/reader.rs:153-177 | one fetch: it ends the loop only at the end of what is visible, and keeps every cached cut either no older than the position or due to be written by a record ahead, even when it fails |
| CutReader.Reader.PullAll | crates/client-streams/src/barrier/reader.rs:152-178 | the loop terminates, and when it succeeds nothing that was visible, and no record of a key that met a gap, lies ahead |
| CutReader.Reader.ReadPartition | crates/client-streams/src/barrier/reader.rs:150-179 | one partition is read without touching what is known of the others; a failure does not lose the saved offset |
| CutReader.Reader.Refresh | crates/client-streams/src/barrier/reader.rs:140-181 | whenever a refresh succeeds, after whatever failures, the cached cuts are the last writers' among all records ever written below the saved offsets, which cover everything visible when it began, though compaction removes superseded records all the while |
| CutReader.SettledReflects | crates/client-streams/src/barrier/reader.rs:140-215 | then, told from the bytes, every key holds the complete cut that its last record carries, and nothing when that record carries a partial cut or is a tombstone |
| CutReader.OrderDoesNotMatter | crates/client-streams/src/barrier/reader.rs:147-180 | readers that got equally far hold the same cuts, in whatever order they read the partitions and however often they failed |
| CutReader.HeldIsNamed | crates/client-streams/src/barrier/reader.rs:186-215 | in every state, also after failures, only complete cuts are held, each under its own group and epoch |
| CutReader.Sort | crates/client-streams/src/barrier/reader.rs:143-144 | the discovered partitions are sorted and all kept |
| CutReader.Reader.LatestCompleteCut | crates/client-streams/src/barrier/reader.rs:80-92 | the held cut with the highest epoch, or none when none is held |
| CutReader.Reader.CompleteCutsAfter | crates/client-streams/src/barrier/reader.rs:101-115 | exactly the held cuts from the bound's successor on, strictly ascending |
| CutReader.Reader.CompleteCutAt | crates/client-streams/src/barrier/reader.rs:123-134 | the held cut of that epoch: the one that the last record of its key carries, if that is complete, and nothing after a tombstone |
| CutQueries.Newest | crates/client-streams/src/barrier/reader.rs:85-91 | the greatest epoch of a map |
| CutQueries.NewerThan | crates/client-streams/src/barrier/reader.rs:107-114 | the cuts of a map from an epoch on, in order |
| CutQueries.ListsTheNewer | crates/client-streams/src/barrier/reader.rs:107-114 | those are the cuts above the bound exactly when the bound is below the greatest integer or nothing is held |
| LogicalGraph.Graph.Add | crates/client-streams/src/dsl/graph.rs:102-119 | a node gets the next id, is appended to the children of each predecessor once for each time it lists it, and parents keep preceding their children |
| LogicalGraph.Graph.Attach | crates/client-streams/src/dsl/kgrouped.rs:631-648 | a node is given what lowering it adds, and the edges stay as they are |
| LogicalGraph.Graph.MergeRepartitionTopics | crates/client-streams/src/dsl/optimizer.rs:39-61 | each repartition that is not the first off its only predecessor becomes an alias of the first, and nothing else does |
| LogicalGraph.MergedIsFlat | crates/client-streams/src/dsl/optimizer.rs:51-60 | no keeper is aliased, and every keeper precedes its aliases |
| LogicalGraph.Graph.ReuseTableSourceTopics | crates/client-streams/src/dsl/optimizer.rs:86-97 | every table read from a topic is flagged, and nothing else changes |
| Lowering.Lower | crates/client-streams/src/dsl/lower.rs:44-68 | lowering completes exactly when everything it looks up was recorded before, and then yields each unaliased node's emission, wired to the handles of its predecessors, in order |
| Lowering.LowerNode | crates/client-streams/src/dsl/lower.rs:45-66 | one node: an alias inherits the keeper's handle and emits nothing |
| Lowering.AlwaysLowers | crates/client-streams/src/dsl/lower.rs:45-66 | a graph grown by adding nodes always lowers, plain and merged |
| Delivery.OutletsAre | crates/client-streams/src/dsl/kstream.rs:605-627 | the sinks that a lowered topology has on an outside topic are those of the nodes that write it, in node order, each off the handle of its node's predecessor |
| Meaning.SolutionIsMeaning | crates/client-streams/src/dsl/kgrouped.rs:623-648 | in every solution of a lowered topology's equations, plain or merged, every node's handle carries the node's flow in the logical graph, where a repartition passes on what all feeders of its topic send; topics may be shared |
| Meaning.PassesAreIndependent | crates/client-streams/src/dsl/builder.rs:543-575 | the two optimizer passes do not affect one another |
| MeaningExact.MeaningIsSolution | crates/client-streams/src/dsl/lower.rs:44-68 | the flow is itself a solution of the lowering, so there are such streams |
| Merging.MergingPreservesMeaning | crates/client-streams/src/dsl/optimizer.rs:39-61 | if every repartition keeps its origins, the plain and the optimized topology give every node's handle, so every input of every aggregate and sink, the same stream, on every input and for all operators |
| Merging.MergingChangesMeaning | crates/client-streams/src/dsl/optimizer.rs:39-61 | otherwise there are inputs and operators under which both topologies have solutions and differ at a repartition |
| Delivery.DeliversFlows | crates/client-streams/src/dsl/kstream.rs:605-627 | in every solution, plain or merged, an outside topic receives exactly the flows of the nodes that are sent to it, one for each sink, in node order |
| Delivery.MergingKeepsDeliveries | crates/client-streams/src/dsl/optimizer.rs:39-61 | where origins are kept, the plain and the optimized topology deliver the same to every outside topic, on every input and for all operators |
| Delivery.MergingChangesDelivery | crates/client-streams/src/dsl/optimizer.rs:39-61 | where a node that is sent to a topic has other origins after merging, the topic receives something else on some input |
| Merging.MergedIsRegular | crates/client-streams/src/dsl/optimizer.rs:39-61 | both results speak of what the optimizer produces from a built graph |
| Merging.SameStream | crates/client-streams/src/dsl/kgrouped.rs:623-648 | two nodes with the same origins carry the same stream on every input; so a repartition hands on what it is given if it has its predecessor's origins |
| Merging.OtherStream | crates/client-streams/src/dsl/kgrouped.rs:623-648 | and two nodes with different origins do not, on some input |
| Merging.AlignedKeepsOrigins | crates/client-streams/src/dsl/optimizer.rs:39-61 | origins are kept when each repartition's topic had the feeders that the topic it ends up with has, though others share it |
| Merging.IsolatedIsAligned | crates/client-streams/src/dsl/optimizer.rs:39-61 | which is so when the merged repartitions have their topics to themselves, whatever topics other repartitions share |
| MergingAnywhere.AlignedCarriesOver | crates/client-streams/src/dsl/optimizer.rs:39-61 | in graphs of any shape, streams that run through a topic back into themselves included, where topics keep their feeders every solution of the plain topology's equations solves the optimized ones, with the same stream at every handle |
| MergingAnywhere.AlignedCarriesBack | crates/client-streams/src/dsl/optimizer.rs:39-61 | and every solution of the optimized equations is one of the plain ones under the plain names |
| Delivery.AlignedDeliversAll | crates/client-streams/src/dsl/optimizer.rs:39-61 | there, too, whatever the plain topology can deliver to a topic the optimized one can |
| Delivery.AlignedDeliversOnly | crates/client-streams/src/dsl/optimizer.rs:39-61 | and nothing else |
| Cogroups.SharedMergeChanges | crates/client-streams/src/dsl/cogrouped.rs:440-446 | merging two repartitions of one topic always changes the origins, so the meaning, unless their predecessor has none |
| Cogroups.SelfCogroupChanges | crates/client-streams/src/dsl/cogrouped.rs:440-504 | a cogroup with two inputs off one key-changing processor, as it is built, is merged that way |
| Cogroups.PlainDoubles | crates/client-streams/src/dsl/cogrouped.rs:440-504 | unmerged, both its aggregates read every record of that processor twice |
| Cogroups.OptimizedDoesNot | crates/client-streams/src/dsl/cogrouped.rs:440-504 | merged, once |
| Cogroups.TwinsKeepMeaning | crates/client-streams/src/dsl/cogrouped.rs:440-504 | two cogroups over the same two key-changing processors, as they are built, are merged, though their repartitions share topics, and keep their meaning |
| Names.Builder.NewProcessorName | crates/client-streams/src/dsl/builder.rs:37-41 | a minted name differs from every name minted before, without a bound on their number |
| Names.NamesAreDistinct | crates/client-streams/src/dsl/names.rs:6-188 | since prefixes end in a dash, two names are equal exactly when prefix and index are |
| Names.PaddedIsNumber | crates/client-streams/src/dsl/builder.rs:37-41 | the zero-padded decimal of an index reads back as the index |
| Names.UndashedCollide | crates/client-streams/src/dsl/builder.rs:37-41 | without the dash two prefixes can mint one name: a prefix at index 10^10, and the prefix with a 1 at its end at index 0 |
| Varint.WriteVarint | crates/client-streams/src/processor/serde.rs:240-252 | writes the groups of the zigzagged length |
| Varint.ReadVarint | crates/client-streams/src/processor/serde.rs:257-278 | reads as the recursive scan does, with the same errors |
| Varint.Scan | crates/client-streams/src/processor/serde.rs:257-278 | a length takes at least one byte, at most ten, and never more than there are |
| Varint.ReadsBack | crates/client-streams/src/processor/serde.rs:240-278 | a written length is read back, with the number of bytes it took and whatever follows, exactly when it is below 2^63 |
| Varint.LengthBytes | crates/client-streams/src/processor/serde.rs:240-252 | a length below 2^63 is written as twice itself in the fewest bytes, seven bits each, the least significant first, with the top bit set on all but the last |
| ChangedSerde.Serialize | crates/client-streams/src/processor/serde.rs:311-346 | the wire form of a change, for every change with at least one side: the old value and 0, the new value and 1, or the doubled length of the new value as a varint, the new value, the old value and 2; when both are there the new one must be shorter than 2^63 |
| ChangedSerde.Deserialize | crates/client-streams/src/processor/serde.rs:348-390 | total on all bytes, with every slice in bounds; a change that is read has at least one side |
| ChangedSerde.RoundTrip | crates/client-streams/src/processor/serde.rs:311-390 | every change with at least one side is read back, for any lossless inner serde |
| WindowedSerde.SessionRoundTrip | crates/client-streams/src/dsl/windows.rs:282-308 | a session key is read back |
| WindowedSerde.SessionBytes | crates/client-streams/src/dsl/windows.rs:282-308 | behind the key come the end and then the start, eight big-endian bytes each |
| WindowedSerde.TimeBytes | crates/client-streams/src/dsl/windows.rs:335-365 | behind the key of a time window comes the start only |
| WindowedSerde.TimeRoundTrip | crates/client-streams/src/dsl/windows.rs:335-365 | a windowed key is read back exactly when its window has the serde's size up to 2^64, and exactly the size where start plus size is a 64-bit integer |
| Windows.WindowsFor | crates/client-streams/src/dsl/windows.rs:96-106 | exactly the non-negative multiples of the advance whose windows hold the timestamp, strictly ascending, or an overflow exactly when a sum leaves the 64-bit range |
| Windows.InRange | crates/client-streams/src/dsl/windows.rs:96-106 | no overflow from zero up to one advance below the greatest integer |
| Windows.TumblingIsOne | crates/client-streams/src/dsl/windows.rs:96-106 | a tumbling window gives exactly one start to every timestamp from zero on |

## Left out

- The async runtime, tickers, timeouts, mutexes and channels: a heartbeat is one step with a nondeterministic reply, and shutdown is a final leave.
- A heartbeat that shutdown interrupts in mid-flight, the retry loop before the first accepted join, and the task offset tracker, which stays local.
- Reordering of duplicated requests: the transport of the model resends a request before it sends another.
- A broker that forgets a member's lists while it keeps the member.
- The record context and the stream time that nodes can ask for.
- Stores, caches, changelogs and snapshots inside: a cached store is what it holds until it is flushed.
- How `instantiate` numbers nodes: that the graph is acyclic, or that children come after parents, is a hypothesis where it is used.
- Type erasure, downcasts, user closures: a node is a function of its state and the record.
- Retention of the cut topic, and the removal of a tombstone without a later record of its key: compaction removes a cut record only when a later one has its key.
- Fetchers that break their contract, by a batch with holes or one that ends at or below the requested offset: `Refresh` says nothing of them. A batch without records is taken to mean that nothing new is visible at or above the requested offset.
- CutReader.Reader.CompleteCutsAfter: models a build whose arithmetic wraps; one that traps on overflow ends the program at the greatest bound instead.
- `BarrierCut::offset`, `reached` and `partitions`, which are lookups.
- Encoding a record whose lengths do not fit their fields, which ends the writer.
- Partition counts and differing serdes of merged repartitions: a repartition passes records on unchanged.
- Interleaving in the meaning of a topology: the topics that one source reads and the feeders of one repartition topic are concatenated, and a processor with several parents sees their whole streams.
- Where reuse of a table's topic puts its changelog, copartition groups, and global tables.
- Names that users give to stores and processors.
- Window sizes and grace as floating-point times: they are whole milliseconds.
- WindowedSerde.TimeRoundTrip: models a build whose arithmetic wraps; one that traps on overflow ends the program where start plus size leaves the 64-bit range.
- In graphs where a stream runs through a repartition topic back into itself or a source reads a repartition topic, the equations may have no solution, or several: there only the kept feeders are shown to suffice, not what is necessary. Nodes that have nothing to lower.
- Hosts whose lengths have fewer than 64 bits.
