# Verified model of the distributed transaction pipeline

This project models two cores of the system and proves what they are for.

**Exactly-once processing under crashes.** A stage is a ring of peers. Each peer filters duplicates with a
`Deduplicator`, holds its acks in a `Checkpointer` until one atomic checkpoint covers them, counts its input with
`RingCompletion`, and, when its input is complete, emits its results and waits for the barrier token that collects
every peer's per-shard counts; the leader then sends one end-of-stream per downstream shard. The classes follow the
source method by method. `Ledger`, `ExactlyOnce`, `Barrier` and `Replay` are state machines whose steps are the single
effects (deliver, apply, save, ack, emit, forward, crash and restore, abort), so that a crash may fall between any two;
`FrozenEmission` does the same for the sends of one client's results. What one of them assumes another proves: the
number of identities published to a shard, which `ExactlyOnce` expects of the end-of-streams it receives, is what
`Barrier` sends (`Handover.EofsAreFair`); a peer reports the same counts however often a crash makes it report again,
which `Barrier` assumes (`FrozenEmission.ReportsAgree`), and they are what it sent (`Handover.HistoryIsStretches`); an
identity names one message, which `ExactlyOnce` assumes of its input (`Replay.OneStampOnePayload`); and a run of
`Barrier` that has come to rest goes on to close as `BarrierProgress` says (`BarrierCompletes.ClosesFromAnyState`).
`NodeCalls` ties the machine to the class: any history of the checkpointer's calls is one of `ExactlyOnce`'s runs
(`NodeCalls.CallsAreARun`). `Redelivery` has runs in which the crashes that these results are about do happen.

**UC4 as a transformation that preserves meaning.** Edges are grouped, sharded, spilled, re-united, pruned by degree,
tiled, counted, re-summed and thresholded by seven stages. Each stage is a class with a conservation invariant over
everything it has received, and a result predicate; `Uc4EndToEnd` joins them over arbitrary routing and shows that the
answer is the one of the reference program, which counts common intermediaries directly. `Uc4Pipeline.Answer` composes
the stages' own code, any number of peers per stage and any order of delivery.

Beside these: spill files through crashes (`Spill`), ring neighbours (`RingOrder`), flat shard accounting
(`FlatShards`), the gateway's round-robin (`Gateway`), the client's byte-range split (`ByteRange`) and the chunked
response stream (`Responses`).

Conventions. Nodes, paths, clients and payloads are abstract identities, hashes are arbitrary fixed functions, a queue
is the collection of its un-acknowledged deliveries, and a save is one assignment. Iterating a dictionary or a set
takes its elements in any order. Counts and lengths are unbounded integers, as in the source; a count that is sent or
written to a file is positive. Whether an append makes a file's write buffer reach the disk is an arbitrary function of
the file and its state, given to each store.

Where the code does less than its own comments say:

- `ring_completion.py` lines 16-17 say that a redelivered token only re-sets a peer's slot to the same value. A leader
  that was rolled back to PROCESSING can close the barrier with an empty record, and an older copy of the token then
  gets that empty record in the leader's slot (`LostSlot.LeaderSlotCanBeLost`). A slot is always the report or empty
  (`Barrier.SlotsAreExact`), all of them are the reports if and only if the leader never closes in that way
  (`SlotExactness.SlotsAreExactUnlessClosedEarly`), and no end-of-stream is ever affected (`Barrier.EofsAreExact`).
- `client.py` lines 29-32 say that a worker owns every line whose start falls in its range. A line starting on the
  range's first byte is parsed by nobody (`ByteRange.LineOnBoundIsLost`); every other line is parsed by one worker
  (`ByteRange.ParsedUnlessOnBound`, `ByteRange.AllWorkers`).
- `multi_shard_spill.py` lines 15-18 say that a restore truncates anything appended after the last checkpoint. A file
  without an open handle at the snapshot has no recorded length, so lines that had reached the disk stay and are there
  twice after the replay (`Spill.KeptLineIsDoubled`); `Spill.MultiShardSpill.CrashAndReplay` says exactly when. A
  restore leaves no handle open, so even a file it cut back is uncovered until it is appended to again;
  `persistent_spill.py` reopens its files and keeps them covered (`Spill.SecondSnapshot`,
  `Spill.MultiShardSpill.CrashRounds`, `Spill.PersistentSpill.CrashRounds`). UC4's set unions are right again once the
  lost messages are delivered again (`Uc4AggregateGraphs.UC4AggregateGraphs.MergeThroughCrash`,
  `Uc4Degree.UC4Degree.MergeThroughCrash`). Its counts are too high by what those lines count, so they are right if and
  only if every file had an open handle at the checkpoint or has not grown on the disk since
  (`Uc4CountPaths.UC4CountPaths.CountThroughCrash`, `Uc4AggregatePaths.UC4AggregatePaths.CountThroughCrash`): a path
  met four times can be sent on as met five times (`DoubleCount.FourBecomesFive`). The prune's file keeps such lines
  too (`Uc4Prune.UC4PruneMergeFn.MergeThroughCrash`), and a hub's tiles are then sent twice
  (`HubTwice.OneBecomesTwo`).
- `uc4_prune.py` lines 97-98 bound a tile by the threshold only while neither side of the hub outweighs the other by
  more than about the threshold (`Uc4Tiles.TilesFit`, `Uc4Tiles.TileOverThreshold`).

## Model

| member | source | states |
|---|---|---|
| Uc4EndToEnd.PipelineAnswers | scripts/gen_input_output.py:390-412 | For every edge list, batching, hash, peer count and delivery order, the accounts answered are the endpoints of exactly the pairs a != c with at least five distinct intermediaries |
| Uc4Pipeline.Answer | src/group_by/group_by_fns/uc4_compute_graph.py:12-36 | All the stages' own code composed, with any number of peers at each stage, routing by affinity, any order of delivery and arbitrary spill, split and chunk thresholds and write buffers: the answer is the reference answer |
| Uc4Graph.Oracle | scripts/gen_input_output.py:462-474 | The reference program returns exactly the endpoints of the qualifying pairs |
| Uc4Graph.BuildAdjacency | scripts/gen_input_output.py:463-467 | One pass over the edges gives every node its full predecessor and successor sets |
| Uc4Graph.CountPairs | scripts/gen_input_output.py:380-401 | Batched insertion counts every pair (a, c), a != c, once per intermediary |
| Uc4Graph.FlushPairs | scripts/gen_input_output.py:380-388 | A flush adds exactly the multiplicity of each pair in the batch |
| Uc4Graph.CarriersAreIntermediaries | scripts/gen_input_output.py:390-398 | The nodes carrying a pair in the full adjacency graph are its intermediaries |
| Uc4Graph.AnswerIsUnique | scripts/gen_input_output.py:408-412 | The reference meaning determines the account set |
| Uc4GroupBy.GroupBy | src/group_by/group_by_fns/uc4_compute_graph.py:12-36 | The partial graphs of a batch hold every edge in both directions and nothing else; each node of the batch is in exactly one message, that of its own affinity |
| Uc4GroupBy.EdgeAdded | src/group_by/group_by_fns/uc4_compute_graph.py:15-20 | A transaction adds one predecessor and one successor, a self-loop both to the same node |
| Uc4GroupBy.SpreadOfRouted | src/group_by/group_by_fns/uc4_compute_graph.py:24-36 | Messages in which each node of the graph occurs once, as the graph has it, lose no neighbour |
| NodeRouting.RouteNodes | src/aggregate/aggregate_fns/uc4_aggregate_graph.py:62-71 | Grouping by affinity puts every node in exactly one message, that of its own hash |
| GraphLedger.GraphLedger.SpillToDisk | src/aggregate/aggregate_fns/uc4_aggregate_graph.py:94-110 | Moving a dictionary to the spill files changes nothing held for any client or node |
| GraphLedger.GraphLedger.ReadLines | src/aggregate/aggregate_fns/uc4_aggregate_graph.py:57-60 | A shard file holds everything about its own nodes and nothing about others |
| GraphLedger.GraphLedger.SnapshotState | src/aggregate/aggregate_fns/uc4_aggregate_graph.py:81-84 | A checkpoint empties memory into the files and loses nothing |
| GraphLedger.GraphLedger.SnapshotAndRestart | src/aggregate/aggregate_fns/uc4_aggregate_graph.py:81-89 | Snapshot, death of the process and restore give back everything held for every client and node |
| GraphLedger.GraphLedger.CrashAndRestore | src/aggregate/aggregate_fns/uc4_aggregate_graph.py:86-89 | A death any time after the snapshot gives back what was held then, and besides it exactly what lines kept in uncovered files hold, which is nothing when every file had an open handle or did not grow |
| Uc4AggregateGraphs.UC4AggregateGraphs.Aggregate | src/aggregate/aggregate_fns/uc4_aggregate_graph.py:41-51 | Memory and disk together stay the union of the partial graphs received |
| Uc4AggregateGraphs.UC4AggregateGraphs.GetResult | src/aggregate/aggregate_fns/uc4_aggregate_graph.py:53-74 | Every node with a neighbour is emitted once, with its whole neighbourhood, under its own affinity |
| Uc4AggregateGraphs.UC4AggregateGraphs.Discard | src/aggregate/aggregate_fns/uc4_aggregate_graph.py:76-79 | An abort leaves nothing of the client and everything of the others |
| Uc4AggregateGraphs.UC4AggregateGraphs.MergeThroughCrash | src/aggregate/aggregate_fns/uc4_aggregate_graph.py:81-89 | Through checkpoint, any lost messages, crash, restore and any replay, the sets are those of what was received joined with those of the kept lines; right if and only if these hold nothing else, so when every file was open at the checkpoint or did not grow on the disk, and whenever the lost messages come again |
| Uc4EndToEnd.WholeAtOwner | src/group_by/ring_group_by.py:46-53 | A node's partial neighbour sets all reach one peer of a fleet, which then holds the union of them |
| Uc4EndToEnd.GraphBranch | src/aggregate/aggregate_fns/uc4_aggregate_graph.py:53-74 | The graph aggregators together emit every relevant node once with its true neighbour sets |
| Uc4EndToEnd.HitsAreCarriers | src/aggregate/aggregate_fns/uc4_count_paths.py:42-52 | When no relevant node is sent twice, counting triples counts distinct intermediaries |
| Uc4Degree.UpdateCapped | src/aggregate/aggregate_fns/uc4_degree.py:30-35 | A capped update stays inside the union, reaches five when the union does, and never exceeds five |
| Uc4Degree.CappedStep | src/aggregate/aggregate_fns/uc4_degree.py:44-55 | A capped update of the in-memory part keeps memory and disk together exact up to the threshold |
| Uc4Degree.CappedMerge | src/aggregate/aggregate_fns/uc4_degree.py:63-67 | A capped merge of already capped partials is capped for the union of the full sets |
| Uc4Degree.CappedDecides | src/aggregate/aggregate_fns/uc4_degree.py:69-70 | A capped set has five elements exactly when the true set has |
| Uc4Degree.UC4Degree.Aggregate | src/aggregate/aggregate_fns/uc4_degree.py:44-55 | Through any updates and spills every bucket is a subset of the true neighbour set of size at least min(5, degree), at most five in memory |
| Uc4Degree.UC4Degree.GetResult | src/aggregate/aggregate_fns/uc4_degree.py:57-72 | hi_out and hi_in are exactly the nodes of true out- and in-degree at least five |
| Uc4Degree.UC4Degree.MergeThroughCrash | src/aggregate/aggregate_fns/uc4_degree.py:79-87 | The same for the capped buckets |
| Uc4EndToEnd.DegreeBranch | src/aggregate/aggregate_fns/uc4_degree.py:69-72 | Broadcast to every prune peer, the high-degree sets are those of the whole graph |
| Uc4EndToEnd.PruningPreservesAnswer | src/merge/merge_fns/uc4_prune.py:50-53 | Pruning raises no count, leaves every path with five intermediaries its whole count, and only ever takes from paths with fewer |
| Uc4Prune.UC4PruneMergeFn.Left | src/merge/merge_fns/uc4_prune.py:34-36 | The high-degree sets received are united |
| Uc4Prune.UC4PruneMergeFn.Right | src/merge/merge_fns/uc4_prune.py:38-40 | The spill file says the same as the graph messages it was written from and the lines crashes left in it |
| Uc4Prune.UC4PruneMergeFn.GetResult | src/merge/merge_fns/uc4_prune.py:42-65 | No count is raised, a path not kept loses its whole count, and a kept path loses nothing when no node arrived twice; every line of a hub is sent, also one left by a crash; a message that is no tile has fewer neighbours than the chunk size and one node that is no hub |
| Uc4Prune.UC4PruneMergeFn.MergeThroughCrash | src/merge/merge_fns/uc4_prune.py:72-88 | Through checkpoint, any lost messages, crash, restore and any replay the sets are right and the file has exactly the kept lines besides; none is kept if and only if the file was open at the checkpoint or did not grow on the disk; the file is right if and only if no kept line has neighbours on both sides |
| HubTwice.OneBecomesTwo | src/merge/merge_fns/uc4_prune.py:54-56 | With any thresholds there is a run through one crash in which a path through one intermediary is sent as passing two |
| Uc4Prune.BatchWeight | src/merge/merge_fns/uc4_prune.py:57-62 | An entry overwritten in a batch never adds more than its pairs, and a new one adds exactly them |
| Uc4Prune.SplitHits | src/merge/merge_fns/uc4_prune.py:54-56 | The tiles of a hub count every pair as the whole hub would |
| Uc4Tiles.SaltedTiles | src/merge/merge_fns/uc4_prune.py:93-106 | Every pair of a split hub lies in exactly one tile, for all set sizes; the first tile has the chunk dimensions |
| Uc4Tiles.FloorRoot | src/merge/merge_fns/uc4_prune.py:97-98 | The integer part of the square root of a ratio |
| Uc4Tiles.TilesFit | src/merge/merge_fns/uc4_prune.py:97-106 | All tiles are within the threshold if and only if neither side outweighs the other by more than about the threshold |
| Uc4Tiles.TilesWithinThreshold | src/merge/merge_fns/uc4_prune.py:97-98 | The same condition for the product of the chunk sizes |
| Uc4Tiles.TileOverThreshold | src/merge/merge_fns/uc4_prune.py:97-98 | One predecessor and 300000 successors break the bound at the shipped threshold |
| PathLedger.PathLedger.SpillToDisk | src/aggregate/aggregate_fns/uc4_count_paths.py:98-112 | Moving the counting dictionary to disk changes no count |
| PathLedger.PathLedger.SumShard | src/aggregate/aggregate_fns/uc4_count_paths.py:64-68 | Re-summing a shard file gives exactly the full counts of its own paths |
| PathLedger.PathLedger.SnapshotAndRestart | src/aggregate/aggregate_fns/uc4_count_paths.py:85-93 | Snapshot, death of the process and restore give back every count held |
| PathLedger.PathLedger.CrashAndRestore | src/aggregate/aggregate_fns/uc4_count_paths.py:91-93 | A death any time after the snapshot gives back every count held then, plus exactly what lines kept in uncovered files count; that is nothing for every path if and only if every file had an open handle or did not grow on the disk |
| Uc4CountPaths.UC4CountPaths.Aggregate | src/aggregate/aggregate_fns/uc4_count_paths.py:38-58 | Memory plus disk stays the number of (node, predecessor, successor) triples processed with a != c |
| Uc4CountPaths.UC4CountPaths.CountNode | src/aggregate/aggregate_fns/uc4_count_paths.py:42-55 | Also across the spill in the middle of a hub that replaces the live dictionary, which never holds more than the threshold, or what it had, and the pairs of one predecessor |
| Uc4CountPaths.UC4CountPaths.GetResult | src/aggregate/aggregate_fns/uc4_count_paths.py:60-79 | Every path is emitted in one message with its full count, under its own affinity |
| Uc4CountPaths.UC4CountPaths.CountThroughCrash | src/aggregate/aggregate_fns/uc4_count_paths.py:85-93 | Through checkpoint, any lost messages, crash, restore and any replay every count is too high by exactly what the kept lines count, at most the lost triples; all counts are right if and only if every file had an open handle at the checkpoint or did not grow on the disk before the crash |
| Uc4AggregatePaths.UC4AggregatePaths.Aggregate | src/aggregate/aggregate_fns/uc4_aggregate_paths.py:37-46 | Memory plus disk stays the total received for every path |
| Uc4AggregatePaths.UC4AggregatePaths.GetResult | src/aggregate/aggregate_fns/uc4_aggregate_paths.py:48-66 | Exactly the paths whose counts add up to five or more are emitted, once, with their totals; after a crash, those that are held at five or more |
| Uc4AggregatePaths.UC4AggregatePaths.CountThroughCrash | src/aggregate/aggregate_fns/uc4_aggregate_paths.py:72-80 | The same for the totals, with the same condition |
| DoubleCount.FourBecomesFive | src/aggregate/aggregate_fns/uc4_aggregate_paths.py:58-66 | With any spill threshold there is a run through one crash in which a path counted four times is emitted with the count five |
| Uc4AggregatePaths.EmittedKeys | src/aggregate/aggregate_fns/uc4_aggregate_paths.py:58-64 | A path is among the emitted keys if and only if its total reaches the threshold |
| Uc4EndToEnd.PathCountAtOwner | src/aggregate/aggregate_fns/uc4_count_paths.py:70-77 | All partial counts of a path reach one aggregator, which then holds its whole count |
| Uc4EndToEnd.MergeBranch | src/merge/merge_fns/uc4_prune.py:42-65 | Together the prune peers emit every kept path once per intermediary and no other path |
| Uc4Join.UC4Join.Join | src/join/join_fns/uc4_join.py:21-25 | The dictionary holds exactly the paths received |
| Uc4Join.UC4Join.GetResponse | src/join/join_fns/uc4_join.py:27-34 | The accounts are both endpoints of every path received |
| Spill.MultiShardSpill.Append | src/common/checkpoint/multi_shard_spill.py:33-39 | An append adds one line to one file; any number of whole lines may have reached the disk |
| Spill.MultiShardSpill.Snapshot | src/common/checkpoint/multi_shard_spill.py:91-99 | Flushes every open handle and records exactly the lengths of the files that have one |
| Spill.MultiShardSpill.Restore | src/common/checkpoint/multi_shard_spill.py:101-108 | Recorded files are cut back to their length, others are left as they are, no handle is reopened |
| Spill.MultiShardSpill.CrashAndReplay | src/common/checkpoint/multi_shard_spill.py:91-108 | A file keeps lost lines if and only if it had no open handle at the snapshot and some had reached the disk; apart from those every file ends as in a crash-free run |
| Spill.MultiShardSpill.CrashRounds | src/common/checkpoint/multi_shard_spill.py:91-108 | Over any number of crashes a file is covered by a snapshot only if the appends since the last restore touched it |
| Spill.KeptLineIsDoubled | src/common/checkpoint/multi_shard_spill.py:101-108 | A file closed at the snapshot: a lost line that was flushed is there twice after the replay |
| Spill.SecondSnapshot | src/common/checkpoint/persistent_spill.py:120-128 | Restore, snapshot, append, crash: the line is there twice where restore leaves the file closed, once where it reopens it |
| Spill.MultiShardSpill.Restart | src/common/checkpoint/multi_shard_spill.py:91-108 | A death right after a snapshot and a restore from it lose no line of any file |
| Spill.PersistentSpill.Restore | src/common/checkpoint/persistent_spill.py:120-128 | Recorded files are cut back and opened for appending again |
| Spill.PersistentSpill.CrashAndReplay | src/common/checkpoint/persistent_spill.py:113-128 | Likewise, and a file with an open handle at the snapshot has one again after the restore |
| Spill.PersistentSpill.CrashRounds | src/common/checkpoint/persistent_spill.py:113-128 | Over any number of crashes a file covered by one snapshot stays covered by every later one |
| Spill.FileAfterCrash | src/common/checkpoint/multi_shard_spill.py:101-108 | The content of one file through snapshot, lost appends, crash, restore and replay, and exactly when it keeps a lost line |
| Deduplicator.Deduplicator.IsDuplicate | src/common/checkpoint/deduplicator.py:19-24 | Answers exactly membership in the set of recorded positive numbers |
| Deduplicator.Deduplicator.Record | src/common/checkpoint/deduplicator.py:26-37 | Adds exactly the number to the set and keeps the representation canonical |
| Deduplicator.Deduplicator.Drain | src/common/checkpoint/deduplicator.py:34-36 | The drain loop ends, keeps the set and leaves a gap after the watermark |
| Deduplicator.CanonicalForm | src/common/checkpoint/deduplicator.py:12-17 | The set of recorded numbers determines watermark and ahead-set |
| Deduplicator.OrderDoesNotMatter | src/common/checkpoint/deduplicator.py:39-43 | The same identities in any order with any repetition give the same snapshot |
| Deduplicator.Deduplicator.Restore | src/common/checkpoint/deduplicator.py:45-50 | Restoring a snapshot gives back the table it was taken from |
| Checkpointer.Checkpointer.constructor | src/common/checkpoint/checkpointer.py:34-53 | checkpoint_every is at least one; a fresh node holds nothing |
| Checkpointer.Checkpointer.HandleData | src/common/checkpoint/checkpointer.py:85-102 | Aborted or duplicate: acknowledged at once and nothing else changes; otherwise the business step is taken, the identity recorded and the ack held, and when that fills the batch all is saved and every held delivery acknowledged; live and saved state stay the folds of exactly their own events |
| Checkpointer.Checkpointer.CheckpointAndFlush | src/common/checkpoint/checkpointer.py:108-127 | When dirty or forced the state and the tombstones are in the store; nothing is held and every held delivery is acknowledged |
| Checkpointer.Checkpointer.AckPending | src/common/checkpoint/checkpointer.py:125-127 | After each single ack nothing published is lost |
| Checkpointer.Checkpointer.MarkAborted | src/common/checkpoint/checkpointer.py:80-83 | Tombstones the client and marks the node dirty |
| Checkpointer.Checkpointer.Restart | src/common/checkpoint/checkpointer.py:55-74 | A restart is exactly the last checkpoint, or a fresh node without one |
| Checkpointer.Checkpointer.OnEof | src/common/comms/eof_handler/ring_node.py:133-141 | The node starts to emit with everything applied, the end-of-stream included, durable and nothing held; the report that follows is durable when the route ends |
| Checkpointer.Checkpointer.OnAbort | src/common/comms/eof_handler/ring_node.py:112-119 | The tombstone is durable before any later message of the client is acknowledged unseen |
| Ledger.HandleDataDoes | src/common/checkpoint/checkpointer.py:85-102 | A fresh delivery of a live client is applied last, recorded if stamped, and held, or with a full batch saved and acknowledged with the others; any other is acknowledged and changes nothing |
| NodeCalls.HandleDataIsPath | src/common/checkpoint/checkpointer.py:85-102 | One call is a number of the machine's single effects |
| NodeCalls.CallsAreARun | src/common/checkpoint/checkpointer.py:55-127 | Any history of data, control and abort calls and restarts is a run of the machine, and between calls fewer than checkpoint_every acks are held and all of them are for something to save |
| NodeCalls.CallsAreExactlyOnce | src/common/comms/eof_handler/ring_completion.py:103-107 | After any history of calls a live client is complete if and only if it was not emitted, its end-of-streams are in and exactly what was published has been applied |
| Ledger.HandleDataIsSafe | src/common/checkpoint/checkpointer.py:85-102 | Between calls: pending acks imply dirty, fewer than checkpoint_every are pending, and nothing published is lost |
| Ledger.ApplyIsSafe | src/common/checkpoint/checkpointer.py:95-98 | Applying keeps every identity durable or held and none applied twice |
| Ledger.SaveIsSafe | src/common/checkpoint/checkpointer.py:109-121 | A save loses nothing |
| Ledger.AckFirstIsSafe | src/common/checkpoint/checkpointer.py:125-126 | An ack after the save releases only what is durable |
| Ledger.AckAllIsSafe | src/common/checkpoint/checkpointer.py:125-127 | The whole ack loop releases exactly the held deliveries |
| Ledger.ForgetIsSafe | src/common/checkpoint/checkpointer.py:87-93 | A duplicate may be acknowledged at once even while its covering delivery is still held |
| Ledger.FlushIsSafe | src/common/checkpoint/checkpointer.py:104-127 | The exact effect of a flush |
| Ledger.CrashIsSafe | src/common/checkpoint/checkpointer.py:55-74 | Whatever a crash destroys, the broker still holds |
| ExactlyOnce.EmitIsExactlyOnce | src/common/comms/eof_handler/ring_completion.py:83-107 | In every reachable state a live client is complete if and only if it was not emitted, every side's end-of-stream has been handled and exactly the identities published to its shard have been applied, each once; for a merge, of both sides |
| ExactlyOnce.LastMessageAsks | src/common/comms/eof_handler/ring_completion.py:83-107 | In any run a data message asks for the results exactly when it completes what was published to a client not emitted whose end-of-streams are in |
| ExactlyOnce.LastEofAsks | src/common/comms/eof_handler/ring_completion.py:96-107 | In any run the end-of-stream that makes the count known asks for the results exactly when everything published has been applied |
| ExactlyOnce.ExpectedIs | src/merge/ring_merge.py:132-136 | Over any fair log a live client expects the sum of what its sides announced once all have, zero included, and nothing is known before |
| ExactlyOnce.CompleteHasEverything | src/common/comms/eof_handler/ring_completion.py:103-107 | received reaches expected if and only if the applied identities are all the published ones |
| ExactlyOnce.NothingPublishedIsLost | src/common/checkpoint/checkpointer.py:85-127 | At every point, between save and ack included, a published message is durable or will be delivered again or its client was durably aborted |
| ExactlyOnce.QuietMeansComplete | src/common/comms/eof_handler/ring_node.py:67-75 | With everything published, the end-of-streams durable and nothing outstanding, a restart has a record that expects the published number and has received it |
| ExactlyOnce.RestartAsks | src/common/comms/eof_handler/ring_node.py:67-75 | In that case restore and recheck ask for the client's results if and only if it was not emitted before |
| ExactlyOnce.LogAgrees | src/common/comms/eof_handler/ring_completion.py:83-107 | received counts the client's applied messages and expected is the sum over the sides |
| RingMerge.RingMerge.OnLeftEof | src/merge/ring_merge.py:105-107 | The left count is remembered; with the right one known too, zero or not, a live client expects their sum and is asked for exactly when that has been received |
| RingMerge.RingMerge.OnRightEof | src/merge/ring_merge.py:128-130 | Likewise for the right count |
| RingMerge.RingMerge.MaybeComplete | src/merge/ring_merge.py:132-136 | The combined expected count is the sum of both sides |
| RingMerge.RingMerge.Discard | src/merge/ring_merge.py:118-120 | An abort forgets both counts and the record, and tombstones the client |
| RingCompletion.RingCompletion.constructor | src/common/comms/eof_handler/ring_completion.py:71-78 | The leader is the smallest id; the size counts the node itself |
| RingCompletion.RingCompletion.Data | src/common/comms/eof_handler/ring_completion.py:83-87 | A unique message of a live client is counted once and its results are asked for exactly when its input is complete and not yet emitted; a tombstoned client changes nothing |
| RingCompletion.RingCompletion.UpstreamEof | src/common/comms/eof_handler/ring_completion.py:96-101 | The expected count is remembered and results are asked for on the same condition |
| RingCompletion.RingCompletion.Recheck | src/common/comms/eof_handler/ring_completion.py:109-113 | Asks for each complete client exactly once and for no other |
| RingCompletion.RingCompletion.Report | src/common/comms/eof_handler/ring_completion.py:123-137 | A client moves past PROCESSING once, with the counts reported; only the leader starts a token |
| RingCompletion.RingCompletion.Receive | src/common/comms/eof_handler/ring_completion.py:139-146 | Only a peer past PROCESSING writes its slot, with what it reported; a tombstoned client's token dies |
| RingCompletion.RingCompletion.Step | src/common/comms/eof_handler/ring_completion.py:148-162 | A token is forwarded until it is full and back at its origin, which closes the client once with the summed counts |
| RingCompletion.RingCompletion.SumShards | src/common/comms/eof_handler/ring_completion.py:158-161 | The summing loops compute, for every shard, the sum over all slots |
| RingCompletion.RingCompletion.Abandon | src/common/comms/eof_handler/ring_completion.py:89-94 | The client's record is gone and its tombstone there; every other record is as it was |
| Tombstones.AbortedStaysSilent | src/common/comms/eof_handler/ring_node.py:112-119 | In any run of the cluster, from its abort of a client until it crashes a peer has the tombstone and neither a record nor a task of the client, and sends nothing of it |
| Tombstones.AbortedAsksForNothing | src/common/comms/eof_handler/ring_completion.py:83-101 | Any message, end-of-stream or token of the client that reaches it then changes nothing, asks for nothing and is not forwarded |
| Tombstones.AbortedForGood | src/common/comms/eof_handler/ring_node.py:112-119 | Once the abort is saved the same holds through any crashes |
| Tombstones.AbortEndsTokens | src/common/comms/eof_handler/ring_completion.py:139-141 | In a cluster at rest after the abort, every token of the client is gone within N deliveries |
| Common.SumOverRemove | src/common/comms/eof_handler/ring_completion.py:159-161 | The order in which slots are summed does not matter |
| Barrier.EofsAreExact | src/common/comms/eof_handler/ring_completion.py:148-162 | Over whole runs with duplicated tokens, rollbacks and aborts, every end-of-stream carries the exact per-shard sum over all peers, all of which had published |
| Barrier.ClosedAtMostOncePerLife | src/common/comms/eof_handler/ring_completion.py:154-157 | A crash-free leader closes a client at most once; each crash allows one more |
| Barrier.SlotsAreExact | src/common/comms/eof_handler/ring_completion.py:139-146 | In any run a slot in flight was written after its peer published and is its report or empty; only the leader's can be empty instead of the report, and only once it has durably closed the client |
| SlotExactness.SlotsAreExactUnlessClosedEarly | src/common/comms/eof_handler/ring_completion.py:139-157 | Over any run every record past PROCESSING and every slot is its peer's report if and only if the leader never closes the client while still PROCESSING, or has nothing to report |
| SlotExactness.ClosingKeepsTheReport | src/common/comms/eof_handler/ring_completion.py:148-157 | When a token closes the client in any run, the leader's record has its report if and only if the leader had emitted by then or has nothing to report |
| SlotExactness.SlotWrittenIsTheRecord | src/common/comms/eof_handler/ring_completion.py:139-146 | In any run a PROCESSING peer passes the token on as it came; a slot written by any other is right if and only if it is not that of a leader closed with nothing remembered |
| SlotExactness.ClosingEarlyTakesACrash | src/common/comms/eof_handler/ring_completion.py:139-157 | A leader that never crashed never closes early |
| Handover.EofsAreFair | src/common/comms/eof_handler/ring_completion.py:148-162 | Over any run of a stage, every end-of-stream carries the number of identities its peers published to the shard: what the next stage's completion relies on |
| Handover.StageTotalIsIdentities | src/common/comms/eof_handler/ring_completion.py:158-161 | The peers' reported counts add up to the number of distinct identities they stamped for the shard |
| Handover.HistoryIsStretches | src/common/comms/middleware/stamping_mom.py:98-113 | In any run of a stateful node the stamps of each emission have been seen downstream, and the ring's record of it has exactly the numbers sent |
| BarrierCompletes.ClosesFromAnyState | src/common/comms/eof_handler/ring_completion.py:139-162 | From any reachable state at rest in which every peer has emitted and the leader has not closed, wherever the token waits the run goes on to exactly one end-of-stream more, with the stage's exact totals |
| Barrier.NextIsSafe | src/common/comms/eof_handler/ring_node.py:133-174 | Every step of the cluster keeps the invariant |
| Barrier.AdvanceIsGood | src/common/comms/eof_handler/ring_completion.py:148-162 | Closing happens only at the leader, only with exact slots of an open client |
| Barrier.FullTokenTotals | src/common/comms/eof_handler/ring_completion.py:149-162 | A full token of an open client adds up to the stage's totals |
| Barrier.LeaderStepCounts | src/common/comms/eof_handler/ring_completion.py:154-157 | A step of the leader asks for a further end-of-stream only by closing an open client or crashing |
| LostSlot.LeaderSlotCanBeLost | src/common/comms/eof_handler/ring_completion.py:142-157 | A reachable token whose leader slot is not what the leader reported: a rolled-back leader closes while still PROCESSING |
| BarrierProgress.ClosesWithinTwoRounds | src/common/comms/eof_handler/ring_completion.py:139-162 | Once every peer has emitted, a token ends within 2N - 1 deliveries, wherever it is |
| BarrierProgress.EndOfStreamIsSent | src/common/comms/eof_handler/ring_completion.py:148-162 | It ends at the leader, with exactly one end-of-stream if the leader has not closed yet and none otherwise; with right slots it is made of what every peer remembers |
| BarrierProgress.DiesWithinOneRound | src/common/comms/eof_handler/ring_completion.py:89-94 | With a tombstone at any peer, every token of the client ends within N deliveries |
| BarrierProgress.LeaderReportClosesTheBarrier | src/common/comms/eof_handler/ring_completion.py:123-162 | When the leader reports last, its token comes back after N deliveries and one end-of-stream goes out, made of exactly what each peer reported |
| BarrierProgress.ForwardChangesNothing | src/common/comms/eof_handler/ring_completion.py:139-150 | Forwarding leaves the peer's records as they were and adds at most its own slot |
| RingOrder.FrontBackIds | src/common/comms/middleware/ring_rabbitmq.py:20-42 | The search returns the node's neighbours in the ring of all the ids; self among the peers is an error |
| RingOrder.FrontIsNextLarger | src/common/comms/middleware/ring_rabbitmq.py:32-36 | Front is the next larger id, or the smallest of all past the largest |
| RingOrder.FrontIsOneCycle | src/common/comms/middleware/ring_rabbitmq.py:32-42 | Over any set of ids, following front from any of them visits every id once before coming back |
| RingOrder.BackIsInverse | src/common/comms/middleware/ring_rabbitmq.py:38-42 | For every id, back undoes front and front undoes back |
| RingOrder.PeersOrder | src/common/comms/middleware/ring_rabbitmq.py:24-25 | The sorted peers are the ring without the node itself |
| Replay.ConsumerSeesCrashFreeRun | src/common/comms/middleware/stamping_mom.py:98-113 | With un-acked inputs redelivered in order, the deduplicated outputs are always the beginning of the crash-free outputs, and all of them once the queue is taken |
| Replay.OneStampOnePayload | src/common/comms/middleware/stamping_mom.py:102-113 | Over a whole run a (producer, seq) is never paired with two payloads |
| Replay.StampsAreDistinct | src/common/comms/middleware/stamping_mom.py:40-48 | A stamp names one position in the sequence of sends |
| Replay.StampsCountUp | src/common/comms/middleware/stamping_mom.py:102-113 | The stamps of a route are the numbers from one to its count, without a gap |
| Redelivery.PublishedAgain | src/common/comms/middleware/stamping_mom.py:98-113 | A run with two crashes in which every output is published more than once, each time under the same number |
| Redelivery.TakenTwice | src/common/checkpoint/checkpointer.py:85-102 | A run in which a message is applied, lost in a crash and applied again, and counted once |
| Redelivery.EmittedTwice | src/common/comms/eof_handler/ring_node.py:133-141 | A run in which a result is sent, the node dies before its report, and the result is sent again under the same number |
| Replay.SameEnd | src/common/checkpoint/checkpointer.py:62-67 | A checkpoint taken in the middle of the queue does not change where the queue leads |
| Replay.EmitAgain | src/common/checkpoint/checkpointer.py:62-67 | Emitting again from any restored point adds only what is new |
| Emission.Txs.SendOne | src/common/comms/middleware/stamping_mom.py:102-113 | The stamp is the next number on the route |
| Emission.Emit | src/aggregate/ring_aggregate.py:52-63 | Result i goes to shard affinity mod n and no other, or every shard gets all the results in order, under consecutive stamps; the counts reported are how many went to each |
| Emission.EmitDealt | src/merge/ring_merge.py:147-153 | Output i is published on route i mod n with payload i, and the count of a shard is the number of such i |
| Emission.SharedOut | src/aggregate/ring_aggregate.py:59-62 | A routed emission is one send per result, to the shard of its affinity |
| Emission.SentToAll | src/aggregate/ring_aggregate.py:55-58 | A broadcast takes every result to every shard, in order, and nowhere else |
| Emission.EmitThroughCrashes | src/common/comms/eof_handler/ring_node.py:67-75 | Given the saved counters and the same results each time, any number of interrupted attempts look downstream like a prefix of one emission |
| Emission.EmitAtLast | src/common/comms/eof_handler/ring_node.py:133-141 | On the same terms a complete attempt after them makes exactly one emission and reports the same counts |
| FrozenEmission.EachEmittedOnce | src/common/comms/eof_handler/ring_node.py:133-141 | In any run with crashes between any two effects the consumers have seen, between messages, one emission of each finished client in the order of the history, and each reported what was sent |
| FrozenEmission.FrozenWhileOwed | src/common/comms/eof_handler/ring_node.py:135-139 | From the forced save to the report the live image is the one on disk |
| FrozenEmission.AtMostOneOwed | src/common/comms/eof_handler/ring_node.py:67-75 | A checkpoint holds at most one complete client that has not reported, so the order of the recheck is irrelevant |
| FrozenEmission.SeenIsABeginning | src/common/comms/eof_handler/ring_node.py:133-141 | At every other moment they have seen the finished emissions and a beginning of the one the checkpoint owes |
| FrozenEmission.ReportIsOwed | src/common/comms/eof_handler/ring_node.py:133-141 | In any run, a node about to report has counted exactly the sends its checkpoint owes for the client |
| FrozenEmission.ReportsAgree | src/common/comms/eof_handler/ring_completion.py:123-137 | In any run, two reports of one client with any crashes between them carry the same counts, also if the first is in a token already |
| FrozenEmission.AbortedIsNeverEmitted | src/common/comms/eof_handler/ring_node.py:112-119 | In any run, once an abort has been saved the client is never emitted or reported, whatever arrives and crashes |
| FlatShards.SentCounts.Add | src/common/comms/eof_handler/sent_counts.py:17-20 | Counts one message for one client and shard |
| FlatShards.FlatIndex | src/group_by/ring_group_by.py:37-37 | Shard i of a fleet sits at the fleet's base plus i in the flat list |
| FlatShards.StatelessNode.Send | src/group_by/ring_group_by.py:51-52 | Every send keeps each flat count equal to what its queue was sent since the client's counts were last given up |
| FlatShards.StatelessNode.Report | src/common/comms/eof_handler/ring_node.py:199-200 | The count reported under a flat index is the number of the client's messages published on that queue; the other clients' counts stay right |
| FlatShards.StatelessNode.Discard | src/common/comms/eof_handler/ring_node.py:202-203 | An abort gives the counts up and leaves the other clients' right |
| FlatShards.GroupByOnData | src/group_by/ring_group_by.py:46-55 | Every queue of every fleet gets exactly the payloads of the groups whose affinity falls on it, in order, all accounted |
| FlatShards.FilterOnData | src/filter/ring_broadcast_filter.py:43-57 | One copy, with the route's payload, to every broadcast queue and to the identity's shard of every sharded route, all accounted |
| FlatShards.ConsecutiveStampsSpread | src/common/comms/eof_handler/ring_node.py:24-27 | Of n consecutive stamps of a producer no two fall on the same of n shards |
| FlatShards.OneCopyPerFleet | src/group_by/ring_group_by.py:49-53 | A queue gets one copy of a group whose affinity falls on it and none of any other |
| FlatShards.RunGroupBy | src/group_by/ring_group_by.py:46-55 | Over any inputs, end-of-streams and aborts of any clients, every report has under each flat index the number of the client's messages published on that shard's queue since its counts were last given up, which is the number of its groups whose affinity falls on it |
| FlatShards.RunFilter | src/filter/ring_broadcast_filter.py:43-57 | The same for the filter, by the identity of each message |
| Gateway.ForwardSharded | src/gateway/client_stream_handler.py:150-177 | Round-robin with one shared contiguous stamp; only a stream that ends properly tells every shard its number, which is exact |
| Gateway.SharesAreEven | src/gateway/client_stream_handler.py:158-174 | Shard i of n gets the ceiling of (total - i) / n messages |
| ByteRange.TransactionsWorker | src/client/client.py:26-53 | The worker on [s, e) parses, in order, exactly the lines starting at p with s < p < e |
| ByteRange.LinesAreTheFile | src/client/client.py:26-53 | The lines, one after the other, are the file; each ends with its newline or the file |
| ByteRange.Bound | src/client/client.py:144-146 | The bound of worker i is the integer part of i * size / n |
| ByteRange.ParsedUnlessOnBound | src/client/client.py:144-146 | For every file and number of workers, a line is in the part of exactly one worker, or of none if it starts on the first byte of a range |
| ByteRange.AllWorkers | src/client/client.py:136-158 | All the workers together parse exactly the lines that start off the bounds, each once, in batches that are never empty |
| ByteRange.LineOnBoundIsLost | src/client/client.py:29-32 | A file where a line on an interior bound is parsed by nobody |
| Responses.StreamResponses | src/join/join_fns/line_spill.py:97-111 | The bodies concatenate to header, text and newline; the final response and no other is marked last |
| Responses.IterChunks | src/common/checkpoint/persistent_spill.py:57-65 | Each chunk is batch_lines lines joined, only the last may be fewer; they concatenate to the text, and there is none exactly when there is no line |

## Left out

- Uc4Tiles.ChunkSize: reads the square root as exact; the source computes it in floating point.
- Uc4Prune.UC4PruneMergeFn.GetResult: equality of counts is stated when no node arrives twice with neighbours on both sides, which `Uc4EndToEnd.PeerAppearances` proves of every run; otherwise a batch may overwrite an entry and only the upper bound holds.
- GraphLedger.GraphLedger.SpillToDisk: the two dictionaries of predecessors and successors, which always have the same keys, are one dictionary of pairs, and the graph and degree aggregates share it.
- RingCompletion.RingCompletion.Restore: takes the current snapshot format only, not the older flat one.
- ExactlyOnce.EmitIsExactlyOnce: data messages carry a stamp; a message without one (sequence number zero) is never filtered by the source.
- Replay.ConsumerSeesCrashFreeRun: needs un-acknowledged inputs to come back in their original order, and covers what a node sends as it applies a message; results emitted at the end of the stream are in `Emission` and `FrozenEmission`.
- FrozenEmission.EachEmittedOnce: takes `get_result` as a function of the frozen state, which for the prune also needs a fixed iteration order of its sets; the tokens and end-of-streams a report asks for are in `Barrier`.
- Emission.EmitAtLast: takes the restored counters and the repeated results as given; `FrozenEmission` derives them from the checkpoint.
- Barrier.EofsAreExact: takes what a peer reports for a client as fixed over its re-emissions; for a stateful peer that is `FrozenEmission.ReportsAgree`.
- BarrierProgress.ClosesWithinTwoRounds: a stage at rest, every peer alive (`BarrierCompletes` starts it from any run that has come to rest); the throttling sleep is not modelled.
- Handover.EofsAreFair: the identities a stage stamps for a client are given as one stretch of sends per peer; that a stateful peer's emission is one is `Handover.HistoryIsStretches`.
- Uc4Prune.UC4PruneMergeFn.MergeThroughCrash: the emission's own exact condition is left at the file; a doubled line of a node that is no hub is harmless if both fall in one batch.
- Spill.MultiShardSpill.Append: a flush cuts between lines, where the source's buffer may cut inside one; in a file the snapshot covers a torn line is cut off all the same, in any other the replay would be appended to it.
- Uc4CountPaths.UC4CountPaths.CountThroughCrash: between the checkpoint and the crash the node only aggregates; reading a shard back, which closes its file, and aborts are not among the lost steps. The same holds for the other results through a crash.
- FlatShards.RunGroupBy: a run without crashes; what a crash repeats is in `Replay`.
- ByteRange.AllWorkers: lists the batches worker by worker, where the queue interleaves them.
- Spill.MultiShardSpill.Restore: lengths are counted in whole lines and a recorded length never exceeds the file; truncating past the end, which pads, does not arise.
- RabbitMQ, sockets, processes, threads and locks, Docker, heartbeat, dashboard and configuration: input and output plumbing.
- Serialisation (msgpack, JSON, CSV parsing, `Node.from_str`, key concatenation) and UUID derivation: taken as injective and exact.
- Emission triggered by the last data message runs inside `apply`, before a checkpoint; only what is applied at that moment is covered, not its re-emission.
- Join finalisation from the data path and the join's own response ordering.
- Clearing stale spill files at start, freeing a client's files after emission, and the shutdown paths of the client's workers.
- Supervisor election, registry and reviver.
- The business functions of UC1, UC2, UC3 and UC5: per-row filters, sums and ties that would add only easy members.
- Loss of power and file synchronisation: outside the source's own fault model.
