# Verification of the copy-on-write trees and their controllers

A Dafny model of a family of copy-on-write search trees with multi-version
leaves, of the controllers that drive them concurrently, and of the reclaimer
that frees what they replace. Check everything with `dafny verify dfyconfig.toml`.

**The cyclic pipeline.** P + 1 pipe threads, a worker pool and one monitor drive
tickets through a ring of contexts. `Cyclic` is the controller as a state
machine, one step per atomic access or handler call, over any number of tickets,
pipes, ring slots and workers; `CyclicRing`, `CyclicOrder`, `CyclicWork` and
`CyclicSafety` hold its invariant and the safety results, `CyclicProgress` and
`CyclicLiveness` its progress. `StagedCow` and `Pipeline` are the B+Tree handlers
on a heap of nodes, `PipelineState` to `PipelineTasks` what they keep,
`PipelineRun` the controller and the heap together. `Snapshots` and
`SnapshotScans` say what readers see, `PipelineFrees` that freeing replaced nodes
under the run disturbs neither handlers nor readers. The sequential meaning of a
run is a history of tickets (`BTreeHistory`); the outcome of each readiness probe
is part of the history, and `PipelineChoice` shows that this excludes no run.

**Reclamation and the worker list.** `Reclaimer` is sequence-locked publication,
pins, retirement and collection, one step per atomic access. `MpscList` is the
intrusive list of idle workers, `MpscLiveness` its progress. `RetireList` is the
replaced-node list of a context, as a class.

**Leaves.** `FatLeaf` is a leaf with its delta block, as classes; `LeafRecords`,
`LeafReplace`, `LeafTwoPhase` and `LeafScan` are the array algorithms over it.

**The sequential B+Tree.** `BTree`, `BTreeCow`, `BTreeInplace`, `BTreeLevels`,
`BTreeScan`, `BTreeBuild`, `BTreeFill`.

**Waves.** `WavePlan` and `WaveExec` are the planner's hash table and the groups'
execution, as classes, `WavePool` the workers; `WaveRun` says that order is
irrelevant, `WaveOk` that a wave is its tickets one by one, `WaveCoordinator` is
the coordinator loop.
`BTreeMerge`, `BTreeMergeOk` and `BTreeMergeIds` are the batched merge.

**Radix trees.** `Art` is the tree and its in-place updates, `ArtNodes` the four
node layouts as classes over arrays, `ArtScan` ordered scans, `ArtCow` and
`ArtShare` path copying, `ArtStaged` its staged handlers, `ArtHistory` histories,
`ArtMerge`, `ArtMergeOk`, `ArtMergeSees` and `ArtMergeIds` the batched merge.

**BeTrees.** `BeTree` is the tree with a fixed upper part, a boundary and elastic
subtrees below it. `BeUpdate`, `BeUpdateOk` and `BeShares` are its updates,
`BeAppend` its leaf slots, `BeMerge`, `BeMergeOk`, `BeMergeIds` and `BeBatch` its
batched merge, `BeRebuild`, `BeCheckpoint` and `BeFull` the two checkpoint rebuilds,
`BeRun` what steps publish, `BeHistory` whole runs. `BeStacked`, `BeTower` and
`BeShallow` say which built trees a run can lead to an undefined checkpoint.

Trees are values whose nodes carry the identity of the physical node, so that
sharing, retirement and freeing can be stated. New identities name ticket, stage
and role. Atomics are sequentially consistent.

## Findings

Where the code does not do what its use suggests, with an input and the exact
condition.

- Reported pending nodes: `get_statistics` (lib/conctrl/reclamation.hpp:288-301)
  loads the retired and the reclaimed counter one after the other and subtracts.
  `Reclaimer.StatisticsMayWrap` is a twelve-step run in which one node is retired
  and reclaimed between the loads and the report is 2^64 - 1;
  `Reclaimer.StatisticsMayMiss` one of thirteen steps in which it is 0 while a node
  is pending all along. `Reclaimer.StatisticsMeaning`, over every run: the report is
  what is pending at the second load if and only if no update retires nodes between
  the loads (a caller with no update in flight can rely on it), what is pending at
  the first load if and only if no collector counts nodes in between, and wraps if
  and only if collectors count more nodes in between than were pending at the first.
- Scans for no pairs: the radix scan (lib/trees/art/query.hpp:65-89) checks the
  bound only in its loops. `ArtScan.ZeroMayReturnOne`: over a single leaf, a scan
  from its key with n = 0 returns one pair.
  `ArtScan.Scan`: the result is the first n pairs if and only if n >= 1 or the
  search does not end at a leaf. The B+Tree scan tests n first and is exact for
  every n.
- Retired counts: the list of replaced nodes counts in sixteen bits
  (lib/conctrl/context.hpp:54-94). Its first six entries are reused when the
  counter wraps. `RetireList.DrainIsExact`: a drain hands over what was retired if
  and only if that were fewer than 65536 nodes; any log of 65536 nodes is an input
  on which it loses some. Paths are far shorter, so ordinary updates are exact.
- Checkpoints of small BeTrees: a rebuild asks on the leftmost path only whether a
  leaf lies above the boundary (lib/trees/betree/rebuild.hpp:128-140); the partial
  rebuild then takes any other node that is not a boundary for one with children,
  and reads the values of a leaf as pointers. An input: two pipes, sixteen pairs with
  keys from 61584 on, then path copies with the keys 61583, 61582, ...; the first
  leaf becomes a boundary node and grows beyond height 3, the second stays a leaf.
  `BeFull.RebuildDefined`: a checkpoint is defined if and only if a leaf lies above
  the boundary on the leftmost path or every path meets a boundary node.
  `BeShallow.SafeIffEnough`: with room for descending keys below the built ones, a
  tree built for h + 1 pipes is safe from this in every run if and only if it was
  built from 16 * 8^h pairs or more, or from less than 16 with h at most 3.

## Model

| member | source | states |
|---|---|---|
| `Snapshots.SnapshotLinearizable` | lib/conctrl/concow_cyclic.hpp:108-302 | in every state of every run of the pipeline over the heap, for every version v the monitor has published, also before it raises the commit number, the root kept for v finds under every key exactly what the first map with tickets 1..v applied in order has there, whatever later tickets are appending, reserving, publishing or copying |
| `SnapshotScans.ReadsAreSnapshots` | lib/trees/btree/query.hpp:13-143 | a reader that holds the root of a committed version and then looks at the nodes one by one, each in any later state of the run, finds the value, and scans exactly the first n pairs from a key on, of the map of tickets 1..v; slots of later tickets and pending values do not show |
| `SnapshotScans.ScanLinearizable` | lib/trees/btree/query.hpp:74-143 | the same for a scan of one state: first n pairs at or above the bound, in key order, for every n, the empty scan included |
| `Snapshots.CommittedTreesAreSequential` | lib/trees/btree/handlers.hpp:12-103 | every committed ticket's tree lies in memory node by node as the one-go path copy makes it, in every later state |
| `PipelineRun.MemoryInvariant` | lib/conctrl/concow_cyclic.hpp:116-248 | in every state of every run the shared heap, slots and contexts are the sequential history as far as the tickets' stages have come |
| `PipelineChoice.EveryStepExtends` | lib/conctrl/concow_cyclic.hpp:116-157 | no run is excluded by the history it is compared with: any step the controller can take, with any loaded commit number, extends the run under some history that differs only in the outcomes of probes still to come |
| `PipelineChoice.StartsJoined` | lib/conctrl/concow_cyclic.hpp:304-358 | the run that has not started follows every history over its first tree |
| `Snapshots.NoBrokenHandler` | lib/trees/btree/handlers.hpp:12-103 | no handler of any run meets a missing node, an unbuilt child array or a pending value |
| `Snapshots.NoLostAppend` | src/adapters/btree.hpp:38-75 | in every interleaving the readiness probe is blocked, or ends at the leaf that the finished tree of the ticket before routes the key to |
| `BTreeHistory.NoAppendAfterReplacement` | lib/trees/btree/node.hpp:190-239 | once a ticket has replaced a leaf no later ticket gets a slot on it, so the replacement has seen every slot there will be |
| `Snapshots.RetiresThePath` | lib/trees/btree/handlers.hpp:12-89 | a committed ticket has retired exactly the search path it replaced, root first; an appending ticket nothing |
| `Snapshots.PinnedTreeIsNotFreed` | lib/conctrl/reclamation.hpp:111-286 | while a reader holds a validated pin of version v, no freed batch has a node of the tree of tickets 1..v, with the trees and retirements of any history of path copies and appends |
| `PipelineFrees.FreeingIsInvisible` | lib/conctrl/concow_cyclic.hpp:108-302 | with the nodes committed tickets have replaced freed at any time, under the run, every handler does on the memory that is left what it does on the whole one: no handler looks at a freed node |
| `PipelineFrees.PinnedReadsSurvive` | lib/conctrl/reclamation.hpp:111-286 | pipeline and reclaimer together: a reader with a validated pin of version v finds, on the memory that is left, what tickets 1..v leave under every key |
| `PipelineEntry.ProbeFindsRoute` | lib/conctrl/concow_cyclic.hpp:122-157 | under the pipeline invariant the entry is blocked or finds the routed leaf, whether it tests readiness node by node or waits for the last path copy to be committed, for any loaded commit number that is not ahead |
| `PipelineEntry.EnterInv` | lib/conctrl/concow_cyclic.hpp:116-157 | the entry handler keeps the pipeline invariant, appending, reserving or starting the copy |
| `PipelineSteps.DescendInv` | lib/trees/btree/handlers.hpp:78-89 | a later structural handler keeps the pipeline invariant |
| `PipelineTasks.TaskInv` | lib/trees/btree/handlers.hpp:91-103 | a worker's append or materialisation keeps the pipeline invariant |
| `CyclicSafety.Invariant` | lib/conctrl/concow_cyclic.hpp:108-302 | the controller's invariant holds in every reachable state, for any number of tickets, P >= 1, any ring of two or more slots and any number of workers |
| `CyclicSafety.StagesInOrder` | lib/conctrl/concow_cyclic.hpp:108-248 | when stage j of ticket t is about to run it is the next one, on t's own context; in the pipes every earlier ticket has done stage j + 1, in the workers the version of the node to be read has |
| `CyclicSafety.EntryReadsPreviousTicket` | lib/conctrl/concow_cyclic.hpp:117-121 | the context an entry takes its tree from still belongs to the ticket before, which has done its first two stages |
| `CyclicSafety.ContextsOutliveTickets` | lib/conctrl/concow_cyclic.hpp:367-391 | a context is overwritten only when its ticket is committed and not the newest committed one; all later tickets are intact in the ring |
| `CyclicSafety.MonitorReadsOwnContexts` | lib/conctrl/concow_cyclic.hpp:273-284 | what the monitor retires and publishes it reads from contexts that still belong to those tickets, all of them finished |
| `CyclicSafety.PoolHasOneConsumer` | lib/conctrl/concow_cyclic.hpp:167-180 | two pipes are never both at the worker list, and a worker is handed a ticket only when at rest |
| `CyclicRing.SlotTells` | lib/conctrl/concow_cyclic.hpp:108-114 | a polled stage slot never tells a waiter more than the awaited version has done, even when it already belongs to a later ticket |
| `CyclicOrder.EarlierTicketsAreAhead` | lib/conctrl/concow_cyclic.hpp:158-164 | a pipe about to perform stage j of a ticket finds all earlier tickets a stage ahead or past the pipes |
| `Cyclic.RolesAreStages` | lib/conctrl/concow_cyclic.hpp:183-197 | the compile-time roles of pipes in a round are the staircase of stages: entry where the pipe is the ticket's place in the round, exit one behind |
| `CyclicLiveness.AnnouncedTicketsCommit` | lib/conctrl/concow_cyclic.hpp:108-296 | in every run fair to pipes, workers and monitor, a ticket commits once it and all before it have been announced |
| `CyclicLiveness.SubmittedTicketsCommit` | lib/conctrl/concow_cyclic.hpp:367-391 | if every submitter finishes, every submitted ticket commits in a fair run, whether submissions go on or stop |
| `CyclicLiveness.InitialisedCommits` | lib/conctrl/concow_cyclic.hpp:250-296 | every ticket the monitor has counted as initialised commits in a fair run |
| `CyclicProgress.NextEnabled` | lib/conctrl/concow_cyclic.hpp:108-248 | in every reachable state the lowest open initialised ticket has an enabled next step: no stage, readiness or pending wait blocks it |
| `Reclaimer.PinnedNodesStayAllocated` | lib/conctrl/reclamation.hpp:111-286 | in every interleaving of atomic steps of a publisher, any number of readers and collectors, a validated pair is untorn and nothing reachable from it is freed until unpin |
| `Reclaimer.WriterNodesStayAllocated` | lib/conctrl/reclamation.hpp:252-286 | nothing reachable from the committed frontier or a later version is ever freed |
| `Reclaimer.FreedOnce` | lib/conctrl/reclamation.hpp:216-286 | no node is in two batches, freed or waiting, so none is freed twice |
| `Reclaimer.RetiredIsReclaimedPlusPending` | lib/conctrl/reclamation.hpp:244-286 | at every step retired = reclaimed + freed but not yet counted + queued |
| `Reclaimer.StatisticsMeaning` | lib/conctrl/reclamation.hpp:244-301 | in every run, whatever happens between the two loads, the reported number is what is pending at the second load if and only if no update retires nodes in between, what is pending at the first load if and only if no collector counts nodes in between, and wraps if and only if more nodes are counted as reclaimed in between than were pending at the first |
| `Reclaimer.StatisticsMayWrap` | lib/conctrl/reclamation.hpp:288-301 | a twelve-step run in which the report is 2^64 - 1 |
| `Reclaimer.StatisticsMayMiss` | lib/conctrl/reclamation.hpp:288-301 | a thirteen-step run in which the report is 0 although a node is pending from the first load to the second |
| `BTreeHistory.HistoryRetiresSoundly` | lib/conctrl/reclamation.hpp:216-250 | every history retires a node only when all later roots no longer reach it, and once: the assumption of the reclaimer's results is met |
| `MpscList.DeliveredInExchangeOrder` | lib/conctrl/mpsc_list.hpp:15-44 | in every interleaving of pushes and the one popper, items pushed again after a pop included, what was popped followed by what is in the list is the head-exchange order without the stub |
| `MpscList.StepsAreAtomic` | lib/conctrl/mpsc_list.hpp:17-44 | each atomic access of the list is a step of an atomic queue: a head exchange appends, the end of a successful pop takes the oldest item, all else, a failing pop included, changes nothing |
| `MpscList.QuietPopDelivers` | lib/conctrl/mpsc_list.hpp:23-44 | with no push half done, an undisturbed pop on a non-empty list delivers its first item |
| `MpscLiveness.EveryPushIsPopped` | lib/conctrl/mpsc_list.hpp:17-44 | in every unbounded run, pushes going on forever included, the n-th item in head-exchange order is the n-th one popped, once the popper retries until it has it and every pusher that took over the head closes its link in the end |
| `RetireList.DrainIsExact` | lib/conctrl/context.hpp:57-94 | a drain hands over every retired node, as often as it was retired, if and only if fewer than 65536 were |
| `RetireList.Context.RetireReplaced` | lib/conctrl/context.hpp:57-72 | the method on inline slots and overflow blocks adds one node to the abstract list, or nothing without reclamation or node |
| `RetireList.Context.DrainRetired` | lib/conctrl/context.hpp:74-94 | the method hands over what the abstract list holds and leaves it empty |
| `FatLeaf.Leaf.Append` | lib/trees/btree/node.hpp:190-213 | append_leaf_delta adds a published slot after the others, or reports a full or unsuitable block and changes nothing |
| `FatLeaf.Leaf.Reserve` | lib/trees/btree/node.hpp:215-239 | reserve_leaf_delta adds a pending slot and returns its index, or -1 |
| `FatLeaf.Leaf.Find` | lib/trees/btree/query.hpp:13-39 | the lookup over base array and slots is the lookup in the snapshot's map; pending and newer slots do not show |
| `LeafScan.ScanVisible` | lib/trees/btree/query.hpp:74-113 | gather, sort, newest per key and bound give the next n - |before| pairs of the snapshot's map from the bound on |
| `LeafReplace.Materialize` | lib/trees/btree/update_cow.hpp:83-149 | one-shot materialisation: leaves of the snapshot's map with the ticket's key set, cut in the middle when over 15 keys, and the separator between them |
| `LeafTwoPhase.InTwoPhases` | lib/trees/btree/update_cow.hpp:22-81 | preparing the leaves from slots whose values are pending, publishing the values in any order, then finishing gives the leaves, versions and separator of one-shot materialisation |
| `LeafTwoPhase.Prepare` | lib/trees/btree/update_cow.hpp:22-48 | the topology: keys, separator and versions of the new leaves, from slots whose values may be missing |
| `LeafTwoPhase.Finish` | lib/trees/btree/update_cow.hpp:50-81 | the values: every key of both leaves gets the value of the final map |
| `BTreeCow.CowStep` | lib/trees/btree/update_cow.hpp:188-221 | one update in one go: the new tree is well-formed, every snapshot that includes the ticket sees exactly its key changed, exactly the search path is given up, each node once, all other nodes are shared and the rest are new; that the staged handlers make this tree is Snapshots.CommittedTreesAreSequential |
| `BTreeCow.CowShares` | lib/trees/btree/update_cow.hpp:188-221 | the copy has every node of the old tree but the search path, all its other nodes are new, and none occurs twice |
| `BTreeCow.PathOnce` | lib/trees/btree/handlers.hpp:12-89 | the retired path names no node twice |
| `StagedCowOk.TailOk` | lib/trees/btree/update_cow.hpp:188-221 | one handler call on the heap makes the node of its level, splits a full one first, keeps all other nodes, and leaves the cursor at the next level |
| `BTreeScan.SnapshotReads` | lib/trees/btree/query.hpp:13-134 | sequential histories: after any number of later tickets, root v read at v finds under each key, and lists in key order, what tickets 1..v leave |
| `BTreeScan.Scan` | lib/trees/btree/query.hpp:115-149 | the scan loops return the first n pairs from the key on |
| `BTreeInplace.CopyingIsInplace` | lib/trees/btree/update_inplace.hpp:11-72 | without slots, the tree a path copy builds is the tree of the in-place update, node for node |
| `BTreeBuild.BuildSorted` | lib/trees/btree/build.hpp:38-61 | from at least 16 sorted pairs (or one leaf) the loops build a well-formed tree whose entries are the input |
| `BTreeBuild.NextChunk` | lib/trees/btree/build.hpp:11-36 | every chunk of the remainder-spreading loop has 8 to 12 items and does not overrun |
| `BTreeBuild.LastChunk` | lib/trees/btree/build.hpp:11-36 | the loop has made exactly n / 8 chunks when it ends, at least two |
| `BTreeFill.HeightBound` | lib/trees/btree/build.hpp:11-61 | a filled tree with h > 0 internal levels holds at least 2 * 8^h keys |
| `BTreeFill.CowFilled` | lib/trees/btree/update_cow.hpp:127-186 | updates keep trees filled, so the height bound holds ever after |
| `WavePlan.Planner.PlanWave` | lib/conctrl/concow_fat.hpp:169-198 | for any hash values the table groups a prefix of the batch by target leaf or missing key, in ticket order, and stops at the first update whose leaf has no capacity left; every probe ends |
| `WaveRun.CapacityKept` | lib/conctrl/concow_fat.hpp:125-137 | in every order of running the groups, an update planned as an append finds a slot: the lost-capacity exception cannot be raised |
| `WaveRun.OrderIsIrrelevant` | lib/conctrl/concow_fat.hpp:125-220 | every complete order of running the groups leaves the same slots and the same replacements |
| `WaveExec.Executor.ExecuteGroup` | lib/conctrl/concow_fat.hpp:125-137 | the method follows a group's chain, appends its updates in order and prepares the replacement |
| `WaveOk.MergedWave` | lib/conctrl/concow_fat.hpp:200-238 | publishing a wave that replaces leaves: the merge is accepted, the tree well-formed, every key shows its latest value in the wave or its old one, and exactly the nodes no longer in the tree are retired, once each |
| `WaveOk.AppendWave` | lib/conctrl/concow_fat.hpp:200-238 | a wave without replacements shows the same |
| `WaveOk.EarlierSnapshots` | lib/conctrl/concow_fat.hpp:125-220 | in every state of a wave, whatever has run of it and in whatever order, every earlier snapshot of any tree finds and lists what it did before the wave |
| `WavePool.RunParallel` | lib/conctrl/concow_fat.hpp:139-167 | workers that take groups from a shared counter and run them side by side, in any interleaving of their turns, end with every update run, each once, and no exception |
| `WavePool.RunWave` | lib/conctrl/concow_fat.hpp:200-220 | the inline and the parallel branch leave the same |
| `WaveCoordinator.Coordinator.Process` | lib/conctrl/concow_fat.hpp:240-313 | the coordinator loop publishes a batch in order as waves, run inline or by any interleaving of workers, and single copies; ever after, each published root shows the log up to its version, and what was retired is what later roots lack |
| `WaveCoordinator.Coordinator.CowUpdate` | lib/conctrl/concow_fat.hpp:240-264 | an update whose leaf takes no slot is one path copy, published on its own |
| `WaveCoordinator.Coordinator.Query` | lib/conctrl/concow_fat.hpp:380-385 | a query answers as the log of accepted updates |
| `BTreeMerge.FatMerge.MergeInto` | lib/trees/btree/fat_merge.hpp:46-75 | the method on buffers of 4 * B children computes the merge and its retired list, and does not overflow them |
| `BTreeMergeOk.AcceptedIffCurrent` | lib/trees/btree/fat_merge.hpp:46-55 | the pass stops with an exception exactly when a change is stale or a leaf is replaced twice |
| `BTreeMergeOk.MergeApplies` | lib/trees/btree/fat_merge.hpp:37-87 | the merged tree is sorted, separator-correct, of one depth and at most 15 keys a node, and shows the old map with every change written over it |
| `BTreeMergeIds.MergeExact` | lib/trees/btree/fat_merge.hpp:37-92 | every old node is shared or replaced, once, and all other nodes are new |
| `BTreeMergeIds.ReplacedArePaths` | lib/trees/btree/fat_merge.hpp:46-75 | exactly the nodes on the changes' search paths are replaced |
| `Art.BuildRefines` | lib/trees/art/update_inplace.hpp:32-60 | after any sequence of updates lookups agree with the map, and offsets chain, branches have two children or more, and keys carry their path |
| `Art.InsertOk` | lib/trees/art/update_inplace.hpp:32-60 | one update changes the map at its key only, through prefix forks and growth |
| `ArtScan.Scan` | lib/trees/art/query.hpp:22-91 | the scan returns the first n pairs from the key on if and only if n >= 1 or the search does not end at a leaf |
| `ArtScan.ZeroMayReturnOne` | lib/trees/art/query.hpp:56-89 | on any tree of a single key, a scan from that key for no pairs returns one |
| `ArtScan.LessIsNumeric` | lib/trees/art/node.hpp:84-86 | byte order of keys is numeric order |
| `ArtNodes.PutInPlace` | lib/trees/art/update_inplace.hpp:46-60 | on the four layouts, setting the child of a byte updates the sorted list of children and nothing else, growing 4-16-48-256 when full |
| `ArtNodes.PutCopy` | lib/trees/art/node_wrapper.hpp:80-101 | node_copy or node_extend, append, copych with its hole and the child store make another node with the updated list, in the right layout, and leave the old node alone |
| `ArtNodes.InsertIsPut` | lib/trees/art/update_inplace.hpp:32-60 | at each branch it passes the in-place update of the tree is the layouts' put of the child it leaves there, under a byte that has a child and one that has none |
| `ArtNodes.FindCh` | lib/trees/art/node_wrapper.hpp:35-42 | findch on any layout is the lookup in the sorted list |
| `ArtNodes.Extend16` | lib/trees/art/node16.hpp:63-68 | the slot table of an extended node has every byte at its old place |
| `ArtNodes.Spread` | lib/trees/art/node48.hpp:41-47 | the byte loop puts every child of a slot table under its byte and null elsewhere |
| `ArtNodes.PutFinds` | lib/trees/art/node_wrapper.hpp:44-62 | an update of the list is an update of the map from bytes to children |
| `ArtCow.CopyIsInsert` | lib/trees/art/update_cow.hpp:11-63 | the one-go path copy shows, to every snapshot that includes the ticket, what the in-place update makes |
| `ArtStaged.StagedIsOneShot` | lib/trees/art/handlers.hpp:11-44 | the staged handlers, with key_ofs and ch_idx carried between stages and children copied a stage late, end with the one-go copy in memory, its root in the context, the path retired root first, and all other nodes unchanged |
| `ArtStaged.FirstLeaf` | lib/trees/art/handlers.hpp:10-22 | over an empty tree the entry is done at once, with the new leaf as root and nothing retired |
| `ArtShare.CowShares` | lib/trees/art/update_cow.hpp:32-63 | the copy shares every node but the path, all its other nodes are new, none occurs twice |
| `ArtHistory.SnapshotIsInPlace` | lib/conctrl/concow_cyclic.hpp:137-151 | whatever the entry's gate finds, the tree of version v read at v is the tree of in-place updates 1..v, at any later time |
| `ArtHistory.SnapshotStable` | lib/trees/art/query.hpp:10-20 | root v read at v answers every lookup as tickets 1..v, whatever later tickets append or copy |
| `ArtHistory.TicketRetires` | lib/trees/art/update_cow.hpp:32-63 | a ticket replaces exactly the nodes its tree no longer has |
| `ArtMergeOk.AcceptsCurrent` | lib/trees/art/fat_merge.hpp:48-114 | the radix merge raises no exception exactly when every change names the current leaf of its route, or its absence, and no route comes twice |
| `ArtMergeSees.MergedTree` | lib/trees/art/fat_merge.hpp:23-119 | an accepted merge yields a well-formed tree (offset chain, capacities, two children or more a branch) that shows the old map overlaid by the changes |
| `ArtMergeIds.MergeRetires` | lib/trees/art/fat_merge.hpp:23-121 | the retired nodes are exactly the old nodes the new tree lacks, once each |
| `BeHistory.SnapshotReads` | lib/trees/betree/query.hpp:14-44 | whatever later tickets append, copy or rebuild, the root of version v read at v finds under each key, and lists in key order, what tickets 1..v leave |
| `BeHistory.RunGood` | lib/conctrl/concow_fat.hpp:240-264 | any defined run of appends, path copies and checkpoints shows the map of its tickets, on trees in key order that repeat no node |
| `BeHistory.RunRetires` | lib/conctrl/concow_fat.hpp:240-264 | over any defined run, with names never reused: no node is retired twice, none of the newest tree is retired, and every node of every earlier tree is in the newest one or retired |
| `BeHistory.RunRetiresSoundly` | lib/conctrl/reclamation.hpp:111-286 | what a ticket of such a run gives up, checkpoints included, is out of reach of its own and all later roots: the reclaimer's condition for pinned readers |
| `BeHistory.RunShape` | lib/conctrl/concow_fat.hpp:240-264 | from a tree with a full boundary no run meets an undefined checkpoint, and every tree has h upper levels over elastic subtrees of height 3 at most |
| `BeShallow.SafeIffEnough` | lib/trees/betree/rebuild.hpp:107-140 | over a tree built for h + 1 pipes every run is defined to its end if and only if it was built from 16 * 8^h pairs or more, or from less than 16 for four pipes at most |
| `BeShallow.ShortTreesFail` | lib/trees/betree/rebuild.hpp:107-140 | from all other trees descending keys lead to a checkpoint that unfolds a leaf as an internal node |
| `BeFull.RebuildDefined` | lib/trees/betree/rebuild.hpp:107-140 | a checkpoint is defined if and only if a leaf lies above the boundary on the leftmost path or every path meets a boundary node |
| `BeFull.BuiltElastic` | lib/trees/betree/build.hpp:11-70 | a built tree has its boundary below h upper levels on every path if and only if the pairs are 16 * 8^h or more; with fewer, and only then, the leftmost path ends above it |
| `BeFull.CheckpointKeeps` | lib/trees/betree/rebuild.hpp:135-188 | a defined checkpoint, full or partial, keeps the pairs visible at its version and the order of keys, and its visitor gives every node the new tree lacks once and no other |
| `BeFull.CheckpointIsPartial` | lib/trees/betree/rebuild.hpp:97-140 | over a full boundary the checkpoint is the partial one: it shares with the old tree exactly the nodes of the subtrees of height zero, has the same upper levels again, and only subtrees of height zero |
| `BeFull.EntireShows` | lib/trees/betree/rebuild.hpp:34-95 | the full rebuild lists each leaf with its slots up to the version, and the new tree shows the same pairs |
| `BeFull.EntireShares` | lib/trees/betree/rebuild.hpp:146-154 | the full rebuild shares nothing, and its visitor gives every old node once |
| `BeCheckpoint.RebuildShares` | lib/trees/betree/rebuild.hpp:156-178 | the partial rebuild on any tree shares exactly the unfolded subtrees; its visitor gives the rest once each |
| `BeCheckpoint.RebuildShows` | lib/trees/betree/rebuild.hpp:97-126 | the partial rebuild shows every snapshot the same pairs, in order |
| `BeTree.PairsAre` | lib/trees/betree/query.hpp:14-44 | find at a version agrees with the sorted list of that version's pairs |
| `BeAppend.AppendOk` | lib/trees/betree/node.hpp:180-212 | a published slot changes the map at its key only, for every snapshot that includes it, and keeps the order of keys |
| `BeUpdate.UpdateKeeps` | lib/trees/betree/handlers.hpp:40-92 | an update leaves separators and child counts of upper and boundary nodes alone, keeps heights stacked one by one below, and asks for a checkpoint if and only if a subtree has become higher than 3 |
| `BeUpdateOk.UpdateOk` | lib/trees/betree/update_cow.hpp:121-168 | an update changes the map at its key only, for every snapshot that includes it, and keeps the order of keys |
| `BeShares.UpdateShares` | lib/trees/betree/update_cow.hpp:121-168 | an update shares every node but the search path, all its other nodes are new, none occurs twice |
| `BeMerge.MergeKeeps` | lib/trees/betree/fat_merge.hpp:66-127 | a batch of leaf replacements keeps the same elastic invariant, cutting nodes in two below the boundary and wrapping a cut child of it, with the same exact condition for a checkpoint |
| `BeMergeOk.MergeOk` | lib/trees/betree/fat_merge.hpp:66-127 | an accepted batch keeps the order of keys and shows the old map with its changes written over it |
| `BeMergeIds.MergeAccepts` | lib/trees/betree/fat_merge.hpp:66-76 | a batch raises no exception if and only if every change names the leaf of its route and no leaf comes twice |
| `BeMergeIds.MergeShares` | lib/trees/betree/fat_merge.hpp:66-127 | an accepted batch shares every node but those it retires, each retired once; the rest are the replacing leaves and new nodes in place of retired ones |
| `BeBatch.BatchPublished` | lib/trees/betree/fat_merge.hpp:129-159 | from merge to publication, checkpoint included: every key shows its latest value, and exactly the nodes of the old and the merged tree that the published one lacks are retired, once each |
| `BeRun.MergePublishes` | lib/trees/betree/fat_merge.hpp:129-152 | a batch over a full boundary publishes a tree of the same shape again, rebuilt when it has to be |
| `BeRun.StepPublishes` | lib/conctrl/concow_fat.hpp:240-264 | so does an update |

## Left out

- Weak memory: atomics are sequentially consistent, and a handler call of the pipeline is one step, except that readers look at nodes one by one.
- The pop of the worker list is one atomic step of the controller. MpscList has the list access by access, where a pop may fail while a push is half done, and MpscLiveness shows that popping again succeeds; the two state machines are not run side by side.
- Start and stop flags, bubbles at shutdown, destructors, exception recovery and overflow of the 32-bit ticket number.
- lib/conctrl/concow.hpp and the checkpoint tickets of its ring; lib/conctrl/seqcow.hpp; the AERT trees.
- BeTree updates are one recursion, not their staged handlers; their in-place updates and the concurrent checkpoint of lib/conctrl/concow.hpp are not modelled, and runs of BeTrees mix appends, path copies and checkpoints but not batches, which are proved one at a time (BeBatch).
- The pipeline over radix trees: their stages are proved on the heap for one ticket at a time (ArtStaged), not interleaved; waves over radix trees are proved for the merge, not for the coordinator.
- The value history of a radix leaf (lib/common/fat_value.hpp) is a sequence of entries, not its inline record and overflow block.
- In-place updates of B+Trees and radix trees, and the radix merge, are functions on values: update in place and aliasing of whole trees are not captured, only those of leaves, node layouts and buffers.
- std::sort and set_union are methods proved here; node addresses in the planner's hash are an arbitrary function.
- Bit-level key arithmetic (partial_key, prefix_mask, prefix_match) and SIMD searches: keys are sequences of eight bytes, and prefixes the bytes they stand for.
- Byte counts of retired nodes, profile counters and execution statistics other than retired, reclaimed and pending.
