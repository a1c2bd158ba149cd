# Reconverse, modelled and proved in Dafny

Reconverse is a message-driven runtime for parallel programs. Its processes (nodes)
each run several PEs (processing elements, one thread each); PEs exchange messages
through queues, through a shared-memory pool between processes of one host, through
persistent channels and through tree collectives. This project models the parts of
it whose correctness depends on an argument about interleavings, about two linked
structures in one buffer, or about a tree of any size, and proves those arguments.

`dafny verify dfyconfig.toml` checks the whole project.

## How the model is built

Lock-free and message-passing code is an interleaving model: a datatype for the shared
state, one `Action` per atomic access (or per message that arrives), `Enabled` and
`Apply` for what an action needs and does, and theorems over every sequence of
actions. Memory is sequentially consistent; counters and indices are unbounded unless
a row below says otherwise. Code that one thread runs is imperative Dafny: classes
with the source's fields, and its loops with invariants, each proved against a
specification function on values, about which the lemmas are then proved.

| files | what they model |
|---|---|
| `Collections` | facts about sequences, sets and multisets that several modules use |
| `SizeClasses` | the 25 power-of-two sizes that the pool and the mempool share |
| `IpcPlaces`, `IpcAbstract`, `IpcPool`, `IpcRefinement`, `IpcSafety`, `IpcProgress`, `IpcCutoff` | the shared-memory pool: one segment, any number of senders and receivers; what every run keeps and what each operation achieves |
| `MempoolShape`, `MempoolLinks`, `MempoolBlock`, `MempoolFree`, `MempoolSplit`, `Mempool` | the coalescing allocator: shape of a block as values, the headers that represent it, the loops that rewrite them, the pool |
| `TaskQueue`, `TaskQueueLimits`, `OptimisticDequeue`, `QueueCounters` | the work-stealing deque and when it loses tasks, the racing dequeue counters, the counters over a queue |
| `SpanTree`, `Reduction`, `ReductionSafety`, `ReductionOverrun`, `ReductionLimits`, `Broadcast`, `ListSend` | the trees of the collectives, tree reductions, how far apart open ones may be and what happens beyond, broadcasts, list sends |
| `Persistent`, `PersistentChannel` | the sender's side of a persistent channel, and the whole channel |
| `PrioQueue`, `SlotTable`, `SchedulePoll`, `Barrier` | the scheduler's priority queue, its slot table, the sweep over it, the node barrier |

In the shared-memory pool the concrete machine (`IpcPool`: offsets, links, heads, one
program counter per PE) is proved to simulate an abstract one (`IpcAbstract`: every
block in one place, messages in order), and what holds of the abstract one is carried
back to every run. In the mempool a block is a tiling of its bytes and one list per
size class; `BlockRep` says that the headers in memory spell exactly that shape. In a
reduction every contribution carries a tag naming its PE and its reduction; the code
never reads the tags, so they show what a merged message really contains.

## Model

| member | source | states |
|---|---|---|
| `SizeClasses.WhichPow2` | src/mempool.C:46-57 | the linear scan finds the smallest class that holds the size, or reports that none does |
| `SizeClasses.ClassOfCut` | src/cmi-shmem-common.h:178-183 | a block of exactly one class's size is looked up as that class again, so a freed block returns to the bin it was cut for |
| `IpcRefinement.ChainPush` | src/cmishmem.cpp:111-119 | a compare-and-swap push that finds the head it read makes the list the old one with the block in front, even if the head was taken and pushed again meanwhile |
| `IpcRefinement.ActionSimulates` | src/cmishmem.cpp:111-371 | every atomic step of every PE, whatever the others are doing, is one event of the abstract pool or none |
| `IpcAbstract.DoKeeps` | src/cmishmem.cpp:237-283 | every event keeps each block in one place, each receive queue in push order, and the node queue split among its takers |
| `IpcSafety.RunRefines` | src/cmishmem.cpp:111-371 | after every run the memory refines an abstract state whose logs are exactly the pushes and deliveries of that run |
| `IpcSafety.Ownership` | src/cmishmem.cpp:239-371 | after every run each block is in exactly one place, and the links from every head spell exactly the blocks of that list, without cycle or sharing |
| `IpcSafety.NoAliasing` | src/cmishmem.cpp:285-371 | what an allocation or a delivery hands out is in nobody's hand, and a block about to be pushed is in the pusher's hand only |
| `IpcSafety.DeliveryOrder` | src/cmishmem.cpp:121-135 | what a rank received from its queue is a prefix of what was pushed there; each node message taken has exactly one taker, a rank's share is a prefix of what it took and all of it once its inbox is drained, and once the node queue is empty every message pushed there has been taken |
| `IpcSafety.NodeQueueCovered` | src/cmishmem.cpp:239-269 | once the node queue is empty and the ranks have drained their inboxes, what they received from it together is exactly what was pushed there, nothing lost and nothing twice |
| `IpcSafety.PairOrder` | README.md:268-271 | messages from one PE to one PE through the pool arrive in the order sent |
| `IpcSafety.NothingLost` | src/cmishmem.cpp:246-269 | once a rank is idle with empty inbox and its own queue is empty it has received exactly what was pushed on that queue |
| `IpcSafety.HeapSafety` | src/cmishmem.cpp:322-355 | under racing allocators every block lies inside the segment, aligned, disjoint from all others with its header, and free lists hold blocks of their own size and owner |
| `IpcSafety.AllocBin` | src/cmishmem.cpp:299-350 | a PE anywhere inside an allocation works on the class of the size it was asked for |
| `IpcSafety.RoomForRequest` | src/cmishmem.cpp:299-361 | every block an allocation returns, popped or cut, is at least as large as the size asked for and names the caller as its owner |
| `IpcSafety.HeapMoves` | src/cmishmem.cpp:326-350 | the heap offset moves only when a block is cut, by its stride; failed and losing attempts leave it alone |
| `IpcSafety.NothingBeforePublish` | src/cmi-shmem-common.h:104-114 | until the heap offset is published no list of the segment is accessed and no block exists |
| `IpcProgress.LoneAlloc` | src/cmishmem.cpp:285-362 | an allocation with no other PE in between returns a block if and only if the PE's own list or its return list has one or the segment has room, taken in that order; the heap moves only if both lists were empty |
| `IpcProgress.HeapIsLast` | src/cmishmem.cpp:305-333 | among racing PEs, one that goes to the heap has seen both its lists empty since its call |
| `IpcProgress.AllocEnds` | src/cmishmem.cpp:305-362 | however the others interleave, an allocation ends with a block, or before the segment is published, or after seeing both lists empty and with no room for the block now; only after seeing both empty does it cut a new one |
| `IpcProgress.LoneSend` | src/cmishmem.cpp:111-119 | a send with no other PE in between makes its block the head of the destination's queue |
| `IpcProgress.LoneFree` | src/cmishmem.cpp:364-371 | a free with no other PE in between makes the block the head of its owner's return list, from which the owner's next allocation takes it |
| `IpcProgress.LonePoll` | src/cmishmem.cpp:121-135 | a poll with no other PE in between takes both queues whole, the rank's own and the node's, in list order |
| `IpcProgress.PollReceives` | src/cmishmem.cpp:239-269 | a rank that polls and delivers has received all that was pushed on its own queue and every node message no rank had taken, which are the last ones pushed there |
| `IpcProgress.MessageTrip` | src/cmishmem.cpp:239-283 | a message written into a block and sent is the last one the destination rank has received once that rank has polled and delivered |
| `IpcProgress.BlockReturns` | src/cmishmem.cpp:305-371 | a block that was freed is the one its owner's next allocation of that size gets, if its own list is empty, and the heap does not move |
| `IpcProgress.BlockHolds` | src/cmishmem.cpp:111-135 | a block holds what was last written into it: nothing the pool does on the way touches the message |
| `IpcProgress.PushedIsWritten` | src/cmishmem.cpp:111-119 | so what a send puts on a queue is what the sender wrote into its block |
| `IpcProgress.StartUp` | src/cmi-shmem-common.h:104-114 | the owner's constructor can make every list empty and then publish the heap |
| `IpcCutoff.InitCutoff` | src/cmi-shmem-common.h:205-244 | which settings are refused; a requested cutoff is rounded up to the least class that holds it, at most bin 14; the default is the largest class, up to 32 KB, that stays under a 25th of the segment |
| `IpcCutoff.CutoffFits` | src/cmishmem.cpp:174-181 | a message at any accepted cutoff plus its chunk header fits a bin that the free lists cover |
| `IpcCutoff.CutoffTight` | src/cmi-shmem-common.h:222-232 | one class higher and it would not |
| `MempoolShape.FilledValid` | src/mempool.C:60-96 | fillblock's slots tile the block without gap or overlap and its lists hold each exactly once |
| `MempoolShape.SplitKeeps` | src/mempool.C:125-194 | breaking the first slot of a larger class keeps the tiling and the lists exact |
| `MempoolShape.TakenKeeps` | src/mempool.C:444-458 | so does taking the first slot of a class |
| `MempoolShape.FreedKeeps` | src/mempool.C:523-663 | so does freeing any slot: its whole free neighbourhood is unlinked and cut again |
| `MempoolShape.RoundTrip` | src/mempool.C:556-661 | freeing the last slot in use, whatever the history, gives exactly the shape fillblock built |
| `MempoolShape.FitsIff` | src/mempool.C:125-134 | a request can be met exactly when the block has a free slot of its class or above |
| `MempoolShape.FreedFits` | src/mempool.C:556-661 | after a free any request that fits the bytes of the whole free run can be met |
| `MempoolShape.FilledFits` | src/mempool.C:411-442 | a block just obtained for a request can always meet it |
| `MempoolBlock.FillHeads` | src/mempool.C:62-96 | the first loop of fillblock: each class's head is the one slot of the greedy cut of that class, or null |
| `MempoolBlock.FillChain` | src/mempool.C:98-120 | the second loop: the headers form the doubly linked neighbour chain of that cut, on single-element free lists |
| `MempoolBlock.TopPower` | src/mempool.C:70-78 | the class to start cutting with: the largest that fits |
| `MempoolFree.ScanBack` | src/mempool.C:556-567 | the backward walk ends at the first slot of the free run, with its bytes |
| `MempoolFree.ScanForward` | src/mempool.C:569-579 | the forward walk ends at the next slot in use or the end, with the bytes in between |
| `MempoolFree.UnlinkRun` | src/mempool.C:581-606 | the free slots of the run, and no others, leave their doubly linked lists; the neighbour chain is untouched |
| `MempoolFree.Rebuild` | src/mempool.C:608-651 | the run's bytes are cut greedily, chained, and pushed on the front of their lists; headers outside the run keep their chain |
| `MempoolFree.Recut` | src/mempool.C:608-661 | with the last patch the new pieces and both neighbours form one chain again |
| `MempoolFree.FreeSlot` | src/mempool.C:523-663 | mempool_free turns the headers of a valid block into those of the specified shape |
| `MempoolSplit.SplitChain` | src/mempool.C:150-175 | the header loop of the split: the pieces are chained in order with the right classes |
| `MempoolSplit.SplitSlot` | src/mempool.C:138-189 | the split as a whole: chain, lists and heads are those of the specified shape |
| `MempoolSplit.CheckBlock` | src/mempool.C:125-194 | true exactly if some free slot is large enough; the smallest such class is the one broken |
| `MempoolSplit.TakeSlot` | src/mempool.C:444-458 | the first slot of the class is marked used and leaves its list |
| `Mempool.FillBlock` | src/mempool.C:60-121 | fillblock writes exactly the headers and heads of the filled shape |
| `Mempool.SplitUsed` | src/mempool.C:125-194 | a split touches no live allocation |
| `Mempool.TakenUsed` | src/mempool.C:444-458 | taking adds one live allocation at a place no other has |
| `Mempool.FreedUsed` | src/mempool.C:523-663 | freeing removes that allocation and no other |
| `Mempool.ShapeIsMemory` | src/mempool.C:556-661 | the shape determines every word of a free slot's header and the heads, so returning to fillblock's shape is returning to the memory it wrote |
| `Mempool.Block.constructor` | src/mempool.C:60-121 | a new block is valid and entirely free |
| `Mempool.Block.Check` | src/mempool.C:125-194 | checkblock succeeds exactly when a free slot is large enough, and changes no allocation |
| `Mempool.Block.Take` | src/mempool.C:444-458 | one more allocation, at a new place |
| `Mempool.Block.Release` | src/mempool.C:523-663 | one allocation fewer; after the last the block is as fillblock built it |
| `Mempool.Block.Scribble` | src/mempool.h:44-63 | the caller's data may overwrite the free-list words of a slot in use without harm |
| `Mempool.Pool.Search` | src/mempool.C:379-391 | the walk finds a block that can serve, or none can |
| `Mempool.Pool.Grow` | src/mempool.C:411-442 | the appended block always serves the request: the "no free block after expansion" branch is dead |
| `Mempool.Pool.Serve` | src/mempool.C:380-458 | for a slot of a given class: exactly when a slot, null or a stop results |
| `Mempool.Pool.Malloc` | src/mempool.C:363-459 | on success one more live allocation with room for the request; otherwise exactly why not, with nothing changed; a block is added only if none could serve |
| `Mempool.Pool.Free` | src/mempool.C:523-663 | exactly that allocation is gone, and a request of its class can be met; a block left without any is as fillblock built it |
| `Mempool.Pool.LiveApart` | src/mempool.C:363-459 | live allocations never overlap |
| `TaskQueue.StepRefines` | include/taskqueue.h:29-69 | every step of owner and thieves, a write into a ring slot still in use apart, is one operation of an atomic deque (push and pop at the back, steal at the front) or none |
| `TaskQueue.DoKeeps` | include/taskqueue.h:29-69 | every deque operation keeps each task in one place |
| `TaskQueue.Shadow` | include/taskqueue.h:29-69 | every run whose pushes all find room (`Checked` with `RoomLeft`) refines the deque that its steps add up to |
| `TaskQueue.TasksKept` | include/taskqueue.h:29-69 | over every such run no task is returned twice, and each pushed task is in the ring, in one hand, or returned, exactly one of these |
| `TaskQueue.PopNull` | include/taskqueue.h:35-56 | over every such run a pop that gives up finds the queue empty |
| `TaskQueue.StealNull` | include/taskqueue.h:58-69 | over every such run a steal that gives up finds at most one task, which the owner is then about to pop |
| `TaskQueueLimits.PopOne` | include/taskqueue.h:35-56 | a pop with no thief in between returns the newest task, also when it is the last |
| `TaskQueueLimits.StealOne` | include/taskqueue.h:58-69 | a steal with no other thread in between returns the oldest task |
| `TaskQueueLimits.StealNone` | include/taskqueue.h:60-64 | a steal from an empty queue leaves it as it was |
| `TaskQueueLimits.PopNone` | include/taskqueue.h:46-49 | a pop of an empty queue leaves it as it was |
| `TaskQueueLimits.WriteKeepsIff` | include/taskqueue.h:29-33 | with all tasks kept so far, a push's write of its slot keeps them if and only if there is room: no queued task and no claimed but unread one has that slot |
| `TaskQueueLimits.KeptIff` | include/taskqueue.h:29-69 | a run of the code as it is keeps its tasks throughout if and only if every push found room |
| `TaskQueueLimits.Overflow` | include/taskqueue.h:29-33 | a run that loses a task: 1025 pushes with no pop and no steal |
| `TaskQueueLimits.Overtaken` | include/taskqueue.h:58-69 | another: a thief stops between its claim and its read, and the owner's pushes, each on an empty queue, come round to its slot |
| `TaskQueueLimits.TailIff` | include/taskqueue.h:29-33 | pushing only while the tail is below a bound, which the owner can check, keeps all tasks in every run if and only if the bound is at most 1024 |
| `TaskQueueLimits.LengthIff` | include/taskqueue.h:29-33 | pushing only while the queue is shorter than a bound does so if and only if the bound is zero: no check for a full ring is enough |
| `OptimisticDequeue.StepKeeps` | src/concurrentqueue.h:1954-2052 | every atomic step keeps the invariant that ties the counters to the fate of each increment |
| `OptimisticDequeue.TakesAnElement` | src/concurrentqueue.h:1986-2003 | the index a dequeue takes is below the tail: there is an element |
| `OptimisticDequeue.IndicesDistinct` | src/concurrentqueue.h:2550-2619 | over every run of any number of dequeuers the indices taken are pairwise distinct and below the tail |
| `OptimisticDequeue.CountersSettle` | src/concurrentqueue.h:1954-2052 | when no dequeue is between its increments, headIndex is dequeueOptimisticCount minus dequeueOvercommit |
| `OptimisticDequeue.TailIsEnqueues` | src/concurrentqueue.h:2550-2619 | the tail is the number of elements enqueued, which dequeues never delay |
| `OptimisticDequeue.LoneDequeue` | src/concurrentqueue.h:1954-2052 | a dequeue that then runs alone takes the head element if there is one, and fails if there is none |
| `QueueCounters.CountersBound` | src/queue.h:66-110 | with one consumer taken + credit <= pushed <= completed enqueues; no message is lost or made up |
| `QueueCounters.SentIsEnqueued` | src/queue.h:83-86 | the messages that went in are those of the calls to push |
| `QueueCounters.LonePop` | src/queue.h:88-101 | a pop with no other call in progress gets a message if there is one |
| `QueueCounters.CreditIsAMessage` | src/queue.h:74-110 | with one consumer the credit that size, empty and pop go by is never more than the messages there, so a pop that has seen it positive gets one: the missed-dequeue branch is dead |
| `QueueCounters.CreditLasts` | src/queue.h:74-80 | one look at the producers' counter lasts for all the messages it counted: the credit runs out exactly when as many have been dequeued as had been pushed at the look |
| `QueueCounters.EmptyMeansEmpty` | src/queue.h:74-110 | once the producers have stopped, a pop that returns nothing, a zero size or a true empty has found every message taken |
| `SpanTree.SpanChildren` | include/converse.h:1470-1485 | the children macro lists exactly the PEs whose parent is p, each once, as many as the count macro says |
| `SpanTree.SpanUpBelow` | include/converse.h:1458-1461 | a parent has a smaller number, so every PE leads up to PE 0 |
| `SpanTree.KidCount` | include/converse.h:1462-1469 | the child counts of both kinds of tree are the numbers of PEs with that parent |
| `SpanTree.ListKids` | src/collectives.cpp:484-490 | CmiListReduce's own child count is the same one |
| `Reduction.IdsAndSlots` | src/collectives.cpp:25-36 | the 32-bit ids of the two counters never meet in a slot, also across the wrap; ids repeat after 2^31 calls, slots after 16 |
| `Reduction.MergeAll` | src/collectives.cpp:513-530 | a PE's contribution merged with its children's, in any order of arrival, is one contribution from each PE of its subtree |
| `ReductionSafety.ContributeStep` | src/collectives.cpp:474-511 | a local call keeps the invariant, whether its children were early or not |
| `ReductionSafety.ArriveStep` | src/collectives.cpp:554-561 | so does a child's message, which is recorded for its own reduction only and is no longer under way |
| `ReductionSafety.ReturnStep` | src/collectives.cpp:548-552 | so does the return of a root handler, which clears the record; any call or message may come between the handler's call and its return |
| `ReductionSafety.ReturnCloses` | src/collectives.cpp:406-415 | when a root handler returns its reduction is no longer open and its slot is free |
| `ReductionSafety.Exact` | src/collectives.cpp:430-561 | over every run in which a started reduction's id is not that of another open one, the root handler runs at most once per reduction, on a merge that holds each PE's contribution exactly once |
| `ReductionSafety.NoOverflow` | src/collectives.cpp:452-459 | in such runs no PE is sent more child messages than the record has slots for |
| `ReductionSafety.NothingStuck` | src/collectives.cpp:513-552 | in such runs, once every PE has contributed and no message is under way, the root handler has been called |
| `ReductionSafety.StopsOnClash` | src/collectives.cpp:393-402 | over every such run the program stops only when a call or a child's message needs the slot of another open reduction of the same counter, a multiple of 16 calls away: two open reductions abort rather than mix |
| `ReductionLimits.NearRunFree` | src/collectives.cpp:358-370 | if no PE starts a reduction 2^31 calls or more from an open one of its counter, open reductions have different ids |
| `ReductionLimits.FewCalls` | src/collectives.cpp:358-370 | a program that uses each counter for at most so many reductions never starts one that far or farther from an open one, so 2^31 uses of a counter are always safe |
| `ReductionOverrun.MixedUp` | src/collectives.cpp:363-370 | the run that fails, on any machine with two or more PEs: a leaf has made 2^31 + 1 calls when the other PEs make their first, and its parent takes the message of its last call for that of its first |
| `ReductionOverrun.MixedHas` | src/collectives.cpp:513-551 | the root handler then gets everyone's first contribution, but the leaf's of 2^31 calls on in the place of its first |
| `ReductionOverrun.SeventeenthCall` | src/collectives.cpp:393-402 | the root of any such machine may call 16 times without an answer; the 17th call stops the program |
| `ReductionLimits.ExactBelow` | src/collectives.cpp:358-370 | every run of any machine is exact if no PE starts a reduction 2^31 calls or more from an open one of its counter |
| `ReductionLimits.ExactIff` | src/collectives.cpp:358-370 | such a bound makes every run exact if and only if it is at most 2^31 |
| `ReductionLimits.RunsBelow` | src/collectives.cpp:393-402 | no run of any machine stops if no PE starts a reduction 16 calls or more from an open one of its counter |
| `ReductionLimits.StopIff` | src/collectives.cpp:393-402 | such a bound keeps every run from stopping if and only if it is at most 16, the number the abort message names |
| `ReductionLimits.MachineLimits` | src/collectives.cpp:358-402 | so for every machine of two or more PEs, whatever its lists, 2^31 and 16 are exactly the limits |
| `Broadcast.ForwardToNodes` | src/collectives.cpp:83-98 | the relay loop sends to exactly the children of the process in the tree rooted at the sender |
| `Broadcast.SendToPeers` | src/collectives.cpp:102-118 | and to every other PE of its own process |
| `Broadcast.Spread` | src/collectives.cpp:123-128 | one relay step hands on everything owed to the subtree, nothing twice |
| `Broadcast.StepKeeps` | src/collectives.cpp:266-276 | each arrival delivers one copy with the user's handler and keeps the rest owed |
| `Broadcast.SameAsFlat` | src/collectives.cpp:140-162 | for every machine, source and order of arrival the broadcast ends after one delivery to each other PE: the deliveries of the plain loop |
| `Broadcast.FlatBroadcast` | src/collectives.cpp:156-160 | what the plain loop delivers |
| `ListSend.WordRoundTrip` | src/collectives.cpp:902-908 | a trailer word reads back as written |
| `ListSend.HandlerRoundTrip` | src/collectives.cpp:869-869 | so does a 16-bit handler id kept in a 32-bit word, negative ones included |
| `ListSend.BuildFanout` | src/collectives.cpp:898-909 | the message for a process holds the payload bytes unchanged and the trailer with count, handler and ranks |
| `ListSend.FanoutHandler` | src/collectives.cpp:860-882 | the handler hands a copy to each rank of the trailer, the first one last |
| `ListSend.FanoutRoundTrip` | src/collectives.cpp:833-909 | a message as built is handed out as the plain loop would have: same PEs, handler, length and bytes |
| `ListSend.SendToProcess` | src/collectives.cpp:886-915 | so is what is sent to one process, short messages and single destinations included; two or more destinations cost one buffer, to the first of them |
| `ListSend.SyncListSend` | src/collectives.cpp:919-960 | for every PE list, duplicates included, each destination gets exactly the copies of the plain loop; every other process the list names is sent one buffer and this one plain messages; with a persistent handle, one process or one destination the plain loop itself is sent |
| `Persistent.NoneFree` | src/persist-comm.cpp:374-383 | the ring search fails exactly when all four buffers are busy |
| `Persistent.SendsTable.FindFreeBuffer` | src/persist-comm.cpp:374-383 | the buffer it finds is free and every one passed over from nextBuf on is busy; if it finds none, all are busy |
| `Persistent.SendsTable.FlushPending` | src/persist-comm.cpp:385-394 | pending messages go to free buffers until one or the other runs out |
| `Persistent.SendsTable.Send` | src/persist-comm.cpp:588-625 | the send path: refused if too large, queued behind earlier messages, else written |
| `Persistent.SendsTable.Granted` | src/persist-comm.cpp:417-429 | setup releases what was waiting for it |
| `Persistent.SendsTable.Credited` | src/persist-comm.cpp:465-478 | a credit frees its buffer and lets the next message through |
| `PersistentChannel.StepKeeps` | src/persist-comm.cpp:345-478 | every send, grant, put, notification, credit, reference and free keeps the channel's invariant |
| `PersistentChannel.RefIsOwned` | src/convcore.cpp:968-985 | the biased count is one for the delivery plus the CmiReference calls minus the CmiFree calls since |
| `PersistentChannel.CreditIff` | src/convcore.cpp:975-985 | a free sends one credit, for its buffer, if and only if it gave up the last reference |
| `PersistentChannel.CallsCount` | src/persist-comm.cpp:588-625 | what was sent is what the calls gave, in order, and the channel is set up by its one grant; both can happen at any time |
| `PersistentChannel.CreditSafety` | src/persist-comm.cpp:663-684 | a buffer is busy exactly when one put, notification, credit or message the program still references exists for it, and each delivery has been credited once unless still referenced |
| `PersistentChannel.NotOverwritten` | src/persist-comm.cpp:345-372 | no step changes a buffer while the program has a reference to it |
| `PersistentChannel.HolderReads` | src/persist-comm.cpp:431-463 | so as long as it has one the program reads the message it was given |
| `PersistentChannel.NothingLost` | src/persist-comm.cpp:431-463 | delivered and flying messages together are exactly those written |
| `PersistentChannel.WritesInOrder` | src/persist-comm.cpp:374-394 | buffers are written in the order of the sends, across setup and credits |
| `PersistentChannel.NoStall` | src/persist-comm.cpp:602-625 | after setup a message waits only while all four buffers are in use, so none waits when nothing is under way or held |
| `PersistentChannel.AtMostFour` | src/persist-comm.cpp:374-383 | packets under way and messages the program still references are together at most four |
| `PersistentChannel.ArrivalProgress` | src/persist-comm.cpp:337-478 | every arrival of a put, a notification or a credit brings the channel nearer to rest, so arrivals come to an end |
| `PersistentChannel.AllHandedOver` | src/persist-comm.cpp:385-478 | at rest, with setup done and nothing referenced, every message sent has been handed over exactly once |
| `PersistentChannel.LastFree` | src/convcore.cpp:969-985 | dropping the last reference of a delivered message sends exactly one credit, for its buffer, and keeps the invariant |
| `PrioQueue.Queue.constructor` | src/queueing.cpp:98-105 | a new queue is empty |
| `PrioQueue.Queue.FrontLevel` | src/queueing.cpp:56-68 | the walk names the first level with a message, skipping drained ones |
| `PrioQueue.Queue.LevelFor` | src/queueing.cpp:70-80 | finding or making a level changes no message and keeps the count of drained levels |
| `PrioQueue.Queue.Push` | src/queueing.cpp:120-125 | inserts behind everything of its priority in the one ordered list the queue stands for |
| `PrioQueue.Queue.PushFront` | src/queueing.cpp:127-132 | inserts ahead of everything of its priority |
| `PrioQueue.InsertBackKeeps` | src/queueing.cpp:3-7 | the insertion behind its equals keeps the list ordered and every other item in its place |
| `PrioQueue.InsertFrontKeeps` | src/queueing.cpp:3-7 | so does the insertion in front, which goes ahead of its equals and behind everything smaller |
| `PrioQueue.Queue.ContentsSorted` | src/queueing.cpp:3-7 | the list is always in increasing priority value |
| `PrioQueue.Queue.Top` | src/queueing.cpp:134-139 | the first message of that list |
| `PrioQueue.Queue.TopPriority` | src/queueing.cpp:141-157 | its own walk names the priority of that message |
| `PrioQueue.Queue.Pop` | src/queueing.cpp:159-169 | drops the first message; size is the total and emptyLevels the drained levels kept, at most four; a drained level stays allocated unless four are kept already |
| `SlotTable.Share` | src/scheduler_registry.cpp:90-92 | the share is the whole number nearest to the weight's part of the table, the larger of two, and at least one |
| `SlotTable.SharesAddUp` | src/scheduler_registry.cpp:89-94 | while the weights add up below 2^32 so do the shares of up to 64 handlers, wrapped products included |
| `SlotTable.SharesWrap` | src/scheduler_registry.cpp:89-101 | two weights that add up to 2^32 + 1 and whose shares add up to 2^32 + 64, a sum that the 32-bit counter takes for 64 |
| `SlotTable.Trim` | src/scheduler_registry.cpp:96-101 | trimming terminates and each handler keeps a slot; what was trimmed is at most one below the largest left; with at most 64 handlers the 32-bit sum of the shares then fits |
| `SlotTable.DefaultShares` | src/scheduler_registered.cpp:124-127 | at the default weights 16, 1, 16 and 64 the handlers have 11, 1, 11 and 41 slots |
| `SlotTable.Probe` | src/scheduler_registry.cpp:117-119 | probing terminates at the first empty slot from its start on, round the table, while there is one |
| `SlotTable.Place` | src/scheduler_registry.cpp:105-127 | one handler gets its share, or the table is full; slots already given stay; in an empty table its slots are evenly spaced |
| `SlotTable.BuildTable` | src/scheduler_registry.cpp:70-131 | for any weights, in 32-bit arithmetic: nothing is built if their sum is zero; otherwise no slot is given twice, and with at most 64 handlers each has exactly its trimmed share, at least one slot, if and only if the shares add up below 2^32; the first handler's slots are evenly spaced |
| `SlotTable.SweepMeets` | src/scheduler_registered.cpp:196-199 | a sweep of the whole table meets every handler wherever it starts |
| `SchedulePoll.RegisterInitThread` | src/scheduler_registered.cpp:120-132 | the table a PE sweeps holds every registered handler, at every polling rate an int can hold, and 11, 1, 11 and 41 slots at the default |
| `SchedulePoll.Pe.PollNodeFirst` | src/scheduler_registered.cpp:59-72 | after the allowed number of node messages in a row, with local work, nothing is asked and the streak starts again; otherwise the node queues are asked in order, a message found lengthens the streak and none ends it |
| `SchedulePoll.Pe.PollProgress` | src/scheduler_registered.cpp:98-113 | at most one empty network poll per sweep; what it brings is run thread queue first; if it reports no work it has run none |
| `SchedulePoll.Pe.Iteration` | src/scheduler_registered.cpp:183-209 | an iteration runs at most one message: the thread queue's first, then the node queue's unless it is local work's turn, and some message whenever there was local work; the loop returns if and only if none was run and no shared-memory message came, and then every handler reported no work and the thread and node queues were really polled |
| `Barrier.StepKeeps` | src/barrier.h:18-39 | every step keeps the invariant of the round |
| `Barrier.NoneLeavesEarly` | src/barrier.h:18-39 | no thread leaves a round before all have arrived in it |
| `Barrier.TicketHolds` | src/barrier.h:28-33 | no ticket is missed: while a thread waits on m the step is m or m + 1 |
| `Barrier.WaitingCounts` | src/barrier.h:20-25 | waiting is the number of arrivals of the round except inside the reset |
| `Barrier.RoundsPass` | src/barrier.h:18-39 | every access brings its thread on: n threads get through r rounds within 5 * n * (r + 1) of them |
| `Barrier.SomeoneMoves` | src/convcore.cpp:1228-1234 | the barrier never hangs: some thread can always move |

## Where code and comments differ

- src/queue.h says a dequeue can miss because a producer's increment ran ahead of its
  enqueue. The code increments after the enqueue, so with one consumer that branch
  cannot be reached (`QueueCounters.CreditIsAMessage`).

## Left out

- Weak memory orders: acquire and release annotations are taken as sequentially consistent accesses.
- IPC bootstrap, attaching segments, sizing them for a host, and choosing whether a message goes through the pool or the network.
- Mempool blocks above the largest class, block removal, the `used` counter and the stack of remotely freed slots.
- Mempool addresses: each block keeps its own map from offsets to slot headers, and `Free` is told the block that the header names, instead of one address space for all blocks.
- TaskQueue.TasksKept: for runs whose pushes all find room (`RoomLeft`), since TaskQueuePush does not look; `TaskQueueLimits.KeptIff` says that these are exactly the runs that keep their tasks, and `TaskQueueLimits.Overflow` and `Overtaken` are runs that do not.
- TaskQueue.StepRefines: for every step but a write into a slot without room.
- TaskQueue.Shadow: for the same runs.
- TaskQueue.PopNull: for the same runs.
- TaskQueue.StealNull: for the same runs.
- ReductionSafety.Exact: for runs in which no PE starts a reduction while another one with the same 32-bit id is open (`IdsFree`), since the table check cannot tell equal ids apart; `ReductionOverrun.MixedUp` is a run that fails without it, and `ReductionLimits.MachineLimits` says exactly which bounds on call counts exclude such runs.
- ReductionSafety.NoOverflow: for the same runs as Exact.
- ReductionSafety.NothingStuck: for the same runs as Exact.
- ReductionSafety.StopsOnClash: for the same runs as Exact.
- Reductions: in the model a PE's calls may come in any order, which includes the order the counters give; CmiResetGlobalReduceSeqID is not modelled.
- Mempool.Pool.Malloc: what newblockfn hands back is a parameter, at least as large as asked for and apart from the other blocks; the pool starts from one block with room for a slot.
- The rest of src/concurrentqueue.h: block index, producer hash, free lists, bulk operations and index wrap-around.
- Node-level reductions and broadcasts, which use the same trees with one PE per process; groups and multicasts.
- ListSend.SyncListSend: `std::stable_sort` is represented by its contract (the places of the list, each once, ordered by process).
- Persistent channels that stay within a process, their teardown, and several senders on one receive request; one-sided put visibility is the backend's.
- PrioQueue: the level map is an ordered sequence of levels; null queues and destruction are not modelled.
- SchedulePoll.Pe.Iteration: one iteration of the loop; how often it repeats depends on the environment. The other two schedulers are not modelled.
- Wrap-around of 64-bit counters and tickets, and of the task queue's 32-bit indices.
- Threads, isomalloc, seed balancers, CCS, topology and zero-copy transfers.
