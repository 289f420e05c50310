# ai-pipe: a verified model

ai-pipe runs a directed graph of processing nodes on a thread pool. This project models the
concurrent protocols and the graph algorithms it rests on, in Dafny, and proves what they
promise for every input, every interleaving and every reachable state.
`dafny verify dfyconfig.toml` checks everything.

Concurrent code is a state machine whose steps make at most one access to a shared atomic,
under sequential consistency, with any number of threads. In the engine a thread is a call
stack of frames (`Stacks`), so the recursion of the end-of-stream check through propagation
and cascade is kept. An invariant such as "one owner per node" is a statement about a sum of
weights over all frames; each step changes such a sum by the weights of the frames it
replaces, and the invariant of each engine is a handful of such equations. Code that changes
an object step by step is a class or a loop with its invariants, proved against a function
or a predicate on values.

| files | what they model |
|---|---|
| `Stacks`, `Networks`, `Scheduler` | threads as stacks and weighted sums; the compiled network the engine runs on; scheduling decisions |
| `StreamEngine`, `StreamInvariant`, `StreamSteps`, `StreamOwner`, `StreamOwed`, `StreamSinks`, `StreamProof`, `StreamResults`, `StreamDrain`, `StreamStranded`, `StreamReady`, `StreamOutputs`, `StreamGoesOn` | streaming execution, the end-of-stream protocol, and what becomes of inputs and outputs |
| `BatchEngine`, `BatchInvariant`, `BatchSteps`, `BatchProof`, `BatchResults`, `BatchCauses`, `BatchEnds` | batch execution, its completion report, what can stop it, and that it comes to rest |
| `MpmcRing`, `RingResults`, `RingAnswers`, `CountedRing`, `PowerOfTwo`, `Multiples` | the lock-free ring: interleavings, refinement of a bounded FIFO, what its callers are told, its statistics, capacity and masks |
| `RingBuffer`, `NodeQueue`, `KeepLatest`, `RingWindow` | the ring and its drop policies called by one thread; concurrent KeepLatest producers, and that their counters are those of the ring |
| `FrameAlignment`, `AlignedGather`, `AlignedStream` | the three alignment policies, the gather loop, repeated gathers |
| `ThreadPool` | the sleep and wake protocol of the work-stealing pool, and what becomes of its tasks |
| `Kahn`, `EdgeKeys`, `Graphs`, `CompiledGraph`, `CompiledNetwork` | building and compiling a graph, and that the result is a network as the engine models presuppose |
| `EndToEnd` | the engine's promises on the network of any graph that compile accepts |
| `PathSearch`, `ForkSearch` | all paths between a fork and a join; the lowest common fork |
| `SyncGroups`, `JoinSync`, `SyncStrategy` | drop coordination, watermark and cleanup |
| `SyncSetup`, `SyncResults` | setting the strategy up from a compiled graph, and what its answers then mean in the graph |
| `Options`, `Texts` | absent values; numerals and separators in names |

Hypotheses, stated where they are used: each input port is fed by at most one edge and every
edge ends at a declared port (`Networks.ValidNetwork`); end of stream is signalled only on
source nodes; an ingress push and its latch check are one step; the pool accepts every task;
a streaming run is not stopped. Positions and counters of queues are unbounded naturals. The
unclaimed-task counter of the pool and the rounding of capacities wrap as machine words do.

## Model

| member | source | states |
|---|---|---|
| `StreamProof.InvStep` | src/execution_engine_impl.cpp:2119-2214 | every step of every thread keeps the invariant: one owner per executing node, a due flush has a thread that will notice it, a flushed node has a thread that will latch what it feeds, sink count equals flushed sinks |
| `StreamProof.RunInv` | src/execution_engine_impl.cpp:1430-1572 | the invariant holds in every state of every streaming run |
| `StreamResults.HooksExclude` | src/execution_engine_impl.cpp:2132-2165 | process() and the flush hook of one node never overlap, nor does either with itself |
| `StreamResults.FlushIsFinal` | src/execution_engine_impl.cpp:2147-2154 | a flushed node flushed exactly once, starts no process() afterwards, and its queues stay drained and untouched, whatever losing detectors do to its state word |
| `StreamResults.StartsUnflushed` | src/execution_engine_impl.cpp:1449-1498 | process() only ever starts on a node that has not flushed |
| `StreamResults.FlushIsTopological` | src/execution_engine_impl.cpp:2195-2206 | when a node has flushed, every node on any path to it has flushed once and can emit nothing more |
| `StreamResults.NoMissedFlush` | src/execution_engine_impl.cpp:1560-1564 | with no step in progress, a node whose ports are all latched and empty has flushed, although detectors skip a busy node |
| `StreamResults.NoLostWakeup` | src/execution_engine_impl.cpp:1244-1304 | with no step in progress, a waiting node without latched ports has an empty input queue, and no task is counted active |
| `StreamResults.NoLostWakeupSingle` | src/execution_engine_impl.cpp:1277-1288 | with no step in progress, a waiting node with one input port has nothing queued, latched or not |
| `StreamResults.ReachedMeansAllSinks` | src/execution_engine_impl.cpp:2216-2228 | the end-of-stream flag is set only after every sink flushed and went silent, and its callback fires at most once |
| `StreamResults.EndOfStreamCompletes` | src/execution_engine_impl.cpp:2198-2228 | on a DAG, once all sources are signalled, queues are empty and no step is in progress, every node flushed exactly once and the callback fired exactly once |
| `StreamDrain.SourceDrains` | src/scheduler_strategies.hpp:112-118 | with no step in progress, a waiting source has nothing queued on any of its ports, whichever of them are latched |
| `StreamDrain.JoinFreeCompletes` | src/execution_engine_impl.cpp:1473-1486 | if only sources have more than one port, the same holds with no assumption on the queues: they drain |
| `StreamResults.LatchedDownstream` | src/execution_engine_impl.cpp:2200-2206 | with no step in progress, a flushed node has latched every port it feeds |
| `StreamDrain.LatchedFlushes` | src/execution_engine_impl.cpp:2283-2285 | with no step in progress, a source or a node with one port has flushed once all its ports are latched |
| `StreamStranded.JoinIsStranded` | src/execution_engine_impl.cpp:2105-2117 | for every DAG and every node in it with upstream edges and at least two ports, a run that does nothing but signal the sources ends with no step in progress, all sources signalled, and that node waiting with a packet queued although all its ports are closed |
| `StreamStranded.DrainsIffJoinFree` | src/execution_engine_impl.cpp:2105-2117 | the exact condition: every run that has signalled all sources and come to rest is at end of stream, if and only if only sources have more than one port |
| `StreamReady.WaitsForInputs` | src/scheduler_strategies.hpp:112-127 | a scheduling attempt that goes on to claim a node with upstream edges has itself looked at every input port in a state in which it was drained or held data |
| `StreamOutputs.OutputsConserved` | src/execution_engine_impl.cpp:1955-1995 | at every moment of every run, the outputs a node has had for an edge, from process() and from the flush, are those put into the queue at its end, those refused there, and those still on their way |
| `StreamOutputs.OutputsArrive` | src/execution_engine_impl.cpp:1955-1995 | with no step in progress each output was sent or refused, exactly once; without DropTail each was sent |
| `StreamOutputs.RefusedIsFull` | src/execution_engine_impl.cpp:1980-1985 | an output is refused only by a DropTail queue without room, counting a packet that its node may just be taking out |
| `StreamOutputs.CanBeSent` | src/execution_engine_impl.cpp:1980-1991 | an output that has come to its edge can always be sent, unless a full DropTail queue refuses it |
| `StreamOutputs.QueueCounts` | src/execution_engine_impl.cpp:1955-1995 | a queue has accepted exactly what was sent along its edge and what came from outside |
| `StreamGoesOn.CanGoOn` | src/execution_engine_impl.cpp:1430-1572 | no thread is ever stuck: in every reachable state of a stream, whatever thread is not finished can make a step |
| `BatchProof.InvStep` | src/execution_engine_impl.cpp:1389-1572 | every step of a batch keeps the invariant of ownership, at-most-once processing, task counting and the completion report |
| `BatchProof.RunInv` | src/execution_engine_impl.cpp:1430-1572 | the invariant holds in every state of every batch run |
| `BatchResults.ActiveCountsTasks` | src/execution_engine_impl.cpp:1389-1428 | m_activeTasks equals the number of tasks between a won scheduling CAS and their decrement, and is zero when no step is in progress |
| `BatchResults.ProcessesOnce` | src/execution_engine_impl.cpp:1441-1456 | each node calls process() at most once, and counts a success only after it |
| `BatchResults.SuccessGoesBack` | src/execution_engine_impl.cpp:1955-1995 | a node succeeded only if every node on any path to it succeeded |
| `BatchResults.SinksMeanAll` | src/scheduler_strategies.hpp:47-64 | on a DAG, if every sink succeeded then every node succeeded exactly once |
| `BatchResults.CallbackMeansComplete` | src/execution_engine_impl.cpp:2355-2382 | the completion callback fires at most once, and only after every node of the DAG succeeded exactly once |
| `BatchResults.QuietCallback` | src/execution_engine_impl.cpp:2324-2385 | with no step in progress the callback has fired if and only if every node succeeded |
| `BatchResults.FedIsCompleted` | src/execution_engine_impl.cpp:1997-2031 | with no step in progress and no stop, a node whose ports all got data, or that has no ports and was tried once, has completed |
| `BatchResults.BatchCompletes` | src/execution_engine_impl.cpp:1187-1225 | a batch gets through: with at most one port per source, inputs for all of them, an output for every edge of a node that succeeded, and no failed process(), stop request or discarded packet, a batch at rest was not stopped, every node succeeded exactly once and the callback fired once |
| `BatchResults.OutputIsSent` | src/execution_engine_impl.cpp:1955-1995 | with no step in progress and no stop, every output of a node that succeeded is in the queue at the end of its edge |
| `BatchResults.WaitsForInputs` | src/scheduler_strategies.hpp:20-34 | an attempt that is about to claim a node with upstream edges knows that every port has got a packet, and every port still holds one while the node waits and the batch goes on |
| `BatchResults.GathersAreFed` | src/execution_engine_impl.cpp:1574-1665 | with at most one port per source and nothing of the kind having happened, no gather finds a port dry |
| `BatchResults.StopHasCause` | src/execution_engine_impl.cpp:2033-2052 | with at most one port per source, a stop means that a process() failed, somebody asked for it, or a gather discarded a packet |
| `BatchCauses.SourceStops` | src/scheduler_strategies.hpp:22-24 | a source with two or more ports can stop the batch without any of these: it is scheduled on its first packet and finds the next port dry |
| `BatchCauses.StopsForCauseIff` | src/scheduler_strategies.hpp:20-34 | the exact condition: every stop has such a cause, if and only if no source has more than one port |
| `BatchEnds.ThreadLowers` | src/execution_engine_impl.cpp:1389-1572 | every step of a thread lowers a measure of what is left to do |
| `BatchEnds.RunIsBounded` | src/execution_engine_impl.cpp:1389-1572 | on a DAG a batch makes at most a fixed number of steps for every input, attempt or stop from outside |
| `BatchEnds.AloneIsBounded` | src/execution_engine_impl.cpp:1389-1572 | left alone from any state, it makes at most as many steps as the measure says |
| `BatchEnds.CanGoOn` | src/execution_engine_impl.cpp:1389-1572 | a batch that has not come to rest has a thread that can make a step |
| `BatchEnds.ComesToRest` | src/execution_engine_impl.cpp:2324-2385 | so every run can be continued, without anything from outside, until it has come to rest |
| `MpmcRing.InvStep` | src/lock_free_queue.hpp:173-238 | every step of tryPush and tryPop keeps the tie between sequence numbers, counters, slot owners and values |
| `MpmcRing.RunInv` | src/lock_free_queue.hpp:173-238 | that tie holds in every state of every interleaving |
| `MpmcRing.PushSees` | src/lock_free_queue.hpp:177-196 | what the sequence number a producer reads tells it about the slot of the next position |
| `MpmcRing.PopSees` | src/lock_free_queue.hpp:212-231 | the same for a consumer |
| `RingResults.RefinesFifo` | src/lock_free_queue.hpp:173-238 | every step is a step of a bounded FIFO: nothing, an append below the capacity, or taking the oldest |
| `RingResults.FifoEffect` | src/lock_free_queue.hpp:182-188 | the claiming CAS is the step at which a push or a pop takes effect |
| `RingResults.PopReturnsPushed` | src/lock_free_queue.hpp:234-237 | the pop at position p returns the value pushed at p, and no position is returned twice |
| `RingResults.HistoryGrows` | src/lock_free_queue.hpp:199-202 | what was pushed at a position and what it returned never change |
| `RingResults.OneOwner` | src/lock_free_queue.hpp:199-202 | no two threads ever work on the same cell |
| `RingResults.FullOnlyIf` | src/lock_free_queue.hpp:173-203 | wherever a push is, short of having filled its slot, it ends only if the queue is full or the slot one lap back is still being emptied; a lost race does not end it |
| `RingResults.EmptyOnlyIf` | src/lock_free_queue.hpp:208-238 | wherever a pop is, short of having emptied its slot, it ends only if the queue is empty or its head is still being filled |
| `RingResults.QuietConserves` | src/lock_free_queue.hpp:173-238 | with no call in progress, exactly the positions below the dequeue counter were returned, each with its value, and the rest is the queue |
| `RingResults.QuietAnswers` | src/lock_free_queue.hpp:177-231 | with no call in progress, the sequence numbers say full exactly when full, empty exactly when empty, and the head cell holds the oldest value |
| `RingAnswers.TalkRuns` | src/lock_free_queue.hpp:173-238 | in every interleaving every call in progress works on its own request, and all replies given so far are true of the ring: accepted and delivered positions hold the item named, each once |
| `RingAnswers.RepliesAreRight` | src/lock_free_queue.hpp:173-238 | every call that ends has replied once to its own request; a push is refused only without room, a pop fails only without an item to take |
| `RingAnswers.AllAnswered` | src/lock_free_queue.hpp:173-238 | with no call in progress, every claimed position was accepted and every dequeued one delivered, by exactly one reply each |
| `CountedRing.CountsLag` | src/lock_free_queue.hpp:552-669 | at every moment of every interleaving, total_pushed, total_popped and total_dropped each lack exactly the operations that took effect and are not counted yet |
| `CountedRing.RestConserves` | src/lock_free_queue.hpp:552-669 | with no call in progress, every pushed item was popped, dropped, cleared or is queued, each exactly once, as multisets; the counters say how many; each position handed out what was pushed there |
| `CountedRing.CountersAddUp` | src/lock_free_queue.hpp:575-580 | pushed = popped + dropped + queued exactly if clear() never discarded an item |
| `PowerOfTwo.RoundsUp` | src/lock_free_queue.hpp:378-393 | the capacity is the least power of two that is at least 2 and at least the request, up to half the word range; it wraps to zero exactly beyond that |
| `PowerOfTwo.MaskedPosition` | src/lock_free_queue.hpp:178 | masking a position with capacity - 1 is its remainder by the capacity |
| `RingBuffer.Ring.constructor` | src/lock_free_queue.hpp:135-148 | an empty ring with the least sufficient power of two as capacity |
| `RingBuffer.Ring.TryPush` | src/lock_free_queue.hpp:173-203 | called alone, appends if and only if there is room |
| `RingBuffer.Ring.TryPop` | src/lock_free_queue.hpp:208-238 | called alone, takes the oldest item, or nothing if and only if the ring is empty |
| `RingBuffer.Ring.Size` | src/lock_free_queue.hpp:345-349 | called alone, the number of items |
| `NodeQueue.PoliciesKeep` | src/lock_free_queue.hpp:598-761 | DropTail rejects exactly when full; DropHead keeps the newest items that fit, KeepLatest the newest min(max(N, 1), capacity), of the old queue and the new item; exactly the older ones are dropped, oldest first |
| `NodeQueue.ConservedCounts` | src/lock_free_queue.hpp:552-561 | for one caller: accepted = popped + dropped + queued, as counters and as multisets, and in order |
| `NodeQueue.TakenConserves` | src/lock_free_queue.hpp:772-775 | popping or evicting keeps: every accepted item left in order or is still queued |
| `NodeQueue.NodeQueue.Push` | src/lock_free_queue.hpp:516-529 | does what the policy says and keeps the counters and conservation; only DropTail rejects, only when full |
| `NodeQueue.NodeQueue.PushDropTail` | src/lock_free_queue.hpp:598-612 | accepts if there is room, otherwise counts a rejection |
| `NodeQueue.NodeQueue.PushDropHead` | src/lock_free_queue.hpp:616-669 | always accepts, evicting one item if full |
| `NodeQueue.NodeQueue.PushKeepLatest` | src/lock_free_queue.hpp:698-761 | always accepts, after evicting down to the window |
| `NodeQueue.NodeQueue.TryPop` | src/lock_free_queue.hpp:552-561 | the oldest item, counted as popped |
| `KeepLatest.WindowBound` | src/lock_free_queue.hpp:698-721 | with P producers, enq - deq never exceeds N + P - 1 while no evict loop gave up on an unpublished head, although size() reads its counters at different times |
| `KeepLatest.SoleProducer` | src/lock_free_queue.hpp:690-693 | self-healing: from any state without a push under way, one producer's push alone brings the window to at most N, for good |
| `KeepLatest.SingleProducer` | src/lock_free_queue.hpp:679-681 | with one producer and any consumers, at most N at every moment |
| `KeepLatest.CapacityBound` | src/lock_free_queue.hpp:683-688 | never more than the capacity |
| `RingWindow.StepIsWindowStep` | src/lock_free_queue.hpp:173-238 | every step of the concurrent ring is, on its counters and unpublished positions, a claim below the capacity, a publication, a removal of a published head, or nothing |
| `RingWindow.EvictionFails` | src/lock_free_queue.hpp:772-775 | an eviction, wherever it is, fails only if the queue is empty or its head is not published |
| `KeepLatest.Overshoot` | src/lock_free_queue.hpp:710-712 | giving up on an unpublished head breaks the bound: for every N and every two or more producers, every size up to the capacity is reached |
| `KeepLatest.WindowExact` | src/lock_free_queue.hpp:683-688 | the exact condition: no run exceeds N + P - 1, if and only if P is at most 1 or the capacity is at most N + P - 1 |
| `KeepLatest.CapacityIsReached` | src/lock_free_queue.hpp:683-688 | with two or more producers the capacity is the least bound of the window |
| `FrameAlignment.NewestId` | src/frame_alignment.hpp:24-30 | the largest head id |
| `FrameAlignment.AlignedById` | src/frame_alignment.hpp:32-41 | true exactly if all assigned heads carry the same id |
| `FrameAlignment.StaleById` | src/frame_alignment.hpp:43-54 | lists exactly the assigned heads below some other, once each |
| `FrameAlignment.AlignedByStream` | src/frame_alignment.hpp:74-91 | true exactly if all assigned heads carry the same stream and frame |
| `FrameAlignment.StaleByStream` | src/frame_alignment.hpp:93-139 | lists exactly the heads with a later head or before the epoch, or, if there are none, those with the smallest key |
| `FrameAlignment.AlignedByTime` | src/frame_alignment.hpp:162-173 | true exactly if any two non-null heads are within the tolerance |
| `FrameAlignment.StaleByTime` | src/frame_alignment.hpp:175-191 | lists exactly the heads that some other is ahead of by more than the tolerance |
| `AlignedGather.Progress` | src/frame_alignment.hpp:43-54 | heads that do not belong together contain one to discard, for every policy and any heads |
| `AlignedGather.HopelessTuple` | src/frame_alignment.hpp:93-139 | on sorted queues no aligned tuple at or behind the heads contains a discarded head, for every policy |
| `AlignedGather.Gather` | src/frame_alignment.hpp:228-284 | terminates; every packet is discarded, delivered or left, in order; fails only with a dry open port or none open, and then, if that was so at the start, leaves the queues alone; discards nothing if the heads belong together; on sorted queues delivers the componentwise earliest aligned tuple whenever one exists; what it discards, also before failing, is in no aligned tuple of the queues, whatever arrives on them later |
| `AlignedGather.PeekAll` | src/frame_alignment.hpp:236-257 | the heads of all ports, unless an open one is dry |
| `AlignedGather.PopHeads` | src/frame_alignment.hpp:259-270 | one packet from every open port |
| `AlignedGather.DropHeads` | src/frame_alignment.hpp:272-282 | removes and logs exactly the listed heads |
| `AlignedStream.CommonStep` | src/frame_alignment.hpp:259-270 | one gather takes exactly the smallest common id out of the common ids |
| `AlignedStream.GatherAll` | src/frame_alignment.hpp:228-284 | repeated FrameId gathers over strictly increasing queues deliver exactly the common ids, in increasing order, the same on all ports; every removed packet was delivered or discarded once |
| `ThreadPool.RunInv` | src/work_stealing_thread_pool.hpp:363-403 | the invariant of mutex, counter, tasks and wakeups holds in every state |
| `ThreadPool.WorkerWakes` | src/work_stealing_thread_pool.hpp:397-401 | a worker that falls asleep leaves nobody unnoticed: it saw a zero counter under the mutex |
| `ThreadPool.PublisherWakes` | src/work_stealing_thread_pool.hpp:540-546 | a publisher that counts, passes the mutex and notifies keeps the promise of a wakeup |
| `ThreadPool.CounterMeaning` | src/work_stealing_thread_pool.hpp:380-382 | the counter is queued + popped-not-counted - pushed-not-counted, as a 64-bit word |
| `ThreadPool.ClaimedOnce` | src/work_stealing_thread_pool.hpp:406-429 | every task is claimed at most once, and a claimed one is in no deque |
| `ThreadPool.ExecutedOnce` | src/work_stealing_thread_pool.hpp:380-383 | every task is run at most once, and a claimed task was run or is held by exactly one worker, never both |
| `ThreadPool.AllExecuted` | src/work_stealing_thread_pool.hpp:363-403 | with nobody publishing and all workers dozing, exactly the pushed tasks were run, once each |
| `ThreadPool.NoLostWakeup` | src/work_stealing_thread_pool.hpp:533-546 | with nobody publishing, all workers doze only if every pushed task was claimed, so a non-empty deque means a worker is awake |
| `Kahn.Peel` | include/ai_pipe/compiled_graph.hpp:114-134 | the order lists nodes once, respects every edge, parallel ones included, and what is left over waits for itself |
| `Kahn.CompleteIffAcyclic` | include/ai_pipe/compiled_graph.hpp:136-139 | the order is complete if and only if no walk returns to its start |
| `Graphs.Graph.AddNode` | src/graph.cpp:7-24 | refused for null and for a taken name; otherwise appended, with all tables kept consistent |
| `Graphs.PortsFit` | src/graph.cpp:54-104 | the port and payload-type checks, exactly |
| `Graphs.Graph.AddEdge` | src/graph.cpp:38-136 | accepted exactly if both nodes exist, ports and types fit and the key is new, which for names without NUL means the edge is new; lists, degrees and keys stay those of the edges |
| `EdgeKeys.KeysDiffer` | src/graph.cpp:107-117 | an edge without NUL in its names is told apart by its key from every other edge |
| `EdgeKeys.KeyIsShared` | src/graph.cpp:107-117 | an edge shares its key with some other edge if and only if one of its four names contains NUL |
| `Graphs.RefuseAbsent` | src/graph.cpp:107-123 | for every edge with NUL in a name there is a graph that refuses it as a duplicate although it does not have it |
| `Graphs.Graph.GetOutgoingEdges` | src/graph.cpp:201-210 | the edges of a node in insertion order |
| `Graphs.Graph.HasCycle` | src/graph.cpp:212-244 | true if and only if some walk returns to its start |
| `CompiledGraph.Compile` | include/ai_pipe/compiled_graph.hpp:50-173 | each error exactly under its condition, in order; otherwise, for every node, one routing entry per outgoing edge in insertion order, with its own source port, destination, destination port and the first index of that port name; and degrees, deduplicated neighbours, a topological permutation, sources and sinks of the graph |
| `CompiledGraph.EdgePass` | include/ai_pipe/compiled_graph.hpp:82-114 | the single pass over the edges fills all tables, the routing entries port by port, or finds an edge out of range |
| `CompiledGraph.CheckCoverage` | include/ai_pipe/compiled_graph.hpp:150-170 | true exactly if every input port of a node with incoming edges is fed |
| `CompiledGraph.RouteIsOutgoing` | include/ai_pipe/compiled_graph.hpp:82-104 | outEdges(i) has one entry for each edge of getOutgoingEdges, in order: same source port, destination and destination port, and the first index of that port name, or the mark for an unknown one |
| `CompiledNetwork.HasCycleAgrees` | include/ai_pipe/compiled_graph.hpp:117-139 | compile of a graph answers GraphCycleDetected if and only if its hasCycle is true, and never InternalError |
| `CompiledNetwork.CompiledIsRanked` | include/ai_pipe/compiled_graph.hpp:124-134 | positions in the order rank the network of a compiled graph |
| `CompiledNetwork.CompiledIsValid` | include/ai_pipe/compiled_graph.hpp:90-104 | the network is valid if every port is declared and fed by at most one edge |
| `CompiledNetwork.CompiledIsCovered` | include/ai_pipe/compiled_graph.hpp:150-170 | the port check of compile is the coverage the end-of-stream and batch results rely on |
| `EndToEnd.CompiledBatch` | include/ai_pipe/compiled_graph.hpp:50-173 | on every graph compile accepts, with declared single-fed ports, a batch reports at most once and only after every node succeeded exactly once, and does report when its sources have at most one port each and it was supplied, undisturbed and comes to rest |
| `EndToEnd.CompiledStream` | include/ai_pipe/compiled_graph.hpp:150-170 | on every such graph, a stream with all sources signalled and empty queues that comes to rest has flushed every node once and notified once |
| `EndToEnd.CompiledDrains` | include/ai_pipe/compiled_graph.hpp:150-170 | such a graph with 1 to 64 ports per node always gets through to end of stream if and only if only its sources have more than one port |
| `EndToEnd.CompiledSync` | src/join_aware_sync_strategy.hpp:43-121 | a strategy set up from any graph that compiles has a group for every join with a common fork, in which exactly the nodes strictly between the two have places |
| `PathSearch.Search.Visit` | src/join_aware_sync_strategy.hpp:395-425 | adds one branch per path that continues the current one, and restores the path and the visited set |
| `PathSearch.PathIsListed` | src/join_aware_sync_strategy.hpp:395-425 | every path is enumerated |
| `PathSearch.PathsDiffer` | src/join_aware_sync_strategy.hpp:395-425 | no path is enumerated twice |
| `PathSearch.FindAllPaths` | src/join_aware_sync_strategy.hpp:384-393 | on any DAG, every path from source to destination exactly once, without its two ends |
| `PathSearch.BetweenIsOnBranch` | src/join_aware_sync_strategy.hpp:395-425 | every node strictly between fork and join lies on some branch |
| `ForkSearch.WithinIsWalk` | src/join_aware_sync_strategy.hpp:351-367 | a node reached in d rounds has a walk of at most d edges to the start |
| `ForkSearch.WalkIsWithin` | src/join_aware_sync_strategy.hpp:351-367 | and the other way round |
| `ForkSearch.Expand` | src/join_aware_sync_strategy.hpp:352-366 | one round reaches exactly the predecessors of what was reached |
| `ForkSearch.SearchLevels` | src/join_aware_sync_strategy.hpp:311-372 | finds a fork at the smallest level that has one; finds none exactly if none exists within 999 levels |
| `ForkSearch.FindLowestCommonFork` | src/join_aware_sync_strategy.hpp:281-379 | the fork is a common ancestor-or-self of all predecessors of the join that fans out, at the smallest greatest distance; found if and only if one exists within 999 levels |
| `SyncGroups.SyncGroup.ReportFrameProcessed` | src/sync_coordinator.hpp:142-157 | raises the branch's processed frame and the watermark |
| `SyncGroups.SyncGroup.ReportFrameDropped` | src/sync_coordinator.hpp:166-197 | records the drop and makes it pending on exactly the other branches that are behind it, which it lists once each |
| `SyncGroups.SyncGroup.GetPendingSyncDrops` | src/sync_coordinator.hpp:217-227 | the pending drops of a branch, none for an unknown one |
| `SyncGroups.SyncGroup.Cleanup` | src/sync_coordinator.hpp:285-307 | removes exactly the drops below the watermark |
| `SyncGroups.SyncGroup.UpdateWatermark` | src/sync_coordinator.hpp:334-364 | the watermark becomes the progress of the slowest branch that has any, if that is higher and not the end-of-stream id |
| `SyncGroups.WatermarkIsSlowest` | src/sync_coordinator.hpp:334-364 | a report moves the watermark only up and only to the progress of the slowest branch that has any; it leaves it exactly if such a branch is not ahead of it or none is below the end-of-stream id |
| `SyncGroups.WatermarkGrows` | src/sync_coordinator.hpp:360-363 | the watermark never goes down |
| `SyncGroups.WatermarkStaysBehind` | src/sync_coordinator.hpp:334-364 | once every branch has progress not below the watermark, no calls take the watermark beyond a branch's progress, or that progress back |
| `SyncGroups.CleanupKeepsProgress` | src/sync_coordinator.hpp:285-307 | cleanup leaves a branch's progress alone if and only if it is not below the watermark or was processed |
| `SyncGroups.LateBranchLosesProgress` | src/sync_coordinator.hpp:353-357 | a branch without progress does not hold the watermark back, and cleanup then erases the progress it makes later |
| `JoinSync.StateIsHistory` | src/sync_coordinator.hpp:142-197 | for every history, the processed frame and the pending drops of every branch say exactly what the history says |
| `JoinSync.ShouldDropByHistory` | src/join_aware_sync_strategy.hpp:145-210 | shouldDrop(n, f) is true if and only if a sibling branch of one of n's groups reported f dropped while n's branch had processed neither f nor a later frame |
| `JoinSync.ShouldDropStays` | src/join_aware_sync_strategy.hpp:176-196 | once true, shouldDrop stays true |
| `SyncStrategy.JoinAwareSync.ReportDrop` | src/join_aware_sync_strategy.hpp:145-173 | the drop reaches every group of the node; the answer lists the sibling branches once each |
| `SyncStrategy.JoinAwareSync.MarkProcessed` | src/join_aware_sync_strategy.hpp:199-210 | the frame is processed on every place of the node |
| `SyncStrategy.JoinAwareSync.ShouldDropFrame` | src/join_aware_sync_strategy.hpp:177-196 | true exactly if the frame is pending on one of the node's places |
| `SyncStrategy.JoinAwareSync.MapNodeToGroup` | src/join_aware_sync_strategy.hpp:427-436 | from now on shouldDrop of this node is also true for what is pending on the new place; no other node's answers change |
| `SyncStrategy.JoinAwareSync.RegisterSyncGroup` | src/join_aware_sync_strategy.hpp:128-133 | a group with fresh branches, unless the name is taken |
| `SyncSetup.GroupIdsDiffer` | src/join_aware_sync_strategy.hpp:72-77 | group names of different joins differ, whatever the node names are |
| `SyncSetup.PlacesExact` | src/join_aware_sync_strategy.hpp:82-95 | a node's places are exactly the branches it is on |
| `SyncSetup.CompiledTopology` | include/ai_pipe/compiled_graph.hpp:82-114 | the neighbour lists of a compiled graph are what the fork search presupposes |
| `SyncSetup.CompiledRises` | include/ai_pipe/compiled_graph.hpp:124-134 | its topological order ranks them, so the path search presupposes nothing more |
| `SyncSetup.OnBranchIffBetween` | src/join_aware_sync_strategy.hpp:82-95 | a node is on a branch of a join if and only if it lies strictly between the join and its fork |
| `SyncSetup.Analyse` | src/join_aware_sync_strategy.hpp:63-68 | a join gets a fork exactly if one is within reach; then the branches are all paths between them, once each, at least one |
| `SyncSetup.Initialize` | src/join_aware_sync_strategy.hpp:43-121 | the joins with a common fork, all of them in order, each with its lowest fork, its branches, its places and its untouched group |
| `SyncResults.PlacedIffBetween` | src/join_aware_sync_strategy.hpp:82-95 | a node has a place in the group of a join if and only if it lies strictly between the fork and the join |
| `SyncResults.DropsFollowPaths` | src/join_aware_sync_strategy.hpp:145-210 | after any history of calls, shouldDrop(n, f) is true if and only if, for some fork and join around n, f was dropped on a parallel path before n's path had processed f or a later frame |

## Left out

- StreamDrain.JoinFreeCompletes: excludes joins, because `StreamStranded.DrainsIffJoinFree`
  shows that with a join the queues need not drain.
- A streaming run that is stopped, stopStreaming draining its queues, reset, and reuse of an
  engine.
- Which packets a streaming gather takes: it may pop any number and succeeds having popped
  one. `AlignedGather` models the aligned gather on its own; the plain multi-port gather,
  which pops earlier ports before it finds a later one dry, promises no conservation.
- Partial inputs, the join-timeout watchdog and the deferred retry after rate limiting;
  scheduling attempts from outside are steps that may happen at any time.
- A failed post to a pool that is shutting down, and pool shutdown itself.
- KeepLatest.WindowBound: stated for histories in which no evict loop gave up on an
  unpublished head, because `KeepLatest.Overshoot` shows the bound fails otherwise.
- AlignedGather.Gather: optimality is stated for queues without wildcards, because a later
  wildcard can pair with a frame already discarded. It looks at the queues as they are at the
  start of the call; that no arrival can need a discarded packet is stated. Coordinated drops
  consumed while peeking are not modelled.
- BatchResults.BatchCompletes: asks for at most one port per source, because
  `BatchCauses.StopsForCauseIff` shows that a source with more can stop the batch.
- Which packets a batch gather discards: that it discards some is recorded and counts as a
  disturbance.
- JoinSync.ShouldDropByHistory: a history ends at reset, which clears the groups and keeps
  the node mappings.
- RingBuffer.Ring.TryPush: one caller at a time, like the other methods of `RingBuffer`;
  `MpmcRing` has the interleavings.
- RingBuffer.Ring.TryPop: one caller at a time.
- RingBuffer.Ring.Size: one caller at a time; `KeepLatest` reads the two counters separately.
- NodeQueue.ConservedCounts: one caller at a time; `CountedRing.RestConserves` is conservation
  under every interleaving.
- NodeQueue.NodeQueue.Push: one caller at a time, like the other methods of `NodeQueue`;
  `CountedRing` and `KeepLatest` have the interleavings.
- NodeQueue.NodeQueue.PushDropTail: one caller at a time; the peak size and rejections are not
  part of `CountedRing`.
- NodeQueue.NodeQueue.PushKeepLatest: one caller at a time.
- NodeQueue.NodeQueue.TryPop: one caller at a time.
- resetStatistics, and queues that do not track statistics, in `CountedRing`.
- forcePush and tryPeek of the queue, C++ memory orders, cache-line layout and spinning.
- NodeQueue.NodeQueue.PushDropHead: the bounded spin and retry rounds are one loop, since
  each of them evicts and tries again.
- waitForTasks, m_pendingTasks and task futures of the pool; the bounded deque size and the
  choice of the target queue (any queue may be chosen).
- The 32-bit width of node and port indices in a compiled graph.
- The debug text of the strategy's initialize.
- reportFrameReceived, minLatestFrame, clearPendingSyncDrop and removal of branches in a
  sync group.
- Logging, tracing, statistics, plugin loading, node registry, JSON loading, the pipeline
  facade and benchmarks: input and output, foreign calls, or only easy claims.
