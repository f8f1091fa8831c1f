# FastLLM runtime: verified model

A Dafny model of the inference runtime's concurrency protocol, its graph
builder, batched and speculative decoding, the certified head argmax and the
quantized weight layouts, with proofs of what each of them promises.
`dafny verify dfyconfig.toml` checks everything.

## What is modelled

**The ready queue** (`Ring`, `RingProofs`, `RingTheorems`, `RingBulk`, `RingProgress`, `RingQueue`). The bounded
MPMC ring as a transition system: one transition is one load, CAS or store of
one thread, any number of threads, any interleaving. The history variables `log`
and `deliv` record what was pushed at each position and what was read from it.
`RingQueue` is the same queue as an object updated in place by one thread.

**The dataflow runtime** (`TaskGraph`, `SerialExec`, `RunMemory`, `TaskTable`, `Epilogue`,
`Routing`, `Dataflow`, `DataflowProofs`, `DataflowTheorems`, `RingedDataflow`,
`RingedProofs`, `RingedTheorems`, `RingedCapacity`, `RingedProgress`, `Parking`). The frozen
graph is a multigraph; a task body is split into a start, which reads, and a
finish, which writes. The host resets, publishes roots and waits; any number of
CPU workers claim and commit single tasks; any number of GPU blocks claim batches
and commit them with coalesced decrements. Each fetch_sub, push, flag store and
n_done add is one transition, and runs follow one another without limit. In
`Dataflow` the queues are bags. `RingedDataflow` is the same protocol with one ring
per queue: every publish and every claim is a sequence of ring accesses, interleaved
with everything else, and a push that finds its ring full is retried.
`RingedSafety.StepRefines` shows that each of its steps is one step on bags or none,
so what is proved over bags holds of the rings. `phase`, `applied`, `order`, `pubs`
and `starts` are history: no step tests them. Theorems about a state assume `Inv`,
which `DataflowTheorems.AlwaysInv` and `RingedTheorems.AlwaysInv` give for every
state reachable from a fresh runtime.

**The graph builder** (`GraphBuilder`). Relay trees grown by `dep_edge` under the
fan-out cap, as a function on builds and as an object over the task table.

**Decoding** (`Decoder`, `Provenance`, `PassLabels`, `GraphOps`, `LayerStages`,
`DecodeGraph`, `DecodeOrder`, `Speculation`, `SpeculationTheorems`, `SuffixIndex`,
`Router`). The network's arithmetic is opaque; what is modelled is which queries and
cache rows every layer, position and attention head reads and writes, and `Provenance`
says what an output is made of. A pass executes its query rotations, appends, head reads
and merges in any order `Admitted` allows; `DecodeGraph` builds the batch's whole task
graph with dep_edge, dense and expert layers, head and terminal. Every task that computes
something has a label, `PassLabels.NeedsOf` is the list of what a label reads, and the
build is kept lawful: each label's task is of its kind and after all it reads. `DecodeOrder`
states what follows for the built graph, task kind by task kind, and that whatever order
the runtime executes it in is an admitted one. The generation loops
run on top of that decoder and of the draft index: `Speculation.Output` is what a run
emits as a function of model, prompt, command line, index settings, requested draft
lengths and reported margins, the last three arbitrary.

**The head argmax** (`HeadCert`), over the reals. The engine's own row values are
arbitrary up to the stated margin.

**Quantized kernels and shadows** (`Quants`, `QuantLayout`, `Kernels`, `RowMeaning`, `Shadow`,
`Tile`). Integer work is exact. The scalar kernels compute in a 32-bit type; the vector kernels
compute in unbounded integers, and `Kernels.VectorAccumulatorsFit` bounds the values
they accumulate. Float operations are an arbitrary record of functions, so "bitwise
equal" is equality; `RowMeaning` puts the operations of the reals for them. Vector instructions are replaced by their integer definitions.

Assumptions, for all of it: memory is sequentially consistent; queue cursors are
unbounded, with lemmas saying when 32-bit cursors take the same branches (no
thread sleeps across 2^31 queue operations); no push is in progress when the
runtime is torn down.

Where the code and its comments differ, the code is followed:

- `src/runtime/queue.h` says capacity is a power of two; capacity 1 is one, and with
  it the ring loses values (`RingQueue.CapacityOneLosesAValue`). From 2 on it does not.
- `src/model/head_cert.h` sizes a stack array for 8 segments; `init` can produce more.
  `HeadCert.SegmentWidth` states exactly when it does, `HeadCert.WhenSegmentsOverflow`
  gives the smallest family.
- `src/runtime/runtime_internal.h` notes that the CPU steals GPU-affine tasks when the
  GPU is off; with stealing disabled as well nobody does, and the run never returns.
  A pool of no CPU workers, which the constructor accepts, strands decode ops and
  more. `Routing.Stranded` is the exact condition, `DataflowTheorems.StrandedNeverRuns`
  the consequence.
- A cut by the margin gate (`tools/decode_main.cpp:359-375`) emits the last accepted
  draft a second time. `SpeculationTheorems.LosslessIff`: all runs decode greedily
  exactly when tau <= 0, spec_max < 2 or n_gen < 3. For every other command line
  `SpeculationTheorems.GateChangesOutput` is a run of the program that does not, its
  draft proposed by the index itself; `Speculation.GeneratedIsGreedy` says which single
  runs still do.
- With the certified head (`hc_mode_ == 1`, `src/model/decoder.cpp:1233-1253`) step_batch
  leaves the margins empty, and with tau > 0 a pass that accepts two drafts or more reads
  them (`tools/decode_main.cpp:361-363`). `Speculation.Readable` is the gate's exact need;
  the loops here are given margins for every position.
- `fl_op_router_sel` normalises by the sum of the chosen weights, in which a choice beyond
  the last expert counts -1; when that sum is zero the gates are no numbers
  (`Router.Route`). With top_k at most the expert count it cannot be.

## Model

| member | source | states |
|---|---|---|
| MpmcRingSafety.StepKeepsInv | src/runtime/queue.h:37-182 | every single access of push, pop, pop_bulk and pop_bulk_light keeps the ring invariant, whatever the other threads are doing |
| MpmcRingTheorems.ExactlyOnce | src/runtime/queue.h:37-56 | after any schedule on a ring of capacity at least 2, no position is delivered twice, what is delivered for position k is what was pushed there, and once no claim is half read the delivered values are exactly the claimed prefix of the pushed ones, as multisets |
| MpmcRingTheorems.ReturnedInOrder | src/runtime/queue.h:152-158 | a claim returns the values pushed at its positions, in position order |
| MpmcRingTheorems.NoOverwriteBeforeRead | src/runtime/queue.h:40-47 | a producer's value store never hits a cell a consumer has claimed and not yet recycled |
| MpmcRingTheorems.BulkClaimIsSound | src/runtime/queue.h:58-65 | when the tail CAS succeeds, all m cells scanned earlier are still published with their own values, nobody else owns them, and m is at most the capacity |
| MpmcRingBulk.ScanStopsAtTheEnd | src/runtime/queue.h:138-145 | a bulk pop comes to its tail CAS only with a full batch, or having seen the cell behind its batch unpublished, in every run of a fresh ring |
| MpmcRingBulk.PopBulkAlone | src/runtime/queue.h:93-162 | a bulk pop of n that runs alone where k values in a row are published returns exactly the oldest min(n, k), claims those and no others, in both forms |
| MpmcRingBulk.PopAlone | src/runtime/queue.h:164-182 | a single pop that runs alone returns the oldest value exactly when it is published |
| MpmcRingBulk.PushAlone | src/runtime/queue.h:37-56 | a push that runs alone enters its value as the newest exactly when the cell at head is free, and changes nothing else |
| MpmcRingTheorems.BulkIsManySingles | src/runtime/queue.h:132-162 | a claim of m cells, drained, leaves the memory that m consecutive single pops leave |
| MpmcRingTheorems.StepRefinesBag | src/runtime/queue.h:37-182 | seen from outside, a step either publishes one position, removes the claimed ones, or changes nothing |
| MpmcRingTheorems.StepContents | src/runtime/queue.h:37-182 | the ring is a bag of values: an access adds the pushed value, takes out the claimed ones, or leaves it alone |
| MpmcRingTheorems.EmptyMeansUnpublished | src/runtime/queue.h:176-177 | a single or bulk pop finds the ring empty exactly when it still stands at tail and nothing was pushed there or the producer of that cell is still at work |
| MpmcRingTheorems.FullMeansOccupied | src/runtime/queue.h:50-51 | a push finds the ring full exactly when it still stands at head and the cell holds a value of the lap before that is unclaimed or still being read |
| MpmcRingTheorems.QuiescentIsRecycled | src/runtime/queue.h:156 | with nothing in flight and the ring drained, the next lap's cells are all free, wherever the cursors are |
| MpmcRingTheorems.PushNeverFails | src/runtime/queue.h:50-51 | from a quiescent ring no schedule with at most `capacity` pushes makes a push return false |
| MpmcRingTheorems.WrappedBranches | src/runtime/queue.h:42-54 | 32-bit cursors take the same branches and address the same cells while the true difference fits in 31 bits |
| MpmcRingProgress.EndsAlone | src/runtime/queue.h:37-182 | from any reachable state, a queue operation whose thread runs alone ends within an explicit number of accesses, stale cursors and half-done operations of others included |
| MpmcRingTheorems.FreshDifferenceFits | src/runtime/queue.h:141 | against the current head or tail the difference is at most the capacity |
| RingQueue.Queue.constructor | src/runtime/queue.h:25-35 | an initialised queue is empty and valid |
| RingQueue.Queue.Push | src/runtime/queue.h:37-56 | appends, and refuses exactly when full |
| RingQueue.Queue.Pop | src/runtime/queue.h:164-182 | takes the oldest value, and reports empty exactly when there is none |
| RingQueue.Queue.PopBulk | src/runtime/queue.h:93-162 | takes the oldest maxn values or all there are, in both the acquire and the fence-light form; maxn 0 returns only from an empty ring |
| RingQueue.CapacityOneLosesAValue | src/runtime/queue.h:40-47 | with capacity 1 a second push succeeds while the first value is unread, and overwrites it |
| TaskTable.GraphImpl.Add | src/runtime/graph.cpp:25-37 | adds an unconnected task; dies exactly when frozen or full |
| TaskTable.GraphImpl.AddEdge | src/runtime/graph.cpp:39-46 | appends one consumer slot and counts it; dies exactly on a frozen graph, a bad id, a self edge or a seventh consumer |
| TaskTable.GraphImpl.Freeze | src/runtime/graph.cpp:48-74 | accepts exactly the acyclic multigraphs whose single sink is a SIGNAL, and finds that sink; the worklist terminates |
| TaskTable.GraphImpl.RunSerial | src/runtime/graph.cpp:116-148 | executes tasks in dependency order and leaves at each location what the last task of the order to write it computed, or the start value; the order covers every task once exactly when the graph is acyclic |
| RunMemory.RunLeaves | src/runtime/graph.cpp:127-143 | tasks run one after another leave, at every location, the effect of its last writer on the values its inputs held when it ran, read off earlier writers in the same way, or else the start value |
| RunMemory.TilesAddUp | src/runtime/kernels.h:1156 | a location that tiles accumulate into ends as its start value and everything they add |
| RunMemory.TwoTiles | src/runtime/kernels.h:1156 | two tiles that add a and then b leave y0 + a + b |
| TaskTable.Exhausted | src/runtime/graph.cpp:59-72 | an exhausted Kahn worklist has seen all tasks exactly when there is no cycle |
| TaskTable.ReachesTerminal | src/runtime/graph.cpp:72-74 | in an accepted graph every other task has a path to the terminal |
| SerialExec.TopologicalOrdersAgree | src/runtime/graph.cpp:127-143 | any two topological orders of a graph whose unordered tasks do not conflict compute the same memory |
| Epilogue.EpilogueCovers | src/runtime/gpu_exec.cu:299-311 | per-slot and coalesced decrements both account for every out-edge of the batch exactly once |
| Epilogue.EpilogueEqualsCommits | src/runtime/gpu_exec.cu:297-334 | a coalesced GPU epilogue leaves the counters, and publishes each consumer once, as committing its tasks one by one does |
| Epilogue.Coalesce | src/runtime/gpu_exec.cu:297-311 | the leader's dedup loop over the shared scratch computes exactly the coalesced groups, within the scratch size |
| Routing.PublishersAgree | src/runtime/runtime_internal.h:162-226 | host and device compute the same destination exactly when the GPU is on or the task's routing does not depend on it |
| Routing.ServedUnlessStranded | src/runtime/runtime_internal.h:162-168 | a published task's queue is polled by a live unit exactly when the task is not stranded, for every configuration including no CPU workers; a stranded task nobody may pop |
| Routing.EnginePurity | src/runtime/runtime_internal.h:154-161 | codebook tiles never reach the CPU while the GPU runs, decode ops never reach the GPU |
| Routing.RoundRobin | src/runtime/runtime_internal.h:207-219 | with per-block rings, the tasks of chunk m of the ids that the blocks may take go to ring m mod blocks, and no others go to a ring |
| Routing.NextRing | src/runtime/runtime_internal.h:207-219 | the next chunk's ring is the next one, the first after the last |
| Routing.SweepCovers | src/runtime/runtime.cpp:387-393 | a stealing sweep probes every ring, and its own cursor's ring at step 0 only |
| Routing.GpuStart | src/runtime/gpu_exec.cu:457-497 | the width is the first halving the driver admits, or the first that may not be halved; the published block count is positive, at most what was asked, at most 64 and at most what is resident |
| DataflowSafety.StepKeepsInv | src/runtime/runtime.cpp:178-400 | every step of the host, of any worker and of any block keeps the protocol invariant |
| DataflowSafety.TerminalIsLast | src/runtime/runtime.cpp:357-359 | once the terminal is enabled every other task has finished its body |
| DataflowTheorems.AlwaysInv | src/runtime/runtime.cpp:178-243 | the invariant holds in every state reachable over any number of consecutive runs |
| DataflowTheorems.CounterIsExact | src/runtime/runtime.cpp:192-195 | after the reset, dep_count is the number of in-edges whose producer has not decremented yet, and a task is unpublished exactly while it is positive |
| DataflowTheorems.DecrementNeverOvershoots | src/runtime/runtime.cpp:360-366 | a fetch_sub never takes a counter below zero and reads zero exactly on the last edge of a task not yet published |
| DataflowTheorems.NoEarlyStart | src/runtime/runtime.cpp:329-337 | a body starts only after all its producers finished, and never twice |
| DataflowTheorems.PublishedOnce | src/runtime/runtime_internal.h:201-238 | each task is pushed at most once per run, even while roots are still being scanned; exactly once by the end; so at most n pushes |
| DataflowTheorems.DoneFlagMeansAllFinished | src/runtime/runtime.cpp:357-359 | when done_flag is 1 every body has finished, in a topological order, and every dep_count is 0 |
| DataflowTheorems.TerminalStandsAlone | src/runtime/gpu_exec.cu:316-334 | a batch holding the terminal holds nothing else and has nothing to decrement, so raising done_flag first is sound |
| DataflowTheorems.QuietBetweenRuns | src/runtime/runtime.cpp:181-195 | after run() returns and while counters are reset, no engine step is possible |
| DataflowTheorems.ReturnedMeansRetired | src/runtime/runtime.cpp:234-243 | run() returns only with done_flag set, n_done equal to n, all threads idle and all queues empty |
| DataflowTheorems.MemoryIsSerial | src/runtime/graph.cpp:116-148 | the memory after a run is that of any topological order, hence of run_serial, for every interleaving and batching: what its last writer computed at each location, and the start value where nobody wrote |
| DataflowTheorems.TilesAddUp | src/runtime/kernels.h:1156 | after a concurrent run a location that tiles accumulate into holds its start value and everything they add |
| DataflowTheorems.ThreadNeverStuck | src/runtime/runtime.cpp:329-371 | a thread that holds tasks always has a step |
| DataflowTheorems.NoStall | src/runtime/runtime.cpp:373-401 | until run() returns some step other than polling is enabled, for every configuration that strands no task |
| DataflowTheorems.MeasureFalls | src/runtime/runtime.cpp:234-243 | every step but polling lowers a natural measure, polling does not raise it |
| DataflowTheorems.RunsAreBounded | src/runtime/runtime.cpp:234-243 | no schedule takes more than that many productive steps within a run |
| DataflowTheorems.RunReturns | src/runtime/runtime.cpp:234-243 | after as many productive steps as the measure allows, run() has returned |
| DataflowTheorems.RunCanReturn | src/runtime/runtime.cpp:234-243 | from every reachable state a configuration that strands no task can be driven to the return of run() |
| DataflowTheorems.StrandedNeverRuns | src/runtime/runtime_internal.h:165 | in every schedule a stranded task is never claimed and run() never returns |
| DataflowTheorems.StrandedRun | src/runtime/runtime_internal.h:162-168 | every configuration that can strand the terminal has a fresh runtime that never returns |
| DataflowTheorems.StrandedWitnesses | src/runtime/runtime_internal.h:162-168 | concrete configurations, one for each way a task is stranded |
| RingedSafety.StepRefines | src/runtime/runtime_internal.h:201-238 | with one ring per queue and publishes and claims running access by access, every step is one step of the bag protocol or none |
| RingedSafety.StepKeepsInv | src/runtime/gpu_exec.cu:181-219 | every such step keeps the rings' invariants, the protocol's, and the link between each ring operation and what its thread is doing |
| RingedTheorems.AlwaysInv | src/runtime/runtime.cpp:178-243 | all of that holds in every state reachable over any number of consecutive runs |
| RingedTheorems.RunRefines | src/runtime/runtime.cpp:178-401 | every run on rings is a run on bags |
| RingedTheorems.PoppedIsClaimed | src/runtime/runtime.cpp:376-398 | a finished pop returns the very tasks its unit has claimed, none of them started; an empty one leaves the unit idle |
| RingedTheorems.AccessNeverBlocked | src/runtime/queue.h:37-182 | an operation in progress can always take its next access |
| RingedTheorems.NoStall | src/runtime/runtime.cpp:373-401 | until run() returns, while no ring operation is in progress, a productive access, a push, or a pop of a ring that holds something can begin |
| RingedProgress.Finish | src/runtime/queue.h:37-182 | a ring operation in progress ends when its thread runs alone; nobody else's moves, and the run's remaining work does not grow |
| RingedProgress.OneNearer | src/runtime/runtime.cpp:373-401 | from any state of a run that fits its rings and strands no task, whatever the threads are in the middle of, finitely many accesses publish, claim or finish something |
| RingedProgress.RunCanReturn | src/runtime/runtime.cpp:234-243 | so from any such state the run can be driven, ring access by ring access, to the return of run() |
| RingedProgress.CanReturnFromAnywhere | src/runtime/runtime.cpp:178-243 | the same at any moment of any interleaving of any number of consecutive runs |
| RingedTheorems.MemoryIsSerial | src/runtime/graph.cpp:116-148 | the memory after a run on rings is that of any topological order, last writer by last writer |
| RingedTheorems.ReturnedIsQuiescent | src/runtime/runtime.cpp:181-195 | when run() has returned every ring is drained, every cell recycled, and no push or claim is half done |
| RingedCapacity.PushesBound | src/runtime/runtime_internal.h:230-236 | a queue is pushed to at most once per task of the run, pushes in flight included |
| RingedCapacity.PushNeverFails | src/runtime/queue.h:1-4 | over any number of consecutive runs of graphs of at most `capacity` tasks, cursors never reset, no push ever returns false |
| Parking.StepKeepsInv | src/runtime/runtime.cpp:402-424 | every access of run, stop and the workers keeps the parking invariant |
| Parking.NoLostWakeup | src/runtime/runtime.cpp:402-424 | in every reachable state a worker sleeps through an active run or a stop only while that call's notification is still to come |
| Parking.NotifiedLeavesTheWait | src/runtime/runtime.cpp:210-215 | a notified sleeper finds a newer generation, so it leaves the wait even if the run is over by then |
| Parking.AwakeProgress | src/runtime/runtime.cpp:402-424 | once run() has notified, every step of a worker brings it nearer to its claim loop |
| Parking.AwakeNeverStuck | src/runtime/runtime.cpp:402-424 | a worker not yet there can step, or the one that holds the mutex can |
| Parking.JoinProgress | src/runtime/runtime.cpp:294-303 | while stop() joins, every worker step brings that worker nearer to its exit |
| Parking.JoinNeverStuck | src/runtime/runtime.cpp:294-303 | until all workers have exited one of them can step |
| GraphBuilder.DepEdgeKeeps | src/model/decoder.cpp:556-584 | every dep_edge keeps the port bookkeeping, the relay structure and the fan-out cap |
| GraphBuilder.OrderIsRequested | src/model/decoder.cpp:552-584 | between real tasks the built graph orders exactly what the requests order: none lost, none added |
| GraphBuilder.AcyclicIffRequested | src/model/decoder.cpp:552-584 | the built graph is acyclic exactly when the requests are |
| GraphBuilder.BuiltGraph | src/model/decoder.cpp:552-584 | all of that for every sequence of task and edge requests, with no node over 6 consumers |
| GraphBuilder.RelayCount | src/model/decoder.cpp:552-555 | k relayed consumers use exactly ceil(k/6) leaves and ceil(k/30) trunks |
| PortedGraph.Builder.AddTask | src/model/decoder.cpp:545-550 | a new task without edges; dies exactly when the table is full |
| PortedGraph.Builder.DepEdge | src/model/decoder.cpp:556-584 | on the task table itself: performs the specified growth, and dies exactly on a direct self edge or when the relays do not fit, never on fan-out |
| PortedGraph.Builder.AddOp | src/model/decoder.cpp:596-605 | a new task that every given producer precedes; dies exactly when it and its relays do not fit the table |
| PortedGraph.Builder.FanIn | src/model/decoder.cpp:586-594 | returns a carrier that every given producer precedes; dies exactly when it and its relays do not fit the table |
| Decoder.Causal | src/runtime/decode_params.h:183-232 | position j depends on tokens 0..j only |
| Decoder.BatchIsSingles | src/model/decoder.h:65-74 | what a history defines for a batch position is what it defines for a single-token pass there |
| Decoder.BatchMatchesSteps | src/model/decoder.h:65-74 | run on two decoders, a batch and the same tokens one by one give the same outputs and cache rows, whatever stale rows each holds |
| Decoder.LayerMajorAdmitted | src/model/decoder.cpp:751-880 | the layer-major order satisfies the dependencies of query rotations, appends, head reads and merges |
| GraphOps.AddOp | src/model/decoder.cpp:596-605 | a task of its label's kind below all its producers, so after all its label needs; exactly those producers stop being loose ends and exactly it becomes one; dies only when the table is full |
| GraphOps.AddDot | src/model/decoder.cpp:482-528 | every row tile of a product, below all given producers, and a task below all tiles |
| GraphOps.StageDot | src/model/decoder.cpp:531-543 | every row tile of the product after each position's input; one task per tile for the whole batch under the multi-column switch, one per position otherwise |
| LayerStages.Projections | src/model/decoder.cpp:770-811 | norms, quantizations, query and key-value projections of all positions, each task of its kind and after what it reads; the layer below's loose ends are used up |
| LayerStages.Attention | src/model/decoder.cpp:813-855 | rotations, appends, heads and quantizations of all positions, each of its kind; every head of position p after that position's rotated query and the appends of positions 0..p |
| LayerStages.FeedForward | src/model/decoder.cpp:857-1042 | output projection, sum, norms and the dense or the expert feed-forward, each task of its kind and after what it reads; no task is left without a consumer but the merges |
| DecodeGraph.BuildPass | src/model/decoder.cpp:674-1098 | the whole graph of a batch: each thing a pass has to compute is done by a task of its kind that comes after all it reads, different things by different tasks but for shared row tiles; freeze()'s cycle, sink and terminal tests always accept it, the terminal is the task added last, and the build dies only when the table is too small |
| DecodeGraph.Complete | src/model/decoder.cpp:751-1098 | a lawful build with its terminal leaves nothing out: every row tile, head, norm, rotation, append, merge and expert of every position and layer is there |
| DecodeGraph.OneSink | src/model/decoder.cpp:1086-1098 | a build whose only loose end is the terminal has the terminal as its only sink, relays included |
| DecodeOrder.StreamedOnce | src/model/decoder.cpp:479-481 | two things are one task exactly when they are the same row tile of a shared product for two positions and the multi-column switch is on |
| DecodeOrder.HeadsUseRotatedQuery | src/model/decoder.cpp:846-849 | in the built graph every ATTN_HEAD of a position comes after the ROPE_DS2 of that position's query |
| DecodeOrder.HeadsWaitForAppends | src/model/decoder.cpp:833-849 | in the built graph every ATTN_HEAD of position p comes after the KV_APPENDs of positions 0..p |
| DecodeOrder.ProjectedFirst | src/model/decoder.cpp:818-831 | every row tile of the query projection comes before its rotation, every tile of the latent projection before the key's rotation and before the latent norm |
| DecodeOrder.AppendsAreComplete | src/model/decoder.cpp:833-839 | a KV_APPEND comes after every row tile of its position's expanded keys and values and after its rotated key |
| DecodeOrder.ProductsReadInput | src/model/decoder.cpp:531-543 | every row tile of every product comes after the activation it multiplies with, quantized except for the router's |
| DecodeOrder.QuantizedAfter | src/model/decoder.cpp:596-605 | every ACT_Q8 comes after what it quantizes: after all heads of its position, after its own expert's SILU_MUL |
| DecodeOrder.SumAfterAttention | src/model/decoder.cpp:863-886 | the ADD2 comes after all row tiles of the output projection, and the feed-forward's norm after the ADD2 |
| DecodeOrder.SiluWaitsForBoth | src/model/decoder.cpp:896-1022 | every SILU_MUL comes after all row tiles of its gate and of its up, dense, shared or of its own expert |
| DecodeOrder.SelectionReadsLogits | src/model/decoder.cpp:944-954 | ROUTER_SEL comes after all row tiles of its position's logits |
| DecodeOrder.ExpertsAreSelected | src/model/decoder.cpp:963-983 | the gate and up products of every routed expert come after their position's ROUTER_SEL, under the barrier switch after every position's |
| DecodeOrder.MergeIsLast | src/model/decoder.cpp:910-1034 | a WMERGE comes after all row tiles of the down projection, of every routed expert's, and after the sum it adds to |
| DecodeOrder.ResidualIsMerged | src/model/decoder.cpp:774-781 | both readers of a residual, the norm and the ADD2, and the output norm after the last layer, come after the WMERGE of the layer below |
| DecodeOrder.EndIsLast | src/model/decoder.cpp:1080-1096 | the terminal comes after all row tiles of the head for every position, with certified argmax after every position's quantized norm |
| DecodeOrder.DepsComeBefore | src/model/decoder.cpp:751-1042 | every dependency a pass relies on, between rotated queries, appends, heads and merges, is a path of the built graph |
| DecodeOrder.AnyOrderIsAdmitted | src/model/decoder.cpp:751-1042 | any topological order of the built graph executes query rotations, appends, head reads and merges in an admitted order |
| Decoder.Decoder.RowsRead | src/runtime/decode_params.h:183-200 | the rows an attention head reads are the from-scratch rows 0..pos, whatever stale rows lie beyond |
| Decoder.Decoder.RunPass | src/model/decoder.cpp:813-880 | executing a pass in any admitted order leaves the from-scratch residuals and rows |
| Decoder.Decoder.StepBatch | src/model/decoder.cpp:1176-1260 | outputs are the greedy choices of the history after each fed token; dies exactly on a bad batch size or a full cache |
| Decoder.Decoder.Step | src/model/decoder.cpp:1297-1302 | one token, one pass |
| Provenance.BatchGoesThroughLayers | src/model/decoder.cpp:748-1070 | on a network whose residual notes what merged into it, a pass hands the head of each position its token followed by layers 0, 1, .., each once and in order |
| Provenance.BatchReadsRows | src/model/decoder.cpp:813-880 | on a network that writes down all it is given, every head of every layer was handed its position's own query and exactly the rows of positions 0 to its own, each made from the residual that has been through the layers below |
| Provenance.RecordsTell | src/runtime/decode_params.h:183-232 | what is written down for a position tells its own token and all before it, and nothing of those after |
| Provenance.OnlyResiduals | src/model/decoder.cpp:748-1042 | for any network, residuals that start at the embeddings and step by the layers' recurrence are the decoder's |
| Decoder.Decoder.RewindTo | src/model/decoder.cpp:59-65 | legal exactly for 0..n_past; keeps exactly the history prefix |
| Speculation.AcceptedAreGreedy | tools/decode_main.cpp:353-354 | the accepted drafts are greedy tokens |
| Speculation.Gate | tools/decode_main.cpp:359-364 | cuts acceptance at the first accepted position after 0 whose margin is at most tau, never when tau <= 0; needs the margins it reads and no others |
| Speculation.Prefill | tools/decode_main.cpp:259-270 | chunked prefill ends where single steps end; fails exactly when the prompt does not fit |
| Speculation.Plain | tools/decode_main.cpp:316-319 | the plain loop emits the greedy stream; fails exactly when prompt and output do not fit |
| Speculation.Verify | tools/decode_main.cpp:337-354 | feeding the last token and the drafts accepts exactly the drafts that are greedy, up to the first that is not |
| Speculation.Truncate | tools/decode_main.cpp:370-375 | after a cut the cache is that of the greedy stream up to the cut with its last token unfed, and that token, already emitted, is emitted next |
| Speculation.Pass | tools/decode_main.cpp:337-379 | from n_past = prompt + stream - 1 a pass accepts the most greedy drafts the gate lets through, its rewind is legal, and without a cut the next token is the greedy one |
| Speculation.MostIsAccepted | tools/decode_main.cpp:353-354 | how many drafts a pass confirms is a function of model, stream and draft |
| Speculation.GatedIsKept | tools/decode_main.cpp:359-364 | how many of them the gate keeps is a function of the margins |
| Speculation.TurnOk | tools/decode_main.cpp:334-379 | a turn extends the greedy stream and repeats a token only with its first one, exactly when the turn before ended in a cut |
| Speculation.TurnCuts | tools/decode_main.cpp:359-372 | a turn ends in a cut exactly when its margins make the gate fire on what it confirmed and tokens are still wanted |
| Speculation.Confirm | tools/decode_main.cpp:342-379 | drafts from the index, verifies, gates, emits and rewinds: exactly what the specification of a turn says |
| Speculation.Turn | tools/decode_main.cpp:334-379 | emits the pending token and confirms a draft, exactly as specified |
| Speculation.Speculate | tools/decode_main.cpp:252-379 | for every index setting, draft length and margins: emits exactly the specified output of the run; with tau <= 0 that is the greedy stream; the cache never fills when it holds prompt + n_gen + spec_max |
| Speculation.StutterIsExact | tools/decode_main.cpp:366-375 | a stream that repeats tokens equals the original exactly when nothing repeats or the original is constant from the first repeated token on |
| Speculation.RepeatsAreCuts | tools/decode_main.cpp:366-375 | a run repeats a token exactly when some turn of it ends in a cut |
| Speculation.GeneratedIsGreedy | tools/decode_main.cpp:370-375 | a run's output is greedy exactly when no turn of it is cut or the greedy stream is constant from the first repeated token on |
| Speculation.NeverCut | tools/decode_main.cpp:359-375 | with tau <= 0, spec_max < 2 or n_gen < 3 every run, whatever proposes its drafts, emits the greedy stream |
| SpeculationTheorems.GateChangesOutput | tools/decode_main.cpp:359-375 | for every tau > 0, spec_max >= 2, n_gen >= 3 and hash, every chain cap of 10 or more and minimum match of 4 or less: a prompt whose drafts come from the index and whose output starts 3, 4, 4 where greedy decoding gives 3, 4, 5 |
| SpeculationTheorems.LosslessIff | tools/decode_main.cpp:252-379 | all runs with given tau, spec_max and n_gen emit the greedy stream exactly when tau <= 0, spec_max < 2 or n_gen < 3 |
| SuffixIndex.MatchIsLongest | src/spec/suffix_index.h:72-76 | the match length is the longest common suffix |
| SuffixIndex.FullCapIsBruteForce | src/spec/suffix_index.h:66-82 | a chain cap no smaller than the stream misses no match, for every hash function |
| SuffixIndex.Index.Push | src/spec/suffix_index.h:28-37 | appends a token and keeps every hash chain in recency order |
| SuffixIndex.DraftMeans | src/spec/suffix_index.h:83-90 | what is proposed is the one continuation a best match can have |
| SuffixIndex.Index.Draft | src/spec/suffix_index.h:55-90 | returns the continuation of the longest match among the cap most recent same-hash ends (the tail itself counted), ties to the most recent; nothing below max(3, min_match) |
| Router.Select | src/runtime/decode_params.h:248-260 | the first min(k, n) ids are the k largest weights in order, ties to the lower index, index 0 beyond that; the raw gates are their weights |
| Router.Route | src/runtime/decode_params.h:247-264 | the gates are the chosen weights, normalised if asked for and scaled; normalised gates sum to the scale; they are undefined exactly when the chosen weights sum to zero, which needs more choices than experts |
| Router.RankedIsUnique | src/runtime/decode_params.h:235-236 | there is only one such ranking |
| HeadCert.CauchySchwarz | src/model/head_cert.h:12 | the squared dot product is at most the product of the squared norms |
| HeadCert.BoundIsSound | src/model/head_cert.h:117-122 | the segment-wise bound over-estimates the dot product |
| HeadCert.SegmentWidth | src/model/head_cert.h:48-55 | the width is a positive multiple of the block that divides the row; at most 8 segments exactly under a condition on the row length |
| HeadCert.WhenSegmentsOverflow | src/model/head_cert.h:92 | nine blocks give nine segments; whole groups of eight blocks always fit |
| HeadCert.Cert.constructor | src/model/head_cert.h:45-83 | init stores over-estimated norms of all segments of all rows |
| HeadCert.Cert.Argmax | src/model/head_cert.h:90-133 | the lowest-id maximiser over all rows, for every hint and every anchor set, when the engine exceeds the true value by at most the margin |
| Quants.QuantizeQ8K | src/runtime/quants.h:382-402 | the largest magnitude is 127 steps, every value is within half a step of its quantum, and the block sums are the per-16 sums and fit 16 bits |
| Quants.ScalesAll | src/runtime/quants.h:104-119 | decodes the same eight scale and minimum pairs as the per-index decoder |
| Quants.PackedTerms | src/runtime/quants.h:545-556 | the q4_K accumulators are the scaled group dots and minima, every intermediate value inside 32 bits |
| Quants.Packed6 | src/runtime/quants.h:570-590 | the q6_K accumulator is the scaled dot centred at 32, every intermediate value inside 32 bits |
| Quants.Packed5 | src/runtime/quants.h:456-464 | the subtracted-sum form is the dot centred at 16, inside 32 bits |
| QuantLayout.Decode4 | src/runtime/quants.h:104-119 | 256 4-bit weights and eight pairs of 6-bit scales and minima packed into a q4_K superblock decode to themselves |
| QuantLayout.Encode4 | src/runtime/quants.h:104-119 | and every superblock is the packing of what it decodes to |
| QuantLayout.Decode6 | src/runtime/quants.h:570-590 | 256 6-bit weights packed as the low nibbles and high pairs of a q6_K superblock decode to themselves |
| QuantLayout.Decode5 | src/runtime/quants.h:456-464 | 32 5-bit weights packed as nibbles and high bits of a q5_0 block decode to themselves |
| QuantLayout.Encode5 | src/runtime/quants.h:456-464 | and every q5_0 block is the packing of what it decodes to |
| RowMeaning.RowDotIsExact | src/runtime/quants.h:538-561 | with operations that do not round, the row dot of all q4_K kernels is the sum over superblocks and elements of (d * scale * weight - dmin * minimum) * (dk * activation) |
| RowMeaning.RealRowDot | src/runtime/quants.h:538-561 | so it is over the reals, however half floats are read |
| RowMeaning.DotRow | src/runtime/quants.h:167-192 | the scalar reference, dequantising weight by weight, computes the dot of the dequantised row |
| RowMeaning.KernelsMatchReference | src/runtime/quants.h:530-561 | without rounding, the integer kernels return what the scalar reference returns on the dequantised activations |
| Kernels.DotPacked | src/runtime/quants.h:538-561 | the scalar kernel returns the reference row dot |
| Kernels.DotNeon | src/runtime/kernels.h:409-447 | the SDOT kernel returns the same value |
| Kernels.VectorAccumulatorsFit | src/runtime/kernels.h:409-447 | the group sums, lanes and chunk terms the vector kernels accumulate stay inside 32 bits |
| Kernels.DotMc | src/runtime/kernels.h:500-549 | the multi-column kernel returns one single-column dot per column |
| Kernels.DotMcSmmla | src/runtime/kernels.h:567-659 | the row-pair, column-pair SMMLA kernel returns the single-column dots of both rows |
| Kernels.InterleaveTile | src/runtime/kernels.h:665-683 | column pairs interleaved in 8-byte groups |
| Shadow.BuildPlainRow | src/runtime/shadow.cpp:78-103 | a plain shadow row holds the packed row's scales and nibbles |
| Shadow.BuildPairRow | src/runtime/shadow.cpp:107-141 | a row-pair shadow holds both rows' headers and their nibbles in alternating 8-byte groups |
| Shadow.BuildPlainRows | src/runtime/shadow.cpp:78-103 | the sequential builder fills its block with the shadow of every row given and touches nothing else |
| Shadow.BuildPairRows | src/runtime/shadow.cpp:105-141 | the same for row pairs |
| Shadow.BuildParallelPlain | src/runtime/shadow.cpp:179-207 | threads running the row builder's loop over their own even chunks at their own offsets, interleaved in any way, produce the tensor's shadow |
| Shadow.BuildParallelPairs | src/runtime/shadow.cpp:179-207 | the same for row pairs, which never straddle two threads |
| Shadow.ParallelIsSequential | src/runtime/shadow.cpp:179-207 | the parallel build equals one sequential build over all rows, in both layouts |
| Shadow.OwnersDiffer | src/runtime/shadow.cpp:182-190 | different threads own different rows |
| Shadow.DotShadow | src/runtime/kernels.h:778-827 | the plain shadow kernel, vector or scalar, equals the packed dot |
| Shadow.Dot2Shadow | src/runtime/kernels.h:838-874 | the row-pair kernel equals the packed dots of both rows |
| Shadow.RowIndexExact | src/runtime/shadow.h:63-66 | any address inside a packed row resolves to that row |
| Shadow.RowsInside | src/runtime/kernels.h:1144-1150 | a tile's shadow rows, walked by address from its first, are the shadows of its own packed rows, inside the payload |
| Shadow.PairsInside | src/runtime/shadow.h:68-70 | pair addresses are those of their even row and lie inside the payload |
| Shadow.Find | src/runtime/shadow.cpp:62-70 | finds the span that contains an address, or none exactly when none does |
| Tile.SingleColumnFits | src/model/decoder.cpp:611-640 | a single-column tile without a stride, as add_dot builds it, meets what ExecTile asks |
| Tile.ExecTile | src/runtime/kernels.h:1049-1158 | in every dispatch branch, odd tail and misaligned start included, each (column, row) cell gains its own product once and no other cell changes |

## Left out

- Weak memory, fences and PTX lowering: everything is sequentially consistent, so the fence-light queue form differs only in the order of its reads and recycling stores.
- Tearing down during a run, and the `run_flag` exit of a push retry: stop() is modelled between runs.
- Dataflow steps are transitions rather than methods on a shared object, because their interleaving is the point; the queue, the task table and the epilogue loops are also given in place.
- A task body is one read and one write; the accesses inside a body are not interleaved further.
- RingedDataflow: the order in which a unit polls its queues is left open, so any claim order is covered; under a hostile schedule a CAS can be retried for ever, so that an operation ends is proved of a thread that runs alone.
- Parking: not one state machine with the dataflow protocol; that polling workers are awake is `Parking.AwakeProgress`.
- TaskTable.GraphImpl.Freeze: leaves out the per-task format and size checks that follow the sink test.
- DecodeGraph.BuildPass: weights have at least one row tile, layers and heads are at least one, and each position runs at least one expert; task payloads and slot memory are left out.
- HeadCert.Cert.Argmax: floats are reals, so a NaN row value is not modelled; the selection of anchors by norm is a parameter.
- Quants.QuantizeQ8K: over the reals, where the clamp to 127 never acts; single-precision rounding of the scale is left out.
- Rows of q6_K, q5_0 and the remaining formats: of q6_K and q5_0 the bit layout and the integer sums are modelled; their float sums, vector kernels and shadows are not.
- Shadow.BuildParallelPairs: superblocks are records and addresses are stated separately, so byte-level aliasing inside a record is not modelled.
- Approximate verify mode: the outputs of positions that ran fewer experts; the graph with fewer experts and the margin gate are modelled, the gate over exact outputs and arbitrary margins.
- MpmcRingTheorems.BulkIsManySingles: compares drains that nobody interrupts; under interruption `ReturnedInOrder` and `StepContents` say what a claim takes.
- The draft-length controller and the margins' arithmetic: any requested length and any margin per pass and position are allowed instead.
- Float accuracy, rope, softmax, norms, half conversion and the GPU float kernels: only tolerance claims.
- GGUF loading, the shadow cache file, arenas, environment parsing, metrics, timestamps and the stall dump.
