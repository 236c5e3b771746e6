# The CPU inference engine of kt-kernel, modelled and verified in Dafny

kt-kernel runs the mixture-of-experts layers of large language models on CPUs while the rest runs on a GPU.  This
project models the parts whose correctness rests on more than reading one function, and proves what they promise.
`dafny verify dfyconfig.toml` checks everything; nothing else is needed.

**The deferred-expert pipeline.**  `TaskQueue` is the lock-free queue behind `CPUInfer`: many producers that first
exchange the tail and only then link their node, one worker that follows the links and deletes what it leaves behind.
Every access to shared memory is one step, and all interleavings are considered; `LinkedTaskQueue` performs the same
steps in place.  `Deferral` is the choice of experts that a layer puts off.  `Pipeline` joins a CUDA stream, taken as
one sequential program whose host functions enqueue on the queue or spin in `sync`, with the worker, and shows that two
buffer slots and a `sync` that leaves one task pending are enough: no races, the intended outputs, nothing lost or
doubled; `PipelineRuns` says exactly which programs can race and that all get through.  `ExpertsHost` is the Python
side: the buffer cache, the record of layers with a deferred task, and whole passes over the layers.

**The pools.**  `WorkStealing` is the pool of one NUMA node, with the relaxed load of `curr_` returning any value
between what the thread last saw and the current one.  `NumaDistributor` is the hand-out of one function to all nodes,
from the barrier of its constructor on.

**Running experts.**  `MoeDispatch` shows that sorting (token, expert) pairs, running each expert on a slice and undoing
the sort is the direct double sum; `ExpertParallel` that spreading the experts over ranks, with an exchange of counts
and tokens and its inverse, gives every rank the same.  `TensorParallel` and `TensorParallelMoe` split every expert over
NUMA nodes and merge the parts; `Reduce` is the tree reduction.

**Layout and memory.**  `AwqPack` repacks int4 weights, `Rope` and `RopeCache` rotate vectors by position, `SharedBuffer`
is the memory that all layers share, `TaskCounter` the mixed-radix task ids.  `Prelude.dfy` holds small shared notions.

How to read it.  Tensor entries are exact reals or integers; an expert is an arbitrary function of its input; what a
kernel computes on a slice is taken as defined by the reference FFN.  A concurrent component is a state machine:
`Enabled` and `Apply` (or a step function) give what one thread can do next, a run is any sequence of such steps, and
the lemmas speak of every run.  `fault`, `race`, `clobbered`, `divByZero` and `outOfRange` are raised by the steps
themselves when they do what must not happen, so theorems say that they stay down, or exactly when they do.  Exceptions
of the source are `Err` values, and contracts say when each occurs.

Three facts worth knowing.  `moe_infer` on an empty batch raises at the final `view`, whose last dimension cannot be
inferred.  And a pool left without threads, as when fewer threads than NUMA nodes are asked for, fails at its first job:
one with a task divides by zero, one without stores to a status word that is not there.
`WorkStealing.FaultsExactlyWhen` and `WorkStealing.DividesByZeroExactlyWhen` settle every configuration.  And two slots are
enough only because a layer that defers is followed by one of the other parity on the same buffers; a deferring layer
followed by one of its own parity, as when the last layer of a pass defers and layer 0 has its slot, can race
(`PipelineRuns.RacesExactlyWhen`).

## Model

| member | source | states |
|---|---|---|
| `TaskQueue.MemorySafety` | kt-kernel/cpu_backend/task_queue.cpp:19-64 | in every interleaving of any number of producers, the worker and the destructor, no step follows a pointer to a deleted node or deletes one twice, `pending` never goes below zero, and the node a producer is about to link from is live, unlinked and its own predecessor in exchange order |
| `TaskQueue.RunsInExchangeOrder` | kt-kernel/cpu_backend/task_queue.cpp:38-64 | the closures that have run are exactly a prefix of the exchange order: each once, in that order |
| `TaskQueue.RefinesFifo` | kt-kernel/cpu_backend/task_queue.cpp:38-64 | every step of every thread is a step of a plain FIFO queue; what goes in at the exchange is the closure `enqueue` was called with, what runs is the next one out |
| `TaskQueue.SyncMeansPrefix` | kt-kernel/cpu_backend/task_queue.cpp:38-48 | `pending` equals begun enqueues minus published completions; when `sync(n)` may leave, all but at most n of the begun tasks have run, and those that have are a prefix of the exchange order |
| `TaskQueue.SyncExactlyWhen` | kt-kernel/cpu_backend/task_queue.cpp:45-48 | with the worker between tasks, `sync(n)` gets through if and only if all but n of the begun tasks have run |
| `TaskQueue.DestroyedIsClean` | kt-kernel/cpu_backend/task_queue.cpp:26-36 | after the destructor nothing is allocated and there have been as many deletes as news, the dummy included |
| `TaskQueue.WorkerCatchesUp` | kt-kernel/cpu_backend/task_queue.cpp:50-64 | with no enqueue in flight the worker alone brings `pending` to zero within six steps a task, and all tasks have then run; so every `sync` returns |
| `TaskQueue.RunInv` | kt-kernel/cpu_backend/task_queue.cpp:19-64 | chain, in-flight producers, ownership, worker position and history counters agree in every reachable state |
| `TaskQueue.LinkedTaskQueue.constructor` | kt-kernel/cpu_backend/task_queue.cpp:19-24 | a queue holding only the dummy node |
| `TaskQueue.LinkedTaskQueue.EnqueueCount` | kt-kernel/cpu_backend/task_queue.cpp:39 | the `fetch_add` on `pending`, in place, as a step of the state machine that keeps the invariant |
| `TaskQueue.LinkedTaskQueue.EnqueueNew` | kt-kernel/cpu_backend/task_queue.cpp:40 | the node allocation, likewise |
| `TaskQueue.LinkedTaskQueue.EnqueueExchange` | kt-kernel/cpu_backend/task_queue.cpp:41 | the exchange of `tail`, likewise |
| `TaskQueue.LinkedTaskQueue.EnqueueLink` | kt-kernel/cpu_backend/task_queue.cpp:42 | the store of `prev->next`, through a pointer that is not checked: the invariant says that it is live |
| `TaskQueue.LinkedTaskQueue.SyncPoll` | kt-kernel/cpu_backend/task_queue.cpp:45-48 | one reading of `pending`; leaving means that the completed tasks are a prefix of exchange order and at most n begun ones are missing |
| `TaskQueue.LinkedTaskQueue.WorkerLoadDone` | kt-kernel/cpu_backend/task_queue.cpp:52 | the loop condition of the worker |
| `TaskQueue.LinkedTaskQueue.WorkerLoadNext` | kt-kernel/cpu_backend/task_queue.cpp:53-54 | the load of `curr->next`, through an unchecked pointer |
| `TaskQueue.LinkedTaskQueue.WorkerRun` | kt-kernel/cpu_backend/task_queue.cpp:55-57 | running the next node's task, through an unchecked pointer |
| `TaskQueue.LinkedTaskQueue.WorkerDelete` | kt-kernel/cpu_backend/task_queue.cpp:58-59 | deleting the node the worker leaves behind |
| `TaskQueue.LinkedTaskQueue.WorkerStoreHead` | kt-kernel/cpu_backend/task_queue.cpp:60 | the store of `head` |
| `TaskQueue.LinkedTaskQueue.WorkerDecrement` | kt-kernel/cpu_backend/task_queue.cpp:61 | the `fetch_sub` on `pending` |
| `TaskQueue.LinkedTaskQueue.DestroyBegin` | kt-kernel/cpu_backend/task_queue.cpp:26-28 | storing `done` |
| `TaskQueue.LinkedTaskQueue.DestroyNode` | kt-kernel/cpu_backend/task_queue.cpp:31-35 | one deletion of the destructor's walk |
| `TaskQueue.LinkedTaskQueue.DestroyRest` | kt-kernel/cpu_backend/task_queue.cpp:30-35 | the whole walk: it ends with an empty heap |
| `Deferral.SelectIsSound` | kt-kernel/python/experts_base.py:197-225 | whatever `torch.topk` picks among equals: at every position exactly one of the immediate and deferred ids is the original and the other -1; each token defers at most topk - protected_k entries, none scoring above a protected one of its row; no expert is immediate for one token and deferred for another; and the call raises exactly when something is protected and an id is out of range |
| `Deferral.FlagMeansProtected` | kt-kernel/python/experts_base.py:212-219 | the scattered flag of an expert is set if and only if some token protects it |
| `Deferral.Clamp` | kt-kernel/python/experts_base.py:206 | protected_k ends up within [0, topk] |
| `Pipeline.RaceFree` | kt-kernel/python/experts_base.py:227-333 | in every interleaving of stream and worker no copy into a slot's input, weights or ids happens while a queued or running task reads it, and no output slot is copied out while an unfinished task writes it, although a wait may leave one task pending |
| `Pipeline.ForwardIs` | kt-kernel/python/experts_base.py:276-289 | a pass over a batch contributes the share of every routed position - the expert at each top-k position of each token, unless -1, with its weight, on the token's input - exactly once, and nothing else |
| `Pipeline.ReturnsExpected` | kt-kernel/python/experts_base.py:264-333 | layer by layer, the outputs hold the shares of the layer's own immediate positions and of those its predecessor deferred, each exactly once and nothing else, and when the program is through every layer has returned |
| `Pipeline.ConservedExactlyWhen` | kt-kernel/python/experts_base.py:264-333 | over a whole run every contribution comes back as often as it was asked for, position by position, if and only if the last call left nothing deferred behind |
| `Pipeline.ExpectedTotal` | kt-kernel/python/experts_base.py:256-305 | of every contribution, what the first n calls return is what they asked for, less what the n-th put off |
| `Pipeline.NeverStuck` | kt-kernel/cpu_backend/cpuinfer.h:100-115 | wherever the stream stands its next step is possible within six worker steps for each pending task |
| `Pipeline.RunPosition` | kt-kernel/python/experts_base.py:227-333 | for any calls whatever, the position of the stream, what it has launched and how much of that has run agree in every reachable state |
| `Pipeline.RunInv` | kt-kernel/python/experts_base.py:227-333 | for chained calls, so do the buffers that launched tasks will read, the outputs they have left and what has been returned |
| `PipelineRuns.RacesExactlyWhen` | kt-kernel/python/experts_base.py:227-333 | for any calls whatever, some interleaving races if and only if some deferring call is followed by a call on the same slot of the same buffer set |
| `PipelineRuns.EveryRunCanFinish` | kt-kernel/python/experts_base.py:227-333 | every run, of any calls, can be continued until the program is through, within the steps that its operations and pending tasks account for |
| `PipelineRuns.GetsThrough` | kt-kernel/python/experts_base.py:227-333 | every program has a run that gets through within 15 steps a call and 11 more for each call that defers |
| `Pipeline.SubmitThenSync` | kt-kernel/python/experts_base.py:260-333 | a call's operations are those of `submit_forward`, then one wait, which leaves a task pending exactly when the call deferred one, and one copy out of the call's slot |
| `Pipeline.ForwardSplit` | kt-kernel/python/experts_base.py:197-225 | splitting the ids into immediate and deferred splits the contributions, as multisets |
| `Pipeline.LaunchIsEnqueue` | kt-kernel/cpu_backend/cpuinfer.h:74-91 | each step of a launch on the stream is a step of `enqueue` on the task queue that is possible there, and touches no other producer |
| `Pipeline.LaunchQueueInv` | kt-kernel/cpu_backend/cpuinfer.h:74-91 | a launch keeps the queue holding exactly the launched tasks in order, and runs none of them |
| `ExpertsHost.GetBufferIsStable` | kt-kernel/python/experts_base.py:35-86 | the call hands out a buffer set unless nothing was ever cached and the batch is empty; asking again gives the same set; another batch size never gets the same set |
| `ExpertsHost.ComesBackExactlyWhen` | kt-kernel/python/experts_base.py:36-86 | a buffer set that was handed out comes back for its batch size, whatever was asked for in between, if and only if the batch size is one to be captured or every other size asked for since was captured already |
| `ExpertsHost.Experts.constructor` | kt-kernel/python/experts_base.py:21-33 | the class-level state before any call |
| `ExpertsHost.Experts.AddLayer` | kt-kernel/python/experts_base.py:98-167 | a new wrapper's layer has nothing deferred; no other layer's flag, no cached buffer and no validity of the cache is affected |
| `ExpertsHost.Experts.CachedBuffer` | kt-kernel/python/experts_base.py:35-86 | `get_buffer`, updating the class-level cache |
| `ExpertsHost.Experts.SubmitForward` | kt-kernel/python/experts_base.py:227-305 | the calls put on the stream, the flag that is read and the flags that are written, and the errors |
| `ExpertsHost.Experts.PutOnStream` | kt-kernel/python/experts_base.py:272-305 | copies and launches go on the stream exactly as the pipeline's submit operations, with slots by the parity of the layer; the layer's flag says whether it deferred |
| `ExpertsHost.Experts.SyncForward` | kt-kernel/python/experts_base.py:307-333 | the wait and the copy put on the stream; the slot that is returned |
| `ExpertsHost.Experts.Forward` | kt-kernel/python/experts_base.py:335-356 | submit then sync put exactly one call of the pipeline's program on the stream, and the cache invariant is kept |
| `ExpertsHost.ResolveMatches` | kt-kernel/python/experts_base.py:256-270 | the call carries the request's tensors; without deferral it runs all ids at once, and otherwise it puts off at most max_deferred_experts_per_token positions of a token, none scoring above one it keeps, and runs an expert at once exactly when some token keeps it |
| `ExpertsHost.SplitExactlyWhen` | kt-kernel/python/experts_base.py:197-225 | splitting fails exactly when some but not all experts are deferred and an id names no expert; what it yields is immediate first, deferred second, in that sense |
| `ExpertsHost.RunHostExactlyWhen` | kt-kernel/python/experts_base.py:227-305 | a list of forwards gets through if and only if every id names an expert wherever some but not all experts are deferred, and the cache is not asked for an empty batch first |
| `ExpertsHost.PassesAreChained` | kt-kernel/python/experts_base.py:264-305 | passes over consecutive layers, each with one batch size and a last layer that defers nothing, satisfy the pipeline's hypotheses, whatever the cache held before |
| `ExpertsHost.RoutedIsRequested` | kt-kernel/python/experts_base.py:227-305 | the calls ask for every contribution as often as it is the share of a routed position of the requests |
| `ExpertsHost.PassesReturnEverything` | kt-kernel/python/experts_base.py:197-333 | end to end: for any such passes and any interleaving there is no race; each output holds the shares its layer runs at once and those the layer before deferred, by calls that split each request soundly; and together the outputs hold the share of every routed position of every token of every layer exactly once and nothing else |
| `ExpertsHost.PassesGetThrough` | kt-kernel/python/experts_base.py:197-333 | and some interleaving of such passes gets to the end and returns the share of every routed position, within 15 steps a layer and 11 more for each that defers |
| `WorkStealing.ExactlyOnce` | kt-kernel/cpu_backend/worker_pool.cpp:145-201 | after each job every task id in its range has been computed exactly once with that job's function, and no other; at no moment has any been computed twice - with stale block sizes, over any sequence of jobs and whatever the configuration |
| `WorkStealing.SafeReuse` | kt-kernel/cpu_backend/worker_pool.cpp:145-159 | job fields are written only while every thread is outside and none has been told to go inside, whatever the configuration |
| `WorkStealing.InsideMeansThisJob` | kt-kernel/cpu_backend/worker_pool.cpp:145-201 | a thread inside reads the function and the end of the current job and the smaller of restricted worker count and task count |
| `WorkStealing.BlockIsFairShare` | kt-kernel/cpu_backend/worker_pool.cpp:171-178 | a block is the smallest with which as many blocks as there are workers cover what the load left to do |
| `WorkStealing.Overshoot` | kt-kernel/cpu_backend/worker_pool.cpp:171-182 | `curr_` stays below 2 * end + worker_count - 1 |
| `WorkStealing.StepDecreases` | kt-kernel/cpu_backend/worker_pool.cpp:161-224 | every step inside a job either changes nothing (a spin) or lowers a measure |
| `WorkStealing.JobsAreBounded` | kt-kernel/cpu_backend/worker_pool.cpp:135-201 | a job takes at most 8 * task_num + 10 * worker_count + 11 steps that are not spins, all threads together |
| `WorkStealing.NeverStuck` | kt-kernel/cpu_backend/worker_pool.cpp:114-118 | inside a job, until something has gone wrong, some thread can always do more than spin |
| `WorkStealing.FaultsExactlyWhen` | kt-kernel/cpu_backend/worker_pool.cpp:112-201 | for every number of threads, restricted worker count and list of jobs: some interleaving divides by zero or indexes a status word that is not there if and only if there is a job and no thread, or a job with a task and no worker allowed, or more workers wanted than there are threads; as constructed, if and only if the pool has no thread and is given a job |
| `WorkStealing.DividesByZeroExactlyWhen` | kt-kernel/cpu_backend/worker_pool.cpp:151-182 | some interleaving divides by a worker count of zero if and only if no worker is allowed and some job has a task - for a pool without threads, the first one |
| `WorkStealing.NeverPastBadJob` | kt-kernel/cpu_backend/worker_pool.cpp:135-201 | no interleaving finishes a job that the pool cannot do |
| `WorkStealing.RunInv` | kt-kernel/cpu_backend/worker_pool.cpp:112-224 | claims are disjoint and within `curr_`, and status words, positions and counts agree, in every reachable state |
| `WorkStealing.InNumaPool.WriteFunction` | kt-kernel/cpu_backend/worker_pool.cpp:149 | writing the function field, in place, as a step of the state machine that keeps the invariant |
| `WorkStealing.InNumaPool.WriteCount` | kt-kernel/cpu_backend/worker_pool.cpp:151 | writing `worker_count`, in place, as a step of the state machine that keeps the invariant |
| `WorkStealing.InNumaPool.StoreCurr` | kt-kernel/cpu_backend/worker_pool.cpp:152 | resetting `curr_`, in place, as a step of the state machine that keeps the invariant |
| `WorkStealing.InNumaPool.WriteEnd` | kt-kernel/cpu_backend/worker_pool.cpp:153 | writing `end_`, in place, as a step of the state machine that keeps the invariant |
| `WorkStealing.InNumaPool.MarkNext` | kt-kernel/cpu_backend/worker_pool.cpp:154-156 | storing WORKING, in place, as a step of the state machine that keeps the invariant |
| `WorkStealing.InNumaPool.EnterOwn` | kt-kernel/cpu_backend/worker_pool.cpp:157-158 | the caller going inside, in place, as a step of the state machine that keeps the invariant |
| `WorkStealing.InNumaPool.LoadCurr` | kt-kernel/cpu_backend/worker_pool.cpp:172-178 | the load of `curr_`, possibly stale, and the block size, in place, as a step of the state machine that keeps the invariant |
| `WorkStealing.InNumaPool.FetchAdd` | kt-kernel/cpu_backend/worker_pool.cpp:179-182 | the `fetch_add`, in place, as a step of the state machine that keeps the invariant |
| `WorkStealing.InNumaPool.ComputeNext` | kt-kernel/cpu_backend/worker_pool.cpp:184-189 | the next task of a block, in place, as a step of the state machine that keeps the invariant |
| `WorkStealing.InNumaPool.StoreWaiting` | kt-kernel/cpu_backend/worker_pool.cpp:196 | storing WAITING, in place, as a step of the state machine that keeps the invariant |
| `WorkStealing.InNumaPool.PollStatus` | kt-kernel/cpu_backend/worker_pool.cpp:209-213 | a worker reading its status, in place, as a step of the state machine that keeps the invariant |
| `WorkStealing.InNumaPool.BeginWait` | kt-kernel/cpu_backend/worker_pool.cpp:142 | the caller leaving its own share, in place, as a step of the state machine that keeps the invariant |
| `WorkStealing.InNumaPool.WaitNext` | kt-kernel/cpu_backend/worker_pool.cpp:114-118 | the caller reading a status in `wait`, in place, as a step of the state machine that keeps the invariant |
| `NumaDistributor.SafeReuse` | kt-kernel/cpu_backend/worker_pool.cpp:239-252 | no status word is followed before it exists - all exist when the barrier opens - and the function is rewritten only when no worker is in, or about to make, a call of the last one |
| `NumaDistributor.OncePerNode` | kt-kernel/cpu_backend/worker_pool.cpp:345-381 | a `do_numa_job` that has returned has called its function exactly once with each NUMA index and nothing else |
| `NumaDistributor.NeverStuck` | kt-kernel/cpu_backend/worker_pool.cpp:239-381 | until all jobs have returned some thread can do more than spin |
| `NumaDistributor.MovesAreCounted` | kt-kernel/cpu_backend/worker_pool.cpp:239-381 | in every interleaving each step either changes nothing or is one of those that a measure counts as left |
| `NumaDistributor.AllMoves` | kt-kernel/cpu_backend/worker_pool.cpp:239-381 | from the constructor on, with j jobs on n nodes, the threads take at most 4n + 3 + j(5n + 3) steps that are not spins |
| `NumaDistributor.ConstructorIsBounded` | kt-kernel/cpu_backend/worker_pool.cpp:239-252 | until the constructor returns the threads take at most 4n + 3 steps that are not spins; as some thread can always step, the barrier opens |
| `NumaDistributor.JobsAreBounded` | kt-kernel/cpu_backend/worker_pool.cpp:364-381 | until a `do_numa_job` returns the threads take at most 6n + 3 steps that are not spins |
| `NumaDistributor.RunInv` | kt-kernel/cpu_backend/worker_pool.cpp:239-381 | status words, worker positions, barrier and call counts agree in every reachable state |
| `NumaDistributor.NumaJobDistributor.SpawnNext` | kt-kernel/cpu_backend/worker_pool.cpp:248-250 | starting a worker, in place, as a step of the state machine that keeps the invariant |
| `NumaDistributor.NumaJobDistributor.ArriveAtBarrier` | kt-kernel/cpu_backend/worker_pool.cpp:251 | the constructor's arrival, in place, as a step of the state machine that keeps the invariant |
| `NumaDistributor.NumaJobDistributor.PassBarrier` | kt-kernel/cpu_backend/worker_pool.cpp:251 | the barrier opening, in place, as a step of the state machine that keeps the invariant |
| `NumaDistributor.NumaJobDistributor.WriteFunction` | kt-kernel/cpu_backend/worker_pool.cpp:346 | writing the function field, in place, as a step of the state machine that keeps the invariant |
| `NumaDistributor.NumaJobDistributor.StoreWorking` | kt-kernel/cpu_backend/worker_pool.cpp:347-349 | storing WORKING, in place, as a step of the state machine that keeps the invariant |
| `NumaDistributor.NumaJobDistributor.WaitNext` | kt-kernel/cpu_backend/worker_pool.cpp:350-353 | reading a status, in place, as a step of the state machine that keeps the invariant |
| `NumaDistributor.NumaJobDistributor.CreateStatus` | kt-kernel/cpu_backend/worker_pool.cpp:360-361 | a worker creating its status word, in place, as a step of the state machine that keeps the invariant |
| `NumaDistributor.NumaJobDistributor.WorkerArrive` | kt-kernel/cpu_backend/worker_pool.cpp:362 | a worker's arrival, in place, as a step of the state machine that keeps the invariant |
| `NumaDistributor.NumaJobDistributor.WorkerPass` | kt-kernel/cpu_backend/worker_pool.cpp:362 | the barrier opening for a worker, in place, as a step of the state machine that keeps the invariant |
| `NumaDistributor.NumaJobDistributor.WorkerPoll` | kt-kernel/cpu_backend/worker_pool.cpp:364-365 | a worker reading its status, in place, as a step of the state machine that keeps the invariant |
| `NumaDistributor.NumaJobDistributor.WorkerCall` | kt-kernel/cpu_backend/worker_pool.cpp:368 | the call, in place, as a step of the state machine that keeps the invariant |
| `NumaDistributor.NumaJobDistributor.WorkerStore` | kt-kernel/cpu_backend/worker_pool.cpp:369 | storing WAITING, in place, as a step of the state machine that keeps the invariant |
| `MoeDispatch.MoeInfer` | kt-kernel/examples/modeling_deepseek_v3.py:536-609 | for every argsort permutation, stable or not: it succeeds if and only if ids are in range, no token repeats one, and there is something to compute; then every component of every token's result is the inner product of its routing weights with that component of what its experts make of it |
| `MoeDispatch.RunExperts` | kt-kernel/examples/modeling_deepseek_v3.py:577-589 | the loop over contiguous slices gives each sorted token to the expert whose block it lies in |
| `MoeDispatch.ScatterRows` | kt-kernel/examples/modeling_deepseek_v3.py:600-601 | the indexed write puts every row back, and fails exactly when counts and positions do not match |
| `MoeDispatch.ArgsortIsExpand` | kt-kernel/examples/modeling_deepseek_v3.py:540-541 | sorting labels by any argsort gives the blocks that the counts describe |
| `MoeDispatch.DispatchIsPointwise` | kt-kernel/examples/modeling_deepseek_v3.py:577-601 | sorting, running in blocks and putting back is running each token on the spot |
| `MoeDispatch.CountsAreHistogram` | kt-kernel/examples/modeling_deepseek_v3.py:537-539 | for distinct ids per row the summed one-hot rows are the histogram |
| `MoeDispatch.CountsAddUp` | kt-kernel/examples/modeling_deepseek_v3.py:537-539 | they add up to the number of pairs if and only if no row repeats an id |
| `MoeDispatch.PutBackIsNaive` | kt-kernel/examples/modeling_deepseek_v3.py:600-609 | the weighted sum over what was put back is the direct double loop |
| `ExpertParallel.MoeInferParallel` | kt-kernel/examples/modeling_deepseek_v3.py:536-609 | for any number of ranks and any batches: all ranks get through the exchanges if and only if every batch is routable, and then each rank gets exactly what it would get holding all experts itself: its own routing weights times what its own experts make of its own tokens |
| `ExpertParallel.SendPhase` | kt-kernel/examples/modeling_deepseek_v3.py:543-562 | counts and sorted tokens cut up by destination; the split raises exactly when some token repeats an id |
| `ExpertParallel.FillLabels` | kt-kernel/examples/modeling_deepseek_v3.py:566-570 | the slice-by-slice fill gives every arrived token its local expert |
| `ExpertParallel.ServePhase` | kt-kernel/examples/modeling_deepseek_v3.py:563-598 | regrouping, running and un-regrouping hands back each sender's tokens, each through the expert it was sent for, in the order sent |
| `ExpertParallel.ServeAll` | kt-kernel/examples/modeling_deepseek_v3.py:543-598 | the same on all ranks |
| `ExpertParallel.RunGrouped` | kt-kernel/examples/modeling_deepseek_v3.py:571-592 | on one rank, sort, run and put back is running each token on the spot |
| `ExpertParallel.ArrivalIsExpand` | kt-kernel/examples/modeling_deepseek_v3.py:566-570 | row by row, arrival labels count up from local expert 0 |
| `ExpertParallel.SumRowsHistogram` | kt-kernel/examples/modeling_deepseek_v3.py:563-565 | the counts after the gather are the histogram of the labels that arrived |
| `ExpertParallel.ReturnedIsRun` | kt-kernel/examples/modeling_deepseek_v3.py:590-598 | after the exchange back a rank holds its own tokens run through their experts, in sorted order |
| `ExpertParallel.CombinePhase` | kt-kernel/examples/modeling_deepseek_v3.py:600-609 | undoing the sort and summing yields the single-rank result |
| `ExpertParallel.ConcatOfSplit` | kt-kernel/examples/modeling_deepseek_v3.py:559-562 | splitting and concatenating is the identity |
| `ExpertParallel.SplitOfConcat` | kt-kernel/examples/modeling_deepseek_v3.py:594-597 | and so is concatenating and splitting |
| `TensorParallel.SplitSizes` | kt-kernel/operators/moe-tp.hpp:45-120 | each constructor error exactly when; otherwise the sizes add up to the intermediate size, equal ones, or for Llamafile non-empty multiples of 256 at most one block apart, earlier ones larger |
| `TensorParallel.BlockSizes` | kt-kernel/operators/moe-tp.hpp:90-104 | the loop that gives the first nodes one block more |
| `TensorParallel.EqualSizes` | kt-kernel/operators/moe-tp.hpp:114-119 | the loop of equal shares |
| `TensorParallel.SlicesTile` | kt-kernel/operators/moe-tp.hpp:90-119 | every intermediate row lies in exactly one slice |
| `TensorParallel.SplitKeepsOutput` | kt-kernel/operators/moe-tp.hpp:168-183 | for every weight, input, routing and split that adds up, the nodes' outputs add up to the unsplit experts' weighted sum |
| `TensorParallel.RoutedJoin` | kt-kernel/examples/modeling_deepseek_v3.py:389-391 | neighbouring ranges of intermediate rows contribute the sum of their parts |
| `TensorParallel.OutsAre` | kt-kernel/operators/llamafile/moe.hpp:715-740 | an expert the CPU backend runs, one with num_gpu_experts <= id < expert_num, yields its down projection of act(gate x) * up x; any other yields nothing |
| `Vectors.DotSplit` | kt-kernel/examples/modeling_deepseek_v3.py:604-608 | an inner product adds up over stretches |
| `Vectors.DotOfOne` | kt-kernel/examples/modeling_deepseek_v3.py:604-608 | and over a single position it is the product: the weighted sum is determined by the two |
| `TensorParallel.FfnOfPart` | kt-kernel/examples/modeling_deepseek_v3.py:389-391 | the FFN of a slice is the unsplit down projection restricted to the slice's rows |
| `TensorParallel.CopyRows` | kt-kernel/operators/llamafile/moe.hpp:215-248 | the pointer walk over gate or up lands on this node's rows of every expert |
| `TensorParallel.CopyColumns` | kt-kernel/operators/llamafile/moe.hpp:221-239 | the pointer walk over down copies this node's stretch of every row of every expert |
| `TensorParallel.CopiesAreParts` | kt-kernel/operators/llamafile/moe.hpp:192-249 | what is copied are the three projections of this node's slice of every expert |
| `TensorParallel.ExpertsReadBack` | kt-kernel/operators/llamafile/moe.hpp:182-190 | laying the three projections of some experts out in memory, row after row and expert after expert, loses nothing |
| `TensorParallel.LoadNode` | kt-kernel/operators/llamafile/moe.hpp:192-249 | from the complete projections in memory one node gets its slice of every expert |
| `TensorParallelMoe.MergeToken` | kt-kernel/operators/llamafile/moe.hpp:798-822 | old output if incremental plus every node's row, added in place into the first buffer and copied out; nothing else changes |
| `TensorParallelMoe.MergeResults` | kt-kernel/operators/llamafile/moe.hpp:798-824 | the same for all tokens, and nothing behind them |
| `TensorParallelMoe.TpMoe.constructor` | kt-kernel/operators/moe-tp.hpp:125-137 | one buffer per node, nothing loaded |
| `TensorParallelMoe.TpMoe.LoadWeights` | kt-kernel/operators/llamafile/moe.hpp:778-794 | offsets accumulate; from the complete projections in memory node i comes to hold its slice of every expert |
| `TensorParallelMoe.TpMoe.RunNodes` | kt-kernel/operators/moe-tp.hpp:178-181 | every node on the whole batch, each into its own buffer |
| `TensorParallelMoe.TpMoe.Forward` | kt-kernel/operators/moe-tp.hpp:168-183 | it fails and changes neither the output nor any node's buffer unless loaded; otherwise every component of every token is the old output, if incremental, plus the weighted sum of the token's CPU experts, unsplit |
| `Reduce.ReduceSum` | kt-kernel/operators/reduce.hpp:6-21 | for any group count over pairwise distinct arrays, positions begin..end of every group become the tree reduction of their column and nothing else changes |
| `Reduce.ReducedHead` | kt-kernel/operators/reduce.hpp:6-21 | the root of the tree reduction is the sum of the column |
| `Reduce.HeadIsSum` | kt-kernel/operators/reduce.hpp:6-21 | data[0][i] is the sum of the original data[k][i] for begin <= i < end |
| `Reduce.RangesCompose` | kt-kernel/operators/reduce.hpp:6-21 | calls on disjoint ranges, in any order, reduce the union of the ranges and leave the rest alone |
| `Rope.LoopIsReference` | kt-kernel/examples/modeling_deepseek_v3.py:332-372 | the one-pass form equals view, transpose, reshape and rotate_half, for every even-length vector and every table |
| `Rope.AtStart` | kt-kernel/operators/rope.hpp:113-144 | at position 0 with mscale 1 a vector is only de-interleaved |
| `RopeCache.RotatedAtStart` | kt-kernel/operators/rope.hpp:113-144 | a vector turned for position 0 with mscale 1 by the tables is only de-interleaved |
| `Rope.NextPosition` | kt-kernel/operators/rope.hpp:113-144 | one position further, every plane is turned by its frequency once more |
| `Rope.EqualPositions` | kt-kernel/operators/rope.hpp:113-144 | at equal positions the rotation multiplies inner products by mscale squared, hence keeps them when mscale is 1 |
| `Rope.ShiftInvariant` | kt-kernel/operators/rope.hpp:113-144 | the inner product of q at m with k at n does not change when both positions shift alike |
| `RopeCache.MakeEmbedding` | kt-kernel/operators/rope.hpp:99-111 | an odd dimension throws; otherwise the tables are filled |
| `RopeCache.RotaryEmbedding.SetCosSinCache` | kt-kernel/operators/rope.hpp:124-144 | entry i * dim / 2 + j holds position i of frequency j, whatever the tables held before: position 0 is not turned, and each further position is the one before turned by the frequency once more |
| `RopeCache.PointersLeadToRow` | kt-kernel/operators/rope.hpp:113-114 | the pointers for a position lead to that position's row |
| `RopeCache.Applier.ApplySingle` | kt-kernel/operators/rope.hpp:33-58 | an odd size throws and changes nothing; otherwise the vector is rotated in place and nothing around it changes |
| `RopeCache.Applier.ApplyMultiple` | kt-kernel/operators/rope.hpp:60-71 | errors and early returns; otherwise vector after vector |
| `RopeCache.BlockRows` | kt-kernel/operators/rope.hpp:60-71 | which leaves vector k rotated for position pos_start + k and everything else alone |
| `AwqPack.UnpackUndoesPack` | kt-kernel/scripts/convert_cpu_weights.py:128-169 | `unpack` undoes `pack` modulo 16 |
| `AwqPack.PackUndoesUnpack` | kt-kernel/scripts/convert_cpu_weights.py:128-169 | `pack` undoes `unpack` on int32 words, negative ones included |
| `AwqPack.RepackPlaces` | kt-kernel/scripts/convert_cpu_weights.py:184-237 | bits 4i to 4i + 3 of the word at (column, row / 8), i being row % 8, are the logical nibble (row, column), a word's low half holding its even columns and its high half the odd ones; it succeeds if and only if there are words and the rows come in groups of eight |
| `AwqPack.RepackLosesNothing` | kt-kernel/scripts/convert_cpu_weights.py:184-237 | the original words come back from the repacked ones |
| `AwqPack.ZerosReordered` | kt-kernel/scripts/convert_cpu_weights.py:184-237 | zero points are put in order, not transposed; fails only on a matrix without rows |
| `AwqPack.UnpackOfPack` | kt-kernel/scripts/convert_cpu_weights.py:138-147 | one word: the nibbles come back masked, through the 64-bit sum and the cast to int32 |
| `AwqPack.PackOfUnpack` | kt-kernel/scripts/convert_cpu_weights.py:161-169 | one word: arithmetic shift, int8 cast and mask lose nothing |
| `AwqPack.InterleavingUndone` | kt-kernel/scripts/convert_cpu_weights.py:172-182 | de-interleaving is undone by interleaving and the other way round, on every matrix where it does not raise; the two raise on the same ones |
| `AwqPack.UnpackAwqInt32ToInt8` | kt-kernel/scripts/compare_weights.py:25-51 | the strided-loop unpacker agrees with `unpack` on every row of words |
| `SharedBuffer.TotalSize` | kt-kernel/cpu_backend/shared_mem_buffer.cpp:17-23 | the sum of the sizes |
| `SharedBuffer.UpdateBasePtr` | kt-kernel/cpu_backend/shared_mem_buffer.cpp:25-31 | every pointer of the request is the base plus the sizes before its last entry |
| `SharedBuffer.AppendPointer` | kt-kernel/cpu_backend/shared_mem_buffer.h:31-34 | the request's total grows by the size |
| `SharedBuffer.SharedMemBuffer.constructor` | kt-kernel/cpu_backend/shared_mem_buffer.cpp:38-41 | no buffer, capacity zero |
| `SharedBuffer.SharedMemBuffer.Alloc` | kt-kernel/cpu_backend/shared_mem_buffer.cpp:49-73 | it exits exactly when it must grow and cannot; otherwise the capacity is the largest request, and every pointer ever registered, also after the buffer moved, is the current base plus its place in its last registration |
| `SharedBuffer.SharedMemBuffer.PointAll` | kt-kernel/cpu_backend/shared_mem_buffer.cpp:67-69 | the loop that re-points every client |
| `SharedBuffer.LargestIsMaximum` | kt-kernel/cpu_backend/shared_mem_buffer.cpp:53-66 | the capacity is the maximum of all request totals |
| `SharedBuffer.PlaceOfEntry` | kt-kernel/cpu_backend/shared_mem_buffer.cpp:25-31 | an entry whose pointer is not registered again lies behind the earlier sizes of its own request |
| `SharedBuffer.RegionsApart` | kt-kernel/cpu_backend/shared_mem_buffer.cpp:25-31 | the regions of one request do not overlap and fit into the buffer |
| `TaskCounter.TaskCounter.constructor` | kt-kernel/operators/common.hpp:120-125 | card[k] is the product of fold[k..] for the given factors |
| `TaskCounter.TaskCounter.PushBack` | kt-kernel/operators/common.hpp:127-133 | and stays so after each further factor, zero included |
| `TaskCounter.TaskCounter.Count` | kt-kernel/operators/common.hpp:139 | the product of all factors |
| `TaskCounter.TaskCounter.At` | kt-kernel/operators/common.hpp:140 | the digit, or which error exactly when: beyond the end, or a zero factor at or behind the position |
| `TaskCounter.DigitsBelow` | kt-kernel/operators/common.hpp:140 | every digit is below its factor |
| `TaskCounter.DigitsAddUp` | kt-kernel/operators/common.hpp:139-140 | the digits, weighted by card[k + 1], add up to the id modulo the count |
| `TaskCounter.IdOfDigits` | kt-kernel/operators/common.hpp:139-140 | to the id itself, below the count |
| `TaskCounter.IdBelowCount` | kt-kernel/operators/common.hpp:139-140 | and the id of any digit tuple is below the count |
| `TaskCounter.DigitsOfId` | kt-kernel/operators/common.hpp:139-140 | whose digits are the tuple: ids below the count and digit tuples correspond one to one, and ids wrap at the count |
| `TaskCounter.DigitsDetermine` | kt-kernel/operators/common.hpp:139-140 | different ids below the count differ in some digit |

## Left out

- A negative restricted worker count, which nothing in the repository sets; what a thread does after a division by zero or an access out of range, where a run of `WorkStealing` stops.
- `WorkStealing.InNumaPool.LoadCurr` and the other methods of that class: called only for jobs the pool can do, as `FaultsExactlyWhen` has them; where a job faults, the state machine alone describes what happens.
- Weak memory: every atomic access is one sequentially consistent step; the only relaxed access given weaker meaning is the load of `curr_`.
- Integer widths: `pending`, buffer sizes, task ids and `curr_` do not wrap around here; `WorkStealing.Overshoot` gives the bound that the width of `curr_` must respect. The words of `AwqPack` do have their width.
- Floating point: no rounding, no bf16 or fp8; `cos` and `sin` of position times frequency are taken as powers of a unit pair.
- Kernels (`T::forward`, AMX, KML, BLIS, triton): what a node computes for a token is the reference FFN on its slice; an id outside [num_gpu_experts, expert_num) contributes nothing; an incremental pass adds to the output, another one overwrites it. In `Pipeline` an expert's contribution is a symbol and a sum is the list of its terms.
- The weight loader's block types: elements are copied one by one, not in quantised blocks, and the loader's three divisibility checks are not modelled; the copies of gate, up and down are separate loops rather than one loop body.
- The merges of the AMX, K2 and AWQ backends, which add in vector registers in another order, and the default `merge_results` that refuses `incremental`.
- `TensorParallelMoe.TpMoe.RunNodes`: runs the nodes one after the other; that each runs exactly once before the call returns is `NumaDistributor.OncePerNode`.
- `TensorParallelMoe.MergeResults`: takes the tokens in order; the pool may take them in any order, and their rows are apart.
- `ExpertParallel.MoeInferParallel`: takes the ranks side by side with collectives as functions of what all ranks put in; when one rank raises, the others, which would wait for it, are not described further.
- `ExpertsHost.Experts.CachedBuffer`: a cached set is found by batch size alone, and the errors of a copy whose hidden size or top-k differs from the cached set's are not modelled; nor are changing the captured sizes or clearing the cache while tasks are pending.
- The GPU copies returned by `sync_forward` share one slot per parity and are overwritten two layers later; the model speaks of their value when returned.
- `InNumaPool`'s `init_func` and `finalize_func`, thread pinning, sleeping, profiling and the EXIT status; `NumaJobDistributor` built with USE_NUMA_JOB_DIRECT_WORK, and its destructor.
- The order in which `CPUInfer` destroys its pool and its queue.
- `MoEGate`: not modelled; that ids are distinct within a row is the condition under which `MoeInfer` succeeds.
- The shared experts added after `moe_infer`, attention, normalisation and all model glue.
- `SharedMemBufferNuma`, which keeps one buffer per node under a lock, and clients that register functions other than writing a pointer.
- The batch dimension of the AWQ tensors, which only repeats the matrix case; bit widths other than four; reinterpreting other element types as int32.
- YaRN's choice of frequencies; its `mscale` is kept.
- File formats, bindings, drivers, benchmarks and tests.
