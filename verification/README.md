# Verification of the kt-kernel runtime

Dafny models of the concurrent and data-moving parts of kt-kernel and of the dual-microbatch decode runner, with proofs
of what they promise. `dafny verify dfyconfig.toml` checks everything.

**Task queue** (`TaskQueue*.dfy`). The lock-free queue as a state machine: any number of client threads that enqueue and
sync, the worker, the destructor; every atomic operation is one step, a critical section that tests and then waits is
several, and freed addresses may be handed out again. Tasks run in `tail.exchange` order whatever the interleaving;
between an exchange and its link the list in memory falls into maximal chains, one cut per client in between; no freed
node is ever touched and every node is freed exactly once; `pending` is exact. A measure bounds the steps threads can
take of their own accord, and a queue at rest has returned from every call or has lost a wake-up. Seen from outside it
is a first-in first-out queue with one worker. The tasks callers pass in are the tasks published and called, none lost
or reordered (`TasksArriveInOrder`, `DrainedRanEverything`), and `sync` keeps the promise of its own argument.
*Wake-ups.* Worker and `sync` share one condition variable and `enqueue` calls `notify_one`. Whatever the clients do, a
wake-up is lost if and only if the last notification, with the worker asleep over a linked task, goes to a client in
`sync` (`WakeupsLostExactly`, over whole runs). None is lost, and every call returns, as long as no `sync` overlaps
another thread's `enqueue`; and in any reachable state in which a `sync(0)` does overlap an `enqueue` not yet linked,
the threads can be scheduled so that it is (`OverlapLosesWakeup`). `OverlapCanLoseWakeup` is a run from start-up that
ends with a published task, a sleeping worker, a client asleep in `sync(0)` and no thread able to move.

**Thread pools** (`Handshake.dfy`, `InNumaPool*.dfy`, `NumaJobDistributor*.dfy`). The WORKING / WAITING / EXIT
handshake, the claiming loop over a shared counter, the start-up barrier, destruction. When each job is waited for
before the next one or the destruction, it computes every task id exactly once, reaches each selected thread once,
returns only when nobody is inside, and job fields never change under a thread; a measure shows that every call ends,
and three steps suffice to lower it. *Limits of the code:* a pool destroyed while an asynchronous job still runs can
hang, because the thread's report overwrites EXIT with WAITING, and a second job dispatched then writes the fields under
running threads. Neither can happen exactly when every other thread's status already reads WAITING, which is what `wait`
waits for (`EarlyDestroyIsSafeIff`, `SecondCallIsSafeIff`); `EarlyDestroyCanHang` and `SecondCallCanRace` are runs from
start-up. Nothing checks the restricted worker count or the size of the pool: a call divides by zero exactly when the
count is 0 and there are tasks, and runs past the thread states exactly when it asks for more workers than there are
threads or there are none at all (`CallsCrashExactly`).

**Thread placement** (`ThreadPlacement.dfy`). The pools and the distributor number cores in separate loops; the
distributor's loop skips its increment past a thread it cannot bind, which turns out to make no difference. Cores are
distinct exactly when no subpool without threads precedes another one on a node with room. *A limit of the code:* the
offset vectors have one entry per subpool but are indexed by NUMA node, so placement is in range exactly when every node
id is below the subpool count.

**Dual-batch runner** (`DualBatchRunner.dfy`, `StreamOverlap*.dfy`, `StreamOnQueue.dfy`). First the runner's own code on
heap tensors, with in-place normalisation, the residual that aliases the embedding, and the wrapper's shared output
buffers: the `2L + 1` slots leave both microbatches as running each alone, layer by layer, would, which is the residual
stream of the model in its own operations (`DecodeIsStream`). Then the overlap:
host, stream and worker interleave freely, and every interleaving ends in the memory of the serial run. Last the same
pipeline on the lock-free queue, the stream's callbacks taking `enqueue` and `sync` step by step: its runs are those of
the stream model, so the overlap is harmless there too. The wrapper's own code uses two staging slots by layer parity,
where the runner's comments speak of one buffer; the model follows the code.

**MoE dispatch** (`Permutations.dfy`, `MoeDispatch.dfy`, `ExpertParallel.dfy`, `BatchedMoe.dfy`). `moe_infer` on one
rank and on any number of ranks equals the weighted sum over each token's experts. The counts come from a scatter that
sets ones, so a token naming an expert twice is counted once: the code then raises, and `CountsAddUpIffDistinct` says
that this is the only case. With several ranks it is the split before the exchange of rows that raises, so the group
gets through exactly when no rank has such a token. The sorted dispatch, the batched products and the einsum form agree.
The common result is written out entry by entry in sums and products (`NaiveIsRoutedSums`, `RowExpertEntry`).

**Memory and indices** (`PagedCache*.dfy`, `SharedMemBuffer.dfy`, `TensorParallel.dfy`, `TaskCounter.dfy`, `Rope*.dfy`).
The paged cache refines a list per sequence, with page tables that change from call to call. An update refines appending
exactly when all writes that can meet in an entry's cell agree with the entry (`UpdateRefinesIff`). *A limit of the
code:* padding tokens are written to page 0, which nothing reserves; for all contents the update is right exactly when
no padding token is sent to the cell of an entry, the entries of the same batch included (`SafeForAllContentsIff`), and
`PaddingOverwrites` is a batch that loses the token it appends. Re-basing keeps every registered pointer at its place in
the current buffer. The tensor-parallel split tiles the dimension and the recursive reduction puts the partial sums
together. The divisibility check by the node count comes first and so also applies to the Llamafile back end, whose
block-wise split would not need it. Task ids and digit tuples correspond one to one. The in-place rotary loop equals the
de-interleaving reference and keeps inner products; with the tables the cache fills, scores depend on the distance only.

`Basics.dfy` holds what several models share. Experts, attention, norms and the router are uninterpreted functions;
tokens and activations are reals or values of an arbitrary type.

## Model

| member | source | states |
|---|---|---|
| `TaskQueueSafety.StepKeeps` | kt-kernel/cpu_backend/task_queue.cpp:19-85 | Every atomic step of clients, worker and destructor keeps the queue's invariant: list, ends, counters, node count, tasks run, mutex, waiters. |
| `TaskQueueSafety.RunKeepsInv` | kt-kernel/cpu_backend/task_queue.cpp:19-85 | The invariant holds in every state of every run. |
| `TaskQueueSafety.ListKept` | kt-kernel/cpu_backend/task_queue.cpp:42-51 | Live addresses, their places in exchange order, the links stored and the links still owed by a client stay consistent under every step, with addresses reused. |
| `TaskQueueSafety.FaultKept` | kt-kernel/cpu_backend/task_queue.cpp:34-71 | No step dereferences or deletes a node that is not allocated. |
| `TaskQueueTheorems.ExecutedIsPrefixOfPublished` | kt-kernel/cpu_backend/task_queue.cpp:42-71 | The tasks the worker called, read off the run, are a prefix of the `tail.exchange` order: in order, each once, none skipped. |
| `TaskQueueTheorems.ListIsFragmented` | kt-kernel/cpu_backend/task_queue.cpp:45-46 | From the worker's node on, memory holds maximal chains whose concatenation is the exchange order, with one cut for each client between exchange and link and no other. |
| `TaskQueueTheorems.FragmentsAreChains` | kt-kernel/cpu_backend/task_queue.h:31-39 | Cutting the exchange order at the missing links gives pieces that following `next` visits exactly and that end at a null link. |
| `TaskQueueTheorems.NodesFreedExactlyOnce` | kt-kernel/cpu_backend/task_queue.cpp:26-71 | No freed node is touched or freed again; after the destructor nothing is left and allocations equal frees. |
| `TaskQueueTheorems.ReachableNodesAreLive` | kt-kernel/cpu_backend/task_queue.cpp:42-71 | `head`, `tail`, the worker's node and every predecessor a producer still has to link from are allocated; that predecessor is the node exchanged just before the producer's own, the only live one at its address. |
| `TaskQueueTheorems.PendingIsExact` | kt-kernel/cpu_backend/task_queue.cpp:43-75 | `pending` is the increments less the tasks finished, and never below zero. |
| `TaskQueueTheorems.SyncGuarantee` | kt-kernel/cpu_backend/task_queue.cpp:53-59 | When `sync(n)` returns without shutdown at most `n` counted tasks are unfinished, and those already queued are the last in queue order. |
| `TaskQueueCalls.TasksArriveInOrder` | kt-kernel/cpu_backend/task_queue.cpp:42-45 | In every run and for every client, the tasks it passes to `enqueue`, in call order, are those of the nodes it has swapped into `tail`, in that order, followed by the one it still carries. |
| `TaskQueueCalls.DrainedRanEverything` | kt-kernel/cpu_backend/task_queue.cpp:42-75 | When `pending` is zero every task any client passed in has been published, and the tasks called are exactly those of the published nodes in exchange order. |
| `TaskQueueCalls.EnqueueWaitsForNobody` | kt-kernel/cpu_backend/task_queue.cpp:42-46 | In every reachable state before shutdown a client outside a call can start one, and can take its `enqueue` past the link by its own steps alone. |
| `TaskQueueCalls.SyncHonoursItsArgument` | kt-kernel/cpu_backend/task_queue.cpp:53-59 | Before shutdown, the test of a client's latest `sync(n)` succeeds if and only if at most `n` of the tasks counted in are unfinished. |
| `TaskQueueWakeup.NoLostWakeup` | kt-kernel/cpu_backend/task_queue.cpp:47-82 | With no `sync` overlapping another client's `enqueue`, no state has a linked task, a sleeping worker and no notification to come. |
| `TaskQueueWakeup.SatisfiedSyncIsWoken` | kt-kernel/cpu_backend/task_queue.cpp:53-76 | In any run, a client asleep in `sync` whose condition holds has a `notify_all` about to happen. |
| `TaskQueueWakeup.RunsNeverStick` | kt-kernel/cpu_backend/task_queue.cpp:26-85 | Under the same discipline some thread inside a call can always move until all calls have returned and all tasks have run. |
| `TaskQueueWakeup.WakeupLostIffWasted` | kt-kernel/cpu_backend/task_queue.cpp:42-82 | Without any discipline, a step loses the worker's wake-up if and only if it gives the last notification, with the worker asleep over a linked task, to a client in `sync`. |
| `TaskQueueWakeup.WakeupsLostExactly` | kt-kernel/cpu_backend/task_queue.cpp:42-82 | For every run from start-up: the worker has its wake-up in every state if and only if no step wastes a notification so. |
| `TaskQueueWakeup.OverlapCanLoseWakeup` | kt-kernel/cpu_backend/task_queue.cpp:42-82 | A run from start-up in which `sync` and `enqueue` overlap and everything stops with a task published and unrun. |
| `TaskQueueOverlap.OverlapLosesWakeup` | kt-kernel/cpu_backend/task_queue.cpp:42-82 | From any reachable state with one client in `sync(0)`, another between its increment and its link, and no shutdown, some run of steps threads take of their own accord loses the wake-up. |
| `TaskQueueProgress.StepLowersMeasure` | kt-kernel/cpu_backend/task_queue.cpp:26-85 | Every step other than a new call, a spurious wake-up or the start of the destructor lowers a measure that is never negative. |
| `TaskQueueProgress.InternalWorkIsBounded` | kt-kernel/cpu_backend/task_queue.cpp:26-85 | From any reachable state, however the threads are scheduled, there are at most that many such steps. |
| `TaskQueueProgress.RestIsIdleOrLost` | kt-kernel/cpu_backend/task_queue.cpp:26-85 | A reachable queue in which no such step is possible has returned from every call and run every task or been destroyed, or has lost a wake-up. |
| `TaskQueueProgress.CallsReturn` | kt-kernel/cpu_backend/task_queue.cpp:42-85 | With no `sync` overlapping another client's `enqueue`, any schedule ends after boundedly many steps, and only when every call, every `sync` among them, has returned. |
| `TaskQueueFifo.QueueIsFifo` | kt-kernel/cpu_backend/task_queue.cpp:42-76 | Every run shows an observer a run of a first-in first-out queue with one worker: exchanges enqueue, running a task takes it, the decrement finishes it, all else is silent; what goes in are the published tasks in exchange order. |
| `TaskQueueFifo.SyncReturnsIff` | kt-kernel/cpu_backend/task_queue.cpp:53-59 | With no enqueue before its exchange and no shutdown, the test in `sync(n)` succeeds if and only if at most `n` tasks are queued or running. |
| `TaskQueueFifo.PipelineUsesFifo` | kt-kernel/cpu_backend/cpuinfer.h:76-105 | The queue in the stream model takes the same steps, and its synchronisation waits until nothing is queued or running. |
| `InNumaPoolSafety.RunKeepsInv` | kt-kernel/cpu_backend/worker_pool.cpp:96-236 | The handshake and the claiming loop keep their invariant over any sequence of jobs, each waited for before the next, and any interleaving. |
| `InNumaPoolTheorems.CallIsTheLastMade` | kt-kernel/cpu_backend/worker_pool.cpp:27-152 | The call a pool works on has the task count of the last call made and the limit last set before it, the pool's size if none was set. |
| `InNumaPoolTheorems.JobIsComplete` | kt-kernel/cpu_backend/worker_pool.cpp:143-210 | After a job that was waited for, each id below the last call's task count was computed exactly once and no other; as many threads as the smaller of that count and the limit were selected, each entered once; init and finalize ran on exactly the participants; none is inside. |
| `InNumaPoolTheorems.InitThenComputeThenFinalize` | kt-kernel/cpu_backend/worker_pool.cpp:169-205 | A thread computes after its init and before its finalize, only ids in range, and no two threads compute the same id. |
| `InNumaPoolTheorems.CounterIsBounded` | kt-kernel/cpu_backend/worker_pool.cpp:179-191 | The shared counter passes the task count at most once for each participant but one, as whoever claims the last task finds nothing left; without tasks it stays at 0. |
| `InNumaPoolTheorems.FieldsAreStable` | kt-kernel/cpu_backend/worker_pool.cpp:149-187 | When each job is waited for before the next, job fields are written only while no thread is inside a job. |
| `InNumaPoolOverlap.SecondCallIsSafeIff` | kt-kernel/cpu_backend/worker_pool.cpp:118-167 | In every reachable state after an asynchronous dispatch: no schedule of a second call ever writes a job field under a thread if and only if every other thread's status reads WAITING. |
| `InNumaPoolOverlap.SecondCallKeepsInv` | kt-kernel/cpu_backend/worker_pool.cpp:118-167 | In that case the second call, and all that follow, keep the whole invariant, as if the first job had been waited for. |
| `InNumaPoolOverlap.SecondCallCanRace` | kt-kernel/cpu_backend/worker_pool.cpp:149-167 | A run from the start-up of a pool of two threads in which a second call writes a field under a running thread. |
| `InNumaPoolTheorems.CallsCrashExactly` | kt-kernel/cpu_backend/worker_pool.cpp:149-187 | For any pool size and any restricted count: a call that crashed divided by zero exactly for a count of 0 with tasks to do, else ran past the thread states exactly for more workers than threads or an empty pool; a call that came back had none of these. |
| `InNumaPoolTheorems.EmptyWorkIsBounded` | kt-kernel/cpu_backend/worker_pool.cpp:149-205 | A call on a pool of no threads takes boundedly many steps and never returns. |
| `InNumaPoolTheorems.EmptyCallCrashes` | kt-kernel/cpu_backend/worker_pool.cpp:149-205 | Such a call can always be brought to its end, the crash its limits announce. |
| `InNumaPoolTheorems.EmptyPoolCrashes` | kt-kernel/cpu_backend/worker_pool.cpp:149-187 | A run from the start-up of an empty pool that ends in a division by zero. |
| `InNumaPoolTheorems.NoMissedStatus` | kt-kernel/cpu_backend/worker_pool.cpp:158-231 | A thread asleep on WORKING or EXIT has its notification as the dispatcher's next step. |
| `InNumaPoolTheorems.DestroyedMeansAllGone` | kt-kernel/cpu_backend/worker_pool.cpp:96-109 | When an idle pool has been destroyed every thread has returned. |
| `InNumaPoolTheorems.MeasureDecreases` | kt-kernel/cpu_backend/worker_pool.cpp:118-236 | Every step of a call lowers a measure that is never negative, except a waiting thread's idling, which leaves it alone. |
| `InNumaPoolTheorems.WorkIsBounded` | kt-kernel/cpu_backend/worker_pool.cpp:143-210 | Until the caller's next call, any run has at most that many steps that are not idling. |
| `InNumaPoolTheorems.CallCanProgress` | kt-kernel/cpu_backend/worker_pool.cpp:96-236 | While a call that has not crashed, or the destruction, is in progress the threads can lower the measure within three steps: no deadlock. |
| `InNumaPoolShutdown.EarlyDestroyIsSafeIff` | kt-kernel/cpu_backend/worker_pool.cpp:96-109 | In every reachable state after an asynchronous dispatch: every schedule of an early destruction can be brought to its end if and only if every other thread's status reads WAITING. |
| `InNumaPoolShutdown.EarlyDestroyStrands` | kt-kernel/cpu_backend/worker_pool.cpp:96-236 | From any such state with another thread not WAITING there is a schedule that leaves that thread alive, WAITING, and being joined. |
| `InNumaPoolShutdown.StrandedCannotFinish` | kt-kernel/cpu_backend/worker_pool.cpp:104-108 | From there no schedule ends the destructor. |
| `InNumaPoolShutdown.EarlyDestroyCanHang` | kt-kernel/cpu_backend/worker_pool.cpp:96-210 | A run from the start-up of a pool of two threads that ends so. |
| `NumaJobDistributor.RunKeepsInv` | kt-kernel/cpu_backend/worker_pool.cpp:251-412 | Start-up barrier and handshake keep their invariant through start-up, any jobs and destruction. |
| `NumaJobDistributor.NoEarlyUse` | kt-kernel/cpu_backend/worker_pool.cpp:251-266 | No status word is used before its thread has made it, all exist once the barrier is passed, and the job function is never replaced under a thread. |
| `NumaJobDistributor.JobReachesEveryThreadOnce` | kt-kernel/cpu_backend/worker_pool.cpp:369-382 | When `do_numa_job` has returned, every thread has called the function exactly once and none is inside. |
| `NumaJobDistributor.NoMissedStatus` | kt-kernel/cpu_backend/worker_pool.cpp:331-412 | No thread sleeps through WORKING or EXIT, and after destruction every thread is gone. |
| `NumaJobDistributorProgress.MeasureDecreases` | kt-kernel/cpu_backend/worker_pool.cpp:331-412 | Every step of start-up, a job or destruction lowers a non-negative measure, except a waiting thread's idling. |
| `NumaJobDistributorProgress.CallCanProgress` | kt-kernel/cpu_backend/worker_pool.cpp:251-412 | In every reachable state of those phases the threads can lower the measure within three steps. |
| `ThreadPlacement.BindWorkers` | kt-kernel/cpu_backend/worker_pool.cpp:56-93 | Worker `t` of a pool gets core `start + t` of its node if there is one, and is left unbound otherwise; entry 0, the caller's, is left alone. |
| `ThreadPlacement.PlacePools` | kt-kernel/cpu_backend/worker_pool.cpp:424-436 | Succeeds exactly when every node id is below the subpool count; each pool starts where the earlier pools of its node end. |
| `ThreadPlacement.PlaceMains` | kt-kernel/cpu_backend/worker_pool.cpp:285-327 | The distributor's loop, which skips its increment past an unbound thread, gives the same starts as the pools' loop wherever a thread is bound. |
| `ThreadPlacement.DistinctIff` | kt-kernel/cpu_backend/worker_pool.cpp:285-326 | All main threads and workers have distinct cores if and only if no subpool without threads precedes another on a node with room. |
| `ThreadPlacement.CoresArePacked` | kt-kernel/cpu_backend/worker_pool.cpp:424-436 | Every core below both the node's size and the threads asked for on it is some thread's: no gaps. |
| `ThreadPlacement.PlaceThreads` | kt-kernel/cpu_backend/worker_pool.cpp:414-441 | For the placement both loops produce: threads sit on existing cores of their node, all are bound where there is room, and with positive thread counts no two share a core. |
| `DualBatchRunner.HalvesAreLayers` | Qwen3DualBatchRunner.py:125-149 | `2n` alternating half layers of one microbatch are `n` whole layers. |
| `DualBatchRunner.LayersAreStream` | Qwen3DualBatchRunner.py:151-187 | After any number of layers, hidden states added to the residual are the residual stream of the model, where each layer adds its attention on the normalised stream and then its experts on the renormalised one, with the experts' own ids and weights. |
| `DualBatchRunner.DecodeIsStream` | Qwen3DualBatchRunner.py:104-123 | Decoding is the last norm of that stream, started from the embedding. |
| `DualBatchRunner.OneLayerDecode` | Qwen3DualBatchRunner.py:151-187 | For one layer, the whole computation in the model's operations. |
| `DualBatchRunner.AddNorm` | tests/test_qwen3_dual_batch_runner.py:125-129 | The fused norm updates the residual in place and may reuse `x`; the two must not alias. |
| `DualBatchRunner.DecoderLayer` | Qwen3DualBatchRunner.py:151-168 | Everything before the experts computes one attention half layer on values, with the first residual aliasing the hidden states. |
| `DualBatchRunner.Wrapper.SubmitForward` | kt-kernel/python/experts_base.py:408-453 | Copies inputs into the slot of the layer's parity and leaves one task pending; needs the previous one waited for. |
| `DualBatchRunner.Wrapper.SyncForward` | kt-kernel/python/experts_base.py:483-498 | Returns the slot's own output buffer holding the experts' result on what was staged. |
| `DualBatchRunner.Runner.SubmitAttn` | Qwen3DualBatchRunner.py:151-170 | One attention half layer of one microbatch; the other microbatch and the wrapper are untouched and nothing becomes shared. |
| `DualBatchRunner.Runner.SubmitMoe` | Qwen3DualBatchRunner.py:172-178 | The staged inputs are what the microbatch still holds. |
| `DualBatchRunner.Runner.SyncMoe` | Qwen3DualBatchRunner.py:180-187 | The microbatch gets its own copy of the experts' result and its top-k fields are cleared; the other is untouched. |
| `DualBatchRunner.Runner.Overlap` | Qwen3DualBatchRunner.py:144-146 | Submitting one microbatch's experts, running the other's attention and syncing is one half layer of each. |
| `DualBatchRunner.Runner.TimeSlot` | Qwen3DualBatchRunner.py:128-146 | Slot `i` takes the first microbatch to half layer `min(i + 1, 2L)` and the second to `i`, and logs them so. |
| `DualBatchRunner.InOrderAt` | tests/test_qwen3_dual_batch_runner.py:45-53 | The log of one microbatch holds every attention and every experts' half exactly once, in dependency order. |
| `DualBatchRunner.Runner.RunPipeline` | Qwen3DualBatchRunner.py:125-149 | After `2L + 1` slots both microbatches are as layer-by-layer execution of each alone leaves them, top-k cleared, every half layer once and in order, one barrier per slot. |
| `DualBatchRunner.Runner.FinalNorm` | Qwen3DualBatchRunner.py:120-123 | The last norm of one microbatch, not disturbing the other. |
| `DualBatchRunner.Runner.Forward` | Qwen3DualBatchRunner.py:104-123 | Outputs and caches of both microbatches are those of decoding each alone, in input order: the last norm of each one's residual stream, and its cache. |
| `StreamOverlap.StepKeeps` | kt-kernel/cpu_backend/cpuinfer.h:87-119 | Every step of host, stream and worker keeps memory equal to the serial run up to the pending task's result. |
| `StreamOverlap.RunKeepsInv` | Qwen3DualBatchRunner.py:144-149 | So does every run, for any program that waits for a task before touching its buffers. |
| `StreamOverlapTheorems.SyncedMeansSerial` | kt-kernel/cpu_backend/cpuinfer.h:103-119 | Whenever every submitted task has been waited for, memory is exactly the serial run's. |
| `StreamOverlapTheorems.EveryInterleavingIsSerial` | kt-kernel/cpu_backend/cpuinfer.h:87-119 | Confluence: all complete interleavings end in the same memory. |
| `StreamOverlapTheorems.OneTaskAtATime` | kt-kernel/python/experts_base.py:424-498 | At most one task is in flight, and a copy to or from the staging buffers finds no task pending and memory as the serial run has it. |
| `StreamOverlapTheorems.UnwaitedTaskRaces` | kt-kernel/python/experts_base.py:424-453 | Without waiting, a run in which a copy overwrites a pending task's input. |
| `StreamOverlapTheorems.RunsEnd` | Qwen3DualBatchRunner.py:148-149 | No run is longer than the work left. |
| `StreamOverlapTheorems.OverlapIsHarmless` | Qwen3DualBatchRunner.py:125-149 | Any complete interleaving of the pipeline leaves each microbatch as running it alone does. |
| `StreamOverlapTheorems.PipelineNeverSticks` | Qwen3DualBatchRunner.py:128-149 | A run of the pipeline that has not finished can always go on, and runs are bounded. |
| `StreamOverlapTheorems.BufferIsReused` | Qwen3DualBatchRunner.py:185-186 | Both microbatches' last results pass through one buffer, which ends up with the second one's: why the result is cloned. |
| `StreamOnQueue.StepSimulates` | kt-kernel/cpu_backend/cpuinfer.h:76-119 | With the stream's callbacks running on the lock-free queue: every step of host, stream, callback, worker or memory is a run of the stream model, and keeps the queue's invariant. |
| `StreamOnQueue.RunSimulates` | kt-kernel/cpu_backend/cpuinfer.h:76-119 | So is every run. |
| `StreamOnQueue.OverlapOnQueueIsHarmless` | Qwen3DualBatchRunner.py:125-149 | On the lock-free queue any complete interleaving of the pipeline leaves each microbatch as running it alone does. |
| `StreamOnQueue.CopiesFindQueueEmpty` | kt-kernel/python/experts_base.py:424-498 | Whenever a copy to or from the staging buffers is next, no call into the queue is in progress and `pending` is zero. |
| `StreamOnQueue.PipelineOnQueueNeverSticks` | Qwen3DualBatchRunner.py:128-149 | A pipeline on the queue that has not finished can always take a step that is not a spurious wake-up. |
| `Permutations.Argsort` | kt-kernel/examples/modeling_deepseek_v3.py:540-540 | A permutation that sorts the keys; equal keys in no promised order. |
| `Permutations.SortedRunsMatchCounts` | kt-kernel/examples/modeling_deepseek_v3.py:539-541 | Keys gathered through any argsort are the runs the histogram describes. |
| `MoeDispatch.CountsAddUpIffDistinct` | kt-kernel/examples/modeling_deepseek_v3.py:537-539 | The scattered counts add up to the routed rows exactly when no token names an expert twice, and are then the histogram. |
| `MoeDispatch.RunExperts` | kt-kernel/examples/modeling_deepseek_v3.py:577-589 | The cursor loop, skipping empty experts, applies expert `e` to the `e`-th run of the sorted rows. |
| `MoeDispatch.SortedRowsMeetTheirExperts` | kt-kernel/examples/modeling_deepseek_v3.py:540-587 | Row `p` of the output is the expert of slot `idxs[p]` applied to that slot's row. |
| `MoeDispatch.ScatterRows` | kt-kernel/examples/modeling_deepseek_v3.py:600-601 | Writing rows through the permutation succeeds exactly when there is a row per slot. |
| `MoeDispatch.ScatterUndoesSort` | kt-kernel/examples/modeling_deepseek_v3.py:600-601 | The scatter inverts the sort: every slot gets its own expert's row. |
| `MoeDispatch.Combine` | kt-kernel/examples/modeling_deepseek_v3.py:602-608 | The reshaped, weighted sum over each token's slots; an empty tensor cannot be reshaped. |
| `MoeDispatch.WeightedSumEntry` | kt-kernel/examples/modeling_deepseek_v3.py:602-608 | Entry `c` of the weighted sum of rows of one width is the sum over the rows of weight times entry `c`. |
| `MoeDispatch.CombinedIsNaive` | kt-kernel/examples/modeling_deepseek_v3.py:602-609 | Rows in slot order combine to the per-token weighted sum. |
| `MoeDispatch.NaiveIsRoutedSums` | kt-kernel/examples/modeling_deepseek_v3.py:602-609 | For experts that keep the width, every entry of the reference is the sum over a token's choices of weight times what the chosen expert makes of its row. |
| `MoeDispatch.MoeInfer` | kt-kernel/examples/modeling_deepseek_v3.py:536-609 | One rank: succeeds exactly when there is a routed slot and no repeated expert, and equals the naive weighted sum, entry by entry the sum over choices of weight times expert output. |
| `ExpertParallel.SplitRoundTrip` | kt-kernel/examples/modeling_deepseek_v3.py:559-563 | Splitting by sizes that add up and concatenating gives back the rows. |
| `ExpertParallel.LabelGathered` | kt-kernel/examples/modeling_deepseek_v3.py:567-571 | The loop of slice assignments labels every gathered row with its local expert. |
| `ExpertParallel.LabelsAreLocalKeys` | kt-kernel/examples/modeling_deepseek_v3.py:567-571 | Those labels are the keys of the rows in arrival order, source after source. |
| `ExpertParallel.LocalKeysCount` | kt-kernel/examples/modeling_deepseek_v3.py:564-566 | Summing the exchanged counts over sources is the histogram of those keys. |
| `ExpertParallel.OwnerSide` | kt-kernel/examples/modeling_deepseek_v3.py:564-592 | An owner's second sort, experts and scatter compute each gathered row in place. |
| `ExpertParallel.PiecewiseIsWhole` | kt-kernel/examples/modeling_deepseek_v3.py:590-598 | The pieces returned by all owners concatenate to the expert rows of the sender's sorted tokens. |
| `ExpertParallel.Prepare` | kt-kernel/examples/modeling_deepseek_v3.py:537-563 | A rank's split by owner raises exactly when one of its tokens repeats an expert; otherwise every piece has the size its counts announce, and counts and pieces concatenate to the rank's own. |
| `ExpertParallel.ReturnedIsComputed` | kt-kernel/examples/modeling_deepseek_v3.py:593-598 | The reverse exchange brings each rank its own rows, computed. |
| `ExpertParallel.Finish` | kt-kernel/examples/modeling_deepseek_v3.py:600-609 | A rank's final un-permute and weighted sum serve its tokens. |
| `ExpertParallel.MoeInferAllRanks` | kt-kernel/examples/modeling_deepseek_v3.py:536-609 | For any number of ranks: the group gets through if and only if no rank's tokens repeat an expert, and then every rank with something to route gets the naive weighted sum for each of its tokens, entry by entry the sum over choices of weight times expert output. |
| `BatchedMoe.BlocksAreRowwise` | kt-kernel/bench/bench_moe_torch.py:118-123 | An expert's matrix products on a block treat its rows independently. |
| `BatchedMoe.RunExpertBlocks` | kt-kernel/bench/bench_moe_torch.py:112-124 | The loop of block products over the sorted rows applies expert `e` to each row of the `e`-th run. |
| `BatchedMoe.RowExpertEntry` | kt-kernel/bench/bench_moe_torch.py:118-123 | Entry `c` of an expert's output is the sum over hidden units of the activated gate product, times the up product, times the down weight, each product a sum over the row. |
| `BatchedMoe.BmmIsNaive` | kt-kernel/bench/bench_moe_torch.py:175-202 | Selecting weights per slot and batching the products is the naive sum. |
| `BatchedMoe.EinsumIsNaive` | kt-kernel/bench/bench_moe_torch.py:205-219 | So is the einsum form. |
| `BatchedMoe.MoeExpertFloat` | kt-kernel/bench/bench_moe_torch.py:104-135 | Where the sorted dispatch succeeds it equals both batched forms, each entry the weighted sum of the chosen experts' entries; it fails exactly on repeated experts or an empty batch. |
| `PagedCache.QueryIsLastHolding` | kt-kernel/examples/torch_attention.py:72-76 | A token's query is the last one whose range holds it, or query 0 if none does, and no other. |
| `PagedCache.TokenHasItsQuery` | kt-kernel/examples/torch_attention.py:72-76 | With ranges one after the other, a token they cover has exactly one range that holds it, and that is its query's. |
| `PagedCache.GetPageTable` | kt-kernel/examples/torch_attention.py:69-85 | With `s` the query of token `t`, the page is `kv_indices[kv_indptr[s] + position / page_size]` if that block is the query's and 0 otherwise or beyond the batch size, and the offset `position % page_size`; fails exactly when an index runs off the tables. |
| `PagedCache.CellsAreDistinct` | kt-kernel/examples/torch_attention.py:70-83 | With distinct pages, distinct allocated positions of one or two sequences have distinct cells. |
| `PagedCache.SharedPageClashes` | kt-kernel/examples/torch_attention.py:78-83 | A page handed out twice makes two positions share a cell. |
| `PagedCache.KvCache.Update` | kt-kernel/examples/torch_attention.py:62-66 | Named cells get a key of a writing token in front and a value of one behind; all other cells, and other layers, are unchanged. |
| `PagedCacheRefinement.Appended` | kt-kernel/examples/torch_attention.py:62-85 | Appending a batch keeps the lists, puts every token at its own position and adds nothing else. |
| `PagedCacheRefinement.UpdateRefines` | kt-kernel/examples/torch_attention.py:62-85 | Where the writes agree, one update appends each token to its sequence and leaves all other entries readable as before. |
| `PagedCacheRefinement.UpdateRefinesIff` | kt-kernel/examples/torch_attention.py:62-85 | An update refines appending whatever the order of its writes if and only if, for every entry old or new, every key and value that can meet in its cell make up that entry. |
| `PagedCachePadding.SparingMeansAgreeing` | kt-kernel/examples/torch_attention.py:69-85 | When no padding token is sent to the cell of an entry, each entry's cell is written by its own token only. |
| `PagedCachePadding.SafeForAllContentsIff` | kt-kernel/examples/torch_attention.py:69-85 | For all contents of the given widths the update refines appending if and only if no padding token is sent to the cell of an entry of the lists after the call. |
| `PagedCachePadding.PaddingOverwrites` | kt-kernel/examples/torch_attention.py:77-83 | A batch of one token and one of padding in which the padding's write replaces the token just appended. |
| `PagedCacheRefinement.RunRefines` | kt-kernel/examples/torch_attention.py:62-85 | After any run of updates, each with the page tables of its own call and pages only ever added, reading every sequence through its pages gives exactly what was appended to it. |
| `PagedCacheRefinement.AppendBatch` | kt-kernel/examples/torch_attention.py:62-85 | `get_page_table` followed by `update` on the arrays does so. |
| `SharedMemBuffer.Request.AppendPointer` | kt-kernel/cpu_backend/shared_mem_buffer.h:30-33 | A request stays paired and grows by the size appended. |
| `SharedMemBuffer.Request.TotalSize` | kt-kernel/cpu_backend/shared_mem_buffer.cpp:17-23 | The loop computes the offset past the last piece. |
| `SharedMemBuffer.Request.UpdateBasePtr` | kt-kernel/cpu_backend/shared_mem_buffer.cpp:25-31 | Every location gets base plus its prefix-sum offset; one named twice keeps the later. |
| `SharedMemBuffer.MaxTotalIsMax` | kt-kernel/cpu_backend/shared_mem_buffer.cpp:49-66 | The size kept is the largest request's and some request attains it. |
| `SharedMemBuffer.Buffer.Alloc` | kt-kernel/cpu_backend/shared_mem_buffer.cpp:49-73 | The buffer grows exactly when needed; afterwards every location ever registered points into the current buffer at its place; without growth the old ones do not move. |
| `SharedMemBuffer.PiecesFit` | kt-kernel/cpu_backend/shared_mem_buffer.cpp:25-31 | Each piece lies inside the buffer and pieces of one request do not overlap. |
| `SharedMemBuffer.DistinctAreAllPlaced` | kt-kernel/cpu_backend/shared_mem_buffer.cpp:67-69 | When no location is registered twice, all are where they should be. |
| `SharedMemBuffer.NumaBuffers.Alloc` | kt-kernel/cpu_backend/shared_mem_buffer.cpp:75-85 | An allocation on one node leaves the other nodes' buffers and pointers unchanged. |
| `TensorParallel.Split` | kt-kernel/operators/moe-tp.hpp:45-120 | Each error on exactly its condition, a subpool count of 0 included; otherwise the slices tile the dimension, equal or in whole blocks of 256 at most one block apart. |
| `TensorParallel.SplitBlocks` | kt-kernel/operators/moe-tp.hpp:76-104 | Base blocks plus one for the first few: positive, whole blocks, balanced, adding up. |
| `TensorParallel.ReduceSum` | kt-kernel/operators/reduce.hpp:6-21 | Row 0 ends with the sum of all rows over the range; outside the range no row changes. |
| `TensorParallel.SlicesAddUp` | kt-kernel/operators/moe-tp.hpp:90-104 | Summing any per-column contribution slice by slice is summing it over the whole dimension. |
| `TensorParallel.SliceIsSum` | kt-kernel/operators/moe-tp.hpp:90-104 | A slice of one column is that column's contribution, and a slice from column 0 on is the plain sum over its columns. |
| `TensorParallel.Forward` | kt-kernel/operators/moe-tp.hpp:168-183 | Whatever order the nodes finish in, their partial outputs reduce to the unsplit sum: each output element is the sum of all columns' contributions to it. |
| `TaskCounter.Counter.PushBack` | kt-kernel/operators/common.hpp:127-133 | After a push every `card[k]` is again the product of the bounds from `k` on. |
| `TaskCounter.Counter.constructor` | kt-kernel/operators/common.hpp:120-125 | So it is after any list of bounds. |
| `TaskCounter.Counter.Count` | kt-kernel/operators/common.hpp:139-139 | The number of ids is the product of all bounds. |
| `TaskCounter.Counter.At` | kt-kernel/operators/common.hpp:140-140 | The mixed-radix digit of an id, failing exactly past the last bound. |
| `TaskCounter.DigitsInRange` | kt-kernel/operators/common.hpp:140-140 | Digits are below their bounds, for every id. |
| `TaskCounter.Reencode` | kt-kernel/operators/common.hpp:139-140 | The digits of an id encode to that id. |
| `TaskCounter.DigitsOfEncode` | kt-kernel/operators/common.hpp:139-140 | A tuple of in-range digits is the one of the id it encodes. |
| `TaskCounter.DigitWrittenOut` | kt-kernel/operators/common.hpp:140-140 | Index `k` is the id divided by the product of the later bounds, modulo its own bound. |
| `TaskCounter.LastIndexRunsFastest` | kt-kernel/operators/common.hpp:127-140 | Pushing one more bound `r` makes the id modulo `r` the new last index and the quotient the id of the others: nested loops, innermost last. |
| `TaskCounter.ExactlyOneId` | kt-kernel/operators/common.hpp:139-140 | Each in-range tuple belongs to exactly one id below the count. |
| `Rope.RotateAt` | kt-kernel/examples/modeling_deepseek_v3.py:358-369 | The de-interleaved, half-rotated reference is a plane rotation of each interleaved pair. |
| `Rope.RotaryEmbedding.SetCosSinCache` | kt-kernel/operators/rope.hpp:124-144 | Row `at` of the flat tables holds the cosines and sines of position times frequency. |
| `Rope.RotateInto` | kt-kernel/operators/rope.hpp:49-53 | The scratch loop fills the scratch vector with the reference's result. |
| `Rope.ApplySingle` | kt-kernel/operators/rope.hpp:33-58 | In place on the heap: the vector becomes the reference's result, the rest of the array is unchanged, odd sizes fail and change nothing. |
| `Rope.ApplyMultiple` | kt-kernel/operators/rope.hpp:60-71 | Vector `i` is turned by position `pos + i`, every other element is unchanged. |
| `RopeInnerProducts.DotIsPairSum` | kt-kernel/examples/modeling_deepseek_v3.py:367-369 | The inner product of two turned vectors is a sum over pairs that sees only the angles' differences. |
| `RopeInnerProducts.InnerProductKept` | kt-kernel/operators/rope.hpp:49-53 | At equal positions inner products are kept. |
| `RopeInnerProducts.OnlyDistanceCounts` | kt-kernel/operators/rope.hpp:33-58 | Given angle addition, scores depend only on the distance between the positions. |
| `RopeInnerProducts.TablesAreLawful` | kt-kernel/operators/rope.hpp:132-141 | Tables of position times frequency obey angle addition, whatever the frequencies. |
| `RopeInnerProducts.EmbeddedScoresSeeOnlyDistance` | kt-kernel/operators/rope.hpp:33-144 | With the tables the cache holds, the inner product of two vectors turned in place depends only on the distance of their positions. |
| `RopeInnerProducts.EmbedQueryAndKey` | kt-kernel/operators/rope.hpp:33-144 | Filling the tables and turning a query and a key on the heap leaves vectors whose inner product is the score at their positions. |

## Left out

- Floating-point rounding and quantised formats: activations are reals, so sums may be regrouped; the kernels themselves are not modelled.
- Weak memory orderings: atomics are sequentially consistent steps, mutexes exclude each other, condition variables are sets of waiters that may also wake by themselves.
- Machine integers: sizes and counters are unbounded, so wrap-around of 32-bit and `size_t` arithmetic is not modelled.
- hwloc, libnuma, thread names, clocks and printing: cores per node and the allocator's answers are parameters, and going to sleep after 50 ms is a free choice.
- TaskQueue, InNumaPool and NumaJobDistributor as classes: they are state machines over values, because their threads interleave inside every method; the fields are those of the source.
- TaskQueue's allocation failure and tasks that throw: a task always returns.
- NoLostWakeup: needs that no `sync` overlaps another client's `enqueue`; without it the property is false, and `WakeupsLostExactly` is its exact condition.
- NodesFreedExactlyOnce: its fault flag sees only addresses that are not allocated; that no thread holds a stale pointer to an address handed out again is `ReachableNodesAreLive`, and `ListIsFragmented` for the worker.
- DestroyedMeansAllGone: assumes a job was waited for before the pool is destroyed; `EarlyDestroyIsSafeIff` is the other case.
- JobIsComplete, NoMissedStatus and the measures are about pools of at least one thread; a pool of none crashes on its first call (`EmptyCallCrashes`).
- FieldsAreStable: needs each job to be waited for before the next; without it the property is false, and `SecondCallIsSafeIff` is its exact condition.
- OverlapLosesWakeup: is about `sync(0)`; whether a `sync(n)` sleeps depends on how many tasks are pending then.
- PipelineUsesFifo: is about the stream model's own queue; `OverlapOnQueueIsHarmless` is about the stream on the lock-free one.
- Argsort: the order of equal keys is open, as `argsort` is not stable.
- PlaceThreads: thread counts are natural numbers; a negative count, which the pool's constructor cannot allocate, is not modelled.
- `WorkerPool::set_restricted_worker_count` and `get_thread_num`: they read fields that no constructor sets.
- The direct-work variant of `do_numa_job`, which is compiled out.
- Vector operations of the MoE code (`scatter_`, `view`, `index_select`, einsum): functions on sequences; only loops the source writes are loops.
- Forward: the tensor-parallel one is stated for a single output row, with the parts finishing in any order but computing one after the other; several query rows and merging into an earlier result are not modelled, what a part computes is its slice of an arbitrary per-column contribution, and `merge_results` is only declared in the source.
- MoeInferAllRanks: when one rank raises, the others wait in the exchange; the model only says that nobody gets a result.
- Input validation of the runner, deferred experts, CUDA graph capture, and GPU experts: the runner rules them out before it starts.
- Attention of the two microbatches uses separate caches; that their KV pages do not overlap is the caller's duty.
- Update: with several tokens on one cell the order of the writes is left open, as it is for indexed assignment.
- YaRN scaling, softmax, RMS norm and the transcendental functions: cosine and sine are any functions with angle addition.
- Bindings, loaders, benchmarks, scripts, and the CUDA, AMX and BLAS kernels.
