# Verified models of two io_uring event loops

This project models the two event-loop designs of the repository over io_uring, and its two smaller state machines, in
Dafny, and proves what they rely on. io_uring itself is an environment: a bounded submission queue, a completion queue,
and one CQE for each SQE.

**The `uring_exec` runtime.** `IntrusiveQueue` has the lock-free queue on the heap, with links rewritten in place and
other threads' pushes arriving between a load and its swap; `CasQueue` has the same code as a step model, one load,
link write or swap per step, for any number of threads and any reuse of nodes, and `CasQueueCalls` follows whole calls
of `push`, `push_all` and `move_all` through their retries. `StoppingQueue` and `TaskLaunch` are its
clients: unlinking an operation from a stopping bucket, the cancel pass, and the launch loop. `Lifecycle` is the state
machine of I/O operations: starting, restarting when the SQ is full, installing the stop callback, being pushed into a
bucket by a stopping thread, completing and uninstalling, with every thread, the kernel and the user taking steps in any
order. `LifecycleInvariant`, `LifecycleCounts` and `LifecycleRuns` prove its invariant inductive, `LifecycleTheorems`
states what follows, and `LifecycleProgress` that a queued stop is served within sixteen turns of the loop.
`LifecycleSteps` tells line by line what a step does, and `LifecycleCalls` what whole calls of `start` and `complete`
amount to: how they return, and which signal each result leads to. `LifecycleCompletes` proves that no operation is ever
stranded, no stop request and no ring either. `LocalRing`
has the reap loop and the 64-bit in-flight count, `RunLoop` the round robin over the task buckets, `Shutdown` the counter
that the owner waits on.

**The coroutine runtime.** `Fifo` is the SPSC ring one operation at a time, `SpscRing` its two threads interleaved with
stale views of each other's index, `InflightClamp` the closed form of the clamped counter, `IoContext` the scheduler
(a class that uses the ring and the clamp). `CoroutineOwnership` and `CoroutineTheorems` answer who holds a suspended
coroutine, with `co_await` and the reaping of an operation split into the accesses that two threads can interleave, and
`CoroutineRuns` where each coroutine goes over a run: a caller waits for its callee, and nobody is overtaken.

**Two state machines.** `EchoServer` and `EchoTheorems` are the callback echo server, with a kernel that reuses
descriptors; `BufferRing` is the provided-buffer ring. `UserData`, `Bits` and `Lists` hold the arithmetic and the lists
they share.

Code that changes state step by step is modelled by methods on classes, arrays and linked nodes; concurrent protocols
are state machines over their steps (`Enabled` says when a step may happen, `Stepped` what it does), and the results
are about every state of every run. Each method is tied to a function of the old state, and the lemmas are about that
function.

Where the code and what it says about itself differ, the model follows the code:

- io_uring_exec_internal_run.h calls `iodone_maxnr` the maximum number of CQEs taken in one step. The loop tests it after
  a batch, so a step takes up to `iodone_maxnr + iodone_batch`, and exceeds the maximum if and only if more CQEs than
  that are there (`LocalRing.Local.Reap`, `LocalRing.MaximumExceeded`).
- echo.cpp answers what it reads, but a short write is not resumed: once all is answered, the stream has come back whole
  if and only if the kernel wrote every WRITE in full (`EchoTheorems.ComesBackIff`,
  `EchoTheorems.ShortWriteLosesBytes`).
- coroutine.h advises `while(!drained()) run_once()`, or running again, to complete all tasks. Neither `drained` nor
  `stopped` looks at the switch ring (`IoContext.HandoverLeftBehind` is a stopped and drained context with a coroutine in
  its ring). With n coroutines queued, m in the ring and no more arrivals, a stopped context, and one that is run until
  drained with nothing in flight, leave `max(0, m - ceil(n / 31))` behind, so all complete if and only if
  `m <= ceil(n / 31)` (`IoContext.Context.Loop`, `IoContext.Context.RunUntilDrained`). Running again takes one handle off
  the ring in each round, so it has to go on for m rounds (`IoContext.Context.Run`).
- coroutine.h calls it safe to resume the no-op `h` of an operation that is not awaited yet, because `await_ready` tests
  for the CQE. The test and the store of `h` are two accesses: a coroutine between them can lose its wake-up if and only
  if it runs on another context than the one that issued the operation (`CoroutineTheorems.LostIff`).
- `uninstall_stoppable_callback` follows the operation's own link even when it did not find the operation in the queue.
  That is harmless if and only if the operation was queued, its link is null or the queue was empty
  (`StoppingQueue.Uninstall`), which the lifecycle guarantees (`LifecycleTheorems.NeverCorrupt`).
- `submit_destructive_command` takes an SQE that the in-flight count does not know
  (`LocalRing.CountedExactlyIff`, `LocalRing.DestructiveCommandWraps`).
- feature_provided_buffers.h yields buffer id zero for a completion without a buffer, which must not be returned
  (`BufferRing.ReturnIsRightIff`, `BufferRing.EndOfFileDuplicates`).

## Model

| member | source | states |
|---|---|---|
| IntrusiveQueue.Queue.Push | experimental/stdexec/include/uring_exec/detail.h:36-41 | with other threads pushing during failed swaps, the list becomes this node on top of theirs on top of the old list |
| IntrusiveQueue.Queue.MoveAll | experimental/stdexec/include/uring_exec/detail.h:43-48 | the queue ends empty and the caller gets a null-terminated chain of exactly what was there when the swap succeeded, late arrivals included |
| IntrusiveQueue.Queue.PushAll | experimental/stdexec/include/uring_exec/detail.h:50-59 | the stretch before the stop node is put in front in its own order; only its last link is rewritten; an empty stretch changes nothing |
| IntrusiveQueue.ChainDistinct | experimental/stdexec/include/uring_exec/detail.h:36-69 | a null-terminated chain of links never visits a node twice |
| IntrusiveQueue.ChainUnique | experimental/stdexec/include/uring_exec/detail.h:61-64 | the links determine the list: two readings of the same head agree |
| IntrusiveQueue.MakeFifo | experimental/stdexec/include/uring_exec/detail.h:71-84 | any null-terminated list ends as the same nodes in reversed order, null-terminated, with no link to the stack sentinel |
| IntrusiveQueue.MakeFifoTwice | experimental/stdexec/include/uring_exec/detail.h:71-84 | applying it twice restores the list link by link |
| StoppingQueue.Uninstall | experimental/stdexec/include/uring_exec/io_uring_exec_operation.h:108-118 | unlinking self from P ++ [self] ++ S, with arrivals X1 before and during the first push_all and X2 between the two and during the second, leaves S ++ X2 ++ P ++ X1 (each X newest first); exactly the expected nodes remain if and only if self was queued, or its link was null, or the queue was empty |
| StoppingQueue.IntactIff | experimental/stdexec/include/uring_exec/io_uring_exec_operation.h:108-118 | the exact condition under which some list with the expected nodes still hangs off the head |
| StoppingQueue.ClosedNeverEnds | experimental/stdexec/include/uring_exec/io_uring_exec_operation.h:111-116 | a stale link that leads back into the queue leaves a ring: no null-terminated list starts there |
| StoppingQueue.CancelPass | experimental/stdexec/include/uring_exec/io_uring_exec_internal_run.h:247-263 | for any free SQ space the bucket splits into a prefix, each with one cancel SQE, a cleared link and a count of one, and a remainder that is back in the queue on top of all that other threads pushed, before the put-back and while it retries its swap |
| TaskLaunch.Launch | experimental/stdexec/include/uring_exec/io_uring_exec_internal_run.h:157-184 | every detached task is launched once, in push order (reversed under locality), although its callback scribbles over its link and pushes onto the same queue; the queue then holds exactly the callbacks' pushes |
| CasQueue.EveryStepRefines | experimental/stdexec/include/uring_exec/detail.h:36-59 | every load, link write and swap of every thread is one atomic prepend or take-all of the abstract queue, or nothing, however stale the expected value |
| CasQueue.EveryRunRefines | experimental/stdexec/include/uring_exec/detail.h:36-59 | so in every run the memory represents the abstract list, and no node is in two places |
| CasQueue.FifoHistory | experimental/stdexec/include/uring_exec/detail.h:36-84 | over a whole run the batches taken, each put in FIFO order, followed by what is still linked from the head, oldest first, are the pushes in the order they took effect |
| CasQueue.TakeAllReturnsTheList | experimental/stdexec/include/uring_exec/detail.h:43-48 | move_all hands out a pointer to exactly the list it took, and its caller alone owns the nodes |
| CasQueue.HeadComesBack | experimental/stdexec/include/uring_exec/detail.h:36-48 | a concrete legal run in which the head's node is freed, reused and comes back between a load and its swap, and the swap succeeds on the right list |
| CasQueueCalls.PushCompletes | experimental/stdexec/include/uring_exec/detail.h:36-59 | in any run, a thread that started to push a chain and is back from the call has had exactly one successful swap in between, its last step, and that prepended exactly the chain it was given, however often its swap failed before |
| CasQueueCalls.TakeCompletes | experimental/stdexec/include/uring_exec/detail.h:43-48 | a thread that is back from move_all has had exactly one successful swap, its last step, which emptied the list and gave it everything that was there |
| CasQueueCalls.OvertakenByProgress | experimental/stdexec/include/uring_exec/detail.h:36-59 | lock-freedom: a swap that cannot succeed has been overtaken by a successful swap of another thread since its thread last read the head |
| CasQueueCalls.AloneItReturns | experimental/stdexec/include/uring_exec/detail.h:36-59 | from any state inside a call, whatever it has read, a thread returns within four steps of its own if the others pause |
| CasQueueCalls.EveryStateRefines | experimental/stdexec/include/uring_exec/detail.h:36-59 | the memory represents the abstract list at every moment of a run |
| LifecycleRuns.EveryStepKeeps | experimental/stdexec/include/uring_exec/io_uring_exec_operation.h:41-168 | every step of start, restart, stop callback, completion, uninstall and cancel pass keeps the lifecycle invariant, whoever takes it |
| LifecycleRuns.EveryStateInv | experimental/stdexec/include/uring_exec/io_uring_exec_operation.h:41-168 | hence it holds in every state of every run of any number of threads |
| LifecycleTheorems.ExactlyOnePlace | experimental/stdexec/include/uring_exec/io_uring_exec_operation.h:41-88 | a started operation is always in exactly one of: restart queued, SQE or CQE outstanding, in a thread's hand, completed; never twice in any; at most one completion signal |
| LifecycleTheorems.QueuedMeansInFlight | experimental/stdexec/include/uring_exec/io_uring_exec_operation.h:99-130 | an operation in a stopping bucket is there once, in its own bucket of its own thread, with its SQE or CQE outstanding or just reaped, not completed and no cancel sent |
| LifecycleTheorems.NeverQueuedAgain | experimental/stdexec/include/uring_exec/io_uring_exec_operation.h:108-118 | once uninstall_stoppable_callback has returned, no later step of any thread puts the operation into a bucket again, in this life of its address |
| LifecycleTheorems.StopRequestKept | experimental/stdexec/include/uring_exec/io_uring_exec_internal_run.h:247-263 | after the stop callback's push and until the uninstall, either the operation is linked exactly once or exactly one cancel was sent: nothing lost, nothing sent twice |
| LifecycleTheorems.NoStopForgotten | experimental/stdexec/include/uring_exec/io_uring_exec_operation.h:99-130 | a requested stop of an operation in flight is always in exactly one stage: callback yet to run (and free to), linked once in its thread's bucket or hand, or cancel sent |
| LifecycleTheorems.StopBeforeStart | experimental/stdexec/include/uring_exec/io_uring_exec_operation.h:41-45 | a stop requested before a start or restart completes the operation at once with set_stopped and no SQE anywhere; otherwise it gets no signal there |
| LifecycleTheorems.AtMostOneCancel | experimental/stdexec/include/uring_exec/io_uring_exec_internal_run.h:251-262 | over a whole life of an operation at most one cancel SQE is acquired for it |
| LifecycleProgress.StopServedInSixteenTurns | experimental/stdexec/include/uring_exec/io_uring_exec_internal_run.h:247-263 | a queued stop request is served, by one cancel or by the operation's own uninstall, by the time its thread's loop has made sixteen turns that found SQEs for their cancels, whatever all threads do meanwhile and across wrap-around of the step counter |
| LifecycleTheorems.SignalsAreHonest | experimental/stdexec/include/uring_exec/io_uring_exec_operation.h:136-174 | set_value carries a non-negative kernel result or a timer's expiry, set_error a kernel error that is no cancellation, set_stopped follows a stop request or a kernel cancellation |
| LifecycleCalls.EveryResultIsReported | experimental/stdexec/include/uring_exec/io_uring_exec_operation.h:136-168 | every completion of every run reports the result of the CQE that its thread took for the operation: set_value with it if and only if it is non-negative or a timer ran out, set_stopped if and only if it is a cancellation, and otherwise set_error with its negation; it is the only signal, and the thread is back in its loop |
| LifecycleCalls.OnlyThreeLinesSignal | experimental/stdexec/include/uring_exec/io_uring_exec_operation.h:41-88 | a receiver gets a signal only from the stop test, the failed spawn or the completion of its own operation, and the error of a failed spawn if and only if the spawn of its restart failed |
| LifecycleCalls.StartReturns | experimental/stdexec/include/uring_exec/io_uring_exec_operation.h:41-88 | start tests for a stop first and then tries to get an SQE, and returns in one of four ways: stopped; with the SQ full, as a queued restart or with the error of the failed spawn; in flight, with the callback registered if it can be stopped; or in flight with its stop request on top of its bucket |
| LifecycleCalls.RequestedIff | experimental/stdexec/include/uring_exec/io_uring_exec_operation.h:90-97 | a stop is requested at some moment if and only if somebody has requested it by then |
| LifecycleCalls.ConnectedAs | experimental/stdexec/include/uring_exec/io_uring_exec_operation.h:33-39 | throughout its life an operation has the stop token and the kind that it was connected with |
| LifecycleCalls.CallbackRuns | experimental/stdexec/include/uring_exec/io_uring_exec_operation.h:120-130 | a registered callback whose stop is requested can run to its end in three steps of any thread, and puts its operation on top of its bucket |
| LifecycleCalls.CallbackIsNotCutShort | experimental/stdexec/include/uring_exec/io_uring_exec_operation.h:108-130 | resetting the stop callback waits: a callback that was invoked pushes its operation and then returns, each once, before it is gone |
| LifecycleCompletes.EveryOperationCanComplete | experimental/stdexec/include/uring_exec/io_uring_exec_operation.h:41-168 | from every state of every run, each operation that was started and has no signal yet gets its one signal if its own thread goes on, together with the kernel and the stop callback that it may wait for: no operation is stranded, no call is stuck; a queued restart can be taken by any thread |
| LifecycleCompletes.StartedCanComplete | experimental/stdexec/include/uring_exec/io_uring_exec_operation.h:41-168 | an operation that was connected can be started by any thread in its loop, and then completes if that thread goes on |
| LifecycleCompletes.CallEnds | experimental/stdexec/include/uring_exec/io_uring_exec_operation.h:41-118 | every call of start, complete or the cancel pass that a thread is in the middle of comes to its end, having lost no SQE, CQE or restart task |
| LifecycleCompletes.EveryRingDrains | experimental/stdexec/include/uring_exec/io_uring_exec_internal_run.h:303-307 | from every state of every run a thread that goes on, with its kernel, comes to an empty ring with a count of zero, so that an autoquit loop can quit |
| LifecycleCompletes.EveryStopCanBeServed | experimental/stdexec/include/uring_exec/io_uring_exec_internal_run.h:247-263 | from every state of every run a loop can serve any stop request that waits in one of its buckets, however full the bucket and small the ring, by passing over it until the request has its cancel SQE |
| LifecycleCalls.EntriesConserved | experimental/stdexec/include/uring_exec/io_uring_exec_internal_run.h:196-244 | on every ring of every run, SQEs are submitted in the order in which they were acquired, CQEs are consumed in the order in which they were posted, and each CQE answers exactly one submitted SQE |
| LifecycleSteps.EveryStepDoes | experimental/stdexec/include/uring_exec/io_uring_exec_operation.h:41-168 | what each step leads to and changes: the thread's next line, the signal, its ring, the shared queues, every bucket and every record |
| LifecycleTheorems.QuietMeansDone | experimental/stdexec/include/uring_exec/io_uring_exec_internal_run.h:303-307 | the in-flight count never drops below the CQEs about to be subtracted, and is zero exactly when nothing is outstanding on the ring |
| LifecycleTheorems.NeverCorrupt | experimental/stdexec/include/uring_exec/io_uring_exec_operation.h:108-118 | in no run does an uninstall follow a stale link: at its second push_all the operation is in the list just taken or its own link is null |
| LocalRing.Local.Reap | experimental/stdexec/include/uring_exec/io_uring_exec_internal_run.h:205-244 | the loop ends however much the kernel posts, consumes a prefix of the CQ stream in order, stops only at an empty CQ or beyond the limit, takes at most limit plus batch, exceeds the limit if and only if that many CQEs were there, and under no_delay goes on until it finds nothing; the stream is what was there and what the kernel posted by its last look |
| LocalRing.MaximumExceeded | experimental/stdexec/include/uring_exec/io_uring_exec_internal_run.h:58-58 | a concrete step that consumes more CQEs than its limit, by at most a batch |
| LocalRing.Local.ConsumeSome | experimental/stdexec/include/uring_exec/io_uring_exec_internal_run.h:211-241 | callbacks start new operations before the batch is subtracted, and the count stays right |
| LocalRing.Local.SubmitDestructiveCommand | experimental/stdexec/include/uring_exec/io_uring_exec_internal_run.h:386-395 | one more SQE is outstanding and the count does not know it |
| LocalRing.CountedExactlyIff | experimental/stdexec/include/uring_exec/io_uring_exec_internal_run.h:386-395 | the count equals what is outstanding if and only if there was no destructive command |
| LocalRing.CountedExactly | experimental/stdexec/include/uring_exec/io_uring_exec_internal_run.h:240-241 | without one, the subtraction never underflows and an autoquit exit leaves nothing outstanding |
| LocalRing.DestructiveCommandWraps | experimental/stdexec/include/uring_exec/io_uring_exec_internal_run.h:345-355 | a concrete destructive command on an idle ring, after whose CQE the count has wrapped around |
| RunLoop.Remote.StartOperation | experimental/stdexec/include/uring_exec/io_uring_exec_internal.h:348-352 | the bucket of the balance counter gets the task on top, every other bucket stays, and the shares follow |
| RunLoop.Runner.StartLocally | experimental/stdexec/include/uring_exec/io_uring_exec_internal.h:229-231 | the attached queue gets the task on top and no bucket changes |
| RunLoop.Remote.Balanced | experimental/stdexec/include/uring_exec/io_uring_exec_internal.h:348-352 | at any time, across wrap-around of the counter, the buckets' cumulative shares differ by at most one |
| RunLoop.Runner.Launch | experimental/stdexec/include/uring_exec/io_uring_exec_internal_run.h:157-184 | a queue is emptied and its tasks are run oldest first; each task is launched as often as it was queued, nothing that waited is lost or doubled, and everything they start waits for later: what they start locally on top of the attached queue, the rest on the buckets |
| RunLoop.Runner.Step | experimental/stdexec/include/uring_exec/io_uring_exec_internal_run.h:185-194 | a step launches the attached queue, the bucket whose turn it is and any other bucket, in this order, each as it then is and oldest first; counted over all queues, every task is launched once for each time that it was started, or still waits |
| RunLoop.Runner.SixteenSteps | experimental/stdexec/include/uring_exec/io_uring_exec_internal_run.h:154-194 | within sixteen steps every task that was in any bucket has been launched, within one every task of the attached queue, whatever the random accesses, the tasks' own starts and new arrivals on either; and over these steps launches, starts, arrivals and what waits balance for every task |
| RunLoop.Runner.RestartIsLaunched | experimental/stdexec/include/uring_exec/io_uring_exec_operation.h:76-84 | a restart is launched within sixteen steps of one runner, wherever the balance counter puts it; if it finds the SQ full each time, it is not lost and is launched once more within every sixteen steps after that |
| RunLoop.EveryBucketHasItsTurn | experimental/stdexec/include/uring_exec/io_uring_exec_internal.h:41-44 | from any 64-bit counter value, across its wrap-around, every bucket has its turn within sixteen steps |
| Bits.SizesAreThePowersOfTwo | include/utils.h:127-127 | the size assertion accepts exactly the powers of two |
| Fifo.MaskedNext | include/utils.h:130-139 | the masked increment goes round the ring |
| Fifo.Fifo.Push | include/utils.h:132-143 | refused exactly when SIZE - 1 elements are queued, otherwise the element is queued last |
| Fifo.Fifo.Pop | include/utils.h:145-151 | takes the oldest element, or leaves the caller's variable alone when there is none |
| SpscRing.RefinesFifo | include/utils.h:132-151 | under every interleaving of the two threads' loads and stores, with stale index values, the ring is a FIFO of capacity SIZE - 1 and the popped values are a prefix of the pushed ones |
| SpscRing.CallsAreServed | include/utils.h:132-151 | at every moment of every run, what has gone in, what has come out and which calls are under way follow from the arguments of the calls and the indices they loaded alone: no argument is lost, changed, invented or accepted twice |
| SpscRing.ComeOutInOrder | include/utils.h:132-151 | the values popped are the first of the arguments that push accepted, in the order of its calls |
| SpscRing.NeverStuck | include/utils.h:132-151 | each of the two threads can take a step at any moment, whatever the other is doing |
| SpscRing.NeverOverwrites | include/utils.h:139-139 | the producer never writes a slot that holds an unconsumed element or that the consumer is reading |
| SpscRing.RefusedIff | include/utils.h:135-138 | push gives up exactly when, by the index it just saw, SIZE - 1 elements are queued |
| SpscRing.EmptyIff | include/utils.h:146-148 | pop finds nothing exactly when, by the index it saw, everything pushed has been popped |
| InflightClamp.LargestSuffix | include/config.h:24-28 | the clamped counter is the largest surplus of submissions over completions of any suffix of the rounds, the empty one included; so it is never below what is really outstanding |
| InflightClamp.ExactIff | include/config.h:20-28 | it is exact after every round if and only if no prefix of the rounds completed more than it submitted |
| InflightClamp.PlainAgreesIff | include/coroutine.h:156-184 | the build without the workaround goes through the same rounds, with the same counter, under exactly the same condition; otherwise it leaves CQEs behind or its assertion fails |
| IoContext.Context.PushToSwitch | include/coroutine.h:213-213 | refused exactly when the switch ring is full |
| IoContext.Context.HandOver | include/coroutine.h:211-213 | a series of handovers is taken in order until the ring is full: exactly as many as there is room for |
| IoContext.Context.Prepare | include/coroutine.h:238-243 | the switch ring's oldest handle goes to the end of the queue, a null handle nowhere; with an empty ring nothing changes |
| IoContext.Context.ResumeSome | include/coroutine.h:147-154 | resumes exactly the front of the queue, in order, never popping an empty queue, while resumed coroutines spawn more behind |
| IoContext.Context.SubmitAndReap | include/coroutine.h:156-184 | each CQE that is not a cancellation resumes its waiter once, as number k if k such CQEs come before it, and nobody else is resumed; the queue gains exactly what these spawn, in that order; the stop flag is set if and only if it was or one of them stops; the round ends at once if and only if nothing is in flight, the assertion fails if and only if more was reaped than was in flight, and otherwise the counter balances, or is clamped in a build with the conflict |
| IoContext.Context.RunOnce | include/coroutine.h:144-185 | one round in full: handovers enter the ring until it is full, its oldest coroutine is pulled, the front of the queue is resumed, all of it up to 32 (or one), what these spawn joins the rest in their order, then what the waiters of the CQEs spawn; stop flag, counter and outcome follow |
| IoContext.InTurn | include/coroutine.h:172-179 | for any CQEs: each one that is not a cancellation resumes its waiter in its turn, every resumed coroutine is the waiter of such a CQE, and what they spawn and whether one stops is exact |
| IoContext.BatchInTurn | include/coroutine.h:148-154 | for any batch: what each resumed coroutine spawns joins the queue behind what those before it spawned, and the stop flag is raised if and only if one of them stops |
| IoContext.ResumedInTurn | include/coroutine.h:229-232 | in any run of rounds, the handle at position 32 r + i of a round's queue is resumed r rounds later, as number i |
| IoContext.PulledInTurn | include/coroutine.h:238-243 | the handle at position j of the switch ring is pulled j rounds later |
| IoContext.HandedOverInTurn | include/coroutine.h:213-243 | so a coroutine that another context handed over is resumed at the very place its ring and queue positions say |
| IoContext.RemainingIs | include/coroutine.h:229-243 | what r rounds leave of n queued coroutines and those they pull from the ring, when nothing arrives: 32 fewer for each round, as long as they last |
| IoContext.RoundsAreLeast | include/coroutine.h:203-205 | for a ring of m coroutines the closed form, ceil(n / 31) or ceil((n + m) / 32), is the least number of rounds after which none remains |
| IoContext.Context.Loop | include/coroutine.h:140-140 | while other contexts hand over coroutines at any time, every queued coroutine is resumed in its turn and every handed-over one is pulled and resumed in its turn; the loop ends only with nothing pending; stopped and with no arrivals it ends exactly when its rounds are enough for the queue and what they pull, and the ring is short of one handle for each; it ends with an empty ring if and only if the queue lasts until the last pull, that is, without null handles, m <= ceil(n / 31) for n queued and m in the ring; the rounds are ceil(n / 31) when m is at least that, else ceil((n + m) / 32). Each round goes on from exactly the queue and stop flag that the round before left, and serves its queue and its CQEs as RunOnce says |
| IoContext.Context.RunUntilDrained | include/coroutine.h:191-202 | run_once until drained: the rounds are fair, the loop ends exactly when queue and counter are empty, and with no handovers the ring is short of one handle for each round; with nothing in flight it ends, and leaves the ring empty, under the same exact condition as after a stop |
| IoContext.Context.Run | include/coroutine.h:140-140 | the stop flag is cleared first, so run takes at least one round, and its rounds are fair from the first on; with no handovers the ring is short of one handle for each |
| IoContext.HandoverLeftBehind | include/coroutine.h:191-205 | a concrete context that is stopped and drained while its switch ring holds a coroutine |
| CoroutineTheorems.EveryStepKeeps | include/coroutine.h:16-213 | every step of tasks, contexts, operations and switches keeps single ownership, with co_await on an operation and its reaping split into two accesses each, for any number of contexts and awaits on any of them |
| CoroutineTheorems.ExactlyOneHolder | include/coroutine.h:16-104 | a live coroutine is held once in exactly one place: a Task, a queue, a switch ring, an operation, a callee's caller link, or a running thread; a destroyed one nowhere. The operation is in flight, or the coroutine stored its handle too late (LostIff) |
| CoroutineTheorems.LostIff | include/coroutine.h:83-104 | a coroutine that found its operation unfinished and has not stored its handle yet can be overtaken by the loop that reaps, so that its wake-up is lost, if and only if the operation was issued on another context than the one it runs on |
| CoroutineTheorems.HangsForEver | include/coroutine.h:172-178 | a coroutine whose handle came too late is held by that operation alone in every continuation: nothing ever resumes or destroys it |
| CoroutineTheorems.HomeIsSafe | include/coroutine.h:83-104 | in every run in which operations in flight are awaited on the contexts that issued them, no coroutine ever hangs, and the frame of an operation that a loop is about to look at is alive |
| CoroutineTheorems.FrameGoesFirst | include/coroutine.h:177-178 | away from home, a coroutine can see its CQE between the loop's two accesses and finish, leaving the loop to look at an operation whose frame is gone |
| CoroutineTheorems.SingleProducer | include/coroutine.h:211-213 | in every run, all pushes onto a ring without a lock come from one context |
| CoroutineTheorems.NoUseAfterDestruction | include/coroutine.h:39-46 | no step resumes or destroys a coroutine that is not alive or that a context is running elsewhere |
| CoroutineTheorems.SwitchHandsOver | include/co_context_switch.h:9-13 | a switch moves the coroutine from its thread to the end of the other context's ring and nowhere else; with that ring full it goes on running and is in no ring |
| CoroutineRuns.CalleeTakesOver | include/coroutine.h:66-79 | co_await on a Task runs the callee on the same thread in its caller's stead, and the caller is held by the callee's caller link and nothing else |
| CoroutineRuns.AwaitedTaskResumesCaller | include/coroutine.h:39-79 | until the callee finishes, in whatever context, no step resumes or destroys the coroutine that awaits it; that finish destroys the callee and leaves its thread running the caller |
| CoroutineRuns.CallerFollows | include/coroutine.h:39-79 | a caller follows its callee to another context: awaited on one, the callee switches to the other, is pulled, resumed and finishes there, and its caller runs on there |
| CoroutineRuns.SpawnedEndsInLoop | include/coroutine.h:39-54 | a spawned Task has no caller: when it finishes, its thread is back in its loop |
| CoroutineRuns.WaitsIff | include/coroutine.h:94-101 | co_await on an operation suspends if and only if it got an SQE and its CQE has not been stored since |
| CoroutineRuns.AwaitedOperationResumes | include/coroutine.h:102-104 | a coroutine that stored its handle in time is held by the operation until the loop looks at it, and is then resumed by that loop and by nothing before |
| CoroutineRuns.FirstComeFirstResumed | include/coroutine.h:144-154 | a coroutine in a context's queue moves up by one with each that is resumed, and is resumed when those before it have been |
| CoroutineRuns.FirstComeFirstPulled | include/coroutine.h:238-243 | a coroutine in a switch ring moves up by one with each that is pulled, and is pulled to the end of the queue after those before it |
| CoroutineRuns.SpawnedIsLast | include/coroutine.h:207-209 | co_spawn takes the Task away from its owner and puts its coroutine at the end of the queue of the context it names |
| CoroutineRuns.NoThreadIsStuck | include/coroutine.h:94-185 | in every state of every run each context's thread can take its next step: its loop can pull, resume and reap whatever is there, and a coroutine can finish unless an operation in its frame may be in flight, which it can then await |
| CoroutineRuns.EveryoneGoes | include/coroutine.h:16-213 | at every step of every run each coroutine goes from the one place that holds it to the one that the step's line sends it to, and all others stay where they are |
| UserData.PackIff | examples/echo.cpp:31-41 | data_pack and data_unpack are inverse in both directions |
| EchoServer.Server.OnAccept | examples/echo.cpp:94-100 | exactly a READ of the new descriptor and then the next ACCEPT are submitted; the descriptor has a buffer, its old one if there was one, and no other buffer changes; a negative result ends the server and does nothing else |
| EchoServer.Server.OnRead | examples/echo.cpp:103-110 | exactly one WRITE of as many bytes as were read is submitted, and the bytes stay where they are |
| EchoServer.Server.OnWrite | examples/echo.cpp:113-126 | exactly one request is submitted: a CLOSE, and the buffer goes, if and only if nothing was written or more than two bytes beginning with "Zz" were; otherwise a READ, and the buffer stays; no other buffer changes |
| EchoServer.Server.Dispatch | examples/echo.cpp:130-139 | what was submitted stays submitted; a CLOSE changes nothing, a negative result of any other request ends the server, a code without a handler traps |
| EchoTheorems.Serve | examples/echo.cpp:128-140 | fed the CQEs of any run, the server object holds at each point the buffers, requests and status of that run's states |
| EchoTheorems.EveryStateInv | examples/echo.cpp:88-140 | the server's invariant holds in every run, with the kernel executing requests in any order and reusing descriptors at once |
| EchoTheorems.OneRequestPerDescriptor | examples/echo.cpp:92-126 | exactly one ACCEPT is outstanding; a descriptor has a buffer if and only if exactly one READ or WRITE of it is outstanding, counted by user data over requests and CQEs |
| EchoTheorems.BuffersAreLive | examples/echo.cpp:58-66 | every READ and WRITE with the kernel points at a live 4096-byte buffer and stays within it |
| EchoTheorems.EachWriteEchoes | examples/echo.cpp:102-126 | each WRITE sends a prefix of the bytes the READ before it delivered on the same connection, under any reuse of descriptors |
| EchoTheorems.NeverTrapped | examples/echo.cpp:90-138 | dispatch never meets a code it does not serve, and the server ends exactly when it handles a negative result of an ACCEPT, READ or WRITE |
| EchoTheorems.ClosesIff | examples/echo.cpp:113-126 | a handled WRITE leads to a CLOSE and drops the buffer if and only if the bytes just written on that connection were none or were more than two and began with "Zz"; otherwise to a READ |
| EchoTheorems.ComesBackIff | examples/echo.cpp:103-126 | at any moment of any run at which a connection's READs are all answered, what came back equals what was read, if and only if every WRITE of that connection that the kernel executed had the size it was asked for |
| EchoTheorems.ShortWriteLosesBytes | examples/echo.cpp:113-126 | a concrete run in which a short write loses a byte |
| BufferRing.Ring.constructor | include/feature_provided_buffers.h:27-33 | after the fill loop every buffer is in the ring once, in order |
| BufferRing.Ring.Select | include/feature_provided_buffers.h:44-65 | the kernel's choice goes to the application, and await_resume hands out its id |
| BufferRing.Ring.Rejoin | include/feature_provided_buffers.h:98-105 | returning a held buffer puts it behind the queue, on no unconsumed slot, across wrap-around of the 16-bit tail |
| BufferRing.ReturnConservesIff | include/feature_provided_buffers.h:98-105 | returning a buffer keeps ring and held buffers a partition if and only if the buffer was held |
| BufferRing.ReturnIsRightIff | include/feature_provided_buffers.h:44-65 | returning the id await_resume yielded leaves every buffer accounted for, and everybody else with what they held, if and only if the completion carried a buffer |
| BufferRing.EndOfFileDuplicates | include/feature_provided_buffers.h:54-56 | for every completion without a buffer the id is zero, and returning it leaves buffer zero twice in the ring, or in the ring while somebody holds it |
| Shutdown.WaitEndsIff | experimental/stdexec/include/uring_exec/io_uring_exec_internal_run.h:332-343 | the owner's wait ends if and only if every other thread that got a local context has done its transfer run and counted itself out by then, in terms of the run's steps alone; otherwise the owner goes on waiting |
| Shutdown.LocalIs | experimental/stdexec/include/uring_exec/io_uring_exec_internal.h:386-408 | a local context is where the steps of its own thread have brought it |
| Shutdown.OwnerIs | experimental/stdexec/include/uring_exec/io_uring_exec_internal_run.h:332-343 | the owner has begun to wait if and only if it has requested the stop |
| Shutdown.WaitCanEnd | experimental/stdexec/include/uring_exec/io_uring_exec_internal_run.h:332-343 | from every state in which the owner waits, transfer runs of the other threads and one look end the wait: it takes no step of the root thread's own local context |
| Shutdown.TeardownCanComplete | experimental/stdexec/include/uring_exec/io_uring_exec_internal_run.h:332-343 | from every state before the stop request, teardown can complete: the owner makes sure of its local context, requests the stop, and its wait can end |
| Shutdown.EveryStepKeeps | experimental/stdexec/include/uring_exec/io_uring_exec_internal.h:386-408 | the counter is the number of local contexts that count |

## Left out

- Transfer and terminal runs, and restarts driven by CQEs: the lifecycle runs end before them. The `restart` vtable entry does not clear the operation's link, so its uninstall contract does not carry over. Terminal runs do one bounded pass and are not claimed to cancel everything.
- Kernel and liburing internals: the kernel may execute and complete requests in any order and with any result; submission takes a prefix of the SQ; CQ overflow, multishot requests, SQPOLL, linking and draining are not modelled. Multishot shows only as completions that exceed submissions in the clamp.
- A cancel SQE names its operation by address. The kernel acting on a later operation at the same address is not modelled.
- Memory ordering: the CAS queue is sequentially consistent by steps; the SPSC ring lets each thread see old values of the other's index, and its slots are plain memory that no two threads touch at once.
- CasQueueCalls.PushCompletes: speaks of calls that have returned. The queue is lock-free, not wait-free: others can keep one thread retrying.
- StoppingQueue.Uninstall: the list that a stale link leads to is taken to end in null and not to be pushed by others meanwhile. Every thread may push at any other time, also during the two swings.
- In `Lifecycle` a bucket operation is one step, which `CasQueue` justifies, and restart tasks are launched in any order; their order is the subject of `TaskLaunch` and `CasQueue`. A stop of the async scope that would drop a restart is not modelled.
- LifecycleCompletes.EveryOperationCanComplete: for rings of at least one entry. It says that completion stays possible, not that a scheduler brings it about.
- LifecycleTheorems.QuietMeansDone: counts without a bound; the 64-bit wrap-around is in `LocalRing`.
- IoContext.Context.Run: the loop is followed for as long as inputs are given; unbounded running is not modelled. `hang` only sleeps and is left out.
- IoContext.Context.RunOnce: what a resumed coroutine does is a parameter: the coroutines it spawns on this context and whether it stops it. What other contexts hand over is given per round, since only the preparation of a round looks at the ring; how a push and a pop interleave is in `SpscRing`.
- CoroutineTheorems.ExactlyOneHolder: for operations that complete once and are not cancelled, awaited by the coroutine they live in, which does not finish while, for all it knows, they are in flight. They are issued on the context their coroutine runs on, and a context's queue is used by its own thread.
- CoroutineTheorems.SwitchHandsOver: a switch ring without a lock has one context that pushes onto it, as `push_to_switch` demands; what two producers without a lock do to it is not modelled. Push and pop are one step each here; how they interleave is in `SpscRing`.
- IoContext.Context.RunUntilDrained: with operations in flight, how many rounds the kernel makes it take is not bounded.
- The `ok` flag of `context_switch_operation` is stored after the handover; only the handover and the value `await_suspend` returns are modelled.
- The run policies' exits other than `autoquit`, progress totals, yields and the random generator (any bucket may be chosen): easy members.
- EchoServer.Server.OnAccept: `io_uring_submit` is taken to succeed and an SQE to be free, as with 256 entries and a submit after each request. The failure of a CLOSE is ignored, as its handler is.
- Printing what was read, `make_server`, signal handling, `defer`, senders, vtable templates, the deprecated `multi_lock`, benchmarks and the other examples.
- BufferRing.Ring.Rejoin: asks that the buffer be held, as the ring demands of its callers; what happens otherwise is in `BufferRing.ReturnConservesIff`. Buffer addresses and lengths are left out.
- Shutdown.WaitEndsIff: the owner is the root thread; a local context constructed after the wait is not covered.
