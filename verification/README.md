# Verified model of the vosp worker pool, logger and error registers

This project models three parts of the library and proves what they promise.

**The worker pool** (`include/vosp/worker_pool.hpp`). `PoolMachine` is a step system: any number
of workers and client threads, one step per atomic operation or per action inside a critical
section, with the ring of slots, head, tail, both locks, the packed state word, the epoch and the
waiter count explicit. `PoolInvariant`, `PoolWorkerSteps` and `PoolClientSteps` hold one inductive
invariant and its preservation by every step. `PoolRefinement` shows that every step is a step of
the bounded queue in `BoundedFifo` or invisible to it. `PoolCompletion` treats completion, counters
and `wait`, `PoolDrain` shutdown, and `PoolFalseIdle` the exact limit of `wait`. `PoolCalls` follows
every call from the request to its return, and `PoolPromises` states what each public operation has
done for its caller when it returns. `WorkerPool` holds the critical sections as methods of a class
over an array, proved against the same bounded queue; `PoolRuns` and `PoolObject` show that each of
them takes the object along a run of the step system. `PackedState` and `Ring` are the arithmetic
underneath.

**The logger** (`include/vosp/logger.hpp`). `SinkList` is the synchronous logger with its cached
single sink. `AsyncLogger` is the asynchronous logger as a step system with explicit condition
variables, `AsyncLoggerTheorems` and `AsyncLoggerCalls` what holds of all its runs and of every call,
and `AsyncLoggerObject` its code as a class whose methods take exactly those steps. `TextRecord` is
the 512-byte formatter and the immediate sink, and `BufferedSinkObject` the buffered sink as a class. `BufferedMachine` and
`BufferedSafety` are the same sink under concurrency: records are appended part by part, buffers are
written in chunks, cleared and unlocked step by step, and the shard locks and the output lock are what
keeps records whole. `BufferedCalls` follows every call to its return. `ShardCache` is the thread-local
shard cache over many sinks, and `BufferedRuns` ties the class to both.

**The error registers** (`include/vosp/error.hpp`). `Register` is the bounded register, `Routing`
the handler, and `LockedHandler` the concurrent handler as a step system with one lock per register,
in which an operation reads its register and changes it in separate steps. `AsyncSystem` is the
asynchronous error system: the pool's workers go through the handler's locks, and a future is completed
in a later step of its worker.

Theorems that require a predicate `Inv` (or `SysInv`) hold in every reachable state:
`PoolClientSteps.ReachableInv`, `BufferedSafety.ReachedInv`, `LockedHandler.InitInv` with
`LockedHandler.RunKeeps`, `AsyncSystem.ReachedInv`, `AsyncLoggerTheorems.ReachedInv` and
`ShardCache.RunKeeps` say so.

## Where the code falls short of its documentation

`docs/API_CONTRACTS.md` lines 105-107 and 138-140 allow 1 to 1024 workers and promise that `wait()`
blocks until the queued and active counts reach zero. The active field has 11 bits, and the assertions at
`include/vosp/worker_pool.hpp:669-671` bound only the number of workers, while each worker may hold up
to 16 bulk callbacks. With 2048 callbacks active the field reads zero. `PoolFalseIdle.EarlyReturn`
constructs a schedule after which `wait` returns at once while claimed callbacks are still running, and
`PoolFalseIdle.WaitIsSoundExactly` proves that `wait` keeps its promise exactly when the number of
workers times the smaller of 16 and the queue capacity is below 2048; from a capacity of 16 on, that
means at most 127 workers. The results that rest on reading the active field (`PoolCompletion.IdleIsSound`,
`PoolCompletion.WaitReturnsSettled`) carry that bound as a hypothesis; all others hold for every admissible pool.

## Model

| member | source | states |
|---|---|---|
| `PackedState.Decode` | include/vosp/worker_pool.hpp:601-614 | for up to 1024 workers with 16 tasks each, pending and the stopping bit decode exactly and active decodes modulo 2^11 |
| `PackedState.PendingMask` | include/vosp/worker_pool.hpp:601-604 | on a 64-bit word the pending mask is the remainder modulo 2^11 |
| `PackedState.ActiveMask` | include/vosp/worker_pool.hpp:611-614 | mask and shift of the active field are the quotient by 2^11 modulo 2^11 |
| `PackedState.StoppingMask` | include/vosp/worker_pool.hpp:606-609 | the stopping bit is set exactly if the word is at least 2^63 |
| `PackedState.FieldsAreIndependent` | include/vosp/worker_pool.hpp:661-671 | every atomic update of the word (add n, claim k, finish k, cancel k, stop) acts on the three fields as on independent counters, without carry or borrow |
| `PackedState.FinisherTest` | include/vosp/worker_pool.hpp:562-570 | the finisher's test on the previous word is true exactly if the new word looks idle |
| `Ring.PushWindow` | include/vosp/worker_pool.hpp:296-297 | filling the slot at the tail extends the circular window of full slots by one at its end, and that slot was empty |
| `Ring.PopWindow` | include/vosp/worker_pool.hpp:464-466 | emptying the slot at the head removes the oldest element of the window, and that slot was full |
| `PoolWorkerSteps.WorkerStepKeeps` | include/vosp/worker_pool.hpp:430-504 | every worker step keeps the invariant: full slots are the window from head to tail; its length is pending plus written-unpublished minus removed-unpublished; no empty slot read, no full slot overwritten, no promise set twice |
| `PoolClientSteps.ClientStepKeeps` | include/vosp/worker_pool.hpp:192-306 | every step of submitting, waiting, cancelling and stopping threads keeps the invariant |
| `PoolClientSteps.ReachableInv` | include/vosp/worker_pool.hpp:192-504 | the invariant holds after every interleaving of every valid pool |
| `BoundedFifo.FifoKeepsOrder` | include/vosp/worker_pool.hpp:76-85 | the bounded queue: accepted = taken followed by the queue, never above capacity, both histories only grow, nothing accepted once stopping |
| `BoundedFifo.ClaimIsUnique` | include/vosp/worker_pool.hpp:485-493 | queue and observed pending count determine a claim, which is at most 16 long |
| `PoolRefinement.Refines` | include/vosp/worker_pool.hpp:192-233 | every step of the pool is an offer, a claim, a cancellation or a close of the bounded queue, or leaves it unchanged |
| `PoolRefinement.ClaimTakes` | include/vosp/worker_pool.hpp:478-497 | a claim takes one scalar task or exactly the longest all-bulk prefix cut at min(16, observed pending), even while producers append |
| `PoolRefinement.RefillOffers` | include/vosp/worker_pool.hpp:209-222 | a refill appends its callbacks in order, within the capacity, and only while the pool is not stopping |
| `PoolRefinement.CancelDrops` | include/vosp/worker_pool.hpp:616-659 | a cancellation empties the queue, moving all waiting tasks to the taken history in order |
| `PoolRefinement.RunRefines` | include/vosp/worker_pool.hpp:192-233 | over any run tasks leave in acceptance order, each exactly once, and pending never exceeds the capacity |
| `PoolCompletion.RunGrows` | include/vosp/worker_pool.hpp:506-555 | over any run a task once finished or cancelled keeps that fate, so each promise is set at most once |
| `PoolCompletion.Conservation` | include/vosp/worker_pool.hpp:506-570 | accepted = pending + running + finished + cancelled; `failed_dispatches` is the number of tasks without a future that threw or returned an error, `cancelled_dispatches` of those that were cancelled |
| `PoolCompletion.FateFollowsOutcome` | include/vosp/worker_pool.hpp:506-555 | a task starts to run by a claim, is cancelled by a cancellation, and finishes with the very outcome of its own callback; no other step changes any fate |
| `PoolCompletion.SubmissionResult` | include/vosp/worker_pool.hpp:192-233 | at a submission that has returned its items stand, in order, at the tickets of its job; fewer than all only if the pool is stopping |
| `PoolCompletion.IdleIsSound` | include/vosp/worker_pool.hpp:572-577 | while the active field cannot wrap, a word that looks idle means every accepted task is finished or cancelled |
| `PoolCompletion.WaitReturnsSettled` | include/vosp/worker_pool.hpp:248-259 | under the same bound `wait` returns only in such a state |
| `PoolCompletion.ClaimNeverIdles` | include/vosp/worker_pool.hpp:495-496 | the single addition at a claim keeps pending + active and leaves active positive |
| `PoolCompletion.NoLostWakeup` | include/vosp/worker_pool.hpp:579-584 | a thread parked on the current epoch of an idle pool has a thread bound to advance it; one parked on an old epoch has a thread about to notify |
| `PoolCompletion.CommitmentIsKept` | include/vosp/worker_pool.hpp:650-657 | no step of any thread loses that commitment without advancing the epoch, including a cancellation that races with the last finisher |
| `PoolCompletion.QuiescentMeansAwake` | include/vosp/worker_pool.hpp:248-259 | when every operation has come to rest, an idle pool has no parked waiter |
| `PoolDrain.NothingAcceptedAfterStop` | include/vosp/worker_pool.hpp:290-293 | after the stopping bit is set nothing is accepted in any run |
| `PoolDrain.ExitMeansEmptyForever` | include/vosp/worker_pool.hpp:447-451 | after one worker has exited, pending is 0 in every later state |
| `PoolDrain.AllExitedAllSettled` | include/vosp/worker_pool.hpp:388-402 | when all workers have exited every accepted task was executed or cancelled and none is active |
| `PoolDrain.WorkerStepRanks` | include/vosp/worker_pool.hpp:430-476 | after the stopping bit is set every worker step decreases a rank |
| `PoolDrain.DrainIsBounded` | include/vosp/worker_pool.hpp:430-476 | so in any run after it the workers take a bounded number of steps |
| `PoolDrain.DrainProgresses` | include/vosp/worker_pool.hpp:435-457 | and until all have exited some worker, or a canceller holding both locks, can step |
| `PoolCalls.RunCalls` | include/vosp/worker_pool.hpp:143-263 | over any run every call in progress is at a point of the operation it asked for, with its own arguments, and every call that has returned has done what was asked |
| `PoolPromises.SubmissionsKeepTheirWord` | include/vosp/worker_pool.hpp:192-233 | a thread asked to submit items has, when it returns, put exactly the first n of them into the history since the call, in order, and nothing else; it reports n short of all only if the pool is stopping |
| `PoolPromises.SubmitAcceptsItsTask` | include/vosp/worker_pool.hpp:280-306 | a thread asked to submit one task has accepted that task, or has thrown because the pool is stopping and accepted nothing |
| `PoolPromises.WaitKeepsItsWord` | include/vosp/worker_pool.hpp:248-259 | once a call of `wait` has returned, every task accepted before it was made is settled, in pools whose active field cannot wrap |
| `PoolPromises.ClearQueueKeepsItsWord` | include/vosp/worker_pool.hpp:616-659 | once a call of `clear_queue` has returned, it has held both locks, and every task that waited then was cancelled |
| `PoolPromises.CancellingShutdownEmpties` | include/vosp/worker_pool.hpp:413-428 | a shutdown asked to cancel has done the same before it joins the workers |
| `PoolPromises.ShutdownKeepsItsWord` | include/vosp/worker_pool.hpp:379-402 | once a call of `shutdown` has returned, in either mode, every worker has exited and every accepted task is settled |
| `PoolPromises.DrainExecutesAll` | include/vosp/worker_pool.hpp:413-428 | in a run in which nobody asks to clear the queue or to shut down with cancellation, no task is ever cancelled, and once the workers have exited every accepted task has been executed |
| `PoolPromises.ClientsAreNeverStuck` | include/vosp/worker_pool.hpp:306-330 | a client that cannot step waits for room in a full queue, for a lock whose holder can step, or for the workers to exit, and then a worker or the holder of the consumer lock can step |
| `PoolFalseIdle.AnyActiveCount` | include/vosp/worker_pool.hpp:478-497 | every number of claimed, unfinished tasks the workers can hold between them is reachable with nothing pending |
| `PoolFalseIdle.EarlyReturn` | include/vosp/worker_pool.hpp:248-259 | from 2048 claimable tasks on, `wait` can return while claimed tasks are running |
| `PoolFalseIdle.WaitIsSoundExactly` | include/vosp/worker_pool.hpp:661-671 | `wait` returns only when every accepted task is settled if and only if workers * min(16, capacity) < 2048 |
| `PoolFalseIdle.OneHundredTwentyEightWorkers` | include/vosp/worker_pool.hpp:669-671 | from a queue capacity of 16 on, the bound is met exactly by pools of at most 127 workers |
| `WorkerPool.Pool.TryEnqueue` | include/vosp/worker_pool.hpp:288-299 | one attempt under the producer lock: rejected exactly if stopping, full exactly at capacity, otherwise an offer of this task |
| `WorkerPool.Pool.Refill` | include/vosp/worker_pool.hpp:205-222 | a refill moves exactly the next min(rest, room) callbacks of the span, in order, and touches nothing else of the span |
| `WorkerPool.Pool.DispatchBulk` | include/vosp/worker_pool.hpp:192-233 | through any number of refills interleaved with submitting, claiming, finishing, cancelling and stopping threads, exactly the first n callbacks are moved, in order, into the acceptance history; the rest of the span is untouched |
| `WorkerPool.Pool.ProcessBulk` | include/vosp/worker_pool.hpp:478-497 | the claim loop over the ring takes the longest bulk prefix cut at 16, in queue order |
| `WorkerPool.Pool.RunBatch` | include/vosp/worker_pool.hpp:501-503 | a batch runs in queue order: a future per tracked task, a failure count per untracked one, one release of the whole batch |
| `WorkerPool.Pool.FinishTasks` | include/vosp/worker_pool.hpp:562-570 | releases exactly its tasks and asks for a notification exactly if the word now looks idle |
| `WorkerPool.Pool.CancelPending` | include/vosp/worker_pool.hpp:616-659 | drops every waiting task, completes each tracked future with the cancellation and counts each untracked loss |
| `WorkerPool.FuturesAreTracked` | include/vosp/worker_pool.hpp:506-555 | in a batch every tracked task, and no other, has its future completed once, in order, with its own outcome; the failures counted are those of the untracked tasks that threw or returned an error |
| `WorkerPool.CancellationSettlesAll` | include/vosp/worker_pool.hpp:623-647 | every tracked waiting task, and no other, has its future cancelled once, in order, and the losses counted are the other tasks |
| `PoolObject.EnqueueRuns` | include/vosp/worker_pool.hpp:288-300 | on an object that mirrors a state of the step system, `enqueue` under its lock leads to one that mirrors the end of a run of that client, at the pc its result stands for |
| `PoolObject.RefillRuns` | include/vosp/worker_pool.hpp:205-223 | so does a refill of `dispatch_bulk`, with exactly its callbacks appended to the history |
| `PoolObject.ClaimRuns` | include/vosp/worker_pool.hpp:454-469 | so does a claim, scalar or bulk, with exactly its batch removed |
| `PoolObject.BatchRuns` | include/vosp/worker_pool.hpp:501-503 | so does running and releasing a batch, and it notifies exactly if the step system does |
| `PoolObject.CancelRuns` | include/vosp/worker_pool.hpp:616-655 | so does `cancel_pending` |
| `PoolObject.StopRuns` | include/vosp/worker_pool.hpp:415-418 | setting the stopping bit is one step |
| `SinkList.Logger.constructor` | include/vosp/logger.hpp:357-361 | attaches the given sinks in order and establishes the invariant |
| `SinkList.Logger.AttachSlot` | include/vosp/logger.hpp:443-457 | appends exactly a sink that is not registered, and keeps the cached sink consistent |
| `SinkList.Logger.DetachSink` | include/vosp/logger.hpp:410-424 | removes exactly the given sink, reports whether it was there, and keeps the cached sink consistent |
| `SinkList.Logger.RefreshSingleSinkFastPath` | include/vosp/logger.hpp:538-547 | the cached sink is set exactly if there is one slot and it is not owned, and is then that sink |
| `SinkList.Logger.WriteEntry` | include/vosp/logger.hpp:459-517 | all three paths deliver to every sink registered at one moment of the call, whatever callbacks and other threads do to the list; filtered records succeed without effect, an empty list fails |
| `SinkList.ListFollowsHistory` | include/vosp/logger.hpp:382-424 | after any history of attaches and detaches no sink is listed twice, one is listed exactly if the last change naming it attached it, and the list is in the order of registration |
| `SinkList.EverySelectedSinkIsCalled` | include/vosp/logger.hpp:519-536 | if no sink throws, every selected sink is called once, in order, even after a refusal, the result is the conjunction, and all changes made by callbacks take effect |
| `SinkList.ExceptionStopsDelivery` | include/vosp/logger.hpp:528-533 | the first sink that throws is the last one called and the exception reaches the caller |
| `SinkList.PublishReachesAll` | include/vosp/logger.hpp:459-536 | a record that passes the filter is delivered to every sink on the list, in order, up to the first that throws; the result is the conjunction, a failure on an empty list, and a success without effect for a filtered record |
| `SinkList.ReentryIsHarmless` | include/vosp/logger.hpp:475-517 | attaching and detaching from callbacks changes neither the calls nor the result of the record in delivery |
| `AsyncLogger.StepKeeps` | include/vosp/logger.hpp:606-720 | every step keeps the invariant: conservation, bounds, flags, failure count, no sleeper on a true condition |
| `AsyncLoggerTheorems.NothingIsLost` | include/vosp/logger.hpp:651-720 | accepted = delivered, rest of the batch, queue, in order; batch and queue hold at most 1024; failed_records is the number of deliveries that were refused or threw |
| `AsyncLoggerTheorems.EveryWriteIsAnswered` | include/vosp/logger.hpp:651-672 | the records of all calls of write are, as a multiset, those published by calls that returned true, those refused by calls that returned false, which happens only when stopping, and those of calls still in progress |
| `AsyncLoggerTheorems.FlushDelivers` | include/vosp/logger.hpp:605-610 | the step in which a flush returns finds delivered equal to accepted, so everything accepted before the call is delivered |
| `AsyncLoggerTheorems.FlushReturnsWhenDrained` | include/vosp/logger.hpp:605-610 | the test of a flush lets it return exactly if everything accepted is delivered and no batch is active |
| `AsyncLoggerTheorems.FilterKeepsAccepted` | include/vosp/logger.hpp:654-657 | the records that pass the filter are exactly those published at accepted levels, in order |
| `AsyncLoggerTheorems.ExitIsFinal` | include/vosp/logger.hpp:684-688 | when the worker has exited all is delivered and nothing is accepted or delivered any more |
| `AsyncLoggerTheorems.ShutdownDelivers` | include/vosp/logger.hpp:617-631 | a shutdown returns only when the worker has exited with everything delivered |
| `AsyncLoggerTheorems.NoLostWakeup` | include/vosp/logger.hpp:659-693 | no thread sleeps on a condition that holds, and a thread asleep on space or drain has a worker that can step |
| `AsyncLoggerTheorems.ThreadsAreNeverStuck` | include/vosp/logger.hpp:605-720 | a thread that cannot step waits for the worker, which can, or for a shutdown under way whose thread or worker can |
| `AsyncLoggerTheorems.DrainIsBounded` | include/vosp/logger.hpp:674-719 | once stopping is set the worker can step until it exits, which takes a bounded number of its steps |
| `AsyncLoggerTheorems.FilteringTwiceIsOnce` | include/vosp/logger.hpp:654-657 | filtering at the queue and again at the backend gives the calls, list and failures of filtering once |
| `AsyncLoggerTheorems.AsyncRefinesSync` | include/vosp/logger.hpp:695-709 | the sinks are called as by the synchronous logger on a prefix of the accepted records, and once all are delivered as on everything published, with the same failures |
| `AsyncLoggerTheorems.FlushMeansSynchronous` | include/vosp/logger.hpp:605-610 | after a flush every sink has received the sequence the synchronous logger would deliver |
| `AsyncLoggerCalls.WriteKeepsItsWord` | include/vosp/logger.hpp:651-672 | a call of `write` that has returned has published its own record since, and queued it if it passes the filter, or has refused it because the logger is stopping |
| `AsyncLoggerCalls.FlushKeepsItsWord` | include/vosp/logger.hpp:605-610 | once a call of `flush` has returned, everything accepted before it was made is delivered |
| `AsyncLoggerCalls.ShutdownKeepsItsWord` | include/vosp/logger.hpp:617-631 | once a call of `shutdown` has returned, the worker has exited with everything delivered |
| `AsyncLoggerCalls.ChangeTakesEffect` | include/vosp/logger.hpp:382-424 | attaching or detaching changes the registration of the named sink, and of no other |
| `AsyncLoggerObject.AsyncLog.EnqueueSection` | include/vosp/logger.hpp:659-671 | the critical section of `enqueue` is exactly one step of the step system; true exactly if the record was queued, false exactly if stopping |
| `AsyncLoggerObject.AsyncLog.TakeBatch` | include/vosp/logger.hpp:680-694 | sleep, exit or swap is exactly one step |
| `AsyncLoggerObject.AsyncLog.DeliverRecord` | include/vosp/logger.hpp:698-708 | one delivery through the real synchronous logger, with its failure count, is exactly one step |
| `AsyncLoggerObject.AsyncLog.Run` | include/vosp/logger.hpp:674-720 | the worker loop, with any turns of other threads in between, is a run of the step system |
| `AsyncLoggerObject.RunLogger` | include/vosp/logger.hpp:558-573 | when the loop of a new logger exits, delivered = accepted = published after filtering, and the sinks were called as by the synchronous logger |
| `TextRecord.DecimalRoundTrip` | include/vosp/logger.hpp:775-779 | the decimal digits written for a code read back as the code, without leading zeros |
| `TextRecord.FailedDiskLine` | tests/vosp_logger_tests.cpp:188 | the format yields the line that the tests expect |
| `TextRecord.PrepareTextRecord` | include/vosp/logger.hpp:760-793 | the prefix is the whole line exactly if it fits 512 bytes and the header otherwise; the cursor never passes byte 512 |
| `TextRecord.AcceptConcat` | include/vosp/logger.hpp:831-838 | on a stream that fails for good at any byte, two writes equal one write of the concatenation |
| `TextRecord.ImmediateSink.Write` | include/vosp/logger.hpp:825-841 | the immediate sink puts exactly one line on the stream and reports its health |
| `TextRecord.ImmediateSink.WriteView` | include/vosp/logger.hpp:844-854 | the chunked writes amount to one write of the whole message |
| `TextRecord.LineDetermines` | include/vosp/logger.hpp:760-793 | two records have the same line exactly if level name, category name, code and message agree |
| `TextRecord.KnownLinesAreInjective` | include/vosp/logger.hpp:72-84 | for declared levels and categories the line determines the record |
| `BufferedSinkObject.BufferedSink.CurrentThreadShard` | include/vosp/logger.hpp:984-1015 | the cached, the registered or a new shard: always the only one of this sink for the thread, and a new one only if there was none |
| `BufferedSinkObject.BufferedSink.Write` | include/vosp/logger.hpp:917-934 | appends the line to this thread's buffer only; at the threshold the whole buffer goes out; buffers stay below the threshold |
| `BufferedSinkObject.BufferedSink.Flush` | include/vosp/logger.hpp:940-962 | all buffers are written in registration order and empty afterwards; true exactly if the stream is healthy |
| `BufferedSinkObject.RunImmediate` | include/vosp/logger.hpp:825-841 | one producer through the immediate sink puts the concatenated lines on the stream |
| `BufferedSinkObject.RunBuffered` | include/vosp/logger.hpp:917-962 | one producer through a flushed buffered sink puts identical bytes on the stream, whatever the threshold and wherever the stream fails |
| `BufferedSafety.StepKeeps` | include/vosp/logger.hpp:917-1030 | every step of every thread (append one part, write one chunk, clear, take or drop one lock) keeps the invariant: what is inside a critical section belongs to its lock's holder |
| `BufferedSafety.SectionsExclude` | include/vosp/logger.hpp:917-1030 | no two threads are inside the critical sections of one shard, or of the stream |
| `BufferedSafety.StreamIsWholeLines` | include/vosp/logger.hpp:1017-1030 | in every interleaving the healthy stream is whole lines and at most the start of the one buffer being written by the holder of the output lock; a failed stream is a prefix of that |
| `BufferedSafety.NothingIsLost` | include/vosp/logger.hpp:917-962 | per thread the lines that left its buffer, followed by those in it, are all it wrote, in order; a buffer is whole lines and at most the first parts of the record its lock's holder is appending; unlocked buffers are below the threshold |
| `BufferedSafety.FlushDelivers` | include/vosp/logger.hpp:940-962 | a flush that returns true has output every record whose write had returned when it began |
| `BufferedSafety.ThreadsAreNeverStuck` | include/vosp/logger.hpp:917-1030 | taking the output lock while holding a shard's never deadlocks: while a thread cannot step another one can |
| `BufferedCalls.WriteKeepsItsWord` | include/vosp/logger.hpp:917-934 | a call of `write` that has returned has appended the line of its own record behind all its thread wrote before, and nothing else |
| `BufferedCalls.FlushKeepsItsWord` | include/vosp/logger.hpp:940-962 | a `flush` that reports success has put on the stream, for every thread, all lines written by calls that had returned when it was called; one that reports failure has seen the stream fail |
| `BufferedCalls.FlushDoesNotReturnEarly` | include/vosp/logger.hpp:940-962 | the same holds of every call of `flush` that has returned |
| `BufferedCalls.ReturnsAreCounted` | include/vosp/logger.hpp:917-934 | outside its calls a thread has as many lines appended as writes returned |
| `BufferedRuns.CacheMayBeTrusted` | include/vosp/logger.hpp:984-991 | what the sink's methods require of the caller's cache holds after any history of sinks and threads |
| `BufferedRuns.WriteRuns` | include/vosp/logger.hpp:917-934 | a write of the class takes the object along a run of the concurrent sink by that thread |
| `BufferedRuns.FlushRuns` | include/vosp/logger.hpp:940-962 | so does a flush, with the same result |
| `ShardCache.LookupIsExact` | include/vosp/logger.hpp:984-1015 | after any history of sinks and threads a lookup returns the one shard of this sink for this thread, as an uncached search would |
| `ShardCache.DistinctCallersDistinctShards` | include/vosp/logger.hpp:993-1012 | two lookups return the same shard exactly if sink and thread are the same |
| `ShardCache.DeadEntriesNeverMatch` | include/vosp/logger.hpp:1038 | no sink alive after a destruction has the destroyed sink's id, even at the same address, so a stale cache entry never matches |
| `ShardCache.ShardIsStable` | include/vosp/logger.hpp:984-1015 | as long as a sink lives a thread id is always given the same shard of it |
| `Register.AddOutcome` | include/vosp/error.hpp:318-359 | an addition succeeds exactly for a new code of the right category while there is room, adds exactly that error, and otherwise changes nothing and reports which of the three reasons it was |
| `Register.RemoveOutcome` | include/vosp/error.hpp:362-388 | a removal succeeds exactly for an equal stored error, removes exactly it, and otherwise changes nothing and reports which of the two reasons it was |
| `Register.AddThenRemove` | include/vosp/error.hpp:318-388 | removing what was just added restores the register |
| `Register.RemoveThenAdd` | include/vosp/error.hpp:318-388 | adding back what was just removed restores the register |
| `Register.PerformKeepsSound` | include/vosp/error.hpp:280-283 | a register never exceeds its capacity and holds only errors of its category under their own codes |
| `Register.DecideThenApply` | include/vosp/error.hpp:318-388 | reading, with the full check first, and then changing is the operation when nothing comes between |
| `Register.ErrorRegister.AddError` | include/vosp/error.hpp:318-359 | the method performs the specified operation and returns its result |
| `Register.ErrorRegister.Snapshot` | include/vosp/error.hpp:436-446 | the snapshot holds every stored error exactly once |
| `Routing.Handler.Dispatch` | include/vosp/error.hpp:520-546 | only the first register of the category performs the operation; without one nothing changes; on different registers it is the routed operation on their contents |
| `Routing.MissingRegisterIsReported` | include/vosp/error.hpp:535-546 | the failure for a missing register is given exactly if no register has the category, names that category, and changes nothing |
| `Routing.DispatchTouchesOne` | include/vosp/error.hpp:520-546 | a routed operation leaves every other register as it was and keeps all registers sound |
| `Routing.DispatchCommutes` | include/vosp/error.hpp:530-534 | operations routed to different registers commute, results included |
| `Routing.RegistersAreIndependent` | include/vosp/error.hpp:566-574 | each register ends up where its own operations alone, in their order, take it |
| `Routing.PerRegisterOrderDecides` | include/vosp/error.hpp:566-574 | two histories that agree per register agree altogether |
| `Routing.ResultIsLocal` | include/vosp/error.hpp:520-546 | the result of an operation depends only on the earlier operations of its register |
| `LockedHandler.StepKeeps` | include/vosp/error.hpp:520-546 | every step of every caller (take a lock, read, change, drop it) keeps the invariant: each register holds what its lock order makes of its initial contents, but for the holder's unfinished operation |
| `LockedHandler.RegistersFollowLocks` | include/vosp/error.hpp:530-534 | at most one caller is inside a register, and one nobody is inside has performed exactly its log in lock order |
| `LockedHandler.RegistersStaySound` | include/vosp/error.hpp:280-283 | also in the middle of operations no register exceeds its capacity or holds an error of another category or under another code |
| `LockedHandler.DifferentRegistersOverlap` | include/vosp/error.hpp:566-574 | steps of callers at different registers stay enabled and end in the same state in either order |
| `LockedHandler.BothInside` | include/vosp/error.hpp:566-574 | two callers can be inside different registers at the same time |
| `LockedHandler.HolderProceeds` | include/vosp/error.hpp:530-534 | whoever waits for a lock waits for a caller that can proceed |
| `LockedHandler.LockOrdersDecide` | include/vosp/error.hpp:566-574 | when nobody is inside, any global order that agrees with the lock orders gives the same registers |
| `LockedHandler.WithoutLocksBothSucceed` | include/vosp/error.hpp:535-538 | without the lock two additions of one code can both succeed, which no serial order allows |
| `AsyncSystem.SysRunKeeps` | include/vosp/error.hpp:734-742 | every run of pool and handler together keeps the invariant that ties workers, places in lock orders, futures and registers together |
| `AsyncSystem.RegistersFollowLocks` | include/vosp/error.hpp:734-742 | in every reachable state a register whose lock is free holds what the operations that took its lock, in that order and alone, make of its initial contents; all registers are sound |
| `AsyncSystem.FutureMeansResult` | include/vosp/error.hpp:734-742 | a finished operation's future holds the answer that its place in its register's lock order gives; a cancelled one has no place and no answer |
| `AsyncSystem.OrderPerRegisterDecides` | include/vosp/error.hpp:566-574 | two drained runs with the same lock order at each register end in the same registers, which any global order agreeing with them gives |
| `AsyncSystem.DrainedMeansApplied` | include/vosp/error.hpp:734-742 | after a drain every register is its lock order's result, no operation has two places, and exactly the operations not cancelled are answered |

## Left out

- Memory ordering: atomic operations are sequentially consistent steps; the relaxed, acquire and release orders of the code are not modelled.
- Wake-up liveness of producers and workers on the state word: their waits are guards that may be rechecked at any time, because one `notify_one` serves two kinds of waiters. The waits on the epoch and on the logger's condition variables are modelled with their wake-ups.
- Fairness of the scheduler: progress is stated as "a step is enabled and steps are bounded".
- A final load and the release of a lock that follows it are one step; the two locks of a cancellation are acquired together, as `scoped_lock` does without deadlock.
- A callback of the pool runs as one step with an arbitrary outcome; stop tokens and the delivery of `request_stop` are not modelled.
- Shutdown from inside a worker, and callbacks that call their own pool and block on it. Other callbacks that submit, cancel or stop are covered as client threads.
- `shutdown_mutex_` of the pool and the swap of its worker list: a joining shutdown is a step that waits until every worker has exited.
- The pool constructor's choice of hardware concurrency and its clean-up when a thread cannot be started.
- The completion epoch and all counters are unbounded, so 2^64 notifications are not modelled.
- The methods of `WorkerPool.Pool` run one critical section at a time; the interleaving of their single steps is what `PoolMachine` covers.
- `LockedHandler`: reading a register is one step and changing it another; the steps inside a hash map operation are not modelled, nor is the register's own mutex, which the handler's lock makes redundant. Routing reads only categories, which never change, and is one step.
- `AsyncLogger`: a critical section of the logger's mutex is one step, and so is one delivery to the backend; attaching and detaching by other threads inside a delivery is part of the reaction of the callback running then, and `flush` or `shutdown` called from a sink is not modelled.
- `SinkList.Logger.WriteEntry`: a callback that itself publishes through the same logger is not modelled, nor is the recursive callback mutex, which only serializes callbacks.
- `BufferedMachine`: finding or adding a shard is one step, and so is counting the shards for a flush, because both are done under the registry lock alone.
- Streams are an append-only byte sequence that accepts some number of bytes and then fails for good, or fails at a flush; stream exceptions are not modelled.
- `ShardCache`: instance ids are unbounded, and an allocation failure while a shard is added is not modelled.
- Timestamps and thread ids of log entries, which no text sink prints, and `write` versus `write_owned`, which differ only in copying.
- `attempt` and `capture`, formatter parsing, hashing, the predefined errors and version constants, compatibility aliases and template selection: single-branch facts.
- Benchmarks, comparison scripts, the fuzz driver, presentation files and build files: tooling.
