# Verification of the runtime's lock and atomic protocols

Dafny models of the multi-threaded scheduler, the task header, the thread parkers,
`block_on`, the timer driver and the thread-local context of the runtime, with proofs of
what they keep over every run. `dafny verify dfyconfig.toml` checks everything.

## What is modelled

**The scheduler** (`src/runtime/scheduler/multi_thread.rs`, `src/runtime/handle.rs`). Any
number n >= 1 of workers run the loop of `WorkerThread::run`; any number of client threads
spawn, wake, help out from `block_on` and `process_some_tasks`; one thread shuts down. Each
step is one lock operation, atomic access, queue operation or condition-variable operation.
`Runs` has what all the machines below share: runs, reachability, induction over runs.
`SchedulerModel` defines the machine: `WorkerApply` for lines 341-381 and 393-409,
`CallApply` for `notify_worker` (35-54), `ClientApply` for `steal_work` (252-265) and task
running, `BossApply` for `shutdown` (285-304). `notify_one` wakes any waiting worker, waits
end spuriously at any time, a running task pushes and notifies as often as it likes.
`SchedulerInvariant` holds the invariant (who holds which lock, how many workers count as
active, where every task is, how many wake-ups are in flight), `SchedulerPreservation` its
preservation step by step, `SchedulerTheorems`, `SchedulerLosses`, `SchedulerShutdown`
and `SchedulerReturn` the results, and `SchedulerAlone` what each operation does from call to
return when its thread runs undisturbed, as one change of the state.
`SchedulerThreads` and `SchedulerCallers` are the code in its own form: shared fields
changed in place, the loops, and between any two accesses any number of steps of all other
threads. Each access is proved to be the machine's step, so every execution of these
methods is a run of the machine.

**The task header** (`src/task/raw.rs`, `src/task/waker.rs`, `src/task/mod.safe.rs`).
`TaskWord` has the packed 64-bit word with the source's bit operations, the record it
decodes to, and the proof that each operation on the word is one on the record.
`TaskModel` is the protocol on the record for any number of wakers, pollers and aborters
and one join handle, with the number of run-queue entries the task has: one from its spawn,
one more for each call of the scheduler by a wake, one less for each poll and for each drop
by a worker's re-check. (A wake outside any runtime polls on the spot, mod.safe.rs:167-169:
an entry that is taken at once.) Wakers are clones of the waker each poll makes for itself,
which the future is lent during the poll; a wake needs one of these. `TaskInvariant` and
`TaskTheorems` are its proofs, `TaskLiveness` says what can still happen to a task and exactly
when, `TaskHandle` what the receivers of the join handle's methods add and what its drop
does, `TaskOutputs` where the answers come from, `TaskAlone` what each operation does
undisturbed, `TaskRuns` has the concrete runs. `TaskThreads` is the header with the packed word, changed in place, and the
wake loops, proved to refine it.

**The parkers** (`ThreadPark` in `src/runtime/park.rs`, `ThreadParker` in
`src/runtime/scheduler/current_thread.rs`): one machine for both in `ParkModel`, results in
`ParkTheorems`, what the argument of a call decides and what park and unpark do undisturbed
in `ParkAlone`, the code in place in `ParkThreads`. **`block_on`** with `BlockOnParker`:
`BlockOn`. **Timers**: `Timers`. **Round robin** of `notify_worker`: `RoundRobin`.
**Context guards**: `Context`.

## Assumptions

- Atomics are sequentially consistent.
- The injector is an atomic FIFO whose `steal` gives the oldest task or nothing.
- `BinaryHeap` does what its documentation says: peek and pop give an entry no other
  exceeds. Which of several equal entries comes first stays open.
- Clock readings are parameters, durations are integers in one unit.
- `usize` has 64 bits.
- `ThreadPark` always waits with a time-out, as its `park` does (park.rs:57-59).
- The task machine lets aborts overlap polls of the join handle; the handle is not cloned,
  `abort` borrows it and `poll` borrows it exclusively (mod.safe.rs:36, 56), so they do not,
  and `TaskHandle` and all concrete runs are about the machine without such overlaps.
- Borrows of wakers are not tracked: a waker may be dropped while a wake by reference through
  it is under way, which adds runs and takes none away.
- A machine has at least one place for a wake and one for a poll where a result needs them.
- Futures are ready or pending as they like at each poll, and outputs are opaque values.
- A method with loops over shared state takes a bound on its turns, and reports when that
  bound, or a blocked thread, ends the schedule; the bound is arbitrary.

## Where the code does not do what one would expect

Whatever goes wrong here has a concrete run of the code and the exact condition.

- A spawned task may never run: the two re-checks around the sleep pop a task and drop it
  (`TaskCanBeLost`), and until shutdown every return of a worker from there costs one
  (`EachReturnDropsOne`, `AllRanIffNobodyReturned`).
- `shutdown` may never return: it holds `unparkers` across the joins, and a task that has
  pushed needs that lock (`ShutdownCanHang`, `ShutdownReturnsIff`, `QuietIffNoPush`).
- A task is queued at most twice in its life, so a future that is pending at both polls is
  never polled again (`PendingTwiceIsStuck`, `PolledAtMostTwice`, `EnteredAgainIff`).
- `JoinHandle::abort` is documented to prevent the task from executing further, and the
  test `test_task_abort` expects it; a task that is still queued runs
  (`AbortedTaskStillRuns`, `AbortStopsIff`).
- `set_join_waker` is commented to return true if the task is complete; its mask matches
  every phase but idle, so a join poll of a scheduled task calls itself until the task is
  done (`JoinPollCanSpin`, `CompleteAnswerSpins`).
- A join handle may never be woken by a completion (`JoinWakeCanBeLost`,
  `WokenByThoseUnderWayIff`, `JoinerCanWakeIff`); an abort always wakes it
  (`AbortReachesJoiner`).
- `AlreadyTaken` is documented to mean that another handle took the output; no poll of the
  handle ever says it (`AbortReachesJoiner`).
- Each poll drops two references and takes none, where the comment says it was holding one,
  and a wake by value drops none: a first poll wraps the count, and a task is given back
  under live wakers, or never, or by chance in time (`FirstPollWraps`, `FreedWithCloneAlive`,
  `NeverFreed`, `FreedInTime`). `HeldAtDeallocation`, `DeallocatesInTimeIff` and
  `WithoutConsumptionTooEarly` say exactly when.
- An unpark that falls between the store of PARKED and the wait does not wake, and later
  ones do not either (`ParkCanBeStranded`, `UnparksCanWakeIff`). `ThreadPark` gets out
  by its time-out.
- A time-out of `ThreadParker` can overwrite a notification that comes between its load and
  its store (`NotificationVanishes`), but only then (`TimeOutBranchOnlyAfterTimeOut`,
  `NothingLostWithoutTimeOut`).
- A park with an overdue timer ignores the timer (`OverdueTimerIsIgnored`, `OvershootsIff`).

## Model

| member | source | states |
|---|---|---|
| `SchedulerTheorems.NoLostWakeup` | src/runtime/scheduler/multi_thread.rs:341-381 | With any number of workers and pushers, in every reachable state that is not shutting down and has a task queued, some pusher still owes its `notify_one` or some worker is neither waiting nor committed to it |
| `SchedulerTheorems.QueueCoveredByWakeups` | src/runtime/scheduler/multi_thread.rs:35-40 | The quantitative form: as long as any worker sleeps, the queue is no longer than the notifies still to come plus the workers awake |
| `SchedulerTheorems.OneFifo` | src/runtime/scheduler/multi_thread.rs:252-265 | Tasks leave the injector in push order whoever takes them, and the workers' own queues are empty in every reachable state, so the scheduler is one FIFO |
| `SchedulerTheorems.TasksConserved` | src/runtime/scheduler/multi_thread.rs:341-378 | Every pushed task is queued, in somebody's hands, run or discarded, each exactly as often as it was pushed |
| `SchedulerLosses.DiscardsOnlyInRechecks` | src/runtime/scheduler/multi_thread.rs:365-377 | A step loses a task if and only if it is one of the two looks at the injector around the sleep and finds it non-empty; then it loses the oldest |
| `SchedulerLosses.DeparturesCostTasks` | src/runtime/scheduler/multi_thread.rs:361-380 | In every run, tasks dropped plus departures from the sleep section for the shutdown flag equal the departures, counting those under way |
| `SchedulerLosses.EachReturnDropsOne` | src/runtime/scheduler/multi_thread.rs:365-380 | Until the flag is set, the number of tasks dropped is the number of times a worker came out of the sleep section or is about to: each return costs exactly one task |
| `SchedulerLosses.AllRanIffNobodyReturned` | src/runtime/scheduler/multi_thread.rs:341-381 | A runtime not shut down with nothing queued or in hand has run all tasks pushed if and only if no worker ever came out of the sleep section or is about to |
| `SchedulerLosses.FirstTaskIsDropped` | src/runtime/scheduler/multi_thread.rs:370-380 | Until shutdown, a worker in its waiting loop stays in it, taking nothing, until it drops a task: the first one it dequeues is dropped |
| `SchedulerLosses.AtRestTheFirstIsDropped` | src/runtime/scheduler/multi_thread.rs:365-380 | In a runtime at rest no more workers come up than tasks are dropped, and until the first is dropped no worker has taken any |
| `SchedulerLosses.TaskCanBeLost` | src/runtime/scheduler/multi_thread.rs:361-368 | A run of the code in which the only task spawned is dropped by a re-check |
| `SchedulerAlone.WorkerTakesOldest` | src/runtime/scheduler/multi_thread.rs:341-358 | Left alone, a worker at the head of its loop that finds a task queued ends up running the oldest, and nothing else changes |
| `SchedulerAlone.IdleWorkerSleeps` | src/runtime/scheduler/multi_thread.rs:360-374 | Left alone, one that finds nothing ends up waiting, the mutex free, and not counted active |
| `SchedulerAlone.WokenWorkerDrops` | src/runtime/scheduler/multi_thread.rs:370-380 | Left alone, a woken worker that finds a task drops the oldest and is back at the head of the loop, active again |
| `SchedulerAlone.WokenWorkerSleepsOn` | src/runtime/scheduler/multi_thread.rs:370-374 | Left alone, a woken worker that finds nothing waits again, and nothing else changes |
| `SchedulerAlone.StoppedWorkerExits` | src/runtime/scheduler/multi_thread.rs:370-381 | Left alone, a worker woken for shutdown with nothing queued exits, active again |
| `SchedulerAlone.TaskReturns` | src/runtime/scheduler/multi_thread.rs:343-346 | A task that returns has run, and its worker is back at the head of the loop |
| `SchedulerAlone.SpawnAlone` | src/runtime/scheduler/multi_thread.rs:267-279 | A spawn left alone, from outside or from within a task a client helps with, puts the task at the end of the queue, wakes one waiting worker if there is one, and adds one to LAST_NOTIFIED |
| `SchedulerAlone.TaskSpawnAlone` | src/runtime/scheduler/multi_thread.rs:35-54 | So does a spawn by a task on its worker, which goes on running |
| `SchedulerAlone.HelpAlone` | src/runtime/handle.rs:250-259 | A turn of process_some_tasks left alone runs the oldest task queued |
| `SchedulerAlone.StealWorkAlone` | src/runtime/scheduler/multi_thread.rs:252-265 | block_on's steal_work left alone hands over the oldest task queued, or nothing exactly if there is none |
| `SchedulerAlone.ClientLook` | src/runtime/scheduler/multi_thread.rs:263-264 | Any step of steal_work at the injector, in any state, takes its head, or nothing exactly if it is empty |
| `SchedulerAlone.OwnQueueFirst` | src/runtime/scheduler/multi_thread.rs:343-346 | Were there a task in the worker's own queue, the worker would run the oldest of it first |
| `SchedulerAlone.OwnQueueDropped` | src/runtime/scheduler/multi_thread.rs:374-380 | Were there one when it is woken, it would drop the oldest of it |
| `SchedulerAlone.ScanTakesFirst` | src/runtime/scheduler/multi_thread.rs:393-409 | Were there tasks in other workers' queues, the scan would run the oldest of the first non-empty one in the order of its probes, and release `stealers` |
| `SchedulerAlone.BlockScanTakesFirst` | src/runtime/scheduler/multi_thread.rs:252-262 | Likewise block_on's scan, which goes through all queues from the first |
| `SchedulerAlone.ShutdownAlone` | src/runtime/scheduler/multi_thread.rs:285-294 | Shutdown left alone sets the flag, wakes everybody waiting and comes to its joins holding `unparkers` |
| `SchedulerAlone.JoinsAlone` | src/runtime/scheduler/multi_thread.rs:295-304 | With every worker gone the joins return and `unparkers` is free |
| `SchedulerAlone.LastNotifiedCounts` | src/runtime/scheduler/multi_thread.rs:44-53 | After every run LAST_NOTIFIED is what it was at the beginning plus the number of selections made by workers and clients, modulo 2^64 |
| `SchedulerTheorems.ActiveCount` | src/runtime/scheduler/multi_thread.rs:361-380 | `active` is the number of workers not between their fetch_sub and fetch_add; it never underflows, never exceeds n, and is n when shutdown is over |
| `SchedulerTheorems.ScanCoversOthers` | src/runtime/scheduler/multi_thread.rs:397-406 | The offsets of `steal_work` probe every other worker's queue exactly once and never the worker's own |
| `SchedulerPreservation.StepLocks` | src/runtime/scheduler/multi_thread.rs:35-54 | Every step of every thread keeps each of the three locks with the thread whose program counter says it holds it |
| `SchedulerPreservation.StepStop` | src/runtime/scheduler/multi_thread.rs:285-304 | Every step keeps: nobody is waiting, or about to wait, once the broadcast has run; joined workers have exited |
| `SchedulerPreservation.StepActive` | src/runtime/scheduler/multi_thread.rs:361-380 | Every step keeps the account of active workers |
| `SchedulerPreservation.StepFifo` | src/runtime/scheduler/multi_thread.rs:252-265 | Every step keeps pushed = taken followed by queued |
| `SchedulerPreservation.StepFate` | src/runtime/scheduler/multi_thread.rs:341-378 | Every step keeps the account of where the taken tasks are |
| `SchedulerPreservation.StepWake` | src/runtime/scheduler/multi_thread.rs:361-378 | Every step keeps the queue covered by wake-ups still to come |
| `SchedulerPreservation.ReachableInv` | src/runtime/scheduler/multi_thread.rs:109-165 | All of it holds in every reachable state of `MultiThread` with any number of workers and clients |
| `SchedulerShutdown.NobodyWaitsAgain` | src/runtime/scheduler/multi_thread.rs:287-293 | After the broadcast of shutdown no worker is in `wait` or about to enter it, in any continuation |
| `SchedulerShutdown.WorkerStepsBounded` | src/runtime/scheduler/multi_thread.rs:341-381 | Once the flag is set, the steps the workers take in any run are bounded by a rank of their program counters plus six for each push by a task they run |
| `SchedulerShutdown.WorkLeftBounded` | src/runtime/scheduler/multi_thread.rs:400-406 | That rank is at most n(n + 12) |
| `SchedulerShutdown.HolderCanStep` | src/runtime/scheduler/multi_thread.rs:252-265 | While shutdown joins and no worker is inside notify_worker, whoever holds the mutex or `stealers` can take its next step |
| `SchedulerShutdown.NeverStuck` | src/runtime/scheduler/multi_thread.rs:341-381 | While shutdown joins, no worker is inside notify_worker and one has not exited, some worker or a client holding a lock can step and brings the end nearer |
| `SchedulerShutdown.CaughtForever` | src/runtime/scheduler/multi_thread.rs:295-304 | A worker whose task is inside notify_worker short of the `unparkers` lock when the joins begin never gets out |
| `SchedulerShutdown.QuietIffNoPush` | src/runtime/scheduler/multi_thread.rs:35-43 | From joins begun with no worker inside notify_worker, at the end of every run still joining none is, if and only if no task a worker ran has pushed since |
| `SchedulerShutdown.PushHangsJoins` | src/runtime/scheduler/multi_thread.rs:295-304 | One push by a task a worker runs during the joins, at whatever point, and they can no longer return |
| `SchedulerShutdown.JoinsReturnUnlessPush` | src/runtime/scheduler/multi_thread.rs:285-304 | In every run of the joins without such a push the workers take at most n(n + 12) steps, and wherever it stops either all have exited or somebody can bring that nearer |
| `SchedulerReturn.ShutdownReturnsIff` | src/runtime/scheduler/multi_thread.rs:285-304 | From any reachable state in which shutdown is not over, a run in which it returns exists if and only if its caller does not hold `unparkers` yet or no worker is inside notify_worker |
| `SchedulerReturn.HolderNearer` | src/runtime/scheduler/multi_thread.rs:35-54 | With the flag set, whoever holds a lock, but for the caller of shutdown, can step, and brings the end nearer |
| `SchedulerShutdown.ShutdownCanHang` | src/runtime/scheduler/multi_thread.rs:295-304 | A run of the code in which shutdown never returns: a task pushes and then waits for the lock held across the joins |
| `SchedulerThreads.Shared.constructor` | src/runtime/scheduler/multi_thread.rs:110-165 | n workers at the head of their loops, all queues empty, `active` equal to n |
| `SchedulerThreads.Shared.LoadShutdown` | src/runtime/scheduler/multi_thread.rs:341-341 | The outer or inner loop test, in place, is the machine's step |
| `SchedulerThreads.Shared.Pop` | src/runtime/scheduler/multi_thread.rs:343-346 | Popping the worker's own queue: run the task, or in a re-check drop it |
| `SchedulerThreads.Shared.StealGlobal` | src/runtime/scheduler/multi_thread.rs:355-358 | Stealing from the injector: the oldest task is run, or in a re-check dropped |
| `SchedulerThreads.Shared.Probe` | src/runtime/scheduler/multi_thread.rs:400-406 | One probe of the scan |
| `SchedulerThreads.Shared.LockMutex` | src/runtime/scheduler/multi_thread.rs:361-361 | Locking the mutex, or re-locking it on the way out of `wait`; refused exactly while it is held |
| `SchedulerThreads.Shared.BeginWait` | src/runtime/scheduler/multi_thread.rs:372-372 | `wait` gives up the mutex and joins the condition variable's queue in one step |
| `SchedulerThreads.Shared.Others` | src/runtime/scheduler/multi_thread.rs:341-381 | Whatever other threads do between two accesses of a worker, the run stays a run and the worker moves at most from waiting to woken |
| `SchedulerThreads.Shared.StealWork` | src/runtime/scheduler/multi_thread.rs:393-409 | The scan of the other queues, as a loop: it never finds a task and ends having released `stealers` |
| `SchedulerThreads.Shared.FindWork` | src/runtime/scheduler/multi_thread.rs:342-358 | Own queue, other queues, injector: a task to run, the oldest there was, or with the injector empty on to the mutex |
| `SchedulerThreads.Shared.Recheck` | src/runtime/scheduler/multi_thread.rs:365-365 | The re-check: true exactly if it took (and dropped) a task, false only with the injector empty |
| `SchedulerThreads.Shared.RunTask` | src/runtime/scheduler/multi_thread.rs:343-346 | Running a task that pushes and notifies any number of times before it returns |
| `SchedulerThreads.Shared.WaitForWork` | src/runtime/scheduler/multi_thread.rs:370-378 | The waiting loop: left only with the flag set or a task taken |
| `SchedulerThreads.Shared.Sleep` | src/runtime/scheduler/multi_thread.rs:360-380 | From the mutex to the head of the loop again, with the count restored and the mutex released |
| `SchedulerThreads.Shared.Run` | src/runtime/scheduler/multi_thread.rs:341-381 | The worker loop, with arbitrary interference between any two accesses, is a run of the machine; it exits only if the flag is set |
| `SchedulerCallers.MultiThread.NotifyAccess` | src/runtime/scheduler/multi_thread.rs:35-54 | Each access of notify_worker in place is the machine's step |
| `SchedulerCallers.MultiThread.StealAccess` | src/runtime/scheduler/multi_thread.rs:252-265 | Each access of block_on's steal_work in place is the machine's step; the look at the injector takes its head, or nothing exactly if it is empty |
| `SchedulerCallers.MultiThread.StopAccess` | src/runtime/scheduler/multi_thread.rs:285-304 | Each access of shutdown in place is the machine's step |
| `SchedulerCallers.MultiThread.NotifyWorker` | src/runtime/scheduler/multi_thread.rs:35-54 | notify_worker takes nothing back and leaves its thread where it was |
| `SchedulerCallers.MultiThread.Spawn` | src/runtime/scheduler/multi_thread.rs:267-279 | spawn pushes its task before it notifies: the task is in the queue's history even if the notify never ends |
| `SchedulerCallers.MultiThread.StealWork` | src/runtime/scheduler/multi_thread.rs:252-265 | The stealing thread ends up with exactly the task it dequeued, holding no lock; with none, the injector was empty when it looked, otherwise it got the oldest |
| `SchedulerCallers.MultiThread.Grab` | src/runtime/handle.rs:253-256 | A steal outside any lock; none only if the injector is empty |
| `SchedulerCallers.MultiThread.ProcessSomeTasks` | src/runtime/handle.rs:250-259 | At most ten tasks, fewer only if the injector was found empty |
| `SchedulerCallers.MultiThread.StopWaiting` | src/runtime/scheduler/multi_thread.rs:286-293 | After flag and broadcast nobody waits |
| `SchedulerCallers.MultiThread.Shutdown` | src/runtime/scheduler/multi_thread.rs:287-304 | When shutdown returns, every worker has exited and `active` is n |
| `TaskWord.DecodeInjective` | src/task/raw.rs:15-20 | Equal records come from equal words, so a compare-exchange on the word is one on the record |
| `TaskWord.PartsRecombine` | src/task/raw.rs:156-197 | Phase, flags, count and the bits above it do not overlap and together are the word |
| `TaskWord.FetchAddRef` | src/task/raw.rs:340-343 | fetch_add(1 << 16) adds one to the count modulo 2^16, carries into the unnamed high bits, and changes nothing else |
| `TaskWord.FetchSubRef` | src/task/raw.rs:395-398 | fetch_sub(1 << 16) undoes that, borrowing likewise |
| `TaskWord.AddingKeepsLowBits` | src/task/waker.rs:12-14 | Adding to the count never disturbs phase and flags, also when it wraps |
| `TaskWord.SubtractingKeepsLowBits` | src/task/waker.rs:117-119 | Nor does subtracting |
| `TaskWord.FetchOrComplete` | src/task/raw.rs:255-257 | fetch_or(COMPLETE) sets the phase to complete from any phase and nothing else |
| `TaskWord.FetchOrAborted` | src/task/raw.rs:523-525 | fetch_or(ABORTED) sets the flag and nothing else |
| `TaskWord.FetchOrJoin` | src/task/raw.rs:489-491 | fetch_or(JOIN_INTEREST) sets the flag and nothing else |
| `TaskWord.FetchAndNotJoin` | src/task/mod.safe.rs:100-103 | fetch_and(!JOIN_INTEREST) clears the flag and nothing else |
| `TaskWord.MaskedSchedule` | src/task/waker.rs:43-44 | Masking the phase out and setting SCHEDULED makes the phase scheduled and nothing else |
| `TaskWord.TwoWaysToSchedule` | src/task/raw.rs:371-371 | `with_flag(SCHEDULED)` gives the same word as the masked form if and only if the task is idle or scheduled |
| `TaskWord.SetSchedule` | src/task/raw.rs:371-371 | On the idle word the loop loads, it makes the phase scheduled and nothing else |
| `TaskWord.Tests` | src/task/raw.rs:169-191 | Every test on the word is the test on the record; the mask COMPLETE asks for not idle |
| `TaskWord.SettingKeepsRest` | src/task/raw.rs:199-203 | Setting a flag touches neither phase nor count |
| `TaskWord.ClearingKeepsRest` | src/task/raw.rs:205-209 | Clearing a flag touches neither phase nor count |
| `TaskWord.FlagRoundTrip` | src/task/raw.rs:199-209 | `without_flag` undoes `with_flag` if and only if the flag was not set before |
| `TaskWord.WithRefcountOnRecord` | src/task/raw.rs:193-197 | On the record, `with_refcount(r)` sets the count to r modulo 2^16 and changes nothing else |
| `TaskWord.WithRefcountModulo` | src/task/raw.rs:193-197 | `with_refcount(r).refcount()` is r modulo 2^16, and installing a word's own count changes nothing |
| `TaskWord.WithRefcountKeepsLow` | src/task/raw.rs:193-197 | `with_refcount` keeps phase and flags |
| `TaskWord.WithRefcountKeepsHigh` | src/task/raw.rs:193-197 | `with_refcount` keeps the bits above the count |
| `TaskWord.Fresh` | src/task/raw.rs:452-452 | A new header decodes to idle with one reference |
| `TaskTheorems.OnlyForward` | src/task/raw.rs:352-390 | In any run the phase moves only idle to scheduled to complete or idle to complete, ABORTED is never cleared, and after either no further scheduling transition happens |
| `TaskTheorems.WakeStormCollapses` | src/task/waker.rs:19-111 | However many wakers run, with spurious failures, the scheduler is called by them exactly once per move from idle to scheduled, which is at most once in a task's life |
| `TaskTheorems.LateWakeIsSilent` | src/task/waker.rs:27-30 | A wake that starts after the task is complete or aborted never gets as far as a compare-exchange |
| `TaskTheorems.CompleteMeansWritten` | src/task/raw.rs:249-257 | A complete task has an output some poll wrote |
| `TaskOutputs.OutputsAreReturned` | src/task/raw.rs:249-252 | In every run, what a poll is about to write, what the output slot holds and what the handle answers was returned by future.poll at an earlier action of the run |
| `TaskTheorems.JoinResultSound` | src/task/mod.safe.rs:53-86 | Ok carries a written value of a complete task, an error means the abort flag is set; a poll begun after the abort gives Err(Aborted) or has not ended, one begun after the task left idle never gives Pending |
| `TaskTheorems.JoinStepOutcome` | src/task/raw.rs:501-516 | Output is read only after a load that saw complete without aborted; AlreadyTaken is returned exactly when the abort flag appeared between the join poll's two loads |
| `TaskTheorems.CompleteAnswerSpins` | src/task/raw.rs:485-498 | Told complete of a merely scheduled task, the join poll calls itself again and again, exactly as long as the task is neither complete nor aborted |
| `TaskTheorems.JoinerWokenOrMissed` | src/task/raw.rs:259-264 | Even if aborts could overlap polls of the handle: after a Pending poll and completion or abort, with nobody still looking for the waker, the joiner was woken, unless the completer looked between the joiner's fetch_or and its store, or the aborter between its load and its store |
| `TaskTheorems.PollIgnoresAbort` | src/task/raw.rs:238-284 | Every step of every poll does the same with and without the abort flag |
| `TaskTheorems.PolledAtMostTwice` | src/task/waker.rs:52-57 | The spawn and at most one wake queue the task, each poll and each drop takes one entry: the future is polled at most twice in the task's life |
| `TaskTheorems.RefcountLedger` | src/task/raw.rs:266-282 | In every reachable state the count is 1 + clones + manual wakers made - wakers and manual wakers dropped - polls finished, modulo 2^16 |
| `TaskTheorems.DeallocatesOnly` | src/task/raw.rs:392-407 | A step deallocates if and only if it is a waker or manual waker going away that takes the count from one to zero with the task complete |
| `TaskTheorems.PollAloneDeallocatesIff` | src/task/raw.rs:255-282 | From its completion mark to its end a poll left alone gives up two references, and deallocates if and only if the count was two at the mark |
| `TaskTheorems.CountOfHolders` | src/task/raw.rs:266-282 | In every reachable state the count is one, plus the wakers held, plus those used up by a wake by value, less the two references of each poll, modulo 2^16 |
| `TaskTheorems.HeldAtDeallocation` | src/task/raw.rs:392-407 | Whenever the memory is given back with no poll under way, the wakers still held number twice the polls, less one, less the wakes by value, modulo 2^16 |
| `TaskTheorems.DeallocatesInTimeIff` | src/task/raw.rs:348-350 | With fewer than 2^16 wakers about, a deallocation finds no waker held and no poll under way if and only if the polls are over and the wakes by value were twice the polls less one, modulo 2^16 |
| `TaskTheorems.WithoutConsumptionTooEarly` | src/task/raw.rs:403-406 | As long as every wake is by reference, every deallocation comes while somebody holds a waker or a poll is under way |
| `TaskHandle.AbortReachesJoiner` | src/task/mod.safe.rs:36-40 | With the handle used as its receivers allow, no poll of it says AlreadyTaken, and once an abort is over a joiner told Pending was woken |
| `TaskHandle.HandlePollDecides` | src/task/mod.safe.rs:56-75 | With the handle used so, a poll says Aborted if and only if the flag was set at its beginning |
| `TaskHandle.DropOfCompleteClears` | src/task/mod.safe.rs:98-107 | After the handle of a complete task is dropped, in every run, once the drop is over the interest flag is clear and the waker slot empty, for good |
| `TaskHandle.DropOfOthersLeavesInterest` | src/task/mod.safe.rs:88-109 | Dropping the handle of any other task changes neither word nor slot, and in every run after it the interest flag stays as it was |
| `TaskAlone.PendingPollAlone` | src/task/raw.rs:238-282 | A poll that finds the future pending, left alone, takes a queue entry and two references and changes nothing else |
| `TaskAlone.ReadyPollAlone` | src/task/raw.rs:249-282 | One that finds it ready with v stores v, completes the task, wakes and removes the join waker if interest is set, and takes a queue entry and two references |
| `TaskAlone.JoinPollAlone` | src/task/mod.safe.rs:53-86 | A poll of the handle, left alone with a task that is complete, aborted or idle, answers Aborted, Ok of the output slot, or Pending, and only for Pending changes anything: interest set, waker stored |
| `TaskAlone.DropAlone` | src/task/mod.safe.rs:88-109 | The drop left alone clears interest flag and waker slot of a complete task and leaves both of any other |
| `TaskAlone.AbortAlone` | src/task/raw.rs:519-534 | An abort left alone sets the flag and, if interest is set, wakes and removes the join waker |
| `TaskAlone.WakeAlone` | src/task/raw.rs:348-390 | A wake left alone queues the task if it is idle and not aborted and otherwise does nothing to it; by value it uses up a waker besides |
| `TaskLiveness.EnteredAgainIff` | src/task/raw.rs:238-248 | The future can be polled again if and only if the task is queued, about to be queued by a winning wake, taken off a queue and not yet polled, or idle and not aborted with a waker held, lent to the future being polled, or in a wake |
| `TaskLiveness.AbortStopsIff` | src/task/raw.rs:352-368 | Once the task is aborted or complete, future.poll is entered again exactly if it is still queued, about to be queued by a wake that won before, or taken off a queue and not yet polled |
| `TaskLiveness.NeverAThirdPoll` | src/task/mod.safe.rs:188-194 | A task whose two queue entries are used up is never polled again, in any run |
| `TaskLiveness.CompletesIff` | src/task/raw.rs:249-257 | A task that is not complete can complete if and only if its future is being polled or can be polled again |
| `TaskLiveness.AbandonedForever` | src/task/raw.rs:403-406 | A task nobody refers to any more, not given back by then, is never given back |
| `TaskLiveness.WokenByThoseUnderWayIff` | src/task/raw.rs:259-264 | A Pending joiner not yet woken can be woken with no new poll or abort if and only if some poll that may complete, or some abort, has not yet looked for its waker |
| `TaskLiveness.JoinerCanWakeIff` | src/task/raw.rs:485-498 | It can be woken without a new abort if and only if that holds or the future can be polled again |
| `TaskRuns.FirstPollWraps` | src/task/raw.rs:276-282 | A run in which the first poll takes the count from one to 65535 |
| `TaskRuns.FreedWithCloneAlive` | src/task/raw.rs:392-407 | A run in which the memory is given back while one of the two clones the future made is held |
| `TaskRuns.NeverFreed` | src/task/raw.rs:255-275 | A run after which a completed task nobody refers to is not given back |
| `TaskRuns.FreedInTime` | src/task/raw.rs:348-350 | A run in which one clone is used up by a wake by value, and the memory is given back when nobody refers to the task |
| `TaskRuns.JoinWakeCanBeLost` | src/task/raw.rs:488-497 | A run in which the task completes and nothing but an abort can wake the Pending joiner |
| `TaskRuns.JoinPollCanSpin` | src/task/mod.safe.rs:77-79 | A run after which the join poll of a task still in its first poll calls itself for ever if left alone |
| `TaskRuns.AbortedTaskStillRuns` | src/task/mod.safe.rs:35-40 | A run in which a task aborted before its first poll executes and completes, against the documentation of `abort` and the test at lines 306-333 of the same file |
| `TaskRuns.PendingTwiceIsStuck` | src/task/waker.rs:19-64 | A run after which a future, pending at both its polls and holding a clone of its waker, is never polled again and the task never completes |
| `TaskRuns.PendingWithoutWaker` | src/task/raw.rs:276-282 | A run after which a pending future that kept no waker is, rightly, never polled again |
| `TaskInvariant.StepKeeps` | src/task/raw.rs:352-390 | Every step of every thread keeps the whole invariant of the header protocol |
| `TaskInvariant.StepWaker` | src/task/waker.rs:19-64 | Every step keeps: compare-exchanges are only attempted from idle unaborted words, and each success is on its way to one call of the scheduler |
| `TaskInvariant.StepJoin` | src/task/mod.safe.rs:56-85 | Every step keeps what the joiner's position and result say about the task |
| `TaskInvariant.StepRegister` | src/task/raw.rs:485-498 | Every step keeps the account of the join waker: stored, taken and woken, or missed |
| `TaskInvariant.StepAbort` | src/task/raw.rs:519-534 | Every step keeps the account of aborts against the joiner's registration |
| `TaskInvariant.StepQueue` | src/task/mod.safe.rs:188-194 | Every step keeps the account of queue entries, polls begun and calls of future.poll |
| `TaskInvariant.StepHandles` | src/task/raw.rs:337-350 | Every step keeps the account of wakers made, held, dropped and used up, and of polls and their references |
| `TaskInvariant.StepLedger` | src/task/waker.rs:189-243 | Every step keeps the reference ledger |
| `TaskThreads.Header.constructor` | src/task/raw.rs:449-462 | A new header: idle, one reference, no output, no join waker |
| `TaskThreads.Header.WakeCall` | src/task/raw.rs:348-352 | A wake begins, by reference or by value, without touching the count: the record machine's step |
| `TaskThreads.Header.WakeLoad` | src/task/waker.rs:24-40 | The load and the tests of the wake loop on the packed word are the record machine's step |
| `TaskThreads.Header.Desired` | src/task/waker.rs:42-44 | Both forms of the new word decode to the loaded record with the phase scheduled |
| `TaskThreads.Header.WakeExchange` | src/task/waker.rs:46-62 | The compare-exchange on the packed word, strong or weak, is the record machine's step |
| `TaskThreads.Header.MarkComplete` | src/task/raw.rs:255-260 | The completion mark and the interest test on the old word are the record machine's step |
| `TaskThreads.Header.PollFuture` | src/task/raw.rs:246-252 | In place, what future.poll returned is what is about to be written, and that is what the output slot gets; the record machine's step |
| `TaskThreads.Header.Release` | src/task/waker.rs:113-128 | fetch_sub and the deallocation test on the old word are the record machine's step |
| `TaskThreads.Header.AbortCheck` | src/task/raw.rs:527-533 | The abort's second load is the record machine's step |
| `TaskThreads.Header.JoinLoad` | src/task/mod.safe.rs:58-75 | The first load of the join poll and its tests are the record machine's step |
| `TaskThreads.Header.JoinRead` | src/task/raw.rs:501-516 | try_read_output's load, its two mask tests and the caller's test are the record machine's step |
| `TaskThreads.Header.JoinRegister` | src/task/raw.rs:488-491 | The fetch_or of set_join_waker is the record machine's step; the word it gives back is kept |
| `TaskThreads.Header.JoinStore` | src/task/raw.rs:493-497 | The store of the waker and the mask test on that word are the record machine's step |
| `TaskThreads.Header.DropHandle` | src/task/mod.safe.rs:88-109 | The load in the handle's drop: a complete task's interest flag and waker slot are still to be cleared, any other handle is gone at once, the word and the slot as they were |
| `TaskThreads.Header.Step` | src/task/raw.rs:238-534 | Every access of every thread to the packed header is the record machine's step |
| `TaskThreads.Header.Wake` | src/task/raw.rs:352-390 | The wake loop in either form, by reference or by value, with arbitrary interference: silent if the task was complete or aborted when it began, and if it schedules, it is the only wake that ever did |
| `TaskThreads.OneReference` | src/task/raw.rs:403-403 | The test for one reference on the word is the test on the number |
| `ParkTheorems.StepKeeps` | src/runtime/park.rs:61-110 | Every step of the parking thread and of any unparker keeps the parkers' invariant |
| `ParkTheorems.ParkedOnlyWhileCommitted` | src/runtime/park.rs:92-100 | PARKED holds only between the owner's compare-exchange and its reset; the `unreachable!()` arm is never reached |
| `ParkTheorems.LoopIsShort` | src/runtime/park.rs:64-87 | The compare-exchange loop is left after at most one more turn: consuming a seen NOTIFIED cannot fail |
| `ParkTheorems.TokensAccounted` | src/runtime/scheduler/current_thread.rs:164-221 | Unparks that found the state un-notified = returns that consumed + notifications lost under a time-out store + one if pending; ThreadPark loses none; never more than returns plus one if pending |
| `ParkTheorems.UnparkInsideWakes` | src/runtime/park.rs:103-110 | An unpark whose swap saw PARKED after the owner had the mutex has woken that park once its notify_one is done |
| `ParkTheorems.BlockedMeansMissed` | src/runtime/park.rs:78-90 | A blocked owner with NOTIFIED stored and nobody about to notify was notified between its compare-exchange and its taking the mutex |
| `ParkTheorems.StrandedForever` | src/runtime/scheduler/current_thread.rs:198-203 | Such an owner sleeps through every further unpark; only a time-out or spurious wake-up ends the wait |
| `ParkTheorems.UnparksCanWakeIff` | src/runtime/scheduler/current_thread.rs:217-226 | A blocked owner can still be woken by unparks if and only if it is not stranded so |
| `ParkTheorems.ParkCanBeStranded` | src/runtime/scheduler/current_thread.rs:189-203 | A run of the untimed `park` that is stranded by its only unpark |
| `ParkTheorems.TimedNeverStuck` | src/runtime/park.rs:89-100 | In every reachable state with a time-out pending the owner can move, or the unparker holding its mutex can |
| `ParkAlone.TimesOutIffAsked` | src/runtime/scheduler/current_thread.rs:186-203 | In every run after the call, up to its return, a waiting owner can time out if and only if the call had a time-out |
| `ParkAlone.TimedCallNeverStuck` | src/runtime/scheduler/current_thread.rs:186-203 | In every run after a call with a time-out it has returned, or can move, or waits for the mutex held by an unparker that can move |
| `ParkAlone.TimeOutBranchOnlyAfterTimeOut` | src/runtime/scheduler/current_thread.rs:191-200 | In every run after the call the owner takes itself for timed out after the wait exactly if the wait ended so, and reaches the time-out branch only if the call had a time-out and its wait ended by it |
| `ParkAlone.NothingLostWithoutTimeOut` | src/runtime/scheduler/current_thread.rs:191-200 | A call whose wait does not end by time-out loses no notification, in any run |
| `ParkAlone.PendingTokenParkAlone` | src/runtime/park.rs:64-76 | With NOTIFIED stored a park takes it and returns at once |
| `ParkAlone.TokenlessParkAlone` | src/runtime/park.rs:78-90 | Without it a park left alone ends up waiting with PARKED stored and the mutex free, and from there only a time-out that was asked for goes on |
| `ParkAlone.ReturnAlone` | src/runtime/scheduler/current_thread.rs:189-214 | After the wait either parker, left alone, takes the token if there is one and returns with EMPTY stored, timed out or not, losing nothing |
| `ParkAlone.TimedParkAlone` | src/runtime/park.rs:61-101 | A park with a time-out that nobody unparks returns, everything as before |
| `ParkAlone.UnparkAlone` | src/runtime/park.rs:103-110 | An unpark left alone leaves NOTIFIED stored, and if it found PARKED ends the wait of a waiting owner |
| `ParkAlone.NotificationVanishes` | src/runtime/scheduler/current_thread.rs:193-200 | A run in which the time-out store overwrites a notification |
| `ParkThreads.Parker.UnparkStep` | src/runtime/park.rs:103-110 | Each access of unpark in place is the machine's step |
| `ParkThreads.Parker.TryConsume` | src/runtime/park.rs:66-74 | The exchange NOTIFIED to EMPTY in place |
| `ParkThreads.Parker.TryPark` | src/runtime/park.rs:78-86 | The exchange EMPTY to PARKED in place |
| `ParkThreads.Parker.SwapEmpty` | src/runtime/park.rs:92-92 | The final swap in place |
| `ParkThreads.Parker.LoadAfterTimeOut` | src/runtime/scheduler/current_thread.rs:193-195 | The load after a time-out in place |
| `ParkThreads.Parker.StoreEmpty` | src/runtime/scheduler/current_thread.rs:197-199 | The time-out store, which may overwrite a notification |
| `ParkThreads.Parker.Announce` | src/runtime/park.rs:62-87 | The exchange loop terminates, having consumed exactly one token or stored PARKED |
| `ParkThreads.Parker.LockedWait` | src/runtime/park.rs:89-90 | Lock, wait, lock again: after the wait the owner takes itself for timed out exactly if it was |
| `ParkThreads.Parker.ParkTimeout` | src/runtime/park.rs:61-101 | park_timeout with arbitrary interference is a run of the machine, returns exactly once, and its unreachable arms are dead; left in the wait it can time out exactly if it was asked to; a notification is lost only in a call that timed out, and never by ThreadPark |
| `ParkThreads.Parker.FinishThreadParker` | src/runtime/scheduler/current_thread.rs:191-214 | The end of the other parker: time-out branch or swap; it loses nothing unless it timed out |
| `BlockOn.NeverSleepsThroughWake` | src/runtime/scheduler/multi_thread.rs:233-249 | If any wake ran since the latest poll began, a blocked block_on has its token or a waker is about to give it |
| `BlockOn.WokenOwnerPollsAgain` | src/runtime/scheduler/multi_thread.rs:182-192 | It polls again within three steps, none of them by a waker that has not yet swapped |
| `BlockOn.ParksMatchRaises` | src/runtime/scheduler/multi_thread.rs:182-192 | Returns of park plus one if the flag is set equal the unparks that raised the flag |
| `BlockOn.TokensTakenOnce` | src/runtime/scheduler/multi_thread.rs:182-192 | In every run, returns of thread::park that took a token, plus one if one is left, equal the tokens given while there was none, plus one if there was one at the beginning |
| `BlockOn.TurnAlone` | src/runtime/scheduler/multi_thread.rs:233-249 | A turn of the loop left alone: ready ends it; a task found, a task queued or the flag polls again, the flag taken down; with none of these the thread blocks, and a token left over only makes it look at the flag once more |
| `BlockOn.WakeAlone` | src/runtime/scheduler/multi_thread.rs:188-192 | A wake left alone raises the flag and gives the thread its token exactly if the flag was down |
| `BlockOn.BlockOnParker.Unpark` | src/runtime/scheduler/multi_thread.rs:188-192 | Each access of unpark in place is the machine's step |
| `BlockOn.BlockOnParker.SwapFalse` | src/runtime/scheduler/multi_thread.rs:183-183 | The swap at the head of park's loop |
| `BlockOn.BlockOnParker.ThreadPark` | src/runtime/scheduler/multi_thread.rs:184-184 | thread::park returns having taken the token, or spuriously without one, or does not return |
| `BlockOn.BlockOnParker.Park` | src/runtime/scheduler/multi_thread.rs:182-186 | Each return of park takes exactly one raise of the flag |
| `BlockOn.BlockOnParker.BlockOn` | src/runtime/scheduler/multi_thread.rs:233-249 | The loop of block_on with arbitrary wakers: it ends only when the future is ready, and does not end up blocked through a wake with nobody about to unpark it |
| `Timers.GreatestIsEarliest` | src/runtime/park.rs:419-423 | With the reversed ordering the greatest entries are exactly those with the earliest deadline |
| `Timers.TimeDriver.Schedule` | src/runtime/park.rs:550-554 | Adds the entry and nothing else |
| `Timers.TimeDriver.NextDeadline` | src/runtime/park.rs:557-559 | The least deadline, or none if there is no entry |
| `Timers.TimeDriver.Process` | src/runtime/park.rs:562-574 | Terminates, wakes exactly the due entries, each as often as it was scheduled, in order of deadline, and keeps exactly the rest |
| `Timers.Parker.ParkTimeout` | src/runtime/park.rs:450-474 | With entries, all ahead, the wait is the time-out or the way to an entry, and exceeds neither the time-out nor the way to any entry; without entries, without a driver or with an overdue entry it is the time-out, or 365 days if there is none |
| `Timers.Parker.ProcessThenPark` | src/runtime/park.rs:562-574 | A park after a drain at the same reading exceeds neither the time-out nor the time to any remaining deadline |
| `Timers.OverdueTimerIsIgnored` | src/runtime/park.rs:454-473 | A park for at most 7 at reading 5 with a timer due at 3 waits the whole 7 |
| `Timers.OvershootsIff` | src/runtime/park.rs:454-473 | A park with an overdue entry overshoots it if and only if the limit is positive |
| `RoundRobin.LastNotified.Select` | src/runtime/scheduler/multi_thread.rs:44-53 | Nothing is selected exactly if there are no unparkers; otherwise the old counter modulo their number, and the counter moves on by one |
| `RoundRobin.NextSelection` | src/runtime/scheduler/multi_thread.rs:49-49 | Successive calls take successive selections of one sequence |
| `RoundRobin.OneRound` | src/runtime/scheduler/multi_thread.rs:49-49 | Any m selections in a row before the counter wraps take each index exactly once |
| `RoundRobin.Balanced` | src/runtime/scheduler/multi_thread.rs:49-49 | After k notifications before the counter wraps each index was selected floor(k/m) or ceil(k/m) times |
| `RoundRobin.WrapKeepsRotation` | src/runtime/scheduler/multi_thread.rs:46-49 | When the counter wraps, the rotation goes on undisturbed if and only if m divides 2^64 |
| `Context.EnterGuard.constructor` | src/runtime/handle.rs:265-274 | enter installs the context and remembers the old one; the worker slot stays |
| `Context.EnterGuard.Drop` | src/runtime/handle.rs:298-306 | Dropping puts the remembered context back; the worker slot stays |
| `Context.ContextGuard.constructor` | src/runtime/scheduler/multi_thread.rs:442-451 | block_on's guard installs the context, empties the worker slot and remembers both |
| `Context.ContextGuard.Drop` | src/runtime/scheduler/multi_thread.rs:454-464 | Dropping puts both back |
| `Context.Run` | src/runtime/scheduler/multi_thread.rs:441-464 | Any nesting of the two guards restores context and worker, and inside, every observer sees the innermost enclosing scope |
| `Context.EnterSees` | src/runtime/handle.rs:265-274 | Directly inside an enter every look sees the runtime entered and the thread's worker |
| `Context.BlockOnSees` | src/runtime/scheduler/multi_thread.rs:442-451 | Directly inside a block_on every look sees its runtime and no worker |
| `Context.ScopesEnd` | src/runtime/scheduler/multi_thread.rs:441-464 | Scopes one after the other: each look sees its own scope, and after them what the thread saw before |
| `Context.OnlyContextGuardChangesWorker` | src/runtime/handle.rs:265-306 | Without a ContextGuard the worker slot is the same at every observation |
| `Context.EnterAll` | src/runtime/handle.rs:265-274 | Nested enters save each the context of the one before |
| `Context.DropAll` | src/runtime/handle.rs:298-306 | Guards dropped in any order leave the context the guard dropped last had saved |
| `Context.EnterThenDrop` | src/runtime/handle.rs:292-306 | Any number of enters dropped in any order restore the thread's context if and only if the guard dropped last was the first made, or was made in that same context |

## Left out

- I/O driver, selector, `Events` and the platform glue in `src/runtime/park.rs`: foreign calls.
- Memory layout, allocation, `Arc` accounting and vtables: the output is an optional cell, deallocation a counted event.
- `src/task/mod.rs` and `src/time/mod.rs`: other encodings that do not match `raw.rs` and `park.rs`.
- Builder, `src/runtime/mod.rs`, `src/main.rs`, `src/lib.rs`: dispatch only.
- `SleepPark` and `YieldPark`: nothing ever unparks them in a way that could be stated as a protocol.
- `Handle::block_on_with_worker` and `block_on_simple`, no-op, panicking and callback wakers: busy loops and wrappers.
- `ManualWaker::wake`: it schedules without a compare-exchange, so it is outside the claims about wake storms, queue entries and polls; its creation and drop are counted. `ManualWaker::into_waker`, which makes a waker and releases the reference it should hold, is not modelled; neither is called in the repository.
- `CurrentThread` as a scheduler: it holds its queue borrowed while running tasks, so a task that spawns would panic.
- `ThreadUnpark::unpark`: the thread slot it looks at is never filled, so it wakes nobody; the lock around it is modelled.
- `MultiThread::notify_worker`, `notify_all_workers`, `approx_task_count` and the counters of `Shared`: not called by the modelled code.
- `Task::set_state` and `transition_state`: not used by the modelled code.
- Weak-memory reordering, `Steal::Retry`, panics inside tasks, mutex poisoning, overflow of durations.
- The scheduler and the task header are separate machines: a push in the scheduler is any push, and the header counts its queue entries without their place in the queue.
- Liveness is stated as bounds on steps and existence of runs, not under a fairness assumption on the threads.
- SchedulerThreads.Shared.FindWork: its early returns with a task from the worker's own or another worker's queue are shown to be dead instead of returning, because those queues are always empty; the single accesses Pop and Probe do have that branch.
- SchedulerThreads.Shared.RunTask: a running task pushes and notifies; one that calls `Handle::block_on` on its worker, and so steals and runs tasks inside itself, is not modelled, and its own accesses are taken from the machine's step function.
- SchedulerThreads.Shared.Run: setting the thread-local cells before the loop and clearing them after it (lines 322-339 and 383-390) is not modelled.
- SchedulerCallers.MultiThread.Shutdown: clearing the caller's context cell at the end (lines 306-309) is not modelled.
- Timers.TimeDriver.Schedule: the notify_one on the driver's condition variable is not modelled; nothing waits on it.
- Timers.TimeDriver.Process: wakers are logged in the order they are woken, what they do is not modelled.
