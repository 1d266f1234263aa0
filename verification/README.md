# Verification model of libdco

A Dafny 4.11 model of the coroutine library libdco and of two arithmetic kernels of the Boost tree
it carries, with proofs of what they promise. `dafny verify dfyconfig.toml` checks everything.

## What is modelled

**Scheduling.** `CoStatus` holds the ten-state table of the context status and its 64-bit word;
`CoCtx` is the context object, whose `TryFull` is the compare-exchange loop the seven `try_*_full`
functions share. `CasRefinement` lets any number of threads interleave their loads and
compare-exchanges and proves that each call still acts as one atomic transition. On that basis
`Scheduler` is a transition system over any number of contexts, workers and resumers in which every
CAS, queue operation, heap operation and observable store is one step; `SchedulerInvariant` has its
inductive invariant and `SchedulerTheorems` the statements about all reachable states. `Parking`
does the same for how workers go to sleep and are called.

**Timers.** `HeapOrder`, `TimerHeap` and `TimerWorker` are the array heap with back-pointers and the
methods of `coworker` that drain it, as classes that change contexts in place.

**Blocking primitives.** `Semaphore`, `Mutex` and `SharedMutex` are transition systems for any
number of contexts; the mutex is proved to be a semaphore that starts at 1, step by step, and
`StrayUnlock` adds calls of `unlock` by contexts that do not hold it.
`CoTools` has the two bounded counter loops. `Counting` counts the elements of a sequence.

**Rational.** `CommonFactor` (gcd, Bezout, coprimality) and `Rational` (the class, with in-place
arithmetic and the continued-fraction comparison).

**CRC.** `BitString` (words as bit sequences), `CrcSpec` (schoolbook modulo-2 division, the
bit-at-a-time register, the Rocksoft checksum of section 15 of Ross Williams' "A Painless Guide to
CRC Error Detection Algorithms"), `CrcTables` (the loops of crc.hpp on registers that may be wider
than the polynomial), `CrcOptimal` (when the table-driven checksum is the Rocksoft checksum) and
`CrcComputers` (`crc_basic`, `crc_optimal`, `crc`, `augmented_crc` as classes and methods).

What coschedule, cofutex, cosemaphore, comutex and comutexshared promise is a statement about
interleavings, so each has a state machine over atomic steps that carries the theorems. Beside it
stands the code itself as a class on the real variables: `CoSchedule`, `WorkerPool`, `CoSemaphore`,
`CoMutex`, `SharedLock`. Their methods keep a ghost copy of the state machine's state in step with
the variables, and between any two atomic operations they call `Others`: it leads by any steps of
other threads, as many as they like, to a state in which the calling thread still stands where it
was (its body is empty: only this contract is used). A method's contract names the run it is part of
(`Ran`): from the old state to the new one in which its own thread takes exactly the listed steps, in
that order, with others in between. Where the code branches, a ghost result (`at` in most methods) is the
state in which it decides, and the contract says which way in terms of the values there. It adds what
the method leaves behind whatever the others did,
and the theorems about all runs show that loops end, assertions hold and error exits are dead. `Runs`
defines runs and such pieces of runs once for all five. Where it helps, a ghost flag `alone` selects
runs without interference, for which the whole effect is stated as well.

## Findings

- The scheduler's `sem_` (include/libdco/co/coschedule.h:35) is in no initialiser list
  (src/coschedule.cpp:15); in C++17, which CMakeLists.txt:9 selects, that leaves a `std::atomic<int>`
  indeterminate. What it starts with matters. It stays within 0..workers in every run if and only if it starts there
  (`Parking.CreditExactly`); queued work is attended in every run if and only if it starts with at
  least 0 (`Parking.AttendedExactly`). The failing input is any negative start, -1 for example: the
  credit of an adder that finds no registered worker is swallowed, and the pool parks with work
  queued and no credit stored.
- Even when `sem_` starts at 0, a parked pool can stall with work queued: adders find no registered
  worker, the workers register and see no credit, and only then the adders store theirs. For a pool of
  n workers this happens with exactly the credits 1 to n (`Parking.StallExactly`). That a stalled pool
  has a stored credit holds if and only if the start is at least 0 (`Parking.UnstoredStallExactly`).
- The reader/writer lock counts its readers in `count_`, and only they can break it: the 2^30-th reader
  to hold or await the lock beside a writer brings `count_` back to 0 and walks in. For any number of
  threads above `most`, with never more than `most` readers at once, the lock excludes in every run if
  and only if `most` is below 2^30 (`SharedMutex.ReadersDecide`); without a promise about readers, if and
  only if at most 2^30 threads use it (`SharedMutex.ThreadsDecide`). The step that breaks it is
  `lock_shared` with `count_ + 1 >= 0` beside a writer (`SharedMutex.ArrivalExcludes`).
- `comutex::unlock` does not refuse every context that does not hold the lock: `ctx_curr_` is never
  cleared, so the last holder passes its test until the next one is recorded. If it calls `unlock` again
  after that one's exchange, it frees the other's lock (`StrayUnlock.ExchangeIsExact`). When any context
  may call `unlock` at any time, the lock excludes in every run if and only if there are not two
  contexts (`StrayUnlock.StrayExactly`); while every stray exchange finds the flag down it does
  (`StrayUnlock.RefusedExcludes`).
- `crc_optimal` is not `crc_basic` for every parameter set: with reflected input, an order above 8
  and a register wider than the order, a bit of the initial remainder at or above the order survives
  the reflection, moves down with every byte and in the end spoils the checksum. `crc_basic` ignores
  such bits. `CrcOptimal.TableIsExact` gives the exact condition.
- The proof in the comment of `operator+=` (include/boost/rational.hpp:523) assumes gcd(b,c)=1 for
  a/b + c/d; what the argument and `Rational.SumCorrect` need is gcd(c,d)=1, which normalised
  operands have.

## Model

| member | source | states |
|---|---|---|
| CoStatus.ResumeWakes | src/coctx.cpp:46-80 | a resume succeeds exactly on a suspended and unwoken context and leaves it woken |
| CoStatus.StatusCodes | include/libdco/co/coctx.h:24-39 | the ten codes of the header |
| CoStatus.NewWord | src/coctx.cpp:35-36 | every change of the word raises the version modulo 2^56, so it never leaves the word as it was |
| CoCtx.Context.constructor | src/coctx.cpp:265-271 | a new context is parked (word 0x14), is in no heap and has not ended |
| CoCtx.Context.TryFull | src/coctx.cpp:46-241 | whatever other threads do between load and compare-exchange, the call decides on one value the word really held; for each of the seven functions, what it returns and installs for each status, and -1 with nothing written for all others |
| CoCtx.Context.SetTimeout | src/coctx.cpp:247-252 | stores the deadline and presets the interrupted flag, outside any heap |
| CoCtx.Context.Reset | src/coctx.cpp:254-263 | a recycled context looks like a new parked one with the interrupted flag set |
| CasRefinement.StepRefines | src/coctx.cpp:46-258 | each load, break or compare-exchange of any thread, and the plain store of `reset`, is a step of the atomic table machine or invisible to it |
| CasRefinement.InterleavingsAreAtomic | src/coctx.cpp:46-258 | every interleaving is a run of the machine in which each call takes effect at once, including the -1 exits and the stores of `reset` |
| SchedulerInvariant.ActionPreserves | src/coschedule.cpp:29-182 | every step of any thread keeps the ownership, history and placement invariant of all contexts |
| SchedulerTheorems.InvAlongRun | src/coschedule.cpp:79-182 | the invariant holds along every run |
| SchedulerTheorems.OneOwner | src/coschedule.cpp:67-102 | in every reachable state a context has exactly one holder, read off the queues, workers and heaps themselves |
| SchedulerTheorems.NeverTwice | src/coworker.cpp:33-75 | no queue, buffer or heap holds a context twice and no two workers have one context in hand |
| SchedulerTheorems.PoppedIsReady | src/coschedule.cpp:84-91 | whatever can be popped from the run queue is Ready |
| SchedulerTheorems.AssertionsHold | src/coschedule.cpp:67-102 | the status changes a worker makes are never refused, `tid_` is its own id at switch-out, and a deadline is only written outside all heaps |
| SchedulerTheorems.WakesAlternate | src/coschedule.cpp:138-182 | suspensions alternate with wakes, a wake is one successful resume or timeout, and each wake is pushed on the run queue once |
| SchedulerTheorems.WokenIsOnItsWay | src/coschedule.cpp:138-149 | a woken context is in the run queue, in somebody's hands on the way there, or queued for removal at the worker that keeps it |
| SchedulerTheorems.WaitingIsReachable | src/coworker.cpp:48-65 | a context still waiting can be resumed, is in no queue, and when armed for a timeout is in its worker's heap or on the way into or out of it |
| SchedulerTheorems.SleepReturns | src/coschedule.cpp:169-182 | a sleep returns 0 exactly when the timeout won, and then the clock had reached the deadline, and 1 exactly when a resume won |
| SchedulerTheorems.TimerPlacement | src/coworker.cpp:33-65 | a context in a heap sleeps on that worker; one marked for removal is in exactly one place of the removal path |
| CoSchedule.CoSchedule.DcoCreate | src/coschedule.cpp:106-136 | reuses exactly when the buffer holds a context at that moment, otherwise creates the newest; one step; the context is parked with status Yield_Set_Reset and owned by nobody; alone, the whole effect |
| CoSchedule.CoSchedule.DcoResume | src/coschedule.cpp:138-149 | 0 to 4 exactly for the five unwoken statuses at its compare-exchange, with the status left in each case, otherwise -1; then pushes on the run queue (0), files with the keeper (4) or does nothing, and no other step of its own; alone, the whole new state |
| CoSchedule.CoSchedule.DcoYield | src/coschedule.cpp:151-162 | never refused, result 0; exactly the suspension and the way to the switch, ending suspended by a yield |
| CoSchedule.CoSchedule.DcoSleepUntil | src/coschedule.cpp:169-180 | the same for a sleep, ending with the deadline stored and the interrupted flag preset |
| CoSchedule.CoSchedule.SleepResultOf | src/coschedule.cpp:181 | the value returned to the coroutine: 0 exactly when a timeout won at or after the deadline, 1 exactly when a resume won |
| CoSchedule.CoSchedule.InDcoSw | src/coschedule.cpp:67-77 | the switch-out is never refused whatever resumes happen meanwhile; a broken suspension queues the context (0), a yield parks it (1), a sleep adds it to the sleepers (2), and the worker is back in its loop |
| CoSchedule.CoSchedule.SleepAdd | src/coworker.cpp:48-65 | its assertion holds; queued exactly when a resume had broken the sleep, otherwise armed in the heap if the deadline is later than the clock, and if not queued as timed out or left to the resume that marked it; exactly the steps of that case |
| CoSchedule.CoSchedule.SleepTimeout | src/coworker.cpp:67-75 | 0 exactly when it found the context armed: queued and not interrupted; -1 exactly when a resume had marked it for removal; the steps of each |
| CoSchedule.CoSchedule.SleepRemove | src/coworker.cpp:38-46 | a context handed over for removal is still marked: always 0, queued and interrupted |
| CoSchedule.CoSchedule.DrainOnce | src/coworker.cpp:80-86 | pops exactly when a context is filed at that moment; it has left the heap and is queued as interrupted; the steps of each case |
| CoSchedule.CoSchedule.ExpireOnce | src/coworker.cpp:88-97 | the due context leaves the heap and nothing else does; it is queued as timed out or a resume had marked it |
| CoSchedule.CoSchedule.RunNext | src/coschedule.cpp:82-91 | takes a context exactly when the run queue holds one at that moment, alone the first; it is Ready and runs with `tid_` set to this worker |
| CoSchedule.CoSchedule.Finish | src/coschedule.cpp:92-94 | end, reset outside all timer heaps, and recycling, in this order; the context is last in the buffer with status, deadline and interrupted flag reset |
| Parking.CallerStepPreserves | src/coschedule.cpp:49-65 | a step of any thread that calls a worker keeps the registration invariant, whatever `sem_` holds |
| Parking.WorkerStepPreserves | src/coschedule.cpp:36-47 | a step of a worker that parks or wakes keeps it |
| Parking.Registration | src/coschedule.cpp:29-65 | a worker id is registered at most once and a popped id always has `run_` false, whatever `sem_` starts with |
| Parking.QueuedWorkIsAttended | src/coworker.cpp:11-31 | with `sem_` starting at 0 or more: while the run queue is not empty a caller is at work, a worker is awake or notified, or a credit is stored |
| Parking.NoStallWithoutCredit | src/coschedule.cpp:43-56 | with such a start, a pool without stored credit is never parked with work queued |
| Parking.WorkSeenPreserved | src/coschedule.cpp:29-65 | every step keeps: the credit is not negative, and queued work is attended |
| Parking.CallerCanMove | src/coschedule.cpp:49-65 | a caller inside its call can take a step, in every reachable state |
| Parking.WorkerCanMove | src/coworker.cpp:11-31 | a worker drains exactly while something is filed, takes a context exactly when one is queued, gives up exactly when none is, and leaves its wait with a token |
| Parking.FiledIsAttended | src/coworker.cpp:11-36 | while a context is filed for removal from a worker's timers, that worker drains before it looks for work again, has a token, or a resumer is between its push and its notify |
| Parking.CreditExactly | src/coschedule.cpp:15-56 | `sem_` stays in 0..workers in every run if and only if it starts there |
| Parking.AttendedExactly | src/coschedule.cpp:15-56 | queued work is attended in every run of n workers if and only if `sem_` starts with at least 0 |
| Parking.UnstoredStallExactly | src/coschedule.cpp:15-56 | a pool parked with work queued always has a stored credit if and only if `sem_` starts with at least 0 |
| Parking.StallExactly | src/coschedule.cpp:43-56 | with `sem_` starting at 0, n workers can be parked with work queued and credit k if and only if k is in 1..n |
| WorkerPool.Pool.constructor | src/coschedule.cpp:15-27 | every worker starts registered exactly once, nothing is queued, and `sem_` is what was found there |
| WorkerPool.Pool.AddQue | src/coschedule.cpp:29-34 | pushes, then wakes a worker or stores a credit, by exactly those steps; with a start of 0 or more queued work is attended afterwards; alone, the whole effect |
| WorkerPool.Pool.CallWorker | src/coschedule.cpp:49-65 | ends after one round under any interference, because a popped worker is never running; exactly the steps that wake the popped worker, who then has a token, or that store a credit; alone, the whole effect |
| WorkerPool.Pool.MarkRunning | src/coschedule.cpp:58 | the exchange on a popped worker's `run_` always finds false |
| WorkerPool.Pool.WaitWorker | src/coschedule.cpp:36-47 | exactly the steps of parking while still registered, of registering, or of registering and making the call a taken credit stands for; alone, which of them, and the whole effect |
| CoTools.AtomicInt.DecrementIfPositive | src/cotools.cpp:15-23 | takes one from a positive value the counter really held, or saw a value that was not positive and wrote nothing |
| CoTools.AtomicInt.IncreaseIfBelow | src/cotools.cpp:25-33 | adds one to a value below the maximum that the counter really held, or wrote nothing |
| HeapOrder.FillHole | include/libdco/util/cominheap.hpp:59-78 | putting the last entry into a hole breaks the order in at most the one direction that the removal then repairs |
| HeapOrder.StepUp | include/libdco/util/cominheap.hpp:48-56 | a swap with the parent moves the only disorder one level up |
| HeapOrder.StepDown | include/libdco/util/cominheap.hpp:35-46 | a swap with the smaller child moves the only disorder one level down |
| HeapOrder.RootIsLeast | include/libdco/util/cominheap.hpp:80-84 | the first entry is the least |
| TimerHeap.Heap.Swap | include/libdco/util/cominheap.hpp:24-31 | exchanges two entries and keeps positions and `index_` inverse to each other |
| TimerHeap.Heap.RepairBack | include/libdco/util/cominheap.hpp:48-56 | restores the heap from an entry too small for its place |
| TimerHeap.Heap.RepairFront | include/libdco/util/cominheap.hpp:35-46 | restores the heap from an entry too large for its place |
| TimerHeap.Heap.Push | include/libdco/util/cominheap.hpp:87-91 | adds exactly the node and keeps the heap |
| TimerHeap.Heap.Remove | include/libdco/util/cominheap.hpp:59-78 | removes exactly the node, or does nothing when it is in no heap, and clears its `index_` |
| TimerHeap.Heap.Top | include/libdco/util/cominheap.hpp:80-84 | a member with the earliest deadline, or null exactly when the heap is empty |
| TimerWorker.Worker.SleepRemove | src/coworker.cpp:38-46 | queues the context as interrupted exactly when it was marked for removal |
| TimerWorker.Worker.SleepTimeout | src/coworker.cpp:67-75 | queues the context as timed out exactly when it was armed and not resumed |
| TimerWorker.Worker.SleepAdd | src/coworker.cpp:48-65 | arms a sleeper in the heap, or queues it at once when it was resumed or is already due |
| TimerWorker.Worker.DrainRemovals | src/coworker.cpp:80-86 | empties `time_remove_`, takes its contexts out of the heap and queues those marked, in order |
| TimerWorker.Worker.ExpireDue | src/coworker.cpp:88-100 | takes out everything due, earliest deadline first, and nothing else |
| TimerWorker.Worker.TimeProc | src/coworker.cpp:77-102 | terminates, leaves exactly the unexpired contexts nobody asked to remove, returns the earliest remaining deadline minus now or -1 for an empty heap, and queues exactly the interrupted and the expired sleepers |
| Semaphore.InvPreserved | src/cofutex.cpp:43-68 | every step keeps: queued contexts are covered by threads that still look at the queue, or units of `sem_` by threads that still take them |
| Semaphore.AttemptTakesUnit | src/cosemaphore.cpp:16 | an attempt takes one unit and is done exactly when there is one |
| Semaphore.Conservation | src/cosemaphore.cpp:13-26 | `sem_` is initial value plus notifies minus completed waits and never falls below 0 |
| Semaphore.WakeupsSucceed | src/cofutex.cpp:43-68 | no wake-up of a popped context and no suspension of a waiter is refused |
| Semaphore.NoLostWakeup | src/cosemaphore.cpp:13-26 | when nothing can move and a context is blocked, `sem_` is used up and the context is queued once |
| Semaphore.QueueOrCounterEmpty | src/cofutex.cpp:43-68 | with no thread between push and re-check, none committed to a pop or resume and none awake to retry, the queue is empty or `sem_` is 0 |
| CoSemaphore.CoSemaphore.Wait | src/cosemaphore.cpp:13-19 | takes a unit exactly when there is one at its attempt, from exactly that value, and returns; otherwise switched out inside the futex; exactly the steps of one round |
| CoSemaphore.CoSemaphore.WaitAgain | src/cosemaphore.cpp:16-17 | the same for each further round of the loop |
| CoSemaphore.CoSemaphore.Notify | src/cosemaphore.cpp:21-26 | one unit more, and then a popped context is resumed exactly when the queue holds one at that moment; exactly those steps |
| CoSemaphore.CoSemaphore.DcoWait | src/cofutex.cpp:43-60 | suspend, check, and then resume itself exactly when the first check sees a unit, or else push, re-check and notify exactly when that sees one, and switch out: exactly these steps; a refused suspension cannot happen |
| CoSemaphore.CoSemaphore.DcoNotify | src/cofutex.cpp:62-68 | 1 exactly when the queue holds a context at its pop, and then that one is popped and woken; -1 exactly when it is empty |
| Mutex.StepSimulates | src/comutex.cpp:16-36 | each step of the mutex is a step of a semaphore or invisible to it |
| Mutex.MutexIsSemaphore | src/cofutex.cpp:24-41 | every reachable mutex state is a reachable state of a semaphore that started at 1 |
| Mutex.MutualExclusion | src/comutex.cpp:16-36 | at most one context is inside, the flag is up, and once recorded `ctx_curr_` names it so that its `unlock` is accepted |
| Mutex.LockedHasHolder | src/comutex.cpp:16-36 | a taken flag has a taker |
| Mutex.NoLostWakeup | src/comutex.cpp:16-36 | when nothing can move and a context is blocked in `lock`, another one holds the lock and the blocked one is queued |
| Mutex.FreeFlagIsAttended | src/cofutex.cpp:24-41 | a free flag with a non-empty queue implies a pending notify, a pending re-check or an awake retrier |
| CoMutex.CoMutex.Lock | src/comutex.cpp:16-25 | holds the mutex alone and is recorded exactly when the flag is down at its exchange, otherwise goes on to wait; exactly the steps of each |
| CoMutex.CoMutex.Unlock | src/comutex.cpp:27-36 | neither test refuses the holder; its steps are the test, the release of the flag, and a pop with its resume exactly when the queue holds a context at that moment |
| StrayUnlock.TestIsExact | src/comutex.cpp:27-31 | a context that does not hold the lock passes the test exactly when it is still in `ctx_curr_`, and then no holder has recorded itself |
| StrayUnlock.ExchangeIsExact | src/comutex.cpp:32-35 | its exchange is refused exactly when the flag is down; otherwise another context is left inside with the flag down |
| StrayUnlock.RefusedExcludes | src/comutex.cpp:27-36 | refused calls leave no trace: while all stray calls are refused at most one context is inside |
| StrayUnlock.StrayExactly | src/comutex.cpp:16-36 | with stray calls at any time, the lock excludes in every run of n contexts if and only if n is below 2 |
| SharedMutex.TalliedPreserved | src/comutexshared.cpp:16-51 | every step, with any number of threads, keeps `count_` the number of readers that hold or await the lock, less 2^30 while a writer is marked |
| SharedMutex.BalancePreserved | src/comutexshared.cpp:16-51 | every step that leaves fewer than 2^30 readers beside a writer keeps the balance of `count_`, `wait_` and the tokens, counting active readers and unconsumed tokens together |
| SharedMutex.InvPreserved | src/comutexshared.cpp:16-51 | every step of any number of threads keeps both, the balance as long as there have been fewer than 2^30 readers at once |
| SharedMutex.WithinIsPeak | src/comutexshared.cpp:5-32 | the runs that never have more than `most` readers are those whose recorded maximum is at most `most` |
| SharedMutex.ExclusionHolds | src/comutexshared.cpp:16-51 | with fewer than 2^30 readers at once and any number of writers, a writer inside excludes other writers, active readers and unconsumed reader tokens |
| SharedMutex.ArrivalExcludes | src/comutexshared.cpp:27-32 | beside a writer inside, `lock_shared` keeps exclusion exactly when it leaves `count_` negative, which is when it is not the 2^30-th reader |
| SharedMutex.ExclusionFails | src/comutexshared.cpp:27-32 | with more than 2^30 threads some run, with 2^30 readers at once, lets a reader in beside a writer |
| SharedMutex.ExclusionExactly | src/comutexshared.cpp:5-32 | with n threads and at most `most` readers at once, exclusion holds in all runs if and only if `most` is below 2^30 or n is at most 2^30 |
| SharedMutex.ReadersDecide | src/comutexshared.cpp:5-32 | for every n above `most`: if and only if `most` is below 2^30 |
| SharedMutex.ThreadsDecide | src/comutexshared.cpp:5-32 | without a promise about readers: if and only if there are at most 2^30 threads |
| SharedMutex.ReleaseIsExact | src/comutexshared.cpp:34-42 | with fewer than 2^30 readers at once, `unlock` releases as many tokens as readers wait, its loop counter is never negative, and between writers `wait_` is 0 |
| SharedMutex.ReleaseExactly | src/comutexshared.cpp:34-42 | that `unlock` starts with one round for each waiting reader holds in all runs under the same condition as exclusion |
| SharedMutex.RoundsAreReaders | src/comutexshared.cpp:34-40 | with any number of threads the rounds of `unlock` are the readers that hold or await the lock |
| SharedMutex.WriterIsNotifiedOnce | src/comutexshared.cpp:20-51 | with fewer than 2^30 readers at once, a waiting writer gets one notify, exactly when the last reader it counted is gone |
| SharedMutex.NobodyStuck | src/comutexshared.cpp:16-51 | likewise, when nothing can move and all locks taken were given back, no thread is left waiting |
| SharedMutex.CountersFit | src/comutexshared.cpp:5-24 | likewise, the counters stay within a 32-bit int |
| SharedLock.CoMutexShared.Lock | src/comutexshared.cpp:16-25 | on return true nobody else is inside and no reader token is left, as long as there were fewer than 2^30 readers at once or at most 2^30 threads; left waiting only while `wmtx_` is taken or without a token for it; the steps up to the return or the wait |
| SharedLock.CoMutexShared.LockShared | src/comutexshared.cpp:27-32 | waits exactly when `count_ + 1` is negative at that moment, and is left waiting only without a token; on return true no writer is inside, as long as there were fewer than 2^30 readers at once or at most 2^30 threads; the steps up to the return or the wait |
| SharedLock.CoMutexShared.Unlock | src/comutexshared.cpp:34-42 | with any number of threads the loop ends; its rounds, each a notify, are as many as there are readers when the writer unmarks itself, all of them waiting if there were fewer than 2^30 at once; then the mutex is given back |
| SharedLock.CoMutexShared.UnlockShared | src/comutexshared.cpp:44-51 | leaves; counts down exactly when `count_` was 0 or less; notifies exactly when `wait_` was 1: exactly these steps |
| CommonFactor.Bezout | include/boost/rational.hpp:413-416 | the gcd is an integer combination of its arguments |
| CommonFactor.CommonDivides | include/boost/rational.hpp:413-416 | every common divisor divides the gcd |
| Rational.SumCorrect | include/boost/rational.hpp:517-568 | dividing by gcd(numerator, g) alone gives the exact sum in lowest terms |
| Rational.CrossCancel | include/boost/rational.hpp:571-582 | cancelling across before multiplying gives the exact product in lowest terms |
| Rational.QuotientCorrect | include/boost/rational.hpp:586-612 | the same for the quotient, with the sign moved into the numerator |
| Rational.NormalFormUnique | include/boost/rational.hpp:868-874 | normalised fractions are equal as numbers exactly when they are equal field by field |
| Rational.QuotientDecides | include/boost/rational.hpp:816-829 | a difference in a continued-fraction component decides the order |
| Rational.RemaindersDecide | include/boost/rational.hpp:831-845 | with equal components the order is the reversed order of the reciprocal remainders |
| Rational.LastRemainders | include/boost/rational.hpp:847-866 | when an expansion ends the remainders decide |
| Rational.FloorDivide | include/boost/rational.hpp:797-814 | the sign repair of the truncating division gives the floor quotient and remainder |
| Rational.Rational.Assign | include/boost/rational.hpp:217-284 | normalises the given fraction; a zero denominator is reported and changes nothing |
| Rational.Rational.Normalize | include/boost/rational.hpp:886-916 | same value, lowest terms, positive denominator; a zero denominator is reported and changes nothing |
| Rational.Rational.Add | include/boost/rational.hpp:517-549 | exact sum, still normalised, also when adding an object to itself |
| Rational.Rational.Subtract | include/boost/rational.hpp:552-568 | exact difference, still normalised |
| Rational.Rational.Multiply | include/boost/rational.hpp:571-582 | exact product, still normalised |
| Rational.Rational.Divide | include/boost/rational.hpp:586-612 | exact quotient, still normalised, for negative divisors too; division by zero is reported and changes nothing |
| Rational.Rational.LessThan | include/boost/rational.hpp:785-866 | terminates and returns exactly a*d < c*b |
| CrcSpec.RegisterIsRemainder | include/boost/crc.hpp:592-623 | the unaugmented register is the remainder of long division of the message extended by zeros |
| CrcSpec.DivisionIsLinear | include/boost/crc.hpp:1013-1032 | long division is linear over XOR |
| CrcSpec.BlockStep | include/boost/crc.hpp:1188-1206 | a block of bits at once: shift and XOR the table entry of the leading bits |
| CrcSpec.ReflectedBlockStep | include/boost/crc.hpp:1281-1300 | the same for a register kept in reverse |
| CrcSpec.ChecksumDividesOut | include/boost/crc.hpp:2311-2316 | a message followed by its checksum leaves remainder zero |
| CrcTables.ReflectUnsigned | include/boost/crc.hpp:427-441 | reverses the low bits and keeps the others |
| CrcTables.CrcModuloWordUpdate | include/boost/crc.hpp:592-623 | feeds the bits of the word in the requested order, on the low bits of the register, and clears the rest |
| CrcTables.MakeTable | include/boost/crc.hpp:1013-1032 | each of the 256 entries is the remainder of its index byte, placed and reflected as asked |
| CrcTables.CrcUpdateDirect | include/boost/crc.hpp:1188-1206 | table-driven step for every byte, left to right |
| CrcTables.CrcUpdateReflected | include/boost/crc.hpp:1281-1300 | the reflected one |
| CrcTables.DirectIsDivision | include/boost/crc.hpp:1188-1206 | on the low bits the direct table form is bit-by-bit division, for every message and start register |
| CrcTables.ReflectedIsMirror | include/boost/crc.hpp:1281-1300 | the reflected register is the bit reversal of the direct register fed with reversed bytes |
| CrcOptimal.TableAgrees | include/boost/crc.hpp:1973-2161 | the table-driven checksum is the Rocksoft checksum of every message when the initial remainder fits or cannot leak |
| CrcOptimal.StrayBitsSpoil | include/boost/crc.hpp:1973-1979 | otherwise some message of zero bytes gets a different checksum |
| CrcOptimal.TableIsExact | include/boost/crc.hpp:1973-2161 | both checksums agree on all messages if and only if the input is not reflected, the order is at most 8, or no bit of the initial remainder lies at or above the order |
| CrcComputers.ReflectSubByte | include/boost/crc.hpp:499-500 | reverses up to 8 low bits and drops the others |
| CrcComputers.CrcBasic.ProcessBit | include/boost/crc.hpp:1784-1791 | one step of the division |
| CrcComputers.CrcBasic.ProcessBits | include/boost/crc.hpp:1809-1826 | the chosen low bits, highest first |
| CrcComputers.CrcBasic.ProcessByte | include/boost/crc.hpp:1840-1847 | a byte in the configured order |
| CrcComputers.CrcBasic.ProcessBytes | include/boost/crc.hpp:1874-1922 | all bytes of the block in turn |
| CrcComputers.CrcBasic.Reset | include/boost/crc.hpp:1744-1751 | restarts from the given remainder |
| CrcComputers.CrcBasic.InterimRemainder | include/boost/crc.hpp:1722-1729 | the remainder so far, nothing above the order |
| CrcComputers.CrcBasic.Checksum | include/boost/crc.hpp:1938-1944 | reflected remainder XOR final value, nothing above the order |
| CrcComputers.TableCrc.constructor | include/boost/crc.hpp:1973-1979 | holds the table and the reflected initial remainder |
| CrcComputers.TableCrc.Reset | include/boost/crc.hpp:2080-2086 | restarts from the given remainder, in the register's orientation |
| CrcComputers.TableCrc.ProcessBytes | include/boost/crc.hpp:2139-2147 | updates the register by the driver that order and reflection select |
| CrcComputers.TableCrc.InterimRemainder | include/boost/crc.hpp:2053-2059 | the remainder in natural orientation, nothing above the order |
| CrcComputers.TableCrc.Checksum | include/boost/crc.hpp:2155-2161 | reflects exactly when input and output reflection differ, then XORs the final value |
| CrcComputers.CrcUpdateSubByte | include/boost/crc.hpp:1396-1504 | the drivers for orders below 8 |
| CrcComputers.Crc | include/boost/crc.hpp:2268-2277 | returns the Rocksoft checksum whenever the condition of `TableIsExact` holds |
| CrcComputers.BasicCrc | include/boost/crc.hpp:1601-1944 | a `crc_basic` run returns the Rocksoft checksum for every parameter set and message |
| CrcComputers.AugmentedIsDivision | include/boost/crc.hpp:1157-1175 | the augmented table form is long division of start remainder and message |
| CrcComputers.AugmentedCrc | include/boost/crc.hpp:2328-2340 | returns that remainder |
| CrcComputers.AugmentedUses | include/boost/crc.hpp:2311-2320 | message plus zeros gives the unaugmented checksum, message plus checksum gives zero |

## Left out

- Network hooks, epoll, descriptor registry and HTTP (src/cohook_linux.cpp, src/coepoll.cpp, src/cofdcollect.cpp, src/cofdctx.cpp, src/cohttpsvr.cpp, src/coerrno.cpp): input/output and foreign calls.
- Real stacks and context switching, memory ordering: atomics are sequentially consistent and a switch is a step.
- Timed waits and waiting nodes (`cosemaphore_tm`, src/cowaitque.cpp, src/cowaitqueex.cpp, src/cocondvariable.cpp) and src/coselect.cpp, src/codefer.cpp, src/courand.cpp, src/coactor.cpp: separate protocols, or easy members.
- Queue internals: a concurrent queue is a bag from which a pop takes any element. The state machine of the scheduler lets a pop report "empty" at any time, though the code in `CoSchedule` is proved to pop exactly when there is something; in `Parking`, `Semaphore` and `Mutex` it reports "empty" only when the queue is empty.
- `dco_resume` of a null handle, which returns -100 at once.
- Stale handles: nobody resumes a recycled context before it is handed out again, and a context queued on a futex is resumed only by itself or by whoever popped it.
- Progress: safety is proved, and which states can be the last; that a step that can be taken is taken is assumed nowhere and proved nowhere.
- The worker's semaphore (include/libdco/util/semaphore.hpp) is one token that may also return early; the unsynchronised test before its post, through which two posts can both get in, is not modelled.
- `dco_notify_all` and the futex overload with a callback: same pushes, pops and resumes as the overloads modelled.
- TimerWorker.Worker.TimeProc: runs without interference; concurrent resumes and pushes are covered by `Scheduler`, where draining and expiring are separate steps.
- TimerWorker.Worker.SleepAdd: the same, and the clock is a parameter.
- CoSchedule.CoSchedule.DrainOnce: one round; that the loop ends is proved without interference (`TimerWorker`), since resumes may keep adding work.
- CoSchedule.CoSchedule.ExpireOnce: the heap is a bag here; its array form is `TimerHeap`.
- CoSemaphore.CoSemaphore.Wait: one round of the loop; a waiter may lose every race for a unit, so the loop need not end.
- CoMutex.CoMutex.Lock: ends where `dco_wait` begins; that call is the one of `CoSemaphore` with another test, and its steps are in `Mutex`.
- `count_` and `wait_` are unbounded integers: beyond the condition of `CountersFit` the 32-bit ones may wrap.
- The assertion in `comutex::unlock`, which a stray call would violate: as with assertions compiled out, the tests after it decide (`StrayUnlock`).
- TimerWorker.RunQueue.AddQue: only the push; which worker is called is the subject of `Parking`.
- Scheduler heaps are bags from which an earliest due element is taken; that the array heap behaves so is the subject of `TimerHeap`.
- `rsem_`, `wsem_` and `wmtx_` of the reader/writer lock are plain counters and a flag in `SharedMutex`; that the real ones behave so is the subject of `Semaphore` and `Mutex`.
- Rational.Rational.Normalize: integers are unbounded, so overflow and the exception for an unrepresentable denominator do not occur; the gcd is the mathematical one.
- Operators of `rational` with plain integers, stream input and output, conversions.
- `cotools` steps other than 1 and the `min` argument, which no caller varies or the code never reads.
- Reflected augmented updates, which no public function of crc.hpp reaches, and `augmented_crc` for orders below 8.
