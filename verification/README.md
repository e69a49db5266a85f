# tinyCoro: a verified model of the runtime

tinyCoro is a C++20 coroutine runtime: synchronisation components (channel, mutex, condition
variable, latch, wait group, event), a per-thread worker loop with its engine (context), a scheduler
over several contexts, a pool of descriptors registered with the kernel, and lazily started tasks
that await one another.

Each component is modelled in the same way.

- A state machine. Coroutine handles are opaque numbers. One step is one atomic access or one
  critical section of a spinlock; a critical section that reads data its spinlock does not protect is
  split there. Memory is sequentially consistent. Histories (what was sent, who
  acquired the lock, what was executed) are part of the state and are tied to the rest of it in both
  directions by the invariant.
- An invariant that every step keeps, and theorems over every run, that is, over every interleaving.
- A class in the imperative form of the source whose methods are proved equal to the steps, where
  the source works by changing an object in place.

| file | component |
|---|---|
| `Channel.dfy`, `ChannelProofs.dfy`, `ChannelTheorems.dfy`, `ChannelClass.dfy` | bounded channel |
| `Mutex.dfy`, `MutexProofs.dfy`, `Notify.dfy`, `NotifyRuns.dfy`, `MutexClass.dfy` | mutex and condition variable |
| `Relay.dfy`, `RelayRuns.dfy` | two clients of the condition variable, from its tests |
| `Context.dfy`, `ContextProofs.dfy` | worker loop, engine, submitters, stop, kernel |
| `System.dfy`, `IdleScan.dfy`, `Settle.dfy`, `ScanExact.dfy`, `Stop.dfy` | several contexts, quiescence, the scheduler's idle scan and stop |
| `Gate.dfy`, `Event.dfy` | latch, wait group, event |
| `FdPool.dfy` | pools of registered descriptors, one for each engine |
| `TaskTree.dfy` | nested tasks |
| `Dispatcher.dfy` | round-robin dispatch |

## Promises the code does not keep in general

Each of these is stated with a concrete run that breaks the promise and with a theorem that says when it holds.

- The condition-variable tests expect every coroutine to get all its turns, with `notify_all` (n
  coroutines, one turn each) and with `notify_one` (two coroutines, any number of turns). A coroutine
  that has unlocked in `cv.wait` but not yet joined the queue misses a notification, and the client
  comes to rest with fewer entries (`TurnCanBeLost`). All entries are there at the end if and only if
  no coroutine joined the queue when its predicate held already and nobody was going to notify
  (`AllServedIffNothingLost`).
- A channel of capacity zero can park a sender and a receiver opposite each other; this is possible
  if and only if the capacity is zero (`OppositeParkingIffNoCapacity`).
- `wait_group::add` with a negative argument can leave a waiter behind, whether it finds it parked
  (`NegativeAddStrands`) or between its look at the counter under the spinlock and its push
  (`AddBeforePushStrands`). A step does so if and only if it is an `add` that brings the counter to zero
  with no drain pending while somebody is parked or holds the spinlock to park (`StrandsIff`).
- An `add` between a decrement to zero and its drain lets a waiter of the next round through early
  (`AddRacingDrainReleasesEarly`); for balanced calls an `add` opens the way to this if and only if a
  drain is pending (`AddIsUnsafeIff`), and a waiter whose look under the spinlock found no drain pending is
  never let through early (`ClearWaiterNeverEarly`).
- The scheduler's scan can call a context idle that has an I/O to submit (`ScanCanBeWrong`). It is
  right whenever no work was brought in behind it (`ScanIsRight`): a submission to a context already
  read, or an I/O issued on the context being read when its I/O counters have been read, or the one
  still to be read is zero. A step opens the way to a wrong verdict, with nothing more brought in
  behind, if and only if it is one of these, for contexts not told to stop (`WrongVerdictIff`).
- A connector with a registered descriptor works only on the engine it was made on, while a coroutine
  may be resumed on another one. There its pair reaches somebody else's descriptor, and giving it back
  there frees a slot twice (`MigratedConnector`). It reaches its own descriptor if and only if it holds no
  registered slot or runs at home (`ResolvesIff`); the pools stay partitioned if and only if it is given
  back at home or holds no slot (`ReturnKeepsPartitionIff`). This needs fixed descriptors to be switched
  on, which they are not by default.
- The dispatch counter wraps; the order stays round robin across the wrap if and only if the number
  of contexts divides 2^64 (`WrapIsHarmlessIff`).

## Model

| member | source | states |
|---|---|---|
| `ChannelProofs.NextInv` | tinyCoroLab/include/coro/comp/channel.hpp:51-183 | every send attempt, receive attempt and close keeps the shape of the queues, the ledger of values, the record of woken handles and the reasons for failure |
| `ChannelTheorems.Conservation` | tinyCoroLab/include/coro/comp/channel.hpp:51-183 | in every reachable state delivered values, then the buffer, then what the parked senders were called with, are exactly the arguments of the sends of the run in the order they took effect or parked; no send and no receive counts twice |
| `ChannelTheorems.SendsKeepTheirArguments` | tinyCoroLab/include/coro/comp/channel.hpp:104-108 | over any run the sends are those called, and each carries the value it was called with for ever |
| `ChannelTheorems.QueueShape` | tinyCoroLab/include/coro/comp/channel.hpp:51-97 | parked senders imply a full buffer, parked receivers an empty buffer and no parked senders, closed implies nobody parked, the buffer never exceeds the capacity |
| `ChannelTheorems.SendOutcome` | tinyCoroLab/include/coro/comp/channel.hpp:99-127 | a send is true iff its value was delivered or buffered, parked iff it is in the queue, and false only after close and then its value is nowhere |
| `ChannelTheorems.ReceiveOutcome` | tinyCoroLab/include/coro/comp/channel.hpp:75-97 | a receive comes back empty only from a closed, drained channel, and has a value iff it is one of the recorded deliveries |
| `ChannelTheorems.ResumedOnceWithResult` | tinyCoroLab/include/coro/comp/channel.hpp:57-87 | a handle is resubmitted iff it was parked and its result slot has been set, never twice, and never while still in a queue |
| `ChannelTheorems.NobodySleepsOn` | tinyCoroLab/include/coro/comp/channel.hpp:57-87 | over any run a handle is resubmitted iff it was in a queue at some point and no longer is, whether it left by hand-off, by admission to the buffer or by close |
| `ChannelTheorems.SendWaitsIff` | tinyCoroLab/include/coro/comp/channel.hpp:110-124 | either attempt of a send waits iff the channel is open, full and without a waiting receiver |
| `ChannelTheorems.RecvWaitsIff` | tinyCoroLab/include/coro/comp/channel.hpp:134-147 | either attempt of a receive waits iff the channel is open and holds nothing |
| `ChannelTheorems.ClosedByCloseOnly` | tinyCoroLab/include/coro/comp/channel.hpp:165-183 | the channel is closed iff close was called, and its capacity never changes |
| `ChannelTheorems.CommittedStays` | tinyCoroLab/include/coro/comp/channel.hpp:51-183 | over any run, sends that were delivered or buffered keep their places in the order |
| `ChannelTheorems.NoOvertaking` | tinyCoroLab/include/coro/comp/channel.hpp:99-127 | a send that took effect or parked before another stays ahead of it for ever; hence first in first out for each producer |
| `ChannelTheorems.ParkedReceiversInTurn` | tinyCoroLab/include/coro/comp/channel.hpp:51-97 | over every run the parked receivers are given the next values in queue order; while one is without, nobody else gets any, and those still without keep their places or were sent home empty by close |
| `ChannelTheorems.NoReceiveOvertakes` | tinyCoroLab/include/coro/comp/channel.hpp:129-150 | when a later receive has a value, every receiver parked before it got one earlier, the one at position k that of the k-th send outstanding |
| `ChannelTheorems.StepRefinesQueue` | tinyCoroLab/include/coro/comp/channel.hpp:51-183 | every step is a step of a plain unbounded queue: only the acting send enters, at the back and with its own argument; what leaves from the front goes to the acting receive or the first one parked; close keeps exactly the buffer |
| `ChannelTheorems.DrainsInOrder` | tinyCoroLab/include/coro/comp/channel.hpp:75-97 | after close, whatever else happens, the receives get a prefix of the buffered values in order and the rest stays |
| `ChannelTheorems.ClosedNeverParks` | tinyCoroLab/include/coro/comp/channel.hpp:165-183 | after close every operation is finished by its first attempt, every send with false |
| `ChannelTheorems.ReceiveLoopResults` | tinyCoroLab/tests/lab5c_test.cpp:98-112 | the j-th receive of a consumer loop after close returns the j-th buffered value, and nothing once those are used up |
| `ChannelTheorems.CloseLosesNothing` | tinyCoroLab/tests/lab5c_test.cpp:89-123 | if close follows all completed sends, a consumer that has seen the end knows that the received sequence, hence multiset, is the arguments of the sends |
| `ChannelTheorems.OppositeParkingIffNoCapacity` | tinyCoroLab/include/coro/comp/channel.hpp:66-77 | some run parks a sender and a receiver at the same time iff the capacity is zero |
| `ChannelClass.Channel.TrySendLocked` | tinyCoroLab/include/coro/comp/channel.hpp:51-73 | the locked send attempt has the result and the whole new state of the specified attempt; a waiting receiver gets the value in its slot and is resubmitted |
| `ChannelClass.Channel.TryRecvLocked` | tinyCoroLab/include/coro/comp/channel.hpp:75-97 | the locked receive attempt: returns the front value, moves a parked sender into the buffer and resubmits it |
| `ChannelClass.Channel.SendAwaitReady` | tinyCoroLab/include/coro/comp/channel.hpp:110-114 | first attempt of a send with the value given; ready iff closed, a receiver waits or there is room; keeps the invariant |
| `ChannelClass.Channel.SendAwaitSuspend` | tinyCoroLab/include/coro/comp/channel.hpp:117-124 | second attempt of a send; suspends iff parked; keeps the invariant |
| `ChannelClass.Channel.RecvAwaitReady` | tinyCoroLab/include/coro/comp/channel.hpp:134-138 | first attempt of a receive; keeps the invariant |
| `ChannelClass.Channel.RecvAwaitSuspend` | tinyCoroLab/include/coro/comp/channel.hpp:140-147 | second attempt of a receive; keeps the invariant |
| `ChannelClass.Channel.Close` | tinyCoroLab/include/coro/comp/channel.hpp:165-183 | the two loops refuse every parked sender and excuse every parked receiver, in queue order; keeps the invariant |
| `MutexProofs.NextInv` | tinyCoroLab/include/coro/comp/mutex.hpp:27-121 | every step of mutex and condition variables keeps exclusion and the agreement of both kinds of queue with the coroutines' places |
| `MutexProofs.MutualExclusion` | tinyCoroLab/include/coro/comp/mutex.hpp:27-121 | in every run the flag is set iff exactly one coroutine owns or has been granted the lock, and parked waiters imply it is set |
| `MutexProofs.WaitReturnsOwning` | tinyCoroLab/include/coro/comp/condition_variable.hpp:35-100 | a coroutine leaves cv.wait only by being resumed, and is then the only holder of the lock |
| `MutexProofs.WaitsWhereCalled` | tinyCoroLab/include/coro/comp/condition_variable.hpp:42-47 | a coroutine waits on the condition variable it called until it is resumed |
| `MutexProofs.GetsFreeLock` | tinyCoroLab/include/coro/comp/mutex.hpp:27-43 | whoever tries by try_lock, either half of lock, or being released, gets the lock at once iff it is free |
| `MutexProofs.HandOverInOrder` | tinyCoroLab/include/coro/comp/mutex.hpp:80-121 | over any run with n unlocks, n at most the queue length, exactly the first n parked handles acquire, in order, and nobody else by any path |
| `MutexProofs.GrantedByItsUnlock` | tinyCoroLab/include/coro/comp/mutex.hpp:88-104 | the handle at position k is still parked after k unlocks and granted by the next one |
| `NotifyModel.EnqueueAllShape` | tinyCoroLab/include/coro/comp/mutex.hpp:109-121 | of handles enqueued in turn at most the first is granted, only if the lock was free, and the others join in order |
| `NotifyModel.GrantsAcquire` | tinyCoroLab/include/coro/comp/mutex.hpp:109-121 | exactly the handles given to the executor at once are recorded as owners |
| `NotifyModel.NotifyOneRepeatedPartitions` | tinyCoroLab/include/coro/comp/condition_variable.hpp:73-100 | as many notify_one calls as waiters give the stable partition of notify_all: exactly those with a predicate that is false stay, in order; the others reach their mutex, in order |
| `NotifyModel.KeptAre` | tinyCoroLab/include/coro/comp/condition_variable.hpp:93-98 | exactly the waiters that have a predicate and whose predicate is false stay |
| `NotifyModel.ReleasedAre` | tinyCoroLab/include/coro/comp/condition_variable.hpp:93-98 | exactly the handles of the other waiters reach the mutex |
| `MutexClass.Mutex.TryLock` | tinyCoroLab/include/coro/comp/mutex.hpp:80-84 | succeeds iff the flag was clear, and then sets it |
| `MutexClass.Mutex.EnqueueWaiter` | tinyCoroLab/include/coro/comp/mutex.hpp:32-43 | takes the lock and submits, or joins the queue at the back (also lines 109-121) |
| `MutexClass.Mutex.Unlock` | tinyCoroLab/include/coro/comp/mutex.hpp:88-104 | hands the lock to the first waiter without clearing the flag, or clears it |
| `NotifyRuns.ExaminedInTurn` | tinyCoroLab/include/coro/comp/condition_variable.hpp:42-100 | a waiter that joined behind k others is at the front after exactly k visits, whoever notifies and whatever happens in between |
| `NotifyRuns.NotifyAllPartitions` | tinyCoroLab/include/coro/comp/condition_variable.hpp:87-100 | notify_all interleaved with everything else: each waiter is examined once, the false ones stay in order, the true ones join the line for the mutex in order |
| `NotifyRuns.NotifyOneExaminesFront` | tinyCoroLab/include/coro/comp/condition_variable.hpp:73-85 | notify_one interleaved with everything else: the front waiter is examined, if there is one, and nobody else |
| `NotifyRuns.SamePartition` | tinyCoroLab/include/coro/comp/condition_variable.hpp:87-100 | with predicates that do not change, the interleaved loop and the uninterrupted call split the queue alike |
| `NotifyRuns.NextLine` | tinyCoroLab/include/coro/comp/mutex.hpp:27-121 | the line of those who had the lock or wait for it only grows, at its end, whatever step is taken |
| `MutexClass.ConditionVariable.AwaitSuspend` | tinyCoroLab/include/coro/comp/condition_variable.hpp:42-47 | hands the lock on, submitting the next in line, and queues the caller; on any machine state these objects show it amounts to the two wait steps |
| `MutexClass.ConditionVariable.NotifyOne` | tinyCoroLab/include/coro/comp/condition_variable.hpp:73-85 | only the front waiter is looked at: with a false predicate it goes to the back, otherwise it reaches its mutex and is submitted iff that was free |
| `MutexClass.ConditionVariable.NotifyAll` | tinyCoroLab/include/coro/comp/condition_variable.hpp:87-100 | the rotating loop keeps exactly the waiters with a false predicate, in order; every other one reaches its own mutex, in order, and the first there is submitted iff it was free |
| `RelayProofs.NextInv` | tinyCoroLab/tests/lab5b_test.cpp:87-106 | every step of either client keeps whose turn it is, that a released waiter's predicate still holds, and who is still going to be looked at |
| `RelayProofs.TurnsInOrder` | tinyCoroLab/tests/lab5b_test.cpp:87-106 | in every reachable state vec is 0, 1, 2, ... (notify_all, any n) or 0, 1, 0, 1, ... (notify_one, any number of rounds), equal in length to the turns counted except within a turn |
| `RelayProofs.AllServedIffNothingLost` | tinyCoroLab/tests/lab5b_test.cpp:148-185 | when nothing can move any more, vec holds every turn iff no push of the run into the condition variable came too late; otherwise it stops short |
| `RelayProofs.NotifyLooksAtAll` | tinyCoroLab/include/coro/comp/condition_variable.hpp:73-100 | of two coroutines the notifier is not in the queue, so that notify_one examines all of it, as notify_all does |
| `RelayRuns.RunsAreBounded` | tinyCoroLab/tests/lab5b_test.cpp:148-185 | no schedule of n coroutines with r turns each lasts longer than 15rn(n+1) steps, so every run does come to rest |
| `RelayRuns.TurnCanBeLost` | tinyCoroLab/include/coro/comp/condition_variable.hpp:42-47 | a run of two coroutines with one turn each, of either client, that comes to rest with vec == [0], through the gap between unlock and push |
| `ContextProofs.NextInv` | tinyCoroLab/src/context.cpp:34-73 | every step of worker, submitters, stoppers and kernel keeps accounts, fates, I/O books, control facts and pending wake-ups |
| `ContextProofs.CountersExact` | tinyCoroLab/src/context.cpp:40-55 | m_wait_count is always queued + about to be pushed + in hand; the I/O counters never underflow; the I/Os issued by the run are those waiting, running and handled; every one handled had its callback; tasks are begun in the order pushed |
| `ContextProofs.HistoriesAreCalls` | tinyCoroLab/src/engine.cpp:59-97 | the I/Os, callbacks, submissions and pushes recorded are exactly those among the calls of the run |
| `ContextProofs.EventfdConserved` | tinyCoroLab/src/engine.cpp:43-47 | no write to the eventfd is lost or counted twice: what was there and what was written is what was read and what is there |
| `ContextProofs.BlockedMeansIdle` | tinyCoroLab/src/engine.cpp:65-79 | a worker blocked on an eventfd at zero, with nobody mid-call, has an empty queue, no I/O and no stop request; everything submitted was executed once, in the order pushed, and every I/O issued had its callback |
| `ContextProofs.CleanExit` | tinyCoroLab/src/context.cpp:57-73 | at the load that ends run nothing is queued, running, about to be pushed or in I/O; every submission of the run before was executed exactly once, in the order pushed, and every I/O issued had its callback |
| `ContextProofs.NothingRunsAfterExit` | tinyCoroLab/src/context.cpp:57-73 | a submission made after that load is never executed |
| `ContextProofs.NextIoBooks` | tinyCoroLab/src/engine.cpp:65-97 | every step keeps the I/O conservation law, given that the kernel accepts each submitted batch |
| `SystemProofs.ReachableInv` | tinyCoroLab/src/scheduler.cpp:27-71 | every context of every reachable system keeps the invariant of a single context |
| `SystemProofs.QuiescenceIsStable` | tinyCoroLab/src/scheduler.cpp:27-71 | once every context is quiet, only a submission from outside can end that, over any run |
| `IdleScanProofs.ScanIsRight` | tinyCoroLab/src/scheduler.cpp:43-47 | a pass that finds every context idle is right about all of them, if no work was brought in behind the scan |
| `IdleScanProofs.SpoilsIff` | tinyCoroLab/include/coro/context.hpp:76-82 | a step invalidates what the loads made so far have established iff it brings work in behind the scan |
| `ScanExactProofs.WrongVerdictIff` | tinyCoroLab/src/scheduler.cpp:43-48 | with all contexts in service, a step makes a wrong idle verdict reachable, with nothing more brought in behind, iff it brings work in behind the scan |
| `SettleProofs.CanComeToRest` | tinyCoroLab/src/context.cpp:57-73 | from every state of a context not told to stop some run without new submissions leads to one where every submission is executed, every outstanding I/O has had its callback and is_idle would hold |
| `IdleScanProofs.StopsWithNothingLost` | tinyCoroLab/src/scheduler.cpp:27-56 | from the start, through such a pass, to any later point: without submissions from outside every submission was executed exactly once and nothing is left to do |
| `StopProofs.StopEndsTheWorker` | tinyCoroLab/src/context.cpp:34-38 | from notify_stop on, a drained context takes at most 18 more worker steps and, once nothing can move, has left run |
| `StopProofs.StopRequestEndsRun` | tinyCoroLab/src/context.cpp:34-73 | whatever else happens, after notify_stop a worker is at rest only when it has left run: the wake-up is never lost |
| `StopProofs.LoopEnds` | tinyCoroLab/src/scheduler.cpp:27-65 | from the start, through an idle pass with nothing brought in behind, and a stop request to every context: at rest every worker has left run and nothing is lost |
| `StopProofs.StopsByItself` | tinyCoroLab/src/context.cpp:67-70 | a context without a scheduler is at rest only when its worker has left run |
| `StopProofs.FewStepsAlone` | tinyCoroLab/src/context.cpp:67-70 | with nothing left to do, a worker without a scheduler takes at most 20 more steps, asked to stop or not |
| `StopProofs.LoopCondition` | tinyCoroLab/src/context.cpp:59-60 | evaluated without interruption, the condition of the loop leaves it iff stop was requested and there is neither I/O nor a task |
| `StopProofs.SelfStopCondition` | tinyCoroLab/src/context.cpp:67-70 | evaluated without interruption, the test stops the context iff it was not asked to stop and has nothing to do |
| `StopProofs.BlocksWhenIdle` | tinyCoroLab/src/engine.cpp:65-79 | left alone, a worker in service with nothing to do blocks after at most 40 steps: it does not spin |
| `IdleScanProofs.RestOfPassVerdict` | tinyCoroLab/src/scheduler.cpp:43-48 | left alone, the rest of the pass says idle iff every context still to be read looks idle, and changes nothing |
| `IdleScanProofs.LateSubmissionMissedIff` | tinyCoroLab/src/scheduler.cpp:43-48 | a submission to context j of an idle system while the scan turns to context c is missed by the pass iff j < c |
| `IdleScanProofs.ScanCanBeWrong` | tinyCoroLab/include/coro/context.hpp:76-82 | a run on one context in which the pass says idle while an I/O waits to be submitted |
| `GateProofs.NextInv` | tinyCoroLab/include/coro/comp/latch.hpp:19-60 | every step, the look under the spinlock and the push being two, keeps the queues and what each waiter may conclude about the counter |
| `GateProofs.StrandsIff` | tinyCoroLab/include/coro/comp/wait_group.hpp:28-66 | a step strands a waiter iff it is an add that empties the counter with no drain pending while somebody is parked or past its locked load and about to park |
| `GateProofs.NeverStrands` | tinyCoroLab/include/coro/comp/wait_group.hpp:28-66 | at zero with a waiter parked or about to park somebody is between decrement and end of drain, in every run in which no add empties the counter, also when the counter changes between a locked load and its push |
| `GateProofs.LatchNeverStrands` | tinyCoroLab/include/coro/comp/latch.hpp:25-60 | so it is in every run of a latch, however often it is counted down, wrap-around included |
| `GateProofs.WaitGroupNeverStrands` | tinyCoroLab/include/coro/comp/wait_group.hpp:28-66 | and in every run of a wait group reused by positive adds and not decremented more often than was added |
| `GateProofs.NegativeAddStrands` | tinyCoroLab/include/coro/comp/wait_group.hpp:49-52 | a run in which a negative add leaves a parked waiter at zero with nobody to drain |
| `GateProofs.AddBeforePushStrands` | tinyCoroLab/include/coro/comp/wait_group.hpp:28-37 | a run in which a negative add between a waiter's locked load and its push does the same, with nobody parked when it comes |
| `GateProofs.CarefulNeverEarly` | tinyCoroLab/include/coro/comp/wait_group.hpp:28-66 | with balanced calls and no add during a pending drain, the counter was zero at some moment of the wait of everyone let through |
| `GateProofs.CarefulLetThroughAtZero` | tinyCoroLab/include/coro/comp/wait_group.hpp:23-66 | with careful calls, whoever has been let through, at its first look included, asked or waited at a moment when the counter was zero |
| `GateProofs.LetThroughAtZero` | tinyCoroLab/include/coro/comp/wait_group.hpp:23-66 | so has, whatever the calls, whoever did not look beside a pending drain |
| `GateProofs.LookLetsThroughIff` | tinyCoroLab/include/coro/comp/wait_group.hpp:23-37 | either look lets the waiter through iff the counter is zero |
| `GateProofs.ReleasedInOrder` | tinyCoroLab/include/coro/comp/wait_group.hpp:54-66 | parked waiters are submitted in the order in which they parked |
| `GateProofs.CounterIsExact` | tinyCoroLab/include/coro/comp/wait_group.hpp:49-56 | the counter is the initial value plus what the calls add up to, wrapped |
| `GateProofs.ClearWaiterNeverEarly` | tinyCoroLab/include/coro/comp/wait_group.hpp:28-66 | a waiter whose locked look found no drain pending is let through only after a zero during its wait, whatever the others do |
| `GateProofs.AddIsUnsafeIff` | tinyCoroLab/include/coro/comp/wait_group.hpp:49-66 | in a run careful so far, a positive add makes an early release possible, even if all later calls are careful, iff a drain is pending |
| `GateProofs.AddRacingDrainReleasesEarly` | tinyCoroLab/include/coro/comp/wait_group.hpp:49-66 | a run in which a pending drain lets a waiter of the next round through |
| `GateProofs.LatchOpensExactlyAtZero` | tinyCoroLab/include/coro/comp/latch.hpp:19-60 | with at most count calls, a waiter gets through only after all count calls, after the last drain nobody is parked or about to park, and nobody is submitted twice |
| `GateClass.Gate.AwaitReady` | tinyCoroLab/include/coro/comp/latch.hpp:19-23 | lock-free first look |
| `GateClass.Gate.SuspendLook` | tinyCoroLab/include/coro/comp/latch.hpp:27-33 | second look under the spinlock: submits at zero, else keeps the spinlock to park |
| `GateClass.Gate.SuspendPark` | tinyCoroLab/include/coro/comp/latch.hpp:34-35 | the push, whatever the counter has become since the load |
| `GateClass.Gate.FetchAdd` | tinyCoroLab/include/coro/comp/wait_group.hpp:49-52 | wrapped addition |
| `GateClass.Gate.FetchSub` | tinyCoroLab/include/coro/comp/latch.hpp:49-51 | wrapped decrement; a drain is due iff the counter was one |
| `GateClass.Gate.DrainWaiters` | tinyCoroLab/include/coro/comp/latch.hpp:53-58 | the loop submits every parked waiter in order and clears the list |
| `EventProofs.EventOpensOnSet` | tinyCoroLab/include/coro/comp/event.hpp:30-60 | no wait gets through before set, nobody is submitted twice or left parked after set, what is returned was set, and with one set everybody reads that value |
| `EventProofs.ReturnsLatest` | tinyCoroLab/include/coro/comp/event.hpp:43-60 | a wait returns the value stored last before it is resumed, however many were |
| `EventProofs.LookLetsThroughIff` | tinyCoroLab/include/coro/comp/event.hpp:30-42 | either look lets the waiter through iff the event is set |
| `EventProofs.SetsAreStores` | tinyCoroLab/include/coro/comp/event.hpp:50-60 | the event is set, and its values are, by the calls of set and nothing else |
| `EventProofs.ReleasedInOrder` | tinyCoroLab/include/coro/comp/event.hpp:50-60 | parked waiters are submitted in the order in which they parked |
| `EventClass.Event.AwaitSuspend` | tinyCoroLab/include/coro/comp/event.hpp:35-42 | submit if set, else park |
| `EventClass.Event.Set` | tinyCoroLab/include/coro/comp/event.hpp:50-60 | stores the value, raises the flag and submits all waiters in order |
| `FdPoolProofs.EveryConnectorResolves` | tinyCoroLab/include/coro/io/base_io_type.hpp:9-37 | after any borrow, assign and return on any number of engines, each at home: free and lent slots partition every pool, free slots hold their null descriptor, and the pair of each live connector resolves, on the engine it was opened on, to the descriptor it was opened with, exhausted pool included |
| `FdPoolProofs.ConnectorsAreOpened` | tinyCoroLab/include/coro/io/net/tcp/tcp.hpp:22-25 | the connectors are those opened by the run, each with its own descriptor and home for ever |
| `FdPoolProofs.GetsSlotIffFree` | tinyCoroLab/include/coro/io/base_io_type.hpp:9-13 | a new connector gets a slot iff its engine has a free one, and that slot is then free no more |
| `FdPoolProofs.ResolvesIff` | tinyCoroLab/include/coro/io/base_awaiter.hpp:15-15 | used on an engine, a live connector reaches its own descriptor iff it has no registered slot or that engine is its home |
| `FdPoolProofs.AssignResolvesIff` | tinyCoroLab/include/coro/io/base_io_type.hpp:17-27 | after assign the connector resolves at home iff assign registered the table of its home (or the descriptor is the slot's null one) |
| `FdPoolProofs.ReturnKeepsPartitionIff` | tinyCoroLab/include/coro/io/base_io_type.hpp:29-37 | giving a slot back keeps the partition of all pools iff it happens at home or there is no slot |
| `FdPoolProofs.ItemsStayInRange` | tinyCoroLab/include/coro/uring_proxy.hpp:201-210 | no run, at home or not, leaves the range of the pools, so any connector can be given back on any engine |
| `FdPoolProofs.MigratedConnector` | tinyCoroLab/include/coro/io/base_io_type.hpp:29-37 | a run on two engines in which a connector reaches the other engine's null descriptor, and its return makes a slot free twice |
| `FdPoolProofs.OpenInv` | tinyCoroLab/include/coro/io/net/tcp/tcp.hpp:22-25 | borrowing on any engine for a new connector keeps the partition |
| `FdPoolProofs.AssignInv` | tinyCoroLab/include/coro/io/base_io_type.hpp:17-27 | assigning at home, or without a slot, disturbs no other connector |
| `FdPoolProofs.ReturnInv` | tinyCoroLab/include/coro/io/net/tcp/tcp.hpp:38-42 | giving a slot back at home, or without one, disturbs no other connector |
| `FdPoolClass.FixedFdPool.constructor` | tinyCoroLab/include/coro/uring_proxy.hpp:70-95 | all slots free, holding and registered with their null descriptors |
| `FdPoolClass.FixedFdPool.SetData` | tinyCoroLab/include/coro/marked_buffer.hpp:34-47 | the two loops fill the free queue with all indices in order and copy the values |
| `FdPoolClass.FixedFdPool.Borrow` | tinyCoroLab/include/coro/marked_buffer.hpp:50-59 | the front free index, or an invalid item |
| `FdPoolClass.FixedFdPool.Assign` | tinyCoroLab/include/coro/io/base_io_type.hpp:17-27 | stores in the lending pool and registers the table of the local one, which may be another; an invalid item changes nothing |
| `FdPoolClass.FixedFdPool.Back` | tinyCoroLab/include/coro/uring_proxy.hpp:201-210 | restores the null descriptor, registers the table and frees the index; an invalid item changes nothing |
| `TaskProofs.RunsLikeDirectCalls` | tinyCoroLab/include/coro/task.hpp:33-50 | resuming the root of any program without a cycle of awaits or an endless body, every await and loop depending on earlier results at will, comes to rest with the value and the effects, in order, of depth-first direct calls, tasks already done being read and not entered again |
| `TaskProofs.RunRest` | tinyCoroLab/include/coro/task.hpp:154-168 | from any instruction of any frame, control returns to the parent with the frame done as direct evaluation says and no frame above it touched |
| `TaskProofs.OneStack` | tinyCoroLab/include/coro/task.hpp:154-168 | at every point of a run the parent links form one acyclic stack ending at the root, and the frame that runs or is resumed is never finished |
| `TaskProofs.OneResumeIsEnough` | tinyCoroLab/include/coro/task.hpp:206-213 | when bodies await only tasks, the one resume of the root suffices |
| `TaskClass.TaskRuntime.Advance` | tinyCoroLab/include/coro/task.hpp:154-168 | one instruction, transfer or resumption equals the specified step |
| `TaskClass.TaskRuntime.RunAll` | tinyCoroLab/include/coro/task.hpp:206-213 | the driving loop terminates with the effects and the value of direct calls |
| `DispatcherModel.LoadAfter` | tinyCoroLab/include/coro/dispatcher.hpp:45-51 | after n dispatches short of a wrap context i has n/k tasks, plus one iff i < n mod k |
| `DispatcherModel.WindowsAreBalanced` | tinyCoroLab/include/coro/dispatcher.hpp:45-51 | over any window of consecutive dispatches two contexts differ by at most one |
| `DispatcherModel.WrapIsHarmlessIff` | tinyCoroLab/include/coro/dispatcher.hpp:51-55 | the wrap of the counter goes unnoticed iff the number of contexts divides 2^64 |
| `DispatcherModel.RoundRobin.Dispatch` | tinyCoroLab/include/coro/dispatcher.hpp:51-51 | the t-th call returns the t-th target and advances the wrapped counter |

## Left out

- `ContextModel`: `context::run`, `poll_submit` and `submit_task` are steps on values and not methods of a class, because other threads act between any two of their accesses; a submission made by a running task or a completion callback uses the same three steps as any other and may be delayed arbitrarily, which allows more interleavings than the code has.
- ChannelClass.Channel.constructor: requires a capacity of at least one; the state machine itself allows zero, and `OppositeParkingIffNoCapacity` says what happens then.
- `MutexModel`: one mutex with any number of condition variables; waiters that bring different mutexes to one condition variable are covered only by the notify methods and their lemmas.
- The producer and consumer client of the condition variable test (two condition variables, one bounded queue).
- `RelayModel`: in the alternating client `state` is the parity of the number of flips, and a captured predicate is evaluated in one step.
- Weak memory orderings and the spinning of the spinlock: critical sections exclude one another and memory is sequentially consistent.
- The kernel: eventfd is a counter, completions are steps bounded by the operations in flight, every submitted batch is accepted in full; system calls, sockets and logging are not part of this model.
- The task queue of the engine is an unbounded FIFO; blocking on a full queue is not modelled.
- Coroutine frame lifetime (`detach`, `clean`, `destroy`), exceptions and the result container.
- `final_suspend` without a parent has no return statement in the source; the model goes back to the resumer, as intended.
- Awaiting an empty task handle, a cycle of tasks awaiting one another, and a body that never ends.
- Moved lock guards, copied connectors and assigning one item twice.
- The use of a connector after `close`, whose slot may belong to somebody else by then.
- `when_all` and `parallel`: `when_all` is a stub that waits for nothing and returns a default value, and `parallel` only calls it and applies a function to that value.
- `timer`: sums into a time value that is never initialised or normalised, then a kernel timeout; the kernel is not part of this model.
- The memory allocator, string helpers, benchmarks and demos: no algorithm of the runtime.
- Starting and joining the contexts in the scheduler: thread creation and waiting; that a stopped worker ends is `StopEndsTheWorker`.
