/**
 `coro::mutex` and `coro::condition_variable` as one state machine.

 A step is one compare-exchange on `m_locked`, one critical section of the mutex spinlock, or one
 iteration of a notify loop, which runs under the spinlock of its condition variable while the mutex
 stays open to everybody else. Any number of condition variables share the mutex.
 */
module MutexModel {
  import opened Prelude

  type Handle = nat
  type CvId = nat

  /** `acquired` is a history: every handle that got the lock, by exchange or by hand-over, in order. */
  datatype Mutex = Mutex(locked: bool, waiters: seq<Handle>, acquired: seq<Handle>)

  /** `try_lock`. */
  function TryLock(m: Mutex, h: Handle): Mutex {
    if m.locked then m else m.(locked := true, acquired := m.acquired + [h])
  }

  /** The critical section shared by `await_suspend` and `enqueue_waiter`: take the lock or join the queue. */
  function Enqueue(m: Mutex, h: Handle): Mutex {
    if m.locked then m.(waiters := m.waiters + [h])
    else m.(locked := true, acquired := m.acquired + [h])
  }

  /** `unlock`: hand the lock over without releasing the flag, or release it when nobody waits. */
  function Unlock(m: Mutex): Mutex {
    if m.waiters != [] then m.(waiters := m.waiters[1..], acquired := m.acquired + [m.waiters[0]])
    else m.(locked := false)
  }

  /** Why a coroutine is in the queue of the mutex: it called `lock`, or it came from a condition variable. */
  datatype Origin = ByLock | ByWait(cv: CvId)

  /** Where a coroutine is. `Granted` means that it owns the lock and has been submitted for resumption. */
  datatype Phase =
    | Idle
    | LockMissed
    | Parked(origin: Origin)
    | Granted(origin: Origin)
    | Owner
    | Leaving(cv: CvId)
    | Waiting(cv: CvId)

  /** A condition variable; `visiting` is the number of iterations left to the notifier holding its spinlock. */
  datatype Cv = Cv(queue: seq<Handle>, visiting: Option<nat>)

  datatype State = State(m: Mutex, cvs: map<CvId, Cv>, phases: map<Handle, Phase>)

  function Init(): State {
    State(Mutex(false, [], []), map[], map[])
  }

  function PhaseOf(s: State, h: Handle): Phase {
    if h in s.phases then s.phases[h] else Idle
  }

  function CvOf(s: State, c: CvId): Cv {
    if c in s.cvs then s.cvs[c] else Cv([], None)
  }

  /** `h` runs the critical section that takes the lock or parks. */
  function EnqueueStep(s: State, h: Handle, origin: Origin): State {
    s.(m := Enqueue(s.m, h),
       phases := s.phases[h := if s.m.locked then Parked(origin) else Granted(origin)])
  }

  /** The owner `h` runs `unlock` and goes on as `after`. */
  function ReleaseStep(s: State, h: Handle, after: Phase): State {
    var phases := s.phases[h := after];
    if s.m.waiters == [] then s.(m := Unlock(s.m), phases := phases)
    else
      var w := s.m.waiters[0];
      var origin := match PhaseOf(s, w) case Parked(o) => o case _ => ByLock;
      s.(m := Unlock(s.m), phases := phases[w := Granted(origin)])
  }

  datatype Action =
    | DoTryLock(h: Handle)              // try_lock by a coroutine that is running
    | DoLockReady(h: Handle)            // lock_awaiter::await_ready
    | DoLockSuspend(h: Handle)          // lock_awaiter::await_suspend
    | DoUnlock(h: Handle)               // unlock by the owner
    | DoWaitUnlock(h: Handle, cv: CvId) // condition_variable::awaiter::await_suspend, first half
    | DoWaitPush(h: Handle)             // condition_variable::awaiter::await_suspend, second half
    | DoNotify(cv: CvId, all: bool)     // notify_one or notify_all takes the spinlock
    | DoVisit(cv: CvId, holds: bool)    // one iteration, with what the predicate evaluated to
    | DoNotifyEnd(cv: CvId)             // the notifier releases the spinlock
    | DoResume(h: Handle)               // the executor resumes a granted coroutine

  predicate Enabled(s: State, a: Action) {
    match a
    case DoTryLock(h) => PhaseOf(s, h).Idle? || PhaseOf(s, h).Owner?
    case DoLockReady(h) => PhaseOf(s, h).Idle?
    case DoLockSuspend(h) => PhaseOf(s, h).LockMissed?
    case DoUnlock(h) => PhaseOf(s, h).Owner?
    case DoWaitUnlock(h, _) => PhaseOf(s, h).Owner?
    case DoWaitPush(h) => PhaseOf(s, h).Leaving? && CvOf(s, PhaseOf(s, h).cv).visiting.None?
    case DoNotify(c, _) => CvOf(s, c).visiting.None?
    case DoVisit(c, _) => CvOf(s, c).visiting.Some? && CvOf(s, c).visiting.value > 0 && CvOf(s, c).queue != []
    case DoNotifyEnd(c) => CvOf(s, c).visiting == Some(0)
    case DoResume(h) => PhaseOf(s, h).Granted?
  }

  function Next(s: State, a: Action): State
    requires Enabled(s, a)
  {
    match a
    case DoTryLock(h) =>
      s.(m := TryLock(s.m, h), phases := if s.m.locked then s.phases else s.phases[h := Owner])
    case DoLockReady(h) =>
      s.(m := TryLock(s.m, h), phases := s.phases[h := if s.m.locked then LockMissed else Owner])
    case DoLockSuspend(h) => EnqueueStep(s, h, ByLock)
    case DoUnlock(h) => ReleaseStep(s, h, Idle)
    case DoWaitUnlock(h, c) => ReleaseStep(s, h, Leaving(c))
    case DoWaitPush(h) =>
      var c := PhaseOf(s, h).cv;
      var v := CvOf(s, c);
      s.(cvs := s.cvs[c := v.(queue := v.queue + [h])], phases := s.phases[h := Waiting(c)])
    case DoNotify(c, all) =>
      var v := CvOf(s, c);
      s.(cvs := s.cvs[c := v.(visiting := Some(if all || v.queue == [] then |v.queue| else 1))])
    case DoVisit(c, holds) =>
      var v := CvOf(s, c);
      var h := v.queue[0];
      var rest := v.(queue := v.queue[1..], visiting := Some(v.visiting.value - 1));
      if holds then EnqueueStep(s.(cvs := s.cvs[c := rest]), h, ByWait(c))
      else s.(cvs := s.cvs[c := rest.(queue := rest.queue + [h])])
    case DoNotifyEnd(c) => s.(cvs := s.cvs[c := CvOf(s, c).(visiting := None)])
    case DoResume(h) => s.(phases := s.phases[h := Owner])
  }

  predicate ValidRun(s: State, run: seq<Action>)
    decreases |run|
  {
    run == [] || (Enabled(s, run[0]) && ValidRun(Next(s, run[0]), run[1..]))
  }

  function Exec(s: State, run: seq<Action>): State
    requires ValidRun(s, run)
    decreases |run|
  {
    if run == [] then s else Exec(Next(s, run[0]), run[1..])
  }
}
