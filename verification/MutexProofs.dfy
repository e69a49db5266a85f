/** Mutual exclusion and hand-over in order, for every run of the mutex and its condition variables. */
module MutexProofs {
  import opened Prelude
  import opened MutexModel

  /** `h` has the lock: it runs with it, or has been granted it and waits to be resumed. */
  predicate Holds(s: State, h: Handle) {
    PhaseOf(s, h).Owner? || PhaseOf(s, h).Granted?
  }

  /** The flag is set exactly while somebody holds the lock, and the holder is the last one recorded. */
  ghost predicate Exclusive(s: State) {
    && (s.m.locked ==> s.m.acquired != [] && Holds(s, s.m.acquired[|s.m.acquired| - 1]))
    && (forall h :: h in s.phases && Holds(s, h) ==>
          s.m.locked && s.m.acquired != [] && s.m.acquired[|s.m.acquired| - 1] == h)
    && (s.m.waiters != [] ==> s.m.locked)
  }

  /** The queue of the mutex holds each parked coroutine once. */
  ghost predicate MutexQueue(s: State) {
    && Distinct(s.m.waiters)
    && (forall h :: h in s.m.waiters ==> h in s.phases)
    && (forall h :: h in s.phases ==> (h in s.m.waiters <==> s.phases[h].Parked?))
  }

  /** The queue of a condition variable holds each coroutine waiting on it once. */
  ghost predicate CvQueues(s: State) {
    && (forall c :: c in s.cvs ==> Distinct(s.cvs[c].queue))
    && (forall c :: c in s.cvs && s.cvs[c].visiting.Some? ==> s.cvs[c].visiting.value <= |s.cvs[c].queue|)
    && (forall c, h :: c in s.cvs && h in s.cvs[c].queue ==> h in s.phases && s.phases[h] == Waiting(c))
    && (forall h :: h in s.phases && s.phases[h].Waiting? ==>
          s.phases[h].cv in s.cvs && h in s.cvs[s.phases[h].cv].queue)
  }

  ghost predicate Inv(s: State) {
    Exclusive(s) && MutexQueue(s) && CvQueues(s)
  }

  lemma InitInv()
    ensures Inv(Init())
  {
  }

  // ---------- Each kind of step ----------

  /** A coroutine that is in no queue takes the lock or parks. */
  lemma EnqueueStepInv(s: State, h: Handle, origin: Origin)
    requires Inv(s) && PhaseOf(s, h).LockMissed?
    ensures Inv(EnqueueStep(s, h, origin))
  {
    assert h !in s.m.waiters;
    var t := EnqueueStep(s, h, origin);
    assert MutexQueue(t) && CvQueues(t);
  }

  lemma ReleaseStepQueue(s: State, h: Handle, after: Phase)
    requires MutexQueue(s) && PhaseOf(s, h).Owner? && (after.Idle? || after.Leaving?)
    ensures MutexQueue(ReleaseStep(s, h, after))
  {
    if s.m.waiters != [] {
      TailOfDistinct(s.m.waiters);
    }
  }

  lemma ReleaseMovesOwner(s: State, h: Handle, after: Phase)
    requires MutexQueue(s) && PhaseOf(s, h).Owner?
    ensures PhaseOf(ReleaseStep(s, h, after), h) == after
  {
    if s.m.waiters != [] {
      assert s.m.waiters[0] in s.m.waiters;
    }
  }

  lemma ReleaseStepInv(s: State, h: Handle, after: Phase)
    requires Inv(s) && PhaseOf(s, h).Owner? && (after.Idle? || after.Leaving?)
    ensures Inv(ReleaseStep(s, h, after))
  {
    ReleaseStepQueue(s, h, after);
    if s.m.waiters != [] {
      assert s.m.waiters[0] in s.m.waiters;
    }
  }

  lemma TakeFreeLockInv(s: State, h: Handle)
    requires Inv(s) && PhaseOf(s, h).Idle? && !s.m.locked
    ensures Inv(s.(m := TryLock(s.m, h), phases := s.phases[h := Owner]))
  {
  }

  /** Changes of phase that touch neither a queue nor the ownership. */
  lemma MoveInv(s: State, h: Handle, after: Phase)
    requires Inv(s)
    requires (PhaseOf(s, h).Idle? && after.LockMissed?) || (PhaseOf(s, h).Granted? && after.Owner?)
    ensures Inv(s.(phases := s.phases[h := after]))
  {
  }

  lemma PushCvQueues(s: State, h: Handle)
    requires CvQueues(s) && Enabled(s, DoWaitPush(h))
    ensures CvQueues(Next(s, DoWaitPush(h)))
  {
  }

  lemma PushInv(s: State, h: Handle)
    requires Inv(s) && Enabled(s, DoWaitPush(h))
    ensures Inv(Next(s, DoWaitPush(h)))
  {
    PushCvQueues(s, h);
  }

  lemma NotifyInv(s: State, c: CvId, visiting: Option<nat>)
    requires Inv(s) && (visiting.Some? ==> visiting.value <= |CvOf(s, c).queue|)
    ensures Inv(s.(cvs := s.cvs[c := CvOf(s, c).(visiting := visiting)]))
  {
  }

  /** The waiter at the front goes to the back. */
  lemma RotateInv(s: State, c: CvId)
    requires Inv(s) && Enabled(s, DoVisit(c, false))
    ensures Inv(Next(s, DoVisit(c, false)))
  {
    var t := Next(s, DoVisit(c, false));
    assert forall h :: h in t.cvs[c].queue <==> h in s.cvs[c].queue;
    assert Exclusive(t) && MutexQueue(t);
  }

  /** The waiter at the front leaves the condition variable. */
  ghost function Detach(s: State, c: CvId): State
    requires Enabled(s, DoVisit(c, true))
  {
    var v := CvOf(s, c);
    s.(cvs := s.cvs[c := Cv(v.queue[1..], Some(v.visiting.value - 1))], phases := s.phases[v.queue[0] := LockMissed])
  }

  lemma DetachCvQueues(s: State, c: CvId)
    requires CvQueues(s) && Enabled(s, DoVisit(c, true))
    ensures CvQueues(Detach(s, c))
  {
    var q := s.cvs[c].queue;
    assert q[0] in q;
    TailOfDistinct(q);
    var t := Detach(s, c);
    forall d, h | d in t.cvs && h in t.cvs[d].queue ensures h in t.phases && t.phases[h] == Waiting(d) {
      assert s.phases[q[0]] == Waiting(c);
      if d == c {
        assert t.cvs[d].queue == q[1..];
        assert h in q && h != q[0];
      } else {
        assert h in s.cvs[d].queue;
      }
    }
  }

  lemma DetachInv(s: State, c: CvId)
    requires Inv(s) && Enabled(s, DoVisit(c, true))
    ensures Inv(Detach(s, c))
  {
    DetachCvQueues(s, c);
    assert s.phases[s.cvs[c].queue[0]] == Waiting(c);
  }

  lemma VisitIsDetachThenEnqueue(s: State, c: CvId)
    requires Enabled(s, DoVisit(c, true))
    ensures Next(s, DoVisit(c, true)) == EnqueueStep(Detach(s, c), CvOf(s, c).queue[0], ByWait(c))
  {
  }

  lemma VisitInv(s: State, c: CvId)
    requires Inv(s) && Enabled(s, DoVisit(c, true))
    ensures Inv(Next(s, DoVisit(c, true)))
  {
    DetachInv(s, c);
    EnqueueStepInv(Detach(s, c), CvOf(s, c).queue[0], ByWait(c));
    VisitIsDetachThenEnqueue(s, c);
  }

  lemma NextInv(s: State, a: Action)
    requires Inv(s) && Enabled(s, a)
    ensures Inv(Next(s, a))
  {
    match a
    case DoTryLock(h) => if !s.m.locked { FreeMeansIdle(s, h); TakeFreeLockInv(s, h); }
    case DoLockReady(h) => if s.m.locked { MoveInv(s, h, LockMissed); } else { TakeFreeLockInv(s, h); }
    case DoLockSuspend(h) => EnqueueStepInv(s, h, ByLock);
    case DoUnlock(h) => ReleaseStepInv(s, h, Idle);
    case DoWaitUnlock(h, c) => ReleaseStepInv(s, h, Leaving(c));
    case DoWaitPush(h) => PushInv(s, h);
    case DoNotify(c, all) =>
      var q := CvOf(s, c).queue;
      NotifyInv(s, c, Some(if all || q == [] then |q| else 1));
    case DoVisit(c, holds) => if holds { VisitInv(s, c); } else { RotateInv(s, c); }
    case DoNotifyEnd(c) => NotifyInv(s, c, None);
    case DoResume(h) => MoveInv(s, h, Owner);
  }

  lemma FreeMeansIdle(s: State, h: Handle)
    requires Exclusive(s) && !s.m.locked && Enabled(s, DoTryLock(h))
    ensures PhaseOf(s, h).Idle?
  {
  }

  lemma {:induction false} ExecInv(s: State, run: seq<Action>)
    requires Inv(s) && ValidRun(s, run)
    ensures Inv(Exec(s, run))
    decreases |run|
  {
    if run != [] {
      NextInv(s, run[0]);
      ExecInv(Next(s, run[0]), run[1..]);
    }
  }

  // ---------- Mutual exclusion ----------

  ghost function Holders(s: State): set<Handle> {
    set h | h in s.phases && Holds(s, h)
  }

  /**
   In every reachable state the flag is set exactly when one coroutine has the lock; nobody has it
   otherwise, and nobody is parked in the mutex while it is free.
   */
  lemma {:induction false} MutualExclusion(run: seq<Action>)
    requires ValidRun(Init(), run)
    ensures var s := Exec(Init(), run);
            && |Holders(s)| == (if s.m.locked then 1 else 0)
            && (forall h, g :: Holds(s, h) && Holds(s, g) ==> h == g)
            && (s.m.waiters != [] ==> s.m.locked)
  {
    InitInv();
    ExecInv(Init(), run);
    var s := Exec(Init(), run);
    if s.m.locked {
      assert Holders(s) == {s.m.acquired[|s.m.acquired| - 1]};
    } else {
      assert Holders(s) == {};
    }
  }

  /** Somewhere between the unlock inside `cv.wait` and its return. */
  predicate InWait(p: Phase) {
    p.Leaving? || p.Waiting? || (p.Parked? && p.origin.ByWait?) || (p.Granted? && p.origin.ByWait?)
  }

  /** A coroutine gets out of `cv.wait` only by being resumed, and then it is the one that has the lock. */
  lemma WaitReturnsOwning(s: State, a: Action, h: Handle)
    requires Inv(s) && Enabled(s, a)
    requires InWait(PhaseOf(s, h)) && !InWait(PhaseOf(Next(s, a), h))
    ensures a == DoResume(h)
    ensures var t := Next(s, a);
            PhaseOf(t, h).Owner? && t.m.locked && Holders(t) == {h}
  {
    NextInv(s, a);
    LeavesOnlyByResume(s, a, h);
    assert Holders(Next(s, a)) == {h};
  }

  lemma LeavesOnlyByResume(s: State, a: Action, h: Handle)
    requires MutexQueue(s) && CvQueues(s) && Enabled(s, a)
    requires InWait(PhaseOf(s, h)) && !InWait(PhaseOf(Next(s, a), h))
    ensures a == DoResume(h)
  {
  }

  /**
   How one step can change the phase of a coroutine that does not take it: a hand-over grants the
   lock to the first parked one, and a notifier lets the waiter at the front go to the mutex.
   */
  ghost predicate Carried(s: State, a: Action, h: Handle) {
    var p, q := PhaseOf(s, h), PhaseOf(Next'(s, a), h);
    || q == p
    || (IsUnlock(a) && p.Parked? && q == Granted(p.origin))
    || (a.DoVisit? && a.holds && Enabled(s, a) && h == CvOf(s, a.cv).queue[0]
        && p == Waiting(a.cv) && q == if s.m.locked then Parked(ByWait(a.cv)) else Granted(ByWait(a.cv)))
  }

  ghost function Next'(s: State, a: Action): State {
    if Enabled(s, a) then Next(s, a) else s
  }

  /** `h` is not the coroutine taking the step. */
  predicate Bystander(a: Action, h: Handle) {
    a.DoNotify? || a.DoVisit? || a.DoNotifyEnd? || a.h != h
  }

  lemma BystanderCarried(s: State, a: Action, h: Handle)
    requires MutexQueue(s) && CvQueues(s) && Enabled(s, a) && Bystander(a, h)
    ensures Carried(s, a, h)
  {
    if IsUnlock(a) && s.m.waiters != [] {
      assert s.m.waiters[0] in s.m.waiters;
    } else if a.DoVisit? {
      assert CvOf(s, a.cv).queue[0] in s.cvs[a.cv].queue;
    }
  }

  /** Who tries to get the lock by this step. */
  function Contender(s: State, a: Action): Option<Handle>
    requires Enabled(s, a)
  {
    match a
    case DoTryLock(h) => Some(h)
    case DoLockReady(h) => Some(h)
    case DoLockSuspend(h) => Some(h)
    case DoVisit(c, holds) => if holds then Some(CvOf(s, c).queue[0]) else None
    case _ => None
  }

  /** Whoever tries gets the lock at once exactly when it is free. */
  lemma GetsFreeLock(s: State, a: Action)
    requires Inv(s) && Enabled(s, a) && Contender(s, a).Some? && !Holds(s, Contender(s, a).value)
    ensures Holds(Next(s, a), Contender(s, a).value) <==> !s.m.locked
    ensures !s.m.locked ==> Next(s, a).m.acquired == s.m.acquired + [Contender(s, a).value]
  {
  }

  /** Somewhere in a wait on condition variable `c`. */
  predicate WaitsOn(p: Phase, c: CvId) {
    p == Leaving(c) || p == Waiting(c) || p == Parked(ByWait(c)) || p == Granted(ByWait(c))
  }

  lemma NextWaitsOn(s: State, a: Action, h: Handle, c: CvId)
    requires Inv(s) && Enabled(s, a) && a != DoResume(h) && WaitsOn(PhaseOf(s, h), c)
    ensures WaitsOn(PhaseOf(Next(s, a), h), c)
  {
    if Bystander(a, h) { BystanderCarried(s, a, h); }
  }

  /** A coroutine waits on the condition variable it called, until it is resumed. */
  lemma {:induction false} WaitsWhereCalled(s: State, h: Handle, c: CvId, run: seq<Action>)
    requires Inv(s) && Enabled(s, DoWaitUnlock(h, c)) && ValidRun(Next(s, DoWaitUnlock(h, c)), run)
    requires DoResume(h) !in run
    ensures WaitsOn(PhaseOf(Exec(Next(s, DoWaitUnlock(h, c)), run), h), c)
  {
    NextInv(s, DoWaitUnlock(h, c));
    ReleaseMovesOwner(s, h, Leaving(c));
    ExecWaitsOn(Next(s, DoWaitUnlock(h, c)), run, h, c);
  }

  lemma {:induction false} ExecWaitsOn(s: State, run: seq<Action>, h: Handle, c: CvId)
    requires Inv(s) && ValidRun(s, run) && DoResume(h) !in run && WaitsOn(PhaseOf(s, h), c)
    ensures WaitsOn(PhaseOf(Exec(s, run), h), c)
    decreases |run|
  {
    if run != [] {
      NextInv(s, run[0]);
      NextWaitsOn(s, run[0], h, c);
      ExecWaitsOn(Next(s, run[0]), run[1..], h, c);
    }
  }

  // ---------- Hand-over in order ----------

  predicate IsUnlock(a: Action) {
    a.DoUnlock? || a.DoWaitUnlock?
  }

  function Unlocks(run: seq<Action>): nat {
    if run == [] then 0 else (if IsUnlock(run[0]) then 1 else 0) + Unlocks(run[1..])
  }

  /** While the lock is taken, only an unlock lets somebody acquire, and nobody leaves the queue otherwise. */
  lemma NextQueueing(s: State, a: Action)
    requires Enabled(s, a) && s.m.locked
    ensures var t := Next(s, a);
            && (!IsUnlock(a) ==> t.m.locked && t.m.acquired == s.m.acquired && s.m.waiters <= t.m.waiters)
            && (IsUnlock(a) && s.m.waiters != [] ==>
                  && t.m.locked
                  && t.m.acquired == s.m.acquired + [s.m.waiters[0]]
                  && t.m.waiters == s.m.waiters[1..])
  {
  }

  /**
   The bypass bound is zero: over any run with n unlocks, n at most the length of the queue, the
   coroutines that acquire the lock are the first n of the queue, in order, and nobody else; the rest
   of the queue keeps its places.
   */
  lemma {:induction false} HandOverInOrder(s: State, run: seq<Action>)
    requires ValidRun(s, run) && s.m.locked && Unlocks(run) <= |s.m.waiters|
    ensures var n := Unlocks(run);
            var t := Exec(s, run);
            && t.m.locked
            && t.m.acquired == s.m.acquired + s.m.waiters[..n]
            && s.m.waiters[n..] <= t.m.waiters
    decreases |run|
  {
    if run != [] {
      NextQueueing(s, run[0]);
      HandOverInOrder(Next(s, run[0]), run[1..]);
    }
  }

  /** The handle parked at position k is granted the lock by exactly the (k+1)-th unlock from now. */
  lemma {:induction false} GrantedByItsUnlock(s: State, run: seq<Action>, k: nat, last: Action)
    requires Inv(s) && k < |s.m.waiters|
    requires ValidRun(s, run) && Unlocks(run) == k
    requires IsUnlock(last) && Enabled(Exec(s, run), last)
    ensures var h := s.m.waiters[k];
            && PhaseOf(Exec(s, run), h).Parked?
            && PhaseOf(Next(Exec(s, run), last), h).Granted?
  {
    HandOverInOrder(s, run);
    ExecInv(s, run);
    var t := Exec(s, run);
    assert t.m.waiters[0] == s.m.waiters[k..][0];
    assert t.m.waiters[0] in t.m.waiters;
  }
}
