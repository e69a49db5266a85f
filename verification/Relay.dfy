/**
 Two clients of the condition variable from `tests/lab5b_test.cpp`. In both, coroutines take turns:
 each takes the lock, waits on the condition variable until it is its turn, records its number in
 `vec`, makes it the turn of the next one, notifies and unlocks.

 `Tickets`: n coroutines with one turn each, `notify_all`, predicate `id == i`, and the number is
 recorded before `id` is incremented. `Alternate`: two coroutines with any number of turns each,
 `notify_one`, and `state` is flipped before the number is recorded; `state` is the parity of `id`,
 which here counts the flips.

 They run on the mutex machine, one machine step at a time, for every size and every interleaving.
 */
module RelayModel {
  import opened Prelude
  import M = MutexModel

  /** The condition variable of the client. */
  const CV: M.CvId := 0

  datatype Client = Tickets(n: nat) | Alternate(rounds: nat)

  /** The number of coroutines. */
  function Size(c: Client): nat {
    match c case Tickets(n) => n case Alternate(_) => 2
  }

  /** Turns of each coroutine. */
  function Rounds(c: Client): nat {
    match c case Tickets(_) => 1 case Alternate(rounds) => rounds
  }

  /** All turns. */
  function Total(c: Client): nat {
    match c case Tickets(n) => n case Alternate(rounds) => 2 * rounds
  }

  /** Whose predicate holds when `id` is k; that is, whose turn the k-th is. */
  function Owner(c: Client, k: nat): nat {
    match c case Tickets(_) => k case Alternate(_) => k % 2
  }

  datatype Pc =
    | Start      // before the lock
    | Locking    // inside the lock
    | Checking   // about to evaluate the predicate in await_ready
    | Refused    // predicate false, about to unlock in await_suspend
    | Suspended  // inside the wait, past the unlock
    | AtFirst    // about to append (Tickets) or to flip (Alternate)
    | AtSecond   // about to increment (Tickets) or to append (Alternate)
    | Notifying  // about to take the spinlock of the condition variable
    | Visiting   // in the notify loop
    | Unlocking
    | Finished

  /** `left` is how many turns each coroutine still has to take. */
  datatype State = State(c: Client, s: M.State, pcs: seq<Pc>, left: seq<int>, id: nat, vec: seq<nat>)

  function Init(c: Client): State {
    var rounds := Rounds(c);
    State(c, M.Init(), seq(Size(c), _ => if rounds == 0 then Finished else Start), seq(Size(c), _ => rounds), 0, [])
  }

  datatype Action =
    | LockReady(i: nat) | LockSuspend(i: nat) | Resume(i: nat)
    | Check(i: nat) | WaitUnlock(i: nat) | WaitPush(i: nat)
    | DoFirst(i: nat) | DoSecond(i: nat)
    | Notify(i: nat) | Visit(i: nat) | NotifyEnd(i: nat)
    | Unlock(i: nat)

  /** The predicate of the waiter at the front. */
  predicate FrontHolds(t: State) {
    var q := M.CvOf(t.s, CV).queue;
    q != [] && q[0] == Owner(t.c, t.id)
  }

  predicate Enabled(t: State, a: Action) {
    && a.i < |t.pcs| && a.i < |t.left|
    && match a
       case LockReady(i) => t.pcs[i].Start? && M.Enabled(t.s, M.DoLockReady(i))
       case LockSuspend(i) => t.pcs[i].Locking? && M.Enabled(t.s, M.DoLockSuspend(i))
       case Resume(i) => (t.pcs[i].Locking? || t.pcs[i].Suspended?) && M.Enabled(t.s, M.DoResume(i))
       case Check(i) => t.pcs[i].Checking?
       case WaitUnlock(i) => t.pcs[i].Refused? && M.Enabled(t.s, M.DoWaitUnlock(i, CV))
       case WaitPush(i) => t.pcs[i].Suspended? && M.Enabled(t.s, M.DoWaitPush(i))
       case DoFirst(i) => t.pcs[i].AtFirst?
       case DoSecond(i) => t.pcs[i].AtSecond?
       case Notify(i) => t.pcs[i].Notifying? && M.Enabled(t.s, M.DoNotify(CV, t.c.Tickets?))
       case Visit(i) => t.pcs[i].Visiting? && M.Enabled(t.s, M.DoVisit(CV, FrontHolds(t)))
       case NotifyEnd(i) => t.pcs[i].Visiting? && M.Enabled(t.s, M.DoNotifyEnd(CV))
       case Unlock(i) => t.pcs[i].Unlocking? && M.Enabled(t.s, M.DoUnlock(i))
  }

  /** The step of the mutex machine an action takes, if any. */
  function MutexStep(t: State, a: Action): Option<M.Action> {
    match a
    case LockReady(i) => Some(M.DoLockReady(i))
    case LockSuspend(i) => Some(M.DoLockSuspend(i))
    case Resume(i) => Some(M.DoResume(i))
    case Check(i) => None
    case WaitUnlock(i) => Some(M.DoWaitUnlock(i, CV))
    case WaitPush(i) => Some(M.DoWaitPush(i))
    case DoFirst(i) => None
    case DoSecond(i) => None
    case Notify(i) => Some(M.DoNotify(CV, t.c.Tickets?))
    case Visit(i) => Some(M.DoVisit(CV, FrontHolds(t)))
    case NotifyEnd(i) => Some(M.DoNotifyEnd(CV))
    case Unlock(i) => Some(M.DoUnlock(i))
  }

  function NextPc(t: State, a: Action): Pc
    requires Enabled(t, a)
  {
    match a
    case LockReady(i) => if t.s.m.locked then Locking else Checking
    case LockSuspend(i) => Locking
    case Resume(i) => if t.pcs[i].Locking? then Checking else AtFirst
    case Check(i) => if Owner(t.c, t.id) == i then AtFirst else Refused
    case WaitUnlock(i) => Suspended
    case WaitPush(i) => Suspended
    case DoFirst(i) => AtSecond
    case DoSecond(i) => Notifying
    case Notify(i) => Visiting
    case Visit(i) => Visiting
    case NotifyEnd(i) => Unlocking
    case Unlock(i) => if t.left[i] > 0 then Start else Finished
  }

  /** The step that appends, and the step that changes `id`. */
  predicate Appends(c: Client, a: Action) {
    if c.Tickets? then a.DoFirst? else a.DoSecond?
  }

  predicate Counts(c: Client, a: Action) {
    if c.Tickets? then a.DoSecond? else a.DoFirst?
  }

  function Next(t: State, a: Action): State
    requires Enabled(t, a)
  {
    var step := MutexStep(t, a);
    State(t.c,
          if step.Some? then M.Next(t.s, step.value) else t.s,
          t.pcs[a.i := NextPc(t, a)],
          if a.DoSecond? then t.left[a.i := t.left[a.i] - 1] else t.left,
          if Counts(t.c, a) then t.id + 1 else t.id,
          if Appends(t.c, a) then t.vec + [a.i] else t.vec)
  }

  predicate ValidRun(t: State, run: seq<Action>)
    decreases |run|
  {
    run == [] || (Enabled(t, run[0]) && ValidRun(Next(t, run[0]), run[1..]))
  }

  function Exec(t: State, run: seq<Action>): State
    requires ValidRun(t, run)
    decreases |run|
  {
    if run == [] then t else Exec(Next(t, run[0]), run[1..])
  }

  /** Nothing can move any more. */
  ghost predicate Terminal(t: State) {
    forall a: Action :: !Enabled(t, a)
  }

  /** A coroutine joins the condition variable although its predicate holds already and nobody is going to notify. */
  predicate PushesLate(t: State, a: Action) {
    a.WaitPush? && Owner(t.c, t.id) == a.i && AtSecond !in t.pcs && Notifying !in t.pcs
  }

  /** Some push of the run comes too late. */
  predicate Loses(t: State, run: seq<Action>)
    requires ValidRun(t, run)
    decreases |run|
  {
    run != [] && (PushesLate(t, run[0]) || Loses(Next(t, run[0]), run[1..]))
  }
}

module RelayProofs {
  import opened Prelude
  import M = MutexModel
  import MP = MutexProofs
  import opened RelayModel

  predicate HasLock(p: Pc) {
    p.Checking? || p.Refused? || p.AtFirst? || p.AtSecond? || p.Notifying? || p.Visiting? || p.Unlocking?
  }

  /** Done with the turn of this iteration. */
  predicate Passed(p: Pc) {
    p.Notifying? || p.Visiting? || p.Unlocking? || p.Finished?
  }

  // ---------- Turns ----------

  /** How many of the first k turns are those of coroutine i. */
  function Taken(c: Client, k: nat, i: nat): nat {
    if k == 0 then 0 else Taken(c, k - 1, i) + if Owner(c, k - 1) == i then 1 else 0
  }

  lemma {:induction false} TakenIs(c: Client, k: nat, i: nat)
    requires i < Size(c)
    ensures Taken(c, k, i) == if c.Tickets? then (if i < k then 1 else 0) else (k + 1 - i) / 2
  {
    if k > 0 { TakenIs(c, k - 1, i); }
  }

  /** Somebody who has turns left has one to come, and whose turn it is has turns left. */
  lemma TurnsLeft(c: Client, k: nat, i: nat)
    requires i < Size(c) && k <= Total(c)
    ensures Taken(c, k, i) <= Rounds(c)
    ensures Taken(c, k, i) < Rounds(c) ==> k < Total(c)
    ensures k < Total(c) && i == Owner(c, k) ==> Taken(c, k, i) < Rounds(c)
    ensures k < Total(c) ==> Owner(c, k) < Size(c)
  {
    TakenIs(c, k, i);
  }

  // ---------- The invariant ----------

  /** Turns that have been taken; the second of the two updates completes one. */
  function Turn(t: State): nat {
    if t.c.Tickets? then t.id else |t.vec|
  }

  /** The quantity updated first. */
  function Lead(t: State): nat {
    if t.c.Tickets? then |t.vec| else t.id
  }

  /** The place in the client program and the place in the mutex machine agree. */
  predicate Agrees(p: Pc, phase: M.Phase) {
    match p
    case Start => phase.Idle?
    case Finished => phase.Idle?
    case Locking => phase.LockMissed? || phase == M.Parked(M.ByLock) || phase == M.Granted(M.ByLock)
    case Suspended =>
      || phase == M.Leaving(CV) || phase == M.Waiting(CV)
      || phase == M.Parked(M.ByWait(CV)) || phase == M.Granted(M.ByWait(CV))
    case _ => phase.Owner?
  }

  ghost predicate Places(t: State) {
    && |t.pcs| == |t.left| == Size(t.c)
    && (forall i :: 0 <= i < |t.pcs| ==> Agrees(t.pcs[i], M.PhaseOf(t.s, i)))
    && (forall h :: |t.pcs| <= h ==> M.PhaseOf(t.s, h).Idle?)
  }

  /** Let go by the condition variable, not yet running. */
  predicate Released(phase: M.Phase) {
    phase.Parked? || phase.Granted?
  }

  /** A coroutine has as many turns left as it has not taken, and acts or is let go only when it is its turn. */
  ghost predicate TurnOf(t: State, i: nat)
    requires i < |t.pcs| == |t.left|
  {
    && t.left[i] == Rounds(t.c) - Taken(t.c, Turn(t), i)
    && (!Passed(t.pcs[i]) ==> t.left[i] > 0)
    && (t.pcs[i].Finished? ==> t.left[i] == 0)
    && (t.pcs[i].AtFirst? || t.pcs[i].AtSecond? ==> i == Owner(t.c, Turn(t)))
    && (t.pcs[i].Suspended? && Released(M.PhaseOf(t.s, i)) ==> i == Owner(t.c, Turn(t)))
  }

  /** Whose turn it is. */
  ghost predicate Turns(t: State) {
    && |t.pcs| == |t.left|
    && Turn(t) <= Total(t.c)
    && (forall i :: 0 <= i < |t.pcs| ==> TurnOf(t, i))
  }

  /** `vec` names the owners of the turns, and `vec` and `id` differ only between the two updates. */
  ghost predicate Output(t: State) {
    && (forall k :: 0 <= k < |t.vec| ==> t.vec[k] == Owner(t.c, k))
    && Lead(t) == Turn(t) + if AtSecond in t.pcs then 1 else 0
  }

  /** The spinlock of the condition variable is held exactly by the coroutine in its notify loop. */
  ghost predicate Spinlock(t: State) {
    && (M.CvOf(t.s, CV).visiting.Some? ==> Visiting in t.pcs)
    && (forall i :: 0 <= i < |t.pcs| && t.pcs[i].Visiting? ==> M.CvOf(t.s, CV).visiting.Some?)
  }

  /** The coroutine whose turn it is waits on the condition variable. */
  ghost predicate OwnerWaits(t: State) {
    Turn(t) < Total(t.c) && M.PhaseOf(t.s, Owner(t.c, Turn(t))) == M.Waiting(CV)
  }

  /** While nothing is lost, the coroutine whose turn it is is still going to be looked at. */
  ghost predicate Covered(t: State, lost: bool) {
    !lost && OwnerWaits(t) ==>
      || Notifying in t.pcs
      || (var v := M.CvOf(t.s, CV);
          v.visiting.Some? && v.visiting.value <= |v.queue| && Owner(t.c, Turn(t)) in v.queue[..v.visiting.value])
  }

  /** Once lost, the coroutine whose turn it is waits for a notification nobody will send. */
  ghost predicate Stuck(t: State, lost: bool) {
    lost ==> OwnerWaits(t) && Notifying !in t.pcs && Visiting !in t.pcs
  }

  ghost predicate Inv(t: State, lost: bool) {
    && MP.Inv(t.s) && Places(t) && Turns(t) && Output(t) && Spinlock(t)
    && Covered(t, lost) && Stuck(t, lost)
  }

  lemma InitInv(c: Client)
    ensures Inv(Init(c), false)
  {
    MP.InitInv();
  }

  /** At most one coroutine is at a place that has the lock. */
  lemma OneLockHolder(t: State, i: nat, j: nat)
    requires MP.Exclusive(t.s) && Places(t) && i < |t.pcs| && j < |t.pcs|
    ensures HasLock(t.pcs[i]) && HasLock(t.pcs[j]) ==> i == j
  {
    assert Agrees(t.pcs[i], M.PhaseOf(t.s, i)) && Agrees(t.pcs[j], M.PhaseOf(t.s, j));
  }

  /** Nobody is at `p` while `i` has the lock at another place. */
  lemma NobodyElseAt(t: State, i: nat, p: Pc)
    requires MP.Exclusive(t.s) && Places(t) && i < |t.pcs| && HasLock(t.pcs[i]) && HasLock(p) && t.pcs[i] != p
    ensures p !in t.pcs
  {
    forall j | 0 <= j < |t.pcs| ensures t.pcs[j] != p {
      OneLockHolder(t, i, j);
    }
  }

  lemma NextMutex(t: State, a: Action)
    requires MP.Inv(t.s) && Enabled(t, a)
    ensures MP.Inv(Next(t, a).s)
  {
    var step := MutexStep(t, a);
    if step.Some? {
      MP.NextInv(t.s, step.value);
    }
  }

  lemma NextPlaces(t: State, a: Action)
    requires MP.Inv(t.s) && Places(t) && Enabled(t, a)
    ensures Places(Next(t, a))
  {
    var u := Next(t, a);
    forall i | 0 <= i < |u.pcs| ensures Agrees(u.pcs[i], M.PhaseOf(u.s, i)) {
      assert Agrees(t.pcs[i], M.PhaseOf(t.s, i));
      if i == a.i { SubjectAgrees(t, a); } else { OtherMoves(t, a, i); }
    }
    forall h | |u.pcs| <= h ensures M.PhaseOf(u.s, h).Idle? {
      StrangerStaysIdle(t, a, h);
    }
  }

  predicate IsNotify(a: Action) {
    a.Notify? || a.Visit? || a.NotifyEnd?
  }

  /** A notifier stays the owner of the lock. */
  lemma NotifierAgrees(t: State, a: Action)
    requires MP.Inv(t.s) && Places(t) && Enabled(t, a) && IsNotify(a)
    ensures Agrees(NextPc(t, a), M.PhaseOf(Next(t, a).s, a.i))
  {
    assert Agrees(t.pcs[a.i], M.PhaseOf(t.s, a.i));
    MP.BystanderCarried(t.s, MutexStep(t, a).value, a.i);
  }

  /** Unlocking, by itself or inside the wait. */
  lemma UnlockerAgrees(t: State, a: Action)
    requires MP.Inv(t.s) && Places(t) && Enabled(t, a) && (a.WaitUnlock? || a.Unlock?)
    ensures Agrees(NextPc(t, a), M.PhaseOf(Next(t, a).s, a.i))
  {
    assert Agrees(t.pcs[a.i], M.PhaseOf(t.s, a.i));
    MP.ReleaseMovesOwner(t.s, a.i, if a.Unlock? then M.Idle else M.Leaving(CV));
  }

  /** The steps that touch no other coroutine. */
  lemma SoloAgrees(t: State, a: Action)
    requires Places(t) && Enabled(t, a) && !IsNotify(a) && !a.WaitUnlock? && !a.Unlock?
    ensures Agrees(NextPc(t, a), M.PhaseOf(Next(t, a).s, a.i))
  {
    assert Agrees(t.pcs[a.i], M.PhaseOf(t.s, a.i));
  }

  lemma SubjectAgrees(t: State, a: Action)
    requires MP.Inv(t.s) && Places(t) && Enabled(t, a)
    ensures Agrees(NextPc(t, a), M.PhaseOf(Next(t, a).s, a.i))
  {
    if IsNotify(a) {
      NotifierAgrees(t, a);
    } else if a.WaitUnlock? || a.Unlock? {
      UnlockerAgrees(t, a);
    } else {
      SoloAgrees(t, a);
    }
  }

  lemma StrangerStaysIdle(t: State, a: Action, h: nat)
    requires MP.Inv(t.s) && Places(t) && Enabled(t, a) && |t.pcs| <= h
    ensures M.PhaseOf(Next(t, a).s, h).Idle?
  {
    var step := MutexStep(t, a);
    if step.Some? {
      MP.BystanderCarried(t.s, step.value, h);
    }
  }

  /** A coroutine that does not act is only handed the lock or let go by the condition variable. */
  lemma OtherMoves(t: State, a: Action, i: nat)
    requires MP.Inv(t.s) && Enabled(t, a) && i < |t.pcs| && i != a.i
    ensures var p, q := M.PhaseOf(t.s, i), M.PhaseOf(Next(t, a).s, i);
            || q == p
            || (p.Parked? && q == M.Granted(p.origin))
            || (a.Visit? && FrontHolds(t) && i == Owner(t.c, t.id) && p == M.Waiting(CV)
                && (q == M.Parked(M.ByWait(CV)) || q == M.Granted(M.ByWait(CV))))
  {
    var step := MutexStep(t, a);
    if step.Some? {
      MP.BystanderCarried(t.s, step.value, i);
    }
  }

  /** Only the second update completes a turn. */
  lemma NextTurn(t: State, a: Action)
    requires Enabled(t, a)
    ensures Turn(Next(t, a)) == Turn(t) + if a.DoSecond? then 1 else 0
  {
  }

  /** Predicates are evaluated only when no turn is half taken. */
  lemma PredicateInTurn(t: State, a: Action)
    requires MP.Exclusive(t.s) && Places(t) && Output(t) && Enabled(t, a) && (a.Check? || a.Visit?)
    ensures t.id == Turn(t)
  {
    NobodyElseAt(t, a.i, AtSecond);
  }

  /** Taking a turn. */
  lemma SecondTurn(t: State, a: Action)
    requires Places(t) && Turns(t) && Enabled(t, a) && a.DoSecond?
    ensures TurnOf(Next(t, a), a.i)
  {
    assert TurnOf(t, a.i);
    NextTurn(t, a);
    TurnsLeft(t.c, Turn(t), a.i);
  }

  lemma SubjectTurn(t: State, a: Action)
    requires MP.Inv(t.s) && Places(t) && Turns(t) && Output(t) && Enabled(t, a) && !a.DoSecond?
    ensures TurnOf(Next(t, a), a.i)
  {
    assert TurnOf(t, a.i) && Agrees(t.pcs[a.i], M.PhaseOf(t.s, a.i));
    NextTurn(t, a);
    TurnsLeft(t.c, Turn(t), a.i);
    if a.Check? { PredicateInTurn(t, a); }
    if NextPc(t, a).Suspended? { SubjectReleased(t, a); }
    ReleasedResumes(t, a);
  }

  /** Only a coroutine that was let go is resumed out of the wait. */
  lemma ReleasedResumes(t: State, a: Action)
    requires Places(t) && Enabled(t, a)
    ensures a.Resume? && t.pcs[a.i].Suspended? ==> Released(M.PhaseOf(t.s, a.i))
  {
  }

  /** A coroutine that has just unlocked or joined the queue has not been let go. */
  lemma SubjectReleased(t: State, a: Action)
    requires MP.Inv(t.s) && Places(t) && Enabled(t, a)
    requires NextPc(t, a).Suspended?
    ensures !Released(M.PhaseOf(Next(t, a).s, a.i))
  {
    if a.WaitUnlock? { MP.ReleaseMovesOwner(t.s, a.i, M.Leaving(CV)); }
  }

  lemma OtherTurn(t: State, a: Action, i: nat)
    requires MP.Inv(t.s) && Places(t) && Turns(t) && Output(t) && Enabled(t, a) && i < |t.pcs| && i != a.i
    ensures TurnOf(Next(t, a), i)
  {
    OtherMoves(t, a, i);
    NextTurn(t, a);
    assert TurnOf(t, i) && TurnOf(t, a.i) && Agrees(t.pcs[i], M.PhaseOf(t.s, i));
    OneLockHolder(t, i, a.i);
    if a.Visit? { PredicateInTurn(t, a); }
  }

  lemma NextTurns(t: State, a: Action)
    requires MP.Inv(t.s) && Places(t) && Turns(t) && Output(t) && Enabled(t, a)
    ensures Turns(Next(t, a))
  {
    assert TurnOf(t, a.i);
    var u := Next(t, a);
    NextTurn(t, a);
    TurnsLeft(t.c, Turn(t), a.i);
    forall i | 0 <= i < |u.pcs| ensures TurnOf(u, i) {
      if i != a.i {
        OtherTurn(t, a, i);
      } else if a.DoSecond? {
        SecondTurn(t, a);
      } else {
        SubjectTurn(t, a);
      }
    }
  }

  /** Somebody is between the two updates exactly if somebody was or begins, and does not end. */
  lemma NextSecond(t: State, a: Action)
    requires MP.Exclusive(t.s) && Places(t) && Enabled(t, a)
    ensures AtSecond in Next(t, a).pcs <==> a.DoFirst? || (AtSecond in t.pcs && !a.DoSecond?)
    ensures a.DoFirst? ==> AtSecond !in t.pcs
    ensures a.DoSecond? ==> AtSecond in t.pcs
  {
    var u := Next(t, a);
    assert u.pcs[a.i] == NextPc(t, a);
    if a.DoFirst? {
      NobodyElseAt(t, a.i, AtSecond);
    } else if a.DoSecond? {
      forall j | 0 <= j < |u.pcs| ensures u.pcs[j] != AtSecond {
        OneLockHolder(t, a.i, j);
      }
    } else {
      assert NextPc(t, a) != AtSecond && t.pcs[a.i] != AtSecond;
      if AtSecond in t.pcs {
        var j :| 0 <= j < |t.pcs| && t.pcs[j] == AtSecond;
        assert u.pcs[j] == AtSecond;
      }
    }
  }

  lemma NextOutput(t: State, a: Action)
    requires MP.Inv(t.s) && Places(t) && Turns(t) && Output(t) && Enabled(t, a)
    ensures Output(Next(t, a))
  {
    assert TurnOf(t, a.i);
    NextSecond(t, a);
  }

  lemma NextSpinlock(t: State, a: Action)
    requires MP.Inv(t.s) && Places(t) && Spinlock(t) && Enabled(t, a)
    ensures Spinlock(Next(t, a))
  {
    var u := Next(t, a);
    SameSpinlock(t, a);
    if a.Notify? || a.Visit? {
      assert u.pcs[a.i] == Visiting;
    } else if a.NotifyEnd? {
      forall j | 0 <= j < |t.pcs| && j != a.i ensures !u.pcs[j].Visiting? {
        OneLockHolder(t, j, a.i);
      }
    } else {
      assert !t.pcs[a.i].Visiting? && !NextPc(t, a).Visiting?;
      if M.CvOf(t.s, CV).visiting.Some? {
        var j :| 0 <= j < |t.pcs| && t.pcs[j] == Visiting;
        assert u.pcs[j] == Visiting;
      }
    }
  }

  /** Only the notify actions touch the spinlock of the condition variable. */
  lemma SameSpinlock(t: State, a: Action)
    requires Enabled(t, a)
    ensures var v, w := M.CvOf(t.s, CV), M.CvOf(Next(t, a).s, CV);
            match a
            case Notify(_) => w.visiting.Some?
            case Visit(_) => w.visiting.Some?
            case NotifyEnd(_) => w.visiting.None?
            case WaitPush(_) => w.visiting == v.visiting
            case _ => w == v
  {
  }

  // ---------- Who is still going to be looked at ----------

  /** A waiter among those still to be visited is either let go or still among them. */
  lemma VisitKeepsFront(q: seq<nat>, r: nat, x: nat)
    requires 0 < r <= |q| && x in q[..r] && x != q[0]
    ensures x in (q[1..] + [q[0]])[..r - 1]
  {
    var k :| 0 <= k < r && q[..r][k] == x;
    assert (q[1..] + [q[0]])[..r - 1][k - 1] == x;
  }

  lemma NextCovered(t: State, a: Action, lost: bool)
    requires Inv(t, lost) && Enabled(t, a)
    ensures Covered(Next(t, a), lost || PushesLate(t, a))
  {
    var u := Next(t, a);
    NextTurn(t, a);
    if !lost && !PushesLate(t, a) && OwnerWaits(u) {
      if a.DoSecond? {
        assert u.pcs[a.i] == Notifying;
      } else if a.i == Owner(t.c, Turn(t)) {
        CoveredOwnStep(t, a);
      } else {
        TurnsLeft(t.c, Turn(t), a.i);
        OtherMoves(t, a, Owner(t.c, Turn(t)));
        CoveredElsewhere(t, a);
      }
    }
  }

  lemma NotifierStays(t: State, a: Action)
    requires Enabled(t, a) && Notifying in t.pcs && !t.pcs[a.i].Notifying?
    ensures Notifying in Next(t, a).pcs
  {
    var j :| 0 <= j < |t.pcs| && t.pcs[j] == Notifying;
    assert Next(t, a).pcs[j] == Notifying;
  }

  lemma SecondIsOwner(t: State)
    requires Turns(t) && AtSecond in t.pcs
    ensures Owner(t.c, Turn(t)) < |t.pcs| && t.pcs[Owner(t.c, Turn(t))].AtSecond?
    ensures t.left[Owner(t.c, Turn(t))] > 0
  {
    var j :| 0 <= j < |t.pcs| && t.pcs[j] == AtSecond;
    assert TurnOf(t, j);
  }

  lemma CoveredOwnStep(t: State, a: Action)
    requires MP.Inv(t.s) && Places(t) && Turns(t) && Output(t) && Enabled(t, a)
    requires a.i == Owner(t.c, Turn(t)) && !a.DoSecond? && !PushesLate(t, a)
    requires M.PhaseOf(Next(t, a).s, a.i) == M.Waiting(CV)
    ensures Notifying in Next(t, a).pcs
  {
    SubjectAgrees(t, a);
    assert Agrees(t.pcs[a.i], M.PhaseOf(t.s, a.i));
    assert a.WaitPush?;
    if AtSecond in t.pcs { SecondIsOwner(t); }
    NotifierStays(t, a);
  }

  lemma CoveredElsewhere(t: State, a: Action)
    requires Inv(t, false) && Enabled(t, a) && a.i != Owner(t.c, Turn(t)) && !a.DoSecond?
    requires OwnerWaits(t) && OwnerWaits(Next(t, a))
    ensures Covered(Next(t, a), false)
  {
    if a.Notify? {
      assert Owner(t.c, Turn(t)) in t.s.cvs[CV].queue;
      NotifyCovers(t, a);
    } else if a.Visit? {
      NobodyElseAt(t, a.i, Notifying);
      PredicateInTurn(t, a);
      VisitCovers(t, a);
    } else if a.NotifyEnd? {
      NobodyElseAt(t, a.i, Notifying);
    } else if a.WaitPush? {
      assert Agrees(t.pcs[a.i], M.PhaseOf(t.s, a.i));
      NotifierStays(t, a);
    } else {
      SilentCovers(t, a);
    }
  }

  /** A step that leaves the condition variable alone. */
  lemma SilentCovers(t: State, a: Action)
    requires Enabled(t, a) && !IsNotify(a) && !a.WaitPush? && !a.DoSecond?
    requires Covered(t, false) && OwnerWaits(t)
    ensures Covered(Next(t, a), false)
  {
    NextTurn(t, a);
    SameSpinlock(t, a);
    if Notifying in t.pcs { NotifierStays(t, a); }
  }

  /** Of two coroutines the one that notifies is not in the queue, so that `notify_one` looks at all of it. */
  lemma NotifyLooksAtAll(t: State, a: Action)
    requires MP.Inv(t.s) && Places(t) && Enabled(t, a) && a.Notify?
    ensures M.CvOf(Next(t, a).s, CV).visiting == Some(|M.CvOf(t.s, CV).queue|)
  {
    var q := M.CvOf(t.s, CV).queue;
    assert Agrees(t.pcs[a.i], M.PhaseOf(t.s, a.i));
    forall k | 0 <= k < |q| ensures q[k] < Size(t.c) && q[k] != a.i {
      assert q[k] in t.s.cvs[CV].queue;
      assert M.PhaseOf(t.s, q[k]) == M.Waiting(CV);
    }
    if t.c.Alternate? { AtMostOne(q, 1 - a.i); }
  }

  lemma AtMostOne(q: seq<nat>, x: int)
    requires Distinct(q) && forall k :: 0 <= k < |q| ==> q[k] == x
    ensures |q| <= 1
  {
    if |q| > 1 { Different(q, 0, 1); }
  }

  lemma Different(q: seq<nat>, i: nat, j: nat)
    requires Distinct(q) && i < j < |q|
    ensures q[i] != q[j]
  {
  }

  lemma NotifyCovers(t: State, a: Action)
    requires MP.Inv(t.s) && Places(t) && Enabled(t, a) && a.Notify?
    requires Owner(t.c, Turn(t)) in M.CvOf(t.s, CV).queue
    ensures Covered(Next(t, a), false)
  {
    var v := M.CvOf(t.s, CV);
    NotifyLooksAtAll(t, a);
    assert v.queue[..|v.queue|] == v.queue;
  }

  lemma VisitCovers(t: State, a: Action)
    requires Enabled(t, a) && a.Visit?
    requires var v := M.CvOf(t.s, CV);
             v.visiting.Some? && v.visiting.value <= |v.queue| && Owner(t.c, Turn(t)) in v.queue[..v.visiting.value]
    requires OwnerWaits(Next(t, a)) && t.id == Turn(t)
    ensures Covered(Next(t, a), false)
  {
    var v := M.CvOf(t.s, CV);
    if v.queue[0] != Owner(t.c, Turn(t)) {
      VisitKeepsFront(v.queue, v.visiting.value, Owner(t.c, Turn(t)));
    }
  }

  lemma StaysStuck(t: State, a: Action)
    requires Inv(t, true) && Enabled(t, a)
    ensures Stuck(Next(t, a), true)
  {
    var o := Owner(t.c, Turn(t));
    assert TurnOf(t, a.i) && Agrees(t.pcs[a.i], M.PhaseOf(t.s, a.i));
    NextTurn(t, a);
    TurnsLeft(t.c, Turn(t), a.i);
    assert Agrees(t.pcs[o], M.PhaseOf(t.s, o));
    assert a.i != o;
    OtherMoves(t, a, o);
    NoNewNotifier(t, a);
  }

  lemma NextStuck(t: State, a: Action, lost: bool)
    requires Inv(t, lost) && Enabled(t, a)
    ensures Stuck(Next(t, a), lost || PushesLate(t, a))
  {
    if lost {
      StaysStuck(t, a);
    } else if PushesLate(t, a) {
      assert TurnOf(t, a.i) && Agrees(t.pcs[a.i], M.PhaseOf(t.s, a.i));
      NextTurn(t, a);
      TurnsLeft(t.c, Turn(t), a.i);
      NoNewNotifier(t, a);
    }
  }

  lemma NoNewNotifier(t: State, a: Action)
    requires Spinlock(t) && Enabled(t, a) && Notifying !in t.pcs
    requires !a.DoSecond? && (a.WaitPush? || Visiting !in t.pcs)
    ensures Notifying !in Next(t, a).pcs
    ensures Visiting !in t.pcs ==> Visiting !in Next(t, a).pcs
  {
    assert forall j :: 0 <= j < |t.pcs| && j != a.i ==> Next(t, a).pcs[j] == t.pcs[j];
  }

  lemma NextInv(t: State, a: Action, lost: bool)
    requires Inv(t, lost) && Enabled(t, a)
    ensures Inv(Next(t, a), lost || PushesLate(t, a))
  {
    NextMutex(t, a);
    NextPlaces(t, a);
    NextTurns(t, a);
    NextOutput(t, a);
    NextSpinlock(t, a);
    NextCovered(t, a, lost);
    NextStuck(t, a, lost);
  }

  lemma {:induction false} ExecInv(t: State, run: seq<Action>, lost: bool)
    requires Inv(t, lost) && ValidRun(t, run)
    ensures Inv(Exec(t, run), lost || Loses(t, run)) && Exec(t, run).c == t.c
    decreases |run|
  {
    if run != [] {
      NextInv(t, run[0], lost);
      ExecInv(Next(t, run[0]), run[1..], lost || PushesLate(t, run[0]));
    }
  }

  // ---------- What the clients compute ----------

  /** The owners of the first k turns: 0, 1, 2, ... for tickets, 0, 1, 0, 1, ... for the alternating pair. */
  ghost function Owners(c: Client, k: nat): seq<nat> {
    seq(k, (j: nat) => Owner(c, j))
  }

  /**
   In every reachable state `vec` is the owners of the turns in order, without gap or repetition, and
   only a turn in progress can make it differ in length from `id`.
   */
  lemma {:induction false} TurnsInOrder(c: Client, run: seq<Action>)
    requires ValidRun(Init(c), run)
    ensures var t := Exec(Init(c), run);
            && t.vec == Owners(c, |t.vec|)
            && |t.vec| <= Total(c)
            && (AtSecond !in t.pcs ==> |t.vec| == t.id)
            && (AtSecond in t.pcs ==> if c.Tickets? then |t.vec| == t.id + 1 else t.id == |t.vec| + 1)
  {
    InitInv(c);
    ExecInv(Init(c), run, false);
    var t := Exec(Init(c), run);
    if AtSecond in t.pcs {
      SecondIsOwner(t);
      assert TurnOf(t, Owner(c, Turn(t)));
      TurnsLeft(c, Turn(t), Owner(c, Turn(t)));
    }
  }

  lemma SomebodyHolds(t: State)
    requires MP.Inv(t.s) && Places(t) && Spinlock(t)
    ensures M.CvOf(t.s, CV).visiting.Some? || Notifying in t.pcs || AtSecond in t.pcs ==>
              exists j :: 0 <= j < |t.pcs| && HasLock(t.pcs[j])
    ensures t.s.m.locked ==> exists j :: 0 <= j < |t.pcs| && MP.Holds(t.s, j)
  {
    if t.s.m.locked {
      var h := t.s.m.acquired[|t.s.m.acquired| - 1];
      assert MP.Holds(t.s, h) && h < |t.pcs|;
    }
    if M.CvOf(t.s, CV).visiting.Some? {
      var j :| 0 <= j < |t.pcs| && t.pcs[j] == Visiting;
      assert HasLock(t.pcs[j]);
    }
    if Notifying in t.pcs {
      var j :| 0 <= j < |t.pcs| && t.pcs[j] == Notifying;
      assert HasLock(t.pcs[j]);
    }
    if AtSecond in t.pcs {
      var j :| 0 <= j < |t.pcs| && t.pcs[j] == AtSecond;
      assert HasLock(t.pcs[j]);
    }
  }

  /** The step open to a coroutine that has the lock. */
  function HolderMove(t: State, i: nat): Action
    requires i < |t.pcs|
  {
    match t.pcs[i]
    case Checking => Check(i)
    case Refused => WaitUnlock(i)
    case AtFirst => DoFirst(i)
    case AtSecond => DoSecond(i)
    case Notifying => Notify(i)
    case Visiting => if M.CvOf(t.s, CV).visiting == Some(0) then NotifyEnd(i) else Visit(i)
    case Unlocking => Unlock(i)
    case _ => Resume(i)
  }

  lemma HolderCanMove(t: State, i: nat)
    requires MP.Exclusive(t.s) && MP.CvQueues(t.s) && Places(t) && Spinlock(t)
    requires i < |t.pcs| && (HasLock(t.pcs[i]) || MP.Holds(t.s, i))
    ensures Enabled(t, HolderMove(t, i))
  {
    assert Agrees(t.pcs[i], M.PhaseOf(t.s, i));
    if t.pcs[i].Notifying? {
      NobodyElseAt(t, i, Visiting);
    }
  }

  lemma NobodyHolds(t: State)
    requires MP.Inv(t.s) && Places(t) && Spinlock(t) && Terminal(t)
    ensures forall i :: 0 <= i < |t.pcs| ==> !HasLock(t.pcs[i]) && !MP.Holds(t.s, i)
    ensures !t.s.m.locked && M.CvOf(t.s, CV).visiting.None? && Notifying !in t.pcs && AtSecond !in t.pcs
  {
    forall i | 0 <= i < |t.pcs| ensures !HasLock(t.pcs[i]) && !MP.Holds(t.s, i) {
      if HasLock(t.pcs[i]) || MP.Holds(t.s, i) { HolderCanMove(t, i); }
    }
    SomebodyHolds(t);
  }

  /** When nothing can move, everybody has finished or waits on the condition variable. */
  lemma TerminalPlaces(t: State, i: nat)
    requires MP.Inv(t.s) && Places(t) && Spinlock(t) && Terminal(t) && i < |t.pcs|
    ensures t.pcs[i].Finished? || M.PhaseOf(t.s, i) == M.Waiting(CV)
  {
    NobodyHolds(t);
    assert Agrees(t.pcs[i], M.PhaseOf(t.s, i));
    assert !Enabled(t, LockReady(i)) && !Enabled(t, LockSuspend(i)) && !Enabled(t, WaitPush(i));
  }

  /**
   When everything has come to rest, every coroutine has had all its turns if and only if no push
   into the condition variable came too late; otherwise the output stops short.
   */
  lemma {:induction false} AllServedIffNothingLost(c: Client, run: seq<Action>)
    requires ValidRun(Init(c), run) && Terminal(Exec(Init(c), run))
    ensures var t := Exec(Init(c), run);
            && (t.vec == Owners(c, Total(c)) <==> !Loses(Init(c), run))
            && (Loses(Init(c), run) ==> |t.vec| < Total(c) && t.vec == Owners(c, |t.vec|))
  {
    InitInv(c);
    ExecInv(Init(c), run, false);
    var t := Exec(Init(c), run);
    RestingOutput(t, Loses(Init(c), run));
    assert |Owners(c, Total(c))| == Total(c);
  }

  lemma RestingOutput(t: State, lost: bool)
    requires Inv(t, lost) && Terminal(t)
    ensures |t.vec| == Turn(t) && t.vec == Owners(t.c, |t.vec|)
    ensures lost <==> Turn(t) < Total(t.c)
  {
    NobodyHolds(t);
    if !lost && Turn(t) < Total(t.c) {
      var o := Owner(t.c, Turn(t));
      TurnsLeftOwner(t.c, Turn(t));
      assert TurnOf(t, o);
      TerminalPlaces(t, o);
    }
  }

  lemma TurnsLeftOwner(c: Client, k: nat)
    requires k < Total(c)
    ensures Owner(c, k) < Size(c) && Taken(c, k, Owner(c, k)) < Rounds(c)
  {
    TakenIs(c, k, Owner(c, k));
  }
}
