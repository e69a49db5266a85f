/**
 `coro::latch` and `coro::wait_group`, which share their code but for `add`: an atomic counter that
 is changed outside the spinlock, and a list of waiters that is kept inside it.

 The counter wraps around as in the source, modulo 2^64 for the latch and modulo 2^32 for the wait
 group (whose `int` is taken as its residue: the code only tests it for 0 and 1). The decrement and
 the drain it may lead to are two steps. A waiter takes three: a look without the spinlock, a second
 look with it, and the push; the counter may change between any two of them, also while the waiter
 holds the spinlock.
 */
module GateModel {
  import opened Prelude

  type Handle = nat

  const LATCH_MODULUS: nat := 0x1_0000_0000_0000_0000
  const WAIT_GROUP_MODULUS: nat := 0x1_0000_0000

  /**
   Progress of one `co_await gate.wait()`. `born` is how often the counter had become zero when
   `await_ready` looked at it and `at` how often when the waiter was submitted. `clear` is false for
   a waiter whose second look fell between a decrement to zero and its drain. `Looked` is past the
   second look and holds the spinlock.
   */
  datatype Phase =
    | Passed
    | Checked(born: nat)
    | Looked(born: nat, clear: bool)
    | Parked(born: nat, clear: bool)
    | Submitted(born: nat, clear: bool, at: nat)

  /**
   `holder` is the waiter that keeps the spinlock between its second look and its push; `drainers`
   counts the callers between a decrement to zero and the end of their drain; `zeros` is a history.
   */
  datatype State = State(
    modulus: nat,
    count: nat,
    waiters: seq<Handle>,
    holder: Option<Handle>,
    drainers: nat,
    phases: map<Handle, Phase>,
    submitted: seq<Handle>,
    zeros: nat)

  function Init(modulus: nat, count: nat): State {
    State(modulus, count, [], None, 0, map[], [], if count == 0 then 1 else 0)
  }

  /** `await_ready`: a lock-free load. */
  function Ready(s: State, h: Handle): State {
    s.(phases := s.phases[h := if s.count == 0 then Passed else Checked(s.zeros)])
  }

  /** The first half of `await_suspend`: takes the spinlock and looks again; at zero submits and releases it. */
  function Look(s: State, h: Handle): State
    requires h in s.phases && s.phases[h].Checked?
  {
    var born := s.phases[h].born;
    if s.count == 0 then
      s.(phases := s.phases[h := Submitted(born, true, s.zeros)], submitted := s.submitted + [h])
    else
      s.(phases := s.phases[h := Looked(born, s.drainers == 0)], holder := Some(h))
  }

  /** The second half: pushes and releases the spinlock, whatever the counter is by now. */
  function Park(s: State, h: Handle): State
    requires h in s.phases && s.phases[h].Looked?
  {
    s.(phases := s.phases[h := Parked(s.phases[h].born, s.phases[h].clear)],
       waiters := s.waiters + [h], holder := None)
  }

  /** The wrapped sum. */
  function Plus(s: State, n: int): (c: nat)
    requires s.modulus > 0
    ensures c < s.modulus
  {
    (s.count + n) % s.modulus
  }

  /** The new counter value, recorded when it has become zero. */
  function SetCount(s: State, c: nat): State {
    s.(count := c, zeros := s.zeros + if c == 0 && s.count != 0 then 1 else 0)
  }

  /** The `fetch_sub` of `count_down` and `done`. */
  function Down(s: State): State
    requires s.modulus > 0
  {
    SetCount(s, Plus(s, -1)).(drainers := s.drainers + if s.count == 1 then 1 else 0)
  }

  /** `wait_group::add`. */
  function Add(s: State, n: int): State
    requires s.modulus > 0
  {
    SetCount(s, Plus(s, n))
  }

  function SubmitAll(phases: map<Handle, Phase>, hs: seq<Handle>, at: nat): map<Handle, Phase> {
    map h | h in phases ::
      if h in hs && phases[h].Parked? then Submitted(phases[h].born, phases[h].clear, at) else phases[h]
  }

  /** The locked half of `count_down` and `done`: submits and clears the waiters. */
  function Drain(s: State): State
    requires s.drainers > 0
  {
    s.(drainers := s.drainers - 1, waiters := [],
       phases := SubmitAll(s.phases, s.waiters, s.zeros),
       submitted := s.submitted + s.waiters)
  }

  datatype Action = DoReady(h: Handle) | DoLook(h: Handle) | DoPark(h: Handle) | DoDown | DoAdd(n: int) | DoDrain

  predicate Enabled(s: State, a: Action) {
    && s.modulus > 0
    && match a
       case DoReady(h) => h !in s.phases
       case DoLook(h) => h in s.phases && s.phases[h].Checked? && s.holder.None?
       case DoPark(h) => h in s.phases && s.phases[h].Looked? && s.holder == Some(h)
       case DoDown => true
       case DoAdd(_) => true
       case DoDrain => s.drainers > 0 && s.holder.None?
  }

  function Next(s: State, a: Action): State
    requires Enabled(s, a)
  {
    match a
    case DoReady(h) => Ready(s, h)
    case DoLook(h) => Look(s, h)
    case DoPark(h) => Park(s, h)
    case DoDown => Down(s)
    case DoAdd(n) => Add(s, n)
    case DoDrain => Drain(s)
  }

  predicate ValidRun(s: State, run: seq<Action>)
    decreases |run|
  {
    run == [] || (Enabled(s, run[0]) && ValidRun(Next(s, run[0]), run[1..]))
  }

  function Exec(s: State, run: seq<Action>): State
    requires ValidRun(s, run)
    decreases |run|
  {
    if run == [] then s else Exec(Next(s, run[0]), run[1..])
  }
}

module GateProofs {
  import opened Prelude
  import opened GateModel

  ghost predicate Queues(s: State) {
    && s.modulus > 1 && s.count < s.modulus
    && Distinct(s.waiters) && Distinct(s.submitted)
    && (forall h :: h in s.waiters ==> h in s.phases)
    && (forall h :: h in s.submitted ==> h in s.phases)
    && (forall h :: h in s.phases ==> (h in s.waiters <==> s.phases[h].Parked?))
    && (forall h :: h in s.phases ==> (h in s.submitted <==> s.phases[h].Submitted?))
    && (forall h :: h in s.phases ==> (s.holder == Some(h) <==> s.phases[h].Looked?))
    && (s.holder.Some? ==> s.holder.value in s.phases)
  }

  /** What a waiter can conclude from how often the counter has become zero. */
  ghost predicate Honest(s: State, p: Phase) {
    match p
    case Passed => s.zeros > 0
    case Checked(born) => born <= s.zeros && (s.count == 0 ==> born < s.zeros)
    case Looked(born, clear) =>
      born <= s.zeros && (clear && (s.count == 0 || s.drainers > 0) ==> born < s.zeros)
    case Parked(born, clear) => born <= s.zeros && (clear && (s.count == 0 || s.drainers > 0) ==> born < s.zeros)
    case Submitted(born, clear, at) => born <= at <= s.zeros && (clear ==> born < at)
  }

  ghost predicate Releases(s: State) {
    && (s.count == 0 ==> s.zeros > 0)
    && forall h :: h in s.phases ==> Honest(s, s.phases[h])
  }

  /** Somebody is parked, or holds the spinlock and is going to park whatever the counter becomes. */
  predicate Committed(s: State) {
    s.waiters != [] || s.holder.Some?
  }

  /** Nobody is parked or about to park at a zero counter unless somebody is about to drain. */
  predicate NoStranding(s: State) {
    s.count == 0 && Committed(s) ==> s.drainers > 0
  }

  ghost predicate Inv(s: State) {
    Queues(s) && Releases(s)
  }

  lemma InitInv(modulus: nat, count: nat)
    requires count < modulus && modulus > 1
    ensures Inv(Init(modulus, count)) && NoStranding(Init(modulus, count))
  {
  }

  /** The decrement lands on zero exactly when the counter was one, whatever the width and however often it wraps. */
  lemma DownLandsOnZero(s: State)
    requires s.modulus > 1 && s.count < s.modulus
    ensures Plus(s, -1) == 0 <==> s.count == 1
    ensures s.count > 0 ==> Plus(s, -1) == s.count - 1
  {
    if s.count == 0 {
      assert (s.count - 1) % s.modulus == s.modulus - 1;
    }
  }

  lemma NextQueues(s: State, a: Action)
    requires Queues(s) && Enabled(s, a)
    ensures Queues(Next(s, a))
  {
    if a.DoDrain? {
      forall i | 0 <= i < |s.waiters| ensures s.waiters[i] !in s.submitted {
        assert s.waiters[i] in s.waiters;
      }
    }
  }

  lemma NextReleases(s: State, a: Action)
    requires Queues(s) && Releases(s) && Enabled(s, a)
    ensures Releases(Next(s, a))
  {
    DownLandsOnZero(s);
  }

  lemma NextInv(s: State, a: Action)
    requires Inv(s) && Enabled(s, a)
    ensures Inv(Next(s, a))
  {
    NextQueues(s, a);
    NextReleases(s, a);
  }

  lemma {:induction false} ExecInv(s: State, run: seq<Action>)
    requires Inv(s) && ValidRun(s, run)
    ensures Inv(Exec(s, run))
    decreases |run|
  {
    if run != [] {
      NextInv(s, run[0]);
      ExecInv(Next(s, run[0]), run[1..]);
    }
  }

  // ---------- Nobody is left behind ----------

  /** An `add` that itself brings the counter to zero. */
  predicate AddEmpties(s: State, a: Action) {
    a.DoAdd? && s.modulus > 0 && s.count != 0 && Plus(s, a.n) == 0
  }

  /**
   One step leaves a waiter behind exactly when an `add` empties the counter with no drain pending
   while somebody is parked or about to park.
   */
  lemma StrandsIff(s: State, a: Action)
    requires Inv(s) && NoStranding(s) && Enabled(s, a)
    ensures NoStranding(Next(s, a)) <==> !(AddEmpties(s, a) && Committed(s) && s.drainers == 0)
  {
    DownLandsOnZero(s);
  }

  /** No `add` of the run empties the counter. */
  predicate NoAddEmpties(s: State, run: seq<Action>)
    requires ValidRun(s, run)
    decreases |run|
  {
    run != [] ==> !AddEmpties(s, run[0]) && NoAddEmpties(Next(s, run[0]), run[1..])
  }

  /**
   Whenever the counter is zero and a waiter is parked, some caller is between its decrement and the
   end of its drain: for every run of a latch, wrapped counters included, and for every run of a
   wait group in which no `add` empties the counter.
   */
  lemma {:induction false} NeverStrands(s: State, run: seq<Action>)
    requires Inv(s) && NoStranding(s) && ValidRun(s, run) && NoAddEmpties(s, run)
    ensures NoStranding(Exec(s, run))
    decreases |run|
  {
    if run != [] {
      NextInv(s, run[0]);
      StrandsIff(s, run[0]);
      NeverStrands(Next(s, run[0]), run[1..]);
    }
  }

  /** The calls a wait group is meant for: positive adds that do not overflow, and no more `done` than was added. */
  predicate Disciplined(s: State, a: Action) {
    && (a.DoAdd? ==> 0 < a.n && s.count + a.n < s.modulus)
    && (a.DoDown? ==> s.count > 0)
  }

  predicate DisciplinedRun(s: State, run: seq<Action>)
    requires ValidRun(s, run)
    decreases |run|
  {
    run != [] ==> Disciplined(s, run[0]) && DisciplinedRun(Next(s, run[0]), run[1..])
  }

  /** A latch has no `add`. */
  predicate NoAdds(run: seq<Action>) {
    forall k :: 0 <= k < |run| ==> !run[k].DoAdd?
  }

  lemma {:induction false} LatchHasNoEmptyingAdd(s: State, run: seq<Action>)
    requires ValidRun(s, run) && NoAdds(run)
    ensures NoAddEmpties(s, run)
    decreases |run|
  {
    if run != [] {
      LatchHasNoEmptyingAdd(Next(s, run[0]), run[1..]);
    }
  }

  lemma {:induction false} DisciplineHasNoEmptyingAdd(s: State, run: seq<Action>)
    requires ValidRun(s, run) && DisciplinedRun(s, run)
    ensures NoAddEmpties(s, run)
    decreases |run|
  {
    if run != [] {
      if run[0].DoAdd? {
        DisciplinedAdd(s, run[0].n);
      }
      DisciplineHasNoEmptyingAdd(Next(s, run[0]), run[1..]);
    }
  }

  /** A latch never leaves a waiter behind, however often it is counted down. */
  lemma {:induction false} LatchNeverStrands(count: nat, run: seq<Action>)
    requires count < LATCH_MODULUS && ValidRun(Init(LATCH_MODULUS, count), run) && NoAdds(run)
    ensures NoStranding(Exec(Init(LATCH_MODULUS, count), run))
  {
    var s := Init(LATCH_MODULUS, count);
    InitInv(LATCH_MODULUS, count);
    LatchHasNoEmptyingAdd(s, run);
    NeverStrands(s, run);
  }

  /** Nor does a wait group that is reused by positive adds and not decremented more often than was added. */
  lemma {:induction false} WaitGroupNeverStrands(count: nat, run: seq<Action>)
    requires count < WAIT_GROUP_MODULUS && ValidRun(Init(WAIT_GROUP_MODULUS, count), run)
    requires DisciplinedRun(Init(WAIT_GROUP_MODULUS, count), run)
    ensures NoStranding(Exec(Init(WAIT_GROUP_MODULUS, count), run))
  {
    var s := Init(WAIT_GROUP_MODULUS, count);
    InitInv(WAIT_GROUP_MODULUS, count);
    DisciplineHasNoEmptyingAdd(s, run);
    NeverStrands(s, run);
  }

  /** A negative add can leave a parked waiter behind for good. */
  lemma NegativeAddStrands() returns (run: seq<Action>, s: State)
    ensures ValidRun(Init(WAIT_GROUP_MODULUS, 1), run) && s == Exec(Init(WAIT_GROUP_MODULUS, 1), run)
    ensures s.count == 0 && s.waiters == [5] && s.drainers == 0 && s.holder.None?
  {
    var s0 := Init(WAIT_GROUP_MODULUS, 1);
    var s1 := Next(s0, DoReady(5));
    var s2 := Next(s1, DoLook(5));
    var s3 := Next(s2, DoPark(5));
    var s4 := Next(s3, DoAdd(-1));
    Prepend(s3, DoAdd(-1), []);
    assert [DoAdd(-1)] + [] == [DoAdd(-1)];
    Prepend(s2, DoPark(5), [DoAdd(-1)]);
    assert [DoPark(5)] + [DoAdd(-1)] == [DoPark(5), DoAdd(-1)];
    Prepend(s1, DoLook(5), [DoPark(5), DoAdd(-1)]);
    assert [DoLook(5)] + [DoPark(5), DoAdd(-1)] == [DoLook(5), DoPark(5), DoAdd(-1)];
    Prepend(s0, DoReady(5), [DoLook(5), DoPark(5), DoAdd(-1)]);
    assert [DoReady(5)] + [DoLook(5), DoPark(5), DoAdd(-1)] == [DoReady(5), DoLook(5), DoPark(5), DoAdd(-1)];
    run, s := [DoReady(5), DoLook(5), DoPark(5), DoAdd(-1)], s4;
  }

  /** It need not meet a parked waiter: one that is past its second look goes on to park at zero. */
  lemma AddBeforePushStrands() returns (run: seq<Action>, s: State)
    ensures ValidRun(Init(WAIT_GROUP_MODULUS, 1), run) && s == Exec(Init(WAIT_GROUP_MODULUS, 1), run)
    ensures run == [DoReady(5), DoLook(5), DoAdd(-1), DoPark(5)]
    ensures s.count == 0 && s.waiters == [5] && s.drainers == 0 && s.holder.None?
  {
    var s0 := Init(WAIT_GROUP_MODULUS, 1);
    var s1 := Next(s0, DoReady(5));
    var s2 := Next(s1, DoLook(5));
    var s3 := Next(s2, DoAdd(-1));
    var s4 := Next(s3, DoPark(5));
    Prepend(s3, DoPark(5), []);
    assert [DoPark(5)] + [] == [DoPark(5)];
    Prepend(s2, DoAdd(-1), [DoPark(5)]);
    assert [DoAdd(-1)] + [DoPark(5)] == [DoAdd(-1), DoPark(5)];
    Prepend(s1, DoLook(5), [DoAdd(-1), DoPark(5)]);
    assert [DoLook(5)] + [DoAdd(-1), DoPark(5)] == [DoLook(5), DoAdd(-1), DoPark(5)];
    Prepend(s0, DoReady(5), [DoLook(5), DoAdd(-1), DoPark(5)]);
    assert [DoReady(5)] + [DoLook(5), DoAdd(-1), DoPark(5)] == [DoReady(5), DoLook(5), DoAdd(-1), DoPark(5)];
    run, s := [DoReady(5), DoLook(5), DoAdd(-1), DoPark(5)], s4;
  }

  // ---------- Nobody gets through too early ----------

  /** Disciplined, and no `add` while somebody is about to drain. */
  predicate Careful(s: State, a: Action) {
    Disciplined(s, a) && (a.DoAdd? ==> s.drainers == 0)
  }

  predicate CarefulRun(s: State, run: seq<Action>)
    requires ValidRun(s, run)
    decreases |run|
  {
    run != [] ==> Careful(s, run[0]) && CarefulRun(Next(s, run[0]), run[1..])
  }

  predicate WasParking(p: Phase) {
    p.Looked? || p.Parked? || p.Submitted?
  }

  /** A drain is pending only at zero, so nobody ever parks beside one. */
  ghost predicate Tidy(s: State) {
    && (s.drainers > 0 ==> s.count == 0)
    && (forall h :: h in s.phases && WasParking(s.phases[h]) ==> s.phases[h].clear)
  }

  /** The counter was zero at some moment of the wait of every waiter that has been let through. */
  ghost predicate NobodyEarly(s: State) {
    forall h :: h in s.phases && s.phases[h].Submitted? ==> s.phases[h].born < s.phases[h].at
  }

  lemma {:induction false} CarefulNeverEarly(s: State, run: seq<Action>)
    requires Inv(s) && Tidy(s) && ValidRun(s, run) && CarefulRun(s, run)
    ensures Tidy(Exec(s, run)) && NobodyEarly(Exec(s, run))
    decreases |run|
  {
    if run != [] {
      NextInv(s, run[0]);
      DownLandsOnZero(s);
      assert Tidy(Next(s, run[0]));
      CarefulNeverEarly(Next(s, run[0]), run[1..]);
    }
  }

  /** After an `add` that races a pending drain, a newcomer is let through too early by that drain. */
  lemma NewcomerReleasedEarly(s: State, h: Handle)
    requires Inv(s) && s.drainers > 0 && s.count > 0 && h !in s.phases && s.holder.None?
    ensures var run := [DoReady(h), DoLook(h), DoPark(h), DoDrain];
            && ValidRun(s, run) && CarefulRun(s, run) && !NobodyEarly(Exec(s, run))
            && var t := Exec(s, run);
               && t.count == s.count && t.submitted == s.submitted + (s.waiters + [h])
               && h in t.phases && t.phases[h] == Submitted(s.zeros, false, s.zeros)
  {
    var s1 := Next(s, DoReady(h));
    var s2 := Next(s1, DoLook(h));
    var s3 := Next(s2, DoPark(h));
    var s4 := Next(s3, DoDrain);
    assert s3.phases[h] == Parked(s.zeros, false) && h in s3.waiters;
    assert s4.phases[h] == Submitted(s.zeros, false, s.zeros);
    var r4 := [DoDrain];
    var r3 := [DoPark(h)] + r4;
    var r2 := [DoLook(h)] + r3;
    var run := [DoReady(h)] + r2;
    assert r4[1..] == [] && r3[1..] == r4 && r2[1..] == r3 && run[1..] == r2;
    assert ValidRun(s3, r4) && Exec(s3, r4) == s4 && CarefulRun(s3, r4);
    assert ValidRun(s2, r3) && Exec(s2, r3) == s4 && CarefulRun(s2, r3);
    assert ValidRun(s1, r2) && Exec(s1, r2) == s4 && CarefulRun(s1, r2);
    assert run == [DoReady(h), DoLook(h), DoPark(h), DoDrain];
  }

  /** Whoever holds the spinlock pushes first. */
  lemma HolderGoesFirst(s: State, h: Handle) returns (run: seq<Action>)
    requires Inv(s) && s.drainers > 0 && s.count > 0 && h !in s.phases
    ensures ValidRun(s, run) && CarefulRun(s, run) && !NobodyEarly(Exec(s, run))
  {
    if s.holder.None? {
      NewcomerReleasedEarly(s, h);
      run := [DoReady(h), DoLook(h), DoPark(h), DoDrain];
    } else {
      var a := DoPark(s.holder.value);
      NextInv(s, a);
      NewcomerReleasedEarly(Next(s, a), h);
      var rest := [DoReady(h), DoLook(h), DoPark(h), DoDrain];
      run := [a] + rest;
      assert run[1..] == rest;
    }
  }

  /** Some careful continuation lets a waiter through too early. */
  ghost predicate CanGoWrong(s: State) {
    exists run :: ValidRun(s, run) && CarefulRun(s, run) && !NobodyEarly(Exec(s, run))
  }

  /** A positive add that does not overflow. */
  lemma DisciplinedAdd(s: State, n: int)
    requires s.modulus > 0 && Disciplined(s, DoAdd(n))
    ensures Next(s, DoAdd(n)) == s.(count := s.count + n) && s.count + n > 0
  {
    SmallRemainder(s.count + n, s.modulus);
  }

  lemma SmallRemainder(x: nat, m: nat)
    requires x < m
    ensures x % m == x
  {
  }

  lemma RacingAddIsUnsafe(t: State, h: Handle)
    requires Inv(t) && t.drainers > 0 && t.count > 0 && h !in t.phases
    ensures CanGoWrong(t)
  {
    var run := HolderGoesFirst(t, h);
  }

  lemma {:induction false} TidyIsSafe(t: State)
    requires Inv(t) && Tidy(t)
    ensures !CanGoWrong(t)
  {
    forall run | ValidRun(t, run) && CarefulRun(t, run) ensures NobodyEarly(Exec(t, run)) {
      CarefulNeverEarly(t, run);
    }
  }

  /** In a run that was careful so far, an `add` opens the way to an early release exactly when a drain is pending. */
  lemma {:induction false} AddIsUnsafeIff(s: State, n: int, h: Handle)
    requires Inv(s) && Tidy(s) && s.modulus > 0 && Disciplined(s, DoAdd(n)) && h !in s.phases
    ensures CanGoWrong(Next(s, DoAdd(n))) <==> s.drainers > 0
  {
    var t := Next(s, DoAdd(n));
    NextInv(s, DoAdd(n));
    DisciplinedAdd(s, n);
    if s.drainers > 0 {
      RacingAddIsUnsafe(t, h);
    } else {
      TidyIsSafe(t);
    }
  }

  /** A waiter whose second look found no drain pending is never let through too early, whatever the others do. */
  lemma {:induction false} ClearWaiterNeverEarly(s: State, run: seq<Action>, t: State, h: Handle)
    requires Inv(s) && ValidRun(s, run) && t == Exec(s, run)
    requires h in t.phases && t.phases[h].Submitted? && t.phases[h].clear
    ensures t.phases[h].born < t.phases[h].at <= t.zeros
  {
    ExecInv(s, run);
    assert Honest(t, t.phases[h]);
  }

  /**
   An `add` that races a pending drain lets a waiter of the new round through although the counter
   never was zero for it.
   */
  lemma AddRacingDrainReleasesEarly() returns (run: seq<Action>, s: State)
    ensures ValidRun(Init(WAIT_GROUP_MODULUS, 1), run) && s == Exec(Init(WAIT_GROUP_MODULUS, 1), run)
    ensures s.count == 1 && 5 in s.phases && s.phases[5] == Submitted(1, false, 1) && s.submitted == [5]
  {
    var s0 := Init(WAIT_GROUP_MODULUS, 1);
    var rest := [DoReady(5), DoLook(5), DoPark(5), DoDrain];
    var s2 := RacedState();
    NewcomerReleasedEarly(s2, 5);
    assert s2.submitted + (s2.waiters + [5]) == [5];
    Prepend(Next(s0, DoDown), DoAdd(1), rest);
    Prepend(s0, DoDown, [DoAdd(1)] + rest);
    run, s := [DoDown] + ([DoAdd(1)] + rest), Exec(s2, rest);
  }

  lemma {:induction false} Prepend(s: State, a: Action, run: seq<Action>)
    requires Enabled(s, a) && ValidRun(Next(s, a), run)
    ensures ValidRun(s, [a] + run) && Exec(s, [a] + run) == Exec(Next(s, a), run)
  {
    assert ([a] + run)[1..] == run;
  }

  /** An `add` has come between the decrement to zero and its drain. */
  lemma RacedState() returns (s: State)
    ensures s == Next(Next(Init(WAIT_GROUP_MODULUS, 1), DoDown), DoAdd(1)) && Inv(s)
    ensures s.count == 1 && s.drainers == 1 && s.zeros == 1
    ensures s.waiters == [] && s.submitted == [] && s.holder.None? && s.phases == map[]
  {
    var s0 := Init(WAIT_GROUP_MODULUS, 1);
    InitInv(WAIT_GROUP_MODULUS, 1);
    NextInv(s0, DoDown);
    NextInv(Next(s0, DoDown), DoAdd(1));
    s := Next(Next(s0, DoDown), DoAdd(1));
  }

  // ---------- Zero while waiting ----------

  /** `h` has asked and has not been let through. */
  predicate Waits(s: State, h: Handle) {
    h in s.phases && (s.phases[h].Checked? || s.phases[h].Looked? || s.phases[h].Parked?)
  }

  predicate LetThrough(s: State, h: Handle) {
    h in s.phases && (s.phases[h].Passed? || s.phases[h].Submitted?)
  }

  /** At some point of the run the counter is zero while `h` asks or waits. */
  predicate ZeroDuringWait(s: State, run: seq<Action>, h: Handle)
    requires ValidRun(s, run)
    decreases |run|
  {
    || (s.count == 0 && (Waits(s, h) || (run != [] && run[0] == DoReady(h))))
    || (run != [] && ZeroDuringWait(Next(s, run[0]), run[1..], h))
  }

  /** Once let through, for good. */
  lemma {:induction false} ThroughStays(s: State, run: seq<Action>, h: Handle)
    requires ValidRun(s, run) && LetThrough(s, h)
    ensures LetThrough(Exec(s, run), h) && Exec(s, run).phases[h] == s.phases[h]
    decreases |run|
  {
    if run != [] { ThroughStays(Next(s, run[0]), run[1..], h); }
  }

  /** The step after which `h` no longer waits, or the counter has become zero, or nothing has changed for `h`. */
  lemma WaitStep(s: State, a: Action, h: Handle)
    requires Inv(s) && Enabled(s, a) && Waits(s, h) && s.count != 0 && s.phases[h].born == s.zeros
    ensures var v := Next(s, a);
            || (Waits(v, h) && v.count == 0)
            || (Waits(v, h) && v.phases[h].born == v.zeros)
            || (LetThrough(v, h) && v.phases[h].Submitted? && !v.phases[h].clear)
  {
    NextInv(s, a);
    assert Honest(Next(s, a), Next(s, a).phases[h]);
  }

  lemma {:induction false} WaitSeesZero(s: State, run: seq<Action>, h: Handle)
    requires Inv(s) && ValidRun(s, run) && Waits(s, h) && s.phases[h].born == s.zeros
    requires LetThrough(Exec(s, run), h) && (Exec(s, run).phases[h].Submitted? ==> Exec(s, run).phases[h].clear)
    ensures ZeroDuringWait(s, run, h)
    decreases |run|
  {
    if s.count != 0 && run != [] {
      var v := Next(s, run[0]);
      NextInv(s, run[0]);
      WaitStep(s, run[0], h);
      if LetThrough(v, h) {
        ThroughStays(v, run[1..], h);
      } else if v.count != 0 {
        WaitSeesZero(v, run[1..], h);
      }
    }
  }

  /**
   Whoever has been let through, without having looked beside a pending drain, asked or waited at a
   moment when the counter was zero.
   */
  lemma {:induction false} LetThroughAtZero(s: State, run: seq<Action>, h: Handle)
    requires Inv(s) && ValidRun(s, run) && h !in s.phases
    requires LetThrough(Exec(s, run), h) && (Exec(s, run).phases[h].Submitted? ==> Exec(s, run).phases[h].clear)
    ensures ZeroDuringWait(s, run, h)
    decreases |run|
  {
    var v := Next(s, run[0]);
    NextInv(s, run[0]);
    if run[0] != DoReady(h) {
      assert h !in v.phases;
      LetThroughAtZero(v, run[1..], h);
    } else if s.count != 0 {
      WaitSeesZero(v, run[1..], h);
    }
  }

  /** With careful calls that holds for everybody. */
  lemma {:induction false} CarefulLetThroughAtZero(s: State, run: seq<Action>, h: Handle)
    requires Inv(s) && Tidy(s) && ValidRun(s, run) && CarefulRun(s, run)
    requires h !in s.phases && LetThrough(Exec(s, run), h)
    ensures ZeroDuringWait(s, run, h)
  {
    CarefulNeverEarly(s, run);
    LetThroughAtZero(s, run, h);
  }

  /** Either look of a waiter lets it through exactly when the counter is zero. */
  lemma LookLetsThroughIff(s: State, a: Action)
    requires Enabled(s, a) && (a.DoReady? || a.DoLook?)
    ensures LetThrough(Next(s, a), a.h) <==> s.count == 0
    ensures a.DoLook? && s.count == 0 ==> Next(s, a).submitted == s.submitted + [a.h]
  {
  }

  /** Parked waiters are submitted in the order in which they parked. */
  lemma ReleasedInOrder(s: State, a: Action)
    requires Enabled(s, a) && !a.DoLook?
    ensures var t := Next(s, a);
            && s.submitted <= t.submitted
            && t.submitted[|s.submitted|..] + t.waiters == s.waiters + (if a.DoPark? then [a.h] else [])
  {
    assert s.submitted[|s.submitted|..] == [];
  }

  // ---------- The counter ----------

  /** What the calls add up to. */
  function Sum(run: seq<Action>): int {
    if run == [] then 0
    else (match run[0] case DoAdd(n) => n case DoDown => -1 case _ => 0) + Sum(run[1..])
  }

  /** Equal up to a multiple of `m`. */
  ghost predicate Congruent(x: int, y: int, m: nat) {
    exists k: int :: x == y + k * m
  }

  lemma NextCount(s: State, a: Action) returns (k: int)
    requires Enabled(s, a)
    ensures Next(s, a).count == s.count + Sum([a]) + k * s.modulus && Next(s, a).modulus == s.modulus
  {
    assert [a][1..] == [];
    k := 0;
    if a.DoAdd? || a.DoDown? {
      var n := if a.DoAdd? then a.n else -1;
      k := -((s.count + n) / s.modulus);
      assert (s.count + n) % s.modulus == (s.count + n) - ((s.count + n) / s.modulus) * s.modulus;
    }
  }

  /** The counter is what it was plus what the calls add up to, wrapped. */
  lemma {:induction false} CounterIsExact(s: State, run: seq<Action>)
    requires s.count < s.modulus && ValidRun(s, run)
    ensures Exec(s, run).count < s.modulus == Exec(s, run).modulus
    ensures Congruent(Exec(s, run).count, s.count + Sum(run), s.modulus)
    decreases |run|
  {
    if run == [] {
      assert s.count == s.count + Sum(run) + 0 * s.modulus;
    } else {
      var k := NextCount(s, run[0]);
      var u, t := Next(s, run[0]), Exec(s, run);
      CounterIsExact(u, run[1..]);
      var j :| t.count == u.count + Sum(run[1..]) + j * s.modulus;
      assert Sum(run) == Sum([run[0]]) + Sum(run[1..]) by { assert [run[0]][1..] == []; }
      assert (k + j) * s.modulus == k * s.modulus + j * s.modulus;
      assert t.count == s.count + Sum(run) + (k + j) * s.modulus;
    }
  }

  // ---------- The latch ----------

  function Downs(run: seq<Action>): nat {
    if run == [] then 0 else (if run[0].DoDown? then 1 else 0) + Downs(run[1..])
  }

  lemma {:induction false} LatchRun(s: State, run: seq<Action>)
    requires Inv(s) && ValidRun(s, run) && NoAdds(run) && Downs(run) <= s.count
    ensures CarefulRun(s, run) && NoAddEmpties(s, run)
    ensures Exec(s, run).count == s.count - Downs(run)
    ensures Exec(s, run).zeros == s.zeros + if s.count > 0 && Downs(run) == s.count then 1 else 0
    decreases |run|
  {
    if run != [] {
      NextInv(s, run[0]);
      DownLandsOnZero(s);
      LatchRun(Next(s, run[0]), run[1..]);
    }
  }

  /**
   With at most `count` calls of `count_down`: a waiter gets through only when all of them have been
   made, and once the last caller has drained nobody is left waiting.
   */
  lemma {:induction false} LatchOpensExactlyAtZero(count: nat, run: seq<Action>, t: State)
    requires count < LATCH_MODULUS && ValidRun(Init(LATCH_MODULUS, count), run) && NoAdds(run) && Downs(run) <= count
    requires t == Exec(Init(LATCH_MODULUS, count), run)
    ensures forall h :: h in t.phases && (t.phases[h].Passed? || t.phases[h].Submitted?) ==> Downs(run) == count
    ensures Downs(run) == count && t.drainers == 0 ==> t.waiters == [] && t.holder.None?
    ensures Distinct(t.submitted)
  {
    var s := Init(LATCH_MODULUS, count);
    InitInv(LATCH_MODULUS, count);
    LatchRun(s, run);
    ExecInv(s, run);
    CarefulNeverEarly(s, run);
    NeverStrands(s, run);
    forall h | h in t.phases && (t.phases[h].Passed? || t.phases[h].Submitted?) ensures Downs(run) == count {
      assert Honest(t, t.phases[h]);
    }
  }
}

/** The imperative form; each method is one atomic step. */
module GateClass {
  import opened Prelude
  import opened GateModel

  class Gate {
    const modulus: nat
    var count: nat
    var waiters: seq<Handle>
    var submitted: seq<Handle>
    /** Who holds the spinlock between two accesses. */
    ghost var holder: Option<Handle>
    ghost var drainers: nat
    ghost var phases: map<Handle, Phase>
    ghost var zeros: nat

    ghost function View(): State
      reads this
    {
      State(modulus, count, waiters, holder, drainers, phases, submitted, zeros)
    }

    constructor (modulus: nat, count: nat)
      ensures View() == Init(modulus, count)
    {
      this.modulus, this.count := modulus, count;
      waiters, submitted, holder, drainers, phases := [], [], None, 0, map[];
      zeros := if count == 0 then 1 else 0;
    }

    method AwaitReady(h: Handle) returns (ready: bool)
      modifies this`phases
      ensures View() == Ready(old(View()), h) && ready == (count == 0)
    {
      ready := count == 0;
      phases := phases[h := if count == 0 then Passed else Checked(zeros)];
    }

    /** The first half of `await_suspend`, up to the load; the second half follows when `parks`. */
    method SuspendLook(h: Handle) returns (parks: bool)
      requires Enabled(View(), DoLook(h))
      modifies this
      ensures View() == Look(old(View()), h) && parks == (count != 0)
    {
      parks := count != 0;
      if !parks {
        submitted := submitted + [h];
        phases := phases[h := Submitted(phases[h].born, true, zeros)];
        return;
      }
      holder, phases := Some(h), phases[h := Looked(phases[h].born, drainers == 0)];
    }

    /** The second half: the push. Other threads may have changed the counter since the load. */
    method SuspendPark(h: Handle)
      requires Enabled(View(), DoPark(h))
      modifies this
      ensures View() == Park(old(View()), h)
    {
      waiters := waiters + [h];
      holder, phases := None, phases[h := Parked(phases[h].born, phases[h].clear)];
    }

    method FetchAdd(n: int) returns (prev: nat)
      requires modulus > 0
      modifies this`count, this`zeros
      ensures View() == Add(old(View()), n) && prev == old(count)
    {
      prev := count;
      count := (count + n) % modulus;
      if count == 0 && prev != 0 {
        zeros := zeros + 1;
      }
    }

    /** The first half of `count_down` and `done`; the second half follows when `drains`. */
    method FetchSub() returns (drains: bool)
      requires modulus > 0
      modifies this
      ensures View() == Down(old(View())) && drains == (old(count) == 1)
    {
      var prev := FetchAdd(-1);
      drains := prev == 1;
      if drains {
        drainers := drainers + 1;
      }
    }

    /** The second half: the loop over the waiters, under the spinlock. */
    method DrainWaiters()
      requires Enabled(View(), DoDrain)
      modifies this
      ensures View() == Drain(old(View()))
    {
      for i := 0 to |waiters|
        invariant waiters == old(waiters) && count == old(count) && zeros == old(zeros)
        invariant submitted == old(submitted) + waiters[..i]
        invariant drainers == old(drainers) && phases == old(phases) && holder == old(holder)
      {
        submitted := submitted + [waiters[i]];
        assert waiters[..i + 1] == waiters[..i] + [waiters[i]];
      }
      assert waiters[..|waiters|] == waiters;
      phases := SubmitAll(phases, waiters, zeros);
      waiters := [];
      drainers := drainers - 1;
    }
  }
}
