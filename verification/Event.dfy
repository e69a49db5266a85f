/**
 `coro::event`: `set` stores the value, raises the flag and submits the waiters while it holds the
 spinlock; `await_ready` reads the flag without it. The event without a value is `T = ()`.
 */
module EventModel {
  import opened Prelude

  type Handle = nat

  /** What the holder of the spinlock in `set` has done so far. */
  datatype Setter = Nobody | ValueStored | FlagRaised

  /** Progress of one `co_await event.wait()`. */
  datatype Phase<T> = Passed | Checked | Parked | Submitted | Returned(value: T)

  /** `sets` is a history: the values of the calls of `set`, in the order in which they got the spinlock. */
  datatype State<T> = State(
    isSet: bool,
    value: Option<T>,
    waiters: seq<Handle>,
    setter: Setter,
    phases: map<Handle, Phase<T>>,
    submitted: seq<Handle>,
    sets: seq<T>)

  function Init<T>(): State<T> {
    State(false, None, [], Nobody, map[], [], [])
  }

  datatype Action<T> =
    | DoReady(h: Handle)    // await_ready
    | DoSuspend(h: Handle)  // await_suspend
    | DoStore(v: T)         // set takes the spinlock and stores the value
    | DoRaise               // set stores the flag
    | DoDrain               // set submits and clears the waiters, and releases the spinlock
    | DoResume(h: Handle)   // await_resume

  predicate Enabled<T>(s: State<T>, a: Action<T>) {
    match a
    case DoReady(h) => h !in s.phases
    case DoSuspend(h) => h in s.phases && s.phases[h].Checked? && s.setter.Nobody?
    case DoStore(_) => s.setter.Nobody?
    case DoRaise => s.setter.ValueStored?
    case DoDrain => s.setter.FlagRaised?
    case DoResume(h) => h in s.phases && (s.phases[h].Passed? || s.phases[h].Submitted?) && s.value.Some?
  }

  function SubmitAll<T>(phases: map<Handle, Phase<T>>, hs: seq<Handle>): map<Handle, Phase<T>> {
    map h | h in phases :: if h in hs then Submitted else phases[h]
  }

  function Next<T>(s: State<T>, a: Action<T>): State<T>
    requires Enabled(s, a)
  {
    match a
    case DoReady(h) => s.(phases := s.phases[h := if s.isSet then Passed else Checked])
    case DoSuspend(h) =>
      if s.isSet then s.(phases := s.phases[h := Submitted], submitted := s.submitted + [h])
      else s.(phases := s.phases[h := Parked], waiters := s.waiters + [h])
    case DoStore(v) => s.(value := Some(v), setter := ValueStored, sets := s.sets + [v])
    case DoRaise => s.(isSet := true, setter := FlagRaised)
    case DoDrain =>
      s.(waiters := [], setter := Nobody,
         phases := SubmitAll(s.phases, s.waiters), submitted := s.submitted + s.waiters)
    case DoResume(h) => s.(phases := s.phases[h := Returned(s.value.value)])
  }

  predicate ValidRun<T>(s: State<T>, run: seq<Action<T>>)
    decreases |run|
  {
    run == [] || (Enabled(s, run[0]) && ValidRun(Next(s, run[0]), run[1..]))
  }

  function Exec<T>(s: State<T>, run: seq<Action<T>>): State<T>
    requires ValidRun(s, run)
    decreases |run|
  {
    if run == [] then s else Exec(Next(s, run[0]), run[1..])
  }
}

module EventProofs {
  import opened Prelude
  import opened EventModel

  /** Let through or about to be resumed. */
  predicate Through<T>(p: Phase<T>) {
    p.Passed? || p.Submitted? || p.Returned?
  }

  ghost predicate Queues<T>(s: State<T>) {
    && Distinct(s.waiters) && Distinct(s.submitted)
    && (forall h :: h in s.waiters ==> h in s.phases)
    && (forall h :: h in s.phases ==> (h in s.waiters <==> s.phases[h].Parked?))
    && (forall h :: h in s.submitted ==> h in s.phases && (s.phases[h].Submitted? || s.phases[h].Returned?))
  }

  ghost predicate Values<T>(s: State<T>) {
    && (s.value == if s.sets == [] then None else Some(s.sets[|s.sets| - 1]))
    && (s.isSet || s.setter.ValueStored? ==> s.sets != [])
    && (s.setter.FlagRaised? ==> s.isSet)
    && (!s.isSet ==> |s.sets| == if s.setter.ValueStored? then 1 else 0)
    && (s.isSet && s.waiters != [] ==> s.setter.FlagRaised?)
    && (forall h :: h in s.phases && Through(s.phases[h]) ==> s.isSet)
    && (forall h :: h in s.phases && s.phases[h].Returned? ==> s.phases[h].value in s.sets)
  }

  ghost predicate Inv<T>(s: State<T>) {
    Queues(s) && Values(s)
  }

  lemma NextQueues<T>(s: State<T>, a: Action<T>)
    requires Queues(s) && Enabled(s, a)
    ensures Queues(Next(s, a))
  {
    if a.DoDrain? {
      forall i | 0 <= i < |s.waiters| ensures s.waiters[i] !in s.submitted {
        assert s.waiters[i] in s.waiters;
      }
    }
  }

  lemma NextInv<T>(s: State<T>, a: Action<T>)
    requires Inv(s) && Enabled(s, a)
    ensures Inv(Next(s, a))
  {
    NextQueues(s, a);
  }

  lemma {:induction false} ExecInv<T>(s: State<T>, run: seq<Action<T>>)
    requires Inv(s) && ValidRun(s, run)
    ensures Inv(Exec(s, run))
    decreases |run|
  {
    if run != [] {
      NextInv(s, run[0]);
      ExecInv(Next(s, run[0]), run[1..]);
    }
  }

  /**
   No wait gets through before the event is set, each waiter is submitted at most once, nobody stays
   parked once the first `set` has finished, and what a wait returns was set; with a single `set`
   every wait returns its value.
   */
  lemma {:induction false} EventOpensOnSet<T>(run: seq<Action<T>>, s: State<T>)
    requires ValidRun(Init<T>(), run) && s == Exec(Init<T>(), run)
    ensures forall h :: h in s.phases && Through(s.phases[h]) ==> s.isSet && s.sets != []
    ensures Distinct(s.submitted)
    ensures s.isSet && s.setter.Nobody? ==> s.waiters == []
    ensures forall h :: h in s.phases && s.phases[h].Returned? ==> s.phases[h].value in s.sets
    ensures |s.sets| == 1 ==> forall h :: h in s.phases && s.phases[h].Returned? ==> s.phases[h].value == s.sets[0]
    ensures forall h :: h in s.phases && (s.phases[h].Passed? || s.phases[h].Submitted?) ==> s.value.Some?
  {
    assert Inv(Init<T>());
    ExecInv(Init<T>(), run);
  }

  // ---------- What was called ----------

  /** The values of the calls of `set`, in the order in which they got the spinlock. */
  function Stores<T>(run: seq<Action<T>>): seq<T> {
    if run == [] then [] else (if run[0].DoStore? then [run[0].v] else []) + Stores(run[1..])
  }

  lemma {:induction false} SetsAreStores<T>(s: State<T>, run: seq<Action<T>>)
    requires ValidRun(s, run)
    ensures Exec(s, run).sets == s.sets + Stores(run)
    ensures Exec(s, run).isSet <==> s.isSet || DoRaise in run
    decreases |run|
  {
    if run != [] {
      SetsAreStores(Next(s, run[0]), run[1..]);
      assert run == [run[0]] + run[1..];
    }
  }

  /** A wait returns the value stored last before it is resumed, however many were. */
  lemma {:induction false} ReturnsLatest<T>(run: seq<Action<T>>, s: State<T>, h: Handle)
    requires ValidRun(Init<T>(), run) && s == Exec(Init<T>(), run) && Enabled(s, DoResume(h))
    ensures Stores(run) != []
    ensures h in Next(s, DoResume(h)).phases
    ensures Next(s, DoResume(h)).phases[h] == Returned(Stores(run)[|Stores(run)| - 1])
  {
    assert Inv(Init<T>());
    ExecInv(Init<T>(), run);
    SetsAreStores(Init<T>(), run);
    assert s.sets == Stores(run);
  }

  /** Either look of a waiter lets it through exactly when the event is set. */
  lemma LookLetsThroughIff<T>(s: State<T>, a: Action<T>)
    requires Enabled(s, a) && (a.DoReady? || a.DoSuspend?)
    ensures a.h in Next(s, a).phases
    ensures Through(Next(s, a).phases[a.h]) <==> s.isSet
    ensures a.DoSuspend? && s.isSet ==> Next(s, a).submitted == s.submitted + [a.h]
  {
  }

  /** Parked waiters are submitted in the order in which they parked. */
  lemma ReleasedInOrder<T>(s: State<T>, a: Action<T>)
    requires Enabled(s, a) && !(a.DoSuspend? && s.isSet)
    ensures var t := Next(s, a);
            && s.submitted <= t.submitted
            && t.submitted[|s.submitted|..] + t.waiters == s.waiters + (if a.DoSuspend? then [a.h] else [])
  {
    assert s.submitted[|s.submitted|..] == [];
  }
}

/** The imperative form of `set` and the awaiter. */
module EventClass {
  import opened Prelude
  import opened EventModel

  class Event<T> {
    var isSet: bool
    var value: Option<T>
    var waiters: seq<Handle>
    var submitted: seq<Handle>
    ghost var setter: Setter
    ghost var phases: map<Handle, Phase<T>>
    ghost var sets: seq<T>

    ghost function View(): State<T>
      reads this
    {
      State(isSet, value, waiters, setter, phases, submitted, sets)
    }

    constructor ()
      ensures View() == Init<T>()
    {
      isSet, value, waiters, submitted := false, None, [], [];
      setter, phases, sets := Nobody, map[], [];
    }

    method AwaitReady(h: Handle) returns (ready: bool)
      requires Enabled(View(), DoReady(h))
      modifies this`phases
      ensures View() == Next(old(View()), DoReady(h)) && ready == isSet
    {
      ready := isSet;
      phases := phases[h := if isSet then Passed else Checked];
    }

    method AwaitSuspend(h: Handle)
      requires Enabled(View(), DoSuspend(h))
      modifies this
      ensures View() == Next(old(View()), DoSuspend(h))
    {
      if isSet {
        submitted := submitted + [h];
        phases := phases[h := Submitted];
        return;
      }
      waiters := waiters + [h];
      phases := phases[h := Parked];
    }

    /** The three steps of `set`, made in one critical section. */
    method Set(v: T)
      requires setter.Nobody?
      modifies this
      ensures View() == Next(Next(Next(old(View()), DoStore(v)), DoRaise), DoDrain)
    {
      value, sets := Some(v), sets + [v];
      isSet := true;
      SubmitWaiters();
    }

    method SubmitWaiters()
      modifies this`waiters, this`submitted, this`phases
      ensures waiters == [] && submitted == old(submitted) + old(waiters)
      ensures phases == SubmitAll(old(phases), old(waiters))
    {
      for i := 0 to |waiters|
        invariant waiters == old(waiters) && phases == old(phases)
        invariant submitted == old(submitted) + waiters[..i]
      {
        submitted := submitted + [waiters[i]];
        assert waiters[..i + 1] == waiters[..i] + [waiters[i]];
      }
      assert waiters[..|waiters|] == waiters;
      phases := SubmitAll(phases, waiters);
      waiters := [];
    }
  }
}
