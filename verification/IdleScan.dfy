/**
 The scan of `scheduler::loop_impl`: it reads the five things `is_idle` looks at, one load at a time,
 context after context, while the contexts keep running.
 */
module IdleScanModel {
  import C = ContextModel
  import S = SystemModel

  datatype Field = Flag | SubmitIo | RunningIo | Queue | Wait

  /** Where one pass over the contexts is; `AllIdle` and `SomeBusy` are its verdicts. */
  datatype Scan = At(ctx: nat, field: Field) | AllIdle | SomeBusy

  datatype World = World(contexts: S.System, scan: Scan)

  datatype Action = Run(act: S.Action) | Load

  predicate ReadsIdle(s: C.State, f: Field) {
    match f
    case Flag => !s.flag
    case SubmitIo => s.io.submit == 0
    case RunningIo => s.io.running == 0
    case Queue => s.tasks.queue == []
    case Wait => s.tasks.waitCount == 0
  }

  function After(f: Field): Field {
    match f
    case Flag => SubmitIo
    case SubmitIo => RunningIo
    case RunningIo => Queue
    case Queue => Wait
    case Wait => Flag
  }

  predicate Enabled(w: World, a: Action) {
    match a
    case Run(b) => S.Enabled(w.contexts, b)
    case Load => w.scan.At? && w.scan.ctx < |w.contexts|
  }

  function Next(w: World, a: Action): World
    requires Enabled(w, a)
  {
    match a
    case Run(b) => w.(contexts := S.Next(w.contexts, b))
    case Load =>
      var i, f := w.scan.ctx, w.scan.field;
      if !ReadsIdle(w.contexts[i], f) then w.(scan := SomeBusy)
      else if !f.Wait? then w.(scan := At(i, After(f)))
      else if i + 1 < |w.contexts| then w.(scan := At(i + 1, Flag))
      else w.(scan := AllIdle)
  }

  predicate ValidRun(w: World, run: seq<Action>)
    decreases |run|
  {
    run == [] || (Enabled(w, run[0]) && ValidRun(Next(w, run[0]), run[1..]))
  }

  function Exec(w: World, run: seq<Action>): World
    requires ValidRun(w, run)
    decreases |run|
  {
    if run == [] then w else Exec(Next(w, run[0]), run[1..])
  }
}

module IdleScanProofs {
  import C = ContextModel
  import P = ContextProofs
  import S = SystemModel
  import SP = SystemProofs
  import opened IdleScanModel

  /** Nothing left to execute and no I/O. */
  predicate Drained(s: C.State) {
    s.tasks.waitCount == 0 && s.io.submit == 0 && s.io.running == 0
  }

  /** The scan has read all of context j and found it idle. */
  predicate HasRead(w: World, j: nat) {
    w.scan.AllIdle? || (w.scan.At? && j < w.scan.ctx)
  }

  /** The I/O counters of context j have been read as zero, or the one still to be read is zero. */
  predicate IoIsRead(w: World, j: nat) {
    && w.scan.At? && j == w.scan.ctx < |w.contexts|
    && match w.scan.field
       case Flag => false
       case SubmitIo => false
       case RunningIo => w.contexts[j].io.running == 0
       case Queue => true
       case Wait => true
  }

  /**
   A step that brings work in behind the scan: a submission to a context already read, or an I/O
   issued on the context being read when its I/O counters will not be looked at again as they are.
   */
  predicate Behind(w: World, a: Action) {
    && a.Run?
    && match a.act
       case Submit(_, j, _) => HasRead(w, j)
       case On(j, b) => b.IssueIo? && IoIsRead(w, j)
  }

  predicate NothingBehind(w: World, run: seq<Action>)
    requires ValidRun(w, run)
    decreases |run|
  {
    run != [] ==> !Behind(w, run[0]) && NothingBehind(Next(w, run[0]), run[1..])
  }

  /** What the loads made so far have established, as long as no work comes in behind them. */
  ghost predicate Established(w: World) {
    SP.Inv(w.contexts) && ScanKnows(w)
  }

  ghost predicate ScanKnows(w: World) {
    && (w.scan.AllIdle? ==> forall j :: 0 <= j < |w.contexts| ==> Drained(w.contexts[j]))
    && (w.scan.At? ==>
          && w.scan.ctx < |w.contexts|
          && (forall j :: 0 <= j < w.scan.ctx ==> Drained(w.contexts[j]))
          && IoKnown(w.contexts[w.scan.ctx].io, w.scan.field))
  }

  /** What is known of the I/O counters of the context being read. */
  predicate IoKnown(io: C.IoState, f: Field) {
    && (f.RunningIo? && io.running == 0 ==> io.submit == 0)
    && (f.Queue? || f.Wait? ==> io.submit == 0 && io.running == 0)
  }

  /**
   Unless a running task issues an I/O, I/O counters that are zero stay zero, and the count of the
   running ones is the last to become so.
   */
  lemma IoZeroStays(s: C.State, a: C.Action)
    requires P.IoBooks(s.io, s.pc) && C.Enabled(s, a) && !a.IssueIo?
    ensures s.io.submit == 0 && s.io.running == 0 ==> C.Next(s, a).io.submit == 0 && C.Next(s, a).io.running == 0
    ensures (s.io.running == 0 ==> s.io.submit == 0) ==> C.Next(s, a).io.running == 0 ==> C.Next(s, a).io.submit == 0
  {
    match a
    case Work(batch) =>
      match s.pc {
        case Head(h) =>
        case Drain(d) =>
        case Idle(i) =>
        case Poll(p) =>
      }
    case _ =>
  }

  /**
   A drained context has no task that could issue an I/O and no completion to handle, so only a
   submission changes that.
   */
  lemma DrainedStays(s: C.State, a: C.Action)
    requires P.Accounts(s.tasks, s.pc) && P.IoBooks(s.io, s.pc) && Drained(s)
    requires C.Enabled(s, a) && !a.Register?
    ensures Drained(C.Next(s, a))
  {
    SP.QuietIo(s);
    if a.IssueIo? {
      assert false;
    } else {
      IoZeroStays(s, a);
      assert C.Next(s, a).tasks.waitCount == 0;
    }
  }

  lemma LoadKeeps(w: World)
    requires Established(w) && Enabled(w, Load)
    ensures Established(Next(w, Load))
  {
  }

  lemma RunKeeps(w: World, b: S.Action)
    requires Established(w) && Enabled(w, Run(b)) && !Behind(w, Run(b))
    ensures Established(Next(w, Run(b)))
  {
    SP.NextInv(w.contexts, b);
    if b.On? {
      ContextKeeps(w.contexts[b.ctx], b.act, if w.scan.At? then w.scan.field else Flag);
    }
    KnowsKeeps(w, b);
  }

  /** Whatever a context does but issue an I/O leaves what is known of it. */
  lemma ContextKeeps(s: C.State, a: C.Action, f: Field)
    requires P.Inv(s) && C.Enabled(s, a) && !a.Register?
    ensures Drained(s) ==> Drained(C.Next(s, a))
    ensures !a.IssueIo? && IoKnown(s.io, f) ==> IoKnown(C.Next(s, a).io, f)
  {
    if Drained(s) { DrainedStays(s, a); }
    if !a.IssueIo? { IoZeroStays(s, a); }
  }

  lemma KnowsKeeps(w: World, b: S.Action)
    requires ScanKnows(w) && Enabled(w, Run(b)) && !Behind(w, Run(b))
    requires b.On? ==>
               var s, s' := w.contexts[b.ctx], C.Next(w.contexts[b.ctx], b.act);
               && (Drained(s) ==> Drained(s'))
               && (!b.act.IssueIo? && w.scan.At? && IoKnown(s.io, w.scan.field) ==> IoKnown(s'.io, w.scan.field))
    ensures ScanKnows(Next(w, Run(b)))
  {
  }

  /** A step spoils what the scan has established exactly when it brings work in behind it. */
  lemma SpoilsIff(w: World, a: Action)
    requires Established(w) && Enabled(w, a)
    ensures Established(Next(w, a)) <==> !Behind(w, a)
  {
    if Behind(w, a) {
      var j := a.act.ctx;
      assert Next(w, a).contexts[j] == C.Next(w.contexts[j], S.Step(a.act));
    } else if a.Run? {
      RunKeeps(w, a.act);
    } else {
      LoadKeeps(w);
    }
  }

  lemma {:induction false} ExecEstablished(w: World, run: seq<Action>)
    requires Established(w) && ValidRun(w, run) && NothingBehind(w, run)
    ensures Established(Exec(w, run))
    decreases |run|
  {
    if run != [] {
      SpoilsIff(w, run[0]);
      ExecEstablished(Next(w, run[0]), run[1..]);
    }
  }

  /** Nothing queued, about to be pushed, in hand or in I/O, and all that was ever submitted executed exactly once. */
  ghost predicate NothingLeft(s: C.State) {
    && s.tasks.queue == [] && s.tasks.registered == {} && !P.HasPopped(s.pc)
    && P.AllExecuted(s.tasks)
    && s.io.submit == 0 && s.io.running == 0
  }

  lemma DrainedMeansNothingLeft(s: C.State)
    requires P.Inv(s) && Drained(s)
    ensures NothingLeft(s)
  {
    P.AllAccountedFor(s.tasks, s.pc);
  }

  /**
   A pass that finds every context idle is right about all of them at its end, provided that no work
   was brought in behind the scan while it was going on.
   */
  lemma {:induction false} ScanIsRight(y: S.System, run: seq<Action>, w: World)
    requires SP.Inv(y) && |y| > 0
    requires ValidRun(World(y, At(0, Flag)), run) && w == Exec(World(y, At(0, Flag)), run)
    requires NothingBehind(World(y, At(0, Flag)), run)
    requires w.scan.AllIdle?
    ensures forall j :: 0 <= j < |w.contexts| ==> NothingLeft(w.contexts[j])
  {
    ExecEstablished(World(y, At(0, Flag)), run);
    forall j | 0 <= j < |w.contexts| ensures NothingLeft(w.contexts[j]) {
      DrainedMeansNothingLeft(w.contexts[j]);
    }
  }

  // ---------- After the pass ----------

  ghost predicate AllDrained(y: S.System) {
    forall j :: 0 <= j < |y| ==> Drained(y[j])
  }

  /** Drained contexts have no running task that could submit to another one. */
  lemma NextAllDrained(y: S.System, a: S.Action)
    requires SP.Inv(y) && AllDrained(y) && S.Enabled(y, a) && !SP.ComesFromOutside(a)
    ensures AllDrained(S.Next(y, a))
  {
    match a
    case Submit(_, _, _) =>
    case On(i, b) => DrainedStays(y[i], b);
  }

  lemma {:induction false} StaysDrained(y: S.System, run: seq<S.Action>)
    requires SP.Inv(y) && AllDrained(y) && S.ValidRun(y, run)
    requires forall k :: 0 <= k < |run| ==> !SP.ComesFromOutside(run[k])
    ensures AllDrained(S.Exec(y, run)) && SP.Inv(S.Exec(y, run))
    decreases |run|
  {
    if run != [] {
      SP.NextInv(y, run[0]);
      NextAllDrained(y, run[0]);
      StaysDrained(S.Next(y, run[0]), run[1..]);
    }
  }

  /**
   What `loop_impl` is for: from the start of the scheduler (`before`), through a pass that says idle
   with nothing brought in behind it (`pass`), to any later point of stopping and joining (`after`),
   with no submission from outside after the pass, no context has work left or lost: whatever was
   ever submitted has been executed exactly once, and there is no I/O, wherever its worker is.
   */
  lemma {:induction false} StopsWithNothingLost(
    n: nat, before: seq<S.Action>, y: S.System, pass: seq<Action>, w: World, after: seq<S.Action>, z: S.System)
    requires n > 0 && S.ValidRun(SP.Start(n), before) && y == S.Exec(SP.Start(n), before)
    requires ValidRun(World(y, At(0, Flag)), pass) && w == Exec(World(y, At(0, Flag)), pass)
    requires NothingBehind(World(y, At(0, Flag)), pass) && w.scan.AllIdle?
    requires S.ValidRun(w.contexts, after) && z == S.Exec(w.contexts, after)
    requires forall k :: 0 <= k < |after| ==> !SP.ComesFromOutside(after[k])
    ensures forall j :: 0 <= j < |z| ==> NothingLeft(z[j])
  {
    SP.ReachableInv(n, before);
    ExecEstablished(World(y, At(0, Flag)), pass);
    StaysDrained(w.contexts, after);
    forall j | 0 <= j < |z| ensures NothingLeft(z[j]) {
      DrainedMeansNothingLeft(z[j]);
    }
  }

  // ---------- A submission in the middle of a pass ----------

  /** What `is_idle` would say if its five loads were one. */
  predicate LooksIdle(s: C.State) {
    !s.flag && s.io.submit == 0 && s.io.running == 0 && s.tasks.queue == [] && s.tasks.waitCount == 0
  }

  /** Loads still to come before the pass ends. */
  function LoadsLeft(w: World): nat {
    if !w.scan.At? || w.scan.ctx >= |w.contexts| then 0
    else 5 * (|w.contexts| - w.scan.ctx) -
         match w.scan.field { case Flag => 0 case SubmitIo => 1 case RunningIo => 2 case Queue => 3 case Wait => 4 }
  }

  /** The rest of the pass when nothing else happens. */
  function RestOfPass(w: World): (run: seq<Action>)
    ensures ValidRun(w, run) && forall k :: 0 <= k < |run| ==> run[k].Load?
    decreases LoadsLeft(w)
  {
    if LoadsLeft(w) == 0 then [] else
      var run := RestOfPass(Next(w, Load));
      assert ([Load] + run)[1..] == run;
      [Load] + run
  }

  lemma RestOfPassStep(w: World)
    requires LoadsLeft(w) > 0
    ensures Exec(w, RestOfPass(w)) == Exec(Next(w, Load), RestOfPass(Next(w, Load)))
  {
    assert RestOfPass(w)[1..] == RestOfPass(Next(w, Load));
  }

  /** Five loads decide about one context. */
  lemma OneContextRead(w: World)
    requires w.scan.At? && w.scan.field.Flag? && w.scan.ctx < |w.contexts|
    ensures LooksIdle(w.contexts[w.scan.ctx]) ==>
              Exec(w, RestOfPass(w)) ==
              var v := w.(scan := if w.scan.ctx + 1 < |w.contexts| then At(w.scan.ctx + 1, Flag) else AllIdle);
              Exec(v, RestOfPass(v))
    ensures !LooksIdle(w.contexts[w.scan.ctx]) ==> Exec(w, RestOfPass(w)) == w.(scan := SomeBusy)
  {
    var s, i := w.contexts[w.scan.ctx], w.scan.ctx;
    var w1, w2 := w.(scan := At(i, SubmitIo)), w.(scan := At(i, RunningIo));
    var w3, w4 := w.(scan := At(i, Queue)), w.(scan := At(i, Wait));
    RestOfPassStep(w);
    RestOfPassStep(w1);
    RestOfPassStep(w2);
    RestOfPassStep(w3);
    RestOfPassStep(w4);
    var busy := w.(scan := SomeBusy);
    assert Exec(busy, RestOfPass(busy)) == busy;
    assert LooksIdle(s) <==>
           && ReadsIdle(s, Flag) && ReadsIdle(s, SubmitIo) && ReadsIdle(s, RunningIo)
           && ReadsIdle(s, Queue) && ReadsIdle(s, Wait);
  }

  /** Left alone, the rest of the pass tells whether the contexts still to be read look idle. */
  lemma {:induction false} RestOfPassVerdict(w: World)
    requires w.scan.At? && w.scan.field.Flag? && w.scan.ctx < |w.contexts|
    ensures var all := forall j :: w.scan.ctx <= j < |w.contexts| ==> LooksIdle(w.contexts[j]);
            Exec(w, RestOfPass(w)) == w.(scan := if all then AllIdle else SomeBusy)
    decreases |w.contexts| - w.scan.ctx
  {
    OneContextRead(w);
    if LooksIdle(w.contexts[w.scan.ctx]) {
      if w.scan.ctx + 1 < |w.contexts| {
        RestOfPassVerdict(w.(scan := At(w.scan.ctx + 1, Flag)));
      } else {
        var v := w.(scan := AllIdle);
        assert Exec(v, RestOfPass(v)) == v;
      }
    }
  }

  /**
   When a submission reaches context j of an idle system just as the scan turns to context c, the
   pass, left alone, still calls the system idle if and only if j comes before c.
   */
  lemma LateSubmissionMissedIff(y: S.System, c: nat, j: nat, x: C.Sub, w: World)
    requires c < |y| && j < |y| && x !in y[j].tasks.seen
    requires forall i :: 0 <= i < |y| ==> LooksIdle(y[i])
    requires w == Next(World(y, At(c, Flag)), Run(S.Submit(S.External, j, x)))
    ensures w.contexts[j].tasks.waitCount == 1
    ensures Exec(w, RestOfPass(w)) == World(w.contexts, if j < c then AllIdle else SomeBusy)
  {
    assert ReadsIdle(y[j], Wait);
    assert !ReadsIdle(w.contexts[j], Wait);
    forall i | 0 <= i < |y| ensures LooksIdle(w.contexts[i]) <==> i != j {
      if i != j { assert w.contexts[i] == y[i]; }
    }
    RestOfPassVerdict(w);
  }

  // ---------- A pass that is wrong ----------

  /** The schedule, on a single context: a task is submitted, runs and issues an I/O between two loads of the scan. */
  function Move(k: nat): Action {
    match k
    case 0 => Run(S.Submit(S.External, 0, 7))
    case 1 => Run(S.On(0, C.Push(7)))
    case 2 => Load  // the flag is down
    case 3 => Load  // nothing to submit
    case 4 => Load  // nothing running
    case 9 => Run(S.On(0, C.IssueIo))
    case 12 => Load // the queue is empty
    case 13 => Load // the wait count is zero
    case _ => Run(S.On(0, C.Work(0)))
  }

  function Snap(tasks: C.Tasks, ios: nat, flag: bool, pc: C.Pc, scan: Scan): World {
    World([C.State(true, tasks, C.IoState(ios, 0, 0, 0, ios, 0), 0, false, 0, flag, pc)], scan)
  }

  /** The world before the k-th move. */
  function Before(k: nat): World {
    var queued, popped := C.Tasks([7], 1, {}, {7}, {7}, []), C.Tasks([], 1, {}, {7}, {7}, []);
    var done := C.Tasks([], 0, {}, {7}, {7}, [7]);
    match k
    case 0 => Snap(C.Tasks([], 0, {}, {}, {}, []), 0, false, C.Head(C.LoadStop), At(0, Flag))
    case 1 => Snap(C.Tasks([], 1, {7}, {}, {7}, []), 0, false, C.Head(C.LoadStop), At(0, Flag))
    case 2 => Snap(queued, 0, false, C.Head(C.LoadStop), At(0, Flag))
    case 3 => Snap(queued, 0, false, C.Head(C.LoadStop), At(0, SubmitIo))
    case 4 => Snap(queued, 0, false, C.Head(C.LoadStop), At(0, RunningIo))
    case 5 => Snap(queued, 0, false, C.Head(C.LoadStop), At(0, Queue))
    case 6 => Snap(queued, 0, false, C.Drain(C.TestReady), At(0, Queue))
    case 7 => Snap(queued, 0, false, C.Drain(C.RaiseFlag), At(0, Queue))
    case 8 => Snap(queued, 0, true, C.Drain(C.Pop), At(0, Queue))
    case 9 => Snap(popped, 0, true, C.Drain(C.Executing(7)), At(0, Queue))
    case 10 => Snap(popped, 1, true, C.Drain(C.Executing(7)), At(0, Queue))
    case 11 => Snap(popped.(executed := [7]), 1, true, C.Drain(C.Unregister), At(0, Queue))
    case 12 => Snap(done, 1, true, C.Drain(C.UnregisterSignal), At(0, Queue))
    case 13 => Snap(done, 1, true, C.Drain(C.UnregisterSignal), At(0, Wait))
    case _ => Snap(done, 1, true, C.Drain(C.UnregisterSignal), AllIdle)
  }

  ghost predicate Moves(k: nat) {
    Enabled(Before(k), Move(k)) && Next(Before(k), Move(k)) == Before(k + 1)
  }

  lemma OneContext(w: World, s: C.State, b: S.Action, s': C.State)
    requires w.contexts == [s] && S.Enabled([s], b) && C.Next(s, S.Step(b)) == s'
    ensures Next(w, Run(b)) == World([s'], w.scan)
  {
  }

  /** The moves made by the context. */
  lemma ContextMoves(k: nat)
    requires Move(k).Run? && k < 14
    ensures Moves(k)
  {
    var none: seq<C.Sub> := [];
    var nobody: set<C.Sub> := {};
    assert nobody + {7} == {7} && {7} - {7} == nobody && none + [7] == [7] && [7][1..] == none;
    var s, b := Before(k).contexts[0], Move(k).act;
    assert C.Next(s, S.Step(b)) == Before(k + 1).contexts[0];
    OneContext(Before(k), s, b, Before(k + 1).contexts[0]);
  }

  /** The loads of the scan. */
  lemma LoadMoves(k: nat)
    requires Move(k).Load?
    ensures Moves(k)
  {
  }

  function MovesFrom(k: nat): seq<Action>
    requires k <= 14
    decreases 14 - k
  {
    if k == 14 then [] else [Move(k)] + MovesFrom(k + 1)
  }

  lemma {:induction false} ScheduleRuns(k: nat)
    requires k <= 14
    ensures ValidRun(Before(k), MovesFrom(k)) && Exec(Before(k), MovesFrom(k)) == Before(14)
    decreases 14 - k
  {
    if k < 14 {
      if Move(k).Load? { LoadMoves(k); } else { ContextMoves(k); }
      ScheduleRuns(k + 1);
      assert MovesFrom(k)[1..] == MovesFrom(k + 1);
    }
  }

  /**
   Without that proviso the verdict can be wrong even for one context: the scan says idle while the
   context has an I/O to submit.
   */
  lemma ScanCanBeWrong() returns (run: seq<Action>, w: World)
    ensures ValidRun(World([C.Init(true)], At(0, Flag)), run)
    ensures w == Exec(World([C.Init(true)], At(0, Flag)), run)
    ensures w.scan.AllIdle? && |w.contexts| == 1 && w.contexts[0].io.submit == 1
  {
    run, w := MovesFrom(0), Before(14);
    ScheduleRuns(0);
    assert World([C.Init(true)], At(0, Flag)) == Before(0);
  }
}
