/**
 The end of `scheduler::loop_impl`: a stop request makes the worker of a drained context leave `run`,
 so that `join` comes back.
 */
module StopProofs {
  import opened ContextModel
  import P = ContextProofs
  import SP = SystemProofs
  import S = SystemModel
  import I = IdleScanModel
  import D = IdleScanProofs
  import R = SettleProofs

  /** A bound on the steps from here to the end of `run`, for a drained context with stop requested. */
  function Rank(pc: Pc): nat {
    match pc
    case Exited => 0
    case Head(h) =>
      (match h case LoadWait => 1 case LoadQueue => 2 case LoadRunningIo => 3 case LoadSubmitIo => 4 case LoadStop => 5)
    case Poll(p) => (match p case Blocked => 6 case BlockTest => 7 case _ => 8)
    case Idle(i) =>
      (match i
       case SelfSignal => 9 case SelfStop => 10 case IfNoWait => 11 case IfNoQueue => 12
       case IfNoRunningIo => 13 case IfNoSubmitIo => 14 case IfNoStop => 15)
    case Drain(d) => (match d case TestReady => 16 case LowerFlag => 17 case _ => 18)
  }

  /** Nothing to do and told to stop. */
  ghost predicate Ending(s: State) {
    P.Inv(s) && D.Drained(s) && s.stop
  }

  /** Where the worker can be when there is nothing to do. */
  lemma DrainedPlaces(s: State)
    requires P.Inv(s) && D.Drained(s)
    ensures s.pc.Poll? ==> s.pc.poll.LoadSubmit? || s.pc.poll.BlockTest? || s.pc.poll.Blocked?
    ensures s.pc.Drain? ==> s.pc.drain.TestReady? || s.pc.drain.LowerFlag? || s.pc.drain.UnregisterSignal?
    ensures s.tasks.queue == [] && s.tasks.registered == {}
  {
    SP.QuietIo(s);
    P.AllAccountedFor(s.tasks, s.pc);
  }

  /** Every step of the worker is a step towards the end, and nobody else moves it. */
  lemma RankFalls(s: State, a: Action)
    requires Ending(s) && Enabled(s, a) && !a.Register?
    ensures Rank(Next(s, a).pc) + (if a.Work? then 1 else 0) <= Rank(s.pc)
    ensures Next(s, a).stop
  {
    DrainedPlaces(s);
    match a
    case Work(_) =>
      match s.pc {
        case Head(h) =>
        case Drain(d) =>
        case Idle(i) =>
        case Poll(p) =>
      }
    case _ =>
  }

  function WorkSteps(run: seq<Action>): nat {
    if run == [] then 0 else (if run[0].Work? then 1 else 0) + WorkSteps(run[1..])
  }

  /** However the others interleave, the worker of an ending context takes at most 18 more steps. */
  lemma {:induction false} FewStepsLeft(s: State, run: seq<Action>)
    requires Ending(s) && ValidRun(s, run)
    requires forall k :: 0 <= k < |run| ==> !run[k].Register?
    ensures Ending(Exec(s, run)) && WorkSteps(run) + Rank(Exec(s, run).pc) <= Rank(s.pc) <= 18
    decreases |run|
  {
    if run != [] {
      P.NextInv(s, run[0]);
      D.DrainedStays(s, run[0]);
      RankFalls(s, run[0]);
      FewStepsLeft(Next(s, run[0]), run[1..]);
    }
  }

  /** No call that has begun can be continued, and the worker cannot take a step. */
  ghost predicate AtRest(s: State) {
    forall a :: Enabled(s, a) ==> a.Register? || a.RequestStop?
  }

  /** At rest the worker has left `run` or is blocked for good, with nobody in the middle of a call. */
  lemma AtRestPlaces(s: State)
    requires P.Inv(s) && AtRest(s)
    ensures s.pc.Exited? || P.StaysBlocked(s)
  {
    if !s.pc.Exited? {
      assert !Enabled(s, Work(1)) && !Enabled(s, SignalStop);
      assert !Enabled(s, Callback(R.Fresh(s.tasks.seen)));
      forall x ensures x !in s.tasks.registered && x !in s.tasks.pushed {
        assert !Enabled(s, Push(x)) && !Enabled(s, Signal(x));
      }
    }
  }

  /** The wake-up that belongs to a stop request is not lost: told to stop, a worker at rest has left `run`. */
  lemma StoppedAtRest(s: State)
    requires P.Inv(s) && AtRest(s) && s.stop
    ensures s.pc.Exited?
  {
    AtRestPlaces(s);
    if P.StaysBlocked(s) { P.BlockedState(s); }
  }

  lemma {:induction false} StopStays(s: State, run: seq<Action>)
    requires ValidRun(s, run)
    ensures Exec(s, run).managed == s.managed
    ensures s.stop || RequestStop in run ==> Exec(s, run).stop
    decreases |run|
  {
    if run != [] {
      KeepsStop(s, run[0]);
      StopStays(Next(s, run[0]), run[1..]);
      if RequestStop in run && run[0] != RequestStop { assert RequestStop in run[1..]; }
    }
  }

  lemma KeepsStop(s: State, a: Action)
    requires Enabled(s, a)
    ensures Next(s, a).managed == s.managed
    ensures s.stop || a.RequestStop? ==> Next(s, a).stop
  {
    if a.Work? {
      match s.pc
      case Head(_) =>
      case Drain(_) =>
      case Idle(_) =>
      case Poll(_) =>
    }
  }

  /** Whatever else happens, a worker that has been told to stop is not at rest before it has left `run`. */
  lemma {:induction false} StopRequestEndsRun(managed: bool, run: seq<Action>, t: State)
    requires ValidRun(Init(managed), run) && t == Exec(Init(managed), run)
    requires RequestStop in run && AtRest(t)
    ensures t.pc.Exited?
  {
    P.ReachableInv(managed, run);
    StopStays(Init(managed), run);
    StoppedAtRest(t);
  }

  /**
   A drained context that is told to stop, with no further submission: from the request on its worker
   takes at most 18 steps, and once nothing can move any more it has left `run` with everything executed.
   */
  lemma {:induction false} StopEndsTheWorker(s: State, run: seq<Action>, t: State)
    requires P.Inv(s) && D.Drained(s)
    requires ValidRun(Next(s, RequestStop), run) && t == Exec(Next(s, RequestStop), run)
    requires forall k :: 0 <= k < |run| ==> !run[k].Register?
    ensures WorkSteps(run) <= 18
    ensures AtRest(t) ==> t.pc.Exited?
    ensures D.NothingLeft(t)
  {
    P.NextInv(s, RequestStop);
    KeepsStop(s, RequestStop);
    FewStepsLeft(Next(s, RequestStop), run);
    D.DrainedMeansNothingLeft(t);
    if AtRest(t) {
      StoppedAtRest(t);
    }
  }

  // ---------- A context without a scheduler ----------

  lemma RestlessAtRest(s: State)
    requires P.Inv(s) && AtRest(s) && !s.managed
    ensures s.pc.Exited?
  {
    AtRestPlaces(s);
    if P.StaysBlocked(s) { P.BlockedState(s); }
  }

  lemma {:induction false} Reaches(managed: bool, run: seq<Action>, t: State)
    requires ValidRun(Init(managed), run) && t == Exec(Init(managed), run)
    ensures P.Inv(t) && t.managed == managed
  {
    P.ReachableInv(managed, run);
    StopStays(Init(managed), run);
  }

  /** Some run from the start leads here. */
  ghost predicate Reachable(managed: bool, t: State) {
    exists run :: ValidRun(Init(managed), run) && t == Exec(Init(managed), run)
  }

  lemma ReachableKeeps(managed: bool, t: State)
    requires Reachable(managed, t)
    ensures P.Inv(t) && t.managed == managed
  {
    var run :| ValidRun(Init(managed), run) && t == Exec(Init(managed), run);
    Reaches(managed, run, t);
  }

  /** A context without a scheduler stops by itself: at rest its worker has left `run`, asked to or not. */
  lemma StopsByItself(t: State)
    requires Reachable(false, t) && AtRest(t)
    ensures t.pc.Exited?
  {
    ReachableKeeps(false, t);
    RestlessAtRest(t);
  }

  /** The same bound without a stop request: the worker first has to notice that it is idle. */
  function OwnRank(s: State): nat {
    if s.stop then Rank(s.pc)
    else match s.pc
      case Head(_) => 17
      case Poll(p) => (match p case Blocked => 18 case BlockTest => 19 case _ => 20)
      case _ => Rank(s.pc)
  }

  lemma OwnRankFalls(s: State, a: Action)
    requires P.Inv(s) && D.Drained(s) && !s.managed && Enabled(s, a) && !a.Register?
    ensures OwnRank(Next(s, a)) + (if a.Work? then 1 else 0) <= OwnRank(s)
  {
    if s.stop {
      RankFalls(s, a);
    } else {
      DrainedPlaces(s);
      match a
      case Work(_) =>
        match s.pc {
          case Head(h) =>
          case Drain(d) =>
          case Idle(i) =>
          case Poll(p) =>
        }
      case _ =>
    }
  }

  /** With nothing left to do and nothing submitted, a worker without a scheduler takes at most 20 more steps. */
  lemma {:induction false} FewStepsAlone(s: State, run: seq<Action>)
    requires P.Inv(s) && D.Drained(s) && !s.managed && ValidRun(s, run)
    requires forall k :: 0 <= k < |run| ==> !run[k].Register?
    ensures WorkSteps(run) <= OwnRank(s) <= 20
    decreases |run|
  {
    if run != [] {
      P.NextInv(s, run[0]);
      KeepsStop(s, run[0]);
      D.DrainedStays(s, run[0]);
      OwnRankFalls(s, run[0]);
      FewStepsAlone(Next(s, run[0]), run[1..]);
    }
  }

  // ---------- The conditions of the loops ----------

  /** Where the worker gets to when it evaluates the condition it is in without interruption. */
  function Outcome(s: State): Pc
    decreases Rank(s.pc)
  {
    if s.pc.Head? || (s.pc.Idle? && !s.pc.idle.SelfStop? && !s.pc.idle.SelfSignal?)
    then
      var t := Next(s, Work(0));
      if Rank(t.pc) < Rank(s.pc) then Outcome(t) else t.pc
    else s.pc
  }

  /** Of the last two tests of the loop of `run`. */
  lemma TaskTests(s: State)
    requires s.pc == Head(LoadQueue)
    ensures Outcome(s) == if s.tasks.queue == [] && s.tasks.waitCount <= 0 then Exited else Drain(TestReady)
  {
    var last := s.(pc := Head(LoadWait));
    assert Outcome(last) == if s.tasks.waitCount <= 0 then Exited else Drain(TestReady);
  }

  /** The loop of `run` is left exactly when stop was requested and there is neither I/O nor a task. */
  lemma LoopCondition(s: State)
    requires s.pc == Head(LoadStop)
    ensures Outcome(s) ==
            if s.stop && s.io.submit == 0 && s.io.running == 0 && s.tasks.queue == [] && s.tasks.waitCount <= 0
            then Exited else Drain(TestReady)
  {
    var s1, s2, s3 := s.(pc := Head(LoadSubmitIo)), s.(pc := Head(LoadRunningIo)), s.(pc := Head(LoadQueue));
    TaskTests(s3);
    assert Outcome(s2) == if s.io.running == 0 then Outcome(s3) else Drain(TestReady);
    assert Outcome(s1) == if s.io.submit == 0 then Outcome(s2) else Drain(TestReady);
  }

  lemma OwnTaskTests(s: State)
    requires s.pc == Idle(IfNoQueue)
    ensures Outcome(s) == if s.tasks.queue == [] && s.tasks.waitCount == 0 then Idle(SelfStop) else Poll(LoadSubmit)
  {
    var last := s.(pc := Idle(IfNoWait));
    assert Outcome(last) == if s.tasks.waitCount == 0 then Idle(SelfStop) else Poll(LoadSubmit);
  }

  lemma OwnIoTests(s: State)
    requires s.pc == Idle(IfNoSubmitIo)
    ensures Outcome(s) ==
            if s.io.submit == 0 && s.io.running == 0 then Outcome(s.(pc := Idle(IfNoQueue))) else Poll(LoadSubmit)
  {
    var s2, s3 := s.(pc := Idle(IfNoRunningIo)), s.(pc := Idle(IfNoQueue));
    assert Outcome(s2) == if s.io.running == 0 then Outcome(s3) else Poll(LoadSubmit);
  }

  /** A worker without a scheduler stops itself exactly when nobody has asked it to and there is nothing to do. */
  lemma SelfStopCondition(s: State)
    requires s.pc == Idle(IfNoStop)
    ensures Outcome(s) ==
            if !s.stop && s.io.submit == 0 && s.io.running == 0 && s.tasks.queue == [] && s.tasks.waitCount == 0
            then Idle(SelfStop) else Poll(LoadSubmit)
  {
    OwnIoTests(s.(pc := Idle(IfNoSubmitIo)));
    OwnTaskTests(s.(pc := Idle(IfNoQueue)));
  }

  // ---------- No busy waiting ----------

  /** Steps until an idle worker in service blocks. */
  function ToBlock(s: State): nat {
    (if s.efd > 0 then 10 else 0) +
    match s.pc
    case Drain(d) => (match d case TestReady => 3 case LowerFlag => 4 case _ => 30)
    case Head(_) => 4
    case Poll(p) => (match p case Blocked => 0 case BlockTest => 1 case _ => 2)
    case _ => 0
  }

  lemma BlocksSooner(s: State)
    requires R.InService(s) && D.Drained(s) && Enabled(s, Work(0))
    ensures ToBlock(Next(s, Work(0))) < ToBlock(s)
  {
    DrainedPlaces(s);
    match s.pc
    case Head(_) =>
    case Drain(_) =>
    case Poll(_) =>
    case _ =>
  }

  /** Left alone, a worker in service with nothing to do takes at most 40 steps and then blocks: it does not spin. */
  lemma {:induction false} BlocksWhenIdle(s: State, run: seq<Action>)
    requires R.InService(s) && D.Drained(s) && ValidRun(s, run)
    requires forall k :: 0 <= k < |run| ==> run[k] == Work(0)
    ensures |run| <= ToBlock(s) <= 40
    decreases |run|
  {
    if run != [] {
      R.StaysInService(s, run[0]);
      D.DrainedStays(s, run[0]);
      BlocksSooner(s);
      BlocksWhenIdle(Next(s, run[0]), run[1..]);
    }
  }

  // ---------- All contexts of a scheduler ----------

  lemma SystemKeepsStop(y: S.System, a: S.Action, j: nat)
    requires S.Enabled(y, a) && j < |y|
    ensures y[j].stop || a == S.On(j, RequestStop) ==> S.Next(y, a)[j].stop
  {
    KeepsStop(y[a.ctx], S.Step(a));
  }

  lemma {:induction false} SystemStops(y: S.System, run: seq<S.Action>, j: nat)
    requires SP.Inv(y) && S.ValidRun(y, run) && j < |y|
    ensures |S.Exec(y, run)| == |y| && SP.Inv(S.Exec(y, run))
    ensures y[j].stop || S.On(j, RequestStop) in run ==> S.Exec(y, run)[j].stop
    decreases |run|
  {
    if run != [] {
      SP.NextInv(y, run[0]);
      SystemKeepsStop(y, run[0], j);
      SystemStops(S.Next(y, run[0]), run[1..], j);
      assert run == [run[0]] + run[1..];
    }
  }

  /**
   The whole of `loop_impl`: from the start of the scheduler (`before`), through a pass that says idle
   with nothing brought in behind it (`pass`), and a stop request to every context (`after`), with no
   submission from outside after the pass: when nothing can move any more every worker has left `run`,
   so that every `join` comes back, and nothing is left or lost.
   */
  lemma {:induction false} LoopEnds(
    n: nat, before: seq<S.Action>, y: S.System, pass: seq<I.Action>, w: I.World, after: seq<S.Action>, z: S.System)
    requires n > 0 && S.ValidRun(SP.Start(n), before) && y == S.Exec(SP.Start(n), before)
    requires I.ValidRun(I.World(y, I.At(0, I.Flag)), pass) && w == I.Exec(I.World(y, I.At(0, I.Flag)), pass)
    requires D.NothingBehind(I.World(y, I.At(0, I.Flag)), pass) && w.scan.AllIdle?
    requires S.ValidRun(w.contexts, after) && z == S.Exec(w.contexts, after)
    requires forall k :: 0 <= k < |after| ==> !SP.ComesFromOutside(after[k])
    requires forall j :: 0 <= j < |w.contexts| ==> S.On(j, RequestStop) in after
    requires forall j :: 0 <= j < |z| ==> AtRest(z[j])
    ensures |z| == |w.contexts| && forall j :: 0 <= j < |z| ==> z[j].pc.Exited? && D.NothingLeft(z[j])
  {
    SP.ReachableInv(n, before);
    D.ExecEstablished(I.World(y, I.At(0, I.Flag)), pass);
    D.StopsWithNothingLost(n, before, y, pass, w, after, z);
    SP.ExecInv(w.contexts, after);
    forall j | 0 <= j < |z| ensures z[j].pc.Exited? {
      SystemStops(w.contexts, after, j);
      StoppedAtRest(z[j]);
    }
  }
}
