/**
 A context that has not been told to stop can always be brought to rest: from every state there is a
 way, without new submissions or I/O from tasks, to a point where it has nothing left to do.
 */
module SettleProofs {
  import opened ContextModel
  import P = ContextProofs

  /** In service: kept by a scheduler and not told to stop. */
  ghost predicate InService(s: State) {
    P.Inv(s) && s.managed && !s.stop
  }

  /** Everything `is_idle` looks at says idle. */
  predicate AtRest(s: State) {
    !s.flag && s.io.submit == 0 && s.io.running == 0 && s.tasks.queue == [] && s.tasks.waitCount == 0
  }

  // ---------- How much is left to do ----------

  function InHand(pc: Pc): nat {
    match pc
    case Drain(d) => (match d case Executing(_) => 5 case Unregister => 4 case _ => 0)
    case Poll(p) => if p.SubRunning? then 1 else 0
    case _ => 0
  }

  /**
   The work left, each item weighted by the stages it still has to go through: an I/O is submitted,
   completed, handled and submits a task; a submission is pushed, signalled, popped and executed.
   */
  function Toil(s: State): int {
    13 * (s.io.submit - P.Overlap(s.pc)) + 12 * s.io.inKernel
    + 11 * (s.io.completed - P.Processed(s.pc)) + 2 * P.Processed(s.pc)
    + 8 * |s.tasks.registered| + 6 * |s.tasks.queue| + |s.tasks.pushed| + InHand(s.pc)
  }

  /** Steps of the worker until it pops a task, when there is one. */
  function ToPop(pc: Pc): nat {
    match pc
    case Drain(d) =>
      (match d case Pop => 1 case RaiseFlag => 2 case TestReady => 3 case LowerFlag => 4 case _ => 5)
    case Head(_) => 4
    case Poll(p) => ToAdvance(p) + 5
    case _ => 0
  }

  /** Steps of the worker until it does something about I/O, when there is no task. */
  function ToPoll(pc: Pc): nat {
    match pc
    case Drain(d) => (match d case TestReady => 13 case LowerFlag => 14 case _ => 15)
    case Head(_) => 14
    case Poll(p) => ToAdvance(p)
    case _ => 0
  }

  function ToAdvance(p: PollPc): nat {
    match p
    case LoadSubmit => 12
    case KernelSubmit(_) => 11
    case AddRunning(_) => 10
    case SubSubmit(_) => 9
    case BlockTest => 8
    case Blocked => 7
    case Peek => 7
    case Batch => 6
    case Handle(_, _) => 5
    case Advance(_) => 4
    case SubRunning(_) => 3
  }

  function Distance(s: State): nat {
    if s.tasks.queue != [] then ToPop(s.pc) else ToPoll(s.pc)
  }

  lemma ToilIsNatural(s: State)
    requires P.IoBooks(s.io, s.pc)
    ensures Toil(s) >= 0
  {
  }

  ghost predicate Nearer(s: State, t: State) {
    Toil(t) < Toil(s) || (Toil(t) == Toil(s) && Distance(t) < Distance(s))
  }

  // ---------- The steps of others ----------

  lemma CompleteNearer(s: State)
    requires Enabled(s, Complete)
    ensures Nearer(s, Next(s, Complete))
  {
  }

  lemma PushNearer(s: State, x: Sub)
    requires P.Inv(s) && Enabled(s, Push(x))
    ensures Nearer(s, Next(s, Push(x)))
  {
    assert |s.tasks.registered - {x}| == |s.tasks.registered| - 1;
    assert |s.tasks.pushed + {x}| <= |s.tasks.pushed| + 1;
  }

  lemma SignalNearer(s: State, x: Sub)
    requires Enabled(s, Signal(x))
    ensures Nearer(s, Next(s, Signal(x)))
  {
    assert |s.tasks.pushed - {x}| == |s.tasks.pushed| - 1;
  }

  lemma CallbackNearer(s: State, x: Sub)
    requires Enabled(s, Callback(x))
    ensures Nearer(s, Next(s, Callback(x)))
  {
    assert |s.tasks.registered + {x}| <= |s.tasks.registered| + 1;
  }

  /** A number that has not been used. */
  ghost function Fresh(used: set<Sub>): (x: Sub)
    ensures forall y :: y in used ==> y < x
    decreases |used|
  {
    if used == {} then 0
    else
      var y :| y in used;
      var x := Fresh(used - {y});
      assert forall z :: z in used ==> z == y || z in used - {y};
      if x > y then x else y + 1
  }

  // ---------- The steps of the worker ----------

  /** Nobody but the worker has anything to do. */
  ghost predicate OnlyWorker(s: State) {
    s.io.inKernel == 0 && s.tasks.registered == {} && s.tasks.pushed == {} && !IsHandling(s.pc)
  }

  /** What `peek_batch_cqe` returns. */
  function BatchSize(s: State): nat {
    if s.io.completed <= BATCH_CAP then s.io.completed else BATCH_CAP
  }

  lemma HeadNearer(s: State)
    requires InService(s) && OnlyWorker(s) && s.pc.Head?
    ensures Enabled(s, Work(BatchSize(s))) && Nearer(s, Next(s, Work(BatchSize(s))))
  {
  }

  lemma DrainNearer(s: State)
    requires InService(s) && s.pc.Drain?
    ensures Enabled(s, Work(BatchSize(s))) && Nearer(s, Next(s, Work(BatchSize(s))))
  {
  }

  lemma SubmitNearer(s: State, p: PollPc)
    requires InService(s) && s.pc == Poll(p)
    requires p.LoadSubmit? || p.KernelSubmit? || p.AddRunning? || p.SubSubmit? || p.BlockTest?
    ensures Enabled(s, Work(BatchSize(s))) && Nearer(s, Next(s, Work(BatchSize(s))))
  {
  }

  /** A blocked worker with something to do has been signalled. */
  lemma BlockedNearer(s: State)
    requires InService(s) && OnlyWorker(s) && s.pc == Poll(Blocked) && !AtRest(s)
    ensures Enabled(s, Work(BatchSize(s))) && Nearer(s, Next(s, Work(BatchSize(s))))
  {
    assert P.PushWakes(s);
  }

  lemma ReapNearer(s: State, p: PollPc)
    requires InService(s) && OnlyWorker(s) && s.pc == Poll(p) && P.Reaping(p)
    ensures Enabled(s, Work(BatchSize(s))) && Nearer(s, Next(s, Work(BatchSize(s))))
  {
  }

  lemma WorkNearer(s: State)
    requires InService(s) && OnlyWorker(s) && !AtRest(s)
    ensures Enabled(s, Work(BatchSize(s))) && Nearer(s, Next(s, Work(BatchSize(s))))
  {
    match s.pc
    case Head(_) => HeadNearer(s);
    case Drain(_) => DrainNearer(s);
    case Poll(p) =>
      if P.Reaping(p) {
        ReapNearer(s, p);
      } else if p.Blocked? {
        BlockedNearer(s);
      } else {
        SubmitNearer(s, p);
      }
    case _ =>
  }

  // ---------- Coming to rest ----------

  /** Somebody can bring the context nearer to rest. */
  lemma SomebodyMoves(s: State) returns (a: Action)
    requires InService(s) && !AtRest(s)
    ensures Enabled(s, a) && !a.Register? && !a.IssueIo? && !a.RequestStop?
    ensures Nearer(s, Next(s, a))
  {
    if s.io.inKernel > 0 {
      a := Complete;
      CompleteNearer(s);
    } else if s.tasks.registered != {} {
      var x :| x in s.tasks.registered;
      a := Push(x);
      PushNearer(s, x);
    } else if s.tasks.pushed != {} {
      var x :| x in s.tasks.pushed;
      a := Signal(x);
      SignalNearer(s, x);
    } else if IsHandling(s.pc) {
      a := Callback(Fresh(s.tasks.seen));
      CallbackNearer(s, a.sub);
    } else {
      a := Work(BatchSize(s));
      WorkNearer(s);
    }
  }

  /** Neither a submission, nor an I/O of a task, nor a stop request. */
  predicate BringsNothing(run: seq<Action>) {
    forall k :: 0 <= k < |run| ==> !run[k].Register? && !run[k].IssueIo? && !run[k].RequestStop?
  }

  lemma StaysInService(s: State, a: Action)
    requires InService(s) && Enabled(s, a) && !a.RequestStop?
    ensures InService(Next(s, a))
  {
    P.NextInv(s, a);
  }

  lemma StepToRest(s: State) returns (a: Action, t: State)
    requires InService(s) && !AtRest(s)
    ensures Enabled(s, a) && t == Next(s, a) && InService(t)
    ensures !a.Register? && !a.IssueIo? && !a.RequestStop?
    ensures 0 <= Toil(s) && Nearer(s, t)
  {
    a := SomebodyMoves(s);
    t := Next(s, a);
    StaysInService(s, a);
    ToilIsNatural(s);
  }

  lemma {:induction false} Prepend(s: State, a: Action, rest: seq<Action>) returns (run: seq<Action>)
    requires Enabled(s, a) && ValidRun(Next(s, a), rest) && BringsNothing(rest)
    requires !a.Register? && !a.IssueIo? && !a.RequestStop?
    ensures ValidRun(s, run) && BringsNothing(run) && Exec(s, run) == Exec(Next(s, a), rest)
  {
    run := [a] + rest;
    assert run[1..] == rest;
  }

  lemma {:induction false} ReachesRest(s: State) returns (run: seq<Action>)
    requires InService(s)
    ensures ValidRun(s, run) && BringsNothing(run)
    ensures InService(Exec(s, run)) && AtRest(Exec(s, run))
    decreases Toil(s), Distance(s)
  {
    if AtRest(s) {
      run := [];
    } else {
      var a, t := StepToRest(s);
      var rest := ReachesRest(t);
      run := Prepend(s, a, rest);
    }
  }

  lemma {:induction false} NothingIssued(run: seq<Action>)
    requires BringsNothing(run)
    ensures P.Issues(run) == 0
  {
    if run != [] { NothingIssued(run[1..]); }
  }

  lemma RestIsComplete(s: State)
    requires P.Inv(s) && AtRest(s)
    ensures s.io.issued == s.io.handled && P.Processed(s.pc) == 0 && P.AllExecuted(s.tasks)
  {
    P.AllAccountedFor(s.tasks, s.pc);
  }

  /**
   A context in service can always come to rest by itself: by a run that brings nothing in, in which
   every I/O still outstanding gets its callback and every submission is executed.
   */
  lemma {:induction false} CanComeToRest(s: State) returns (run: seq<Action>)
    requires InService(s)
    ensures ValidRun(s, run) && BringsNothing(run)
    ensures InService(Exec(s, run)) && AtRest(Exec(s, run))
    ensures s.io.handled + P.Processed(s.pc) + P.Callbacks(run) == s.io.issued
    ensures P.AllExecuted(Exec(s, run).tasks)
  {
    run := ReachesRest(s);
    RestIsComplete(Exec(s, run));
    NothingIssued(run);
    P.IoHistory(s, run);
  }

  // ---------- Tasks only ----------

  /** The worker in its inner loop can finish all tasks without touching an I/O. */
  lemma {:induction false} CanFinishTasks(s: State) returns (run: seq<Action>)
    requires InService(s) && s.pc.Drain?
    ensures ValidRun(s, run) && BringsNothing(run)
    ensures var t := Exec(s, run);
            InService(t) && t.io == s.io && t.tasks.queue == [] && t.tasks.waitCount == 0
    decreases Toil(s), Distance(s)
  {
    if s.tasks.queue == [] && s.tasks.waitCount == 0 {
      run := [];
    } else {
      var a, t := StepOfTasks(s);
      var rest := CanFinishTasks(t);
      run := Prepend(s, a, rest);
    }
  }

  lemma StepOfTasks(s: State) returns (a: Action, t: State)
    requires InService(s) && s.pc.Drain? && !(s.tasks.queue == [] && s.tasks.waitCount == 0)
    ensures Enabled(s, a) && t == Next(s, a) && InService(t) && t.pc.Drain? && t.io == s.io
    ensures !a.Register? && !a.IssueIo? && !a.RequestStop?
    ensures 0 <= Toil(s) && Nearer(s, t)
  {
    a := TaskMove(s);
    t := Next(s, a);
    StaysInService(s, a);
    ToilIsNatural(s);
  }

  lemma TaskMove(s: State) returns (a: Action)
    requires InService(s) && s.pc.Drain? && !(s.tasks.queue == [] && s.tasks.waitCount == 0)
    ensures Enabled(s, a) && !a.Register? && !a.IssueIo? && !a.RequestStop?
    ensures Nearer(s, Next(s, a)) && Next(s, a).pc.Drain? && Next(s, a).io == s.io
  {
    if s.tasks.registered != {} {
      var x :| x in s.tasks.registered;
      a := Push(x);
      PushNearer(s, x);
    } else {
      a := Work(BatchSize(s));
      DrainNearer(s);
    }
  }
}
