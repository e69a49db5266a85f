/**
 Several contexts under `coro::scheduler`.

 Tasks submit to any context through the dispatcher, so a submission to one context may come from a
 task running on another one, or from outside.
 */
module SystemModel {
  import C = ContextModel

  datatype Origin = External | FromTask(ctx: nat)

  datatype Action =
    | Submit(origin: Origin, ctx: nat, sub: C.Sub)  // register_wait of a submit_task call
    | On(ctx: nat, act: C.Action)                   // any other step of a context

  type System = seq<C.State>

  predicate Enabled(y: System, a: Action) {
    && a.ctx < |y|
    && match a
       case Submit(origin, i, x) =>
         && (origin.FromTask? ==> origin.ctx < |y| && C.IsExecuting(y[origin.ctx].pc))
         && C.Enabled(y[i], C.Register(x))
       case On(i, b) => !b.Register? && C.Enabled(y[i], b)
  }

  function Step(a: Action): C.Action {
    match a
    case Submit(_, _, x) => C.Register(x)
    case On(_, b) => b
  }

  function Next(y: System, a: Action): (z: System)
    requires Enabled(y, a)
    ensures |z| == |y|
  {
    y[a.ctx := C.Next(y[a.ctx], Step(a))]
  }

  predicate ValidRun(y: System, run: seq<Action>)
    decreases |run|
  {
    run == [] || (Enabled(y, run[0]) && ValidRun(Next(y, run[0]), run[1..]))
  }

  function Exec(y: System, run: seq<Action>): System
    requires ValidRun(y, run)
    decreases |run|
  {
    if run == [] then y else Exec(Next(y, run[0]), run[1..])
  }
}

module SystemProofs {
  import C = ContextModel
  import P = ContextProofs
  import opened SystemModel

  ghost predicate Inv(y: System) {
    forall i :: 0 <= i < |y| ==> P.Inv(y[i])
  }

  lemma NextInv(y: System, a: Action)
    requires Inv(y) && Enabled(y, a)
    ensures Inv(Next(y, a))
  {
    P.NextInv(y[a.ctx], Step(a));
  }

  /** The contexts of a scheduler before anything has happened. */
  function Start(n: nat): System {
    seq(n, _ => C.Init(true))
  }

  lemma {:induction false} ExecInv(y: System, run: seq<Action>)
    requires Inv(y) && ValidRun(y, run)
    ensures Inv(Exec(y, run)) && |Exec(y, run)| == |y|
    decreases |run|
  {
    if run != [] {
      NextInv(y, run[0]);
      ExecInv(Next(y, run[0]), run[1..]);
    }
  }

  lemma InitialInv(s: C.State)
    requires s == C.Init(s.managed)
    ensures P.Inv(s)
  {
    P.InitInv(s.managed);
  }

  lemma StartInv(n: nat)
    ensures Inv(Start(n))
  {
    forall i | 0 <= i < n ensures P.Inv(Start(n)[i]) {
      InitialInv(Start(n)[i]);
    }
  }

  /** Every context of every reachable system keeps the invariant of a single context. */
  lemma {:induction false} ReachableInv(n: nat, run: seq<Action>)
    requires ValidRun(Start(n), run)
    ensures Inv(Exec(Start(n), run)) && |Exec(Start(n), run)| == n
  {
    StartInv(n);
    ExecInv(Start(n), run);
  }

  // ---------- Quiescence ----------

  /** Nothing queued, nothing running, nobody in the middle of submitting, no I/O. */
  predicate Quiet(s: C.State) {
    && s.tasks.queue == [] && s.tasks.registered == {} && s.tasks.pushed == {}
    && !P.HasPopped(s.pc)
    && s.io.submit == 0 && s.io.running == 0
  }

  ghost predicate AllQuiet(y: System) {
    forall i :: 0 <= i < |y| ==> Quiet(y[i])
  }

  /** A quiet context stays quiet unless somebody registers a submission. */
  lemma StaysQuiet(s: C.State, a: C.Action)
    requires P.Inv(s) && Quiet(s) && C.Enabled(s, a) && !a.Register?
    ensures Quiet(C.Next(s, a))
  {
    QuietIo(s);
    match a
    case Work(batch) =>
      match s.pc {
        case Head(h) =>
        case Drain(d) =>
        case Idle(i) =>
        case Poll(p) =>
      }
    case _ =>
  }

  /** Without I/O in the counters there is none in the kernel, and the worker is not in the middle of handling any. */
  lemma QuietIo(s: C.State)
    requires P.IoBooks(s.io, s.pc) && s.io.submit == 0 && s.io.running == 0
    ensures s.io.inKernel == 0 && s.io.completed == 0
    ensures s.pc.Poll? ==> s.pc.poll.LoadSubmit? || s.pc.poll.BlockTest? || s.pc.poll.Blocked?
  {
  }

  predicate ComesFromOutside(a: Action) {
    a.Submit? && a.origin.External?
  }

  lemma NextAllQuiet(y: System, a: Action)
    requires Inv(y) && AllQuiet(y) && Enabled(y, a) && !ComesFromOutside(a)
    ensures AllQuiet(Next(y, a))
  {
    match a
    case Submit(_, _, _) =>
    case On(i, b) => StaysQuiet(y[i], b);
  }

  /** Once the whole system is quiet, only a submission from outside can end that. */
  lemma {:induction false} QuiescenceIsStable(y: System, run: seq<Action>)
    requires Inv(y) && AllQuiet(y) && ValidRun(y, run)
    requires forall k :: 0 <= k < |run| ==> !ComesFromOutside(run[k])
    ensures AllQuiet(Exec(y, run))
    decreases |run|
  {
    if run != [] {
      NextInv(y, run[0]);
      NextAllQuiet(y, run[0]);
      QuiescenceIsStable(Next(y, run[0]), run[1..]);
    }
  }
}
