/**
 One `coro::context` with its engine: the worker loop of `context::run`, the submitters that call
 `submit_task` from anywhere, the stop request and the kernel, each atomic access a step of its own.

 A `Sub` is one call of `submit_task`. A submitter registers (`register_wait`), pushes the handle and
 signals the eventfd, in three separate steps; the completion callbacks of the worker and the tasks
 it runs submit in the same three steps.
 */
module ContextModel {
  type Sub = nat

  /** The capacity of the completion batch, `config::kQueCap`. */
  const BATCH_CAP: nat := 16384

  /** The condition of the outer loop of `run`, read from left to right. */
  datatype HeadPc = LoadStop | LoadSubmitIo | LoadRunningIo | LoadQueue | LoadWait

  /** The inner loop: execute what is queued. */
  datatype DrainPc = TestReady | RaiseFlag | Pop | Executing(sub: Sub) | Unregister | UnregisterSignal | LowerFlag

  /** The test of an unmanaged context for stopping by itself, then `notify_stop`. */
  datatype IdlePc = IfNoStop | IfNoSubmitIo | IfNoRunningIo | IfNoQueue | IfNoWait | SelfStop | SelfSignal

  /** `poll_submit`. */
  datatype PollPc =
    | LoadSubmit | KernelSubmit(n: nat) | AddRunning(n: nat) | SubSubmit(n: nat)
    | BlockTest | Blocked
    | Peek | Batch | Handle(left: nat, n: nat) | Advance(n: nat) | SubRunning(n: nat)

  datatype Pc = Head(head: HeadPc) | Drain(drain: DrainPc) | Idle(idle: IdlePc) | Poll(poll: PollPc) | Exited

  /**
   The task side. `registered` and `pushed` hold the submitters between register and push, and
   between push and signal. `seen` and `executed` are histories.
   */
  datatype Tasks = Tasks(
    queue: seq<Sub>,
    waitCount: int,
    registered: set<Sub>,
    pushed: set<Sub>,
    seen: set<Sub>,
    executed: seq<Sub>)

  /**
   The I/O side: the two counters of the engine, the operations the kernel works on and the
   completions it has posted. `issued` and `handled` are histories.
   */
  datatype IoState = IoState(
    submit: int,
    running: int,
    inKernel: nat,
    completed: nat,
    issued: nat,
    handled: nat)

  /** `stopWrites` counts the callers of `notify_stop` between the request and the signal. */
  datatype State = State(
    managed: bool,
    tasks: Tasks,
    io: IoState,
    efd: nat,
    stop: bool,
    stopWrites: nat,
    flag: bool,
    pc: Pc)

  function Init(managed: bool): State {
    State(managed, Tasks([], 0, {}, {}, {}, []), IoState(0, 0, 0, 0, 0, 0), 0, false, 0, false, Head(LoadStop))
  }

  datatype Action =
    | Register(sub: Sub)
    | Push(sub: Sub)
    | Signal(sub: Sub)
    | RequestStop
    | SignalStop
    | IssueIo             // add_io_submit, by the running task
    | Complete            // the kernel posts a completion and signals the eventfd
    | Callback(sub: Sub)  // a completion callback starts to submit its coroutine
    | Work(batch: nat)    // the worker's next step; `batch` is what peek_batch_cqe returns

  predicate IsExecuting(pc: Pc) {
    pc.Drain? && pc.drain.Executing?
  }

  predicate IsHandling(pc: Pc) {
    pc.Poll? && pc.poll.Handle? && pc.poll.left > 0
  }

  predicate Enabled(s: State, a: Action) {
    match a
    case Register(x) => x !in s.tasks.seen
    case Push(x) => x in s.tasks.registered
    case Signal(x) => x in s.tasks.pushed
    case RequestStop => true
    case SignalStop => s.stopWrites > 0
    case IssueIo => IsExecuting(s.pc)
    case Complete => s.io.inKernel > 0
    case Callback(x) => IsHandling(s.pc) && x !in s.tasks.seen
    case Work(batch) => CanWork(s, batch)
  }

  predicate CanWork(s: State, batch: nat) {
    match s.pc
    case Head(_) => true
    case Drain(d) => d.Pop? ==> s.tasks.queue != []
    case Idle(_) => true
    case Poll(p) =>
      && (p.Blocked? ==> s.efd > 0)
      && (p.Batch? ==> 1 <= batch <= s.io.completed && batch <= BATCH_CAP)
      && (p.Handle? ==> p.left == 0)
      && (p.Advance? ==> p.n <= s.io.completed)
    case Exited => false
  }

  function Enroll(t: Tasks, x: Sub): Tasks {
    t.(waitCount := t.waitCount + 1, registered := t.registered + {x}, seen := t.seen + {x})
  }

  function Next(s: State, a: Action): State
    requires Enabled(s, a)
  {
    match a
    case Register(x) => s.(tasks := Enroll(s.tasks, x))
    case Push(x) =>
      s.(tasks := s.tasks.(registered := s.tasks.registered - {x}, queue := s.tasks.queue + [x],
                           pushed := s.tasks.pushed + {x}))
    case Signal(x) => s.(tasks := s.tasks.(pushed := s.tasks.pushed - {x}), efd := s.efd + 1)
    case RequestStop => s.(stop := true, stopWrites := s.stopWrites + 1)
    case SignalStop => s.(stopWrites := s.stopWrites - 1, efd := s.efd + 1)
    case IssueIo => s.(io := s.io.(submit := s.io.submit + 1, issued := s.io.issued + 1))
    case Complete =>
      s.(io := s.io.(inKernel := s.io.inKernel - 1, completed := s.io.completed + 1), efd := s.efd + 1)
    case Callback(x) => s.(tasks := Enroll(s.tasks, x), pc := Poll(Handle(s.pc.poll.left - 1, s.pc.poll.n)))
    case Work(batch) =>
      match s.pc
      case Head(h) => HeadStep(s, h)
      case Drain(d) => DrainStep(s, d)
      case Idle(i) => IdleStep(s, i)
      case Poll(p) => PollStep(s, p, batch)
  }

  function HeadStep(s: State, h: HeadPc): State {
    var body := Drain(TestReady);
    match h
    case LoadStop => s.(pc := if !s.stop then body else Head(LoadSubmitIo))
    case LoadSubmitIo => s.(pc := if s.io.submit != 0 then body else Head(LoadRunningIo))
    case LoadRunningIo => s.(pc := if s.io.running != 0 then body else Head(LoadQueue))
    case LoadQueue => s.(pc := if s.tasks.queue != [] then body else Head(LoadWait))
    case LoadWait => s.(pc := if s.tasks.waitCount > 0 then body else Exited)
  }

  function DrainStep(s: State, d: DrainPc): State
    requires d.Pop? ==> s.tasks.queue != []
  {
    match d
    case TestReady =>
      s.(pc := if s.tasks.queue != [] then Drain(RaiseFlag) else if s.managed then Poll(LoadSubmit) else Idle(IfNoStop))
    case RaiseFlag => s.(flag := true, pc := Drain(Pop))
    case Pop => s.(tasks := s.tasks.(queue := s.tasks.queue[1..]), pc := Drain(Executing(s.tasks.queue[0])))
    case Executing(x) => s.(tasks := s.tasks.(executed := s.tasks.executed + [x]), pc := Drain(Unregister))
    case Unregister => s.(tasks := s.tasks.(waitCount := s.tasks.waitCount - 1), pc := Drain(UnregisterSignal))
    case UnregisterSignal => s.(efd := s.efd + 1, pc := Drain(LowerFlag))
    case LowerFlag => s.(flag := false, pc := Drain(TestReady))
  }

  function IdleStep(s: State, i: IdlePc): State {
    var poll := Poll(LoadSubmit);
    match i
    case IfNoStop => s.(pc := if s.stop then poll else Idle(IfNoSubmitIo))
    case IfNoSubmitIo => s.(pc := if s.io.submit != 0 then poll else Idle(IfNoRunningIo))
    case IfNoRunningIo => s.(pc := if s.io.running != 0 then poll else Idle(IfNoQueue))
    case IfNoQueue => s.(pc := if s.tasks.queue != [] then poll else Idle(IfNoWait))
    case IfNoWait => s.(pc := if s.tasks.waitCount != 0 then poll else Idle(SelfStop))
    case SelfStop => s.(stop := true, pc := Idle(SelfSignal))
    case SelfSignal => s.(efd := s.efd + 1, pc := poll)
  }

  function PollStep(s: State, p: PollPc, batch: nat): State
    requires p.Advance? ==> p.n <= s.io.completed
  {
    match p
    case LoadSubmit => s.(pc := Poll(if s.io.submit > 0 then KernelSubmit(s.io.submit) else BlockTest))
    case KernelSubmit(n) => s.(io := s.io.(inKernel := s.io.inKernel + n), pc := Poll(AddRunning(n)))
    case AddRunning(n) => s.(io := s.io.(running := s.io.running + n), pc := Poll(SubSubmit(n)))
    case SubSubmit(n) => s.(io := s.io.(submit := s.io.submit - n), pc := Poll(BlockTest))
    case BlockTest => s.(pc := Poll(if s.io.running == 0 then Blocked else Peek))
    case Blocked => s.(efd := 0, pc := Head(LoadStop))
    case Peek => s.(pc := if s.io.completed == 0 then Head(LoadStop) else Poll(Batch))
    case Batch => s.(pc := Poll(Handle(batch, batch)))
    case Handle(_, n) => s.(pc := Poll(Advance(n)))
    case Advance(n) =>
      s.(io := s.io.(completed := s.io.completed - n, handled := s.io.handled + n), pc := Poll(SubRunning(n)))
    case SubRunning(n) => s.(io := s.io.(running := s.io.running - n), pc := Head(LoadStop))
  }

  predicate ValidRun(s: State, run: seq<Action>)
    decreases |run|
  {
    run == [] || (Enabled(s, run[0]) && ValidRun(Next(s, run[0]), run[1..]))
  }

  function Exec(s: State, run: seq<Action>): State
    requires ValidRun(s, run)
    decreases |run|
  {
    if run == [] then s else Exec(Next(s, run[0]), run[1..])
  }
}
