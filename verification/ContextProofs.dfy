/** No missed wake-up, a clean exit and exact accounts, for every interleaving with the worker loop. */
module ContextProofs {
  import opened Prelude
  import opened ContextModel

  // ---------- The invariant ----------

  /** A task has been popped and not yet unregistered. */
  predicate HasPopped(pc: Pc) {
    pc.Drain? && (pc.drain.Executing? || pc.drain.Unregister?)
  }

  /** `m_wait_count` counts the queued tasks, the submitters about to push and the task in hand. */
  ghost predicate Accounts(t: Tasks, pc: Pc) {
    t.waitCount == |t.queue| + |t.registered| + (if HasPopped(pc) then 1 else 0)
  }

  predicate InHand(pc: Pc, x: Sub) {
    pc == Drain(Executing(x))
  }

  /** Every submission is in exactly one place: registered, queued, in hand or executed. */
  ghost predicate Fates(t: Tasks, pc: Pc) {
    && Distinct(t.queue)
    && Distinct(t.executed)
    && (forall x :: x in t.registered ==> x in t.seen && x !in t.executed)
    && (forall x :: x in t.queue ==> x in t.seen && x !in t.registered && x !in t.executed)
    && (forall x :: x in t.executed ==> x in t.seen)
    && (forall x :: InHand(pc, x) ==> x in t.seen && x !in t.registered && x !in t.queue && x !in t.executed)
    && (forall x :: x in t.seen ==> x in t.registered || x in t.queue || InHand(pc, x) || x in t.executed)
  }

  /** Operations already given to the kernel but still counted as waiting to be submitted. */
  function Overlap(pc: Pc): nat {
    if !pc.Poll? then 0
    else match pc.poll
      case AddRunning(n) => n
      case SubSubmit(n) => n
      case _ => 0
  }

  /** By how much the operations in the kernel differ from `m_io_running_count`. */
  function Skew(pc: Pc): int {
    if !pc.Poll? then 0
    else match pc.poll
      case AddRunning(n) => n as int
      case SubRunning(n) => 0 - n
      case _ => 0
  }

  /** What the worker knows about the I/O counters from the tests it has passed. */
  ghost predicate IoTested(io: IoState, pc: Pc) {
    match pc
    case Head(h) =>
      && (h.LoadRunningIo? || h.LoadQueue? || h.LoadWait? ==> io.submit == 0)
      && (h.LoadQueue? || h.LoadWait? ==> io.running == 0)
    case Drain(_) => true
    case Idle(_) => true
    case Poll(p) =>
      (match p
       case LoadSubmit => true
       case KernelSubmit(n) => 0 < n == io.submit
       case AddRunning(n) => 0 < n == io.submit
       case SubSubmit(n) => 0 < n == io.submit && 0 < io.running
       case BlockTest => io.submit == 0
       case Blocked => io.submit == 0 && io.running == 0
       case Peek => io.submit == 0 && io.running > 0
       case Batch => io.submit == 0 && io.completed > 0
       case Handle(left, n) => io.submit == 0 && left <= n <= io.completed && 0 < n
       case Advance(n) => io.submit == 0 && 0 < n <= io.completed
       case SubRunning(n) => io.submit == 0 && 0 < n)
    case Exited => io.submit == 0 && io.running == 0
  }

  /** The two I/O counters never underflow and every operation issued is accounted for. */
  ghost predicate IoBooks(io: IoState, pc: Pc) {
    && 0 <= io.submit && 0 <= io.running
    && io.inKernel + io.completed == io.running + Skew(pc)
    && io.issued == io.submit - Overlap(pc) + io.inKernel + io.completed + io.handled
    && IoTested(io, pc)
  }

  /** What the worker knows about the rest from the tests it has passed. */
  ghost predicate Control(s: State) {
    && (s.pc.Exited? || (s.pc.Head? && !s.pc.head.LoadStop?) ==> s.stop)
    && (s.pc.Drain? && (s.pc.drain.RaiseFlag? || s.pc.drain.Pop?) ==> s.tasks.queue != [])
    && (s.pc.Idle? ==> !s.managed && (s.pc.idle.SelfSignal? ==> s.stop))
    && (s.flag <==> s.pc.Drain? && !s.pc.drain.TestReady? && !s.pc.drain.RaiseFlag?)
  }

  /** Between the last look at the queue and the blocking read. */
  predicate PastDrain(pc: Pc) {
    || pc.Idle?
    || (pc.Poll? && (pc.poll.LoadSubmit? || pc.poll.KernelSubmit? || pc.poll.AddRunning? || pc.poll.SubSubmit?
                     || pc.poll.BlockTest? || pc.poll.Blocked?))
  }

  /** The worker itself is going to signal before it can block. */
  predicate WillSignal(pc: Pc) {
    || (pc.Drain? && !pc.drain.TestReady? && !pc.drain.LowerFlag?)
    || (pc.Idle? && pc.idle.SelfSignal?)
  }

  /** A push the worker has not looked at leaves the eventfd signalled or about to be. */
  ghost predicate PushWakes(s: State) {
    PastDrain(s.pc) && s.tasks.queue != [] ==> s.efd > 0 || s.tasks.pushed != {}
  }

  /** So does a stop request. */
  ghost predicate StopWakes(s: State) {
    (PastDrain(s.pc) || s.pc.Drain?) && s.stop ==>
      || s.efd > 0 || s.stopWrites > 0
      || s.tasks.registered != {} || s.tasks.pushed != {} || s.tasks.queue != []
      || s.io.submit > 0 || s.io.running > 0 || WillSignal(s.pc)
  }

  /** Before it blocks, a worker without a scheduler that does not stop itself has seen something to do. */
  ghost predicate Restless(s: State) {
    !s.managed && !s.stop && s.pc.Poll? && !Reaping(s.pc.poll) ==> Stirring(s)
  }

  ghost predicate Inv(s: State) {
    && Accounts(s.tasks, s.pc) && Fates(s.tasks, s.pc) && IoBooks(s.io, s.pc)
    && Control(s) && PushWakes(s) && StopWakes(s) && Restless(s)
  }

  lemma InitTasks(pc: Pc)
    requires pc == Head(LoadStop)
    ensures Accounts(Tasks([], 0, {}, {}, {}, []), pc) && Fates(Tasks([], 0, {}, {}, {}, []), pc)
  {
  }

  lemma InitIo(pc: Pc)
    requires pc == Head(LoadStop)
    ensures IoBooks(IoState(0, 0, 0, 0, 0, 0), pc)
  {
  }

  lemma InitControl(s: State)
    requires s.pc == Head(LoadStop) && !s.flag
    ensures Control(s) && PushWakes(s) && StopWakes(s)
  {
  }

  lemma InitInv(managed: bool)
    ensures Inv(Init(managed))
  {
    InitTasks(Head(LoadStop));
    InitIo(Head(LoadStop));
    InitControl(Init(managed));
    InitRestless(Init(managed));
  }

  lemma InitRestless(s: State)
    requires s.pc == Head(LoadStop)
    ensures Restless(s)
  {
  }

  // ---------- The task side ----------

  /** Outside the inner loop the worker leaves the tasks alone. */
  lemma OnlyDrainTouchesTasks(s: State, a: Action)
    requires Enabled(s, a) && a.Work? && !s.pc.Drain?
    ensures Next(s, a).tasks == s.tasks
    ensures Next(s, a).pc.Drain? ==> Next(s, a).pc.drain.TestReady?
  {
    match s.pc
    case Head(h) =>
    case Idle(i) =>
    case Poll(p) =>
  }

  lemma DrainAccounts(s: State, d: DrainPc)
    requires s.pc == Drain(d) && (d.Pop? ==> s.tasks.queue != []) && Accounts(s.tasks, s.pc)
    ensures Accounts(DrainStep(s, d).tasks, DrainStep(s, d).pc)
  {
  }

  lemma NextAccounts(s: State, a: Action)
    requires Accounts(s.tasks, s.pc) && Fates(s.tasks, s.pc) && Enabled(s, a)
    ensures Accounts(Next(s, a).tasks, Next(s, a).pc)
  {
    match a
    case Work(_) =>
      if s.pc.Drain? { DrainAccounts(s, s.pc.drain); } else { OnlyDrainTouchesTasks(s, a); }
    case Register(x) => assert x !in s.tasks.registered;
    case Callback(x) => assert x !in s.tasks.registered;
    case _ =>
  }

  lemma EnrollFates(t: Tasks, pc: Pc, x: Sub)
    requires Fates(t, pc) && x !in t.seen
    ensures Fates(Enroll(t, x), pc)
  {
  }

  lemma PushFates(t: Tasks, pc: Pc, x: Sub)
    requires Fates(t, pc) && x in t.registered
    ensures Fates(t.(registered := t.registered - {x}, queue := t.queue + [x], pushed := t.pushed + {x}), pc)
  {
  }

  lemma PopFates(t: Tasks)
    requires Fates(t, Drain(Pop)) && t.queue != []
    ensures Fates(t.(queue := t.queue[1..]), Drain(Executing(t.queue[0])))
  {
    TailOfDistinct(t.queue);
  }

  lemma ExecuteFates(t: Tasks, x: Sub)
    requires Fates(t, Drain(Executing(x)))
    ensures Fates(t.(executed := t.executed + [x]), Drain(Unregister))
  {
    assert InHand(Drain(Executing(x)), x);
  }

  /** A step that moves no submission. */
  lemma SameFates(t: Tasks, u: Tasks, pc: Pc, pc': Pc)
    requires Fates(t, pc)
    requires u.queue == t.queue && u.registered == t.registered && u.seen == t.seen && u.executed == t.executed
    requires forall x :: InHand(pc', x) == InHand(pc, x)
    ensures Fates(u, pc')
  {
  }

  lemma NextFates(s: State, a: Action)
    requires Fates(s.tasks, s.pc) && Enabled(s, a)
    ensures Fates(Next(s, a).tasks, Next(s, a).pc)
  {
    var u := Next(s, a);
    match a
    case Register(x) => EnrollFates(s.tasks, s.pc, x);
    case Callback(x) =>
      EnrollFates(s.tasks, s.pc, x);
      SameFates(u.tasks, u.tasks, s.pc, u.pc);
    case Push(x) => PushFates(s.tasks, s.pc, x);
    case Work(_) =>
      if !s.pc.Drain? {
        OnlyDrainTouchesTasks(s, a);
        SameFates(s.tasks, u.tasks, s.pc, u.pc);
      } else if s.pc.drain.Pop? {
        PopFates(s.tasks);
      } else if s.pc.drain.Executing? {
        ExecuteFates(s.tasks, s.pc.drain.sub);
      } else {
        SameFates(s.tasks, u.tasks, s.pc, u.pc);
      }
    case _ => SameFates(s.tasks, u.tasks, s.pc, u.pc);
  }

  // ---------- The I/O side ----------

  predicate Reaping(p: PollPc) {
    p.Peek? || p.Batch? || p.Handle? || p.Advance? || p.SubRunning?
  }

  lemma LoadIoBooks(s: State, p: PollPc, batch: nat)
    requires s.pc == Poll(p) && (p.LoadSubmit? || p.BlockTest? || p.Blocked?) && IoBooks(s.io, s.pc)
    ensures IoBooks(PollStep(s, p, batch).io, PollStep(s, p, batch).pc)
  {
  }

  lemma SubmitIoBooks(s: State, p: PollPc, batch: nat)
    requires s.pc == Poll(p) && (p.KernelSubmit? || p.AddRunning? || p.SubSubmit?) && IoBooks(s.io, s.pc)
    ensures IoBooks(PollStep(s, p, batch).io, PollStep(s, p, batch).pc)
  {
  }

  lemma PollIoBooks(s: State, p: PollPc, batch: nat)
    requires s.pc == Poll(p) && CanWork(s, batch) && IoBooks(s.io, s.pc)
    ensures IoBooks(PollStep(s, p, batch).io, PollStep(s, p, batch).pc)
  {
    if Reaping(p) {
      ReapIoBooks(s, p, batch);
    } else if p.LoadSubmit? || p.BlockTest? || p.Blocked? {
      LoadIoBooks(s, p, batch);
    } else {
      SubmitIoBooks(s, p, batch);
    }
  }

  lemma ReapIoBooks(s: State, p: PollPc, batch: nat)
    requires s.pc == Poll(p) && Reaping(p) && CanWork(s, batch) && IoBooks(s.io, s.pc)
    ensures IoBooks(PollStep(s, p, batch).io, PollStep(s, p, batch).pc)
  {
  }

  lemma HeadIoBooks(s: State, h: HeadPc)
    requires s.pc == Head(h) && IoBooks(s.io, s.pc)
    ensures IoBooks(HeadStep(s, h).io, HeadStep(s, h).pc)
  {
  }

  lemma DrainIoBooks(s: State, d: DrainPc)
    requires s.pc == Drain(d) && (d.Pop? ==> s.tasks.queue != []) && IoBooks(s.io, s.pc)
    ensures IoBooks(DrainStep(s, d).io, DrainStep(s, d).pc)
  {
  }

  lemma IdleIoBooks(s: State, i: IdlePc)
    requires s.pc == Idle(i) && IoBooks(s.io, s.pc)
    ensures IoBooks(IdleStep(s, i).io, IdleStep(s, i).pc)
  {
  }

  lemma NextIoBooks(s: State, a: Action)
    requires IoBooks(s.io, s.pc) && Enabled(s, a)
    ensures IoBooks(Next(s, a).io, Next(s, a).pc)
  {
    match a
    case Work(batch) =>
      match s.pc {
        case Head(h) => HeadIoBooks(s, h);
        case Drain(d) => DrainIoBooks(s, d);
        case Idle(i) => IdleIoBooks(s, i);
        case Poll(p) => PollIoBooks(s, p, batch);
      }
    case IssueIo =>
    case Complete => CompleteIoBooks(s);
    case Callback(_) =>
    case _ => assert Next(s, a).io == s.io && Next(s, a).pc == s.pc;
  }

  lemma CompleteIoBooks(s: State)
    requires IoBooks(s.io, s.pc) && s.io.inKernel > 0
    ensures IoBooks(s.io.(inKernel := s.io.inKernel - 1, completed := s.io.completed + 1), s.pc)
  {
  }

  // ---------- Control and wake-ups ----------

  lemma NextControl(s: State, a: Action)
    requires Control(s) && Enabled(s, a)
    ensures Control(Next(s, a))
  {
  }

  lemma WorkPushWakes(s: State, a: Action)
    requires PushWakes(s) && Enabled(s, a) && a.Work?
    ensures PushWakes(Next(s, a))
  {
    match s.pc
    case Head(_) =>
    case Drain(_) =>
    case Idle(_) =>
    case Poll(_) =>
  }

  lemma NextPushWakes(s: State, a: Action)
    requires PushWakes(s) && Enabled(s, a)
    ensures PushWakes(Next(s, a))
  {
    if a.Work? { WorkPushWakes(s, a); }
  }

  lemma WorkStopWakes(s: State, a: Action)
    requires Accounts(s.tasks, s.pc) && IoBooks(s.io, s.pc) && Control(s) && StopWakes(s) && Enabled(s, a) && a.Work?
    ensures StopWakes(Next(s, a))
  {
    match s.pc
    case Head(_) =>
    case Drain(_) =>
    case Idle(_) =>
    case Poll(_) =>
  }

  lemma NextStopWakes(s: State, a: Action)
    requires Accounts(s.tasks, s.pc) && IoBooks(s.io, s.pc) && Control(s) && StopWakes(s) && Enabled(s, a)
    ensures StopWakes(Next(s, a))
  {
    if a.Work? { WorkStopWakes(s, a); }
  }

  /** Somebody or something will make the worker look again. */
  ghost predicate Stirring(s: State) {
    || s.efd > 0 || s.tasks.registered != {} || s.tasks.pushed != {} || s.tasks.queue != []
    || s.io.submit > 0 || s.io.running > 0
  }

  lemma OthersKeepStirring(s: State, a: Action)
    requires Enabled(s, a) && !a.Work? && Stirring(s)
    ensures Stirring(Next(s, a))
  {
    match a
    case Push(x) => assert Next(s, a).tasks.queue != [];
    case Signal(x) => assert Next(s, a).efd > 0;
    case Register(x) => assert x in Next(s, a).tasks.registered;
    case Callback(x) => assert x in Next(s, a).tasks.registered;
    case _ =>
  }

  lemma NextRestless(s: State, a: Action)
    requires Accounts(s.tasks, s.pc) && IoBooks(s.io, s.pc) && Restless(s) && Enabled(s, a)
    ensures Restless(Next(s, a))
  {
    if a.Work? {
      match s.pc
      case Head(_) =>
      case Drain(_) =>
      case Idle(i) => IdleRestless(s, i);
      case Poll(_) =>
    } else if Stirring(s) {
      OthersKeepStirring(s, a);
    }
  }

  lemma IdleRestless(s: State, i: IdlePc)
    requires s.pc == Idle(i) && Accounts(s.tasks, s.pc) && IoBooks(s.io, s.pc)
    ensures Restless(IdleStep(s, i))
  {
    if i.IfNoWait? && s.tasks.waitCount != 0 {
      assert |s.tasks.queue| + |s.tasks.registered| > 0;
    }
  }

  lemma NextInv(s: State, a: Action)
    requires Inv(s) && Enabled(s, a)
    ensures Inv(Next(s, a))
  {
    NextAccounts(s, a);
    NextFates(s, a);
    NextIoBooks(s, a);
    NextControl(s, a);
    NextPushWakes(s, a);
    NextStopWakes(s, a);
    NextRestless(s, a);
  }

  lemma {:induction false} ExecInv(s: State, run: seq<Action>)
    requires Inv(s) && ValidRun(s, run)
    ensures Inv(Exec(s, run))
    decreases |run|
  {
    if run != [] {
      NextInv(s, run[0]);
      ExecInv(Next(s, run[0]), run[1..]);
    }
  }

  // ---------- What was called ----------

  /** The I/Os issued by the tasks of a run. */
  function Issues(run: seq<Action>): nat {
    if run == [] then 0 else (if run[0].IssueIo? then 1 else 0) + Issues(run[1..])
  }

  /** The completion callbacks made. */
  function Callbacks(run: seq<Action>): nat {
    if run == [] then 0 else (if run[0].Callback? then 1 else 0) + Callbacks(run[1..])
  }

  /** The submissions begun, by a caller of `submit_task` or by a callback. */
  function Submissions(run: seq<Action>): set<Sub> {
    if run == [] then {} else SubmissionOf(run[0]) + Submissions(run[1..])
  }

  function SubmissionOf(a: Action): set<Sub> {
    if a.Register? || a.Callback? then {a.sub} else {}
  }

  /** The submissions pushed into the queue, in order. */
  function Pushes(run: seq<Action>): seq<Sub> {
    if run == [] then [] else (if run[0].Push? then [run[0].sub] else []) + Pushes(run[1..])
  }

  /** Completions whose callback has been made but which are still on the ring. */
  function Processed(pc: Pc): int {
    if !pc.Poll? then 0
    else match pc.poll
      case Handle(left, n) => n - left
      case Advance(n) => n as int
      case _ => 0
  }

  /** What was executed, and what is being executed. */
  function Begun(s: State): seq<Sub> {
    s.tasks.executed + match s.pc
      case Drain(d) => if d.Executing? then [d.sub] else []
      case _ => []
  }

  /** Each completion taken off the ring has had its callback. */
  lemma NextCallbacks(s: State, a: Action)
    requires IoBooks(s.io, s.pc) && Enabled(s, a)
    ensures Next(s, a).io.handled + Processed(Next(s, a).pc) ==
            s.io.handled + Processed(s.pc) + if a.Callback? then 1 else 0
    ensures Next(s, a).io.issued == s.io.issued + if a.IssueIo? then 1 else 0
  {
    if a.Work? && s.pc.Poll? { PollCallbacks(s, s.pc.poll, a.batch); }
  }

  lemma PollCallbacks(s: State, p: PollPc, batch: nat)
    requires s.pc == Poll(p) && CanWork(s, batch) && IoBooks(s.io, s.pc)
    ensures var t := PollStep(s, p, batch);
            t.io.handled + Processed(t.pc) == s.io.handled + Processed(s.pc) && t.io.issued == s.io.issued
  {
  }

  lemma DrainOrder(s: State, d: DrainPc)
    requires s.pc == Drain(d) && (d.Pop? ==> s.tasks.queue != [])
    ensures Begun(DrainStep(s, d)) + DrainStep(s, d).tasks.queue == Begun(s) + s.tasks.queue
    ensures DrainStep(s, d).tasks.seen == s.tasks.seen
  {
    if d.Pop? {
      var q := s.tasks.queue;
      assert q == [q[0]] + q[1..];
    }
  }

  /** Tasks are begun in the order in which they were pushed. */
  lemma NextOrder(s: State, a: Action)
    requires Enabled(s, a)
    ensures Begun(Next(s, a)) + Next(s, a).tasks.queue ==
            Begun(s) + s.tasks.queue + if a.Push? then [a.sub] else []
    ensures Next(s, a).tasks.seen == s.tasks.seen + SubmissionOf(a)
  {
    if !a.Work? {
      assert Begun(Next(s, a)) == Begun(s);
    } else if s.pc.Drain? {
      DrainOrder(s, s.pc.drain);
    } else {
      OnlyDrainTouchesTasks(s, a);
    }
  }

  lemma {:induction false} IoHistory(s: State, run: seq<Action>)
    requires IoBooks(s.io, s.pc) && ValidRun(s, run)
    ensures var t := Exec(s, run);
            && t.io.issued == s.io.issued + Issues(run)
            && t.io.handled + Processed(t.pc) == s.io.handled + Processed(s.pc) + Callbacks(run)
    decreases |run|
  {
    if run != [] {
      NextIoBooks(s, run[0]);
      NextCallbacks(s, run[0]);
      IoHistory(Next(s, run[0]), run[1..]);
    }
  }

  lemma {:induction false} TaskHistory(s: State, run: seq<Action>)
    requires ValidRun(s, run)
    ensures var t := Exec(s, run);
            && t.tasks.seen == s.tasks.seen + Submissions(run)
            && Begun(t) + t.tasks.queue == Begun(s) + s.tasks.queue + Pushes(run)
    decreases |run|
  {
    if run != [] {
      NextOrder(s, run[0]);
      TaskHistory(Next(s, run[0]), run[1..]);
    }
  }

  /** Nothing has happened yet. */
  predicate Unused(s: State) {
    s.tasks == Tasks([], 0, {}, {}, {}, []) && s.io == IoState(0, 0, 0, 0, 0, 0) && s.pc == Head(LoadStop)
  }

  lemma {:induction false} IoCalls(s: State, run: seq<Action>, t: State)
    requires Unused(s) && ValidRun(s, run) && t == Exec(s, run)
    ensures t.io.issued == Issues(run) && t.io.handled + Processed(t.pc) == Callbacks(run)
  {
    IoHistory(s, run);
  }

  lemma {:induction false} TaskCalls(s: State, run: seq<Action>, t: State)
    requires Unused(s) && ValidRun(s, run) && t == Exec(s, run)
    ensures t.tasks.seen == Submissions(run) && Begun(t) + t.tasks.queue == Pushes(run)
  {
    TaskHistory(s, run);
    var none: seq<Sub> := [];
    assert Begun(s) == none && none + none + Pushes(run) == Pushes(run);
  }

  /** The histories of a reachable state are those of the calls that led to it. */
  lemma {:induction false} HistoriesAreCalls(managed: bool, run: seq<Action>, t: State)
    requires ValidRun(Init(managed), run) && t == Exec(Init(managed), run)
    ensures t.io.issued == Issues(run) && t.io.handled + Processed(t.pc) == Callbacks(run)
    ensures t.tasks.seen == Submissions(run) && Begun(t) + t.tasks.queue == Pushes(run)
  {
    IoCalls(Init(managed), run, t);
    TaskCalls(Init(managed), run, t);
  }

  /**
   Everything the calls of the run asked for has been done: each I/O had its callback, each
   submission ran once, in order.
   */
  ghost predicate AllDone(t: State, run: seq<Action>) {
    && Issues(run) == Callbacks(run)
    && t.tasks.executed == Pushes(run) && Distinct(t.tasks.executed)
    && (set x | x in t.tasks.executed) == Submissions(run)
  }

  lemma NothingToDoMeansAllDone(t: State, run: seq<Action>)
    requires t.io.issued == Issues(run) && t.io.handled + Processed(t.pc) == Callbacks(run)
    requires t.tasks.seen == Submissions(run) && Begun(t) + t.tasks.queue == Pushes(run)
    requires NothingToDo(t) && Processed(t.pc) == 0 && !IsExecuting(t.pc)
    ensures AllDone(t, run)
  {
    assert Begun(t) == t.tasks.executed && Begun(t) + [] == Begun(t);
  }

  // ---------- The eventfd ----------

  /** A step that writes to the eventfd. */
  predicate WritesEventfd(s: State, a: Action) {
    || a.Signal? || a.SignalStop? || a.Complete?
    || (a.Work? && (s.pc == Drain(UnregisterSignal) || s.pc == Idle(SelfSignal)))
  }

  function Writes(s: State, run: seq<Action>): nat
    requires ValidRun(s, run)
    decreases |run|
  {
    if run == [] then 0 else (if WritesEventfd(s, run[0]) then 1 else 0) + Writes(Next(s, run[0]), run[1..])
  }

  /** What the worker has read from the eventfd. */
  function Reads(s: State, run: seq<Action>): nat
    requires ValidRun(s, run)
    decreases |run|
  {
    if run == [] then 0
    else (if run[0].Work? && s.pc == Poll(Blocked) then s.efd else 0) + Reads(Next(s, run[0]), run[1..])
  }

  lemma NextEventfd(s: State, a: Action)
    requires Enabled(s, a)
    ensures Next(s, a).efd + (if a.Work? && s.pc == Poll(Blocked) then s.efd else 0) ==
            s.efd + (if WritesEventfd(s, a) then 1 else 0)
  {
    if a.Work? {
      match s.pc
      case Head(_) =>
      case Drain(_) =>
      case Idle(_) =>
      case Poll(_) =>
    }
  }

  /** No write to the eventfd is lost or counted twice. */
  lemma {:induction false} EventfdConserved(s: State, run: seq<Action>)
    requires ValidRun(s, run)
    ensures s.efd + Writes(s, run) == Reads(s, run) + Exec(s, run).efd
    decreases |run|
  {
    if run != [] {
      NextEventfd(s, run[0]);
      EventfdConserved(Next(s, run[0]), run[1..]);
    }
  }

  // ---------- What it means ----------

  /** Nobody is between two steps of `submit_task` or `notify_stop`. */
  predicate NoCallInProgress(s: State) {
    s.tasks.registered == {} && s.tasks.pushed == {} && s.stopWrites == 0
  }

  /** All submissions have been executed, each once. */
  ghost predicate AllExecuted(t: Tasks) {
    Distinct(t.executed) && t.seen == set x | x in t.executed
  }

  ghost predicate NoIo(io: IoState) {
    io.submit == 0 && io.running == 0 && io.inKernel == 0 && io.completed == 0 && io.issued == io.handled
  }

  lemma AllAccountedFor(t: Tasks, pc: Pc)
    requires Accounts(t, pc) && Fates(t, pc) && t.waitCount == 0
    ensures t.queue == [] && t.registered == {} && !HasPopped(pc) && AllExecuted(t)
  {
    assert !(exists x :: InHand(pc, x));
  }

  /** No underflow, and conservation outside the middle of `poll_submit`. */
  ghost predicate IoExact(io: IoState, pc: Pc) {
    && 0 <= io.submit && 0 <= io.running
    && (pc.Poll? && pc.poll.SubRunning? ==> pc.poll.n <= io.running)
    && (pc.Poll? && pc.poll.SubSubmit? ==> pc.poll.n <= io.submit)
    && (Skew(pc) == 0 && Overlap(pc) == 0 ==> io.issued == io.submit + io.running + io.handled)
  }

  lemma ExactState(s: State)
    requires Inv(s)
    ensures Accounts(s.tasks, s.pc) && IoExact(s.io, s.pc)
  {
  }

  /**
   `m_wait_count` is exact in every reachable state, neither I/O counter ever underflows, and the
   operations issued are those waiting, those running and those handled.
   */
  lemma {:induction false} CountersExact(managed: bool, run: seq<Action>, s: State)
    requires ValidRun(Init(managed), run) && s == Exec(Init(managed), run)
    ensures Accounts(s.tasks, s.pc) && IoExact(s.io, s.pc)
    ensures s.io.issued == Issues(run) && s.io.handled + Processed(s.pc) == Callbacks(run)
    ensures s.tasks.seen == Submissions(run) && Begun(s) + s.tasks.queue == Pushes(run)
  {
    ReachableInv(managed, run);
    ExactState(s);
    HistoriesAreCalls(managed, run, s);
  }

  lemma {:induction false} ReachableInv(managed: bool, run: seq<Action>)
    requires ValidRun(Init(managed), run)
    ensures Inv(Exec(Init(managed), run))
  {
    InitInv(managed);
    ExecInv(Init(managed), run);
  }

  /** Blocked for good: the worker reads an eventfd at zero and nobody is in the middle of a call. */
  predicate StaysBlocked(s: State) {
    s.pc == Poll(Blocked) && s.efd == 0 && NoCallInProgress(s)
  }

  ghost predicate NothingToDo(s: State) {
    s.tasks.queue == [] && s.tasks.waitCount == 0 && AllExecuted(s.tasks) && NoIo(s.io)
  }

  lemma BlockedState(s: State)
    requires Inv(s) && StaysBlocked(s)
    ensures NothingToDo(s) && !s.stop
  {
    assert PastDrain(s.pc) && !WillSignal(s.pc) && s.tasks.queue == [];
    AllAccountedFor(s.tasks, s.pc);
  }

  /** A worker that stays blocked, with nobody in the middle of a call, has really nothing to do. */
  lemma {:induction false} BlockedMeansIdle(managed: bool, run: seq<Action>)
    requires ValidRun(Init(managed), run) && StaysBlocked(Exec(Init(managed), run))
    ensures NothingToDo(Exec(Init(managed), run)) && !Exec(Init(managed), run).stop
    ensures AllDone(Exec(Init(managed), run), run)
  {
    ReachableInv(managed, run);
    BlockedState(Exec(Init(managed), run));
    HistoriesAreCalls(managed, run, Exec(Init(managed), run));
    NothingToDoMeansAllDone(Exec(Init(managed), run), run);
  }

  lemma ExitState(s: State, a: Action)
    requires Inv(s) && Enabled(s, a) && !s.pc.Exited? && Next(s, a).pc.Exited?
    ensures var t := Next(s, a); t.stop && t.tasks.registered == {} && NothingToDo(t)
  {
    ExitStep(s, a);
    AllAccountedFor(s.tasks, s.pc);
  }

  /**
   At the load that ends `run`, nothing is queued, running, about to be pushed or in I/O, and every
   submission registered before that load has been executed exactly once, in the order pushed, and every
   I/O issued has had its callback.
   */
  lemma {:induction false} CleanExit(managed: bool, run: seq<Action>, last: Action)
    requires ValidRun(Init(managed), run)
    requires Enabled(Exec(Init(managed), run), last) && !Exec(Init(managed), run).pc.Exited?
    requires Next(Exec(Init(managed), run), last).pc.Exited?
    ensures var t := Next(Exec(Init(managed), run), last);
            t.stop && t.tasks.registered == {} && NothingToDo(t) && AllDone(t, run)
  {
    ReachableInv(managed, run);
    ExitState(Exec(Init(managed), run), last);
    ExitStep(Exec(Init(managed), run), last);
    HistoriesAreCalls(managed, run, Exec(Init(managed), run));
    NothingToDoMeansAllDone(Exec(Init(managed), run), run);
  }

  lemma ExitStep(s: State, a: Action)
    requires Enabled(s, a) && !s.pc.Exited? && Next(s, a).pc.Exited?
    ensures a.Work? && s.pc == Head(LoadWait) && s.tasks.waitCount <= 0 && Next(s, a) == s.(pc := Exited)
  {
  }

  /** Whatever is submitted after that is never executed. */
  lemma {:induction false} NothingRunsAfterExit(s: State, run: seq<Action>)
    requires s.pc.Exited? && ValidRun(s, run)
    ensures Exec(s, run).pc.Exited? && Exec(s, run).tasks.executed == s.tasks.executed
    decreases |run|
  {
    if run != [] {
      NothingRunsAfterExit(Next(s, run[0]), run[1..]);
    }
  }
}
