/**
 The bounded channel of `coro/comp/channel.hpp` as a state machine.

 Every `co_await` of a send or a receive is one operation `Op`; the id stands for the pair of the
 suspended handle and its awaiter object. One step is one critical section of the channel's
 spinlock: the attempt made by `await_ready`, the second attempt made by `await_suspend` (which
 parks the operation when it fails again), or `close`.

 `sent` and `got` are histories: the sends in the order in which they took effect or parked (those
 dropped by `close` taken out), and the receives in the order in which they were given a value.
 */
module ChannelModel {
  import opened Prelude

  type Op = nat

  datatype SendPhase = SendRetry | SendParked | SendFinished(ok: bool, suspended: bool)

  /** `m_value` and the progress of one send; `ok` is `m_result`. */
  datatype SendAwaiter<T> = SendAwaiter(value: T, phase: SendPhase)

  /** Progress of one receive; `result` is `m_result`. */
  datatype RecvAwaiter<T> = RecvRetry | RecvParked | RecvFinished(result: Option<T>, suspended: bool)

  /** A handle given back to the executor by `local_context().submit_task`. */
  datatype Wake = WakeSender(op: Op) | WakeReceiver(op: Op)

  datatype State<T> = State(
    capacity: nat,
    buffer: seq<T>,
    closed: bool,
    senders: seq<Op>,
    receivers: seq<Op>,
    sends: map<Op, SendAwaiter<T>>,
    recvs: map<Op, RecvAwaiter<T>>,
    submitted: seq<Wake>,
    sent: seq<Op>,
    got: seq<Op>)

  function Init<T>(capacity: nat): State<T> {
    State(capacity, [], false, [], [], map[], map[], [], [], [])
  }

  // ---------- The branches of the two locked attempts ----------

  /** A send on a closed channel finishes with `false`. */
  function Refuse<T>(s: State<T>, op: Op, v: T): State<T> {
    s.(sends := s.sends[op := SendAwaiter(v, SendFinished(false, false))])
  }

  /** The value goes straight into the result slot of the first parked receiver, which is woken. */
  function HandOff<T>(s: State<T>, op: Op, v: T): State<T>
    requires s.receivers != []
  {
    var r := s.receivers[0];
    s.(receivers := s.receivers[1..],
       recvs := s.recvs[r := RecvFinished(Some(v), true)],
       submitted := s.submitted + [WakeReceiver(r)],
       sends := s.sends[op := SendAwaiter(v, SendFinished(true, false))],
       sent := s.sent + [op],
       got := s.got + [r])
  }

  /** The value is buffered. */
  function Store<T>(s: State<T>, op: Op, v: T): State<T> {
    s.(buffer := s.buffer + [v],
       sends := s.sends[op := SendAwaiter(v, SendFinished(true, false))],
       sent := s.sent + [op])
  }

  /** The first buffered value goes to the receive. */
  function Take<T>(s: State<T>, op: Op): State<T>
    requires s.buffer != []
  {
    s.(recvs := s.recvs[op := RecvFinished(Some(s.buffer[0]), false)],
       buffer := s.buffer[1..],
       got := s.got + [op])
  }

  /** The parked sender at the front, if there is one, moves its value into the buffer and is woken. */
  function AdmitSender<T>(s: State<T>): State<T>
    requires s.senders != [] ==> s.senders[0] in s.sends
  {
    if s.senders == [] then s
    else
      var o := s.senders[0];
      var v := s.sends[o].value;
      s.(senders := s.senders[1..],
         buffer := s.buffer + [v],
         sends := s.sends[o := SendAwaiter(v, SendFinished(true, true))],
         submitted := s.submitted + [WakeSender(o)])
  }

  /** A receive on a closed and drained channel finishes without a value. */
  function Exhaust<T>(s: State<T>, op: Op): State<T> {
    s.(recvs := s.recvs[op := RecvFinished(None, false)])
  }

  // ---------- The locked attempts ----------

  /** `try_send_locked`: `None` when the send has to wait. */
  function TrySend<T>(s: State<T>, op: Op, v: T): Option<State<T>> {
    if s.closed then Some(Refuse(s, op, v))
    else if s.receivers != [] then Some(HandOff(s, op, v))
    else if |s.buffer| < s.capacity then Some(Store(s, op, v))
    else None
  }

  /** `try_recv_locked`: `None` when the receive has to wait. */
  function TryRecv<T>(s: State<T>, op: Op): Option<State<T>>
    requires s.senders != [] ==> s.senders[0] in s.sends
  {
    if s.buffer != [] then Some(AdmitSender(Take(s, op)))
    else if s.closed then Some(Exhaust(s, op))
    else None
  }

  // ---------- The steps ----------

  /** `send_awaiter::await_ready`. */
  function SendReady<T>(s: State<T>, op: Op, v: T): State<T> {
    match TrySend(s, op, v)
    case Some(s') => s'
    case None => s.(sends := s.sends[op := SendAwaiter(v, SendRetry)])
  }

  function ParkSender<T>(s: State<T>, op: Op, v: T): State<T> {
    s.(sends := s.sends[op := SendAwaiter(v, SendParked)],
       senders := s.senders + [op],
       sent := s.sent + [op])
  }

  /** `send_awaiter::await_suspend`. */
  function SendSuspend<T>(s: State<T>, op: Op): State<T>
    requires op in s.sends
  {
    var v := s.sends[op].value;
    match TrySend(s, op, v)
    case Some(s') => s'
    case None => ParkSender(s, op, v)
  }

  /** `recv_awaiter::await_ready`. */
  function RecvReady<T>(s: State<T>, op: Op): State<T>
    requires s.senders != [] ==> s.senders[0] in s.sends
  {
    match TryRecv(s, op)
    case Some(s') => s'
    case None => s.(recvs := s.recvs[op := RecvRetry])
  }

  function ParkReceiver<T>(s: State<T>, op: Op): State<T> {
    s.(recvs := s.recvs[op := RecvParked], receivers := s.receivers + [op])
  }

  /** `recv_awaiter::await_suspend`. */
  function RecvSuspend<T>(s: State<T>, op: Op): State<T>
    requires s.senders != [] ==> s.senders[0] in s.sends
  {
    match TryRecv(s, op)
    case Some(s') => s'
    case None => ParkReceiver(s, op)
  }

  function SenderWakes(ops: seq<Op>): (w: seq<Wake>)
    ensures |w| == |ops| && forall i :: 0 <= i < |ops| ==> w[i] == WakeSender(ops[i])
  {
    seq(|ops|, i requires 0 <= i < |ops| => WakeSender(ops[i]))
  }

  function ReceiverWakes(ops: seq<Op>): (w: seq<Wake>)
    ensures |w| == |ops| && forall i :: 0 <= i < |ops| ==> w[i] == WakeReceiver(ops[i])
  {
    seq(|ops|, i requires 0 <= i < |ops| => WakeReceiver(ops[i]))
  }

  /** The given parked sends finish with `false`. */
  function RefuseAll<T>(sends: map<Op, SendAwaiter<T>>, ops: seq<Op>): map<Op, SendAwaiter<T>> {
    map o | o in sends :: if o in ops then SendAwaiter(sends[o].value, SendFinished(false, true)) else sends[o]
  }

  /** The given parked receives finish without a value. */
  function ExcuseAll<T>(recvs: map<Op, RecvAwaiter<T>>, ops: seq<Op>): map<Op, RecvAwaiter<T>> {
    map o | o in recvs :: if o in ops then RecvFinished(None, true) else recvs[o]
  }

  /** `close`: refuses every parked sender and sends every parked receiver home empty-handed. */
  function Close<T>(s: State<T>): State<T> {
    s.(closed := true,
       senders := [],
       receivers := [],
       sends := RefuseAll(s.sends, s.senders),
       recvs := ExcuseAll(s.recvs, s.receivers),
       submitted := s.submitted + SenderWakes(s.senders) + ReceiverWakes(s.receivers),
       sent := if |s.senders| <= |s.sent| then s.sent[..|s.sent| - |s.senders|] else s.sent)
  }

  datatype Action<T> =
    | DoSendReady(op: Op, value: T)
    | DoSendSuspend(op: Op)
    | DoRecvReady(op: Op)
    | DoRecvSuspend(op: Op)
    | DoClose

  /** The order in which the language calls an awaiter: `await_ready` once, then `await_suspend` once. */
  predicate Enabled<T>(s: State<T>, a: Action<T>) {
    match a
    case DoSendReady(op, _) => op !in s.sends
    case DoSendSuspend(op) => op in s.sends && s.sends[op].phase.SendRetry?
    case DoRecvReady(op) => op !in s.recvs && (s.senders != [] ==> s.senders[0] in s.sends)
    case DoRecvSuspend(op) =>
      op in s.recvs && s.recvs[op].RecvRetry? && (s.senders != [] ==> s.senders[0] in s.sends)
    case DoClose => true
  }

  function Next<T>(s: State<T>, a: Action<T>): State<T>
    requires Enabled(s, a)
  {
    match a
    case DoSendReady(op, v) => SendReady(s, op, v)
    case DoSendSuspend(op) => SendSuspend(s, op)
    case DoRecvReady(op) => RecvReady(s, op)
    case DoRecvSuspend(op) => RecvSuspend(s, op)
    case DoClose => Close(s)
  }

  predicate ValidRun<T>(s: State<T>, run: seq<Action<T>>)
    decreases |run|
  {
    run == [] || (Enabled(s, run[0]) && ValidRun(Next(s, run[0]), run[1..]))
  }

  function Exec<T>(s: State<T>, run: seq<Action<T>>): State<T>
    requires ValidRun(s, run)
    decreases |run|
  {
    if run == [] then s else Exec(Next(s, run[0]), run[1..])
  }
}
