/** The channel in the imperative form of `coro/comp/channel.hpp`, proved against the state machine. */
module ChannelClass {
  import opened Prelude
  import opened ChannelModel
  import opened ChannelProofs

  class Channel<T> {
    const capacity: nat
    var buffer: seq<T>
    var closed: bool
    var senders: seq<Op>
    var receivers: seq<Op>
    /** The awaiter objects the queues point to. */
    var sends: map<Op, SendAwaiter<T>>
    var recvs: map<Op, RecvAwaiter<T>>
    /** The handles given to the executor so far. */
    var submitted: seq<Wake>
    ghost var sent: seq<Op>
    ghost var got: seq<Op>

    ghost function View(): State<T>
      reads this
    {
      State(capacity, buffer, closed, senders, receivers, sends, recvs, submitted, sent, got)
    }

    ghost predicate Valid()
      reads this
    {
      Inv(View())
    }

    constructor (capacity: nat)
      requires capacity >= 1
      ensures Valid() && View() == Init<T>(capacity)
    {
      this.capacity := capacity;
      buffer, closed, senders, receivers := [], false, [], [];
      sends, recvs, submitted := map[], map[], [];
      sent, got := [], [];
    }

    method TrySendLocked(op: Op, value: T) returns (done: bool)
      modifies this
      ensures match TrySend(old(View()), op, value)
              case Some(s) => done && View() == s
              case None => !done && View() == old(View())
      ensures !old(closed) && old(receivers) != [] ==>
                && done && submitted == old(submitted) + [WakeReceiver(old(receivers)[0])]
                && recvs[old(receivers)[0]] == RecvFinished(Some(value), true)
    {
      if closed {
        sends := sends[op := SendAwaiter(value, SendFinished(false, false))];
        return true;
      }
      if receivers != [] {
        var r := receivers[0];
        receivers := receivers[1..];
        recvs := recvs[r := RecvFinished(Some(value), true)];
        submitted := submitted + [WakeReceiver(r)];
        sends := sends[op := SendAwaiter(value, SendFinished(true, false))];
        sent, got := sent + [op], got + [r];
        return true;
      }
      if |buffer| < capacity {
        buffer := buffer + [value];
        sends := sends[op := SendAwaiter(value, SendFinished(true, false))];
        sent := sent + [op];
        return true;
      }
      return false;
    }

    method TryRecvLocked(op: Op) returns (done: bool)
      requires senders != [] ==> senders[0] in sends
      modifies this
      ensures match TryRecv(old(View()), op)
              case Some(s) => done && View() == s
              case None => !done && View() == old(View())
      ensures old(buffer) != [] ==> done && recvs[op].RecvFinished? && recvs[op].result == Some(old(buffer)[0])
      ensures old(buffer) != [] && old(senders) != [] ==> submitted == old(submitted) + [WakeSender(old(senders)[0])]
    {
      if buffer != [] {
        recvs := recvs[op := RecvFinished(Some(buffer[0]), false)];
        buffer := buffer[1..];
        got := got + [op];
        if senders != [] {
          var o := senders[0];
          senders := senders[1..];
          buffer := buffer + [sends[o].value];
          sends := sends[o := SendAwaiter(sends[o].value, SendFinished(true, true))];
          submitted := submitted + [WakeSender(o)];
        }
        return true;
      }
      if closed {
        recvs := recvs[op := RecvFinished(None, false)];
        return true;
      }
      return false;
    }

    /** `send_awaiter::await_ready`. */
    method SendAwaitReady(op: Op, value: T) returns (ready: bool)
      requires Valid() && op !in sends
      modifies this
      ensures Valid() && View() == SendReady(old(View()), op, value)
      ensures ready <==> sends[op].phase.SendFinished?
      ensures sends[op].value == value
      ensures ready <==> old(closed) || old(receivers) != [] || |old(buffer)| < capacity
    {
      NextInv(View(), DoSendReady(op, value));
      ready := TrySendLocked(op, value);
      if !ready {
        sends := sends[op := SendAwaiter(value, SendRetry)];
      }
    }

    /** `send_awaiter::await_suspend`: `true` means that the coroutine stays suspended. */
    method SendAwaitSuspend(op: Op) returns (suspends: bool)
      requires Valid() && op in sends && sends[op].phase.SendRetry?
      modifies this
      ensures Valid() && View() == SendSuspend(old(View()), op)
      ensures suspends <==> sends[op].phase.SendParked?
    {
      NextInv(View(), DoSendSuspend(op));
      var value := sends[op].value;
      var done := TrySendLocked(op, value);
      if done {
        return false;
      }
      sends := sends[op := SendAwaiter(value, SendParked)];
      senders := senders + [op];
      sent := sent + [op];
      return true;
    }

    /** `recv_awaiter::await_ready`. */
    method RecvAwaitReady(op: Op) returns (ready: bool)
      requires Valid() && op !in recvs
      modifies this
      ensures Valid() && View() == RecvReady(old(View()), op)
      ensures ready <==> recvs[op].RecvFinished?
    {
      NextInv(View(), DoRecvReady(op));
      ready := TryRecvLocked(op);
      if !ready {
        recvs := recvs[op := RecvRetry];
      }
    }

    /** `recv_awaiter::await_suspend`. */
    method RecvAwaitSuspend(op: Op) returns (suspends: bool)
      requires Valid() && op in recvs && recvs[op].RecvRetry?
      modifies this
      ensures Valid() && View() == RecvSuspend(old(View()), op)
      ensures suspends <==> recvs[op].RecvParked?
    {
      NextInv(View(), DoRecvSuspend(op));
      var done := TryRecvLocked(op);
      if done {
        return false;
      }
      recvs := recvs[op := RecvParked];
      receivers := receivers + [op];
      return true;
    }

    method Close()
      requires Valid()
      modifies this
      ensures Valid() && View() == ChannelModel.Close(old(View()))
      ensures closed && buffer == old(buffer) && senders == [] && receivers == []
    {
      NextInv(View(), DoClose);
      CloseLocked();
    }

    method CloseLocked()
      requires |senders| <= |sent|
      requires (forall o :: o in senders ==> o in sends) && (forall o :: o in receivers ==> o in recvs)
      modifies this
      ensures View() == ChannelModel.Close(old(View()))
    {
      closed := true;
      sent := sent[..|sent| - |senders|];
      RefuseParked();
      ExcuseParked();
    }

    method RefuseParked()
      requires forall o :: o in senders ==> o in sends
      modifies this`senders, this`sends, this`submitted
      ensures senders == [] && sends == RefuseAll(old(sends), old(senders))
      ensures submitted == old(submitted) + SenderWakes(old(senders))
    {
      ghost var k := 0;
      while senders != []
        invariant k <= |old(senders)| && senders == old(senders)[k..]
        invariant sends == RefuseAll(old(sends), old(senders)[..k])
        invariant submitted == old(submitted) + SenderWakes(old(senders)[..k])
        decreases |senders|
      {
        var o := senders[0];
        senders := senders[1..];
        sends := sends[o := SendAwaiter(sends[o].value, SendFinished(false, true))];
        submitted := submitted + [WakeSender(o)];
        assert old(senders)[..k + 1] == old(senders)[..k] + [o];
        k := k + 1;
      }
      assert old(senders)[..k] == old(senders);
    }

    method ExcuseParked()
      requires forall o :: o in receivers ==> o in recvs
      modifies this`receivers, this`recvs, this`submitted
      ensures receivers == [] && recvs == ExcuseAll(old(recvs), old(receivers))
      ensures submitted == old(submitted) + ReceiverWakes(old(receivers))
    {
      ghost var k := 0;
      while receivers != []
        invariant k <= |old(receivers)| && receivers == old(receivers)[k..]
        invariant recvs == ExcuseAll(old(recvs), old(receivers)[..k])
        invariant submitted == old(submitted) + ReceiverWakes(old(receivers)[..k])
        decreases |receivers|
      {
        var o := receivers[0];
        receivers := receivers[1..];
        recvs := recvs[o := RecvFinished(None, true)];
        submitted := submitted + [WakeReceiver(o)];
        assert old(receivers)[..k + 1] == old(receivers)[..k] + [o];
        k := k + 1;
      }
      assert old(receivers)[..k] == old(receivers);
    }
  }
}
