/**
 What every interleaving of channel operations keeps.
 */
module ChannelProofs {
  import opened Prelude
  import opened ChannelModel

  // ---------- The invariant ----------

  /** Who may be parked when: parking happens only on a full (empty) buffer, and nobody is parked once closed. */
  ghost predicate Shape<T>(s: State<T>) {
    && |s.buffer| <= s.capacity
    && (s.senders != [] ==> |s.buffer| == s.capacity)
    && (s.receivers != [] ==> s.buffer == [] && s.senders == [])
    && (s.closed ==> s.senders == [] && s.receivers == [])
  }

  /** The parked queues hold exactly the operations whose awaiter is parked. */
  ghost predicate Queues<T>(s: State<T>) {
    && Distinct(s.senders)
    && Distinct(s.receivers)
    && (forall o :: o in s.senders ==> o in s.sends)
    && (forall o :: o in s.receivers ==> o in s.recvs)
    && (forall o :: o in s.sends ==> (s.sends[o].phase.SendParked? <==> o in s.senders))
    && (forall o :: o in s.recvs ==> (s.recvs[o].RecvParked? <==> o in s.receivers))
  }

  /**
   The i-th receive to be given a value holds the value of the i-th surviving send; the buffer holds
   the values of the sends that follow, in order, and the parked senders are the rest.
   */
  ghost predicate Ledger<T>(s: State<T>) {
    && |s.sent| == |s.got| + |s.buffer| + |s.senders|
    && Distinct(s.sent)
    && Distinct(s.got)
    && (forall i :: 0 <= i < |s.sent| ==> s.sent[i] in s.sends && Entry(s, i, s.sends[s.sent[i]]))
    && (forall o :: o in s.sends && Succeeded(s.sends[o]) ==> o in s.sent)
    && (forall o :: o in s.recvs && s.recvs[o].RecvFinished? && s.recvs[o].result.Some? ==> o in s.got)
  }

  ghost predicate Succeeded<T>(w: SendAwaiter<T>) {
    w.phase.SendFinished? && w.phase.ok
  }

  /** Where the value of the i-th surviving send, whose awaiter is `w`, is now. */
  ghost predicate Entry<T>(s: State<T>, i: nat, w: SendAwaiter<T>)
    requires i < |s.sent| == |s.got| + |s.buffer| + |s.senders|
  {
    if i < |s.got| then
      && Succeeded(w)
      && s.got[i] in s.recvs
      && s.recvs[s.got[i]].RecvFinished?
      && s.recvs[s.got[i]].result == Some(w.value)
    else if i < |s.got| + |s.buffer| then
      && Succeeded(w)
      && s.buffer[i - |s.got|] == w.value
    else
      s.senders[i - |s.got| - |s.buffer|] == s.sent[i]
  }

  /** A handle is resubmitted exactly when it had been parked and its result slot has been set, and never twice. */
  ghost predicate Wakes<T>(s: State<T>) {
    && Distinct(s.submitted)
    && (forall o :: WakeSender(o) in s.submitted <==>
          o in s.sends && s.sends[o].phase.SendFinished? && s.sends[o].phase.suspended)
    && (forall o :: WakeReceiver(o) in s.submitted <==>
          o in s.recvs && s.recvs[o].RecvFinished? && s.recvs[o].suspended)
  }

  /** Everything except `Shape`, which breaks for a moment inside `try_recv_locked`. */
  ghost predicate Books<T>(s: State<T>) {
    Queues(s) && Ledger(s) && Wakes(s)
  }

  /**
   A send fails only because of `close`, and a receive comes back empty only once the channel is
   closed and drained.
   */
  ghost predicate Endings<T>(s: State<T>) {
    && (forall o :: o in s.sends && s.sends[o].phase.SendFinished? && !s.sends[o].phase.ok ==> s.closed)
    && (forall o :: o in s.recvs && s.recvs[o].RecvFinished? && s.recvs[o].result.None? ==> s.closed && s.buffer == [])
  }

  ghost predicate Inv<T>(s: State<T>) {
    s.capacity >= 1 && Shape(s) && Books(s) && Endings(s)
  }

  lemma InitInv<T>(capacity: nat)
    requires capacity >= 1
    ensures Inv(Init<T>(capacity))
  {
  }

  // ---------- Each branch keeps the books ----------

  /** An operation in its first or second attempt is not in the history yet. */
  lemma NotSentYet<T>(s: State<T>, op: Op)
    requires Queues(s) && Ledger(s)
    requires op in s.sends ==> s.sends[op].phase.SendRetry?
    ensures op !in s.sent && op !in s.senders
  {
    forall i | 0 <= i < |s.sent| ensures s.sent[i] != op {
      assert Entry(s, i, s.sends[s.sent[i]]);
    }
  }

  lemma NotGotYet<T>(s: State<T>, op: Op)
    requires Queues(s) && Ledger(s)
    requires op in s.recvs ==> !s.recvs[op].RecvFinished?
    ensures op !in s.got
  {
    forall i | 0 <= i < |s.got| ensures s.got[i] != op {
      assert Entry(s, i, s.sends[s.sent[i]]);
    }
  }

  lemma RefuseBooks<T>(s: State<T>, op: Op, v: T)
    requires Books(s) && (op in s.sends ==> s.sends[op].phase.SendRetry?)
    ensures Books(Refuse(s, op, v))
  {
    NotSentYet(s, op);
  }

  lemma RetrySendBooks<T>(s: State<T>, op: Op, v: T)
    requires Books(s) && op !in s.sends
    ensures Books(s.(sends := s.sends[op := SendAwaiter(v, SendRetry)]))
  {
    NotSentYet(s, op);
  }

  lemma HandOffLedger<T>(s: State<T>, op: Op, v: T)
    requires Queues(s) && Ledger(s) && (op in s.sends ==> s.sends[op].phase.SendRetry?)
    requires s.receivers != [] && s.buffer == [] && s.senders == []
    ensures Ledger(HandOff(s, op, v))
  {
    NotSentYet(s, op);
    NotGotYet(s, s.receivers[0]);
    var t := HandOff(s, op, v);
    forall i | 0 <= i < |t.sent| ensures t.sent[i] in t.sends && Entry(t, i, t.sends[t.sent[i]]) {
      if i < |s.sent| { assert Entry(s, i, s.sends[s.sent[i]]); }
    }
  }

  lemma HandOffBooks<T>(s: State<T>, op: Op, v: T)
    requires Books(s) && (op in s.sends ==> s.sends[op].phase.SendRetry?)
    requires s.receivers != [] && s.buffer == [] && s.senders == []
    ensures Books(HandOff(s, op, v))
  {
    HandOffLedger(s, op, v);
  }

  lemma StoreLedger<T>(s: State<T>, op: Op, v: T)
    requires Queues(s) && Ledger(s) && (op in s.sends ==> s.sends[op].phase.SendRetry?)
    requires s.senders == []
    ensures Ledger(Store(s, op, v))
  {
    NotSentYet(s, op);
    var t := Store(s, op, v);
    forall i | 0 <= i < |t.sent| ensures t.sent[i] in t.sends && Entry(t, i, t.sends[t.sent[i]]) {
      if i < |s.sent| { assert Entry(s, i, s.sends[s.sent[i]]); }
    }
  }

  lemma StoreBooks<T>(s: State<T>, op: Op, v: T)
    requires Books(s) && (op in s.sends ==> s.sends[op].phase.SendRetry?)
    requires s.senders == []
    ensures Books(Store(s, op, v))
  {
    StoreLedger(s, op, v);
  }

  lemma ParkSenderLedger<T>(s: State<T>, op: Op, v: T)
    requires Queues(s) && Ledger(s) && (op in s.sends ==> s.sends[op].phase.SendRetry?)
    ensures Ledger(ParkSender(s, op, v))
  {
    NotSentYet(s, op);
    var t := ParkSender(s, op, v);
    forall i | 0 <= i < |t.sent| ensures t.sent[i] in t.sends && Entry(t, i, t.sends[t.sent[i]]) {
      if i < |s.sent| { assert Entry(s, i, s.sends[s.sent[i]]); }
    }
  }

  lemma ParkSenderBooks<T>(s: State<T>, op: Op, v: T)
    requires Books(s) && op in s.sends && s.sends[op].phase.SendRetry?
    ensures Books(ParkSender(s, op, v))
  {
    ParkSenderLedger(s, op, v);
  }

  lemma TakeLedger<T>(s: State<T>, op: Op)
    requires Queues(s) && Ledger(s) && (op in s.recvs ==> s.recvs[op].RecvRetry?)
    requires s.buffer != []
    ensures Ledger(Take(s, op))
  {
    NotGotYet(s, op);
    var t := Take(s, op);
    forall i | 0 <= i < |t.sent| ensures t.sent[i] in t.sends && Entry(t, i, t.sends[t.sent[i]]) {
      assert Entry(s, i, s.sends[s.sent[i]]);
    }
  }

  lemma TakeBooks<T>(s: State<T>, op: Op)
    requires Books(s) && (op in s.recvs ==> s.recvs[op].RecvRetry?)
    requires s.buffer != []
    ensures Books(Take(s, op))
  {
    TakeLedger(s, op);
  }

  lemma AdmitSenderLedger<T>(s: State<T>)
    requires Queues(s) && Ledger(s) && s.senders != []
    ensures Ledger(AdmitSender(s))
  {
    var t := AdmitSender(s);
    var m := |s.got| + |s.buffer|;
    assert Entry(s, m, s.sends[s.sent[m]]);
    forall i | 0 <= i < |t.sent| ensures t.sent[i] in t.sends && Entry(t, i, t.sends[t.sent[i]]) {
      assert Entry(s, i, s.sends[s.sent[i]]);
    }
  }

  lemma AdmitSenderBooks<T>(s: State<T>)
    requires Books(s)
    ensures Books(AdmitSender(s))
  {
    if s.senders != [] {
      AdmitSenderLedger(s);
    }
  }

  lemma ExhaustBooks<T>(s: State<T>, op: Op)
    requires Books(s) && (op in s.recvs ==> s.recvs[op].RecvRetry?)
    ensures Books(Exhaust(s, op))
  {
  }

  lemma RetryRecvBooks<T>(s: State<T>, op: Op)
    requires Books(s) && op !in s.recvs
    ensures Books(s.(recvs := s.recvs[op := RecvRetry]))
  {
  }

  lemma ParkReceiverBooks<T>(s: State<T>, op: Op)
    requires Books(s) && op in s.recvs && s.recvs[op].RecvRetry?
    ensures Books(ParkReceiver(s, op))
  {
  }

  /** The parked senders are exactly the tail of the history that `close` cuts off. */
  lemma ParkedSuffix<T>(s: State<T>)
    requires Queues(s) && Ledger(s)
    ensures var m := |s.got| + |s.buffer|;
            && s.sent[m..] == s.senders
            && (forall i :: 0 <= i < m ==> s.sent[i] !in s.senders)
  {
    var m := |s.got| + |s.buffer|;
    forall i | 0 <= i < |s.sent| ensures i < m ==> s.sent[i] !in s.senders
                                 ensures i >= m ==> s.sent[i] == s.senders[i - m]
    {
      assert Entry(s, i, s.sends[s.sent[i]]);
    }
  }

  lemma CloseKeepsSucceeded<T>(s: State<T>, o: Op)
    requires Queues(s) && Ledger(s) && o in s.sends && Succeeded(s.sends[o])
    ensures o in Close(s).sent
  {
    var i :| 0 <= i < |s.sent| && s.sent[i] == o;
    assert Entry(s, i, s.sends[o]);
    assert Close(s).sent[i] == o;
  }

  lemma CloseEntries<T>(s: State<T>, i: nat)
    requires Queues(s) && Ledger(s) && i < |s.got| + |s.buffer|
    ensures var c := Close(s);
            && |c.sent| == |c.got| + |c.buffer| + |c.senders| && i < |c.sent|
            && c.sent[i] in c.sends && Entry(c, i, c.sends[c.sent[i]])
  {
    ParkedSuffix(s);
    assert Entry(s, i, s.sends[s.sent[i]]);
  }

  lemma CloseLedger<T>(s: State<T>)
    requires Queues(s) && Ledger(s)
    ensures Ledger(Close(s))
  {
    var c := Close(s);
    forall i | 0 <= i < |c.sent| ensures c.sent[i] in c.sends && Entry(c, i, c.sends[c.sent[i]]) {
      CloseEntries(s, i);
    }
    forall o | o in c.sends && Succeeded(c.sends[o]) ensures o in c.sent {
      CloseKeepsSucceeded(s, o);
    }
  }

  lemma CloseWakes<T>(s: State<T>)
    requires Queues(s) && Wakes(s)
    ensures Wakes(Close(s))
  {
    var c := Close(s);
    var a, b := SenderWakes(s.senders), ReceiverWakes(s.receivers);
    forall o ensures WakeSender(o) in c.submitted <==> WakeSender(o) in s.submitted || o in s.senders {
      if o in s.senders {
        var i :| 0 <= i < |s.senders| && s.senders[i] == o;
        assert a[i] == WakeSender(o);
      }
    }
    forall o ensures WakeReceiver(o) in c.submitted <==> WakeReceiver(o) in s.submitted || o in s.receivers {
      if o in s.receivers {
        var i :| 0 <= i < |s.receivers| && s.receivers[i] == o;
        assert b[i] == WakeReceiver(o);
      }
    }
    assert Distinct(s.submitted + a) by {
      forall i | 0 <= i < |a| ensures a[i] !in s.submitted {
        assert s.senders[i] in s.senders;
      }
    }
    assert Distinct(c.submitted) by {
      forall i | 0 <= i < |b| ensures b[i] !in s.submitted + a {
        assert s.receivers[i] in s.receivers;
      }
    }
  }

  lemma CloseBooks<T>(s: State<T>)
    requires Books(s)
    ensures Books(Close(s))
  {
    CloseLedger(s);
    CloseWakes(s);
  }

  // ---------- Every step keeps the invariant ----------

  lemma NextBooks<T>(s: State<T>, a: Action<T>)
    requires Shape(s) && Books(s) && Enabled(s, a)
    ensures Books(Next(s, a))
  {
    match a
    case DoSendReady(op, v) =>
      if s.closed { RefuseBooks(s, op, v); }
      else if s.receivers != [] { HandOffBooks(s, op, v); }
      else if |s.buffer| < s.capacity { StoreBooks(s, op, v); }
      else { RetrySendBooks(s, op, v); }
    case DoSendSuspend(op) =>
      var v := s.sends[op].value;
      if s.closed { RefuseBooks(s, op, v); }
      else if s.receivers != [] { HandOffBooks(s, op, v); }
      else if |s.buffer| < s.capacity { StoreBooks(s, op, v); }
      else { ParkSenderBooks(s, op, v); }
    case DoRecvReady(op) => RecvBooks(s, op);
    case DoRecvSuspend(op) => RecvBooks(s, op);
    case DoClose => CloseBooks(s);
  }

  lemma RecvBooks<T>(s: State<T>, op: Op)
    requires Books(s) && (op in s.recvs ==> s.recvs[op].RecvRetry?)
    ensures op !in s.recvs ==> Books(RecvReady(s, op))
    ensures op in s.recvs ==> Books(RecvSuspend(s, op))
  {
    if s.buffer != [] {
      TakeBooks(s, op);
      AdmitSenderBooks(Take(s, op));
    } else if s.closed {
      ExhaustBooks(s, op);
    } else if op in s.recvs {
      ParkReceiverBooks(s, op);
    } else {
      RetryRecvBooks(s, op);
    }
  }

  lemma NextShape<T>(s: State<T>, a: Action<T>)
    requires s.capacity >= 1 && Shape(s) && Enabled(s, a)
    ensures Next(s, a).capacity == s.capacity && Shape(Next(s, a))
  {
  }

  lemma NextEndings<T>(s: State<T>, a: Action<T>)
    requires Shape(s) && Endings(s) && Enabled(s, a)
    ensures Endings(Next(s, a))
  {
  }

  lemma NextInv<T>(s: State<T>, a: Action<T>)
    requires Inv(s) && Enabled(s, a)
    ensures Inv(Next(s, a))
  {
    NextBooks(s, a);
    NextShape(s, a);
    NextEndings(s, a);
  }

  lemma {:induction false} ExecInv<T>(s: State<T>, run: seq<Action<T>>)
    requires Inv(s) && ValidRun(s, run)
    ensures Inv(Exec(s, run))
    decreases |run|
  {
    if run != [] {
      NextInv(s, run[0]);
      ExecInv(Next(s, run[0]), run[1..]);
    }
  }
}
