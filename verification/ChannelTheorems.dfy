/**
 The channel as its users see it: first in first out, nothing lost, nothing duplicated, and an
 orderly end after `close`, for every run of sends, receives and closes.
 */
module ChannelTheorems {
  import opened Prelude
  import opened ChannelModel
  import opened ChannelProofs

  // ---------- Sequences of values ----------

  ghost predicate Known<T>(s: State<T>, ops: seq<Op>) {
    forall i :: 0 <= i < |ops| ==> ops[i] in s.sends
  }

  /** The values carried by the given sends. */
  ghost function Values<T>(s: State<T>, ops: seq<Op>): (vs: seq<T>)
    requires Known(s, ops)
    ensures |vs| == |ops|
  {
    seq(|ops|, i requires 0 <= i < |ops| => s.sends[ops[i]].value)
  }

  ghost predicate Served<T>(s: State<T>, ops: seq<Op>) {
    forall i :: 0 <= i < |ops| ==>
      ops[i] in s.recvs && s.recvs[ops[i]].RecvFinished? && s.recvs[ops[i]].result.Some?
  }

  /** The values returned by the given receives. */
  ghost function Results<T>(s: State<T>, ops: seq<Op>): (vs: seq<T>)
    requires Served(s, ops)
    ensures |vs| == |ops|
  {
    seq(|ops|, i requires 0 <= i < |ops| => s.recvs[ops[i]].result.value)
  }

  /** The sends whose value has been delivered or buffered. */
  ghost function Committed<T>(s: State<T>): seq<Op>
    requires Ledger(s)
  {
    s.sent[..|s.got| + |s.buffer|]
  }

  lemma LedgerValues<T>(s: State<T>)
    requires Queues(s) && Ledger(s)
    ensures Known(s, s.sent) && Known(s, s.senders) && Served(s, s.got)
    ensures Results(s, s.got) + s.buffer + Values(s, s.senders) == Values(s, s.sent)
  {
    forall i | 0 <= i < |s.got|
      ensures s.got[i] in s.recvs && s.recvs[s.got[i]].RecvFinished? && s.recvs[s.got[i]].result.Some?
    {
      assert Entry(s, i, s.sends[s.sent[i]]);
    }
    var all := Results(s, s.got) + s.buffer + Values(s, s.senders);
    forall i | 0 <= i < |s.sent| ensures all[i] == s.sends[s.sent[i]].value {
      assert Entry(s, i, s.sends[s.sent[i]]);
    }
  }

  // ---------- What was called ----------

  /** What the sends of a run were called with. */
  ghost function Arguments<T>(run: seq<Action<T>>): map<Op, T> {
    if run == [] then map[] else Arguments(run[1..]) + ArgumentOf(run[0])
  }

  ghost function ArgumentOf<T>(a: Action<T>): map<Op, T> {
    if a.DoSendReady? then map[a.op := a.value] else map[]
  }

  type Awaiters<T> = map<Op, SendAwaiter<T>>

  /** From `m` to `m'` only the sends in `args` are new, with these values, and no send has changed its value. */
  ghost predicate Carries<T>(m: Awaiters<T>, m': Awaiters<T>, args: map<Op, T>) {
    && m'.Keys == m.Keys + args.Keys
    && (forall o :: o in m ==> o !in args && m'[o].value == m[o].value)
    && (forall o :: o in args ==> m'[o].value == args[o])
  }

  lemma CarriesOn<T>(m: Awaiters<T>, m1: Awaiters<T>, m2: Awaiters<T>, args: map<Op, T>, rest: map<Op, T>)
    requires Carries(m, m1, args) && Carries(m1, m2, rest)
    ensures Carries(m, m2, rest + args)
  {
    assert forall o :: o in args ==> o in m1.Keys;
    assert forall o :: o in m ==> o in m1.Keys;
  }

  /** A step adds a send only if it is its first attempt, with the value it was called with. */
  lemma NextCalls<T>(s: State<T>, a: Action<T>)
    requires Queues(s) && Enabled(s, a)
    ensures Carries(s.sends, Next(s, a).sends, ArgumentOf(a))
  {
    assert s.senders != [] ==> s.senders[0] in s.senders;
  }

  /** Over a run the sends are those made before and those called, each with its own value for ever. */
  lemma {:induction false} SendsKeepTheirArguments<T>(s: State<T>, run: seq<Action<T>>)
    requires Inv(s) && ValidRun(s, run)
    ensures Carries(s.sends, Exec(s, run).sends, Arguments(run))
    decreases |run|
  {
    if run != [] {
      var u := Next(s, run[0]);
      NextInv(s, run[0]);
      NextCalls(s, run[0]);
      SendsKeepTheirArguments(u, run[1..]);
      CarriesOn(s.sends, u.sends, Exec(s, run).sends, ArgumentOf(run[0]), Arguments(run[1..]));
    }
  }

  /** The argument of each of the given sends. */
  ghost function Given<T>(args: map<Op, T>, ops: seq<Op>): (vs: seq<T>)
    requires forall i :: 0 <= i < |ops| ==> ops[i] in args
    ensures |vs| == |ops|
  {
    seq(|ops|, i requires 0 <= i < |ops| => args[ops[i]])
  }

  lemma ValuesAreArguments<T>(s: State<T>, args: map<Op, T>, ops: seq<Op>)
    requires Known(s, ops) && Carries(map[], s.sends, args)
    ensures (forall i :: 0 <= i < |ops| ==> ops[i] in args) && Values(s, ops) == Given(args, ops)
  {
    forall i | 0 <= i < |ops| ensures ops[i] in args {
      assert ops[i] in s.sends.Keys;
    }
  }

  // ---------- Conservation ----------

  /**
   In every reachable state, what was delivered, then what is buffered, then what the parked senders
   were called with, is what the sends were called with, in the order in which they took effect or parked.
   */
  lemma {:induction false} Conservation<T>(capacity: nat, run: seq<Action<T>>, s: State<T>, args: map<Op, T>)
    requires capacity >= 1 && ValidRun(Init<T>(capacity), run)
    requires s == Exec(Init<T>(capacity), run) && args == Arguments(run)
    ensures (forall i :: 0 <= i < |s.sent| ==> s.sent[i] in args)
    ensures (forall i :: 0 <= i < |s.senders| ==> s.senders[i] in args) && Served(s, s.got)
    ensures Results(s, s.got) + s.buffer + Given(args, s.senders) == Given(args, s.sent)
    ensures Distinct(s.sent) && Distinct(s.got)
    ensures forall o :: o in s.recvs ==> (o in s.got <==> s.recvs[o].RecvFinished? && s.recvs[o].result.Some?)
  {
    InitInv<T>(capacity);
    ExecInv(Init<T>(capacity), run);
    LedgerValues(s);
    SendsKeepTheirArguments(Init<T>(capacity), run);
    ValuesAreArguments(s, args, s.sent);
    ValuesAreArguments(s, args, s.senders);
  }

  lemma {:induction false} SentArguments<T>(capacity: nat, run: seq<Action<T>>, s: State<T>)
    requires capacity >= 1 && ValidRun(Init<T>(capacity), run) && s == Exec(Init<T>(capacity), run)
    ensures Inv(s) && Known(s, s.sent)
    ensures (forall i :: 0 <= i < |s.sent| ==> s.sent[i] in Arguments(run))
    ensures Values(s, s.sent) == Given(Arguments(run), s.sent)
  {
    InitInv<T>(capacity);
    ExecInv(Init<T>(capacity), run);
    LedgerValues(s);
    SendsKeepTheirArguments(Init<T>(capacity), run);
    ValuesAreArguments(s, Arguments(run), s.sent);
  }

  /**
   Parked senders mean a full buffer, parked receivers an empty one and no parked senders, and close
   leaves nobody parked.
   */
  lemma {:induction false} QueueShape<T>(capacity: nat, run: seq<Action<T>>, s: State<T>)
    requires capacity >= 1 && ValidRun(Init<T>(capacity), run) && s == Exec(Init<T>(capacity), run)
    ensures |s.buffer| <= s.capacity
    ensures s.senders != [] ==> |s.buffer| == s.capacity
    ensures s.receivers != [] ==> s.buffer == [] && s.senders == []
    ensures s.closed ==> s.senders == [] && s.receivers == []
  {
    InitInv<T>(capacity);
    ExecInv(Init<T>(capacity), run);
  }

  /**
   A send is `true` exactly when its value was delivered or buffered, `false` only when `close`
   refused or dropped it, and parked otherwise.
   */
  lemma {:induction false} SendOutcome<T>(capacity: nat, run: seq<Action<T>>, s: State<T>, op: Op)
    requires capacity >= 1 && ValidRun(Init<T>(capacity), run) && s == Exec(Init<T>(capacity), run)
    requires op in s.sends
    ensures Ledger(s)
    ensures var phase := s.sends[op].phase;
            && (phase.SendFinished? && phase.ok <==> op in Committed(s))
            && (phase.SendParked? <==> op in s.senders)
            && (phase.SendFinished? && !phase.ok ==> s.closed && op !in s.sent)
  {
    InitInv<T>(capacity);
    ExecInv(Init<T>(capacity), run);
    SendOutcomeState(s, op);
  }

  lemma SendOutcomeState<T>(s: State<T>, op: Op)
    requires Inv(s) && op in s.sends
    ensures var phase := s.sends[op].phase;
            && (phase.SendFinished? && phase.ok <==> op in Committed(s))
            && (phase.SendParked? <==> op in s.senders)
            && (phase.SendFinished? && !phase.ok ==> s.closed && op !in s.sent)
  {
    CommittedSucceeded(s, op);
    ParkedSuffix(s);
    assert s.sent == Committed(s) + s.senders;
  }

  /** A receive comes back empty only from a closed and drained channel. */
  lemma {:induction false} ReceiveOutcome<T>(capacity: nat, run: seq<Action<T>>, s: State<T>, op: Op)
    requires capacity >= 1 && ValidRun(Init<T>(capacity), run) && s == Exec(Init<T>(capacity), run)
    requires op in s.recvs && s.recvs[op].RecvFinished?
    ensures s.recvs[op].result.None? ==> s.closed && s.buffer == [] && s.senders == []
    ensures s.recvs[op].result.Some? <==> op in s.got
  {
    InitInv<T>(capacity);
    ExecInv(Init<T>(capacity), run);
    LedgerValues(s);
  }

  lemma CommittedSucceeded<T>(s: State<T>, op: Op)
    requires Queues(s) && Ledger(s) && op in s.sends
    ensures op in Committed(s) <==> Succeeded(s.sends[op])
  {
    if op in Committed(s) {
      var i :| 0 <= i < |Committed(s)| && Committed(s)[i] == op;
      assert Entry(s, i, s.sends[s.sent[i]]);
    }
    if Succeeded(s.sends[op]) {
      var i :| 0 <= i < |s.sent| && s.sent[i] == op;
      assert Entry(s, i, s.sends[s.sent[i]]);
      assert Committed(s)[i] == op;
    }
  }

  /**
   A handle goes back to the executor exactly when it was parked and its result slot has been set,
   never twice and never while it is still in a queue.
   */
  lemma {:induction false} ResumedOnceWithResult<T>(capacity: nat, run: seq<Action<T>>)
    requires capacity >= 1 && ValidRun(Init<T>(capacity), run)
    ensures var s := Exec(Init<T>(capacity), run);
            && Distinct(s.submitted)
            && (forall o :: WakeSender(o) in s.submitted <==>
                  o in s.sends && s.sends[o].phase.SendFinished? && s.sends[o].phase.suspended)
            && (forall o :: WakeReceiver(o) in s.submitted <==>
                  o in s.recvs && s.recvs[o].RecvFinished? && s.recvs[o].suspended)
            && (forall o :: o in s.senders ==> WakeSender(o) !in s.submitted)
            && (forall o :: o in s.receivers ==> WakeReceiver(o) !in s.submitted)
  {
    InitInv<T>(capacity);
    ExecInv(Init<T>(capacity), run);
  }

  // ---------- Nobody sleeps on ----------

  /** A step resubmits exactly the handles that it takes out of the queues. */
  lemma NextWakes<T>(s: State<T>, a: Action<T>)
    requires Inv(s) && Enabled(s, a)
    ensures var t := Next(s, a);
            && (forall o :: WakeSender(o) in t.submitted <==>
                  WakeSender(o) in s.submitted || (o in s.senders && o !in t.senders))
            && (forall o :: WakeReceiver(o) in t.submitted <==>
                  WakeReceiver(o) in s.submitted || (o in s.receivers && o !in t.receivers))
  {
    if s.senders != [] { TailOfDistinct(s.senders); }
    if s.receivers != [] { TailOfDistinct(s.receivers); }
    if a.DoClose? { CloseWakesAll(s); }
  }

  lemma CloseWakesAll<T>(s: State<T>)
    ensures forall o :: WakeSender(o) in Close(s).submitted <==> WakeSender(o) in s.submitted || o in s.senders
    ensures forall o :: WakeReceiver(o) in Close(s).submitted <==> WakeReceiver(o) in s.submitted || o in s.receivers
  {
    var a, b := SenderWakes(s.senders), ReceiverWakes(s.receivers);
    forall o | o in s.senders ensures WakeSender(o) in a {
      var i :| 0 <= i < |s.senders| && s.senders[i] == o;
      assert a[i] == WakeSender(o);
    }
    forall o | o in s.receivers ensures WakeReceiver(o) in b {
      var i :| 0 <= i < |s.receivers| && s.receivers[i] == o;
      assert b[i] == WakeReceiver(o);
    }
  }

  /** `o` is in the queue of senders at some point of the run. */
  ghost predicate SenderParks<T>(s: State<T>, run: seq<Action<T>>, o: Op)
    requires ValidRun(s, run)
    decreases |run|
  {
    o in s.senders || (run != [] && SenderParks(Next(s, run[0]), run[1..], o))
  }

  ghost predicate ReceiverParks<T>(s: State<T>, run: seq<Action<T>>, o: Op)
    requires ValidRun(s, run)
    decreases |run|
  {
    o in s.receivers || (run != [] && ReceiverParks(Next(s, run[0]), run[1..], o))
  }

  /**
   Over any run, a handle is resubmitted if and only if it was parked at some point and is not parked
   any more, whether it left the queue by a hand-off, by being admitted to the buffer or by `close`.
   */
  lemma {:induction false} NobodySleepsOn<T>(s: State<T>, run: seq<Action<T>>, o: Op)
    requires Inv(s) && ValidRun(s, run)
    ensures var t := Exec(s, run);
            && (WakeSender(o) in t.submitted <==>
                  WakeSender(o) in s.submitted || (SenderParks(s, run, o) && o !in t.senders))
            && (WakeReceiver(o) in t.submitted <==>
                  WakeReceiver(o) in s.submitted || (ReceiverParks(s, run, o) && o !in t.receivers))
    decreases |run|
  {
    if run != [] {
      NextInv(s, run[0]);
      NextWakes(s, run[0]);
      NobodySleepsOn(Next(s, run[0]), run[1..], o);
      ExecInv(s, run);
    }
  }

  // ---------- Waiting only when necessary ----------

  /**
   A send waits, in its first attempt or its second, exactly when the channel is open, full and has
   no waiting receiver.
   */
  lemma SendWaitsIff<T>(s: State<T>, a: Action<T>)
    requires Inv(s) && Enabled(s, a) && (a.DoSendReady? || a.DoSendSuspend?)
    ensures a.op in Next(s, a).sends
    ensures !Next(s, a).sends[a.op].phase.SendFinished? <==>
            !s.closed && |s.buffer| == s.capacity && s.receivers == []
    ensures a.DoSendSuspend? ==> !Next(s, a).sends[a.op].phase.SendRetry?
  {
  }

  /** A receive waits exactly when the channel is open and holds nothing. */
  lemma RecvWaitsIff<T>(s: State<T>, a: Action<T>)
    requires Inv(s) && Enabled(s, a) && (a.DoRecvReady? || a.DoRecvSuspend?)
    ensures a.op in Next(s, a).recvs
    ensures !Next(s, a).recvs[a.op].RecvFinished? <==> !s.closed && s.buffer == []
    ensures a.DoRecvSuspend? ==> !Next(s, a).recvs[a.op].RecvRetry?
  {
  }

  /** The channel is closed exactly if it was or `close` is among the calls. */
  lemma {:induction false} ClosedByCloseOnly<T>(s: State<T>, run: seq<Action<T>>)
    requires ValidRun(s, run)
    ensures Exec(s, run).closed <==> s.closed || DoClose in run
    ensures Exec(s, run).capacity == s.capacity
    decreases |run|
  {
    if run != [] {
      ClosedByCloseOnly(Next(s, run[0]), run[1..]);
      assert run == [run[0]] + run[1..];
    }
  }

  // ---------- History is never rewritten ----------

  ghost predicate SameResults<T>(s: State<T>, t: State<T>) {
    && (forall o :: o in s.sends ==> o in t.sends && t.sends[o].value == s.sends[o].value)
    && (forall o :: o in s.recvs && s.recvs[o].RecvFinished? ==> o in t.recvs && t.recvs[o] == s.recvs[o])
  }

  /**
   `t` can come after `s`: the two histories agree as far as both go, what was committed stays
   committed in the same place, and only `close` shortens the history.
   */
  ghost predicate Later<T>(s: State<T>, t: State<T>) {
    && SameResults(s, t)
    && s.got <= t.got
    && |s.got| + |s.buffer| <= |t.got| + |t.buffer|
    && (s.closed ==> t.closed && t.sent == s.sent)
    && (s.sent <= t.sent || (t.closed && t.sent <= s.sent))
  }

  lemma NextSameResults<T>(s: State<T>, a: Action<T>)
    requires Queues(s) && Enabled(s, a)
    ensures SameResults(s, Next(s, a))
  {
    match a
    case DoSendReady(_, _) =>
    case DoSendSuspend(_) =>
    case DoRecvReady(_) => if s.senders != [] { assert s.senders[0] in s.senders; }
    case DoRecvSuspend(_) => if s.senders != [] { assert s.senders[0] in s.senders; }
    case DoClose =>
  }

  /** What one step may do to the histories. */
  lemma NextHistory<T>(s: State<T>, a: Action<T>)
    requires Enabled(s, a) && |s.senders| <= |s.sent|
    ensures var t := Next(s, a);
            && s.got <= t.got
            && (a.DoClose? ==> t.closed && t.got == s.got && t.buffer == s.buffer
                               && t.sent == s.sent[..|s.sent| - |s.senders|])
            && (!a.DoClose? ==>
                  && t.closed == s.closed
                  && s.sent <= t.sent && |t.sent| <= |s.sent| + 1 && |t.got| <= |s.got| + 1
                  && (t.sent != s.sent ==> !s.closed)
                  && |s.got| + |s.buffer| <= |t.got| + |t.buffer|)
  {
  }

  lemma NextLater<T>(s: State<T>, a: Action<T>)
    requires Inv(s) && Enabled(s, a)
    ensures Later(s, Next(s, a))
  {
    NextSameResults(s, a);
    NextHistory(s, a);
  }

  lemma {:induction false} ExecLater<T>(s: State<T>, run: seq<Action<T>>)
    requires Inv(s) && ValidRun(s, run)
    ensures Inv(Exec(s, run)) && Later(s, Exec(s, run))
    decreases |run|
  {
    if run != [] {
      NextInv(s, run[0]);
      NextLater(s, run[0]);
      ExecLater(Next(s, run[0]), run[1..]);
    }
  }

  /** Committed sends stay where they are in the order. */
  lemma {:induction false} CommittedStays<T>(s: State<T>, run: seq<Action<T>>)
    requires Inv(s) && ValidRun(s, run)
    ensures Inv(Exec(s, run))
    ensures Committed(s) <= Committed(Exec(s, run))
  {
    ExecLater(s, run);
  }

  /**
   No overtaking: a send that had taken effect or parked before another one is ahead of it in the
   order for ever. In particular the sends of one producer, made one after the other, stay in order.
   */
  lemma {:induction false} NoOvertaking<T>(s: State<T>, run: seq<Action<T>>, first: Op, second: Op)
    requires Inv(s) && ValidRun(s, run)
    requires first in s.sent && second !in s.sent
    requires second in Exec(s, run).sent
    ensures var t := Exec(s, run);
            exists i, j :: 0 <= i < j < |t.sent| && t.sent[i] == first && t.sent[j] == second
  {
    ExecLater(s, run);
    var t := Exec(s, run);
    var i :| 0 <= i < |s.sent| && s.sent[i] == first;
    var j :| 0 <= j < |t.sent| && t.sent[j] == second;
    assert s.sent <= t.sent;
    assert t.sent[i] == first;
    assert forall k :: 0 <= k < |s.sent| ==> t.sent[k] == s.sent[k];
  }

  // ---------- Receivers in turn ----------

  /** How many of the receivers parked in `s` have been given a value by `t`. */
  function ServedBy<T>(s: State<T>, t: State<T>): nat
    requires |s.got| <= |t.got|
  {
    if |t.got| - |s.got| <= |s.receivers| then |t.got| - |s.got| else |s.receivers|
  }

  /** The given receives came back without a value after having been parked. */
  ghost predicate Excused<T>(s: State<T>, ops: seq<Op>) {
    forall i :: 0 <= i < |ops| ==> ops[i] in s.recvs && s.recvs[ops[i]] == RecvFinished(None, true)
  }

  /**
   The receivers parked in `s` are given the next values in queue order. As long as one of them has
   none nobody else gets any, and those still without a value keep their places at the front of the
   queue or have been sent home by `close`.
   */
  ghost predicate InTurn<T>(s: State<T>, t: State<T>) {
    && s.got <= t.got
    && var k := ServedBy(s, t);
       && s.got + s.receivers[..k] <= t.got
       && (k < |s.receivers| ==>
             && t.got == s.got + s.receivers[..k]
             && if t.closed then Excused(t, s.receivers[k..]) else s.receivers[k..] <= t.receivers)
  }

  lemma NextInTurn<T>(s: State<T>, a: Action<T>)
    requires Inv(s) && Enabled(s, a)
    ensures InTurn(s, Next(s, a))
  {
    var t := Next(s, a);
    NextHistory(s, a);
    if s.receivers != [] {
      assert s.receivers[0..] == s.receivers && s.got + s.receivers[..0] == s.got;
      assert s.got + s.receivers[..1] == s.got + [s.receivers[0]];
      if a.DoClose? {
        forall i | 0 <= i < |s.receivers|
          ensures s.receivers[i] in t.recvs && t.recvs[s.receivers[i]] == RecvFinished(None, true)
        {
          assert s.receivers[i] in s.receivers;
        }
      }
    }
  }

  /** Nothing is delivered any more by a closed and empty channel. */
  lemma ClosedEmptyDeliversNothing<T>(s: State<T>, t: State<T>)
    requires Inv(s) && Inv(t) && Later(s, t) && s.closed && s.buffer == []
    ensures t.got == s.got
  {
  }

  lemma InTurnAllServed<T>(s: State<T>, u: State<T>, t: State<T>)
    requires InTurn(s, u) && ServedBy(s, u) == |s.receivers| && u.got <= t.got
    ensures InTurn(s, t)
  {
    assert s.got + s.receivers[..|s.receivers|] <= t.got;
  }

  /** The first i of a queue, k of which have gone before. */
  lemma Spliced(got: seq<Op>, queue: seq<Op>, k: nat, queue': seq<Op>, i: nat)
    requires k + i <= |queue| && queue[k..] <= queue'
    ensures (got + queue[..k]) + queue'[..i] == got + queue[..k + i]
    ensures queue[k + i..] <= queue'[i..]
  {
    assert queue'[..i] == queue[k..][..i];
    assert queue[..k + i] == queue[..k] + queue[k..][..i];
  }

  lemma InTurnOpen<T>(s: State<T>, u: State<T>, t: State<T>)
    requires InTurn(s, u) && InTurn(u, t) && ServedBy(s, u) < |s.receivers| && !u.closed
    ensures InTurn(s, t)
  {
    var k, j := ServedBy(s, u), ServedBy(u, t);
    var i := if k + j <= |s.receivers| then j else |s.receivers| - k;
    Spliced(s.got, s.receivers, k, u.receivers, i);
    assert u.got + u.receivers[..i] <= u.got + u.receivers[..j] <= t.got;
  }

  lemma InTurnComposes<T>(s: State<T>, u: State<T>, t: State<T>)
    requires Inv(u) && Inv(t) && Later(u, t)
    requires InTurn(s, u) && InTurn(u, t)
    ensures InTurn(s, t)
  {
    var k := ServedBy(s, u);
    if k == |s.receivers| {
      InTurnAllServed(s, u, t);
    } else if u.closed {
      var first := s.receivers[k..][0];
      assert first in u.recvs && u.recvs[first] == RecvFinished(None, true);
      ClosedEmptyDeliversNothing(u, t);
    } else {
      InTurnOpen(s, u, t);
    }
  }

  /** Over every run the parked receivers are served first, in the order of the queue. */
  lemma {:induction false} ParkedReceiversInTurn<T>(s: State<T>, run: seq<Action<T>>)
    requires Inv(s) && ValidRun(s, run)
    ensures Inv(Exec(s, run)) && InTurn(s, Exec(s, run))
    decreases |run|
  {
    if run == [] {
      assert s.got + s.receivers[..0] == s.got && s.receivers[0..] == s.receivers;
    } else {
      var u := Next(s, run[0]);
      NextInv(s, run[0]);
      NextInTurn(s, run[0]);
      ParkedReceiversInTurn(u, run[1..]);
      ExecLater(u, run[1..]);
      InTurnComposes(s, u, Exec(s, run));
    }
  }

  /**
   No receive overtakes a parked one: when a receive that was not yet parked has been given a value,
   every receiver parked before it has been given one earlier, the one at position k that of the k-th
   send still to be delivered at that time.
   */
  lemma {:induction false} NoReceiveOvertakes<T>(s: State<T>, run: seq<Action<T>>, k: nat, late: Op)
    requires Inv(s) && ValidRun(s, run)
    requires k < |s.receivers| && late !in s.got && late !in s.receivers
    requires late in Exec(s, run).got
    ensures var t := Exec(s, run);
            var n, r := |s.got| + k, s.receivers[k];
            && n < |t.got| && t.got[n] == r
            && (exists j :: n < j < |t.got| && t.got[j] == late)
            && n < |t.sent| && t.sent[n] in t.sends && r in t.recvs
            && t.recvs[r].RecvFinished? && t.recvs[r].result == Some(t.sends[t.sent[n]].value)
  {
    ParkedReceiversInTurn(s, run);
    var t := Exec(s, run);
    AheadOfLate(s, t, k, late);
    assert Entry(t, |s.got| + k, t.sends[t.sent[|s.got| + k]]);
  }

  lemma AheadOfLate<T>(s: State<T>, t: State<T>, k: nat, late: Op)
    requires InTurn(s, t) && k < |s.receivers|
    requires late !in s.got && late !in s.receivers && late in t.got
    ensures var n := |s.got| + k;
            n < |t.got| && t.got[n] == s.receivers[k] && exists j :: n < j < |t.got| && t.got[j] == late
  {
    var first := s.got + s.receivers[..ServedBy(s, t)];
    var j :| 0 <= j < |t.got| && t.got[j] == late;
    assert first[|s.got| + k] == s.receivers[k];
  }

  // ---------- A plain queue ----------

  /** The reference: an unbounded queue with a flag. */
  datatype Queue<T> = Queue(items: seq<T>, closed: bool)

  ghost function AsQueue<T>(s: State<T>): Queue<T>
    requires Known(s, s.senders)
  {
    Queue(s.buffer + Values(s, s.senders), s.closed)
  }

  /** One use of the plain queue: put at the back, then take from the front; at most one of each. */
  ghost predicate QueueStep<T>(q: Queue<T>, put: seq<T>, taken: seq<T>, q': Queue<T>) {
    && |put| <= 1 && |taken| <= 1
    && taken + q'.items == q.items + put
    && q'.closed == q.closed
    && (put != [] ==> !q.closed)
  }

  /** Only the acting send enters, and only the acting receive or the first one parked is given something. */
  ghost predicate ActorsOf<T>(s: State<T>, a: Action<T>, entering: seq<Op>, given: seq<Op>) {
    && (entering == [] || ((a.DoSendReady? || a.DoSendSuspend?) && entering == [a.op]))
    && (given == []
        || ((a.DoRecvReady? || a.DoRecvSuspend?) && given == [a.op])
        || ((a.DoSendReady? || a.DoSendSuspend?) && entering == [a.op]
            && s.receivers != [] && given == [s.receivers[0]]))
  }

  lemma NextActors<T>(s: State<T>, a: Action<T>)
    requires Inv(s) && Enabled(s, a) && !a.DoClose?
    ensures var t := Next(s, a);
            && s.sent <= t.sent && s.got <= t.got
            && ActorsOf(s, a, t.sent[|s.sent|..], t.got[|s.got|..])
  {
    NextHistory(s, a);
  }

  /**
   Every step except `close` acts on the plain queue: the values entering are those of the sends the
   step admits, the values leaving are those the step writes into result slots. `close` keeps exactly the buffer.
   */
  lemma StepRefinesQueue<T>(s: State<T>, a: Action<T>)
    requires Inv(s) && Enabled(s, a)
    ensures var t := Next(s, a);
            && Inv(t) && Known(s, s.senders) && Known(t, t.senders)
            && (a.DoClose? ==> AsQueue(t) == Queue(s.buffer, true) && t.got == s.got)
            && (!a.DoClose? ==>
                  && s.sent <= t.sent && s.got <= t.got
                  && ActorsOf(s, a, t.sent[|s.sent|..], t.got[|s.got|..])
                  && (a.DoSendReady? ==> a.op in t.sends && t.sends[a.op].value == a.value)
                  && Known(t, t.sent[|s.sent|..]) && Served(t, t.got[|s.got|..])
                  && QueueStep(AsQueue(s), Values(t, t.sent[|s.sent|..]), Results(t, t.got[|s.got|..]), AsQueue(t)))
  {
    var t := Next(s, a);
    NextInv(s, a);
    LedgerValues(s);
    LedgerValues(t);
    NextHistory(s, a);
    NextSameResults(s, a);
    if a.DoClose? {
      assert Values(t, t.senders) == [];
    } else {
      NextActors(s, a);
      NextCalls(s, a);
      QueueAlgebra(s, t);
    }
  }

  ghost predicate Conserved<T>(s: State<T>) {
    && Known(s, s.sent) && Known(s, s.senders) && Served(s, s.got)
    && Results(s, s.got) + s.buffer + Values(s, s.senders) == Values(s, s.sent)
  }

  lemma QueueAlgebra<T>(s: State<T>, t: State<T>)
    requires Conserved(s) && Conserved(t)
    requires SameResults(s, t) && s.sent <= t.sent && s.got <= t.got
    ensures Known(t, t.sent[|s.sent|..]) && Served(t, t.got[|s.got|..])
    ensures Results(t, t.got[|s.got|..]) + AsQueue(t).items == AsQueue(s).items + Values(t, t.sent[|s.sent|..])
  {
    var put, taken := Values(t, t.sent[|s.sent|..]), Results(t, t.got[|s.got|..]);
    assert Values(t, t.sent) == Values(s, s.sent) + put;
    assert Results(t, t.got) == Results(s, s.got) + taken;
    Cancel(Results(s, s.got), taken, t.buffer, Values(t, t.senders), s.buffer, Values(s, s.senders), put);
  }

  /** Concatenation cancels on the left. */
  lemma Cancel<T>(f: seq<T>, taken: seq<T>, b1: seq<T>, p1: seq<T>, b0: seq<T>, p0: seq<T>, put: seq<T>)
    requires f + taken + b1 + p1 == f + b0 + p0 + put
    ensures taken + (b1 + p1) == b0 + p0 + put
  {
    assert taken + (b1 + p1) == (f + taken + b1 + p1)[|f|..];
    assert b0 + p0 + put == (f + b0 + p0 + put)[|f|..];
  }

  // ---------- After close ----------

  /**
   Once closed, whatever else happens, the receives are given the buffered values in order and
   nothing else, and the rest of the buffer stays.
   */
  lemma {:induction false} DrainsInOrder<T>(s: State<T>, run: seq<Action<T>>)
    requires Inv(s) && s.closed && ValidRun(s, run)
    ensures var t := Exec(s, run);
            && t.closed && t.senders == [] && s.got <= t.got
            && Served(t, t.got[|s.got|..])
            && Results(t, t.got[|s.got|..]) + t.buffer == s.buffer
  {
    ExecLater(s, run);
    var t := Exec(s, run);
    LedgerValues(s);
    LedgerValues(t);
    QueueAlgebra(s, t);
    assert AsQueue(s).items == s.buffer && AsQueue(t).items == t.buffer;
    assert t.sent[|s.sent|..] == [];
  }

  /** In a closed state, operations finished or not yet begun are the only ones a step can leave behind anew. */
  lemma NextClosed<T>(s: State<T>, a: Action<T>)
    requires Shape(s) && Queues(s) && s.closed && Enabled(s, a)
    ensures var t := Next(s, a);
            && (forall o :: o in s.sends && s.sends[o].phase.SendFinished? ==> o in t.sends && t.sends[o] == s.sends[o])
            && (forall o :: o in t.sends && o !in s.sends ==> t.sends[o].phase == SendFinished(false, false))
            && (forall o :: o in t.recvs && o !in s.recvs ==> t.recvs[o].RecvFinished? && !t.recvs[o].suspended)
  {
  }

  /** Once closed nobody waits: whatever is started afterwards is finished by its first attempt, sends with `false`. */
  lemma {:induction false} ClosedNeverParks<T>(s: State<T>, run: seq<Action<T>>)
    requires Inv(s) && s.closed && ValidRun(s, run)
    ensures var t := Exec(s, run);
            && (forall o :: o in s.sends && s.sends[o].phase.SendFinished? ==> o in t.sends && t.sends[o] == s.sends[o])
            && (forall o :: o in t.sends && o !in s.sends ==> t.sends[o].phase == SendFinished(false, false))
            && (forall o :: o in t.recvs && o !in s.recvs ==> t.recvs[o].RecvFinished? && !t.recvs[o].suspended)
    decreases |run|
  {
    if run != [] {
      var u := Next(s, run[0]);
      NextInv(s, run[0]);
      NextClosed(s, run[0]);
      NextHistory(s, run[0]);
      ClosedNeverParks(u, run[1..]);
      ExecLater(u, run[1..]);
    }
  }

  /** The consumer loop of the channel tests: receive again and again with fresh operations. */
  ghost function ReceiveAll<T>(s: State<T>, ops: seq<Op>): State<T>
    requires Inv(s)
    requires Distinct(ops) && forall i :: 0 <= i < |ops| ==> ops[i] !in s.recvs
    decreases |ops|
  {
    if ops == [] then s
    else
      RecvReadyInv(s, ops[0]);
      ReceiveAll(RecvReady(s, ops[0]), ops[1..])
  }

  lemma RecvReadyInv<T>(s: State<T>, op: Op)
    requires Inv(s) && op !in s.recvs
    ensures Inv(RecvReady(s, op))
    ensures RecvReady(s, op).recvs.Keys == s.recvs.Keys + {op}
  {
    NextInv(s, DoRecvReady(op));
  }

  /** The j-th receive of the loop returns the j-th buffered value, and nothing once those are used up. */
  lemma {:induction false} ReceiveLoopResults<T>(s: State<T>, ops: seq<Op>, j: nat)
    requires Inv(s) && s.closed
    requires Distinct(ops) && forall i :: 0 <= i < |ops| ==> ops[i] !in s.recvs
    requires j < |ops|
    ensures var t := ReceiveAll(s, ops);
            && ops[j] in t.recvs
            && t.recvs[ops[j]] == RecvFinished(if j < |s.buffer| then Some(s.buffer[j]) else None, false)
    decreases |ops|
  {
    RecvReadyInv(s, ops[0]);
    var u := RecvReady(s, ops[0]);
    if j == 0 {
      ReceiveAllKeeps(u, ops[1..], ops[0]);
    } else {
      ReceiveLoopResults(u, ops[1..], j - 1);
    }
  }

  lemma {:induction false} ReceiveAllKeeps<T>(s: State<T>, ops: seq<Op>, o: Op)
    requires Inv(s) && s.closed
    requires Distinct(ops) && forall i :: 0 <= i < |ops| ==> ops[i] !in s.recvs
    requires o in s.recvs
    ensures o in ReceiveAll(s, ops).recvs && ReceiveAll(s, ops).recvs[o] == s.recvs[o]
    decreases |ops|
  {
    if ops != [] {
      RecvReadyInv(s, ops[0]);
      ReceiveAllKeeps(RecvReady(s, ops[0]), ops[1..], o);
    }
  }

  /**
   When `close` comes after every send has finished, a consumer that has seen the end knows that
   everything sent was received, in order: what was received is what the sends were called with, as a
   sequence and so as a multiset.
   */
  lemma {:induction false} CloseLosesNothing<T>(
    capacity: nat, before: seq<Action<T>>, s: State<T>, run: seq<Action<T>>, t: State<T>, end: Op)
    requires capacity >= 1 && ValidRun(Init<T>(capacity), before) && s == Exec(Init<T>(capacity), before)
    requires s.senders == [] && ValidRun(Close(s), run) && t == Exec(Close(s), run)
    requires end in t.recvs && t.recvs[end].RecvFinished? && t.recvs[end].result.None?
    ensures (forall i :: 0 <= i < |s.sent| ==> s.sent[i] in Arguments(before)) && Served(t, t.got)
    ensures Results(t, t.got) == Given(Arguments(before), s.sent)
    ensures multiset(Results(t, t.got)) == multiset(Given(Arguments(before), s.sent))
  {
    SentArguments(capacity, before, s);
    CloseDelivers(s, run, end);
  }

  lemma {:induction false} CloseDelivers<T>(s: State<T>, run: seq<Action<T>>, end: Op)
    requires Inv(s) && s.senders == [] && ValidRun(Close(s), run)
    requires var t := Exec(Close(s), run);
             end in t.recvs && t.recvs[end].RecvFinished? && t.recvs[end].result.None?
    ensures var t := Exec(Close(s), run);
            Known(s, s.sent) && Served(t, t.got) && Results(t, t.got) == Values(s, s.sent)
  {
    NextInv(s, DoClose);
    CloseKeepsValues(s);
    ClosedRunDelivers(Close(s), run, end);
  }

  lemma CloseKeepsValues<T>(s: State<T>)
    requires Known(s, s.sent) && s.senders == []
    ensures var c := Close(s); c.sent == s.sent && Known(c, c.sent) && Values(c, c.sent) == Values(s, s.sent)
  {
  }

  lemma {:induction false} ClosedRunDelivers<T>(s: State<T>, run: seq<Action<T>>, end: Op)
    requires Inv(s) && s.closed && ValidRun(s, run)
    requires var t := Exec(s, run);
             end in t.recvs && t.recvs[end].RecvFinished? && t.recvs[end].result.None?
    ensures var t := Exec(s, run);
            Known(s, s.sent) && Served(t, t.got) && Results(t, t.got) == Values(s, s.sent)
  {
    ExecLater(s, run);
    LedgerValues(s);
    LedgerValues(Exec(s, run));
    AllDelivered(s, Exec(s, run));
  }

  lemma AllDelivered<T>(s: State<T>, t: State<T>)
    requires Conserved(s) && Conserved(t) && t.sent == s.sent && t.buffer == [] && t.senders == []
    requires forall o :: o in s.sends ==> o in t.sends && t.sends[o].value == s.sends[o].value
    ensures Results(t, t.got) == Values(s, s.sent)
  {
    assert Values(t, t.sent) == Values(s, s.sent);
    assert Results(t, t.got) == Results(t, t.got) + t.buffer + Values(t, t.senders);
  }

  // ---------- Capacity zero ----------

  predicate OppositeParked<T>(s: State<T>) {
    s.senders != [] && s.receivers != []
  }

  ghost predicate CanParkOpposite(capacity: nat) {
    exists run: seq<Action<int>> :: ValidRun(Init<int>(capacity), run) && OppositeParked(Exec(Init<int>(capacity), run))
  }

  /** A sender and a receiver can wait for each other for ever exactly when the capacity is zero. */
  lemma OppositeParkingIffNoCapacity(capacity: nat)
    ensures CanParkOpposite(capacity) <==> capacity == 0
  {
    if capacity == 0 {
      var s0 := Init<int>(0);
      var a: Action<int>, b: Action<int>, c: Action<int>, d: Action<int> :=
        DoSendReady(0, 7), DoSendSuspend(0), DoRecvReady(0), DoRecvSuspend(0);
      var s1 := Next(s0, a);
      var s2 := Next(s1, b);
      var s3 := Next(s2, c);
      var s4 := Next(s3, d);
      assert Exec(s3, [d]) == s4 && ValidRun(s3, [d]) by { assert [d][1..] == []; }
      assert Exec(s2, [c, d]) == s4 && ValidRun(s2, [c, d]) by { assert [c, d][1..] == [d]; }
      assert Exec(s1, [b, c, d]) == s4 && ValidRun(s1, [b, c, d]) by { assert [b, c, d][1..] == [c, d]; }
      assert Exec(s0, [a, b, c, d]) == s4 && ValidRun(s0, [a, b, c, d]) by { assert [a, b, c, d][1..] == [b, c, d]; }
    } else {
      forall run: seq<Action<int>> | ValidRun(Init<int>(capacity), run)
        ensures !OppositeParked(Exec(Init<int>(capacity), run))
      {
        InitInv<int>(capacity);
        ExecInv(Init<int>(capacity), run);
      }
    }
  }
}
