/**
 The notify loop inside the machine, where other coroutines use the mutex between two iterations
 and each predicate is evaluated when its turn comes.
 */
module NotifyRuns {
  import opened Prelude
  import opened MutexModel
  import opened MutexProofs
  import opened NotifyModel

  // ---------- Examined in turn ----------

  predicate Visits(a: Action, c: CvId) {
    a.DoVisit? && a.cv == c
  }

  /** What the predicates evaluated to, visit by visit. */
  function Answers(run: seq<Action>, c: CvId): seq<bool> {
    if run == [] then []
    else (if Visits(run[0], c) then [run[0].holds] else []) + Answers(run[1..], c)
  }

  /** Only a visit takes a waiter from the queue, and then it is the front one. */
  lemma NextCvQueue(s: State, a: Action, c: CvId)
    requires Enabled(s, a)
    ensures var q, q' := CvOf(s, c).queue, CvOf(Next(s, a), c).queue;
            if Visits(a, c) then q' == q[1..] + if a.holds then [] else [q[0]] else q <= q'
  {
  }

  /**
   A waiter that joined behind k others is at the front after exactly k visits, so that it is the
   one examined by visit number k + 1, whoever notifies and whatever happens in between.
   */
  lemma {:induction false} ExaminedInTurn(s: State, run: seq<Action>, c: CvId)
    requires ValidRun(s, run) && |Answers(run, c)| <= |CvOf(s, c).queue|
    ensures CvOf(s, c).queue[|Answers(run, c)|..] <= CvOf(Exec(s, run), c).queue
    decreases |run|
  {
    if run != [] {
      NextCvQueue(s, run[0], c);
      ExaminedInTurn(Next(s, run[0]), run[1..], c);
    }
  }

  // ---------- The line for the lock ----------

  /** Everybody who has had the lock or stands in line for it, in order. */
  function Line(m: Mutex): seq<Handle> {
    m.acquired + m.waiters
  }

  /** Whom a step adds to the line. */
  function Joins(s: State, a: Action): seq<Handle>
    requires Enabled(s, a)
  {
    match a
    case DoTryLock(h) => if s.m.locked then [] else [h]
    case DoLockReady(h) => if s.m.locked then [] else [h]
    case DoLockSuspend(h) => [h]
    case DoVisit(c, holds) => if holds then [CvOf(s, c).queue[0]] else []
    case _ => []
  }

  /** The line only ever grows, at its end. */
  lemma NextLine(s: State, a: Action)
    requires Exclusive(s) && Enabled(s, a)
    ensures Line(Next(s, a).m) == Line(s.m) + Joins(s, a)
  {
  }

  // ---------- A stable partition ----------

  /** The handles whose predicate was false, in order. */
  function Stay(hs: seq<Handle>, answers: seq<bool>): seq<Handle>
    requires |hs| == |answers|
  {
    if hs == [] then [] else (if answers[0] then [] else [hs[0]]) + Stay(hs[1..], answers[1..])
  }

  /** The handles whose predicate was true, in order. */
  function Leave(hs: seq<Handle>, answers: seq<bool>): seq<Handle>
    requires |hs| == |answers|
  {
    if hs == [] then [] else (if answers[0] then [hs[0]] else []) + Leave(hs[1..], answers[1..])
  }

  /** `xs` occurs in `ys`, in order, possibly with others in between. */
  predicate Within(xs: seq<Handle>, ys: seq<Handle>) {
    xs == [] || (ys != [] && ((xs[0] == ys[0] && Within(xs[1..], ys[1..])) || Within(xs, ys[1..])))
  }

  lemma WithinAfter(xs: seq<Handle>, y: Handle, ys: seq<Handle>)
    requires Within(xs, ys)
    ensures Within(xs, [y] + ys) && Within([y] + xs, [y] + ys)
  {
    assert ([y] + ys)[1..] == ys && ([y] + xs)[1..] == xs;
  }

  /** The notifier of `c` holds its spinlock throughout the run. */
  predicate KeepsSpinlock(run: seq<Action>, c: CvId) {
    forall k :: 0 <= k < |run| ==> run[k] != DoNotifyEnd(c)
  }

  /** Those visited were taken from the front of the queue, and the false ones are at the back in order. */
  ghost predicate Rotated(v: Cv, w: Cv, answers: seq<bool>) {
    var k := |answers|;
    && v.visiting.Some? && k <= v.visiting.value <= |v.queue|
    && w.visiting == Some(v.visiting.value - k)
    && w.queue == v.queue[k..] + Stay(v.queue[..k], answers)
  }

  /** The handles of `xs` have joined the line since `m`, in order. */
  ghost predicate JoinedInOrder(m: Mutex, m': Mutex, xs: seq<Handle>) {
    Line(m) <= Line(m') && Within(xs, Line(m')[|Line(m)|..])
  }

  /** How far a notify loop has got from `s` to `t`. */
  ghost predicate Partitioned(s: State, t: State, c: CvId, answers: seq<bool>) {
    && Rotated(CvOf(s, c), CvOf(t, c), answers)
    && JoinedInOrder(s.m, t.m, Leave(CvOf(s, c).queue[..|answers|], answers))
  }

  /** A step other than a visit leaves the condition variable alone while its notifier is at work. */
  lemma OtherStep(s: State, a: Action, c: CvId)
    requires Enabled(s, a) && CvOf(s, c).visiting.Some? && !Visits(a, c) && a != DoNotifyEnd(c)
    ensures CvOf(Next(s, a), c) == CvOf(s, c)
  {
  }

  /** One more at the front of the handles visited. */
  lemma {:induction false} StayCons(h: Handle, hs: seq<Handle>, b: bool, answers: seq<bool>)
    requires |hs| == |answers|
    ensures Stay([h] + hs, [b] + answers) == (if b then [] else [h]) + Stay(hs, answers)
    ensures Leave([h] + hs, [b] + answers) == (if b then [h] else []) + Leave(hs, answers)
  {
    assert ([h] + hs)[1..] == hs && ([b] + answers)[1..] == answers;
  }

  lemma FrontTaken(q: seq<Handle>, q': seq<Handle>, k: nat, back: seq<Handle>)
    requires k < |q| && q' == q[1..] + back
    ensures q[..k + 1] == [q[0]] + q'[..k] && q'[k..] == q[k + 1..] + back
  {
  }

  lemma {:induction false} PrependJoin(s: State, a: Action, m: Mutex, xs: seq<Handle>)
    requires Exclusive(s) && Enabled(s, a) && JoinedInOrder(Next(s, a).m, m, xs)
    ensures JoinedInOrder(s.m, m, xs) && JoinedInOrder(s.m, m, Joins(s, a) + xs)
  {
    NextLine(s, a);
    var j, rest := Joins(s, a), Line(m)[|Line(Next(s, a).m)|..];
    assert Line(m)[|Line(s.m)|..] == j + rest;
    if j != [] {
      assert |j| == 1 && j == [j[0]];
      WithinAfter(xs, j[0], rest);
    } else {
      assert j + rest == rest && j + xs == xs;
    }
  }

  lemma {:induction false} PrependOther(s: State, a: Action, t: State, c: CvId, answers: seq<bool>)
    requires Inv(s) && Enabled(s, a) && CvOf(s, c).visiting.Some? && !Visits(a, c) && a != DoNotifyEnd(c)
    requires Partitioned(Next(s, a), t, c, answers)
    ensures Partitioned(s, t, c, answers)
  {
    OtherStep(s, a, c);
    PrependJoin(s, a, t.m, Leave(CvOf(s, c).queue[..|answers|], answers));
  }

  /** One visit before those already accounted for. */
  lemma {:induction false} RotatedOnce(v: Cv, v': Cv, w: Cv, b: bool, answers: seq<bool>)
    requires v.visiting.Some? && 0 < v.visiting.value <= |v.queue|
    requires v' == Cv(v.queue[1..] + (if b then [] else [v.queue[0]]), Some(v.visiting.value - 1))
    requires Rotated(v', w, answers)
    ensures Rotated(v, w, [b] + answers)
    ensures Leave(v.queue[..|answers| + 1], [b] + answers) ==
            (if b then [v.queue[0]] else []) + Leave(v'.queue[..|answers|], answers)
  {
    var q, q', k, back := v.queue, v'.queue, |answers|, if b then [] else [v.queue[0]];
    FrontTaken(q, q', k, back);
    StayCons(q[0], q'[..k], b, answers);
    assert (q[k + 1..] + back) + Stay(q'[..k], answers) == q[k + 1..] + (back + Stay(q'[..k], answers));
  }

  lemma {:induction false} PrependVisit(s: State, a: Action, t: State, c: CvId, answers: seq<bool>)
    requires Inv(s) && Enabled(s, a) && Visits(a, c)
    requires Partitioned(Next(s, a), t, c, answers)
    ensures Partitioned(s, t, c, [a.holds] + answers)
  {
    VisitTakesFront(s, a, c);
    var v, v' := CvOf(s, c), CvOf(Next(s, a), c);
    RotatedOnce(v, v', CvOf(t, c), a.holds, answers);
    PrependJoin(s, a, t.m, Leave(v'.queue[..|answers|], answers));
  }

  lemma VisitTakesFront(s: State, a: Action, c: CvId)
    requires CvQueues(s) && Enabled(s, a) && Visits(a, c)
    ensures var v, v' := CvOf(s, c), CvOf(Next(s, a), c);
            && v.visiting.value <= |v.queue|
            && v' == Cv(v.queue[1..] + (if a.holds then [] else [v.queue[0]]), Some(v.visiting.value - 1))
            && Joins(s, a) == if a.holds then [v.queue[0]] else []
  {
  }

  lemma {:induction false} LoopPartitions(s: State, run: seq<Action>, c: CvId)
    requires Inv(s) && ValidRun(s, run) && CvOf(s, c).visiting.Some? && KeepsSpinlock(run, c)
    ensures Partitioned(s, Exec(s, run), c, Answers(run, c))
    decreases |run|
  {
    var v := CvOf(s, c);
    if run == [] {
      assert v.queue[0..] + Stay(v.queue[..0], []) == v.queue;
    } else {
      var a, u := run[0], Next(s, run[0]);
      NextInv(s, a);
      assert a != DoNotifyEnd(c);
      if Visits(a, c) {
        LoopPartitions(u, run[1..], c);
        PrependVisit(s, a, Exec(s, run), c, Answers(run[1..], c));
      } else {
        OtherStep(s, a, c);
        LoopPartitions(u, run[1..], c);
        PrependOther(s, a, Exec(s, run), c, Answers(run[1..], c));
        assert Answers(run, c) == Answers(run[1..], c);
      }
    }
  }

  /**
   `notify_all` in the midst of everything else: from taking the spinlock to being able to release it
   every waiter is examined once, those found false stay in order, and those found true join the line
   for the mutex in order.
   */
  lemma {:induction false} NotifyAllPartitions(s: State, c: CvId, run: seq<Action>, t: State)
    requires Inv(s) && Enabled(s, DoNotify(c, true))
    requires ValidRun(Next(s, DoNotify(c, true)), run) && KeepsSpinlock(run, c)
    requires t == Exec(Next(s, DoNotify(c, true)), run) && Enabled(t, DoNotifyEnd(c))
    ensures var q, answers := CvOf(s, c).queue, Answers(run, c);
            && |answers| == |q|
            && CvOf(t, c).queue == Stay(q, answers)
            && JoinedInOrder(s.m, t.m, Leave(q, answers))
  {
    var q := CvOf(s, c).queue;
    NextInv(s, DoNotify(c, true));
    LoopPartitions(Next(s, DoNotify(c, true)), run, c);
    assert q[..|q|] == q && q[|q|..] == [];
  }

  lemma LeaveOne(h: Handle, b: bool)
    ensures Stay([h], [b]) == if b then [] else [h]
    ensures Leave([h], [b]) == if b then [h] else []
  {
    StayCons(h, [], b, []);
    assert [h] + [] == [h] && [b] + [] == [b];
  }

  /** `notify_one` in the midst of everything else: only the front waiter is examined, if there is one. */
  lemma {:induction false} NotifyOneExaminesFront(s: State, c: CvId, run: seq<Action>, t: State)
    requires Inv(s) && Enabled(s, DoNotify(c, false))
    requires ValidRun(Next(s, DoNotify(c, false)), run) && KeepsSpinlock(run, c)
    requires t == Exec(Next(s, DoNotify(c, false)), run) && Enabled(t, DoNotifyEnd(c))
    ensures var q, answers := CvOf(s, c).queue, Answers(run, c);
            if q == [] then answers == [] && CvOf(t, c).queue == []
            else
              && |answers| == 1
              && CvOf(t, c).queue == q[1..] + (if answers[0] then [] else [q[0]])
              && JoinedInOrder(s.m, t.m, if answers[0] then [q[0]] else [])
  {
    var q, answers := CvOf(s, c).queue, Answers(run, c);
    NextInv(s, DoNotify(c, false));
    LoopPartitions(Next(s, DoNotify(c, false)), run, c);
    if q != [] {
      assert |answers| == 1 && q[..|answers|] == [q[0]] && answers == [answers[0]];
      LeaveOne(q[0], answers[0]);
    }
  }

  // ---------- The same partition as that of one uninterrupted call ----------

  lemma {:induction false} StaySnoc(hs: seq<Handle>, answers: seq<bool>, h: Handle, b: bool)
    requires |hs| == |answers|
    ensures Stay(hs + [h], answers + [b]) == Stay(hs, answers) + (if b then [] else [h])
    ensures Leave(hs + [h], answers + [b]) == Leave(hs, answers) + (if b then [h] else [])
    decreases |hs|
  {
    if hs != [] {
      StaySnoc(hs[1..], answers[1..], h, b);
      assert (hs + [h])[1..] == hs[1..] + [h] && (answers + [b])[1..] == answers[1..] + [b];
    }
  }

  function HandlesOf<M>(ws: seq<Waiter<M>>): (hs: seq<Handle>)
    ensures |hs| == |ws|
  {
    seq(|ws|, i requires 0 <= i < |ws| => ws[i].handle)
  }

  function Truths<M>(ws: seq<Waiter<M>>, truth: Cond -> bool): (bs: seq<bool>)
    ensures |bs| == |ws|
  {
    seq(|ws|, i requires 0 <= i < |ws| => Passes(ws[i], truth))
  }

  /**
   With predicates that do not change and one mutex, the interleaved loop splits the queue as the
   uninterrupted call does.
   */
  lemma {:induction false} SamePartition<M>(ws: seq<Waiter<M>>, truth: Cond -> bool, m: M)
    requires forall i :: 0 <= i < |ws| ==> ws[i].mtx == m
    ensures Stay(HandlesOf(ws), Truths(ws, truth)) == HandlesOf(Kept(ws, truth))
    ensures Leave(HandlesOf(ws), Truths(ws, truth)) == Released(ws, truth, m)
    decreases |ws|
  {
    if ws != [] {
      var n := |ws| - 1;
      var init, last := ws[..n], ws[n];
      SamePartition(init, truth, m);
      assert HandlesOf(ws) == HandlesOf(init) + [last.handle];
      assert Truths(ws, truth) == Truths(init, truth) + [Passes(last, truth)];
      StaySnoc(HandlesOf(init), Truths(init, truth), last.handle, Passes(last, truth));
      if Passes(last, truth) {
        assert Kept(ws, truth) == Kept(init, truth);
      } else {
        assert HandlesOf(Kept(ws, truth)) == HandlesOf(Kept(init, truth)) + [last.handle];
      }
    }
  }
}
