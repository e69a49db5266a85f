/**
 The notify loops of `coro::condition_variable`, with the predicates fixed during the call.

 The waiters of one condition variable may belong to different mutexes; `M` names a mutex.
 */
module NotifyModel {
  import opened Prelude
  import opened MutexModel

  /** A captured predicate; what it evaluates to is given by a truth assignment. */
  type Cond = nat

  datatype Waiter<M> = Waiter(handle: Handle, mtx: M, cond: Option<Cond>)

  /** A waiter without a predicate is always released. */
  predicate Passes<M>(w: Waiter<M>, truth: Cond -> bool) {
    w.cond.None? || truth(w.cond.value)
  }

  /** The waiters whose predicate is false, in order. */
  function Kept<M>(ws: seq<Waiter<M>>, truth: Cond -> bool): (r: seq<Waiter<M>>)
    ensures |r| <= |ws|
  {
    if ws == [] then []
    else
      var init, last := ws[..|ws| - 1], ws[|ws| - 1];
      Kept(init, truth) + (if Passes(last, truth) then [] else [last])
  }

  /** The handles of the waiters of mutex `m` whose predicate is true, in order. */
  function Released<M(==)>(ws: seq<Waiter<M>>, truth: Cond -> bool, m: M): seq<Handle> {
    if ws == [] then []
    else
      var init, last := ws[..|ws| - 1], ws[|ws| - 1];
      Released(init, truth, m) + (if last.mtx == m && Passes(last, truth) then [last.handle] else [])
  }

  /** Exactly those stay that have a predicate and whose predicate is false. */
  lemma {:induction false} KeptAre<M>(ws: seq<Waiter<M>>, truth: Cond -> bool, w: Waiter<M>)
    ensures w in Kept(ws, truth) <==> w in ws && w.cond.Some? && !truth(w.cond.value)
    decreases |ws|
  {
    if ws != [] {
      var n := |ws| - 1;
      KeptAre(ws[..n], truth, w);
      assert ws == ws[..n] + [ws[n]];
    }
  }

  /** Exactly the handles of the others reach the mutex. */
  lemma {:induction false} ReleasedAre<M>(ws: seq<Waiter<M>>, truth: Cond -> bool, m: M, h: Handle)
    ensures h in Released(ws, truth, m) <==>
            exists w :: w in ws && w.mtx == m && w.handle == h && (w.cond.None? || truth(w.cond.value))
    decreases |ws|
  {
    if ws != [] {
      var n := |ws| - 1;
      ReleasedAre(ws[..n], truth, m, h);
      assert ws == ws[..n] + [ws[n]];
    }
  }

  /** `h` has been granted the lock or has joined the queue since `m`. */
  ghost predicate Reached(m: Mutex, m': Mutex, h: Handle) {
    && m.acquired <= m'.acquired && m.waiters <= m'.waiters
    && (h in m'.acquired[|m.acquired|..] || h in m'.waiters[|m.waiters|..])
  }

  lemma EnqueueAllReaches(m: Mutex, hs: seq<Handle>, h: Handle)
    requires h in hs
    ensures Reached(m, EnqueueAll(m, hs), h)
  {
    EnqueueAllShape(m, hs);
    assert hs == [hs[0]] + hs[1..];
  }

  /** The mutex after `enqueue_waiter` for each handle in turn. */
  function EnqueueAll(m: Mutex, hs: seq<Handle>): Mutex {
    if hs == [] then m else Enqueue(EnqueueAll(m, hs[..|hs| - 1]), hs[|hs| - 1])
  }

  /** At most the first handle is granted the lock, and only if it was free; the others join the queue in order. */
  lemma {:induction false} EnqueueAllShape(m: Mutex, hs: seq<Handle>)
    ensures EnqueueAll(m, hs) ==
            if m.locked || hs == [] then m.(waiters := m.waiters + hs)
            else Mutex(true, m.waiters + hs[1..], m.acquired + [hs[0]])
  {
    if hs != [] {
      var init := hs[..|hs| - 1];
      EnqueueAllShape(m, init);
      assert hs == init + [hs[|hs| - 1]];
      if init != [] {
        assert hs[1..] == init[1..] + [hs[|hs| - 1]];
      }
    } else {
      assert m.waiters + hs == m.waiters;
    }
  }

  /** Of handles enqueued in turn, those given to the executor at once. */
  function Grants(locked: bool, hs: seq<Handle>): seq<Handle> {
    if locked || hs == [] then [] else [hs[0]]
  }

  /** Exactly the handles given to the executor are recorded as owners. */
  lemma GrantsAcquire(m: Mutex, hs: seq<Handle>)
    ensures EnqueueAll(m, hs).acquired == m.acquired + Grants(m.locked, hs)
  {
    EnqueueAllShape(m, hs);
  }

  lemma EnqueueAllSnoc(m: Mutex, hs: seq<Handle>, h: Handle)
    ensures EnqueueAll(m, hs + [h]) == Enqueue(EnqueueAll(m, hs), h)
  {
    assert (hs + [h])[..|hs|] == hs;
  }

  /** Dealing with one more waiter. */
  lemma OneMore<M>(ws: seq<Waiter<M>>, i: nat, truth: Cond -> bool)
    requires i < |ws|
    ensures Kept(ws[..i + 1], truth) == Kept(ws[..i], truth) + (if Passes(ws[i], truth) then [] else [ws[i]])
  {
    assert ws[..i + 1][..i] == ws[..i];
  }

  /** The queue after one more visit, of a waiter that stays or not. */
  lemma {:induction false} QueueAfterVisit<M>(
    ws: seq<Waiter<M>>, i: nat, truth: Cond -> bool, q: seq<Waiter<M>>, q': seq<Waiter<M>>)
    requires i < |ws| && q == ws[i..] + Kept(ws[..i], truth)
    requires q' == q[1..] + if ws[i].cond.Some? && !truth(ws[i].cond.value) then [ws[i]] else []
    ensures q' == ws[i + 1..] + Kept(ws[..i + 1], truth)
  {
    OneMore(ws, i, truth);
    assert q[1..] == ws[i + 1..] + Kept(ws[..i], truth);
  }

  lemma OneMoreReleased<M>(ws: seq<Waiter<M>>, i: nat, truth: Cond -> bool, m: M, mutex: Mutex)
    requires i < |ws|
    ensures EnqueueAll(mutex, Released(ws[..i + 1], truth, m)) ==
            var soFar := EnqueueAll(mutex, Released(ws[..i], truth, m));
            if ws[i].mtx == m && Passes(ws[i], truth) then Enqueue(soFar, ws[i].handle) else soFar
  {
    assert ws[..i + 1][..i] == ws[..i];
    var hs := Released(ws[..i], truth, m);
    EnqueueAllSnoc(mutex, hs, ws[i].handle);
    assert hs + [] == hs;
  }

  /** What `m` and the handles it has submitted have become once `hs` were enqueued in turn. */
  ghost predicate Enqueued(m: Mutex, submitted: seq<Handle>, hs: seq<Handle>, m': Mutex, submitted': seq<Handle>) {
    m' == EnqueueAll(m, hs) && submitted' == submitted + Grants(m.locked, hs)
  }

  lemma {:induction false} EnqueuedSnoc(
    m: Mutex, submitted: seq<Handle>, hs: seq<Handle>, m1: Mutex, s1: seq<Handle>, h: Handle)
    requires Enqueued(m, submitted, hs, m1, s1)
    ensures Enqueued(m, submitted, hs + [h], Enqueue(m1, h), s1 + Grants(m1.locked, [h]))
  {
    EnqueueAllSnoc(m, hs, h);
    EnqueueAllShape(m, hs);
    assert Grants(m.locked, hs + [h]) == Grants(m.locked, hs) + Grants(m1.locked, [h]);
  }

  /** Enqueueing the handle of one more waiter, if it belongs to the mutex and passes. */
  lemma {:induction false} OneMoreEnqueued<M>(
    ws: seq<Waiter<M>>, i: nat, truth: Cond -> bool, id: M,
    m: Mutex, submitted: seq<Handle>, m1: Mutex, s1: seq<Handle>)
    requires i < |ws| && Enqueued(m, submitted, Released(ws[..i], truth, id), m1, s1)
    ensures var hs, h := Released(ws[..i + 1], truth, id), ws[i].handle;
            if ws[i].mtx == id && Passes(ws[i], truth)
            then Enqueued(m, submitted, hs, Enqueue(m1, h), s1 + Grants(m1.locked, [h]))
            else Enqueued(m, submitted, hs, m1, s1)
  {
    var hs := Released(ws[..i], truth, id);
    assert ws[..i + 1][..i] == ws[..i];
    assert hs + [] == hs;
    EnqueuedSnoc(m, submitted, hs, m1, s1, ws[i].handle);
  }

  datatype Scene<!M> = Scene(queue: seq<Waiter<M>>, mutexes: map<M, Mutex>)

  ghost predicate Closed<M>(sc: Scene<M>) {
    forall i :: 0 <= i < |sc.queue| ==> sc.queue[i].mtx in sc.mutexes
  }

  /** `notify_one`: looks at the front waiter only. */
  ghost function NotifyOne<M(!new)>(sc: Scene<M>, truth: Cond -> bool): (r: Scene<M>)
    requires Closed(sc)
    ensures Closed(r) && r.mutexes.Keys == sc.mutexes.Keys
  {
    if sc.queue == [] then sc
    else
      var w := sc.queue[0];
      if Passes(w, truth) then Scene(sc.queue[1..], sc.mutexes[w.mtx := Enqueue(sc.mutexes[w.mtx], w.handle)])
      else Scene(sc.queue[1..] + [w], sc.mutexes)
  }

  /** `n` successive calls of `notify_one`. */
  ghost function NotifyTimes<M(!new)>(sc: Scene<M>, truth: Cond -> bool, n: nat): (r: Scene<M>)
    requires Closed(sc)
    ensures Closed(r) && r.mutexes.Keys == sc.mutexes.Keys
  {
    if n == 0 then sc else NotifyOne(NotifyTimes(sc, truth, n - 1), truth)
  }

  /** After `n` iterations the first `n` waiters have been dealt with and the others have come to the front. */
  lemma {:induction false} NotifyTimesQueue<M(!new)>(sc: Scene<M>, truth: Cond -> bool, n: nat)
    requires Closed(sc) && n <= |sc.queue|
    ensures NotifyTimes(sc, truth, n).queue == sc.queue[n..] + Kept(sc.queue[..n], truth)
  {
    if n > 0 {
      NotifyTimesQueue(sc, truth, n - 1);
      OneMore(sc.queue, n - 1, truth);
      NotifyOneQueue(NotifyTimes(sc, truth, n - 1), truth, sc.queue, n - 1, Kept(sc.queue[..n - 1], truth));
    } else {
      assert sc.queue[0..] + Kept(sc.queue[..0], truth) == sc.queue;
    }
  }

  lemma NotifyOneQueue<M(!new)>(
    sc: Scene<M>, truth: Cond -> bool, was: seq<Waiter<M>>, i: nat, kept: seq<Waiter<M>>)
    requires Closed(sc) && i < |was| && sc.queue == was[i..] + kept
    ensures NotifyOne(sc, truth).queue == was[i + 1..] + (kept + if Passes(was[i], truth) then [] else [was[i]])
  {
    assert sc.queue[0] == was[i];
    assert sc.queue[1..] == was[i + 1..] + kept;
  }

  lemma {:induction false} NotifyTimesMutexes<M(!new)>(sc: Scene<M>, truth: Cond -> bool, n: nat, m: M)
    requires Closed(sc) && n <= |sc.queue| && m in sc.mutexes
    ensures NotifyTimes(sc, truth, n).mutexes[m] == EnqueueAll(sc.mutexes[m], Released(sc.queue[..n], truth, m))
  {
    if n > 0 {
      NotifyTimesMutexes(sc, truth, n - 1, m);
      NotifyTimesQueue(sc, truth, n - 1);
      var prev := NotifyTimes(sc, truth, n - 1);
      var w := sc.queue[n - 1];
      assert prev.queue[0] == w;
      OneMoreReleased(sc.queue, n - 1, truth, m, sc.mutexes[m]);
      NotifyOneMutex(prev, truth, m);
    }
  }

  lemma NotifyOneMutex<M(!new)>(sc: Scene<M>, truth: Cond -> bool, m: M)
    requires Closed(sc) && sc.queue != [] && m in sc.mutexes
    ensures var w := sc.queue[0];
            var r := NotifyOne(sc, truth).mutexes;
            r[m] == if w.mtx == m && Passes(w, truth) then Enqueue(sc.mutexes[m], w.handle) else sc.mutexes[m]
  {
  }

  lemma AllVisitedQueue<M(!new)>(sc: Scene<M>, truth: Cond -> bool)
    requires Closed(sc)
    ensures NotifyTimes(sc, truth, |sc.queue|).queue == Kept(sc.queue, truth)
  {
    var n := |sc.queue|;
    NotifyTimesQueue(sc, truth, n);
    assert sc.queue[..n] == sc.queue;
  }

  lemma AllVisitedMutex<M(!new)>(sc: Scene<M>, truth: Cond -> bool, m: M)
    requires Closed(sc) && m in sc.mutexes
    ensures NotifyTimes(sc, truth, |sc.queue|).mutexes[m] ==
            EnqueueAll(sc.mutexes[m], Released(sc.queue, truth, m))
  {
    var n := |sc.queue|;
    NotifyTimesMutexes(sc, truth, n, m);
    assert sc.queue[..n] == sc.queue;
  }

  lemma {:induction false} AllVisited<M(!new)>(sc: Scene<M>, truth: Cond -> bool)
    requires Closed(sc)
    ensures var t := NotifyTimes(sc, truth, |sc.queue|);
            && t.queue == Kept(sc.queue, truth)
            && t.mutexes == map m | m in sc.mutexes :: EnqueueAll(sc.mutexes[m], Released(sc.queue, truth, m))
  {
    AllVisitedQueue(sc, truth);
    forall m | m in sc.mutexes
      ensures NotifyTimes(sc, truth, |sc.queue|).mutexes[m] ==
              EnqueueAll(sc.mutexes[m], Released(sc.queue, truth, m))
    {
      AllVisitedMutex(sc, truth, m);
    }
  }

  lemma {:induction false} ReleasedReaches<M>(ws: seq<Waiter<M>>, truth: Cond -> bool, w: Waiter<M>, m: Mutex)
    requires w in ws && (w.cond.None? || truth(w.cond.value))
    ensures Reached(m, EnqueueAll(m, Released(ws, truth, w.mtx)), w.handle)
  {
    ReleasedAre(ws, truth, w.mtx, w.handle);
    EnqueueAllReaches(m, Released(ws, truth, w.mtx), w.handle);
  }

  /**
   As many `notify_one` calls as there are waiters do what one `notify_all` does: those whose
   predicate is false stay, in order, and the others reach their mutexes, in order.
   */
  lemma {:induction false} NotifyOneRepeatedPartitions<M(!new)>(sc: Scene<M>, truth: Cond -> bool, t: Scene<M>)
    requires Closed(sc) && t == NotifyTimes(sc, truth, |sc.queue|)
    ensures t.queue == Kept(sc.queue, truth)
    ensures t.mutexes == map m | m in sc.mutexes :: EnqueueAll(sc.mutexes[m], Released(sc.queue, truth, m))
    ensures forall w :: w in t.queue <==> w in sc.queue && w.cond.Some? && !truth(w.cond.value)
    ensures forall w :: w in sc.queue && (w.cond.None? || truth(w.cond.value)) ==>
              w.mtx in sc.mutexes && Reached(sc.mutexes[w.mtx], t.mutexes[w.mtx], w.handle)
  {
    AllVisited(sc, truth);
    forall w ensures w in t.queue <==> w in sc.queue && w.cond.Some? && !truth(w.cond.value) {
      KeptAre(sc.queue, truth, w);
    }
    forall w | w in sc.queue && (w.cond.None? || truth(w.cond.value))
      ensures w.mtx in sc.mutexes && Reached(sc.mutexes[w.mtx], t.mutexes[w.mtx], w.handle)
    {
      ReleasedReaches(sc.queue, truth, w, sc.mutexes[w.mtx]);
    }
  }
}
