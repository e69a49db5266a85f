/** The mutex and the condition variable in their imperative form. */
module MutexClass {
  import M = MutexModel
  import P = MutexProofs
  import opened NotifyModel

  class Mutex {
    var locked: bool
    var waiters: seq<M.Handle>
    /** The handles given to the executor. */
    var submitted: seq<M.Handle>
    ghost var acquired: seq<M.Handle>

    ghost function View(): M.Mutex
      reads this
    {
      M.Mutex(locked, waiters, acquired)
    }

    constructor ()
      ensures View() == M.Mutex(false, [], []) && submitted == []
    {
      locked, waiters, submitted, acquired := false, [], [], [];
    }

    method TryLock(h: M.Handle) returns (ok: bool)
      modifies this`locked, this`acquired
      ensures View() == M.TryLock(old(View()), h) && ok == !old(locked)
    {
      ok := !locked;
      if ok {
        locked := true;
        acquired := acquired + [h];
      }
    }

    /** `enqueue_waiter`, and the body of `lock_awaiter::await_suspend`. */
    method EnqueueWaiter(h: M.Handle)
      modifies this
      ensures View() == M.Enqueue(old(View()), h)
      ensures submitted == old(submitted) + (if old(locked) then [] else [h])
    {
      if !locked {
        locked := true;
        acquired := acquired + [h];
        submitted := submitted + [h];
      } else {
        waiters := waiters + [h];
      }
    }

    method Unlock()
      modifies this
      ensures View() == M.Unlock(old(View()))
      ensures submitted == old(submitted) + old(waiters)[..if old(waiters) == [] then 0 else 1]
    {
      if waiters != [] {
        var h := waiters[0];
        waiters := waiters[1..];
        acquired := acquired + [h];
        submitted := submitted + [h];
      } else {
        locked := false;
      }
    }
  }

  ghost function Handles(ws: seq<Waiter<Mutex>>): (hs: seq<M.Handle>)
    ensures |hs| == |ws| && forall i :: 0 <= i < |ws| ==> hs[i] == ws[i].handle
  {
    seq(|ws|, i requires 0 <= i < |ws| => ws[i].handle)
  }

  /** These are the mutex and the queue of condition variable `c` in state `s` of the machine. */
  ghost predicate Shows(s: M.State, c: M.CvId, ws: seq<Waiter<Mutex>>, m: M.Mutex) {
    s.m == m && M.CvOf(s, c).queue == Handles(ws)
  }

  /** The owner `h` may wait on `c`, whose spinlock is free. */
  ghost predicate CanWait(s: M.State, c: M.CvId, h: M.Handle) {
    P.Inv(s) && M.PhaseOf(s, h).Owner? && M.CvOf(s, c).visiting.None?
  }

  /** The two steps of the machine, one right after the other. */
  ghost function AfterWait(s: M.State, c: M.CvId, h: M.Handle): M.State
    requires CanWait(s, c, h)
  {
    P.ReleaseMovesOwner(s, h, M.Leaving(c));
    M.Next(M.Next(s, M.DoWaitUnlock(h, c)), M.DoWaitPush(h))
  }

  lemma WaitSteps(s: M.State, c: M.CvId, ws: seq<Waiter<Mutex>>, w: Waiter<Mutex>)
    requires M.CvOf(s, c).queue == Handles(ws) && CanWait(s, c, w.handle)
    ensures Shows(AfterWait(s, c, w.handle), c, ws + [w], M.Unlock(s.m))
  {
    P.ReleaseMovesOwner(s, w.handle, M.Leaving(c));
  }

  class ConditionVariable {
    var waiters: seq<Waiter<Mutex>>

    constructor ()
      ensures waiters == []
    {
      waiters := [];
    }

    /**
     `awaiter::await_suspend` without interruption: the lock goes on to the next in line, and the
     caller joins the queue at the back. Both halves are the steps of the machine: whatever state of
     it this object and the mutex show, they show the state two steps later afterwards.
     */
    method AwaitSuspend(w: Waiter<Mutex>)
      modifies this, w.mtx
      ensures waiters == old(waiters) + [w]
      ensures w.mtx.View() == M.Unlock(old(w.mtx.View()))
      ensures w.mtx.submitted == old(w.mtx.submitted) + old(w.mtx.waiters)[..if old(w.mtx.waiters) == [] then 0 else 1]
      ensures forall s: M.State, c: M.CvId ::
                Shows(s, c, old(waiters), old(w.mtx.View())) && CanWait(s, c, w.handle) ==>
                Shows(AfterWait(s, c, w.handle), c, waiters, w.mtx.View())
    {
      w.mtx.Unlock();
      waiters := waiters + [w];
      forall s: M.State, c: M.CvId |
        Shows(s, c, old(waiters), old(w.mtx.View())) && CanWait(s, c, w.handle)
        ensures Shows(AfterWait(s, c, w.handle), c, waiters, w.mtx.View())
      {
        WaitSteps(s, c, old(waiters), w);
      }
    }

    /** One look at the front waiter. */
    method Visit(truth: Cond -> bool)
      requires waiters != []
      modifies this, waiters[0].mtx
      ensures var w := old(waiters)[0];
              if w.cond.None? || truth(w.cond.value) then
                && waiters == old(waiters)[1..] && w.mtx.View() == M.Enqueue(old(waiters[0].mtx.View()), w.handle)
                && w.mtx.submitted == old(waiters[0].mtx.submitted) + Grants(old(waiters[0].mtx.locked), [w.handle])
              else
                && waiters == old(waiters)[1..] + [w] && w.mtx.View() == old(waiters[0].mtx.View())
                && w.mtx.submitted == old(waiters[0].mtx.submitted)
    {
      var w := waiters[0];
      waiters := waiters[1..];
      if !Passes(w, truth) {
        waiters := waiters + [w];
      } else {
        w.mtx.EnqueueWaiter(w.handle);
      }
    }

    method NotifyOne(truth: Cond -> bool)
      modifies this, set w | w in waiters :: w.mtx
      ensures old(waiters) == [] ==> waiters == []
      ensures old(waiters) != [] ==>
                var w := old(waiters)[0];
                if w.cond.Some? && !truth(w.cond.value) then
                  waiters == old(waiters)[1..] + [w] && w.mtx.View() == old(waiters[0].mtx.View())
                else
                  waiters == old(waiters)[1..] && Reached(old(waiters[0].mtx.View()), w.mtx.View(), w.handle)
      ensures old(waiters) != [] ==> waiters == old(waiters)[1..] + Kept(old(waiters)[..1], truth)
      ensures forall m | m in old(set w | w in waiters :: w.mtx) ::
                Enqueued(old(m.View()), old(m.submitted), Released(old(waiters)[..1], truth, m), m.View(), m.submitted)
    {
      if waiters != [] {
        ghost var was := waiters;
        assert was[0] in was && was[..0] == [] && was[..1][..0] == [];
        Visit(truth);
        forall m | m in old(set w | w in waiters :: w.mtx)
          ensures Enqueued(old(m.View()), old(m.submitted), Released(was[..1], truth, m), m.View(), m.submitted)
        {
          OneMoreEnqueued(was, 0, truth, m, old(m.View()), old(m.submitted), old(m.View()), old(m.submitted));
        }
      }
    }

    /** One iteration of `notify_all`, the i-th, over the waiters `was`; `start` is what the mutexes were at first. */
    method VisitNext(truth: Cond -> bool, ghost was: seq<Waiter<Mutex>>, ghost i: nat,
                     ghost start: map<Mutex, (M.Mutex, seq<M.Handle>)>)
      requires i < |was| && waiters == was[i..] + Kept(was[..i], truth)
      requires forall w | w in was :: w.mtx in start
      requires forall m | m in start ::
                 Enqueued(start[m].0, start[m].1, Released(was[..i], truth, m), m.View(), m.submitted)
      modifies this, start.Keys
      ensures waiters == was[i + 1..] + Kept(was[..i + 1], truth)
      ensures forall m | m in start ::
                Enqueued(start[m].0, start[m].1, Released(was[..i + 1], truth, m), m.View(), m.submitted)
    {
      assert waiters[0] == was[i] && was[i] in was;
      Visit(truth);
      QueueAfterVisit(was, i, truth, old(waiters), waiters);
      forall m | m in start
        ensures Enqueued(start[m].0, start[m].1, Released(was[..i + 1], truth, m), m.View(), m.submitted)
      {
        OneMoreEnqueued(was, i, truth, m, start[m].0, start[m].1, old(m.View()), old(m.submitted));
        assert m != was[i].mtx ==> m.View() == old(m.View()) && m.submitted == old(m.submitted);
      }
    }

    method NotifyAll(truth: Cond -> bool)
      modifies this, set w | w in waiters :: w.mtx
      ensures waiters == Kept(old(waiters), truth)
      ensures forall w :: w in waiters <==> w in old(waiters) && w.cond.Some? && !truth(w.cond.value)
      ensures forall w | w in old(waiters) && (w.cond.None? || truth(w.cond.value)) ::
                Reached(old(w.mtx.View()), w.mtx.View(), w.handle)
      ensures forall m | m in old(set w | w in waiters :: w.mtx) ::
                Enqueued(old(m.View()), old(m.submitted), Released(old(waiters), truth, m), m.View(), m.submitted)
    {
      ghost var was := waiters;
      ghost var start := map m | m in (set w | w in waiters :: w.mtx) :: (m.View(), m.submitted);
      assert was[..0] == [];
      assert was[0..] + [] == was;
      for i := 0 to |waiters|
        invariant waiters == was[i..] + Kept(was[..i], truth)
        invariant forall m | m in start ::
                    Enqueued(start[m].0, start[m].1, Released(was[..i], truth, m), m.View(), m.submitted)
      {
        VisitNext(truth, was, i, start);
      }
      assert was[..|was|] == was;
      forall w ensures w in waiters <==> w in was && w.cond.Some? && !truth(w.cond.value) {
        KeptAre(was, truth, w);
      }
      forall w | w in was && (w.cond.None? || truth(w.cond.value))
        ensures Reached(start[w.mtx].0, w.mtx.View(), w.handle)
      {
        ReleasedReaches(was, truth, w, start[w.mtx].0);
      }
    }
  }
}
