/** Every run of the two clients ends, and a run of each that ends badly. */
module RelayRuns {
  import opened Prelude
  import M = MutexModel
  import MP = MutexProofs
  import opened RelayModel
  import opened RelayProofs

  // ---------- Every run is finite ----------

  /** How far a coroutine has come in its iteration. */
  function Rank(p: Pc, phase: M.Phase): nat {
    match p
    case Start => 0
    case Locking => if phase.LockMissed? then 1 else if phase.Parked? then 2 else 3
    case Checking => 4
    case Refused => 5
    case Suspended => if phase.Leaving? then 6 else if phase.Waiting? then 7 else if phase.Parked? then 8 else 9
    case AtFirst => 10
    case AtSecond => 11
    case Notifying => 12
    case Visiting => 13
    case Unlocking => 14
    case Finished => 15
  }

  /** How far it has come in all its iterations. */
  function RankOf(t: State, i: nat): int
    requires i < |t.pcs| == |t.left|
  {
    15 * (Rounds(t.c) - t.left[i] - if Passed(t.pcs[i]) then 1 else 0) + Rank(t.pcs[i], M.PhaseOf(t.s, i))
  }

  /** What the first k coroutines still have to do. */
  function Remaining(t: State, k: nat): int
    requires k <= |t.pcs| == |t.left|
  {
    if k == 0 then 0 else Remaining(t, k - 1) + (15 * Rounds(t.c) - RankOf(t, k - 1))
  }

  lemma {:induction false} RemainingIsNatural(t: State, k: nat)
    requires Turns(t) && k <= |t.pcs| == Size(t.c)
    ensures Remaining(t, k) >= 0
  {
    if k > 0 {
      RemainingIsNatural(t, k - 1);
      assert TurnOf(t, k - 1);
      TurnsLeft(t.c, Turn(t), k - 1);
    }
  }

  function VisitsLeft(t: State): nat {
    var v := M.CvOf(t.s, CV).visiting;
    if v.Some? then v.value else 0
  }

  /** A bound on the number of steps left. */
  function Budget(t: State): int
    requires |t.pcs| == |t.left|
  {
    (|t.pcs| + 1) * Remaining(t, |t.pcs|) + VisitsLeft(t)
  }

  lemma OtherRanks(t: State, a: Action, i: nat)
    requires MP.Inv(t.s) && Places(t) && Enabled(t, a) && i < |t.pcs| && i != a.i
    ensures RankOf(Next(t, a), i) >= RankOf(t, i)
  {
    assert Agrees(t.pcs[i], M.PhaseOf(t.s, i));
    OtherMoves(t, a, i);
  }

  lemma SubjectRank(t: State, a: Action)
    requires MP.Inv(t.s) && Places(t) && Enabled(t, a)
    ensures RankOf(Next(t, a), a.i) >= RankOf(t, a.i)
    ensures !a.Visit? ==> RankOf(Next(t, a), a.i) > RankOf(t, a.i)
  {
    assert Agrees(t.pcs[a.i], M.PhaseOf(t.s, a.i));
    SubjectAgrees(t, a);
  }

  lemma {:induction false} RemainingFalls(t: State, u: State, k: nat, i: nat)
    requires k <= |t.pcs| == |u.pcs| == |t.left| == |u.left| && u.c == t.c
    requires forall j :: 0 <= j < |t.pcs| ==> RankOf(u, j) >= RankOf(t, j)
    ensures Remaining(u, k) <= Remaining(t, k)
    ensures i < k && RankOf(u, i) > RankOf(t, i) ==> Remaining(u, k) < Remaining(t, k)
  {
    if k > 0 {
      RemainingFalls(t, u, k - 1, i);
      assert RankOf(u, k - 1) >= RankOf(t, k - 1);
    }
  }

  lemma RemainingShrinks(t: State, a: Action)
    requires MP.Inv(t.s) && Places(t) && Enabled(t, a)
    ensures Remaining(Next(t, a), |t.pcs|) <= Remaining(t, |t.pcs|)
    ensures !a.Visit? ==> Remaining(Next(t, a), |t.pcs|) < Remaining(t, |t.pcs|)
  {
    var u := Next(t, a);
    SubjectRank(t, a);
    forall j | 0 <= j < |t.pcs| ensures RankOf(u, j) >= RankOf(t, j) {
      if j != a.i { OtherRanks(t, a, j); }
    }
    RemainingFalls(t, u, |t.pcs|, a.i);
  }

  lemma {:induction false} DistinctBelow(q: seq<nat>, n: nat)
    requires Distinct(q) && forall i :: 0 <= i < |q| ==> q[i] < n
    ensures |q| <= n
    decreases n
  {
    if q != [] {
      assert q[0] < n;
      if exists i :: 0 <= i < |q| && q[i] == n - 1 {
        var i :| 0 <= i < |q| && q[i] == n - 1;
        var rest := q[..i] + q[i + 1..];
        forall k | 0 <= k < |rest| ensures rest[k] == (if k < i then q[k] else q[k + 1]) && rest[k] < n - 1 {
          assert k < i ==> q[k] != q[i];
          assert k >= i ==> q[k + 1] != q[i];
        }
        DistinctBelow(rest, n - 1);
      } else {
        DistinctBelow(q, n - 1);
      }
    }
  }

  lemma QueueBound(t: State)
    requires MP.Inv(t.s) && Places(t)
    ensures |M.CvOf(t.s, CV).queue| <= |t.pcs|
  {
    var q := M.CvOf(t.s, CV).queue;
    if q != [] {
      forall i | 0 <= i < |q| ensures q[i] < |t.pcs| {
        assert q[i] in t.s.cvs[CV].queue;
        assert M.PhaseOf(t.s, q[i]) == M.Waiting(CV);
      }
      DistinctBelow(q, |t.pcs|);
    }
  }

  lemma BudgetShrinks(t: State, a: Action)
    requires MP.Inv(t.s) && Places(t) && Enabled(t, a)
    ensures Budget(Next(t, a)) < Budget(t)
  {
    RemainingShrinks(t, a);
    QueueBound(t);
    VisitsStep(t, a);
    BudgetFalls(t, Next(t, a));
  }

  lemma BudgetFalls(t: State, u: State)
    requires |u.pcs| == |t.pcs| == |t.left| == |u.left|
    requires var n := |t.pcs|;
             || (Remaining(u, n) <= Remaining(t, n) && VisitsLeft(u) < VisitsLeft(t))
             || (Remaining(u, n) < Remaining(t, n) && VisitsLeft(u) <= VisitsLeft(t) + n)
    ensures Budget(u) < Budget(t)
  {
    var n := |t.pcs|;
    BudgetArithmetic(n, Remaining(t, n), Remaining(u, n), VisitsLeft(t), VisitsLeft(u));
  }

  lemma BudgetArithmetic(n: nat, before: int, after: int, v: nat, w: nat)
    requires (after <= before && w < v) || (after < before && w <= v + n)
    ensures (n + 1) * after + w < (n + 1) * before + v
  {
    var d := before - after;
    assert (n + 1) * before == (n + 1) * after + (n + 1) * d;
    assert d >= 1 ==> (n + 1) * d >= n + 1;
  }

  lemma VisitsStep(t: State, a: Action)
    requires Enabled(t, a)
    ensures a.Visit? ==> VisitsLeft(Next(t, a)) == VisitsLeft(t) - 1
    ensures !a.Visit? ==> VisitsLeft(Next(t, a)) <= VisitsLeft(t) + |M.CvOf(t.s, CV).queue|
  {
    SameSpinlock(t, a);
  }

  lemma {:induction false} RunWithinBudget(t: State, run: seq<Action>, lost: bool)
    requires Inv(t, lost) && ValidRun(t, run)
    ensures |run| <= Budget(t)
    decreases |run|
  {
    if run == [] {
      RemainingIsNatural(t, |t.pcs|);
    } else {
      NextInv(t, run[0], lost);
      BudgetShrinks(t, run[0]);
      RunWithinBudget(Next(t, run[0]), run[1..], lost || PushesLate(t, run[0]));
    }
  }

  lemma {:induction false} InitRemaining(c: Client, k: nat)
    requires k <= Size(c)
    ensures Remaining(Init(c), k) == 15 * Rounds(c) * k
  {
    if k > 0 { InitRemaining(c, k - 1); }
  }

  /** No schedule keeps n coroutines with r turns each busy for more than 15rn(n+1) steps. */
  lemma {:induction false} RunsAreBounded(c: Client, run: seq<Action>)
    requires ValidRun(Init(c), run)
    ensures |run| <= (Size(c) + 1) * (15 * Rounds(c) * Size(c))
  {
    InitInv(c);
    RunWithinBudget(Init(c), run, false);
    InitRemaining(c, Size(c));
  }

  // ---------- A run that loses a turn ----------

  /** The schedule: 1 unlocks, 0 does everything, 1 joins the condition variable. */
  function Move(k: nat): Action {
    match k
    case 0 => LockReady(1)
    case 1 => Check(1)
    case 2 => WaitUnlock(1)
    case 3 => LockReady(0)
    case 4 => Check(0)
    case 5 => DoFirst(0)
    case 6 => DoSecond(0)
    case 7 => Notify(0)
    case 8 => NotifyEnd(0)
    case 9 => Unlock(0)
    case _ => WaitPush(1)
  }

  /** Two coroutines with one turn each, of either kind. */
  predicate IsPair(c: Client) {
    c == Tickets(2) || c == Alternate(1)
  }

  function Snap(c: Client, locked: bool, acquired: seq<nat>, cvs: map<M.CvId, M.Cv>, phases: map<nat, M.Phase>,
                pcs: seq<Pc>, turns: nat): State {
    State(c, M.State(M.Mutex(locked, [], acquired), cvs, phases), pcs, [1 - turns, 1], turns,
          if turns == 0 then [] else [0])
  }

  /** The state before the k-th move. */
  function Before(c: Client, k: nat): State {
    var away := map[1 := M.Leaving(CV)];
    var busy := map[1 := M.Leaving(CV), 0 := M.Owner];
    match k
    case 0 => Snap(c, false, [], map[], map[], [Start, Start], 0)
    case 1 => Snap(c, true, [1], map[], map[1 := M.Owner], [Start, Checking], 0)
    case 2 => Snap(c, true, [1], map[], map[1 := M.Owner], [Start, Refused], 0)
    case 3 => Snap(c, false, [1], map[], away, [Start, Suspended], 0)
    case 4 => Snap(c, true, [1, 0], map[], busy, [Checking, Suspended], 0)
    case 5 => Snap(c, true, [1, 0], map[], busy, [AtFirst, Suspended], 0)
    case 6 =>
      var half := Snap(c, true, [1, 0], map[], busy, [AtSecond, Suspended], 0);
      if c.Tickets? then half.(vec := [0]) else half.(id := 1)
    case 7 => Snap(c, true, [1, 0], map[], busy, [Notifying, Suspended], 1)
    case 8 => Snap(c, true, [1, 0], map[CV := M.Cv([], Some(0))], busy, [Visiting, Suspended], 1)
    case 9 => Snap(c, true, [1, 0], map[CV := M.Cv([], None)], busy, [Unlocking, Suspended], 1)
    case 10 => Snap(c, false, [1, 0], map[CV := M.Cv([], None)], away[0 := M.Idle], [Finished, Suspended], 1)
    case _ => Snap(c, false, [1, 0], map[CV := M.Cv([1], None)], map[1 := M.Waiting(CV), 0 := M.Idle],
                   [Finished, Suspended], 1)
  }

  ghost predicate Moves(c: Client, k: nat) {
    Enabled(Before(c, k), Move(k)) && Next(Before(c, k), Move(k)) == Before(c, k + 1)
  }

  lemma InitSnap(c: Client)
    requires IsPair(c)
    ensures Init(c) == Before(c, 0)
  {
    assert Init(c).pcs == [Start, Start] && Init(c).left == [1, 1];
  }

  lemma EarlyMoves(c: Client, k: nat)
    requires IsPair(c) && k < 4
    ensures Moves(c, k)
  {
  }

  lemma MiddleMoves(c: Client, k: nat)
    requires IsPair(c) && 4 <= k < 8
    ensures Moves(c, k)
  {
  }

  lemma LateMoves(c: Client, k: nat)
    requires IsPair(c) && 8 <= k < 10
    ensures Moves(c, k)
  {
  }

  lemma LastMove(c: Client)
    requires IsPair(c)
    ensures Moves(c, 10)
  {
    var t := Before(c, 10);
    var u := Next(t, WaitPush(1));
    assert M.CvOf(t.s, CV) == M.Cv([], None) && M.PhaseOf(t.s, 1) == M.Leaving(CV);
    var none: seq<M.Handle> := [];
    assert none + [1] == [1];
    assert u.s.cvs == t.s.cvs[CV := M.Cv([1], None)];
    assert u.s.phases == map[1 := M.Waiting(CV), 0 := M.Idle];
  }

  /** Nobody can move after the last move. */
  lemma AtRest(c: Client)
    requires IsPair(c)
    ensures Terminal(Before(c, 11)) && Before(c, 11).vec == [0]
  {
    var t := Before(c, 11);
    forall a: Action ensures !Enabled(t, a) {
      assert a.i < |t.pcs| ==> t.pcs[a.i] == Finished || (a.i == 1 && t.pcs[a.i] == Suspended);
    }
  }

  function MovesFrom(k: nat): seq<Action>
    requires k <= 11
    decreases 11 - k
  {
    if k == 11 then [] else [Move(k)] + MovesFrom(k + 1)
  }

  lemma {:induction false} ScheduleRuns(c: Client, k: nat)
    requires IsPair(c) && k <= 11
    ensures ValidRun(Before(c, k), MovesFrom(k)) && Exec(Before(c, k), MovesFrom(k)) == Before(c, 11)
    decreases 11 - k
  {
    if k < 11 {
      if k < 4 {
        EarlyMoves(c, k);
      } else if k < 8 {
        MiddleMoves(c, k);
      } else if k < 10 {
        LateMoves(c, k);
      } else {
        LastMove(c);
      }
      ScheduleRuns(c, k + 1);
      assert MovesFrom(k)[1..] == MovesFrom(k + 1);
    }
  }

  /**
   With two coroutines and one turn each, either client can come to rest with `vec == [0]`: the
   promise of the tests is not kept by every run.
   */
  lemma TurnCanBeLost(c: Client)
    requires IsPair(c)
    ensures var run := MovesFrom(0);
            && ValidRun(Init(c), run)
            && Terminal(Exec(Init(c), run))
            && Exec(Init(c), run).vec == [0]
            && Total(c) == 2
  {
    InitSnap(c);
    ScheduleRuns(c, 0);
    AtRest(c);
  }
}
