/**
 The pools of registered file descriptors: `marked_buffer`, the part of `uring_proxy` that lends its
 slots, `fixed_fds`, and the connectors that use them.

 Every engine has a pool of its own, all of the same size. A connector borrows from the engine it is
 made on, its home; `assign`, `return_back` and the I/O itself go to whatever engine the coroutine is
 running on at that moment.

 `table` is what the kernel has registered for the engine; `update_register_fixed_fds` copies the
 whole of `data` there. Pools of length zero are the configuration in which fixed descriptors are
 switched off: `get_fixed_fd` then always answers with an invalid item.
 */
module FdPoolModel {
  import opened Prelude

  /** `idx` of an item that holds no slot. */
  const INVALID: int := -1

  datatype Pool = Pool(data: seq<int>, free: seq<nat>, nullFds: seq<int>, table: seq<int>)

  function Indices(n: nat): (s: seq<nat>)
    ensures |s| == n && forall i :: 0 <= i < n ==> s[i] == i
  {
    seq(n, i => i)
  }

  function NewPool(nullFds: seq<int>): Pool {
    Pool(nullFds, Indices(|nullFds|), nullFds, nullFds)
  }

  /** The slot `borrow` hands out. */
  function Borrowed(p: Pool): int {
    if p.free == [] then INVALID else p.free[0]
  }

  function AfterBorrow(p: Pool): Pool {
    if p.free == [] then p else p.(free := p.free[1..])
  }

  predicate InRange(p: Pool, idx: int) {
    0 <= idx < |p.data| && idx < |p.nullFds|
  }

  /** The store through `item.ptr`. */
  function Store(p: Pool, idx: int, fd: int): Pool
    requires InRange(p, idx)
  {
    p.(data := p.data[idx := fd])
  }

  /** `update_register_fixed_fds`. */
  function Register(p: Pool): Pool {
    p.(table := p.data)
  }

  /** `back_fixed_fd`. */
  function Back(p: Pool, idx: int): Pool
    requires idx < 0 || InRange(p, idx)
  {
    if idx < 0 then p else Register(Store(p, idx, p.nullFds[idx])).(free := p.free + [idx])
  }

  /**
   A connector: the engine it was made on, the descriptor and flag it passes to the kernel, the
   descriptor it was made with, and its item. `returned` marks one that has given its slot back by
   `close` or its destructor.
   */
  datatype Connector = Connector(home: nat, sockfd: int, fixed: bool, original: int, item: int, returned: bool)

  type Id = nat

  datatype State = State(pools: seq<Pool>, conns: map<Id, Connector>)

  function Init(nullFds: seq<seq<int>>): State {
    State(seq(|nullFds|, e requires 0 <= e < |nullFds| => NewPool(nullFds[e])), map[])
  }

  /** Each action carries the engine it runs on. */
  datatype Action =
    | Open(id: Id, fd: int, engine: nat)  // the fixed_fds constructor borrows
    | Assign(id: Id, engine: nat)         // fixed_fds::assign
    | Return(id: Id, engine: nat)         // fixed_fds::return_back, by close or by the destructor

  predicate Enabled(s: State, a: Action) {
    && a.engine < |s.pools|
    && match a
       case Open(id, _, _) => id !in s.conns
       case Assign(id, _) =>
         && id in s.conns && !s.conns[id].returned && !s.conns[id].fixed
         && s.conns[id].home < |s.pools|
         && (s.conns[id].item >= 0 ==> InRange(s.pools[s.conns[id].home], s.conns[id].item))
       case Return(id, e) =>
         id in s.conns && (s.conns[id].item >= 0 ==> InRange(s.pools[e], s.conns[id].item))
  }

  function Next(s: State, a: Action): State
    requires Enabled(s, a)
  {
    match a
    case Open(id, fd, e) =>
      State(s.pools[e := AfterBorrow(s.pools[e])],
            s.conns[id := Connector(e, fd, false, fd, Borrowed(s.pools[e]), false)])
    case Assign(id, e) =>
      var c := s.conns[id];
      if c.item < 0 then s
      else
        var stored := s.pools[c.home := Store(s.pools[c.home], c.item, c.sockfd)];
        State(stored[e := Register(stored[e])], s.conns[id := c.(sockfd := c.item, fixed := true)])
    case Return(id, e) =>
      var c := s.conns[id];
      State(s.pools[e := Back(s.pools[e], c.item)], s.conns[id := c.(item := INVALID, returned := true)])
  }

  predicate ValidRun(s: State, run: seq<Action>)
    decreases |run|
  {
    run == [] || (Enabled(s, run[0]) && ValidRun(Next(s, run[0]), run[1..]))
  }

  function Exec(s: State, run: seq<Action>): State
    requires ValidRun(s, run)
    decreases |run|
  {
    if run == [] then s else Exec(Next(s, run[0]), run[1..])
  }

  /** The descriptor an engine's kernel ring operates on when given this pair. */
  function Resolve(table: seq<int>, fd: int, fixed: bool): Option<int> {
    if !fixed then Some(fd) else if 0 <= fd < |table| then Some(table[fd]) else None
  }

  /** What the connector reaches from engine `e`. */
  function Reaches(s: State, c: Connector, e: nat): Option<int>
    requires e < |s.pools|
  {
    Resolve(s.pools[e].table, c.sockfd, c.fixed)
  }
}

module FdPoolProofs {
  import opened Prelude
  import opened FdPoolModel

  // ---------- The invariant ----------

  predicate Holds(s: State, id: Id, e: nat, i: int) {
    id in s.conns && s.conns[id].home == e && s.conns[id].item == i
  }

  ghost predicate Lent(s: State, e: nat, i: int) {
    exists id :: Holds(s, id, e, i)
  }

  /** Free slots: each once, holding its null descriptor; the registered table is up to date. */
  ghost predicate Slots(p: Pool) {
    && |p.data| == |p.nullFds| && p.table == p.data
    && Distinct(p.free)
    && (forall i :: i in p.free ==> i < |p.data| && p.data[i] == p.nullFds[i])
  }

  /**
   A connector and its home: a slot that is lent holds the descriptor it was assigned, or still its
   null descriptor.
   */
  ghost predicate Fits(p: Pool, c: Connector) {
    && (c.item >= 0 ==>
          && !c.returned && c.item < |p.data| == |p.nullFds| && c.item !in p.free
          && p.data[c.item] == if c.fixed then c.original else p.nullFds[c.item])
    && (c.fixed && !c.returned ==> c.item >= 0 && c.sockfd == c.item)
    && (!c.fixed ==> c.sockfd == c.original)
  }

  ghost predicate Pools(s: State) {
    && (forall e :: 0 <= e < |s.pools| ==> Slots(s.pools[e]))
    && (forall e, f :: 0 <= e < f < |s.pools| ==> |s.pools[e].data| == |s.pools[f].data|)
  }

  ghost predicate Fitting(s: State) {
    forall id :: id in s.conns ==> s.conns[id].home < |s.pools| && Fits(s.pools[s.conns[id].home], s.conns[id])
  }

  ghost predicate Unshared(s: State) {
    forall id, jd :: id in s.conns && jd in s.conns && id != jd && s.conns[id].item >= 0 ==>
      s.conns[id].home != s.conns[jd].home || s.conns[id].item != s.conns[jd].item
  }

  ghost predicate Covered(s: State) {
    forall e, i :: 0 <= e < |s.pools| && 0 <= i < |s.pools[e].data| ==> i in s.pools[e].free || Lent(s, e, i)
  }

  /** Every slot of every engine is free or lent, never both, and never lent twice. */
  ghost predicate Loans(s: State) {
    Fitting(s) && Unshared(s) && Covered(s)
  }

  ghost predicate Inv(s: State) {
    Pools(s) && Loans(s)
  }

  /** All pools have the size fixed at compile time. */
  predicate SameSizes(nullFds: seq<seq<int>>) {
    forall e, f :: 0 <= e < f < |nullFds| ==> |nullFds[e]| == |nullFds[f]|
  }

  lemma InitInv(nullFds: seq<seq<int>>)
    requires SameSizes(nullFds)
    ensures Inv(Init(nullFds))
  {
    var s := Init(nullFds);
    forall e, i | 0 <= e < |s.pools| && 0 <= i < |s.pools[e].data| ensures i in s.pools[e].free {
      assert s.pools[e].free[i] == i;
    }
  }

  // ---------- Steps at home ----------

  /** The call runs on the connector's own engine, or the connector has no slot. */
  predicate AtHome(s: State, a: Action) {
    a.Open? || (a.id in s.conns && (s.conns[a.id].item < 0 || a.engine == s.conns[a.id].home))
  }

  lemma OpenCovered(s: State, id: Id, fd: int, e: nat)
    requires Covered(s) && Enabled(s, Open(id, fd, e))
    ensures Covered(Next(s, Open(id, fd, e)))
  {
    var t := Next(s, Open(id, fd, e));
    forall f, i | 0 <= f < |t.pools| && 0 <= i < |t.pools[f].data| ensures i in t.pools[f].free || Lent(t, f, i) {
      if i !in t.pools[f].free {
        if i in s.pools[f].free {
          assert Holds(t, id, f, i);
        } else {
          var jd :| Holds(s, jd, f, i);
          assert Holds(t, jd, f, i);
        }
      }
    }
  }

  /** Borrowing for a new connector. */
  lemma OpenInv(s: State, id: Id, fd: int, e: nat)
    requires Inv(s) && Enabled(s, Open(id, fd, e))
    ensures Inv(Next(s, Open(id, fd, e)))
  {
    var free := s.pools[e].free;
    if free != [] {
      TailOfDistinct(free);
      assert free[0] in free;
    }
    OpenCovered(s, id, fd, e);
    var t := Next(s, Open(id, fd, e));
    assert Pools(t) && Fitting(t);
  }

  /** The slots keep being free or lent when connector `id` either keeps its slot or frees it. */
  lemma StillCovered(s: State, t: State, id: Id)
    requires Covered(s) && id in s.conns && id in t.conns && t.conns == s.conns[id := t.conns[id]]
    requires |t.pools| == |s.pools|
    requires forall e :: 0 <= e < |s.pools| ==>
               |t.pools[e].data| == |s.pools[e].data| && forall i :: i in s.pools[e].free ==> i in t.pools[e].free
    requires t.conns[id].home == s.conns[id].home < |s.pools|
    requires t.conns[id].item == s.conns[id].item || s.conns[id].item < 0
             || s.conns[id].item in t.pools[s.conns[id].home].free
    ensures Covered(t)
  {
    forall f, i | 0 <= f < |t.pools| && 0 <= i < |t.pools[f].data| ensures i in t.pools[f].free || Lent(t, f, i) {
      if i !in t.pools[f].free {
        var jd :| Holds(s, jd, f, i);
        assert Holds(t, jd, f, i);
      }
    }
  }

  /** The connectors other than `id` are not disturbed by a change of the slot of `id`. */
  lemma StillFitting(s: State, t: State, id: Id)
    requires Fitting(s) && Unshared(s) && id in s.conns && id in t.conns && t.conns == s.conns[id := t.conns[id]]
    requires var c := s.conns[id];
             && 0 <= c.item && c.home < |t.pools| == |s.pools| && t.pools == s.pools[c.home := t.pools[c.home]]
             && Fits(t.pools[c.home], t.conns[id]) && t.conns[id].home == c.home
             && var p, q := s.pools[c.home], t.pools[c.home];
                && |q.data| == |p.data| && q.nullFds == p.nullFds
                && (forall i :: 0 <= i < |p.data| && i != c.item ==> q.data[i] == p.data[i])
                && (forall i :: i in q.free && i != c.item ==> i in p.free)
    ensures Fitting(t)
  {
    forall jd | jd in t.conns && jd != id
      ensures t.conns[jd].home < |t.pools| && Fits(t.pools[t.conns[jd].home], t.conns[jd])
    {
      assert Fits(s.pools[s.conns[jd].home], s.conns[jd]);
    }
  }

  /** Assigning at home disturbs no other connector. */
  lemma AssignInv(s: State, id: Id, e: nat)
    requires Inv(s) && Enabled(s, Assign(id, e)) && AtHome(s, Assign(id, e))
    ensures Inv(Next(s, Assign(id, e)))
  {
    if s.conns[id].item >= 0 {
      var t := Next(s, Assign(id, e));
      assert Fits(s.pools[e], s.conns[id]);
      assert t.pools == s.pools[e := t.pools[e]];
      StillCovered(s, t, id);
      StillFitting(s, t, id);
      assert Slots(t.pools[e]);
    }
  }

  /** Giving back a slot that is lent. */
  lemma ReturnSlotInv(s: State, id: Id, e: nat)
    requires Inv(s) && Enabled(s, Return(id, e)) && s.conns[id].item >= 0 && e == s.conns[id].home
    ensures Inv(Next(s, Return(id, e)))
  {
    var t, c := Next(s, Return(id, e)), s.conns[id];
    assert Fits(s.pools[e], c);
    BackSlots(s.pools[e], c.item);
    assert c.item in t.pools[e].free;
    StillCovered(s, t, id);
    StillFitting(s, t, id);
  }

  lemma BackSlots(p: Pool, i: nat)
    requires Slots(p) && i < |p.data| && i !in p.free
    ensures Slots(Back(p, i))
  {
  }

  /** Giving a slot back at home disturbs no other connector. */
  lemma ReturnInv(s: State, id: Id, e: nat)
    requires Inv(s) && Enabled(s, Return(id, e)) && AtHome(s, Return(id, e))
    ensures Inv(Next(s, Return(id, e)))
  {
    if s.conns[id].item >= 0 {
      ReturnSlotInv(s, id, e);
    } else {
      var t := Next(s, Return(id, e));
      assert Fits(s.pools[s.conns[id].home], s.conns[id]);
      StillCovered(s, t, id);
    }
  }

  predicate HomeRun(s: State, run: seq<Action>)
    requires ValidRun(s, run)
    decreases |run|
  {
    run != [] ==> AtHome(s, run[0]) && HomeRun(Next(s, run[0]), run[1..])
  }

  lemma {:induction false} ExecInv(s: State, run: seq<Action>)
    requires Inv(s) && ValidRun(s, run) && HomeRun(s, run)
    ensures Inv(Exec(s, run)) && |Exec(s, run).pools| == |s.pools|
    decreases |run|
  {
    if run != [] {
      match run[0] {
        case Open(id, fd, e) => OpenInv(s, id, fd, e);
        case Assign(id, e) => AssignInv(s, id, e);
        case Return(id, e) => ReturnInv(s, id, e);
      }
      ExecInv(Next(s, run[0]), run[1..]);
    }
  }

  /** Free and lent slots partition every pool. */
  ghost predicate Partition(s: State) {
    forall e :: 0 <= e < |s.pools| ==>
      && Distinct(s.pools[e].free)
      && forall i :: 0 <= i < |s.pools[e].data| ==> (i in s.pools[e].free <==> !Lent(s, e, i))
  }

  lemma InvPartition(s: State)
    requires Inv(s)
    ensures Partition(s)
  {
    forall e, i | 0 <= e < |s.pools| && Lent(s, e, i) ensures i !in s.pools[e].free {
      var id :| Holds(s, id, e, i);
      assert Fits(s.pools[e], s.conns[id]);
    }
  }

  /** A new connector gets a slot exactly when its engine has a free one, and that slot is then nobody else's. */
  lemma GetsSlotIffFree(s: State, id: Id, fd: int, e: nat)
    requires Inv(s) && Enabled(s, Open(id, fd, e))
    ensures var t := Next(s, Open(id, fd, e));
            && (t.conns[id].item >= 0 <==> s.pools[e].free != [])
            && (t.conns[id].item >= 0 ==> t.conns[id].item in s.pools[e].free && t.conns[id].item !in t.pools[e].free)
  {
    if s.pools[e].free != [] { TailOfDistinct(s.pools[e].free); }
  }

  // ---------- What was opened ----------

  /** With which descriptor, and on which engine, each connector of the run was made. */
  function Opened(run: seq<Action>): map<Id, (int, nat)> {
    if run == [] then map[] else Opened(run[1..]) + OpenedBy(run[0])
  }

  function OpenedBy(a: Action): map<Id, (int, nat)> {
    if a.Open? then map[a.id := (a.fd, a.engine)] else map[]
  }

  /** From `m` to `m'` only the connectors in `made` have come, and none has forgotten what it was made with. */
  ghost predicate Made(m: map<Id, Connector>, m': map<Id, Connector>, made: map<Id, (int, nat)>) {
    && m'.Keys == m.Keys + made.Keys
    && (forall id :: id in m ==> id !in made && m'[id].original == m[id].original && m'[id].home == m[id].home)
    && (forall id :: id in made ==> m'[id].original == made[id].0 && m'[id].home == made[id].1)
  }

  lemma MadeOn(
    m: map<Id, Connector>, m1: map<Id, Connector>, m2: map<Id, Connector>,
    made: map<Id, (int, nat)>, rest: map<Id, (int, nat)>)
    requires Made(m, m1, made) && Made(m1, m2, rest)
    ensures Made(m, m2, rest + made)
  {
    assert forall id :: id in made ==> id in m1.Keys;
    assert forall id :: id in m ==> id in m1.Keys;
  }

  /** The connectors are those opened by the run, each with its own descriptor and home for ever, at home or not. */
  lemma {:induction false} ConnectorsAreOpened(s: State, run: seq<Action>)
    requires ValidRun(s, run)
    ensures Made(s.conns, Exec(s, run).conns, Opened(run))
    decreases |run|
  {
    if run != [] {
      var u := Next(s, run[0]);
      assert Made(s.conns, u.conns, OpenedBy(run[0]));
      ConnectorsAreOpened(u, run[1..]);
      MadeOn(s.conns, u.conns, Exec(s, run).conns, OpenedBy(run[0]), Opened(run[1..]));
    }
  }

  /**
   After any sequence of borrow, assign and return in which connectors stay on their engines: free
   and lent slots partition every pool, every free slot is back to its null descriptor, and the pair
   each live connector passes to the kernel at home resolves to the descriptor it was made with,
   whether it got a slot or the pool was exhausted.
   */
  lemma {:induction false} EveryConnectorResolves(nullFds: seq<seq<int>>, run: seq<Action>, s: State)
    requires SameSizes(nullFds) && ValidRun(Init(nullFds), run) && HomeRun(Init(nullFds), run)
    requires s == Exec(Init(nullFds), run)
    ensures s.conns.Keys == Opened(run).Keys
    ensures forall id :: id in Opened(run) && !s.conns[id].returned ==>
              var (fd, engine) := Opened(run)[id];
              engine < |s.pools| && Reaches(s, s.conns[id], engine) == Some(fd)
    ensures Partition(s)
    ensures forall e, i :: 0 <= e < |s.pools| && i in s.pools[e].free ==>
              i < |s.pools[e].table| == |s.pools[e].nullFds| && s.pools[e].table[i] == s.pools[e].nullFds[i]
  {
    InitInv(nullFds);
    ExecInv(Init(nullFds), run);
    InvPartition(s);
    ConnectorsAreOpened(Init(nullFds), run);
    forall id | id in Opened(run) && !s.conns[id].returned
      ensures var (fd, engine) := Opened(run)[id];
              engine < |s.pools| && Reaches(s, s.conns[id], engine) == Some(fd)
    {
      assert Fits(s.pools[s.conns[id].home], s.conns[id]);
    }
  }

  // ---------- Away from home ----------

  ghost predicate Sized(p: Pool, size: nat) {
    |p.data| == |p.nullFds| == size && forall i :: i in p.free ==> i < size
  }

  /** Every item is the number of a slot that every engine has. */
  ghost predicate Ranges(s: State, size: nat) {
    && (forall e :: 0 <= e < |s.pools| ==> Sized(s.pools[e], size))
    && (forall id :: id in s.conns ==> s.conns[id].home < |s.pools| && s.conns[id].item < size)
  }

  lemma NextRanges(s: State, a: Action, size: nat)
    requires Ranges(s, size) && Enabled(s, a)
    ensures Ranges(Next(s, a), size)
  {
    var p := s.pools[a.engine];
    assert Sized(p, size);
    match a
    case Open(id, _, e) =>
      assert p.free != [] ==> p.free[0] in p.free;
      assert forall i :: i in AfterBorrow(p).free ==> i in p.free;
      assert Sized(AfterBorrow(p), size);
    case Assign(id, e) => assert Sized(s.pools[s.conns[id].home], size);
    case Return(id, e) => assert Sized(Back(p, s.conns[id].item), size);
  }

  /** No run leaves the range of the pools, at home or not, so any live connector can be given back on any engine. */
  lemma {:induction false} ItemsStayInRange(s: State, run: seq<Action>, size: nat)
    requires Ranges(s, size) && ValidRun(s, run)
    ensures var t := Exec(s, run);
            && Ranges(t, size)
            && forall id, e :: id in t.conns && 0 <= e < |t.pools| ==> Enabled(t, Return(id, e))
    decreases |run|
  {
    if run != [] {
      NextRanges(s, run[0], size);
      ItemsStayInRange(Next(s, run[0]), run[1..], size);
    }
  }

  /** Descriptors in use at the same time are different: a live connector's from the others' and from the null ones. */
  ghost predicate OwnDescriptor(s: State, id: Id) {
    && id in s.conns
    && (forall jd :: jd in s.conns && jd != id && !s.conns[jd].returned ==>
          s.conns[jd].original != s.conns[id].original)
    && (forall e, i :: 0 <= e < |s.pools| && 0 <= i < |s.pools[e].nullFds| ==>
          s.pools[e].nullFds[i] != s.conns[id].original)
  }

  /** What is registered in any slot: its null descriptor, or that of the connector to which it is lent. */
  lemma SlotContents(s: State, e: nat, i: nat)
    requires Inv(s) && e < |s.pools| && i < |s.pools[e].table|
    ensures || s.pools[e].table[i] == s.pools[e].nullFds[i]
            || exists jd :: Holds(s, jd, e, i) && !s.conns[jd].returned && s.pools[e].table[i] == s.conns[jd].original
  {
    if i !in s.pools[e].free {
      var jd :| Holds(s, jd, e, i);
      assert Fits(s.pools[e], s.conns[jd]);
    }
  }

  /**
   A live connector reaches its own descriptor from engine `e` exactly when it has no fixed slot or
   `e` is its home.
   */
  lemma ResolvesIff(s: State, id: Id, e: nat)
    requires Inv(s) && OwnDescriptor(s, id) && !s.conns[id].returned && e < |s.pools|
    ensures Reaches(s, s.conns[id], e) == Some(s.conns[id].original) <==> !s.conns[id].fixed || e == s.conns[id].home
  {
    var c := s.conns[id];
    assert Fits(s.pools[c.home], c);
    if c.fixed && e != c.home {
      assert |s.pools[e].data| == |s.pools[c.home].data|;
      SlotContents(s, e, c.item);
    }
  }

  /**
   The store goes to the home and the registration to the engine at hand, so that after an
   `assign` the connector reaches its descriptor at home exactly when the two are the same (or the
   descriptor happens to be the slot's null one).
   */
  lemma AssignResolvesIff(s: State, id: Id, e: nat)
    requires Inv(s) && Enabled(s, Assign(id, e)) && s.conns[id].item >= 0
    ensures var t, c := Next(s, Assign(id, e)), s.conns[id];
            Reaches(t, t.conns[id], c.home) == Some(c.original) <==>
            e == c.home || c.original == s.pools[c.home].nullFds[c.item]
  {
    assert Fits(s.pools[s.conns[id].home], s.conns[id]);
  }

  /** Giving a slot back keeps the partition exactly when it is done at home, or there is no slot. */
  lemma ReturnKeepsPartitionIff(s: State, id: Id, e: nat)
    requires Inv(s) && Enabled(s, Return(id, e))
    ensures Partition(Next(s, Return(id, e))) <==> AtHome(s, Return(id, e))
  {
    if AtHome(s, Return(id, e)) {
      ReturnInv(s, id, e);
      InvPartition(Next(s, Return(id, e)));
    } else {
      SlotLeaks(s, id, e);
    }
  }

  /** Returned elsewhere, the slot is neither free nor lent any more at its home. */
  lemma SlotLeaks(s: State, id: Id, e: nat)
    requires Inv(s) && Enabled(s, Return(id, e)) && !AtHome(s, Return(id, e))
    ensures var t, c := Next(s, Return(id, e)), s.conns[id];
            && c.home < |t.pools| && 0 <= c.item < |t.pools[c.home].data|
            && c.item !in t.pools[c.home].free && !Lent(t, c.home, c.item)
  {
    assert Fits(s.pools[s.conns[id].home], s.conns[id]);
  }

  /**
   A connector that migrates, with one slot on each of two engines: used on the other engine it
   reaches that engine's null descriptor, and given back there the one slot is free twice.
   */
  lemma MigratedConnector() returns (run: seq<Action>, s: State, t: State)
    ensures ValidRun(Init([[100], [200]]), run) && HomeRun(Init([[100], [200]]), run)
    ensures s == Exec(Init([[100], [200]]), run)
    ensures 7 in s.conns && s.conns[7].original == 55 && !s.conns[7].returned
    ensures |s.pools| == 2 && Reaches(s, s.conns[7], 0) == Some(55) && Reaches(s, s.conns[7], 1) == Some(200)
    ensures Enabled(s, Return(7, 1)) && t == Next(s, Return(7, 1))
    ensures t.pools[0].free == [] && t.pools[0].table == [55] && t.pools[1].free == [0, 0]
  {
    var s0 := Init([[100], [200]]);
    var s1 := Next(s0, Open(7, 55, 0));
    var r1 := [Assign(7, 0)];
    run := [Open(7, 55, 0)] + r1;
    s := Next(s1, Assign(7, 0));
    assert r1[1..] == [] && run[1..] == r1;
    assert ValidRun(s1, r1) && HomeRun(s1, r1) && Exec(s1, r1) == s;
    t := Next(s, Return(7, 1));
  }
}

/** A pool in its imperative form, with the loops of `set_data` over the array. */
module FdPoolClass {
  import opened FdPoolModel

  class FixedFdPool {
    const data: array<int>
    const nullFds: seq<int>
    var free: seq<nat>
    var table: seq<int>

    ghost function View(): Pool
      reads this, data
    {
      Pool(data[..], free, nullFds, table)
    }

    /** The fd-table part of `uring_proxy::init`. */
    constructor (nullFds: seq<int>)
      ensures fresh(data) && View() == NewPool(nullFds)
    {
      this.nullFds := nullFds;
      data := new int[|nullFds|];
      free := [];
      table := [];
      new;
      SetData(nullFds);
      table := data[..];
    }

    /** `marked_buffer::set_data`. */
    method SetData(values: seq<int>)
      requires |values| == data.Length && free == []
      modifies this`free, data
      ensures data[..] == values && free == Indices(|values|)
    {
      for i := 0 to data.Length
        invariant free == Indices(i)
      {
        free := free + [i];
      }
      for i := 0 to data.Length
        invariant free == Indices(data.Length) && data[..i] == values[..i]
      {
        data[i] := values[i];
      }
      assert data[..] == data[..data.Length] && values == values[..data.Length];
    }

    /** `get_fixed_fd`. */
    method Borrow() returns (idx: int)
      modifies this`free
      ensures idx == Borrowed(old(View())) && View() == AfterBorrow(old(View()))
    {
      if free == [] {
        return INVALID;
      }
      idx := free[0];
      free := free[1..];
    }

    /** `fixed_fds::assign` for an item of this pool, called on the engine whose pool is `local`. */
    method Assign(local: FixedFdPool, idx: int, fd: int, fixed: bool) returns (fd': int, fixed': bool)
      requires idx < 0 || InRange(View(), idx)
      requires local != this ==> local.data != data
      modifies data, local`table
      ensures (fd', fixed') == if idx < 0 then (fd, fixed) else (idx, true)
      ensures idx < 0 ==> View() == old(View()) && local.View() == old(local.View())
      ensures idx >= 0 && local == this ==> View() == Register(Store(old(View()), idx, fd))
      ensures idx >= 0 && local != this ==>
                View() == Store(old(View()), idx, fd) && local.View() == Register(old(local.View()))
    {
      if idx < 0 {
        return fd, fixed;
      }
      data[idx] := fd;
      fd', fixed' := idx, true;
      local.table := local.data[..];
    }

    /** `back_fixed_fd`. */
    method Back(idx: int)
      requires idx < 0 || InRange(View(), idx)
      modifies this, data
      ensures View() == FdPoolModel.Back(old(View()), idx)
    {
      if idx >= 0 {
        data[idx] := nullFds[idx];
        table := data[..];
        free := free + [idx];
      }
    }
  }
}
