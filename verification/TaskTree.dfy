/**
 Nested tasks of `coro/task.hpp`. Awaiting a task stores the awaiting frame as its parent and
 transfers control to it; a task that finishes transfers control to its parent, or back to whoever
 resumed when it has none. A task that is already done is not entered again: its result is read.

 A coroutine body is a function: given how many instructions it has carried out and the results it
 has awaited so far, what it does next, so that every await, effect and loop may depend on earlier
 results. `Suspend` stands for any other awaitable: control goes back to the resumer, and the executor
 resumes the same frame later.
 */
module TaskModel {
  import opened Prelude

  type Id = nat

  datatype Instr = Emit(effect: int) | Await(child: Id) | Suspend | Return(value: int)

  type Code = (nat, seq<int>) -> Instr

  /** The coroutines of a program. */
  type Program = seq<Code>

  /** The instruction after the first `k` ones, with the results `got`. */
  function InstrAt(p: Program, id: Id, k: nat, got: seq<int>): Instr
    requires id < |p|
  {
    p[id](k, got)
  }

  /** How far a body is from its end. An ordinal, since how long a loop runs may depend on what was awaited. */
  datatype Height = Height(o: ORDINAL)

  type Rank = (Id, nat, seq<int>) -> Height

  predicate Goes(i: Instr) {
    i.Emit? || i.Suspend?
  }

  /** One instruction later the body is nearer to its end. */
  ghost predicate Nearer(rank: Rank, id: Id, k: nat, got: seq<int>, got': seq<int>) {
    rank(id, k + 1, got').o < rank(id, k, got).o
  }

  /** Every instruction that does not return brings a body nearer to its end, whatever an await yields. */
  ghost predicate Descends(p: Program, rank: Rank) {
    && (forall i, k, got :: 0 <= i < |p| && Goes(InstrAt(p, i, k, got)) ==> Nearer(rank, i, k, got, got))
    && (forall i, k, got, v :: 0 <= i < |p| && InstrAt(p, i, k, got).Await? ==> Nearer(rank, i, k, got, got + [v]))
  }

  /** A task awaits only tasks with smaller numbers, so that the awaits cannot form a cycle. */
  ghost predicate AwaitsDown(p: Program) {
    forall i, k, got :: 0 <= i < |p| && InstrAt(p, i, k, got).Await? ==> InstrAt(p, i, k, got).child < i
  }

  /** No cycle of awaits, and no body that goes on for ever. */
  ghost predicate Finite(p: Program) {
    AwaitsDown(p) && exists rank: Rank :: Descends(p, rank)
  }

  ghost function SomeRank(p: Program): (rank: Rank)
    requires Finite(p)
    ensures Descends(p, rank)
  {
    var rank: Rank :| Descends(p, rank);
    rank
  }

  /** How far the body of `id` is from its end at this point. */
  ghost function Left(p: Program, id: Id, k: nat, got: seq<int>): ORDINAL
    requires Finite(p)
  {
    SomeRank(p)(id, k, got).o
  }

  lemma LeftFalls(p: Program, id: Id, k: nat, got: seq<int>, v: int)
    requires Finite(p) && id < |p|
    ensures Goes(InstrAt(p, id, k, got)) ==> Left(p, id, k + 1, got) < Left(p, id, k, got)
    ensures InstrAt(p, id, k, got).Await? ==> Left(p, id, k + 1, got + [v]) < Left(p, id, k, got)
  {
    var rank := SomeRank(p);
    assert Goes(InstrAt(p, id, k, got)) ==> Nearer(rank, id, k, got, got);
    assert InstrAt(p, id, k, got).Await? ==> Nearer(rank, id, k, got, got + [v]);
  }

  /** `got` holds the results awaited so far, `parent` is `m_parent`, and `result` is set once the frame is done. */
  datatype Frame = Frame(pc: nat, got: seq<int>, parent: Option<Id>, result: Option<int>)

  /**
   `current` is the frame that runs and `suspended` one that waits for the executor; when both are
   absent, control is back with the resumer and nothing is pending. `log` is the effects in order.
   */
  datatype Machine = Machine(frames: seq<Frame>, current: Option<Id>, suspended: Option<Id>, log: seq<int>)

  const FRESH: Frame := Frame(0, [], None, None)

  /** `resume` on the root of a program that has not begun. */
  function Start(p: Program, root: Id): Machine {
    Machine(seq(|p|, _ => FRESH), Some(root), None, [])
  }

  ghost predicate Fits(p: Program, m: Machine) {
    && |m.frames| == |p|
    && (m.current.Some? ==> m.current.value < |p|)
  }

  predicate Halted(m: Machine) {
    m.current.None? && m.suspended.None?
  }

  /** The running frame, changed. */
  function Put(m: Machine, f: Frame): Machine
    requires m.current.Some? && m.current.value < |m.frames|
  {
    m.(frames := m.frames[m.current.value := f])
  }

  /** One step of the running frame; without one, the executor resumes the suspended frame. */
  ghost function Step(p: Program, m: Machine): Machine
    requires Finite(p) && Fits(p, m)
  {
    if m.current.None? then m.(current := m.suspended, suspended := None)
    else
      var i := m.current.value;
      var f := m.frames[i];
      match InstrAt(p, i, f.pc, f.got)
      case Return(v) => Put(m, f.(result := Some(v))).(current := f.parent)
      case Emit(x) => Put(m, f.(pc := f.pc + 1)).(log := m.log + [x])
      case Suspend => Put(m, f.(pc := f.pc + 1)).(current := None, suspended := Some(i))
      case Await(c) =>
        if m.frames[c].result.Some? then
          Put(m, f.(pc := f.pc + 1, got := f.got + [m.frames[c].result.value]))
        else
          m.(frames := m.frames[c := m.frames[c].(parent := Some(i))], current := Some(c))
  }

  // ---------- Direct calls ----------

  /** What a call yields: its value, its effects in order, and the tasks done by then with their results. */
  datatype Outcome = Outcome(value: int, effects: seq<int>, done: map<Id, int>)

  /** Depth-first evaluation; a task that is done already is not evaluated again. */
  ghost function Call(p: Program, id: Id, done: map<Id, int>): Outcome
    requires Finite(p) && id < |p|
    decreases id, 1
  {
    if id in done then Outcome(done[id], [], done)
    else Rest(p, id, 0, [], done)
  }

  /** The rest of the body of `id` after its first `k` instructions. */
  ghost function Rest(p: Program, id: Id, k: nat, got: seq<int>, done: map<Id, int>): Outcome
    requires Finite(p) && id < |p|
    decreases id, 0, Left(p, id, k, got)
  {
    assert InstrAt(p, id, k, got) == p[id](k, got);
    match p[id](k, got)
    case Return(v) => Outcome(v, [], done[id := v])
    case Emit(x) =>
      LeftFalls(p, id, k, got, 0);
      var r := Rest(p, id, k + 1, got, done);
      r.(effects := [x] + r.effects)
    case Suspend =>
      LeftFalls(p, id, k, got, 0);
      Rest(p, id, k + 1, got, done)
    case Await(c) =>
      var child := Call(p, c, done);
      LeftFalls(p, id, k, got, child.value);
      var r := Rest(p, id, k + 1, got + [child.value], child.done);
      r.(effects := child.effects + r.effects)
  }
}

module TaskProofs {
  import opened Prelude
  import opened TaskModel

  // ---------- Running ----------

  /** `m` becomes `m'` after `n` steps, all of them possible. */
  ghost predicate Runs(p: Program, m: Machine, n: nat, m': Machine)
    requires Finite(p)
    decreases n
  {
    if n == 0 then m == m' else Fits(p, m) && !Halted(m) && Runs(p, Step(p, m), n - 1, m')
  }

  lemma {:induction false} RunsCompose(p: Program, m: Machine, n: nat, m': Machine, k: nat, m'': Machine)
    requires Finite(p) && Runs(p, m, n, m') && Runs(p, m', k, m'')
    ensures Runs(p, m, n + k, m'')
    decreases n
  {
    if n > 0 {
      RunsCompose(p, Step(p, m), n - 1, m', k, m'');
    }
  }

  lemma OneStep(p: Program, m: Machine)
    requires Finite(p) && Fits(p, m) && !Halted(m)
    ensures Runs(p, m, 1, Step(p, m))
  {
    assert Runs(p, Step(p, m), 0, Step(p, m));
  }

  // ---------- The simulation ----------

  /** The frames below `id` are done with the recorded result or have not begun. */
  ghost predicate Below(m: Machine, id: Id, done: map<Id, int>) {
    && id <= |m.frames|
    && (forall c :: 0 <= c < id && c in done ==> m.frames[c].result == Some(done[c]))
    && (forall c :: 0 <= c < id && c !in done ==> m.frames[c] == FRESH)
  }

  /** `id` runs at instruction `k` with the results `got`, awaited by `parent`. */
  ghost predicate At(p: Program, m: Machine, id: Id, k: nat, got: seq<int>, parent: Option<Id>) {
    && |m.frames| == |p| && id < |p|
    && m.current == Some(id) && m.suspended.None?
    && m.frames[id] == Frame(k, got, parent, None)
  }

  /** From `m` to `m'` the body of `id` ran to its end as `r` says; frames above `id` did not change. */
  ghost predicate Completed(m: Machine, m': Machine, id: Id, parent: Option<Id>, r: Outcome) {
    && |m'.frames| == |m.frames| && id < |m.frames|
    && m'.current == parent && m'.suspended.None?
    && m'.log == m.log + r.effects
    && m'.frames[id].result == Some(r.value)
    && id in r.done && r.done[id] == r.value
    && Below(m', id, r.done)
    && (forall j :: id < j < |m.frames| ==> m'.frames[j] == m.frames[j])
  }

  /** Evaluation of `id` adds results only for tasks up to `id`. */
  lemma {:induction false} RestDone(p: Program, id: Id, k: nat, got: seq<int>, done: map<Id, int>)
    requires Finite(p) && id < |p|
    ensures var r := Rest(p, id, k, got, done);
            && (forall c :: c in done && c != id ==> c in r.done && r.done[c] == done[c])
            && (forall c :: c in r.done && c !in done ==> c <= id)
            && id in r.done && r.done[id] == r.value
    decreases id, Left(p, id, k, got)
  {
    match InstrAt(p, id, k, got)
    case Return(_) =>
    case Emit(_) =>
      LeftFalls(p, id, k, got, 0);
      RestDone(p, id, k + 1, got, done);
    case Suspend =>
      LeftFalls(p, id, k, got, 0);
      RestDone(p, id, k + 1, got, done);
    case Await(c) =>
      var child := Call(p, c, done);
      if c !in done { RestDone(p, c, 0, [], done); }
      LeftFalls(p, id, k, got, child.value);
      RestDone(p, id, k + 1, got + [child.value], child.done);
  }

  lemma ReturnStep(
    p: Program, m: Machine, id: Id, k: nat, got: seq<int>, parent: Option<Id>, done: map<Id, int>, v: int)
    requires Finite(p) && At(p, m, id, k, got, parent) && Below(m, id, done) && id !in done
    requires InstrAt(p, id, k, got) == Return(v)
    ensures Completed(m, Step(p, m), id, parent, Rest(p, id, k, got, done))
  {
    assert Rest(p, id, k, got, done) == Outcome(v, [], done[id := v]);
    assert m.log + [] == m.log;
  }

  /** Emitting, reading a finished child, or being suspended and resumed: on to the next instruction. */
  ghost predicate Advanced(m: Machine, m': Machine, id: Id, f: Frame, effects: seq<int>) {
    && id < |m.frames|
    && m' == m.(frames := m.frames[id := f], log := m.log + effects)
  }

  lemma EmitStep(p: Program, m: Machine, id: Id, k: nat, got: seq<int>, parent: Option<Id>)
    requires Finite(p) && At(p, m, id, k, got, parent) && InstrAt(p, id, k, got).Emit?
    ensures Advanced(m, Step(p, m), id, Frame(k + 1, got, parent, None), [InstrAt(p, id, k, got).effect])
  {
  }

  lemma SuspendSteps(p: Program, m: Machine, id: Id, k: nat, got: seq<int>, parent: Option<Id>) returns (m': Machine)
    requires Finite(p) && At(p, m, id, k, got, parent) && InstrAt(p, id, k, got).Suspend?
    ensures Runs(p, m, 2, m') && Advanced(m, m', id, Frame(k + 1, got, parent, None), [])
  {
    var m1 := Step(p, m);
    m' := Step(p, m1);
    OneStep(p, m1);
    assert Runs(p, m, 2, m');
    assert m.log + [] == m.log;
  }

  lemma ReadStep(p: Program, m: Machine, id: Id, k: nat, got: seq<int>, parent: Option<Id>, v: int)
    requires Finite(p) && At(p, m, id, k, got, parent) && InstrAt(p, id, k, got).Await?
    requires m.frames[InstrAt(p, id, k, got).child].result == Some(v)
    ensures Advanced(m, Step(p, m), id, Frame(k + 1, got + [v], parent, None), [])
  {
    assert m.log + [] == m.log;
  }

  /** Going on from a later instruction completes the whole. */
  lemma CompleteLater(
    m: Machine, m1: Machine, m': Machine, id: Id, parent: Option<Id>, f: Frame, effects: seq<int>, r: Outcome)
    requires Advanced(m, m1, id, f, effects) && Completed(m1, m', id, parent, r)
    ensures Completed(m, m', id, parent, r.(effects := effects + r.effects))
  {
    assert m.log + (effects + r.effects) == (m.log + effects) + r.effects;
  }

  /** Control transfers to a child that has not begun. */
  lemma EnterStep(p: Program, m: Machine, id: Id, k: nat, got: seq<int>, parent: Option<Id>, done: map<Id, int>)
    requires Finite(p) && At(p, m, id, k, got, parent) && InstrAt(p, id, k, got).Await?
    requires Below(m, id, done) && InstrAt(p, id, k, got).child !in done
    ensures var c := InstrAt(p, id, k, got).child;
            var m1 := Step(p, m);
            && c < id
            && At(p, m1, c, 0, [], Some(id)) && Below(m1, c, done)
            && m1.log == m.log
            && (forall j :: c < j < |m.frames| ==> m1.frames[j] == m.frames[j])
  {
  }

  /** After a child has completed, its parent is where it was, and reads the result. */
  lemma BackInParent(p: Program, m: Machine, m1: Machine, m2: Machine, id: Id, k: nat, got: seq<int>,
                     parent: Option<Id>, done: map<Id, int>, c: Id)
    requires Finite(p) && At(p, m, id, k, got, parent) && Below(m, id, done) && id !in done
    requires c < id && c !in done && |m1.frames| == |m.frames|
    requires forall j :: c < j < |m.frames| ==> m1.frames[j] == m.frames[j]
    requires Completed(m1, m2, c, Some(id), Call(p, c, done))
    ensures At(p, m2, id, k, got, parent)
    ensures Below(m2, id, Call(p, c, done).done) && id !in Call(p, c, done).done
  {
    RestDone(p, c, 0, [], done);
  }

  /** Runs from instruction `k` of `id` to its end, exactly as direct calls would. */
  lemma {:induction false} RunRest(p: Program, m: Machine, id: Id, k: nat, got: seq<int>, parent: Option<Id>,
                                   done: map<Id, int>) returns (n: nat, m': Machine)
    requires Finite(p) && At(p, m, id, k, got, parent) && Below(m, id, done) && id !in done
    ensures Runs(p, m, n, m') && Completed(m, m', id, parent, Rest(p, id, k, got, done))
    decreases id, Left(p, id, k, got), 3
  {
    match InstrAt(p, id, k, got)
    case Return(v) =>
      OneStep(p, m);
      ReturnStep(p, m, id, k, got, parent, done, v);
      n, m' := 1, Step(p, m);
    case Emit(x) =>
      OneStep(p, m);
      EmitStep(p, m, id, k, got, parent);
      LeftFalls(p, id, k, got, 0);
      n, m' := GoOn(p, m, 1, Step(p, m), id, k, got, [x], parent, done);
    case Suspend =>
      var m1 := SuspendSteps(p, m, id, k, got, parent);
      LeftFalls(p, id, k, got, 0);
      n, m' := GoOn(p, m, 2, m1, id, k, got, [], parent, done);
      assert [] + Rest(p, id, k + 1, got, done).effects == Rest(p, id, k + 1, got, done).effects;
    case Await(c) =>
      n, m' := RunAwait(p, m, id, k, got, parent, done);
  }

  lemma {:induction false} GoOn(p: Program, m: Machine, n1: nat, m1: Machine, id: Id, k: nat, got: seq<int>,
                                effects: seq<int>, parent: Option<Id>, done: map<Id, int>) returns (n: nat, m': Machine)
    requires Finite(p) && id < |p|
    requires |m.frames| == |p| && m.current == Some(id) && m.suspended.None? && Below(m, id, done) && id !in done
    requires Runs(p, m, n1, m1) && Advanced(m, m1, id, Frame(k + 1, got, parent, None), effects)
    ensures var r := Rest(p, id, k + 1, got, done);
            Runs(p, m, n, m') && Completed(m, m', id, parent, r.(effects := effects + r.effects))
    decreases id, Left(p, id, k + 1, got), 4
  {
    var n2;
    n2, m' := RunRest(p, m1, id, k + 1, got, parent, done);
    RunsCompose(p, m, n1, m1, n2, m');
    CompleteLater(m, m1, m', id, parent, Frame(k + 1, got, parent, None), effects, Rest(p, id, k + 1, got, done));
    n := n1 + n2;
  }

  /** Runs the awaited child to its end, unless it is done already, and is then back in the parent. */
  lemma {:induction false} RunChild(p: Program, m: Machine, id: Id, k: nat, got: seq<int>, parent: Option<Id>,
                                    done: map<Id, int>, c: Id) returns (n: nat, m': Machine)
    requires Finite(p) && At(p, m, id, k, got, parent) && Below(m, id, done) && id !in done
    requires InstrAt(p, id, k, got) == Await(c) && c < id
    ensures var child := Call(p, c, done);
            && Runs(p, m, n, m')
            && At(p, m', id, k, got, parent) && Below(m', id, child.done) && id !in child.done
            && m'.log == m.log + child.effects && m'.frames[c].result == Some(child.value)
            && (forall j :: id < j < |p| ==> m'.frames[j] == m.frames[j])
    decreases id, Left(p, id, k, got), 1
  {
    if c in done {
      n, m' := 0, m;
    } else {
      EnterStep(p, m, id, k, got, parent, done);
      OneStep(p, m);
      var n1;
      n1, m' := RunRest(p, Step(p, m), c, 0, [], Some(id), done);
      RunsCompose(p, m, 1, Step(p, m), n1, m');
      n := 1 + n1;
      BackInParent(p, m, Step(p, m), m', id, k, got, parent, done, c);
    }
  }

  /** Reads the result of a child that is done and runs on to the end. */
  lemma {:induction false} RunRead(p: Program, m: Machine, id: Id, k: nat, got: seq<int>, parent: Option<Id>,
                                   done: map<Id, int>, v: int) returns (n: nat, m': Machine)
    requires Finite(p) && At(p, m, id, k, got, parent) && Below(m, id, done) && id !in done
    requires InstrAt(p, id, k, got).Await? && m.frames[InstrAt(p, id, k, got).child].result == Some(v)
    ensures var r := Rest(p, id, k + 1, got + [v], done);
            Runs(p, m, n, m') && Completed(m, m', id, parent, r.(effects := [] + r.effects))
    decreases id, Left(p, id, k, got), 1
  {
    ReadStep(p, m, id, k, got, parent, v);
    OneStep(p, m);
    LeftFalls(p, id, k, got, v);
    n, m' := GoOn(p, m, 1, Step(p, m), id, k, got + [v], [], parent, done);
  }

  lemma {:induction false} RunAwait(p: Program, m: Machine, id: Id, k: nat, got: seq<int>, parent: Option<Id>,
                                    done: map<Id, int>) returns (n: nat, m': Machine)
    requires Finite(p) && At(p, m, id, k, got, parent) && Below(m, id, done) && id !in done
    requires InstrAt(p, id, k, got).Await?
    ensures Runs(p, m, n, m') && Completed(m, m', id, parent, Rest(p, id, k, got, done))
    decreases id, Left(p, id, k, got), 2
  {
    var c := InstrAt(p, id, k, got).child;
    var child := Call(p, c, done);
    var n2, m2 := RunChild(p, m, id, k, got, parent, done, c);
    var n3;
    n3, m' := RunRead(p, m2, id, k, got, parent, child.done, child.value);
    RunsCompose(p, m, n2, m2, n3, m');
    n := n2 + n3;
    AfterChild(m, m2, m', id, parent, child.effects, Rest(p, id, k + 1, got + [child.value], child.done));
  }

  /** What the child did comes before the rest of its parent. */
  lemma AfterChild(m: Machine, m2: Machine, m': Machine, id: Id, parent: Option<Id>, effects: seq<int>, r: Outcome)
    requires |m2.frames| == |m.frames| && m2.log == m.log + effects
    requires forall j :: id < j < |m.frames| ==> m2.frames[j] == m.frames[j]
    requires Completed(m2, m', id, parent, r.(effects := [] + r.effects))
    ensures Completed(m, m', id, parent, r.(effects := effects + r.effects))
  {
    assert m.log + (effects + r.effects) == (m.log + effects) + ([] + r.effects);
  }

  /**
   Resuming the root of any finite program comes to rest after finitely many steps, with the result
   and the effects, in order, of a depth-first evaluation by direct calls.
   */
  lemma RunsLikeDirectCalls(p: Program, root: Id) returns (n: nat, m: Machine)
    requires Finite(p) && root < |p|
    ensures Runs(p, Start(p, root), n, m) && Halted(m)
    ensures var r := Call(p, root, map[]);
            && |m.frames| == |p|
            && m.log == r.effects
            && m.frames[root].result == Some(r.value)
            && (forall c :: 0 <= c <= root ==> m.frames[c].result == if c in r.done then Some(r.done[c]) else None)
  {
    n, m := RunRest(p, Start(p, root), root, 0, [], None, map[]);
    var r := Call(p, root, map[]);
    assert [] + r.effects == r.effects;
  }

  // ---------- The stack of frames ----------

  /** Begun and not finished. */
  predicate Open(f: Frame, isRoot: bool) {
    f.result.None? && (isRoot || f.parent.Some?)
  }

  predicate Live(m: Machine, root: Id, i: Id) {
    i < |m.frames| && Open(m.frames[i], i == root)
  }

  /** The frame that runs or waits for the executor. */
  function Top(m: Machine): Option<Id> {
    if m.current.Some? then m.current else m.suspended
  }

  /** What frame `j` does next. */
  function NextInstr(p: Program, m: Machine, j: Id): Instr
    requires j < |p| == |m.frames|
  {
    InstrAt(p, j, m.frames[j].pc, m.frames[j].got)
  }

  /** `j` stands at an await of `c`. */
  ghost predicate Awaits(p: Program, m: Machine, j: Id, c: Id) {
    j < |p| == |m.frames| && NextInstr(p, m, j) == Await(c)
  }

  /** The parent of `i` is live, has a larger number and stands at the await of `i`. */
  ghost predicate Hangs(p: Program, m: Machine, root: Id, i: Id)
    requires i < |m.frames|
  {
    && m.frames[i].parent.Some?
    && var j := m.frames[i].parent.value;
       i < j < |m.frames| && Open(m.frames[j], j == root) && Awaits(p, m, j, i)
  }

  /** `j` awaits a live frame whose parent it is. */
  ghost predicate Carries(p: Program, m: Machine, root: Id, j: Id)
    requires j < |m.frames|
  {
    && |p| == |m.frames| && NextInstr(p, m, j).Await?
    && var c := NextInstr(p, m, j).child;
       c < j && Open(m.frames[c], c == root) && m.frames[c].parent == Some(j)
  }

  /**
   The live frames form one stack: the top is live; every other live frame carries exactly one live
   frame, the one it awaits; parents have larger numbers, so the links cannot form a cycle; and the
   frame at the bottom is the root.
   */
  ghost predicate Stack(p: Program, m: Machine, root: Id) {
    && |m.frames| == |p| && root < |p|
    && (m.current.None? || m.suspended.None?)
    && (Top(m).Some? ==> Live(m, root, Top(m).value))
    && (Top(m).None? ==> forall i :: 0 <= i < |p| ==> !Live(m, root, i))
    && m.frames[root].parent.None?
    && (forall i :: 0 <= i < |p| && i != root && Live(m, root, i) ==> Hangs(p, m, root, i))
    && (forall j :: 0 <= j < |p| && Live(m, root, j) && Top(m) != Some(j) ==> Carries(p, m, root, j))
  }

  lemma StartStack(p: Program, root: Id)
    requires root < |p|
    ensures Stack(p, Start(p, root), root)
  {
  }

  /** The top has the smallest number of all live frames. */
  lemma {:induction false} TopIsLeast(p: Program, m: Machine, root: Id, k: Id)
    requires Stack(p, m, root) && Live(m, root, k)
    ensures Top(m).Some? && Top(m).value <= k
    decreases k
  {
    if Top(m) != Some(k) {
      assert Carries(p, m, root, k);
      TopIsLeast(p, m, root, NextInstr(p, m, k).child);
    }
  }

  /** Above any live frame but the root, the root awaits something. */
  lemma {:induction false} RootAwaits(p: Program, m: Machine, root: Id, k: Id)
    requires Stack(p, m, root) && Live(m, root, k) && k != root
    ensures NextInstr(p, m, root).Await?
    decreases |p| - k
  {
    assert Hangs(p, m, root, k);
    if m.frames[k].parent.value != root {
      RootAwaits(p, m, root, m.frames[k].parent.value);
    }
  }

  /** The top `i` has changed to `f`, which neither finishes nor transfers. */
  ghost predicate Moved(p: Program, m: Machine, root: Id, i: Id, f: Frame, m': Machine) {
    && i < |m.frames| == |p| && Top(m) == Some(i) && Top(m') == Top(m)
    && f.parent == m.frames[i].parent && f.result.None?
    && m'.frames == m.frames[i := f]
    && !(NextInstr(p, m, i).Await? && Live(m, root, NextInstr(p, m, i).child))
  }

  lemma AdvanceFrame(p: Program, m: Machine, root: Id, i: Id, f: Frame, m': Machine, k: Id)
    requires Stack(p, m, root) && Moved(p, m, root, i, f, m') && k < |p|
    ensures Live(m', root, k) == Live(m, root, k)
    ensures k != root && Live(m', root, k) ==> Hangs(p, m', root, k)
    ensures Live(m', root, k) && k != i ==> Carries(p, m', root, k)
  {
    if k != root && Live(m, root, k) {
      assert Hangs(p, m, root, k);
    }
    if Live(m, root, k) && k != i {
      assert Carries(p, m, root, k);
    }
  }

  lemma AdvanceStack(p: Program, m: Machine, root: Id, i: Id, f: Frame, m': Machine)
    requires Stack(p, m, root) && Moved(p, m, root, i, f, m') && (m'.current.None? || m'.suspended.None?)
    ensures Stack(p, m', root)
  {
    forall k | 0 <= k < |p|
      ensures Live(m', root, k) == Live(m, root, k)
      ensures k != root && Live(m', root, k) ==> Hangs(p, m', root, k)
      ensures Live(m', root, k) && k != i ==> Carries(p, m', root, k)
    {
      AdvanceFrame(p, m, root, i, f, m', k);
    }
  }

  /** `i` has finished and control is back with its parent. */
  ghost predicate Returned(m: Machine, i: Id, v: int, m': Machine) {
    && i < |m.frames| && m.current == Some(i)
    && m' == m.(frames := m.frames[i := m.frames[i].(result := Some(v))], current := m.frames[i].parent)
  }

  lemma ReturnFrame(p: Program, m: Machine, root: Id, i: Id, v: int, m': Machine, k: Id)
    requires Stack(p, m, root) && i < |p| && NextInstr(p, m, i).Return? && i != root
    requires Returned(m, i, v, m') && k < |p|
    ensures Live(m', root, k) <==> Live(m, root, k) && k != i
    ensures k != root && Live(m', root, k) ==> Hangs(p, m', root, k)
    ensures Live(m', root, k) && Top(m') != Some(k) ==> Carries(p, m', root, k)
  {
    assert Hangs(p, m, root, i);
    if k != root && Live(m, root, k) {
      assert Hangs(p, m, root, k);
    }
    if Live(m, root, k) && k != i {
      assert Carries(p, m, root, k);
    }
  }

  lemma ReturnStack(p: Program, m: Machine, root: Id, i: Id, v: int, m': Machine)
    requires Stack(p, m, root) && i < |p| && NextInstr(p, m, i).Return? && i != root && Returned(m, i, v, m')
    ensures Stack(p, m', root)
  {
    assert Hangs(p, m, root, i);
    forall k | 0 <= k < |p|
      ensures Live(m', root, k) <==> Live(m, root, k) && k != i
      ensures k != root && Live(m', root, k) ==> Hangs(p, m', root, k)
      ensures Live(m', root, k) && Top(m') != Some(k) ==> Carries(p, m', root, k)
    {
      ReturnFrame(p, m, root, i, v, m', k);
    }
  }

  /** When the root finishes it is the only live frame. */
  lemma RootReturnStack(p: Program, m: Machine, root: Id, v: int, m': Machine)
    requires Stack(p, m, root) && m.current == Some(root) && NextInstr(p, m, root).Return?
    requires m' == m.(frames := m.frames[root := m.frames[root].(result := Some(v))], current := None)
    ensures Stack(p, m', root)
  {
    forall k | 0 <= k < |p| ensures !Live(m', root, k) {
      if Live(m, root, k) && k != root { RootAwaits(p, m, root, k); }
    }
  }

  /** `i` has transferred control to the child `c` it awaits. */
  ghost predicate Entered(p: Program, m: Machine, i: Id, c: Id, m': Machine) {
    && c < i < |m.frames| && m.current == Some(i) && Awaits(p, m, i, c) && m.frames[c].result.None?
    && m' == m.(frames := m.frames[c := m.frames[c].(parent := Some(i))], current := Some(c))
  }

  lemma EnterFrame(p: Program, m: Machine, root: Id, i: Id, c: Id, m': Machine, k: Id)
    requires Stack(p, m, root) && Entered(p, m, i, c, m') && !Live(m, root, c) && k < |p|
    ensures Live(m', root, k) <==> Live(m, root, k) || k == c
    ensures k != root && Live(m', root, k) ==> Hangs(p, m', root, k)
    ensures Live(m', root, k) && k != c ==> Carries(p, m', root, k)
  {
    if k != root && Live(m, root, k) {
      assert Hangs(p, m, root, k);
    }
    if Live(m, root, k) && k != i {
      assert Carries(p, m, root, k);
    }
  }

  lemma EnterStack(p: Program, m: Machine, root: Id, i: Id, c: Id, m': Machine)
    requires Stack(p, m, root) && Entered(p, m, i, c, m')
    ensures Stack(p, m', root)
  {
    if Live(m, root, c) { TopIsLeast(p, m, root, c); }
    forall k | 0 <= k < |p|
      ensures Live(m', root, k) <==> Live(m, root, k) || k == c
      ensures k != root && Live(m', root, k) ==> Hangs(p, m', root, k)
      ensures Live(m', root, k) && k != c ==> Carries(p, m', root, k)
    {
      EnterFrame(p, m, root, i, c, m', k);
    }
  }

  lemma ResumeStack(p: Program, m: Machine, root: Id, m': Machine)
    requires Stack(p, m, root) && m.current.None? && m' == m.(current := m.suspended, suspended := None)
    ensures Stack(p, m', root)
  {
    forall k | 0 <= k < |p| ensures Live(m', root, k) == Live(m, root, k) {}
    forall k | 0 <= k < |p| && k != root && Live(m', root, k) ensures Hangs(p, m', root, k) {
      assert Hangs(p, m, root, k);
    }
    forall k | 0 <= k < |p| && Live(m', root, k) && Top(m') != Some(k) ensures Carries(p, m', root, k) {
      assert Carries(p, m, root, k);
    }
  }

  lemma StepStack(p: Program, m: Machine, root: Id)
    requires Finite(p) && Stack(p, m, root) && !Halted(m)
    ensures Fits(p, m) && Stack(p, Step(p, m), root)
  {
    var m' := Step(p, m);
    if m.current.None? {
      ResumeStack(p, m, root, m');
    } else {
      var i := m.current.value;
      var f := m.frames[i];
      match NextInstr(p, m, i)
      case Return(v) =>
        if i == root { RootReturnStack(p, m, root, v, m'); } else { ReturnStack(p, m, root, i, v, m'); }
      case Emit(_) => AdvanceStack(p, m, root, i, f.(pc := f.pc + 1), m');
      case Suspend => AdvanceStack(p, m, root, i, f.(pc := f.pc + 1), m');
      case Await(c) =>
        if m.frames[c].result.Some? {
          AdvanceStack(p, m, root, i, f.(pc := f.pc + 1, got := f.got + [m.frames[c].result.value]), m');
        } else {
          EnterStack(p, m, root, i, c, m');
        }
    }
  }

  /** The stack holds at every point of the run, so a finished frame is never the one that runs or is resumed. */
  lemma {:induction false} StackAlways(p: Program, m: Machine, n: nat, m': Machine, root: Id)
    requires Finite(p) && Stack(p, m, root) && Runs(p, m, n, m')
    ensures Stack(p, m', root)
    ensures Top(m').Some? ==> m'.frames[Top(m').value].result.None?
    decreases n
  {
    if n > 0 {
      StepStack(p, m, root);
      StackAlways(p, Step(p, m), n - 1, m', root);
    }
  }

  /**
   At every point of a run from the first resume of the root, the parent links form one acyclic stack
   of unfinished frames.
   */
  lemma OneStack(p: Program, root: Id, n: nat, m: Machine)
    requires Finite(p) && root < |p| && Runs(p, Start(p, root), n, m)
    ensures Stack(p, m, root)
    ensures Top(m).Some? ==> m.frames[Top(m).value].result.None?
  {
    StartStack(p, root);
    StackAlways(p, Start(p, root), n, m, root);
  }

  ghost predicate NeverSuspends(p: Program) {
    forall i, k, got :: 0 <= i < |p| ==> !InstrAt(p, i, k, got).Suspend?
  }

  /**
   When no body waits for anything but tasks, the single resume of the root is enough: the executor
   is never needed.
   */
  lemma {:induction false} OneResumeIsEnough(p: Program, m: Machine, n: nat, m': Machine)
    requires Finite(p) && NeverSuspends(p) && m.suspended.None? && Runs(p, m, n, m')
    ensures m'.suspended.None?
    decreases n
  {
    if n > 0 {
      OneResumeIsEnough(p, Step(p, m), n - 1, m');
    }
  }
}

/** The frames and their driver in imperative form. */
module TaskClass {
  import opened Prelude
  import opened TaskModel
  import opened TaskProofs

  class TaskRuntime {
    const program: Program
    var frames: seq<Frame>
    var current: Option<Id>
    var suspended: Option<Id>
    var log: seq<int>

    ghost function View(): Machine
      reads this
    {
      Machine(frames, current, suspended, log)
    }

    constructor (program: Program, root: Id)
      ensures this.program == program && View() == Start(program, root)
    {
      this.program := program;
      frames := seq(|program|, _ => FRESH);
      current, suspended, log := Some(root), None, [];
    }

    /** One step: an instruction, a transfer of control, or a resumption by the executor. */
    method Advance()
      requires Finite(program) && Fits(program, View()) && !Halted(View())
      modifies this
      ensures View() == Step(program, old(View()))
    {
      if current.None? {
        current, suspended := suspended, None;
        return;
      }
      var i := current.value;
      var f := frames[i];
      match InstrAt(program, i, f.pc, f.got)
      case Return(v) =>
        frames := frames[i := f.(result := Some(v))];
        current := f.parent;
      case Emit(x) =>
        frames := frames[i := f.(pc := f.pc + 1)];
        log := log + [x];
      case Suspend =>
        frames := frames[i := f.(pc := f.pc + 1)];
        current, suspended := None, Some(i);
      case Await(c) =>
        if frames[c].result.Some? {
          frames := frames[i := f.(pc := f.pc + 1, got := f.got + [frames[c].result.value])];
        } else {
          frames := frames[c := frames[c].(parent := Some(i))];
          current := Some(c);
        }
    }

    /** From the first resume of the root until nothing is left to do. */
    method RunAll(root: Id)
      requires Finite(program) && root < |program| && View() == Start(program, root)
      modifies this
      ensures Halted(View())
      ensures log == Call(program, root, map[]).effects
      ensures |frames| == |program| && frames[root].result == Some(Call(program, root, map[]).value)
    {
      ghost var n, final := RunsLikeDirectCalls(program, root);
      while current.Some? || suspended.Some?
        invariant Runs(program, View(), n, final)
        decreases n
      {
        Advance();
        n := n - 1;
      }
    }
  }
}
