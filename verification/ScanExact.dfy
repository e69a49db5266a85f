/**
 Exactly which steps during a pass of the idle scan can lead to a wrong verdict.
 */
module ScanExactProofs {
  import C = ContextModel
  import P = ContextProofs
  import S = SystemModel
  import SP = SystemProofs
  import R = SettleProofs
  import opened IdleScanModel
  import opened IdleScanProofs

  ghost predicate AllInService(y: S.System) {
    forall j :: 0 <= j < |y| ==> R.InService(y[j])
  }

  /** With nothing more brought in behind it, the pass can still end with a wrong verdict. */
  ghost predicate CanEndWrong(w: World) {
    exists run :: ValidRun(w, run) && NothingBehind(w, run) && EndsWrong(Exec(w, run))
  }

  ghost predicate EndsWrong(w: World) {
    w.scan.AllIdle? && !AllDrained(w.contexts)
  }

  // ---------- Putting runs together ----------

  lemma {:induction false} Compose(w: World, first: seq<Action>, second: seq<Action>)
    requires ValidRun(w, first) && NothingBehind(w, first)
    requires ValidRun(Exec(w, first), second) && NothingBehind(Exec(w, first), second)
    ensures ValidRun(w, first + second) && NothingBehind(w, first + second)
    ensures Exec(w, first + second) == Exec(Exec(w, first), second)
    decreases |first|
  {
    if first == [] {
      assert first + second == second;
    } else {
      Compose(Next(w, first[0]), first[1..], second);
      assert (first + second)[1..] == first[1..] + second;
    }
  }

  /** A run of context j as a run of the world. */
  function Acts(j: nat, run: seq<C.Action>): seq<Action> {
    if run == [] then [] else [Run(S.On(j, run[0]))] + Acts(j, run[1..])
  }

  lemma {:induction false} ContextRun(w: World, j: nat, run: seq<C.Action>)
    requires j < |w.contexts| && C.ValidRun(w.contexts[j], run) && R.BringsNothing(run)
    ensures ValidRun(w, Acts(j, run)) && NothingBehind(w, Acts(j, run))
    ensures Exec(w, Acts(j, run)) == w.(contexts := w.contexts[j := C.Exec(w.contexts[j], run)])
    decreases |run|
  {
    if run == [] {
      assert w.contexts[j := w.contexts[j]] == w.contexts;
    } else {
      var a := Run(S.On(j, run[0]));
      ContextRun(Next(w, a), j, run[1..]);
      assert Acts(j, run)[1..] == Acts(j, run[1..]);
      var y, z := w.contexts, Next(w, a).contexts;
      assert z[j := C.Exec(z[j], run[1..])] == y[j := C.Exec(y[j], run)];
    }
  }

  // ---------- The contexts still to be read come to rest ----------

  /** From context k on all are at rest, and those before have not changed. */
  ghost predicate Settled(y: S.System, z: S.System, k: nat) {
    && |z| == |y|
    && (forall i :: 0 <= i < |y| && i < k ==> z[i] == y[i])
    && (forall i :: k <= i < |y| ==> R.AtRest(z[i]))
  }

  lemma {:induction false} SettleFrom(w: World, k: nat) returns (run: seq<Action>)
    requires k <= |w.contexts| && forall i :: k <= i < |w.contexts| ==> R.InService(w.contexts[i])
    ensures ValidRun(w, run) && NothingBehind(w, run)
    ensures Exec(w, run).scan == w.scan && Settled(w.contexts, Exec(w, run).contexts, k)
    decreases |w.contexts| - k
  {
    if k == |w.contexts| {
      run := [];
    } else {
      var own := R.CanComeToRest(w.contexts[k]);
      ContextRun(w, k, own);
      var v := Exec(w, Acts(k, own));
      var rest := SettleFrom(v, k + 1);
      Compose(w, Acts(k, own), rest);
      run := Acts(k, own) + rest;
    }
  }

  // ---------- The rest of the pass ----------

  /** Field `g` of the context being read comes at or after `f`. */
  predicate NotBefore(f: Field, g: Field) {
    match f
    case Flag => true
    case SubmitIo => !g.Flag?
    case RunningIo => !g.Flag? && !g.SubmitIo?
    case Queue => g.Queue? || g.Wait?
    case Wait => g.Wait?
  }

  /** Whatever is still to be read says idle. */
  ghost predicate RestLooksIdle(w: World) {
    && w.scan.At? && w.scan.ctx < |w.contexts|
    && (forall g: Field :: NotBefore(w.scan.field, g) ==> ReadsIdle(w.contexts[w.scan.ctx], g))
    && (forall j :: w.scan.ctx < j < |w.contexts| ==> R.AtRest(w.contexts[j]))
  }

  lemma {:induction false} IdleRestEnds(w: World)
    requires RestLooksIdle(w)
    ensures Exec(w, RestOfPass(w)) == w.(scan := AllIdle)
    decreases LoadsLeft(w)
  {
    var v := Next(w, Load);
    RestOfPassStep(w);
    assert ReadsIdle(w.contexts[w.scan.ctx], w.scan.field);
    if v.scan.At? {
      IdleRestEnds(v);
    } else {
      assert RestOfPass(v) == [];
    }
  }

  lemma {:induction false} LoadsBringNothing(w: World, run: seq<Action>)
    requires ValidRun(w, run) && forall k :: 0 <= k < |run| ==> run[k].Load?
    ensures NothingBehind(w, run)
    decreases |run|
  {
    if run != [] {
      LoadsBringNothing(Next(w, run[0]), run[1..]);
    }
  }

  /** Finishing the pass over contexts that look idle, with work left somewhere. */
  lemma PassEndsWrong(w: World, before: seq<Action>)
    requires ValidRun(w, before) && NothingBehind(w, before)
    requires RestLooksIdle(Exec(w, before)) && !AllDrained(Exec(w, before).contexts)
    ensures CanEndWrong(w)
  {
    var v := Exec(w, before);
    IdleRestEnds(v);
    LoadsBringNothing(v, RestOfPass(v));
    Compose(w, before, RestOfPass(v));
    assert EndsWrong(Exec(w, before + RestOfPass(v)));
  }

  // ---------- Work behind the scan is missed ----------

  /** A submission registered at a context already read. */
  lemma MissedSubmission(w: World, j: nat)
    requires w.scan.At? && j < w.scan.ctx < |w.contexts| && AllInService(w.contexts)
    requires w.contexts[j].tasks.waitCount > 0
    ensures CanEndWrong(w)
  {
    var run := SettleFrom(w, w.scan.ctx);
    var v := Exec(w, run);
    assert R.AtRest(v.contexts[w.scan.ctx]);
    assert !Drained(v.contexts[j]);
    PassEndsWrong(w, run);
  }

  /** An I/O issued on the context being read, whose I/O counters are not looked at again. */
  lemma MissedIo(w: World)
    requires w.scan.At? && w.scan.ctx < |w.contexts| && AllInService(w.contexts)
    requires w.contexts[w.scan.ctx].pc.Drain? && w.contexts[w.scan.ctx].io.submit > 0
    requires !w.scan.field.Flag? && !w.scan.field.SubmitIo?
    requires w.contexts[w.scan.ctx].io.running == 0
    ensures CanEndWrong(w)
  {
    var c := w.scan.ctx;
    var own := R.CanFinishTasks(w.contexts[c]);
    ContextRun(w, c, own);
    var u := Exec(w, Acts(c, own));
    var rest := SettleFrom(u, c + 1);
    Compose(w, Acts(c, own), rest);
    var v := Exec(w, Acts(c, own) + rest);
    assert v.contexts[c] == u.contexts[c];
    assert !Drained(v.contexts[c]);
    PassEndsWrong(w, Acts(c, own) + rest);
  }

  lemma StepKeepsService(y: S.System, a: S.Action)
    requires AllInService(y) && S.Enabled(y, a) && (a.On? ==> !a.act.RequestStop?)
    ensures AllInService(S.Next(y, a))
  {
    R.StaysInService(y[a.ctx], S.Step(a));
  }

  lemma BehindCanEndWrong(w: World, a: Action)
    requires Established(w) && AllInService(w.contexts) && Enabled(w, a) && Behind(w, a)
    ensures CanEndWrong(Next(w, a))
  {
    var v, j := Next(w, a), a.act.ctx;
    StepKeepsService(w.contexts, a.act);
    assert v.contexts[j] == C.Next(w.contexts[j], S.Step(a.act));
    if a.act.On? {
      MissedIo(v);
    } else {
      assert Drained(w.contexts[j]);
      assert v.contexts[j].tasks.waitCount > 0;
      if v.scan.At? {
        MissedSubmission(v, j);
      } else {
        assert !Drained(v.contexts[j]);
        assert Exec(v, []) == v && EndsWrong(Exec(v, []));
      }
    }
  }

  /**
   While contexts are in service, a step of theirs or of the scan opens the way to a wrong verdict,
   with nothing more brought in behind the scan, exactly when it brings work in behind it.
   */
  lemma {:induction false} WrongVerdictIff(w: World, a: Action)
    requires Established(w) && AllInService(w.contexts) && Enabled(w, a)
    ensures CanEndWrong(Next(w, a)) <==> Behind(w, a)
  {
    if Behind(w, a) {
      BehindCanEndWrong(w, a);
    } else {
      SpoilsIff(w, a);
      var v := Next(w, a);
      forall run | ValidRun(v, run) && NothingBehind(v, run) ensures !EndsWrong(Exec(v, run)) {
        ExecEstablished(v, run);
      }
    }
  }
}
