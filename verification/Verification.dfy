/** What "verified" on an artifact row is worth, under every interleaving of deploys. */
module Verification {
  import opened Prelude
  import opened Lifecycle
  import opened Attest
  import opened Control
  import opened World

  /** Some deploy of `h` carried a validly signed attestation binding its two hashes, by a
      builder the daemon trusted when it looked. */
  predicate Justified(env: Env, assessed: seq<Assessment>, h: Hash) {
    exists k :: 0 <= k < |assessed| && Vouches(env, assessed[k], h)
  }

  predicate Vouches(env: Env, a: Assessment, h: Hash) {
    a.rec.artifact == h && Evidence(env.valid, a.carried, h, a.rec.kernel, a.trusted)
  }

  predicate VouchedOp(env: Env, assessed: seq<Assessment>, op: Op) {
    op.SetVerdict? && op.verdict.Verified? ==> Justified(env, assessed, op.artifact)
  }

  predicate VouchedProgram(env: Env, assessed: seq<Assessment>, prog: Program) {
    forall j :: 0 <= j < |prog| ==> VouchedOp(env, assessed, prog[j])
  }

  predicate VouchedRows(env: Env, assessed: seq<Assessment>, reg: RegState) {
    forall h :: h in reg.artifacts && reg.artifacts[h].verdict == Some(Verified) ==> Justified(env, assessed, h)
  }

  predicate VouchedInv(env: Env, w: World) {
    && VouchedRows(env, w.assessed, w.reg)
    && forall k :: 0 <= k < |w.tasks| ==> VouchedProgram(env, w.assessed, w.tasks[k])
  }

  lemma JustifiedGrows(env: Env, assessed: seq<Assessment>, more: seq<Assessment>, h: Hash)
    requires Justified(env, assessed, h)
    ensures Justified(env, assessed + more, h)
  {
    var k :| 0 <= k < |assessed| && Vouches(env, assessed[k], h);
    assert Vouches(env, (assessed + more)[k], h);
  }

  lemma ProgramGrows(env: Env, assessed: seq<Assessment>, more: seq<Assessment>, prog: Program)
    requires VouchedProgram(env, assessed, prog)
    ensures VouchedProgram(env, assessed + more, prog)
  {
    forall j | 0 <= j < |prog| ensures VouchedOp(env, assessed + more, prog[j]) {
      assert VouchedOp(env, assessed, prog[j]);
      if prog[j].SetVerdict? && prog[j].verdict.Verified? { JustifiedGrows(env, assessed, more, prog[j].artifact); }
    }
  }

  lemma ContinueVouched(env: Env, w: World, op: Op, rest: Program, listing: seq<Name>)
    requires VouchedProgram(env, w.assessed, rest) && !op.AssessOp?
    ensures VouchedProgram(env, w.assessed, Continue(env, w.reg, w.store, op, rest, listing))
  {
    if op.ReadFleet? { FleetOnlyDesires(w.reg.apps, listing, op.desired); }
  }

  /** Assessing pushes a verdict and leaves the evidence for it. */
  lemma AssessVouched(env: Env, w: World, op: Op, rest: Program, listing: seq<Name>)
    requires VouchedProgram(env, w.assessed, rest) && op.AssessOp?
    ensures VouchedProgram(env, w.assessed + [Assessment(op.rec, op.carried, w.reg.trusted)],
                           Continue(env, w.reg, w.store, op, rest, listing))
  {
    var a := Assessment(op.rec, op.carried, w.reg.trusted);
    var assessed' := w.assessed + [a];
    var prog := Continue(env, w.reg, w.store, op, rest, listing);
    ProgramGrows(env, w.assessed, [a], rest);
    VerifiedIffEvidence(env.valid, op.carried, op.rec.artifact, op.rec.kernel, w.reg.trusted);
    assert prog[1..] == rest;
    forall j | 0 <= j < |prog| ensures VouchedOp(env, assessed', prog[j]) {
      if j == 0 {
        assert Vouches(env, assessed'[|w.assessed|], op.rec.artifact) || !prog[0].verdict.Verified?;
      } else {
        assert prog[j] == rest[j - 1];
      }
    }
  }

  lemma RowsKeep(env: Env, w: World, op: Op)
    requires VouchedRows(env, w.assessed, w.reg) && VouchedOp(env, w.assessed, op)
    ensures VouchedRows(env, w.assessed, ApplyReg(w.reg, op))
  {
  }

  lemma RowsGrow(env: Env, assessed: seq<Assessment>, more: seq<Assessment>, reg: RegState)
    requires VouchedRows(env, assessed, reg)
    ensures VouchedRows(env, assessed + more, reg)
  {
    forall h | h in reg.artifacts && reg.artifacts[h].verdict == Some(Verified)
      ensures Justified(env, assessed + more, h)
    {
      JustifiedGrows(env, assessed, more, h);
    }
  }

  lemma ExecVouched(env: Env, w: World, task: nat, luck: Name -> Luck, listing: seq<Name>)
    requires VouchedInv(env, w) && Enabled(w, Exec(task, luck, listing))
    ensures VouchedInv(env, Next(env, w, Exec(task, luck, listing)))
  {
    var step := Exec(task, luck, listing);
    var w' := Next(env, w, step);
    var op, rest := w.tasks[task][0], w.tasks[task][1..];
    assert VouchedProgram(env, w.assessed, w.tasks[task]) && VouchedOp(env, w.assessed, w.tasks[task][0]);
    assert VouchedProgram(env, w.assessed, rest) by {
      forall j | 0 <= j < |rest| ensures VouchedOp(env, w.assessed, rest[j]) {
        assert rest[j] == w.tasks[task][j + 1];
      }
    }
    var more := if op.AssessOp? then [Assessment(op.rec, op.carried, w.reg.trusted)] else [];
    assert w'.assessed == w.assessed + more;
    RowsKeep(env, w, op);
    RowsGrow(env, w.assessed, more, w'.reg);
    if op.AssessOp? { AssessVouched(env, w, op, rest, listing); } else { ContinueVouched(env, w, op, rest, listing); }
    forall k | 0 <= k < |w'.tasks| ensures VouchedProgram(env, w'.assessed, w'.tasks[k]) {
      if k != task { ProgramGrows(env, w.assessed, more, w.tasks[k]); }
    }
  }

  lemma {:induction false} RunVouched(env: Env, w: World, steps: seq<Step>)
    requires Init(w)
    ensures VouchedInv(env, Run(env, w, steps))
  {
    if steps != [] {
      RunVouched(env, w, steps[..|steps| - 1]);
      var w1, step := Run(env, w, steps[..|steps| - 1]), steps[|steps| - 1];
      if Enabled(w1, step) && step.Exec? {
        ExecVouched(env, w1, step.task, step.luck, step.listing);
      }
    }
  }

  /** In every run an artifact row reads "verified" only with evidence behind it. */
  lemma VerifiedIsJustified(env: Env, w: World, steps: seq<Step>, h: Hash)
    requires Init(w)
    requires h in Run(env, w, steps).reg.artifacts && Run(env, w, steps).reg.artifacts[h].verdict == Some(Verified)
    ensures exists k :: 0 <= k < |Run(env, w, steps).assessed| && Vouches(env, Run(env, w, steps).assessed[k], h)
  {
    RunVouched(env, w, steps);
    assert Justified(env, Run(env, w, steps).assessed, h);
  }
}
