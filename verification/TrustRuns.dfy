/** Whom the daemon trusts, over whole runs, and what a revoked key can still do. */
module TrustRuns {
  import opened Prelude
  import opened Lifecycle
  import opened Attest
  import opened Control
  import opened World
  import opened Verification
  import opened VerdictRuns

  /** A handler adds the key, or a daemon boots with it as its own. */
  ghost predicate Adds(w: World, step: Step, key: Builder) {
    Enabled(w, step) && (step == Boot(Some(key)) || (step.Exec? && w.tasks[step.task][0] == AddTrust(key)))
  }

  ghost predicate Drops(w: World, step: Step, key: Builder) {
    step.Exec? && Enabled(w, step) && w.tasks[step.task][0] == DropTrust(key)
  }

  /** Step `j` added the key and nothing has dropped it since. */
  ghost predicate AddedAt(env: Env, w: World, steps: seq<Step>, key: Builder, j: nat) {
    && j < |steps| && Adds(Run(env, w, steps[..j]), steps[j], key)
    && forall i :: j < i < |steps| ==> !Drops(Run(env, w, steps[..i]), steps[i], key)
  }

  ghost predicate NeverDropped(env: Env, w: World, steps: seq<Step>, key: Builder) {
    forall i :: 0 <= i < |steps| ==> !Drops(Run(env, w, steps[..i]), steps[i], key)
  }

  /** Its standing as the steps taken so far tell it. */
  ghost predicate InTrust(env: Env, w: World, steps: seq<Step>, key: Builder) {
    (exists j: nat :: AddedAt(env, w, steps, key, j)) || (key in w.reg.trusted && NeverDropped(env, w, steps, key))
  }

  lemma TrustStep(env: Env, w: World, step: Step, key: Builder)
    ensures key in Next(env, w, step).reg.trusted
            <==> Adds(w, step, key) || (key in w.reg.trusted && !Drops(w, step, key))
  {
  }

  lemma InTrustStep(env: Env, w: World, steps: seq<Step>, key: Builder)
    requires steps != []
    ensures var front, last := steps[..|steps| - 1], steps[|steps| - 1];
            InTrust(env, w, steps, key)
            <==> Adds(Run(env, w, front), last, key)
                 || (InTrust(env, w, front, key) && !Drops(Run(env, w, front), last, key))
  {
    hide Run, Adds, Drops;
    var front, last := steps[..|steps| - 1], steps[|steps| - 1];
    assert forall i :: 0 <= i <= |front| ==> front[..i] == steps[..i];
    assert front[..|front|] == front == steps[..|front|];
    if exists j: nat :: AddedAt(env, w, steps, key, j) {
      var j: nat :| AddedAt(env, w, steps, key, j);
      if j < |front| { assert AddedAt(env, w, front, key, j); }
    }
    if Adds(Run(env, w, front), last, key) { assert AddedAt(env, w, steps, key, |front|); }
    if !Drops(Run(env, w, front), last, key) && exists j: nat :: AddedAt(env, w, front, key, j) {
      var j: nat :| AddedAt(env, w, front, key, j);
      assert AddedAt(env, w, steps, key, j);
    }
  }

  /** In every run a key is trusted exactly when it was added, or was there from the start, and has
      not been dropped since. */
  lemma {:induction false} TrustedIff(env: Env, w: World, steps: seq<Step>, key: Builder)
    ensures key in Run(env, w, steps).reg.trusted <==> InTrust(env, w, steps, key)
  {
    if steps == [] {
      assert NeverDropped(env, w, [], key);
    } else {
      var front, last := steps[..|steps| - 1], steps[|steps| - 1];
      TrustedIff(env, w, front, key);
      TrustStep(env, Run(env, w, front), last, key);
      InTrustStep(env, w, steps, key);
    }
  }

  // ---------- what an assessment goes by ----------

  /** At step `j` a deploy was assessed. */
  ghost predicate AssessedAt(env: Env, w: World, steps: seq<Step>, j: nat, rec: Record, carried: Carried) {
    j < |steps| && Performs(Run(env, w, steps[..j]), steps[j], AssessOp(rec, carried))
  }

  /** An assessment leaves a verdict to record, judged by the trust of that moment. */
  lemma {:induction false} AssessmentJudges(env: Env, w: World, steps: seq<Step>, step: Step, rec: Record,
                                            carried: Carried)
    requires Performs(Run(env, w, steps), step, AssessOp(rec, carried))
    ensures var tasks := Next(env, Run(env, w, steps), step).tasks;
            && step.task < |tasks| && tasks[step.task] != [] && tasks[step.task][0].SetVerdict?
            && var op := tasks[step.task][0];
               && op.artifact == rec.artifact
               && (op.verdict.Drift? <==> Tampered(env.valid, carried, rec.artifact, rec.kernel))
               && (op.verdict.Verified? <==>
                     && carried.Carried? && env.valid(carried.att)
                     && carried.att.payload.artifactHash == rec.artifact && carried.att.payload.kernelHash == rec.kernel
                     && InTrust(env, w, steps, carried.att.payload.builder))
               && SignedBy(env.valid, carried, op.builder)
  {
    hide Run;
    var w1 := Run(env, w, steps);
    VerdictTable(env.valid, carried, rec.artifact, rec.kernel, w1.reg.trusted);
    if carried.Carried? { TrustedIff(env, w, steps, carried.att.payload.builder); }
  }

  /** Dropped at step `d` and not added since. */
  ghost predicate RevokedAt(env: Env, w: World, steps: seq<Step>, key: Builder, d: nat) {
    && d < |steps| && Drops(Run(env, w, steps[..d]), steps[d], key)
    && forall i :: d < i < |steps| ==> !Adds(Run(env, w, steps[..i]), steps[i], key)
  }

  lemma RevokedOutOfTrust(env: Env, w: World, steps: seq<Step>, key: Builder, d: nat)
    requires RevokedAt(env, w, steps, key, d)
    ensures !InTrust(env, w, steps, key)
  {
    hide Run;
    if j: nat :| AddedAt(env, w, steps, key, j) {
      assert j <= d;
      if j == d { NotBoth(Run(env, w, steps[..d]), steps[d], key); }
    }
  }

  lemma NotBoth(w: World, step: Step, key: Builder)
    ensures !(Adds(w, step, key) && Drops(w, step, key))
  {
  }

  /** A deploy assessed after its builder's key was dropped, and not added again, is not found
      verified. */
  lemma {:induction false} RevokedIsNotVerified(env: Env, w: World, steps: seq<Step>, step: Step, rec: Record,
                                                att: Attestation, d: nat)
    requires RevokedAt(env, w, steps, att.payload.builder, d)
    requires Performs(Run(env, w, steps), step, AssessOp(rec, Carried.Carried(att)))
    ensures var tasks := Next(env, Run(env, w, steps), step).tasks;
            && step.task < |tasks| && tasks[step.task] != [] && tasks[step.task][0].SetVerdict?
            && tasks[step.task][0].artifact == rec.artifact && !tasks[step.task][0].verdict.Verified?
  {
    AssessmentJudges(env, w, steps, step, rec, Carried.Carried(att));
    RevokedOutOfTrust(env, w, steps, att.payload.builder, d);
  }

  // ---------- and what a row that reads "verified" goes back to ----------

  ghost predicate Recorded(env: Env, w: World, steps: seq<Step>, a: Assessment, j: nat) {
    AssessedAt(env, w, steps, j, a.rec, a.carried) && a.trusted == Run(env, w, steps[..j]).reg.trusted
  }

  lemma AssessedStep(env: Env, w: World, step: Step)
    ensures var next := Next(env, w, step).assessed;
            || next == w.assessed
            || (step.Exec? && Enabled(w, step) && w.tasks[step.task][0].AssessOp?
                && var op := w.tasks[step.task][0];
                   next == w.assessed + [Assessment(op.rec, op.carried, w.reg.trusted)])
  {
  }

  lemma {:induction false} AssessedOnce(env: Env, w: World, steps: seq<Step>, k: nat)
    requires Init(w) && k < |Run(env, w, steps).assessed|
    ensures exists j: nat :: Recorded(env, w, steps, Run(env, w, steps).assessed[k], j)
  {
    hide Next;
    var front, last := steps[..|steps| - 1], steps[|steps| - 1];
    var w1 := Run(env, w, front);
    assert forall i :: 0 <= i <= |front| ==> front[..i] == steps[..i];
    assert steps[..|front|] == front;
    AssessedStep(env, w1, last);
    var a := Run(env, w, steps).assessed[k];
    if k < |w1.assessed| {
      AssessedOnce(env, w, front, k);
      var j: nat :| Recorded(env, w, front, a, j);
      assert Recorded(env, w, steps, a, j);
    } else {
      assert Recorded(env, w, steps, a, |front|);
    }
  }

  /** Step `j` assessed a deploy of `h` whose attestation was validly signed, named both its hashes
      and was by a key trusted at that moment. */
  ghost predicate VouchedAt(env: Env, w: World, steps: seq<Step>, h: Hash, j: nat) {
    && j < |steps| && steps[j].Exec? && Enabled(Run(env, w, steps[..j]), steps[j])
    && var op := Run(env, w, steps[..j]).tasks[steps[j].task][0];
       && op.AssessOp? && op.rec.artifact == h && op.carried.Carried? && env.valid(op.carried.att)
       && op.carried.att.payload.artifactHash == h && op.carried.att.payload.kernelHash == op.rec.kernel
       && InTrust(env, w, steps[..j], op.carried.att.payload.builder)
  }

  /** In every run a row reads "verified" only if such a deploy was assessed before. */
  lemma {:induction false} VerifiedWasTrusted(env: Env, w: World, steps: seq<Step>, h: Hash)
    requires Init(w) && ReadsVerified(Run(env, w, steps).reg, h)
    ensures exists j: nat :: VouchedAt(env, w, steps, h, j)
  {
    VerifiedIsJustified(env, w, steps, h);
    var w' := Run(env, w, steps);
    var k :| 0 <= k < |w'.assessed| && Vouches(env, w'.assessed[k], h);
    AssessedOnce(env, w, steps, k);
    var j: nat :| Recorded(env, w, steps, w'.assessed[k], j);
    TrustedIff(env, w, steps[..j], w'.assessed[k].carried.att.payload.builder);
    assert VouchedAt(env, w, steps, h, j);
  }

  /** So a hash deployed only after a key was dropped, and only on that key's signature, does not
      read "verified" until the key is added again. */
  lemma {:induction false} RevokedNeverReads(env: Env, w: World, steps: seq<Step>, key: Builder, d: nat, h: Hash)
    requires Init(w) && RevokedAt(env, w, steps, key, d)
    requires forall j: nat, rec, carried ::
               AssessedAt(env, w, steps, j, rec, carried) && rec.artifact == h ==>
                 j > d && (carried.Carried? ==> carried.att.payload.builder == key)
    ensures !ReadsVerified(Run(env, w, steps).reg, h)
  {
    hide Run;
    if ReadsVerified(Run(env, w, steps).reg, h) {
      VerifiedWasTrusted(env, w, steps, h);
      var j: nat :| VouchedAt(env, w, steps, h, j);
      var op := Run(env, w, steps[..j]).tasks[steps[j].task][0];
      assert AssessedAt(env, w, steps, j, op.rec, op.carried);
      assert forall i :: 0 <= i < j ==> steps[..j][..i] == steps[..i];
      assert RevokedAt(env, w, steps[..j], key, d);
      RevokedOutOfTrust(env, w, steps[..j], key, d);
    }
  }
}
