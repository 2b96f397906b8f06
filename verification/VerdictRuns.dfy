/** Verdicts under every interleaving: when exactly the verdict a deploy records is what its
    artifact row reads. */
module VerdictRuns {
  import opened Prelude
  import opened Lifecycle
  import opened CellInvariant
  import opened Attest
  import opened Control
  import opened World
  import opened Atomic
  import opened WholeHandlers
  import opened Stages

  /** One statement: a verdict lands exactly when it does not come to downgrade "verified". */
  lemma VerdictLandsIff(reg: RegState, h: Hash, v: Verdict, b: Option<Builder>)
    requires h in reg.artifacts
    ensures SetVerification(reg, h, v, b).artifacts[h].verdict == Some(v)
            <==> !(reg.artifacts[h].verdict == Some(Verified) && v != Verified)
  {
  }

  // ---------- a verdict is recorded only for a row that is there ----------

  predicate RowsThere(prog: Program, rows: set<Hash>) {
    prog != [] ==>
      match prog[0]
      case PutRow(rec) => RowsThere(prog[1..], rows + {rec.artifact})
      case AssessOp(rec, _) => rec.artifact in rows && RowsThere(prog[1..], rows)
      case SetVerdict(h, _, _) => h in rows && RowsThere(prog[1..], rows)
      case _ => RowsThere(prog[1..], rows)
  }

  lemma {:induction false} RowsGrow(prog: Program, rows: set<Hash>, rows': set<Hash>)
    requires RowsThere(prog, rows) && rows <= rows'
    ensures RowsThere(prog, rows')
  {
    if prog != [] {
      if prog[0].PutRow? {
        RowsGrow(prog[1..], rows + {prog[0].rec.artifact}, rows' + {prog[0].rec.artifact});
      } else {
        RowsGrow(prog[1..], rows, rows');
      }
    }
  }

  predicate VerdictFree(op: Op) { !op.AssessOp? && !op.SetVerdict? }

  lemma {:induction false} FreePrefix(prefix: Program, rest: Program, rows: set<Hash>)
    requires forall k :: 0 <= k < |prefix| ==> VerdictFree(prefix[k])
    requires RowsThere(rest, rows)
    ensures RowsThere(prefix + rest, rows)
    decreases |prefix|
  {
    if prefix == [] {
      assert prefix + rest == rest;
    } else {
      assert (prefix + rest)[1..] == prefix[1..] + rest;
      if prefix[0].PutRow? {
        RowsGrow(rest, rows, rows + {prefix[0].rec.artifact});
        FreePrefix(prefix[1..], rest, rows + {prefix[0].rec.artifact});
      } else {
        FreePrefix(prefix[1..], rest, rows);
      }
    }
  }

  lemma FreeRows(prog: Program, rows: set<Hash>)
    requires forall k :: 0 <= k < |prog| ==> VerdictFree(prog[k])
    ensures RowsThere(prog, rows)
  {
    FreePrefix(prog, [], rows);
    assert prog + [] == prog;
  }

  lemma RequestRows(env: Env, r: Request, rows: set<Hash>)
    ensures RowsThere(ProgramOf(env, r), rows)
  {
    if r.Deploy? {
      var p, h := DeployProgram(env, r.req), RecordOf(env, r.req).artifact;
      FreeRows(p[3..], rows + {h});
      assert p[2..][1..] == p[3..] && RowsThere(p[2..], rows + {h});
      assert p[1..][1..] == p[2..] && RowsThere(p[1..], rows);
    } else {
      FreeRows(ProgramOf(env, r), rows);
    }
  }

  lemma ContinueRows(env: Env, reg: RegState, store: StoreState, op: Op, rest: Program, listing: seq<Name>)
    requires RowsThere([op] + rest, reg.artifacts.Keys)
    ensures RowsThere(Continue(env, reg, store, op, rest, listing), ApplyReg(reg, op).artifacts.Keys)
  {
    var rows, rows' := reg.artifacts.Keys, ApplyReg(reg, op).artifacts.Keys;
    assert ([op] + rest)[1..] == rest;
    if op.PutRow? {
      assert rows' == rows + {op.rec.artifact};
    } else if op.AssessOp? {
      var v := AssessCarried(env.valid, op.carried, op.rec.artifact, op.rec.kernel, reg.trusted);
      var next := [SetVerdict(op.rec.artifact, v.0, v.1)] + rest;
      assert next[1..] == rest;
    } else if op.PutFiles? {
      var files := FilesToPut(store, op.rec, op.jam, op.bin);
      FreePrefix(files, rest, rows);
    } else if op.ReadFleet? || op.RequireManifest? || op.ReadForRollback? || op.PickPrevious? {
      FleetOnlyDesires(reg.apps, listing, if op.ReadFleet? then op.desired else WantRunning);
      FreeRows(Continue(env, reg, store, op, rest, listing), rows);
    } else {
      RowsGrow(rest, rows, rows');
    }
  }

  ghost predicate AllRows(w: World) {
    forall k :: 0 <= k < |w.tasks| ==> RowsThere(w.tasks[k], w.reg.artifacts.Keys)
  }

  lemma RowsStep(env: Env, w: World, step: Step)
    requires AllRows(w)
    ensures AllRows(Next(env, w, step))
  {
    if Enabled(w, step) {
      if step.Submit? {
        RequestRows(env, step.request, w.reg.artifacts.Keys);
      } else if step.Exec? {
        ExecRows(env, w, step);
      }
    }
  }

  lemma ExecRows(env: Env, w: World, step: Step)
    requires AllRows(w) && step.Exec? && Enabled(w, step)
    ensures AllRows(Next(env, w, step))
  {
    var op, rest := w.tasks[step.task][0], w.tasks[step.task][1..];
    assert w.tasks[step.task] == [op] + rest;
    ContinueRows(env, w.reg, w.store, op, rest, step.listing);
    var w' := Next(env, w, step);
    forall k | 0 <= k < |w'.tasks| ensures RowsThere(w'.tasks[k], w'.reg.artifacts.Keys) {
      if k != step.task { RowsGrow(w.tasks[k], w.reg.artifacts.Keys, w'.reg.artifacts.Keys); }
    }
  }

  lemma {:induction false} RunRows(env: Env, w: World, steps: seq<Step>)
    requires Init(w)
    ensures AllRows(Run(env, w, steps))
  {
    if steps != [] {
      RunRows(env, w, steps[..|steps| - 1]);
      RowsStep(env, Run(env, w, steps[..|steps| - 1]), steps[|steps| - 1]);
    }
  }

  // ---------- what a row reads ----------

  /** The step performs `op`. */
  ghost predicate Performs(w: World, step: Step, op: Op) {
    step.Exec? && Enabled(w, step) && w.tasks[step.task][0] == op
  }

  ghost predicate Verifies(w: World, step: Step, h: Hash) {
    step.Exec? && Enabled(w, step) && w.tasks[step.task][0].SetVerdict?
    && w.tasks[step.task][0].artifact == h && w.tasks[step.task][0].verdict.Verified?
  }

  ghost predicate Replaces(w: World, step: Step, h: Hash) {
    step.Exec? && Enabled(w, step) && w.tasks[step.task][0].PutRow? && w.tasks[step.task][0].rec.artifact == h
  }

  /** Since the row of `h` was last put, some deploy recorded "verified". */
  ghost predicate VerifiedSincePut(env: Env, w: World, steps: seq<Step>, h: Hash) {
    exists j: nat :: VerifiedAt(env, w, steps, h, j)
  }

  ghost predicate VerifiedAt(env: Env, w: World, steps: seq<Step>, h: Hash, j: nat) {
    && j < |steps| && Verifies(Run(env, w, steps[..j]), steps[j], h)
    && forall i :: j < i < |steps| ==> !Replaces(Run(env, w, steps[..i]), steps[i], h)
  }

  predicate ReadsVerified(reg: RegState, h: Hash) { h in reg.artifacts && reg.artifacts[h].verdict == Some(Verified) }

  lemma RowStep(env: Env, w: World, step: Step, h: Hash)
    requires AllRows(w)
    ensures ReadsVerified(Next(env, w, step).reg, h)
            <==> Verifies(w, step, h) || (ReadsVerified(w.reg, h) && !Replaces(w, step, h))
  {
    if step.Exec? && Enabled(w, step) {
      assert RowsThere(w.tasks[step.task], w.reg.artifacts.Keys);
    }
  }

  lemma SinceStep(env: Env, w: World, steps: seq<Step>, h: Hash)
    requires steps != []
    ensures var front, last := steps[..|steps| - 1], steps[|steps| - 1];
            VerifiedSincePut(env, w, steps, h)
            <==> Verifies(Run(env, w, front), last, h)
                 || (VerifiedSincePut(env, w, front, h) && !Replaces(Run(env, w, front), last, h))
  {
    hide Run, Verifies, Replaces;
    var front, last := steps[..|steps| - 1], steps[|steps| - 1];
    assert forall i :: 0 <= i <= |front| ==> front[..i] == steps[..i];
    assert front[..|front|] == front == steps[..|front|];
    if VerifiedSincePut(env, w, steps, h) {
      var j: nat :| VerifiedAt(env, w, steps, h, j);
      if j < |front| { assert VerifiedAt(env, w, front, h, j); }
    }
    if Verifies(Run(env, w, front), last, h) { assert VerifiedAt(env, w, steps, h, |front|); }
    if VerifiedSincePut(env, w, front, h) && !Replaces(Run(env, w, front), last, h) {
      var j: nat :| VerifiedAt(env, w, front, h, j);
      assert VerifiedAt(env, w, steps, h, j);
    }
  }

  /** In every run a row reads "verified" exactly when some deploy recorded that since the row
      was last put. */
  lemma {:induction false} ReadsVerifiedIff(env: Env, w: World, steps: seq<Step>, h: Hash)
    requires Init(w)
    ensures ReadsVerified(Run(env, w, steps).reg, h) <==> VerifiedSincePut(env, w, steps, h)
  {
    if steps != [] {
      var front, last := steps[..|steps| - 1], steps[|steps| - 1];
      ReadsVerifiedIff(env, w, front, h);
      RunRows(env, w, front);
      RowStep(env, Run(env, w, front), last, h);
      SinceStep(env, w, steps, h);
    }
  }

  /** In every interleaving: the verdict a deploy records is what the row reads right after,
      exactly when it is "verified" or nothing was verified since the row was last put. */
  lemma {:induction false} VerdictLandsInRunIff(env: Env, w: World, steps: seq<Step>, step: Step, h: Hash, v: Verdict,
                                                b: Option<Builder>)
    requires Init(w) && Performs(Run(env, w, steps), step, SetVerdict(h, v, b))
    ensures var reg' := Next(env, Run(env, w, steps), step).reg;
            && h in reg'.artifacts
            && (reg'.artifacts[h].verdict == Some(v) <==> v.Verified? || !VerifiedSincePut(env, w, steps, h))
  {
    var w1 := Run(env, w, steps);
    RunRows(env, w, steps);
    assert RowsThere(w1.tasks[step.task], w1.reg.artifacts.Keys);
    ReadsVerifiedIff(env, w, steps, h);
    VerdictLandsIff(w1.reg, h, v, b);
  }

  // ---------- it does get lost ----------

  /** From a fresh data root: take any two deploys of the same artifact, the first with evidence
      for "verified" and the second without. Both can be served to the end, the second one
      last, so that the row still reads "verified". */
  lemma InterleavedVerdictLost(env: Env, w: World, key: Builder, r1: DeployRequest, r2: DeployRequest)
    requires Init(w) && RecordOf(env, r1).artifact == RecordOf(env, r2).artifact
    requires Evidence(env.valid, r1.carried, RecordOf(env, r1).artifact, RecordOf(env, r1).kernel,
            w.reg.trusted + {key})
    requires !Evidence(env.valid, r2.carried, RecordOf(env, r2).artifact, RecordOf(env, r2).kernel,
            w.reg.trusted + {key})
    ensures exists ops: seq<Step> :: LastBy(ops, 1)
              && var w' := Run(env, w, Opening(Some(key), Deploy(r1), Deploy(r2)) + ops);
                 && w'.phase.Up? && w'.tasks == [[], []] && ReadsVerified(w'.reg, RecordOf(env, r2).artifact)
                 && VerdictOf(env, w'.reg, r2).0 != Verified
  {
    hide Run;
    var luck := (x: Name) => Luck(false, SpawnOk);
    var w1 := OpenedWorld(env, w, Some(key), Deploy(r1), Deploy(r2));
    var ops, w' := BothThenVerdicts(env, w1, r1, r2, luck);
    RunAppend(env, w, Opening(Some(key), Deploy(r1), Deploy(r2)), ops);
  }

  /** Operations only, the last one of task `task`. */
  ghost predicate LastBy(ops: seq<Step>, task: nat) {
    && (forall k :: 0 <= k < |ops| ==> ops[k].Exec?)
    && ops != [] && ops[|ops| - 1].task == task
  }

  /** Both deploys up to their verdicts, then the first to its end, then the second. */
  lemma BothThenVerdicts(env: Env, w: World, r1: DeployRequest, r2: DeployRequest, luck: Name -> Luck)
    returns (ops: seq<Step>, w': World)
    requires w.phase.Up? && w.tasks == [DeployProgram(env, r1), DeployProgram(env, r2)]
    requires RecordOf(env, r1).artifact == RecordOf(env, r2).artifact
    requires VerdictOf(env, w.reg, r1).0.Verified? && !VerdictOf(env, w.reg, r2).0.Verified?
    ensures LastBy(ops, 1) && w' == Run(env, w, ops)
    ensures w'.phase.Up? && w'.tasks == [[], []] && ReadsVerified(w'.reg, RecordOf(env, r2).artifact)
    ensures !VerdictOf(env, w'.reg, r2).0.Verified?
  {
    hide Run, DeployProgram;
    var e1 := ToVerdict(env, w, 0, r1, luck);
    var w2 := Run(env, w, e1);
    var e2 := ToVerdict(env, w2, 1, r2, luck);
    var w3 := Run(env, w2, e2);
    var e3, w4 := GiveVerdict(env, w3, 0, w.reg, r1, luck);
    var e4, w5 := GiveVerdict(env, w4, 1, w2.reg, r2, luck);
    ops, w' := e1 + e2 + e3 + e4, w5;
    RunAppend(env, w, e1 + e2 + e3, e4);
    RunAppend(env, w, e1 + e2, e3);
    RunAppend(env, w, e1, e2);
    assert w5.tasks == [[], []];
  }

  lemma ToVerdict(env: Env, w: World, task: nat, r: DeployRequest, luck: Name -> Luck) returns (ops: seq<Step>)
    requires Serving(w.phase) && task < |w.tasks| && w.tasks[task] == DeployProgram(env, r)
    ensures forall k :: 0 <= k < |ops| ==> ops[k].Exec?
    ensures Became(w, Run(env, w, ops), task, PutTables(env, TablesOf(w), r), VerdictRest(env, w.reg, r))
  {
    hide FileOps, PutTables;
    var k := 2 + FileOps(w.store, RecordOf(env, r).artifact, r.jam);
    ops := Execs(task, luck, [], k);
    ExecsAdvance(env, w, task, luck, [], k);
    DeployToVerdict(env, TablesOf(w), r, [], 0);
  }

  lemma GiveVerdict(env: Env, w: World, task: nat, reg: RegState, r: DeployRequest, luck: Name -> Luck)
    returns (ops: seq<Step>, w': World)
    requires Serving(w.phase) && task < |w.tasks| && w.tasks[task] == VerdictRest(env, reg, r)
    ensures LastBy(ops, task) && w' == Run(env, w, ops)
    ensures SameTime(w, w') && w'.tasks == w.tasks[task := []] && w'.reg.trusted == w.reg.trusted
    ensures w'.reg.artifacts
            == SetVerification(w.reg, RecordOf(env, r).artifact, VerdictOf(env, reg, r).0,
              VerdictOf(env, reg, r).1).artifacts
  {
    var k := ExecsFinish(env, w, task, luck, []);
    ops := Execs(task, luck, [], k);
    w' := Run(env, w, ops);
    VerdictTail(env, TablesOf(w), reg, r, []);
    assert w.tasks[task] != [];
    assert k != 0;
  }
}
