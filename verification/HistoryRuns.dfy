/** Deploy history under every interleaving: when exactly the newest entry is what the app
    runs. */
module HistoryRuns {
  import opened Prelude
  import opened Lifecycle
  import opened CellInvariant
  import opened Attest
  import opened Control
  import opened World
  import opened Safety
  import opened Atomic
  import opened WholeHandlers
  import opened RollbackLaws
  import opened Stages

  // ---------- writes and the entries they owe ----------

  /** The operations that point an app at an artifact. */
  predicate IsWrite(op: Op) { op.UpsertOp? || op.SetArtifactOp? }

  function EntryFor(op: Op): Op
    requires IsWrite(op)
  {
    RecordOp(op.name, op.artifact)
  }

  /** A history entry is made right after the write it is for, and only then. */
  predicate Tidy(prog: Program) {
    prog != [] ==>
      && Tidy(prog[1..])
      && if IsWrite(prog[0]) then |prog| > 1 && prog[1] == EntryFor(prog[0])
         else |prog| > 1 ==> !prog[1].RecordOp?
  }

  predicate NoEntryDue(prog: Program) { prog != [] ==> !prog[0].RecordOp? }

  lemma {:induction false} TidyPrefix(prefix: Program, rest: Program)
    requires forall k :: 0 <= k < |prefix| ==> !IsWrite(prefix[k]) && !prefix[k].RecordOp?
    requires Tidy(rest) && NoEntryDue(rest)
    ensures Tidy(prefix + rest) && NoEntryDue(prefix + rest)
  {
    if prefix == [] {
      assert prefix + rest == rest;
    } else {
      assert (prefix + rest)[1..] == prefix[1..] + rest;
      TidyPrefix(prefix[1..], rest);
    }
  }

  lemma TidyPlain(prog: Program)
    requires forall k :: 0 <= k < |prog| ==> !IsWrite(prog[k]) && !prog[k].RecordOp?
    ensures Tidy(prog) && NoEntryDue(prog)
  {
    TidyPrefix(prog, []);
    assert prog + [] == prog;
  }

  lemma TidyWrite(write: Op, rest: Program)
    requires IsWrite(write) && Tidy(rest) && NoEntryDue(rest)
    ensures Tidy([write] + ([EntryFor(write)] + rest)) && NoEntryDue([write] + ([EntryFor(write)] + rest))
  {
    var tail := [EntryFor(write)] + rest;
    assert tail[1..] == rest && ([write] + tail)[1..] == tail;
  }

  lemma RequestTidy(env: Env, r: Request)
    ensures Tidy(ProgramOf(env, r)) && NoEntryDue(ProgramOf(env, r))
  {
    if r.Deploy? {
      var p := DeployProgram(env, r.req);
      TidyPlain(p[6..]);
      TidyWrite(p[4], p[6..]);
      TidyPrefix(p[..4], [p[4]] + ([EntryFor(p[4])] + p[6..]));
      assert p == p[..4] + ([p[4]] + ([EntryFor(p[4])] + p[6..]));
    } else {
      TidyPlain(ProgramOf(env, r));
    }
  }

  lemma RollbackTidy(name: Name, prev: Hash)
    ensures Tidy(RollbackProgram(name, prev)) && NoEntryDue(RollbackProgram(name, prev))
  {
    var p := RollbackProgram(name, prev);
    TidyPlain(p[2..]);
    TidyWrite(p[0], p[2..]);
    assert p == [p[0]] + ([EntryFor(p[0])] + p[2..]);
  }

  lemma TidyRest(op: Op, rest: Program)
    requires Tidy([op] + rest)
    ensures Tidy(rest) && (if IsWrite(op) then rest != [] && rest[0] == EntryFor(op) else NoEntryDue(rest))
    ensures Tidy([]) && NoEntryDue([])
  {
    assert ([op] + rest)[1..] == rest;
  }

  /** Only a write leaves an entry due. */
  lemma ContinueTidy(env: Env, reg: RegState, store: StoreState, op: Op, rest: Program, listing: seq<Name>)
    requires Tidy([op] + rest)
    ensures Tidy(Continue(env, reg, store, op, rest, listing))
    ensures IsWrite(op) ==>
            rest != [] && rest[0] == EntryFor(op) && Continue(env, reg, store, op, rest, listing) == rest
    ensures !IsWrite(op) ==> NoEntryDue(Continue(env, reg, store, op, rest, listing))
  {
    hide Tidy, NoEntryDue;
    TidyRest(op, rest);
    match op
    case PutFiles(rec, jam, bin) => TidyPrefix(FilesToPut(store, rec, jam, bin), rest);
    case AssessOp(rec, carried) =>
      var v := AssessCarried(env.valid, carried, rec.artifact, rec.kernel, reg.trusted);
      TidyPrefix([SetVerdict(rec.artifact, v.0, v.1)], rest);
    case PickPrevious(name, current) =>
      var prev := PreviousArtifact(reg.history, name, current);
      if prev.Some? { RollbackTidy(name, prev.value); }
    case RequireManifest(_, _) => TidyPlain(Continue(env, reg, store, op, rest, listing));
    case ReadForRollback(_) => TidyPlain(Continue(env, reg, store, op, rest, listing));
    case ReadFleet(desired) =>
      FleetOnlyDesires(reg.apps, listing, desired);
      TidyPlain(Continue(env, reg, store, op, rest, listing));
    case _ =>
  }

  /** A rollback that has found its app goes on with an app that is there. */
  predicate NamesApps(reg: RegState, prog: Program) {
    forall j :: 0 <= j < |prog| ==> prog[j].PickPrevious? || prog[j].SetArtifactOp? ==> prog[j].name in reg.apps
  }

  lemma ContinueNames(env: Env, reg: RegState, store: StoreState, op: Op, rest: Program, listing: seq<Name>)
    requires NamesApps(reg, [op] + rest)
    ensures NamesApps(reg, Continue(env, reg, store, op, rest, listing))
  {
    assert forall j :: 0 <= j < |rest| ==> rest[j] == ([op] + rest)[j + 1];
    assert ([op] + rest)[0] == op;
    if op.ReadFleet? { FleetOnlyDesires(reg.apps, listing, op.desired); }
  }

  ghost predicate AllTidy(w: World) {
    forall k :: 0 <= k < |w.tasks| ==> Tidy(w.tasks[k]) && NamesApps(w.reg, w.tasks[k])
  }

  lemma TidyStep(env: Env, w: World, step: Step)
    requires AllTidy(w)
    ensures AllTidy(Next(env, w, step))
  {
    if Enabled(w, step) {
      if step.Exec? {
        ExecTidy(env, w, step);
      } else if step.Submit? {
        SubmitTidy(env, w, step);
      }
    }
  }

  lemma SubmitTidy(env: Env, w: World, step: Step)
    requires AllTidy(w) && step.Submit? && Enabled(w, step)
    ensures AllTidy(Next(env, w, step))
  {
    hide Tidy;
    RequestTidy(env, step.request);
    assert NamesApps(w.reg, ProgramOf(env, step.request));
  }

  lemma ExecTidy(env: Env, w: World, step: Step)
    requires AllTidy(w) && step.Exec? && Enabled(w, step)
    ensures AllTidy(Next(env, w, step))
  {
    hide Tidy;
    AppsGrow(w, step);
    var op, rest := w.tasks[step.task][0], w.tasks[step.task][1..];
    assert w.tasks[step.task] == [op] + rest;
    ContinueTidy(env, w.reg, w.store, op, rest, step.listing);
    ContinueNames(env, w.reg, w.store, op, rest, step.listing);
  }

  lemma {:induction false} RunTidy(env: Env, w: World, steps: seq<Step>)
    requires AllTidy(w)
    ensures AllTidy(Run(env, w, steps))
  {
    if steps != [] {
      RunTidy(env, w, steps[..|steps| - 1]);
      TidyStep(env, Run(env, w, steps[..|steps| - 1]), steps[|steps| - 1]);
    }
  }

  // ---------- settled histories ----------

  /** Task `k` has pointed `n` at an artifact and not yet made the entry. */
  predicate Owed(tasks: seq<Program>, k: nat, n: Name) {
    k < |tasks| && tasks[k] != [] && tasks[k][0].RecordOp? && tasks[k][0].name == n
  }

  predicate NoneOwed(tasks: seq<Program>, n: Name) { forall k: nat | k < |tasks| :: !Owed(tasks, k, n) }

  /** History is current, or will be when the entries still owed have been made, in any order. */
  predicate Settled(w: World, n: Name) {
    if NoneOwed(w.tasks, n) then CurrentFor(w.reg, n)
    else
      && n in w.reg.apps
      && forall k: nat | k < |w.tasks| && Owed(w.tasks, k, n) :: w.tasks[k][0].artifact == w.reg.apps[n].artifact
  }

  /** The condition on one step, which can be checked before it: the app may be pointed at an
      artifact only while no other handler owes it an entry for a different one, and the daemon
      may end only with the history current. */
  ghost predicate Orderly(w: World, step: Step, n: Name) {
    Enabled(w, step) ==>
      match step
      case Exec(task, _, _) =>
        var op := w.tasks[task][0];
        IsWrite(op) && op.name == n ==>
          forall k: nat | k < |w.tasks| && k != task && Owed(w.tasks, k, n) :: w.tasks[k][0].artifact == op.artifact
      case Die => CurrentFor(w.reg, n)
      case EndShutdown => CurrentFor(w.reg, n)
      case _ => true
  }

  lemma SettledStepIff(env: Env, w: World, step: Step, n: Name)
    requires AllTidy(w) && Settled(w, n)
    ensures Settled(Next(env, w, step), n) <==> Orderly(w, step, n)
  {
    if Enabled(w, step) {
      if step.Exec? {
        ExecSettledIff(env, w, step, n);
      } else if step.Submit? {
        SubmitSettled(env, w, step, n);
      }
    }
  }

  lemma SubmitSettled(env: Env, w: World, step: Step, n: Name)
    requires Settled(w, n) && step.Submit? && Enabled(w, step)
    ensures Settled(Next(env, w, step), n)
  {
    RequestTidy(env, step.request);
    var w' := Next(env, w, step);
    assert forall k: nat | k < |w.tasks| :: w'.tasks[k] == w.tasks[k];
    assert w'.tasks[|w.tasks|] == ProgramOf(env, step.request);
    assert forall k: nat | k < |w'.tasks| :: Owed(w'.tasks, k, n) ==> k < |w.tasks| && Owed(w.tasks, k, n);
    if !NoneOwed(w.tasks, n) {
      var k: nat :| k < |w.tasks| && Owed(w.tasks, k, n);
      assert Owed(w'.tasks, k, n);
    }
  }

  lemma ExecSettledIff(env: Env, w: World, step: Step, n: Name)
    requires AllTidy(w) && Settled(w, n) && step.Exec? && Enabled(w, step)
    ensures Settled(Next(env, w, step), n) <==> Orderly(w, step, n)
  {
    var op, rest := w.tasks[step.task][0], w.tasks[step.task][1..];
    assert w.tasks[step.task] == [op] + rest && Tidy([op] + rest);
    ContinueTidy(env, w.reg, w.store, op, rest, step.listing);
    if IsWrite(op) && op.name == n {
      WriteSettledIff(env, w, step, n);
    } else if op.RecordOp? && op.name == n {
      EntrySettles(env, w, step, n);
    } else {
      OtherSettles(env, w, step, n);
    }
  }

  lemma WriteSettledIff(env: Env, w: World, step: Step, n: Name)
    requires step.Exec? && Enabled(w, step)
    requires var op := w.tasks[step.task][0];
             var next := Continue(env, w.reg, w.store, op, w.tasks[step.task][1..], step.listing);
             IsWrite(op) && op.name == n && next != [] && next[0] == EntryFor(op)
               && (op.SetArtifactOp? ==> n in w.reg.apps)
    ensures Settled(Next(env, w, step), n) <==> Orderly(w, step, n)
  {
    var op := w.tasks[step.task][0];
    var w' := Next(env, w, step);
    assert Owed(w'.tasks, step.task, n) && w'.tasks[step.task][0].artifact == op.artifact;
    assert forall k: nat | k < |w.tasks| && k != step.task :: w'.tasks[k] == w.tasks[k];
    assert forall k: nat | k < |w.tasks| && k != step.task :: Owed(w'.tasks, k, n) <==> Owed(w.tasks, k, n);
    assert n in w'.reg.apps <==> op.UpsertOp? || n in w.reg.apps;
    assert n in w'.reg.apps ==> w'.reg.apps[n].artifact == op.artifact;
  }

  lemma EntrySettles(env: Env, w: World, step: Step, n: Name)
    requires Settled(w, n) && step.Exec? && Enabled(w, step) && Owed(w.tasks, step.task, n)
    requires NoEntryDue(Continue(env, w.reg, w.store, w.tasks[step.task][0], w.tasks[step.task][1..], step.listing))
    ensures Settled(Next(env, w, step), n) && Orderly(w, step, n)
  {
    var w' := Next(env, w, step);
    RecordCurrentIff(w.reg, n, w.tasks[step.task][0].artifact);
    assert w'.reg.apps == w.reg.apps;
    assert forall k: nat | k < |w.tasks| && k != step.task :: w'.tasks[k] == w.tasks[k];
    assert forall k: nat | k < |w'.tasks| && Owed(w'.tasks, k, n) :: k != step.task && Owed(w.tasks, k, n);
  }

  lemma OtherSettles(env: Env, w: World, step: Step, n: Name)
    requires Settled(w, n) && step.Exec? && Enabled(w, step)
    requires var op := w.tasks[step.task][0];
             && ((IsWrite(op) || op.RecordOp?) ==> op.name != n)
             && (NoEntryDue(Continue(env, w.reg, w.store, op, w.tasks[step.task][1..], step.listing))
                 || (IsWrite(op)
                   && Continue(env, w.reg, w.store, op, w.tasks[step.task][1..], step.listing)[0] == EntryFor(op)))
    ensures Settled(Next(env, w, step), n) && Orderly(w, step, n)
  {
    var op := w.tasks[step.task][0];
    var w' := Next(env, w, step);
    SameForOthers(w.reg, op, n);
    assert !Owed(w'.tasks, step.task, n) && !Owed(w.tasks, step.task, n);
    assert forall k: nat | k < |w.tasks| && k != step.task :: w'.tasks[k] == w.tasks[k];
    assert forall k: nat | k < |w.tasks| :: Owed(w'.tasks, k, n) <==> Owed(w.tasks, k, n);
  }

  lemma SameForOthers(reg: RegState, op: Op, n: Name)
    requires (IsWrite(op) || op.RecordOp?) ==> op.name != n
    ensures var reg' := ApplyReg(reg, op);
            && (n in reg'.apps <==> n in reg.apps)
            && (n in reg.apps ==> reg'.apps[n].artifact == reg.apps[n].artifact)
            && Newest(reg'.history, n) == Newest(reg.history, n)
  {
    if op.RecordOp? { NewestAppend(reg.history, Deployed(op.name, op.artifact), n); }
  }

  // ---------- whole runs ----------

  lemma InitSettled(w: World, n: Name)
    requires Init(w)
    ensures AllTidy(w) && Settled(w, n)
  {
  }

  /** In every run: the history of an app is settled all along exactly when every step was
      orderly for it. */
  lemma {:induction false} SettledIffOrderly(env: Env, w: World, steps: seq<Step>, n: Name)
    requires Init(w)
    ensures (forall k :: 0 <= k <= |steps| ==> Settled(Run(env, w, steps[..k]), n))
            <==> (forall k :: 0 <= k < |steps| ==> Orderly(Run(env, w, steps[..k]), steps[k], n))
  {
    if steps == [] {
      InitSettled(w, n);
      assert steps[..0] == [];
    } else {
      var front, last := steps[..|steps| - 1], steps[|steps| - 1];
      SettledIffOrderly(env, w, front, n);
      InitSettled(w, n);
      RunTidy(env, w, front);
      assert forall k :: 0 <= k <= |front| ==> front[..k] == steps[..k];
      assert steps[..|steps|] == steps && Run(env, w, steps) == Next(env, Run(env, w, front), last);
      if Settled(Run(env, w, front), n) { SettledStepIff(env, Run(env, w, front), last, n); }
      ExtendAll(env, w, steps, n);
    }
  }

  /** Splitting both sides of the equivalence at the last step. */
  lemma ExtendAll(env: Env, w: World, steps: seq<Step>, n: Name)
    requires steps != []
    ensures var front := steps[..|steps| - 1];
            && ((forall k :: 0 <= k <= |steps| ==> Settled(Run(env, w, steps[..k]), n))
                <==> (&& (forall k :: 0 <= k <= |front| ==> Settled(Run(env, w, front[..k]), n))
                      && Settled(Run(env, w, steps), n)))
            && ((forall k :: 0 <= k < |steps| ==> Orderly(Run(env, w, steps[..k]), steps[k], n))
                <==> (forall k :: 0 <= k < |front| ==> Orderly(Run(env, w, front[..k]), front[k], n))
                     && Orderly(Run(env, w, front), steps[|steps| - 1], n))
            && ((forall k :: 0 <= k <= |front| ==> Settled(Run(env, w, front[..k]), n)) ==>
              Settled(Run(env, w, front), n))
  {
    hide Settled, Orderly, Run;
    var front := steps[..|steps| - 1];
    assert forall k :: 0 <= k <= |front| ==> front[..k] == steps[..k];
    assert steps[..|steps|] == steps && front[..|front|] == front && steps[..|front|] == front;
  }

  /** The plain discipline: nobody points the app at an artifact while another handler owes it an
      entry, and the daemon does not end while one is owed. */
  ghost predicate Careful(w: World, step: Step, n: Name) {
    Enabled(w, step) ==>
      match step
      case Exec(task, _, _) =>
        IsWrite(w.tasks[task][0]) && w.tasks[task][0].name == n ==>
          forall k: nat | k < |w.tasks| && k != task :: !Owed(w.tasks, k, n)
      case Die => NoneOwed(w.tasks, n)
      case EndShutdown => NoneOwed(w.tasks, n)
      case _ => true
  }

  /** Under that discipline the newest entry is what the app runs whenever none is owed. */
  lemma {:induction false} CarefulHistoryCurrent(env: Env, w: World, steps: seq<Step>, n: Name)
    requires Init(w)
    requires forall k :: 0 <= k < |steps| ==> Careful(Run(env, w, steps[..k]), steps[k], n)
    ensures Settled(Run(env, w, steps), n)
    ensures NoneOwed(Run(env, w, steps).tasks, n) ==> CurrentFor(Run(env, w, steps).reg, n)
  {
    InitSettled(w, n);
    if steps != [] {
      var front, last := steps[..|steps| - 1], steps[|steps| - 1];
      assert forall k :: 0 <= k <= |front| ==> front[..k] == steps[..k];
      CarefulHistoryCurrent(env, w, front, n);
      RunTidy(env, w, front);
      assert Orderly(Run(env, w, front), last, n);
      SettledStepIff(env, Run(env, w, front), last, n);
    }
  }

  /** And under it for every app, the whole history is current whenever no entry is owed: every app
      can be rolled back as the rollback laws say. */
  lemma CarefulHistoriesCurrent(env: Env, w: World, steps: seq<Step>)
    requires Init(w)
    requires forall n: Name, k :: 0 <= k < |steps| ==> Careful(Run(env, w, steps[..k]), steps[k], n)
    requires forall n: Name :: NoneOwed(Run(env, w, steps).tasks, n)
    ensures HistoryCurrent(Run(env, w, steps).reg)
  {
    hide Careful, Run;
    var reg := Run(env, w, steps).reg;
    forall n: Name ensures Newest(reg.history, n) == if n in reg.apps then Some(reg.apps[n].artifact) else None {
      CarefulHistoryCurrent(env, w, steps, n);
      assert CurrentFor(reg, n);
    }
  }

  // ---------- what can still go wrong from here ----------

  /** Every step makes an entry owed for `n`. */
  ghost predicate MakesEntries(env: Env, w: World, steps: seq<Step>, n: Name) {
    forall k :: 0 <= k < |steps| ==> steps[k].Exec? && Owed(Run(env, w, steps[..k]).tasks, steps[k].task, n)
  }

  /** A way to make all entries owed for `n`. */
  ghost predicate Completes(env: Env, w: World, steps: seq<Step>, n: Name) {
    MakesEntries(env, w, steps, n) && NoneOwed(Run(env, w, steps).tasks, n)
  }

  /** From any state of the handlers: however the entries still owed are made, history ends up
      current, exactly when it is settled now. */
  lemma CompletionsCurrentIff(env: Env, w: World, n: Name)
    requires Serving(w.phase) && AllTidy(w)
    ensures (forall steps :: Completes(env, w, steps, n) ==> CurrentFor(Run(env, w, steps).reg, n)) <==> Settled(w, n)
  {
    if Settled(w, n) {
      forall steps | Completes(env, w, steps, n) ensures CurrentFor(Run(env, w, steps).reg, n) {
        EntriesSettle(env, w, steps, n);
      }
    } else {
      var steps := WrongCompletion(env, w, n);
      assert Completes(env, w, steps, n) && !CurrentFor(Run(env, w, steps).reg, n);
    }
  }

  lemma {:induction false} EntriesSettle(env: Env, w: World, steps: seq<Step>, n: Name)
    requires Serving(w.phase) && AllTidy(w) && Settled(w, n) && MakesEntries(env, w, steps, n)
    ensures var w' := Run(env, w, steps); Serving(w'.phase) && AllTidy(w') && Settled(w', n)
  {
    if steps != [] {
      var front, last := steps[..|steps| - 1], steps[|steps| - 1];
      assert forall k :: 0 <= k <= |front| ==> front[..k] == steps[..k];
      EntriesSettle(env, w, front, n);
      RunTidy(env, w, steps);
      SettledStepIff(env, Run(env, w, front), last, n);
    }
  }

  lemma WrongCompletion(env: Env, w: World, n: Name) returns (steps: seq<Step>)
    requires Serving(w.phase) && AllTidy(w) && !Settled(w, n)
    ensures Completes(env, w, steps, n) && !CurrentFor(Run(env, w, steps).reg, n)
  {
    if NoneOwed(w.tasks, n) {
      steps := [];
    } else {
      var k: nat :| k < |w.tasks| && Owed(w.tasks, k, n)
                    && !(n in w.reg.apps && w.tasks[k][0].artifact == w.reg.apps[n].artifact);
      steps := LastEntry(env, w, n, k);
    }
  }

  /** Make the entry of task `k` last: then it is the newest. */
  lemma LastEntry(env: Env, w: World, n: Name, k: nat) returns (steps: seq<Step>)
    requires Serving(w.phase) && AllTidy(w) && Owed(w.tasks, k, n)
    ensures Completes(env, w, steps, n)
    ensures CurrentFor(Run(env, w, steps).reg, n) <==>
            n in w.reg.apps && w.reg.apps[n].artifact == w.tasks[k][0].artifact
    decreases Debtors(w.tasks, n)
  {
    var j: nat := k;
    if exists i: nat :: i < |w.tasks| && i != k && Owed(w.tasks, i, n) {
      j :| j < |w.tasks| && j != k && Owed(w.tasks, j, n);
    }
    var step := Exec(j, (x: Name) => Luck(false, SpawnOk), []);
    var w1 := Next(env, w, step);
    EntryStep(env, w, step, n);
    if j == k {
      steps := [step];
      assert [step][..0] == [];
      forall i: nat | i < |w1.tasks| ensures !Owed(w1.tasks, i, n) {
        if i != k { assert Owed(w1.tasks, i, n) <==> Owed(w.tasks, i, n); }
      }
    } else {
      var rest := LastEntry(env, w1, n, k);
      steps := [step] + rest;
      RunPrepend(env, w, step, rest);
      MakesPrepend(env, w, step, rest, n);
    }
  }

  function Debtors(tasks: seq<Program>, n: Name): set<int> { set k | 0 <= k < |tasks| && Owed(tasks, k, n) }

  lemma EntryStep(env: Env, w: World, step: Step, n: Name)
    requires Serving(w.phase) && AllTidy(w) && step.Exec? && Owed(w.tasks, step.task, n)
    ensures var w1 := Next(env, w, step);
            && Serving(w1.phase) && AllTidy(w1) && w1.reg == RecordDeploy(w.reg, n, w.tasks[step.task][0].artifact)
            && |w1.tasks| == |w.tasks| && (forall i: nat | i < |w.tasks| && i != step.task :: w1.tasks[i] == w.tasks[i])
            && !Owed(w1.tasks, step.task, n)
            && Debtors(w1.tasks, n) == Debtors(w.tasks, n) - {step.task}
            && (CurrentFor(w1.reg, n) <==> n in w.reg.apps && w.reg.apps[n].artifact == w.tasks[step.task][0].artifact)
  {
    var op, rest := w.tasks[step.task][0], w.tasks[step.task][1..];
    var w1 := Next(env, w, step);
    TidyStep(env, w, step);
    assert w.tasks[step.task] == [op] + rest && Tidy([op] + rest);
    ContinueTidy(env, w.reg, w.store, op, rest, step.listing);
    RecordCurrentIff(w.reg, n, op.artifact);
    assert forall i: nat | i < |w.tasks| && i != step.task :: Owed(w1.tasks, i, n) <==> Owed(w.tasks, i, n);
  }

  lemma MakesPrepend(env: Env, w: World, step: Step, rest: seq<Step>, n: Name)
    requires step.Exec? && Owed(w.tasks, step.task, n) && MakesEntries(env, Next(env, w, step), rest, n)
    ensures MakesEntries(env, w, [step] + rest, n)
  {
    var steps := [step] + rest;
    forall k | 0 <= k < |steps| ensures steps[k].Exec? && Owed(Run(env, w, steps[..k]).tasks, steps[k].task, n) {
      if k == 0 {
        assert steps[..0] == [];
      } else {
        assert steps[..k] == [step] + rest[..k - 1];
        RunPrepend(env, w, step, rest[..k - 1]);
      }
    }
  }

  /** So when two handlers owe entries for different artifacts, some completion leaves history
      and app apart. */
  lemma DifferentEntriesDiverge(env: Env, w: World, n: Name, j: nat, k: nat)
    requires Serving(w.phase) && AllTidy(w) && Owed(w.tasks, j, n) && Owed(w.tasks, k, n)
    requires w.tasks[j][0].artifact != w.tasks[k][0].artifact
    ensures exists steps :: Completes(env, w, steps, n) && !CurrentFor(Run(env, w, steps).reg, n)
  {
    assert !NoneOwed(w.tasks, n) && !Settled(w, n);
    var steps := WrongCompletion(env, w, n);
  }

  // ---------- it does go wrong ----------

  ghost predicate Operations(steps: seq<Step>) { forall k :: 0 <= k < |steps| ==> steps[k].Exec? }

  /** From a fresh data root: any two deploys of one app with different artifacts can be served,
      both to the end, so that the app runs the second and its newest entry is the first. */
  lemma InterleavedHistoryDiffers(env: Env, w: World, r1: DeployRequest, r2: DeployRequest)
    requires Init(w) && r1.name == r2.name && r1.iconOk && r2.iconOk
    requires RecordOf(env, r1).artifact != RecordOf(env, r2).artifact
    ensures exists ops: seq<Step> :: Operations(ops)
              && var w' := Run(env, w, Opening(None, Deploy(r1), Deploy(r2)) + ops);
                 && w'.phase.Up? && w'.tasks == [[], []] && r1.name in w'.reg.apps
                 && w'.reg.apps[r1.name].artifact == RecordOf(env, r2).artifact
                 && Newest(w'.reg.history, r1.name) == Some(RecordOf(env, r1).artifact)
  {
    hide Run, Became;
    var luck := (x: Name) => Luck(false, SpawnOk);
    var opening := Opening(None, Deploy(r1), Deploy(r2));
    var w1 := OpenedWorld(env, w, None, Deploy(r1), Deploy(r2));
    var ops, w' := BothThenEntries(env, w1, r1, r2, luck);
    RunAppend(env, w, opening, ops);
  }

  /** Both deploys up to their entries, then the entries in the opposite order. */
  lemma BothThenEntries(env: Env, w: World, r1: DeployRequest, r2: DeployRequest, luck: Name -> Luck)
    returns (ops: seq<Step>, w': World)
    requires w.phase.Up? && w.tasks == [DeployProgram(env, r1), DeployProgram(env, r2)]
    requires r1.name == r2.name && r1.iconOk && r2.iconOk
    ensures Operations(ops) && w' == Run(env, w, ops)
    ensures w'.phase.Up? && w'.tasks == [[], []] && r1.name in w'.reg.apps
    ensures w'.reg.apps[r1.name].artifact == RecordOf(env, r2).artifact
    ensures Newest(w'.reg.history, r1.name) == Some(RecordOf(env, r1).artifact)
  {
    hide Run;
    var e1 := ToRecord(env, w, 0, r1, luck);
    var w2 := Run(env, w, e1);
    var e2 := ToRecord(env, w2, 1, r2, luck);
    var w3 := Run(env, w2, e2);
    var e3, w4 := MakeEntry(env, w3, 1, r2, luck);
    var e4, w5 := MakeEntry(env, w4, 0, r1, luck);
    ops, w' := e1 + e2 + e3 + e4, w5;
    Chain(env, w, e1, e2, e3, e4);
    NewestAppend(w4.reg.history, Deployed(r1.name, RecordOf(env, r1).artifact), r1.name);
    assert w5.tasks == [[], []];
  }

  lemma Chain(env: Env, w: World, a: seq<Step>, b: seq<Step>, c: seq<Step>, d: seq<Step>)
    ensures Run(env, w, a + b + c + d) == Run(env, Run(env, Run(env, Run(env, w, a), b), c), d)
  {
    RunAppend(env, w, a + b + c, d);
    RunAppend(env, w, a + b, c);
    RunAppend(env, w, a, b);
  }

  /** Perform a deploy up to its history entry. */
  lemma ToRecord(env: Env, w: World, task: nat, r: DeployRequest, luck: Name -> Luck) returns (ops: seq<Step>)
    requires Serving(w.phase) && task < |w.tasks| && w.tasks[task] == DeployProgram(env, r) && r.iconOk
    ensures Operations(ops)
    ensures Became(w, Run(env, w, ops), task, Tables(WrittenReg(env, w.reg, r), PutTables(env, TablesOf(w), r).store),
                   DeployProgram(env, r)[5..])
  {
    var k := 5 + FileOps(w.store, RecordOf(env, r).artifact, r.jam);
    ops := Execs(task, luck, [], k);
    ExecsAdvance(env, w, task, luck, [], k);
    DeployToRecord(env, TablesOf(w), r, []);
  }

  /** And from there to its end. */
  lemma MakeEntry(env: Env, w: World, task: nat, r: DeployRequest, luck: Name -> Luck)
    returns (ops: seq<Step>, w': World)
    requires Serving(w.phase) && task < |w.tasks| && w.tasks[task] == DeployProgram(env, r)[5..]
    ensures Operations(ops) && w' == Run(env, w, ops)
    ensures Became(w, w', task, Tables(RecordDeploy(w.reg, r.name, RecordOf(env, r).artifact), w.store), [])
  {
    var k := ExecsFinish(env, w, task, luck, []);
    ops := Execs(task, luck, [], k);
    w' := Run(env, w, ops);
    RecordTail(env, TablesOf(w), r, []);
  }

  /** A daemon that dies between the two writes loses the entry for good: the app runs an
      artifact its history does not know. */
  lemma DeathLosesEntry(env: Env, w: World, r: DeployRequest, other: Request)
    requires Init(w) && r.iconOk
    ensures exists ops: seq<Step> :: Operations(ops)
              && var w' := Run(env, w, Opening(None, Deploy(r), other) + ops + [Die]);
                 && w'.tasks == [] && Lookup(w'.reg.apps, r.name).Some?
                 && w'.reg.apps[r.name].artifact == RecordOf(env, r).artifact
                 && Newest(w'.reg.history, r.name) == None
  {
    var luck := (x: Name) => Luck(false, SpawnOk);
    var w1 := OpenedWorld(env, w, None, Deploy(r), other);
    var e1 := ToRecord(env, w1, 0, r, luck);
    var opening := Opening(None, Deploy(r), other);
    RunAppend(env, w, opening, e1);
    RunAppend(env, w, opening + e1, [Die]);
    assert [Die][..0] == [];
    assert Run(env, Run(env, w1, e1), [Die]) == Next(env, Run(env, w1, e1), Die);
  }
}
