/** No silently stale version: under every interleaving of handlers, ticks and exits. */
module Freshness {
  import opened Prelude
  import opened Lifecycle
  import opened CellInvariant
  import opened Control
  import opened World
  import opened Safety

  /** The operations that change what `n` should be running. */
  predicate ChangesLaunch(op: Op, n: Name) {
    match op
    case UpsertOp(name, _, _, _) => name == n
    case UpdateConfigOp(name, _) => name == n
    case SetArtifactOp(name, _) => name == n
    case _ => false
  }

  /** The operations after which a handler may not go on to the next one in its list. */
  predicate Redirects(op: Op) {
    op.PutFiles? || op.AssessOp? || op.CheckIcon? || op.RequireApp? || op.RequireManifest?
    || op.ReadForRollback? || op.PickPrevious? || op.ReadFleet?
  }

  /** The handler is certain to request a restart of `n`. */
  predicate Owes(prog: Program, n: Name) {
    prog != [] && (prog[0] == RequestRestart(n) || (!Redirects(prog[0]) && Owes(prog[1..], n)))
  }

  /** Every change of a launch is followed by a restart request that nothing can skip. */
  ghost predicate Disciplined(prog: Program) {
    prog != [] ==>
      && (forall n: Name :: ChangesLaunch(prog[0], n) ==> Owes(prog[1..], n))
      && Disciplined(prog[1..])
  }

  predicate Fresh(c: Cell, apps: map<Name, AppRow>, n: Name) {
    var m := EntryOf(c);
    m.child.Some? && m.termDeadline.None? ==>
      && n in apps
      && m.child.value < |c.instances|
      && c.instances[m.child.value].launch == LaunchOf(apps[n])
  }

  /** At this step a handler changes what `n` should be running, under a process that nobody has
      told to stop. */
  ghost predicate Disturbs(w: World, step: Step, n: Name) {
    && w.phase.Up? && step.Exec? && Enabled(w, step)
    && EntryOf(w.cells(n)).child.Some? && EntryOf(w.cells(n)).termDeadline.None? && n in w.reg.apps
    && var op := w.tasks[step.task][0];
       ChangesLaunch(op, n) && LaunchOf(ApplyReg(w.reg, op).apps[n]) != LaunchOf(w.reg.apps[n])
  }

  /** Process `i` ran what the row said until step `j` changed the row under it; the row says
      something else to this moment, the daemon has been up ever since, and the handler of step `j`
      is still certain to request the restart. */
  ghost predicate Overtaken(env: Env, w: World, steps: seq<Step>, n: Name, i: nat, j: nat) {
    && j < |steps|
    && var before, now := Run(env, w, steps[..j]), Run(env, w, steps);
    && Disturbs(before, steps[j], n)
    && EntryOf(before.cells(n)).child == Some(i) && Fresh(before.cells(n), before.reg.apps, n)
    && n in now.reg.apps && LaunchOf(now.reg.apps[n]) != LaunchOf(before.reg.apps[n])
    && (forall k :: j <= k <= |steps| ==> Run(env, w, steps[..k]).phase.Up?)
    && steps[j].task < |now.tasks| && Owes(now.tasks[steps[j].task], n)
  }

  ghost predicate InDebt(env: Env, w: World, steps: seq<Step>, n: Name) {
    var child := EntryOf(Run(env, w, steps).cells(n)).child;
    child.Some? && exists j: nat :: Overtaken(env, w, steps, n, child.value, j)
  }

  ghost predicate AllDisciplined(w: World) {
    forall k :: 0 <= k < |w.tasks| ==> Disciplined(w.tasks[k])
  }

  // ---------- handlers are disciplined ----------

  lemma QuietPrefix(prefix: Program, rest: Program)
    requires forall k :: 0 <= k < |prefix| ==> forall n: Name :: !ChangesLaunch(prefix[k], n)
    requires Disciplined(rest)
    ensures Disciplined(prefix + rest)
  {
    if prefix == [] {
      assert prefix + rest == rest;
    } else {
      assert (prefix + rest)[1..] == prefix[1..] + rest;
      QuietPrefix(prefix[1..], rest);
    }
  }

  lemma DisciplinedCons(op: Op, rest: Program, n: Name)
    requires forall x: Name :: ChangesLaunch(op, x) ==> x == n && Owes(rest, n)
    requires Disciplined(rest)
    ensures Disciplined([op] + rest)
  {
    assert ([op] + rest)[1..] == rest;
  }

  /** One launch change followed by quiet, certain operations up to the restart request. */
  lemma PaidChange(change: Op, between: Program, n: Name, rest: Program)
    requires forall x: Name :: ChangesLaunch(change, x) ==> x == n
    requires forall k :: 0 <= k < |between| ==>
            !Redirects(between[k]) && forall x: Name :: !ChangesLaunch(between[k], x)
    requires Disciplined(rest)
    ensures Disciplined([change] + (between + ([RequestRestart(n)] + rest)))
  {
    hide Disciplined, Owes;
    var tail := [RequestRestart(n)] + rest;
    DisciplinedCons(RequestRestart(n), rest, n);
    OwesNow(rest, n);
    QuietPrefix(between, tail);
    OwesThrough(between, tail, n);
    DisciplinedCons(change, between + tail, n);
  }

  lemma OwesNow(rest: Program, n: Name)
    ensures Owes([RequestRestart(n)] + rest, n)
  {
  }

  lemma OwesThrough(between: Program, tail: Program, n: Name)
    requires forall k :: 0 <= k < |between| ==> !Redirects(between[k])
    requires Owes(tail, n)
    ensures Owes(between + tail, n)
  {
    if between == [] {
      assert between + tail == tail;
    } else {
      assert (between + tail)[1..] == between[1..] + tail;
      OwesThrough(between[1..], tail, n);
    }
  }

  lemma QuietDisciplined(prog: Program)
    requires forall k :: 0 <= k < |prog| ==> forall n: Name :: !ChangesLaunch(prog[k], n)
    ensures Disciplined(prog)
  {
    QuietPrefix(prog, []);
    assert prog + [] == prog;
  }

  lemma DeployDisciplined(env: Env, r: DeployRequest)
    ensures Disciplined(DeployProgram(env, r))
  {
    var p := DeployProgram(env, r);
    var tail := [p[4]] + (p[5..7] + ([RequestRestart(r.name)] + [ReconcileOp]));
    QuietDisciplined([ReconcileOp]);
    PaidChange(p[4], p[5..7], r.name, [ReconcileOp]);
    QuietPrefix(p[..4], tail);
    assert p == p[..4] + tail;
  }

  lemma RollbackDisciplined(name: Name, prev: Hash)
    ensures Disciplined(RollbackProgram(name, prev))
  {
    var p := RollbackProgram(name, prev);
    QuietDisciplined(p[4..]);
    PaidChange(p[0], p[1..3], name, p[4..]);
    assert p == [p[0]] + (p[1..3] + ([RequestRestart(name)] + p[4..]));
  }

  lemma ReloadDisciplined(name: Name, config: Config)
    ensures Disciplined([UpdateConfigOp(name, config), SetDesiredOp(name, WantRunning), RequestRestart(name),
                         AddEvent(name, ReloadEv), ReconcileOp])
  {
    var p := [UpdateConfigOp(name, config), SetDesiredOp(name, WantRunning), RequestRestart(name),
              AddEvent(name, ReloadEv), ReconcileOp];
    QuietDisciplined(p[3..]);
    PaidChange(p[0], p[1..2], name, p[3..]);
    assert p == [p[0]] + (p[1..2] + ([RequestRestart(name)] + p[3..]));
  }

  lemma RequestDisciplined(env: Env, r: Request)
    ensures Disciplined(ProgramOf(env, r))
  {
    if r.Deploy? {
      DeployDisciplined(env, r.req);
    } else {
      QuietDisciplined(ProgramOf(env, r));
    }
  }

  lemma ContinueDisciplined(env: Env, reg: RegState, store: StoreState, op: Op, rest: Program, listing: seq<Name>)
    requires Disciplined(rest)
    ensures Disciplined(Continue(env, reg, store, op, rest, listing))
  {
    match op
    case PutFiles(rec, jam, bin) =>
      QuietPrefix(FilesToPut(store, rec, jam, bin), rest);
    case AssessOp(rec, carried) =>
      var v := Attest.AssessCarried(env.valid, carried, rec.artifact, rec.kernel, reg.trusted);
      QuietPrefix([SetVerdict(rec.artifact, v.0, v.1)], rest);
    case RequireManifest(name, read) =>
      if read.Some? { ReloadDisciplined(name, read.value); }
    case PickPrevious(name, current) =>
      var prev := PreviousArtifact(reg.history, name, current);
      if prev.Some? { RollbackDisciplined(name, prev.value); }
    case ReadForRollback(name) =>
      QuietDisciplined(Continue(env, reg, store, op, rest, listing));
    case ReadFleet(desired) =>
      var updates := FleetUpdates(reg.apps, listing, desired);
      FleetOnlyDesires(reg.apps, listing, desired);
      QuietDisciplined([ReconcileOp]);
      QuietPrefix(updates, [ReconcileOp]);
    case _ =>
  }

  lemma TasksDisciplined(env: Env, w: World, step: Step)
    requires AllDisciplined(w) && Enabled(w, step)
    ensures forall k :: 0 <= k < |NextTasks(env, w, step)| ==> Disciplined(NextTasks(env, w, step)[k])
  {
    match step
    case Submit(request) => RequestDisciplined(env, request);
    case Exec(task, _, listing) =>
      assert Disciplined(w.tasks[task]);
      ContinueDisciplined(env, w.reg, w.store, w.tasks[task][0], w.tasks[task][1..], listing);
    case _ =>
  }

  // ---------- one step ----------

  /** Performing anything but the restart itself leaves a debt standing. */
  lemma DebtStands(env: Env, w: World, step: Step, n: Name, k: nat)
    requires Enabled(w, step) && k < |w.tasks| && Owes(w.tasks[k], n)
    requires step.Exec? ==> w.tasks[step.task][0] != RequestRestart(n)
    requires !step.Die? && !step.EndShutdown?
    ensures k < |NextTasks(env, w, step)| && Owes(NextTasks(env, w, step)[k], n)
  {
  }

  lemma LastStep(env: Env, w: World, steps: seq<Step>)
    requires steps != []
    ensures Run(env, w, steps) == Next(env, Run(env, w, steps[..|steps| - 1]), steps[|steps| - 1])
    ensures steps[..|steps|] == steps
  {
  }

  lemma ReconcileFresh(c: Cell, apps: map<Name, AppRow>, n: Name, now: nat, luck: Luck, kernel: Option<Bytes>)
    requires CellInv(c, Up, now) && n in apps
    ensures var c' := ReconcileCell(c, Some(apps[n]), now, luck, kernel);
            Fresh(c', apps, n)
            || (EntryOf(c').child == EntryOf(c).child && EntryOf(c').child.Some? && EntryOf(c).termDeadline.None?
                && EntryOf(c').child.value < |c.instances| && EntryOf(c').child.value < |c'.instances|
                && c'.instances[EntryOf(c').child.value].launch == c.instances[EntryOf(c').child.value].launch)
  {
    ReapKeeps(c, now, luck.waitErr);
    var c1 := Reap(c, now, luck.waitErr);
    assert EntryOf(c1).child.Some? ==> c1 == Escalate(c, EntryOf(c), now);
    DriveFresh(c1, apps, n, now, luck.spawn, kernel);
  }

  lemma DriveFresh(c: Cell, apps: map<Name, AppRow>, n: Name, now: nat, spawn: Spawn, kernel: Option<Bytes>)
    requires CellInv(c, Up, now) && n in apps
    ensures var c' := Drive(c, apps[n], now, spawn, kernel);
            Fresh(c', apps, n)
            || (EntryOf(c').child == EntryOf(c).child && EntryOf(c').child.Some? && EntryOf(c).termDeadline.None?
                && EntryOf(c').child.value < |c'.instances| == |c.instances|
                && c'.instances[EntryOf(c').child.value].launch == c.instances[EntryOf(c').child.value].launch)
  {
    var m := EntryOf(c);
    var c' := Drive(c, apps[n], now, spawn, kernel);
    if m.child.None? && apps[n].desired.WantRunning? && MayStart(m, apps[n], now) && spawn.SpawnOk? {
      assert c'.instances[|c.instances|].launch == LaunchOf(apps[n]);
    }
  }

  lemma QuietRow(reg: RegState, op: Op, n: Name)
    requires !ChangesLaunch(op, n) && n in reg.apps
    ensures n in ApplyReg(reg, op).apps && LaunchOf(ApplyReg(reg, op).apps[n]) == LaunchOf(reg.apps[n])
  {
  }

  /** Performing the restart request makes the termination pending. */
  lemma RestartPends(c: Cell, apps: map<Name, AppRow>, n: Name, now: nat)
    requires CellInv(c, Up, now)
    ensures Fresh(RestartCell(c, now), apps, n)
  {
  }

  lemma Restarted(c: Cell, now: nat)
    ensures CellNext(c, Restarting, now) == RestartCell(c, now)
  {
  }

  lemma SweptFresh(w: World, step: Step, n: Name)
    requires WorldInv(w) && step.Sweep? && Enabled(w, step)
    ensures Fresh(NextCells(w, step)(n), NextReg(w, step).apps, n)
  {
    assert CellInv(w.cells(n), w.phase, w.now);
    assert NextCells(w, step)(n).managed.None?;
  }

  lemma FreshCarries(w: World, step: Step, n: Name)
    requires CellInv(w.cells(n), Up, w.now) && w.phase.Up? && Enabled(w, step) && NextPhase(w, step).Up?
    requires n !in w.reg.apps ==> Unregistered(w.cells(n))
    requires Fresh(w.cells(n), w.reg.apps, n)
    requires step.Exec? ==> w.tasks[step.task][0] != RequestRestart(n) && !ChangesLaunch(w.tasks[step.task][0], n)
    ensures Fresh(NextCells(w, step)(n), NextReg(w, step).apps, n)
  {
    hide ReconcileCell, CellInv;
    var c, a := w.cells(n), ActionOf(w, step, n);
    if step.Exec? && n in w.reg.apps {
      QuietRow(w.reg, w.tasks[step.task][0], n);
    }
    if a.Reconciling? {
      if n in w.reg.apps {
        ReconcileFresh(c, w.reg.apps, n, w.now, a.luck, a.kernel);
      } else {
        UnregisteredStep(c, Up, w.now, a.luck, true, 0);
      }
    }
  }

  // ---------- when exactly freshness is lost ----------

  /** Handlers that change a row do not touch the processes. */
  lemma ChangeKeepsCell(w: World, step: Step, n: Name)
    requires step.Exec? && Enabled(w, step) && ChangesLaunch(w.tasks[step.task][0], n)
    ensures NextCells(w, step)(n) == w.cells(n)
  {
  }

  /** A fresh app stays fresh exactly when the step does not change its row under a process that
      nobody has told to stop. */
  lemma FreshStepIff(env: Env, w: World, step: Step, n: Name)
    requires WorldInv(w) && w.phase.Up? && Next(env, w, step).phase.Up?
    requires Fresh(w.cells(n), w.reg.apps, n)
    ensures Fresh(Next(env, w, step).cells(n), Next(env, w, step).reg.apps, n) <==> !Disturbs(w, step, n)
  {
    hide CellNext, CellInv;
    var c := w.cells(n);
    assert CellInv(c, w.phase, w.now);
    if Enabled(w, step) {
      if step.Exec? && w.tasks[step.task][0] == RequestRestart(n) {
        RestartPends(c, NextReg(w, step).apps, n, w.now);
        Restarted(c, w.now);
      } else if step.Exec? && ChangesLaunch(w.tasks[step.task][0], n) {
        ChangeKeepsCell(w, step, n);
      } else {
        FreshCarries(w, step, n);
      }
    }
  }

  /** Up and fresh, or not up. */
  ghost predicate Calm(w: World, n: Name) { w.phase.Up? ==> Fresh(w.cells(n), w.reg.apps, n) }

  lemma CalmStepIff(env: Env, w: World, step: Step, n: Name)
    requires WorldInv(w) && Calm(w, n)
    ensures Calm(Next(env, w, step), n) <==> !Disturbs(w, step, n)
  {
    hide Fresh, CellNext;
    if Next(env, w, step).phase.Up? {
      if w.phase.Up? {
        FreshStepIff(env, w, step, n);
      } else {
        SweptFresh(w, step, n);
      }
    }
  }

  /** In every run: the process an app holds was, whenever the daemon was up and had not told it to
      stop, started from the row of that moment, exactly when no step changed the row under such a
      process. */
  lemma {:induction false} FreshAllAlongIff(env: Env, w: World, steps: seq<Step>, n: Name)
    requires Init(w)
    ensures (forall k :: 0 <= k <= |steps| ==> Calm(Run(env, w, steps[..k]), n))
            <==> (forall k :: 0 <= k < |steps| ==> !Disturbs(Run(env, w, steps[..k]), steps[k], n))
  {
    if steps == [] {
      assert steps[..0] == [];
    } else {
      var front, last := steps[..|steps| - 1], steps[|steps| - 1];
      FreshAllAlongIff(env, w, front, n);
      RunKeeps(env, w, front);
      LastStep(env, w, steps);
      if Calm(Run(env, w, front), n) { CalmStepIff(env, Run(env, w, front), last, n); }
      SplitCalm(env, w, steps, n);
    }
  }

  /** Splitting both sides of the equivalence at the last step. */
  lemma SplitCalm(env: Env, w: World, steps: seq<Step>, n: Name)
    requires steps != []
    ensures var front := steps[..|steps| - 1];
            && ((forall k :: 0 <= k <= |steps| ==> Calm(Run(env, w, steps[..k]), n))
                <==> (&& (forall k :: 0 <= k <= |front| ==> Calm(Run(env, w, front[..k]), n))
                      && Calm(Run(env, w, steps), n)))
            && ((forall k :: 0 <= k < |steps| ==> !Disturbs(Run(env, w, steps[..k]), steps[k], n))
                <==> (forall k :: 0 <= k < |front| ==> !Disturbs(Run(env, w, front[..k]), front[k], n))
                     && !Disturbs(Run(env, w, front), steps[|steps| - 1], n))
            && ((forall k :: 0 <= k <= |front| ==> Calm(Run(env, w, front[..k]), n)) ==> Calm(Run(env, w, front), n))
  {
    hide Calm, Disturbs, Run;
    var front := steps[..|steps| - 1];
    assert forall k :: 0 <= k <= |front| ==> front[..k] == steps[..k];
    assert steps[..|steps|] == steps && front[..|front|] == front && steps[..|front|] == front;
  }

  // ---------- a stale process has a debtor ----------

  /** A stale app that stays stale holds the same process, and no restart was requested. */
  lemma StaleCarries(env: Env, w: World, step: Step, n: Name)
    requires WorldInv(w) && w.phase.Up? && Next(env, w, step).phase.Up?
    requires !Fresh(Next(env, w, step).cells(n), Next(env, w, step).reg.apps, n)
    ensures EntryOf(Next(env, w, step).cells(n)).child == EntryOf(w.cells(n)).child
    ensures Enabled(w, step) && step.Exec? ==> w.tasks[step.task][0] != RequestRestart(n)
  {
    hide ReconcileCell, CellInv;
    assert CellInv(w.cells(n), w.phase, w.now);
    if Enabled(w, step) {
      var c, a := w.cells(n), ActionOf(w, step, n);
      if step.Exec? && w.tasks[step.task][0] == RequestRestart(n) {
        RestartPends(c, NextReg(w, step).apps, n, w.now);
      } else if a.Reconciling? {
        if n in w.reg.apps {
          ReconcileFresh(c, w.reg.apps, n, w.now, a.luck, a.kernel);
        } else {
          UnregisteredStep(c, Up, w.now, a.luck, true, 0);
        }
      }
    }
  }

  lemma LaunchStaysInCell(c: Cell, a: Action, now: nat, i: nat)
    requires i < |c.instances|
    ensures var c' := CellNext(c, a, now); i < |c'.instances| && c'.instances[i].launch == c.instances[i].launch
  {
    hide Drive, Reap;
    if a.Reconciling? {
      ReapLaunches(c, now, a.luck.waitErr, i);
      if a.row.Some? { DriveLaunches(Reap(c, now, a.luck.waitErr), a.row.value, now, a.luck.spawn, a.kernel, i); }
    }
  }

  lemma ReapLaunches(c: Cell, now: nat, waitErr: bool, i: nat)
    requires i < |c.instances|
    ensures var c' := Reap(c, now, waitErr); i < |c'.instances| && c'.instances[i].launch == c.instances[i].launch
  {
  }

  lemma DriveLaunches(c: Cell, row: AppRow, now: nat, spawn: Spawn, kernel: Option<Bytes>, i: nat)
    requires i < |c.instances|
    ensures var c' := Drive(c, row, now, spawn, kernel);
            i < |c'.instances| && c'.instances[i].launch == c.instances[i].launch
  {
  }

  /** What a process was started from never changes. */
  lemma {:induction false} LaunchStays(env: Env, w: World, steps: seq<Step>, n: Name, i: nat, j: nat)
    requires j <= |steps| && i < |Run(env, w, steps[..j]).cells(n).instances|
    ensures i < |Run(env, w, steps).cells(n).instances|
    ensures Run(env, w, steps).cells(n).instances[i].launch == Run(env, w, steps[..j]).cells(n).instances[i].launch
  {
    if j == |steps| {
      assert steps[..j] == steps;
    } else {
      hide CellNext;
      var front, last := steps[..|steps| - 1], steps[|steps| - 1];
      assert front[..j] == steps[..j];
      LaunchStays(env, w, front, n, i, j);
      var w1 := Run(env, w, front);
      if Enabled(w1, last) { LaunchStaysInCell(w1.cells(n), ActionOf(w1, last, n), w1.now, i); }
    }
  }

  /** Changing the row under a fresh process runs up a debt. */
  lemma DebtBegins(env: Env, w: World, steps: seq<Step>, n: Name)
    requires steps != []
    requires var w1, step := Run(env, w, steps[..|steps| - 1]), steps[|steps| - 1];
             AllDisciplined(w1) && Disturbs(w1, step, n) && Fresh(w1.cells(n), w1.reg.apps, n)
    ensures InDebt(env, w, steps, n)
  {
    var j := |steps| - 1;
    var w1, step := Run(env, w, steps[..j]), steps[j];
    LastStep(env, w, steps);
    ChangeKeepsCell(w1, step, n);
    assert Disciplined(w1.tasks[step.task]);
    assert Overtaken(env, w, steps, n, EntryOf(w1.cells(n)).child.value, j);
  }

  lemma DebtCarries(env: Env, w: World, steps: seq<Step>, n: Name)
    requires steps != [] && Init(w) && InDebt(env, w, steps[..|steps| - 1], n)
    requires var w1, w' := Run(env, w, steps[..|steps| - 1]), Run(env, w, steps);
             w1.phase.Up? && w'.phase.Up? && !Fresh(w'.cells(n), w'.reg.apps, n)
    ensures InDebt(env, w, steps, n)
  {
    hide Fresh, Overtaken, Run;
    var front, last := steps[..|steps| - 1], steps[|steps| - 1];
    LastStep(env, w, steps);
    RunKeeps(env, w, front);
    StaleCarries(env, Run(env, w, front), last, n);
    var i := EntryOf(Run(env, w, front).cells(n)).child.value;
    var j: nat :| Overtaken(env, w, front, n, i, j);
    DebtOfCarries(env, w, steps, n, i, j);
  }

  lemma DebtOfCarries(env: Env, w: World, steps: seq<Step>, n: Name, i: nat, j: nat)
    requires steps != [] && Overtaken(env, w, steps[..|steps| - 1], n, i, j)
    requires var w1, w', step := Run(env, w, steps[..|steps| - 1]), Run(env, w, steps), steps[|steps| - 1];
             && w1.phase.Up? && w'.phase.Up? && !Fresh(w'.cells(n), w'.reg.apps, n)
             && EntryOf(w'.cells(n)).child == Some(i)
             && (Enabled(w1, step) && step.Exec? ==> w1.tasks[step.task][0] != RequestRestart(n))
    ensures Overtaken(env, w, steps, n, i, j)
  {
    hide Run, Owes, ApplyReg, Enabled;
    var front := steps[..|steps| - 1];
    var w1, step := Run(env, w, front), steps[|steps| - 1];
    LastStep(env, w, steps);
    forall k | 0 <= k <= |front| ensures front[..k] == steps[..k] {}
    LaunchStays(env, w, steps, n, i, j);
    if Enabled(w1, step) {
      AppsGrow(w1, step);
      DebtStands(env, w1, step, n, steps[j].task);
    }
  }

  lemma OnlyUpDisturbs(w: World, step: Step, n: Name)
    ensures Disturbs(w, step, n) ==> w.phase.Up?
  {
  }

  ghost predicate FreshRun(env: Env, w: World, steps: seq<Step>) {
    && AllDisciplined(Run(env, w, steps))
    && (Run(env, w, steps).phase.Up? ==>
          forall n: Name :: Fresh(Run(env, w, steps).cells(n), Run(env, w, steps).reg.apps, n)
            || InDebt(env, w, steps, n))
  }

  lemma FreshStep(env: Env, w: World, steps: seq<Step>, n: Name)
    requires steps != [] && Init(w) && FreshRun(env, w, steps[..|steps| - 1]) && Run(env, w, steps).phase.Up?
    ensures Fresh(Run(env, w, steps).cells(n), Run(env, w, steps).reg.apps, n) || InDebt(env, w, steps, n)
  {
    hide Fresh, InDebt, Run, Disturbs;
    var w1, w', last := Run(env, w, steps[..|steps| - 1]), Run(env, w, steps), steps[|steps| - 1];
    LastStep(env, w, steps);
    RunKeeps(env, w, steps[..|steps| - 1]);
    if !w1.phase.Up? {
      CalmStepIff(env, w1, last, n);
      OnlyUpDisturbs(w1, last, n);
    } else if Fresh(w1.cells(n), w1.reg.apps, n) {
      FreshStepIff(env, w1, last, n);
      if Disturbs(w1, last, n) { DebtBegins(env, w, steps, n); }
    } else if !Fresh(w'.cells(n), w'.reg.apps, n) {
      DebtCarries(env, w, steps, n);
    }
  }

  lemma {:induction false} RunFresh(env: Env, w: World, steps: seq<Step>)
    requires Init(w)
    ensures FreshRun(env, w, steps)
  {
    if steps != [] {
      var front := steps[..|steps| - 1];
      RunFresh(env, w, front);
      RunKeeps(env, w, front);
      if Enabled(Run(env, w, front), steps[|steps| - 1]) {
        TasksDisciplined(env, Run(env, w, front), steps[|steps| - 1]);
      }
      if Run(env, w, steps).phase.Up? {
        forall n: Name
          ensures Fresh(Run(env, w, steps).cells(n), Run(env, w, steps).reg.apps, n) || InDebt(env, w, steps, n)
        {
          FreshStep(env, w, steps, n);
        }
      }
    }
  }

  // ---------- what it means for every run ----------

  /** While the daemon is up, a live process with no termination pending was started from anything
      but the app row's present artifact, args, port and endpoint exactly when a handler changed the
      row under it and that handler is still certain to request the restart. */
  lemma {:induction false} NoSilentStale(env: Env, w: World, steps: seq<Step>, n: Name, i: nat)
    requires Init(w) && Run(env, w, steps).phase.Up?
    requires Alive(Run(env, w, steps).cells(n), i)
    requires EntryOf(Run(env, w, steps).cells(n)).termDeadline.None?
    ensures var w' := Run(env, w, steps);
            !(n in w'.reg.apps && w'.cells(n).instances[i].launch == LaunchOf(w'.reg.apps[n]))
            <==> exists j: nat :: Overtaken(env, w, steps, n, i, j)
  {
    hide Run;
    var w' := Run(env, w, steps);
    SingleWriter(env, w, steps, n, i, i);
    RunFresh(env, w, steps);
    assert Fresh(w'.cells(n), w'.reg.apps, n) || InDebt(env, w, steps, n);
    if j: nat :| Overtaken(env, w, steps, n, i, j) {
      LaunchStays(env, w, steps, n, i, j);
    }
  }
}
