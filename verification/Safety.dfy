/** Safety over whole runs: one writer per app, grace before kill, honest bookkeeping. */
module Safety {
  import opened Prelude
  import opened Lifecycle
  import opened CellInvariant
  import opened Control
  import opened World

  /** Nothing has ever been started, or is tracked, for a name the registry does not list. */
  predicate Unregistered(c: Cell) { c.managed.None? && c.instances == [] }

  ghost predicate WorldInv(w: World) {
    && (forall n: Name :: CellInv(w.cells(n), w.phase, w.now))
    && (forall n: Name :: n !in w.reg.apps ==> Unregistered(w.cells(n)))
  }

  /** The drop pass of `reconcile` and the sweep find nothing to do for unlisted names. */
  lemma UnregisteredStep(c: Cell, phase: Phase, now: nat, luck: Luck, exits: bool, waited: nat)
    requires CellInv(c, phase, now) && Unregistered(c)
    ensures CellNext(c, Reconciling(None, luck, None), now) == c
    ensures CellNext(c, Sweeping(exits, waited), now) == c
  {
  }

  lemma CellKeeps(w: World, step: Step, n: Name)
    requires WorldInv(w) && Enabled(w, step)
    ensures CellInv(CellNext(w.cells(n), ActionOf(w, step, n), w.now), NextPhase(w, step), NextNow(w, step))
  {
    hide ReconcileCell;
    var c, a := w.cells(n), ActionOf(w, step, n);
    assert CellInv(c, w.phase, w.now);
    if n !in w.reg.apps {
      assert Unregistered(c);
      var luck := match step case Tick(l) => l(n) case Exec(_, l, _) => l(n) case _ => Luck(false, SpawnOk);
      UnregisteredStep(c, w.phase, w.now, luck, true, NextNow(w, step) - w.now);
    }
    if a.Reconciling? && a.row.None? {
      CellStep(c, Idle, w.phase, w.now, NextPhase(w, step), NextNow(w, step));
    } else if step.Sweep? && a.Idle? {
      CellStep(c, Sweeping(true, step.waited), w.phase, w.now, NextPhase(w, step), NextNow(w, step));
    } else if step.Boot? {
      ForgetKeeps(c, Down, w.now);
    } else {
      CellStep(c, a, w.phase, w.now, NextPhase(w, step), NextNow(w, step));
    }
  }

  lemma AppsGrow(w: World, step: Step)
    requires Enabled(w, step)
    ensures w.reg.apps.Keys <= NextReg(w, step).apps.Keys
  {
  }

  lemma UnregisteredKeeps(w: World, step: Step, n: Name)
    requires WorldInv(w) && Enabled(w, step) && n !in NextReg(w, step).apps
    ensures Unregistered(CellNext(w.cells(n), ActionOf(w, step, n), w.now))
  {
    AppsGrow(w, step);
    assert CellInv(w.cells(n), w.phase, w.now) && Unregistered(w.cells(n));
  }

  lemma StepKeeps(env: Env, w: World, step: Step)
    requires WorldInv(w)
    ensures WorldInv(Next(env, w, step))
  {
    if Enabled(w, step) {
      var w' := Next(env, w, step);
      forall n: Name ensures CellInv(w'.cells(n), w'.phase, w'.now) {
        CellKeeps(w, step, n);
      }
      forall n: Name | n !in w'.reg.apps ensures Unregistered(w'.cells(n)) {
        UnregisteredKeeps(w, step, n);
      }
    }
  }

  lemma InitInv(w: World)
    requires Init(w)
    ensures WorldInv(w)
  {
    forall n: Name ensures CellInv(w.cells(n), w.phase, w.now) {
      assert w.cells(n) == BLANK;
    }
  }

  lemma {:induction false} RunFromKeeps(env: Env, w: World, steps: seq<Step>)
    requires WorldInv(w)
    ensures WorldInv(Run(env, w, steps))
  {
    if steps != [] {
      RunFromKeeps(env, w, steps[..|steps| - 1]);
      StepKeeps(env, Run(env, w, steps[..|steps| - 1]), steps[|steps| - 1]);
    }
  }

  lemma {:induction false} RunKeeps(env: Env, w: World, steps: seq<Step>)
    requires Init(w)
    ensures WorldInv(Run(env, w, steps))
  {
    InitInv(w);
    RunFromKeeps(env, w, steps);
  }

  ghost predicate Reachable(env: Env, w: World) {
    exists w0, steps :: Init(w0) && w == Run(env, w0, steps)
  }

  lemma ReachableInv(env: Env, w: World)
    requires Reachable(env, w)
    ensures WorldInv(w)
  {
    var w0, steps :| Init(w0) && w == Run(env, w0, steps);
    RunKeeps(env, w0, steps);
  }

  // ---------- what it means for every run ----------

  /** No app ever has two live processes; the live one is named by its pidfile at all times,
      and while the daemon is up it is the unreaped child the daemon holds. */
  lemma {:induction false} SingleWriter(env: Env, w: World, steps: seq<Step>, n: Name, i: nat, j: nat)
    requires Init(w)
    requires Alive(Run(env, w, steps).cells(n), i) && Alive(Run(env, w, steps).cells(n), j)
    ensures i == j
    ensures Run(env, w, steps).cells(n).pidfile == Some(i)
    ensures Run(env, w, steps).phase.Up? ==>
              && EntryOf(Run(env, w, steps).cells(n)).child == Some(i)
              && Run(env, w, steps).cells(n).instances[i].fate.Unreaped?
  {
    RunKeeps(env, w, steps);
    var w' := Run(env, w, steps);
    assert CellInv(w'.cells(n), w'.phase, w'.now);
    assert ProcessSound(w'.cells(n), i, w'.now) && ProcessSound(w'.cells(n), j, w'.now);
  }

  /** Every SIGKILL anyone ever sends comes at least ten seconds after the first SIGTERM to the
      same process: from `reconcile`, from `cleanup_orphans` and from `stop_all` alike. */
  lemma {:induction false} GraceBeforeKill(env: Env, w: World, steps: seq<Step>, n: Name, i: nat, k: nat)
    requires Init(w)
    requires i < |Run(env, w, steps).cells(n).instances|
    requires k < |Run(env, w, steps).cells(n).instances[i].signals|
    requires Run(env, w, steps).cells(n).instances[i].signals[k].Kill?
    ensures var signals := Run(env, w, steps).cells(n).instances[i].signals;
            0 < k && signals[0].Term? && signals[0].at + 10 <= signals[k].at
  {
    RunKeeps(env, w, steps);
    var w' := Run(env, w, steps);
    assert CellInv(w'.cells(n), w'.phase, w'.now);
    assert ProcessSound(w'.cells(n), i, w'.now);
  }

  /** An exit is charged as a crash exactly when the process was reaped without ever having
      been sent a signal. */
  lemma {:induction false} CrashIffUnsignalled(env: Env, w: World, steps: seq<Step>, n: Name, i: nat)
    requires Init(w)
    requires i < |Run(env, w, steps).cells(n).instances|
    requires !Run(env, w, steps).cells(n).instances[i].fate.Unreaped?
    ensures var p := Run(env, w, steps).cells(n).instances[i];
            p.fate.ReapedCrash? <==> forall k :: 0 <= k < |p.signals| ==> !p.signals[k].Term?
  {
    RunKeeps(env, w, steps);
    var w' := Run(env, w, steps);
    assert CellInv(w'.cells(n), w'.phase, w'.now);
    assert ProcessSound(w'.cells(n), i, w'.now);
  }

  function Reaped(ps: seq<Instance>, from: nat): nat {
    if |ps| <= from then 0
    else Reaped(ps[..|ps| - 1], from) + if ps[|ps| - 1].fate.Unreaped? then 0 else 1
  }

  lemma {:induction false} AllReaped(ps: seq<Instance>, from: nat, held: Option<nat>)
    requires from <= |ps|
    requires forall i | from <= i < |ps| :: ps[i].fate.Unreaped? <==> held == Some(i)
    requires held.Some? ==> from <= held.value < |ps|
    ensures Reaped(ps, from) == |ps| - from - if held.Some? then 1 else 0
  {
    if |ps| > from {
      var front := ps[..|ps| - 1];
      var held' := if held == Some(|ps| - 1) then None else held;
      assert forall i | from <= i < |front| :: front[i] == ps[i];
      AllReaped(front, from, held');
    }
  }

  /** Since this daemon started: starts minus reaped exits is one with a child and zero
      without, and `restarts` is the number of crash and error events. */
  lemma {:induction false} Conservation(env: Env, w: World, steps: seq<Step>, n: Name)
    requires Init(w) && Run(env, w, steps).phase.Up?
    ensures var c := Run(env, w, steps).cells(n);
            && Starts(c.log, c.mark) - Reaped(c.instances, c.born) == (if EntryOf(c).child.Some? then 1 else 0)
            && EntryOf(c).restarts == Charges(c.log, c.mark)
  {
    RunKeeps(env, w, steps);
    var w' := Run(env, w, steps);
    var c := w'.cells(n);
    assert CellInv(c, w'.phase, w'.now);
    AllReaped(c.instances, c.born, EntryOf(c).child);
  }

  /** While the daemon is up: a child is held exactly when the state is Running or Stopping;
      Stopping or a restart request means a pending deadline, which means a child; the next
      start is never more than a minute away. */
  lemma {:induction false} StateCoherence(env: Env, w: World, steps: seq<Step>, n: Name)
    requires Init(w) && Run(env, w, steps).phase.Up?
    ensures var m := EntryOf(Run(env, w, steps).cells(n));
            && (m.child.Some? <==> m.state.Running? || m.state.Stopping?)
            && (m.state.Stopping? || m.restartRequested ==> m.termDeadline.Some?)
            && (m.termDeadline.Some? ==> m.child.Some?)
            && m.pid == m.child
            && m.backoffUntil <= Run(env, w, steps).now + 60
  {
    RunKeeps(env, w, steps);
    assert CellInv(Run(env, w, steps).cells(n), Run(env, w, steps).phase, Run(env, w, steps).now);
  }

  /** The entry of a held child tells when that child was started. */
  lemma {:induction false} StartTimeHonest(env: Env, w: World, steps: seq<Step>, n: Name)
    requires Init(w) && Run(env, w, steps).phase.Up?
    requires EntryOf(Run(env, w, steps).cells(n)).child.Some?
    ensures var c := Run(env, w, steps).cells(n);
            && EntryOf(c).child.value < |c.instances|
            && EntryOf(c).startedAt == c.instances[EntryOf(c).child.value].startedAt
  {
    RunKeeps(env, w, steps);
    assert CellInv(Run(env, w, steps).cells(n), Run(env, w, steps).phase, Run(env, w, steps).now);
  }

  // ---------- who is alive when ----------

  /** The orphan sweep leaves no process of any app, whatever the last daemon left behind. */
  lemma {:induction false} SweepLeavesNone(env: Env, w: World, steps: seq<Step>, sweep: Step, n: Name, i: nat)
    requires Init(w) && sweep.Sweep? && Enabled(Run(env, w, steps), sweep)
    ensures !Alive(Next(env, Run(env, w, steps), sweep).cells(n), i)
  {
    RunKeeps(env, w, steps);
    var w1 := Run(env, w, steps);
    assert CellInv(w1.cells(n), w1.phase, w1.now);
    SweptNone(w1.cells(n), w1.now, n in sweep.exits, sweep.waited, i);
  }

  lemma SweptNone(c: Cell, now: nat, exits: bool, waited: nat, i: nat)
    requires ProcessesSound(c, now)
    ensures !Alive(SweepCell(c, now, exits, waited), i)
    ensures !Orphaned(c) ==> !Alive(c, i)
  {
    if i < |c.instances| { assert ProcessSound(c, i, now); }
  }

  lemma StoppedNone(c: Cell, since: nat, now: nat, i: nat)
    requires ProcessesSound(c, now) && ClosingCell(c, since)
    ensures !Alive(ForgetCell(EndStopCell(c, now)), i)
  {
    if i < |c.instances| { assert ProcessSound(c, i, now); }
  }

  /** A clean shutdown leaves none either. */
  lemma {:induction false} ShutdownLeavesNone(env: Env, w: World, steps: seq<Step>, n: Name, i: nat)
    requires Init(w) && Enabled(Run(env, w, steps), EndShutdown)
    ensures !Alive(Next(env, Run(env, w, steps), EndShutdown).cells(n), i)
  {
    hide Run, ForgetCell;
    RunKeeps(env, w, steps);
    var w1 := Run(env, w, steps);
    assert CellInv(w1.cells(n), w1.phase, w1.now);
    StoppedNone(w1.cells(n), w1.phase.since, w1.now, i);
  }

  /** A process is started only by a daemon that is up and not shutting down, only for an app
      that should run, and only when no process of that app is alive. */
  lemma {:induction false} StartsOnlyAlone(env: Env, w: World, steps: seq<Step>, step: Step, n: Name)
    requires Init(w)
    requires |Next(env, Run(env, w, steps), step).cells(n).instances| != |Run(env, w, steps).cells(n).instances|
    ensures var w1 := Run(env, w, steps);
            && w1.phase.Up? && n in w1.reg.apps && w1.reg.apps[n].desired.WantRunning?
            && forall i: nat :: !Alive(w1.cells(n), i)
  {
    RunKeeps(env, w, steps);
    var w1 := Run(env, w, steps);
    var c := w1.cells(n);
    assert CellInv(c, w1.phase, w1.now);
    StartTarget(c, ActionOf(w1, step, n), w1.now);
    forall i: nat ensures !Alive(c, i) {
      if i < |c.instances| { assert ProcessSound(c, i, w1.now); }
    }
  }

  lemma StartTarget(c: Cell, a: Action, now: nat)
    requires |CellNext(c, a, now).instances| != |c.instances|
    requires a.Reconciling? ==> CellInv(c, Up, now)
    ensures a.Reconciling? && a.row.Some? && a.row.value.desired.WantRunning?
    ensures forall i: nat :: i < |c.instances| && c.pidfile == Some(i) ==> !c.instances[i].alive
  {
    if a.Reconciling? {
      var c1 := Reap(c, now, a.luck.waitErr);
      assert |c1.instances| == |c.instances|;
      ReapKeeps(c, now, a.luck.waitErr);
      if a.row.Some? { DriveStarts(c1, a.row.value, now, a.luck.spawn, a.kernel); }
    }
  }

  lemma DriveStarts(c: Cell, row: AppRow, now: nat, spawn: Spawn, kernel: Option<Bytes>)
    requires CellInv(c, Up, now)
    requires |Drive(c, row, now, spawn, kernel).instances| != |c.instances|
    ensures row.desired.WantRunning? && EntryOf(c).child.None?
  {
  }

  /** Every tracked app is registered, so the drop pass of `reconcile` never fires. */
  lemma {:induction false} DropUnreachable(env: Env, w: World, steps: seq<Step>, n: Name)
    requires Init(w) && Run(env, w, steps).cells(n).managed.Some?
    ensures n in Run(env, w, steps).reg.apps
  {
    RunKeeps(env, w, steps);
  }

  predicate SignalledBetween(c: Cell, c': Cell, i: nat) {
    i < |c.instances| && i < |c'.instances| && c'.instances[i].signals != c.instances[i].signals
  }

  /** While the daemon is up, no step signals anything but the unreaped child it holds. */
  lemma {:induction false} SignalsOnlyHeldChild(env: Env, w: World, steps: seq<Step>, step: Step, n: Name, i: nat)
    requires Init(w) && Run(env, w, steps).phase.Up?
    requires SignalledBetween(Run(env, w, steps).cells(n), Next(env, Run(env, w, steps), step).cells(n), i)
    ensures EntryOf(Run(env, w, steps).cells(n)).child == Some(i)
    ensures Run(env, w, steps).cells(n).instances[i].fate.Unreaped?
  {
    RunKeeps(env, w, steps);
    var w1 := Run(env, w, steps);
    var c := w1.cells(n);
    assert CellInv(c, w1.phase, w1.now);
    SignalTarget(c, ActionOf(w1, step, n), w1.now, i);
  }

  lemma SignalTarget(c: Cell, a: Action, now: nat, i: nat)
    requires CellInv(c, Up, now) && !a.Sweeping? && !a.EndStop?
    requires SignalledBetween(c, CellNext(c, a, now), i)
    ensures EntryOf(c).child == Some(i) && c.instances[i].fate.Unreaped?
  {
    if a.Reconciling? {
      ReconcileTarget(c, a.row, a.luck, a.kernel, now, i);
    }
  }

  lemma ReconcileTarget(c: Cell, row: Option<AppRow>, luck: Luck, kernel: Option<Bytes>, now: nat, i: nat)
    requires CellInv(c, Up, now)
    requires SignalledBetween(c, ReconcileCell(c, row, now, luck, kernel), i)
    ensures EntryOf(c).child == Some(i)
  {
    ReapKeeps(c, now, luck.waitErr);
    var c1 := Reap(c, now, luck.waitErr);
    ReapTarget(c, now, luck.waitErr, i);
    if row.Some? {
      DriveTarget(c1, row.value, now, luck.spawn, kernel, i);
    }
  }

  lemma ReapTarget(c: Cell, now: nat, waitErr: bool, i: nat)
    requires CellInv(c, Up, now) && i < |c.instances|
    ensures |Reap(c, now, waitErr).instances| == |c.instances|
    ensures SignalledBetween(c, Reap(c, now, waitErr), i) ==> EntryOf(c).child == Some(i)
    ensures EntryOf(Reap(c, now, waitErr)).child.Some? ==> EntryOf(Reap(c, now, waitErr)).child == EntryOf(c).child
  {
  }

  lemma DriveTarget(c: Cell, row: AppRow, now: nat, spawn: Spawn, kernel: Option<Bytes>, i: nat)
    requires CellInv(c, Up, now) && i < |c.instances|
    ensures SignalledBetween(c, Drive(c, row, now, spawn, kernel), i) ==> EntryOf(c).child == Some(i)
  {
  }
}
