/** The kernel file in an app's state dir: whose it is, over whole runs. */
module LeftoverKernel {
  import opened Prelude
  import opened Lifecycle
  import opened CellInvariant
  import opened Attest
  import opened Control
  import opened ContentStore
  import opened World
  import opened Safety
  import opened Throttle
  import opened Atomic
  import opened Served
  import opened WholeHandlers
  import opened Stages

  /** A start was attempted: its event is the newest in the log. */
  predicate Tried(c: Cell, c': Cell) {
    c'.log != c.log && c'.log != [] && IsAttempt(c'.log[|c'.log| - 1])
  }

  /** What the environment does to a staging for `n` at this step. */
  function SpawnOf(step: Step, n: Name): Spawn {
    match step
    case Tick(luck) => luck(n).spawn
    case Exec(_, luck, _) => luck(n).spawn
    case _ => SpawnOk
  }

  /** What an attempt at this point writes into the state dir: the kernel of the artifact, if it
      has one, or whatever a failing copy leaves. */
  datatype Written = Untouched | Wrote(file: Option<Bytes>)

  function WrittenBy(spawn: Spawn, kernel: Option<Bytes>): Written {
    match spawn
    case StageFails(left) => Wrote(left)
    case _ => if kernel.Some? then Wrote(kernel) else Untouched
  }

  function Onto(staged: Option<Bytes>, x: Written): Option<Bytes> { if x.Wrote? then x.file else staged }

  /** What step `k` wrote into the state dir of `n`: something only if it attempted a start. */
  ghost function WrittenAt(env: Env, w: World, step: Step, n: Name): Written {
    if Tried(w.cells(n), Next(env, w, step).cells(n)) then
      WrittenBy(SpawnOf(step, n), KernelFor(w.reg.apps, w.store.jams, n))
    else Untouched
  }

  ghost predicate WroteAt(env: Env, w: World, steps: seq<Step>, n: Name, k: nat) {
    k < |steps| && WrittenAt(env, Run(env, w, steps[..k]), steps[k], n).Wrote?
  }

  /** `k` was the last attempt to write there, and it left `kernel`. */
  ghost predicate LastWrote(env: Env, w: World, steps: seq<Step>, n: Name, k: nat, kernel: Bytes) {
    && k < |steps| && WrittenAt(env, Run(env, w, steps[..k]), steps[k], n) == Wrote(Some(kernel))
    && forall i: nat :: k < i < |steps| ==> !WroteAt(env, w, steps, n, i)
  }

  lemma StagingAction(c: Cell, a: Action, now: nat)
    requires a.Reconciling? && a.row.None? ==> c.managed.None?
    ensures var c' := CellNext(c, a, now);
            c'.staged == if a.Reconciling? && Tried(c, c') then Onto(c.staged, WrittenBy(a.luck.spawn, a.kernel))
              else c.staged
    ensures !a.Reconciling? ==> !Tried(c, CellNext(c, a, now))
  {
    if a.Reconciling? && a.row.Some? {
      hide ReconcileCell;
      PassStages(c, a.row.value, now, a.luck, a.kernel);
    }
  }

  lemma PassStages(c: Cell, row: AppRow, now: nat, luck: Luck, kernel: Option<Bytes>)
    ensures var c' := ReconcileCell(c, Some(row), now, luck, kernel);
            c'.staged == if Tried(c, c') then Onto(c.staged, WrittenBy(luck.spawn, kernel)) else c.staged
  {
    hide Reap, Drive;
    ReapLogs(c, now, luck.waitErr);
    DriveStages(Reap(c, now, luck.waitErr), row, now, luck.spawn, kernel);
  }

  lemma ReapLogs(c: Cell, now: nat, waitErr: bool)
    ensures var c1 := Reap(c, now, waitErr);
            c1.staged == c.staged && |c1.log| >= |c.log|
            && (c1.log == c.log || !IsAttempt(c1.log[|c1.log| - 1]))
  {
  }

  lemma DriveStages(c: Cell, row: AppRow, now: nat, spawn: Spawn, kernel: Option<Bytes>)
    ensures var c' := Drive(c, row, now, spawn, kernel);
            && |c'.log| >= |c.log|
            && (c'.log != c.log ==> |c'.log| == |c.log| + 1)
            && c'.staged == if c'.log != c.log && IsAttempt(c'.log[|c.log|]) then
              Onto(c.staged, WrittenBy(spawn, kernel)) else c.staged
  {
  }

  lemma StagingStep(env: Env, w: World, step: Step, n: Name)
    requires WorldInv(w)
    ensures Next(env, w, step).cells(n).staged == Onto(w.cells(n).staged, WrittenAt(env, w, step, n))
  {
    if Enabled(w, step) {
      hide CellNext;
      StagingAction(w.cells(n), ActionOf(w, step, n), w.now);
    }
  }

  /** In every run: what the state dir holds is what the last attempt that wrote there left, and
      an attempt whose artifact has no kernel writes nothing. So a binary-only process has a
      kernel beside it exactly when an earlier attempt in that state dir left one. */
  lemma {:induction false} KernelIsLastWritten(env: Env, w: World, steps: seq<Step>, n: Name, kernel: Bytes)
    requires Init(w)
    ensures Run(env, w, steps).cells(n).staged == Some(kernel) <==>
            exists k: nat :: LastWrote(env, w, steps, n, k, kernel)
  {
    if steps == [] {
      assert w.cells(n) == BLANK;
    } else {
      var front, last := steps[..|steps| - 1], steps[|steps| - 1];
      KernelIsLastWritten(env, w, front, n, kernel);
      RunKeeps(env, w, front);
      StagingStep(env, Run(env, w, front), last, n);
      LastWroteStep(env, w, steps, n, kernel);
    }
  }

  lemma LastWroteStep(env: Env, w: World, steps: seq<Step>, n: Name, kernel: Bytes)
    requires steps != []
    ensures var front, last := steps[..|steps| - 1], steps[|steps| - 1];
            var x := WrittenAt(env, Run(env, w, front), last, n);
            (exists k: nat :: LastWrote(env, w, steps, n, k, kernel))
            <==> if x.Wrote? then x.file == Some(kernel) else exists k: nat :: LastWrote(env, w, front, n, k, kernel)
  {
    hide Run, WrittenAt;
    var front := steps[..|steps| - 1];
    assert forall i :: 0 <= i <= |front| ==> front[..i] == steps[..i];
    assert steps[..|front|] == front;
    assert forall i: nat | i < |front| :: WroteAt(env, w, steps, n, i) <==> WroteAt(env, w, front, n, i);
    if k: nat :| LastWrote(env, w, steps, n, k, kernel) {
      if k < |front| { assert !WroteAt(env, w, steps, n, |front|) && LastWrote(env, w, front, n, k, kernel); }
    }
    if WroteAt(env, w, steps, n, |front|) {
      if WrittenAt(env, Run(env, w, front), steps[|front|], n) == Wrote(Some(kernel)) {
        assert LastWrote(env, w, steps, n, |front|, kernel);
      }
    } else if k: nat :| LastWrote(env, w, front, n, k, kernel) {
      assert LastWrote(env, w, steps, n, k, kernel);
    }
  }

  // ---------- a binary-only process beside an old kernel ----------

  /** `n` holds a live process of `h`, which has no kernel stored, beside `kernel`. */
  ghost predicate BesideOld(w: World, n: Name, h: Hash, kernel: Bytes) {
    && EntryOf(w.cells(n)).child.Some? && Alive(w.cells(n), EntryOf(w.cells(n)).child.value)
    && w.cells(n).instances[EntryOf(w.cells(n)).child.value].launch.artifact == h
    && h !in w.store.jams && w.cells(n).staged == Some(kernel)
  }

  /** From a fresh data root: deploy with a kernel, let the process exit, deploy without one. */
  lemma BinaryBesideOldKernel(env: Env, w: World, r1: DeployRequest, r2: DeployRequest, kernel: Bytes)
    requires Init(w) && r1.name == r2.name && r1.iconOk && r2.iconOk && r1.jam == Some(kernel) && r2.jam == None
    requires RecordOf(env, r1).artifact != RecordOf(env, r2).artifact
    ensures exists steps: seq<Step> :: BesideOld(Run(env, w, steps), r1.name, RecordOf(env, r2).artifact, kernel)
  {
    hide Run;
    var boot := [Boot(None), Sweep({}, 0, Listing({}))];
    var w1 := BootedWorld(env, w, None);
    var more := DeployExitDeploy(env, w1, r1, r2, kernel);
    RunAppend(env, w, boot, more);
    assert BesideOld(Run(env, w, boot + more), r1.name, RecordOf(env, r2).artifact, kernel);
  }

  lemma DeployExitDeploy(env: Env, w: World, r1: DeployRequest, r2: DeployRequest, kernel: Bytes)
    returns (steps: seq<Step>)
    requires w.phase.Up? && w.cells(r1.name) == BLANK && w.store == StoreState(map[], map[])
    requires r1.name == r2.name && r1.iconOk && r2.iconOk && r1.jam == Some(kernel) && r2.jam == None
    requires RecordOf(env, r1).artifact != RecordOf(env, r2).artifact
    ensures BesideOld(Run(env, w, steps), r1.name, RecordOf(env, r2).artifact, kernel)
  {
    hide Run, ServedCell, ServedTables;
    var n, luck := r1.name, (x: Name) => Luck(false, SpawnOk);
    var e1, w1 := DeployWhole(env, w, r1, luck);
    FirstStart(env, TablesOf(w), PassOf(w, luck), r1, kernel);
    var w2 := Next(env, w1, Exit(n, 0));
    var e2, w3 := DeployWhole(env, w2, r2, luck);
    SecondStart(env, TablesOf(w2), PassOf(w2, luck), r2, w2.cells(n));
    OneStep(env, w1, Exit(n, 0));
    RunAppend(env, w, e1, [Exit(n, 0)]);
    RunAppend(env, w, e1 + [Exit(n, 0)], e2);
    steps := e1 + [Exit(n, 0)] + e2;
  }

  lemma FirstStart(env: Env, t: Tables, p: Pass, r: DeployRequest, kernel: Bytes)
    requires p.up && r.iconOk && r.jam == Some(kernel) && p.luck(r.name) == Luck(false, SpawnOk)
    requires t.store == StoreState(map[], map[])
    ensures var c' := ServedCell(env, t, p, Deploy(r), r.name, BLANK);
            && c'.staged == Some(kernel) && |c'.instances| == 1
            && c'.managed.Some? && c'.managed.value.child == Some(0) && c'.managed.value.pid == Some(0)
            && c'.managed.value.restarts == 0
    ensures ServedTables(env, t, Deploy(r)).store.jams == map[RecordOf(env, r).artifact := kernel]
  {
  }

  lemma SecondStart(env: Env, t: Tables, p: Pass, r: DeployRequest, c: Cell)
    requires p.up && r.iconOk && r.jam == None && p.luck(r.name) == Luck(false, SpawnOk)
    requires RecordOf(env, r).artifact !in t.store.jams
    requires |c.instances| == 1 && c.managed.Some? && c.managed.value.child == Some(0) && c.managed.value.pid == Some(0)
    requires !Alive(c, 0) && c.managed.value.restarts == 0
    ensures var c' := ServedCell(env, t, p, Deploy(r), r.name, c);
            && EntryOf(c').child == Some(1) && Alive(c', 1)
              && c'.instances[1].launch.artifact == RecordOf(env, r).artifact
            && c'.staged == c.staged
    ensures RecordOf(env, r).artifact !in ServedTables(env, t, Deploy(r)).store.jams
  {
    var h := RecordOf(env, r).artifact;
    var c1 := RestartCell(Logged(c, DeployEv, p.now), p.now);
    var c2 := Reap(c1, p.now, false);
    assert c2.managed.value.child.None? && c2.managed.value.backoffUntil == 0 && c2.managed.value.restarts == 0;
    assert |c2.instances| == 1 && c2.staged == c.staged;
  }
}
