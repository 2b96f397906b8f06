/** A sweep that overlooks an orphan: the one thing that costs the single writer. */
module BlindSweep {
  import opened Prelude
  import opened Lifecycle
  import opened CellInvariant
  import opened Control
  import opened World
  import opened Safety
  import opened Atomic
  import opened Served
  import opened WholeHandlers

  ghost predicate OneWriter(w: World) {
    forall n: Name, i: nat, j: nat :: Alive(w.cells(n), i) && Alive(w.cells(n), j) ==> i == j
  }

  ghost predicate OverlooksNoOrphan(w: World, view: View) {
    forall n: Name :: Orphaned(w.cells(n)) ==> !Overlooks(view, n)
  }

  lemma InvOneWriter(w: World)
    requires WorldInv(w)
    ensures OneWriter(w)
  {
    forall n: Name, i: nat, j: nat | Alive(w.cells(n), i) && Alive(w.cells(n), j) ensures i == j {
      assert CellInv(w.cells(n), w.phase, w.now);
      assert ProcessSound(w.cells(n), i, w.now) && ProcessSound(w.cells(n), j, w.now);
    }
  }

  /** Whatever the sweep of a new daemon got to see, single writer holds in everything that may
      happen afterwards exactly when no app it overlooked had a live process named by its
      pidfile at that moment. */
  lemma SingleWriterIffNoneOverlooked(env: Env, w: World, steps: seq<Step>, sweep: Step)
    requires Init(w) && sweep.Sweep?
    requires Run(env, w, steps).phase.Starting? && WaitsForOrphans(Run(env, w, steps), sweep)
    ensures (forall more: seq<Step> :: OneWriter(Run(env, Fire(env, Run(env, w, steps), sweep), more)))
            <==> OverlooksNoOrphan(Run(env, w, steps), sweep.view)
  {
    RunKeeps(env, w, steps);
    var w1 := Run(env, w, steps);
    var w2 := Fire(env, w1, sweep);
    if OverlooksNoOrphan(w1, sweep.view) {
      StepKeeps(env, w1, sweep);
      assert w2 == Next(env, w1, sweep);
      forall more: seq<Step> ensures OneWriter(Run(env, w2, more)) {
        RunFromKeeps(env, w2, more);
        InvOneWriter(Run(env, w2, more));
      }
    } else {
      var n: Name :| Orphaned(w1.cells(n)) && Overlooks(sweep.view, n);
      var more := SecondWriter(env, w1, sweep, n);
      assert !OneWriter(Run(env, w2, more));
    }
  }

  /** In the same way the sweep leaves no process of any app exactly when it overlooked none. */
  lemma NoneLeftIffNoneOverlooked(env: Env, w: World, steps: seq<Step>, sweep: Step)
    requires Init(w) && sweep.Sweep?
    requires Run(env, w, steps).phase.Starting? && WaitsForOrphans(Run(env, w, steps), sweep)
    ensures (forall n: Name, i: nat :: !Alive(Fire(env, Run(env, w, steps), sweep).cells(n), i))
            <==> OverlooksNoOrphan(Run(env, w, steps), sweep.view)
  {
    hide Run;
    var w1 := Run(env, w, steps);
    RunKeeps(env, w, steps);
    if OverlooksNoOrphan(w1, sweep.view) {
      forall n: Name, i: nat ensures !Alive(Fire(env, w1, sweep).cells(n), i) {
        SweepLeavesNone(env, w, steps, sweep, n, i);
      }
    } else {
      var n: Name :| Orphaned(w1.cells(n)) && Overlooks(sweep.view, n);
      assert CellInv(w1.cells(n), w1.phase, w1.now) && n in w1.reg.apps;
      assert Alive(Fire(env, w1, sweep).cells(n), w1.cells(n).pidfile.value);
    }
  }

  /** A sweep that cannot list the apps touches nothing, and one that cannot read a pidfile only
      removes it. */
  lemma BlindSweepTouches(env: Env, w: World, sweep: Step, n: Name)
    requires sweep.Sweep? && Overlooks(sweep.view, n)
    ensures var c, c' := w.cells(n), Fire(env, w, sweep).cells(n);
            c' == if sweep.view.NoListing? || n !in w.reg.apps then c else c.(pidfile := None)
  {
  }

  /** A start request then puts a second process beside the orphan. */
  lemma SecondWriter(env: Env, w: World, sweep: Step, n: Name) returns (more: seq<Step>)
    requires WorldInv(w) && w.phase.Starting? && sweep.Sweep?
    requires Orphaned(w.cells(n)) && Overlooks(sweep.view, n)
    ensures !OneWriter(Run(env, Fire(env, w, sweep), more))
  {
    hide Run, Fire, WorldInv, Orphaned;
    var i := StillThere(env, w, sweep, n);
    more := StartRun(env, Fire(env, w, sweep), n, i);
  }

  /** The sweep leaves the orphan, and the new daemon does not track it. */
  lemma StillThere(env: Env, w: World, sweep: Step, n: Name) returns (i: nat)
    requires WorldInv(w) && w.phase.Starting? && sweep.Sweep?
    requires Orphaned(w.cells(n)) && Overlooks(sweep.view, n)
    ensures var w2 := Fire(env, w, sweep);
            w2.phase.Up? && w2.cells(n).managed.None? && Alive(w2.cells(n), i) && n in w2.reg.apps
  {
    assert CellInv(w.cells(n), w.phase, w.now);
    i := w.cells(n).pidfile.value;
  }

  lemma StartRun(env: Env, w: World, n: Name, i: nat) returns (more: seq<Step>)
    requires w.phase.Up? && w.cells(n).managed.None? && Alive(w.cells(n), i) && n in w.reg.apps
    ensures !OneWriter(Run(env, w, more))
  {
    hide Run, Alive, ServeCell, ReconcileCell;
    var luck := (x: Name) => Luck(false, SpawnOk);
    var c := w.cells(n);
    var t, p := TablesOf(w), PassOf(w, luck);
    more := [Submit(StartApp(n))] + Execs(|w.tasks|, luck, [], Rounds(env, t, ProgramOf(env, StartApp(n)), []));
    ServedWholeIsARun(env, w, StartApp(n), luck, [], n);
    ServedCellClosed(env, t, p, StartApp(n), [], n, c);
    var row := t.reg.apps[n].(desired := WantRunning);
    StartsBeside(c, row, w.now, KernelFor(SetDesired(t.reg, n, WantRunning).apps, t.store.jams, n), i);
    TwoAlive(Run(env, w, more), n, i, |c.instances|);
  }

  lemma TwoAlive(w: World, n: Name, i: nat, j: nat)
    requires i != j && Alive(w.cells(n), i) && Alive(w.cells(n), j)
    ensures !OneWriter(w)
  {
  }

  lemma StartsBeside(c: Cell, row: AppRow, now: nat, kernel: Option<Bytes>, i: nat)
    requires c.managed.None? && Alive(c, i) && row.desired.WantRunning?
    ensures var c' := ReconcileCell(c, Some(row), now, Luck(false, SpawnOk), kernel);
            i < |c.instances| && Alive(c', i) && Alive(c', |c.instances|)
  {
  }
}
