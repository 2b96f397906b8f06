/** What health an app is reported in: what the last probe of the process it holds found. */
module Probes {
  import opened Prelude
  import opened Lifecycle
  import opened CellInvariant
  import opened Control
  import opened World
  import opened Safety
  import opened Freshness
  import opened Deadlines

  /** Step `j` recorded a probe of `n` while the daemon held process `i`. */
  ghost predicate ProbedAt(env: Env, w: World, steps: seq<Step>, n: Name, i: nat, j: nat) {
    && j < |steps| && steps[j].Probe? && steps[j].app == n
    && var w1 := Run(env, w, steps[..j]);
       w1.phase.Up? && EntryOf(w1.cells(n)).child == Some(i)
  }

  ghost predicate LastProbe(env: Env, w: World, steps: seq<Step>, n: Name, i: nat, j: nat) {
    ProbedAt(env, w, steps, n, i, j) && forall k: nat :: j < k < |steps| ==> !ProbedAt(env, w, steps, n, i, k)
  }

  /** The same process is held as before. */
  predicate SameChild(c: Cell, c': Cell) { EntryOf(c').child == EntryOf(c).child }

  lemma PassHealth(c: Cell, row: AppRow, now: nat, luck: Luck, kernel: Option<Bytes>)
    requires CellInv(c, Up, now)
    ensures var c' := ReconcileCell(c, Some(row), now, luck, kernel);
            EntryOf(c').child.Some? ==>
              if SameChild(c, c') then
                EntryOf(c').health == EntryOf(c).health && EntryOf(c').statusLine == EntryOf(c).statusLine
              else EntryOf(c').health.Unknown? && EntryOf(c').child == Some(|c.instances|)
  {
    hide Reap, Drive;
    ReapKeeps(c, now, luck.waitErr);
    ReapHealth(c, now, luck.waitErr);
    DriveHealth(Reap(c, now, luck.waitErr), row, now, luck.spawn, kernel);
  }

  lemma ReapHealth(c: Cell, now: nat, waitErr: bool)
    requires CellInv(c, Up, now)
    ensures var c1 := Reap(c, now, waitErr);
            && |c1.instances| == |c.instances|
            && (EntryOf(c).child.Some? ==> EntryOf(c).child.value < |c.instances|)
            && (EntryOf(c1).child.Some? ==> EntryOf(c1) == EntryOf(c))
  {
  }

  lemma DriveHealth(c: Cell, row: AppRow, now: nat, spawn: Spawn, kernel: Option<Bytes>)
    requires CellInv(c, Up, now)
    ensures var c' := Drive(c, row, now, spawn, kernel);
            EntryOf(c').child.Some? ==>
              if SameChild(c, c') then
                EntryOf(c').health == EntryOf(c).health && EntryOf(c').statusLine == EntryOf(c).statusLine
              else EntryOf(c).child.None? && EntryOf(c').health.Unknown? && EntryOf(c').child == Some(|c.instances|)
  {
  }

  lemma HealthStep(env: Env, w: World, step: Step, n: Name)
    requires WorldInv(w) && w.phase.Up? && Next(env, w, step).phase.Up?
    ensures var c, c' := w.cells(n), Next(env, w, step).cells(n);
            && (EntryOf(c).child.Some? ==> EntryOf(c).child.value < |c.instances|)
            && (EntryOf(c').child.Some? ==>
                  if step.Probe? && step.app == n then
                    SameChild(c, c') && EntryOf(c').health == step.health && EntryOf(c').statusLine == step.line
                  else if SameChild(c, c') then
                    EntryOf(c').health == EntryOf(c).health && EntryOf(c').statusLine == EntryOf(c).statusLine
                  else EntryOf(c').health.Unknown? && EntryOf(c').child == Some(|c.instances|))
  {
    hide CellNext, CellInv;
    var c := w.cells(n);
    assert CellInv(c, w.phase, w.now);
    ChildThere(c, w.now);
    if Enabled(w, step) {
      var a := ActionOf(w, step, n);
      if a.Reconciling? && n !in w.reg.apps {
        UnregisteredStep(c, Up, w.now, a.luck, true, 0);
      } else {
        ActionHealth(c, a, w.now);
      }
    }
  }

  lemma ChildThere(c: Cell, now: nat)
    requires CellInv(c, Up, now)
    ensures EntryOf(c).child.Some? ==> EntryOf(c).child.value < |c.instances|
  {
  }

  lemma ActionHealth(c: Cell, a: Action, now: nat)
    requires CellInv(c, Up, now) && (a.Reconciling? ==> a.row.Some?)
    requires !a.Sweeping? && !a.Overlooked? && !a.BeginStop? && !a.EndStop? && !a.Forgetting?
    ensures var c' := CellNext(c, a, now);
            EntryOf(c').child.Some? ==>
              if a.Probing? then SameChild(c, c') && EntryOf(c').health == a.health && EntryOf(c').statusLine == a.line
              else if SameChild(c, c') then
                EntryOf(c').health == EntryOf(c).health && EntryOf(c').statusLine == EntryOf(c).statusLine
              else EntryOf(c').health.Unknown? && EntryOf(c').child == Some(|c.instances|)
  {
    hide ReconcileCell;
    if a.Reconciling? { PassHealth(c, a.row.value, now, a.luck, a.kernel); }
  }

  /** A process that has just been started has not been probed. */
  lemma NotYetProbed(env: Env, w: World, front: seq<Step>, n: Name, i: nat, k: nat)
    requires Init(w) && |Run(env, w, front).cells(n).instances| <= i
    ensures !ProbedAt(env, w, front, n, i, k)
  {
    if ProbedAt(env, w, front, n, i, k) {
      var w1 := Run(env, w, front[..k]);
      RunKeeps(env, w, front[..k]);
      assert CellInv(w1.cells(n), w1.phase, w1.now);
      LaunchStays(env, w, front, n, i, k);
    }
  }

  lemma ProbedFront(env: Env, w: World, steps: seq<Step>, n: Name, i: nat, k: nat)
    requires steps != [] && k < |steps| - 1
    ensures ProbedAt(env, w, steps, n, i, k) <==> ProbedAt(env, w, steps[..|steps| - 1], n, i, k)
  {
    assert steps[..|steps| - 1][..k] == steps[..k];
  }

  /** A step into an up state from one that is not leaves nothing tracked. */
  lemma JustUp(env: Env, w: World, step: Step, n: Name)
    requires WorldInv(w) && !w.phase.Up? && Next(env, w, step).phase.Up?
    ensures EntryOf(Next(env, w, step).cells(n)).child.None?
  {
    assert CellInv(w.cells(n), w.phase, w.now);
  }

  /** In every run, while a process is held: health and status line are what the last probe made
      since it was started found, and with no such probe its health is unknown. */
  lemma {:induction false} HealthIsLastProbe(env: Env, w: World, steps: seq<Step>, n: Name, i: nat)
    requires Init(w) && Run(env, w, steps).phase.Up? && EntryOf(Run(env, w, steps).cells(n)).child == Some(i)
    ensures var m := EntryOf(Run(env, w, steps).cells(n));
            && (forall j: nat :: LastProbe(env, w, steps, n, i, j) ==>
                  m.health == steps[j].health && m.statusLine == steps[j].line)
            && ((forall j: nat :: !ProbedAt(env, w, steps, n, i, j)) ==> m.health.Unknown?)
  {
    hide ProbedAt;
    if steps == [] {
      UpNotInit(w);
    } else {
      var front, last := steps[..|steps| - 1], steps[|steps| - 1];
      LastStep(env, w, steps);
      RunKeeps(env, w, front);
      StepHealth(env, w, steps, n, i);
    }
  }

  lemma UpNotInit(w: World)
    requires Init(w)
    ensures !w.phase.Up?
  {
  }

  lemma {:induction false} StepHealth(env: Env, w: World, steps: seq<Step>, n: Name, i: nat)
    requires steps != [] && Init(w) && WorldInv(Run(env, w, steps[..|steps| - 1]))
    requires Run(env, w, steps).phase.Up? && EntryOf(Run(env, w, steps).cells(n)).child == Some(i)
    ensures var m := EntryOf(Run(env, w, steps).cells(n));
            && (forall j: nat :: LastProbe(env, w, steps, n, i, j) ==>
                  m.health == steps[j].health && m.statusLine == steps[j].line)
            && ((forall j: nat :: !ProbedAt(env, w, steps, n, i, j)) ==> m.health.Unknown?)
    decreases |steps|, 0
  {
    hide Run, WorldInv, CellInv;
    var front, last := steps[..|steps| - 1], steps[|steps| - 1];
    var w1, w' := Run(env, w, front), Run(env, w, steps);
    LastStep(env, w, steps);
    if !w1.phase.Up? {
      JustUp(env, w1, last, n);
    } else {
      HealthStep(env, w1, last, n);
      assert steps[..|front|] == front;
      var m := EntryOf(w'.cells(n));
      forall k: nat | k < |front| ensures ProbedAt(env, w, steps, n, i, k) <==> ProbedAt(env, w, front, n, i, k) {
        ProbedFront(env, w, steps, n, i, k);
      }
      if !SameChild(w1.cells(n), w'.cells(n)) {
        forall k: nat ensures !ProbedAt(env, w, front, n, i, k) { NotYetProbed(env, w, front, n, i, k); }
        NoProbeAtLast(env, w, steps, n, i);
      } else {
        if front == [] {
          EmptyRun(env, w);
        } else {
          RunKeeps(env, w, front[..|front| - 1]);
          StepHealth(env, w, front, n, i);
        }
        LastIsProbe(env, w, steps, n, i);
      }
    }
  }

  lemma EmptyRun(env: Env, w: World)
    requires Init(w)
    ensures !Run(env, w, []).phase.Up?
  {
  }

  lemma NoProbeAtLast(env: Env, w: World, steps: seq<Step>, n: Name, i: nat)
    requires steps != [] && EntryOf(Run(env, w, steps[..|steps| - 1]).cells(n)).child != Some(i)
    ensures !ProbedAt(env, w, steps, n, i, |steps| - 1)
  {
  }

  /** With the process held before the last step, that step is a probe of it or leaves the last
      probe as it was. */
  lemma LastIsProbe(env: Env, w: World, steps: seq<Step>, n: Name, i: nat)
    requires steps != []
    requires var w1 := Run(env, w, steps[..|steps| - 1]);
             w1.phase.Up? && EntryOf(w1.cells(n)).child == Some(i)
    ensures var last := steps[|steps| - 1];
            ProbedAt(env, w, steps, n, i, |steps| - 1) <==> last.Probe? && last.app == n
    ensures var last := steps[|steps| - 1];
            last.Probe? && last.app == n ==>
              forall j: nat :: LastProbe(env, w, steps, n, i, j) ==> j == |steps| - 1
    ensures var front, last := steps[..|steps| - 1], steps[|steps| - 1];
            !(last.Probe? && last.app == n) ==>
              forall j: nat :: LastProbe(env, w, steps, n, i, j) ==> LastProbe(env, w, front, n, i, j)
  {
    hide Run;
    var front, last := steps[..|steps| - 1], steps[|steps| - 1];
    assert steps[..|front|] == front;
    forall k: nat | k < |front| ensures ProbedAt(env, w, steps, n, i, k) <==> ProbedAt(env, w, front, n, i, k) {
      ProbedFront(env, w, steps, n, i, k);
    }
    if !(last.Probe? && last.app == n) {
      forall j: nat | LastProbe(env, w, steps, n, i, j) ensures LastProbe(env, w, front, n, i, j) {
        assert j != |front|;
      }
    }
  }

  // ---------- between probes ----------

  /** The process held before was accounted for as stopped, or nothing is to run and nothing does. */
  predicate StoppedNow(c: Cell, c': Cell) {
    || EntryOf(c').state.Stopped?
    || (EntryOf(c).child.Some? && EntryOf(c).child.value < |c'.instances|
        && c'.instances[EntryOf(c).child.value].fate.ReapedStop?)
  }

  /** What a pass does to the two readings. */
  predicate ReadingsKept(c: Cell, c': Cell) {
    && EntryOf(c').statusLine == (if StoppedNow(c, c') then None else EntryOf(c).statusLine)
    && EntryOf(c').health
       == if StoppedNow(c, c') || (EntryOf(c').child.Some? && !SameChild(c, c')) then Unknown else EntryOf(c).health
  }

  predicate SameReadings(c: Cell, c': Cell) {
    EntryOf(c').health == EntryOf(c).health && EntryOf(c').statusLine == EntryOf(c).statusLine
  }

  lemma ReapReadings(c: Cell, now: nat, waitErr: bool)
    requires CellInv(c, Up, now)
    ensures var c1 := Reap(c, now, waitErr);
            && |c1.instances| == |c.instances|
            && (EntryOf(c).child.Some? ==> EntryOf(c).child.value < |c.instances|)
            && if EntryOf(c).child.Some? && c1.instances[EntryOf(c).child.value].fate.ReapedStop? then
                 EntryOf(c1).child.None? && EntryOf(c1).health.Unknown? && EntryOf(c1).statusLine.None?
               else
                 && EntryOf(c1).health == EntryOf(c).health && EntryOf(c1).statusLine == EntryOf(c).statusLine
                 && (EntryOf(c1).child.Some? ==> EntryOf(c1).child == EntryOf(c).child)
                 && (EntryOf(c1).state.Stopped? ==> EntryOf(c).state.Stopped?)
  {
  }

  lemma DriveReadings(c: Cell, row: AppRow, now: nat, spawn: Spawn, kernel: Option<Bytes>)
    requires CellInv(c, Up, now)
    ensures var c' := Drive(c, row, now, spawn, kernel);
            && |c.instances| <= |c'.instances|
            && (forall i :: 0 <= i < |c.instances| ==> c'.instances[i].fate == c.instances[i].fate)
            && EntryOf(c').statusLine == (if EntryOf(c').state.Stopped? then None else EntryOf(c).statusLine)
            && EntryOf(c').health
               == (if EntryOf(c').state.Stopped? || (EntryOf(c').child.Some? && !SameChild(c, c')) then Unknown
                   else EntryOf(c).health)
            && (EntryOf(c).child.Some? ==> SameChild(c, c'))
            && (EntryOf(c').child.Some? && !SameChild(c, c') ==> EntryOf(c').child == Some(|c.instances|))
  {
    hide ProcessesSound, Accounts;
  }

  lemma PassReadings(c: Cell, row: AppRow, now: nat, luck: Luck, kernel: Option<Bytes>)
    requires CellInv(c, Up, now)
    ensures ReadingsKept(c, ReconcileCell(c, Some(row), now, luck, kernel))
  {
    hide Reap, Drive;
    ReapKeeps(c, now, luck.waitErr);
    ReapReadings(c, now, luck.waitErr);
    DriveReadings(Reap(c, now, luck.waitErr), row, now, luck.spawn, kernel);
  }

  /** In every run, while the daemon is up: a probe of a tracked app records what it found; a pass
      drops the status line only when it stops the app or finds it stopped, and the health only then
      or when it starts a process; nothing else touches either. */
  lemma {:induction false} ReadingsStep(env: Env, w: World, steps: seq<Step>, step: Step, n: Name)
    requires Init(w) && Run(env, w, steps).phase.Up? && Next(env, Run(env, w, steps), step).phase.Up?
    ensures var w1 := Run(env, w, steps);
            var c, c' := w1.cells(n), Next(env, w1, step).cells(n);
            if Passes(w1, step) then ReadingsKept(c, c')
            else if step.Probe? && step.app == n && c.managed.Some? then
              EntryOf(c').health == step.health && EntryOf(c').statusLine == step.line
            else SameReadings(c, c')
  {
    hide Run, CellNext, CellInv, ReadingsKept, SameReadings;
    RunKeeps(env, w, steps);
    var w1 := Run(env, w, steps);
    var c := w1.cells(n);
    assert CellInv(c, w1.phase, w1.now);
    if Passes(w1, step) {
      PassAction(w1, step, n);
      ReconcilingReadings(c, ActionOf(w1, step, n), w1.now);
    } else {
      OtherReadings(c, if Enabled(w1, step) then ActionOf(w1, step, n) else Idle, w1.now);
      IdleStays(c, w1.now);
    }
  }

  lemma IdleStays(c: Cell, now: nat)
    ensures CellNext(c, Idle, now) == c
  {
  }

  lemma ReconcilingReadings(c: Cell, a: Action, now: nat)
    requires CellInv(c, Up, now) && a.Reconciling? && (a.row.None? ==> Unregistered(c) && a.kernel.None?)
    ensures ReadingsKept(c, CellNext(c, a, now))
  {
    if a.row.Some? {
      hide ReconcileCell;
      PassReadings(c, a.row.value, now, a.luck, a.kernel);
    } else {
      UnregisteredStep(c, Up, now, a.luck, true, 0);
    }
  }

  lemma OtherReadings(c: Cell, a: Action, now: nat)
    requires a.Idle? || a.Restarting? || a.Logging? || a.Exiting? || a.Probing?
    ensures var c' := CellNext(c, a, now);
            if a.Probing? && c.managed.Some? then
              EntryOf(c').health == a.health && EntryOf(c').statusLine == a.line
            else SameReadings(c, c')
  {
  }
}
