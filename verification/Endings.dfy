/** How processes end, what a sweep and a shutdown send before they kill, and what a pidfile
    tells. */
module Endings {
  import opened Prelude
  import opened Lifecycle
  import opened CellInvariant
  import opened Control
  import opened World
  import opened Safety

  // ---------- nothing just disappears ----------

  /** Process `i` got a signal more, and the last one is SIGKILL. */
  predicate Killed(c: Cell, c': Cell, i: nat)
    requires i < |c.instances| && i < |c'.instances|
  {
    var before, after := c.instances[i].signals, c'.instances[i].signals;
    |after| > |before| && after[|after| - 1].Kill?
  }

  lemma PassLeavesAlive(c: Cell, row: Option<AppRow>, now: nat, luck: Luck, kernel: Option<Bytes>, i: nat)
    requires i < |c.instances|
    ensures var c' := ReconcileCell(c, row, now, luck, kernel);
            i < |c'.instances| && c'.instances[i].alive == c.instances[i].alive
  {
    hide Drive;
    var c1 := Reap(c, now, luck.waitErr);
    assert i < |c1.instances| && c1.instances[i].alive == c.instances[i].alive;
    if row.Some? { DriveLeavesAlive(c1, row.value, now, luck.spawn, kernel, i); }
  }

  lemma DriveLeavesAlive(c: Cell, row: AppRow, now: nat, spawn: Spawn, kernel: Option<Bytes>, i: nat)
    requires i < |c.instances|
    ensures var c' := Drive(c, row, now, spawn, kernel);
            i < |c'.instances| && c'.instances[i].alive == c.instances[i].alive
  {
  }

  lemma ActionEnds(c: Cell, a: Action, now: nat, i: nat)
    requires Alive(c, i) && !Alive(CellNext(c, a, now), i)
    ensures i < |CellNext(c, a, now).instances|
    ensures a == Exiting(i) || (a.Sweeping? && a.exits) || Killed(c, CellNext(c, a, now), i)
  {
    if a.Reconciling? {
      hide ReconcileCell;
      PassLeavesAlive(c, a.row, now, a.luck, a.kernel, i);
    }
  }

  /** In every run a process ends only by itself, during the wait of an orphan sweep or at any other
      time, or because it has just been sent SIGKILL. */
  lemma {:induction false} EndsByItselfOrKilled(env: Env, w: World, steps: seq<Step>, step: Step, n: Name, i: nat)
    requires Alive(Run(env, w, steps).cells(n), i) && !Alive(Next(env, Run(env, w, steps), step).cells(n), i)
    ensures var c, c' := Run(env, w, steps).cells(n), Next(env, Run(env, w, steps), step).cells(n);
            && i < |c'.instances|
            && (step == Exit(n, i) || (step.Sweep? && n in step.exits) || Killed(c, c', i))
  {
    hide Run, CellNext;
    var w1 := Run(env, w, steps);
    ActionEnds(w1.cells(n), ActionOf(w1, step, n), w1.now, i);
  }

  // ---------- the sweep ----------

  lemma SweptHistory(c: Cell, now: nat, exits: bool, waited: nat, i: nat)
    requires Alive(c, i) && c.pidfile == Some(i)
    ensures var c' := SweepCell(c, now, exits, waited);
            && i < |c'.instances| && c'.pidfile == None
            && c'.instances[i].signals
               == c.instances[i].signals + [Term(now)] + if exits then [] else [Kill(now + waited)]
  {
    var s := c.instances[i].signals;
    assert s + [Term(now)] + [] == s + [Term(now)];
  }

  /** The orphan sweep sends every process it finds SIGTERM, and SIGKILL to those, and only those,
      that are still there after at least ten seconds. */
  lemma {:induction false} SweepIsGraceful(env: Env, w: World, steps: seq<Step>, sweep: Step, n: Name, i: nat)
    requires Init(w) && sweep.Sweep? && Enabled(Run(env, w, steps), sweep)
    requires Alive(Run(env, w, steps).cells(n), i)
    ensures var w1 := Run(env, w, steps);
            var c, c' := w1.cells(n), Next(env, w1, sweep).cells(n);
            && i < |c'.instances|
            && c'.instances[i].signals
               == c.instances[i].signals + [Term(w1.now)]
                  + (if n in sweep.exits then [] else [Kill(w1.now + sweep.waited)])
            && (n !in sweep.exits ==> sweep.waited >= 10)
  {
    hide Run;
    RunKeeps(env, w, steps);
    var w1 := Run(env, w, steps);
    var c := w1.cells(n);
    assert CellInv(c, w1.phase, w1.now) && n in w1.reg.apps;
    assert ProcessSound(c, i, w1.now) && Orphaned(c);
    SweptHistory(c, w1.now, n in sweep.exits, sweep.waited, i);
  }

  // ---------- the shutdown ----------

  /** The first half of a shutdown sends SIGTERM to the process it holds, and to nothing else. */
  lemma {:induction false} ShutdownTerms(env: Env, w: World, steps: seq<Step>, n: Name, i: nat)
    requires Init(w) && Enabled(Run(env, w, steps), BeginShutdown)
    requires i < |Run(env, w, steps).cells(n).instances|
    ensures var w1 := Run(env, w, steps);
            var c, c' := w1.cells(n), Next(env, w1, BeginShutdown).cells(n);
            && i < |c'.instances|
            && c'.instances[i].signals
               == if EntryOf(c).child == Some(i) then c.instances[i].signals + [Term(w1.now)]
                 else c.instances[i].signals
  {
    hide Run;
    RunKeeps(env, w, steps);
    var w1 := Run(env, w, steps);
    assert CellInv(w1.cells(n), w1.phase, w1.now);
  }

  /** The second half sends SIGKILL to whatever is still alive, and removes the pidfile of every
      app it had a process for. */
  lemma {:induction false} ShutdownKillsTheRest(env: Env, w: World, steps: seq<Step>, n: Name, i: nat)
    requires Init(w) && Enabled(Run(env, w, steps), EndShutdown)
    requires i < |Run(env, w, steps).cells(n).instances|
    ensures var w1 := Run(env, w, steps);
            var c, c' := w1.cells(n), Next(env, w1, EndShutdown).cells(n);
            && i < |c'.instances|
            && c'.instances[i].signals
               == (if Alive(c, i) then c.instances[i].signals + [Kill(w1.now)] else c.instances[i].signals)
            && (c.managed.Some? ==> c'.pidfile == None)
  {
    hide Run;
    RunKeeps(env, w, steps);
    var w1 := Run(env, w, steps);
    assert CellInv(w1.cells(n), w1.phase, w1.now);
    assert ProcessSound(w1.cells(n), i, w1.now);
  }

  // ---------- pidfiles ----------

  predicate NamesChild(c: Cell) { c.pidfile == EntryOf(c).child }

  lemma ReapNames(c: Cell, now: nat, waitErr: bool)
    requires CellInv(c, Up, now) && NamesChild(c)
    ensures NamesChild(Reap(c, now, waitErr))
  {
  }

  lemma DriveNames(c: Cell, row: AppRow, now: nat, spawn: Spawn, kernel: Option<Bytes>)
    requires CellInv(c, Up, now) && NamesChild(c)
    ensures NamesChild(Drive(c, row, now, spawn, kernel))
  {
  }

  lemma ActionNames(c: Cell, a: Action, now: nat)
    requires CellInv(c, Up, now) && NamesChild(c) && (a.Reconciling? ==> a.row.Some?)
    requires !a.Sweeping? && !a.Overlooked? && !a.BeginStop? && !a.EndStop? && !a.Forgetting?
    ensures NamesChild(CellNext(c, a, now))
  {
    if a.Reconciling? {
      hide Reap, Drive;
      ReapKeeps(c, now, a.luck.waitErr);
      ReapNames(c, now, a.luck.waitErr);
      DriveNames(Reap(c, now, a.luck.waitErr), a.row.value, now, a.luck.spawn, a.kernel);
    }
  }

  lemma NamesStep(env: Env, w: World, step: Step, n: Name)
    requires WorldInv(w) && w.phase.Up? && Next(env, w, step).phase.Up? && NamesChild(w.cells(n))
    ensures NamesChild(Next(env, w, step).cells(n))
  {
    hide CellNext, CellInv;
    var c := w.cells(n);
    assert CellInv(c, w.phase, w.now);
    if Enabled(w, step) {
      var a := ActionOf(w, step, n);
      if a.Reconciling? && n !in w.reg.apps {
        UnregisteredStep(c, Up, w.now, a.luck, true, 0);
      } else {
        ActionNames(c, a, w.now);
      }
    }
  }

  lemma {:induction false} RunNames(env: Env, w: World, steps: seq<Step>, n: Name)
    requires WorldInv(w) && NamesChild(w.cells(n))
    requires forall k :: 0 <= k <= |steps| ==> Run(env, w, steps[..k]).phase.Up?
    ensures NamesChild(Run(env, w, steps).cells(n))
  {
    if steps != [] {
      hide Next, NamesChild;
      var front, last := steps[..|steps| - 1], steps[|steps| - 1];
      assert forall k :: 0 <= k <= |front| ==> front[..k] == steps[..k];
      assert steps[..|steps|] == steps && steps[..|front|] == front;
      RunNames(env, w, front, n);
      RunFromKeeps(env, w, front);
      NamesStep(env, Run(env, w, front), last, n);
    }
  }

  lemma SweptNames(env: Env, w: World, sweep: Step, n: Name)
    requires WorldInv(w) && sweep.Sweep? && Enabled(w, sweep) && sweep.view.Listing?
    ensures NamesChild(Next(env, w, sweep).cells(n))
  {
    var c := w.cells(n);
    assert CellInv(c, w.phase, w.now);
    if n !in w.reg.apps { assert Unregistered(c); }
  }

  /** After a sweep that could list the apps, and for as long as the daemon stays up, an app has a
      pidfile exactly while a process is held, and it names that process. */
  lemma {:induction false} PidfileIffHeld(env: Env, w: World, steps: seq<Step>, sweep: Step, more: seq<Step>, n: Name)
    requires Init(w) && sweep.Sweep? && Enabled(Run(env, w, steps), sweep) && sweep.view.Listing?
    requires forall k :: 0 <= k <= |more| ==> Run(env, Next(env, Run(env, w, steps), sweep), more[..k]).phase.Up?
    ensures var c := Run(env, Next(env, Run(env, w, steps), sweep), more).cells(n);
            c.pidfile == EntryOf(c).child
  {
    hide Next;
    RunKeeps(env, w, steps);
    var w1 := Run(env, w, steps);
    SweptNames(env, w1, sweep, n);
    StepKeeps(env, w1, sweep);
    RunNames(env, Next(env, w1, sweep), more, n);
  }
}
