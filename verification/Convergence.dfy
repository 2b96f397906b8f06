/** The reconciler gets where it is told to go, in a bounded number of passes. */
module Convergence {
  import opened Prelude
  import opened Lifecycle
  import opened CellInvariant
  import opened Control
  import opened World
  import opened Safety
  import opened Throttle
  import opened ReconcileLaws
  import opened Deadlines

  // ---------- desired "stopped" ----------

  predicate Gone(c: Cell) {
    c.managed.Some? && c.managed.value.child.None? && c.managed.value.state.Stopped?
  }

  /** The process `i` is being terminated, or is already gone. */
  predicate Terminating(c: Cell, i: nat, deadline: int) {
    Gone(c) || (EntryOf(c).child == Some(i) && EntryOf(c).termDeadline == Some(deadline))
  }

  predicate KillSent(c: Cell, i: nat) {
    i < |c.instances| && exists k :: 0 <= k < |c.instances[i].signals| && c.instances[i].signals[k].Kill?
  }

  /** The registry wants `n` stopped and nobody is about to say otherwise. */
  predicate Stopping(w: World, n: Name) {
    w.phase.Up? && n in w.reg.apps && w.reg.apps[n].desired.WantStopped?
  }

  lemma PassTerminates(c: Cell, row: AppRow, now: nat, luck: Luck, kernel: Option<Bytes>)
    requires CellInv(c, Up, now) && row.desired.WantStopped?
    ensures var c' := ReconcileCell(c, Some(row), now, luck, kernel);
            EntryOf(c').child.None? ==> Gone(c')
    ensures var c' := ReconcileCell(c, Some(row), now, luck, kernel);
            EntryOf(c').child.Some? ==> EntryOf(c').termDeadline.Some?
  {
    ReapKeeps(c, now, luck.waitErr);
    PassSettles(Reap(c, now, luck.waitErr), row, now, luck.spawn, kernel);
  }

  lemma PassKeepsTerminating(c: Cell, row: AppRow, now: nat, luck: Luck, kernel: Option<Bytes>, i: nat, deadline: int)
    requires CellInv(c, Up, now) && row.desired.WantStopped? && Terminating(c, i, deadline)
    ensures Terminating(ReconcileCell(c, Some(row), now, luck, kernel), i, deadline)
    ensures now >= deadline && EntryOf(c).child == Some(i) ==>
              Gone(ReconcileCell(c, Some(row), now, luck, kernel))
                || KillSent(ReconcileCell(c, Some(row), now, luck, kernel), i)
    ensures EntryOf(c).child == Some(i) && !Alive(c, i) && !luck.waitErr ==>
            Gone(ReconcileCell(c, Some(row), now, luck, kernel))
  {
    var c1 := Reap(c, now, luck.waitErr);
    var c' := ReconcileCell(c, Some(row), now, luck, kernel);
    if EntryOf(c).child == Some(i) && now >= deadline && EntryOf(c1).child.Some? {
      assert c'.instances == c1.instances;
      assert c1.instances[i].signals == c.instances[i].signals + [Kill(now)];
      assert c'.instances[i].signals[|c.instances[i].signals|].Kill?;
    }
  }

  lemma ActionKeepsTerminating(c: Cell, a: Action, row: AppRow, now: nat, i: nat, deadline: int)
    requires CellInv(c, Up, now) && row.desired.WantStopped? && Terminating(c, i, deadline)
    requires a.Idle? || a.Exiting? || a.Probing? || a.Logging? || (a.Reconciling? && a.row == Some(row))
    ensures Terminating(CellNext(c, a, now), i, deadline)
  {
    hide ReconcileCell;
    if a.Reconciling? { PassKeepsTerminating(c, row, now, a.luck, a.kernel, i, deadline); }
  }

  lemma TerminatingStep(env: Env, w: World, step: Step, n: Name, i: nat, deadline: int)
    requires WorldInv(w) && Stopping(w, n) && HandsOff(w, step, n) && Terminating(w.cells(n), i, deadline)
    ensures Stopping(Next(env, w, step), n) && Terminating(Next(env, w, step).cells(n), i, deadline)
  {
    hide CellNext, Terminating, CellInv;
    assert CellInv(w.cells(n), w.phase, w.now);
    HandsOffRow(env, w, step, n);
    if Enabled(w, step) {
      HandsOffAction(w, step, n);
      ActionKeepsTerminating(w.cells(n), ActionOf(w, step, n), w.reg.apps[n], w.now, i, deadline);
    }
  }

  /** Signal histories only grow. */
  lemma SignalsGrow(c: Cell, a: Action, now: nat, i: nat)
    requires i < |c.instances|
    requires a.Idle? || a.Exiting? || a.Probing? || a.Logging? || (a.Reconciling? && a.row.Some?)
    ensures i < |CellNext(c, a, now).instances|
    ensures c.instances[i].signals <= CellNext(c, a, now).instances[i].signals
  {
    hide Drive, Reap;
    if a.Reconciling? {
      ReapSignalsGrow(c, now, a.luck.waitErr, i);
      DriveSignalsGrow(Reap(c, now, a.luck.waitErr), a.row.value, now, a.luck.spawn, a.kernel, i);
    }
  }

  lemma ReapSignalsGrow(c: Cell, now: nat, waitErr: bool, i: nat)
    requires i < |c.instances|
    ensures i < |Reap(c, now, waitErr).instances|
    ensures c.instances[i].signals <= Reap(c, now, waitErr).instances[i].signals
  {
  }

  lemma DriveSignalsGrow(c: Cell, row: AppRow, now: nat, spawn: Spawn, kernel: Option<Bytes>, i: nat)
    requires i < |c.instances|
    ensures i < |Drive(c, row, now, spawn, kernel).instances|
    ensures c.instances[i].signals <= Drive(c, row, now, spawn, kernel).instances[i].signals
  {
  }

  lemma KillStays(env: Env, w: World, step: Step, n: Name, i: nat)
    requires Stopping(w, n) && HandsOff(w, step, n) && KillSent(w.cells(n), i)
    ensures KillSent(Next(env, w, step).cells(n), i)
  {
    hide CellNext;
    if Enabled(w, step) {
      var c, c' := w.cells(n), Next(env, w, step).cells(n);
      HandsOffAction(w, step, n);
      SignalsGrow(c, ActionOf(w, step, n), w.now, i);
      var k :| 0 <= k < |c.instances[i].signals| && c.instances[i].signals[k].Kill?;
      assert c'.instances[i].signals[k].Kill?;
    }
  }

  lemma {:induction false} RunTerminating(env: Env, w: World, steps: seq<Step>, n: Name, i: nat, deadline: int)
    requires WorldInv(w) && Stopping(w, n) && Terminating(w.cells(n), i, deadline)
    requires AllHandsOff(env, w, steps, n)
    ensures var w' := Run(env, w, steps);
            WorldInv(w') && Stopping(w', n) && Terminating(w'.cells(n), i, deadline)
    ensures KillSent(w.cells(n), i) ==> KillSent(Run(env, w, steps).cells(n), i)
  {
    if steps != [] {
      hide HandsOff, Terminating, KillSent, Next, WorldInv;
      LastHandsOff(env, w, steps, n);
      RunTerminating(env, w, steps[..|steps| - 1], n, i, deadline);
      var w1, step := Run(env, w, steps[..|steps| - 1]), steps[|steps| - 1];
      TerminatingStep(env, w1, step, n, i, deadline);
      if KillSent(w1.cells(n), i) { KillStays(env, w1, step, n, i); }
      StepKeeps(env, w1, step);
    }
  }

  lemma PassKeepsGone(c: Cell, row: AppRow, now: nat, luck: Luck, kernel: Option<Bytes>)
    requires row.desired.WantStopped? && Gone(c)
    ensures Gone(ReconcileCell(c, Some(row), now, luck, kernel))
  {
    assert Reap(c, now, luck.waitErr) == Escalate(c, c.managed.value, now);
  }

  lemma GoneStep(env: Env, w: World, step: Step, n: Name)
    requires WorldInv(w) && Stopping(w, n) && HandsOff(w, step, n) && Gone(w.cells(n))
    ensures WorldInv(Next(env, w, step)) && Stopping(Next(env, w, step), n) && Gone(Next(env, w, step).cells(n))
  {
    hide ReconcileCell;
    StepKeeps(env, w, step);
    HandsOffRow(env, w, step, n);
    if Enabled(w, step) {
      var a := ActionOf(w, step, n);
      HandsOffAction(w, step, n);
      if a.Reconciling? { PassKeepsGone(w.cells(n), w.reg.apps[n], w.now, a.luck, a.kernel); }
    }
  }

  /** Once gone, gone for as long as nobody touches the app. */
  lemma {:induction false} RunGone(env: Env, w: World, steps: seq<Step>, n: Name)
    requires WorldInv(w) && Stopping(w, n) && Gone(w.cells(n))
    requires AllHandsOff(env, w, steps, n)
    ensures var w' := Run(env, w, steps);
            WorldInv(w') && Stopping(w', n) && Gone(w'.cells(n))
  {
    if steps != [] {
      hide HandsOff, Next, WorldInv;
      LastHandsOff(env, w, steps, n);
      RunGone(env, w, steps[..|steps| - 1], n);
      GoneStep(env, Run(env, w, steps[..|steps| - 1]), steps[|steps| - 1], n);
    }
  }

  lemma NoneAlive(w: World, n: Name, j: nat)
    requires WorldInv(w) && w.phase.Up? && Gone(w.cells(n))
    ensures !Alive(w.cells(n), j)
  {
    assert CellInv(w.cells(n), w.phase, w.now);
    if j < |w.cells(n).instances| { assert ProcessSound(w.cells(n), j, w.now); }
  }

  /** The environment's side of the bargain at a pass: SIGKILL has taken effect on anything it
      was sent to, and waiting for the child reports no error. */
  ghost predicate KillTookEffect(w: World, pass: Step, n: Name) {
    && Passes(w, pass) && !pass.luck(n).waitErr
    && forall i: nat :: i < |w.cells(n).instances| && KillSent(w.cells(n), i) ==> !w.cells(n).instances[i].alive
  }

  /** With desired "stopped" and as long as nobody touches the app, three passes, the second at
      least ten seconds after the first, reach a state with no process, and it stays that way,
      whatever else happens in between, requests for other apps included. */
  lemma {:induction false} ThreePassesStop(env: Env, w: World, n: Name, first: Step, between: seq<Step>, second: Step,
                        between': seq<Step>, third: Step, after: seq<Step>,
                        w1: World, w2: World, w3: World, w4: World)
    requires Reachable(env, w) && Stopping(w, n)
    requires Passes(w, first) && w1 == Next(env, w, first)
    requires AllHandsOff(env, w1, between, n) && w2 == Run(env, w1, between)
    requires w2.now >= w.now + 10
    requires Passes(w2, second)
    requires AllHandsOff(env, Next(env, w2, second), between', n) && w3 == Run(env, Next(env, w2, second), between')
    requires KillTookEffect(w3, third, n)
    requires AllHandsOff(env, Next(env, w3, third), after, n) && w4 == Run(env, Next(env, w3, third), after)
    ensures Gone(w4.cells(n)) && forall j: nat :: !Alive(w4.cells(n), j)
  {
    hide Next, WorldInv, Gone;
    ReachableInv(env, w);
    FirstPass(env, w, first, n);
    FirstDeadline(env, w, first, n);
    if EntryOf(w1.cells(n)).child.None? {
      RunGone(env, w1, between, n);
      PassHandsOff(w2, second, n);
      GoneStep(env, w2, second, n);
      RunGone(env, Next(env, w2, second), between', n);
      PassHandsOff(w3, third, n);
      GoneStep(env, w3, third, n);
    } else {
      var i, d := EntryOf(w1.cells(n)).child.value, EntryOf(w1.cells(n)).termDeadline.value;
      RunTerminating(env, w1, between, n, i, d);
      LastPasses(env, w2, n, i, d, second, between', third);
    }
    RunGone(env, Next(env, w3, third), after, n);
    forall j: nat ensures !Alive(w4.cells(n), j) { NoneAlive(w4, n, j); }
  }

  /** The deadline the first pass leaves is at most ten seconds away. */
  lemma FirstDeadline(env: Env, w: World, first: Step, n: Name)
    requires Reachable(env, w) && Stopping(w, n) && Passes(w, first)
    ensures var m := EntryOf(Next(env, w, first).cells(n));
            m.termDeadline.Some? ==> m.termDeadline.value <= w.now + 10
  {
    var w0, steps :| Init(w0) && w == Run(env, w0, steps);
    RunDated(env, w0, steps, n);
    RunKeeps(env, w0, steps);
    DatedStep(env, w, first, n);
  }

  lemma PassHandsOff(w: World, pass: Step, n: Name)
    requires Passes(w, pass)
    ensures HandsOff(w, pass, n)
    ensures ActionOf(w, pass, n)
         == Reconciling(Lookup(w.reg.apps, n), pass.luck(n), KernelFor(w.reg.apps, w.store.jams, n))
  {
    PassAction(w, pass, n);
  }

  /** Past the deadline: the second pass kills what is left, the third finds it dead. */
  lemma LastPasses(env: Env, w: World, n: Name, i: nat, d: int, second: Step, between: seq<Step>, third: Step)
    requires WorldInv(w) && Stopping(w, n) && Terminating(w.cells(n), i, d) && w.now >= d
    requires Passes(w, second) && AllHandsOff(env, Next(env, w, second), between, n)
    requires KillTookEffect(Run(env, Next(env, w, second), between), third, n)
    ensures var w' := Next(env, Run(env, Next(env, w, second), between), third);
            WorldInv(w') && Stopping(w', n) && Gone(w'.cells(n))
  {
    hide Next, WorldInv;
    SecondPass(env, w, second, n, i, d);
    var w2 := Next(env, w, second);
    if Gone(w2.cells(n)) {
      RunGone(env, w2, between, n);
      PassHandsOff(Run(env, w2, between), third, n);
      GoneStep(env, Run(env, w2, between), third, n);
    } else {
      RunTerminating(env, w2, between, n, i, d);
      ThirdPass(env, Run(env, w2, between), third, n, i, d);
    }
  }

  lemma FirstPass(env: Env, w: World, first: Step, n: Name)
    requires WorldInv(w) && Stopping(w, n) && Passes(w, first)
    ensures var w1 := Next(env, w, first);
            && WorldInv(w1) && Stopping(w1, n)
            && (EntryOf(w1.cells(n)).child.None? ==> Gone(w1.cells(n)))
            && (EntryOf(w1.cells(n)).child.Some? ==> EntryOf(w1.cells(n)).termDeadline.Some?)
  {
    hide ReconcileCell;
    StepKeeps(env, w, first);
    assert CellInv(w.cells(n), w.phase, w.now);
    PassHandsOff(w, first, n);
    HandsOffRow(env, w, first, n);
    var a := ActionOf(w, first, n);
    PassTerminates(w.cells(n), w.reg.apps[n], w.now, a.luck, a.kernel);
  }

  lemma SecondPass(env: Env, w: World, second: Step, n: Name, i: nat, d: int)
    requires WorldInv(w) && Stopping(w, n) && Terminating(w.cells(n), i, d) && w.now >= d && Passes(w, second)
    ensures var w' := Next(env, w, second);
            && WorldInv(w') && Stopping(w', n) && Terminating(w'.cells(n), i, d)
            && (Gone(w'.cells(n)) || KillSent(w'.cells(n), i))
  {
    hide ReconcileCell;
    assert CellInv(w.cells(n), w.phase, w.now);
    PassHandsOff(w, second, n);
    TerminatingStep(env, w, second, n, i, d);
    StepKeeps(env, w, second);
    if Gone(w.cells(n)) {
      GoneStep(env, w, second, n);
    } else {
      var a := ActionOf(w, second, n);
      PassKeepsTerminating(w.cells(n), w.reg.apps[n], w.now, a.luck, a.kernel, i, d);
    }
  }

  lemma ThirdPass(env: Env, w: World, third: Step, n: Name, i: nat, d: int)
    requires WorldInv(w) && Stopping(w, n) && Terminating(w.cells(n), i, d)
    requires Gone(w.cells(n)) || KillSent(w.cells(n), i)
    requires KillTookEffect(w, third, n)
    ensures WorldInv(Next(env, w, third)) && Stopping(Next(env, w, third), n) && Gone(Next(env, w, third).cells(n))
  {
    hide ReconcileCell;
    PassHandsOff(w, third, n);
    if Gone(w.cells(n)) {
      GoneStep(env, w, third, n);
    } else {
      assert CellInv(w.cells(n), w.phase, w.now);
      StepKeeps(env, w, third);
      TerminatingStep(env, w, third, n, i, d);
      var a := ActionOf(w, third, n);
      PassKeepsTerminating(w.cells(n), w.reg.apps[n], w.now, a.luck, a.kernel, i, d);
    }
  }

  // ---------- desired "running" ----------

  /** With desired "running", a policy other than "never" and a start that succeeds, the first
      pass at or after `backoffUntil` that finds no child leaves a live process of the current
      row Running. */
  lemma StartsWhenDue(c: Cell, row: AppRow, now: nat, luck: Luck, kernel: Option<Bytes>)
    requires CellInv(c, Up, now) && row.desired.WantRunning? && row.config.policy != "never"
    requires luck.spawn.SpawnOk?
    requires var c1 := Reap(c, now, luck.waitErr); EntryOf(c1).child.None? && EntryOf(c1).backoffUntil <= now
    ensures var c' := ReconcileCell(c, Some(row), now, luck, kernel);
            && EntryOf(c').state.Running? && EntryOf(c').child == Some(|c.instances|)
            && Alive(c', |c.instances|)
            && c'.instances[|c.instances|].launch
               == Launch(row.artifact, row.config.args, row.config.port, row.config.endpoint)
            && c'.pidfile == Some(|c.instances|) && (kernel.Some? ==> c'.staged == kernel)
            && EntryOf(c').health.Unknown? && EntryOf(c').startedAt == now && !EntryOf(c').restartRequested
            && c'.log == Reap(c, now, luck.waitErr).log + [Event(StartEv, now)]
  {
  }

  /** So an app that should run is never down for more than a minute of backoff: from any
      reachable state with no child, one pass a minute later starts it. */
  lemma {:induction false} UpWithinAMinute(env: Env, w: World, steps: seq<Step>, n: Name, secs: nat, pass: Step)
    requires Init(w) && Run(env, w, steps).phase.Up?
    requires n in Run(env, w, steps).reg.apps
    requires Run(env, w, steps).reg.apps[n].desired.WantRunning?
    requires Run(env, w, steps).reg.apps[n].config.policy != "never"
    requires EntryOf(Run(env, w, steps).cells(n)).child.None?
    requires secs >= 60 && Passes(Next(env, Run(env, w, steps), Wait(secs)), pass)
    requires pass.luck(n).spawn.SpawnOk?
    ensures var w1 := Run(env, w, steps);
            var c' := Next(env, Next(env, w1, Wait(secs)), pass).cells(n);
            EntryOf(c').state.Running? && Alive(c', |w1.cells(n).instances|)
  {
    hide ReconcileCell, Run;
    RunKeeps(env, w, steps);
    var w1 := Run(env, w, steps);
    var w2 := Next(env, w1, Wait(secs));
    StepKeeps(env, w1, Wait(secs));
    var c := w2.cells(n);
    assert CellInv(w1.cells(n), w1.phase, w1.now) && CellInv(c, w2.phase, w2.now);
    PassHandsOff(w2, pass, n);
    var a := ActionOf(w2, pass, n);
    StartsWhenDue(c, w2.reg.apps[n], w2.now, a.luck, a.kernel);
  }
}
