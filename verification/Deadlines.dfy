/** The grace period, to the second: when a deadline falls due and what happens then. */
module Deadlines {
  import opened Prelude
  import opened Lifecycle
  import opened CellInvariant
  import opened Control
  import opened World
  import opened Safety

  /** When the newest SIGTERM was sent. */
  function LastTerm(signals: seq<Signal>): Option<int> {
    if signals == [] then None
    else if signals[|signals| - 1].Term? then Some(signals[|signals| - 1].at)
    else LastTerm(signals[..|signals| - 1])
  }

  lemma LastTermAppend(signals: seq<Signal>, s: Signal)
    ensures LastTerm(signals + [s]) == if s.Term? then Some(s.at) else LastTerm(signals)
  {
    assert (signals + [s])[..|signals|] == signals;
  }

  /** A pending deadline is ten seconds after the newest SIGTERM to the held child. */
  predicate Dated(c: Cell, now: nat) {
    var m := EntryOf(c);
    m.termDeadline.Some? ==>
      && m.child.Some? && m.child.value < |c.instances|
      && LastTerm(c.instances[m.child.value].signals) == Some(m.termDeadline.value - 10)
      && m.termDeadline.value <= now + 10
  }

  lemma ReapDated(c: Cell, now: nat, waitErr: bool)
    requires CellInv(c, Up, now) && Dated(c, now)
    ensures Dated(Reap(c, now, waitErr), now)
  {
    var m := EntryOf(c);
    if m.child.Some? { LastTermAppend(c.instances[m.child.value].signals, Kill(now)); }
  }

  lemma DriveDated(c: Cell, row: AppRow, now: nat, spawn: Spawn, kernel: Option<Bytes>)
    requires CellInv(c, Up, now) && Dated(c, now)
    ensures Dated(Drive(c, row, now, spawn, kernel), now)
  {
    hide ProcessesSound, LastTerm, Accounts;
    var m := EntryOf(c);
    if m.child.Some? { LastTermAppend(c.instances[m.child.value].signals, Term(now)); }
  }

  lemma RestartDated(c: Cell, now: nat)
    requires CellInv(c, Up, now) && Dated(c, now)
    ensures Dated(RestartCell(c, now), now)
  {
    var m := EntryOf(c);
    if m.child.Some? { LastTermAppend(c.instances[m.child.value].signals, Term(now)); }
  }

  lemma ActionDated(c: Cell, a: Action, now: nat)
    requires CellInv(c, Up, now) && Dated(c, now) && (a.Reconciling? ==> a.row.Some?)
    requires !a.Sweeping? && !a.Overlooked? && !a.BeginStop? && !a.EndStop? && !a.Forgetting?
    ensures Dated(CellNext(c, a, now), now)
  {
    if a.Reconciling? {
      hide Dated, Reap, Drive;
      ReapKeeps(c, now, a.luck.waitErr);
      ReapDated(c, now, a.luck.waitErr);
      DriveDated(Reap(c, now, a.luck.waitErr), a.row.value, now, a.luck.spawn, a.kernel);
    } else if a.Restarting? {
      RestartDated(c, now);
    }
  }

  lemma DatedStep(env: Env, w: World, step: Step, n: Name)
    requires WorldInv(w) && (w.phase.Up? ==> Dated(w.cells(n), w.now)) && Next(env, w, step).phase.Up?
    ensures Dated(Next(env, w, step).cells(n), Next(env, w, step).now)
  {
    hide ReconcileCell, RestartCell, CellInv;
    var c := w.cells(n);
    assert CellInv(c, w.phase, w.now);
    if Enabled(w, step) {
      var a := ActionOf(w, step, n);
      if step.Sweep? {
        Untracked(c, w.phase, w.now);
      } else if a.Reconciling? && n !in w.reg.apps {
        UnregisteredStep(c, Up, w.now, a.luck, true, 0);
      } else {
        ActionDated(c, a, w.now);
      }
    }
  }

  lemma Untracked(c: Cell, phase: Phase, now: nat)
    requires CellInv(c, phase, now) && (phase.Down? || phase.Starting?)
    ensures c.managed.None?
  {
  }

  lemma {:induction false} RunDated(env: Env, w: World, steps: seq<Step>, n: Name)
    requires Init(w)
    ensures Run(env, w, steps).phase.Up? ==> Dated(Run(env, w, steps).cells(n), Run(env, w, steps).now)
  {
    if steps != [] {
      hide Dated, Next;
      RunDated(env, w, steps[..|steps| - 1], n);
      RunKeeps(env, w, steps[..|steps| - 1]);
      if Run(env, w, steps).phase.Up? {
        DatedStep(env, Run(env, w, steps[..|steps| - 1]), steps[|steps| - 1], n);
      }
    }
  }

  /** In every run: a pending deadline is ten seconds after the newest SIGTERM the held child
      was sent, whoever asked for it. */
  lemma {:induction false} DeadlineIsTermPlusTen(env: Env, w: World, steps: seq<Step>, n: Name)
    requires Init(w) && Run(env, w, steps).phase.Up?
    requires EntryOf(Run(env, w, steps).cells(n)).termDeadline.Some?
    ensures var c := Run(env, w, steps).cells(n);
            && EntryOf(c).child.Some? && EntryOf(c).child.value < |c.instances|
            && LastTerm(c.instances[EntryOf(c).child.value].signals) == Some(EntryOf(c).termDeadline.value - 10)
            && EntryOf(c).termDeadline.value <= Run(env, w, steps).now + 10
  {
    RunDated(env, w, steps, n);
  }

  // ---------- what a pass does to a process being terminated ----------

  /** The step is a pass: a background tick, or the last operation of some handler. */
  ghost predicate Passes(w: World, step: Step) {
    w.phase.Up? && Enabled(w, step) && (step.Tick? || (step.Exec? && w.tasks[step.task][0].ReconcileOp?))
  }

  lemma PassAction(w: World, pass: Step, n: Name)
    requires Passes(w, pass)
    ensures ActionOf(w, pass, n)
         == Reconciling(Lookup(w.reg.apps, n), pass.luck(n), KernelFor(w.reg.apps, w.store.jams, n))
  {
  }

  /** In every run: a pass that finds a child being terminated and does not see it gone sends it
      SIGKILL if ten seconds have passed since its newest SIGTERM, and otherwise no signal. */
  lemma {:induction false} KillIffTenSecondsLate(env: Env, w: World, steps: seq<Step>, pass: Step, n: Name, i: nat)
    requires Init(w) && Passes(Run(env, w, steps), pass)
    requires var c := Run(env, w, steps).cells(n);
             EntryOf(c).child == Some(i) && i < |c.instances| && c.instances[i].signals != []
    requires pass.luck(n).waitErr || Alive(Run(env, w, steps).cells(n), i)
    ensures var w1 := Run(env, w, steps);
            var c, c' := w1.cells(n), Next(env, w1, pass).cells(n);
            && LastTerm(c.instances[i].signals).Some? && i < |c'.instances|
            && c'.instances[i].signals
               == c.instances[i].signals
                  + if w1.now >= LastTerm(c.instances[i].signals).value + 10 then [Kill(w1.now)] else []
  {
    hide Run, ReconcileCell;
    RunKeeps(env, w, steps);
    RunDated(env, w, steps, n);
    var w1 := Run(env, w, steps);
    var c := w1.cells(n);
    assert CellInv(c, w1.phase, w1.now) && n in w1.reg.apps;
    PassAction(w1, pass, n);
    TerminatingPass(c, w1.reg.apps[n], w1.now, pass.luck(n), KernelFor(w1.reg.apps, w1.store.jams, n), i);
  }

  lemma TerminatingPass(c: Cell, row: AppRow, now: nat, luck: Luck, kernel: Option<Bytes>, i: nat)
    requires CellInv(c, Up, now) && Dated(c, now) && EntryOf(c).child == Some(i) && c.instances[i].signals != []
    requires luck.waitErr || Alive(c, i)
    ensures LastTerm(c.instances[i].signals).Some?
    ensures var c' := ReconcileCell(c, Some(row), now, luck, kernel);
            && i < |c'.instances|
            && c'.instances[i].signals
               == c.instances[i].signals
                  + if now >= LastTerm(c.instances[i].signals).value + 10 then [Kill(now)] else []
  {
    var c1 := Reap(c, now, luck.waitErr);
    assert c1 == Escalate(c, c.managed.value, now);
  }
}
