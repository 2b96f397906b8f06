/** How exits are accounted for, and that the event log says so. */
module Bookkeeping {
  import opened Prelude
  import opened Lifecycle
  import opened CellInvariant
  import opened Control
  import opened World
  import opened Safety
  import opened Deadlines

  // ---------- whose restarts were asked for ----------

  /** A handler asks for the restart of `n` while the daemon holds process `i`. */
  ghost predicate AsksRestart(w: World, step: Step, n: Name, i: nat) {
    && w.phase.Up? && step.Exec? && Enabled(w, step) && w.tasks[step.task][0] == RequestRestart(n)
    && EntryOf(w.cells(n)).child == Some(i)
  }

  ghost predicate AskedAt(env: Env, w: World, steps: seq<Step>, n: Name, i: nat, j: nat) {
    j < |steps| && AsksRestart(Run(env, w, steps[..j]), steps[j], n, i)
  }

  ghost predicate Asked(env: Env, w: World, steps: seq<Step>, n: Name, i: nat) {
    exists j: nat :: AskedAt(env, w, steps, n, i, j)
  }

  lemma AskedStep(env: Env, w: World, steps: seq<Step>, n: Name, i: nat)
    requires steps != []
    ensures var front, last := steps[..|steps| - 1], steps[|steps| - 1];
            Asked(env, w, steps, n, i) <==> Asked(env, w, front, n, i) || AsksRestart(Run(env, w, front), last, n, i)
  {
    hide Run, AsksRestart;
    var front, last := steps[..|steps| - 1], steps[|steps| - 1];
    assert forall j :: 0 <= j <= |front| ==> front[..j] == steps[..j];
    assert front[..|front|] == front == steps[..|front|];
    if j: nat :| AskedAt(env, w, steps, n, i, j) {
      if j < |front| { assert AskedAt(env, w, front, n, i, j); }
    }
    if j: nat :| AskedAt(env, w, front, n, i, j) { assert AskedAt(env, w, steps, n, i, j); }
    if AsksRestart(Run(env, w, front), last, n, i) { assert AskedAt(env, w, steps, n, i, |front|); }
  }

  /** What one transition may do to the accounting of process `i`. */
  predicate FateMoves(c: Cell, c': Cell, asks: bool, i: nat) {
    && |c.instances| <= |c'.instances|
    && (i < |c.instances| ==>
          || c'.instances[i].fate == c.instances[i].fate
          || (!asks && EntryOf(c).child == Some(i) && c.instances[i].fate.Unreaped?
              && (c'.instances[i].fate.ReapedRestart? <==> EntryOf(c).restartRequested)))
    && (|c.instances| <= i < |c'.instances| ==> c'.instances[i].fate.Unreaped?)
    && (EntryOf(c').child == Some(i) ==>
          if i < |c.instances| then
            EntryOf(c).child == Some(i) && (EntryOf(c').restartRequested <==> EntryOf(c).restartRequested || asks)
          else !EntryOf(c').restartRequested)
  }

  lemma PassMoves(c: Cell, row: AppRow, now: nat, luck: Luck, kernel: Option<Bytes>, i: nat)
    requires CellInv(c, Up, now)
    ensures FateMoves(c, ReconcileCell(c, Some(row), now, luck, kernel), false, i)
  {
    hide Reap, Drive;
    ReapMoves(c, now, luck.waitErr, i);
    ReapKeeps(c, now, luck.waitErr);
    DriveMoves(Reap(c, now, luck.waitErr), row, now, luck.spawn, kernel, i);
  }

  lemma ReapMoves(c: Cell, now: nat, waitErr: bool, i: nat)
    requires CellInv(c, Up, now)
    ensures var c1 := Reap(c, now, waitErr);
            && |c1.instances| == |c.instances| && FateMoves(c, c1, false, i)
            && (EntryOf(c1).child.Some? ==> EntryOf(c1).child == EntryOf(c).child)
  {
    hide Accounts;
  }

  lemma DriveMoves(c: Cell, row: AppRow, now: nat, spawn: Spawn, kernel: Option<Bytes>, i: nat)
    requires CellInv(c, Up, now)
    ensures var c' := Drive(c, row, now, spawn, kernel);
            && |c.instances| <= |c'.instances|
            && (i < |c.instances| ==> c'.instances[i].fate == c.instances[i].fate)
            && (|c.instances| <= i < |c'.instances| ==> c'.instances[i].fate.Unreaped?)
            && (EntryOf(c').child == Some(i) ==>
                  if i < |c.instances| then
                    EntryOf(c).child == Some(i) && EntryOf(c').restartRequested == EntryOf(c).restartRequested
                  else !EntryOf(c').restartRequested)
  {
    hide Accounts, ProcessesSound;
  }

  lemma ActionMoves(c: Cell, a: Action, now: nat, i: nat)
    requires CellInv(c, Up, now) && (a.Reconciling? ==> a.row.Some?)
    requires !a.Sweeping? && !a.Overlooked? && !a.BeginStop? && !a.EndStop? && !a.Forgetting?
    ensures FateMoves(c, CellNext(c, a, now), a.Restarting? && EntryOf(c).child == Some(i), i)
  {
    if a.Reconciling? {
      hide ReconcileCell, FateMoves;
      PassMoves(c, a.row.value, now, a.luck, a.kernel, i);
      MovesMore(c, CellNext(c, a, now), i);
    }
  }

  lemma MovesMore(c: Cell, c': Cell, i: nat)
    requires FateMoves(c, c', false, i)
    ensures FateMoves(c, c', false && EntryOf(c).child == Some(i), i)
  {
  }

  /** Every other transition leaves the accounting alone. */
  lemma RestMoves(c: Cell, a: Action, now: nat, i: nat)
    requires a.Idle? || a.Sweeping? || a.Overlooked? || a.BeginStop? || a.EndStop? || a.Forgetting? || a.Exiting?
             || a.Restarting? || a.Logging? || a.Probing?
    ensures var c' := CellNext(c, a, now);
            |c'.instances| == |c.instances| && (i < |c.instances| ==> c'.instances[i].fate == c.instances[i].fate)
  {
  }

  ghost predicate InAccount(env: Env, w: World, steps: seq<Step>, n: Name, i: nat) {
    var w' := Run(env, w, steps);
    var c := w'.cells(n);
    && (w'.phase.Up? && EntryOf(c).child == Some(i) ==> (EntryOf(c).restartRequested <==> Asked(env, w, steps, n, i)))
    && (i < |c.instances| && !c.instances[i].fate.Unreaped? ==>
          (c.instances[i].fate.ReapedRestart? <==> Asked(env, w, steps, n, i)))
    && (i >= |c.instances| ==> !Asked(env, w, steps, n, i))
  }

  lemma {:induction false} RunAccounted(env: Env, w: World, steps: seq<Step>, n: Name, i: nat)
    requires Init(w)
    ensures InAccount(env, w, steps, n, i)
  {
    if steps == [] {
      assert w.cells(n) == BLANK;
    } else {
      hide Run;
      var front, last := steps[..|steps| - 1], steps[|steps| - 1];
      RunAccounted(env, w, front, n, i);
      RunKeeps(env, w, front);
      AskedStep(env, w, steps, n, i);
      LastOf(env, w, steps);
      AccountedStep(env, w, front, last, n, i);
    }
  }

  lemma LastOf(env: Env, w: World, steps: seq<Step>)
    requires steps != []
    ensures Run(env, w, steps) == Next(env, Run(env, w, steps[..|steps| - 1]), steps[|steps| - 1])
  {
  }

  /** The same of the state after one more step. */
  lemma AccountedStep(env: Env, w: World, front: seq<Step>, last: Step, n: Name, i: nat)
    requires InAccount(env, w, front, n, i) && WorldInv(Run(env, w, front))
    ensures var w1 := Run(env, w, front);
            var w' := Next(env, w1, last);
            var c := w'.cells(n);
            var asked := Asked(env, w, front, n, i) || AsksRestart(w1, last, n, i);
            && (w'.phase.Up? && EntryOf(c).child == Some(i) ==> (EntryOf(c).restartRequested <==> asked))
            && (i < |c.instances| && !c.instances[i].fate.Unreaped? ==> (c.instances[i].fate.ReapedRestart? <==> asked))
            && (i >= |c.instances| ==> !asked)
  {
    hide Run, Asked, CellNext, FateMoves, AsksRestart, CellInv, NextReg, NextTasks, NextStore, NextAssessed;
    var w1 := Run(env, w, front);
    var c := w1.cells(n);
    assert CellInv(c, w1.phase, w1.now);
    if Enabled(w1, last) {
      var a := ActionOf(w1, last, n);
      if a.Reconciling? && n !in w1.reg.apps {
        UnregisteredStep(c, Up, w1.now, a.luck, true, 0);
        AsksHere(w1, last, n, i);
      } else if w1.phase.Up? && !a.BeginStop? && !a.Forgetting? {
        ActionMoves(c, a, w1.now, i);
        HeldUnreaped(c, w1.now, i);
        AsksHere(w1, last, n, i);
        MovesAccounted(c, CellNext(c, a, w1.now), AsksRestart(w1, last, n, i), Asked(env, w, front, n, i), i);
      } else {
        RestMoves(c, a, w1.now, i);
        FreshlyUp(env, w1, last, n);
        NotAsking(w1, last, n, i);
      }
    } else {
      NotAsking(w1, last, n, i);
    }
  }

  lemma NotAsking(w: World, step: Step, n: Name, i: nat)
    ensures AsksRestart(w, step, n, i) ==> w.phase.Up? && step.Exec? && Enabled(w, step)
  {
  }

  lemma MovesAccounted(c: Cell, c': Cell, asks: bool, asked: bool, i: nat)
    requires FateMoves(c, c', asks, i)
    requires EntryOf(c).child == Some(i) ==> i < |c.instances| && c.instances[i].fate.Unreaped?
    requires EntryOf(c).child == Some(i) ==> (EntryOf(c).restartRequested <==> asked)
    requires i < |c.instances| && !c.instances[i].fate.Unreaped? ==> (c.instances[i].fate.ReapedRestart? <==> asked)
    requires (i >= |c.instances| ==> !asked) && (asks ==> EntryOf(c).child == Some(i))
    ensures EntryOf(c').child == Some(i) ==> (EntryOf(c').restartRequested <==> asked || asks)
    ensures i < |c'.instances| && !c'.instances[i].fate.Unreaped? ==>
              (c'.instances[i].fate.ReapedRestart? <==> asked || asks)
    ensures i >= |c'.instances| ==> !asked && !asks
  {
  }

  lemma AsksHere(w: World, step: Step, n: Name, i: nat)
    requires w.phase.Up? && Enabled(w, step)
    ensures AsksRestart(w, step, n, i) <==> ActionOf(w, step, n).Restarting? && EntryOf(w.cells(n)).child == Some(i)
  {
  }

  lemma HeldUnreaped(c: Cell, now: nat, i: nat)
    requires CellInv(c, Up, now)
    ensures EntryOf(c).child == Some(i) ==> i < |c.instances| && c.instances[i].fate.Unreaped?
  {
  }

  /** A step that brings the daemon up leaves nothing tracked. */
  lemma FreshlyUp(env: Env, w: World, step: Step, n: Name)
    requires WorldInv(w) && Enabled(w, step) && (!w.phase.Up? || step.BeginShutdown? || step.Die?)
    ensures Next(env, w, step).phase.Up? ==> Next(env, w, step).cells(n).managed.None?
    ensures step.Exec? ==> !w.phase.Up?
  {
    assert CellInv(w.cells(n), w.phase, w.now);
  }

  /** In every run a reaped exit is accounted as a restart, and so forgiven, exactly when a restart
      of that very process had been requested. */
  lemma {:induction false} RestartIffRequested(env: Env, w: World, steps: seq<Step>, n: Name, i: nat)
    requires Init(w)
    requires i < |Run(env, w, steps).cells(n).instances|
    requires !Run(env, w, steps).cells(n).instances[i].fate.Unreaped?
    ensures Run(env, w, steps).cells(n).instances[i].fate.ReapedRestart?
            <==> exists j: nat :: AskedAt(env, w, steps, n, i, j)
  {
    RunAccounted(env, w, steps, n, i);
  }

  // ---------- the log keeps the same accounts ----------

  function Entries(log: seq<Event>, from: nat, kind: Kind): nat {
    if |log| <= from then 0
    else Entries(log[..|log| - 1], from, kind) + if log[|log| - 1].kind == kind then 1 else 0
  }

  function Fates(ps: seq<Instance>, from: nat, fate: Fate): nat {
    if |ps| <= from then 0
    else Fates(ps[..|ps| - 1], from, fate) + if ps[|ps| - 1].fate == fate then 1 else 0
  }

  lemma EntriesAppend(log: seq<Event>, from: nat, e: Event, kind: Kind)
    requires from <= |log|
    ensures Entries(log + [e], from, kind) == Entries(log, from, kind) + if e.kind == kind then 1 else 0
  {
    assert (log + [e])[..|log|] == log;
  }

  lemma FatesAppend(ps: seq<Instance>, from: nat, p: Instance, fate: Fate)
    requires from <= |ps|
    ensures Fates(ps + [p], from, fate) == Fates(ps, from, fate) + if p.fate == fate then 1 else 0
  {
    assert (ps + [p])[..|ps|] == ps;
  }

  /** Only the newest process differs. */
  lemma FatesLast(ps: seq<Instance>, ps': seq<Instance>, from: nat, fate: Fate)
    requires from < |ps| == |ps'| && ps'[..|ps| - 1] == ps[..|ps| - 1]
    ensures Fates(ps', from, fate) - Fates(ps, from, fate)
            == (if ps'[|ps| - 1].fate == fate then 1 else 0) - (if ps[|ps| - 1].fate == fate then 1 else 0)
  {
  }

  lemma {:induction false} FatesSame(ps: seq<Instance>, ps': seq<Instance>, from: nat, fate: Fate)
    requires |ps| == |ps'| && forall i :: 0 <= i < |ps| ==> ps'[i].fate == ps[i].fate
    ensures Fates(ps', from, fate) == Fates(ps, from, fate)
  {
    if |ps| > from {
      var front, front' := ps[..|ps| - 1], ps'[..|ps| - 1];
      assert forall i :: 0 <= i < |front| ==> front[i] == ps[i] && front'[i] == ps'[i];
      FatesSame(front, front', from, fate);
    }
  }

  /** The event an exit of this kind leaves; a restart leaves none. */
  predicate ExitEvent(kind: Kind, fate: Fate) {
    (kind == CrashEv && fate == ReapedCrash) || (kind == StoppedEv && fate == ReapedStop)
  }

  predicate Kept(c: Cell, kind: Kind, fate: Fate) {
    && c.born <= |c.instances| && c.mark <= |c.log|
    && Entries(c.log, c.mark, kind) == Fates(c.instances, c.born, fate)
  }

  lemma ReapBalanced(c: Cell, now: nat, waitErr: bool, kind: Kind, fate: Fate)
    requires CellInv(c, Up, now) && Kept(c, kind, fate) && ExitEvent(kind, fate)
    ensures Kept(Reap(c, now, waitErr), kind, fate)
  {
    var c1 := Reap(c, now, waitErr);
    if c.managed.Some? && EntryOf(c).child.Some? {
      var i := EntryOf(c).child.value;
      if waitErr || Alive(c, i) {
        FatesSame(c.instances, c1.instances, c.born, fate);
      } else {
        hide Entries, Fates;
        FatesLast(c.instances, c1.instances, c.born, fate);
        EntriesAppend(c.log, c.mark, Event(CrashEv, now), kind);
        EntriesAppend(c.log, c.mark, Event(StoppedEv, now), kind);
      }
    }
  }

  lemma DriveBalanced(c: Cell, row: AppRow, now: nat, spawn: Spawn, kernel: Option<Bytes>, kind: Kind, fate: Fate)
    requires CellInv(c, Up, now) && Kept(c, kind, fate) && ExitEvent(kind, fate)
    ensures Kept(Drive(c, row, now, spawn, kernel), kind, fate)
  {
    hide Entries, Fates;
    var c' := Drive(c, row, now, spawn, kernel);
    if row.desired.WantRunning? && MayStart(EntryOf(c), row, now) {
      EntriesAppend(c.log, c.mark, Event(StartEv, now), kind);
      EntriesAppend(c.log, c.mark, Event(ErrorEv, now), kind);
      FatesAppend(c.instances, c.born, Instance(LaunchOf(row), now, true, [], Unreaped), fate);
    } else {
      EntriesAppend(c.log, c.mark, Event(TermEv, now), kind);
      FatesSame(c.instances, c'.instances, c.born, fate);
    }
  }

  lemma ActionBalanced(c: Cell, a: Action, now: nat, kind: Kind, fate: Fate)
    requires CellInv(c, Up, now) && (a.Reconciling? ==> a.row.Some?)
    requires Kept(c, kind, fate) && ExitEvent(kind, fate)
    requires !a.Sweeping? && !a.Overlooked? && !a.BeginStop? && !a.EndStop? && !a.Forgetting?
    ensures Kept(CellNext(c, a, now), kind, fate)
  {
    hide Entries, Fates;
    if a.Reconciling? {
      hide Reap, Drive, Kept;
      ReapBalanced(c, now, a.luck.waitErr, kind, fate);
      ReapKeeps(c, now, a.luck.waitErr);
      DriveBalanced(Reap(c, now, a.luck.waitErr), a.row.value, now, a.luck.spawn, a.kernel, kind, fate);
    } else {
      if a.Logging? { EntriesAppend(c.log, c.mark, Event(a.kind, now), kind); }
      FatesSame(c.instances, CellNext(c, a, now).instances, c.born, fate);
    }
  }

  lemma SweptBalanced(c: Cell, a: Action, now: nat, kind: Kind, fate: Fate)
    requires CellInv(c, Starting, now) && (a.Sweeping? || a.Overlooked? || a.Idle?)
    ensures Kept(CellNext(c, a, now), kind, fate)
  {
  }

  lemma BalancedStep(env: Env, w: World, step: Step, n: Name, kind: Kind, fate: Fate)
    requires WorldInv(w) && (w.phase.Up? ==> Kept(w.cells(n), kind, fate)) && ExitEvent(kind, fate)
    requires Next(env, w, step).phase.Up?
    ensures Kept(Next(env, w, step).cells(n), kind, fate)
  {
    hide CellInv, CellNext, Kept;
    var c := w.cells(n);
    assert CellInv(c, w.phase, w.now);
    if Enabled(w, step) {
      var a := ActionOf(w, step, n);
      if step.Sweep? {
        SweptBalanced(c, a, w.now, kind, fate);
      } else if a.Reconciling? && n !in w.reg.apps {
        UnregisteredStep(c, Up, w.now, a.luck, true, 0);
      } else {
        ActionBalanced(c, a, w.now, kind, fate);
      }
    }
  }

  lemma {:induction false} RunBalanced(env: Env, w: World, steps: seq<Step>, n: Name, kind: Kind, fate: Fate)
    requires Init(w) && ExitEvent(kind, fate)
    ensures Run(env, w, steps).phase.Up? ==> Kept(Run(env, w, steps).cells(n), kind, fate)
  {
    if steps != [] {
      hide Kept, Next;
      var front := steps[..|steps| - 1];
      RunBalanced(env, w, front, n, kind, fate);
      RunKeeps(env, w, front);
      if Run(env, w, steps).phase.Up? {
        BalancedStep(env, Run(env, w, front), steps[|steps| - 1], n, kind, fate);
      }
    }
  }

  /** Since this daemon started there is one crash event for each exit charged as a crash and one
      stop event for each exit of a process that was told to stop, and for a restart there is
      neither. */
  lemma {:induction false} LogKeepsAccounts(env: Env, w: World, steps: seq<Step>, n: Name)
    requires Init(w) && Run(env, w, steps).phase.Up?
    ensures var c := Run(env, w, steps).cells(n);
            && Entries(c.log, c.mark, CrashEv) == Fates(c.instances, c.born, ReapedCrash)
            && Entries(c.log, c.mark, StoppedEv) == Fates(c.instances, c.born, ReapedStop)
            && Entries(c.log, c.mark, StartEv) == |c.instances| - c.born
  {
    RunBalanced(env, w, steps, n, CrashEv, ReapedCrash);
    RunBalanced(env, w, steps, n, StoppedEv, ReapedStop);
    RunKeeps(env, w, steps);
    var w' := Run(env, w, steps);
    assert CellInv(w'.cells(n), w'.phase, w'.now);
    StartsAreEntries(w'.cells(n).log, w'.cells(n).mark);
  }

  lemma {:induction false} StartsAreEntries(log: seq<Event>, mark: nat)
    ensures Entries(log, mark, StartEv) == Starts(log, mark)
  {
    if |log| > mark { StartsAreEntries(log[..|log| - 1], mark); }
  }

  // ---------- every event of a pass ----------

  /** The pass sees that the process it holds has exited. */
  predicate SeenGone(c: Cell, luck: Luck) {
    EntryOf(c).child.Some? && !luck.waitErr && !Alive(c, EntryOf(c).child.value)
  }

  /** What the exit leaves in the log: nothing after a restart request, a stop if it was told to, a
      crash otherwise. */
  function ExitEvents(c: Cell, luck: Luck, now: nat): seq<Event>
    requires EntryOf(c).child.Some? ==> EntryOf(c).child.value < |c.instances|
  {
    if !SeenGone(c, luck) || EntryOf(c).restartRequested then []
    else if c.instances[EntryOf(c).child.value].signals != [] then [Event(StoppedEv, now)]
    else [Event(CrashEv, now)]
  }

  /** And what is done next: a stop begun, a start, or a start that failed. */
  function DriveEvents(c: Cell, c': Cell, row: AppRow, luck: Luck, now: nat): seq<Event>
    requires EntryOf(c).child.Some? ==> EntryOf(c).child.value < |c.instances|
  {
    if EntryOf(c).child.Some? && !SeenGone(c, luck) then
      if row.desired == WantStopped && c.instances[EntryOf(c).child.value].signals == [] then [Event(TermEv, now)]
        else []
    else if |c'.instances| > |c.instances| then [Event(StartEv, now)]
    else if EntryOf(c').restarts > EntryOf(c).restarts
                                   + (if ExitEvents(c, luck, now) == [Event(CrashEv, now)] then 1 else 0) then
      [Event(ErrorEv, now)]
    else []
  }

  lemma ReapExitEvents(c: Cell, now: nat, luck: Luck)
    requires CellInv(c, Up, now)
    ensures EntryOf(c).child.Some? ==> EntryOf(c).child.value < |c.instances|
    ensures var c1 := Reap(c, now, luck.waitErr);
            && c1.log == c.log + ExitEvents(c, luck, now)
            && |c1.instances| == |c.instances|
            && EntryOf(c1).restarts
               == EntryOf(c).restarts + (if ExitEvents(c, luck, now) == [Event(CrashEv, now)] then 1 else 0)
            && (EntryOf(c1).child.Some? <==> EntryOf(c).child.Some? && !SeenGone(c, luck))
            && (EntryOf(c1).child.Some? ==> EntryOf(c1) == EntryOf(c))
  {
    assert Event(StoppedEv, now) != Event(CrashEv, now);
    assert c.log + [] == c.log;
  }

  lemma DriveDriveEvents(c: Cell, row: AppRow, now: nat, spawn: Spawn, kernel: Option<Bytes>)
    requires CellInv(c, Up, now)
    ensures var c' := Drive(c, row, now, spawn, kernel);
            && (EntryOf(c).child.Some? ==>
                  && EntryOf(c).child.value < |c.instances|
                  && c'.log == c.log + if row.desired == WantStopped && EntryOf(c).termDeadline.None?
                                       then [Event(TermEv, now)] else [])
            && (EntryOf(c).child.None? ==>
                  c'.log == c.log + if |c'.instances| > |c.instances| then [Event(StartEv, now)]
                                    else if EntryOf(c').restarts > EntryOf(c).restarts then [Event(ErrorEv, now)]
                                    else [])
  {
    hide ProcessesSound, Accounts;
    assert c.log + [] == c.log;
  }

  /** In every run: the events a pass records for an app are exactly these. */
  lemma {:induction false} PassEvents(env: Env, w: World, steps: seq<Step>, pass: Step, n: Name)
    requires Init(w) && Passes(Run(env, w, steps), pass) && n in Run(env, w, steps).reg.apps
    ensures var w1 := Run(env, w, steps);
            var c, c' := w1.cells(n), Next(env, w1, pass).cells(n);
            && (EntryOf(c).child.Some? ==> EntryOf(c).child.value < |c.instances|)
            && c'.log == c.log + ExitEvents(c, pass.luck(n), w1.now)
                               + DriveEvents(c, c', w1.reg.apps[n], pass.luck(n), w1.now)
  {
    hide Run, ReconcileCell, ExitEvents, DriveEvents;
    RunKeeps(env, w, steps);
    var w1 := Run(env, w, steps);
    assert CellInv(w1.cells(n), w1.phase, w1.now);
    PassAction(w1, pass, n);
    CellPassEvents(w1.cells(n), w1.reg.apps[n], w1.now, pass.luck(n), KernelFor(w1.reg.apps, w1.store.jams, n));
  }

  lemma CellPassEvents(c: Cell, row: AppRow, now: nat, luck: Luck, kernel: Option<Bytes>)
    requires CellInv(c, Up, now)
    ensures var c' := ReconcileCell(c, Some(row), now, luck, kernel);
            && (EntryOf(c).child.Some? ==> EntryOf(c).child.value < |c.instances|)
            && c'.log == c.log + ExitEvents(c, luck, now) + DriveEvents(c, c', row, luck, now)
  {
    hide Reap, Drive, ExitEvents, SeenGone;
    var c1 := Reap(c, now, luck.waitErr);
    ReapExitEvents(c, now, luck);
    ReapKeeps(c, now, luck.waitErr);
    DriveDriveEvents(c1, row, now, luck.spawn, kernel);
    if EntryOf(c).child.Some? { DeadlineIffSignalled(c, now); }
  }

  lemma DeadlineIffSignalled(c: Cell, now: nat)
    requires CellInv(c, Up, now) && EntryOf(c).child.Some?
    ensures EntryOf(c).child.value < |c.instances|
    ensures EntryOf(c).termDeadline.None? <==> c.instances[EntryOf(c).child.value].signals == []
  {
  }
}
