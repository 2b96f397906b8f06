/** What the handlers do to the apps they name: the event they record, the process they terminate,
    and the pass they end with. */
module HandlerCells {
  import opened Prelude
  import opened Lifecycle
  import opened CellInvariant
  import opened Attest
  import opened Control
  import opened World
  import opened Safety
  import opened Atomic
  import opened Served
  import opened WholeHandlers
  import opened Stages
  import opened ReconcileLaws
  import RollbackLaws

  /** The request is not turned down. */
  ghost predicate Accepted(reg: RegState, r: Request) {
    match r
    case Deploy(req) => req.iconOk
    case Restart(name) => name in reg.apps
    case Reload(name, read) => name in reg.apps && reg.apps[name].manifest.Some? && read.Some?
    case Rollback(name) =>
      && name in reg.apps
      && exists k :: 0 <= k < |reg.history| && reg.history[k].app == name
                     && reg.history[k].artifact != reg.apps[name].artifact
    case StopApp(name) => name in reg.apps
    case StartApp(name) => name in reg.apps
    case _ => true
  }

  /** The event it records, and for which app; the others record none. */
  function Announces(r: Request): Option<(Name, Kind)> {
    match r
    case Deploy(req) => Some((req.name, DeployEv))
    case Restart(name) => Some((name, RestartEv))
    case Reload(name, _) => Some((name, ReloadEv))
    case Rollback(name) => Some((name, RollbackEv))
    case _ => None
  }

  /** The entries of a log that handlers made. */
  function OperatorEvents(log: seq<Event>): seq<Event> {
    if log == [] then []
    else
      var last := log[|log| - 1];
      OperatorEvents(log[..|log| - 1])
      + if last.kind in {DeployEv, RestartEv, ReloadEv, RollbackEv} then [last] else []
  }

  lemma OperatorAppend(log: seq<Event>, e: Event)
    ensures OperatorEvents(log + [e])
            == OperatorEvents(log) + if e.kind in {DeployEv, RestartEv, ReloadEv, RollbackEv} then [e] else []
  {
    assert (log + [e])[..|log|] == log;
  }

  lemma PassAnnouncesNothing(c: Cell, row: Option<AppRow>, now: nat, luck: Luck, kernel: Option<Bytes>)
    ensures OperatorEvents(ReconcileCell(c, row, now, luck, kernel).log) == OperatorEvents(c.log)
  {
    hide OperatorEvents, Drive;
    OperatorAppend(c.log, Event(CrashEv, now));
    OperatorAppend(c.log, Event(StoppedEv, now));
    if row.Some? { DriveAnnouncesNothing(Reap(c, now, luck.waitErr), row.value, now, luck.spawn, kernel); }
  }

  lemma DriveAnnouncesNothing(c: Cell, row: AppRow, now: nat, spawn: Spawn, kernel: Option<Bytes>)
    ensures OperatorEvents(Drive(c, row, now, spawn, kernel).log) == OperatorEvents(c.log)
  {
    hide OperatorEvents;
    OperatorAppend(c.log, Event(TermEv, now));
    OperatorAppend(c.log, Event(StartEv, now));
    OperatorAppend(c.log, Event(ErrorEv, now));
  }

  lemma RestartLogsNothing(c: Cell, now: nat)
    ensures RestartCell(c, now).log == c.log
  {
  }

  lemma AcceptedReconciles(reg: RegState, r: Request)
    ensures Reconciles(reg, r) <==> Accepted(reg, r) && !r.TrustAdd? && !r.TrustRemove?
  {
    if r.Rollback? && r.name in reg.apps {
      RollbackLaws.PreviousIsNewestOther(reg.history, r.name, reg.apps[r.name].artifact);
    }
  }

  /** A handler served whole records exactly one event, of its kind and for the app it names, if it
      is accepted and is a deploy, restart, reload or rollback; otherwise none. */
  lemma ServedLogs(env: Env, t: Tables, p: Pass, r: Request, listing: seq<Name>, n: Name, c: Cell)
    requires r.FleetSet? ==> forall x :: x in t.reg.apps ==> x in listing
    ensures OperatorEvents(ServeCell(env, t, p, r, listing, n, c).log)
            == OperatorEvents(c.log)
               + match Announces(r)
                 case Some((name, kind)) =>
                   if Accepted(t.reg, r) && name == n then [Event(kind, p.now)] else []
                 case None => []
  {
    hide OperatorEvents, ServeCell, ReconcileCell, RestartCell, ServedTables;
    ServedCellClosed(env, t, p, r, listing, n, c);
    AcceptedReconciles(t.reg, r);
    assert OperatorEvents(c.log) + [] == OperatorEvents(c.log);
    if Reconciles(t.reg, r) {
      var t', c1 := ServedTables(env, t, r), Touched(r, n, c, p.now);
      TouchedLogs(r, n, c, p.now);
      PassAnnouncesNothing(c1, Lookup(t'.reg.apps, n), p.now, p.luck(n), KernelFor(t'.reg.apps, t'.store.jams, n));
    }
  }

  lemma TouchedLogs(r: Request, n: Name, c: Cell, now: nat)
    ensures OperatorEvents(Touched(r, n, c, now).log)
            == OperatorEvents(c.log)
               + match Announces(r)
                 case Some((name, kind)) => if name == n then [Event(kind, now)] else []
                 case None => []
  {
    hide OperatorEvents, RestartCell;
    RestartLogsNothing(c, now);
    RestartLogsNothing(Logged(c, DeployEv, now), now);
    OperatorAppend(c.log, Event(DeployEv, now));
    OperatorAppend(c.log, Event(RestartEv, now));
    OperatorAppend(c.log, Event(ReloadEv, now));
    OperatorAppend(c.log, Event(RollbackEv, now));
    assert OperatorEvents(c.log) + [] == OperatorEvents(c.log);
  }

  /** An accepted handler ends with a pass over every app: each is left as a pass with the new
      tables would leave it, started, stopping, or waiting. */
  lemma ServedSettles(env: Env, t: Tables, p: Pass, r: Request, listing: seq<Name>, n: Name, c: Cell)
    requires r.FleetSet? ==> forall x :: x in t.reg.apps ==> x in listing
    requires p.up && CellInv(c, Up, p.now) && Accepted(t.reg, r) && !r.TrustAdd? && !r.TrustRemove?
    requires n in Serve(env, t, r, listing).reg.apps
    ensures Settled(ServeCell(env, t, p, r, listing, n, c), Serve(env, t, r, listing).reg.apps[n], p.now)
  {
    hide ServeCell, Serve, Settled, Drive, Reap, Touched, ServedTables;
    ServedCellClosed(env, t, p, r, listing, n, c);
    ServedClosed(env, t, r, listing);
    AcceptedReconciles(t.reg, r);
    var t', c1 := ServedTables(env, t, r), Touched(r, n, c, p.now);
    TouchedKeeps(r, n, c, p.now);
    ReapKeeps(c1, p.now, p.luck(n).waitErr);
    PassSettles(Reap(c1, p.now, p.luck(n).waitErr), t'.reg.apps[n], p.now, p.luck(n).spawn,
                KernelFor(t'.reg.apps, t'.store.jams, n));
  }

  /** An accepted deploy, restart, reload or rollback sends the process of the app it names SIGTERM,
      there and then, and keeps hold of it. */
  lemma ServedTerminates(env: Env, t: Tables, p: Pass, r: Request, listing: seq<Name>, n: Name, c: Cell, i: nat)
    requires p.up && CellInv(c, Up, p.now) && Accepted(t.reg, r)
    requires Announces(r).Some? && Announces(r).value.0 == n
    requires EntryOf(c).child == Some(i) && (Alive(c, i) || p.luck(n).waitErr)
    ensures var c' := ServeCell(env, t, p, r, listing, n, c);
            && EntryOf(c').child == Some(i) && i < |c.instances| && |c'.instances| == |c.instances|
            && c'.instances[i].signals == c.instances[i].signals + [Term(p.now)]
            && EntryOf(c').restartRequested && EntryOf(c').termDeadline == Some(p.now + 10)
  {
    hide ServeCell, ServedTables, CellInv, Drive, Reap, RestartCell;
    ServedCellClosed(env, t, p, r, listing, n, c);
    AcceptedReconciles(t.reg, r);
    NamedIsListed(env, t, r, n);
    var t' := ServedTables(env, t, r);
    TouchedTerminates(r, n, c, p.now, i);
    PassHolds(Touched(r, n, c, p.now), t'.reg.apps[n], p.now, p.luck(n), KernelFor(t'.reg.apps, t'.store.jams, n), i);
  }

  lemma NamedIsListed(env: Env, t: Tables, r: Request, n: Name)
    requires Accepted(t.reg, r) && Announces(r).Some? && Announces(r).value.0 == n
    ensures n in ServedTables(env, t, r).reg.apps
  {
    AppsStay(env, t, r);
  }

  lemma TouchedTerminates(r: Request, n: Name, c: Cell, now: nat, i: nat)
    requires CellInv(c, Up, now) && Announces(r).Some? && Announces(r).value.0 == n && EntryOf(c).child == Some(i)
    ensures var c' := Touched(r, n, c, now);
            && EntryOf(c').child == Some(i) && EntryOf(c').pid == Some(i)
            && i < |c.instances| && |c'.instances| == |c.instances|
            && c'.instances[i].alive == c.instances[i].alive
            && c'.instances[i].signals == c.instances[i].signals + [Term(now)]
            && EntryOf(c').restartRequested && EntryOf(c').termDeadline == Some(now + 10)
  {
  }

  /** A pass right after that leaves it at that. */
  lemma PassHolds(c: Cell, row: AppRow, now: nat, luck: Luck, kernel: Option<Bytes>, i: nat)
    requires EntryOf(c).child == Some(i) && EntryOf(c).termDeadline == Some(now + 10) && EntryOf(c).restartRequested
    requires (Alive(c, i) || luck.waitErr) && i < |c.instances|
    ensures var c' := ReconcileCell(c, Some(row), now, luck, kernel);
            && EntryOf(c').child == Some(i) && c'.instances == c.instances
            && EntryOf(c').restartRequested && EntryOf(c').termDeadline == Some(now + 10)
  {
    assert Reap(c, now, luck.waitErr) == c;
  }

  // ---------- a restart brings the app back ----------

  ghost predicate AllOperations(steps: seq<Step>) { forall k :: 0 <= k < |steps| ==> steps[k].Exec? }

  /** The app runs again, in a new process started from its row as it was, and wants to. */
  ghost predicate BackUp(w: World, w': World, n: Name)
    requires n in w.reg.apps
  {
    var row, pid := w.reg.apps[n], |w.cells(n).instances|;
    && w'.phase.Up? && n in w'.reg.apps && w'.reg.apps[n].desired == WantRunning
    && EntryOf(w'.cells(n)).child == Some(pid) && EntryOf(w'.cells(n)).state == Running && Alive(w'.cells(n), pid)
    && w'.cells(n).instances[pid].launch
       == Launch(row.artifact, row.config.args, row.config.port, row.config.endpoint)
  }

  /** From every reachable state with a live process: a restart, its operations, the exit and a pass
      have the app running again, also when it was meant to stop, unless its policy is "never" and
      it has failed before. */
  lemma RestartComesBack(env: Env, w: World, n: Name, i: nat)
    requires Reachable(env, w) && w.phase.Up? && n in w.reg.apps
    requires EntryOf(w.cells(n)).child == Some(i) && Alive(w.cells(n), i)
    requires w.reg.apps[n].config.policy != "never" || EntryOf(w.cells(n)).restarts == 0
    ensures exists ops: seq<Step> :: AllOperations(ops)
              && BackUp(w, Run(env, w, [Submit(Restart(n))] + ops
                                       + [Exit(n, i), Tick((x: Name) => Luck(false, SpawnOk))]), n)
  {
    hide Run, BackUp;
    ReachableInv(env, w);
    var luck := (x: Name) => Luck(false, SpawnOk);
    var ops, w1 := RestartOperations(env, w, n, i, luck);
    var w2 := Next(env, w1, Exit(n, i));
    var w3 := Next(env, w2, Tick(luck));
    ExitThenTick(env, w, w1, n, i, luck);
    var front := [Submit(Restart(n))] + ops;
    TwoSteps(env, w1, Exit(n, i), Tick(luck));
    RunAppend(env, w, front, [Exit(n, i), Tick(luck)]);
  }

  lemma TwoSteps(env: Env, w: World, a: Step, b: Step)
    ensures Run(env, w, [a, b]) == Next(env, Next(env, w, a), b)
  {
    assert [a, b] == [a] + [b];
    RunPrepend(env, w, a, [b]);
    OneStep(env, Next(env, w, a), b);
  }

  lemma RestartOperations(env: Env, w: World, n: Name, i: nat, luck: Name -> Luck) returns (ops: seq<Step>, w': World)
    requires WorldInv(w) && w.phase.Up? && n in w.reg.apps && !luck(n).waitErr
    requires EntryOf(w.cells(n)).child == Some(i) && Alive(w.cells(n), i)
    ensures AllOperations(ops) && w' == Run(env, w, [Submit(Restart(n))] + ops)
    ensures w'.phase.Up? && w'.now == w.now && n in w'.reg.apps
    ensures w'.reg.apps[n] == w.reg.apps[n].(desired := WantRunning)
    ensures var c, c' := w.cells(n), w'.cells(n);
            && EntryOf(c').child == Some(i) && |c'.instances| == |c.instances| && i < |c.instances|
            && EntryOf(c').restartRequested && EntryOf(c').termDeadline.Some? && WorldInv(w')
            && EntryOf(c').restarts == EntryOf(c).restarts
  {
    hide Run, Serve, ServeCell;
    var r := Restart(n);
    ops := Execs(|w.tasks|, luck, [], Rounds(env, TablesOf(w), ProgramOf(env, r), []));
    w' := Run(env, w, [Submit(r)] + ops);
    assert CellInv(w.cells(n), w.phase, w.now);
    ServedWholeIsARun(env, w, r, luck, [], n);
    ServedClosed(env, TablesOf(w), r, []);
    ServedTerminates(env, TablesOf(w), PassOf(w, luck), r, [], n, w.cells(n), i);
    RunFromKeeps(env, w, [Submit(r)] + ops);
    RestartCharges(env, TablesOf(w), PassOf(w, luck), n, w.cells(n), i);
  }

  lemma RestartCharges(env: Env, t: Tables, p: Pass, n: Name, c: Cell, i: nat)
    requires CellInv(c, Up, p.now) && EntryOf(c).child == Some(i) && Alive(c, i) && p.up && n in t.reg.apps
    ensures EntryOf(ServeCell(env, t, p, Restart(n), [], n, c)).restarts == EntryOf(c).restarts
  {
    hide ServeCell, CellInv;
    ServedCellClosed(env, t, p, Restart(n), [], n, c);
    var c1 := Touched(Restart(n), n, c, p.now);
    HeldPid(c, p.now, i);
    assert EntryOf(c1).child == Some(i) && EntryOf(c1).restarts == EntryOf(c).restarts && Alive(c1, i);
    assert Reap(c1, p.now, p.luck(n).waitErr) == Escalate(c1, c1.managed.value, p.now);
  }

  lemma HeldPid(c: Cell, now: nat, i: nat)
    requires CellInv(c, Up, now) && EntryOf(c).child == Some(i)
    ensures c.managed.Some? && EntryOf(c).pid == Some(i)
  {
  }

  lemma ExitThenTick(env: Env, w: World, w1: World, n: Name, i: nat, luck: Name -> Luck)
    requires luck(n) == Luck(false, SpawnOk)
    requires w1.phase.Up? && n in w.reg.apps && n in w1.reg.apps && WorldInv(w1)
    requires w1.reg.apps[n] == w.reg.apps[n].(desired := WantRunning)
    requires w.reg.apps[n].config.policy != "never" || EntryOf(w1.cells(n)).restarts == 0
    requires var c, c' := w.cells(n), w1.cells(n);
             && EntryOf(c').child == Some(i) && |c'.instances| == |c.instances| && i < |c.instances|
             && EntryOf(c').restartRequested
    ensures BackUp(w, Next(env, Next(env, w1, Exit(n, i)), Tick(luck)), n)
  {
    hide ReconcileCell;
    var w2 := Next(env, w1, Exit(n, i));
    assert CellInv(w1.cells(n), w1.phase, w1.now);
    StartsAgain(w2.cells(n), w2.reg.apps[n], w2.now, luck(n), KernelFor(w2.reg.apps, w2.store.jams, n), i);
  }

  lemma StartsAgain(c: Cell, row: AppRow, now: nat, luck: Luck, kernel: Option<Bytes>, i: nat)
    requires EntryOf(c).child == Some(i) && i < |c.instances| && !Alive(c, i) && EntryOf(c).restartRequested
    requires row.desired.WantRunning? && (row.config.policy != "never" || EntryOf(c).restarts == 0)
    requires luck == Luck(false, SpawnOk)
    ensures var c' := ReconcileCell(c, Some(row), now, luck, kernel);
            && EntryOf(c').child == Some(|c.instances|) && EntryOf(c').state == Running && Alive(c', |c.instances|)
            && c'.instances[|c.instances|].launch
               == Launch(row.artifact, row.config.args, row.config.port, row.config.endpoint)
  {
    var c1 := Reap(c, now, false);
    assert EntryOf(c1).child.None? && EntryOf(c1).backoffUntil == 0 && EntryOf(c1).restarts == EntryOf(c).restarts;
    assert |c1.instances| == |c.instances|;
  }
}
