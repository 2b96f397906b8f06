/** The supervisor: its process map and the loops over it, each proved to do to every app what
    the one-app transition does, in whatever order the loop visits them. */
module Supervision {
  import opened Prelude
  import opened Lifecycle
  import opened Control
  import opened EventTail
  import opened HostMachine
  import opened RegistryTables
  import opened ContentStore

  class Supervisor {
    var procs: map<Name, Managed>
    var shuttingDown: bool
    const host: Host
    const registry: Registry
    ghost const births: Name -> nat
    ghost const marks: Name -> nat

    /** A new daemon tracks nothing, whatever the machine still runs. */
    constructor (host: Host, registry: Registry)
      ensures this.host == host && this.registry == registry
      ensures procs == map[] && !shuttingDown
      ensures forall n: Name :: births(n) == |host.Processes(n)| && marks(n) == |LogOf(registry.events, n)|
    {
      this.host, this.registry := host, registry;
      procs, shuttingDown := map[], false;
      var running := host.instances;
      var rows := registry.events;
      births := (n: Name) => if n in running then |running[n]| else 0;
      marks := (n: Name) => |LogOf(rows, n)|;
    }

    /** Everything there is about one app. */
    ghost function CellAt(n: Name): Cell
      reads this`procs, host, registry`events
    {
      Cell(Lookup(procs, n), host.Processes(n), Lookup(host.pidfiles, n), Lookup(host.staged, n),
           LogOf(registry.events, n), births(n), marks(n))
    }

    // ---------- single effects, each on one app ----------

    method PutEntry(name: Name, m: Managed)
      modifies this`procs
      ensures procs == old(procs)[name := m]
      ensures forall n: Name :: CellAt(n) == if n == name then Entered(old(CellAt(n)), m) else old(CellAt(n))
    {
      procs := procs[name := m];
    }

    method RemoveEntry(name: Name)
      modifies this`procs
      ensures procs == old(procs) - {name}
      ensures forall n: Name :: CellAt(n) == if n == name then old(CellAt(n)).(managed := None) else old(CellAt(n))
    {
      procs := procs - {name};
      forall n: Name | n != name ensures CellAt(n) == old(CellAt(n)) {
        assert Lookup(procs, n) == old(Lookup(procs, n));
      }
    }

    method Unlink(name: Name)
      modifies host`pidfiles
      ensures forall n: Name :: CellAt(n) == if n == name then old(CellAt(n)).(pidfile := None) else old(CellAt(n))
    {
      host.RemovePidfile(name);
    }

    method Send(name: Name, pid: nat, s: Signal)
      modifies host`instances
      ensures forall n: Name :: CellAt(n) == if n == name then Signalled(old(CellAt(n)), pid, s) else old(CellAt(n))
    {
      host.Send(name, pid, s);
    }

    method AccountFor(name: Name, pid: nat, fate: Fate)
      modifies host`instances
      ensures forall n: Name :: CellAt(n) == if n == name then Accounted(old(CellAt(n)), pid, fate) else old(CellAt(n))
    {
      host.Account(name, pid, fate);
    }

    method Log(name: Name, kind: Kind, now: nat)
      modifies registry`events
      ensures old(Increasing(registry.events)) ==> Increasing(registry.events)
      ensures forall n: Name :: CellAt(n) == if n == name then Logged(old(CellAt(n)), kind, now) else old(CellAt(n))
    {
      registry.AddEvent(name, kind, now);
    }

    // ---------- reap, escalate ----------

    method ReapOne(name: Name, now: nat, waitErr: bool)
      requires name in procs
      modifies this`procs, host, registry`events
      ensures procs.Keys == old(procs.Keys)
      ensures old(Increasing(registry.events)) ==> Increasing(registry.events)
      ensures forall n: Name :: CellAt(n) == if n == name then Reap(old(CellAt(n)), now, waitErr) else old(CellAt(n))
    {
      var m := procs[name];
      if m.child.Some? && !waitErr && !host.Runs(name, m.child.value) {
        ReapExited(name, now);
      } else if m.termDeadline.Some? && now >= m.termDeadline.value {
        if m.pid.Some? {
          Send(name, m.pid.value, Kill(now));
        }
      }
    }

    method ReapExited(name: Name, now: nat)
      requires name in procs && procs[name].child.Some?
      modifies this`procs, host, registry`events
      ensures procs.Keys == old(procs.Keys)
      ensures old(Increasing(registry.events)) ==> Increasing(registry.events)
      ensures forall n: Name ::
        CellAt(n) == if n == name then ReapExit(old(CellAt(n)), old(procs[name]), old(procs[name].child.value), now)
                     else old(CellAt(n))
    {
      hide CellAt;
      var m := procs[name];
      var pid := m.child.value;
      m := m.(child := None, pid := None);
      Unlink(name);
      if m.restartRequested {
        m := m.(restartRequested := false, termDeadline := None, backoffUntil := 0, state := Backoff);
        PutEntry(name, m);
        AccountFor(name, pid, ReapedRestart);
      } else if m.termDeadline.Some? {
        m := m.(termDeadline := None, state := Stopped, health := Unknown, statusLine := None);
        PutEntry(name, m);
        AccountFor(name, pid, ReapedStop);
        Log(name, StoppedEv, now);
      } else {
        m := m.(restarts := m.restarts + 1);
        m := m.(backoffUntil := now + BackoffSecs(m.restarts), state := Backoff);
        PutEntry(name, m);
        AccountFor(name, pid, ReapedCrash);
        Log(name, CrashEv, now);
      }
    }

    method ReapPass(now: nat, luck: Name -> Luck)
      modifies this`procs, host, registry`events
      ensures procs.Keys == old(procs.Keys)
      ensures old(Increasing(registry.events)) ==> Increasing(registry.events)
      ensures forall n: Name :: CellAt(n) == Reap(old(CellAt(n)), now, luck(n).waitErr)
    {
      var todo := procs.Keys;
      while todo != {}
        invariant todo <= procs.Keys == old(procs.Keys)
        invariant old(Increasing(registry.events)) ==> Increasing(registry.events)
        invariant forall n: Name ::
          CellAt(n) == if n in procs && n !in todo then Reap(old(CellAt(n)), now, luck(n).waitErr) else old(CellAt(n))
      {
        var name :| name in todo;
        ReapOne(name, now, luck(name).waitErr);
        todo := todo - {name};
      }
    }

    // ---------- drop what is no longer registered ----------

    method DropOne(name: Name, now: nat)
      requires name in procs
      modifies this`procs, host
      ensures procs.Keys == old(procs.Keys) - {name}
      ensures forall n: Name :: CellAt(n) == if n == name then DropEntry(old(CellAt(n)), now) else old(CellAt(n))
    {
      var m := procs[name];
      RemoveEntry(name);
      if m.pid.Some? {
        Send(name, m.pid.value, Kill(now));
      }
      Unlink(name);
    }

    method DropPass(apps: map<Name, AppRow>, now: nat)
      modifies this`procs, host
      ensures forall n: Name :: CellAt(n) == if n in apps then old(CellAt(n)) else DropEntry(old(CellAt(n)), now)
    {
      var tracked := procs.Keys;
      while tracked != {}
        invariant forall n :: n in tracked ==> n in procs
        invariant forall n: Name ::
          CellAt(n) == if n in tracked || n in apps then old(CellAt(n)) else DropEntry(old(CellAt(n)), now)
      {
        var name :| name in tracked;
        tracked := tracked - {name};
        if name !in apps {
          DropOne(name, now);
        }
      }
    }

    // ---------- drive each registered app toward its target ----------

    method StopDriven(name: Name, now: nat)
      requires name in procs
      modifies this`procs, host`instances, registry`events
      ensures procs.Keys == old(procs.Keys)
      ensures old(Increasing(registry.events)) ==> Increasing(registry.events)
      ensures forall n: Name ::
        CellAt(n) == if n == name then DriveStopped(old(CellAt(n)), old(procs[name]), now) else old(CellAt(n))
    {
      var m := procs[name];
      if m.child.Some? {
        if m.termDeadline.None? {
          if m.pid.Some? {
            Send(name, m.pid.value, Term(now));
          }
          PutEntry(name, m.(termDeadline := Some(now + GRACE_SECS), state := Stopping));
          Log(name, TermEv, now);
        }
      } else {
        PutEntry(name, m.(state := Stopped, termDeadline := None, health := Unknown, statusLine := None));
      }
    }

    /** Stage the kernel, then run the binary. */
    method Spawn(name: Name, row: AppRow, now: nat, store: Store, luck: Lifecycle.Spawn) returns (child: Option<nat>)
      modifies host`instances, host`staged
      ensures child == if luck.SpawnOk? then Some(|old(CellAt(name)).instances|) else None
      ensures forall n: Name ::
        CellAt(n) == if n == name then Tried(old(CellAt(n)), row, now, luck, Lookup(store.jams, row.artifact))
          else old(CellAt(n))
    {
      var staged := store.StageJam(row.artifact, host, name, luck);
      if !staged {
        return None;
      }
      if luck.ExecFails? {
        return None;
      }
      var pid := host.Exec(name, LaunchOf(row), now);
      return Some(pid);
    }

    method WritePid(name: Name, pid: nat)
      modifies host`pidfiles
      ensures forall n: Name :: CellAt(n) == if n == name then old(CellAt(n)).(pidfile := Some(pid)) else old(CellAt(n))
    {
      host.WritePidfile(name, pid);
    }

    method StartDriven(name: Name, row: AppRow, now: nat, store: Store, luck: Lifecycle.Spawn)
      requires name in procs
      modifies this`procs, host, registry`events
      ensures procs.Keys == old(procs.Keys)
      ensures old(Increasing(registry.events)) ==> Increasing(registry.events)
      ensures forall n: Name ::
        CellAt(n) == if n == name
                     then TryStart(old(CellAt(n)), old(procs[name]), row, now, luck, Lookup(store.jams, row.artifact))
                     else old(CellAt(n))
    {
      hide CellAt;
      var m := procs[name];
      var child := Spawn(name, row, now, store, luck);
      if child.Some? {
        m := m.(pid := child, child := child, startedAt := now, state := Running, health := Unknown,
                termDeadline := None, restartRequested := false);
        WritePid(name, child.value);
        PutEntry(name, m);
        Log(name, StartEv, now);
      } else {
        m := m.(restarts := m.restarts + 1);
        m := m.(backoffUntil := now + BackoffSecs(m.restarts), state := Backoff);
        PutEntry(name, m);
        Log(name, ErrorEv, now);
      }
    }

    method DriveOne(name: Name, row: AppRow, now: nat, store: Store, luck: Lifecycle.Spawn)
      modifies this`procs, host, registry`events
      ensures procs.Keys == old(procs.Keys) + {name}
      ensures old(Increasing(registry.events)) ==> Increasing(registry.events)
      ensures forall n: Name ::
        CellAt(n) == if n == name then Drive(old(CellAt(n)), row, now, luck, Lookup(store.jams, row.artifact))
          else old(CellAt(n))
    {
      if name !in procs {
        PutEntry(name, DEFAULT_MANAGED);
      }
      var m := procs[name];
      if row.desired.WantStopped? {
        StopDriven(name, now);
      } else if m.child.Some? {
        PutEntry(name, m.(state := if m.termDeadline.Some? then Stopping else Running));
      } else if row.config.policy == "never" && m.restarts > 0 {
        PutEntry(name, m.(state := Crashed));
      } else if now < m.backoffUntil {
        PutEntry(name, m.(state := Backoff));
      } else {
        StartDriven(name, row, now, store, luck);
      }
    }

    method DrivePass(apps: map<Name, AppRow>, now: nat, store: Store, luck: Name -> Luck)
      modifies this`procs, host, registry`events
      ensures old(Increasing(registry.events)) ==> Increasing(registry.events)
      ensures forall n: Name ::
        CellAt(n) == if n in apps
                     then Drive(old(CellAt(n)), apps[n], now, luck(n).spawn, Lookup(store.jams, apps[n].artifact))
                     else old(CellAt(n))
    {
      var todo := apps.Keys;
      while todo != {}
        invariant todo <= apps.Keys
        invariant old(Increasing(registry.events)) ==> Increasing(registry.events)
        invariant forall n: Name ::
          CellAt(n) == if n in apps && n !in todo
                       then Drive(old(CellAt(n)), apps[n], now, luck(n).spawn, Lookup(store.jams, apps[n].artifact))
                       else old(CellAt(n))
      {
        var name :| name in todo;
        DriveOne(name, apps[name], now, store, luck(name).spawn);
        todo := todo - {name};
      }
    }

    // ---------- operator and probe entries ----------

    method RequestRestart(name: Name, now: nat)
      modifies this`procs, host`instances
      ensures forall n: Name :: CellAt(n) == if n == name then RestartCell(old(CellAt(n)), now) else old(CellAt(n))
    {
      if name in procs {
        var m := procs[name];
        if m.pid.Some? {
          m := m.(restartRequested := true, termDeadline := Some(now + GRACE_SECS));
          Send(name, m.pid.value, Term(now));
        }
        m := m.(backoffUntil := 0);
        PutEntry(name, m);
      }
    }

    method SetHealth(name: Name, health: Health)
      modifies this`procs
      ensures forall n: Name ::
        CellAt(n) == if n == name then ProbeCell(old(CellAt(n)), health, EntryOf(old(CellAt(n))).statusLine)
          else old(CellAt(n))
    {
      if name in procs {
        PutEntry(name, procs[name].(health := health));
      }
    }

    method SetStatusLine(name: Name, line: Option<string>)
      modifies this`procs
      ensures forall n: Name ::
        CellAt(n) == if n == name then ProbeCell(old(CellAt(n)), EntryOf(old(CellAt(n))).health, line)
          else old(CellAt(n))
    {
      if name in procs {
        PutEntry(name, procs[name].(statusLine := line));
      }
    }

    // ---------- leftovers of a previous daemon ----------

    /** `exits` are the leftovers that go by themselves within the wait of `waited` seconds. */
    method CleanupOrphans(now: nat, exits: set<Name>, waited: nat, view: View)
      modifies host
      ensures forall n: Name ::
        CellAt(n) == if view.NoListing? || n !in registry.apps then old(CellAt(n))
                     else if n in view.unread then OverlookCell(old(CellAt(n)), true)
                     else SweepCell(old(CellAt(n)), now, n in exits, waited)
    {
      if view.NoListing? {
        return;
      }
      hide CellAt, SweepCell, OverlookCell, OrphanPid, Termed, Finished;
      var killed := TermOrphans(now, view.unread);
      FinishOrphans(killed, exits, now + waited);
      forall n: Name | n in registry.apps
        ensures CellAt(n) == if n in view.unread then OverlookCell(old(CellAt(n)), true)
                             else SweepCell(old(CellAt(n)), now, n in exits, waited)
      {
        SweepHalves(old(CellAt(n)), now, n !in view.unread, n in exits, waited);
        assert Lookup(killed, n) == OrphanPid(old(CellAt(n)), n !in view.unread);
      }
    }

    method TermOrphans(now: nat, unread: set<Name>) returns (killed: map<Name, nat>)
      modifies host
      ensures forall n: Name ::
        Lookup(killed, n) == if n in registry.apps then OrphanPid(old(CellAt(n)), n !in unread) else None
      ensures forall n: Name ::
        CellAt(n) == if n in registry.apps then Termed(old(CellAt(n)), now, n !in unread) else old(CellAt(n))
    {
      hide CellAt;
      killed := map[];
      var todo := registry.apps.Keys;
      while todo != {}
        invariant todo <= registry.apps.Keys
        invariant forall n: Name ::
          Lookup(killed, n) == if n in registry.apps && n !in todo then OrphanPid(old(CellAt(n)), n !in unread)
            else None
        invariant forall n: Name ::
          CellAt(n) == if n in registry.apps && n !in todo then Termed(old(CellAt(n)), now, n !in unread)
            else old(CellAt(n))
      {
        var name :| name in todo;
        var pid := TermOrphan(name, now, name !in unread);
        killed := With(killed, name, pid);
        todo := todo - {name};
      }
    }

    /** A pidfile that cannot be read or parsed names nobody, and is removed like any other. */
    method TermOrphan(name: Name, now: nat, readable: bool) returns (pid: Option<nat>)
      modifies host
      ensures pid == OrphanPid(old(CellAt(name)), readable)
      ensures forall n: Name :: CellAt(n) == if n == name then Termed(old(CellAt(n)), now, readable) else old(CellAt(n))
    {
      pid := None;
      if readable && name in host.pidfiles {
        if host.Runs(name, host.pidfiles[name]) {
          pid := Some(host.pidfiles[name]);
          Send(name, pid.value, Term(now));
        }
      }
      Unlink(name);
    }

    method FinishOrphans(killed: map<Name, nat>, exits: set<Name>, later: nat)
      modifies host`instances
      ensures forall n: Name ::
        CellAt(n) == if n in killed then Finished(old(CellAt(n)), killed[n], n in exits, later) else old(CellAt(n))
    {
      var left := killed.Keys;
      while left != {}
        invariant left <= killed.Keys
        invariant forall n: Name ::
          CellAt(n) == if n in killed && n !in left then Finished(old(CellAt(n)), killed[n], n in exits, later)
                       else old(CellAt(n))
      {
        var name :| name in left;
        FinishOrphan(name, killed[name], name in exits, later);
        left := left - {name};
      }
    }

    method FinishOrphan(name: Name, pid: nat, exits: bool, later: nat)
      modifies host`instances
      ensures forall n: Name :: CellAt(n) == if n == name then Finished(old(CellAt(n)), pid, exits, later)
              else old(CellAt(n))
    {
      if !exits {
        Send(name, pid, Kill(later));
      }
      Gone(name, pid);
    }

    /** The process is gone: by itself, or because SIGKILL takes effect. */
    method Gone(name: Name, pid: nat)
      modifies host`instances
      ensures forall n: Name :: CellAt(n) == if n == name then Exited(old(CellAt(n)), pid) else old(CellAt(n))
    {
      host.Exit(name, pid);
    }

    // ---------- shutdown ----------

    /** Take every handle, then SIGTERM them all. */
    method BeginStopAll(now: nat) returns (children: map<Name, nat>)
      modifies this`procs, this`shuttingDown, host`instances
      ensures shuttingDown
      ensures forall n: Name :: CellAt(n) == BeginStopCell(old(CellAt(n)), now)
      ensures procs.Keys == old(procs.Keys)
      ensures forall n: Name :: Lookup(children, n) == HandlePid(old(CellAt(n)).managed)
    {
      shuttingDown := true;
      children := TakeHandles();
      TermChildren(children, now);
    }

    method TermChildren(children: map<Name, nat>, now: nat)
      modifies host`instances
      ensures forall n: Name ::
        CellAt(n) == if n in children then Signalled(old(CellAt(n)), children[n], Term(now)) else old(CellAt(n))
    {
      var left := children.Keys;
      while left != {}
        invariant left <= children.Keys
        invariant forall n: Name ::
          CellAt(n) == if n in children && n !in left then Signalled(old(CellAt(n)), children[n], Term(now))
            else old(CellAt(n))
      {
        var name :| name in left;
        Send(name, children[name], Term(now));
        left := left - {name};
      }
    }

    method TakeHandles() returns (children: map<Name, nat>)
      modifies this`procs
      ensures procs.Keys == old(procs.Keys)
      ensures forall n: Name :: CellAt(n) == if n in procs then WithoutHandle(old(CellAt(n))) else old(CellAt(n))
      ensures forall n: Name :: Lookup(children, n) == if n in procs then HandlePid(old(CellAt(n)).managed) else None
    {
      hide CellAt;
      children := map[];
      var todo := procs.Keys;
      while todo != {}
        invariant todo <= procs.Keys == old(procs.Keys)
        invariant forall n: Name ::
          Lookup(children, n) == if n in procs && n !in todo then HandlePid(old(CellAt(n)).managed) else None
        invariant forall n: Name ::
          CellAt(n) == if n in procs && n !in todo then WithoutHandle(old(CellAt(n))) else old(CellAt(n))
      {
        var name :| name in todo;
        var pid := TakeHandle(name);
        children := With(children, name, pid);
        todo := todo - {name};
      }
    }

    method TakeHandle(name: Name) returns (pid: Option<nat>)
      requires name in procs
      modifies this`procs
      ensures procs.Keys == old(procs.Keys)
      ensures pid == HandlePid(old(CellAt(name)).managed)
      ensures forall n: Name :: CellAt(n) == if n == name then WithoutHandle(old(CellAt(n))) else old(CellAt(n))
    {
      var m := procs[name];
      pid := None;
      if m.pid.Some? && m.child.Some? {
        pid := m.pid;
        PutEntry(name, m.(child := None));
      }
    }

    /** The grace period is over: kill what is left of the taken children, clear the pidfiles. */
    method FinishStopAll(children: map<Name, nat>, now: nat)
      requires children.Keys <= procs.Keys
      requires forall n: Name :: n in procs ==> (if n in children then Some(children[n]) else None) == procs[n].pid
      modifies host
      ensures forall n: Name :: CellAt(n) == EndStopCell(old(CellAt(n)), now)
    {
      KillStragglers(children, now);
      ClearPidfiles();
    }

    method KillStragglers(children: map<Name, nat>, now: nat)
      modifies host`instances
      ensures forall n: Name :: CellAt(n) == if n in children then Outlived(old(CellAt(n)), children[n], now)
              else old(CellAt(n))
    {
      var left := children.Keys;
      while left != {}
        invariant left <= children.Keys
        invariant forall n: Name ::
          CellAt(n) == if n in children && n !in left then Outlived(old(CellAt(n)), children[n], now)
            else old(CellAt(n))
      {
        var name :| name in left;
        if host.Runs(name, children[name]) {
          KillNow(name, children[name], now);
        }
        left := left - {name};
      }
    }

    method KillNow(name: Name, pid: nat, now: nat)
      modifies host`instances
      ensures forall n: Name ::
        CellAt(n) == if n == name then Exited(Signalled(old(CellAt(n)), pid, Kill(now)), pid) else old(CellAt(n))
    {
      Send(name, pid, Kill(now));
      Gone(name, pid);
    }

    method ClearPidfiles()
      modifies host`pidfiles
      ensures forall n: Name :: CellAt(n) == if n in procs then old(CellAt(n)).(pidfile := None) else old(CellAt(n))
    {
      var todo := procs.Keys;
      while todo != {}
        invariant todo <= procs.Keys
        invariant forall n: Name ::
          CellAt(n) == if n in procs && n !in todo then old(CellAt(n)).(pidfile := None) else old(CellAt(n))
      {
        var name :| name in todo;
        Unlink(name);
        todo := todo - {name};
      }
    }

    // ---------- the whole pass ----------

    method Reconcile(store: Store, now: nat, luck: Name -> Luck)
      modifies this`procs, host, registry`events
      ensures old(Increasing(registry.events)) ==> Increasing(registry.events)
      ensures forall n: Name ::
        CellAt(n) == if shuttingDown then old(CellAt(n))
                     else ReconcileCell(old(CellAt(n)), Lookup(registry.apps, n), now, luck(n),
                                        KernelFor(registry.apps, store.jams, n))
    {
      if shuttingDown {
        return;
      }
      var apps := registry.apps;
      ReapPass(now, luck);
      DropPass(apps, now);
      DrivePass(apps, now, store, luck);
    }
  }

  /** What an attempt to spawn leaves on the machine. */
  function Tried(c: Cell, row: AppRow, now: nat, luck: Lifecycle.Spawn, kernel: Option<Bytes>): Cell {
    match luck
    case SpawnOk => Staged(c, kernel).(instances := c.instances + [Instance(LaunchOf(row), now, true, [], Unreaped)])
    case ExecFails => Staged(c, kernel)
    case StageFails(left) => c.(staged := left)
  }

  // ---------- the halves of the sweep and of the shutdown ----------

  /** The live process the pidfile names, if it can be read. */
  function OrphanPid(c: Cell, readable: bool): Option<nat> {
    if readable && c.pidfile.Some? && Alive(c, c.pidfile.value) then c.pidfile else None
  }

  function Termed(c: Cell, now: nat, readable: bool): Cell {
    var pid := OrphanPid(c, readable);
    (if pid.Some? then Signalled(c, pid.value, Term(now)) else c).(pidfile := None)
  }

  function Finished(c: Cell, pid: nat, exits: bool, later: nat): Cell {
    Exited(if exits then c else Signalled(c, pid, Kill(later)), pid)
  }

  /** The two halves make the whole sweep. */
  lemma SweepHalves(c: Cell, now: nat, readable: bool, exits: bool, waited: nat)
    ensures var pid, c1 := OrphanPid(c, readable), Termed(c, now, readable);
            (if pid.Some? then Finished(c1, pid.value, exits, now + waited) else c1)
            == if readable then SweepCell(c, now, exits, waited) else OverlookCell(c, true)
  {
  }

  /** The pid of an entry whose handle can be taken. */
  function HandlePid(entry: Option<Managed>): Option<nat> {
    match entry
    case None => None
    case Some(m) => if m.child.Some? then m.pid else None
  }

  function With<V>(m: map<Name, V>, k: Name, v: Option<V>): (r: map<Name, V>)
    ensures k !in m ==> forall n :: Lookup(r, n) == if n == k then v else Lookup(m, n)
  {
    if v.Some? then m[k := v.value] else m
  }

  function WithoutHandle(c: Cell): Cell {
    match c.managed
    case None => c
    case Some(m) => if m.pid.Some? && m.child.Some? then Entered(c, m.(child := None)) else c
  }

  function Outlived(c: Cell, pid: nat, now: nat): Cell {
    if Alive(c, pid) then Exited(Signalled(c, pid, Kill(now)), pid) else c
  }
}
