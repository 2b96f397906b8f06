/** The daemon: its lock, its start and its request handlers, each proved to do to tables,
    files and processes exactly what the request served whole does. */
module DaemonProcess {
  import opened Prelude
  import opened Lifecycle
  import opened Attest
  import opened Control
  import opened HostMachine
  import opened RegistryTables
  import opened ContentStore
  import opened Supervision
  import opened Atomic
  import opened Served

  /** The HTTP answer: 200, 404, 400 or 409. */
  datatype Response = Done | NotFound | BadRequest | Conflict

  /** The lock file of a data root. */
  class LockFile {
    var held: bool

    constructor ()
      ensures !held
    {
      held := false;
    }

    method TryLock() returns (ok: bool)
      modifies this
      ensures held && ok == !old(held)
    {
      ok := !held;
      held := true;
    }
  }

  /** Names of the apps a fleet request changes. */
  function Differing(apps: map<Name, AppRow>, desired: Desired): set<Name> {
    set n | n in apps && apps[n].desired != desired
  }

  /** How many of `todo` differ. */
  ghost function ToChange(apps: map<Name, AppRow>, todo: set<Name>, desired: Desired): (k: nat)
    ensures todo == {} ==> k == 0
  {
    |Differing(apps, desired) * todo|
  }

  lemma ToChangeAll(apps: map<Name, AppRow>, desired: Desired)
    ensures ToChange(apps, apps.Keys, desired) == |Differing(apps, desired)|
  {
    assert Differing(apps, desired) * apps.Keys == Differing(apps, desired);
  }

  lemma ToChangeStep(apps: map<Name, AppRow>, todo: set<Name>, x: Name, desired: Desired)
    requires x in todo && x in apps
    ensures ToChange(apps, todo - {x}, desired)
            == ToChange(apps, todo, desired) - if apps[x].desired != desired then 1 else 0
  {
    var s := Differing(apps, desired);
    if x in s {
      assert s * (todo - {x}) == s * todo - {x};
    } else {
      assert s * (todo - {x}) == s * todo;
    }
  }

  /** Every listed app but those of `todo` has been set. */
  predicate FleetDone(was: map<Name, AppRow>, now: map<Name, AppRow>, todo: set<Name>, desired: Desired) {
    && now.Keys == was.Keys
    && forall n :: n in was ==> now[n] == if n in todo then was[n] else was[n].(desired := desired)
  }

  lemma FleetDoneAll(was: RegState, now: map<Name, AppRow>, desired: Desired)
    requires FleetDone(was.apps, now, {}, desired)
    ensures now == AllDesired(was, desired).apps
  {
  }

  class Daemon {
    const registry: Registry
    const store: Store
    const supervisor: Supervisor

    /** A second daemon on the same data root gets nothing and changes nothing. */
    static method Open(lock: LockFile, host: Host, registry: Registry, store: Store, key: Option<Builder>)
      returns (d: Option<Daemon>)
      modifies lock, registry`trusted
      ensures lock.held && (d.Some? <==> !old(lock.held))
      ensures d.None? ==> registry.trusted == old(registry.trusted)
      ensures d.Some? ==>
        && d.value.registry == registry && d.value.store == store && d.value.Wired() && d.value.supervisor.host == host
        && registry.trusted == old(registry.trusted) + (if key.Some? then {key.value} else {})
        && fresh(d.value.supervisor) && !d.value.supervisor.shuttingDown
        && forall n: Name :: d.value.supervisor.CellAt(n) == ForgetCell(d.value.supervisor.CellAt(n))
    {
      var ok := lock.TryLock();
      if !ok {
        return None;
      }
      if key.Some? {
        registry.AddTrustedBuilder(key.value);
      }
      var daemon := new Daemon(host, registry, store);
      return Some(daemon);
    }

    constructor (host: Host, registry: Registry, store: Store)
      ensures this.registry == registry && this.store == store && Wired() && supervisor.host == host
      ensures fresh(supervisor) && !supervisor.shuttingDown
      ensures forall n: Name :: supervisor.CellAt(n) == ForgetCell(supervisor.CellAt(n))
    {
      this.registry, this.store := registry, store;
      supervisor := new Supervisor(host, registry);
    }

    ghost predicate Wired() { supervisor.registry == registry }

    ghost function TablesNow(): Tables
      reads registry, store
    {
      Tables(registry.Tables(), store.Files())
    }

    ghost function PassNow(now: nat, luck: Name -> Luck): Pass
      reads supervisor
    {
      Pass(!supervisor.shuttingDown, now, luck)
    }

    // ---------- the pieces of every handler ----------

    method Reconcile(now: nat, luck: Name -> Luck)
      requires Wired()
      modifies supervisor`procs, supervisor.host, registry`events
      ensures forall n: Name ::
        supervisor.CellAt(n) == PassOn(old(TablesNow()), old(PassNow(now, luck)), n, old(supervisor.CellAt(n)))
    {
      supervisor.Reconcile(store, now, luck);
    }

    method Announce(name: Name, kind: OperatorKind, now: nat)
      requires Wired()
      modifies registry`events
      ensures forall n: Name ::
        supervisor.CellAt(n) == if n == name then Logged(old(supervisor.CellAt(n)), kind, now)
          else old(supervisor.CellAt(n))
    {
      supervisor.Log(name, kind, now);
    }

    // ---------- handlers ----------

    method Deploy(env: Env, req: DeployRequest, now: nat, luck: Name -> Luck) returns (resp: Response)
      requires Wired()
      modifies registry, store, supervisor`procs, supervisor.host
      ensures TablesNow() == ServedTables(env, old(TablesNow()), Request.Deploy(req))
      ensures forall n: Name ::
        supervisor.CellAt(n)
        == ServedCell(env, old(TablesNow()), old(PassNow(now, luck)), Request.Deploy(req), n, old(supervisor.CellAt(n)))
      ensures resp == if req.iconOk then Done else BadRequest
    {
      hide Supervisor.CellAt, PassOn, PutInto, SetVerification, RestartCell;
      var rec := StoreAndAssess(env, req);
      if !req.iconOk {
        return BadRequest;
      }
      registry.UpsertApp(req.name, rec.artifact, req.config, req.manifest);
      registry.AppendDeploy(req.name, rec.artifact, now);
      Announce(req.name, DeployEv, now);
      supervisor.RequestRestart(req.name, now);
      Reconcile(now, luck);
      return Done;
    }

    /** Bytes into the store, then the artifact row, then its verdict. */
    method StoreAndAssess(env: Env, req: DeployRequest) returns (rec: Record)
      modifies registry`artifacts, store
      ensures rec == ComputeHashes(env, req.jam, req.bin, req.triple)
      ensures TablesNow() == Tables(Assessed(env, old(registry.Tables()), req),
                                    PutInto(old(store.Files()), rec.artifact, req.jam, req.bin))
    {
      rec := store.Put(env, req.jam, req.bin, req.triple);
      registry.PutArtifact(rec);
      var v := AssessCarried(env.valid, req.carried, rec.artifact, rec.kernel, registry.trusted);
      registry.SetArtifactVerification(rec.artifact, v.0, v.1);
    }

    method Restart(env: Env, name: Name, now: nat, luck: Name -> Luck) returns (resp: Response)
      requires Wired()
      modifies registry, supervisor`procs, supervisor.host
      ensures TablesNow() == ServedTables(env, old(TablesNow()), Request.Restart(name))
      ensures forall n: Name ::
        supervisor.CellAt(n)
        == ServedCell(env, old(TablesNow()), old(PassNow(now, luck)), Request.Restart(name), n,
          old(supervisor.CellAt(n)))
      ensures name in old(registry.apps) ==>
        registry.apps == old(registry.apps)[name := old(registry.apps[name]).(desired := WantRunning)]
      ensures resp == if name in old(registry.apps) then Done else NotFound
    {
      hide Supervisor.CellAt;
      if name !in registry.apps {
        return NotFound;
      }
      registry.SetDesiredStatus(name, WantRunning);
      supervisor.RequestRestart(name, now);
      Announce(name, RestartEv, now);
      Reconcile(now, luck);
      return Done;
    }

    /** `read` is the manifest's configuration if it could be read. */
    method Reload(env: Env, name: Name, read: Option<Config>, now: nat, luck: Name -> Luck) returns (resp: Response)
      requires Wired()
      modifies registry, supervisor`procs, supervisor.host
      ensures TablesNow() == ServedTables(env, old(TablesNow()), Request.Reload(name, read))
      ensures forall n: Name ::
        supervisor.CellAt(n)
        == ServedCell(env, old(TablesNow()), old(PassNow(now, luck)), Request.Reload(name, read), n,
          old(supervisor.CellAt(n)))
      ensures resp == if name !in old(registry.apps) then NotFound
                      else if CanReload(old(registry.Tables()), name, read) then Done
                      else BadRequest
    {
      hide Supervisor.CellAt;
      if name !in registry.apps {
        return NotFound;
      }
      if registry.apps[name].manifest.None? || read.None? {
        return BadRequest;
      }
      var _ := registry.UpdateAppConfig(name, read.value);
      registry.SetDesiredStatus(name, WantRunning);
      supervisor.RequestRestart(name, now);
      Announce(name, ReloadEv, now);
      Reconcile(now, luck);
      return Done;
    }

    method Rollback(env: Env, name: Name, now: nat, luck: Name -> Luck) returns (resp: Response)
      requires Wired()
      modifies registry, supervisor`procs, supervisor.host
      ensures TablesNow() == ServedTables(env, old(TablesNow()), Request.Rollback(name))
      ensures forall n: Name ::
        supervisor.CellAt(n)
        == ServedCell(env, old(TablesNow()), old(PassNow(now, luck)), Request.Rollback(name), n,
          old(supervisor.CellAt(n)))
      ensures resp == if name !in old(registry.apps) then NotFound
                      else if Reconciles(old(registry.Tables()), Request.Rollback(name)) then Done
                      else Conflict
    {
      hide Supervisor.CellAt, PassOn, RestartCell, PreviousArtifact;
      if name !in registry.apps {
        return NotFound;
      }
      var prev := registry.FindPrevious(name, registry.apps[name].artifact);
      if prev.None? {
        return Conflict;
      }
      var _ := registry.SetArtifact(name, prev.value);
      registry.AppendDeploy(name, prev.value, now);
      registry.SetDesiredStatus(name, WantRunning);
      supervisor.RequestRestart(name, now);
      Announce(name, RollbackEv, now);
      Reconcile(now, luck);
      return Done;
    }

    /** `stop` and `start`. */
    method SetOne(env: Env, name: Name, desired: Desired, now: nat, luck: Name -> Luck) returns (resp: Response)
      requires Wired()
      modifies registry, supervisor`procs, supervisor.host
      ensures var r := if desired.WantStopped? then Request.StopApp(name) else Request.StartApp(name);
              && TablesNow() == ServedTables(env, old(TablesNow()), r)
              && forall n: Name ::
                   supervisor.CellAt(n)
                   == ServedCell(env, old(TablesNow()), old(PassNow(now, luck)), r, n, old(supervisor.CellAt(n)))
      ensures name in old(registry.apps) ==>
        registry.apps == old(registry.apps)[name := old(registry.apps[name]).(desired := desired)]
      ensures resp == if name in old(registry.apps) then Done else NotFound
    {
      hide Supervisor.CellAt;
      if name !in registry.apps {
        return NotFound;
      }
      registry.SetDesiredStatus(name, desired);
      Reconcile(now, luck);
      return Done;
    }

    /** `up` and `down`: one update for each app that differs. */
    method FleetSet(env: Env, desired: Desired, now: nat, luck: Name -> Luck) returns (changed: nat, total: nat)
      requires Wired()
      modifies registry, supervisor`procs, supervisor.host
      ensures TablesNow() == ServedTables(env, old(TablesNow()), Request.FleetSet(desired))
      ensures forall n: Name ::
        supervisor.CellAt(n)
        == ServedCell(env, old(TablesNow()), old(PassNow(now, luck)), Request.FleetSet(desired), n,
          old(supervisor.CellAt(n)))
      ensures changed == |Differing(old(registry.apps), desired)| && total == |old(registry.apps)|
    {
      hide Supervisor.CellAt, PassOn, ToChange, FleetDone;
      total := |registry.apps|;
      changed := FleetUpdate(desired);
      FleetDoneAll(old(registry.Tables()), registry.apps, desired);
      Reconcile(now, luck);
    }

    method FleetUpdate(desired: Desired) returns (changed: nat)
      modifies registry`apps
      ensures FleetDone(old(registry.apps), registry.apps, {}, desired)
      ensures changed == |Differing(old(registry.apps), desired)|
    {
      var apps := registry.apps;
      var todo := apps.Keys;
      changed := 0;
      ToChangeAll(apps, desired);
      while todo != {}
        invariant todo <= apps.Keys
        invariant FleetDone(apps, registry.apps, todo, desired)
        invariant changed + ToChange(apps, todo, desired) == |Differing(apps, desired)|
      {
        var name :| name in todo;
        ToChangeStep(apps, todo, name, desired);
        var one := FleetOne(apps, todo, name, desired);
        changed := changed + one;
        todo := todo - {name};
      }
    }

    method FleetOne(ghost apps: map<Name, AppRow>, ghost todo: set<Name>, name: Name, desired: Desired)
      returns (changed: nat)
      requires name in todo && todo <= apps.Keys && FleetDone(apps, registry.apps, todo, desired)
      modifies registry`apps
      ensures FleetDone(apps, registry.apps, todo - {name}, desired)
      ensures changed == if apps[name].desired != desired then 1 else 0
    {
      changed := 0;
      if registry.apps[name].desired != desired {
        registry.SetDesiredStatus(name, desired);
        changed := 1;
      }
    }

    method TrustAdd(env: Env, key: Builder)
      modifies registry`trusted
      ensures TablesNow() == ServedTables(env, old(TablesNow()), Request.TrustAdd(key))
      ensures registry.trusted == old(registry.trusted) + {key}
    {
      registry.AddTrustedBuilder(key);
    }

    method TrustRemove(env: Env, key: Builder)
      modifies registry`trusted
      ensures TablesNow() == ServedTables(env, old(TablesNow()), Request.TrustRemove(key))
      ensures registry.trusted == old(registry.trusted) - {key}
    {
      registry.RemoveTrustedBuilder(key);
    }
  }
}
