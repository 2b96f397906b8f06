/** The machine under the daemon: processes, pidfiles and state directories. */
module HostMachine {
  import opened Prelude
  import opened Lifecycle

  function WithSignal(ps: seq<Instance>, pid: nat, s: Signal): seq<Instance> {
    if pid < |ps| then ps[pid := ps[pid].(signals := ps[pid].signals + [s])] else ps
  }

  function WithFate(ps: seq<Instance>, pid: nat, fate: Fate): seq<Instance> {
    if pid < |ps| then ps[pid := ps[pid].(fate := fate)] else ps
  }

  function WithExit(ps: seq<Instance>, pid: nat): seq<Instance> {
    if pid < |ps| then ps[pid := ps[pid].(alive := false)] else ps
  }

  /** `instances` keeps every process ever started for an app, in the order of their pids. */
  class Host {
    var instances: map<Name, seq<Instance>>
    var pidfiles: map<Name, nat>
    var staged: map<Name, Bytes>

    constructor ()
      ensures instances == map[] && pidfiles == map[] && staged == map[]
    {
      instances, pidfiles, staged := map[], map[], map[];
    }

    function Processes(n: Name): seq<Instance>
      reads this
    {
      if n in instances then instances[n] else []
    }

    predicate Runs(n: Name, pid: nat)
      reads this
    {
      pid < |Processes(n)| && Processes(n)[pid].alive
    }

    /** kill(2) with SIGTERM or SIGKILL. */
    method Send(name: Name, pid: nat, s: Signal)
      modifies this`instances
      ensures forall n :: Processes(n) == if n == name then WithSignal(old(Processes(n)), pid, s) else old(Processes(n))
    {
      instances := instances[name := WithSignal(Processes(name), pid, s)];
    }

    /** Bookkeeping of the model: how the daemon accounted for an exit. */
    method Account(name: Name, pid: nat, fate: Fate)
      modifies this`instances
      ensures forall n :: Processes(n) == if n == name then WithFate(old(Processes(n)), pid, fate)
              else old(Processes(n))
    {
      instances := instances[name := WithFate(Processes(name), pid, fate)];
    }

    method Exit(name: Name, pid: nat)
      modifies this`instances
      ensures forall n :: Processes(n) == if n == name then WithExit(old(Processes(n)), pid) else old(Processes(n))
    {
      instances := instances[name := WithExit(Processes(name), pid)];
    }

    method Exec(name: Name, launch: Launch, now: nat) returns (pid: nat)
      modifies this`instances
      ensures pid == |old(Processes(name))|
      ensures forall n ::
        Processes(n) == old(Processes(n)) + if n == name then [Instance(launch, now, true, [], Unreaped)] else []
    {
      pid := |Processes(name)|;
      instances := instances[name := Processes(name) + [Instance(launch, now, true, [], Unreaped)]];
    }

    method WritePidfile(name: Name, pid: nat)
      modifies this`pidfiles
      ensures pidfiles == old(pidfiles)[name := pid]
    {
      pidfiles := pidfiles[name := pid];
    }

    method RemovePidfile(name: Name)
      modifies this`pidfiles
      ensures pidfiles == old(pidfiles) - {name}
    {
      pidfiles := pidfiles - {name};
    }

    method WriteKernel(name: Name, kernel: Option<Bytes>)
      modifies this`staged
      ensures staged == if kernel.Some? then old(staged)[name := kernel.value] else old(staged) - {name}
    {
      if kernel.Some? {
        staged := staged[name := kernel.value];
      } else {
        staged := staged - {name};
      }
    }
  }
}
