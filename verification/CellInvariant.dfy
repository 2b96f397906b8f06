/** What holds of one app's cell in every phase of the daemon's life, and the proof that every
    transition keeps it. */
module CellInvariant {
  import opened Prelude
  import opened Lifecycle

  /** `Starting` lasts from taking the lock to the end of `cleanup_orphans`; `ShuttingDown`
      from the SIGTERMs of `stop_all` to the exit of the daemon. */
  datatype Phase = Down | Starting | Up | ShuttingDown(since: nat)

  // ---------- counting log entries since the daemon started ----------

  predicate IsStart(e: Event) { e.kind.StartEv? }

  predicate IsCharge(e: Event) { e.kind.CrashEv? || e.kind.ErrorEv? }

  function Starts(log: seq<Event>, mark: nat): nat {
    if |log| <= mark then 0
    else Starts(log[..|log| - 1], mark) + if IsStart(log[|log| - 1]) then 1 else 0
  }

  function Charges(log: seq<Event>, mark: nat): nat {
    if |log| <= mark then 0
    else Charges(log[..|log| - 1], mark) + if IsCharge(log[|log| - 1]) then 1 else 0
  }

  lemma CountsAppend(log: seq<Event>, mark: nat, e: Event)
    requires mark <= |log|
    ensures Starts(log + [e], mark) == Starts(log, mark) + if IsStart(e) then 1 else 0
    ensures Charges(log + [e], mark) == Charges(log, mark) + if IsCharge(e) then 1 else 0
  {
    assert (log + [e])[..|log|] == log;
  }

  // ---------- one process ----------

  /** The first signal a process ever gets is SIGTERM, and every SIGKILL comes at least
      GRACE_SECS after it. */
  predicate SignalsSound(p: Instance, now: nat) {
    p.signals != [] ==>
      && p.signals[0].Term?
      && p.signals[0].at <= now
      && forall k | 0 <= k < |p.signals| && p.signals[k].Kill? :: p.signals[0].at + GRACE_SECS <= p.signals[k].at
  }

  predicate FateSound(p: Instance) {
    && (p.fate.ReapedCrash? <==> p.fate != Unreaped && p.signals == [])
    && (p.fate != Unreaped ==> !p.alive)
  }

  predicate ProcessSound(c: Cell, i: nat, now: nat)
    requires i < |c.instances|
  {
    && SignalsSound(c.instances[i], now)
    && FateSound(c.instances[i])
    && (c.instances[i].alive ==> c.pidfile == Some(i))
  }

  predicate ProcessesSound(c: Cell, now: nat) {
    && (forall i: nat | i < |c.instances| :: ProcessSound(c, i, now))
    && (c.pidfile.Some? ==> c.pidfile.value < |c.instances| && c.instances[c.pidfile.value].fate.Unreaped?)
  }

  // ---------- the supervisor's entry ----------

  predicate Coherent(m: Managed) {
    && m.pid == m.child
    && (m.child.Some? <==> m.state in {Running, Stopping})
    && (m.state.Stopping? || m.restartRequested ==> m.termDeadline.Some?)
    && (m.termDeadline.Some? ==> m.child.Some?)
  }

  /** The held child is the newest process, still owed a reap, named by the pidfile and dated by the entry, and
      its deadline is pending exactly when it has been signalled. */
  predicate HeldSound(c: Cell, m: Managed)
    requires m.child.Some?
  {
    var i := m.child.value;
    && i + 1 == |c.instances|
    && c.born <= i
    && c.pidfile == Some(i)
    && m.startedAt == c.instances[i].startedAt
    && (m.termDeadline.Some? <==> c.instances[i].signals != [])
    && (m.termDeadline.Some? ==> c.instances[i].signals[0].at + GRACE_SECS <= m.termDeadline.value)
  }

  predicate Accounts(c: Cell) {
    && c.born <= |c.instances|
    && c.mark <= |c.log|
    && |c.instances| - c.born == Starts(c.log, c.mark)
    && EntryOf(c).restarts == Charges(c.log, c.mark)
    && forall i | c.born <= i < |c.instances| && c.instances[i].fate.Unreaped? :: EntryOf(c).child == Some(i)
  }

  /** The pidfile names a live process. */
  predicate Orphaned(c: Cell) { c.pidfile.Some? && Alive(c, c.pidfile.value) }

  predicate UpCell(c: Cell, now: nat) {
    && Accounts(c)
    && Coherent(EntryOf(c))
    && EntryOf(c).backoffUntil <= now + MAX_BACKOFF_SECS
    && (EntryOf(c).child.Some? ==> HeldSound(c, EntryOf(c)))
    && (EntryOf(c).child.None? ==> !Orphaned(c))
  }

  /** Handles have been taken; the entry still names the process that was signalled. */
  predicate ClosingCell(c: Cell, since: nat) {
    var m := EntryOf(c);
    && m.child.None?
    && (if m.pid.Some? then c.pidfile == m.pid else !Orphaned(c))
    && (m.pid.Some? ==> m.pid.value < |c.instances| && c.instances[m.pid.value].signals != []
                        && c.instances[m.pid.value].signals[0].at <= since)
  }

  predicate RestingCell(c: Cell) {
    c.managed.None? && c.born == |c.instances| && c.mark == |c.log|
  }

  predicate CellInv(c: Cell, phase: Phase, now: nat) {
    && ProcessesSound(c, now)
    && match phase
       case Down => RestingCell(c)
       case Starting => RestingCell(c)
       case Up => UpCell(c, now)
       case ShuttingDown(since) => since <= now && ClosingCell(c, since)
  }

  // ---------- which transition may happen when ----------

  predicate Permitted(c: Cell, a: Action, phase: Phase, now: nat, phase': Phase, now': nat) {
    match a
    case Idle => phase' == phase && now <= now'
    case Reconciling(row, _, _) => phase.Up? && phase' == phase && now' == now && row.Some?
    case Restarting => (phase.Up? || phase.ShuttingDown?) && phase' == phase && now' == now
    case Logging(_) => (phase.Up? || phase.ShuttingDown?) && phase' == phase && now' == now
    case Exiting(_) => phase' == phase && now' == now
    case Probing(_, _) => (phase.Up? || phase.ShuttingDown?) && phase' == phase && now' == now
    case Sweeping(exits, waited) =>
      && phase.Starting? && phase'.Up? && now' == now + waited
      && (exits || !Orphaned(c) || waited >= GRACE_SECS)
    case Overlooked(_) => phase.Starting? && phase'.Up? && now <= now' && !Orphaned(c)
    case BeginStop => phase.Up? && phase' == ShuttingDown(now) && now' == now
    case EndStop =>
      && phase.ShuttingDown? && phase'.Down? && now' == now
      && (EntryOf(c).pid.Some? && Alive(c, EntryOf(c).pid.value) ==> now >= phase.since + GRACE_SECS)
    case Forgetting => phase'.Down? && now' == now
  }

  // ---------- every transition keeps the invariant ----------

  lemma BackoffBounds(n: nat)
    ensures 1 <= BackoffSecs(n) <= MAX_BACKOFF_SECS
  {
  }

  lemma SameProcesses(c: Cell, c': Cell, now: nat, now': nat)
    requires ProcessesSound(c, now) && now <= now'
    requires c'.instances == c.instances && c'.pidfile == c.pidfile
    ensures ProcessesSound(c', now')
  {
    forall i: nat | i < |c'.instances| ensures ProcessSound(c', i, now') {
      assert ProcessSound(c, i, now);
    }
  }

  lemma IdleKeeps(c: Cell, phase: Phase, now: nat, now': nat)
    requires CellInv(c, phase, now) && now <= now'
    ensures CellInv(c, phase, now')
  {
    SameProcesses(c, c, now, now');
  }

  lemma SignalKeepsProcesses(c: Cell, pid: nat, s: Signal, now: nat)
    requires ProcessesSound(c, now)
    requires pid < |c.instances| && c.instances[pid].fate.Unreaped?
    requires s.Term? ==> s.at <= now
    requires s.Kill? ==> c.instances[pid].signals != [] && c.instances[pid].signals[0].at + GRACE_SECS <= s.at
    ensures ProcessesSound(Signalled(c, pid, s), now)
  {
    var c' := Signalled(c, pid, s);
    forall i: nat | i < |c'.instances| ensures ProcessSound(c', i, now) {
      assert ProcessSound(c, i, now);
    }
  }

  lemma ExitKeeps(c: Cell, pid: nat, phase: Phase, now: nat)
    requires CellInv(c, phase, now)
    ensures CellInv(Exited(c, pid), phase, now)
  {
    var c' := Exited(c, pid);
    forall i: nat | i < |c'.instances| ensures ProcessSound(c', i, now) {
      assert ProcessSound(c, i, now);
    }
  }

  lemma ReapKeeps(c: Cell, now: nat, waitErr: bool)
    requires CellInv(c, Up, now)
    ensures CellInv(Reap(c, now, waitErr), Up, now)
    ensures Reap(c, now, waitErr).managed.None? <==> c.managed.None?
  {
    if c.managed.Some? {
      var m := c.managed.value;
      if m.child.Some? && !waitErr && !Alive(c, m.child.value) {
        ReapExitKeeps(c, m, m.child.value, now);
      } else if m.termDeadline.Some? && now >= m.termDeadline.value && m.pid.Some? {
        SignalKeepsProcesses(c, m.pid.value, Kill(now), now);
      }
    }
  }

  lemma AccountKeeps(c: Cell, pid: nat, fate: Fate, now: nat)
    requires ProcessesSound(c, now)
    requires pid < |c.instances| && !Alive(c, pid) && c.pidfile == Some(pid)
    requires !fate.Unreaped? && (fate.ReapedCrash? <==> c.instances[pid].signals == [])
    ensures ProcessesSound(Accounted(c.(pidfile := None), pid, fate), now)
  {
    var c' := Accounted(c.(pidfile := None), pid, fate);
    forall i: nat | i < |c'.instances| ensures ProcessSound(c', i, now) {
      assert ProcessSound(c, i, now);
    }
  }

  function ReapFate(m: Managed): Fate {
    if m.restartRequested then ReapedRestart else if m.termDeadline.Some? then ReapedStop else ReapedCrash
  }

  lemma ReapExitKeeps(c: Cell, m: Managed, pid: nat, now: nat)
    requires CellInv(c, Up, now)
    requires c.managed == Some(m) && m.child == Some(pid) && !Alive(c, pid)
    ensures CellInv(ReapExit(c, m, pid, now), Up, now)
  {
    var c' := ReapExit(c, m, pid, now);
    var c0 := Accounted(c.(pidfile := None), pid, ReapFate(m));
    AccountKeeps(c, pid, ReapFate(m), now);
    SameProcesses(c0, c', now, now);
    if ReapFate(m).ReapedCrash? {
      BackoffBounds(m.restarts + 1);
      CountsAppend(c.log, c.mark, Event(CrashEv, now));
      ReapedAccounts(c, c', m, pid);
    } else if ReapFate(m).ReapedStop? {
      CountsAppend(c.log, c.mark, Event(StoppedEv, now));
      ReapedAccounts(c, c', m, pid);
    } else {
      ReapedAccounts(c, c', m, pid);
    }
  }

  lemma ReapedAccounts(c: Cell, c': Cell, m: Managed, pid: nat)
    requires Accounts(c) && c.managed == Some(m) && m.child == Some(pid) && pid < |c.instances|
    requires c'.instances == Accounted(c, pid, ReapFate(m)).instances
    requires c'.born == c.born && c'.mark == c.mark <= |c'.log|
    requires Starts(c'.log, c.mark) == Starts(c.log, c.mark)
    requires EntryOf(c').restarts == Charges(c'.log, c.mark)
    ensures Accounts(c')
  {
  }

  lemma DriveStoppedKeeps(c: Cell, m: Managed, now: nat)
    requires CellInv(c, Up, now) && m == EntryOf(c)
    ensures CellInv(DriveStopped(c, m, now), Up, now)
  {
    var c' := DriveStopped(c, m, now);
    if m.child.Some? && m.termDeadline.None? {
      var c0 := Signalled(c, m.pid.value, Term(now));
      SignalKeepsProcesses(c, m.pid.value, Term(now), now);
      SameProcesses(c0, c', now, now);
      CountsAppend(c.log, c.mark, Event(TermEv, now));
    } else {
      SameProcesses(c, c', now, now);
    }
  }

  lemma StartedKeeps(c: Cell, m: Managed, row: AppRow, now: nat)
    requires CellInv(c, Up, now) && m == EntryOf(c) && m.child.None?
    ensures CellInv(Started(c, m, row, now), Up, now)
  {
    var c' := Started(c, m, row, now);
    CountsAppend(c.log, c.mark, Event(StartEv, now));
    forall i: nat | i < |c'.instances| ensures ProcessSound(c', i, now) {
      if i < |c.instances| {
        assert ProcessSound(c, i, now);
      }
    }
  }

  lemma StartFailedKeeps(c: Cell, m: Managed, now: nat)
    requires CellInv(c, Up, now) && m == EntryOf(c) && m.child.None?
    ensures CellInv(StartFailed(c, m, now), Up, now)
  {
    var c' := StartFailed(c, m, now);
    BackoffBounds(m.restarts + 1);
    CountsAppend(c.log, c.mark, Event(ErrorEv, now));
    SameProcesses(c, c', now, now);
  }

  lemma StagingKeeps(c: Cell, staged: Option<Bytes>, now: nat)
    requires CellInv(c, Up, now)
    ensures CellInv(c.(staged := staged), Up, now)
  {
    var c' := c.(staged := staged);
    SameProcesses(c, c', now, now);
  }

  lemma TryStartKeeps(c: Cell, m: Managed, row: AppRow, now: nat, spawn: Spawn, kernel: Option<Bytes>)
    requires CellInv(c, Up, now) && m == EntryOf(c) && m.child.None?
    ensures CellInv(TryStart(c, m, row, now, spawn, kernel), Up, now)
  {
    if kernel.Some? { StagingKeeps(c, kernel, now); }
    match spawn
    case SpawnOk => StartedKeeps(Staged(c, kernel), m, row, now);
    case ExecFails => StartFailedKeeps(Staged(c, kernel), m, now);
    case StageFails(left) =>
      StagingKeeps(c, left, now);
      StartFailedKeeps(c.(staged := left), m, now);
  }

  lemma HoldKeeps(c: Cell, m: Managed, state: RunState, now: nat)
    requires CellInv(c, Up, now) && m == EntryOf(c)
    requires Coherent(m.(state := state))
    ensures CellInv(Entered(c, m.(state := state)), Up, now)
  {
    SameProcesses(c, Entered(c, m.(state := state)), now, now);
  }

  lemma DriveKeeps(c: Cell, row: AppRow, now: nat, spawn: Spawn, kernel: Option<Bytes>)
    requires CellInv(c, Up, now)
    ensures CellInv(Drive(c, row, now, spawn, kernel), Up, now)
  {
    var m := EntryOf(c);
    if row.desired.WantStopped? {
      DriveStoppedKeeps(c, m, now);
    } else if MayStart(m, row, now) {
      TryStartKeeps(c, m, row, now, spawn, kernel);
    } else if m.child.Some? {
      HoldKeeps(c, m, if m.termDeadline.Some? then Stopping else Running, now);
    } else if row.config.policy == "never" && m.restarts > 0 {
      HoldKeeps(c, m, Crashed, now);
    } else {
      HoldKeeps(c, m, Backoff, now);
    }
  }

  lemma RestartKeeps(c: Cell, phase: Phase, now: nat)
    requires CellInv(c, phase, now) && (phase.Up? || phase.ShuttingDown?)
    ensures CellInv(RestartCell(c, now), phase, now)
  {
    if c.managed.Some? {
      var m := c.managed.value;
      if m.pid.Some? {
        var c0 := Entered(c, m.(restartRequested := true, termDeadline := Some(now + GRACE_SECS), backoffUntil := 0));
        SameProcesses(c, c0, now, now);
        SignalKeepsProcesses(c0, m.pid.value, Term(now), now);
        assert ProcessSound(c, m.pid.value, now);
      } else {
        var c' := RestartCell(c, now);
        SameProcesses(c, c', now, now);
      }
    }
  }

  lemma SweepKeeps(c: Cell, now: nat, exits: bool, waited: nat)
    requires CellInv(c, Starting, now)
    requires exits || !Orphaned(c) || waited >= GRACE_SECS
    ensures CellInv(SweepCell(c, now, exits, waited), Up, now + waited)
  {
    var c' := SweepCell(c, now, exits, waited);
    var later := now + waited;
    forall i: nat | i < |c'.instances| ensures ProcessSound(c', i, later) {
      assert ProcessSound(c, i, now);
      if c.pidfile == Some(i) && Alive(c, i) {
        SweptSignals(c.instances[i], c'.instances[i], now, exits, waited);
      }
    }
  }

  lemma SweptSignals(p: Instance, p': Instance, now: nat, exits: bool, waited: nat)
    requires SignalsSound(p, now)
    requires exits || waited >= GRACE_SECS
    requires p'.signals == p.signals + if exits then [Term(now)] else [Term(now)] + [Kill(now + waited)]
    ensures SignalsSound(p', now + waited)
  {
    assert p'.signals[0] == if p.signals != [] then p.signals[0] else Term(now);
  }

  lemma OverlookKeeps(c: Cell, unlinked: bool, now: nat, now': nat)
    requires CellInv(c, Starting, now) && !Orphaned(c) && now <= now'
    ensures CellInv(OverlookCell(c, unlinked), Up, now')
  {
    var c' := OverlookCell(c, unlinked);
    forall i: nat | i < |c'.instances| ensures ProcessSound(c', i, now') {
      assert ProcessSound(c, i, now);
    }
  }

  lemma BeginStopKeeps(c: Cell, now: nat)
    requires CellInv(c, Up, now)
    ensures CellInv(BeginStopCell(c, now), ShuttingDown(now), now)
  {
    if c.managed.Some? && c.managed.value.pid.Some? && c.managed.value.child.Some? {
      var m := c.managed.value;
      var c0 := Entered(c, m.(child := None));
      SameProcesses(c, c0, now, now);
      SignalKeepsProcesses(c0, m.pid.value, Term(now), now);
      assert ProcessSound(c, m.pid.value, now);
    }
  }

  lemma EndStopKeeps(c: Cell, since: nat, now: nat)
    requires CellInv(c, ShuttingDown(since), now)
    requires EntryOf(c).pid.Some? && Alive(c, EntryOf(c).pid.value) ==> now >= since + GRACE_SECS
    ensures CellInv(ForgetCell(EndStopCell(c, now)), Down, now)
  {
    var c' := ForgetCell(EndStopCell(c, now));
    forall i: nat | i < |c'.instances| ensures ProcessSound(c', i, now) {
      assert ProcessSound(c, i, now);
    }
  }

  lemma CellStep(c: Cell, a: Action, phase: Phase, now: nat, phase': Phase, now': nat)
    requires CellInv(c, phase, now)
    requires Permitted(c, a, phase, now, phase', now')
    ensures CellInv(CellNext(c, a, now), phase', now')
  {
    match a
    case Idle => IdleKeeps(c, phase, now, now');
    case Reconciling(row, luck, kernel) =>
      ReapKeeps(c, now, luck.waitErr);
      DriveKeeps(Reap(c, now, luck.waitErr), row.value, now, luck.spawn, kernel);
    case Restarting => RestartKeeps(c, phase, now);
    case Logging(kind) => LogKeeps(c, kind, phase, now);
    case Exiting(pid) => ExitKeeps(c, pid, phase, now);
    case Probing(health, line) => ProbeKeeps(c, health, line, phase, now);
    case Sweeping(exits, waited) => SweepKeeps(c, now, exits, waited);
    case Overlooked(unlinked) => OverlookKeeps(c, unlinked, now, now');
    case BeginStop => BeginStopKeeps(c, now);
    case EndStop => EndStopKeeps(c, phase.since, now);
    case Forgetting => ForgetKeeps(c, phase, now);
  }

  lemma LogKeeps(c: Cell, kind: OperatorKind, phase: Phase, now: nat)
    requires CellInv(c, phase, now) && (phase.Up? || phase.ShuttingDown?)
    ensures CellInv(Logged(c, kind, now), phase, now)
  {
    var c' := Logged(c, kind, now);
    if phase.Up? { CountsAppend(c.log, c.mark, Event(kind, now)); }
    SameProcesses(c, c', now, now);
  }

  lemma ProbeKeeps(c: Cell, health: Health, line: Option<string>, phase: Phase, now: nat)
    requires CellInv(c, phase, now) && (phase.Up? || phase.ShuttingDown?)
    ensures CellInv(ProbeCell(c, health, line), phase, now)
  {
    var c' := ProbeCell(c, health, line);
    SameProcesses(c, c', now, now);
  }

  lemma ForgetKeeps(c: Cell, phase: Phase, now: nat)
    requires CellInv(c, phase, now)
    ensures CellInv(ForgetCell(c), Down, now)
  {
    var c' := ForgetCell(c);
    SameProcesses(c, c', now, now);
  }
}
