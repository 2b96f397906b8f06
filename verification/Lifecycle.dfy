/** One application as the daemon sees it: the supervisor's volatile `Managed` entry, the
    operating-system processes ever spawned for it, its pidfile, its staged kernel and its
    event log, with every transition that touches them. A process is identified by its
    spawn index, which is how "pids are not reused" enters the model. */
module Lifecycle {
  import opened Prelude

  type Name = string
  type Hash = string
  newtype byte = x: int | 0 <= x < 256
  type Bytes = seq<byte>

  const MAX_BACKOFF_SECS := 60
  const GRACE_SECS := 10

  // ---------- registry rows, as far as the supervisor reads them ----------

  datatype Desired = WantRunning | WantStopped

  datatype Config = Config(endpoint: Option<string>, policy: string, args: seq<string>, port: Option<nat>)

  datatype AppRow = AppRow(artifact: Hash, config: Config, desired: Desired, manifest: Option<string>)

  /** What a process was started from. */
  datatype Launch = Launch(artifact: Hash, args: seq<string>, port: Option<nat>, endpoint: Option<string>)

  function LaunchOf(row: AppRow): Launch {
    Launch(row.artifact, row.config.args, row.config.port, row.config.endpoint)
  }

  // ---------- supervisor entry ----------

  datatype RunState = Running | Stopping | Stopped | Crashed | Backoff

  datatype Health = Unknown | Healthy | NotServing | Unreachable

  datatype Managed = Managed(
    child: Option<nat>,
    pid: Option<nat>,
    startedAt: int,
    restarts: nat,
    backoffUntil: int,
    state: RunState,
    health: Health,
    statusLine: Option<string>,
    termDeadline: Option<int>,
    restartRequested: bool)

  const DEFAULT_MANAGED := Managed(None, None, 0, 0, 0, Stopped, Unknown, None, None, false)

  // ---------- operating system ----------

  datatype Signal = Term(at: int) | Kill(at: int)

  /** How the daemon accounted for an exit it reaped. */
  datatype Fate = Unreaped | ReapedRestart | ReapedStop | ReapedCrash

  datatype Instance = Instance(launch: Launch, startedAt: int, alive: bool, signals: seq<Signal>, fate: Fate)

  datatype Kind = StartEv | TermEv | StoppedEv | CrashEv | ErrorEv | DeployEv | RestartEv | ReloadEv | RollbackEv

  /** The kinds only a handler records; the supervisor records the others. */
  type OperatorKind = k: Kind | k in {DeployEv, RestartEv, ReloadEv, RollbackEv} witness DeployEv

  datatype Event = Event(kind: Kind, at: int)

  /** `born` and `mark` are the lengths of `instances` and `log` when this daemon started. */
  datatype Cell = Cell(
    managed: Option<Managed>,
    instances: seq<Instance>,
    pidfile: Option<nat>,
    staged: Option<Bytes>,
    log: seq<Event>,
    born: nat,
    mark: nat)

  const BLANK := Cell(None, [], None, None, [], 0, 0)

  /** The environment's part in one attempt to start a process. A failed staging may leave
      anything in the state dir; a failed exec comes after a complete staging. */
  datatype Spawn = SpawnOk | StageFails(left: Option<Bytes>) | ExecFails

  /** The environment's part in one pass over one app. */
  datatype Luck = Luck(waitErr: bool, spawn: Spawn)

  function Pow2(n: nat): (r: nat)
    ensures r >= 1
  {
    if n == 0 then 1 else 2 * Pow2(n - 1)
  }

  function BackoffSecs(restarts: nat): int {
    Min(Pow2(Min(restarts, 6)), MAX_BACKOFF_SECS)
  }

  // ---------- effects on one process ----------

  function WithInstance(c: Cell, pid: nat, p: Instance): Cell
    requires pid < |c.instances|
  {
    c.(instances := c.instances[pid := p])
  }

  /** kill(2): a signal to a pid that never existed is ignored. */
  function Signalled(c: Cell, pid: nat, s: Signal): Cell {
    if pid < |c.instances| then
      WithInstance(c, pid, c.instances[pid].(signals := c.instances[pid].signals + [s]))
    else c
  }

  function Accounted(c: Cell, pid: nat, fate: Fate): Cell {
    if pid < |c.instances| then WithInstance(c, pid, c.instances[pid].(fate := fate)) else c
  }

  predicate Alive(c: Cell, pid: nat) {
    pid < |c.instances| && c.instances[pid].alive
  }

  function Exited(c: Cell, pid: nat): Cell {
    if pid < |c.instances| then WithInstance(c, pid, c.instances[pid].(alive := false)) else c
  }

  function Logged(c: Cell, kind: Kind, now: nat): Cell {
    c.(log := c.log + [Event(kind, now)])
  }

  function Entered(c: Cell, m: Managed): Cell {
    c.(managed := Some(m))
  }

  // ---------- one app's share of `reconcile` ----------

  /** Reap branch: the child was seen to have exited. */
  function ReapExit(c: Cell, m: Managed, pid: nat, now: nat): Cell {
    var m0 := m.(child := None, pid := None);
    var c0 := c.(pidfile := None);
    if m.restartRequested then
      Accounted(Entered(c0, m0.(restartRequested := false, termDeadline := None, backoffUntil := 0, state := Backoff)),
                pid, ReapedRestart)
    else if m.termDeadline.Some? then
      Logged(Accounted(Entered(c0, m0.(termDeadline := None, state := Stopped, health := Unknown, statusLine := None)),
                       pid, ReapedStop), StoppedEv, now)
    else
      Logged(Accounted(Entered(c0, m0.(restarts := m.restarts + 1,
                                       backoffUntil := now + BackoffSecs(m.restarts + 1),
                                       state := Backoff)),
                       pid, ReapedCrash), CrashEv, now)
  }

  /** Still alive: past the deadline, SIGKILL. */
  function Escalate(c: Cell, m: Managed, now: nat): Cell {
    if m.termDeadline.Some? && now >= m.termDeadline.value && m.pid.Some? then
      Signalled(c, m.pid.value, Kill(now))
    else c
  }

  function Reap(c: Cell, now: nat, waitErr: bool): Cell {
    match c.managed
    case None => c
    case Some(m) =>
      if m.child.Some? && !waitErr && !Alive(c, m.child.value) then ReapExit(c, m, m.child.value, now)
      else Escalate(c, m, now)
  }

  /** An entry whose app is no longer registered is killed and forgotten. */
  function DropEntry(c: Cell, now: nat): Cell {
    match c.managed
    case None => c
    case Some(m) =>
      var c0 := if m.pid.Some? then Signalled(c, m.pid.value, Kill(now)) else c;
      c0.(managed := None, pidfile := None)
  }

  function EntryOf(c: Cell): Managed {
    match c.managed
    case None => DEFAULT_MANAGED
    case Some(m) => m
  }

  function DriveStopped(c: Cell, m: Managed, now: nat): Cell {
    if m.child.Some? then
      if m.termDeadline.None? then
        var c0 := if m.pid.Some? then Signalled(c, m.pid.value, Term(now)) else c;
        Logged(Entered(c0, m.(termDeadline := Some(now + GRACE_SECS), state := Stopping)), TermEv, now)
      else Entered(c, m)
    else
      Entered(c, m.(state := Stopped, termDeadline := None, health := Unknown, statusLine := None))
  }

  function Started(c: Cell, m: Managed, row: AppRow, now: nat): Cell {
    var pid := |c.instances|;
    var m' := m.(pid := Some(pid), child := Some(pid), startedAt := now, state := Running,
                 health := Unknown, termDeadline := None, restartRequested := false);
    Logged(Entered(c, m').(instances := c.instances + [Instance(LaunchOf(row), now, true, [], Unreaped)],
                           pidfile := Some(pid)),
           StartEv, now)
  }

  function StartFailed(c: Cell, m: Managed, now: nat): Cell {
    Logged(Entered(c, m.(restarts := m.restarts + 1,
                         backoffUntil := now + BackoffSecs(m.restarts + 1),
                         state := Backoff)), ErrorEv, now)
  }

  /** Copy the artifact's kernel into the state dir; binary-only artifacts have none. */
  function Staged(c: Cell, kernel: Option<Bytes>): Cell {
    if kernel.Some? then c.(staged := kernel) else c
  }

  function TryStart(c: Cell, m: Managed, row: AppRow, now: nat, spawn: Spawn, kernel: Option<Bytes>): Cell {
    match spawn
    case SpawnOk => Started(Staged(c, kernel), m, row, now)
    case ExecFails => StartFailed(Staged(c, kernel), m, now)
    case StageFails(left) => StartFailed(c.(staged := left), m, now)
  }

  predicate MayStart(m: Managed, row: AppRow, now: nat) {
    && m.child.None?
    && !(row.config.policy == "never" && m.restarts > 0)
    && !(now < m.backoffUntil)
  }

  function DriveRunning(c: Cell, m: Managed, row: AppRow, now: nat, spawn: Spawn, kernel: Option<Bytes>): Cell {
    if m.child.Some? then
      Entered(c, m.(state := if m.termDeadline.Some? then Stopping else Running))
    else if row.config.policy == "never" && m.restarts > 0 then
      Entered(c, m.(state := Crashed))
    else if now < m.backoffUntil then
      Entered(c, m.(state := Backoff))
    else
      TryStart(c, m, row, now, spawn, kernel)
  }

  function Drive(c: Cell, row: AppRow, now: nat, spawn: Spawn, kernel: Option<Bytes>): Cell {
    var m := EntryOf(c);
    if row.desired.WantStopped? then DriveStopped(c, m, now)
    else DriveRunning(c, m, row, now, spawn, kernel)
  }

  /** The whole of `reconcile` seen from one app: reap or escalate, then drop or drive. */
  function ReconcileCell(c: Cell, row: Option<AppRow>, now: nat, luck: Luck, kernel: Option<Bytes>): Cell {
    var c1 := Reap(c, now, luck.waitErr);
    match row
    case None => DropEntry(c1, now)
    case Some(r) => Drive(c1, r, now, luck.spawn, kernel)
  }

  // ---------- the other transitions ----------

  function RestartCell(c: Cell, now: nat): Cell {
    match c.managed
    case None => c
    case Some(m) =>
      if m.pid.Some? then
        Signalled(Entered(c, m.(restartRequested := true, termDeadline := Some(now + GRACE_SECS), backoffUntil := 0)),
                  m.pid.value, Term(now))
      else Entered(c, m.(backoffUntil := 0))
  }

  function ProbeCell(c: Cell, health: Health, line: Option<string>): Cell {
    match c.managed
    case None => c
    case Some(m) => Entered(c, m.(health := health, statusLine := line))
  }

  /** `cleanup_orphans` for one app: SIGTERM the process its pidfile names, SIGKILL it after
      the wait if it is still there, and clear the pidfile. */
  function SweepCell(c: Cell, now: nat, exits: bool, waited: nat): Cell {
    var c1 :=
      if c.pidfile.Some? && Alive(c, c.pidfile.value) then
        var pid := c.pidfile.value;
        var c0 := Signalled(c, pid, Term(now));
        Exited(if exits then c0 else Signalled(c0, pid, Kill(now + waited)), pid)
      else c;
    c1.(pidfile := None)
  }

  /** What the orphan sweep gets to see: the apps, with the pidfiles it could not read, or, when
      the registry cannot be listed, nothing. */
  datatype View = Listing(unread: set<Name>) | NoListing

  predicate Overlooks(view: View, n: Name) { view.NoListing? || n in view.unread }

  /** An app the sweep could not see to: a pidfile it could not read is removed all the same, and
      nothing at all happens when the apps could not be listed. */
  function OverlookCell(c: Cell, unlinked: bool): Cell {
    if unlinked then c.(pidfile := None) else c
  }

  /** First half of `stop_all`: take the handle, send SIGTERM. */
  function BeginStopCell(c: Cell, now: nat): Cell {
    match c.managed
    case None => c
    case Some(m) =>
      if m.pid.Some? && m.child.Some? then Signalled(Entered(c, m.(child := None)), m.pid.value, Term(now))
      else c
  }

  /** Second half: a taken child that outlived the grace period is killed; the pidfile goes. */
  function EndStopCell(c: Cell, now: nat): Cell {
    match c.managed
    case None => c
    case Some(m) =>
      var c1 :=
        if m.pid.Some? && Alive(c, m.pid.value) then Exited(Signalled(c, m.pid.value, Kill(now)), m.pid.value)
        else c;
      c1.(pidfile := None)
  }

  /** The daemon process is gone, and with it everything volatile. */
  function ForgetCell(c: Cell): Cell {
    c.(managed := None, born := |c.instances|, mark := |c.log|)
  }

  datatype Action =
    | Idle
    | Reconciling(row: Option<AppRow>, luck: Luck, kernel: Option<Bytes>)
    | Restarting
    | Logging(kind: OperatorKind)
    | Exiting(pid: nat)
    | Probing(health: Health, line: Option<string>)
    | Sweeping(exits: bool, waited: nat)
    | Overlooked(unlinked: bool)
    | BeginStop
    | EndStop
    | Forgetting

  function CellNext(c: Cell, a: Action, now: nat): Cell {
    match a
    case Idle => c
    case Reconciling(row, luck, kernel) => ReconcileCell(c, row, now, luck, kernel)
    case Restarting => RestartCell(c, now)
    case Logging(kind) => Logged(c, kind, now)
    case Exiting(pid) => Exited(c, pid)
    case Probing(health, line) => ProbeCell(c, health, line)
    case Sweeping(exits, waited) => SweepCell(c, now, exits, waited)
    case Overlooked(unlinked) => OverlookCell(c, unlinked)
    case BeginStop => BeginStopCell(c, now)
    case EndStop => ForgetCell(EndStopCell(c, now))
    case Forgetting => ForgetCell(c)
  }
}
