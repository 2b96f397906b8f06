/** The whole system as a state machine: operator requests in flight, background ticks,
    processes that exit at will, a daemon that may die and be started again, and the clock. */
module World {
  import opened Prelude
  import opened Lifecycle
  import opened CellInvariant
  import opened Attest
  import opened Control

  /** One assessment a deploy made: the record, what it carried, whom the daemon trusted. */
  datatype Assessment = Assessment(rec: Record, carried: Carried, trusted: set<Builder>)

  datatype World = World(
    phase: Phase,
    now: nat,
    reg: RegState,
    store: StoreState,
    cells: Name -> Cell,
    tasks: seq<Program>,
    assessed: seq<Assessment>)

  datatype Step =
    | Submit(request: Request)
    | Exec(task: nat, luck: Name -> Luck, listing: seq<Name>)
    | Tick(luck: Name -> Luck)
    | Exit(app: Name, pid: nat)
    | Wait(secs: nat)
    | Probe(app: Name, health: Health, line: Option<string>)
    | Die
    | Boot(key: Option<Builder>)
    | Sweep(exits: set<Name>, waited: nat, view: View)
    | BeginShutdown
    | EndShutdown

  predicate Serving(p: Phase) { p.Up? || p.ShuttingDown? }

  predicate Lingering(c: Cell) { EntryOf(c).pid.Some? && Alive(c, EntryOf(c).pid.value) }

  /** The sweep kills nothing before the grace period is over. */
  ghost predicate WaitsForOrphans(w: World, sweep: Step)
    requires sweep.Sweep?
  {
    forall n: Name :: Orphaned(w.cells(n)) && !Overlooks(sweep.view, n) && n !in sweep.exits ==>
      sweep.waited >= GRACE_SECS
  }

  /** A second daemon cannot boot while one holds the lock; the waits before SIGKILL are kept;
      the sweep does not overlook an orphan (`BlindSweep.dfy` is about one that does). */
  ghost predicate Enabled(w: World, step: Step) {
    match step
    case Submit(_) => Serving(w.phase)
    case Exec(task, _, _) => Serving(w.phase) && task < |w.tasks| && w.tasks[task] != []
    case Tick(_) => w.phase.Up?
    case Exit(_, _) => true
    case Wait(_) => true
    case Probe(_, _, _) => Serving(w.phase)
    case Die => !w.phase.Down?
    case Boot(_) => w.phase.Down?
    case Sweep(_, _, view) =>
      w.phase.Starting? && WaitsForOrphans(w, step) && forall n: Name :: Orphaned(w.cells(n)) ==> !Overlooks(view, n)
    case BeginShutdown => w.phase.Up?
    case EndShutdown =>
      w.phase.ShuttingDown? && forall n: Name :: Lingering(w.cells(n)) ==> w.now >= w.phase.since + GRACE_SECS
  }

  /** `reconcile` reads the row and the kernel it would stage; while shutting down it returns
      at once. */
  function ReconcileAction(w: World, luck: Name -> Luck, n: Name): Action {
    if w.phase.Up? then
      Reconciling(Lookup(w.reg.apps, n), luck(n), KernelFor(w.reg.apps, w.store.jams, n))
    else Idle
  }

  function OpAction(w: World, op: Op, luck: Name -> Luck, n: Name): Action {
    match op
    case RequestRestart(name) => if name == n then Restarting else Idle
    case AddEvent(name, kind) => if name == n then Logging(kind) else Idle
    case ReconcileOp => ReconcileAction(w, luck, n)
    case _ => Idle
  }

  function SweepAction(w: World, sweep: Step, n: Name): Action
    requires sweep.Sweep?
  {
    if sweep.view.NoListing? then Overlooked(false)
    else if n !in w.reg.apps then Idle
    else if n in sweep.view.unread then Overlooked(true)
    else Sweeping(n in sweep.exits, sweep.waited)
  }

  /** The step names something that is there to perform. */
  ghost predicate Runnable(w: World, step: Step) {
    step.Exec? ==> step.task < |w.tasks| && w.tasks[step.task] != []
  }

  ghost function ActionOf(w: World, step: Step, n: Name): Action
    requires Runnable(w, step)
  {
    match step
    case Exec(task, luck, _) => OpAction(w, w.tasks[task][0], luck, n)
    case Tick(luck) => ReconcileAction(w, luck, n)
    case Exit(app, pid) => if app == n then Exiting(pid) else Idle
    case Probe(app, health, line) => if app == n then Probing(health, line) else Idle
    case Die => Forgetting
    case Sweep(exits, waited, view) => SweepAction(w, step, n)
    case BeginShutdown => BeginStop
    case EndShutdown => EndStop
    case _ => Idle
  }

  function NextPhase(w: World, step: Step): Phase {
    match step
    case Die => Down
    case Boot(_) => Starting
    case Sweep(_, _, _) => Up
    case BeginShutdown => ShuttingDown(w.now)
    case EndShutdown => Down
    case _ => w.phase
  }

  function NextNow(w: World, step: Step): nat {
    match step
    case Wait(secs) => w.now + secs
    case Sweep(_, waited, _) => w.now + waited
    case _ => w.now
  }

  ghost function NextReg(w: World, step: Step): RegState
    requires Runnable(w, step)
  {
    match step
    case Exec(task, _, _) => ApplyReg(w.reg, w.tasks[task][0])
    case Boot(Some(key)) => w.reg.(trusted := w.reg.trusted + {key})
    case _ => w.reg
  }

  ghost function NextStore(w: World, step: Step): StoreState
    requires Runnable(w, step)
  {
    match step
    case Exec(task, _, _) => ApplyStore(w.store, w.tasks[task][0])
    case _ => w.store
  }

  ghost function NextTasks(env: Env, w: World, step: Step): seq<Program>
    requires Runnable(w, step)
  {
    match step
    case Submit(request) => w.tasks + [ProgramOf(env, request)]
    case Exec(task, _, listing) =>
      w.tasks[task := Continue(env, w.reg, w.store, w.tasks[task][0], w.tasks[task][1..], listing)]
    case Die => []
    case EndShutdown => []
    case _ => w.tasks
  }

  ghost function NextAssessed(w: World, step: Step): seq<Assessment>
    requires Runnable(w, step)
  {
    match step
    case Exec(task, _, _) =>
      (match w.tasks[task][0]
       case AssessOp(rec, carried) => w.assessed + [Assessment(rec, carried, w.reg.trusted)]
       case _ => w.assessed)
    case _ => w.assessed
  }

  ghost function NextCells(w: World, step: Step): Name -> Cell
    requires Runnable(w, step)
  {
    (n: Name) => CellNext(w.cells(n), ActionOf(w, step, n), w.now)
  }

  ghost function Fire(env: Env, w: World, step: Step): World
    requires Runnable(w, step)
  {
    World(NextPhase(w, step), NextNow(w, step), NextReg(w, step), NextStore(w, step),
          NextCells(w, step), NextTasks(env, w, step), NextAssessed(w, step))
  }

  /** A step that is not enabled leaves the world as it is. */
  ghost function Next(env: Env, w: World, step: Step): World {
    if Enabled(w, step) then Fire(env, w, step) else w
  }

  ghost function Run(env: Env, w: World, steps: seq<Step>): World {
    if steps == [] then w
    else Next(env, Run(env, w, steps[..|steps| - 1]), steps[|steps| - 1])
  }

  /** A fresh data root on any host at any time. */
  ghost predicate Init(w: World) {
    && w.phase.Down?
    && w.reg.apps == map[] && w.reg.artifacts == map[] && w.reg.history == []
    && w.store == StoreState(map[], map[])
    && (forall n: Name :: w.cells(n) == BLANK)
    && w.tasks == [] && w.assessed == []
  }
}
