/** A handler served whole is one of the runs of the system, so everything proved of all runs
    holds of it. */
module WholeHandlers {
  import opened Prelude
  import opened Lifecycle
  import opened CellInvariant
  import opened Control
  import opened World
  import opened Safety
  import opened Atomic
  import opened Served

  /** How many operations the handler performs. */
  function Rounds(env: Env, t: Tables, prog: Program, listing: seq<Name>): nat
    decreases Cost(prog, |listing|)
  {
    if prog == [] then 0
    else
      ContinueLighter(env, t.reg, t.store, prog[0], prog[1..], listing);
      1 + Rounds(env, Tables(ApplyReg(t.reg, prog[0]), ApplyStore(t.store, prog[0])),
                 Continue(env, t.reg, t.store, prog[0], prog[1..], listing), listing)
  }

  /** The same task, again and again. */
  function Execs(task: nat, luck: Name -> Luck, listing: seq<Name>, n: nat): seq<Step> {
    seq(n, _ => Exec(task, luck, listing))
  }

  lemma {:induction false} RunPrepend(env: Env, w: World, step: Step, rest: seq<Step>)
    ensures Run(env, w, [step] + rest) == Run(env, Next(env, w, step), rest)
  {
    var steps := [step] + rest;
    if rest == [] {
      assert steps[..|steps| - 1] == [];
    } else {
      assert steps[..|steps| - 1] == [step] + rest[..|rest| - 1];
      RunPrepend(env, w, step, rest[..|rest| - 1]);
    }
  }

  ghost function TablesOf(w: World): Tables { Tables(w.reg, w.store) }

  ghost function PassOf(w: World, luck: Name -> Luck): Pass { Pass(w.phase.Up?, w.now, luck) }

  /** What is the same in both worlds. */
  ghost predicate SameTime(w: World, w': World) { w'.phase == w.phase && w'.now == w.now }

  lemma ExecStep(env: Env, w: World, task: nat, luck: Name -> Luck, listing: seq<Name>, n: Name)
    requires Serving(w.phase) && task < |w.tasks| && w.tasks[task] != []
    ensures var w' := Next(env, w, Exec(task, luck, listing));
            var op := w.tasks[task][0];
            && SameTime(w, w')
            && TablesOf(w') == Tables(ApplyReg(w.reg, op), ApplyStore(w.store, op))
            && w'.tasks == w.tasks[task := Continue(env, w.reg, w.store, op, w.tasks[task][1..], listing)]
            && w'.cells(n) == OpOnCell(TablesOf(w), PassOf(w, luck), op, n, w.cells(n))
  {
  }

  lemma {:induction false} FinishIsRun(env: Env, w: World, task: nat, luck: Name -> Luck, listing: seq<Name>, n: Name)
    requires Serving(w.phase) && task < |w.tasks|
    ensures var prog := w.tasks[task];
            var w' := Run(env, w, Execs(task, luck, listing, Rounds(env, TablesOf(w), prog, listing)));
            && SameTime(w, w')
            && TablesOf(w') == Finish(env, TablesOf(w), prog, listing)
            && w'.tasks == w.tasks[task := []]
            && w'.cells(n) == FinishCell(env, TablesOf(w), PassOf(w, luck), prog, listing, n, w.cells(n))
    decreases Cost(w.tasks[task], |listing|)
  {
    var prog := w.tasks[task];
    if prog == [] {
      assert w.tasks[task := []] == w.tasks;
    } else {
      var step := Exec(task, luck, listing);
      var w1 := Next(env, w, step);
      ExecStep(env, w, task, luck, listing, n);
      ContinueLighter(env, w.reg, w.store, prog[0], prog[1..], listing);
      FinishIsRun(env, w1, task, luck, listing, n);
      var rounds := Rounds(env, TablesOf(w1), w1.tasks[task], listing);
      assert Execs(task, luck, listing, rounds + 1) == [step] + Execs(task, luck, listing, rounds);
      RunPrepend(env, w, step, Execs(task, luck, listing, rounds));
    }
  }

  /** Submitting a request and performing its operations back to back gives exactly the tables,
      files and processes of the request served whole. */
  lemma ServedWholeIsARun(env: Env, w: World, r: Request, luck: Name -> Luck, listing: seq<Name>, n: Name)
    requires Serving(w.phase)
    ensures var rounds := Rounds(env, TablesOf(w), ProgramOf(env, r), listing);
            var w' := Run(env, w, [Submit(r)] + Execs(|w.tasks|, luck, listing, rounds));
            && SameTime(w, w')
            && TablesOf(w') == Serve(env, TablesOf(w), r, listing)
            && w'.tasks == w.tasks + [[]]
            && w'.cells(n) == ServeCell(env, TablesOf(w), PassOf(w, luck), r, listing, n, w.cells(n))
  {
    var w1 := Next(env, w, Submit(r));
    var rounds := Rounds(env, TablesOf(w), ProgramOf(env, r), listing);
    RunPrepend(env, w, Submit(r), Execs(|w.tasks|, luck, listing, rounds));
    FinishIsRun(env, w1, |w.tasks|, luck, listing, n);
    assert w1.tasks[|w.tasks| := []] == w.tasks + [[]];
  }

  // ---------- and keeps what every step keeps ----------

  /** What holds of an app between requests while the daemon is up. */
  predicate Sound(reg: RegState, n: Name, c: Cell, now: nat) {
    CellInv(c, Up, now) && (n !in reg.apps ==> Unregistered(c))
  }

  lemma AppsStay(env: Env, t: Tables, r: Request)
    ensures t.reg.apps.Keys <= ServedTables(env, t, r).reg.apps.Keys
  {
  }

  lemma TouchedKeeps(r: Request, n: Name, c: Cell, now: nat)
    requires CellInv(c, Up, now)
    ensures CellInv(Touched(r, n, c, now), Up, now)
  {
    RestartKeeps(c, Up, now);
    match r
    case Deploy(_) => LogKeeps(c, DeployEv, Up, now); RestartKeeps(Logged(c, DeployEv, now), Up, now);
    case Restart(_) => LogKeeps(RestartCell(c, now), RestartEv, Up, now);
    case Reload(_, _) => LogKeeps(RestartCell(c, now), ReloadEv, Up, now);
    case Rollback(_) => LogKeeps(RestartCell(c, now), RollbackEv, Up, now);
    case _ =>
  }

  lemma PassKeeps(t: Tables, p: Pass, n: Name, c: Cell)
    requires Sound(t.reg, n, c, p.now)
    ensures Sound(t.reg, n, PassOn(t, p, n, c), p.now)
  {
    if n in t.reg.apps {
      ReapKeeps(c, p.now, p.luck(n).waitErr);
      DriveKeeps(Reap(c, p.now, p.luck(n).waitErr), t.reg.apps[n], p.now, p.luck(n).spawn,
                 Lookup(t.store.jams, t.reg.apps[n].artifact));
    } else {
      UnregisteredStep(c, Up, p.now, p.luck(n), true, 0);
    }
  }

  /** Only a listed app is touched. */
  lemma TouchedListed(env: Env, t: Tables, r: Request, n: Name, c: Cell, now: nat)
    requires Reconciles(t.reg, r) && n !in ServedTables(env, t, r).reg.apps
    ensures Touched(r, n, c, now) == c
  {
  }

  lemma ServedKeeps(env: Env, t: Tables, p: Pass, r: Request, n: Name, c: Cell)
    requires Sound(t.reg, n, c, p.now)
    ensures Sound(ServedTables(env, t, r).reg, n, ServedCell(env, t, p, r, n, c), p.now)
  {
    AppsStay(env, t, r);
    if Reconciles(t.reg, r) {
      TouchedKeeps(r, n, c, p.now);
      if n !in ServedTables(env, t, r).reg.apps { TouchedListed(env, t, r, n, c, p.now); }
      PassKeeps(ServedTables(env, t, r), p, n, Touched(r, n, c, p.now));
    }
  }
}
