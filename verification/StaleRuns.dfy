/** One handler is enough to leave a live process older than its row for a while. */
module StaleRuns {
  import opened Prelude
  import opened Lifecycle
  import opened CellInvariant
  import opened Attest
  import opened Control
  import opened ContentStore
  import opened World
  import opened Atomic
  import opened Served
  import opened WholeHandlers
  import opened Stages

  // ---------- operations that touch no process ----------

  predicate TouchesCells(op: Op) { op.RequestRestart? || op.AddEvent? || op.ReconcileOp? }

  /** None of the next `k` operations touches a process, an entry or a log. */
  predicate SilentFor(env: Env, t: Tables, prog: Program, listing: seq<Name>, k: nat)
    decreases k
  {
    k > 0 && prog != [] ==>
      && !TouchesCells(prog[0])
      && SilentFor(env, Tables(ApplyReg(t.reg, prog[0]), ApplyStore(t.store, prog[0])),
                   Continue(env, t.reg, t.store, prog[0], prog[1..], listing), listing, k - 1)
  }

  lemma {:induction false} ExecsSilent(env: Env, w: World, task: nat, luck: Name -> Luck, listing: seq<Name>, k: nat,
                                       n: Name)
    requires Serving(w.phase) && task < |w.tasks|
    requires SilentFor(env, TablesOf(w), w.tasks[task], listing, k)
    ensures Run(env, w, Execs(task, luck, listing, k)).cells(n) == w.cells(n)
    decreases k
  {
    hide Continue;
    if k > 0 {
      var step := Exec(task, luck, listing);
      assert Execs(task, luck, listing, k) == [step] + Execs(task, luck, listing, k - 1);
      RunPrepend(env, w, step, Execs(task, luck, listing, k - 1));
      if w.tasks[task] != [] { ExecStep(env, w, task, luck, listing, n); }
      ExecsSilent(env, Next(env, w, step), task, luck, listing, k - 1, n);
    }
  }

  lemma OneSilent(env: Env, t: Tables, op: Op, rest: Program, listing: seq<Name>, k: nat)
    requires !TouchesCells(op)
    requires SilentFor(env, Tables(ApplyReg(t.reg, op), ApplyStore(t.store, op)),
                       Continue(env, t.reg, t.store, op, rest, listing), listing, k)
    ensures SilentFor(env, t, [op] + rest, listing, k + 1)
  {
    assert ([op] + rest)[1..] == rest;
  }

  lemma FilesSilent(env: Env, t: Tables, rec: Record, jam: Option<Bytes>, bin: Bytes, rest: Program, listing: seq<Name>,
                    k: nat)
    requires SilentFor(env, Tables(t.reg, PutInto(t.store, rec.artifact, jam, bin)), rest, listing, k)
    ensures SilentFor(env, t, [PutFiles(rec, jam, bin)] + rest, listing, k + FileOps(t.store, rec.artifact, jam))
  {
    hide SilentFor;
    if Has(t.store, rec.artifact) {
      assert [] + rest == rest;
    } else {
      var t1 := if jam.Some? then Tables(t.reg, ApplyStore(t.store, WriteJam(rec.artifact, jam.value))) else t;
      OneSilent(env, t1, WriteBin(rec.artifact, bin), rest, listing, k);
      if jam.Some? {
        OneSilent(env, t, WriteJam(rec.artifact, jam.value), [WriteBin(rec.artifact, bin)] + rest, listing, k + 1);
        assert [WriteJam(rec.artifact, jam.value)] + [WriteBin(rec.artifact, bin)] + rest
            == [WriteJam(rec.artifact, jam.value)] + ([WriteBin(rec.artifact, bin)] + rest);
      } else {
        assert [] + [WriteBin(rec.artifact, bin)] + rest == [WriteBin(rec.artifact, bin)] + rest;
      }
    }
    OneSilent(env, t, PutFiles(rec, jam, bin), rest, listing, k + FileOps(t.store, rec.artifact, jam) - 1);
  }

  /** Up to its history entry a deploy touches none. */
  lemma DeploySilent(env: Env, t: Tables, r: DeployRequest, listing: seq<Name>)
    requires r.iconOk
    ensures SilentFor(env, t, DeployProgram(env, r), listing, 5 + FileOps(t.store, RecordOf(env, r).artifact, r.jam))
  {
    hide SilentFor;
    var p, rec := DeployProgram(env, r), RecordOf(env, r);
    var t1 := Tables(t.reg, PutInto(t.store, rec.artifact, r.jam, r.bin));
    var t2 := PutTables(env, t, r);
    VerdictSilent(env, t2, t.reg, r, listing);
    assert p == [p[0]] + p[1..] && p[1..] == [PutRow(rec)] + ([AssessOp(rec, r.carried)] + p[3..]);
    OneSilent(env, t2, AssessOp(rec, r.carried), p[3..], listing, 3);
    OneSilent(env, t1, PutRow(rec), [AssessOp(rec, r.carried)] + p[3..], listing, 4);
    FilesSilent(env, t, rec, r.jam, r.bin, p[1..], listing, 5);
  }

  lemma VerdictSilent(env: Env, t: Tables, reg: RegState, r: DeployRequest, listing: seq<Name>)
    requires r.iconOk
    ensures SilentFor(env, t, VerdictRest(env, reg, r), listing, 3)
  {
    var p, h, v := DeployProgram(env, r), RecordOf(env, r).artifact, VerdictOf(env, reg, r);
    var t1 := Tables(SetVerification(t.reg, h, v.0, v.1), t.store);
    assert p[3..] == [CheckIcon(r.iconOk)] + p[4..] && p[4..] == [p[4]] + p[5..];
    OneSilent(env, t1, p[4], p[5..], listing, 0);
    OneSilent(env, t1, CheckIcon(r.iconOk), p[4..], listing, 1);
    OneSilent(env, t, SetVerdict(h, v.0, v.1), p[3..], listing, 2);
  }

  // ---------- a stale process, with one deploy in flight ----------

  function DeployedLaunch(env: Env, r: DeployRequest): Launch {
    Launch(RecordOf(env, r).artifact, r.config.args, r.config.port, r.config.endpoint)
  }

  /** The daemon is up and holds a live process of `n`, started from `ran` and not told to stop;
      the row says `wanted`; a single handler is in flight. */
  ghost predicate StaleProcess(w: World, n: Name, ran: Launch, wanted: Launch) {
    && w.phase.Up? && |w.tasks| == 2 && w.tasks[0] == []
    && EntryOf(w.cells(n)).child.Some? && EntryOf(w.cells(n)).termDeadline.None?
    && Alive(w.cells(n), EntryOf(w.cells(n)).child.value)
    && w.cells(n).instances[EntryOf(w.cells(n)).child.value].launch == ran
    && n in w.reg.apps && LaunchOf(w.reg.apps[n]) == wanted
  }

  /** From a fresh data root: deploy, and while the process runs deploy something else, up to its
      history entry. */
  lemma OneDeployLeavesStale(env: Env, w: World, r1: DeployRequest, r2: DeployRequest)
    requires Init(w) && r1.name == r2.name && r1.iconOk && r2.iconOk
    requires DeployedLaunch(env, r1) != DeployedLaunch(env, r2)
    ensures exists steps: seq<Step> ::
              StaleProcess(Run(env, w, steps), r1.name, DeployedLaunch(env, r1), DeployedLaunch(env, r2))
  {
    hide Run, StaleProcess, PutTables;
    var boot := [Boot(None), Sweep({}, 0, Listing({}))];
    var w1 := BootedWorld(env, w, None);
    var more := DeployTwice(env, w1, r1, r2);
    RunAppend(env, w, boot, more);
    assert StaleProcess(Run(env, w, boot + more), r1.name, DeployedLaunch(env, r1), DeployedLaunch(env, r2));
  }

  lemma DeployTwice(env: Env, w: World, r1: DeployRequest, r2: DeployRequest) returns (steps: seq<Step>)
    requires w.phase.Up? && w.cells(r1.name) == BLANK && w.tasks == []
    requires r1.name == r2.name && r1.iconOk && r2.iconOk
    ensures StaleProcess(Run(env, w, steps), r1.name, DeployedLaunch(env, r1), DeployedLaunch(env, r2))
  {
    hide Run, ServedCell, ServedTables, PutTables, Alive;
    var n, luck := r1.name, (x: Name) => Luck(false, SpawnOk);
    var e1, w1 := DeployWhole(env, w, r1, luck);
    FirstProcess(env, TablesOf(w), PassOf(w, luck), r1);
    var w2 := Next(env, w1, Submit(Deploy(r2)));
    OneStep(env, w1, Submit(Deploy(r2)));
    var e2 := HalfDeploy(env, w2, r2, luck);
    RunAppend(env, w, e1, [Submit(Deploy(r2))]);
    RunAppend(env, w, e1 + [Submit(Deploy(r2))], e2);
    steps := e1 + [Submit(Deploy(r2))] + e2;
  }

  lemma HalfDeploy(env: Env, w: World, r: DeployRequest, luck: Name -> Luck) returns (ops: seq<Step>)
    requires w.phase.Up? && |w.tasks| == 2 && w.tasks[0] == [] && w.tasks[1] == DeployProgram(env, r) && r.iconOk
    ensures var w' := Run(env, w, ops);
            && w'.phase.Up? && |w'.tasks| == 2 && w'.tasks[0] == []
            && w'.cells(r.name) == w.cells(r.name)
            && r.name in w'.reg.apps && LaunchOf(w'.reg.apps[r.name]) == DeployedLaunch(env, r)
  {
    hide Run, PutTables;
    var k := 5 + FileOps(w.store, RecordOf(env, r).artifact, r.jam);
    ops := Execs(1, luck, [], k);
    ExecsAdvance(env, w, 1, luck, [], k);
    DeployToRecord(env, TablesOf(w), r, []);
    DeploySilent(env, TablesOf(w), r, []);
    ExecsSilent(env, w, 1, luck, [], k, r.name);
  }

  lemma FirstProcess(env: Env, t: Tables, p: Pass, r: DeployRequest)
    requires p.up && r.iconOk && p.luck(r.name) == Luck(false, SpawnOk)
    ensures var c' := ServedCell(env, t, p, Deploy(r), r.name, BLANK);
            && EntryOf(c').child == Some(0) && EntryOf(c').termDeadline.None?
            && Alive(c', 0) && c'.instances[0].launch == DeployedLaunch(env, r)
  {
  }
}
