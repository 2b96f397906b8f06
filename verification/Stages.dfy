/** Handlers stopped half way: runs that perform some operations of one handler, then of
    another. */
module Stages {
  import opened Prelude
  import opened Lifecycle
  import opened CellInvariant
  import opened Attest
  import opened Control
  import opened ContentStore
  import opened World
  import opened Atomic
  import opened Served
  import opened WholeHandlers

  /** Tables and remaining operations after the next `k` operations. */
  function AfterOps(env: Env, t: Tables, prog: Program, listing: seq<Name>, k: nat): (Tables, Program)
    decreases k
  {
    if k == 0 || prog == [] then (t, prog)
    else
      AfterOps(env, Tables(ApplyReg(t.reg, prog[0]), ApplyStore(t.store, prog[0])),
               Continue(env, t.reg, t.store, prog[0], prog[1..], listing), listing, k - 1)
  }

  lemma {:induction false} RunAppend(env: Env, w: World, a: seq<Step>, b: seq<Step>)
    ensures Run(env, w, a + b) == Run(env, Run(env, w, a), b)
  {
    if b == [] {
      assert a + b == a;
    } else {
      assert (a + b)[..|a + b| - 1] == a + b[..|b| - 1];
      RunAppend(env, w, a, b[..|b| - 1]);
    }
  }

  lemma OneStep(env: Env, w: World, step: Step)
    ensures Run(env, w, [step]) == Next(env, w, step)
  {
    assert [step][..0] == [];
  }

  /** A deploy, served whole. */
  lemma DeployWhole(env: Env, w: World, r: DeployRequest, luck: Name -> Luck) returns (steps: seq<Step>, w': World)
    requires w.phase.Up?
    ensures w' == Run(env, w, steps) && steps != [] && steps[0] == Submit(Deploy(r))
    ensures SameTime(w, w') && w'.tasks == w.tasks + [[]]
    ensures TablesOf(w') == ServedTables(env, TablesOf(w), Deploy(r))
    ensures w'.cells(r.name) == ServedCell(env, TablesOf(w), PassOf(w, luck), Deploy(r), r.name, w.cells(r.name))
  {
    steps := [Submit(Deploy(r))] + Execs(|w.tasks|, luck, [], Rounds(env, TablesOf(w), ProgramOf(env, Deploy(r)), []));
    w' := Run(env, w, steps);
    ServedWholeIsARun(env, w, Deploy(r), luck, [], r.name);
    ServedClosed(env, TablesOf(w), Deploy(r), []);
    ServedCellClosed(env, TablesOf(w), PassOf(w, luck), Deploy(r), [], r.name, w.cells(r.name));
  }

  /** A world with the same phase and clock, these tables, and `prog` left of one task. */
  ghost predicate Became(w: World, w': World, task: nat, t: Tables, prog: Program)
    requires task < |w.tasks|
  {
    SameTime(w, w') && TablesOf(w') == t && w'.tasks == w.tasks[task := prog]
  }

  lemma {:induction false} ExecsAdvance(env: Env, w: World, task: nat, luck: Name -> Luck, listing: seq<Name>, k: nat)
    requires Serving(w.phase) && task < |w.tasks|
    ensures var after := AfterOps(env, TablesOf(w), w.tasks[task], listing, k);
            Became(w, Run(env, w, Execs(task, luck, listing, k)), task, after.0, after.1)
    decreases k
  {
    hide Continue;
    var prog := w.tasks[task];
    if k == 0 {
      assert w.tasks[task := prog] == w.tasks;
    } else {
      var step := Exec(task, luck, listing);
      assert Execs(task, luck, listing, k) == [step] + Execs(task, luck, listing, k - 1);
      RunPrepend(env, w, step, Execs(task, luck, listing, k - 1));
      if prog != [] { ExecStep(env, w, task, luck, listing, ""); }
      ExecsAdvance(env, Next(env, w, step), task, luck, listing, k - 1);
    }
  }

  lemma ExecsFinish(env: Env, w: World, task: nat, luck: Name -> Luck, listing: seq<Name>) returns (k: nat)
    requires Serving(w.phase) && task < |w.tasks|
    ensures Became(w, Run(env, w, Execs(task, luck, listing, k)), task,
            Finish(env, TablesOf(w), w.tasks[task], listing), [])
  {
    k := Rounds(env, TablesOf(w), w.tasks[task], listing);
    FinishIsRun(env, w, task, luck, listing, "");
  }

  lemma AfterOne(env: Env, t: Tables, op: Op, rest: Program, listing: seq<Name>, k: nat)
    ensures AfterOps(env, t, [op] + rest, listing, k + 1)
            == AfterOps(env, Tables(ApplyReg(t.reg, op), ApplyStore(t.store, op)),
                        Continue(env, t.reg, t.store, op, rest, listing), listing, k)
  {
    assert ([op] + rest)[1..] == rest;
  }

  /** How many operations it takes to put the files. */
  function FileOps(s: StoreState, h: Hash, jam: Option<Bytes>): nat {
    if Has(s, h) then 1 else if jam.Some? then 3 else 2
  }

  lemma AfterFiles(env: Env, t: Tables, rec: Record, jam: Option<Bytes>, bin: Bytes, rest: Program, listing: seq<Name>,
                   k: nat)
    ensures AfterOps(env, t, [PutFiles(rec, jam, bin)] + rest, listing, k + FileOps(t.store, rec.artifact, jam))
            == AfterOps(env, Tables(t.reg, PutInto(t.store, rec.artifact, jam, bin)), rest, listing, k)
  {
    hide AfterOps;
    AfterOne(env, t, PutFiles(rec, jam, bin), rest, listing, k + FileOps(t.store, rec.artifact, jam) - 1);
    if Has(t.store, rec.artifact) {
      assert [] + rest == rest;
    } else {
      var t1 := if jam.Some? then Tables(t.reg, ApplyStore(t.store, WriteJam(rec.artifact, jam.value))) else t;
      if jam.Some? {
        AfterOne(env, t, WriteJam(rec.artifact, jam.value), [WriteBin(rec.artifact, bin)] + rest, listing, k + 1);
        assert [WriteJam(rec.artifact, jam.value)] + [WriteBin(rec.artifact, bin)] + rest
            == [WriteJam(rec.artifact, jam.value)] + ([WriteBin(rec.artifact, bin)] + rest);
      } else {
        assert [] + [WriteBin(rec.artifact, bin)] + rest == [WriteBin(rec.artifact, bin)] + rest;
      }
      AfterOne(env, t1, WriteBin(rec.artifact, bin), rest, listing, k);
    }
  }

  // ---------- a deploy, stopped before its verdict and before its history entry ----------

  function RecordOf(env: Env, r: DeployRequest): Record { ComputeHashes(env, r.jam, r.bin, r.triple) }

  function VerdictOf(env: Env, reg: RegState, r: DeployRequest): (Verdict, Option<Builder>) {
    AssessCarried(env.valid, r.carried, RecordOf(env, r).artifact, RecordOf(env, r).kernel, reg.trusted)
  }

  function PutTables(env: Env, t: Tables, r: DeployRequest): Tables {
    var rec := RecordOf(env, r);
    Tables(PutArtifactRow(t.reg, rec.artifact, rec.kernel), PutInto(t.store, rec.artifact, r.jam, r.bin))
  }

  /** What is left when the row has been put and the verdict reached but not recorded. */
  function VerdictRest(env: Env, reg: RegState, r: DeployRequest): Program {
    var v := VerdictOf(env, reg, r);
    [SetVerdict(RecordOf(env, r).artifact, v.0, v.1)] + DeployProgram(env, r)[3..]
  }

  lemma DeployToVerdict(env: Env, t: Tables, r: DeployRequest, listing: seq<Name>, k: nat)
    ensures AfterOps(env, t, DeployProgram(env, r), listing, k + 2 + FileOps(t.store, RecordOf(env, r).artifact, r.jam))
            == AfterOps(env, PutTables(env, t, r), VerdictRest(env, t.reg, r), listing, k)
  {
    hide AfterOps;
    var p, rec := DeployProgram(env, r), RecordOf(env, r);
    assert p == [p[0]] + p[1..] && p[1..] == [PutRow(rec)] + ([AssessOp(rec, r.carried)] + p[3..]);
    AfterFiles(env, t, rec, r.jam, r.bin, p[1..], listing, k + 2);
    var t1 := Tables(t.reg, PutInto(t.store, rec.artifact, r.jam, r.bin));
    AfterOne(env, t1, PutRow(rec), [AssessOp(rec, r.carried)] + p[3..], listing, k + 1);
    AfterOne(env, PutTables(env, t, r), AssessOp(rec, r.carried), p[3..], listing, k);
  }

  /** The registry when the app row has been written but not the history. */
  function WrittenReg(env: Env, reg: RegState, r: DeployRequest): RegState {
    Upsert(Assessed(env, reg, r), r.name, RecordOf(env, r).artifact, r.config, r.manifest)
  }

  lemma DeployToRecord(env: Env, t: Tables, r: DeployRequest, listing: seq<Name>)
    requires r.iconOk
    ensures AfterOps(env, t, DeployProgram(env, r), listing, 5 + FileOps(t.store, RecordOf(env, r).artifact, r.jam))
            == (Tables(WrittenReg(env, t.reg, r), PutTables(env, t, r).store), DeployProgram(env, r)[5..])
  {
    DeployToVerdict(env, t, r, listing, 3);
    VerdictToRecord(env, PutTables(env, t, r), t.reg, r, listing);
  }

  lemma VerdictToRecord(env: Env, t: Tables, reg: RegState, r: DeployRequest, listing: seq<Name>)
    requires r.iconOk
    ensures var v := VerdictOf(env, reg, r);
            var h := RecordOf(env, r).artifact;
            AfterOps(env, t, VerdictRest(env, reg, r), listing, 3)
            == (Tables(Upsert(SetVerification(t.reg, h, v.0, v.1), r.name, h, r.config, r.manifest), t.store),
                DeployProgram(env, r)[5..])
  {
    var p, h, v := DeployProgram(env, r), RecordOf(env, r).artifact, VerdictOf(env, reg, r);
    var t1 := Tables(SetVerification(t.reg, h, v.0, v.1), t.store);
    AfterOne(env, t, SetVerdict(h, v.0, v.1), p[3..], listing, 2);
    assert p[3..] == [CheckIcon(r.iconOk)] + p[4..] && p[4..] == [p[4]] + p[5..];
    AfterOne(env, t1, CheckIcon(r.iconOk), p[4..], listing, 1);
    AfterOne(env, t1, p[4], p[5..], listing, 0);
  }

  /** From the history entry on nothing but that entry changes in the tables. */
  lemma RecordTail(env: Env, t: Tables, r: DeployRequest, listing: seq<Name>)
    ensures Finish(env, t, DeployProgram(env, r)[5..], listing)
            == Tables(RecordDeploy(t.reg, r.name, RecordOf(env, r).artifact), t.store)
  {
    var p := DeployProgram(env, r);
    assert p[5..] == [p[5]] + p[6..];
    Step1(env, t, p[5], p[6..], listing);
    InertFinish(env, Tables(ApplyReg(t.reg, p[5]), t.store), p[6..], listing);
  }

  /** From the verdict on nothing but that verdict changes among the artifact rows, and no trust. */
  lemma VerdictTail(env: Env, t: Tables, reg: RegState, r: DeployRequest, listing: seq<Name>)
    ensures var v := VerdictOf(env, reg, r);
            var reg' := Finish(env, t, VerdictRest(env, reg, r), listing).reg;
            && reg'.artifacts == SetVerification(t.reg, RecordOf(env, r).artifact, v.0, v.1).artifacts
            && reg'.trusted == t.reg.trusted
  {
    var p, h, v := DeployProgram(env, r), RecordOf(env, r).artifact, VerdictOf(env, reg, r);
    var t1 := Tables(SetVerification(t.reg, h, v.0, v.1), t.store);
    Step1(env, t, SetVerdict(h, v.0, v.1), p[3..], listing);
    assert p[3..] == [CheckIcon(r.iconOk)] + p[4..];
    Step1(env, t1, CheckIcon(r.iconOk), p[4..], listing);
    if r.iconOk { AfterIcon(env, t1, r, listing); } else { NothingLeft(env, t1, listing); }
  }

  // ---------- two deploys in flight ----------

  /** Boot, sweep, and two requests. */
  function Opening(key: Option<Builder>, a: Request, b: Request): seq<Step> {
    [Boot(key), Sweep({}, 0, Listing({})), Submit(a), Submit(b)]
  }

  lemma BootedWorld(env: Env, w: World, key: Option<Builder>) returns (w': World)
    requires Init(w)
    ensures w' == Run(env, w, [Boot(key), Sweep({}, 0, Listing({}))])
    ensures w'.phase.Up? && w'.now == w.now && w'.store == w.store && w'.tasks == []
    ensures w'.reg == w.reg.(trusted := w.reg.trusted + (if key.Some? then {key.value} else {}))
    ensures forall n: Name :: w'.cells(n) == BLANK
  {
    var w1 := Next(env, w, Boot(key));
    forall n: Name ensures w1.cells(n) == BLANK { assert w.cells(n) == BLANK; }
    w' := Next(env, w1, Sweep({}, 0, Listing({})));
    assert [Boot(key), Sweep({}, 0, Listing({}))] == [Boot(key)] + [Sweep({}, 0, Listing({}))];
    RunPrepend(env, w, Boot(key), [Sweep({}, 0, Listing({}))]);
    assert [Sweep({}, 0, Listing({}))][..0] == [];
  }

  lemma OpenedWorld(env: Env, w: World, key: Option<Builder>, a: Request, b: Request) returns (w': World)
    requires Init(w)
    ensures w' == Run(env, w, Opening(key, a, b))
    ensures w'.phase.Up? && w'.store == w.store && w'.tasks == [ProgramOf(env, a), ProgramOf(env, b)]
    ensures w'.reg == w.reg.(trusted := w.reg.trusted + (if key.Some? then {key.value} else {}))
  {
    hide Run, ProgramOf;
    var boot := [Boot(key), Sweep({}, 0, Listing({}))];
    var w1 := BootedWorld(env, w, key);
    w' := TwoRequests(env, w1, a, b);
    assert Opening(key, a, b) == boot + ([Submit(a)] + [Submit(b)]);
    RunAppend(env, w, boot, [Submit(a)] + [Submit(b)]);
  }

  lemma TwoRequests(env: Env, w: World, a: Request, b: Request) returns (w': World)
    requires w.phase.Up? && w.tasks == []
    ensures w' == Run(env, w, [Submit(a)] + [Submit(b)])
    ensures w'.phase.Up? && w'.reg == w.reg && w'.store == w.store && w'.tasks == [ProgramOf(env, a), ProgramOf(env, b)]
  {
    hide Run, ProgramOf;
    var w1 := Next(env, w, Submit(a));
    w' := Next(env, w1, Submit(b));
    RunPrepend(env, w, Submit(a), [Submit(b)]);
    OneStep(env, w1, Submit(b));
  }

}
