/** What a handler, served whole, does to each app's processes. */
module Served {
  import opened Prelude
  import opened Lifecycle
  import opened Attest
  import opened Control
  import opened Atomic

  /** What every pass made by a handler finds: is the daemon up, what time is it, what does the
      environment do. */
  datatype Pass = Pass(up: bool, now: nat, luck: Name -> Luck)

  /** The pass a handler ends with. */
  function PassOn(t: Tables, p: Pass, n: Name, c: Cell): Cell {
    if p.up then
      ReconcileCell(c, Lookup(t.reg.apps, n), p.now, p.luck(n), KernelFor(t.reg.apps, t.store.jams, n))
    else c
  }

  function OpOnCell(t: Tables, p: Pass, op: Op, n: Name, c: Cell): Cell {
    match op
    case RequestRestart(name) => if name == n then RestartCell(c, p.now) else c
    case AddEvent(name, kind) => if name == n then Logged(c, kind, p.now) else c
    case ReconcileOp => PassOn(t, p, n, c)
    case _ => c
  }

  function FinishCell(env: Env, t: Tables, p: Pass, prog: Program, listing: seq<Name>, n: Name, c: Cell): Cell
    decreases Cost(prog, |listing|)
  {
    if prog == [] then c
    else
      ContinueLighter(env, t.reg, t.store, prog[0], prog[1..], listing);
      FinishCell(env, Tables(ApplyReg(t.reg, prog[0]), ApplyStore(t.store, prog[0])), p,
                 Continue(env, t.reg, t.store, prog[0], prog[1..], listing), listing, n, OpOnCell(t, p, prog[0], n, c))
  }

  function ServeCell(env: Env, t: Tables, p: Pass, r: Request, listing: seq<Name>, n: Name, c: Cell): Cell {
    FinishCell(env, t, p, ProgramOf(env, r), listing, n, c)
  }

  // ---------- closed form ----------

  /** Whether the handler gets as far as its pass. */
  predicate Reconciles(reg: RegState, r: Request) {
    match r
    case Deploy(req) => req.iconOk
    case Restart(name) => name in reg.apps
    case Reload(name, read) => CanReload(reg, name, read)
    case Rollback(name) => name in reg.apps && PreviousArtifact(reg.history, name, reg.apps[name].artifact).Some?
    case StopApp(name) => name in reg.apps
    case StartApp(name) => name in reg.apps
    case FleetSet(_) => true
    case TrustAdd(_) => false
    case TrustRemove(_) => false
  }

  /** What happens to an app before that pass: the one named is logged and asked to restart. */
  function Touched(r: Request, n: Name, c: Cell, now: nat): Cell {
    match r
    case Deploy(req) => if req.name == n then RestartCell(Logged(c, DeployEv, now), now) else c
    case Restart(name) => if name == n then Logged(RestartCell(c, now), RestartEv, now) else c
    case Reload(name, _) => if name == n then Logged(RestartCell(c, now), ReloadEv, now) else c
    case Rollback(name) => if name == n then Logged(RestartCell(c, now), RollbackEv, now) else c
    case _ => c
  }

  function ServedCell(env: Env, t: Tables, p: Pass, r: Request, n: Name, c: Cell): Cell {
    if Reconciles(t.reg, r) then PassOn(ServedTables(env, t, r), p, n, Touched(r, n, c, p.now)) else c
  }

  lemma CellStep1(env: Env, t: Tables, p: Pass, op: Op, rest: Program, listing: seq<Name>, n: Name, c: Cell)
    ensures FinishCell(env, t, p, [op] + rest, listing, n, c)
            == FinishCell(env, Tables(ApplyReg(t.reg, op), ApplyStore(t.store, op)), p,
                          Continue(env, t.reg, t.store, op, rest, listing), listing, n, OpOnCell(t, p, op, n, c))
  {
    assert ([op] + rest)[1..] == rest;
  }

  lemma NothingLeftCell(env: Env, t: Tables, p: Pass, listing: seq<Name>, n: Name, c: Cell)
    ensures FinishCell(env, t, p, [], listing, n, c) == c
  {
  }

  /** Operations on tables and files only, which go straight on. */
  predicate Silent(op: Op) {
    op.WriteJam? || op.WriteBin? || op.PutRow? || op.SetVerdict? || op.UpsertOp? || op.UpdateConfigOp?
    || op.SetArtifactOp? || op.RecordOp? || op.SetDesiredOp?
  }

  /** The tables after a silent prefix. */
  function Apply(t: Tables, ops: Program): Tables
    decreases |ops|
  {
    if ops == [] then t else Apply(Tables(ApplyReg(t.reg, ops[0]), ApplyStore(t.store, ops[0])), ops[1..])
  }

  lemma SilentStep(env: Env, t: Tables, p: Pass, op: Op, rest: Program, listing: seq<Name>, n: Name, c: Cell)
    requires Silent(op)
    ensures FinishCell(env, t, p, [op] + rest, listing, n, c)
            == FinishCell(env, Tables(ApplyReg(t.reg, op), ApplyStore(t.store, op)), p, rest, listing, n, c)
  {
    CellStep1(env, t, p, op, rest, listing, n, c);
  }

  lemma {:induction false} SilentPrefix(env: Env, t: Tables, p: Pass, ops: Program, rest: Program, listing: seq<Name>,
                                        n: Name, c: Cell)
    requires forall k :: 0 <= k < |ops| ==> Silent(ops[k])
    ensures FinishCell(env, t, p, ops + rest, listing, n, c) == FinishCell(env, Apply(t, ops), p, rest, listing, n, c)
    decreases |ops|
  {
    if ops == [] {
      assert ops + rest == rest;
    } else {
      assert ops + rest == [ops[0]] + (ops[1..] + rest);
      SilentStep(env, t, p, ops[0], ops[1..] + rest, listing, n, c);
      SilentPrefix(env, Tables(ApplyReg(t.reg, ops[0]), ApplyStore(t.store, ops[0])), p, ops[1..], rest, listing, n, c);
    }
  }

  /** Log, restart request and pass, in the order of most handlers. */
  lemma RestartTail(env: Env, t: Tables, p: Pass, name: Name, kind: OperatorKind, listing: seq<Name>, n: Name, c: Cell)
    ensures FinishCell(env, t, p, [RequestRestart(name), AddEvent(name, kind), ReconcileOp], listing, n, c)
            == PassOn(t, p, n, if name == n then Logged(RestartCell(c, p.now), kind, p.now) else c)
  {
    hide FinishCell;
    var tail: Program := [AddEvent(name, kind), ReconcileOp];
    assert [RequestRestart(name), AddEvent(name, kind), ReconcileOp] == [RequestRestart(name)] + tail;
    CellStep1(env, t, p, RequestRestart(name), tail, listing, n, c);
    var c1 := OpOnCell(t, p, RequestRestart(name), n, c);
    assert tail == [AddEvent(name, kind)] + [ReconcileOp];
    CellStep1(env, t, p, AddEvent(name, kind), [ReconcileOp], listing, n, c1);
    PassTail(env, t, p, listing, n, OpOnCell(t, p, AddEvent(name, kind), n, c1));
  }

  lemma PassTail(env: Env, t: Tables, p: Pass, listing: seq<Name>, n: Name, c: Cell)
    ensures FinishCell(env, t, p, [ReconcileOp], listing, n, c) == PassOn(t, p, n, c)
  {
    assert [ReconcileOp] == [ReconcileOp] + [];
    CellStep1(env, t, p, ReconcileOp, [], listing, n, c);
  }

  lemma DesireCell(env: Env, t: Tables, p: Pass, name: Name, desired: Desired, rest: Program, listing: seq<Name>,
                   n: Name, c: Cell)
    ensures FinishCell(env, t, p, [RequireApp(name)] + ([SetDesiredOp(name, desired)] + rest), listing, n, c)
            == if name in t.reg.apps then
                 FinishCell(env, Tables(SetDesired(t.reg, name, desired), t.store), p, rest, listing, n, c)
               else c
  {
    CellStep1(env, t, p, RequireApp(name), [SetDesiredOp(name, desired)] + rest, listing, n, c);
    if name in t.reg.apps {
      CellStep1(env, t, p, SetDesiredOp(name, desired), rest, listing, n, c);
    }
  }

  lemma ReloadCell(env: Env, t: Tables, p: Pass, name: Name, read: Option<Config>, listing: seq<Name>, n: Name, c: Cell)
    ensures ServeCell(env, t, p, Reload(name, read), listing, n, c) == ServedCell(env, t, p, Reload(name, read), n, c)
  {
    assert [RequireManifest(name, read)] == [RequireManifest(name, read)] + [];
    CellStep1(env, t, p, RequireManifest(name, read), [], listing, n, c);
    if CanReload(t.reg, name, read) {
      ReloadCellFinish(env, t, p, name, read.value, listing, n, c);
    }
  }

  lemma ReloadCellFinish(env: Env, t: Tables, p: Pass, name: Name, config: Config, listing: seq<Name>, n: Name, c: Cell)
    ensures FinishCell(env, t, p, [UpdateConfigOp(name, config), SetDesiredOp(name, WantRunning), RequestRestart(name),
                                   AddEvent(name, ReloadEv), ReconcileOp], listing, n, c)
            == PassOn(Tables(SetDesired(UpdateConfig(t.reg, name, config), name, WantRunning), t.store), p, n,
                      if name == n then Logged(RestartCell(c, p.now), ReloadEv, p.now) else c)
  {
    hide FinishCell;
    var tail: Program := [RequestRestart(name), AddEvent(name, ReloadEv), ReconcileOp];
    var wanted, change := SetDesiredOp(name, WantRunning), UpdateConfigOp(name, config);
    var t1 := Tables(UpdateConfig(t.reg, name, config), t.store);
    assert [change, wanted, RequestRestart(name), AddEvent(name, ReloadEv), ReconcileOp]
      == [change] + ([wanted] + tail);
    SilentStep(env, t, p, change, [wanted] + tail, listing, n, c);
    SilentStep(env, t1, p, wanted, tail, listing, n, c);
    RestartTail(env, Tables(SetDesired(t1.reg, name, WantRunning), t.store), p, name, ReloadEv, listing, n, c);
  }

  lemma ApplyTwo(t: Tables, a: Op, b: Op)
    ensures Apply(t, [a, b]) == Tables(ApplyReg(ApplyReg(t.reg, a), b), ApplyStore(ApplyStore(t.store, a), b))
  {
    assert [a, b][1..] == [b];
    var t1 := Tables(ApplyReg(t.reg, a), ApplyStore(t.store, a));
    assert Apply(t1, [b]) == Apply(Tables(ApplyReg(t1.reg, b), ApplyStore(t1.store, b)), []);
  }

  lemma RollbackCell(env: Env, t: Tables, p: Pass, name: Name, listing: seq<Name>, n: Name, c: Cell)
    ensures ServeCell(env, t, p, Rollback(name), listing, n, c) == ServedCell(env, t, p, Rollback(name), n, c)
  {
    hide FinishCell, PassOn, RestartCell, PreviousArtifact, RollbackProgram;
    assert [ReadForRollback(name)] == [ReadForRollback(name)] + [];
    CellStep1(env, t, p, ReadForRollback(name), [], listing, n, c);
    NothingLeftCell(env, t, p, listing, n, c);
    if name in t.reg.apps {
      var current := t.reg.apps[name].artifact;
      assert [PickPrevious(name, current)] == [PickPrevious(name, current)] + [];
      CellStep1(env, t, p, PickPrevious(name, current), [], listing, n, c);
      var prev := PreviousArtifact(t.reg.history, name, current);
      if prev.Some? { RollbackCellFinish(env, t, p, name, prev.value, listing, n, c); }
    }
  }

  lemma RollbackCellFinish(env: Env, t: Tables, p: Pass, name: Name, prev: Hash, listing: seq<Name>, n: Name, c: Cell)
    ensures FinishCell(env, t, p, RollbackProgram(name, prev), listing, n, c)
            == PassOn(Tables(SetDesired(RecordDeploy(SetAppArtifact(t.reg, name, prev), name, prev), name, WantRunning),
                             t.store),
                      p, n, if name == n then Logged(RestartCell(c, p.now), RollbackEv, p.now) else c)
  {
    hide FinishCell;
    var ops := [SetArtifactOp(name, prev), RecordOp(name, prev)];
    var tail: Program := [RequestRestart(name), AddEvent(name, RollbackEv), ReconcileOp];
    var rest := [SetDesiredOp(name, WantRunning)] + tail;
    assert RollbackProgram(name, prev) == ops + rest;
    SilentPrefix(env, t, p, ops, rest, listing, n, c);
    ApplyTwo(t, ops[0], ops[1]);
    var t1 := Tables(RecordDeploy(SetAppArtifact(t.reg, name, prev), name, prev), t.store);
    assert Apply(t, ops) == t1;
    RunAgain(env, t1, p, name, tail, listing, n, c);
  }

  lemma RunAgain(env: Env, t: Tables, p: Pass, name: Name, tail: Program, listing: seq<Name>, n: Name, c: Cell)
    requires tail == [RequestRestart(name), AddEvent(name, RollbackEv), ReconcileOp]
    ensures FinishCell(env, t, p, [SetDesiredOp(name, WantRunning)] + tail, listing, n, c)
            == PassOn(Tables(SetDesired(t.reg, name, WantRunning), t.store), p, n,
                      if name == n then Logged(RestartCell(c, p.now), RollbackEv, p.now) else c)
  {
    CellStep1(env, t, p, SetDesiredOp(name, WantRunning), tail, listing, n, c);
    RestartTail(env, Tables(SetDesired(t.reg, name, WantRunning), t.store), p, name, RollbackEv, listing, n, c);
  }

  // ---------- deploy ----------

  lemma FilesCell(env: Env, t: Tables, p: Pass, rec: Record, jam: Option<Bytes>, bin: Bytes, rest: Program,
                  listing: seq<Name>,
                  n: Name, c: Cell)
    ensures FinishCell(env, t, p, [PutFiles(rec, jam, bin)] + rest, listing, n, c)
            == FinishCell(env, Tables(t.reg, ContentStore.PutInto(t.store, rec.artifact, jam, bin)), p, rest, listing,
              n, c)
  {
    CellStep1(env, t, p, PutFiles(rec, jam, bin), rest, listing, n, c);
    if Has(t.store, rec.artifact) {
      assert [] + rest == rest;
    } else if jam.Some? {
      var ops := [WriteJam(rec.artifact, jam.value), WriteBin(rec.artifact, bin)];
      assert [WriteJam(rec.artifact, jam.value)] + [WriteBin(rec.artifact, bin)] + rest == ops + rest;
      SilentPrefix(env, t, p, ops, rest, listing, n, c);
      ApplyTwo(t, ops[0], ops[1]);
    } else {
      assert [] + [WriteBin(rec.artifact, bin)] + rest == [WriteBin(rec.artifact, bin)] + rest;
      CellStep1(env, t, p, WriteBin(rec.artifact, bin), rest, listing, n, c);
    }
  }

  lemma DeployCell(env: Env, t: Tables, p: Pass, r: DeployRequest, listing: seq<Name>, n: Name, c: Cell)
    ensures ServeCell(env, t, p, Deploy(r), listing, n, c) == ServedCell(env, t, p, Deploy(r), n, c)
  {
    hide FinishCell;
    var prog := DeployProgram(env, r);
    var rec := ComputeHashes(env, r.jam, r.bin, r.triple);
    assert prog == [prog[0]] + prog[1..];
    FilesCell(env, t, p, rec, r.jam, r.bin, prog[1..], listing, n, c);
    var t1 := Tables(t.reg, ContentStore.PutInto(t.store, rec.artifact, r.jam, r.bin));
    VerdictCell(env, t1, p, r, listing, n, c);
  }

  /** The registry when a deploy comes to check the icon. */
  function Assessed(env: Env, reg: RegState, r: DeployRequest): RegState {
    var rec := ComputeHashes(env, r.jam, r.bin, r.triple);
    var v := AssessCarried(env.valid, r.carried, rec.artifact, rec.kernel, reg.trusted);
    SetVerification(PutArtifactRow(reg, rec.artifact, rec.kernel), rec.artifact, v.0, v.1)
  }

  lemma VerdictCell(env: Env, t: Tables, p: Pass, r: DeployRequest, listing: seq<Name>, n: Name, c: Cell)
    ensures FinishCell(env, t, p, DeployProgram(env, r)[1..], listing, n, c)
            == if r.iconOk then
                 PassOn(Tables(DeployReg(env, t.reg, r), t.store), p, n,
                        if r.name == n then RestartCell(Logged(c, DeployEv, p.now), p.now) else c)
               else c
  {
    hide FinishCell;
    var prog := DeployProgram(env, r);
    var rec := ComputeHashes(env, r.jam, r.bin, r.triple);
    var v := AssessCarried(env.valid, r.carried, rec.artifact, rec.kernel, t.reg.trusted);
    var t1 := Tables(PutArtifactRow(t.reg, rec.artifact, rec.kernel), t.store);
    assert prog[1..] == [PutRow(rec)] + ([AssessOp(rec, r.carried)] + prog[3..]);
    CellStep1(env, t, p, PutRow(rec), [AssessOp(rec, r.carried)] + prog[3..], listing, n, c);
    CellStep1(env, t1, p, AssessOp(rec, r.carried), prog[3..], listing, n, c);
    CellStep1(env, t1, p, SetVerdict(rec.artifact, v.0, v.1), prog[3..], listing, n, c);
    IconCell(env, Tables(Assessed(env, t.reg, r), t.store), p, r, listing, n, c);
  }

  lemma IconCell(env: Env, t: Tables, p: Pass, r: DeployRequest, listing: seq<Name>, n: Name, c: Cell)
    ensures var h := ComputeHashes(env, r.jam, r.bin, r.triple).artifact;
            FinishCell(env, t, p, DeployProgram(env, r)[3..], listing, n, c)
            == if r.iconOk then
                 PassOn(Tables(RecordDeploy(Upsert(t.reg, r.name, h, r.config, r.manifest), r.name, h), t.store), p, n,
                        if r.name == n then RestartCell(Logged(c, DeployEv, p.now), p.now) else c)
               else c
  {
    hide FinishCell, PassOn, RestartCell;
    var prog := DeployProgram(env, r);
    assert prog[3..] == [CheckIcon(r.iconOk)] + prog[4..];
    CellStep1(env, t, p, CheckIcon(r.iconOk), prog[4..], listing, n, c);
    NothingLeftCell(env, t, p, listing, n, c);
    if r.iconOk {
      var ops := [prog[4], prog[5]];
      assert prog[4..] == ops + prog[6..];
      SilentPrefix(env, t, p, ops, prog[6..], listing, n, c);
      ApplyTwo(t, ops[0], ops[1]);
      DeployTail(env, Apply(t, ops), p, r.name, prog[6..], listing, n, c);
    }
  }

  lemma DeployTail(env: Env, t: Tables, p: Pass, name: Name, tail: Program, listing: seq<Name>, n: Name, c: Cell)
    requires tail == [AddEvent(name, DeployEv), RequestRestart(name), ReconcileOp]
    ensures FinishCell(env, t, p, tail, listing, n, c)
            == PassOn(t, p, n, if name == n then RestartCell(Logged(c, DeployEv, p.now), p.now) else c)
  {
    hide FinishCell;
    var rest: Program := [RequestRestart(name), ReconcileOp];
    assert tail == [AddEvent(name, DeployEv)] + rest;
    CellStep1(env, t, p, AddEvent(name, DeployEv), rest, listing, n, c);
    var c1 := OpOnCell(t, p, AddEvent(name, DeployEv), n, c);
    assert rest == [RequestRestart(name)] + [ReconcileOp];
    CellStep1(env, t, p, RequestRestart(name), [ReconcileOp], listing, n, c1);
    PassTail(env, t, p, listing, n, OpOnCell(t, p, RequestRestart(name), n, c1));
  }

  // ---------- the rest ----------

  lemma {:induction false} ApplyFinish(env: Env, t: Tables, ops: Program, rest: Program, listing: seq<Name>)
    requires forall k :: 0 <= k < |ops| ==> Silent(ops[k])
    ensures Finish(env, t, ops + rest, listing) == Finish(env, Apply(t, ops), rest, listing)
    decreases |ops|
  {
    if ops == [] {
      assert ops + rest == rest;
    } else {
      assert ops + rest == [ops[0]] + (ops[1..] + rest);
      Step1(env, t, ops[0], ops[1..] + rest, listing);
      ApplyFinish(env, Tables(ApplyReg(t.reg, ops[0]), ApplyStore(t.store, ops[0])), ops[1..], rest, listing);
    }
  }

  lemma FleetCell(env: Env, t: Tables, p: Pass, desired: Desired, listing: seq<Name>, n: Name, c: Cell)
    requires forall x :: x in t.reg.apps ==> x in listing
    ensures ServeCell(env, t, p, FleetSet(desired), listing, n, c) == ServedCell(env, t, p, FleetSet(desired), n, c)
  {
    hide FinishCell;
    var ops := FleetUpdates(t.reg.apps, listing, desired);
    assert [ReadFleet(desired)] == [ReadFleet(desired)] + [];
    CellStep1(env, t, p, ReadFleet(desired), [], listing, n, c);
    FleetOnlyDesires(t.reg.apps, listing, desired);
    SilentPrefix(env, t, p, ops, [ReconcileOp], listing, n, c);
    PassTail(env, Apply(t, ops), p, listing, n, c);
    ApplyFinish(env, t, ops, [ReconcileOp], listing);
    InertFinish(env, Apply(t, ops), [ReconcileOp], listing);
    FleetFinish(env, t, t.reg.apps, listing, desired, listing);
  }

  /** Every handler, served whole, has this effect on every app. */
  lemma ServedCellClosed(env: Env, t: Tables, p: Pass, r: Request, listing: seq<Name>, n: Name, c: Cell)
    requires r.FleetSet? ==> forall x :: x in t.reg.apps ==> x in listing
    ensures ServeCell(env, t, p, r, listing, n, c) == ServedCell(env, t, p, r, n, c)
  {
    match r
    case Deploy(req) => DeployCell(env, t, p, req, listing, n, c);
    case Rollback(name) => RollbackCell(env, t, p, name, listing, n, c);
    case Reload(name, read) => ReloadCell(env, t, p, name, read, listing, n, c);
    case FleetSet(desired) => FleetCell(env, t, p, desired, listing, n, c);
    case Restart(name) => PlainCell(env, t, p, r, name, WantRunning, listing, n, c);
    case StopApp(name) => PlainCell(env, t, p, r, name, WantStopped, listing, n, c);
    case StartApp(name) => PlainCell(env, t, p, r, name, WantRunning, listing, n, c);
    case TrustAdd(key) => TrustCell(env, t, p, AddTrust(key), listing, n, c);
    case TrustRemove(key) => TrustCell(env, t, p, DropTrust(key), listing, n, c);
  }

  lemma PlainCell(env: Env, t: Tables, p: Pass, r: Request, name: Name, desired: Desired, listing: seq<Name>, n: Name,
                  c: Cell)
    requires r == Restart(name) || r == StopApp(name) || r == StartApp(name)
    requires desired == if r.StopApp? then WantStopped else WantRunning
    ensures ServeCell(env, t, p, r, listing, n, c) == ServedCell(env, t, p, r, n, c)
  {
    hide FinishCell;
    var prog := ProgramOf(env, r);
    assert prog == [prog[0]] + ([prog[1]] + prog[2..]);
    DesireCell(env, t, p, name, desired, prog[2..], listing, n, c);
    var t1 := Tables(SetDesired(t.reg, name, desired), t.store);
    if r.Restart? {
      RestartTail(env, t1, p, name, RestartEv, listing, n, c);
    } else {
      PassTail(env, t1, p, listing, n, c);
    }
  }

  lemma TrustCell(env: Env, t: Tables, p: Pass, op: Op, listing: seq<Name>, n: Name, c: Cell)
    requires op.AddTrust? || op.DropTrust?
    ensures FinishCell(env, t, p, [op], listing, n, c) == c
  {
    assert [op] == [op] + [];
    CellStep1(env, t, p, op, [], listing, n, c);
  }
}
