/** Handlers served one at a time, each to its end: what a sequence of requests does to the
    registry when nothing interleaves. */
module Atomic {
  import opened Prelude
  import opened Lifecycle
  import opened Attest
  import opened Control
  import opened ContentStore

  // ---------- running one handler to its end ----------

  /** An operation's cost; what it turns into always costs less. */
  function Weight(op: Op, listed: nat): nat {
    match op
    case PutFiles(_, _, _) => 3
    case AssessOp(_, _) => 2
    case RequireManifest(_, _) => 6
    case ReadForRollback(_) => 8
    case PickPrevious(_, _) => 7
    case ReadFleet(_) => listed + 2
    case _ => 1
  }

  function Cost(prog: Program, listed: nat): nat {
    if prog == [] then 0 else Weight(prog[0], listed) + Cost(prog[1..], listed)
  }

  lemma {:induction false} CostAppend(a: Program, b: Program, listed: nat)
    ensures Cost(a + b, listed) == Cost(a, listed) + Cost(b, listed)
  {
    if a == [] {
      assert a + b == b;
    } else {
      assert (a + b)[1..] == a[1..] + b;
      CostAppend(a[1..], b, listed);
    }
  }

  lemma {:induction false} FleetCost(apps: map<Name, AppRow>, names: seq<Name>, desired: Desired, listed: nat)
    ensures Cost(FleetUpdates(apps, names, desired), listed) <= |names|
  {
    if names != [] {
      FleetCost(apps, names[1..], desired, listed);
      var head := if names[0] in apps && apps[names[0]].desired != desired then [SetDesiredOp(names[0], desired)]
        else [];
      CostAppend(head, FleetUpdates(apps, names[1..], desired), listed);
    }
  }

  lemma {:induction false} LightCost(prog: Program, listed: nat)
    requires forall k :: 0 <= k < |prog| ==> Weight(prog[k], listed) == 1
    ensures Cost(prog, listed) == |prog|
  {
    if prog != [] { LightCost(prog[1..], listed); }
  }

  lemma FilesLighter(store: StoreState, rec: Record, jam: Option<Bytes>, bin: Bytes, rest: Program, listed: nat)
    ensures Cost(FilesToPut(store, rec, jam, bin) + rest, listed) <= 2 + Cost(rest, listed)
  {
    var files := FilesToPut(store, rec, jam, bin);
    LightCost(files, listed);
    CostAppend(files, rest, listed);
  }

  lemma RollbackCost(name: Name, prev: Hash, listed: nat)
    ensures Cost(RollbackProgram(name, prev), listed) == 6
  {
    LightCost(RollbackProgram(name, prev), listed);
  }

  lemma PickLighter(env: Env, reg: RegState, store: StoreState, op: Op, rest: Program, listing: seq<Name>)
    requires op.PickPrevious?
    ensures Cost(Continue(env, reg, store, op, rest, listing), |listing|) < Weight(op, |listing|)
  {
    var prev := PreviousArtifact(reg.history, op.name, op.current);
    if prev.Some? { RollbackCost(op.name, prev.value, |listing|); }
  }

  lemma ReloadLighter(env: Env, reg: RegState, store: StoreState, op: Op, rest: Program, listing: seq<Name>)
    requires op.RequireManifest?
    ensures Cost(Continue(env, reg, store, op, rest, listing), |listing|) < Weight(op, |listing|)
  {
    LightCost(Continue(env, reg, store, op, rest, listing), |listing|);
  }

  lemma LookupLighter(env: Env, reg: RegState, store: StoreState, op: Op, rest: Program, listing: seq<Name>)
    requires op.ReadForRollback?
    ensures Cost(Continue(env, reg, store, op, rest, listing), |listing|) < Weight(op, |listing|)
  {
    if op.name in reg.apps {
      var pick := [PickPrevious(op.name, reg.apps[op.name].artifact)];
      assert pick[1..] == [];
    }
  }

  lemma FleetLighter(env: Env, reg: RegState, store: StoreState, op: Op, rest: Program, listing: seq<Name>)
    requires op.ReadFleet?
    ensures Cost(Continue(env, reg, store, op, rest, listing), |listing|) < Weight(op, |listing|)
  {
    FleetCost(reg.apps, listing, op.desired, |listing|);
    LightCost([ReconcileOp], |listing|);
    CostAppend(FleetUpdates(reg.apps, listing, op.desired), [ReconcileOp], |listing|);
  }

  lemma AssessLighter(env: Env, reg: RegState, store: StoreState, op: Op, rest: Program, listing: seq<Name>)
    requires op.AssessOp?
    ensures Cost(Continue(env, reg, store, op, rest, listing), |listing|) == 1 + Cost(rest, |listing|)
  {
    var next := Continue(env, reg, store, op, rest, listing);
    LightCost(next[..1], |listing|);
    CostAppend(next[..1], rest, |listing|);
    assert next == next[..1] + rest;
  }

  lemma ContinueLighter(env: Env, reg: RegState, store: StoreState, op: Op, rest: Program, listing: seq<Name>)
    ensures Cost(Continue(env, reg, store, op, rest, listing), |listing|) < Weight(op, |listing|)
            + Cost(rest, |listing|)
  {
    match op
    case PutFiles(rec, jam, bin) => FilesLighter(store, rec, jam, bin, rest, |listing|);
    case AssessOp(_, _) => AssessLighter(env, reg, store, op, rest, listing);
    case ReadFleet(_) => FleetLighter(env, reg, store, op, rest, listing);
    case PickPrevious(_, _) => PickLighter(env, reg, store, op, rest, listing);
    case RequireManifest(_, _) => ReloadLighter(env, reg, store, op, rest, listing);
    case ReadForRollback(_) => LookupLighter(env, reg, store, op, rest, listing);
    case _ =>
  }

  datatype Tables = Tables(reg: RegState, store: StoreState)

  /** The program run with nothing in between. */
  function Finish(env: Env, t: Tables, prog: Program, listing: seq<Name>): Tables
    decreases Cost(prog, |listing|)
  {
    if prog == [] then t
    else
      ContinueLighter(env, t.reg, t.store, prog[0], prog[1..], listing);
      Finish(env, Tables(ApplyReg(t.reg, prog[0]), ApplyStore(t.store, prog[0])),
             Continue(env, t.reg, t.store, prog[0], prog[1..], listing), listing)
  }

  function Serve(env: Env, t: Tables, r: Request, listing: seq<Name>): Tables {
    Finish(env, t, ProgramOf(env, r), listing)
  }

  datatype Call = Call(request: Request, listing: seq<Name>)

  function ServeAll(env: Env, t: Tables, calls: seq<Call>): Tables {
    if calls == [] then t
    else
      var before := ServeAll(env, t, calls[..|calls| - 1]);
      Serve(env, before, calls[|calls| - 1].request, calls[|calls| - 1].listing)
  }

  // ---------- closed forms ----------

  /** Operations that go on to the next one and touch neither files nor tables. */
  predicate Inert(op: Op) { op.RequestRestart? || op.AddEvent? || op.ReconcileOp? }

  lemma {:induction false} InertFinish(env: Env, t: Tables, prog: Program, listing: seq<Name>)
    requires forall k :: 0 <= k < |prog| ==> Inert(prog[k])
    ensures Finish(env, t, prog, listing) == t
  {
    if prog != [] {
      InertFinish(env, t, prog[1..], listing);
    }
  }

  lemma NothingLeft(env: Env, t: Tables, listing: seq<Name>)
    ensures Finish(env, t, [], listing) == t
  {
  }

  lemma Step1(env: Env, t: Tables, op: Op, rest: Program, listing: seq<Name>)
    ensures Finish(env, t, [op] + rest, listing)
            == Finish(env, Tables(ApplyReg(t.reg, op), ApplyStore(t.store, op)),
                      Continue(env, t.reg, t.store, op, rest, listing), listing)
  {
    assert ([op] + rest)[1..] == rest;
  }

  /** The registry after a deploy: row replaced, verdict recorded, then app and history unless
      the icon was refused. */
  function DeployReg(env: Env, reg: RegState, r: DeployRequest): RegState {
    var rec := ComputeHashes(env, r.jam, r.bin, r.triple);
    var v := AssessCarried(env.valid, r.carried, rec.artifact, rec.kernel, reg.trusted);
    var reg1 := SetVerification(PutArtifactRow(reg, rec.artifact, rec.kernel), rec.artifact, v.0, v.1);
    if r.iconOk then
      RecordDeploy(Upsert(reg1, r.name, rec.artifact, r.config, r.manifest), r.name, rec.artifact)
    else reg1
  }

  function RollbackReg(reg: RegState, name: Name): RegState {
    if name !in reg.apps then reg
    else
      match PreviousArtifact(reg.history, name, reg.apps[name].artifact)
      case None => reg
      case Some(prev) => SetDesired(RecordDeploy(SetAppArtifact(reg, name, prev), name, prev), name, WantRunning)
  }

  lemma FilesFinish(env: Env, t: Tables, rec: Record, jam: Option<Bytes>, bin: Bytes, rest: Program, listing: seq<Name>)
    ensures Finish(env, t, [PutFiles(rec, jam, bin)] + rest, listing)
            == Finish(env, Tables(t.reg, PutInto(t.store, rec.artifact, jam, bin)), rest, listing)
  {
    Step1(env, t, PutFiles(rec, jam, bin), rest, listing);
    if Has(t.store, rec.artifact) {
      assert [] + rest == rest;
    } else {
      FilesWritten(env, t, rec, jam, bin, rest, listing);
    }
  }

  lemma FilesWritten(env: Env, t: Tables, rec: Record, jam: Option<Bytes>, bin: Bytes, rest: Program,
                     listing: seq<Name>)
    ensures Finish(env, t, FilesFor(rec, jam, bin) + rest, listing)
            == Finish(env, Tables(t.reg, WriteFiles(t.store, rec.artifact, jam, bin)), rest, listing)
  {
    var t1 := if jam.Some? then Tables(t.reg, ApplyStore(t.store, WriteJam(rec.artifact, jam.value))) else t;
    if jam.Some? {
      Step1(env, t, WriteJam(rec.artifact, jam.value), [WriteBin(rec.artifact, bin)] + rest, listing);
      assert [WriteJam(rec.artifact, jam.value)] + [WriteBin(rec.artifact, bin)] + rest
          == [WriteJam(rec.artifact, jam.value)] + ([WriteBin(rec.artifact, bin)] + rest);
    } else {
      assert [] + [WriteBin(rec.artifact, bin)] + rest == [WriteBin(rec.artifact, bin)] + rest;
    }
    Step1(env, t1, WriteBin(rec.artifact, bin), rest, listing);
  }

  lemma DeployServed(env: Env, t: Tables, r: DeployRequest, listing: seq<Name>)
    ensures Serve(env, t, Deploy(r), listing)
            == Tables(DeployReg(env, t.reg, r),
                      PutInto(t.store, ComputeHashes(env, r.jam, r.bin, r.triple).artifact, r.jam, r.bin))
  {
    hide Finish;
    var p := DeployProgram(env, r);
    var rec := ComputeHashes(env, r.jam, r.bin, r.triple);
    assert p == [p[0]] + p[1..];
    FilesFinish(env, t, rec, r.jam, r.bin, p[1..], listing);
    AfterFiles(env, Tables(t.reg, PutInto(t.store, rec.artifact, r.jam, r.bin)), r, listing);
  }

  lemma AfterFiles(env: Env, t: Tables, r: DeployRequest, listing: seq<Name>)
    ensures Finish(env, t, DeployProgram(env, r)[1..], listing) == Tables(DeployReg(env, t.reg, r), t.store)
  {
    hide Finish;
    var p := DeployProgram(env, r);
    var rec := ComputeHashes(env, r.jam, r.bin, r.triple);
    var v := AssessCarried(env.valid, r.carried, rec.artifact, rec.kernel, t.reg.trusted);
    var t1 := Tables(PutArtifactRow(t.reg, rec.artifact, rec.kernel), t.store);
    var t2 := Tables(SetVerification(t1.reg, rec.artifact, v.0, v.1), t.store);
    assert p[1..] == [PutRow(rec)] + ([AssessOp(rec, r.carried)] + p[3..]);
    Step1(env, t, PutRow(rec), [AssessOp(rec, r.carried)] + p[3..], listing);
    Step1(env, t1, AssessOp(rec, r.carried), p[3..], listing);
    Step1(env, t1, SetVerdict(rec.artifact, v.0, v.1), p[3..], listing);
    assert p[3..] == [CheckIcon(r.iconOk)] + p[4..];
    Step1(env, t2, CheckIcon(r.iconOk), p[4..], listing);
    if r.iconOk { AfterIcon(env, t2, r, listing); } else { NothingLeft(env, t2, listing); }
  }

  lemma AfterIcon(env: Env, t: Tables, r: DeployRequest, listing: seq<Name>)
    ensures var h := ComputeHashes(env, r.jam, r.bin, r.triple).artifact;
            Finish(env, t, DeployProgram(env, r)[4..], listing)
            == Tables(RecordDeploy(Upsert(t.reg, r.name, h, r.config, r.manifest), r.name, h), t.store)
  {
    hide Finish;
    var p := DeployProgram(env, r);
    var h := ComputeHashes(env, r.jam, r.bin, r.triple).artifact;
    assert p[4..] == [p[4]] + ([p[5]] + p[6..]);
    var t1 := Tables(ApplyReg(t.reg, p[4]), t.store);
    Step1(env, t, p[4], [p[5]] + p[6..], listing);
    Step1(env, t1, p[5], p[6..], listing);
    InertFinish(env, Tables(ApplyReg(t1.reg, p[5]), t.store), p[6..], listing);
  }

  lemma RollbackServed(env: Env, t: Tables, name: Name, listing: seq<Name>)
    ensures Serve(env, t, Rollback(name), listing) == Tables(RollbackReg(t.reg, name), t.store)
  {
    assert [ReadForRollback(name)] == [ReadForRollback(name)] + [];
    Step1(env, t, ReadForRollback(name), [], listing);
    if name in t.reg.apps {
      var current := t.reg.apps[name].artifact;
      assert [PickPrevious(name, current)] == [PickPrevious(name, current)] + [];
      Step1(env, t, PickPrevious(name, current), [], listing);
      var prev := PreviousArtifact(t.reg.history, name, current);
      if prev.Some? { RollbackFinish(env, t, name, prev.value, listing); }
    }
  }

  lemma RollbackFinish(env: Env, t: Tables, name: Name, prev: Hash, listing: seq<Name>)
    ensures Finish(env, t, RollbackProgram(name, prev), listing)
            == Tables(SetDesired(RecordDeploy(SetAppArtifact(t.reg, name, prev), name, prev), name, WantRunning),
              t.store)
  {
    hide Finish;
    var p := RollbackProgram(name, prev);
    assert p == [p[0]] + ([p[1]] + ([p[2]] + p[3..]));
    var t1 := Tables(ApplyReg(t.reg, p[0]), t.store);
    var t2 := Tables(ApplyReg(t1.reg, p[1]), t.store);
    Step1(env, t, p[0], [p[1]] + ([p[2]] + p[3..]), listing);
    Step1(env, t1, p[1], [p[2]] + p[3..], listing);
    Step1(env, t2, p[2], p[3..], listing);
    InertFinish(env, Tables(ApplyReg(t2.reg, p[2]), t.store), p[3..], listing);
  }

  // ---------- requests that deploy nothing ----------

  /** The operations of the other handlers leave artifacts, history and every app's artifact
      alone. */
  predicate ArtifactNeutral(op: Op) {
    Inert(op) || op.RequireApp? || op.SetDesiredOp? || op.RequireManifest? || op.UpdateConfigOp? || op.ReadFleet?
    || op.AddTrust? || op.DropTrust?
  }

  predicate SameArtifacts(a: RegState, b: RegState) {
    && a.artifacts == b.artifacts && a.history == b.history && a.apps.Keys == b.apps.Keys
    && forall n :: n in a.apps ==> a.apps[n].artifact == b.apps[n].artifact
  }

  lemma NeutralContinues(env: Env, t: Tables, op: Op, rest: Program, listing: seq<Name>)
    requires ArtifactNeutral(op) && forall k :: 0 <= k < |rest| ==> ArtifactNeutral(rest[k])
    ensures var next := Continue(env, t.reg, t.store, op, rest, listing);
            forall k :: 0 <= k < |next| ==> ArtifactNeutral(next[k])
  {
    if op.ReadFleet? { FleetOnlyDesires(t.reg.apps, listing, op.desired); }
  }

  lemma {:induction false} NeutralFinish(env: Env, t: Tables, prog: Program, listing: seq<Name>)
    requires forall k :: 0 <= k < |prog| ==> ArtifactNeutral(prog[k])
    ensures SameArtifacts(t.reg, Finish(env, t, prog, listing).reg)
    decreases Cost(prog, |listing|)
  {
    if prog != [] {
      var t1 := Tables(ApplyReg(t.reg, prog[0]), ApplyStore(t.store, prog[0]));
      assert SameArtifacts(t.reg, t1.reg);
      ContinueLighter(env, t.reg, t.store, prog[0], prog[1..], listing);
      NeutralContinues(env, t, prog[0], prog[1..], listing);
      NeutralFinish(env, t1, Continue(env, t.reg, t.store, prog[0], prog[1..], listing), listing);
    }
  }

  lemma OthersServed(env: Env, t: Tables, r: Request, listing: seq<Name>)
    requires !r.Deploy? && !r.Rollback?
    ensures SameArtifacts(t.reg, Serve(env, t, r, listing).reg)
  {
    NeutralFinish(env, t, ProgramOf(env, r), listing);
  }

  // ---------- every request, closed ----------

  function AllDesired(reg: RegState, desired: Desired): RegState {
    reg.(apps := map n | n in reg.apps :: reg.apps[n].(desired := desired))
  }

  predicate CanReload(reg: RegState, name: Name, read: Option<Config>) {
    name in reg.apps && reg.apps[name].manifest.Some? && read.Some?
  }

  function ServedTables(env: Env, t: Tables, r: Request): Tables {
    match r
    case Deploy(req) =>
      Tables(DeployReg(env, t.reg, req),
             PutInto(t.store, ComputeHashes(env, req.jam, req.bin, req.triple).artifact, req.jam, req.bin))
    case Rollback(name) => Tables(RollbackReg(t.reg, name), t.store)
    case Restart(name) => Tables(SetDesired(t.reg, name, WantRunning), t.store)
    case Reload(name, read) =>
      if CanReload(t.reg, name, read) then
        Tables(SetDesired(UpdateConfig(t.reg, name, read.value), name, WantRunning), t.store)
      else t
    case StopApp(name) => Tables(SetDesired(t.reg, name, WantStopped), t.store)
    case StartApp(name) => Tables(SetDesired(t.reg, name, WantRunning), t.store)
    case FleetSet(desired) => Tables(AllDesired(t.reg, desired), t.store)
    case TrustAdd(key) => Tables(t.reg.(trusted := t.reg.trusted + {key}), t.store)
    case TrustRemove(key) => Tables(t.reg.(trusted := t.reg.trusted - {key}), t.store)
  }

  lemma DesireServed(env: Env, t: Tables, name: Name, desired: Desired, rest: Program, listing: seq<Name>)
    requires forall k :: 0 <= k < |rest| ==> Inert(rest[k])
    ensures Finish(env, t, [RequireApp(name)] + ([SetDesiredOp(name, desired)] + rest), listing)
            == Tables(SetDesired(t.reg, name, desired), t.store)
  {
    Step1(env, t, RequireApp(name), [SetDesiredOp(name, desired)] + rest, listing);
    if name in t.reg.apps {
      Step1(env, t, SetDesiredOp(name, desired), rest, listing);
      InertFinish(env, Tables(SetDesired(t.reg, name, desired), t.store), rest, listing);
    }
  }

  lemma ReloadServed(env: Env, t: Tables, name: Name, read: Option<Config>, listing: seq<Name>)
    ensures Serve(env, t, Reload(name, read), listing) == ServedTables(env, t, Reload(name, read))
  {
    hide Finish;
    assert [RequireManifest(name, read)] == [RequireManifest(name, read)] + [];
    Step1(env, t, RequireManifest(name, read), [], listing);
    NothingLeft(env, t, listing);
    if CanReload(t.reg, name, read) {
      var p := Continue(env, t.reg, t.store, RequireManifest(name, read), [], listing);
      assert p == [p[0]] + ([p[1]] + p[2..]);
      var t1 := Tables(UpdateConfig(t.reg, name, read.value), t.store);
      Step1(env, t, p[0], [p[1]] + p[2..], listing);
      Step1(env, t1, p[1], p[2..], listing);
      InertFinish(env, Tables(ApplyReg(t1.reg, p[1]), t.store), p[2..], listing);
    }
  }

  /** What the fleet loop has done when `names` is still to come. */
  lemma {:induction false} FleetFinish(env: Env, t: Tables, apps: map<Name, AppRow>, names: seq<Name>, desired: Desired,
                                       listing: seq<Name>)
    requires apps.Keys == t.reg.apps.Keys
    requires forall n :: n in apps ==> t.reg.apps[n] == apps[n] || t.reg.apps[n] == apps[n].(desired := desired)
    requires forall n :: n in apps && n !in names ==> t.reg.apps[n] == apps[n].(desired := desired)
    ensures Finish(env, t, FleetUpdates(apps, names, desired) + [ReconcileOp], listing)
            == Tables(t.reg.(apps := map n | n in apps :: apps[n].(desired := desired)), t.store)
    decreases |names|
  {
    hide Finish;
    if names == [] {
      assert FleetUpdates(apps, names, desired) + [ReconcileOp] == [ReconcileOp];
      InertFinish(env, t, [ReconcileOp], listing);
      assert t.reg.apps == map n | n in apps :: apps[n].(desired := desired);
    } else {
      var rest := FleetUpdates(apps, names[1..], desired) + [ReconcileOp];
      if names[0] in apps && apps[names[0]].desired != desired {
        var op := SetDesiredOp(names[0], desired);
        assert FleetUpdates(apps, names, desired) + [ReconcileOp] == [op] + rest;
        Step1(env, t, op, rest, listing);
        FleetFinish(env, Tables(ApplyReg(t.reg, op), t.store), apps, names[1..], desired, listing);
      } else {
        assert FleetUpdates(apps, names, desired) + [ReconcileOp] == rest;
        FleetFinish(env, t, apps, names[1..], desired, listing);
      }
    }
  }

  lemma FleetServed(env: Env, t: Tables, desired: Desired, listing: seq<Name>)
    requires forall n :: n in t.reg.apps ==> n in listing
    ensures Serve(env, t, FleetSet(desired), listing) == Tables(AllDesired(t.reg, desired), t.store)
  {
    assert [ReadFleet(desired)] == [ReadFleet(desired)] + [];
    Step1(env, t, ReadFleet(desired), [], listing);
    FleetFinish(env, t, t.reg.apps, listing, desired, listing);
  }

  /** Every handler, served whole, has this effect on tables and files. */
  lemma ServedClosed(env: Env, t: Tables, r: Request, listing: seq<Name>)
    requires r.FleetSet? ==> forall n :: n in t.reg.apps ==> n in listing
    ensures Serve(env, t, r, listing) == ServedTables(env, t, r)
  {
    var p := ProgramOf(env, r);
    match r
    case Deploy(req) => DeployServed(env, t, req, listing);
    case Rollback(name) => RollbackServed(env, t, name, listing);
    case Reload(name, read) => ReloadServed(env, t, name, read, listing);
    case FleetSet(desired) => FleetServed(env, t, desired, listing);
    case Restart(name) =>
      assert p == [p[0]] + ([p[1]] + p[2..]);
      DesireServed(env, t, name, WantRunning, p[2..], listing);
    case StopApp(name) =>
      assert p == [p[0]] + ([p[1]] + p[2..]);
      DesireServed(env, t, name, WantStopped, p[2..], listing);
    case StartApp(name) =>
      assert p == [p[0]] + ([p[1]] + p[2..]);
      DesireServed(env, t, name, WantRunning, p[2..], listing);
    case TrustAdd(key) => assert p == [p[0]] + []; Step1(env, t, p[0], [], listing);
    case TrustRemove(key) => assert p == [p[0]] + []; Step1(env, t, p[0], [], listing);
  }

  // ---------- verdicts, one deploy at a time ----------

  /** The verdict of the newest deploy of `h` among the first calls, if there was one. */
  function LatestVerdict(env: Env, t: Tables, calls: seq<Call>, h: Hash): Option<Verdict> {
    if calls == [] then (if h in t.reg.artifacts then t.reg.artifacts[h].verdict else None)
    else
      var before := ServeAll(env, t, calls[..|calls| - 1]);
      var last := calls[|calls| - 1].request;
      if last.Deploy? && ComputeHashes(env, last.req.jam, last.req.bin, last.req.triple).artifact == h then
        Some(AssessCarried(env.valid, last.req.carried, h,
                           ComputeHashes(env, last.req.jam, last.req.bin, last.req.triple).kernel,
                             before.reg.trusted).0)
      else LatestVerdict(env, t, calls[..|calls| - 1], h)
  }

  /** With handlers served whole, a row always reads the verdict of the latest deploy: a
      redeploy of the same bytes without an attestation takes "verified" away again. */
  lemma {:induction false} RowIsLatestVerdict(env: Env, t: Tables, calls: seq<Call>, h: Hash)
    ensures h in ServeAll(env, t, calls).reg.artifacts ==>
              ServeAll(env, t, calls).reg.artifacts[h].verdict == LatestVerdict(env, t, calls, h)
    ensures h !in ServeAll(env, t, calls).reg.artifacts ==> LatestVerdict(env, t, calls, h) == None
  {
    if calls != [] {
      var front, last := calls[..|calls| - 1], calls[|calls| - 1];
      RowIsLatestVerdict(env, t, front, h);
      var before := ServeAll(env, t, front);
      match last.request
      case Deploy(r) => DeployServed(env, before, r, last.listing);
      case Rollback(name) => RollbackServed(env, before, name, last.listing);
      case _ => OthersServed(env, before, last.request, last.listing);
    }
  }
}
