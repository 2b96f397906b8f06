/** The control plane: registry tables, content store, and every handler as the sequence of
    small operations it performs. Each operation is one critical section, so handlers
    interleave with each other and with the background loops between operations. */
module Control {
  import opened Prelude
  import opened Lifecycle
  import opened Attest

  // ---------- registry tables ----------

  datatype ArtifactRow = ArtifactRow(kernel: Hash, verdict: Option<Verdict>, builder: Option<Builder>)

  datatype Deployed = Deployed(app: Name, artifact: Hash)

  datatype RegState = RegState(
    apps: map<Name, AppRow>,
    artifacts: map<Hash, ArtifactRow>,
    history: seq<Deployed>,
    trusted: set<Builder>)

  /** INSERT OR REPLACE: a row already there loses its verdict. */
  function PutArtifactRow(reg: RegState, artifact: Hash, kernel: Hash): RegState {
    reg.(artifacts := reg.artifacts[artifact := ArtifactRow(kernel, None, None)])
  }

  /** A verified row is not overwritten by any other verdict. */
  function SetVerification(reg: RegState, artifact: Hash, verdict: Verdict, builder: Option<Builder>): RegState {
    if artifact in reg.artifacts
       && !(reg.artifacts[artifact].verdict == Some(Verified) && verdict != Verified)
    then
      reg.(artifacts := reg.artifacts[artifact :=
             reg.artifacts[artifact].(verdict := Some(verdict), builder := builder)])
    else reg
  }

  function WithApp(reg: RegState, name: Name, row: AppRow): RegState {
    reg.(apps := reg.apps[name := row])
  }

  function Upsert(reg: RegState, name: Name, artifact: Hash, config: Config, manifest: Option<string>): RegState {
    WithApp(reg, name, AppRow(artifact, config, WantRunning, manifest))
  }

  function UpdateConfig(reg: RegState, name: Name, config: Config): RegState {
    if name in reg.apps then WithApp(reg, name, reg.apps[name].(config := config)) else reg
  }

  function SetAppArtifact(reg: RegState, name: Name, artifact: Hash): RegState {
    if name in reg.apps then WithApp(reg, name, reg.apps[name].(artifact := artifact)) else reg
  }

  function SetDesired(reg: RegState, name: Name, d: Desired): RegState {
    if name in reg.apps then WithApp(reg, name, reg.apps[name].(desired := d)) else reg
  }

  function RecordDeploy(reg: RegState, name: Name, artifact: Hash): RegState {
    reg.(history := reg.history + [Deployed(name, artifact)])
  }

  /** The newest history entry of `name` that differs from `current`: the rollback target. */
  function PreviousArtifact(history: seq<Deployed>, name: Name, current: Hash): Option<Hash> {
    if history == [] then None
    else
      var last := history[|history| - 1];
      if last.app == name && last.artifact != current then Some(last.artifact)
      else PreviousArtifact(history[..|history| - 1], name, current)
  }

  // ---------- content store ----------

  datatype StoreState = StoreState(bins: map<Hash, Bytes>, jams: map<Hash, Bytes>)

  datatype Record = Record(artifact: Hash, kernel: Hash)

  /** `blake3` and the signature check are whatever they are. */
  datatype Env = Env(blake3: Bytes -> Hash, valid: Attestation -> bool)

  function JamBytes(jam: Option<Bytes>): Bytes {
    if jam.Some? then jam.value else []
  }

  function ComputeHashes(env: Env, jam: Option<Bytes>, bin: Bytes, triple: Bytes): Record {
    Record(env.blake3(JamBytes(jam) + bin + triple), if jam.Some? then env.blake3(jam.value) else "")
  }

  predicate Has(store: StoreState, artifact: Hash) {
    artifact in store.bins && artifact in store.jams
  }

  /** The kernel a start of `n` would stage. */
  function KernelFor(apps: map<Name, AppRow>, jams: map<Hash, Bytes>, n: Name): Option<Bytes> {
    if n in apps then Lookup(jams, apps[n].artifact) else None
  }

  // ---------- requests and the operations they turn into ----------

  datatype DeployRequest = DeployRequest(
    name: Name, triple: Bytes, bin: Bytes, jam: Option<Bytes>,
    config: Config, manifest: Option<string>, carried: Carried, iconOk: bool)

  datatype Request =
    | Deploy(req: DeployRequest)
    | Restart(name: Name)
    | Reload(name: Name, read: Option<Config>)
    | Rollback(name: Name)
    | StopApp(name: Name)
    | StartApp(name: Name)
    | FleetSet(desired: Desired)
    | TrustAdd(builder: Builder)
    | TrustRemove(builder: Builder)

  datatype Op =
    | PutFiles(rec: Record, jam: Option<Bytes>, bin: Bytes)
    | WriteJam(artifact: Hash, bytes: Bytes)
    | WriteBin(artifact: Hash, bytes: Bytes)
    | PutRow(rec: Record)
    | AssessOp(rec: Record, carried: Carried)
    | SetVerdict(artifact: Hash, verdict: Verdict, builder: Option<Builder>)
    | CheckIcon(ok: bool)
    | UpsertOp(name: Name, artifact: Hash, config: Config, manifest: Option<string>)
    | RequireApp(name: Name)
    | RequireManifest(name: Name, read: Option<Config>)
    | UpdateConfigOp(name: Name, config: Config)
    | ReadForRollback(name: Name)
    | PickPrevious(name: Name, current: Hash)
    | SetArtifactOp(name: Name, artifact: Hash)
    | RecordOp(name: Name, artifact: Hash)
    | SetDesiredOp(name: Name, desired: Desired)
    | RequestRestart(name: Name)
    | AddEvent(name: Name, kind: OperatorKind)
    | ReadFleet(desired: Desired)
    | AddTrust(key: Builder)
    | DropTrust(key: Builder)
    | ReconcileOp

  type Program = seq<Op>

  function DeployProgram(env: Env, r: DeployRequest): Program {
    var rec := ComputeHashes(env, r.jam, r.bin, r.triple);
    [PutFiles(rec, r.jam, r.bin), PutRow(rec), AssessOp(rec, r.carried), CheckIcon(r.iconOk),
     UpsertOp(r.name, rec.artifact, r.config, r.manifest), RecordOp(r.name, rec.artifact),
     AddEvent(r.name, DeployEv), RequestRestart(r.name), ReconcileOp]
  }

  function RollbackProgram(name: Name, prev: Hash): Program {
    [SetArtifactOp(name, prev), RecordOp(name, prev), SetDesiredOp(name, WantRunning),
     RequestRestart(name), AddEvent(name, RollbackEv), ReconcileOp]
  }

  function ProgramOf(env: Env, r: Request): Program {
    match r
    case Deploy(req) => DeployProgram(env, req)
    case Restart(name) =>
      [RequireApp(name), SetDesiredOp(name, WantRunning), RequestRestart(name), AddEvent(name, RestartEv), ReconcileOp]
    case Reload(name, read) => [RequireManifest(name, read)]
    case Rollback(name) => [ReadForRollback(name)]
    case StopApp(name) => [RequireApp(name), SetDesiredOp(name, WantStopped), ReconcileOp]
    case StartApp(name) => [RequireApp(name), SetDesiredOp(name, WantRunning), ReconcileOp]
    case FleetSet(desired) => [ReadFleet(desired)]
    case TrustAdd(builder) => [AddTrust(builder)]
    case TrustRemove(builder) => [DropTrust(builder)]
  }

  /** `fleet_set`: one update for each listed app whose desired status differs. `names` is the
      listing order. */
  function FleetUpdates(apps: map<Name, AppRow>, names: seq<Name>, desired: Desired): Program {
    if names == [] then []
    else
      (if names[0] in apps && apps[names[0]].desired != desired then [SetDesiredOp(names[0], desired)] else [])
      + FleetUpdates(apps, names[1..], desired)
  }

  lemma {:induction false} FleetOnlyDesires(apps: map<Name, AppRow>, names: seq<Name>, desired: Desired)
    ensures forall k :: 0 <= k < |FleetUpdates(apps, names, desired)| ==>
            FleetUpdates(apps, names, desired)[k].SetDesiredOp?
  {
    if names != [] { FleetOnlyDesires(apps, names[1..], desired); }
  }

  /** Kernel first, then binary; nothing when both are there. */
  function FilesFor(rec: Record, jam: Option<Bytes>, bin: Bytes): Program {
    (if jam.Some? then [WriteJam(rec.artifact, jam.value)] else []) + [WriteBin(rec.artifact, bin)]
  }

  function FilesToPut(store: StoreState, rec: Record, jam: Option<Bytes>, bin: Bytes): Program {
    if Has(store, rec.artifact) then [] else FilesFor(rec, jam, bin)
  }

  /** What the handler still has to do after performing `op`; an error return drops the rest. */
  function Continue(env: Env, reg: RegState, store: StoreState, op: Op, rest: Program, listing: seq<Name>): Program {
    match op
    case PutFiles(rec, jam, bin) => FilesToPut(store, rec, jam, bin) + rest
    case AssessOp(rec, carried) =>
      var v := AssessCarried(env.valid, carried, rec.artifact, rec.kernel, reg.trusted);
      [SetVerdict(rec.artifact, v.0, v.1)] + rest
    case CheckIcon(ok) => if ok then rest else []
    case RequireApp(name) => if name in reg.apps then rest else []
    case RequireManifest(name, read) =>
      if name in reg.apps && reg.apps[name].manifest.Some? && read.Some? then
        [UpdateConfigOp(name, read.value), SetDesiredOp(name, WantRunning), RequestRestart(name),
         AddEvent(name, ReloadEv), ReconcileOp]
      else []
    case ReadForRollback(name) =>
      if name in reg.apps then [PickPrevious(name, reg.apps[name].artifact)] else []
    case PickPrevious(name, current) =>
      (match PreviousArtifact(reg.history, name, current)
       case None => []
       case Some(prev) => RollbackProgram(name, prev))
    case ReadFleet(desired) => FleetUpdates(reg.apps, listing, desired) + [ReconcileOp]
    case _ => rest
  }

  function ApplyReg(reg: RegState, op: Op): RegState {
    match op
    case PutRow(rec) => PutArtifactRow(reg, rec.artifact, rec.kernel)
    case SetVerdict(artifact, verdict, builder) => SetVerification(reg, artifact, verdict, builder)
    case UpsertOp(name, artifact, config, manifest) => Upsert(reg, name, artifact, config, manifest)
    case UpdateConfigOp(name, config) => UpdateConfig(reg, name, config)
    case SetArtifactOp(name, artifact) => SetAppArtifact(reg, name, artifact)
    case RecordOp(name, artifact) => RecordDeploy(reg, name, artifact)
    case SetDesiredOp(name, desired) => SetDesired(reg, name, desired)
    case AddTrust(key) => reg.(trusted := reg.trusted + {key})
    case DropTrust(key) => reg.(trusted := reg.trusted - {key})
    case _ => reg
  }

  function ApplyStore(store: StoreState, op: Op): StoreState {
    match op
    case WriteJam(artifact, bytes) => store.(jams := store.jams[artifact := bytes])
    case WriteBin(artifact, bytes) => store.(bins := store.bins[artifact := bytes])
    case _ => store
  }
}
