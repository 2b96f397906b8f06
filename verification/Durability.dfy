/** No dangling artifact at any point of any interleaving, and the kernel an app runs from. */
module Durability {
  import opened Prelude
  import opened Lifecycle
  import opened CellInvariant
  import opened Control
  import opened World
  import opened Safety

  datatype Contents = Contents(jam: Option<Bytes>, bin: Bytes)

  /** What was uploaded under an artifact hash, for the hashes that are followed. */
  type Catalog = Hash -> Option<Contents>

  function NothingFollowed(h: Hash): Option<Contents> { None }

  function Following(h: Hash, x: Contents): Catalog { g => if g == h then Some(x) else None }

  predicate Matches(entry: Option<Contents>, jam: Option<Bytes>, bin: Bytes) {
    entry.Some? ==> entry.value == Contents(jam, bin)
  }

  predicate MatchesJam(entry: Option<Contents>, jam: Option<Bytes>) { entry.Some? ==> entry.value.jam == jam }

  predicate MatchesBin(entry: Option<Contents>, bin: Bytes) { entry.Some? ==> entry.value.bin == bin }

  predicate HasKernel(entry: Option<Contents>) { entry.Some? && entry.value.jam.Some? }

  /** From here on the program refers only to hashes whose row and bytes exist: those it finds
      (`jams`, `bins`, `rows`) and those it has put itself. */
  predicate Grounded(cat: Catalog, prog: Program, jams: set<Hash>, bins: set<Hash>, rows: set<Hash>) {
    prog != [] ==>
      var rest := prog[1..];
      match prog[0]
      case PutFiles(rec, jam, bin) =>
        && Matches(cat(rec.artifact), jam, bin)
        && Grounded(cat, rest, jams + (if jam.Some? then {rec.artifact} else {}), bins + {rec.artifact}, rows)
      case WriteJam(h, bytes) => MatchesJam(cat(h), Some(bytes)) && Grounded(cat, rest, jams + {h}, bins, rows)
      case WriteBin(h, bytes) =>
        && MatchesBin(cat(h), bytes) && (HasKernel(cat(h)) ==> h in jams)
        && Grounded(cat, rest, jams, bins + {h}, rows)
      case PutRow(rec) => Grounded(cat, rest, jams, bins, rows + {rec.artifact})
      case UpsertOp(_, h, _, _) => h in bins && h in rows && Grounded(cat, rest, jams, bins, rows)
      case SetArtifactOp(_, h) => h in bins && h in rows && Grounded(cat, rest, jams, bins, rows)
      case RecordOp(_, h) => h in bins && h in rows && Grounded(cat, rest, jams, bins, rows)
      case _ => Grounded(cat, rest, jams, bins, rows)
  }

  lemma {:induction false} GroundedGrows(cat: Catalog, prog: Program, jams: set<Hash>, bins: set<Hash>, rows: set<Hash>,
                        jams': set<Hash>, bins': set<Hash>, rows': set<Hash>)
    requires Grounded(cat, prog, jams, bins, rows)
    requires jams <= jams' && bins <= bins' && rows <= rows'
    ensures Grounded(cat, prog, jams', bins', rows')
  {
    if prog != [] {
      var rest := prog[1..];
      match prog[0]
      case PutFiles(rec, jam, bin) =>
        var extra := if jam.Some? then {rec.artifact} else {};
        GroundedGrows(cat, rest, jams + extra, bins + {rec.artifact}, rows, jams' + extra, bins' + {rec.artifact},
          rows');
      case WriteJam(h, _) => GroundedGrows(cat, rest, jams + {h}, bins, rows, jams' + {h}, bins', rows');
      case WriteBin(h, _) => GroundedGrows(cat, rest, jams, bins + {h}, rows, jams', bins' + {h}, rows');
      case PutRow(rec) =>
        GroundedGrows(cat, rest, jams, bins, rows + {rec.artifact}, jams', bins', rows' + {rec.artifact});
      case _ => GroundedGrows(cat, rest, jams, bins, rows, jams', bins', rows');
    }
  }

  predicate Ready(cat: Catalog, prog: Program, reg: RegState, store: StoreState) {
    Grounded(cat, prog, store.jams.Keys, store.bins.Keys, reg.artifacts.Keys)
  }

  /** Stored bytes are the uploaded ones, and a binary is never there before its kernel. */
  predicate Stored(cat: Catalog, store: StoreState) {
    && (forall h :: h in store.jams ==> MatchesJam(cat(h), Some(store.jams[h])))
    && (forall h :: h in store.bins ==> MatchesBin(cat(h), store.bins[h]) && (HasKernel(cat(h)) ==> h in store.jams))
  }

  predicate Backed(reg: RegState, store: StoreState, h: Hash) {
    h in store.bins && h in reg.artifacts
  }

  predicate Listed(reg: RegState, store: StoreState) {
    && (forall n :: n in reg.apps ==> Backed(reg, store, reg.apps[n].artifact))
    && (forall k :: 0 <= k < |reg.history| ==> Backed(reg, store, reg.history[k].artifact))
  }

  /** The held child runs on exactly its artifact's kernel. */
  predicate OnItsKernel(cat: Catalog, c: Cell) {
    var m := EntryOf(c);
    m.child.Some? ==>
      && m.child.value < |c.instances|
      && var entry := cat(c.instances[m.child.value].launch.artifact);
         HasKernel(entry) ==> c.staged == entry.value.jam
  }

  ghost predicate DurableInv(cat: Catalog, w: World) {
    && Stored(cat, w.store)
    && Listed(w.reg, w.store)
    && (forall k :: 0 <= k < |w.tasks| ==> Ready(cat, w.tasks[k], w.reg, w.store))
    && (w.phase.Up? ==> forall n: Name :: OnItsKernel(cat, w.cells(n)))
  }

  /** An upload under a hash that is followed is the one followed. */
  ghost predicate Honest(cat: Catalog, env: Env, w: World, step: Step) {
    Enabled(w, step) && step.Submit? && step.request.Deploy? ==>
      var r := step.request.req;
      Matches(cat(ComputeHashes(env, r.jam, r.bin, r.triple).artifact), r.jam, r.bin)
  }

  // ---------- programs ----------

  lemma {:induction false} PreviousInHistory(history: seq<Deployed>, name: Name, current: Hash)
    requires PreviousArtifact(history, name, current).Some?
    ensures exists k :: 0 <= k < |history| && history[k].app == name
                        && history[k].artifact == PreviousArtifact(history, name, current).value
  {
    var last := history[|history| - 1];
    if !(last.app == name && last.artifact != current) {
      PreviousInHistory(history[..|history| - 1], name, current);
    }
  }

  lemma DeployGrounded(cat: Catalog, env: Env, r: DeployRequest, jams: set<Hash>, bins: set<Hash>, rows: set<Hash>)
    requires Matches(cat(ComputeHashes(env, r.jam, r.bin, r.triple).artifact), r.jam, r.bin)
    ensures Grounded(cat, DeployProgram(env, r), jams, bins, rows)
  {
    var p := DeployProgram(env, r);
    var h := ComputeHashes(env, r.jam, r.bin, r.triple).artifact;
    var jams1 := jams + (if r.jam.Some? then {h} else {});
    DeployRestGrounded(cat, env, r, jams1, bins + {h}, rows + {h});
    assert Grounded(cat, p[2..], jams1, bins + {h}, rows + {h}) by { assert p[2..][1..] == p[3..]; }
    assert Grounded(cat, p[1..], jams1, bins + {h}, rows) by { assert p[1..][1..] == p[2..]; }
  }

  /** From the icon check on, once the bytes and the row are there. */
  lemma DeployRestGrounded(cat: Catalog, env: Env, r: DeployRequest, jams: set<Hash>, bins: set<Hash>, rows: set<Hash>)
    requires var h := ComputeHashes(env, r.jam, r.bin, r.triple).artifact; h in bins && h in rows
    ensures Grounded(cat, DeployProgram(env, r)[3..], jams, bins, rows)
  {
    var p := DeployProgram(env, r);
    Plain(cat, p[6..], jams, bins, rows);
    assert Grounded(cat, p[5..], jams, bins, rows) by { assert p[5..][1..] == p[6..]; }
    assert Grounded(cat, p[4..], jams, bins, rows) by { assert p[4..][1..] == p[5..]; }
    assert p[3..][1..] == p[4..];
  }

  predicate HashFree(op: Op) {
    !(op.PutFiles? || op.WriteJam? || op.WriteBin? || op.UpsertOp? || op.SetArtifactOp? || op.RecordOp? || op.PutRow?)
  }

  lemma {:induction false} Plain(cat: Catalog, prog: Program, jams: set<Hash>, bins: set<Hash>, rows: set<Hash>)
    requires forall k :: 0 <= k < |prog| ==> HashFree(prog[k])
    ensures Grounded(cat, prog, jams, bins, rows)
  {
    if prog != [] {
      Plain(cat, prog[1..], jams, bins, rows);
    }
  }

  lemma RollbackGrounded(cat: Catalog, name: Name, prev: Hash, jams: set<Hash>, bins: set<Hash>, rows: set<Hash>)
    requires prev in bins && prev in rows
    ensures Grounded(cat, RollbackProgram(name, prev), jams, bins, rows)
  {
    var p := RollbackProgram(name, prev);
    Plain(cat, p[2..], jams, bins, rows);
    assert Grounded(cat, p[1..], jams, bins, rows) by { assert p[1..][1..] == p[2..]; }
  }

  lemma RequestReady(cat: Catalog, env: Env, w: World, step: Step)
    requires step.Submit? && Enabled(w, step) && Honest(cat, env, w, step)
    ensures Ready(cat, ProgramOf(env, step.request), w.reg, w.store)
  {
    if step.request.Deploy? {
      DeployGrounded(cat, env, step.request.req, w.store.jams.Keys, w.store.bins.Keys, w.reg.artifacts.Keys);
    } else {
      Plain(cat, ProgramOf(env, step.request), w.store.jams.Keys, w.store.bins.Keys, w.reg.artifacts.Keys);
    }
  }

  /** The files a put still has to write, kernel first. */
  lemma PutReady(cat: Catalog, rec: Record, jam: Option<Bytes>, bin: Bytes, rest: Program,
                 jams: set<Hash>, bins: set<Hash>, rows: set<Hash>)
    requires Grounded(cat, [PutFiles(rec, jam, bin)] + rest, jams, bins, rows)
    ensures Grounded(cat, FilesFor(rec, jam, bin) + rest, jams, bins, rows)
  {
    var h := rec.artifact;
    assert ([PutFiles(rec, jam, bin)] + rest)[1..] == rest;
    var tail := [WriteBin(h, bin)] + rest;
    assert tail[1..] == rest;
    if jam.Some? {
      assert Grounded(cat, tail, jams + {h}, bins, rows);
      var all := [WriteJam(h, jam.value)] + tail;
      assert all[1..] == tail;
      assert [WriteJam(h, jam.value)] + [WriteBin(h, bin)] + rest == all;
    } else {
      assert jams + {} == jams;
      assert [] + [WriteBin(h, bin)] + rest == tail;
    }
  }

  /** A handler that starts over with operations naming no hash. */
  lemma FreshListReady(cat: Catalog, env: Env, reg: RegState, store: StoreState, op: Op, rest: Program,
                       listing: seq<Name>)
    requires op.ReadFleet? || op.RequireManifest? || op.ReadForRollback?
    ensures Ready(cat, Continue(env, reg, store, op, rest, listing), reg, store)
  {
    if op.ReadFleet? { FleetOnlyDesires(reg.apps, listing, op.desired); }
    Plain(cat, Continue(env, reg, store, op, rest, listing), store.jams.Keys, store.bins.Keys, reg.artifacts.Keys);
  }

  lemma PutContinues(cat: Catalog, reg: RegState, store: StoreState, rec: Record, jam: Option<Bytes>, bin: Bytes,
                     rest: Program)
    requires Ready(cat, [PutFiles(rec, jam, bin)] + rest, reg, store)
    ensures Ready(cat, FilesToPut(store, rec, jam, bin) + rest, reg, store)
  {
    var jams, bins, rows := store.jams.Keys, store.bins.Keys, reg.artifacts.Keys;
    if Has(store, rec.artifact) {
      assert ([PutFiles(rec, jam, bin)] + rest)[1..] == rest;
      assert [] + rest == rest;
      GroundedGrows(cat, rest, jams + (if jam.Some? then {rec.artifact} else {}), bins + {rec.artifact}, rows, jams,
        bins, rows);
    } else {
      PutReady(cat, rec, jam, bin, rest, jams, bins, rows);
    }
  }

  lemma PickContinues(cat: Catalog, reg: RegState, store: StoreState, name: Name, current: Hash)
    requires Listed(reg, store)
    ensures var prev := PreviousArtifact(reg.history, name, current);
            prev.Some? ==> Ready(cat, RollbackProgram(name, prev.value), reg, store)
  {
    var prev := PreviousArtifact(reg.history, name, current);
    if prev.Some? {
      PreviousInHistory(reg.history, name, current);
      RollbackGrounded(cat, name, prev.value, store.jams.Keys, store.bins.Keys, reg.artifacts.Keys);
    }
  }

  lemma ContinueReady(cat: Catalog, env: Env, reg: RegState, store: StoreState, op: Op, rest: Program,
                      listing: seq<Name>)
    requires Ready(cat, [op] + rest, reg, store) && Listed(reg, store)
    ensures Ready(cat, Continue(env, reg, store, op, rest, listing), ApplyReg(reg, op), ApplyStore(store, op))
  {
    match op
    case PutFiles(rec, jam, bin) => PutContinues(cat, reg, store, rec, jam, bin, rest);
    case PickPrevious(name, current) => PickContinues(cat, reg, store, name, current);
    case ReadFleet(desired) => FreshListReady(cat, env, reg, store, op, rest, listing);
    case RequireManifest(_, _) => FreshListReady(cat, env, reg, store, op, rest, listing);
    case ReadForRollback(_) => FreshListReady(cat, env, reg, store, op, rest, listing);
    case AssessOp(rec, carried) =>
      GroundedAfter(cat, op, rest, reg, store);
      var p := Continue(env, reg, store, op, rest, listing);
      assert p[1..] == rest;
    case _ => GroundedAfter(cat, op, rest, reg, store);
  }

  /** The sets a straight-line operation leaves are at least those `Grounded` counted on. */
  lemma GroundedAfter(cat: Catalog, op: Op, rest: Program, reg: RegState, store: StoreState)
    requires Ready(cat, [op] + rest, reg, store)
    requires !op.PutFiles?
    ensures Ready(cat, rest, ApplyReg(reg, op), ApplyStore(store, op))
  {
    assert ([op] + rest)[1..] == rest;
    var jams, bins, rows := store.jams.Keys, store.bins.Keys, reg.artifacts.Keys;
    var jams', bins', rows' := ApplyStore(store, op).jams.Keys, ApplyStore(store, op).bins.Keys,
      ApplyReg(reg, op).artifacts.Keys;
    match op
    case WriteJam(h, _) => GroundedGrows(cat, rest, jams + {h}, bins, rows, jams', bins', rows');
    case WriteBin(h, _) => GroundedGrows(cat, rest, jams, bins + {h}, rows, jams', bins', rows');
    case PutRow(rec) => GroundedGrows(cat, rest, jams, bins, rows + {rec.artifact}, jams', bins', rows');
    case _ => GroundedGrows(cat, rest, jams, bins, rows, jams', bins', rows');
  }

  // ---------- one step ----------

  lemma TablesGrow(reg: RegState, store: StoreState, op: Op)
    ensures reg.artifacts.Keys <= ApplyReg(reg, op).artifacts.Keys
    ensures store.jams.Keys <= ApplyStore(store, op).jams.Keys
    ensures store.bins.Keys <= ApplyStore(store, op).bins.Keys
  {
  }

  lemma OpKeeps(cat: Catalog, reg: RegState, store: StoreState, op: Op, rest: Program)
    requires Stored(cat, store) && Listed(reg, store) && Ready(cat, [op] + rest, reg, store)
    ensures Stored(cat, ApplyStore(store, op))
    ensures Listed(ApplyReg(reg, op), ApplyStore(store, op))
  {
    assert ([op] + rest)[0] == op;
    TablesGrow(reg, store, op);
  }

  lemma TasksReady(cat: Catalog, env: Env, w: World, step: Step)
    requires DurableInv(cat, w) && Honest(cat, env, w, step) && Enabled(w, step)
    ensures forall k :: 0 <= k < |NextTasks(env, w, step)|
              ==> Ready(cat, NextTasks(env, w, step)[k], NextReg(w, step), NextStore(w, step))
  {
    var tasks' := NextTasks(env, w, step);
    forall k | 0 <= k < |tasks'| ensures Ready(cat, tasks'[k], NextReg(w, step), NextStore(w, step)) {
      if step.Submit? && k == |w.tasks| {
        RequestReady(cat, env, w, step);
      } else if step.Exec? {
        var op, rest := w.tasks[step.task][0], w.tasks[step.task][1..];
        assert Ready(cat, w.tasks[k], w.reg, w.store);
        if k == step.task {
          assert w.tasks[k] == [op] + rest;
          ContinueReady(cat, env, w.reg, w.store, op, rest, step.listing);
        } else {
          TablesGrow(w.reg, w.store, op);
          GroundedGrows(cat, w.tasks[k], w.store.jams.Keys, w.store.bins.Keys, w.reg.artifacts.Keys,
                        NextStore(w, step).jams.Keys, NextStore(w, step).bins.Keys, NextReg(w, step).artifacts.Keys);
        }
      } else {
        assert Ready(cat, w.tasks[k], w.reg, w.store);
      }
    }
  }

  lemma ReconcileOnKernel(cat: Catalog, c: Cell, row: Option<AppRow>, luck: Luck, kernel: Option<Bytes>, now: nat)
    requires CellInv(c, Up, now) && OnItsKernel(cat, c)
    requires row.Some? ==> MatchesJam(cat(row.value.artifact), kernel)
    ensures OnItsKernel(cat, ReconcileCell(c, row, now, luck, kernel))
  {
    ReapKeeps(c, now, luck.waitErr);
    var c1 := Reap(c, now, luck.waitErr);
    assert OnItsKernel(cat, c1);
    if row.Some? {
      DriveOnKernel(cat, c1, row.value, now, luck.spawn, kernel);
    }
  }

  lemma DriveOnKernel(cat: Catalog, c: Cell, row: AppRow, now: nat, spawn: Spawn, kernel: Option<Bytes>)
    requires CellInv(c, Up, now) && OnItsKernel(cat, c)
    requires MatchesJam(cat(row.artifact), kernel)
    ensures OnItsKernel(cat, Drive(c, row, now, spawn, kernel))
  {
  }

  /** The store answers the row's artifact with the kernel it was uploaded with, or with none if
      it had none. */
  lemma KernelOf(cat: Catalog, w: World, n: Name)
    requires Stored(cat, w.store) && Listed(w.reg, w.store) && n in w.reg.apps
    ensures MatchesJam(cat(w.reg.apps[n].artifact), Lookup(w.store.jams, w.reg.apps[n].artifact))
  {
    assert Backed(w.reg, w.store, w.reg.apps[n].artifact);
  }

  /** Nothing else touches a kernel, a launch or takes on a child. */
  lemma OthersOnKernel(cat: Catalog, c: Cell, a: Action, now: nat)
    requires OnItsKernel(cat, c) && !a.Reconciling?
    ensures OnItsKernel(cat, CellNext(c, a, now))
  {
    if EntryOf(CellNext(c, a, now)).child.Some? {
      var i := EntryOf(c).child.value;
      assert CellNext(c, a, now).instances[i].launch == c.instances[i].launch;
    }
  }

  lemma ActionOnKernel(cat: Catalog, c: Cell, a: Action, now: nat)
    requires OnItsKernel(cat, c)
    requires a.Reconciling? ==> CellInv(c, Up, now) && (a.row.Some? ==> MatchesJam(cat(a.row.value.artifact), a.kernel))
    ensures OnItsKernel(cat, CellNext(c, a, now))
  {
    hide ReconcileCell, OnItsKernel, CellInv;
    if a.Reconciling? {
      ReconcileOnKernel(cat, c, a.row, a.luck, a.kernel, now);
    } else {
      OthersOnKernel(cat, c, a, now);
    }
  }

  lemma OnKernelStep(cat: Catalog, w: World, step: Step, n: Name)
    requires WorldInv(w) && DurableInv(cat, w) && Enabled(w, step) && NextPhase(w, step).Up?
    ensures OnItsKernel(cat, NextCells(w, step)(n))
  {
    var c := w.cells(n);
    assert CellInv(c, w.phase, w.now);
    assert OnItsKernel(cat, c);
    hide CellNext, CellInv, OnItsKernel;
    if n in w.reg.apps { KernelOf(cat, w, n); }
    ActionOnKernel(cat, c, ActionOf(w, step, n), w.now);
  }

  lemma DurableKeeps(cat: Catalog, env: Env, w: World, step: Step)
    requires WorldInv(w) && DurableInv(cat, w) && Honest(cat, env, w, step)
    ensures DurableInv(cat, Next(env, w, step))
  {
    if Enabled(w, step) {
      var w' := Next(env, w, step);
      TasksReady(cat, env, w, step);
      if step.Exec? {
        assert Ready(cat, w.tasks[step.task], w.reg, w.store);
        assert w.tasks[step.task] == [w.tasks[step.task][0]] + w.tasks[step.task][1..];
        OpKeeps(cat, w.reg, w.store, w.tasks[step.task][0], w.tasks[step.task][1..]);
      }
      if w'.phase.Up? {
        forall n: Name ensures OnItsKernel(cat, w'.cells(n)) {
          OnKernelStep(cat, w, step, n);
        }
      }
    }
  }

  ghost predicate AllHonest(cat: Catalog, env: Env, w: World, steps: seq<Step>) {
    forall k :: 0 <= k < |steps| ==> Honest(cat, env, Run(env, w, steps[..k]), steps[k])
  }

  lemma {:induction false} RunDurable(cat: Catalog, env: Env, w: World, steps: seq<Step>)
    requires Init(w) && AllHonest(cat, env, w, steps)
    ensures DurableInv(cat, Run(env, w, steps))
  {
    if steps != [] {
      var front := steps[..|steps| - 1];
      assert forall k :: 0 <= k <= |front| ==> front[..k] == steps[..k];
      RunDurable(cat, env, w, front);
      RunKeeps(env, w, front);
      DurableKeeps(cat, env, Run(env, w, front), steps[|steps| - 1]);
    }
  }

  // ---------- uploads ----------

  /** The deploy a step submits, as hash and contents. */
  predicate Puts(env: Env, step: Step, h: Hash, contents: Contents) {
    && step.Submit? && step.request.Deploy?
    && var r := step.request.req;
       h == ComputeHashes(env, r.jam, r.bin, r.triple).artifact && contents == Contents(r.jam, r.bin)
  }

  /** Step `k` submitted a deploy of `contents` under `h` to a serving daemon. */
  ghost predicate UploadedAt(env: Env, w: World, steps: seq<Step>, k: nat, h: Hash, contents: Contents) {
    k < |steps| && Enabled(Run(env, w, steps[..k]), steps[k]) && Puts(env, steps[k], h, contents)
  }

  ghost predicate Uploaded(env: Env, w: World, steps: seq<Step>, h: Hash) {
    exists k: nat, x :: UploadedAt(env, w, steps, k, h, x)
  }

  /** All uploads of the run under `h` are the same. */
  ghost predicate Agree(env: Env, w: World, steps: seq<Step>, h: Hash) {
    forall i: nat, j: nat, a, b ::
      UploadedAt(env, w, steps, i, h, a) && UploadedAt(env, w, steps, j, h, b) ==> a == b
  }

  // ---------- nothing is stored but uploads ----------

  /** The operation writes only under known hashes. */
  predicate KnownOp(known: Hash -> bool, op: Op) {
    match op
    case PutFiles(rec, _, _) => known(rec.artifact)
    case WriteJam(h, _) => known(h)
    case WriteBin(h, _) => known(h)
    case _ => true
  }

  predicate KnownProgram(known: Hash -> bool, prog: Program) {
    forall j :: 0 <= j < |prog| ==> KnownOp(known, prog[j])
  }

  predicate KnownInv(known: Hash -> bool, w: World) {
    && (forall h :: h in w.store.bins ==> known(h))
    && (forall h :: h in w.store.jams ==> known(h))
    && forall k :: 0 <= k < |w.tasks| ==> KnownProgram(known, w.tasks[k])
  }

  ghost predicate KnownDeploy(known: Hash -> bool, env: Env, w: World, step: Step) {
    Enabled(w, step) && step.Submit? && step.request.Deploy? ==>
      known(ComputeHashes(env, step.request.req.jam, step.request.req.bin, step.request.req.triple).artifact)
  }

  lemma ContinueKnown(known: Hash -> bool, env: Env, w: World, op: Op, rest: Program, listing: seq<Name>)
    requires KnownOp(known, op) && KnownProgram(known, rest)
    ensures KnownProgram(known, Continue(env, w.reg, w.store, op, rest, listing))
  {
    if op.ReadFleet? { FleetOnlyDesires(w.reg.apps, listing, op.desired); }
  }

  lemma RestKnown(known: Hash -> bool, prog: Program)
    requires KnownProgram(known, prog) && prog != []
    ensures KnownOp(known, prog[0]) && KnownProgram(known, prog[1..])
  {
    forall j | 0 <= j < |prog[1..]| ensures KnownOp(known, prog[1..][j]) { assert prog[1..][j] == prog[j + 1]; }
  }

  lemma KnownStep(known: Hash -> bool, env: Env, w: World, step: Step)
    requires KnownInv(known, w) && KnownDeploy(known, env, w, step)
    ensures KnownInv(known, Next(env, w, step))
  {
    if Enabled(w, step) {
      if step.Exec? {
        hide KnownProgram, Continue;
        var prog := w.tasks[step.task];
        RestKnown(known, prog);
        ContinueKnown(known, env, w, prog[0], prog[1..], step.listing);
      } else if step.Submit? {
        hide KnownOp;
        RequestKnown(known, env, w, step);
      }
    }
  }

  lemma RequestKnown(known: Hash -> bool, env: Env, w: World, step: Step)
    requires KnownDeploy(known, env, w, step) && Enabled(w, step) && step.Submit?
    ensures KnownProgram(known, ProgramOf(env, step.request))
  {
  }

  lemma {:induction false} RunKnown(known: Hash -> bool, env: Env, w: World, steps: seq<Step>)
    requires Init(w)
    requires forall k :: 0 <= k < |steps| ==> KnownDeploy(known, env, Run(env, w, steps[..k]), steps[k])
    ensures KnownInv(known, Run(env, w, steps))
  {
    if steps != [] {
      var front := steps[..|steps| - 1];
      assert forall k :: 0 <= k <= |front| ==> front[..k] == steps[..k];
      RunKnown(known, env, w, front);
      KnownStep(known, env, Run(env, w, front), steps[|steps| - 1]);
    }
  }

  // ---------- what it means for every run ----------

  /** Every stored file was uploaded by some deploy. */
  lemma OnlyUploadsStored(env: Env, w: World, steps: seq<Step>, h: Hash)
    requires Init(w) && (h in Run(env, w, steps).store.bins || h in Run(env, w, steps).store.jams)
    ensures Uploaded(env, w, steps, h)
  {
    hide Run;
    var known := (g: Hash) => Uploaded(env, w, steps, g);
    forall k | 0 <= k < |steps| ensures KnownDeploy(known, env, Run(env, w, steps[..k]), steps[k]) {
      if Enabled(Run(env, w, steps[..k]), steps[k]) && steps[k].Submit? && steps[k].request.Deploy? {
        var r := steps[k].request.req;
        assert UploadedAt(env, w, steps, k, ComputeHashes(env, r.jam, r.bin, r.triple).artifact,
          Contents(r.jam, r.bin));
      }
    }
    RunKnown(known, env, w, steps);
  }

  /** At every point of every run each hash in an app row or in the deploy history has an artifact
      row and a stored binary, and whatever is stored was uploaded. */
  lemma {:induction false} NoDanglingArtifact(env: Env, w: World, steps: seq<Step>)
    requires Init(w)
    ensures var w' := Run(env, w, steps);
            && (forall n :: n in w'.reg.apps ==> Backed(w'.reg, w'.store, w'.reg.apps[n].artifact))
            && (forall k :: 0 <= k < |w'.reg.history| ==> Backed(w'.reg, w'.store, w'.reg.history[k].artifact))
            && (forall h :: h in w'.store.bins ==> Uploaded(env, w, steps, h))
  {
    hide Run;
    RunDurable(NothingFollowed, env, w, steps);
    forall h | h in Run(env, w, steps).store.bins ensures Uploaded(env, w, steps, h) {
      OnlyUploadsStored(env, w, steps, h);
    }
  }

  lemma AgreeHonest(env: Env, w: World, steps: seq<Step>, k: nat, h: Hash, x: Contents)
    requires Agree(env, w, steps, h) && UploadedAt(env, w, steps, k, h, x)
    ensures AllHonest(Following(h, x), env, w, steps)
  {
    hide Run;
    forall i | 0 <= i < |steps| ensures Honest(Following(h, x), env, Run(env, w, steps[..i]), steps[i]) {
      if Enabled(Run(env, w, steps[..i]), steps[i]) && steps[i].Submit? && steps[i].request.Deploy? {
        var r := steps[i].request.req;
        var g := ComputeHashes(env, r.jam, r.bin, r.triple).artifact;
        assert UploadedAt(env, w, steps, i, g, Contents(r.jam, r.bin));
      }
    }
  }

  /** The files under `h` are the uploaded ones. */
  predicate Keeps(store: StoreState, h: Hash, x: Contents) {
    Lookup(store.bins, h) == Some(x.bin) && Lookup(store.jams, h) == x.jam
  }

  /** In every run: the files under a stored hash are those of every upload under it exactly when
      those uploads agree. */
  lemma {:induction false} StoredAsUploadedIff(env: Env, w: World, steps: seq<Step>, h: Hash)
    requires Init(w) && h in Run(env, w, steps).store.bins
    ensures (forall k: nat, x :: UploadedAt(env, w, steps, k, h, x) ==> Keeps(Run(env, w, steps).store, h, x))
            <==> Agree(env, w, steps, h)
  {
    hide Run, UploadedAt;
    if Agree(env, w, steps, h) {
      forall k: nat, x | UploadedAt(env, w, steps, k, h, x) ensures Keeps(Run(env, w, steps).store, h, x) {
        AgreeHonest(env, w, steps, k, h, x);
        RunDurable(Following(h, x), env, w, steps);
      }
    }
  }

  /** The process an app holds runs on the kernel its own artifact was uploaded with, when the
      uploads of that artifact agree. */
  lemma {:induction false} RunsOnItsKernel(env: Env, w: World, steps: seq<Step>, n: Name, k: nat, h: Hash, x: Contents)
    requires Init(w) && Run(env, w, steps).phase.Up?
    requires EntryOf(Run(env, w, steps).cells(n)).child.Some?
    requires var c := Run(env, w, steps).cells(n);
             EntryOf(c).child.value < |c.instances| && c.instances[EntryOf(c).child.value].launch.artifact == h
    requires UploadedAt(env, w, steps, k, h, x) && x.jam.Some? && Agree(env, w, steps, h)
    ensures Run(env, w, steps).cells(n).staged == x.jam
  {
    hide Run;
    AgreeHonest(env, w, steps, k, h, x);
    RunDurable(Following(h, x), env, w, steps);
    assert OnItsKernel(Following(h, x), Run(env, w, steps).cells(n));
  }

  /** No step replaces the staged kernel under a live process. */
  lemma {:induction false} StagedOnlyWhenDead(env: Env, w: World, steps: seq<Step>, step: Step, n: Name, i: nat)
    requires Init(w)
    requires Next(env, Run(env, w, steps), step).cells(n).staged != Run(env, w, steps).cells(n).staged
    ensures !Alive(Run(env, w, steps).cells(n), i)
  {
    var w1 := Run(env, w, steps);
    var c := w1.cells(n);
    RunKeeps(env, w, steps);
    assert CellInv(c, w1.phase, w1.now);
    if Alive(c, i) {
      SingleWriter(env, w, steps, n, i, i);
      StagingStep(c, ActionOf(w1, step, n), w1.now, i);
    }
  }

  lemma StagingStep(c: Cell, a: Action, now: nat, i: nat)
    requires Alive(c, i)
    requires a.Reconciling? ==> EntryOf(c).child == Some(i)
    ensures CellNext(c, a, now).staged == c.staged
  {
    if a.Reconciling? {
      var c1 := Reap(c, now, a.luck.waitErr);
      assert c1.staged == c.staged && EntryOf(c1).child == Some(i);
    }
  }
}
