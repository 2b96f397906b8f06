/** Two uploads of the same concatenation: a run in which the second replaces the bytes of the
    first. */
module BoundaryRun {
  import opened Prelude
  import opened Lifecycle
  import opened CellInvariant
  import opened Control
  import opened ContentStore
  import opened World
  import opened Atomic
  import opened WholeHandlers
  import opened Stages
  import opened Durability

  /** The second deploy moves `kernel` out of the binary of the first. */
  predicate MovesBoundary(r1: DeployRequest, r2: DeployRequest, kernel: Bytes) {
    && kernel != [] && r1.triple == r2.triple
    && r1.jam == None && r1.bin == kernel + r2.bin && r2.jam == Some(kernel)
  }

  lemma SameHash(env: Env, r1: DeployRequest, r2: DeployRequest, kernel: Bytes)
    requires MovesBoundary(r1, r2, kernel)
    ensures RecordOf(env, r1).artifact == RecordOf(env, r2).artifact && r1.bin != r2.bin
  {
    assert JamBytes(None) + (kernel + r2.bin) + r1.triple == JamBytes(Some(kernel)) + r2.bin + r1.triple;
    assert |r1.bin| != |r2.bin|;
  }

  /** `n` is to run `h`, uploaded as `x` at step `k`; stored under `h` is the binary `bin`. */
  ghost predicate Overwritten(env: Env, w: World, steps: seq<Step>, k: nat, n: Name, h: Hash, x: Contents, bin: Bytes) {
    var w' := Run(env, w, steps);
    && UploadedAt(env, w, steps, k, h, x)
    && n in w'.reg.apps && w'.reg.apps[n].artifact == h
    && Lookup(w'.store.bins, h) == Some(bin)
  }

  /** From a fresh data root and under any hash: two deploys served whole, one after the other, of
      two apps, leave the first app on a hash whose binary is not the one it was deployed with. */
  lemma BoundaryOverwritesInRun(env: Env, w: World, r1: DeployRequest, r2: DeployRequest, kernel: Bytes)
    requires Init(w) && r1.name != r2.name && r1.iconOk && r2.iconOk && MovesBoundary(r1, r2, kernel)
    ensures r2.bin != r1.bin
    ensures exists steps, k: nat ::
              Overwritten(env, w, steps, k, r1.name, RecordOf(env, r1).artifact, Contents(None, r1.bin), r2.bin)
  {
    hide Run, Overwritten;
    SameHash(env, r1, r2, kernel);
    var boot := [Boot(None), Sweep({}, 0, Listing({}))];
    var w1 := BootedWorld(env, w, None);
    var more := BothDeploys(env, w1, r1, r2, kernel);
    RunAppend(env, w, boot, more);
    Shifted(env, w, boot, more, r1, r2.bin);
    var h, x := RecordOf(env, r1).artifact, Contents(None, r1.bin);
    assert Overwritten(env, w, boot + more, |boot|, r1.name, h, x, r2.bin);
  }

  lemma Shifted(env: Env, w: World, boot: seq<Step>, more: seq<Step>, r: DeployRequest, bin: Bytes)
    requires Run(env, w, boot + more) == Run(env, Run(env, w, boot), more) && Run(env, w, boot).phase.Up?
    requires more != [] && more[0] == Submit(Deploy(r)) && r.jam == None
    requires var w' := Run(env, Run(env, w, boot), more);
             && r.name in w'.reg.apps && w'.reg.apps[r.name].artifact == RecordOf(env, r).artifact
             && Lookup(w'.store.bins, RecordOf(env, r).artifact) == Some(bin)
    ensures Overwritten(env, w, boot + more, |boot|, r.name, RecordOf(env, r).artifact, Contents(None, r.bin), bin)
  {
    hide Run;
    assert (boot + more)[..|boot|] == boot && (boot + more)[|boot|] == more[0];
  }

  lemma BothDeploys(env: Env, w: World, r1: DeployRequest, r2: DeployRequest, kernel: Bytes) returns (steps: seq<Step>)
    requires w.phase.Up? && w.store == StoreState(map[], map[])
    requires r1.name != r2.name && r1.iconOk && r2.iconOk && MovesBoundary(r1, r2, kernel)
    ensures steps != [] && steps[0] == Submit(Deploy(r1))
    ensures var w' := Run(env, w, steps);
            && r1.name in w'.reg.apps && w'.reg.apps[r1.name].artifact == RecordOf(env, r1).artifact
            && Lookup(w'.store.bins, RecordOf(env, r1).artifact) == Some(r2.bin)
  {
    hide Run, ServedTables;
    var luck := (x: Name) => Luck(false, SpawnOk);
    var e1, w1 := DeployWhole(env, w, r1, luck);
    var e2, w2 := DeployWhole(env, w1, r2, luck);
    RunAppend(env, w, e1, e2);
    SecondReplaces(env, TablesOf(w), r1, r2, kernel);
    steps := e1 + e2;
  }

  lemma SecondReplaces(env: Env, t: Tables, r1: DeployRequest, r2: DeployRequest, kernel: Bytes)
    requires t.store == StoreState(map[], map[])
    requires r1.name != r2.name && r1.iconOk && r2.iconOk && MovesBoundary(r1, r2, kernel)
    ensures var t' := ServedTables(env, ServedTables(env, t, Deploy(r1)), Deploy(r2));
            && r1.name in t'.reg.apps && t'.reg.apps[r1.name].artifact == RecordOf(env, r1).artifact
            && Lookup(t'.store.bins, RecordOf(env, r1).artifact) == Some(r2.bin)
  {
    SameHash(env, r1, r2, kernel);
  }
}
