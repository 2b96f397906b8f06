/** What the handlers that are not rollbacks change, leave alone and undo. */
module HandlerLaws {
  import opened Prelude
  import opened Lifecycle
  import opened Attest
  import opened Control
  import opened Atomic
  import opened ContentStore

  ghost predicate OthersUntouched(a: RegState, b: RegState, name: Name) {
    forall n :: n != name ==> Lookup(a.apps, n) == Lookup(b.apps, n)
  }

  /** The artifact row a deploy leaves: its kernel, this deploy's verdict and its builder. */
  function JudgedRow(env: Env, reg: RegState, r: DeployRequest): ArtifactRow {
    var rec := ComputeHashes(env, r.jam, r.bin, r.triple);
    var v := AssessCarried(env.valid, r.carried, rec.artifact, rec.kernel, reg.trusted);
    ArtifactRow(rec.kernel, Some(v.0), v.1)
  }

  /** An accepted deploy makes the app want to run exactly what was uploaded, with exactly the
      configuration sent, appends one history entry and touches no other app. */
  lemma DeployInstalls(env: Env, t: Tables, r: DeployRequest, listing: seq<Name>)
    requires r.iconOk
    ensures var t' := Serve(env, t, Deploy(r), listing);
            var rec := ComputeHashes(env, r.jam, r.bin, r.triple);
            && Lookup(t'.reg.apps, r.name) == Some(AppRow(rec.artifact, r.config, WantRunning, r.manifest))
            && OthersUntouched(t.reg, t'.reg, r.name)
            && t'.reg.history == t.reg.history + [Deployed(r.name, rec.artifact)]
            && Lookup(t'.reg.artifacts, rec.artifact) == Some(JudgedRow(env, t.reg, r))
            && t'.reg.trusted == t.reg.trusted
            && rec.artifact in t'.store.bins && (r.jam.Some? ==> rec.artifact in t'.store.jams)
  {
    DeployServed(env, t, r, listing);
  }

  /** A deploy refused for its icon changes no app and no history, though the bytes and the
      artifact row with its verdict are there by then. */
  lemma RefusedDeploy(env: Env, t: Tables, r: DeployRequest, listing: seq<Name>)
    requires !r.iconOk
    ensures var t' := Serve(env, t, Deploy(r), listing);
            var rec := ComputeHashes(env, r.jam, r.bin, r.triple);
            && t'.reg.apps == t.reg.apps && t'.reg.history == t.reg.history && t'.reg.trusted == t.reg.trusted
            && Lookup(t'.reg.artifacts, rec.artifact) == Some(JudgedRow(env, t.reg, r))
            && rec.artifact in t'.store.bins
  {
    DeployServed(env, t, r, listing);
  }

  /** A deploy, accepted or refused for its icon, leaves an artifact row with its kernel hash, a
      verdict that says exactly what the attestation was worth, and whoever signed it. */
  lemma ServedVerdict(env: Env, t: Tables, r: DeployRequest, listing: seq<Name>)
    ensures var rec := ComputeHashes(env, r.jam, r.bin, r.triple);
            var row := Lookup(Serve(env, t, Deploy(r), listing).reg.artifacts, rec.artifact);
            && row.Some? && row.value.kernel == rec.kernel && row.value.verdict.Some?
            && (row.value.verdict.value.Verified? <==>
                  Evidence(env.valid, r.carried, rec.artifact, rec.kernel, t.reg.trusted))
            && (row.value.verdict.value.Drift? <==> Tampered(env.valid, r.carried, rec.artifact, rec.kernel))
            && (row.value.verdict.value.Unverified? <==>
                  Untrusted(env.valid, r.carried, rec.artifact, rec.kernel, t.reg.trusted))
            && SignedBy(env.valid, r.carried, row.value.builder)
  {
    DeployServed(env, t, r, listing);
    var rec := ComputeHashes(env, r.jam, r.bin, r.triple);
    VerdictTable(env.valid, r.carried, rec.artifact, rec.kernel, t.reg.trusted);
  }

  /** Nothing but the row of `name` differs, and that is `row` now. */
  predicate OnlyRow(t: Tables, t': Tables, name: Name, row: AppRow) {
    && t'.reg.apps == t.reg.apps[name := row]
    && t'.reg.artifacts == t.reg.artifacts && t'.reg.history == t.reg.history && t'.reg.trusted == t.reg.trusted
    && t'.store == t.store
  }

  /** The row as it was, but for whether the app should run. */
  function Wanting(row: AppRow, desired: Desired): AppRow {
    AppRow(row.artifact, row.config, desired, row.manifest)
  }

  /** A restart and a start make the app want to run, a stop makes it want to stop, and nothing else
      changes in any table; an app that is not there changes nothing. */
  lemma RestartWantsRunning(env: Env, t: Tables, name: Name, listing: seq<Name>)
    ensures var t' := Serve(env, t, Restart(name), listing);
            if name in t.reg.apps then OnlyRow(t, t', name, Wanting(t.reg.apps[name], WantRunning)) else t' == t
  {
    ServedClosed(env, t, Restart(name), listing);
  }

  lemma StopWantsStopped(env: Env, t: Tables, name: Name, listing: seq<Name>)
    ensures var t' := Serve(env, t, StopApp(name), listing);
            if name in t.reg.apps then OnlyRow(t, t', name, Wanting(t.reg.apps[name], WantStopped)) else t' == t
  {
    ServedClosed(env, t, StopApp(name), listing);
  }

  lemma StartWantsRunning(env: Env, t: Tables, name: Name, listing: seq<Name>)
    ensures var t' := Serve(env, t, StartApp(name), listing);
            if name in t.reg.apps then OnlyRow(t, t', name, Wanting(t.reg.apps[name], WantRunning)) else t' == t
  {
    ServedClosed(env, t, StartApp(name), listing);
  }

  /** Nothing but the trusted keys differs. */
  predicate OnlyTrust(t: Tables, t': Tables) {
    && t'.reg.apps == t.reg.apps && t'.reg.artifacts == t.reg.artifacts && t'.reg.history == t.reg.history
    && t'.store == t.store
  }

  /** After a key is removed it is not trusted, after it is added it is; every other key keeps its
      standing. */
  lemma RemovedIsUntrusted(env: Env, t: Tables, key: Builder, listing: seq<Name>)
    ensures var t' := Serve(env, t, TrustRemove(key), listing);
            && OnlyTrust(t, t') && key !in t'.reg.trusted
            && forall k: Builder :: k != key ==> (k in t'.reg.trusted <==> k in t.reg.trusted)
  {
    ServedClosed(env, t, TrustRemove(key), listing);
  }

  lemma AddedIsTrusted(env: Env, t: Tables, key: Builder, listing: seq<Name>)
    ensures var t' := Serve(env, t, TrustAdd(key), listing);
            && OnlyTrust(t, t') && key in t'.reg.trusted
            && forall k: Builder :: k != key ==> (k in t'.reg.trusted <==> k in t.reg.trusted)
  {
    ServedClosed(env, t, TrustAdd(key), listing);
  }

  /** A reload takes the manifest's configuration and keeps the artifact; it is refused when the
      app has no manifest or it cannot be read. */
  lemma ReloadKeepsArtifact(env: Env, t: Tables, name: Name, read: Option<Config>, listing: seq<Name>)
    requires name in t.reg.apps
    ensures var t' := Serve(env, t, Reload(name, read), listing);
            && name in t'.reg.apps && t'.reg.apps[name].artifact == t.reg.apps[name].artifact
            && t'.reg.apps[name].manifest == t.reg.apps[name].manifest
            && t'.reg.history == t.reg.history && OthersUntouched(t.reg, t'.reg, name)
            && if t.reg.apps[name].manifest.Some? && read.Some? then
                 t'.reg.apps[name].config == read.value && t'.reg.apps[name].desired.WantRunning?
               else t'.reg == t.reg
  {
    ReloadServed(env, t, name, read, listing);
  }

  /** Start undoes stop exactly when the app was meant to run before, or does not exist. */
  lemma StartUndoesStopIff(env: Env, t: Tables, name: Name, listing: seq<Name>)
    ensures Serve(env, Serve(env, t, StopApp(name), listing), StartApp(name), listing) == t
            <==> (name in t.reg.apps ==> t.reg.apps[name].desired.WantRunning?)
  {
    ServedClosed(env, t, StopApp(name), listing);
    var t1 := Serve(env, t, StopApp(name), listing);
    ServedClosed(env, t1, StartApp(name), listing);
    if name in t.reg.apps {
      var row := t.reg.apps[name];
      var apps := Serve(env, t1, StartApp(name), listing).reg.apps;
      assert apps == t.reg.apps[name := row.(desired := WantRunning)];
      if row.desired.WantRunning? {
        assert apps == t.reg.apps;
      } else {
        assert apps[name] != t.reg.apps[name];
      }
    }
  }

  /** The fleet request is the single request made of every app. */
  lemma FleetIsEachApp(env: Env, t: Tables, desired: Desired, listing: seq<Name>, n: Name)
    requires forall x :: x in t.reg.apps ==> x in listing
    requires n in t.reg.apps
    ensures var one := if desired.WantStopped? then StopApp(n) else StartApp(n);
            var fleet := Serve(env, t, FleetSet(desired), listing);
            && fleet.reg.apps.Keys == t.reg.apps.Keys && fleet.store == t.store
            && fleet.reg.artifacts == t.reg.artifacts && fleet.reg.history == t.reg.history
            && Lookup(fleet.reg.apps, n) == Lookup(Serve(env, t, one, listing).reg.apps, n)
  {
    FleetServed(env, t, desired, listing);
    ServedClosed(env, t, if desired.WantStopped? then StopApp(n) else StartApp(n), listing);
  }

  /** The last fleet request wins. */
  lemma LastFleetWins(env: Env, t: Tables, first: Desired, second: Desired, listing: seq<Name>)
    requires forall x :: x in t.reg.apps ==> x in listing
    ensures Serve(env, Serve(env, t, FleetSet(first), listing), FleetSet(second), listing)
            == Serve(env, t, FleetSet(second), listing)
  {
    FleetServed(env, t, first, listing);
    FleetServed(env, t, second, listing);
    var t1 := Serve(env, t, FleetSet(first), listing);
    FleetServed(env, t1, second, listing);
    assert AllDesired(t1.reg, second).apps == AllDesired(t.reg, second).apps;
  }
}
