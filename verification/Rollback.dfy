/** Deploy history and rollback, with handlers served whole. */
module RollbackLaws {
  import opened Prelude
  import opened Lifecycle
  import opened Attest
  import opened Control
  import opened Atomic

  /** The artifact of the newest history entry of `name`. */
  function Newest(history: seq<Deployed>, name: Name): Option<Hash> {
    if history == [] then None
    else if history[|history| - 1].app == name then Some(history[|history| - 1].artifact)
    else Newest(history[..|history| - 1], name)
  }

  /** The newest entry of one app is what it runs; an app that is not there has no entry. */
  predicate CurrentFor(reg: RegState, n: Name) {
    Newest(reg.history, n) == if n in reg.apps then Some(reg.apps[n].artifact) else None
  }

  /** So it is for every app. */
  ghost predicate HistoryCurrent(reg: RegState) {
    && (forall n :: n in reg.apps ==> Newest(reg.history, n) == Some(reg.apps[n].artifact))
    && (forall n :: n !in reg.apps ==> Newest(reg.history, n) == None)
  }

  function Target(reg: RegState, name: Name): Option<Hash>
    requires name in reg.apps
  {
    PreviousArtifact(reg.history, name, reg.apps[name].artifact)
  }

  lemma NewestAppend(history: seq<Deployed>, d: Deployed, n: Name)
    ensures Newest(history + [d], n) == if d.app == n then Some(d.artifact) else Newest(history, n)
  {
    assert (history + [d])[..|history|] == history;
  }

  lemma PreviousAppend(history: seq<Deployed>, d: Deployed, n: Name, current: Hash)
    ensures PreviousArtifact(history + [d], n, current)
            == if d.app == n && d.artifact != current then Some(d.artifact) else PreviousArtifact(history, n, current)
  {
    assert (history + [d])[..|history|] == history;
  }

  /** `PreviousArtifact` answers the newest entry that differs, or that none does. */
  lemma {:induction false} PreviousIsNewestOther(history: seq<Deployed>, n: Name, current: Hash)
    ensures match PreviousArtifact(history, n, current)
            case None => forall k :: 0 <= k < |history| && history[k].app == n ==> history[k].artifact == current
            case Some(prev) =>
              && prev != current
              && exists k :: 0 <= k < |history| && history[k] == Deployed(n, prev)
                             && forall j :: k < j < |history| && history[j].app == n ==> history[j].artifact == current
  {
    if history != [] {
      var front, last := history[..|history| - 1], history[|history| - 1];
      if last.app == n && last.artifact != current {
        assert history[|history| - 1] == Deployed(n, last.artifact);
      } else {
        PreviousIsNewestOther(front, n, current);
        if PreviousArtifact(front, n, current).Some? {
          var prev := PreviousArtifact(front, n, current).value;
          var k :| 0 <= k < |front| && front[k] == Deployed(n, prev)
                   && forall j :: k < j < |front| && front[j].app == n ==> front[j].artifact == current;
          StillNewest(front, last, n, current, prev, k);
          assert history == front + [last];
        }
      }
    }
  }

  lemma StillNewest(front: seq<Deployed>, last: Deployed, n: Name, current: Hash, prev: Hash, k: nat)
    requires k < |front| && front[k] == Deployed(n, prev)
    requires forall j :: k < j < |front| && front[j].app == n ==> front[j].artifact == current
    requires last.app == n ==> last.artifact == current
    ensures var history := front + [last];
            exists k :: 0 <= k < |history| && history[k] == Deployed(n, prev)
                        && forall j :: k < j < |history| && history[j].app == n ==> history[j].artifact == current
  {
    assert (front + [last])[k] == Deployed(n, prev);
  }

  lemma {:induction false} NewestIsThere(history: seq<Deployed>, n: Name)
    ensures match Newest(history, n)
            case None => forall k :: 0 <= k < |history| ==> history[k].app != n
            case Some(a) => exists k :: 0 <= k < |history| && history[k] == Deployed(n, a)
  {
    if history != [] && history[|history| - 1].app == n {
      assert history[|history| - 1] == Deployed(n, history[|history| - 1].artifact);
    } else if history != [] {
      var front := history[..|history| - 1];
      NewestIsThere(front, n);
      if Newest(front, n).Some? {
        var k :| 0 <= k < |front| && front[k] == Deployed(n, Newest(front, n).value);
        assert history[k] == front[k];
      }
    }
  }

  // ---------- every whole handler keeps history current ----------

  lemma DeployKeepsCurrent(env: Env, reg: RegState, r: DeployRequest)
    requires HistoryCurrent(reg)
    ensures HistoryCurrent(DeployReg(env, reg, r))
  {
    var h := ComputeHashes(env, r.jam, r.bin, r.triple).artifact;
    var reg' := DeployReg(env, reg, r);
    if r.iconOk {
      forall n: Name ensures n in reg'.apps ==> Newest(reg'.history, n) == Some(reg'.apps[n].artifact)
                     ensures n !in reg'.apps ==> Newest(reg'.history, n) == None
      {
        NewestAppend(reg.history, Deployed(r.name, h), n);
      }
    }
  }

  lemma RollbackKeepsCurrent(reg: RegState, name: Name)
    requires HistoryCurrent(reg)
    ensures HistoryCurrent(RollbackReg(reg, name))
  {
    if name in reg.apps && Target(reg, name).Some? {
      var prev := Target(reg, name).value;
      var reg' := RollbackReg(reg, name);
      forall n: Name ensures n in reg'.apps ==> Newest(reg'.history, n) == Some(reg'.apps[n].artifact)
                     ensures n !in reg'.apps ==> Newest(reg'.history, n) == None
      {
        NewestAppend(reg.history, Deployed(name, prev), n);
      }
    }
  }

  lemma {:induction false} ServedHistoryCurrent(env: Env, t: Tables, calls: seq<Call>)
    requires HistoryCurrent(t.reg)
    ensures HistoryCurrent(ServeAll(env, t, calls).reg)
  {
    if calls != [] {
      var front, last := calls[..|calls| - 1], calls[|calls| - 1];
      ServedHistoryCurrent(env, t, front);
      var before := ServeAll(env, t, front);
      match last.request
      case Deploy(r) => DeployServed(env, before, r, last.listing); DeployKeepsCurrent(env, before.reg, r);
      case Rollback(name) => RollbackServed(env, before, name, last.listing); RollbackKeepsCurrent(before.reg, name);
      case _ => OthersServed(env, before, last.request, last.listing);
    }
  }

  // ---------- rollback ----------

  /** Rollback has somewhere to go exactly when the app has run two distinct artifacts. */
  lemma RollbackIffTwoArtifacts(reg: RegState, name: Name)
    requires HistoryCurrent(reg) && name in reg.apps
    ensures Target(reg, name).Some? <==>
            exists j, k :: 0 <= j < |reg.history| && 0 <= k < |reg.history| && reg.history[j].app == name
                           && reg.history[k].app == name && reg.history[j].artifact != reg.history[k].artifact
  {
    var current := reg.apps[name].artifact;
    PreviousIsNewestOther(reg.history, name, current);
    NewestIsThere(reg.history, name);
    if Target(reg, name).Some? {
      var j :| 0 <= j < |reg.history| && reg.history[j] == Deployed(name, current);
      var k :| 0 <= k < |reg.history| && reg.history[k] == Deployed(name, Target(reg, name).value);
      assert reg.history[j].artifact != reg.history[k].artifact;
    }
  }

  /** The entry just before the newest run of `current` entries is `current` itself when the
      newest entry is: appending another artifact makes `current` the next target. */
  lemma {:induction false} NewestIsPrevious(history: seq<Deployed>, n: Name, other: Hash)
    requires Newest(history, n).Some? && Newest(history, n).value != other
    ensures PreviousArtifact(history, n, other) == Newest(history, n)
  {
    if history[|history| - 1].app != n {
      NewestIsPrevious(history[..|history| - 1], n, other);
    }
  }

  lemma RollbackSwaps(reg: RegState, name: Name)
    requires HistoryCurrent(reg) && name in reg.apps && Target(reg, name).Some?
    ensures var reg' := RollbackReg(reg, name);
            && HistoryCurrent(reg') && name in reg'.apps
            && reg'.apps[name].artifact == Target(reg, name).value
            && Target(reg', name) == Some(reg.apps[name].artifact)
            && reg'.apps[name].config == reg.apps[name].config
            && reg'.apps[name].desired.WantRunning?
            && reg'.apps[name].manifest == reg.apps[name].manifest
            && reg'.apps.Keys == reg.apps.Keys
            && (forall n :: n in reg.apps && n != name ==> reg'.apps[n] == reg.apps[n])
            && reg'.history == reg.history + [Deployed(name, Target(reg, name).value)]
            && reg'.artifacts == reg.artifacts && reg'.trusted == reg.trusted
  {
    var current, prev := reg.apps[name].artifact, Target(reg, name).value;
    PreviousIsNewestOther(reg.history, name, current);
    RollbackKeepsCurrent(reg, name);
    NewestIsPrevious(reg.history, name, prev);
    PreviousAppend(reg.history, Deployed(name, prev), name, prev);
  }

  lemma RollbackServesSwap(env: Env, t: Tables, name: Name, listing: seq<Name>)
    requires HistoryCurrent(t.reg) && name in t.reg.apps && Target(t.reg, name).Some?
    ensures var reg' := Serve(env, t, Rollback(name), listing).reg;
            && HistoryCurrent(reg') && name in reg'.apps
            && reg'.apps[name].artifact == Target(t.reg, name).value
            && Target(reg', name) == Some(t.reg.apps[name].artifact)
            && reg'.apps[name].config == t.reg.apps[name].config
  {
    RollbackServed(env, t, name, listing);
    RollbackSwaps(t.reg, name);
  }

  function RollbackTimes(env: Env, t: Tables, name: Name, listing: seq<Name>, n: nat): Tables {
    if n == 0 then t
    else Serve(env, RollbackTimes(env, t, name, listing, n - 1), Rollback(name), listing)
  }

  /** Consecutive rollbacks toggle: an even number brings back the original artifact, an odd
      number the previous one, and the other of the two is always the next target. */
  lemma {:induction false} RollbackToggles(env: Env, t: Tables, name: Name, listing: seq<Name>, n: nat)
    requires HistoryCurrent(t.reg) && name in t.reg.apps && Target(t.reg, name).Some?
    ensures var reg' := RollbackTimes(env, t, name, listing, n).reg;
            var original, previous := t.reg.apps[name].artifact, Target(t.reg, name).value;
            && HistoryCurrent(reg') && name in reg'.apps
            && reg'.apps[name].artifact == (if n % 2 == 0 then original else previous)
            && Target(reg', name) == Some(if n % 2 == 0 then previous else original)
            && reg'.apps[name].config == t.reg.apps[name].config
  {
    if n > 0 {
      RollbackToggles(env, t, name, listing, n - 1);
      RollbackServesSwap(env, RollbackTimes(env, t, name, listing, n - 1), name, listing);
    }
  }

  /** Deploying the bytes already running does not move the rollback target. */
  lemma RedeployKeepsTarget(env: Env, t: Tables, r: DeployRequest, listing: seq<Name>)
    requires r.name in t.reg.apps
    requires ComputeHashes(env, r.jam, r.bin, r.triple).artifact == t.reg.apps[r.name].artifact
    ensures var reg' := Serve(env, t, Deploy(r), listing).reg;
            r.name in reg'.apps && Target(reg', r.name) == Target(t.reg, r.name)
  {
    DeployServed(env, t, r, listing);
    PreviousAppend(t.reg.history, Deployed(r.name, t.reg.apps[r.name].artifact), r.name, t.reg.apps[r.name].artifact);
  }

  /** A refused rollback (409) changes nothing. */
  lemma RefusedRollback(env: Env, t: Tables, name: Name, listing: seq<Name>)
    requires name in t.reg.apps ==> Target(t.reg, name).None?
    ensures Serve(env, t, Rollback(name), listing).reg == t.reg
  {
    RollbackServed(env, t, name, listing);
  }

  /** An entry leaves the history current exactly when it is for the artifact the app runs. */
  lemma RecordCurrentIff(reg: RegState, n: Name, h: Hash)
    ensures CurrentFor(RecordDeploy(reg, n, h), n) <==> n in reg.apps && reg.apps[n].artifact == h
  {
    NewestAppend(reg.history, Deployed(n, h), n);
  }
}
