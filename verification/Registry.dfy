/** The registry: its tables, and every statement the daemon runs on them. */
module RegistryTables {
  import opened Prelude
  import opened Lifecycle
  import opened Attest
  import opened Control
  import opened EventTail
  import opened DeployHistory

  /** One app's share of the event table. */
  function LogOf(rows: seq<Row>, n: Name): seq<Event> {
    if rows == [] then []
    else
      var last := rows[|rows| - 1];
      LogOf(rows[..|rows| - 1], n) + if last.app == n then [Event(last.kind, last.at)] else []
  }

  lemma LogAppend(rows: seq<Row>, row: Row, n: Name)
    ensures LogOf(rows + [row], n) == LogOf(rows, n) + if row.app == n then [Event(row.kind, row.at)] else []
  {
    assert (rows + [row])[..|rows|] == rows;
  }

  class Registry {
    var apps: map<Name, AppRow>
    var artifacts: map<Hash, ArtifactRow>
    var history: seq<Deployed>
    var stamps: seq<nat>
    var trusted: set<Builder>
    var events: seq<Row>

    function Tables(): RegState
      reads this
    {
      RegState(apps, artifacts, history, trusted)
    }

    constructor ()
      ensures Tables() == RegState(map[], map[], [], {}) && stamps == [] && events == []
    {
      apps, artifacts, history, stamps, trusted, events := map[], map[], [], [], {}, [];
    }

    /** INSERT OR REPLACE INTO artifact. */
    method PutArtifact(rec: Record)
      modifies this`artifacts
      ensures Tables() == PutArtifactRow(old(Tables()), rec.artifact, rec.kernel)
    {
      artifacts := artifacts[rec.artifact := ArtifactRow(rec.kernel, None, None)];
    }

    method SetArtifactVerification(artifact: Hash, verdict: Verdict, builder: Option<Builder>)
      modifies this`artifacts
      ensures Tables() == SetVerification(old(Tables()), artifact, verdict, builder)
    {
      if artifact in artifacts {
        var row := artifacts[artifact];
        if !(row.verdict == Some(Verified) && verdict != Verified) {
          artifacts := artifacts[artifact := row.(verdict := Some(verdict), builder := builder)];
        }
      }
    }

    method UpsertApp(name: Name, artifact: Hash, config: Config, manifest: Option<string>)
      modifies this`apps
      ensures Tables() == Upsert(old(Tables()), name, artifact, config, manifest)
    {
      apps := apps[name := AppRow(artifact, config, WantRunning, manifest)];
    }

    method UpdateAppConfig(name: Name, config: Config) returns (found: bool)
      modifies this`apps
      ensures Tables() == UpdateConfig(old(Tables()), name, config)
      ensures found == (name in old(apps))
    {
      found := name in apps;
      if found {
        apps := apps[name := apps[name].(config := config)];
      }
    }

    method SetArtifact(name: Name, artifact: Hash) returns (found: bool)
      modifies this`apps
      ensures Tables() == SetAppArtifact(old(Tables()), name, artifact)
      ensures found == (name in old(apps))
    {
      found := name in apps;
      if found {
        apps := apps[name := apps[name].(artifact := artifact)];
      }
    }

    method SetDesiredStatus(name: Name, desired: Desired)
      modifies this`apps
      ensures Tables() == SetDesired(old(Tables()), name, desired)
    {
      if name in apps {
        apps := apps[name := apps[name].(desired := desired)];
      }
    }

    method AppendDeploy(name: Name, artifact: Hash, now: nat)
      modifies this`history, this`stamps
      ensures Tables() == RecordDeploy(old(Tables()), name, artifact) && stamps == old(stamps) + [now]
    {
      history := history + [Deployed(name, artifact)];
      stamps := stamps + [now];
    }

    /** One row for each artifact the app ever ran, latest first, at most `limit` rows. */
    method ListDeploys(name: Name, limit: nat) returns (out: seq<Shown>)
      requires |stamps| == |history|
      ensures IsListing(history, stamps, name, limit, if name in apps then Some(apps[name].artifact) else None, out)
    {
      var grouped := GroupByArtifact(history, stamps, name);
      var current := if name in apps then Some(apps[name].artifact) else None;
      out := NewestRows(grouped, limit, current);
      RowsList(history, stamps, name, limit, current, grouped, out);
    }

    /** Newest first, the first row of the app with another artifact. */
    method FindPrevious(name: Name, current: Hash) returns (prev: Option<Hash>)
      ensures prev == PreviousArtifact(history, name, current)
    {
      var i := |history|;
      assert history[..i] == history;
      while i > 0
        invariant 0 <= i <= |history|
        invariant PreviousArtifact(history, name, current) == PreviousArtifact(history[..i], name, current)
      {
        var row := history[i - 1];
        assert history[..i][..i - 1] == history[..i - 1];
        if row.app == name && row.artifact != current {
          return Some(row.artifact);
        }
        i := i - 1;
      }
      return None;
    }

    method AddTrustedBuilder(key: Builder)
      modifies this`trusted
      ensures Tables() == old(Tables()).(trusted := old(trusted) + {key})
    {
      trusted := trusted + {key};
    }

    method RemoveTrustedBuilder(key: Builder)
      modifies this`trusted
      ensures Tables() == old(Tables()).(trusted := old(trusted) - {key})
    {
      trusted := trusted - {key};
    }

    /** The next AUTOINCREMENT id; rows are never deleted. */
    function NextId(): int
      reads this
    {
      if events == [] then 1 else events[|events| - 1].id + 1
    }

    method AddEvent(name: Name, kind: Kind, now: nat)
      modifies this`events
      ensures events == old(events) + [Row(old(NextId()), now, name, kind)]
      ensures old(Increasing(events)) ==> Increasing(events)
      ensures old(Positive(events)) ==> Positive(events)
      ensures forall n :: LogOf(events, n) == old(LogOf(events, n)) + if n == name then [Event(kind, now)] else []
    {
      ghost var before := events;
      events := events + [Row(NextId(), now, name, kind)];
      forall n ensures LogOf(events, n) == LogOf(before, n) + if n == name then [Event(kind, now)] else [] {
        LogAppend(before, events[|before|], n);
      }
    }

    /** Rows with an id greater than `after`, oldest first, at most `limit` of them. */
    method ListEventsSince(after: int, limit: nat) returns (out: seq<Row>)
      ensures out == EventsSince(events, after, limit)
    {
      out := [];
      for i := 0 to |events|
        invariant out == Take(After(events[..i], after), limit)
      {
        assert events[..i + 1][..i] == events[..i];
        if events[i].id > after && |out| < limit {
          out := out + [events[i]];
        }
      }
      assert events[..|events|] == events;
    }
  }
}
