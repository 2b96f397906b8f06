/** The deploy history as it is listed: grouped by artifact, latest first. */
module DeployHistory {
  import opened Prelude
  import opened Lifecycle
  import opened Control

  datatype Shown = Shown(artifact: Hash, at: nat, current: bool)

  /** When the app last came to run the artifact: MAX(deployed_at) of the group. */
  function LastAt(history: seq<Deployed>, stamps: seq<nat>, name: Name, artifact: Hash): Option<nat>
    requires |stamps| == |history|
  {
    if history == [] then None
    else
      var k := |history| - 1;
      var before := LastAt(history[..k], stamps[..k], name, artifact);
      if history[k] != Deployed(name, artifact) then before
      else Some(if before.Some? && before.value > stamps[k] then before.value else stamps[k])
  }

  /** `out` shows every group once, latest first, as far as the limit goes. */
  ghost predicate IsListing(history: seq<Deployed>, stamps: seq<nat>, name: Name, limit: nat, current: Option<Hash>,
                            out: seq<Shown>)
    requires |stamps| == |history|
  {
    && |out| <= limit
    && (forall i :: 0 <= i < |out| ==>
          && LastAt(history, stamps, name, out[i].artifact) == Some(out[i].at)
          && out[i].current == (current == Some(out[i].artifact)))
    && (forall i, j :: 0 <= i < j < |out| ==> out[i].artifact != out[j].artifact && out[i].at >= out[j].at)
    && (forall h :: LastAt(history, stamps, name, h).Some? && (forall i :: 0 <= i < |out| ==> out[i].artifact != h) ==>
          |out| == limit && forall i :: 0 <= i < |out| ==> out[i].at >= LastAt(history, stamps, name, h).value)
  }

  /** Each row tells when its group was last deployed and whether it is current. */
  predicate Rows(grouped: map<Hash, nat>, current: Option<Hash>, out: seq<Shown>) {
    forall i :: 0 <= i < |out| ==>
      Lookup(grouped, out[i].artifact) == Some(out[i].at) && out[i].current == (current == Some(out[i].artifact))
  }

  predicate Descending(out: seq<Shown>) {
    forall i, j :: 0 <= i < j < |out| ==> out[i].artifact != out[j].artifact && out[i].at >= out[j].at
  }

  predicate Shows(out: seq<Shown>, h: Hash) { exists i :: 0 <= i < |out| && out[i].artifact == h }

  /** What is not shown is no later than anything shown, and there was no room for it. */
  predicate Complete(grouped: map<Hash, nat>, limit: nat, out: seq<Shown>) {
    forall h :: h in grouped && !Shows(out, h) ==> |out| == limit && forall i :: 0 <= i < |out| ==>
      out[i].at >= grouped[h]
  }

  /** `out` lists the groups, latest first, as far as the limit goes. */
  predicate RowsOf(grouped: map<Hash, nat>, limit: nat, current: Option<Hash>, out: seq<Shown>) {
    |out| <= limit && Rows(grouped, current, out) && Descending(out) && Complete(grouped, limit, out)
  }

  method GroupByArtifact(history: seq<Deployed>, stamps: seq<nat>, name: Name) returns (grouped: map<Hash, nat>)
    requires |stamps| == |history|
    ensures forall h :: Lookup(grouped, h) == LastAt(history, stamps, name, h)
  {
    grouped := map[];
    for k := 0 to |history|
      invariant forall h :: Lookup(grouped, h) == LastAt(history[..k], stamps[..k], name, h)
    {
      assert history[..k + 1][..k] == history[..k] && stamps[..k + 1][..k] == stamps[..k];
      var row := history[k];
      if row.app == name && !(row.artifact in grouped && grouped[row.artifact] > stamps[k]) {
        grouped := grouped[row.artifact := stamps[k]];
      }
    }
    assert history[..|history|] == history && stamps[..|stamps|] == stamps;
  }

  method Latest(grouped: map<Hash, nat>, left: set<Hash>) returns (best: Hash)
    requires left != {} && left <= grouped.Keys
    ensures best in left && forall h :: h in left ==> grouped[h] <= grouped[best]
  {
    best :| best in left;
    var todo := left - {best};
    while todo != {}
      invariant best in left && todo <= left
      invariant forall h :: h in left && h !in todo ==> grouped[h] <= grouped[best]
    {
      var h :| h in todo;
      if grouped[h] > grouped[best] { best := h; }
      todo := todo - {h};
    }
  }

  /** ORDER BY at DESC LIMIT: take the latest of what is left until there is enough. */
  method NewestRows(grouped: map<Hash, nat>, limit: nat, current: Option<Hash>) returns (out: seq<Shown>)
    ensures RowsOf(grouped, limit, current, out)
  {
    out := [];
    var left := grouped.Keys;
    while |out| < limit && left != {}
      invariant |out| <= limit && left <= grouped.Keys
      invariant Rows(grouped, current, out) && Descending(out) && Taken(grouped, left, out)
      decreases left
    {
      var best := Latest(grouped, left);
      TakeBest(grouped, left, current, out, best);
      out := out + [Shown(best, grouped[best], current == Some(best))];
      left := left - {best};
    }
  }

  /** What is left is not shown and no later than what is; all else is shown. */
  predicate Taken(grouped: map<Hash, nat>, left: set<Hash>, out: seq<Shown>)
    requires left <= grouped.Keys
  {
    && (forall i :: 0 <= i < |out| ==> out[i].artifact !in left)
    && (forall i, h :: 0 <= i < |out| && h in left ==> out[i].at >= grouped[h])
    && (forall h :: h in grouped && h !in left ==> Shows(out, h))
  }

  lemma TakeBest(grouped: map<Hash, nat>, left: set<Hash>, current: Option<Hash>, out: seq<Shown>, best: Hash)
    requires left <= grouped.Keys && best in left && forall h :: h in left ==> grouped[h] <= grouped[best]
    requires Rows(grouped, current, out) && Descending(out) && Taken(grouped, left, out)
    ensures var out' := out + [Shown(best, grouped[best], current == Some(best))];
            Rows(grouped, current, out') && Descending(out') && Taken(grouped, left - {best}, out')
  {
    hide Rows, Descending, Shows;
    BestInOrder(grouped, left, current, out, best);
    BestTaken(grouped, left, out, Shown(best, grouped[best], current == Some(best)));
  }

  lemma BestInOrder(grouped: map<Hash, nat>, left: set<Hash>, current: Option<Hash>, out: seq<Shown>, best: Hash)
    requires left <= grouped.Keys && best in left && Taken(grouped, left, out)
    requires Rows(grouped, current, out) && Descending(out)
    ensures var out' := out + [Shown(best, grouped[best], current == Some(best))];
            Rows(grouped, current, out') && Descending(out')
  {
    var out' := out + [Shown(best, grouped[best], current == Some(best))];
    assert forall i :: 0 <= i < |out| ==> out'[i] == out[i];
  }

  lemma BestTaken(grouped: map<Hash, nat>, left: set<Hash>, out: seq<Shown>, best: Shown)
    requires left <= grouped.Keys && best.artifact in left && best.at == grouped[best.artifact]
    requires (forall h :: h in left ==> grouped[h] <= best.at) && Taken(grouped, left, out)
    ensures Taken(grouped, left - {best.artifact}, out + [best])
  {
    var out' := out + [best];
    assert out'[|out|].artifact == best.artifact;
    forall h | h in grouped && h !in left - {best.artifact} ensures Shows(out', h) {
      if h != best.artifact {
        var i :| 0 <= i < |out| && out[i].artifact == h;
        assert out'[i].artifact == h;
      }
    }
  }

  // ---------- what a listing shows ----------

  /** A listing has exactly the artifacts the app ever ran when the limit allows: every
      duplicate is collapsed, consecutive or not. */
  lemma ListsEachArtifactOnce(history: seq<Deployed>, stamps: seq<nat>, name: Name, limit: nat, current: Option<Hash>,
                              out: seq<Shown>)
    requires |stamps| == |history| && IsListing(history, stamps, name, limit, current, out) && |out| < limit
    ensures forall h :: (exists i :: 0 <= i < |out| && out[i].artifact == h)
                        <==> (exists k :: 0 <= k < |history| && history[k] == Deployed(name, h))
  {
    forall h ensures (exists i :: 0 <= i < |out| && out[i].artifact == h)
                     <==> (exists k :: 0 <= k < |history| && history[k] == Deployed(name, h))
    {
      LastAtIffRan(history, stamps, name, h);
    }
  }

  lemma {:induction false} LastAtIffRan(history: seq<Deployed>, stamps: seq<nat>, name: Name, h: Hash)
    requires |stamps| == |history|
    ensures LastAt(history, stamps, name, h).Some? <==>
            exists k :: 0 <= k < |history| && history[k] == Deployed(name, h)
  {
    if history != [] {
      var front := history[..|history| - 1];
      LastAtIffRan(front, stamps[..|history| - 1], name, h);
      if k :| 0 <= k < |front| && front[k] == Deployed(name, h) {
        assert history[k] == Deployed(name, h);
      }
      if k :| 0 <= k < |history| && history[k] == Deployed(name, h) {
        assert k == |front| || front[k] == Deployed(name, h);
      }
    }
  }

  /** The app came to run `h` at second `at`, and not later. */
  predicate LastDeployed(history: seq<Deployed>, stamps: seq<nat>, name: Name, h: Hash, at: nat)
    requires |stamps| == |history|
  {
    && (exists k :: 0 <= k < |history| && history[k] == Deployed(name, h) && stamps[k] == at)
    && forall k :: 0 <= k < |history| && history[k] == Deployed(name, h) ==> stamps[k] <= at
  }

  lemma {:induction false} LastAtIsLatest(history: seq<Deployed>, stamps: seq<nat>, name: Name, h: Hash)
    requires |stamps| == |history|
    ensures forall at: nat :: LastAt(history, stamps, name, h) == Some(at) <==>
            LastDeployed(history, stamps, name, h, at)
  {
    if history != [] {
      var front, back := history[..|history| - 1], stamps[..|history| - 1];
      assert forall k :: 0 <= k < |front| ==> front[k] == history[k] && back[k] == stamps[k];
      LastAtIsLatest(front, back, name, h);
      LastAtIffRan(front, back, name, h);
      forall at: nat
        ensures LastAt(history, stamps, name, h) == Some(at) <==> LastDeployed(history, stamps, name, h, at)
      {
        if LastAt(history, stamps, name, h) == Some(at) { ReachesLatest(history, stamps, name, h, at); }
        if LastDeployed(history, stamps, name, h, at) {
          LastAtIffRan(history, stamps, name, h);
          ReachesLatest(history, stamps, name, h, LastAt(history, stamps, name, h).value);
        }
      }
    }
  }

  lemma ReachesLatest(history: seq<Deployed>, stamps: seq<nat>, name: Name, h: Hash, at: nat)
    requires |stamps| == |history| && history != [] && LastAt(history, stamps, name, h) == Some(at)
    requires var front, back := history[..|history| - 1], stamps[..|history| - 1];
             && (forall t: nat :: LastAt(front, back, name, h) == Some(t) <==> LastDeployed(front, back, name, h, t))
             && (LastAt(front, back, name, h).Some? <==> exists k :: 0 <= k < |front| && front[k] == Deployed(name, h))
    ensures LastDeployed(history, stamps, name, h, at)
  {
    var n := |history| - 1;
    var front, back := history[..n], stamps[..n];
    assert forall k :: 0 <= k < n ==> front[k] == history[k] && back[k] == stamps[k];
    var before := LastAt(front, back, name, h);
    if before.Some? {
      var k :| 0 <= k < |front| && front[k] == Deployed(name, h) && back[k] == before.value;
      assert history[k] == Deployed(name, h) && stamps[k] == before.value;
    }
    if history[n] == Deployed(name, h) { assert stamps[n] <= at; }
  }

  /** Each row of a listing tells the second the app last came to run its artifact. */
  lemma ListsLatestTimes(history: seq<Deployed>, stamps: seq<nat>, name: Name, limit: nat, current: Option<Hash>,
                         out: seq<Shown>, i: nat)
    requires |stamps| == |history| && IsListing(history, stamps, name, limit, current, out) && i < |out|
    ensures LastDeployed(history, stamps, name, out[i].artifact, out[i].at)
    ensures out[i].current <==> current == Some(out[i].artifact)
  {
    LastAtIsLatest(history, stamps, name, out[i].artifact);
  }

  /** No other artifact of the app was deployed as late as `a`. */
  ghost predicate StrictlyLatest(history: seq<Deployed>, stamps: seq<nat>, name: Name, a: Hash)
    requires |stamps| == |history|
  {
    exists at: nat :: LastDeployed(history, stamps, name, a, at)
                 && forall j :: 0 <= j < |history| && history[j].app == name && history[j].artifact != a ==>
                   stamps[j] < at
  }

  /** In terms of the groups: every other one is earlier. */
  ghost predicate LatestGroup(history: seq<Deployed>, stamps: seq<nat>, name: Name, a: Hash)
    requires |stamps| == |history|
  {
    && LastAt(history, stamps, name, a).Some?
    && forall h :: h != a && LastAt(history, stamps, name, h).Some? ==>
         LastAt(history, stamps, name, h).value < LastAt(history, stamps, name, a).value
  }

  lemma LatestByGroups(history: seq<Deployed>, stamps: seq<nat>, name: Name, a: Hash)
    requires |stamps| == |history|
    ensures StrictlyLatest(history, stamps, name, a) <==> LatestGroup(history, stamps, name, a)
  {
    if StrictlyLatest(history, stamps, name, a) {
      OthersEarlier(history, stamps, name, a);
    } else if LastAt(history, stamps, name, a).Some? {
      SomeOtherLate(history, stamps, name, a);
    }
  }

  lemma OthersEarlier(history: seq<Deployed>, stamps: seq<nat>, name: Name, a: Hash)
    requires |stamps| == |history| && StrictlyLatest(history, stamps, name, a)
    ensures LastAt(history, stamps, name, a).Some?
    ensures forall h :: h != a && LastAt(history, stamps, name, h).Some? ==>
              LastAt(history, stamps, name, h).value < LastAt(history, stamps, name, a).value
  {
    LastAtIsLatest(history, stamps, name, a);
    forall h | h != a && LastAt(history, stamps, name, h).Some?
      ensures LastAt(history, stamps, name, h).value < LastAt(history, stamps, name, a).value
    {
      LastAtIsLatest(history, stamps, name, h);
      assert LastDeployed(history, stamps, name, h, LastAt(history, stamps, name, h).value);
    }
  }

  lemma SomeOtherLate(history: seq<Deployed>, stamps: seq<nat>, name: Name, a: Hash)
    requires |stamps| == |history| && LastAt(history, stamps, name, a).Some?
    requires !StrictlyLatest(history, stamps, name, a)
    ensures exists h :: h != a && LastAt(history, stamps, name, h).Some?
                        && LastAt(history, stamps, name, h).value >= LastAt(history, stamps, name, a).value
  {
    LastAtIsLatest(history, stamps, name, a);
    var at := LastAt(history, stamps, name, a).value;
    assert LastDeployed(history, stamps, name, a, at);
    var j :| 0 <= j < |history| && history[j].app == name && history[j].artifact != a && stamps[j] >= at;
    var h := history[j].artifact;
    assert history[j] == Deployed(name, h);
    LastAtIffRan(history, stamps, name, h);
    LastAtIsLatest(history, stamps, name, h);
    assert LastDeployed(history, stamps, name, h, LastAt(history, stamps, name, h).value);
  }

  ghost predicate Heads(out: seq<Shown>, a: Hash) { |out| > 0 && out[0].artifact == a }

  lemma NewestFirst(history: seq<Deployed>, stamps: seq<nat>, name: Name, limit: nat, current: Option<Hash>,
                    out: seq<Shown>, a: Hash)
    requires |stamps| == |history| && IsListing(history, stamps, name, limit, current, out) && limit > 0
    requires StrictlyLatest(history, stamps, name, a)
    ensures Heads(out, a)
  {
    LatestByGroups(history, stamps, name, a);
  }

  /** An artifact heads every listing there may be exactly when no other artifact of the app was
      deployed in the same second or later: among ties any may come first. */
  lemma FirstIffStrictlyLatest(history: seq<Deployed>, stamps: seq<nat>, name: Name, limit: nat, current: Option<Hash>,
                               a: Hash)
    requires |stamps| == |history| && limit > 0
    ensures (forall out :: IsListing(history, stamps, name, limit, current, out) ==> Heads(out, a))
            <==> StrictlyLatest(history, stamps, name, a)
  {
    if StrictlyLatest(history, stamps, name, a) {
      forall out | IsListing(history, stamps, name, limit, current, out) ensures Heads(out, a) {
        NewestFirst(history, stamps, name, limit, current, out, a);
      }
    } else {
      var out := ListingWithout(history, stamps, name, limit, current, a);
      assert IsListing(history, stamps, name, limit, current, out) && !Heads(out, a);
    }
  }

  /** For instance two deploys within one second, which may be listed either way round. */
  lemma SameSecondEitherWay(name: Name, a: Hash, b: Hash, now: nat)
    requires a != b
    ensures var history, stamps := [Deployed(name, a), Deployed(name, b)], [now, now];
            && IsListing(history, stamps, name, 2, Some(b), [Shown(a, now, false), Shown(b, now, true)])
            && IsListing(history, stamps, name, 2, Some(b), [Shown(b, now, true), Shown(a, now, false)])
  {
    var history, stamps := [Deployed(name, a), Deployed(name, b)], [now, now];
    assert history[..1] == [Deployed(name, a)] && stamps[..1] == [now];
    assert [Deployed(name, a)][..0] == [] && [now][..0] == [];
    forall h ensures LastAt(history, stamps, name, h) == if h == a || h == b then Some(now) else None {
      assert LastAt([], [], name, h) == None;
      assert LastAt([Deployed(name, a)], [now], name, h) == if h == a then Some(now) else None;
    }
    var one, two := [Shown(a, now, false), Shown(b, now, true)], [Shown(b, now, true), Shown(a, now, false)];
    assert one[0].artifact == a && one[1].artifact == b && two[0].artifact == b && two[1].artifact == a;
  }

  /** A listing that `a` does not head. */
  lemma ListingWithout(history: seq<Deployed>, stamps: seq<nat>, name: Name, limit: nat, current: Option<Hash>, a: Hash)
    returns (out: seq<Shown>)
    requires |stamps| == |history| && limit > 0 && !StrictlyLatest(history, stamps, name, a)
    ensures IsListing(history, stamps, name, limit, current, out) && !Heads(out, a)
  {
    var grouped := Grouped(history, stamps, name);
    GroupedIsLastAt(history, stamps, name);
    LatestByGroups(history, stamps, name, a);
    if grouped.Keys == {} {
      out := [];
    } else {
      var best := LatestOf(grouped, grouped.Keys);
      if best == a {
        assert LastAt(history, stamps, name, a).Some?;
        var h :| h != a && LastAt(history, stamps, name, h).Some?
                 && LastAt(history, stamps, name, h).value >= LastAt(history, stamps, name, a).value;
        assert Lookup(grouped, h) == LastAt(history, stamps, name, h);
        best := h;
      }
      var rest := SortedRows(grouped - {best}, limit - 1, current);
      out := [Shown(best, grouped[best], current == Some(best))] + rest;
      HeadedRows(grouped, limit, current, best, rest);
      RowsList(history, stamps, name, limit, current, grouped, out);
    }
  }

  /** The groups of a history. */
  ghost function Grouped(history: seq<Deployed>, stamps: seq<nat>, name: Name): map<Hash, nat>
    requires |stamps| == |history|
  {
    map h | h in (set k | 0 <= k < |history| :: history[k].artifact) && LastAt(history, stamps, name, h).Some?
      :: LastAt(history, stamps, name, h).value
  }

  lemma GroupedIsLastAt(history: seq<Deployed>, stamps: seq<nat>, name: Name)
    requires |stamps| == |history|
    ensures forall h :: Lookup(Grouped(history, stamps, name), h) == LastAt(history, stamps, name, h)
  {
    forall h ensures Lookup(Grouped(history, stamps, name), h) == LastAt(history, stamps, name, h) {
      LastAtIffRan(history, stamps, name, h);
    }
  }

  lemma LatestOf(grouped: map<Hash, nat>, left: set<Hash>) returns (best: Hash)
    requires left != {} && left <= grouped.Keys
    ensures best in left && forall h :: h in left ==> grouped[h] <= grouped[best]
    decreases left
  {
    var x :| x in left;
    best := x;
    if left != {x} {
      assert left == {x} + (left - {x});
      var y := LatestOf(grouped, left - {x});
      best := if grouped[y] > grouped[x] then y else x;
    }
  }

  lemma RowsList(history: seq<Deployed>, stamps: seq<nat>, name: Name, limit: nat, current: Option<Hash>,
                 grouped: map<Hash, nat>, out: seq<Shown>)
    requires |stamps| == |history| && forall h :: Lookup(grouped, h) == LastAt(history, stamps, name, h)
    requires RowsOf(grouped, limit, current, out)
    ensures IsListing(history, stamps, name, limit, current, out)
  {
    forall i | 0 <= i < |out| ensures LastAt(history, stamps, name, out[i].artifact) == Some(out[i].at) {
      assert Lookup(grouped, out[i].artifact) == LastAt(history, stamps, name, out[i].artifact);
    }
    forall h | LastAt(history, stamps, name, h).Some? && (forall i :: 0 <= i < |out| ==> out[i].artifact != h)
      ensures |out| == limit && forall i :: 0 <= i < |out| ==> out[i].at >= LastAt(history, stamps, name, h).value
    {
      assert Lookup(grouped, h) == LastAt(history, stamps, name, h) && !Shows(out, h);
    }
  }

  lemma SortedRows(grouped: map<Hash, nat>, limit: nat, current: Option<Hash>) returns (out: seq<Shown>)
    ensures RowsOf(grouped, limit, current, out)
    decreases limit
  {
    if limit == 0 || grouped.Keys == {} {
      out := [];
    } else {
      var best := LatestOf(grouped, grouped.Keys);
      var rest := SortedRows(grouped - {best}, limit - 1, current);
      out := [Shown(best, grouped[best], current == Some(best))] + rest;
      HeadedRows(grouped, limit, current, best, rest);
    }
  }

  lemma HeadedRows(grouped: map<Hash, nat>, limit: nat, current: Option<Hash>, best: Hash, rest: seq<Shown>)
    requires limit > 0 && best in grouped && forall h :: h in grouped ==> grouped[h] <= grouped[best]
    requires RowsOf(grouped - {best}, limit - 1, current, rest)
    ensures RowsOf(grouped, limit, current, [Shown(best, grouped[best], current == Some(best))] + rest)
  {
    hide Rows, Descending, Complete;
    var head := Shown(best, grouped[best], current == Some(best));
    HeadedSet(grouped, current, best, rest);
    HeadedOrder(grouped, current, head, rest);
    HeadedComplete(grouped, limit, best, rest, [head] + rest);
  }

  lemma HeadedSet(grouped: map<Hash, nat>, current: Option<Hash>, best: Hash, rest: seq<Shown>)
    requires best in grouped && Rows(grouped - {best}, current, rest)
    ensures Rows(grouped, current, [Shown(best, grouped[best], current == Some(best))] + rest)
  {
    var out := [Shown(best, grouped[best], current == Some(best))] + rest;
    forall i | 0 <= i < |out|
      ensures Lookup(grouped, out[i].artifact) == Some(out[i].at)
      ensures out[i].current == (current == Some(out[i].artifact))
    {
      if i > 0 {
        assert out[i] == rest[i - 1];
        assert Lookup(grouped - {best}, rest[i - 1].artifact) == Some(rest[i - 1].at);
      }
    }
  }

  lemma HeadedOrder(grouped: map<Hash, nat>, current: Option<Hash>, head: Shown, rest: seq<Shown>)
    requires head.artifact in grouped && grouped[head.artifact] == head.at
    requires forall h :: h in grouped ==> grouped[h] <= head.at
    requires Rows(grouped - {head.artifact}, current, rest) && Descending(rest)
    ensures Descending([head] + rest)
  {
    var out := [head] + rest;
    forall i, j | 0 <= i < j < |out| ensures out[i].artifact != out[j].artifact && out[i].at >= out[j].at {
      assert out[j] == rest[j - 1] && Lookup(grouped - {head.artifact}, rest[j - 1].artifact) == Some(rest[j - 1].at);
      if i > 0 { assert out[i] == rest[i - 1]; }
    }
  }

  lemma HeadedComplete(grouped: map<Hash, nat>, limit: nat, best: Hash, rest: seq<Shown>, out: seq<Shown>)
    requires limit > 0 && best in grouped && forall h :: h in grouped ==> grouped[h] <= grouped[best]
    requires Complete(grouped - {best}, limit - 1, rest)
    requires |out| == |rest| + 1 && out[0].artifact == best && out[0].at == grouped[best]
    requires forall i :: 0 <= i < |rest| ==> out[i + 1] == rest[i]
    ensures Complete(grouped, limit, out)
  {
    forall h | h in grouped && !Shows(out, h)
      ensures |out| == limit && forall i :: 0 <= i < |out| ==> out[i].at >= grouped[h]
    {
      assert out[0].artifact != h;
      assert h in grouped - {best} && !Shows(rest, h);
      forall i | 0 <= i < |out| ensures out[i].at >= grouped[h] {
        if i > 0 { assert out[i] == rest[i - 1]; }
      }
    }
  }
}
