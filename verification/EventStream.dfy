/** One connected client of the event stream. */
module EventStreaming {
  import opened Lifecycle
  import opened EventTail
  import opened RegistryTables

  /** Where a stream starts: after the newest event there is, or from the very beginning when
      that first read fails. */
  function StartId(rows: seq<Row>, readable: bool): int {
    if rows == [] || !readable then 0 else rows[|rows| - 1].id
  }

  class EventStream {
    const registry: Registry
    var lastId: int
    var emitted: seq<Row>

    constructor (registry: Registry, readable: bool)
      ensures this.registry == registry
      ensures emitted == [] && lastId == StartId(registry.events, readable)
    {
      this.registry := registry;
      emitted := [];
      var last := 0;
      if readable {
        if registry.events != [] {
          last := registry.events[|registry.events| - 1].id;
        }
      }
      lastId := last;
    }

    ghost function State(): Stream
      reads this, registry`events
    {
      Stream(registry.events, lastId, emitted)
    }

    /** One tick: read a batch, send each row and remember its id. A failed read skips the tick. */
    method Tick(readable: bool)
      modifies this
      ensures State() == if readable then Next(old(State()), Poll) else Next(old(State()), PollFails)
    {
      if !readable {
        return;
      }
      var batch := registry.ListEventsSince(lastId, POLL_LIMIT);
      ghost var sent := emitted;
      for i := 0 to |batch|
        invariant emitted == sent + batch[..i]
        invariant lastId == if i == 0 then old(lastId) else batch[i - 1].id
      {
        lastId := batch[i].id;
        emitted := emitted + [batch[i]];
      }
      assert batch[..|batch|] == batch;
    }
  }

  /** Starting after the newest id, exactly the rows added later are still to come. */
  lemma {:induction false} OnlyNewEvents(rows: seq<Row>, later: seq<Row>)
    requires Increasing(rows + later) && Positive(rows + later)
    ensures After(rows + later, StartId(rows, true)) == later
  {
    hide After;
    if later == [] {
      assert rows + later == rows;
      AfterNone(rows, StartId(rows, true));
    } else {
      var front, last := later[..|later| - 1], later[|later| - 1];
      var all := rows + later;
      assert all == (rows + front) + [last];
      assert forall i :: 0 <= i < |rows + front| ==> (rows + front)[i] == all[i];
      OnlyNewEvents(rows, front);
      AfterSnoc(rows + front, last, StartId(rows, true));
      assert all[|all| - 1] == last;
      assert rows != [] ==> all[|rows| - 1] == rows[|rows| - 1];
    }
  }

  /** Starting at zero, everything is still to come. */
  lemma {:induction false} WholeTable(rows: seq<Row>)
    requires Positive(rows)
    ensures After(rows, 0) == rows
  {
    if rows != [] {
      var front := rows[..|rows| - 1];
      assert forall i :: 0 <= i < |front| ==> front[i] == rows[i];
      WholeTable(front);
      assert rows == front + [rows[|rows| - 1]];
    }
  }

  /** What a client is due: the later rows, behind the whole old table if its first read
      failed. */
  function Due(rows: seq<Row>, later: seq<Row>, readable: bool): seq<Row> {
    if readable then later else rows + later
  }

  lemma DueFromStart(rows: seq<Row>, later: seq<Row>, readable: bool)
    requires Increasing(rows + later) && Positive(rows + later)
    ensures After(rows + later, StartId(rows, readable)) == Due(rows, later, readable)
  {
    if readable { OnlyNewEvents(rows, later); } else { WholeTable(rows + later); }
  }

  /** What a client is sent is always a front of what it is due: every event once, in order. */
  lemma StreamsDueEvents(rows: seq<Row>, later: seq<Row>, readable: bool, s: Stream, steps: seq<Step>)
    requires s == Stream(rows, StartId(rows, readable), []) && Increasing(rows)
    requires Run(s, steps).rows == rows + later && Positive(rows + later)
    ensures Run(s, steps).emitted <= Due(rows, later, readable)
  {
    ExactlyOnceInOrder(s, steps);
    RunTails(s, steps);
    DueFromStart(rows, later, readable);
  }

  /** A drained client was sent only rows recorded after it connected exactly when the first
      read succeeded or there was nothing to replay. */
  lemma OnlyNewIffFirstReadOrEmpty(rows: seq<Row>, later: seq<Row>, readable: bool, s: Stream, steps: seq<Step>)
    requires s == Stream(rows, StartId(rows, readable), []) && Increasing(rows)
    requires Run(s, steps).rows == rows + later && Positive(rows + later)
    requires Run(s, steps).emitted == After(rows + later, s.lastId)
    ensures (forall r :: r in Run(s, steps).emitted ==> r !in rows) <==> readable || rows == []
    ensures readable || rows == [] ==> Run(s, steps).emitted == later
  {
    RunTails(s, steps);
    DueFromStart(rows, later, readable);
    if readable || rows == [] {
      assert rows == [] ==> rows + later == later;
      LaterIsNew(rows, later);
    } else {
      assert (rows + later)[0] == rows[0];
      assert rows[0] in Run(s, steps).emitted && rows[0] in rows;
    }
  }

  lemma LaterIsNew(rows: seq<Row>, later: seq<Row>)
    requires Increasing(rows + later)
    ensures forall r :: r in later ==> r !in rows
  {
    var all := rows + later;
    forall i, j | 0 <= i < |rows| && 0 <= j < |later| ensures rows[i] != later[j] {
      assert all[i] == rows[i] && all[|rows| + j] == later[j];
    }
  }

  /** The failing input: one old event, a failed first read, one poll. */
  lemma FailedFirstReadReplays(row: Row)
    requires row.id > 0
    ensures var s := Stream([row], StartId([row], false), []);
            Run(s, [Poll]).emitted == [row]
  {
    var s := Stream([row], StartId([row], false), []);
    WholeTable([row]);
    assert [Poll][..0] == [] && Run(s, []) == s;
    assert Run(s, [Poll]) == Polled(s);
    assert [] + [row] == [row];
  }
}
