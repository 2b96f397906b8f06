/** The event table and the stream that follows it. */
module EventTail {
  import opened Lifecycle

  datatype Row = Row(id: int, at: nat, app: Name, kind: Kind)

  const POLL_LIMIT := 100

  /** AUTOINCREMENT: ids only grow; gaps are allowed. */
  predicate Increasing(rows: seq<Row>) {
    forall i, j :: 0 <= i < j < |rows| ==> rows[i].id < rows[j].id
  }

  /** The first id is 1. */
  predicate Positive(rows: seq<Row>) { forall i :: 0 <= i < |rows| ==> rows[i].id > 0 }

  /** The rows newer than `after`, oldest first. */
  function After(rows: seq<Row>, after: int): seq<Row> {
    if rows == [] then []
    else After(rows[..|rows| - 1], after) + if rows[|rows| - 1].id > after then [rows[|rows| - 1]] else []
  }

  function Take(s: seq<Row>, n: nat): seq<Row> { if |s| <= n then s else s[..n] }

  function EventsSince(rows: seq<Row>, after: int, limit: nat): seq<Row> {
    Take(After(rows, after), limit)
  }

  // ---------- the stream ----------

  datatype Stream = Stream(rows: seq<Row>, lastId: int, emitted: seq<Row>)

  datatype Step = Append(row: Row) | Poll | PollFails

  /** One tick of the stream's loop, as the function of the rows it read. */
  function Polled(s: Stream): Stream {
    var batch := EventsSince(s.rows, s.lastId, POLL_LIMIT);
    s.(emitted := s.emitted + batch, lastId := if batch == [] then s.lastId else batch[|batch| - 1].id)
  }

  function Next(s: Stream, step: Step): Stream {
    match step
    case Append(row) => if s.rows != [] && row.id <= s.rows[|s.rows| - 1].id then s else s.(rows := s.rows + [row])
    case Poll => Polled(s)
    case PollFails => s
  }

  function Run(s: Stream, steps: seq<Step>): Stream {
    if steps == [] then s else Next(Run(s, steps[..|steps| - 1]), steps[|steps| - 1])
  }

  // ---------- `After` ----------

  lemma AfterSnoc(front: seq<Row>, last: Row, after: int)
    ensures After(front + [last], after) == After(front, after) + if last.id > after then [last] else []
  {
    assert (front + [last])[..|front|] == front;
  }

  lemma {:induction false} AfterInside(rows: seq<Row>, after: int)
    requires Increasing(rows)
    ensures Increasing(After(rows, after))
    ensures forall r :: r in After(rows, after) <==> r in rows && r.id > after
  {
    if rows != [] {
      var front, last := rows[..|rows| - 1], rows[|rows| - 1];
      AfterInside(front, after);
      assert rows == front + [last];
      var a := After(front, after);
      forall i, j | 0 <= i < j < |After(rows, after)| ensures After(rows, after)[i].id < After(rows, after)[j].id {
        if j == |a| {
          assert a[i] in front;
        }
      }
    }
  }

  /** The rows after a later point are what remains of those after an earlier one. */
  lemma {:induction false} AfterSplits(rows: seq<Row>, after: int, k: nat)
    requires Increasing(rows) && k < |After(rows, after)|
    ensures After(rows, After(rows, after)[k].id) == After(rows, after)[k + 1..]
  {
    if rows == [] {
      NoneAfter(after);
    } else {
      hide After, Increasing;
      var front, last := rows[..|rows| - 1], rows[|rows| - 1];
      assert rows == front + [last];
      AfterSnoc(front, last, after);
      if k < |After(front, after)| {
        IncreasingFront(front, last);
        AfterSplits(front, after, k);
        SplitsInFront(front, last, after, k);
      } else {
        NoneAfterLast(front, last);
      }
    }
  }

  lemma SplitsInFront(front: seq<Row>, last: Row, after: int, k: nat)
    requires Increasing(front + [last]) && k < |After(front, after)|
    requires After(front, After(front, after)[k].id) == After(front, after)[k + 1..]
    ensures k < |After(front + [last], after)|
    ensures After(front + [last], After(front + [last], after)[k].id) == After(front + [last], after)[k + 1..]
  {
    hide After, Increasing;
    AfterSnoc(front, last, after);
    LastIsLater(front, last, after, k);
    AfterSnoc(front, last, After(front, after)[k].id);
    DropSnoc(After(front, after), [last], k + 1);
  }

  lemma IncreasingFront(front: seq<Row>, last: Row)
    requires Increasing(front + [last])
    ensures Increasing(front)
  {
    assert forall i :: 0 <= i < |front| ==> (front + [last])[i] == front[i];
  }

  lemma NoneAfterLast(front: seq<Row>, last: Row)
    requires Increasing(front + [last])
    ensures After(front + [last], last.id) == []
  {
    var rows := front + [last];
    forall i | 0 <= i < |rows| ensures rows[i].id <= last.id {
      assert i < |front| ==> rows[i].id < rows[|front|].id;
    }
    AfterNone(rows, last.id);
  }

  lemma DropSnoc(a: seq<Row>, tail: seq<Row>, k: nat)
    requires k <= |a|
    ensures (a + tail)[k..] == a[k..] + tail
  {
  }

  lemma LastIsLater(front: seq<Row>, last: Row, after: int, k: nat)
    requires Increasing(front + [last]) && k < |After(front, after)|
    ensures After(front, after)[k].id < last.id && last.id > after
  {
    var rows := front + [last];
    IncreasingFront(front, last);
    AfterInside(front, after);
    var r := After(front, after)[k];
    assert r in front;
    var i :| 0 <= i < |front| && front[i] == r;
    assert rows[i].id < rows[|front|].id;
  }

  lemma NoneAfter(after: int)
    ensures After([], after) == []
  {
  }

  lemma {:induction false} AfterNone(rows: seq<Row>, after: int)
    requires forall i :: 0 <= i < |rows| ==> rows[i].id <= after
    ensures After(rows, after) == []
  {
    if rows != [] { AfterNone(rows[..|rows| - 1], after); }
  }

  // ---------- exactly once, in order ----------

  /** Everything emitted is the front of the rows after `start`, and the rest is still to be
      polled. */
  predicate Tailing(s: Stream, start: int) {
    && Increasing(s.rows)
    && s.lastId >= start
    && s.emitted + After(s.rows, s.lastId) == After(s.rows, start)
  }

  lemma PollMoves(s: Stream)
    requires Increasing(s.rows)
    ensures var a := After(s.rows, s.lastId);
            && Polled(s).emitted == s.emitted + Take(a, POLL_LIMIT)
            && Polled(s).lastId >= s.lastId
            && After(s.rows, Polled(s).lastId) == a[|Take(a, POLL_LIMIT)|..]
  {
    var a := After(s.rows, s.lastId);
    if a != [] {
      var batch := Take(a, POLL_LIMIT);
      AfterInside(s.rows, s.lastId);
      AfterSplits(s.rows, s.lastId, |batch| - 1);
      assert a[|batch| - 1] in a;
    }
  }

  lemma PollTails(s: Stream, start: int)
    requires Tailing(s, start)
    ensures Tailing(Polled(s), start)
    ensures |After(Polled(s).rows, Polled(s).lastId)|
            == if |After(s.rows, s.lastId)| <= POLL_LIMIT then 0 else |After(s.rows, s.lastId)| - POLL_LIMIT
  {
    PollMoves(s);
    var a := After(s.rows, s.lastId);
    var batch := Take(a, POLL_LIMIT);
    assert a == batch + a[|batch|..];
    assert (s.emitted + batch) + a[|batch|..] == s.emitted + a;
  }

  lemma AppendTails(s: Stream, row: Row, start: int)
    requires Tailing(s, start)
    requires s.lastId == start || exists i :: 0 <= i < |s.rows| && s.rows[i].id == s.lastId
    ensures Tailing(Next(s, Append(row)), start)
  {
    var s' := Next(s, Append(row));
    if s' != s {
      assert s'.rows[..|s'.rows| - 1] == s.rows;
      assert s.emitted + (After(s.rows, s.lastId) + (if row.id > s.lastId then [row] else []))
          == After(s.rows, start) + (if row.id > s.lastId then [row] else []);
    }
  }

  predicate AtRow(s: Stream, start: int) {
    s.lastId == start || exists i :: 0 <= i < |s.rows| && s.rows[i].id == s.lastId
  }

  lemma {:induction false} RunTails(s: Stream, steps: seq<Step>)
    requires Increasing(s.rows) && s.emitted == []
    ensures Tailing(Run(s, steps), s.lastId) && AtRow(Run(s, steps), s.lastId)
  {
    if steps == [] {
      assert [] + After(s.rows, s.lastId) == After(s.rows, s.lastId);
    } else {
      RunTails(s, steps[..|steps| - 1]);
      var s1, step := Run(s, steps[..|steps| - 1]), steps[|steps| - 1];
      match step
      case Append(row) =>
        AppendTails(s1, row, s.lastId);
        KeepsRow(s1, row, s.lastId);
      case Poll =>
        PollTails(s1, s.lastId);
        AfterInside(s1.rows, s1.lastId);
        PollAtRow(s1, s.lastId);
      case PollFails =>
    }
  }

  lemma KeepsRow(s: Stream, row: Row, start: int)
    requires AtRow(s, start)
    ensures AtRow(Next(s, Append(row)), start)
  {
    if s.lastId != start {
      var i :| 0 <= i < |s.rows| && s.rows[i].id == s.lastId;
      assert Next(s, Append(row)).rows[i].id == s.lastId;
    }
  }

  lemma PollAtRow(s: Stream, start: int)
    requires Increasing(s.rows) && AtRow(s, start)
    ensures AtRow(Polled(s), start)
  {
    var batch := EventsSince(s.rows, s.lastId, POLL_LIMIT);
    if batch != [] {
      AfterInside(s.rows, s.lastId);
      var last := batch[|batch| - 1];
      assert last in After(s.rows, s.lastId);
      assert last in s.rows;
      var i :| 0 <= i < |s.rows| && s.rows[i] == last;
      assert Polled(s).rows[i].id == Polled(s).lastId;
    }
  }

  /** For any interleaving of appends, polls and failed polls, a stream has emitted a prefix of
      the events after its start id: each once, in order, with no gap. */
  lemma ExactlyOnceInOrder(s: Stream, steps: seq<Step>)
    requires Increasing(s.rows) && s.emitted == []
    ensures Run(s, steps).emitted <= After(Run(s, steps).rows, s.lastId)
    ensures Increasing(Run(s, steps).emitted)
    ensures forall r :: r in Run(s, steps).emitted <==>
            r in Run(s, steps).rows && s.lastId < r.id <= Run(s, steps).lastId
  {
    RunTails(s, steps);
    var s' := Run(s, steps);
    AfterInside(s'.rows, s.lastId);
    AfterInside(s'.rows, s'.lastId);
    EmittedWindow(s', s.lastId);
  }

  lemma EmittedWindow(s: Stream, start: int)
    requires Tailing(s, start)
    ensures Increasing(s.emitted)
    ensures forall r :: r in s.emitted <==> r in s.rows && start < r.id <= s.lastId
  {
    AfterInside(s.rows, start);
    AfterInside(s.rows, s.lastId);
    FrontMembers(s.emitted, After(s.rows, s.lastId));
  }

  lemma FrontMembers(front: seq<Row>, rest: seq<Row>)
    requires Increasing(front + rest)
    ensures Increasing(front)
    ensures forall r :: r in front <==> r in front + rest && r !in rest
  {
    var all := front + rest;
    forall i, j | 0 <= i < j < |front| ensures front[i].id < front[j].id {
      assert all[i] == front[i] && all[j] == front[j];
    }
    forall r | r in front ensures r !in rest {
      var i :| 0 <= i < |front| && front[i] == r;
      forall j | 0 <= j < |rest| ensures rest[j] != r {
        assert all[i] == r && all[|front| + j] == rest[j];
      }
    }
  }

  // ---------- draining ----------

  function Polls(n: nat): seq<Step> { seq(n, _ => Poll) }

  function CeilDiv(n: nat, d: nat): nat
    requires d > 0
  {
    (n + d - 1) / d
  }

  lemma {:induction false} PollsShrink(s: Stream, start: int, k: nat)
    requires Tailing(s, start)
    ensures var s' := Run(s, Polls(k));
            && Tailing(s', start) && s'.rows == s.rows
            && |After(s'.rows, s'.lastId)|
               == if |After(s.rows, s.lastId)| <= k * POLL_LIMIT then 0 else |After(s.rows, s.lastId)| - k * POLL_LIMIT
  {
    if k > 0 {
      PollsShrink(s, start, k - 1);
      assert Polls(k)[..k - 1] == Polls(k - 1);
      PollTails(Run(s, Polls(k - 1)), start);
    }
  }

  /** With no further appends, ceil(n / 100) successful polls drain a backlog of n, and no
      smaller number does. */
  lemma BacklogDrains(s: Stream, start: int, k: nat)
    requires Tailing(s, start)
    ensures Run(s, Polls(k)).emitted == After(s.rows, start) <==> k >= CeilDiv(|After(s.rows, s.lastId)|, 100)
  {
    PollsShrink(s, start, k);
    var s' := Run(s, Polls(k));
    assert |s'.emitted| + |After(s'.rows, s'.lastId)| == |After(s.rows, start)|;
    if |After(s'.rows, s'.lastId)| == 0 { assert s'.emitted + [] == s'.emitted; }
  }
}
