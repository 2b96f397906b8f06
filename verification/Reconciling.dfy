/** What one pass of `reconcile` settles for an app, and what a second pass adds. */
module ReconcileLaws {
  import opened Prelude
  import opened Lifecycle
  import opened CellInvariant

  /** The state in which a second pass still finds something to correct: a "never" app whose
      start has just failed reads Backoff and will read Crashed. */
  predicate JustFailed(m: Managed, row: AppRow) {
    row.desired.WantRunning? && row.config.policy == "never" && m.restarts > 0 && m.state.Backoff?
  }

  /** A second pass at the same instant, with the held child still alive, starts and charges
      nothing and changes no tracked state but that one. */
  lemma SecondPassSettled(c: Cell, row: AppRow, now: nat, luck: Luck, kernel: Option<Bytes>,
                          luck': Luck, kernel': Option<Bytes>)
    requires CellInv(c, Up, now)
    requires var c1 := ReconcileCell(c, Some(row), now, luck, kernel);
             EntryOf(c1).child.Some? ==> Alive(c1, EntryOf(c1).child.value)
    ensures var c1 := ReconcileCell(c, Some(row), now, luck, kernel);
            var c2 := ReconcileCell(c1, Some(row), now, luck', kernel');
            && EntryOf(c2) == (if JustFailed(EntryOf(c1), row) then EntryOf(c1).(state := Crashed) else EntryOf(c1))
            && c2.log == c1.log && c2.pidfile == c1.pidfile && c2.staged == c1.staged
            && |c2.instances| == |c1.instances|
  {
    var c1 := ReconcileCell(c, Some(row), now, luck, kernel);
    ReapKeeps(c, now, luck.waitErr);
    PassSettles(Reap(c, now, luck.waitErr), row, now, luck.spawn, kernel);
    DriveKeeps(Reap(c, now, luck.waitErr), row, now, luck.spawn, kernel);
    SettledStays(c1, row, now, luck', kernel');
  }

  /** What a pass leaves behind. */
  predicate Settled(c: Cell, row: AppRow, now: nat) {
    && c.managed.Some?
    && var m := c.managed.value;
       match row.desired
       case WantStopped =>
         if m.child.Some? then m.termDeadline.Some?
         else m.state.Stopped? && m.termDeadline.None? && m.health.Unknown? && m.statusLine.None?
       case WantRunning =>
         if m.child.Some? then m.state == (if m.termDeadline.Some? then Stopping else Running)
         else if row.config.policy == "never" && m.restarts > 0 then m.state.Crashed? || m.state.Backoff?
         else m.state.Backoff? && now < m.backoffUntil
  }

  lemma PassSettles(c: Cell, row: AppRow, now: nat, spawn: Spawn, kernel: Option<Bytes>)
    requires UpCell(c, now)
    ensures Settled(Drive(c, row, now, spawn, kernel), row, now)
  {
    BackoffBounds(EntryOf(c).restarts + 1);
  }

  lemma SettledStays(c: Cell, row: AppRow, now: nat, luck: Luck, kernel: Option<Bytes>)
    requires UpCell(c, now) && Settled(c, row, now)
    requires EntryOf(c).child.Some? ==> Alive(c, EntryOf(c).child.value)
    ensures var c2 := ReconcileCell(c, Some(row), now, luck, kernel);
            && EntryOf(c2) == (if JustFailed(EntryOf(c), row) then EntryOf(c).(state := Crashed) else EntryOf(c))
            && c2.log == c.log && c2.pidfile == c.pidfile && c2.staged == c.staged
            && |c2.instances| == |c.instances|
  {
    assert Reap(c, now, luck.waitErr) == Escalate(c, c.managed.value, now);
  }

  /** An app that is not registered any more is killed, if it is not seen gone, and forgotten. */
  lemma DropKills(c: Cell, now: nat, luck: Luck, kernel: Option<Bytes>, i: nat)
    requires c.managed.Some? && EntryOf(c).child == Some(i) && EntryOf(c).pid == Some(i) && i < |c.instances|
    ensures var c' := ReconcileCell(c, None, now, luck, kernel);
            && c'.managed == None && c'.pidfile == None && i < |c'.instances|
            && (Alive(c, i) || luck.waitErr ==>
                  var signals := c'.instances[i].signals;
                  signals != [] && signals[|signals| - 1] == Kill(now))
  {
  }

  // ---------- reported status ----------

  /** The dashboard's four-state grammar. */
  function DeriveStatus(desired: Desired, entry: Option<Managed>): string {
    match entry
    case None => if desired.WantStopped? then "stopped" else "running"
    case Some(m) =>
      match m.state
      case Crashed => "crashing"
      case Backoff => "crashing"
      case Running => if m.health.NotServing? || m.health.Unreachable? then "degraded" else "running"
      case Stopped => if desired.WantStopped? then "stopped" else "running"
      case Stopping => if desired.WantStopped? then "stopped" else "running"
  }

  /** At any moment, each of the four words by itself: an app without an entry has what it wants. */
  lemma StatusWords(desired: Desired, entry: Option<Managed>)
    ensures var status := DeriveStatus(desired, entry);
            && (status == "crashing" <==> entry.Some? && entry.value.state in {Crashed, Backoff})
            && (status == "degraded" <==>
                  entry.Some? && entry.value.state == Running && entry.value.health in {NotServing, Unreachable})
            && (status == "stopped" <==>
                  desired == WantStopped && (entry.None? || entry.value.state in {Stopped, Stopping}))
            && status in {"running", "degraded", "crashing", "stopped"}
  {
    assert "crashing"[0] == 'c' && "stopped"[0] == 's' && "running"[0] == 'r' && "degraded"[0] == 'd';
  }

  /** A start was attempted in this pass, and failed. */
  predicate FailedJustNow(c: Cell, c': Cell) {
    |c'.log| > |c.log| && c'.log[|c'.log| - 1].kind == ErrorEv
  }

  /** The state a pass leaves, case by case: what is held, whether it is being terminated, what is
      wanted, and whether the policy gives up. A process that was already being terminated when the
      app was stopped keeps the state it was in. */
  lemma StateAfterPass(c: Cell, row: AppRow, now: nat, luck: Luck, kernel: Option<Bytes>)
    requires CellInv(c, Up, now)
    ensures var c' := ReconcileCell(c, Some(row), now, luck, kernel);
            var m := EntryOf(c');
            && c'.managed.Some?
            && m.state == (if m.child.Some? then
                             (if row.desired.WantRunning? then (if m.termDeadline.Some? then Stopping else Running)
                              else if EntryOf(c).termDeadline.Some? then EntryOf(c).state else Stopping)
                           else if row.desired.WantStopped? then Stopped
                           else if row.config.policy == "never" && m.restarts > 0 && !FailedJustNow(c, c') then Crashed
                           else Backoff)
            && (row.desired.WantStopped? && m.child.Some? ==> m.termDeadline.Some?)
            && (m.state.Stopped? ==> m.health.Unknown? && m.statusLine.None?)
  {
    hide Reap, Drive;
    ReapKeeps(c, now, luck.waitErr);
    ReapHolds(c, now, luck.waitErr);
    ReapEvents(c, now, luck.waitErr);
    DriveState(Reap(c, now, luck.waitErr), row, now, luck.spawn, kernel);
  }

  lemma ReapHolds(c: Cell, now: nat, waitErr: bool)
    ensures EntryOf(Reap(c, now, waitErr)).child.Some? ==> EntryOf(Reap(c, now, waitErr)) == EntryOf(c)
  {
  }

  lemma ReapEvents(c: Cell, now: nat, waitErr: bool)
    ensures var c1 := Reap(c, now, waitErr);
            |c1.log| >= |c.log| && (|c1.log| > |c.log| ==> c1.log[|c1.log| - 1].kind != ErrorEv)
  {
  }

  lemma DriveState(c: Cell, row: AppRow, now: nat, spawn: Spawn, kernel: Option<Bytes>)
    requires UpCell(c, now)
    ensures var c' := Drive(c, row, now, spawn, kernel);
            var m := EntryOf(c');
            && c'.managed.Some?
            && (c'.log == c.log || |c'.log| == |c.log| + 1)
            && m.state == (if m.child.Some? then
                             (if row.desired.WantRunning? then (if m.termDeadline.Some? then Stopping else Running)
                              else if EntryOf(c).termDeadline.Some? then EntryOf(c).state else Stopping)
                           else if row.desired.WantStopped? then Stopped
                           else if row.config.policy == "never" && m.restarts > 0 && !FailedJustNow(c, c') then Crashed
                           else Backoff)
            && (row.desired.WantStopped? && m.child.Some? ==> m.termDeadline.Some? && EntryOf(c).child.Some?)
            && (m.state.Stopped? ==> m.health.Unknown? && m.statusLine.None?)
  {
    hide Accounts;
    BackoffBounds(EntryOf(c).restarts + 1);
  }

  /** Right after a pass the status is honest: "crashing" exactly when the app should run and no
      process is held, "degraded" exactly when a process is held that nobody told to stop and its
      probes go wrong, "stopped" when the app should not run. There is one exception: a process
      that was told to stop before the app was, as by a restart, goes on reading as it did. */
  lemma StatusHonest(c: Cell, row: AppRow, now: nat, luck: Luck, kernel: Option<Bytes>)
    requires CellInv(c, Up, now)
    ensures var c' := ReconcileCell(c, Some(row), now, luck, kernel);
            var m := EntryOf(c');
            var probed := if m.health == NotServing || m.health == Unreachable then "degraded" else "running";
            DeriveStatus(row.desired, c'.managed)
            == if row.desired.WantRunning? then
                 (if m.child.None? then "crashing" else if m.termDeadline.Some? then "running" else probed)
               else if m.child.Some? && EntryOf(c).termDeadline.Some? && EntryOf(c).state.Running? then probed
               else "stopped"
  {
    hide ReconcileCell;
    StateAfterPass(c, row, now, luck, kernel);
  }
}
