/** The backoff, to the second: when the next start is due after a failure, and that it is made
    then. */
module Backoff {
  import opened Prelude
  import opened Lifecycle
  import opened CellInvariant
  import opened Control
  import opened World
  import opened Safety
  import opened Throttle
  import opened Deadlines

  /** How long to wait after the `n`-th failure. */
  function WaitAfter(n: nat): nat {
    if n <= 1 then 2 else if n == 2 then 4 else if n == 3 then 8 else if n == 4 then 16 else if n == 5 then 32 else 60
  }

  lemma WaitIsTable(n: nat)
    requires n > 0
    ensures BackoffSecs(n) == WaitAfter(n)
  {
    BackoffTable(n);
    PowersOfTwo();
  }

  /** How many failures the log has from `from` on, and when the newest was. */
  function Failures(log: seq<Event>, from: nat): nat {
    if |log| <= from then 0
    else Failures(log[..|log| - 1], from) + if Failure(log[|log| - 1]) then 1 else 0
  }

  predicate Failure(e: Event) { e.kind == CrashEv || e.kind == ErrorEv }

  function LastFailure(log: seq<Event>, from: nat): Option<int> {
    if |log| <= from then None
    else if Failure(log[|log| - 1]) then Some(log[|log| - 1].at)
    else LastFailure(log[..|log| - 1], from)
  }

  lemma FailuresAppend(log: seq<Event>, from: nat, e: Event)
    requires from <= |log|
    ensures Failures(log + [e], from) == Failures(log, from) + if Failure(e) then 1 else 0
    ensures LastFailure(log + [e], from) == if Failure(e) then Some(e.at) else LastFailure(log, from)
  {
    assert (log + [e])[..|log|] == log;
  }

  /** The instant from which the next start is due. */
  predicate DueAt(c: Cell, from: nat, due: int) {
    if Failures(c.log, from) == 0 then due == 0
    else LastFailure(c.log, from).Some? && due == LastFailure(c.log, from).value + WaitAfter(Failures(c.log, from))
  }

  /** The entry has counted every failure since `from`, and waits after the newest as the table
      says, or, when `pardoned`, not at all. */
  predicate Waits(c: Cell, from: nat, pardoned: bool) {
    && from <= |c.log|
    && EntryOf(c).restarts == Failures(c.log, from)
    && (DueAt(c, from, EntryOf(c).backoffUntil) || (pardoned && EntryOf(c).backoffUntil == 0))
  }

  lemma ReapWaits(c: Cell, from: nat, now: nat, waitErr: bool, pardoned: bool)
    requires Waits(c, from, pardoned)
    requires EntryOf(c).restartRequested ==> pardoned
    ensures Waits(Reap(c, now, waitErr), from, pardoned)
  {
    hide Failures, LastFailure, BackoffSecs, WaitAfter;
    if c.managed.Some? && c.managed.value.child.Some? {
      FailuresAppend(c.log, from, Event(CrashEv, now));
      FailuresAppend(c.log, from, Event(StoppedEv, now));
      WaitIsTable(EntryOf(c).restarts + 1);
    }
  }

  lemma DriveWaits(c: Cell, from: nat, row: AppRow, now: nat, spawn: Spawn, kernel: Option<Bytes>, pardoned: bool)
    requires Waits(c, from, pardoned)
    ensures Waits(Drive(c, row, now, spawn, kernel), from, pardoned)
  {
    hide Failures, LastFailure, BackoffSecs, WaitAfter;
    if row.desired.WantRunning? && MayStart(EntryOf(c), row, now) {
      hide Waits;
      AttemptWaits(c, from, row, now, spawn, kernel, pardoned);
    } else {
      FailuresAppend(c.log, from, Event(TermEv, now));
    }
  }

  lemma AttemptWaits(c: Cell, from: nat, row: AppRow, now: nat, spawn: Spawn, kernel: Option<Bytes>, pardoned: bool)
    requires Waits(c, from, pardoned)
    ensures Waits(TryStart(c, EntryOf(c), row, now, spawn, kernel), from, pardoned)
  {
    hide Failures, LastFailure, BackoffSecs, WaitAfter;
    if spawn.SpawnOk? {
      FailuresAppend(c.log, from, Event(StartEv, now));
    } else {
      FailuresAppend(c.log, from, Event(ErrorEv, now));
      WaitIsTable(EntryOf(c).restarts + 1);
    }
  }

  lemma ActionWaits(c: Cell, a: Action, from: nat, now: nat, pardoned: bool)
    requires Waits(c, from, pardoned) && (EntryOf(c).restartRequested ==> pardoned)
    requires a.Reconciling? ==> a.row.Some?
    requires a.Restarting? ==> pardoned
    requires !a.Sweeping? && !a.Overlooked? && !a.BeginStop? && !a.EndStop? && !a.Forgetting?
    ensures Waits(CellNext(c, a, now), from, pardoned)
  {
    hide Failures, LastFailure, WaitAfter;
    if a.Reconciling? {
      hide Waits, Reap, Drive;
      ReapWaits(c, from, now, a.luck.waitErr, pardoned);
      DriveWaits(Reap(c, now, a.luck.waitErr), from, a.row.value, now, a.luck.spawn, a.kernel, pardoned);
    } else if a.Logging? {
      FailuresAppend(c.log, from, Event(a.kind, now));
    }
  }

  // ---------- in every run ----------

  lemma WaitsStep(env: Env, w: World, step: Step, n: Name)
    requires WorldInv(w) && (w.phase.Up? ==> Waits(w.cells(n), w.cells(n).mark, true)) && Next(env, w, step).phase.Up?
    ensures var c' := Next(env, w, step).cells(n); Waits(c', c'.mark, true)
  {
    hide ReconcileCell, RestartCell, CellInv;
    var c := w.cells(n);
    assert CellInv(c, w.phase, w.now);
    if Enabled(w, step) {
      var a := ActionOf(w, step, n);
      if step.Sweep? {
        SweptWaits(c, w.now, a);
      } else if a.Reconciling? && n !in w.reg.apps {
        UnregisteredStep(c, Up, w.now, a.luck, true, 0);
      } else {
        ActionWaits(c, a, c.mark, w.now, true);
        MarkStays(c, a, w.now);
      }
    }
  }

  lemma SweptWaits(c: Cell, now: nat, a: Action)
    requires CellInv(c, Starting, now) && (a.Sweeping? || a.Overlooked? || a.Idle?)
    ensures var c' := CellNext(c, a, now); Waits(c', c'.mark, true)
  {
  }

  lemma MarkStays(c: Cell, a: Action, now: nat)
    requires a.Reconciling? ==> a.row.Some?
    requires !a.EndStop? && !a.Forgetting?
    ensures CellNext(c, a, now).mark == c.mark
  {
    if a.Reconciling? {
      hide Reap, Drive;
      ReapMark(c, now, a.luck.waitErr);
      DriveMark(Reap(c, now, a.luck.waitErr), a.row.value, now, a.luck.spawn, a.kernel);
    }
  }

  lemma ReapMark(c: Cell, now: nat, waitErr: bool)
    ensures Reap(c, now, waitErr).mark == c.mark
  {
  }

  lemma DriveMark(c: Cell, row: AppRow, now: nat, spawn: Spawn, kernel: Option<Bytes>)
    ensures Drive(c, row, now, spawn, kernel).mark == c.mark
  {
  }

  lemma {:induction false} RunWaits(env: Env, w: World, steps: seq<Step>, n: Name)
    requires Init(w)
    ensures var w' := Run(env, w, steps); w'.phase.Up? ==> Waits(w'.cells(n), w'.cells(n).mark, true)
  {
    if steps != [] {
      hide Waits, Next;
      RunWaits(env, w, steps[..|steps| - 1], n);
      RunKeeps(env, w, steps[..|steps| - 1]);
      if Run(env, w, steps).phase.Up? {
        WaitsStep(env, Run(env, w, steps[..|steps| - 1]), steps[|steps| - 1], n);
      }
    }
  }

  /** In every run, while the daemon is up: the backoff ends 2, 4, 8, 16, 32 seconds and then a
      minute after the newest failure, by the number of failures since the daemon started, or a
      restart request has cleared it, or there was none. */
  lemma {:induction false} BackoffIsTable(env: Env, w: World, steps: seq<Step>, n: Name)
    requires Init(w) && Run(env, w, steps).phase.Up?
    ensures var c := Run(env, w, steps).cells(n);
            var k := Failures(c.log, c.mark);
            && EntryOf(c).restarts == k
            && (EntryOf(c).backoffUntil == 0
                || (k > 0 && LastFailure(c.log, c.mark).Some?
                    && EntryOf(c).backoffUntil == LastFailure(c.log, c.mark).value
                       + (if k == 1 then 2 else if k == 2 then 4 else if k == 3 then 8
                          else if k == 4 then 16 else if k == 5 then 32 else 60)))
  {
    RunWaits(env, w, steps, n);
  }

  // ---------- when nobody touches the app ----------

  lemma {:induction false} HandsOffWaits(env: Env, w: World, steps: seq<Step>, n: Name)
    requires w.phase.Up? && w.cells(n).managed.None?
    requires n in w.reg.apps && w.reg.apps[n].desired.WantRunning?
    requires AllHandsOff(env, w, steps, n)
    ensures var w' := Run(env, w, steps);
            && w'.phase.Up? && n in w'.reg.apps && w'.reg.apps[n] == w.reg.apps[n]
            && !EntryOf(w'.cells(n)).restartRequested
            && Waits(w'.cells(n), |w.cells(n).log|, false)
  {
    RunThrottled(env, w, steps, n);
    if steps != [] {
      hide HandsOff, Waits, Next, Throttled;
      var front, last := steps[..|steps| - 1], steps[|steps| - 1];
      LastHandsOff(env, w, steps, n);
      HandsOffWaits(env, w, front, n);
      OneHandsOff(env, Run(env, w, front), last, n, |w.cells(n).log|);
      RequestedNot(Run(env, w, steps).cells(n), |w.cells(n).log|, Run(env, w, steps).now);
    }
  }

  lemma RequestedNot(c: Cell, from: nat, now: nat)
    requires Throttled(c, from, now)
    ensures !EntryOf(c).restartRequested
  {
  }

  lemma OneHandsOff(env: Env, w: World, step: Step, n: Name, from: nat)
    requires w.phase.Up? && HandsOff(w, step, n) && n in w.reg.apps
    requires Waits(w.cells(n), from, false) && !EntryOf(w.cells(n)).restartRequested
    ensures Waits(Next(env, w, step).cells(n), from, false)
  {
    hide CellNext, Waits;
    if Enabled(w, step) {
      HandsOffAction(w, step, n);
      ActionWaits(w.cells(n), ActionOf(w, step, n), from, w.now, false);
    }
  }

  /** From the moment an app has no entry yet and as long as nobody touches it: a pass that finds
      no child makes an attempt if and only if nothing has failed yet or 2, 4, 8, 16, 32 seconds
      and then a minute have passed since the newest failure, by their number; a "never" app
      makes none once it has failed. */
  lemma {:induction false} AttemptIffDue(env: Env, w: World, steps: seq<Step>, pass: Step, n: Name)
    requires w.phase.Up? && w.cells(n).managed.None?
    requires n in w.reg.apps && w.reg.apps[n].desired.WantRunning?
    requires AllHandsOff(env, w, steps, n)
    requires Passes(Run(env, w, steps), pass) && EntryOf(Run(env, w, steps).cells(n)).child.None?
    ensures var w1 := Run(env, w, steps);
            var c, c' := w1.cells(n), Next(env, w1, pass).cells(n);
            var k, last := Failures(c.log, |w.cells(n).log|), LastFailure(c.log, |w.cells(n).log|);
            && (k > 0 ==> last.Some?)
            && c'.log == c.log
               + if k == 0
                    || (w.reg.apps[n].config.policy != "never"
                        && w1.now >= last.value
                                     + (if k == 1 then 2 else if k == 2 then 4 else if k == 3 then 8
                                        else if k == 4 then 16 else if k == 5 then 32 else 60))
                 then [Event(if pass.luck(n).spawn.SpawnOk? then StartEv else ErrorEv, w1.now)]
                 else []
  {
    hide Run, ReconcileCell, Failures, LastFailure;
    HandsOffWaits(env, w, steps, n);
    var w1 := Run(env, w, steps);
    PassAction(w1, pass, n);
    PassWhenDue(w1.cells(n), |w.cells(n).log|, w1.reg.apps[n], w1.now, pass.luck(n),
                KernelFor(w1.reg.apps, w1.store.jams, n));
  }

  lemma PassWhenDue(c: Cell, from: nat, row: AppRow, now: nat, luck: Luck, kernel: Option<Bytes>)
    requires Waits(c, from, false) && EntryOf(c).child.None? && row.desired.WantRunning?
    ensures var c' := ReconcileCell(c, Some(row), now, luck, kernel);
            var k := Failures(c.log, from);
            && (k > 0 ==> LastFailure(c.log, from).Some?)
            && c'.log == c.log
               + if k == 0 || (row.config.policy != "never" && now >= LastFailure(c.log, from).value + WaitAfter(k))
                 then [Event(if luck.spawn.SpawnOk? then StartEv else ErrorEv, now)]
                 else []
  {
    hide Failures, LastFailure, WaitAfter;
    assert Reap(c, now, luck.waitErr).log == c.log && EntryOf(Reap(c, now, luck.waitErr)) == EntryOf(c);
  }
}
