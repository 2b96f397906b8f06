/** Crash loops are throttled: how far apart spawn attempts are when nobody intervenes. */
module Throttle {
  import opened Prelude
  import opened Lifecycle
  import opened CellInvariant
  import opened Control
  import opened World
  import opened Safety

  /** S(n): the backoffs of the first n charges. */
  function Spacing(n: nat): nat {
    if n == 0 then 0
    else
      BackoffBounds(n);
      Spacing(n - 1) + BackoffSecs(n)
  }

  /** 2, 6, 14, 30, 62, then a minute more each time. */
  lemma {:induction false} SpacingClosedForm(n: nat)
    ensures Spacing(n) == if n <= 5 then Pow2(n + 1) - 2 else 62 + 60 * (n - 5)
  {
    if n > 0 {
      SpacingClosedForm(n - 1);
      BackoffTable(n);
      assert n <= 5 ==> Pow2(n + 1) == 2 * Pow2(n);
      assert Pow2(6) == 64 by { PowersOfTwo(); }
    }
  }

  lemma PowersOfTwo()
    ensures Pow2(0) == 1 && Pow2(1) == 2 && Pow2(2) == 4 && Pow2(3) == 8
    ensures Pow2(4) == 16 && Pow2(5) == 32 && Pow2(6) == 64
  {
    assert Pow2(1) == 2 && Pow2(2) == 4 && Pow2(3) == 8;
  }

  /** The shift is capped before it can leave 64 bits, whatever 32-bit count comes in. */
  lemma BackoffTable(n: nat)
    ensures BackoffSecs(n) == if n <= 5 then Pow2(n) else 60
    ensures Pow2(Min(n, 6)) <= 64
  {
    PowersOfTwo();
    assert n == 0 || n == 1 || n == 2 || n == 3 || n == 4 || n == 5 || n >= 6;
  }

  predicate IsAttempt(e: Event) { e.kind.StartEv? || e.kind.ErrorEv? }

  /** When a start was attempted, successfully or not, since the log had length `from`. */
  function Attempts(log: seq<Event>, from: nat): seq<int> {
    if |log| <= from then []
    else
      Attempts(log[..|log| - 1], from) + if IsAttempt(log[|log| - 1]) then [log[|log| - 1].at] else []
  }

  lemma AttemptsAppend(log: seq<Event>, from: nat, e: Event)
    requires from <= |log|
    ensures Attempts(log + [e], from) == Attempts(log, from) + if IsAttempt(e) then [e.at] else []
  {
    assert (log + [e])[..|log|] == log;
  }

  predicate Spaced(a: seq<int>) {
    forall k :: 0 <= k && k + 1 < |a| ==> a[k + 1] - a[k] >= BackoffSecs(k + 1)
  }

  lemma {:induction false} SpacedSums(a: seq<int>, n: nat)
    requires Spaced(a) && n < |a|
    ensures a[n] - a[0] >= Spacing(n)
  {
    if n > 0 {
      SpacedSums(a, n - 1);
      assert a[n - 1 + 1] - a[n - 1] >= BackoffSecs(n);
    }
  }

  /** Every attempt so far has been charged, except the one still running; the next may not
      come before the backoff of the last charge is over. */
  predicate Throttled(c: Cell, from: nat, now: nat) {
    var m, a := EntryOf(c), Attempts(c.log, from);
    && from <= |c.log|
    && m.termDeadline.None? && !m.restartRequested
    && |a| == m.restarts + (if m.child.Some? then 1 else 0)
    && Spaced(a)
    && (a != [] ==> a[|a| - 1] <= now)
    && (a != [] && m.child.None? ==> a[|a| - 1] + BackoffSecs(|a|) <= m.backoffUntil)
  }

  lemma ReapThrottled(c: Cell, from: nat, now: nat, waitErr: bool)
    requires Throttled(c, from, now)
    ensures Throttled(Reap(c, now, waitErr), from, now)
  {
    hide Attempts, BackoffSecs;
    if c.managed.Some? && c.managed.value.child.Some? {
      AttemptsAppend(c.log, from, Event(CrashEv, now));
      assert Attempts(c.log, from) + [] == Attempts(c.log, from);
    }
  }

  lemma AttemptThrottled(c: Cell, c': Cell, from: nat, now: nat, e: Event)
    requires Throttled(c, from, now) && EntryOf(c).child.None?
    requires Attempts(c.log, from) != [] ==> EntryOf(c).backoffUntil <= now
    requires IsAttempt(e) && e.at == now && c'.log == c.log + [e]
    ensures Spaced(Attempts(c'.log, from)) && Attempts(c'.log, from) == Attempts(c.log, from) + [now]
  {
    AttemptsAppend(c.log, from, e);
  }

  lemma DriveThrottled(c: Cell, from: nat, row: AppRow, now: nat, spawn: Spawn, kernel: Option<Bytes>)
    requires Throttled(c, from, now) && row.desired.WantRunning?
    ensures Throttled(Drive(c, row, now, spawn, kernel), from, now)
  {
    var c' := Drive(c, row, now, spawn, kernel);
    if MayStart(EntryOf(c), row, now) {
      AttemptThrottled(c, c', from, now, Event(if spawn.SpawnOk? then StartEv else ErrorEv, now));
    }
  }

  // ---------- when nobody touches the app ----------

  /** The operation writes the row of `n` or asks for its restart. */
  predicate Touches(op: Op, n: Name) {
    match op
    case UpsertOp(name, _, _, _) => name == n
    case UpdateConfigOp(name, _) => name == n
    case SetArtifactOp(name, _) => name == n
    case SetDesiredOp(name, _) => name == n
    case RequestRestart(name) => name == n
    case _ => false
  }

  /** What may happen while nobody touches `n`: anything at all, requests for other apps and their
      operations and passes included, but not the end of the daemon. */
  ghost predicate HandsOff(w: World, step: Step, n: Name) {
    Enabled(w, step) ==>
      match step
      case Exec(task, _, _) => !Touches(w.tasks[task][0], n)
      case Die => false
      case BeginShutdown => false
      case _ => true
  }

  ghost predicate AllHandsOff(env: Env, w: World, steps: seq<Step>, n: Name) {
    forall k :: 0 <= k < |steps| ==> HandsOff(Run(env, w, steps[..k]), steps[k], n)
  }

  lemma LastHandsOff(env: Env, w: World, steps: seq<Step>, n: Name)
    requires AllHandsOff(env, w, steps, n) && steps != []
    ensures AllHandsOff(env, w, steps[..|steps| - 1], n)
    ensures HandsOff(Run(env, w, steps[..|steps| - 1]), steps[|steps| - 1], n)
  {
    hide HandsOff, Run;
    var front := steps[..|steps| - 1];
    assert forall k :: 0 <= k <= |front| ==> front[..k] == steps[..k];
  }

  /** The row stays as it is and the daemon up. */
  lemma HandsOffRow(env: Env, w: World, step: Step, n: Name)
    requires w.phase.Up? && HandsOff(w, step, n) && n in w.reg.apps
    ensures var w' := Next(env, w, step);
            w'.phase.Up? && w'.now >= w.now && n in w'.reg.apps && w'.reg.apps[n] == w.reg.apps[n]
  {
  }

  /** And the app sees nothing but passes, exits, probes and log entries. */
  lemma HandsOffAction(w: World, step: Step, n: Name)
    requires w.phase.Up? && HandsOff(w, step, n) && Enabled(w, step) && n in w.reg.apps
    ensures var a := ActionOf(w, step, n);
            a.Idle? || a.Exiting? || a.Probing? || a.Logging? || (a.Reconciling? && a.row == Some(w.reg.apps[n]))
  {
  }

  lemma ThrottledAction(c: Cell, a: Action, row: AppRow, from: nat, now: nat)
    requires a.Idle? || a.Exiting? || a.Probing? || a.Logging? || (a.Reconciling? && a.row == Some(row))
    requires row.desired.WantRunning? && Throttled(c, from, now)
    ensures Throttled(CellNext(c, a, now), from, now)
  {
    hide Reap, Drive, Attempts, BackoffSecs;
    if a.Reconciling? {
      ReapThrottled(c, from, now, a.luck.waitErr);
      DriveThrottled(Reap(c, now, a.luck.waitErr), from, row, now, a.luck.spawn, a.kernel);
    } else if a.Logging? {
      AttemptsAppend(c.log, from, Event(a.kind, now));
      assert Attempts(c.log, from) + [] == Attempts(c.log, from);
    }
  }

  lemma ThrottledStep(env: Env, w: World, step: Step, n: Name, from: nat)
    requires w.phase.Up? && HandsOff(w, step, n)
    requires n in w.reg.apps && w.reg.apps[n].desired.WantRunning?
    requires Throttled(w.cells(n), from, w.now)
    ensures Throttled(Next(env, w, step).cells(n), from, Next(env, w, step).now)
  {
    hide CellNext, Attempts, Spaced, BackoffSecs;
    if Enabled(w, step) {
      HandsOffAction(w, step, n);
      ThrottledAction(w.cells(n), ActionOf(w, step, n), w.reg.apps[n], from, w.now);
    }
  }

  lemma {:induction false} RunThrottled(env: Env, w: World, steps: seq<Step>, n: Name)
    requires w.phase.Up? && w.cells(n).managed.None?
    requires n in w.reg.apps && w.reg.apps[n].desired.WantRunning?
    requires AllHandsOff(env, w, steps, n)
    ensures var w' := Run(env, w, steps);
            && w'.phase.Up? && n in w'.reg.apps && w'.reg.apps[n] == w.reg.apps[n]
            && Throttled(w'.cells(n), |w.cells(n).log|, w'.now)
  {
    if steps != [] {
      hide HandsOff, Throttled;
      var front, last := steps[..|steps| - 1], steps[|steps| - 1];
      LastHandsOff(env, w, steps, n);
      RunThrottled(env, w, front, n);
      HandsOffRow(env, Run(env, w, front), last, n);
      ThrottledStep(env, Run(env, w, front), last, n, |w.cells(n).log|);
    }
  }

  /** From the moment an app has no entry yet, and as long as nobody touches it, attempt n + 1
      comes at least S(n) seconds after the first, whatever the processes do and however many
      passes the requests for other apps make. */
  lemma {:induction false} CrashLoopRate(env: Env, w: World, steps: seq<Step>, name: Name, n: nat)
    requires w.phase.Up? && w.cells(name).managed.None?
    requires name in w.reg.apps && w.reg.apps[name].desired.WantRunning?
    requires AllHandsOff(env, w, steps, name)
    requires n < |Attempts(Run(env, w, steps).cells(name).log, |w.cells(name).log|)|
    ensures var a := Attempts(Run(env, w, steps).cells(name).log, |w.cells(name).log|);
            a[n] - a[0] >= if n <= 5 then Pow2(n + 1) - 2 else 62 + 60 * (n - 5)
  {
    RunThrottled(env, w, steps, name);
    SpacedSums(Attempts(Run(env, w, steps).cells(name).log, |w.cells(name).log|), n);
    SpacingClosedForm(n);
  }
}
