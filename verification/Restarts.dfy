/** Restart policy: what an operator's restart buys, and that "never" means once. */
module RestartLaws {
  import opened Prelude
  import opened Lifecycle
  import opened CellInvariant
  import opened Control
  import opened World
  import opened Safety
  import opened Throttle

  // ---------- operator restarts ----------

  /** A restart has been asked for: the exit of the child, if there is one, will be forgiven,
      and no backoff stands in the way of the next start. */
  predicate Pardoned(c: Cell) {
    && c.managed.Some?
    && (c.managed.value.child.Some? ==> c.managed.value.restartRequested)
    && (c.managed.value.child.None? ==> c.managed.value.backoffUntil <= 0)
  }

  ghost predicate FindsNoChild(w: World, step: Step, n: Name) {
    && w.phase.Up? && Enabled(w, step)
    && var a := ActionOf(w, step, n);
       a.Reconciling? && EntryOf(Reap(w.cells(n), w.now, a.luck.waitErr)).child.None?
  }

  lemma PassKeepsPardon(c: Cell, row: AppRow, now: nat, luck: Luck, kernel: Option<Bytes>)
    requires CellInv(c, Up, now) && Pardoned(c)
    requires EntryOf(Reap(c, now, luck.waitErr)).child.Some?
    ensures Pardoned(ReconcileCell(c, Some(row), now, luck, kernel))
    ensures EntryOf(ReconcileCell(c, Some(row), now, luck, kernel)).restarts == EntryOf(c).restarts
  {
    assert Reap(c, now, luck.waitErr) == Escalate(c, c.managed.value, now);
  }

  lemma PardonedListed(w: World, n: Name)
    requires WorldInv(w) && Pardoned(w.cells(n))
    ensures n in w.reg.apps
  {
  }

  lemma PardonStep(env: Env, w: World, step: Step, n: Name)
    requires WorldInv(w) && w.phase.Up? && Next(env, w, step).phase.Up?
    requires Pardoned(w.cells(n)) && !FindsNoChild(w, step, n)
    ensures Pardoned(Next(env, w, step).cells(n))
    ensures EntryOf(Next(env, w, step).cells(n)).restarts == EntryOf(w.cells(n)).restarts
  {
    hide ReconcileCell, Reap, Pardoned;
    assert CellInv(w.cells(n), w.phase, w.now);
    if Enabled(w, step) {
      var a := ActionOf(w, step, n);
      if a.Reconciling? {
        PardonedListed(w, n);
        PassKeepsPardon(w.cells(n), w.reg.apps[n], w.now, a.luck, a.kernel);
      } else {
        OthersKeepPardon(w.cells(n), a, w.now);
      }
    }
  }

  lemma OthersKeepPardon(c: Cell, a: Action, now: nat)
    requires Pardoned(c) && UpCell(c, now)
    requires !a.Reconciling? && !a.Sweeping? && !a.Overlooked? && !a.BeginStop? && !a.EndStop? && !a.Forgetting?
    ensures Pardoned(CellNext(c, a, now)) && EntryOf(CellNext(c, a, now)).restarts == EntryOf(c).restarts
  {
  }

  /** The daemon stays up, and no pass along the way finds the app without a child. */
  ghost predicate ChildAllAlong(env: Env, w: World, steps: seq<Step>, n: Name) {
    forall k :: 0 <= k < |steps| ==>
      Run(env, w, steps[..k]).phase.Up? && !FindsNoChild(Run(env, w, steps[..k]), steps[k], n)
  }

  lemma {:induction false} RunPardoned(env: Env, w: World, steps: seq<Step>, n: Name)
    requires WorldInv(w) && Pardoned(w.cells(n))
    requires ChildAllAlong(env, w, steps, n) && Run(env, w, steps).phase.Up?
    ensures Pardoned(Run(env, w, steps).cells(n))
    ensures EntryOf(Run(env, w, steps).cells(n)).restarts == EntryOf(w.cells(n)).restarts
  {
    if steps != [] {
      var front, last := steps[..|steps| - 1], steps[|steps| - 1];
      assert ChildAllAlong(env, w, front, n) by {
        forall k | 0 <= k < |front|
          ensures Run(env, w, front[..k]).phase.Up? && !FindsNoChild(Run(env, w, front[..k]), front[k], n)
        {
          assert front[..k] == steps[..k];
        }
      }
      assert steps[..|steps| - 1] == front;
      RunPardoned(env, w, front, n);
      RunFromKeeps(env, w, front);
      PardonStep(env, Run(env, w, front), last, n);
    }
  }

  /** One attempt was made at `now`, it is in the log, and only a failed one is charged. */
  predicate Attempted(c: Cell, c': Cell, now: nat, spawn: Spawn) {
    && c'.log != [] && IsAttempt(c'.log[|c'.log| - 1]) && c'.log[|c'.log| - 1].at == now
    && if spawn.SpawnOk? then
         EntryOf(c').state.Running? && EntryOf(c').child == Some(|c.instances|)
         && EntryOf(c').restarts == EntryOf(c).restarts
       else EntryOf(c').child.None? && EntryOf(c').restarts == EntryOf(c).restarts + 1
  }

  lemma PardonedPass(c: Cell, row: AppRow, now: nat, luck: Luck, kernel: Option<Bytes>)
    requires CellInv(c, Up, now) && Pardoned(c) && row.desired.WantRunning?
    requires EntryOf(Reap(c, now, luck.waitErr)).child.None?
    ensures var c' := ReconcileCell(c, Some(row), now, luck, kernel);
            if row.config.policy == "never" && EntryOf(c).restarts > 0 then
              EntryOf(c').state.Crashed? && EntryOf(c').restarts == EntryOf(c).restarts
                && |c'.instances| == |c.instances|
            else Attempted(c, c', now, luck.spawn)
  {
    var c1 := Reap(c, now, luck.waitErr);
    ReapedPardon(c, now, luck.waitErr);
    DriveAttempts(c1, row, now, luck.spawn, kernel);
  }

  lemma ReapedPardon(c: Cell, now: nat, waitErr: bool)
    requires Pardoned(c)
    requires EntryOf(Reap(c, now, waitErr)).child.None?
    ensures var c1 := Reap(c, now, waitErr);
            && EntryOf(c1).backoffUntil <= 0 && EntryOf(c1).restarts == EntryOf(c).restarts
            && |c1.instances| == |c.instances|
  {
  }

  lemma DriveAttempts(c: Cell, row: AppRow, now: nat, spawn: Spawn, kernel: Option<Bytes>)
    requires row.desired.WantRunning? && EntryOf(c).child.None? && EntryOf(c).backoffUntil <= 0
    ensures var c' := Drive(c, row, now, spawn, kernel);
            if row.config.policy == "never" && EntryOf(c).restarts > 0 then
              && EntryOf(c').state.Crashed?
              && EntryOf(c').restarts == EntryOf(c).restarts && |c'.instances| == |c.instances|
            else Attempted(c, c', now, spawn)
  {
  }

  /** After a restart request, the first pass that finds no child attempts a start there and
      then, whatever the backoff was, and neither the request nor the exit it caused is
      charged; only a "never" app that had failed before stays down. */
  lemma {:induction false} RestartBypassesBackoff(env: Env, w: World, request: Step, steps: seq<Step>, pass: Step,
                                                  n: Name)
    requires Reachable(env, w) && w.phase.Up? && w.cells(n).managed.Some?
    requires request.Exec? && Enabled(w, request) && w.tasks[request.task][0] == RequestRestart(n)
    requires ChildAllAlong(env, Next(env, w, request), steps, n)
    requires FindsNoChild(Run(env, Next(env, w, request), steps), pass, n)
    requires n in Run(env, Next(env, w, request), steps).reg.apps
    requires Run(env, Next(env, w, request), steps).reg.apps[n].desired.WantRunning?
    ensures var w2 := Run(env, Next(env, w, request), steps);
            var c, c' := w2.cells(n), Next(env, w2, pass).cells(n);
            && EntryOf(c).restarts == EntryOf(w.cells(n)).restarts
            && if w2.reg.apps[n].config.policy == "never" && EntryOf(c).restarts > 0 then
                 EntryOf(c').state.Crashed? && EntryOf(c').restarts == EntryOf(c).restarts
                   && |c'.instances| == |c.instances|
               else Attempted(c, c', w2.now, ActionOf(w2, pass, n).luck.spawn)
  {
    hide ReconcileCell, Reap, CellNext, Next, Attempted;
    ReachableInv(env, w);
    var w1 := Next(env, w, request);
    RequestPardons(env, w, request, n);
    RunPardoned(env, w1, steps, n);
    RunFromKeeps(env, w1, steps);
    PassAfterRequest(env, Run(env, w1, steps), pass, n);
  }

  lemma PassAfterRequest(env: Env, w: World, pass: Step, n: Name)
    requires WorldInv(w) && Pardoned(w.cells(n)) && FindsNoChild(w, pass, n)
    requires n in w.reg.apps && w.reg.apps[n].desired.WantRunning?
    ensures var c, c' := w.cells(n), Next(env, w, pass).cells(n);
            if w.reg.apps[n].config.policy == "never" && EntryOf(c).restarts > 0 then
              EntryOf(c').state.Crashed? && EntryOf(c').restarts == EntryOf(c).restarts
                && |c'.instances| == |c.instances|
            else Attempted(c, c', w.now, ActionOf(w, pass, n).luck.spawn)
  {
    hide ReconcileCell, Reap;
    assert CellInv(w.cells(n), w.phase, w.now);
    var a := ActionOf(w, pass, n);
    PardonedPass(w.cells(n), w.reg.apps[n], w.now, a.luck, a.kernel);
  }

  lemma RequestPardons(env: Env, w: World, request: Step, n: Name)
    requires WorldInv(w) && w.phase.Up? && w.cells(n).managed.Some?
    requires request.Exec? && Enabled(w, request) && w.tasks[request.task][0] == RequestRestart(n)
    ensures WorldInv(Next(env, w, request)) && Pardoned(Next(env, w, request).cells(n))
    ensures EntryOf(Next(env, w, request).cells(n)).restarts == EntryOf(w.cells(n)).restarts
  {
    assert CellInv(w.cells(n), w.phase, w.now);
    StepKeeps(env, w, request);
  }

  // ---------- "never" ----------

  predicate ChargeEndsStarts(log: seq<Event>, mark: nat) {
    forall i, j :: mark <= i < j < |log| && IsCharge(log[i]) ==> !IsStart(log[j])
  }

  predicate OnceOnly(c: Cell) {
    && ChargeEndsStarts(c.log, c.mark)
    && EntryOf(c).restarts <= 1
    && (EntryOf(c).restarts == 1 ==> EntryOf(c).child.None?)
  }

  lemma {:induction false} NoChargeYet(log: seq<Event>, mark: nat)
    requires Charges(log, mark) == 0
    ensures forall i :: mark <= i < |log| ==> !IsCharge(log[i])
  {
    if mark < |log| {
      NoChargeYet(log[..|log| - 1], mark);
      forall i | mark <= i < |log| ensures !IsCharge(log[i]) {
        assert i < |log| - 1 ==> log[i] == log[..|log| - 1][i];
      }
    }
  }

  lemma AppendOnce(log: seq<Event>, mark: nat, e: Event)
    requires ChargeEndsStarts(log, mark)
    requires IsStart(e) ==> Charges(log, mark) == 0
    ensures ChargeEndsStarts(log + [e], mark)
  {
    if IsStart(e) { NoChargeYet(log, mark); }
  }

  lemma ReapOnce(c: Cell, now: nat, waitErr: bool)
    requires CellInv(c, Up, now) && OnceOnly(c)
    ensures OnceOnly(Reap(c, now, waitErr))
  {
    if c.managed.Some? && c.managed.value.child.Some? {
      AppendOnce(c.log, c.mark, Event(CrashEv, now));
      AppendOnce(c.log, c.mark, Event(StoppedEv, now));
    }
  }

  lemma DriveOnce(c: Cell, row: AppRow, now: nat, spawn: Spawn, kernel: Option<Bytes>)
    requires CellInv(c, Up, now) && OnceOnly(c) && row.config.policy == "never"
    ensures OnceOnly(Drive(c, row, now, spawn, kernel))
  {
    hide ChargeEndsStarts, ProcessesSound, HeldSound;
    AppendOnce(c.log, c.mark, Event(TermEv, now));
    AppendOnce(c.log, c.mark, Event(ErrorEv, now));
    if EntryOf(c).restarts == 0 { AppendOnce(c.log, c.mark, Event(StartEv, now)); }
  }

  ghost predicate PolicyNever(w: World, n: Name) {
    w.phase.Up? && (n in w.reg.apps ==> w.reg.apps[n].config.policy == "never")
  }

  lemma ActionOnce(c: Cell, a: Action, now: nat)
    requires CellInv(c, Up, now) && OnceOnly(c)
    requires a.Reconciling? ==> a.row.Some? && a.row.value.config.policy == "never"
    requires !a.Sweeping? && !a.Overlooked? && !a.BeginStop? && !a.EndStop? && !a.Forgetting?
    ensures OnceOnly(CellNext(c, a, now))
  {
    if a.Reconciling? {
      hide Reap, Drive, OnceOnly, CellInv;
      ReapOnce(c, now, a.luck.waitErr);
      ReapKeeps(c, now, a.luck.waitErr);
      DriveOnce(Reap(c, now, a.luck.waitErr), a.row.value, now, a.luck.spawn, a.kernel);
    } else if a.Logging? {
      AppendOnce(c.log, c.mark, Event(a.kind, now));
    }
  }

  lemma OnceStep(env: Env, w: World, step: Step, n: Name)
    requires WorldInv(w) && PolicyNever(w, n) && Next(env, w, step).phase.Up?
    requires OnceOnly(w.cells(n))
    ensures OnceOnly(Next(env, w, step).cells(n))
  {
    hide ReconcileCell, OnceOnly, CellInv;
    var c := w.cells(n);
    assert CellInv(c, w.phase, w.now);
    if Enabled(w, step) {
      var a := ActionOf(w, step, n);
      if a.Reconciling? && n !in w.reg.apps {
        UnregisteredStep(c, Up, w.now, a.luck, true, 0);
      } else {
        ActionOnce(c, a, w.now);
      }
    }
  }

  lemma {:induction false} RunOnce(env: Env, w: World, steps: seq<Step>, n: Name)
    requires WorldInv(w) && OnceOnly(w.cells(n))
    requires forall k :: 0 <= k <= |steps| ==> PolicyNever(Run(env, w, steps[..k]), n)
    ensures OnceOnly(Run(env, w, steps).cells(n))
  {
    if steps != [] {
      var front := steps[..|steps| - 1];
      forall k | 0 <= k <= |front| ensures PolicyNever(Run(env, w, front[..k]), n) {
        assert front[..k] == steps[..k];
      }
      RunOnce(env, w, front, n);
      RunFromKeeps(env, w, front);
      assert steps[..|steps|] == steps && steps[..|front|] == front && front[..|front|] == front;
      assert PolicyNever(Run(env, w, front), n) && PolicyNever(Run(env, w, steps), n);
      OnceStep(env, Run(env, w, front), steps[|steps| - 1], n);
    }
  }

  /** From the end of the orphan sweep on, as long as the policy stays "never": at most one
      crash or failed start is ever charged, and nothing is started after it, whatever restart,
      stop, start, reload, rollback or deploy requests are served. */
  lemma {:induction false} NeverMeansOnce(env: Env, w: World, sweep: Step, steps: seq<Step>, n: Name)
    requires Reachable(env, w) && sweep.Sweep? && Enabled(w, sweep)
    requires forall k :: 0 <= k <= |steps| ==> PolicyNever(Run(env, Next(env, w, sweep), steps[..k]), n)
    ensures var c := Run(env, Next(env, w, sweep), steps).cells(n);
            Charges(c.log, c.mark) <= 1 && ChargeEndsStarts(c.log, c.mark)
  {
    ReachableInv(env, w);
    var w1 := Next(env, w, sweep);
    SweptOnce(env, w, sweep, n);
    RunOnce(env, w1, steps, n);
    RunFromKeeps(env, w1, steps);
    assert steps[..|steps|] == steps;
    OnceMeans(Run(env, w1, steps), n);
  }

  lemma SweptOnce(env: Env, w: World, sweep: Step, n: Name)
    requires WorldInv(w) && sweep.Sweep? && Enabled(w, sweep)
    ensures WorldInv(Next(env, w, sweep)) && OnceOnly(Next(env, w, sweep).cells(n))
  {
    assert CellInv(w.cells(n), w.phase, w.now);
    StepKeeps(env, w, sweep);
    var c' := Next(env, w, sweep).cells(n);
    assert c'.managed.None? && c'.mark == |c'.log|;
  }

  lemma OnceMeans(w: World, n: Name)
    requires WorldInv(w) && PolicyNever(w, n) && OnceOnly(w.cells(n))
    ensures Charges(w.cells(n).log, w.cells(n).mark) <= 1
  {
    assert CellInv(w.cells(n), w.phase, w.now);
  }
}
