# Verification of the nockd reconciler

`nockd` keeps NockApps running on one machine. An operator talks to a daemon, the daemon keeps
a registry of what should run and a content store of what can run, and a supervisor drives
operating-system processes toward the registry. The daemon may die at any moment and be started
again; the processes exit when they like; requests overlap with each other and with the
background loops. This project models that protocol in Dafny and proves what it promises. Four
smaller cores of the same repository are modelled and proved beside it: the event stream, the
attestation verdict, the escape-stripping scanner and the expression evaluator of the design
runtime.

`dafny verify dfyconfig.toml` checks everything.

## How it is laid out

Values and one-app transitions:

- `Prelude.dfy`, `Lifecycle.dfy`: one application as a `Cell` (the supervisor's entry, every
  process ever started with the signals it got, the pidfile, the staged kernel, the app's share
  of the event log) and every transition on it.
- `CellInvariant.dfy`: what holds of a cell in each phase of the daemon's life, kept by every
  transition.
- `Control.dfy`, `Attest.dfy`: registry tables, store, and each request handler as the list of
  small operations it performs.
- `World.dfy`: the whole state machine. Steps are: submit a request, perform the next operation
  of any handler in flight, a background tick, a process exit, time passing, a health or status
  probe, daemon death, boot, orphan sweep (with what it could not read), begin and end of
  shutdown.

What is proved of every run of that machine: `Safety.dfy`, `Freshness.dfy`, `Durability.dfy`,
`Verification.dfy`, `TrustRuns.dfy`, `Throttle.dfy`, `Backoff.dfy`, `Deadlines.dfy`,
`Bookkeeping.dfy`, `Probes.dfy`, `Endings.dfy`, `Convergence.dfy`, `Restarts.dfy`, and per pass
`Reconciling.dfy`. `BlindSweep.dfy` is about a sweep that overlooks an orphan, `HistoryRuns.dfy` and
`VerdictRuns.dfy` about deploy history and verdicts when handlers overlap (with `Stages.dfy`,
handlers stopped half way), `StaleRuns.dfy` about a process older than its row, `BoundaryRun.dfy`
about uploads that overwrite each other, `LeftoverKernel.dfy` about the kernel file beside a
process.

Handlers served whole: `Atomic.dfy` (tables and files), `Served.dfy` (processes),
`Rollback.dfy` (history and rollback), `HandlerLaws.dfy` and `HandlerCells.dfy` (what each handler
does to tables and to processes), `WholeHandlers.dfy`
(a handler served whole is one of the runs, so the theorems above apply to it).

The imperative code: `Host.dfy`, `Registry.dfy`, `DeployHistory.dfy`, `Storage.dfy`,
`Supervisor.dfy`, `Daemon.dfy`, `EventStream.dfy` hold classes whose methods update their fields
and loop over their maps as the source does. Each method is proved to do exactly what the value
function of the same purpose says: the three loops of `reconcile`, in any order, do to every app
what `ReconcileCell` does to one; each handler does what its request served whole does.

Smaller cores: `EventTail.dfy`, `StripAnsi.dfy`, `Expression.dfy`, `ExpressionLoops.dfy`,
`ExpressionPrinting.dfy`, `ExpressionCorrect.dfy`, `ExpressionBroken.dfy`.

## What is assumed

- One `reconcile`, with the registry read and the shutdown test at its head, is one step. The
  source reads both before it takes the process-map lock (`src/supervisor.rs:174-182`); with
  finer interleavings a stale registry read could start an app from an old row.
- Starting a process and writing its pidfile is one step with respect to daemon death, and so is
  the whole orphan sweep.
- The orphan sweep does not overlook an orphan: it may fail to list the apps or to read a pidfile,
  but then no pidfile it missed names a live process. `SingleWriterIffNoneOverlooked` shows that
  this is exactly what single writer needs.
- One clock reading serves a whole pass or handler operation, and the clock does not go back. The
  code's clock counts whole seconds, so "at least 10 seconds" and the crash-loop spacing are
  differences of truncated readings: real time may fall short of them by less than one second.
- SIGKILL takes effect, pids are not reused, registry reads and writes of handlers succeed, and
  writes of pidfiles, events and store files succeed and are not torn. Failed staging, failed
  exec, failed `try_wait`, failed reads of the event stream and of the orphan sweep are modelled.
  A pass whose registry read fails does nothing and is no step.
- BLAKE3, signature checking, JavaScript equality, truth, property access and number conversion
  are parameters, with no assumption unless a lemma names one.

## Where code and comments differ

The model follows the code.

- The restart policy "on-failure" behaves like "always": only "never" is tested.
- `restarts` is never reset, so a "never" app that failed once stays down after a redeploy
  (`NeverMeansOnce`).
- "Verified is sticky" does not survive a redeploy of the same bytes, because the artifact row is
  replaced first (`RowIsLatestVerdict`). When deploys overlap, the verdict a deploy records is what
  the row reads exactly when it is "verified" or nothing was verified since the row was last put
  (`VerdictLandsInRunIff`); `InterleavedVerdictLost` is a run in which it is lost.
- The newest history entry is not always the running artifact: app row and history are written one
  after the other. `SettledIffOrderly` gives the exact condition on the steps of a run, one that
  can be checked before each step; `InterleavedHistoryDiffers` and `DeathLosesEntry` are runs that
  break it, by overlapping deploys and by a daemon that dies between the two writes.
- The deploy history listing collapses all duplicates, not only consecutive ones
  (`ListsEachArtifactOnce`), and orders by second, so an artifact comes first for certain exactly
  when no other was deployed that late (`FirstIffStrictlyLatest`).
- The event stream is to carry only new events, but when its first read fails it starts at zero and
  replays the whole table (`OnlyNewIffFirstReadOrEmpty`, `FailedFirstReadReplays`).
- The store is said to treat a stored hash as a no-op; that is so exactly when a kernel file is
  there (`FrozenIffKernel`). The artifact hash covers an undelimited concatenation
  (`SameArtifactIff`, `BoundaryOverwrites`), so two uploads may share it; the stored files are the
  uploaded ones exactly when all uploads under the hash agree (`StoredAsUploadedIff`), and
  `BoundaryOverwritesInRun` is a run in which they do not.
- A binary-only artifact starts beside the kernel file its predecessor left in the state dir: the
  file is the last one any attempt wrote there (`KernelIsLastWritten`, `BinaryBesideOldKernel`).
- A live process may be older than its row: every deploy, rollback or reload writes the row before
  it asks for the restart, so one handler is enough (`OneDeployLeavesStale`). `FreshAllAlongIff` gives
  the exact condition on the steps of a run, one that can be checked before each step, and
  `NoSilentStale` says that such a process always has a handler in flight that is certain to ask for
  its restart.
- The evaluator's equality scan does not know about quotes, so a quoted text is read as itself
  exactly when it holds no operator outside brackets (`QuotedIffNoEquality`).
- An app stopped while its process is being restarted is not shown as "stopped" before that process
  is gone: the pass leaves the state it finds (`StateAfterPass`, `StatusHonest`).

## Model

| member | source | states |
|---|---|---|
| Safety.SingleWriter | src/supervisor.rs:172-333 | in every run no app has two live processes; the live one is named by its pidfile and, while the daemon is up, is its unreaped child |
| Safety.GraceBeforeKill | src/supervisor.rs:225-231 | in every run each SIGKILL comes at least 10 seconds after the first SIGTERM to the same process, whoever sends it; the bound is stated as a number |
| Deadlines.DeadlineIsTermPlusTen | src/supervisor.rs:158-169 | in every run a pending deadline is exactly 10 seconds after the newest SIGTERM to the held child, whether a stop or a restart sent it |
| Deadlines.KillIffTenSecondsLate | src/supervisor.rs:225-231 | in every run a pass that does not see a terminating child gone sends it SIGKILL if 10 seconds have passed since its newest SIGTERM, and otherwise nothing |
| Safety.CrashIffUnsignalled | src/supervisor.rs:198-223 | a reaped exit is charged as a crash exactly when the process was never sent SIGTERM |
| Bookkeeping.RestartIffRequested | src/supervisor.rs:198-206 | in every run a reaped exit is accounted as a restart exactly when a restart of that very process was requested |
| Bookkeeping.LogKeepsAccounts | src/supervisor.rs:198-223 | since the daemon started, crash events are the exits charged as crashes, stop events the exits of stopped processes, start events the processes started; a restarted process leaves none |
| Bookkeeping.PassEvents | src/supervisor.rs:184-330 | in every run the events a pass records for an app: none, a stop or a crash for an exit it sees, then a stop begun, a start or a failed start |
| Safety.Conservation | src/supervisor.rs:198-223 | since the daemon started, starts minus reaped exits is one with a child and zero without; `restarts` counts crash and error events |
| Safety.StateCoherence | src/supervisor.rs:185-330 | a child is held exactly in Running or Stopping; Stopping or a restart request implies a deadline, which implies a child; the next start is at most a minute away |
| Safety.DropUnreachable | src/supervisor.rs:234-246 | every tracked app is registered, so the kill of removed apps never happens |
| ReconcileLaws.DropKills | src/supervisor.rs:234-246 | should a tracked app ever not be registered, the pass kills its process, unless it sees it gone, removes the pidfile and forgets it |
| Safety.SignalsOnlyHeldChild | src/supervisor.rs:158-169 | while the daemon is up no step signals anything but the unreaped child it holds |
| Safety.StartsOnlyAlone | src/supervisor.rs:248-320 | a process is started only while the daemon is up, only for an app that should run, and only when no process of that app is alive |
| Safety.SweepLeavesNone | src/supervisor.rs:396-427 | after an orphan sweep that overlooked no orphan, no process of any app is alive, whatever the last daemon left |
| Endings.EndsByItselfOrKilled | src/supervisor.rs:396-470 | in every run a process stops being alive only by exiting, or at a step that sends it SIGKILL |
| Endings.SweepIsGraceful | src/supervisor.rs:396-427 | the sweep sends each process it finds SIGTERM, and SIGKILL, at least 10 seconds later, to exactly those that did not go |
| Endings.ShutdownTerms | src/supervisor.rs:432-451 | the first half of a shutdown sends SIGTERM to exactly the held process of each app |
| Endings.ShutdownKillsTheRest | src/supervisor.rs:452-470 | the second half sends SIGKILL to exactly what is still alive and removes the pidfile of each tracked app |
| Endings.PidfileIffHeld | src/supervisor.rs:194-320 | after a sweep that could list the apps, and while the daemon stays up, an app has a pidfile exactly while a process is held, and it names that process |
| BlindSweep.NoneLeftIffNoneOverlooked | src/supervisor.rs:396-427 | after any sweep, whatever it failed to list or read, no process is alive exactly when no overlooked app had a live process named by its pidfile |
| BlindSweep.BlindSweepTouches | src/supervisor.rs:396-418 | a sweep that cannot list the apps touches nothing, and one that cannot read a pidfile only removes it |
| BlindSweep.SingleWriterIffNoneOverlooked | src/supervisor.rs:396-427 | after any sweep, single writer holds in everything that may follow exactly under that same condition |
| Safety.ShutdownLeavesNone | src/supervisor.rs:432-470 | after a clean shutdown no process of any app is alive |
| Safety.StartTimeHonest | src/supervisor.rs:303-310 | the entry of a held child dates that child |
| Safety.RunKeeps | src/daemon.rs:140-153 | the cell invariant holds in every state any interleaving of steps, deaths and boots reaches |
| CellInvariant.CellStep | src/supervisor.rs:158-470 | each permitted transition of one app keeps the invariant of its phase |
| Freshness.NoSilentStale | src/api.rs:189-216 | a live process with no termination pending differs from the app row's present artifact, args, port or endpoint exactly when a handler changed the row under that process at some step, the daemon has been up ever since, and that handler is still certain to request the restart |
| Freshness.FreshStepIff | src/api.rs:189-211 | from a fresh up state to an up state, an app stays fresh exactly when the step does not change what its row says to run under a held process that nobody has told to stop |
| Freshness.FreshAllAlongIff | src/api.rs:189-211 | in every run, each held process not told to stop was started from the row of the moment, all along, exactly when no step made such a change |
| StaleRuns.OneDeployLeavesStale | src/api.rs:189-211 | from a fresh root, a deploy served whole and any other deploy of the app up to its history entry leave a live process that is older than its row, with no other handler in flight |
| Freshness.TasksDisciplined | src/api.rs:150-319 | at every point of every handler, each change of what an app should run still to come is followed by a restart request that nothing can skip |
| Durability.NoDanglingArtifact | src/api.rs:161-204 | at every point of every run each hash in a row or in the history has an artifact row and a stored binary, and nothing is stored that was not uploaded |
| Durability.StoredAsUploadedIff | src/store.rs:75-101 | in every run the files under a stored hash are those of every upload under it exactly when those uploads agree |
| BoundaryRun.BoundaryOverwritesInRun | src/store.rs:56-71 | under any hash, from a fresh root, two deploys served whole leave the first app on a hash whose binary is not the one it was deployed with |
| Durability.OnlyUploadsStored | src/store.rs:75-101 | every stored file lies under the hash of some deploy that a serving daemon accepted |
| Durability.RunsOnItsKernel | src/supervisor.rs:340-342 | the kernel beside a running process is the one its own artifact was uploaded with, when the uploads of that artifact agree |
| LeftoverKernel.KernelIsLastWritten | src/supervisor.rs:340-342 | the kernel file in a state dir is what the last attempt that wrote there left; attempts at an artifact without a kernel write nothing |
| LeftoverKernel.BinaryBesideOldKernel | src/store.rs:103-114 | from a fresh root, a deploy with a kernel, an exit and a deploy without one leave a live binary-only process beside the old kernel |
| Durability.StagedOnlyWhenDead | src/supervisor.rs:252-305 | no step replaces the staged kernel under a live process |
| Verification.VerifiedIsJustified | src/registry.rs:364-377 | a row reads "verified" only if some deploy of that hash carried a valid, binding attestation by a builder trusted at that moment |
| Attest.VerifiedIffEvidence | src/attest.rs:94-121 | the verdict is "verified" exactly when signature, both hashes and trust are in order |
| Attest.VerdictTable | src/attest.rs:94-121 | the verdict is "drift" exactly when the attestation is malformed, badly signed or names other hashes, "unverified" exactly when there is none or a good one by an untrusted builder, and a builder is recorded exactly when the signature is valid |
| HandlerLaws.ServedVerdict | src/api.rs:161-182 | a deploy served whole, accepted or refused for its icon, leaves a row with its kernel hash, that verdict and that builder |
| TrustRuns.TrustedIff | src/api.rs:450-464 | in every run a key is trusted exactly when it was added, by request or at boot, or was there from the start, and has not been removed since |
| TrustRuns.AssessmentJudges | src/api.rs:161-182 | in every run an assessment leaves the verdict to be recorded that the attestation and the trust of that moment call for |
| TrustRuns.RevokedIsNotVerified | src/attest.rs:114-117 | a deploy assessed after its builder's key was removed, and not added again, is not found verified |
| TrustRuns.VerifiedWasTrusted | src/registry.rs:364-377 | in every run a row reads "verified" only if some deploy of that hash was assessed with a valid, binding attestation by a key that, going by the steps so far, was trusted then |
| TrustRuns.RevokedNeverReads | src/attest.rs:114-117 | a hash deployed only after a key was removed and only on that key's signature does not read "verified" |
| Atomic.RowIsLatestVerdict | src/registry.rs:154-168 | with handlers served whole an artifact row reads the verdict of the latest deploy of that hash, and a hash without a row has none |
| VerdictRuns.VerdictLandsIff | src/registry.rs:371-375 | one statement: a verdict lands exactly when it does not come to downgrade "verified" |
| VerdictRuns.ReadsVerifiedIff | src/registry.rs:154-168 | in every run a row reads "verified" exactly when some deploy recorded that since the row was last put |
| VerdictRuns.VerdictLandsInRunIff | src/api.rs:161-182 | in every run the verdict a deploy records is what the row reads right after, exactly when it is "verified" or nothing was verified since the row was last put |
| VerdictRuns.InterleavedVerdictLost | src/api.rs:161-182 | from a fresh root, any two deploys of one artifact, the first with evidence and the second without, can both be served to the end, the second last, with the row reading "verified" |
| Atomic.ServedClosed | src/api.rs:150-464 | each of the nine handlers, run operation by operation, has its stated effect on tables and files |
| Served.ServedCellClosed | src/api.rs:150-439 | each handler, run operation by operation, logs, restarts and reconciles each app as stated, and only when it is accepted |
| WholeHandlers.ServedWholeIsARun | src/api.rs:150-439 | submitting a request and performing its operations back to back is a run of the system that ends in the handler's closed form |
| WholeHandlers.ServedKeeps | src/api.rs:150-439 | a handler served whole keeps the cell invariant for every app |
| HandlerLaws.DeployInstalls | src/api.rs:189-204 | an accepted deploy makes the app want to run exactly what was uploaded with exactly the configuration sent, and touches no other app |
| HandlerLaws.RefusedDeploy | src/api.rs:161-187 | a deploy refused for its icon changes no app and no history, though bytes, row and verdict are recorded |
| HandlerLaws.ReloadKeepsArtifact | src/api.rs:243-292 | a reload takes the manifest's configuration, keeps the artifact, and does nothing when refused |
| HandlerLaws.RestartWantsRunning | src/api.rs:225-237 | a restart leaves the row as it was but for desired "running" and changes nothing else; for an unknown app it changes nothing |
| HandlerLaws.StopWantsStopped | src/api.rs:378-394 | the same for stop and "stopped" |
| HandlerLaws.StartWantsRunning | src/api.rs:378-394 | the same for start and "running" |
| HandlerLaws.RemovedIsUntrusted | src/api.rs:458-464 | after a key is removed it is not trusted, every other key keeps its standing, and no other table changes |
| HandlerLaws.AddedIsTrusted | src/api.rs:450-456 | after a key is added it is trusted, every other key keeps its standing, and no other table changes |
| HandlerCells.ServedLogs | src/api.rs:150-439 | a handler served whole records exactly one event, of its kind and for the app it names, when it is an accepted deploy, restart, reload or rollback, and otherwise none |
| HandlerCells.ServedSettles | src/api.rs:150-439 | an accepted handler leaves every app as a pass with the new tables leaves it |
| HandlerCells.ServedTerminates | src/api.rs:211-237 | an accepted deploy, restart, reload or rollback sends the named app's process one SIGTERM there and then, with ten seconds to go and the restart noted |
| HandlerCells.RestartComesBack | src/api.rs:225-237 | from every reachable state with a live process, a restart, the exit and a pass leave a new live process of the row, which wants to run, unless the policy is "never" and the app has failed |
| HandlerLaws.StartUndoesStopIff | src/api.rs:378-394 | stop then start restores the tables exactly when the app was meant to run |
| HandlerLaws.FleetIsEachApp | src/api.rs:420-431 | the fleet request does to every app what the single request does |
| HandlerLaws.LastFleetWins | src/api.rs:433-439 | of two fleet requests only the last leaves a trace |
| Throttle.CrashLoopRate | src/supervisor.rs:285-328 | from a fresh entry, as long as no operation writes the app's row or requests its restart, attempt n + 1 comes at least S(n) seconds after the first, whatever the processes do and whatever is requested for other apps |
| Throttle.SpacingClosedForm | src/supervisor.rs:505-508 | S(n) is 2^(n+1) - 2 up to five and 62 + 60(n - 5) beyond |
| Throttle.BackoffTable | src/supervisor.rs:505-508 | the backoff doubles to 32 and stays at 60; the shifted value never exceeds 64 |
| Backoff.BackoffIsTable | src/supervisor.rs:213-220 | in every run the backoff ends 2, 4, 8, 16, 32 and then 60 seconds after the newest failure, by the number of failures since the daemon started, or was cleared by a restart request |
| Backoff.AttemptIffDue | src/supervisor.rs:285-328 | with nobody touching the app, a pass that finds no child makes an attempt exactly when nothing has failed yet or, for a policy other than "never", that many seconds have passed |
| ReconcileLaws.SecondPassSettled | src/supervisor.rs:172-333 | a second pass at the same instant changes nothing tracked, but a "never" app whose start just failed goes from Backoff to Crashed |
| ReconcileLaws.StateAfterPass | src/supervisor.rs:248-330 | the state a pass leaves, by what is held, terminating and wanted, and by policy |
| ReconcileLaws.StatusHonest | src/apiv1.rs:54-71 | right after a pass the status is "stopped", "crashing", "degraded" or "running" by what is wanted, held, terminating and probed; only a process told to stop before its app was goes on reading as it did |
| Probes.HealthIsLastProbe | src/supervisor.rs:125-138 | in every run health and status line of a held process are what the last probe since its start found, and without one its health is unknown |
| Probes.ReadingsStep | src/supervisor.rs:125-138 | in every run a probe records what it found, a pass drops the status line only for a stopped app and the health only then or at a start, and nothing else touches either |
| ReconcileLaws.StatusWords | src/apiv1.rs:54-71 | at any moment, when exactly each of the four words is reported |
| Convergence.ThreePassesStop | src/supervisor.rs:254-280 | with desired "stopped", three passes by tick or by handler, the second at least 10 seconds after the first, reach and keep a state with no process, whatever happens between them, requests for other apps included, as long as no operation writes the app's row or requests its restart |
| Convergence.StartsWhenDue | src/supervisor.rs:282-320 | the first pass at or after the backoff that finds no child leaves a live process of the current row Running |
| Convergence.UpWithinAMinute | src/supervisor.rs:285-328 | from every reachable state without a child, one pass a minute later has the app up |
| RestartLaws.RestartBypassesBackoff | src/supervisor.rs:158-169 | after a restart request the first pass that finds no child attempts a start, and the exit asked for is not charged |
| RestartLaws.NeverMeansOnce | src/supervisor.rs:285-288 | while the policy stays "never" at most one failure is charged and nothing is started after it, whatever is requested |
| RollbackLaws.ServedHistoryCurrent | src/registry.rs:230-237 | with handlers served whole the newest history entry of each app is its artifact |
| RollbackLaws.RollbackIffTwoArtifacts | src/registry.rs:241-253 | rollback has a target exactly when the app has run two distinct artifacts |
| RollbackLaws.PreviousIsNewestOther | src/registry.rs:241-253 | the target is the newest entry with another artifact |
| RollbackLaws.RollbackSwaps | src/api.rs:297-319 | a rollback runs the target, makes the old artifact the next target, appends one entry, keeps configuration and manifest and touches no other app or table |
| RollbackLaws.RollbackToggles | src/api.rs:297-319 | n rollbacks in a row give the original artifact for even n and the previous one for odd n |
| RollbackLaws.RedeployKeepsTarget | src/api.rs:190-204 | deploying the bytes already running does not move the rollback target |
| RollbackLaws.RefusedRollback | src/api.rs:301-307 | a refused rollback changes no table |
| RollbackLaws.RecordCurrentIff | src/registry.rs:230-237 | an entry leaves the history current exactly when it is for the artifact the app runs |
| HistoryRuns.SettledIffOrderly | src/api.rs:189-204 | in every run, history is current or will be once the entries owed are made, all along, exactly when no step pointed the app at an artifact while an entry for another was owed and no daemon ended with the history behind |
| HistoryRuns.CarefulHistoryCurrent | src/api.rs:308-309 | if nobody writes the row while another handler owes an entry and no daemon ends while one is owed, history is current whenever none is owed |
| HistoryRuns.CarefulHistoriesCurrent | src/api.rs:308-309 | if that holds for every app, the history of every app is current whenever no entry is owed |
| HistoryRuns.CompletionsCurrentIff | src/api.rs:189-204 | from any state of the handlers, every way to make the entries still owed ends with a current history exactly when the state is settled |
| HistoryRuns.DifferentEntriesDiverge | src/api.rs:189-204 | when entries for different artifacts are owed, some completion leaves history and app apart |
| HistoryRuns.InterleavedHistoryDiffers | src/api.rs:189-204 | from a fresh root, any two deploys of one app with different artifacts can both be served to the end with the app running the second and the first as its newest entry |
| HistoryRuns.DeathLosesEntry | src/api.rs:190-204 | a daemon that dies between row and entry leaves the app running an artifact its history does not know |
| Supervision.Supervisor.Reconcile | src/supervisor.rs:172-333 | the three loops, in any order and with any outcome of waits and spawns, do to every app what the one-app pass does, and nothing while shutting down |
| Supervision.Supervisor.ReapPass | src/supervisor.rs:184-232 | the reaping loop reaps or escalates each tracked app once |
| Supervision.Supervisor.ReapExited | src/supervisor.rs:198-224 | an exit is taken as restart, stop or crash, in that order |
| Supervision.Supervisor.DropPass | src/supervisor.rs:235-246 | exactly the unregistered entries are killed and forgotten |
| Supervision.Supervisor.DrivePass | src/supervisor.rs:248-330 | each registered app is driven once toward its row |
| Supervision.Supervisor.StartDriven | src/supervisor.rs:302-329 | a start stages, spawns, writes the pidfile and the entry; a failure is charged and backed off |
| Supervision.Supervisor.RequestRestart | src/supervisor.rs:158-169 | SIGTERM, deadline and no backoff for the named app only |
| Supervision.Supervisor.SetHealth | src/supervisor.rs:125-130 | only the named entry's health changes |
| Supervision.Supervisor.SetStatusLine | src/supervisor.rs:133-138 | only the named entry's status line changes |
| Supervision.Supervisor.CleanupOrphans | src/supervisor.rs:396-427 | every registered app's leftover is terminated, killed if it outlives the wait, and its pidfile removed; an unreadable pidfile is only removed, and nothing happens when the apps cannot be listed |
| Supervision.Supervisor.BeginStopAll | src/supervisor.rs:432-451 | every handle is taken and signalled, and the shutdown flag is up |
| Supervision.Supervisor.FinishStopAll | src/supervisor.rs:452-470 | what outlived the grace period is killed and every tracked pidfile removed |
| DaemonProcess.Daemon.Open | src/daemon.rs:28-44 | a second daemon on a locked root gets nothing; the first trusts its own key and tracks nothing yet |
| DaemonProcess.LockFile.TryLock | src/daemon.rs:56-73 | the lock is granted once |
| DaemonProcess.Daemon.Deploy | src/api.rs:150-223 | the handler has exactly the effect of its request served whole, and answers 400 on a bad icon |
| DaemonProcess.Daemon.Restart | src/api.rs:225-237 | the same for restart, 404 for an unknown app |
| DaemonProcess.Daemon.Reload | src/api.rs:243-292 | the same for reload, 404 or 400 |
| DaemonProcess.Daemon.Rollback | src/api.rs:297-319 | the same for rollback, 404 or 409 |
| DaemonProcess.Daemon.SetOne | src/api.rs:378-394 | the same for stop and start |
| DaemonProcess.Daemon.FleetSet | src/api.rs:420-431 | the same for up and down; `changed` counts the apps that differed |
| DaemonProcess.Daemon.TrustAdd | src/api.rs:450-456 | only the trusted set changes |
| DaemonProcess.Daemon.TrustRemove | src/api.rs:458-464 | only the trusted set changes |
| RegistryTables.Registry.PutArtifact | src/registry.rs:154-168 | the row is replaced and its verdict gone |
| RegistryTables.Registry.SetArtifactVerification | src/registry.rs:364-377 | a "verified" row is not downgraded |
| RegistryTables.Registry.UpsertApp | src/registry.rs:172-200 | the row is written and wanted running |
| RegistryTables.Registry.UpdateAppConfig | src/registry.rs:206-226 | only the configuration of an existing row changes |
| RegistryTables.Registry.SetArtifact | src/registry.rs:257-264 | only the artifact of an existing row changes |
| RegistryTables.Registry.SetDesiredStatus | src/registry.rs:300-307 | only the desired status of an existing row changes |
| RegistryTables.Registry.AppendDeploy | src/registry.rs:230-237 | one history entry is appended |
| RegistryTables.Registry.FindPrevious | src/registry.rs:241-253 | the newest entry of the app with another artifact |
| RegistryTables.Registry.ListDeploys | src/registry.rs:268-298 | each artifact the app ran once, latest first, marked if current, up to the limit |
| RegistryTables.Registry.AddEvent | src/registry.rs:410-417 | one row with the next id; ids keep growing |
| RegistryTables.Registry.ListEventsSince | src/registry.rs:440-448 | the first `limit` rows with a larger id, oldest first |
| DeployHistory.ListsEachArtifactOnce | src/registry.rs:268-298 | below the limit the listing has exactly the artifacts the app ever ran, each once |
| DeployHistory.ListsLatestTimes | src/registry.rs:268-298 | each listed artifact shows the second it was last deployed, and whether it is the current one |
| DeployHistory.NewestFirst | src/registry.rs:277-284 | the newest deploy's artifact comes first when nothing else was deployed that late |
| DeployHistory.FirstIffStrictlyLatest | src/registry.rs:277-284 | for every history, an artifact heads every listing there may be exactly when no other was deployed in the same second or later |
| DeployHistory.SameSecondEitherWay | src/registry.rs:277-284 | two deploys within one second may be listed either way |
| ContentStore.Store.Put | src/store.rs:75-101 | a complete hash is left alone; otherwise kernel, then binary are written |
| ContentStore.Store.StageJam | src/store.rs:105-114 | the state dir gets the artifact's kernel if it has one |
| ContentStore.PutStoresUploadIff | src/store.rs:75-101 | when exactly the files after a put are the uploaded ones; other hashes are untouched |
| ContentStore.PutIdempotent | src/store.rs:73-86 | the same upload again changes nothing |
| ContentStore.FrozenIffKernel | src/store.rs:48-50 | later puts are no-ops exactly when a kernel file is there |
| ContentStore.StagedIsKernelIff | src/store.rs:105-114 | the staged kernel is the artifact's own exactly when it has one or none was there before |
| ContentStore.SameArtifactIff | src/store.rs:56-71 | with an injective hash two uploads share an artifact hash exactly when kernel, binary and triple run together are equal |
| ContentStore.BoundaryOverwrites | src/store.rs:56-71 | under any hash, moving the kernel into the binary keeps the artifact hash and replaces the stored binary |
| ContentStore.RecordPinsUpload | src/store.rs:52-71 | with an injective hash both hashes together identify kernel and binary for a given triple |
| EventTail.ExactlyOnceInOrder | src/apiv1.rs:196-220 | for any interleaving of appends, polls and failed polls, what was sent is a gap-free, duplicate-free prefix of the events after the start |
| EventTail.BacklogDrains | src/apiv1.rs:207-217 | with no further appends, exactly ceil(n/100) polls drain a backlog of n |
| EventStreaming.EventStream.Tick | src/apiv1.rs:207-217 | the loop body is one poll of that model |
| EventStreaming.EventStream.constructor | src/apiv1.rs:196-204 | a stream starts after the newest event, or at zero when it cannot be read |
| EventStreaming.StreamsDueEvents | src/apiv1.rs:196-220 | a client is sent a prefix of what was recorded after it connected, or of the whole table if the first read failed |
| EventStreaming.OnlyNewIffFirstReadOrEmpty | src/apiv1.rs:199-204 | a drained client was sent only rows recorded after it connected exactly when the first read succeeded or there were none before |
| EventStreaming.FailedFirstReadReplays | src/apiv1.rs:199-204 | one old event, a failed first read and one poll send the old event |
| StripAnsi.StripAnsi | src/config.rs:73-92 | the scanner's loops compute the stripping function |
| StripAnsi.StripUndoesRender | src/config.rs:73-92 | stripping rendered segments gives their text without NULs |
| StripAnsi.StripIsPlainReading | src/config.rs:73-92 | every input is such a rendering, and the output is its plain text |
| StripAnsi.StripCleans | src/config.rs:68-92 | no ESC or NUL comes out, the output is a subsequence of the input and a fixed point |
| ExpressionLoops.ParensWrapWhole | design/references/support.js:224-234 | the loop decides whether the outer parentheses match each other |
| ExpressionLoops.FindTopLevelEquality | design/references/support.js:235-249 | the loop finds the leftmost equality outside brackets |
| ExpressionLoops.ResolveText | design/references/support.js:192-223 | the evaluator, with its loops, terminates on every text and computes the specified reading |
| ExpressionLoops.ResolvePathText | design/references/support.js:250-281 | the path loop follows names and bracketed keys |
| ExpressionCorrect.ResolvePrinted | design/references/support.js:192-281 | for every expression tree, printed with operands bare or in parentheses and any white space, both chosen freely at each place they are allowed, resolving the text gives the value of the tree |
| ExpressionCorrect.ResolvePadded | design/references/support.js:192-196 | and so it does with white space around the whole |
| ExpressionCorrect.ChainSplitsLeftmost | design/references/support.js:235-249 | a chain of two comparisons without parentheses is split at the left one: the right comparison is made first |
| ExpressionCorrect.NotBindsTighter | design/references/support.js:199-212 | a negation without parentheses before a comparison negates its left side only |
| ExpressionPrinting.NumbersAreNumerals | design/references/support.js:191 | the evaluator takes exactly an optional sign, digits, and optionally a point with digits, for a number |
| ExpressionPrinting.ClassesAgree | design/references/support.js:190-194 | white space, digits and the letters of names, given by code point, are what the evaluator goes by |
| ExpressionBroken.BlankIsUndefined | design/references/support.js:193-194 | white space alone is undefined |
| ExpressionBroken.LeadingOperator | design/references/support.js:242-243 | an operator with nothing before it makes no comparison: `==a` is undefined and `!=a` negates undefined |
| ExpressionBroken.HeadlessIsUndefined | design/references/support.js:250-252 | a text without operators that does not start like a name is undefined unless negated, in parentheses, a number or in quotes |
| ExpressionBroken.BrokenPathIsUndefined | design/references/support.js:253-281 | a path that breaks off, at a bare dot, a bracket never closed or any other character, is undefined |
| ExpressionCorrect.QuotedIffNoEquality | design/references/support.js:219-221 | a quoted text is read as itself exactly when it holds no operator outside brackets |
| ExpressionCorrect.QuotedEqualityMisread | design/references/support.js:198-210 | `"a==b"` is read as a comparison of two undefined values |

## Left out

- HTTP, SSE transport, TLS, gRPC probes, the CLI, the terminal and browser interfaces, and the React parts of the design runtime: input, output and presentation.
- Base64 and JSON decoding of requests: a request arrives decoded, with a malformed attestation as a case of its own.
- SQLite, the filesystem and flock: tables are maps and sequences, files are maps, the lock is a flag.
- Columns that no modelled decision reads: state path, admin address, status command and label, icon, provenance, target triple of a row, creation and update times.
- Substitution of `{endpoint}` and `{port}` in arguments and the endpoint table: a launch records the endpoint name, so a changed endpoint URL reaches a process only at its next start.
- Resource sampling and `set_resources`: float readings the code does not keep coherent.
- The live log tail: file length and content are read at different moments, so lines may repeat.
- Event details other than the kind: exit codes and messages.
- The 32-bit width of `restarts`: counts are unbounded here; `BackoffTable` holds for every count.
- Failing store and registry operations of a handler: a handler that fails halfway is covered only as a daemon that dies at that point.
- Health-gated swap, secrets and artifact garbage collection: designed but not implemented.
- Durability.RunsOnItsKernel: says nothing about a binary-only artifact; what lies beside its process is the subject of `KernelIsLastWritten`.
- ExpressionCorrect.ResolvePrinted: in a quoted text brackets match and hold every operator, since the scanner does not see quotes; a comparison that is negated or stands left of another is in parentheses, since without them the text is a different expression.
