# Verification of the memory leak reloader

A Dafny model of the controller that watches the memory of Kubernetes workloads and restarts those that
leak, and proofs of what it is trusted for: that it never restarts a workload too often, never has too
many rollouts in flight, records honest outcomes, judges a bounded series as it would the whole log, and
defers restarts to exactly the next maintenance window.

Verify with `dafny verify dfyconfig.toml`.

## How it is built

- `Control` is the restart loop as a transition system. One event is a reconcile, an expirer pass, a
  leader change, an outside edit, the creation or deletion of a policy, or passing time. Every write of a
  step has a `Reply`: acknowledged, refused, lost after it took effect, or a crash before or after it.
  Workloads are whole objects: kind, template, restart stamp, generation and rollout status. Their version
  is computed through an arbitrary hash function, and whether they are settled from their status.
- `Ledger` adds what an observer would keep: per policy the unbounded log of its restarts, per workload
  the rollout the current leader dispatched or resumed and nobody has seen end. `Invariants`, `Adoption`,
  `Decisions`, `Exits`, `Restarts`, `SlotMoves` and `Closures` prove what holds of each step; `Runs`, `Finality`,
  `QuietRuns`, `Orphans`, `Failover`, `Fates`, `Settlement` and `DryRuns` what holds of every run, and `Policies`
  and `Columns` both, of a policy's object and of what its status shows. `Scenarios` has concrete runs.
- `Breaker` holds the status arithmetic, `Trail` relates a status to its log, `Budget` counts restarts.
- `Controller` is the same loop in the form the program has: objects updated in place, early returns and
  loops. Each method is proved to do exactly what `Control` says. `Process` drives those objects by events,
  with new ones after a crash, and carries the invariant over to them.
- `Detection`, `Regression`, `SeriesStore`, `WarmUp` and `Sampler` cover sampling and leak detection;
  `Verdicts` and `Readings` say what a verdict and a tick mean without the functions that compute them, and
  `Evidence` joins the sampler's rounds to the restart decision.
- `Maintenance`, `Text`, `WindowText` and `WindowRoundTrip` cover maintenance windows and their text form;
  `Calendar` and `FlagText` say in instants what windows and their text allow.

## What is assumed

- A reconcile and an expirer pass are atomic with respect to each other, apart from the crash points and
  the outside change between the two reads of a reconcile. There is one leader at a time, it reads its own
  writes, and the clock never goes back.
- One policy per workload, a policy keeps its workload, and has no finalizer of anybody else. Theorems that
  compare versions treat the stored empty version as the wildcard it is in `sameWindow`; a workload's own
  version is not empty. Where a theorem needs a non-empty UID, it says so.
- Times are integer seconds, as in the stored status. Floats of the regression are reals, and integers
  are unbounded.
- A status write replaces the status or has no effect. SHA-256 is an uninterpreted function of the
  canonical template, and so is the text of a restart stamp of its instant. Time zones are fixed offsets
  looked up by name.
- `Settlement` alone assumes that the generation of an object never goes back, as the API server guarantees.
- Pods, owners, usage and resolved settings are inputs of a step; `Evidence` takes the samples a reconcile
  judges to be what the store holds after the rounds of the sampler so far.

## What was found

- The breaker window tumbles from a restart, so an interval as long as the window can hold up to
  2*max-1 restarts (`Runs.RestartBudget`, `Budget.BudgetIsTight`), although each window holds at most max
  (`Budget.WindowHoldsMax`).
- The marker of a counted restart can stay set without a slot: when its dispatch fails or the answer is lost
  (`Restarts.FailedDispatchStrandsMarker`), when the leader changes, and when the slot is freed but the status
  write that follows fails (`SlotMoves.SlotLostIff`). A restart counted while it is
  still set leaves the earlier record open for good (`Orphans.BuriesOpenIff`, `Finality.BuriedRecordsStayOpen`),
  whether the first dispatch was refused (`Scenarios.OrphanRun`) or nothing failed at all
  (`Scenarios.AcknowledgedIsBuried`). A clean expirer pass after the timeout and before the next restart
  prevents it (`Fates.SweptIsNeverBuried`); the default cooldown of 30 minutes and timeout of 15 leave room.
- The second read before a dispatch compares versions only. A workload recreated from the same template in
  between is restarted, counted under the old UID, and then guarded by no cooldown and no breaker
  (`Restarts.DispatchReachesAdopted`, `QuietRuns.StampedInItsLog`, `Scenarios.RecreatedIsRestartedTwice`).
- A rollout that settles before a new leader has seen it running is not closed by a reconcile, because
  closing it needs the slot. It is recorded as Settled exactly if it is later seen running again, resumed
  within the cap, and found settled while it keeps the slot (`Failover.SettledIffResumed`,
  `Scenarios.BlipSettlesAfterFailover`). Otherwise the sweep may record it as TimedOut or Superseded, a newer
  restart may bury its record open, its log may start over, or it stays open, also when its policy ends
  (`Fates.StrandedFate`).
- In the same way a restart that was counted but never reached the cluster can be recorded as Settled
  (`Scenarios.RefusedSettles`). One whose stamp hit the adopted object is so only after that stamp was
  observed, unless the object is a Rollout that reports no observed generation
  (`Settlement.SettledHasSeenStamp`): such a Rollout, if healthy, looks settled right after its restart and is
  recorded so at once (`Restarts.StampStartsRollout`, `Scenarios.RolloutSettlesAtOnce`).
- The cadence of dry-run reports holds under one leader only (`DryRuns.ReportSpacing`,
  `Scenarios.FailoverReportsAgain`).
- Adopting a recreated workload drops its marker but not the condition: RolloutInProgress then stays True with
  nothing in flight, until the next restart (`Columns.StepAccurate`, `Columns.RecreationLeavesCondition`).
- An expirer pass does not recompute the printer columns, so they stay as the last reconcile that counted or
  closed a restart left them (`Columns.PassKeepsColumns`, `Columns.ReconcileShows`).
- `docs/configuration.md` shows a policy window of 15 minutes. Under the default flags the store is too
  short for it while readings come without a gap, so such a policy then reports no leak
  (`WarmUp.DocumentedExampleNeverWarm`); lost ticks can make it report one (`WarmUp.LostTicksWarmIt`).
- The rendering of an empty window list, `always`, is not accepted by the parser
  (`WindowRoundTrip.AlwaysIsNoWindow`).

## Model

| member | source | states |
|---|---|---|
| Runs.InvariantHolds | internal/controller/reconciler.go:85-352 | in every state reachable by any sequence of events: the gate respects its cap, every status summarizes its restart log, slot and marker times agree, and every tracked rollout holds its slot |
| Runs.InvariantStep | internal/controller/reconciler.go:85-352 | each single event (reconcile, expirer pass, failover, outside edit, policy creation or deletion, passing time), with any of its writes failing, being lost or ending in a crash, keeps that invariant |
| Runs.RestartBudget | internal/restart/breaker.go:77-151 | over any run: of consecutive restarts counted under one version, window and positive max, any interval as long as the window holds at most 2*max-1, and no more were dispatched |
| QuietRuns.BudgetBetweenEdits | internal/restart/breaker.go:77-151 | the same bound with nothing assumed of the log: from any reachable state with no adoption of another object pending, while nobody edits or recreates the workload or its policy and the breaker settings stay, whatever fails and however often the leader changes |
| QuietRuns.OneLog | internal/restart/breaker.go:206-216 | under those conditions the restarts of the object stay in one log: its status never starts over |
| QuietRuns.StampedInItsLog | internal/controller/reconciler.go:293-304 | right after a dispatch onto an object with a UID, the next restart of that object is guarded by this one iff the object read last is the one read first; if not, no cooldown and no breaker guards it |
| Budget.BudgetIsTight | internal/restart/breaker.go:77-102 | for every max > 0 and every window of at least 2*max-1 the bound is attained, with a cooldown of 1: a guarded log with 2*max-1 restarts of one version in one window length |
| Runs.RestartSpacing | internal/restart/breaker.go:105-110 | over any run, any two counted restarts are at least the later one's cooldown apart |
| Runs.RolloutsWithinCap | internal/gate/gate.go:37-48 | over any run, every rollout of an adopted object that the current leader dispatched, or resumed with its slot, and nobody has seen end holds its slot, so there are at most cap of them when cap > 0 |
| Runs.NoStackedRollout | internal/controller/reconciler.go:153-194 | in any reachable state, no reconcile restarts a workload whose own rollout is still tracked |
| Runs.SlotAgeIsRolloutAge | internal/controller/reconciler.go:169-172 | in any reachable state, a held slot and a set marker carry the same time, also after a failover |
| Runs.NoStaleSlotAfterPass | cmd/expirer.go:44-59 | after an expirer pass in any reachable state, no held slot, and no marker behind a held slot, is timeout or older |
| Runs.MarkerIffNewestOpen | internal/restart/breaker.go:116-167 | in every reachable status the marker is set iff the newest history record is open; they then agree on time and version and the condition is True; open means InProgress |
| QuietRuns.CountersAgree | internal/restart/breaker.go:116-142 | in every reachable status with positive cooldowns: the history is the newest part of the log, LastRestartAt is its newest record, and exactly its newest min(RestartCount, 10) records (there are that many) lie in the breaker window, all of its version (or the empty one) |
| QuietRuns.VersionMovesOnlyByEdit | internal/restart/restart.go:262-288 | over any run without outside edits or recreation of a workload, its UID and the fingerprint of its template (or its pod hash) never change, although every restart stamps it: for all three kinds, nil annotations and any hash function |
| Settlement.SettledHasSeenStamp | internal/controller/reconciler.go:176-194 | a dispatched restart recorded as Settled was stamped in one step and closed in a later one, and if the stamp hit the adopted object (by a non-empty UID), the closing step saw that object with an observed generation that includes the stamp, unless it is a Rollout that reports none |
| Settlement.AdoptedUIDStays | internal/restart/breaker.go:206-216 | while the log of a policy goes on, the UID it has adopted stays |
| QuietRuns.WindowOnlyAgesOut | internal/restart/breaker.go:77-89 | between outside edits the breaker window rolls over exactly when it has aged out, and otherwise keeps its start and counts one more |
| QuietRuns.NewEntriesAreOfVersion | internal/restart/breaker.go:116-127 | every restart counted in such a stretch carries the version the stretch started with and settings some reconcile was given |
| Finality.RecordsAreFinal | internal/restart/breaker.go:155-167 | over any run a restart log only grows: no restart is lost, reordered or altered, and a recorded outcome never changes |
| Finality.EveryOutcomeIsHonest | internal/controller/reconciler.go:176-194 | every closed record of every reachable log was closed in an earlier step, while it was the marked rollout, at that step's time, with an outcome the cluster of that step justifies |
| Finality.StartsOverIff | internal/restart/breaker.go:206-216 | a log starts over exactly with a new policy, or when a reconcile that reads a recreated workload stores its adoption |
| Finality.BuriedRecordsStayOpen | internal/restart/breaker.go:155-163 | a record left open behind a newer restart is never closed |
| Orphans.BuriesOpenIff | internal/controller/reconciler.go:325-344 | in a reachable state a step leaves an open record behind a newer one iff it is a reconcile that counts a restart of the adopted object while the marker of an earlier one is still set |
| Orphans.RestartAppends | internal/restart/breaker.go:116-142 | a counted restart appends exactly its open record to the log, marked as dispatched iff the patch took effect, or starts a new log with it for a recreated object |
| Restarts.FailedDispatchStrandsMarker | internal/controller/reconciler.go:339-344 | a restart that was counted but whose writes were not both acknowledged leaves its marker set and no slot held |
| Scenarios.OrphanRun | internal/controller/reconciler.go:325-344 | a concrete run from a fresh start: the first dispatch is refused, the second restart goes through after the cooldown, and the first record is left open behind it |
| Failover.SettledIffResumed | internal/controller/reconciler.go:162-194 | from any reachable state and over any run in which its log goes on: a restart that is open without a slot ends as Settled iff a reconcile of its policy resumes it within the cap, it keeps the slot from then on, and a later reconcile finds the adopted object settled at its version |
| SlotMoves.SlotTakenBy | internal/controller/reconciler.go:162-174 | a slot is taken only by a reconcile that resumes a rollout or dispatches one |
| SlotMoves.SlotLostIff | internal/controller/reconciler.go:98-194 | outside an expirer pass a slot is lost iff its leader is, or a reconcile of its policy finds the rollout settled or ends the deleted policy |
| SlotMoves.ResumeRetakesSlot | internal/controller/reconciler.go:166-172 | a reconcile that resumes a rollout keeps its marker and takes the slot back, as of the dispatch, iff the cap has room |
| Failover.TrackedThenSettles | internal/controller/reconciler.go:162-194 | a rollout that was dispatched or resumed by this leader, and that nothing ends (no crash, timeout pass, edit, recreation or deletion), is recorded as Settled by the first reconcile that finds it so, however much time passes and whatever else happens until then |
| Failover.ResumedIsTracked | internal/controller/reconciler.go:166-172 | a resumed rollout is such a one iff the cap has room |
| Failover.SlotIffResumed | internal/controller/reconciler.go:162-174 | while it is still open, a restart that had lost its slot holds one iff it was resumed and kept it since |
| Fates.StrandedFate | internal/controller/reconciler.go:153-344 | in any event a restart that is open without a slot stays so, is resumed within the cap, is closed by the sweep as TimedOut or Superseded, is buried behind a newer restart, or its log starts over, each with its condition on the event |
| Fates.OneFate | internal/controller/reconciler.go:153-344 | no event gives it two of these fates |
| Fates.SweptIsNeverBuried | internal/restart/store.go:53-112 | if a pass with every write acknowledged lists the policy at least timeout after a restart and before the next one, that restart is closed from then on and never left open behind a newer one |
| Scenarios.AcknowledgedIsBuried | internal/controller/reconciler.go:162-194 | a concrete run in which no write fails: the rollout settles, the leader changes, and the next restart is counted while the marker of the first is set |
| Scenarios.BlipSettlesAfterFailover | internal/controller/reconciler.go:162-194 | a concrete run: settled before the new leader looks, then a pod goes down and comes back, and the rollout is recorded as Settled after all |
| Scenarios.RefusedSettles | internal/controller/reconciler.go:162-194 | a concrete run: a counted restart whose patch was refused is resumed after a pod goes down, and recorded as Settled although nothing was ever stamped |
| Decisions.DispatchedIff | internal/controller/reconciler.go:85-352 | a reconcile dispatches a restart iff the policy is live, the object adopted, the workload settled, some container leaks, cooldown, breaker, window and cap all pass, the second read shows the same version, it is no dry-run, and both writes are acknowledged |
| Decisions.CountedIff | internal/controller/reconciler.go:325-338 | a restart is counted iff all those guards pass and the status write takes effect, and then exactly as of the version read first, the first leak, and now |
| Decisions.StampedOnlyIfCounted | internal/controller/reconciler.go:325-344 | the cluster is never patched for a restart that was not durably counted in the same step |
| Decisions.RestartLogs | internal/controller/reconciler.go:325-344 | if the guards pass, the effects of a reconcile are the adoption of a new object, the count and the stamp, in that order and as far as the replies let them, and nothing else |
| Restarts.RestartLeaves | internal/controller/reconciler.go:325-351 | a counted restart is recorded in marker and breaker under the UID read first; the object read last is stamped iff the patch took effect, at an unchanged version, and the slot is held from now iff it was acknowledged |
| Restarts.StampStartsRollout | internal/restart/restart.go:262-288 | a fresh stamp counts a generation, so the workload no longer looks settled, unless it is a healthy Rollout that reports no observed generation |
| Scenarios.RolloutSettlesAtOnce | internal/restart/restart.go:248-257 | a concrete run: the restart of a healthy Rollout that reports no observed generation is recorded as Settled by the very next reconcile |
| Restarts.DispatchReachesAdopted | internal/controller/reconciler.go:293-304 | the second read compares versions only: the restart hits the adopted object iff the object read last has the UID read first |
| Scenarios.RecreatedIsRestartedTwice | internal/controller/reconciler.go:293-304 | a concrete run: recreated from the same template between the reads, the new object is restarted under the old UID, and again a second later, within the cooldown |
| Evidence.RestartHasEvidence | internal/controller/reconciler.go:196-247 | over any rounds of the sampler at increasing times, none targeting a container twice: a counted restart names a container of an evaluated pod that leaks by the verdict on what the rounds read of it since its last restart and its last round without a reading, with the observation and threshold of that verdict |
| Evidence.SeriesIsReplay | internal/controller/sampler.go:66-150 | what the store holds after any run of ticks is the trimmed form of each container's unbounded log, which begins after the last completed tick without a reading of it |
| Evidence.ObservationsAreLog | internal/controller/sampler.go:66-150 | a container's unbounded log holds, for each of the latest rounds, the reported usage with the limit and restart count of its target, back to the last round that did not report or target it |
| DryRuns.DryRunOnlyReports | internal/controller/reconciler.go:309-323 | a dry-run never counts or dispatches a restart, and waits a cooldown after the report it remembers |
| DryRuns.ReportSpacing | internal/controller/reconciler.go:449-455 | over any run under one leader, two reports about one workload are at least the later one's cooldown apart |
| Scenarios.FailoverReportsAgain | internal/controller/reconciler.go:449-455 | a concrete run: after a leader change the same restart is reported again a second later, within the cooldown |
| Closures.ReconcileClosesIff | internal/controller/reconciler.go:176-194 | a reconcile closes a rollout iff it holds the slot, the marker is set, the adopted object is settled and the write takes effect; as Settled iff the version is the dispatched one, else Superseded |
| Closures.SettledWithoutSlotStaysOpen | internal/controller/reconciler.go:179-194 | a reconcile that holds no slot closes nothing in that step, settled or not |
| Closures.OutcomesAreJustified | internal/restart/store.go:53-112 | whoever closes a rollout: Settled implies the adopted object settled at the dispatched version, Superseded implies gone, recreated or moved on, TimedOut implies age >= timeout, and nothing else is ever recorded |
| Closures.PassLeavesOnlyLiveRollouts | internal/restart/store.go:53-112 | a pass without failures leaves a marker iff the rollout is younger than the timeout and its workload still is the adopted object at the dispatched version |
| Closures.SweepEffects | internal/restart/store.go:53-78 | each closure of a sweep is the classification of that policy in the state before the sweep, wherever the sweep stops |
| Closures.ClosedIsReleased | cmd/expirer.go:44-59 | whatever fails in a pass, the slot of every rollout it closes is free afterwards |
| Closures.RefusedIsReleased | internal/restart/store.go:53-78 | so is the slot of a rollout whose closing write was refused, although its marker stays |
| Closures.PassKeepsOnlyLiveSlots | cmd/expirer.go:44-59 | a pass without failures keeps the slot of a marked rollout iff slot and rollout are younger than the timeout and its workload still is the adopted object at the dispatched version |
| Closures.UnmarkedSlotAges | internal/gate/gate.go:74-85 | a slot without a marker is lost in a pass iff it is as old as the timeout, whatever fails |
| Invariants.ReconcileElse | internal/controller/reconciler.go:85-352 | a reconcile of one policy changes nothing of any other policy, workload or slot |
| Exits.ExitIff | internal/controller/reconciler.go:85-352 | a reconcile that meets no failure ends in exactly one way, each iff its own condition on the cluster, the gates, the clock and the replies holds, in the order of the source |
| Exits.FailureIsExplained | internal/controller/reconciler.go:85-352 | a reconcile crashes only in a write, and fails only at a write that was not acknowledged or a read that failed |
| Exits.NeverAlreadyHeld | internal/controller/reconciler.go:283-288 | the gate never answers a reconcile that its workload is in flight already |
| Policies.ReconcileFlags | internal/controller/reconciler.go:96-128 | a reconcile ends a policy iff it is deleted, has the finalizer and loses it to the write, with no slot left; any other policy keeps its deletion mark, gets the finalizer if it is live, and records the configured mode, as far as the writes take effect |
| Policies.FinalizerComesFirst | internal/controller/reconciler.go:112-117 | a live policy without the finalizer gets that and nothing else: no slot, no restart, no status |
| Policies.DeletionCompletes | internal/controller/reconciler.go:96-117 | deleting a policy ends it at once without the finalizer, and else in its next acknowledged reconcile, with its slot; a policy made anew starts empty and gets the finalizer first |
| Policies.NoSlotOutlivesPolicy | internal/controller/reconciler.go:96-111 | in every reachable state a slot is held only for a policy that exists and has the finalizer |
| Columns.ReconcileShows | internal/restart/breaker.go:172-191 | a reconcile that counts or closes a restart leaves the printer columns right for that instant, in numbers, and sets the condition to whether a rollout is in flight; no other moves them, and the marker goes only with the log |
| Columns.PassKeepsColumns | internal/restart/store.go:53-78 | an expirer pass leaves the columns as they were; it sets the condition to False iff it closes the rollout |
| Columns.StepAccurate | internal/restart/breaker.go:206-216 | one event makes the condition differ from whether a rollout is in flight iff it adopts a recreated workload over a rollout in flight and counts no restart |
| Columns.ConditionIsAccurate | internal/restart/breaker.go:144-166 | over any run without such an event the condition is True iff a rollout is in flight |
| Columns.RecreationLeavesCondition | internal/restart/breaker.go:206-216 | a workload recreated during a rollout and rolling out itself leaves the condition True with nothing in flight |
| Invariants.ReconcileRollout | internal/controller/reconciler.go:153-194 | a reconcile that meets its own tracked rollout keeps slot and marker, or finds it settled, or crashes |
| Invariants.ExpirerRollout | cmd/expirer.go:44-59 | a tracked rollout younger than the timeout keeps its slot and its marker through a pass, whatever fails in it |
| Invariants.ExpirerSlots | cmd/expirer.go:44-59 | after a pass every held slot was held before and is younger than the timeout |
| Ledger.ReconcileKeeps | internal/controller/reconciler.go:85-352 | whatever fails in it, a reconcile leaves the status the summary of the log of its effects |
| Controller.Reconciler.Reconcile | internal/controller/reconciler.go:85-128 | the in-place reconcile leaves cluster, gate and memory, and reports effects and exit, exactly as the transition system says; it comes back after RequeueAfter iff it polls a rollout, has dispatched or resumed one, waits for a slot or for the workload to appear, at the first allowed instant iff it deferred, and else not by itself |
| Controller.Reconciler.Finalize | internal/controller/reconciler.go:98-111 | deletion frees the slot before the finalizer goes |
| Controller.Reconciler.Resolve | internal/controller/reconciler.go:130-151 | reads the workload and adopts its UID, as specified |
| Controller.Reconciler.Settle | internal/controller/reconciler.go:153-194 | polls, resumes or closes a rollout, as specified |
| Controller.Reconciler.Admit | internal/controller/reconciler.go:196-291 | detection and the four gates in order, as specified; the deferral is exact |
| Controller.Reconciler.Recheck | internal/controller/reconciler.go:293-323 | second read, supersession guard and dry-run, as specified |
| Controller.Reconciler.Commit | internal/controller/reconciler.go:325-351 | persist, then dispatch; the slot is kept, and the rollout polled after RequeueAfter, only if both are acknowledged |
| Controller.Cluster.Persist | internal/restart/store.go:26-39 | a status write replaces the status of one policy or has no effect |
| Controller.Cluster.Dispatch | internal/restart/restart.go:262-281 | the restart patch, made by Object.Dispatch on the stored object: its stamp and its generation, and nothing else |
| Process.Manager.Perform | cmd/main.go:247-301 | one event on the real objects: the step of the transition system, with a new gate and a new reconciler after a crash or a leader change |
| Process.Manager.Serve | cmd/main.go:247-301 | through any events: the real gate stays within its cap and holds the slot of every tracked rollout, and every stored status summarizes the restarts counted for it |
| Controller.Expirer.ClassifyInFlight | internal/restart/store.go:82-105 | Superseded, TimedOut or neither, as specified |
| Controller.Expirer.TimedOutOutcome | internal/restart/store.go:107-112 | TimedOut iff the rollout is at least timeout old |
| Controller.Expirer.SweepPolicy | internal/restart/store.go:60-75 | one listed policy: closed, persisted and reported for release, or left alone |
| Controller.Expirer.SweepInFlight | internal/restart/store.go:53-78 | the loop over the listed policies up to the first failed write, equal to the recursive sweep |
| Controller.Expirer.Tick | cmd/expirer.go:36-63 | expire, sweep, release the swept keys: the whole new state of a pass |
| Controller.SweepStops | internal/restart/store.go:53-78 | the sweep extends policy by policy and goes no further once a write is not acknowledged |
| Breaker.PolicyStatus.ApplyRestart | internal/restart/breaker.go:116-151 | the updated object is the specified status: window extended or rolled over, history bounded, marker set |
| Breaker.PolicyStatus.CompleteInFlight | internal/restart/breaker.go:155-167 | closes the newest record if it is open, clears the marker, changes nothing else |
| Breaker.PolicyStatus.RecomputeObservability | internal/restart/breaker.go:172-191 | recomputes the published fields, changes nothing else |
| Breaker.PolicyStatus.AdoptWorkload | internal/restart/breaker.go:206-216 | a different UID over a known one resets the bookkeeping; Published and the condition stay |
| Breaker.RemainingIsExact | internal/restart/breaker.go:172-187 | RestartsRemaining is exactly how many further restarts of the stored version fit the active (or next) window before the breaker trips |
| Breaker.PublishedFlagIsUpperBound | internal/restart/breaker.go:172-187 | BreakerTripped as published equals the breaker for the stored version and bounds it for any other |
| Breaker.NextEligibleIsExact | internal/restart/breaker.go:188-191 | the published instant is exactly where the cooldown ends |
| Trail.ApplyExtendsLog | internal/restart/breaker.go:116-151 | counting an admitted restart keeps the status the summary of the log extended by it |
| Trail.CompleteClosesLast | internal/restart/breaker.go:155-167 | closing the marked rollout keeps the status the summary of the log with its newest record closed |
| Trail.AdoptRestartsLog | internal/restart/breaker.go:206-216 | adopting keeps the status a summary, of the empty log after a recreation |
| Trail.ReplayShape | internal/restart/breaker.go:77-89 | the window of a log holds its newest RestartCount restarts, starts at the oldest of them, and carries one version |
| Trail.CountersAgreeWithHistory | internal/restart/breaker.go:116-142 | the same for any status that summarizes a log: at least min(RestartCount, 10) records are kept, and exactly the newest of them lie in the window |
| Budget.SlidingBudget | internal/restart/breaker.go:77-102 | a guarded log holds at most 2*max-1 restarts of one version in any interval as long as the window |
| Budget.WindowHoldsMax | internal/restart/breaker.go:77-102 | within one breaker window a guarded log holds at most max restarts of one version; only an interval across two windows can hold more |
| Budget.RollsOnlyByAge | internal/restart/breaker.go:77-89 | between restarts of one version the window rolls over exactly when it has aged out |
| Budget.DispatchedAreCounted | internal/controller/reconciler.go:325-344 | at most as many restarts are dispatched as are counted in any interval |
| Budget.CooldownSpacing | internal/restart/breaker.go:105-110 | restarts of a guarded log are at least the later one's cooldown apart |
| Gate.Gate.TryAcquire | internal/gate/gate.go:37-48 | already in flight, cap reached, or acquired at the given time; the slots change only in the last case |
| Gate.Gate.Release | internal/gate/gate.go:51-55 | frees that slot and no other |
| Gate.Gate.Holds | internal/gate/gate.go:58-63 | iff the slot is held |
| Gate.Gate.ExpireOlderThan | internal/gate/gate.go:74-85 | keeps exactly the slots younger than the timeout and reports exactly the others, deleting while it walks the map |
| Gate.CapAlwaysHolds | internal/gate/gate.go:37-85 | from an empty gate, no interleaving of acquires, releases and expiries exceeds the cap |
| Workload.Object.Dispatch | internal/restart/restart.go:262-281 | the in-place stamping is the specified patch for all three kinds, and leaves the version under every hash |
| Workload.Object.SetTemplateRestartedAt | internal/restart/restart.go:283-288 | adds the stamp to the annotations, nil or not |
| Workload.StampKeepsCanonical | internal/restart/breaker.go:62-71 | the hashed form of a template does not change with the stamp, nil annotations included |
| Workload.PatchKeepsVersion | internal/restart/breaker.go:40-71 | the restart patch moves the version of no kind of workload, whatever the hash |
| Workload.PatchCountsGeneration | internal/restart/restart.go:262-288 | the patch counts a new generation iff the object did not carry this stamp yet |
| Workload.PatchUnsettles | internal/restart/restart.go:218-257 | after a fresh stamp only a healthy Rollout that reports no observed generation still looks settled |
| Workload.CanonicalSeparates | internal/restart/breaker.go:62-71 | two templates hash from the same form iff they agree in everything but the stamp |
| Workload.PatchTouchesOnlyTrigger | internal/restart/restart.go:262-288 | the patch leaves everything but the restart trigger of the kind and the generation: spec.restartAt alone for a Rollout, the one annotation for the others |
| Workload.SettledIffFullyOut | internal/restart/restart.go:218-245 | a Deployment or StatefulSet is settled iff its controller has seen the newest spec and all pods it asks for, of the newest revision, run and no other |
| Workload.AnyPodUnsettles | internal/restart/restart.go:218-245 | it is unsettled by a pod that is down, one that is old, and a larger size asked for |
| Scan.FindBreach | internal/controller/reconciler.go:196-247 | the nested search over pods and containers returns the recursive first breach, read error, or nothing |
| Scan.NoBreachIffQuiet | internal/controller/reconciler.go:206-247 | it finds nothing iff every pod is quiet: no unreadable owner and no leaking container on a Ready, aged, current-revision pod |
| Scan.FirstBreachIs | internal/controller/reconciler.go:206-247 | a breach is the first leaking container of an evaluated pod, and every earlier pod is quiet |
| Scan.LeftOutChangesNothing | internal/controller/reconciler.go:206-222 | a pod that is not Ready, younger than the grace, without owner or of an old revision changes no search, wherever it is listed |
| Scan.FirstPodDecides | internal/controller/reconciler.go:206-247 | any other pod, listed first, fails the search if its owner cannot be read, stops it iff one of its containers leaks, and else leaves it to the pods after it |
| Detection.Detect | internal/sampling/detect.go:79-114 | the verdict of the specification, whose meaning the rows of Verdicts fix: covered window, at least two samples, and the mode's conditions |
| Detection.OlsSlope | internal/sampling/detect.go:139-159 | the four-sum loop returns the least-squares slope, and fails iff all sample times coincide |
| Detection.TrendLeaking | internal/sampling/detect.go:128-135 | leaking iff the slope is positive and its projection over the window reaches the minimum growth |
| Detection.CollectWindow | internal/sampling/detect.go:56-65 | exactly the samples not older than the window |
| Detection.AllExceed | internal/sampling/detect.go:116-123 | iff every sample exceeds its threshold |
| Detection.SlopeDefinedIffTimesDiffer | internal/sampling/detect.go:154-157 | the slope is undefined exactly when all sample times coincide |
| Detection.GrowthRateIgnoresOrigin | internal/sampling/detect.go:143-150 | the slope does not depend on the time origin or on a constant added to memory |
| Detection.GrowthRateIsMean | internal/sampling/detect.go:139-159 | with increasing times the slope lies between the least and the greatest adjacent growth rate |
| Detection.UniformGrowthDecides | internal/sampling/detect.go:128-135 | if every adjacent rate reaches the minimum growth over the window the trend verdict is true; if every one falls short it is false |
| Verdicts.CombinedIsBoth | internal/sampling/detect.go:99-112 | on any series the combined verdict holds iff the sustained and the trend verdict do |
| Verdicts.SustainedMeans | internal/sampling/detect.go:79-123 | sustained leaks iff the oldest sample is a window old, two samples lie in the window, and every one there is at the cap, or at the percentage of its limit |
| Verdicts.GrowthDecidesVerdict | internal/sampling/detect.go:79-135 | for readings in time order: if every step falls short of the minimum growth neither trend nor combined leaks; if every one reaches it trend leaks once the window is covered and combined is sustained |
| Verdicts.ReportIsNewest | internal/sampling/detect.go:79-97 | a verdict reports the newest sample and its threshold, and a leak by threshold is reported at or over it |
| Verdicts.ThresholdMeans | internal/sampling/detect.go:44-53 | the reported threshold is the cap, or the percentage of the limit rounded toward zero, or zero without a limit |
| Regression.SumsArePairs | internal/sampling/detect.go:143-158 | Lagrange's identity: numerator and denominator of the slope are sums over pairs of samples |
| Regression.DenominatorZero | internal/sampling/detect.go:154-157 | the denominator is non-negative, and zero iff all times coincide |
| Regression.SlopeBetween | internal/sampling/detect.go:139-159 | if all adjacent growth lies between two rates, so does the slope |
| Regression.SlopeShift | internal/sampling/detect.go:143-158 | numerator and denominator do not change when all points are shifted |
| Regression.FittedLineIsBest | internal/sampling/detect.go:139-159 | no line has a smaller squared error than the one with this slope |
| SeriesStore.Store.Observe | internal/sampling/buffer.go:48-77 | the new store: one series reset on a count increase, appended to and trimmed, all others untouched |
| SeriesStore.Store.FrontToDrop | internal/sampling/buffer.go:61-72 | how many samples leave at the front: the stale prefix, or more if the series is too long |
| SeriesStore.Store.IsCovered | internal/sampling/buffer.go:82-90 | iff the series has two samples and its oldest is at least a window old |
| SeriesStore.Store.Samples | internal/sampling/buffer.go:93-103 | the samples of the series, none for an unknown key |
| SeriesStore.Store.Prune | internal/sampling/buffer.go:114-123 | keeps exactly the live series, unchanged, and counts them |
| SeriesStore.StoreKeepsExactly | internal/sampling/buffer.go:48-77 | after any run the series is exactly the samples since the last count increase that are within retention of the newest and among the last maxLen |
| SeriesStore.SeriesWithinBounds | internal/sampling/buffer.go:48-77 | the series is non-empty, ordered, ends at the newest sample and is within both bounds |
| SeriesStore.CoveredVerdictIsExact | internal/sampling/detect.go:56-114 | when the trimmed series covers the window, its verdict is the verdict on the unbounded log; when not, it never leaks |
| WarmUp.CoveredIff | internal/sampling/buffer.go:82-90 | for any time-ordered log, whatever ticks are missed and however often the container restarts: covered iff some sample since the last restart, other than the newest, is within both bounds and a window old |
| WarmUp.CoveredAtTick | internal/sampling/buffer.go:82-90 | with no missed tick: covered iff the ticks since the last restart, the reach of the store and the time since the newest sample span the window |
| WarmUp.WarmUpBound | cmd/main.go:240-242 | with the configured sizes and no missed tick, exactly which windows are covered at a tick, and from which tick after a restart on |
| WarmUp.DefaultWindowWarmsUp | cmd/main.go:240-242 | the controller-wide window is always among them |
| WarmUp.NoGapBound | internal/sampling/buffer.go:48-90 | while readings come without a gap longer than a step, no window longer than maxLen - 1 steps and the time since the newest sample is covered |
| WarmUp.DocumentedExampleNeverWarm | docs/configuration.md:85-100 | under the default flags and without a gap in the readings, no container leaks by the documented 15 minute window, judged within 90 seconds of its newest sample |
| WarmUp.LostTicksWarmIt | docs/configuration.md:85-100 | a concrete log: after three lost ticks the same window is covered, and the container leaks by it |
| Sampler.SampleOnce | internal/controller/sampler.go:66-150 | one tick: the store afterwards, what is kept, and exactly which policies are handed on |
| Sampler.VisitPods | internal/controller/sampler.go:108-130 | the loop over a policy's pods observes every reported container once, in order |
| Sampler.VisitTargets | internal/controller/sampler.go:113-125 | the loop over a pod's containers |
| Sampler.KeysAreExactlyObserved | internal/controller/sampler.go:148 | after a completed tick the store's keys are exactly those observed in it |
| Sampler.SeriesHaveNoGaps | internal/controller/sampler.go:66-150 | with no container targeted twice per tick, every series holds one sample for each of the latest ticks, without a gap |
| Readings.TickReadsUsage | internal/controller/sampler.go:108-125 | after a completed tick a container is in the store iff the report has it and a resolved policy targets it; its newest sample is that usage at that time with the limit, and the series the restart count, of such a target |
| Readings.TickReadsTarget | internal/controller/sampler.go:108-125 | where it is targeted once, they are those of that target |
| Readings.VisitsDistinct | internal/controller/sampler.go:108-130 | if no container is targeted twice a tick observes none twice |
| Readings.EnqueuedIff | internal/controller/sampler.go:107-130 | a policy is handed to the reconciler iff one of its containers has a series of two samples or more whose oldest is at least the window of that container old |
| Maintenance.IsAllowed | internal/maintenance/window.go:38-48 | iff there are no windows or one contains the instant |
| Maintenance.NextOpeningOf | internal/maintenance/window.go:72-85 | the eight-day search returns the first opening strictly after the instant |
| Maintenance.NextOpening | internal/maintenance/window.go:53-61 | the earliest opening over all windows, and from a closed instant exactly the first allowed one |
| Maintenance.SevenDaysSuffice | internal/maintenance/window.go:74 | for a well-formed window one of today and the next seven days opens ahead |
| Maintenance.DeferralExact | internal/maintenance/window.go:53-85 | nothing is allowed between a closed instant and the earliest opening, which is allowed |
| Maintenance.AllowedIgnoresOrder | internal/maintenance/window.go:38-48 | permuted windows allow the same instants |
| Calendar.EpochIsThursday | internal/maintenance/window.go:63-70 | a window on one weekday, open all day in UTC, allows the Unix epoch iff that day is Thursday |
| Calendar.ADayLater | internal/maintenance/window.go:63-70 | a window allows an instant a day later iff the one with its weekdays moved back by one allows it now |
| Calendar.OffsetShifts | internal/maintenance/window.go:64 | a window at an offset allows an instant iff the same window in UTC allows the one that much later |
| Calendar.WithinTheDay | internal/maintenance/window.go:68-69 | on its day a window allows the seconds from its start minute on and before its end minute |
| WindowText.ExpandRange | internal/maintenance/window.go:229-239 | the loop walks from one weekday round to the other and lists exactly the days of the range |
| WindowText.ParseDays | internal/maintenance/window.go:191-226 | the day loop returns the specified set, or fails iff the specification does |
| WindowText.ParseString | internal/maintenance/window.go:104-130 | the window loop returns the specified windows, or fails iff the specification does |
| WindowText.String | internal/maintenance/window.go:251-268 | the rendering loop returns the specified text |
| WindowRoundTrip.TextAccepted | internal/maintenance/window.go:155-188 | every parsed window names days, lies within one day, and names a zone that resolves to it |
| WindowRoundTrip.DaysRoundTrip | internal/maintenance/window.go:191-226 | printed days parse back to the same set |
| WindowRoundTrip.ClockRoundTrip | internal/maintenance/window.go:241-248 | a printed clock time parses back to the same minute |
| WindowRoundTrip.PartRoundTrip | internal/maintenance/window.go:155-188 | one printed window parses back to itself |
| WindowRoundTrip.PrintThenParse | internal/maintenance/window.go:251-268 | printing and parsing any non-empty accepted windows yields a permutation of them |
| WindowRoundTrip.AlwaysIsNoWindow | internal/maintenance/window.go:252-254 | the rendering of the empty list does not parse |
| WindowRoundTrip.RoundTrip | internal/maintenance/window.go:104-130 | for any accepted text: parse, print and parse again recovers the windows, and so what they allow, iff there are any |
| WindowRoundTrip.PrintIgnoresOrder | internal/maintenance/window.go:251-268 | permuted windows have the same text |
| Text.TrimmedIs | internal/maintenance/window.go:105 | trimming takes all white space from both ends of the text and nothing else |
| Text.JoinSplit | internal/maintenance/window.go:110 | joining the pieces of a split text gives it back |
| Text.FieldsKeepAll | internal/maintenance/window.go:115 | the fields of a text hold all of it but its white space, in order |
| Text.AscendingIsUnique | internal/maintenance/window.go:266 | there is one way to sort a list of texts |
| FlagText.TextOnCalendar | internal/maintenance/window.go:104-239 | a flag text of a day range, two times and a zone parses and allows exactly: by the clock of the zone, from the first weekday on up to the last one, wrapping the week, from the first time on and before the second |
| FlagText.EveryDayWords | internal/maintenance/window.go:191-199 | "*", daily, all and everyday, in any case, are the whole week |
| FlagText.ZoneOfWindow | internal/maintenance/window.go:171-178 | no zone means UTC, and any other zone must resolve and is used |
| FlagText.OnlyThreeFields | internal/maintenance/window.go:114-117 | two fields or four are no window |
| FlagText.ClockInDigits | internal/maintenance/window.go:241-248 | decimal hours below 24, of one or two digits, and minutes below 60, of two, are accepted with that meaning, and no others of that form |
| FlagText.BlankItemsDropped | internal/maintenance/window.go:200-204 | a blank piece of a day list changes nothing, wherever it is |
| FlagText.BlankPartsDropped | internal/maintenance/window.go:110-113 | nor does a blank window |

## Left out

- The gate's own `Reconcile` (internal/gate/gate.go:90-97): not called by the program, and does not check the cap.
- Kubernetes client calls, caches, conflict retries and JSON: reduced to reads and to writes with a reply.
- Two policies on one workload, and races between the expirer goroutine and a running reconcile: the
  program's guarantees weaken there. `Gate.CapAlwaysHolds` alone covers any interleaving.
- Runs.RolloutsWithinCap: does not count a rollout whose dispatch took effect without an answer, or one of an
  earlier leader until it is resumed within the cap, because the program does not hold a slot for those.
- Events, metrics, logs, notifications, LastNotification, profile capture and LastProfile, and the detection
  mode inside a record: reported, never read back by a decision.
- Config overlay, container selection, owner resolution and pod selection: inputs here; short case analyses.
- ParseSpecs and FromWindows: other front ends to the same window parser (`FlagText.ZoneOfWindow` covers the zone
  they may leave out); a resolved window list is an input of a reconcile.
- Daylight saving and the time zone database: fixed offsets only; zone names hold no space or semicolon.
- Detection.OlsSlope: floating-point rounding, and wrap-around of byte counts in the threshold products.
- SeriesStore.Store.Observe: a series is a value in the map, not a shared pointer; the in-place front shift is
  a slice, so reuse of the backing array is not modelled.
- Workload.Object.Dispatch: the API server's generation counter is part of the method; the progress of a rollout
  afterwards is an outside change in `Control`. The patch is taken to be computed from the object it is applied
  to, so one computed from an object that carried the same second's stamp already is not empty here.
- `Inflight` of the gate only feeds a metric.
- `Reset` and `Len` of the sample store: not used by the loop.
- The current-revision check of pods: an input of `Scan`.
- The condition list of a status beyond RolloutInProgress, and the reasons and messages of that condition.
