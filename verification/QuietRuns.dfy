/** Runs in which nobody but the controller changes a workload's version: its breaker window then only ages out. */
module QuietRuns {
  import opened Wrappers
  import opened PolicyTypes
  import opened Breaker
  import opened Trail
  import Budget
  import opened Gate
  import opened Workload
  import opened Control
  import opened Ledger
  import opened Invariants
  import opened Adoption
  import opened Runs
  import opened Decisions
  import opened Restarts
  import opened Closures
  import opened Finality

  // ---- The controller never moves a version -----------------------------------------------

  /** Workload k is the same object at the same version in both worlds, or missing from both. */
  predicate SameVersion(w: World, v: World, k: Key) {
    && (k in w.workloads <==> k in v.workloads)
    && (k in w.workloads && k in v.workloads ==>
          w.workloads[k].uid == v.workloads[k].uid && w.Version(k) == v.Version(k))
  }

  /** What others do to workload k in this event, if anything, is progress of a rollout. */
  predicate Untouched(w: World, e: Event, k: Key) {
    match e
    case External(j, c) => j == k ==> SameVersion(w, Changed(w, k, c), k)
    case Reconciles(j, i) => j == k ==> SameVersion(w, Changed(w, k, i.interim), k)
    case _ => true
  }

  ghost predicate QuietRun(s: State, events: seq<Event>, k: Key) {
    forall m :: 0 <= m < |events| ==> Untouched(Run(s, events[..m]).world, events[m], k)
  }

  lemma RecheckKeepsVersion(w: World, k: Key, i: Inputs, cause: Cause)
    requires k in w.policies && k in w.workloads && SameVersion(w, Changed(w, k, i.interim), k)
    ensures SameVersion(w, Recheck(w, k, i, cause).world, k)
  {
    hide Commit, Changed;
    var v := Changed(w, k, i.interim);
    ChangeKeepsRest(w, k, i.interim);
    if k in v.workloads { CommitKeepsVersion(v, k, i, w.Version(k), cause); }
  }

  lemma CommitKeepsVersion(w: World, k: Key, i: Inputs, version: string, cause: Cause)
    requires k in w.policies && k in w.workloads
    ensures SameVersion(w, Commit(w, k, i, version, cause).world, k)
  {
    hide Applied, Recomputed, Live.Patched;
    PatchKeepsVersion(w.workloads[k], w.encoding.stamp(w.now), w.encoding.hash);
  }

  lemma ChangeKeepsRest(w: World, k: Key, c: Change)
    ensures Changed(w, k, c).policies == w.policies
    ensures Changed(w, k, c).encoding == w.encoding
  {
  }

  lemma AdmitKeepsVersion(w: World, k: Key, i: Inputs)
    requires k in w.policies && k in w.workloads && SameVersion(w, Changed(w, k, i.interim), k)
    ensures SameVersion(w, Admit(w, k, i).world, k)
  {
    hide Recheck, Scan.FirstBreach, Maintenance.Allowed, Changed;
    var f := Scan.FirstBreach(i.pods, i.cfg.grace, w.now);
    if f.Breach? {
      var w1 := w.(gate := Tried(w.gate, w.cap, k, w.now));
      ChangesAlike(w, w1, k, i.interim);
      RecheckKeepsVersion(w1, k, i, f.cause);
    }
  }

  lemma SettleKeepsVersion(w: World, k: Key, i: Inputs)
    requires k in w.policies && k in w.workloads && SameVersion(w, Changed(w, k, i.interim), k)
    ensures SameVersion(w, Settle(w, k, i).world, k)
  {
    hide Admit, Changed, Completed, Recomputed;
    AdmitKeepsVersion(w, k, i);
  }

  lemma ResolveKeepsVersion(w: World, k: Key, i: Inputs)
    requires k in w.policies && SameVersion(w, Changed(w, k, i.interim), k)
    ensures SameVersion(w, Resolve(w, k, i).world, k)
  {
    hide Settle, Adopted, Changed;
    if k in w.workloads {
      var w' := Written(w, k, Adopted(w.policies[k].status, w.workloads[k].uid), i.adoptReply);
      ChangesAlike(w, w', k, i.interim);
      SettleKeepsVersion(w, k, i);
      SettleKeepsVersion(w', k, i);
    }
  }

  lemma ReconcileKeepsVersion(w: World, k: Key, i: Inputs)
    requires SameVersion(w, Changed(w, k, i.interim), k)
    ensures SameVersion(w, Reconcile(w, k, i).world, k)
  {
    hide Resolve, Changed;
    if k in w.policies {
      var w' := Written(w, k, w.policies[k].status.(dryRun := i.cfg.dryRun), i.modeReply);
      ChangesAlike(w, w', k, i.interim);
      ResolveKeepsVersion(w, k, i);
      ResolveKeepsVersion(w', k, i);
    }
  }

  lemma StepKeepsVersion(w: World, e: Event, k: Key)
    requires Untouched(w, e, k)
    ensures SameVersion(w, Exec(w, e).world, k)
  {
    hide Reconcile, ExpirerPass, Changed;
    match e
    case Reconciles(j, i) =>
      if j == k { ReconcileKeepsVersion(w, k, i); } else { ReconcileElse(w, j, i, k); }
    case Expires(f) => ExpirerConstants(w, f);
    case External(j, c) => if j != k { ChangedElse(w, j, c, k); }
    case _ =>
  }

  lemma QuietPrefix(s: State, events: seq<Event>, k: Key)
    requires events != [] && QuietRun(s, events, k)
    ensures QuietRun(s, events[..|events| - 1], k)
    ensures Untouched(Run(s, events[..|events| - 1]).world, events[|events| - 1], k)
  {
    hide Run, Untouched;
    var before := events[..|events| - 1];
    forall m | 0 <= m < |before| ensures Untouched(Run(s, before[..m]).world, before[m], k) {
      assert before[..m] == events[..m];
    }
  }

  /** No restart, failure or failover moves a version: only an outside edit or a recreation does. */
  lemma {:induction false} VersionMovesOnlyByEdit(s: State, events: seq<Event>, k: Key)
    requires QuietRun(s, events, k)
    ensures SameVersion(s.world, Run(s, events).world, k)
    decreases |events|
  {
    hide QuietRun, Exec, Untouched;
    if events != [] {
      QuietPrefix(s, events, k);
      VersionMovesOnlyByEdit(s, events[..|events| - 1], k);
      StepKeepsVersion(Run(s, events[..|events| - 1]).world, events[|events| - 1], k);
    }
  }

  // ---- What the log of a quiet run holds ------------------------------------------------------

  /** Whether some reconcile of k in these events used these settings. */
  ghost predicate Used(events: seq<Event>, k: Key, l: Limits) {
    exists e :: e in events && e.Reconciles? && e.key == k && e.inputs.cfg.limits == l
  }

  /** A restart entry stems from a counted effect, or was in the log before. */
  lemma {:induction false} EntryOrigin(t: Log, effects: seq<Effect>, k: Key, n: nat) returns (c: Effect)
    requires n < |NoteAll(t, effects, k).entries|
    ensures var u := NoteAll(t, effects, k);
            || (u.epoch == t.epoch && n < |t.entries| && SameRestart(t.entries[n], u.entries[n]))
            || (&& c in effects && c.Counted? && c.key == k
                && (u.epoch == t.epoch ==> n >= |t.entries|)
                && SameRestart(Entry(c.rec, c.limits, false), u.entries[n]))
  {
    if effects == [] {
      c := Reset(k);
    } else {
      var before, e := effects[..|effects| - 1], effects[|effects| - 1];
      NoteAllContinues(t, before, k);
      if n < |NoteAll(t, before, k).entries| {
        c := EntryOrigin(t, before, k, n);
      } else {
        c := e;
      }
    }
  }

  lemma StepEntryOrigin(s: State, e: Event, k: Key, n: nat)
    requires n < |LogOf(Next(s, e).logs, k).entries|
    ensures var t, u := LogOf(s.logs, k), LogOf(Next(s, e).logs, k);
            || (u.epoch == t.epoch && n < |t.entries| && SameRestart(t.entries[n], u.entries[n]))
            || (&& e.Reconciles? && e.key == k && k in s.world.workloads
                && (u.epoch == t.epoch ==> n >= |t.entries|)
                && u.entries[n].limits == e.inputs.cfg.limits
                && u.entries[n].rec.version == s.world.Version(k)
                && u.entries[n].rec.triggeredAt == s.world.now)
  {
    hide Reconcile, SweepAll, Restartable, Recorded, Note, NoteAll;
    var effects := Exec(s.world, e).effects;
    RecordedAt(s.logs, effects, k);
    var c := EntryOrigin(LogOf(s.logs, k), effects, k, n);
    if c in effects && c.Counted? && c.key == k {
      match e
      case Reconciles(j, i) =>
        ReconcileEffects(s.world, j, i);
        CountedIff(s.world, j, i, c);
      case Expires(f) =>
        SweepEffects(s.world.(gate := Unexpired(s.world.gate, s.world.now, s.world.timeout)), f.order, f, c);
      case _ =>
    }
  }

  /** Each entry of a log uses settings that some reconcile of that policy was given. */
  lemma {:induction false} EntriesUseGivenSettings(s: State, events: seq<Event>, k: Key, n: nat)
    requires Initial(s) && n < |LogAfter(s, events, k)|
    ensures Used(events, k, LogAfter(s, events, k)[n].limits)
    decreases |events|
  {
    hide Next;
    var last := |events| - 1;
    StepEntryOrigin(Run(s, events[..last]), events[last], k, n);
    var before := LogAfter(s, events[..last], k);
    if n < |before| && SameRestart(before[n], LogAfter(s, events, k)[n]) {
      EntriesUseGivenSettings(s, events[..last], k, n);
    } else {
      assert events[last] in events;
    }
  }

  /** The entries a quiet run adds are of the version it started with. */
  lemma {:induction false} NewEntriesAreOfVersion(s: State, events: seq<Event>, k: Key, n: nat)
    requires QuietRun(s, events, k)
    requires LogOf(Run(s, events).logs, k).epoch == LogOf(s.logs, k).epoch
    requires |LogOf(s.logs, k).entries| <= n < |LogAfter(s, events, k)|
    ensures k in s.world.workloads && LogAfter(s, events, k)[n].rec.version == s.world.Version(k)
    ensures Used(events, k, LogAfter(s, events, k)[n].limits)
    decreases |events|
  {
    hide Next, QuietRun;
    var last := |events| - 1;
    var before := Run(s, events[..last]);
    QuietPrefix(s, events, k);
    VersionMovesOnlyByEdit(s, events[..last], k);
    RecordsAreFinal(s, events[..last], k);
    RecordsAreFinal(before, [events[last]], k);
    OneStep(before, events[last]);
    StepEntryOrigin(before, events[last], k, n);
    if n < |LogOf(before.logs, k).entries| {
      NewEntriesAreOfVersion(s, events[..last], k, n);
    } else {
      assert events[last] in events;
    }
  }

  // ---- Budget and window between edits ----------------------------------------------------------

  /** The policy of k keeps its breaker settings. */
  ghost predicate FixedBreaker(events: seq<Event>, k: Key, window: int, max: int) {
    forall l :: Used(events, k, l) ==> l.window == window && l.max == max
  }

  /** No other object is about to be adopted: the policy has adopted the live one, or none yet. */
  predicate NonePending(w: World, k: Key) {
    k in w.policies && k in w.workloads ==> w.policies[k].status.workloadUID in {"", w.workloads[k].uid}
  }

  /** While nobody edits or recreates the workload or its policy, its restarts stay in one log. */
  lemma {:induction false} OneLog(s: State, events: seq<Event>, k: Key)
    requires QuietRun(s, events, k) && CreatePolicy(k) !in events && NonePending(s.world, k)
    ensures NonePending(Run(s, events).world, k)
    ensures LogOf(Run(s, events).logs, k).epoch == LogOf(s.logs, k).epoch
    decreases |events|
  {
    hide QuietRun, Exec, Untouched, Recorded;
    if events != [] {
      var n := |events| - 1;
      var u := Run(s, events[..n]);
      QuietPrefix(s, events, k);
      assert events[n] in events;
      OneLog(s, events[..n], k);
      StepKeepsVersion(u.world, events[n], k);
      if k in Exec(u.world, events[n]).world.policies { StepAdoptsLive(u.world, events[n], k); }
      StartsOverIff(u, events[n], k);
    }
  }

  /**
    Right after a dispatch onto an object with a UID, that object's next restarts are in the same log exactly
    when the object read last is the one read first; if not, no cooldown and no breaker guards the next one.
   */
  lemma StampedInItsLog(w: World, k: Key, i: Inputs)
    requires Exec(w, Reconciles(k, i)).exit.Dispatched?
    ensures k in w.workloads && k in Changed(w, k, i.interim).workloads
    ensures var v := Exec(w, Reconciles(k, i)).world;
            w.workloads[k].uid != "" ==>
              && (NonePending(v, k) <==> Changed(w, k, i.interim).workloads[k].uid == w.workloads[k].uid)
              && (!NonePending(v, k) ==>
                    forall version, now, l ::
                      Admitted(DecidedOn(v.policies[k].status, v.workloads[k].uid), version, now, l))
  {
    hide Exec, Rolled, Restartable;
    DispatchedIff(w, k, i);
    RestartLeaves(w, k, i);
    PatchKeepsVersion(Changed(w, k, i.interim).workloads[k], w.encoding.stamp(w.now), w.encoding.hash);
  }

  /** A quiet stretch of a run: nobody edits or recreates the workload or its policy, and nothing of that is pending. */
  ghost predicate QuietStretch(s: State, before: seq<Event>, events: seq<Event>, k: Key) {
    var u := Run(s, before);
    Initial(s) && QuietRun(u, events, k) && CreatePolicy(k) !in events && NonePending(u.world, k)
  }

  lemma StretchIsGuarded(s: State, before: seq<Event>, events: seq<Event>, k: Key)
    requires QuietStretch(s, before, events, k)
    ensures var t := LogAfter(Run(s, before), events, k);
            Guarded(t) && |LogAfter(s, before, k)| <= |t|
  {
    hide Run, Guarded, QuietRun, Invariant;
    InvariantHolds(s, before);
    LogIsGuarded(s, before, k);
    LogStaysGuarded(Run(s, before), events, k);
    RecordsAreFinal(Run(s, before), events, k);
    OneLog(Run(s, before), events, k);
  }

  lemma StretchIsSteady(s: State, before: seq<Event>, events: seq<Event>, k: Key, window: int, max: int)
      returns (version: string)
    requires QuietStretch(s, before, events, k) && FixedBreaker(events, k, window, max) && max > 0
    ensures var t := LogAfter(Run(s, before), events, k);
            Budget.Steady(t, |LogAfter(s, before, k)|, |t|, version, window, max)
  {
    hide Run, Guarded, QuietRun, Used;
    var u := Run(s, before);
    var t, lo := LogAfter(u, events, k), |LogAfter(s, before, k)|;
    StretchIsGuarded(s, before, events, k);
    OneLog(u, events, k);
    version := if k in u.world.workloads then u.world.Version(k) else "";
    forall n | lo <= n < |t|
      ensures t[n].rec.version == version && t[n].limits.window == window && t[n].limits.max == max
    {
      NewEntriesAreOfVersion(u, events, k, n);
    }
  }

  /**
    While nobody edits or recreates the workload and the breaker settings stay, any interval as long as the
    window sees at most 2*max - 1 restarts, whatever writes fail or are lost and however often the leader changes.
   */
  lemma BudgetBetweenEdits(s: State, before: seq<Event>, events: seq<Event>, k: Key, window: int, max: int, from: int)
    requires QuietStretch(s, before, events, k) && FixedBreaker(events, k, window, max) && max > 0
    ensures var t, lo := LogAfter(Run(s, before), events, k), |LogAfter(s, before, k)|;
            && lo <= |t|
            && Budget.DispatchedIn(t, lo, |t|, from, window) <= Budget.CountIn(t, lo, |t|, from, window) <= 2 * max - 1
  {
    hide QuietStretch, FixedBreaker, Guarded, LogAfter, Run;
    var t, lo := LogAfter(Run(s, before), events, k), |LogAfter(s, before, k)|;
    StretchIsGuarded(s, before, events, k);
    var version := StretchIsSteady(s, before, events, k, window, max);
    Budget.SlidingBudget(t, lo, |t|, version, window, max, from);
    Budget.DispatchedAreCounted(t, lo, |t|, from, window);
  }

  /** Between edits the breaker window rolls over exactly when it has aged out. */
  lemma WindowOnlyAgesOut(s: State, before: seq<Event>, events: seq<Event>, k: Key, n: nat)
    requires QuietStretch(s, before, events, k)
    requires |LogAfter(s, before, k)| < n < |LogAfter(Run(s, before), events, k)|
    ensures var t := LogAfter(Run(s, before), events, k);
            var was, next := Budget.After(t, n - 1), Budget.After(t, n);
            && was.windowStart.Some?
            && if TimeAt(t, n) - was.windowStart.value >= t[n].limits.window
               then next.windowStart == Some(TimeAt(t, n)) && next.restartCount == 1
               else next.windowStart == was.windowStart && next.restartCount == was.restartCount + 1
  {
    hide Guarded, Run, QuietRun, Budget.After, Used;
    StretchIsGuarded(s, before, events, k);
    OneLog(Run(s, before), events, k);
    NewEntriesAreOfVersion(Run(s, before), events, k, n - 1);
    NewEntriesAreOfVersion(Run(s, before), events, k, n);
    Budget.RestartStep(LogAfter(Run(s, before), events, k), n - 1);
    Budget.RollsOnlyByAge(LogAfter(Run(s, before), events, k), n);
  }

  // ---- Counters and audit trail in every reachable state -------------------------------------------

  /** With positive cooldowns, exactly min(RestartCount, 10) history records lie in the breaker window. */
  lemma CountersAgree(s: State, events: seq<Event>, k: Key)
    requires Initial(s) && k in Run(s, events).world.policies && LogAfter(s, events, k) != []
    requires forall l :: Used(events, k, l) ==> l.cooldown > 0
    ensures var st := Run(s, events).world.policies[k].status;
            var b, h := st.breaker, st.history;
            && HistoryMatches(h, LogAfter(s, events, k))
            && h != [] && b.windowStart.Some? && b.lastRestartAt == Some(h[|h| - 1].triggeredAt)
            && 1 <= b.restartCount && Min(b.restartCount, 10) <= |h|
            && forall i :: 0 <= i < |h| ==>
                 && (h[i].triggeredAt >= b.windowStart.value <==> i >= |h| - Min(b.restartCount, 10))
                 && (h[i].triggeredAt >= b.windowStart.value ==> h[i].version in {b.version, ""})
  {
    hide Run, Guarded, Replay, Used;
    StatusIsSummary(s, events, k);
    forall n | 0 <= n < |LogAfter(s, events, k)| ensures LogAfter(s, events, k)[n].limits.cooldown > 0 {
      EntriesUseGivenSettings(s, events, k, n);
    }
    CountersAgreeWithHistory(Run(s, events).world.policies[k].status, LogAfter(s, events, k), Run(s, events).world.now);
  }
}
