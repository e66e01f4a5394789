/** The audit trail over whole runs: it only grows, closed records are final, and each outcome was honest. */
module Finality {
  import opened Wrappers
  import opened PolicyTypes
  import opened Breaker
  import opened Trail
  import opened Gate
  import opened Scan
  import Maintenance
  import opened Control
  import opened Ledger
  import opened Runs
  import opened Closures
  import opened Decisions

  // ---- Closed records are final -----------------------------------------------------------

  /** d is the same restart as e, seen later: only an open record may have changed, by being closed. */
  predicate SameRestart(e: Entry, d: Entry) {
    && d.limits == e.limits && d.rec.triggeredAt == e.rec.triggeredAt
    && d.rec.version == e.rec.version && d.rec.cause == e.rec.cause
    && (e.rec.completedAt.Some? ==> d.rec == e.rec)
    && (e.dispatched ==> d.dispatched)
  }

  /** u continues t, unless the status started over in between. */
  ghost predicate Continues(t: Log, u: Log) {
    && t.epoch <= u.epoch
    && (t.epoch == u.epoch ==>
          && |t.entries| <= |u.entries|
          && forall i :: 0 <= i < |t.entries| ==> SameRestart(t.entries[i], u.entries[i]))
  }

  lemma NoteContinues(t: Log, e: Effect)
    ensures Continues(t, Note(t, e))
  {
  }

  lemma ContinuesTrans(t: Log, u: Log, v: Log)
    requires Continues(t, u) && Continues(u, v)
    ensures Continues(t, v)
  {
  }

  lemma {:induction false} NoteAllContinues(t: Log, effects: seq<Effect>, k: Key)
    ensures Continues(t, NoteAll(t, effects, k))
  {
    hide Continues, Note;
    if effects == [] {
      ContinuesSelf(t);
    } else {
      var before := NoteAll(t, effects[..|effects| - 1], k);
      NoteAllContinues(t, effects[..|effects| - 1], k);
      NoteContinues(before, effects[|effects| - 1]);
      ContinuesTrans(t, before, Note(before, effects[|effects| - 1]));
    }
  }

  lemma ContinuesSelf(t: Log)
    ensures Continues(t, t)
  {
  }

  /** Over any run, a log only grows: no restart is lost, reordered or altered, and no outcome is ever changed. */
  lemma {:induction false} RecordsAreFinal(s: State, events: seq<Event>, k: Key)
    ensures Continues(LogOf(s.logs, k), LogOf(Run(s, events).logs, k))
    decreases |events|
  {
    hide Continues, Exec, Recorded;
    if events == [] {
      ContinuesSelf(LogOf(s.logs, k));
    } else {
      var n := |events| - 1;
      var u := Run(s, events[..n]);
      RecordsAreFinal(s, events[..n], k);
      RecordedAt(u.logs, Exec(u.world, events[n]).effects, k);
      NoteAllContinues(LogOf(u.logs, k), Exec(u.world, events[n]).effects, k);
      ContinuesTrans(LogOf(s.logs, k), LogOf(u.logs, k), LogOf(Run(s, events).logs, k));
    }
  }

  lemma {:induction false} EpochNeedsReset(t: Log, effects: seq<Effect>, k: Key)
    requires Reset(k) !in effects
    ensures NoteAll(t, effects, k).epoch == t.epoch
  {
    if effects != [] { EpochNeedsReset(t, effects[..|effects| - 1], k); }
  }

  lemma RecheckNeverResets(w: World, k: Key, i: Inputs, cause: Cause, j: Key)
    requires k in w.policies && k in w.workloads
    ensures Reset(j) !in Recheck(w, k, i, cause).effects
  {
    hide Applied, Recomputed, Written, Released;
  }

  lemma AdmitNeverResets(w: World, k: Key, i: Inputs, j: Key)
    requires k in w.policies && k in w.workloads
    ensures Reset(j) !in Admit(w, k, i).effects
  {
    hide Recheck, FirstBreach, Maintenance.Allowed;
    var f := FirstBreach(i.pods, i.cfg.grace, w.now);
    if f.Breach? { RecheckNeverResets(w.(gate := Tried(w.gate, w.cap, k, w.now)), k, i, f.cause, j); }
  }

  lemma SettleNeverResets(w: World, k: Key, i: Inputs, j: Key)
    requires k in w.policies && k in w.workloads
    ensures Reset(j) !in Settle(w, k, i).effects
  {
    hide Admit, Recomputed, Completed;
    AdmitNeverResets(w, k, i, j);
  }

  lemma {:induction false} EpochNeverFalls(t: Log, effects: seq<Effect>, k: Key)
    ensures NoteAll(t, effects, k).epoch >= t.epoch
    ensures Reset(k) in effects ==> NoteAll(t, effects, k).epoch > t.epoch
  {
    if effects != [] {
      EpochNeverFalls(t, effects[..|effects| - 1], k);
      assert effects == effects[..|effects| - 1] + [effects[|effects| - 1]];
    }
  }

  /** The workload was read, is not the object adopted before, and its adoption is stored. */
  predicate Readopts(w: World, k: Key, i: Inputs) {
    && k in w.policies && !i.fetchFails && k in w.workloads
    && Recreated(w.policies[k].status, w.workloads[k].uid) && Takes(i.adoptReply)
  }

  lemma ResolveResetsIff(w: World, k: Key, i: Inputs, j: Key)
    requires k in w.policies
    ensures Reset(j) in Resolve(w, k, i).effects <==> j == k && Readopts(w, k, i)
  {
    hide Settle;
    if k in w.workloads {
      SettleNeverResets(w, k, i, j);
      SettleNeverResets(Written(w, k, Adopted(w.policies[k].status, w.workloads[k].uid), i.adoptReply), k, i, j);
    }
  }

  lemma ResetsIff(w: World, k: Key, i: Inputs, j: Key)
    ensures Reset(j) in Exec(w, Reconciles(k, i)).effects <==> j == k && Ready(w, k, i) && Readopts(w, k, i)
  {
    hide Resolve;
    if k in w.policies {
      ResolveResetsIff(w, k, i, j);
      ResolveResetsIff(Written(w, k, w.policies[k].status.(dryRun := i.cfg.dryRun), i.modeReply), k, i, j);
    }
  }

  /** The status of k starts over in this step: a new policy, or the adoption of a recreated workload. */
  predicate StartsFresh(w: World, e: Event, k: Key) {
    || (e == CreatePolicy(k) && k !in w.policies)
    || (e.Reconciles? && e.key == k && Ready(w, k, e.inputs) && Readopts(w, k, e.inputs))
  }

  lemma ResetIffFresh(w: World, e: Event, k: Key)
    ensures Reset(k) in Exec(w, e).effects <==> StartsFresh(w, e, k)
  {
    hide Reconcile, SweepAll, Readopts, Ready;
    match e
    case Reconciles(j, i) => ResetsIff(w, j, i, k);
    case Expires(f) =>
      var w1 := w.(gate := Unexpired(w.gate, w.now, w.timeout));
      if Reset(k) in SweepAll(w1, f.order, f).effects { SweepEffects(w1, f.order, f, Reset(k)); }
    case _ =>
  }

  /** A log starts over exactly with a new policy, or when a reconcile adopts a recreated workload. */
  lemma {:induction false} StartsOverIff(s: State, e: Event, k: Key)
    ensures LogOf(Next(s, e).logs, k).epoch != LogOf(s.logs, k).epoch <==> StartsFresh(s.world, e, k)
  {
    hide Exec, Recorded, StartsFresh;
    RecordedAt(s.logs, Exec(s.world, e).effects, k);
    ResetIffFresh(s.world, e, k);
    EpochNeverFalls(LogOf(s.logs, k), Exec(s.world, e).effects, k);
    if !StartsFresh(s.world, e, k) { EpochNeedsReset(LogOf(s.logs, k), Exec(s.world, e).effects, k); }
  }

  // ---- Each outcome was honest when it was recorded --------------------------------------------

  /** Every restart is counted as an open record. */
  ghost predicate CountsOpen(effects: seq<Effect>) { forall e :: e in effects && e.Counted? ==> Open(e.rec) }

  lemma StepCountsOpen(w: World, e: Event)
    ensures CountsOpen(Exec(w, e).effects)
  {
    hide Reconcile, SweepAll, Restartable, MayRestart;
    forall c | c in Exec(w, e).effects && c.Counted? ensures Open(c.rec) {
      match e
      case Reconciles(k, i) => CountedIff(w, k, i, c);
      case Expires(f) => SweepEffects(w.(gate := Unexpired(w.gate, w.now, w.timeout)), f.order, f, c);
      case _ =>
    }
  }

  ghost predicate NoClosing(effects: seq<Effect>, k: Key) { forall e :: e in effects && e.key == k ==> !e.Closed? }

  /** Without a closing effect, a closed record was closed before. */
  lemma {:induction false} ClosedBefore(t: Log, effects: seq<Effect>, k: Key, n: nat)
    requires NoClosing(effects, k) && CountsOpen(effects)
    requires var u := NoteAll(t, effects, k); n < |u.entries| && !Open(u.entries[n].rec)
    ensures var u := NoteAll(t, effects, k);
            u.epoch == t.epoch && n < |t.entries| && t.entries[n].rec == u.entries[n].rec
  {
    if effects != [] { ClosedBefore(t, effects[..|effects| - 1], k, n); }
  }

  ghost predicate OnlyEffect(effects: seq<Effect>, k: Key, c: Effect) {
    forall e :: e in effects && e.key == k ==> e == c
  }

  /** A closing effect on an open newest record closes that one and nothing else. */
  lemma {:induction false} ClosesNewest(t: Log, effects: seq<Effect>, c: Effect)
    requires c.Closed? && c in effects && OnlyEffect(effects, c.key, c)
    requires t.entries != [] && Open(t.entries[|t.entries| - 1].rec)
    ensures NoteAll(t, effects, c.key) == Note(t, c)
  {
    var n := |effects| - 1;
    if c in effects[..n] {
      ClosesNewest(t, effects[..n], c);
    } else {
      NoteNone(t, effects[..n], c.key);
      assert effects == effects[..n] + [effects[n]];
    }
  }

  lemma SettleClosesAlone(w: World, k: Key, i: Inputs, c: Effect)
    requires k in w.policies && k in w.workloads && c.Closed? && c in Settle(w, k, i).effects
    ensures Settle(w, k, i).effects == [c]
  {
    hide Admit, Completed, Recomputed;
    AdmitNeverCloses(w, k, i, c);
  }

  lemma ResolveClosesAlone(w: World, k: Key, i: Inputs, c: Effect)
    requires k in w.policies && c.Closed? && c in Resolve(w, k, i).effects
    ensures Resolve(w, k, i).effects == [c]
  {
    hide Settle;
    var w' := Written(w, k, Adopted(w.policies[k].status, w.workloads[k].uid), i.adoptReply);
    ResolveClosesIff(w, k, i, c);
    if c in Settle(w, k, i).effects { SettleClosesAlone(w, k, i, c); }
    if c in Settle(w', k, i).effects { SettleClosesAlone(w', k, i, c); }
  }

  lemma ClosesAlone(w: World, e: Event, c: Effect)
    requires c.Closed? && c in Exec(w, e).effects
    ensures OnlyEffect(Exec(w, e).effects, c.key, c)
  {
    hide Resolve, SweepAll;
    match e
    case Reconciles(k, i) =>
      if k in w.policies {
        var w' := Written(w, k, w.policies[k].status.(dryRun := i.cfg.dryRun), i.modeReply);
        if c in Resolve(w, k, i).effects { ResolveClosesAlone(w, k, i, c); }
        if c in Resolve(w', k, i).effects { ResolveClosesAlone(w', k, i, c); }
      }
    case Expires(f) =>
      var w1 := w.(gate := Unexpired(w.gate, w.now, w.timeout));
      forall d | d in SweepAll(w1, f.order, f).effects ensures SweptAs(w1, f, d) {
        SweepEffects(w1, f.order, f, d);
      }
    case _ =>
  }

  /** Record n of the log of k is closed in this step, by an outcome the cluster justifies. */
  ghost predicate ClosedHonestly(s: State, k: Key, n: nat, closed: Record) {
    var t := LogOf(s.logs, k).entries;
    && n == |t| - 1 && Open(t[n].rec)
    && closed == t[n].rec.(completedAt := closed.completedAt, outcome := closed.outcome)
    && closed.completedAt == Some(s.world.now)
    && Justified(s.world, k, closed.outcome)
    && s.world.policies[k].status.inFlight == Some(InFlight(closed.triggeredAt, closed.version))
  }

  lemma StepClosesHonestly(s: State, e: Event, k: Key, n: nat)
    requires Invariant(s)
    requires var u := LogOf(Next(s, e).logs, k).entries; n < |u| && !Open(u[n].rec)
    ensures var t, u := LogOf(s.logs, k), LogOf(Next(s, e).logs, k);
            && u.epoch == t.epoch
            && ((n < |t.entries| && t.entries[n].rec == u.entries[n].rec) || ClosedHonestly(s, k, n, u.entries[n].rec))
  {
    hide Exec, Recorded, Justified;
    var effects, t := Exec(s.world, e).effects, LogOf(s.logs, k);
    RecordedAt(s.logs, effects, k);
    StepCountsOpen(s.world, e);
    if NoClosing(effects, k) {
      ClosedBefore(t, effects, k, n);
    } else {
      var c :| c in effects && c.key == k && c.Closed?;
      OutcomesAreJustified(s.world, e, c);
      ClosesAlone(s.world, e, c);
      MarkedRecordIsOpen(s, k, c.outcome);
      ClosesNewest(t, effects, c);
    }
  }

  lemma MarkedRecordIsOpen(s: State, k: Key, outcome: Outcome)
    requires Invariant(s) && Justified(s.world, k, outcome)
    ensures var t, m := LogOf(s.logs, k).entries, s.world.policies[k].status.inFlight;
            t != [] && Open(t[|t| - 1].rec) && m == Some(InFlight(t[|t| - 1].rec.triggeredAt, t[|t| - 1].rec.version))
  {
    hide Guarded, Replay;
    assert StatusOk(s.world, k, LogOf(s.logs, k));
  }

  /**
    Every closed record of every reachable log was closed in some earlier step of the run, while it was
    the marked in-flight rollout, by an outcome that the cluster at that step justifies.
   */
  lemma {:induction false} EveryOutcomeIsHonest(s: State, events: seq<Event>, k: Key, n: nat) returns (m: nat)
    requires Initial(s)
    requires var t := LogAfter(s, events, k); n < |t| && !Open(t[n].rec)
    ensures m < |events| && ClosedHonestly(Run(s, events[..m]), k, n, LogAfter(s, events, k)[n].rec)
    ensures LogOf(Run(s, events[..m]).logs, k).epoch == LogOf(Run(s, events).logs, k).epoch
    decreases |events|
  {
    hide Next, ClosedHonestly, Invariant;
    var last := |events| - 1;
    InvariantHolds(s, events[..last]);
    StepClosesHonestly(Run(s, events[..last]), events[last], k, n);
    if ClosedHonestly(Run(s, events[..last]), k, n, LogAfter(s, events, k)[n].rec) {
      m := last;
    } else {
      m := EveryOutcomeIsHonest(s, events[..last], k, n);
      assert events[..last][..m] == events[..m];
    }
  }

  /**
    A record is closed only while it is the newest: one left open behind a newer restart stays open for good.
    Orphans.BuriesOpenIff says which step leaves one so.
   */
  lemma {:induction false} BuriedRecordsStayOpen(s: State, events: seq<Event>, k: Key, n: nat)
    requires Invariant(s) && LogOf(Run(s, events).logs, k).epoch == LogOf(s.logs, k).epoch
    requires n + 1 < |LogOf(s.logs, k).entries| && Open(LogOf(s.logs, k).entries[n].rec)
    ensures n + 1 < |LogAfter(s, events, k)| && Open(LogAfter(s, events, k)[n].rec)
    decreases |events|
  {
    hide Next, Invariant, Justified;
    if events != [] {
      var last := |events| - 1;
      var u := Run(s, events[..last]);
      RecordsAreFinal(s, events[..last], k);
      RecordedAt(u.logs, Exec(u.world, events[last]).effects, k);
      assert Continues(LogOf(u.logs, k), LogOf(Run(s, events).logs, k)) by {
        RecordsAreFinal(u, [events[last]], k);
        OneStep(u, events[last]);
      }
      BuriedRecordsStayOpen(s, events[..last], k, n);
      InvariantKept(s, events[..last]);
      if !Open(LogAfter(s, events, k)[n].rec) { StepClosesHonestly(u, events[last], k, n); }
    }
  }
}
