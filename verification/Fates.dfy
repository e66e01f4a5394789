/** What can become of a restart that is open while no slot is held for it, event by event. */
module Fates {
  import opened Wrappers
  import opened PolicyTypes
  import opened Trail
  import opened Gate
  import opened Control
  import opened Ledger
  import opened Invariants
  import opened SlotMoves
  import opened Runs
  import opened Decisions
  import opened Closures
  import opened Finality
  import opened Orphans
  import opened Failover

  datatype Fate = Stays | Resumes | Swept(outcome: Outcome) | Buried | StartsOver

  /** The record of restart n after the event, and what about the event makes it so. */
  ghost predicate Meets(s: State, e: Event, k: Key, n: nat, f: Fate) {
    var u, step := Next(s, e), Exec(s.world, e);
    match f
    case Stays => StillOpen(s, u, k, n) && k !in u.world.gate
    case Resumes =>
      && StillOpen(s, u, k, n) && k in u.world.gate
      && e.Reconciles? && e.key == k && step.exit.Resumed? && (s.world.cap <= 0 || |s.world.gate| < s.world.cap)
    case Swept(outcome) =>
      && LogOf(u.logs, k) == Note(LogOf(s.logs, k), Closed(k, s.world.now, outcome))
      && e.Expires? && Closed(k, s.world.now, outcome) in step.effects
      && outcome in {TimedOut, Superseded} && Justified(s.world, k, outcome)
    case Buried =>
      && LogOf(u.logs, k).epoch == LogOf(s.logs, k).epoch
      && n + 2 == |LogOf(u.logs, k).entries| && Open(LogOf(u.logs, k).entries[n].rec)
      && e.Reconciles? && e.key == k && MayRestart(s.world, k, e.inputs) && Takes(e.inputs.countReply)
      && Prelude(s.world, k) == []
    case StartsOver =>
      && LogOf(u.logs, k).epoch > LogOf(s.logs, k).epoch
      && StartsFresh(s.world, e, k)
  }

  lemma SweptOnly(w: World, e: Event, c: Effect)
    requires c in Exec(w, e).effects && c.Closed? && c.key !in w.gate
    ensures e.Expires? && c.outcome in {TimedOut, Superseded}
  {
    hide Reconcile, SweepAll;
    match e
    case Reconciles(k, i) => ReconcileClosesIff(w, k, i, c);
    case Expires(f) => SweepEffects(w.(gate := Unexpired(w.gate, w.now, w.timeout)), f.order, f, c);
    case _ =>
  }

  /** The closing effect behind an open record that this step closes. */
  lemma ClosedByEffect(s: State, e: Event, k: Key, n: nat) returns (c: Effect)
    requires var t, u := LogOf(s.logs, k), LogOf(Next(s, e).logs, k);
             && u.epoch == t.epoch && n < |t.entries| && n < |u.entries|
             && Open(t.entries[n].rec) && !Open(u.entries[n].rec)
    ensures c in Exec(s.world, e).effects && c.Closed? && c.key == k
  {
    hide Exec, Recorded;
    var effects := Exec(s.world, e).effects;
    RecordedAt(s.logs, effects, k);
    StepCountsOpen(s.world, e);
    if NoClosing(effects, k) { ClosedBefore(LogOf(s.logs, k), effects, k, n); }
    c :| c in effects && c.key == k && c.Closed?;
  }

  /**
    In a reachable state, an open restart without a slot meets one of five fates in any event: it stays so, is
    resumed, is closed by the sweep, is buried behind a newer restart, or its log starts over.
   */
  lemma StrandedFate(s: State, e: Event, k: Key, n: nat) returns (f: Fate)
    requires Invariant(s) && Stranded(s, k, n)
    ensures Meets(s, e, k, n, f)
  {
    hide Exec, Recorded, Justified, MayRestart, StartsFresh, Guarded, Replay, Tracked;
    var t, u := LogOf(s.logs, k), LogOf(Next(s, e).logs, k);
    StepContinues(s, e, k);
    StartsOverIff(s, e, k);
    if u.epoch != t.epoch {
      f := StartsOver;
    } else if |u.entries| > |t.entries| {
      LongerIsCounted(s, e, k);
      RestartAppends(s, k, e.inputs);
      f := Buried;
    } else if !Open(u.entries[n].rec) {
      var c := ClosedByEffect(s, e, k, n);
      SweptOnly(s.world, e, c);
      OutcomesAreJustified(s.world, e, c);
      ClosedNewest(s, e, c);
      f := Swept(c.outcome);
    } else if k in Next(s, e).world.gate {
      SlotTakenBy(s.world, e, k);
      if Exec(s.world, e).exit.Dispatched? {
        DispatchedIff(s.world, k, e.inputs);
        RestartAppends(s, k, e.inputs);
      }
      ResumeRetakesSlot(s.world, k, e.inputs);
      f := Resumes;
    } else {
      f := Stays;
    }
  }

  lemma ClosedNote(t: Log, k: Key, at: int, outcome: Outcome)
    requires t.entries != [] && Open(t.entries[|t.entries| - 1].rec)
    ensures var u, n := Note(t, Closed(k, at, outcome)), |t.entries| - 1;
            && u.epoch == t.epoch && |u.entries| == n + 1
            && u.entries[n].rec.completedAt == Some(at) && u.entries[n].rec.outcome == outcome
  {
  }

  /** No event gives it two of them. */
  lemma OneFate(s: State, e: Event, k: Key, n: nat, f: Fate, g: Fate)
    requires Stranded(s, k, n) && Meets(s, e, k, n, f) && Meets(s, e, k, n, g)
    ensures f == g
  {
    hide Exec, Next, Note, Justified, MayRestart, StartsFresh;
    if f.Swept? { ClosedNote(LogOf(s.logs, k), k, s.world.now, f.outcome); }
    if g.Swept? { ClosedNote(LogOf(s.logs, k), k, s.world.now, g.outcome); }
  }

  // ---- When an orphan cannot arise --------------------------------------------------------------------

  lemma MarkedIffOpen(s: State, k: Key)
    requires Invariant(s) && k in s.world.policies
    ensures var t, m := LogOf(s.logs, k).entries, s.world.policies[k].status.inFlight;
            && (m.Some? <==> t != [] && Open(t[|t| - 1].rec))
            && (m.Some? ==> m.value.dispatchedAt == TimeAt(t, |t| - 1))
  {
    hide Guarded, Replay;
    assert StatusOk(s.world, k, LogOf(s.logs, k));
  }

  lemma PassKeepsLog(s: State, f: Faults, k: Key)
    ensures var t, u := LogOf(s.logs, k), LogOf(Next(s, Expires(f)).logs, k);
            u.epoch == t.epoch && |u.entries| == |t.entries|
  {
    hide Exec, Recorded;
    StepContinues(s, Expires(f), k);
    StartsOverIff(s, Expires(f), k);
    if |LogOf(Next(s, Expires(f)).logs, k).entries| > |LogOf(s.logs, k).entries| { LongerIsCounted(s, Expires(f), k); }
  }

  /** A pass whose writes are all acknowledged, and that lists k, closes its newest restart once that is timed out. */
  lemma PassClosesOld(s: State, f: Faults, k: Key)
    requires Invariant(s) && AllAcknowledged(f) && k in f.order && k in s.world.policies
    requires var t := LogOf(s.logs, k).entries; t != [] && s.world.now - TimeAt(t, |t| - 1) >= s.world.timeout
    ensures var u := LogOf(Next(s, Expires(f)).logs, k).entries; u != [] && !Open(u[|u| - 1].rec)
  {
    hide Invariant, SweepAll, Recorded;
    var w1 := s.world.(gate := Unexpired(s.world.gate, s.world.now, s.world.timeout));
    MarkedIffOpen(s, k);
    InvariantStep(s, Expires(f));
    PassKeepsLog(s, f, k);
    SweepAllKeepsPolicy(w1, f, k);
    if s.world.policies[k].status.inFlight.Some? {
      SweepVisits(w1, f.order, f, k);
      MarkedIffOpen(Next(s, Expires(f)), k);
    } else {
      StepContinues(s, Expires(f), k);
    }
  }

  lemma SweepAllKeepsPolicy(w: World, f: Faults, k: Key)
    requires k in w.policies
    ensures k in SweepAll(w, f.order, f).world.policies
  {
    hide SweepAll;
    SweepAllMarker(w, f.order, f, k);
  }

  /**
    If such a pass falls at least `timeout` after a restart and before the next one, the restart is never left
    open behind a newer one: from that pass on it is closed, as long as its log goes on.
   */
  lemma SweptIsNeverBuried(s: State, f: Faults, events: seq<Event>, k: Key)
    requires Invariant(s) && AllAcknowledged(f) && k in f.order && k in s.world.policies
    requires var t := LogOf(s.logs, k).entries; t != [] && s.world.now - TimeAt(t, |t| - 1) >= s.world.timeout
    requires LogOf(Run(Next(s, Expires(f)), events).logs, k).epoch == LogOf(s.logs, k).epoch
    ensures var n, t := |LogOf(s.logs, k).entries| - 1, LogAfter(Next(s, Expires(f)), events, k);
            n < |t| && !Open(t[n].rec)
  {
    hide Next, Invariant, Run;
    PassClosesOld(s, f, k);
    PassKeepsLog(s, f, k);
    RecordsAreFinal(Next(s, Expires(f)), events, k);
  }
}
