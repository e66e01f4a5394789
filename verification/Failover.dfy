/** A rollout whose slot was lost: it is recorded as Settled only after a reconcile has resumed it. */
module Failover {
  import opened PolicyTypes
  import opened Trail
  import opened Gate
  import opened Control
  import opened Ledger
  import opened Invariants
  import opened SlotMoves
  import opened Runs
  import opened Decisions
  import opened Closures
  import opened Finality
  import opened Orphans

  // ---- Over a run -------------------------------------------------------------------------------

  /** Restart n is the newest of its log and still open, and no slot is held for it. */
  ghost predicate Stranded(s: State, k: Key, n: nat) {
    var t := LogOf(s.logs, k).entries;
    n + 1 == |t| && Open(t[n].rec) && k !in s.world.gate
  }

  lemma StepContinues(s: State, e: Event, k: Key)
    ensures Continues(LogOf(s.logs, k), LogOf(Next(s, e).logs, k))
  {
    hide Exec, Recorded, Continues;
    RecordedAt(s.logs, Exec(s.world, e).effects, k);
    NoteAllContinues(LogOf(s.logs, k), Exec(s.world, e).effects, k);
  }

  /** A reconcile at step m takes the slot of stranded restart n back, and it is held ever since. */
  ghost predicate ResumedSince(s: State, events: seq<Event>, k: Key, n: nat, m: nat) {
    && m < |events| && Stranded(Run(s, events[..m]), k, n)
    && events[m].Reconciles? && events[m].key == k
    && Exec(Run(s, events[..m]).world, events[m]).exit.Resumed?
    && forall q :: m < q <= |events| ==> k in Run(s, events[..q]).world.gate
  }

  /** Restart n is still the newest of the log that began in state s, and open. */
  ghost predicate StillOpen(s: State, u: State, k: Key, n: nat) {
    var t := LogOf(u.logs, k);
    t.epoch == LogOf(s.logs, k).epoch && n + 1 == |t.entries| && Open(t.entries[n].rec)
  }

  /** If a stranded restart comes to hold a slot, a reconcile of its policy has resumed it and kept the slot since. */
  lemma {:induction false} SlotNeedsResume(s: State, events: seq<Event>, k: Key, n: nat) returns (m: nat)
    requires Stranded(s, k, n) && StillOpen(s, Run(s, events), k, n) && k in Run(s, events).world.gate
    ensures ResumedSince(s, events, k, n, m)
    decreases |events|
  {
    hide Exec, Recorded, MayRestart;
    var last := |events| - 1;
    var u, e := Run(s, events[..last]), events[last];
    RecordsAreFinal(s, events[..last], k);
    StepContinues(u, e, k);
    assert events[..last + 1] == events;
    if k in u.world.gate {
      m := SlotNeedsResume(s, events[..last], k, n);
      assert forall q :: 0 <= q <= last ==> events[..last][..q] == events[..q];
    } else {
      SlotTakenBy(u.world, e, k);
      if Exec(u.world, e).exit.Dispatched? {
        DispatchedIff(u.world, k, e.inputs);
        RestartAppends(u, k, e.inputs);
      }
      m := last;
    }
  }

  /** A stranded restart that is still open holds a slot exactly if it has been resumed and kept it since. */
  lemma SlotIffResumed(s: State, events: seq<Event>, k: Key, n: nat)
    requires Stranded(s, k, n) && StillOpen(s, Run(s, events), k, n)
    ensures k in Run(s, events).world.gate <==> exists m: nat :: ResumedSince(s, events, k, n, m)
  {
    hide Exec, Next, Run, Stranded, StillOpen;
    if k in Run(s, events).world.gate { var m := SlotNeedsResume(s, events, k, n); }
    assert events[..|events|] == events;
  }

  // ---- Exactly when it is recorded as Settled -----------------------------------------------------

  /** The reconcile gets to the adopted object, and finds it settled at the version of the marker. */
  ghost predicate FindsSettled(w: World, k: Key, j: Inputs) {
    && Ready(w, k, j) && Arrives(w, k, j) && Takes(j.closeReply)
    && w.workloads[k].settled && !w.workloads[k].onDelete
    && w.policies[k].status.inFlight.Some?
    && w.policies[k].status.inFlight.value.dispatchedVersion == w.Version(k)
  }

  /** Restart n of the log that began in state s is recorded as Settled in state u. */
  ghost predicate RecordedSettled(s: State, u: State, k: Key, n: nat) {
    var t := LogOf(u.logs, k);
    && t.epoch == LogOf(s.logs, k).epoch && n < |t.entries|
    && !Open(t.entries[n].rec) && t.entries[n].rec.outcome == Outcome.Settled
  }

  lemma SettledClosingFinds(w: World, e: Event, c: Effect)
    requires c in Exec(w, e).effects && c.Closed? && c.outcome == Outcome.Settled
    ensures e.Reconciles? && e.key == c.key && c.key in w.gate && FindsSettled(w, c.key, e.inputs)
  {
    hide Reconcile, SweepAll;
    match e
    case Reconciles(k, i) => ReconcileClosesIff(w, k, i, c);
    case Expires(f) => SweepEffects(w.(gate := Unexpired(w.gate, w.now, w.timeout)), f.order, f, c);
    case _ =>
  }

  /** A step records an open restart as Settled exactly if it is a reconcile that holds its slot and finds it so. */
  lemma StepSettlesIff(s: State, u: State, e: Event, k: Key, n: nat)
    requires Invariant(u) && LogOf(u.logs, k).epoch == LogOf(s.logs, k).epoch
    requires n < |LogOf(u.logs, k).entries| && Open(LogOf(u.logs, k).entries[n].rec)
    ensures RecordedSettled(s, Next(u, e), k, n) <==>
              && n + 1 == |LogOf(u.logs, k).entries| && k in u.world.gate
              && e.Reconciles? && e.key == k && FindsSettled(u.world, k, e.inputs)
  {
    hide Exec, Recorded, Justified, FindsSettled, Guarded, Replay;
    var effects, t := Exec(u.world, e).effects, LogOf(u.logs, k);
    RecordedAt(u.logs, effects, k);
    StepContinues(u, e, k);
    if RecordedSettled(s, Next(u, e), k, n) {
      StepCountsOpen(u.world, e);
      if NoClosing(effects, k) { ClosedBefore(t, effects, k, n); }
      var c :| c in effects && c.key == k && c.Closed?;
      ClosedNewest(u, e, c);
      SettledClosingFinds(u.world, e, c);
    } else if n + 1 == |t.entries| && k in u.world.gate && e.Reconciles? && e.key == k
              && FindsSettled(u.world, k, e.inputs) {
      var c := Closed(k, u.world.now, Outcome.Settled);
      FindingCloses(u.world, k, e.inputs);
      ClosedNewest(u, e, c);
    }
  }

  lemma FindingCloses(w: World, k: Key, j: Inputs)
    requires k in w.gate && FindsSettled(w, k, j)
    ensures Closed(k, w.now, Outcome.Settled) in Exec(w, Reconciles(k, j)).effects
  {
    hide Exec;
    ReconcileClosesIff(w, k, j, Closed(k, w.now, Outcome.Settled));
  }

  /** In a reachable state, a closing effect closes the newest record of its log, and nothing else is noted there. */
  lemma ClosedNewest(u: State, e: Event, c: Effect)
    requires Invariant(u) && c in Exec(u.world, e).effects && c.Closed?
    ensures var t := LogOf(u.logs, c.key);
            && t.entries != [] && Open(t.entries[|t.entries| - 1].rec)
            && LogOf(Next(u, e).logs, c.key) == Note(t, c)
  {
    hide Exec, Recorded, Justified;
    RecordedAt(u.logs, Exec(u.world, e).effects, c.key);
    OutcomesAreJustified(u.world, e, c);
    ClosesAlone(u.world, e, c);
    MarkedRecordIsOpen(u, c.key, c.outcome);
    ClosesNewest(LogOf(u.logs, c.key), Exec(u.world, e).effects, c);
  }

  /** Step q records stranded restart n as Settled: it had been resumed, kept its slot since, and is found settled. */
  ghost predicate SettledAt(s: State, events: seq<Event>, k: Key, n: nat, q: nat) {
    && q < |events| && StillOpen(s, Run(s, events[..q]), k, n)
    && events[q].Reconciles? && events[q].key == k
    && FindsSettled(Run(s, events[..q]).world, k, events[q].inputs)
    && exists m: nat :: ResumedSince(s, events[..q], k, n, m)
  }

  lemma {:induction false} SettledNeedsResume(s: State, events: seq<Event>, k: Key, n: nat) returns (q: nat)
    requires Invariant(s) && Stranded(s, k, n) && RecordedSettled(s, Run(s, events), k, n)
    ensures SettledAt(s, events, k, n, q)
    decreases |events|
  {
    hide Exec, Recorded, Invariant, FindsSettled, ResumedSince;
    var last := |events| - 1;
    var u, e := Run(s, events[..last]), events[last];
    RecordsAreFinal(s, events[..last], k);
    StepContinues(u, e, k);
    if Open(LogOf(u.logs, k).entries[n].rec) {
      InvariantKept(s, events[..last]);
      StepSettlesIff(s, u, e, k, n);
      var m := SlotNeedsResume(s, events[..last], k, n);
      q := last;
    } else {
      q := SettledNeedsResume(s, events[..last], k, n);
      assert events[..last][..q] == events[..q];
    }
  }

  lemma ResumeThenSettles(s: State, events: seq<Event>, k: Key, n: nat, q: nat)
    requires Invariant(s) && Stranded(s, k, n) && SettledAt(s, events, k, n, q)
    requires LogOf(Run(s, events).logs, k).epoch == LogOf(s.logs, k).epoch
    ensures RecordedSettled(s, Run(s, events), k, n)
  {
    hide Exec, Next, Invariant, FindsSettled, ResumedSince, Stranded;
    var u := Run(s, events[..q]);
    InvariantKept(s, events[..q]);
    SlotIffResumed(s, events[..q], k, n);
    StepSettlesIff(s, u, events[q], k, n);
    assert events[..q + 1][..q] == events[..q];
    RunSplits(s, events, q + 1);
    RecordsAreFinal(Run(s, events[..q + 1]), events[q + 1..], k);
  }

  /**
    From any reachable state and over any run in which its log goes on: a restart that is open without a slot
    ends as Settled exactly if a reconcile of its policy resumes it within the cap, it keeps the slot from then
    on, and a later reconcile finds the adopted object settled at its version.
   */
  lemma SettledIffResumed(s: State, events: seq<Event>, k: Key, n: nat)
    requires Invariant(s) && Stranded(s, k, n)
    requires LogOf(Run(s, events).logs, k).epoch == LogOf(s.logs, k).epoch
    ensures RecordedSettled(s, Run(s, events), k, n) <==> exists q: nat :: SettledAt(s, events, k, n, q)
  {
    hide Run, Invariant, Stranded, RecordedSettled, SettledAt;
    if RecordedSettled(s, Run(s, events), k, n) {
      var q := SettledNeedsResume(s, events, k, n);
    }
    if q: nat :| SettledAt(s, events, k, n, q) {
      ResumeThenSettles(s, events, k, n, q);
    }
  }

  // ---- A condition on the events --------------------------------------------------------------------

  /** No leader goes, and nothing ends rollout r of k. */
  ghost predicate GoesOn(s: State, events: seq<Event>, k: Key, r: OwnRollout) {
    forall m :: 0 <= m < |events| ==>
      var step := Exec(Run(s, events[..m]).world, events[m]);
      !step.exit.Crashed? && StillRuns(k, r, events[m], step)
  }

  lemma StaysTrackedStep(s: State, e: Event, k: Key)
    requires Invariant(s) && k in s.active
    requires !Exec(s.world, e).exit.Crashed? && StillRuns(k, s.active[k], e, Exec(s.world, e))
    ensures k in Next(s, e).active && Next(s, e).active[k] == s.active[k]
  {
    hide Reconcile, ExpirerPass, Recorded, StillRuns;
    if e.Reconciles? && e.key == k {
      ReconcileRollout(s.world, k, e.inputs, s.active[k]);
      if Exec(s.world, e).exit.Resumed? { ResumeRetakesSlot(s.world, k, e.inputs); }
    }
  }

  lemma {:induction false} StaysTracked(s: State, events: seq<Event>, k: Key)
    requires Invariant(s) && k in s.active && GoesOn(s, events, k, s.active[k])
    ensures k in Run(s, events).active && Run(s, events).active[k] == s.active[k]
    decreases |events|
  {
    hide Exec, Next, Invariant, StillRuns;
    if events != [] {
      var n := |events| - 1;
      var u := Run(s, events[..n]);
      assert forall m :: 0 <= m < n ==> events[..n][..m] == events[..m];
      StaysTracked(s, events[..n], k);
      InvariantKept(s, events[..n]);
      StaysTrackedStep(u, events[n], k);
    }
  }

  /** A resumed rollout is tracked from then on exactly if the cap has room. */
  lemma ResumedIsTracked(s: State, k: Key, i: Inputs)
    requires Exec(s.world, Reconciles(k, i)).exit.Resumed? && k !in s.active
    ensures k in Next(s, Reconciles(k, i)).active <==> s.world.cap <= 0 || |s.world.gate| < s.world.cap
  {
    hide Exec, Recorded;
    ResumeRetakesSlot(s.world, k, i);
  }

  /**
    A rollout that was dispatched or resumed by this leader, and that nothing ends, is recorded as Settled by
    the first reconcile that finds it so, however much time passes and whatever else happens until then.
   */
  lemma TrackedThenSettles(s: State, k: Key, events: seq<Event>, j: Inputs)
    requires Invariant(s) && k in s.active && GoesOn(s, events, k, s.active[k])
    requires var w := Run(s, events).world;
             && Ready(w, k, j) && !j.fetchFails && Takes(j.closeReply)
             && k in w.workloads && w.workloads[k].settled && !w.workloads[k].onDelete
    ensures var w := Run(s, events).world;
            Closed(k, w.now, Outcome.Settled) in Exec(w, Reconciles(k, j)).effects
  {
    hide Exec, Next, Invariant, GoesOn, FindsSettled;
    StaysTracked(s, events, k);
    InvariantKept(s, events);
    TrackedIsFound(Run(s, events), k, j);
    FindingCloses(Run(s, events).world, k, j);
  }

  lemma TrackedIsFound(s: State, k: Key, j: Inputs)
    requires Invariant(s) && k in s.active && Ready(s.world, k, j) && !j.fetchFails && Takes(j.closeReply)
    requires k in s.world.workloads && s.world.workloads[k].settled && !s.world.workloads[k].onDelete
    ensures k in s.world.gate && FindsSettled(s.world, k, j)
  {
    hide StatusOk, SlotOk, WithinCap;
  }
}
