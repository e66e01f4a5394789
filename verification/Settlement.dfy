/** A restart recorded as Settled: the workload's controller had by then seen the stamp of that restart. */
module Settlement {
  import opened PolicyTypes
  import opened Breaker
  import opened Trail
  import opened Gate
  import opened Workload
  import opened Control
  import opened Ledger
  import opened Invariants
  import opened Adoption
  import opened Runs
  import opened Decisions
  import opened Restarts
  import opened Closures
  import opened Finality
  import opened Orphans

  // ---- Generations ----------------------------------------------------------------------------

  ghost function WorldAt(s: State, events: seq<Event>, m: nat): World
    requires m <= |events|
  {
    Run(s, events[..m]).world
  }

  /** What the API server guarantees: over the life of one object, its generation never goes back. */
  ghost predicate GenerationsGrow(s: State, events: seq<Event>, k: Key) {
    forall m: nat, n: nat :: m <= n <= |events| ==>
      var v, w := WorldAt(s, events, m), WorldAt(s, events, n);
      k in v.workloads && k in w.workloads && v.workloads[k].uid == w.workloads[k].uid ==>
        v.workloads[k].progress.generation <= w.workloads[k].progress.generation
  }

  /** The workload's controller has observed this generation, or is a Rollout that reports none. */
  predicate HasSeen(o: Live, generation: int) {
    o.progress.observedGeneration >= generation || (o.kind.Rollout? && o.progress.observedGeneration == 0)
  }

  lemma SettledHasSeen(o: Live)
    requires o.settled
    ensures HasSeen(o, o.progress.generation)
  {
  }

  // ---- The step that stamped a record -----------------------------------------------------------

  lemma {:induction false} StampedBefore(t: Log, effects: seq<Effect>, k: Key, n: nat)
    requires Stamped(k) !in effects
    requires n < |NoteAll(t, effects, k).entries| && NoteAll(t, effects, k).entries[n].dispatched
    ensures NoteAll(t, effects, k).epoch == t.epoch && n < |t.entries| && t.entries[n].dispatched
  {
    if effects != [] { StampedBefore(t, effects[..|effects| - 1], k, n); }
  }

  /** Event e stamps the workload of k for restart n of its log, which it also counts. */
  ghost predicate Stamps(s: State, e: Event, k: Key, n: nat) {
    && e.Reconciles? && e.key == k && MayRestart(s.world, k, e.inputs)
    && e.inputs.countReply.Done? && Takes(e.inputs.dispatchReply)
    && n + 1 == |LogOf(Next(s, e).logs, k).entries|
  }

  lemma StepStamps(s: State, e: Event, k: Key, n: nat)
    requires var u := LogOf(Next(s, e).logs, k).entries; n < |u| && u[n].dispatched
    ensures var t, u := LogOf(s.logs, k), LogOf(Next(s, e).logs, k);
            || (u.epoch == t.epoch && n < |t.entries| && t.entries[n].dispatched)
            || Stamps(s, e, k, n)
  {
    hide Exec, MayRestart, Recorded, CountOf;
    var effects, t := Exec(s.world, e).effects, LogOf(s.logs, k);
    RecordedAt(s.logs, effects, k);
    if Stamped(k) in effects {
      StampIsReconcile(s.world, e, k);
      ReconcileActs(s.world, k, e.inputs, Stamped(k));
      RestartAppends(s, k, e.inputs);
    } else {
      StampedBefore(t, effects, k, n);
    }
  }

  lemma StampIsReconcile(w: World, e: Event, k: Key)
    requires Stamped(k) in Exec(w, e).effects
    ensures e.Reconciles? && e.key == k
  {
    hide Reconcile, SweepAll;
    match e
    case Reconciles(j, i) => ReconcileEffects(w, j, i);
    case Expires(f) => SweepEffects(w.(gate := Unexpired(w.gate, w.now, w.timeout)), f.order, f, Stamped(k));
    case _ =>
  }

  /** Every record marked as dispatched was stamped by the step that counted it. */
  lemma {:induction false} StampedAt(s: State, events: seq<Event>, k: Key, n: nat) returns (m: nat)
    requires Initial(s)
    requires n < |LogAfter(s, events, k)| && LogAfter(s, events, k)[n].dispatched
    ensures m < |events| && Stamps(Run(s, events[..m]), events[m], k, n)
    ensures LogOf(Run(s, events[..m + 1]).logs, k).epoch == LogOf(Run(s, events).logs, k).epoch
    decreases |events|
  {
    hide Next, Stamps;
    var last := |events| - 1;
    StepStamps(Run(s, events[..last]), events[last], k, n);
    if Stamps(Run(s, events[..last]), events[last], k, n) {
      m := last;
      assert events[..last + 1] == events;
    } else {
      m := StampedAt(s, events[..last], k, n);
      assert events[..last][..m] == events[..m] && events[..last][..m + 1] == events[..m + 1];
    }
  }

  // ---- The adopted UID over a run -----------------------------------------------------------------

  lemma StepKeepsUID(s: State, e: Event, k: Key)
    requires k in Next(s, e).world.policies
    requires LogOf(Next(s, e).logs, k).epoch == LogOf(s.logs, k).epoch
    ensures k in s.world.policies
    ensures var uid := s.world.policies[k].status.workloadUID;
            uid != "" ==> Next(s, e).world.policies[k].status.workloadUID == uid
  {
    hide Exec, Recorded;
    RecordedAt(s.logs, Exec(s.world, e).effects, k);
    EpochNeverFalls(LogOf(s.logs, k), Exec(s.world, e).effects, k);
    StepAdoptsLive(s.world, e, k);
  }

  /** While the log of a policy goes on, the UID it has adopted stays. */
  lemma {:induction false} AdoptedUIDStays(s: State, events: seq<Event>, k: Key)
    requires k in Run(s, events).world.policies
    requires LogOf(Run(s, events).logs, k).epoch == LogOf(s.logs, k).epoch
    ensures k in s.world.policies
    ensures var uid := s.world.policies[k].status.workloadUID;
            uid != "" ==> Run(s, events).world.policies[k].status.workloadUID == uid
    decreases |events|
  {
    hide Next;
    if events != [] {
      var last := |events| - 1;
      RecordsAreFinal(s, events[..last], k);
      RecordsAreFinal(Run(s, events[..last]), [events[last]], k);
      OneStep(Run(s, events[..last]), events[last]);
      StepKeepsUID(Run(s, events[..last]), events[last], k);
      AdoptedUIDStays(s, events[..last], k);
    }
  }

  // ---- The theorem --------------------------------------------------------------------------------

  /** A record is closed after the step that counted it. */
  lemma StampedThenClosed(s: State, events: seq<Event>, k: Key, n: nat, stamped: nat, closed: nat)
    requires stamped < |events| && closed < |events|
    requires Stamps(Run(s, events[..stamped]), events[stamped], k, n)
    requires n + 1 == |LogAfter(s, events[..closed], k)|
    requires LogOf(Run(s, events[..stamped + 1]).logs, k).epoch == LogOf(Run(s, events[..closed]).logs, k).epoch
    ensures stamped < closed
  {
    hide Next, MayRestart;
    var u := Run(s, events[..stamped]);
    assert events[..stamped + 1][..stamped] == events[..stamped];
    RestartAppends(u, k, events[stamped].inputs);
    if closed <= stamped {
      RunSplits(s, events[..stamped], closed);
      assert events[..stamped][..closed] == events[..closed];
      RecordsAreFinal(Run(s, events[..closed]), events[..stamped][closed..], k);
    }
  }

  lemma StampFindsObject(s: State, events: seq<Event>, k: Key, n: nat, m: nat)
    requires m < |events| && Stamps(Run(s, events[..m]), events[m], k, n)
    ensures k in WorldAt(s, events, m + 1).workloads && k in WorldAt(s, events, m + 1).policies
  {
    hide Exec, MayRestart, Rolled;
    assert events[..m + 1][..m] == events[..m];
    RestartLeaves(Run(s, events[..m]).world, k, events[m].inputs);
  }

  lemma SettledSees(s: State, k: Key, n: nat, closed: Record)
    requires ClosedHonestly(s, k, n, closed) && closed.outcome == Outcome.Settled
    ensures k in s.world.policies && k in s.world.workloads && s.world.workloads[k].settled
    ensures s.world.policies[k].status.workloadUID in {"", s.world.workloads[k].uid}
    ensures n + 1 == |LogOf(s.logs, k).entries|
  {
  }

  /**
    A dispatched restart recorded as Settled was stamped in one step and closed in a later one, and if the
    stamp hit the adopted object, the closing step saw that object with an observed generation that includes
    the stamp; only a Rollout that reports no observed generation escapes this.
   */
  lemma SettledHasSeenStamp(s: State, events: seq<Event>, k: Key, n: nat) returns (stamped: nat, closed: nat)
    requires Initial(s) && GenerationsGrow(s, events, k)
    requires var t := LogAfter(s, events, k);
             n < |t| && t[n].dispatched && !Open(t[n].rec) && t[n].rec.outcome == Outcome.Settled
    ensures stamped < closed < |events|
    ensures Stamps(Run(s, events[..stamped]), events[stamped], k, n)
    ensures ClosedHonestly(Run(s, events[..closed]), k, n, LogAfter(s, events, k)[n].rec)
    ensures var v, w := WorldAt(s, events, stamped + 1), WorldAt(s, events, closed);
            && k in v.workloads && k in v.policies && k in w.workloads
            && (v.workloads[k].uid != "" && v.workloads[k].uid == v.policies[k].status.workloadUID ==>
                  w.workloads[k].uid == v.workloads[k].uid
                  && HasSeen(w.workloads[k], v.workloads[k].progress.generation))
  {
    hide Next, Stamps, ClosedHonestly, GenerationsGrow, HasSeen, Continues;
    stamped := StampedAt(s, events, k, n);
    closed := EveryOutcomeIsHonest(s, events, k, n);
    SettledSees(Run(s, events[..closed]), k, n, LogAfter(s, events, k)[n].rec);
    StampedThenClosed(s, events, k, n, stamped, closed);
    StampFindsObject(s, events, k, n, stamped);
    var v, w := WorldAt(s, events, stamped + 1), WorldAt(s, events, closed);
    if v.workloads[k].uid != "" && v.workloads[k].uid == v.policies[k].status.workloadUID {
      RunSplits(s, events[..closed], stamped + 1);
      assert events[..closed][..stamped + 1] == events[..stamped + 1];
      AdoptedUIDStays(Run(s, events[..stamped + 1]), events[..closed][stamped + 1..], k);
      GrewSince(s, events, k, stamped + 1, closed);
      SeenIsEnough(w.workloads[k], v.workloads[k].progress.generation);
    }
  }

  lemma GrewSince(s: State, events: seq<Event>, k: Key, m: nat, n: nat)
    requires GenerationsGrow(s, events, k) && m <= n <= |events|
    ensures var v, w := WorldAt(s, events, m), WorldAt(s, events, n);
            k in v.workloads && k in w.workloads && v.workloads[k].uid == w.workloads[k].uid ==>
              v.workloads[k].progress.generation <= w.workloads[k].progress.generation
  {
    hide WorldAt;
  }

  lemma SeenIsEnough(o: Live, generation: int)
    requires o.settled && generation <= o.progress.generation
    ensures HasSeen(o, generation)
  {
    SettledHasSeen(o);
  }
}
