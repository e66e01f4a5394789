/** What holds over every run of the control loop, whatever fails, crashes or changes along the way. */
module Runs {
  import opened Wrappers
  import opened PolicyTypes
  import opened Trail
  import Budget
  import opened Gate
  import opened Control
  import opened Ledger
  import opened Invariants
  import opened SlotMoves
  import opened Adoption
  import opened Closures

  // ---- The invariant over every run -----------------------------------------------------

  lemma ReconcileStepRollouts(s: State, k: Key, i: Inputs, j: Key)
    requires Invariant(s) && j in Next(s, Reconciles(k, i)).active
    ensures RolloutOk(Next(s, Reconciles(k, i)).world, j, Next(s, Reconciles(k, i)).active[j])
  {
    hide Reconcile, RolloutOk, Recorded, StatusOk, SlotOk, WithinCap;
    if j == k {
      ReconcileConstants(s.world, k, i);
      ReconcileDispatches(s.world, k, i);
      HoldsSince(Reconcile(s.world, k, i).world, k, s.world.now);
      if Reconcile(s.world, k, i).exit.Resumed? { ResumedRollout(s.world, k, i); }
      if k in s.active { ReconcileRollout(s.world, k, i, s.active[k]); }
    } else {
      ReconcileElse(s.world, k, i, j);
      RolloutElse(s.world, Reconcile(s.world, k, i).world, j, s.active[j]);
    }
  }

  lemma HoldsSince(w: World, k: Key, at: int)
    ensures k in w.workloads && RolloutOk(w, k, OwnRollout(at, w.workloads[k].uid, w.Version(k))) ==>
              k in w.gate && w.gate[k] == at
  {
  }

  /** A rollout whose slot is taken back is tracked from then on. */
  lemma ResumedRollout(w: World, k: Key, i: Inputs)
    requires Exec(w, Reconciles(k, i)).exit.Resumed?
    ensures var v := Exec(w, Reconciles(k, i)).world;
            k in v.gate && k in v.workloads ==>
              RolloutOk(v, k, OwnRollout(v.gate[k], v.workloads[k].uid, v.Version(k)))
  {
    hide Exec;
    ResumeRetakesSlot(w, k, i);
  }

  lemma RolloutElse(w: World, v: World, j: Key, r: OwnRollout)
    requires SameAt(w, v, j) && RolloutOk(w, j, r)
    ensures RolloutOk(v, j, r)
  {
  }

  lemma ExpirerStepRollouts(s: State, f: Faults, j: Key)
    requires Invariant(s) && j in Next(s, Expires(f)).active
    ensures RolloutOk(Next(s, Expires(f)).world, j, Next(s, Expires(f)).active[j])
  {
    hide ExpirerPass, RolloutOk, Recorded, StatusOk, SlotOk, WithinCap;
    ExpirerConstants(s.world, f);
    if s.world.now - s.active[j].at < s.world.timeout { ExpirerRollout(s.world, f, j, s.active[j]); }
  }

  lemma StepRollouts(s: State, e: Event, j: Key)
    requires Invariant(s) && j in Next(s, e).active
    ensures RolloutOk(Next(s, e).world, j, Next(s, e).active[j])
  {
    hide Exec, RolloutOk, Recorded, StatusOk, SlotOk, WithinCap, StillRuns;
    match e
    case Reconciles(k, i) => ReconcileStepRollouts(s, k, i, j);
    case Expires(f) => ExpirerStepRollouts(s, f, j);
    case _ => OtherStepRollouts(s.world, e, j, s.active[j]);
  }

  lemma OtherStepRollouts(w: World, e: Event, j: Key, r: OwnRollout)
    requires !e.Reconciles? && !e.Expires? && RolloutOk(w, j, r)
    requires StillRuns(j, r, e, Exec(w, e)) && !Exec(w, e).exit.Crashed?
    ensures RolloutOk(Exec(w, e).world, j, r)
  {
  }

  /** Every event keeps the invariant. */
  lemma InvariantStep(s: State, e: Event)
    requires Invariant(s)
    ensures Invariant(Next(s, e))
  {
    hide Exec, Recorded, StatusOk, SlotOk, WithinCap, RolloutOk, Tracked;
    var s' := Next(s, e);
    StepGate(s.world, e);
    forall k ensures StatusOk(s'.world, k, LogOf(s'.logs, k)) {
      StepKeeps(s.world, e, k, LogOf(s.logs, k));
      RecordedAt(s.logs, Exec(s.world, e).effects, k);
    }
    forall k ensures SlotOk(s'.world, k) {
      StepKeeps(s.world, e, k, LogOf(s.logs, k));
    }
    forall k | k in s'.active ensures RolloutOk(s'.world, k, s'.active[k]) {
      StepRollouts(s, e, k);
    }
  }

  lemma InitialInvariant(s: State)
    requires Initial(s)
    ensures Invariant(s)
  {
    hide Summarizes;
    FreshSummary(s.world.now);
  }

  /** A run keeps the invariant. */
  lemma {:induction false} InvariantKept(s: State, events: seq<Event>)
    requires Invariant(s)
    ensures Invariant(Run(s, events))
    decreases |events|
  {
    hide Invariant, Next;
    if events != [] {
      InvariantKept(s, events[..|events| - 1]);
      InvariantStep(Run(s, events[..|events| - 1]), events[|events| - 1]);
    }
  }

  /** The invariant holds in every reachable state. */
  lemma InvariantHolds(s: State, events: seq<Event>)
    requires Initial(s)
    ensures Invariant(Run(s, events))
  {
    hide Initial, Invariant;
    InitialInvariant(s);
    InvariantKept(s, events);
  }

  lemma OneStep(s: State, e: Event)
    ensures Run(s, [e]) == Next(s, e)
  {
    assert [e][..0] == [];
    assert Run(s, []) == s;
  }

  lemma {:induction false} RunSplits(s: State, events: seq<Event>, m: nat)
    requires m <= |events|
    ensures Run(s, events) == Run(Run(s, events[..m]), events[m..])
    decreases |events|
  {
    hide Next;
    if m == |events| {
      assert events[..m] == events && events[m..] == [];
    } else {
      var last := |events| - 1;
      RunSplits(s, events[..last], m);
      assert events[..last][..m] == events[..m] && events[m..][..last - m] == events[..last][m..];
    }
  }

  // ---- Restart budget and cooldown ----------------------------------------------------------

  ghost function LogAfter(s: State, events: seq<Event>, k: Key): Trail { LogOf(Run(s, events).logs, k).entries }

  lemma StatusIsSummary(s: State, events: seq<Event>, k: Key)
    requires Initial(s) && k in Run(s, events).world.policies
    ensures Summarizes(Run(s, events).world.policies[k].status, LogAfter(s, events, k), Run(s, events).world.now)
  {
    hide Run, Summarizes;
    InvariantHolds(s, events);
    assert StatusOk(Run(s, events).world, k, LogOf(Run(s, events).logs, k));
  }

  /** The step that ends a policy, and any step without one, adds nothing to its log. */
  lemma AbsentLogsNothing(w: World, e: Event, k: Key, t: Log)
    requires k !in Exec(w, e).world.policies
    ensures NoteAll(t, Exec(w, e).effects, k) == t
  {
    hide Reconcile, SweepAll;
    match e
    case Reconciles(j, i) =>
      if j != k {
        ReconcileEffects(w, j, i);
        NoteNone(t, Reconcile(w, j, i).effects, k);
      } else if k in w.policies {
        ReconcileAdoptsLive(w, k, i);
      } else {
        AbsentStays(w, k, i);
      }
    case Expires(f) =>
      var w1 := w.(gate := Unexpired(w.gate, w.now, w.timeout));
      if k in w.policies { SweepAllMarker(w1, f.order, f, k); }
      forall c | c in SweepAll(w1, f.order, f).effects ensures c.key != k { SweepEffects(w1, f.order, f, c); }
      NoteNone(t, SweepAll(w1, f.order, f).effects, k);
    case _ =>
  }

  /** A log stays guarded, also after its policy is gone. */
  lemma {:induction false} LogStaysGuarded(s: State, events: seq<Event>, k: Key)
    requires Invariant(s) && Guarded(LogOf(s.logs, k).entries)
    ensures Guarded(LogAfter(s, events, k))
    decreases |events|
  {
    hide Exec, Recorded, Guarded, Replay, Invariant;
    if events != [] {
      var n := |events| - 1;
      var u := Run(s, events[..n]);
      LogStaysGuarded(s, events[..n], k);
      InvariantKept(s, events[..n]);
      InvariantStep(u, events[n]);
      RecordedAt(u.logs, Exec(u.world, events[n]).effects, k);
      if k in Exec(u.world, events[n]).world.policies {
        SummaryIsGuarded(Next(u, events[n]), k);
      } else {
        AbsentLogsNothing(u.world, events[n], k, LogOf(u.logs, k));
      }
    }
  }

  lemma SummaryIsGuarded(s: State, k: Key)
    requires Invariant(s) && k in s.world.policies
    ensures Guarded(LogOf(s.logs, k).entries)
  {
    hide Guarded, Replay;
    assert StatusOk(s.world, k, LogOf(s.logs, k));
  }

  lemma LogIsGuarded(s: State, events: seq<Event>, k: Key)
    requires Initial(s)
    ensures Guarded(LogAfter(s, events, k))
  {
    hide LogAfter, Invariant;
    InitialInvariant(s);
    LogStaysGuarded(s, events, k);
  }

  /**
    Whatever fails, crashes or fails over: of consecutive restarts counted for one status under one
    version, window and positive max, any interval as long as the window holds at most 2*max - 1,
    and no more of them were dispatched.
   */
  lemma RestartBudget(s: State, events: seq<Event>, k: Key, lo: nat, hi: nat, version: string, window: int,
                      max: int, from: int)
    requires Initial(s)
    requires Budget.Steady(LogAfter(s, events, k), lo, hi, version, window, max)
    ensures var t := LogAfter(s, events, k);
            Budget.DispatchedIn(t, lo, hi, from, window) <= Budget.CountIn(t, lo, hi, from, window) <= 2 * max - 1
  {
    hide LogAfter;
    LogIsGuarded(s, events, k);
    Budget.SlidingBudget(LogAfter(s, events, k), lo, hi, version, window, max, from);
    Budget.DispatchedAreCounted(LogAfter(s, events, k), lo, hi, from, window);
  }

  /** Any two counted restarts of a policy are at least the later one's cooldown apart. */
  lemma RestartSpacing(s: State, events: seq<Event>, k: Key, i: nat, j: nat)
    requires Initial(s) && i < j < |LogAfter(s, events, k)|
    ensures var t := LogAfter(s, events, k);
            TimeAt(t, j) - TimeAt(t, i) >= t[j].limits.cooldown
  {
    hide LogAfter;
    LogIsGuarded(s, events, k);
    Budget.CooldownSpacing(LogAfter(s, events, k), i, j);
  }

  // ---- Marker and history -----------------------------------------------------------------------

  /** In every reachable status, a rollout is marked in flight exactly when the newest history record is open. */
  lemma MarkerIffNewestOpen(s: State, events: seq<Event>, k: Key)
    requires Initial(s) && k in Run(s, events).world.policies
    ensures var st := Run(s, events).world.policies[k].status;
            var n := |st.history| - 1;
            && |st.history| <= 10
            && (st.inFlight.Some? <==> n >= 0 && Open(st.history[n]))
            && (st.inFlight.Some? ==>
                  && st.inFlight.value == InFlight(st.history[n].triggeredAt, st.history[n].version)
                  && st.rolloutInProgress == Some(true))
            && forall j :: 0 <= j <= n ==> (Open(st.history[j]) <==> st.history[j].outcome == InProgress)
  {
    hide Run, Guarded, Replay;
    StatusIsSummary(s, events, k);
  }

  // ---- The global cap on real rollouts ---------------------------------------------------------

  lemma SubmapSize(a: map<Key, OwnRollout>, b: Slots)
    requires a.Keys <= b.Keys
    ensures |a| <= |b|
  {
    assert b.Keys == a.Keys + (b.Keys - a.Keys);
    assert |a| == |a.Keys| && |b| == |b.Keys|;
  }

  /** Every tracked rollout holds its slot, so there are never more of them than the cap. */
  lemma RolloutsWithinCap(s: State, events: seq<Event>)
    requires Initial(s)
    ensures var e := Run(s, events);
            && e.active.Keys <= e.world.gate.Keys
            && (e.world.cap > 0 ==> |e.active| <= e.world.cap)
  {
    hide Run;
    InvariantHolds(s, events);
    SubmapSize(Run(s, events).active, Run(s, events).world.gate);
  }

  /** A workload with a tracked rollout is never restarted on top of it. */
  lemma NoStackedRollout(s: State, events: seq<Event>, k: Key, i: Inputs)
    requires Initial(s) && k in Run(s, events).active
    ensures !Exec(Run(s, events).world, Reconciles(k, i)).exit.Dispatched?
  {
    hide Run, Reconcile;
    InvariantHolds(s, events);
    ReconcileRollout(Run(s, events).world, k, i, Run(s, events).active[k]);
  }

  // ---- Slot age --------------------------------------------------------------------------------------

  /** While a slot is held and the marker is set, slot age is rollout age. */
  lemma SlotAgeIsRolloutAge(s: State, events: seq<Event>, k: Key)
    requires Initial(s)
    ensures SlotOk(Run(s, events).world, k)
  {
    hide Run;
    InvariantHolds(s, events);
  }

  /** After an expirer pass, no slot is held for a rollout dispatched `timeout` or longer ago. */
  lemma NoStaleSlotAfterPass(s: State, events: seq<Event>, f: Faults, k: Key)
    requires Initial(s)
    ensures var w := Exec(Run(s, events).world, Expires(f)).world;
            k in w.gate ==>
              && w.now - w.gate[k] < w.timeout
              && (k in w.policies && w.policies[k].status.inFlight.Some? ==>
                    w.now - w.policies[k].status.inFlight.value.dispatchedAt < w.timeout)
  {
    hide Run, ExpirerPass;
    InvariantHolds(s, events);
    ExpirerSlots(Run(s, events).world, f, k);
  }
}
