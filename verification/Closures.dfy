/** How rollouts are closed: every outcome is justified by the cluster at the closing step, and is final. */
module Closures {
  import opened Wrappers
  import opened PolicyTypes
  import opened Breaker
  import opened Gate
  import opened Scan
  import Maintenance
  import opened Control
  import opened Invariants
  import opened Decisions

  // ---- Closed by a reconcile --------------------------------------------------------------

  function OutcomeSeen(w: World, k: Key): Outcome
    requires k in w.policies && k in w.workloads && w.policies[k].status.inFlight.Some?
  {
    if w.policies[k].status.inFlight.value.dispatchedVersion == w.Version(k) then Outcome.Settled
    else Superseded
  }

  /** The slot is held, the marker is set, and the workload has settled. */
  predicate MayClose(w: World, k: Key, i: Inputs) {
    && k in w.policies && k in w.workloads && k in w.gate
    && w.policies[k].status.inFlight.Some?
    && w.workloads[k].settled && !w.workloads[k].onDelete && Takes(i.closeReply)
  }

  /** The reconcile gets as far as the workload, and does not start its status over. */
  predicate Arrives(w: World, k: Key, i: Inputs) {
    && k in w.policies && k in w.workloads && !i.fetchFails
    && var st, uid := w.policies[k].status, w.workloads[k].uid;
       st.workloadUID == uid || (st.workloadUID == "" && i.adoptReply.Done?)
  }

  lemma RecheckNeverCloses(w: World, k: Key, i: Inputs, cause: Cause, e: Effect)
    requires k in w.policies && k in w.workloads && e.Closed?
    ensures e !in Recheck(w, k, i, cause).effects
  {
    hide Applied, Recomputed, Written, Released;
  }

  lemma AdmitNeverCloses(w: World, k: Key, i: Inputs, e: Effect)
    requires k in w.policies && k in w.workloads && e.Closed?
    ensures e !in Admit(w, k, i).effects
  {
    hide Recheck, FirstBreach, Maintenance.Allowed;
    var f := FirstBreach(i.pods, i.cfg.grace, w.now);
    if f.Breach? { RecheckNeverCloses(w.(gate := Tried(w.gate, w.cap, k, w.now)), k, i, f.cause, e); }
  }

  lemma SettleClosesIff(w: World, k: Key, i: Inputs, e: Effect)
    requires k in w.policies && k in w.workloads && e.Closed?
    ensures e in Settle(w, k, i).effects <==> MayClose(w, k, i) && e == Closed(k, w.now, OutcomeSeen(w, k))
  {
    hide Admit, Completed, Recomputed;
    AdmitNeverCloses(w, k, i, e);
  }

  lemma ResolveClosesIff(w: World, k: Key, i: Inputs, e: Effect)
    requires k in w.policies && e.Closed?
    ensures e in Resolve(w, k, i).effects <==>
              Arrives(w, k, i) && MayClose(w, k, i) && e == Closed(k, w.now, OutcomeSeen(w, k))
  {
    hide Settle;
    if k in w.workloads {
      SettleClosesIff(w, k, i, e);
      SettleClosesIff(Written(w, k, Adopted(w.policies[k].status, w.workloads[k].uid), i.adoptReply), k, i, e);
    }
  }

  /** A reconcile closes a rollout exactly when it holds the slot and finds the adopted object settled. */
  lemma ReconcileClosesIff(w: World, k: Key, i: Inputs, e: Effect)
    requires e.Closed?
    ensures e in Exec(w, Reconciles(k, i)).effects <==>
              Ready(w, k, i) && Arrives(w, k, i) && MayClose(w, k, i) && e == Closed(k, w.now, OutcomeSeen(w, k))
  {
    hide Resolve;
    if k in w.policies {
      ResolveClosesIff(w, k, i, e);
      ResolveClosesIff(Written(w, k, w.policies[k].status.(dryRun := i.cfg.dryRun), i.modeReply), k, i, e);
    }
  }

  /** A reconcile that holds no slot closes nothing, settled or not; Failover says what must happen first. */
  lemma SettledWithoutSlotStaysOpen(w: World, k: Key, i: Inputs, e: Effect)
    requires k !in w.gate && e.Closed?
    ensures e !in Exec(w, Reconciles(k, i)).effects
  {
    hide Exec;
    ReconcileClosesIff(w, k, i, e);
  }

  // ---- Closed by the sweep -------------------------------------------------------------------

  /** The sweep closes the rollout of e.key as e says. */
  predicate SweptAs(w: World, f: Faults, e: Effect) {
    && e.Closed? && e.at == w.now
    && e.key in w.policies && w.policies[e.key].status.inFlight.Some?
    && Classify(w, e.key, e.key in f.unreachable) == Some(e.outcome)
  }

  lemma {:induction false} SweepEffects(w: World, order: seq<Key>, f: Faults, e: Effect)
    requires e in SweepAll(w, order, f).effects
    ensures SweptAs(w, f, e)
  {
    hide Classify, Completed, Written;
    if order != [] {
      var n := |order| - 1;
      var s := SweepAll(w, order[..n], f);
      if e in s.effects {
        SweepEffects(w, order[..n], f, e);
      } else {
        SweepAllKeepsMemory(w, order[..n], f);
        SweepUnvisited(w, order[..n], f, order[n]);
        SameClassification(w, s.world, order[n], order[n] in f.unreachable);
      }
    }
  }

  lemma SameClassification(w: World, v: World, k: Key, unreachable: bool)
    requires k in w.policies && k in v.policies && w.policies[k].status == v.policies[k].status
    requires w.policies[k].status.inFlight.Some?
    requires w.now == v.now && w.timeout == v.timeout && w.encoding == v.encoding && w.workloads == v.workloads
    ensures Classify(w, k, unreachable) == Classify(v, k, unreachable)
  {
  }

  /** While the sweep goes on, a policy whose marker is still set has not been touched. */
  lemma SweepUnvisited(w: World, order: seq<Key>, f: Faults, k: Key)
    ensures var s := SweepAll(w, order, f);
            s.reply.Done? && k in s.world.policies && s.world.policies[k].status.inFlight.Some? ==>
              k in w.policies && s.world.policies[k] == w.policies[k]
  {
    hide SweepAll;
    if k in w.policies { SweepAllMarker(w, order, f, k); } else { SweepAllAbsent(w, order, f, k); }
  }

  // ---- Every outcome is justified --------------------------------------------------------------

  /** What the cluster shows when the rollout of k is given this outcome. */
  ghost predicate Justified(w: World, k: Key, outcome: Outcome) {
    && k in w.policies && w.policies[k].status.inFlight.Some?
    && var st, m := w.policies[k].status, w.policies[k].status.inFlight.value;
       match outcome
       case Settled =>
         && k in w.workloads && w.workloads[k].settled && w.Version(k) == m.dispatchedVersion
         && st.workloadUID in {"", w.workloads[k].uid}
       case Superseded =>
         k !in w.workloads || w.workloads[k].uid != st.workloadUID || w.Version(k) != m.dispatchedVersion
       case TimedOut => w.now - m.dispatchedAt >= w.timeout
       case InProgress => false
       case Failed => false
  }

  lemma OutcomesAreJustified(w: World, e: Event, c: Effect)
    requires c in Exec(w, e).effects && c.Closed?
    ensures Justified(w, c.key, c.outcome) && c.at == w.now
  {
    hide Reconcile, SweepAll;
    match e
    case Reconciles(k, i) => ReconcileClosesIff(w, k, i, c);
    case Expires(f) => SweepEffects(w.(gate := Unexpired(w.gate, w.now, w.timeout)), f.order, f, c);
    case _ =>
  }

  /** No write of this pass fails. */
  ghost predicate AllAcknowledged(f: Faults) { !f.listFails && forall k :: ReplyFor(f, k).Done? }

  lemma {:induction false} SweepVisits(w: World, order: seq<Key>, f: Faults, k: Key)
    requires AllAcknowledged(f) && k in w.policies && w.policies[k].status.inFlight.Some?
    ensures var s := SweepAll(w, order, f);
            && s.reply.Done? && k in s.world.policies
            && (s.world.policies[k].status.inFlight.None? <==>
                  k in order && Classify(w, k, k in f.unreachable).Some?)
  {
    hide Classify;
    if order != [] {
      var n := |order| - 1;
      var s := SweepAll(w, order[..n], f);
      SweepVisits(w, order[..n], f, k);
      SweepAllMarker(w, order[..n], f, k);
      SweepUnvisited(w, order[..n], f, k);
      SweepOneMarker(s.world, order[n], f, k);
      if s.world.policies[k].status.inFlight.Some? {
        SameClassification(w, s.world, k, k in f.unreachable);
      }
      assert order == order[..n] + [order[n]];
    }
  }

  /**
    A pass that meets no failure leaves a marker exactly when the rollout is younger than the timeout
    and its workload still is the adopted object at the dispatched version.
   */
  lemma PassLeavesOnlyLiveRollouts(w: World, f: Faults, k: Key)
    requires AllAcknowledged(f) && f.unreachable == {} && k in f.order
    requires k in w.policies && w.policies[k].status.inFlight.Some?
    ensures var v, st, m := ExpirerPass(w, f).world, w.policies[k].status, w.policies[k].status.inFlight.value;
            && k in v.policies
            && (v.policies[k].status.inFlight.Some? <==>
                  && w.now - m.dispatchedAt < w.timeout
                  && k in w.workloads && w.workloads[k].uid == st.workloadUID
                  && (w.Version(k) in {m.dispatchedVersion, ""} || m.dispatchedVersion == ""))
  {
    hide SweepAll;
    var w1 := w.(gate := Unexpired(w.gate, w.now, w.timeout));
    SweepVisits(w1, f.order, f, k);
  }

  // ---- The slots of what a pass closes ----------------------------------------------------------

  lemma {:induction false} ClosedIsListed(w: World, order: seq<Key>, f: Faults, c: Effect)
    requires c in SweepAll(w, order, f).effects
    ensures c.key in SweepAll(w, order, f).keys
  {
    hide Classify, Completed, Written;
    if order != [] {
      if c in SweepAll(w, order[..|order| - 1], f).effects { ClosedIsListed(w, order[..|order| - 1], f, c); }
    }
  }

  /** In any pass, the slot of every rollout it closes is free afterwards, however the write was answered. */
  lemma ClosedIsReleased(w: World, f: Faults, c: Effect)
    requires c in Exec(w, Expires(f)).effects
    ensures c.key !in Exec(w, Expires(f)).world.gate
  {
    hide SweepAll;
    ClosedIsListed(w.(gate := Unexpired(w.gate, w.now, w.timeout)), f.order, f, c);
  }

  /** Also when the write was refused, so that nothing was closed, as long as the process lives. */
  lemma RefusedIsReleased(w: World, f: Faults, k: Key)
    requires !f.listFails && f.order == [k] && k in w.policies && w.policies[k].status.inFlight.Some?
    requires Classify(w, k, k in f.unreachable).Some? && ReplyFor(f, k).Refused?
    ensures var s := Exec(w, Expires(f));
            s.effects == [] && k !in s.world.gate && s.world.policies == w.policies
  {
    hide Classify, Completed;
    var w1 := w.(gate := Unexpired(w.gate, w.now, w.timeout));
    SameClassification(w, w1, k, k in f.unreachable);
    OneListed(w1, k, f);
  }

  lemma OneListed(w: World, k: Key, f: Faults)
    ensures var s := SweepOne(w, k, f);
            SweepAll(w, [k], f) == Sweep(s.world, s.effects, s.keys, s.reply)
  {
    hide SweepOne;
    assert [k][..0] == [];
    assert SweepAll(w, [], f) == Sweep(w, [], [], Done);
  }

  /**
    A pass that meets no failure lets a marked rollout keep its slot exactly when slot and rollout are younger
    than the timeout and its workload still is the adopted object at the dispatched version.
   */
  lemma PassKeepsOnlyLiveSlots(w: World, f: Faults, k: Key)
    requires AllAcknowledged(f) && f.unreachable == {} && k in f.order
    requires k in w.policies && w.policies[k].status.inFlight.Some? && k in w.gate
    ensures var st, m := w.policies[k].status, w.policies[k].status.inFlight.value;
            k in Exec(w, Expires(f)).world.gate <==>
              && w.now - w.gate[k] < w.timeout && w.now - m.dispatchedAt < w.timeout
              && k in w.workloads && w.workloads[k].uid == st.workloadUID
              && (w.Version(k) in {m.dispatchedVersion, ""} || m.dispatchedVersion == "")
  {
    hide SweepAll;
    var w1 := w.(gate := Unexpired(w.gate, w.now, w.timeout));
    SweepVisits(w1, f.order, f, k);
    SweepAllMarker(w1, f.order, f, k);
    SweepAllKeepsMemory(w1, f.order, f);
  }

  /** A slot without a marker only ages out, whatever the pass meets, as long as the process lives. */
  lemma UnmarkedSlotAges(w: World, f: Faults, k: Key)
    requires k in w.gate && (k in w.policies ==> w.policies[k].status.inFlight.None?)
    requires !Exec(w, Expires(f)).exit.Crashed?
    ensures k in Exec(w, Expires(f)).world.gate <==> w.now - w.gate[k] < w.timeout
  {
    hide SweepAll;
    var w1 := w.(gate := Unexpired(w.gate, w.now, w.timeout));
    SweepAllKeepsMemory(w1, f.order, f);
    UnmarkedIsNotListed(w1, f.order, f, k);
  }

  lemma {:induction false} UnmarkedIsNotListed(w: World, order: seq<Key>, f: Faults, k: Key)
    requires k in w.policies ==> w.policies[k].status.inFlight.None?
    ensures var s := SweepAll(w, order, f);
            && k !in s.keys
            && (k in s.world.policies ==> s.world.policies[k].status.inFlight.None?)
  {
    hide Classify;
    if order != [] { UnmarkedIsNotListed(w, order[..|order| - 1], f, k); }
  }
}
