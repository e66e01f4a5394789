/** Which object a policy has adopted, and which of its logs that object's restarts are in. */
module Adoption {
  import opened PolicyTypes
  import opened Breaker
  import opened Gate
  import opened Workload
  import opened Scan
  import opened Maintenance
  import opened Control
  import opened Invariants

  // ---- The adopted UID ----------------------------------------------------------------------

  /** The policy of k is still there, and has adopted the same UID. */
  ghost predicate SameUID(w: World, v: World, k: Key)
    requires k in w.policies
  {
    k in v.policies && v.policies[k].status.workloadUID == w.policies[k].status.workloadUID
  }

  /** Nor does its deletion, its finalizer or its recorded mode change. */
  ghost predicate SameFlags(w: World, v: World, k: Key)
    requires k in w.policies
  {
    && k in v.policies
    && v.policies[k].deleting == w.policies[k].deleting && v.policies[k].finalizer == w.policies[k].finalizer
    && v.policies[k].status.dryRun == w.policies[k].status.dryRun
  }

  lemma CommitSameUID(w: World, k: Key, i: Inputs, version: string, cause: Cause)
    requires k in w.policies && k in w.workloads
    ensures SameUID(w, Commit(w, k, i, version, cause).world, k)
    ensures SameFlags(w, Commit(w, k, i, version, cause).world, k)
  {
    hide Live.Patched, Rolled, Publish;
  }

  lemma RecheckSameUID(w: World, k: Key, i: Inputs, cause: Cause)
    requires k in w.policies && k in w.workloads
    ensures SameUID(w, Recheck(w, k, i, cause).world, k)
    ensures SameFlags(w, Recheck(w, k, i, cause).world, k)
  {
    hide Commit, Changed;
    var v := Changed(w, k, i.interim);
    assert v.policies == w.policies by { ChangedElse(w, k, i.interim, k + "'"); }
    if k in v.workloads { CommitSameUID(v, k, i, w.Version(k), cause); }
  }

  lemma AdmitSameUID(w: World, k: Key, i: Inputs)
    requires k in w.policies && k in w.workloads
    ensures SameUID(w, Admit(w, k, i).world, k)
    ensures SameFlags(w, Admit(w, k, i).world, k)
  {
    hide Recheck, FirstBreach, Allowed;
    var f := FirstBreach(i.pods, i.cfg.grace, w.now);
    if f.Breach? { RecheckSameUID(w.(gate := Tried(w.gate, w.cap, k, w.now)), k, i, f.cause); }
  }

  lemma SettleSameUID(w: World, k: Key, i: Inputs)
    requires k in w.policies && k in w.workloads
    ensures SameUID(w, Settle(w, k, i).world, k)
    ensures SameFlags(w, Settle(w, k, i).world, k)
  {
    hide Admit, Rolled, Publish;
    AdmitSameUID(w, k, i);
  }

  /** The step kept the adopted UID of k, or adopted the live object, over no other UID or starting the log over. */
  ghost predicate AdoptsLive(w: World, k: Key, s: Step)
    requires k in w.policies
  {
    || SameUID(w, s.world, k)
    || (&& k in w.workloads && k in s.world.policies
        && s.world.policies[k].status.workloadUID == w.workloads[k].uid
        && (w.policies[k].status.workloadUID == "" || Reset(k) in s.effects))
  }

  lemma ResolveAdoptsLive(w: World, k: Key, i: Inputs)
    requires k in w.policies
    ensures AdoptsLive(w, k, Resolve(w, k, i)) && SameFlags(w, Resolve(w, k, i).world, k)
  {
    hide Settle;
    if k in w.workloads {
      var uid := w.workloads[k].uid;
      SettleSameUID(w, k, i);
      SettleSameUID(Written(w, k, Adopted(w.policies[k].status, uid), i.adoptReply), k, i);
    }
  }

  /** A reconcile keeps the adopted UID or adopts the object it reads; it ends a policy only by deletion. */
  lemma ReconcileAdoptsLive(w: World, k: Key, i: Inputs)
    requires k in w.policies
    ensures var s := Reconcile(w, k, i);
            (k !in s.world.policies && s.effects == []) || AdoptsLive(w, k, s)
  {
    hide Resolve;
    ResolveAdoptsLive(w, k, i);
    ResolveAdoptsLive(Written(w, k, w.policies[k].status.(dryRun := i.cfg.dryRun), i.modeReply), k, i);
  }

  lemma AbsentStays(w: World, k: Key, i: Inputs)
    requires k !in w.policies
    ensures Reconcile(w, k, i) == Step(w, [], NoPolicy)
  {
  }

  /** Whatever happens: a policy is there because it was or was just created, and adopts only the live object. */
  lemma StepAdoptsLive(w: World, e: Event, k: Key)
    requires k in Exec(w, e).world.policies
    ensures if k in w.policies
            then SameUID(w, Exec(w, e).world, k) || (e.Reconciles? && e.key == k && AdoptsLive(w, k, Exec(w, e)))
            else e == CreatePolicy(k) && Exec(w, e).effects == [Reset(k)]
  {
    hide Reconcile, SweepAll, AdoptsLive;
    match e
    case Reconciles(j, i) =>
      if j != k {
        ReconcileElse(w, j, i, k);
      } else if k in w.policies {
        ReconcileAdoptsLive(w, k, i);
        AdoptsThroughCrash(w, k, Reconcile(w, k, i));
      } else {
        AbsentStays(w, k, i);
      }
    case Expires(f) =>
      var w1 := w.(gate := Unexpired(w.gate, w.now, w.timeout));
      if k in w.policies { SweepAllMarker(w1, f.order, f, k); } else { SweepAllAbsent(w1, f.order, f, k); }
    case _ =>
  }

  lemma AdoptsThroughCrash(w: World, k: Key, s: Step)
    requires k in w.policies && AdoptsLive(w, k, s)
    ensures AdoptsLive(w, k, AfterCrash(s))
  {
  }
}
