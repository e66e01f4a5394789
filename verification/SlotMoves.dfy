/** How the slot of a policy is taken, taken back after a failover, and lost. */
module SlotMoves {
  import opened PolicyTypes
  import opened Breaker
  import opened Gate
  import opened Workload
  import opened Scan
  import opened Maintenance
  import opened Control
  import opened Invariants

  // ---- How a slot is taken --------------------------------------------------------------------

  lemma RecheckHolds(w: World, k: Key, i: Inputs, cause: Cause)
    requires k in w.policies && k in w.workloads
    ensures k in Recheck(w, k, i, cause).world.gate ==> Recheck(w, k, i, cause).exit.Dispatched?
  {
    hide Applied, Recomputed, Live.Patched, Changed;
    assert Changed(w, k, i.interim).policies == w.policies by { ChangedElse(w, k, i.interim, k + "'"); }
  }

  lemma AdmitHolds(w: World, k: Key, i: Inputs)
    requires k in w.policies && k in w.workloads && k !in w.gate
    ensures k in Admit(w, k, i).world.gate ==> Admit(w, k, i).exit.Dispatched?
  {
    hide Recheck, FirstBreach, Allowed;
    var f := FirstBreach(i.pods, i.cfg.grace, w.now);
    if f.Breach? { RecheckHolds(w.(gate := Tried(w.gate, w.cap, k, w.now)), k, i, f.cause); }
  }

  lemma ResolveHolds(w: World, k: Key, i: Inputs)
    requires k in w.policies && k !in w.gate
    ensures k in Resolve(w, k, i).world.gate ==> Resolve(w, k, i).exit in {Resumed, Dispatched}
  {
    hide Admit, Adopted;
    if k in w.workloads {
      AdmitHolds(w, k, i);
      AdmitHolds(Written(w, k, Adopted(w.policies[k].status, w.workloads[k].uid), i.adoptReply), k, i);
    }
  }

  lemma ReconcileHolds(w: World, k: Key, i: Inputs)
    requires k !in w.gate
    ensures k in Reconcile(w, k, i).world.gate ==> Reconcile(w, k, i).exit in {Resumed, Dispatched}
  {
    hide Resolve;
    if k in w.policies {
      ResolveHolds(w, k, i);
      ResolveHolds(Written(w, k, w.policies[k].status.(dryRun := i.cfg.dryRun), i.modeReply), k, i);
    }
  }

  /** A slot is taken only by a reconcile that resumes the rollout or dispatches a new one. */
  lemma SlotTakenBy(w: World, e: Event, k: Key)
    requires k !in w.gate && k in Exec(w, e).world.gate
    ensures e.Reconciles? && e.key == k && Exec(w, e).exit in {Resumed, Dispatched}
  {
    hide Reconcile, SweepAll;
    match e
    case Reconciles(j, i) => if j == k { ReconcileHolds(w, k, i); } else { ReconcileElse(w, j, i, k); }
    case Expires(f) => SweepAllKeepsMemory(w.(gate := Unexpired(w.gate, w.now, w.timeout)), f.order, f);
    case _ =>
  }

  // ---- How a slot is taken back -----------------------------------------------------------------

  lemma SettleResumes(w: World, k: Key, i: Inputs)
    requires k in w.policies && k in w.workloads && Settle(w, k, i).exit.Resumed?
    ensures var v := Settle(w, k, i).world;
            && k !in w.gate && w.policies[k].status.inFlight.Some?
            && w.policies[k].status.inFlight.value.dispatchedVersion == w.Version(k)
            && v == w.(gate := Tried(w.gate, w.cap, k, w.policies[k].status.inFlight.value.dispatchedAt))
  {
    hide FirstBreach, Allowed, Applied, Recomputed, Completed;
  }

  /** What a resumed rollout finds and leaves: nothing but the slot changes, if the cap has room. */
  ghost predicate Resumption(w: World, v: World, k: Key) {
    && k in w.policies && k in v.policies && k in w.workloads && k !in w.gate
    && v.workloads == w.workloads && v.encoding == w.encoding && v.now == w.now
    && v.policies[k].deleting == w.policies[k].deleting && v.policies[k].finalizer == w.policies[k].finalizer
    && v.policies[k].status.workloadUID == w.workloads[k].uid
    && v.policies[k].status.inFlight == w.policies[k].status.inFlight
    && v.policies[k].status.inFlight.Some?
    && v.policies[k].status.inFlight.value.dispatchedVersion == w.Version(k)
    && (k in v.gate <==> w.cap <= 0 || |w.gate| < w.cap)
    && (k in v.gate ==> v.gate[k] == v.policies[k].status.inFlight.value.dispatchedAt)
  }

  lemma ResolveResumes(w: World, k: Key, i: Inputs)
    requires k in w.policies && Resolve(w, k, i).exit.Resumed?
    ensures Resumption(w, Resolve(w, k, i).world, k)
  {
    hide Settle;
    if w.policies[k].status.workloadUID == w.workloads[k].uid {
      SettleResumes(w, k, i);
    } else {
      SettleResumes(Written(w, k, Adopted(w.policies[k].status, w.workloads[k].uid), i.adoptReply), k, i);
    }
  }

  /** A reconcile that resumes a rollout keeps its marker, and takes the slot back exactly if the cap has room. */
  lemma ResumeRetakesSlot(w: World, k: Key, i: Inputs)
    requires Exec(w, Reconciles(k, i)).exit.Resumed?
    ensures Resumption(w, Exec(w, Reconciles(k, i)).world, k)
    ensures !w.policies[k].deleting && w.policies[k].finalizer
  {
    hide Resolve;
    if w.policies[k].status.dryRun == i.cfg.dryRun {
      ResolveResumes(w, k, i);
    } else {
      ResolveResumes(Written(w, k, w.policies[k].status.(dryRun := i.cfg.dryRun), i.modeReply), k, i);
    }
  }

  // ---- How a slot is lost -------------------------------------------------------------------------

  /** Unless it is its last step, a stage that has the slot loses it exactly by finding the rollout settled. */
  ghost predicate LosesIffSettled(s: Step, k: Key) {
    s.exit.Crashed? || (k !in s.world.gate <==> s.exit in {SlotFreed, CloseErrored})
  }

  lemma SettleLoses(w: World, k: Key, i: Inputs)
    requires k in w.policies && k in w.workloads && k in w.gate
    ensures LosesIffSettled(Settle(w, k, i), k)
  {
    hide Admit, Completed, Recomputed;
  }

  lemma ResolveLoses(w: World, k: Key, i: Inputs)
    requires k in w.policies && k in w.gate
    ensures LosesIffSettled(Resolve(w, k, i), k)
  {
    hide Settle, Adopted;
    if k in w.workloads {
      SettleLoses(w, k, i);
      SettleLoses(Written(w, k, Adopted(w.policies[k].status, w.workloads[k].uid), i.adoptReply), k, i);
    }
  }

  lemma ReconcileLoses(w: World, k: Key, i: Inputs)
    requires k in w.gate
    ensures var s := Reconcile(w, k, i);
            || s.exit.Crashed?
            || (k !in s.world.gate <==>
                  || s.exit in {SlotFreed, CloseErrored}
                  || (k in w.policies && w.policies[k].deleting && w.policies[k].finalizer))
  {
    hide Resolve;
    if k in w.policies {
      ResolveLoses(w, k, i);
      ResolveLoses(Written(w, k, w.policies[k].status.(dryRun := i.cfg.dryRun), i.modeReply), k, i);
    }
  }

  /**
    Outside an expirer pass, a slot is lost exactly with its leader, or to a reconcile that finds the rollout
    settled or ends the policy; whether the marker goes with it depends on the write that follows.
   */
  lemma SlotLostIff(w: World, e: Event, k: Key)
    requires k in w.gate && !e.Expires?
    ensures k !in Exec(w, e).world.gate <==>
              || Exec(w, e).exit.Crashed?
              || (&& e.Reconciles? && e.key == k
                  && (|| Exec(w, e).exit in {SlotFreed, CloseErrored}
                      || (k in w.policies && w.policies[k].deleting && w.policies[k].finalizer)))
  {
    hide Reconcile;
    match e
    case Reconciles(j, i) => if j == k { ReconcileLoses(w, k, i); } else { ReconcileElse(w, j, i, k); }
    case _ =>
  }
}
