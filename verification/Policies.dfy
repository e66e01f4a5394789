/** What becomes of a policy's object: its finalizer, its recorded mode, its deletion, and the slot it leaves. */
module Policies {
  import opened PolicyTypes
  import opened Gate
  import opened Control
  import opened Ledger
  import opened Invariants
  import opened Adoption
  import opened SlotMoves
  import opened Exits

  /** The mode a reconcile of a live policy leaves recorded: the configured one, as far as its write takes effect. */
  function ModeAfter(p: Policy, i: Inputs): bool {
    if !p.deleting && p.finalizer && Takes(i.modeReply) then i.cfg.dryRun else p.status.dryRun
  }

  /**
    A reconcile ends a policy only if it is deleted and has the finalizer, with no slot left and nothing logged;
    any other policy keeps its deletion mark, gets the finalizer if it is live, and records the mode.
   */
  lemma ReconcileFlags(w: World, k: Key, i: Inputs)
    requires k in w.policies
    ensures var p, s := w.policies[k], Reconcile(w, k, i);
            if p.deleting && p.finalizer then
              && k !in s.world.gate && s.effects == []
              && (k in s.world.policies <==> !Takes(i.finalizerReply))
              && (k in s.world.policies ==> s.world.policies[k] == p)
            else
              && k in s.world.policies && s.world.policies[k].deleting == p.deleting
              && (s.world.policies[k].finalizer <==> p.finalizer || (!p.deleting && Takes(i.finalizerReply)))
              && s.world.policies[k].status.dryRun == ModeAfter(p, i)
  {
    hide Resolve, AdoptsLive;
    ResolveAdoptsLive(w, k, i);
    ResolveAdoptsLive(Written(w, k, w.policies[k].status.(dryRun := i.cfg.dryRun), i.modeReply), k, i);
  }

  /** Without its finalizer, a live policy gets that, and nothing else is done for it. */
  lemma FinalizerComesFirst(w: World, k: Key, i: Inputs)
    requires k in w.policies && !w.policies[k].deleting && !w.policies[k].finalizer
    ensures var s := Reconcile(w, k, i);
            && s.effects == [] && s.world.gate == w.gate && s.world.workloads == w.workloads
            && k in s.world.policies && s.world.policies[k].status == w.policies[k].status
  {
  }

  /** Deleting a policy ends it at once, or in its next reconcile, which takes its slot; one made anew starts empty. */
  lemma DeletionCompletes(w: World, k: Key, i: Inputs)
    requires k in w.policies && i.finalizerReply.Done?
    ensures var v := Exec(w, DeletePolicy(k)).world;
            if w.policies[k].finalizer
            then k in v.policies && v.gate == w.gate
                 && (var u := Exec(v, Reconciles(k, i)).world; k !in u.policies && k !in u.gate)
            else k !in v.policies
    ensures k !in Exec(w, DeletePolicy(k)).world.policies ==>
              var v := Exec(Exec(w, DeletePolicy(k)).world, CreatePolicy(k)).world;
              && k in v.policies && v.policies[k].status == EMPTY_STATUS
              && Exec(v, Reconciles(k, i)).exit.FinalizerAdded?
  {
    hide Resolve;
  }

  // ---- Over a run ---------------------------------------------------------------------------------

  /** A held slot belongs to a policy that cannot disappear without a reconcile. */
  predicate Owned(w: World, k: Key) { k in w.gate ==> k in w.policies && w.policies[k].finalizer }

  lemma ReconcileOwned(w: World, k: Key, i: Inputs)
    requires Owned(w, k)
    ensures Owned(Reconcile(w, k, i).world, k)
  {
    hide Reconcile;
    var s := Reconcile(w, k, i);
    if k in w.policies { ReconcileFlags(w, k, i); } else { AbsentStays(w, k, i); }
    if k !in w.gate && k in s.world.gate {
      ReconcileHolds(w, k, i);
      ActsOnReady(w, k, i);
    }
  }

  lemma ActsOnReady(w: World, k: Key, i: Inputs)
    requires Reconcile(w, k, i).exit in {Resumed, Dispatched}
    ensures k in w.policies && !w.policies[k].deleting && w.policies[k].finalizer
  {
    hide Reconcile, WhySettled;
    ExitIff(w, k, i, Reconcile(w, k, i).exit);
  }

  lemma SameAtOwned(w: World, v: World, k: Key)
    requires SameAt(w, v, k) && Owned(w, k)
    ensures Owned(v, k)
  {
  }

  lemma ExpirerOwned(w: World, f: Faults, k: Key)
    requires Owned(w, k)
    ensures Owned(ExpirerPass(w, f).world, k)
  {
    hide SweepAll;
    var w1 := w.(gate := Unexpired(w.gate, w.now, w.timeout));
    SweepAllKeepsMemory(w1, f.order, f);
    if k in w.policies { SweepAllMarker(w1, f.order, f, k); }
  }

  lemma StepOwned(w: World, e: Event, k: Key)
    requires Owned(w, k)
    ensures Owned(Exec(w, e).world, k)
  {
    hide Reconcile, ExpirerPass;
    match e
    case Reconciles(j, i) =>
      if j == k {
        ReconcileOwned(w, k, i);
      } else {
        ReconcileElse(w, j, i, k);
        SameAtOwned(w, Reconcile(w, j, i).world, k);
      }
    case Expires(f) => ExpirerOwned(w, f, k);
    case _ =>
  }

  /** In every reachable state a slot is held only for a policy that is there and has the finalizer. */
  lemma {:induction false} NoSlotOutlivesPolicy(s: State, events: seq<Event>, k: Key)
    requires Initial(s)
    ensures var w := Run(s, events).world;
            k in w.gate ==> k in w.policies && w.policies[k].finalizer
    decreases |events|
  {
    hide Exec, Recorded, Tracked;
    if events != [] {
      var n := |events| - 1;
      NoSlotOutlivesPolicy(s, events[..n], k);
      StepOwned(Run(s, events[..n]).world, events[n], k);
    }
  }
}
