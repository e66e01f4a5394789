/** What a counted restart leaves behind, whether or not its dispatch is acknowledged. */
module Restarts {
  import opened Wrappers
  import opened PolicyTypes
  import opened Breaker
  import opened Gate
  import opened Workload
  import opened Scan
  import opened Maintenance
  import opened Control
  import opened Decisions

  /** The object of k after the step: the one read last, stamped if the patch takes effect. */
  function ReadLast(w: World, k: Key, i: Inputs): Live
    requires k in Changed(w, k, i.interim).workloads
  {
    var read := Changed(w, k, i.interim).workloads[k];
    if i.countReply.Done? && Takes(i.dispatchReply) then read.Patched(w.encoding.stamp(w.now)) else read
  }

  /** Marker and breaker record the restart of the version read first; the slot is held iff it was dispatched. */
  ghost predicate Leaves(s: Step, w: World, k: Key, i: Inputs, b: Bookkeeping, uid: string)
    requires k in w.workloads
  {
    var v := s.world;
    && k in v.policies && k in v.workloads && k in Changed(w, k, i.interim).workloads
    && v.policies[k].status.inFlight == Some(InFlight(w.now, w.Version(k)))
    && v.policies[k].status.breaker == Rolled(b, w.Version(k), w.now, i.cfg.limits.window)
    && v.policies[k].status.workloadUID == uid
    && v.workloads[k] == ReadLast(w, k, i)
    && v.encoding == w.encoding && v.Version(k) == w.Version(k)
    && (k in v.gate <==> s.exit.Dispatched?) && (k in v.gate ==> v.gate[k] == w.now)
  }

  lemma CommitLeaves(w: World, k: Key, i: Inputs, version: string, cause: Cause)
    requires k in w.policies && k in w.workloads && k in w.gate && Takes(i.countReply)
    ensures var s, st := Commit(w, k, i, version, cause), w.policies[k].status;
            var v := s.world;
            && k in v.policies && k in v.workloads
            && v.policies[k].status.inFlight == Some(InFlight(w.now, version))
            && v.policies[k].status.breaker == Rolled(st.breaker, version, w.now, i.cfg.limits.window)
            && v.policies[k].status.workloadUID == st.workloadUID
            && v.workloads[k] == (if i.countReply.Done? && Takes(i.dispatchReply)
                                  then w.workloads[k].Patched(w.encoding.stamp(w.now)) else w.workloads[k])
            && v.encoding == w.encoding && v.Version(k) == w.Version(k)
            && (k in v.gate <==> s.exit.Dispatched?) && (k in v.gate ==> v.gate[k] == w.gate[k])
  {
    hide Rolled, Publish, Live.Patched;
    PatchKeepsVersion(w.workloads[k], w.encoding.stamp(w.now), w.encoding.hash);
  }

  lemma AdmitLeaves(w: World, k: Key, i: Inputs)
    requires k in w.policies && k in w.workloads && Takes(i.countReply)
    requires Passes(w, k, i, w.policies[k].status.breaker) && Proceeds(w, k, i)
    ensures Leaves(Admit(w, k, i), w, k, i, w.policies[k].status.breaker, w.policies[k].status.workloadUID)
  {
    hide FirstBreach, Allowed, Rolled, Commit, Live.Patched;
    var cause := FirstBreach(i.pods, i.cfg.grace, w.now).cause;
    var w1 := w.(gate := Tried(w.gate, w.cap, k, w.now));
    ChangesAlike(w, w1, k, i.interim);
    CommitLeaves(Changed(w1, k, i.interim), k, i, w.Version(k), cause);
  }

  lemma SettleLeaves(w: World, k: Key, i: Inputs)
    requires k in w.policies && k in w.workloads && Takes(i.countReply)
    requires Restartable(w, k, i, w.policies[k].status.breaker)
    ensures Leaves(Settle(w, k, i), w, k, i, w.policies[k].status.breaker, w.policies[k].status.workloadUID)
  {
    hide Admit, Leaves, Proceeds, FirstBreach, Allowed, Admitted;
    AdmitLeaves(w, k, i);
  }

  lemma ResolveLeaves(w: World, k: Key, i: Inputs)
    requires k in w.policies && Takes(i.countReply) && Adopts(w, k, i)
    requires Restartable(w, k, i, DecidedOn(w.policies[k].status, w.workloads[k].uid))
    ensures Leaves(Resolve(w, k, i), w, k, i, DecidedOn(w.policies[k].status, w.workloads[k].uid), w.workloads[k].uid)
  {
    hide Settle, Leaves, Restartable;
    var uid := w.workloads[k].uid;
    var w' := Written(w, k, Adopted(w.policies[k].status, uid), i.adoptReply);
    if w.policies[k].status.workloadUID == uid {
      SettleLeaves(w, k, i);
    } else {
      SameDecision(w, w', k, i, w'.policies[k].status.breaker);
      SettleLeaves(w', k, i);
      LeavesLikewise(w, w', Settle(w', k, i), Resolve(w, k, i), k, i, w'.policies[k].status.breaker, uid);
    }
  }

  lemma LeavesLikewise(w: World, w': World, s: Step, t: Step, k: Key, i: Inputs, b: Bookkeeping, uid: string)
    requires k in w.workloads && k in w'.workloads
    requires w.now == w'.now && w.workloads == w'.workloads && w.encoding == w'.encoding
    requires s.world == t.world && s.exit == t.exit && Leaves(s, w', k, i, b, uid)
    ensures Leaves(t, w, k, i, b, uid)
  {
    hide Rolled, Live.Patched, Changed;
    ChangesAlike(w, w', k, i.interim);
  }

  lemma CrashLeaves(s: Step, w: World, k: Key, i: Inputs, b: Bookkeeping, uid: string)
    requires k in w.workloads && Leaves(s, w, k, i, b, uid)
    ensures Leaves(AfterCrash(s), w, k, i, b, uid)
  {
    hide Rolled, ReadLast;
  }

  /**
    A counted restart is recorded in marker and breaker, under the UID read first. Its slot is held from now
    exactly if the dispatch was acknowledged, and the object read last is stamped if the patch took effect.
   */
  lemma RestartLeaves(w: World, k: Key, i: Inputs)
    requires MayRestart(w, k, i) && Takes(i.countReply)
    ensures Leaves(Exec(w, Reconciles(k, i)), w, k, i, DecidedOn(w.policies[k].status, w.workloads[k].uid),
                   w.workloads[k].uid)
  {
    hide Resolve, Leaves, Restartable;
    var p := w.policies[k];
    var b, uid := DecidedOn(p.status, w.workloads[k].uid), w.workloads[k].uid;
    if p.status.dryRun == i.cfg.dryRun {
      ResolveLeaves(w, k, i);
    } else {
      var w' := Written(w, k, p.status.(dryRun := i.cfg.dryRun), i.modeReply);
      SameDecision(w, w', k, i, b);
      ResolveLeaves(w', k, i);
      LeavesLikewise(w, w', Resolve(w', k, i), Resolve(w', k, i), k, i, b, uid);
    }
    CrashLeaves(Reconcile(w, k, i), w, k, i, b, uid);
  }

  /** If the dispatch is not acknowledged, the marker stays set without a slot. */
  lemma FailedDispatchStrandsMarker(w: World, k: Key, i: Inputs)
    requires MayRestart(w, k, i) && Takes(i.countReply) && !(i.countReply.Done? && i.dispatchReply.Done?)
    ensures var v := Exec(w, Reconciles(k, i)).world;
            && k in v.policies && v.policies[k].status.inFlight == Some(InFlight(w.now, w.Version(k)))
            && k !in v.gate
  {
    hide Exec, MayRestart, Rolled;
    DispatchedIff(w, k, i);
    RestartLeaves(w, k, i);
  }

  /**
    The second read compares versions only, so a restart reaches the adopted object exactly when the
    object read last has the UID read first.
   */
  lemma DispatchReachesAdopted(w: World, k: Key, i: Inputs)
    requires Exec(w, Reconciles(k, i)).exit.Dispatched?
    ensures k in w.workloads && k in Changed(w, k, i.interim).workloads
    ensures var v := Exec(w, Reconciles(k, i)).world;
            && k in v.workloads && k in v.policies
            && (v.workloads[k].uid == v.policies[k].status.workloadUID <==>
                  Changed(w, k, i.interim).workloads[k].uid == w.workloads[k].uid)
  {
    hide Exec, Rolled, Restartable;
    DispatchedIff(w, k, i);
    RestartLeaves(w, k, i);
    PatchKeepsVersion(Changed(w, k, i.interim).workloads[k], w.encoding.stamp(w.now), w.encoding.hash);
  }

  /**
    A fresh stamp unsettles the workload at once, so that its rollout is polled before it counts as done;
    only a healthy Rollout that reports no observed generation still looks settled.
   */
  lemma StampStartsRollout(w: World, k: Key, i: Inputs)
    requires MayRestart(w, k, i) && i.countReply.Done? && Takes(i.dispatchReply)
    ensures k in Changed(w, k, i.interim).workloads
    ensures var read, v := Changed(w, k, i.interim).workloads[k], Exec(w, Reconciles(k, i)).world;
            && k in v.workloads
            && (!read.Carries(w.encoding.stamp(w.now))
                && read.progress.observedGeneration <= read.progress.generation ==>
                  && v.workloads[k].progress.generation == read.progress.generation + 1
                  && (v.workloads[k].settled <==>
                        && read.kind.Rollout? && read.progress.observedGeneration == 0
                        && read.progress.phase == "Healthy"))
  {
    hide Exec, Rolled, Restartable, Workload.Settled;
    RestartLeaves(w, k, i);
    var read, stamp := Changed(w, k, i.interim).workloads[k], w.encoding.stamp(w.now);
    PatchCountsGeneration(read, stamp);
    if !read.Carries(stamp) && read.progress.observedGeneration <= read.progress.generation {
      PatchUnsettles(read, stamp);
    }
  }
}
