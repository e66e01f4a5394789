/** Every step of the control loop keeps the invariant of Ledger. */
module Invariants {
  import opened Wrappers
  import opened PolicyTypes
  import opened Breaker
  import opened Trail
  import opened Gate
  import opened Workload
  import opened Control
  import opened Ledger

  /** Nothing about key j differs between the two worlds. */
  ghost predicate SameAt(w: World, v: World, j: Key) {
    && w.now == v.now && w.cap == v.cap && w.timeout == v.timeout && w.encoding == v.encoding
    && (j in w.policies <==> j in v.policies) && (j in w.policies ==> w.policies[j] == v.policies[j])
    && (j in w.workloads <==> j in v.workloads) && (j in w.workloads ==> w.workloads[j] == v.workloads[j])
    && (j in w.gate <==> j in v.gate) && (j in w.gate ==> w.gate[j] == v.gate[j])
  }

  lemma SameAtTrans(u: World, v: World, w: World, j: Key)
    requires SameAt(u, v, j) && SameAt(v, w, j)
    ensures SameAt(u, w, j)
  {
  }

  lemma CommitElse(w: World, k: Key, i: Inputs, version: string, cause: Cause, j: Key)
    requires k in w.policies && k in w.workloads && j != k
    ensures SameAt(w, Commit(w, k, i, version, cause).world, j)
  {
    hide Applied, Recomputed, Live.Patched;
  }

  lemma ChangedElse(w: World, k: Key, c: Change, j: Key)
    requires j != k
    ensures SameAt(w, Changed(w, k, c), j) && SameAt(w, Released(Changed(w, k, c), k), j)
    ensures Changed(w, k, c).policies == w.policies && Changed(w, k, c).gate == w.gate
  {
  }

  lemma DryRunElse(w: World, k: Key, i: Inputs, j: Key)
    ensures SameAt(w, DryRun(w, k, i).world, j)
  {
  }

  lemma RecheckElse(w: World, k: Key, i: Inputs, cause: Cause, j: Key)
    requires k in w.policies && k in w.workloads && j != k
    ensures SameAt(w, Recheck(w, k, i, cause).world, j)
  {
    hide Commit, SameAt, Changed, Released, DryRun;
    var v := Changed(w, k, i.interim);
    ChangedElse(w, k, i.interim, j);
    DryRunElse(Released(v, k), k, i, j);
    SameAtTrans(w, Released(v, k), DryRun(Released(v, k), k, i).world, j);
    if k in v.workloads {
      CommitElse(v, k, i, w.Version(k), cause, j);
      SameAtTrans(w, v, Commit(v, k, i, w.Version(k), cause).world, j);
    }
  }

  lemma AdmitElse(w: World, k: Key, i: Inputs, j: Key)
    requires k in w.policies && k in w.workloads && j != k
    ensures SameAt(w, Admit(w, k, i).world, j)
  {
    hide Recheck, Scan.FirstBreach, Maintenance.Allowed;
    if FirstBreachCause(w, k, i).Some? {
      RecheckElse(w.(gate := Tried(w.gate, w.cap, k, w.now)), k, i, FirstBreachCause(w, k, i).value, j);
    }
  }

  lemma SettleElse(w: World, k: Key, i: Inputs, j: Key)
    requires k in w.policies && k in w.workloads && j != k
    ensures SameAt(w, Settle(w, k, i).world, j)
  {
    hide Admit, CloseSettled;
    AdmitElse(w, k, i, j);
    if w.policies[k].status.inFlight.Some? { CloseSettledElse(Released(w, k), k, i, j); }
  }

  lemma CloseSettledElse(w: World, k: Key, i: Inputs, j: Key)
    requires k in w.policies && k in w.workloads && w.policies[k].status.inFlight.Some? && j != k
    ensures SameAt(w, CloseSettled(w, k, i).world, j)
  {
    hide Completed, Recomputed;
  }

  lemma ResolveElse(w: World, k: Key, i: Inputs, j: Key)
    requires k in w.policies && j != k
    ensures SameAt(w, Resolve(w, k, i).world, j)
  {
    hide Settle, Adopted;
    if k in w.workloads {
      SettleElse(w, k, i, j);
      SettleElse(Written(w, k, Adopted(w.policies[k].status, w.workloads[k].uid), i.adoptReply), k, i, j);
    }
  }

  lemma WrittenElse(w: World, k: Key, st: Status, r: Reply, j: Key)
    requires k in w.policies && j != k
    ensures SameAt(w, Written(w, k, st, r), j)
  {
  }

  lemma FinalizerElse(w: World, k: Key, i: Inputs, j: Key)
    requires k in w.policies && j != k
    ensures SameAt(w, Finalize(w, k, i).world, j)
    ensures SameAt(w, SetPolicy(w, k, w.policies[k].(finalizer := true)), j)
  {
  }

  /** A reconcile of one policy touches nothing of another. */
  lemma ReconcileElse(w: World, k: Key, i: Inputs, j: Key)
    requires j != k
    ensures SameAt(w, Reconcile(w, k, i).world, j)
  {
    hide Resolve, SameAt, Finalize;
    SameAtSelf(w, j);
    if k in w.policies {
      var st := w.policies[k].status.(dryRun := i.cfg.dryRun);
      var w1 := Written(w, k, st, i.modeReply);
      FinalizerElse(w, k, i, j);
      WrittenElse(w, k, st, i.modeReply, j);
      ResolveElse(w, k, i, j);
      ResolveElse(w1, k, i, j);
      SameAtTrans(w, w1, Resolve(w1, k, i).world, j);
    }
  }

  lemma SameAtSelf(w: World, j: Key)
    ensures SameAt(w, w, j)
  {
  }

  lemma ReconcileConstants(w: World, k: Key, i: Inputs)
    ensures var v := Reconcile(w, k, i).world;
            v.now == w.now && v.cap == w.cap && v.timeout == w.timeout && v.encoding == w.encoding
  {
    hide Reconcile;
    ReconcileElse(w, k, i, k + "'");  // any other key will do
  }

  /** Each effect of the step is one of policy k. */
  ghost predicate OnlyFor(effects: seq<Effect>, k: Key) { forall e :: e in effects ==> e.key == k }

  lemma RecheckEffects(w: World, k: Key, i: Inputs, cause: Cause)
    requires k in w.policies && k in w.workloads
    ensures OnlyFor(Recheck(w, k, i, cause).effects, k)
  {
    hide Applied, Recomputed, Written, Released;
  }

  lemma AdmitEffects(w: World, k: Key, i: Inputs)
    requires k in w.policies && k in w.workloads
    ensures OnlyFor(Admit(w, k, i).effects, k)
  {
    hide Recheck, Scan.FirstBreach, Maintenance.Allowed;
    if FirstBreachCause(w, k, i).Some? {
      RecheckEffects(w.(gate := Tried(w.gate, w.cap, k, w.now)), k, i, FirstBreachCause(w, k, i).value);
    }
  }

  lemma ResolveEffects(w: World, k: Key, i: Inputs)
    requires k in w.policies
    ensures OnlyFor(Resolve(w, k, i).effects, k)
  {
    hide Admit, Adopted, Completed, Recomputed;
    if k in w.workloads {
      AdmitEffects(w, k, i);
      AdmitEffects(Written(w, k, Adopted(w.policies[k].status, w.workloads[k].uid), i.adoptReply), k, i);
    }
  }

  lemma ReconcileEffects(w: World, k: Key, i: Inputs)
    ensures OnlyFor(Reconcile(w, k, i).effects, k)
  {
    hide Resolve;
    if k in w.policies {
      ResolveEffects(w, k, i);
      ResolveEffects(Written(w, k, w.policies[k].status.(dryRun := i.cfg.dryRun), i.modeReply), k, i);
    }
  }

  // ---- The cap ------------------------------------------------------------------------

  /** The gate is the old one, but for the slot of k. */
  ghost predicate GateBound(w: World, s: Step) { WithinCap(w.gate, w.cap) ==> WithinCap(s.world.gate, w.cap) }

  lemma TriedWithinCap(slots: Slots, cap: int, k: Key, at: int)
    requires WithinCap(slots, cap)
    ensures WithinCap(Tried(slots, cap, k, at), cap)
  {
  }

  lemma ReleasedWithinCap(slots: Slots, cap: int, keys: set<Key>)
    requires WithinCap(slots, cap)
    ensures WithinCap(slots - keys, cap)
  {
  }

  lemma RecheckGate(w: World, k: Key, i: Inputs, cause: Cause)
    requires k in w.policies && k in w.workloads
    ensures Recheck(w, k, i, cause).world.gate in {w.gate, w.gate - {k}}
  {
    hide Applied, Recomputed, Changed;
    assert Changed(w, k, i.interim).gate == w.gate && Changed(w, k, i.interim).policies == w.policies by {
      ChangedElse(w, k, i.interim, k + "'");
    }
  }

  lemma RecheckBound(w: World, k: Key, i: Inputs, cause: Cause)
    requires k in w.policies && k in w.workloads && WithinCap(w.gate, w.cap)
    ensures WithinCap(Recheck(w, k, i, cause).world.gate, w.cap)
  {
    hide Recheck, WithinCap;
    RecheckGate(w, k, i, cause);
    ReleasedWithinCap(w.gate, w.cap, {k});
  }

  lemma AdmitGate(w: World, k: Key, i: Inputs)
    requires k in w.policies && k in w.workloads
    ensures GateBound(w, Admit(w, k, i))
  {
    hide Recheck, Tried, TryOutcome, WithinCap, Scan.FirstBreach, Maintenance.Allowed, InCooldown, BreakerTripped;
    if WithinCap(w.gate, w.cap) && FirstBreachCause(w, k, i).Some? {
      TriedWithinCap(w.gate, w.cap, k, w.now);
      RecheckBound(w.(gate := Tried(w.gate, w.cap, k, w.now)), k, i, FirstBreachCause(w, k, i).value);
    }
  }

  lemma SettleGate(w: World, k: Key, i: Inputs)
    requires k in w.policies && k in w.workloads
    ensures GateBound(w, Settle(w, k, i))
  {
    hide Admit, WithinCap;
    AdmitGate(w, k, i);
    var m := w.policies[k].status.inFlight;
    if WithinCap(w.gate, w.cap) {
      ReleasedWithinCap(w.gate, w.cap, {k});
      if m.Some? { TriedWithinCap(w.gate, w.cap, k, m.value.dispatchedAt); }
    }
  }

  lemma ResolveGate(w: World, k: Key, i: Inputs)
    requires k in w.policies
    ensures GateBound(w, Resolve(w, k, i))
  {
    hide Settle, WithinCap, Adopted;
    if k in w.workloads {
      SettleGate(w, k, i);
      SettleGate(Written(w, k, Adopted(w.policies[k].status, w.workloads[k].uid), i.adoptReply), k, i);
    }
  }

  lemma FinalizeGate(w: World, k: Key, i: Inputs)
    requires k in w.policies
    ensures GateBound(w, Finalize(w, k, i))
  {
    hide WithinCap;
    if WithinCap(w.gate, w.cap) { ReleasedWithinCap(w.gate, w.cap, {k}); }
  }

  lemma ReconcileGate(w: World, k: Key, i: Inputs)
    ensures GateBound(w, Reconcile(w, k, i))
  {
    hide Resolve, Finalize, WithinCap;
    if k in w.policies {
      FinalizeGate(w, k, i);
      ResolveGate(w, k, i);
      ResolveGate(Written(w, k, w.policies[k].status.(dryRun := i.cfg.dryRun), i.modeReply), k, i);
    }
  }

  // ---- Slots and rollouts of the reconciled policy -----------------------------------------

  ghost predicate SlotKept(s: Step, k: Key) { s.exit.Crashed? || SlotOk(s.world, k) }

  lemma CommitSlot(w: World, k: Key, i: Inputs, version: string, cause: Cause)
    requires k in w.policies && k in w.workloads && k in w.gate && w.gate[k] == w.now
    ensures SlotKept(Commit(w, k, i, version, cause), k)
  {
  }

  lemma AdmitSlot(w: World, k: Key, i: Inputs)
    requires k in w.policies && k in w.workloads && k !in w.gate
    ensures SlotKept(Admit(w, k, i), k)
  {
    hide Commit, Scan.FirstBreach, Maintenance.Allowed;
    if FirstBreachCause(w, k, i).Some? {
      var w1 := Changed(w.(gate := Tried(w.gate, w.cap, k, w.now)), k, i.interim);
      if k in w1.workloads && k in w1.gate {
        CommitSlot(w1, k, i, w.Version(k), FirstBreachCause(w, k, i).value);
      }
    }
  }

  lemma SettleSlot(w: World, k: Key, i: Inputs)
    requires k in w.policies && k in w.workloads && SlotOk(w, k)
    ensures SlotKept(Settle(w, k, i), k)
  {
    hide Admit;
    if k !in w.gate { AdmitSlot(w, k, i); }
  }

  lemma ResolveSlot(w: World, k: Key, i: Inputs)
    requires k in w.policies && SlotOk(w, k)
    ensures SlotKept(Resolve(w, k, i), k)
  {
    hide Settle;
    if k in w.workloads {
      SettleSlot(w, k, i);
      SettleSlot(Written(w, k, Adopted(w.policies[k].status, w.workloads[k].uid), i.adoptReply), k, i);
    }
  }

  lemma ReconcileSlot(w: World, k: Key, i: Inputs)
    requires SlotOk(w, k)
    ensures SlotKept(Reconcile(w, k, i), k)
  {
    hide Resolve;
    if k in w.policies {
      ResolveSlot(w, k, i);
      ResolveSlot(Written(w, k, w.policies[k].status.(dryRun := i.cfg.dryRun), i.modeReply), k, i);
    }
  }

  /** A reconcile that meets its own tracked rollout only polls it, or finds it settled. */
  lemma ReconcileRollout(w: World, k: Key, i: Inputs, r: OwnRollout)
    requires RolloutOk(w, k, r)
    ensures var s := Reconcile(w, k, i);
            && !s.exit.Dispatched?
            && (s.exit.Crashed? || SawSettled(s.exit) || RolloutOk(s.world, k, r))
  {
    hide Resolve, RolloutOk;
    RolloutIsAdopted(w, k, r);
    var st := w.policies[k].status.(dryRun := i.cfg.dryRun);
    var w' := Written(w, k, st, i.modeReply);
    RolloutIgnoresMode(w, k, i, r);
    ResolveRollout(w, k, i, r);
    ResolveRollout(w', k, i, r);
    RolloutIgnoresFinalizer(w, k, r);
  }

  lemma RolloutIsAdopted(w: World, k: Key, r: OwnRollout)
    requires RolloutOk(w, k, r)
    ensures k in w.policies && !w.policies[k].deleting
  {
  }

  lemma RolloutIgnoresMode(w: World, k: Key, i: Inputs, r: OwnRollout)
    requires k in w.policies && RolloutOk(w, k, r)
    ensures RolloutOk(Written(w, k, w.policies[k].status.(dryRun := i.cfg.dryRun), i.modeReply), k, r)
  {
  }

  lemma RolloutIgnoresFinalizer(w: World, k: Key, r: OwnRollout)
    requires k in w.policies && RolloutOk(w, k, r)
    ensures RolloutOk(SetPolicy(w, k, w.policies[k].(finalizer := true)), k, r)
  {
  }

  lemma ResolveRollout(w: World, k: Key, i: Inputs, r: OwnRollout)
    requires k in w.policies && RolloutOk(w, k, r)
    ensures var s := Resolve(w, k, i);
            && !s.exit.Dispatched?
            && (s.exit.Crashed? || SawSettled(s.exit) || RolloutOk(s.world, k, r))
  {
    hide Admit, Completed, Recomputed;
  }

  lemma CommitRollout(w: World, k: Key, i: Inputs, version: string, cause: Cause)
    requires k in w.policies && k in w.workloads && k in w.gate && w.gate[k] == w.now && !w.policies[k].deleting
    requires w.Version(k) == version
    ensures var s := Commit(w, k, i, version, cause);
            s.exit.Dispatched? && s.world.workloads[k].uid == s.world.policies[k].status.workloadUID ==>
              RolloutOk(s.world, k, OwnRollout(w.now, s.world.workloads[k].uid, s.world.Version(k)))
  {
    PatchKeepsVersion(w.workloads[k], w.encoding.stamp(w.now), w.encoding.hash);
  }

  ghost predicate Dispatches(s: Step, k: Key, now: int) {
    s.exit.Dispatched? ==>
      && k in s.world.policies && k in s.world.workloads
      && (s.world.workloads[k].uid == s.world.policies[k].status.workloadUID ==>
            RolloutOk(s.world, k, OwnRollout(now, s.world.workloads[k].uid, s.world.Version(k))))
  }

  lemma AdmitRollout(w: World, k: Key, i: Inputs)
    requires k in w.policies && k in w.workloads && k !in w.gate && !w.policies[k].deleting
    ensures Dispatches(Admit(w, k, i), k, w.now)
  {
    hide Commit, Scan.FirstBreach, Maintenance.Allowed;
    if FirstBreachCause(w, k, i).Some? {
      var cause := FirstBreachCause(w, k, i).value;
      var w1 := Changed(w.(gate := Tried(w.gate, w.cap, k, w.now)), k, i.interim);
      if k in w1.workloads && k in w1.gate && w1.Version(k) == w.Version(k) {
        CommitRollout(w1, k, i, w.Version(k), cause);
        CommitKeepsKeys(w1, k, i, w.Version(k), cause);
      }
    }
  }

  lemma CommitKeepsKeys(w: World, k: Key, i: Inputs, version: string, cause: Cause)
    requires k in w.policies && k in w.workloads
    ensures k in Commit(w, k, i, version, cause).world.policies
    ensures k in Commit(w, k, i, version, cause).world.workloads
  {
  }

  lemma ResolveDispatches(w: World, k: Key, i: Inputs)
    requires k in w.policies && !w.policies[k].deleting
    ensures Dispatches(Resolve(w, k, i), k, w.now)
  {
    hide Admit, RolloutOk, Adopted, Completed, Recomputed;
    if k in w.workloads && k !in w.gate {
      AdmitRollout(w, k, i);
      AdmitRollout(Written(w, k, Adopted(w.policies[k].status, w.workloads[k].uid), i.adoptReply), k, i);
    }
  }

  lemma ReconcileDispatches(w: World, k: Key, i: Inputs)
    ensures Dispatches(Reconcile(w, k, i), k, w.now)
  {
    hide Resolve, RolloutOk;
    if k in w.policies && !w.policies[k].deleting {
      ResolveDispatches(w, k, i);
      ResolveDispatches(Written(w, k, w.policies[k].status.(dryRun := i.cfg.dryRun), i.modeReply), k, i);
    }
  }

  // ---- The expirer pass -----------------------------------------------------------------

  lemma ClassifiedIsClosed(w: World, k: Key, unreachable: bool)
    requires k in w.policies && w.policies[k].status.inFlight.Some?
    ensures Classify(w, k, unreachable) != Some(InProgress)
  {
  }

  lemma SweepOneKeeps(w: World, k: Key, f: Faults, j: Key, t: Log)
    requires StatusOk(w, j, t)
    ensures var s := SweepOne(w, k, f);
            && StatusOk(s.world, j, NoteAll(t, s.effects, j))
            && (j in s.world.policies <==> j in w.policies)
  {
    hide Summarizes, Completed, Classify;
    if k in w.policies && w.policies[k].status.inFlight.Some? {
      var o := Classify(w, k, k in f.unreachable);
      ClassifiedIsClosed(w, k, k in f.unreachable);
      if o.Some? {
        var e := Closed(k, w.now, o.value);
        OneEffect(t, e);
        if j != k { NoteNone(t, [e], j); }
        if j == k { CompleteClosesLast(w.policies[k].status, t.entries, w.now, o.value, w.now); }
      }
    }
  }

  lemma SweepOneMemory(w: World, k: Key, f: Faults)
    ensures var v := SweepOne(w, k, f).world;
            && v.now == w.now && v.cap == w.cap && v.timeout == w.timeout && v.encoding == w.encoding
            && v.gate == w.gate && v.workloads == w.workloads
  {
  }

  lemma {:induction false} SweepAllKeeps(w: World, order: seq<Key>, f: Faults, j: Key, t: Log)
    requires StatusOk(w, j, t)
    ensures var s := SweepAll(w, order, f);
            && StatusOk(s.world, j, NoteAll(t, s.effects, j))
            && (j in s.world.policies <==> j in w.policies)
            && s.world.now == w.now && s.world.cap == w.cap && s.world.timeout == w.timeout
            && s.world.encoding == w.encoding
            && s.world.gate == w.gate && s.world.workloads == w.workloads
  {
    hide StatusOk, SweepOne;
    if order != [] {
      var n := |order| - 1;
      var s := SweepAll(w, order[..n], f);
      SweepAllKeeps(w, order[..n], f, j, t);
      var u := SweepOne(s.world, order[n], f);
      SweepOneKeeps(s.world, order[n], f, j, NoteAll(t, s.effects, j));
      SweepOneMemory(s.world, order[n], f);
      NoteConcat(t, s.effects, u.effects, j);
    }
  }

  /** A marker survives the sweep unchanged, or its policy's slot is among those to release. */
  lemma SweepOneMarker(w: World, k: Key, f: Faults, j: Key)
    requires j in w.policies
    ensures var s := SweepOne(w, k, f);
            && j in s.world.policies
            && (s.world.policies[j] == w.policies[j] || (j in s.keys && Takes(s.reply)))
            && (j in s.keys ==>
                  j == k && w.policies[j].status.inFlight.Some? && Classify(w, j, j in f.unreachable).Some?)
            && (j in s.keys && s.reply.Done? ==> s.world.policies[j].status.inFlight.None?)
            && s.world.policies[j].deleting == w.policies[j].deleting
            && s.world.policies[j].finalizer == w.policies[j].finalizer
            && s.world.policies[j].status.workloadUID == w.policies[j].status.workloadUID
  {
  }

  lemma {:induction false} SweepAllMarker(w: World, order: seq<Key>, f: Faults, j: Key)
    requires j in w.policies
    ensures var s := SweepAll(w, order, f);
            && j in s.world.policies && s.world.now == w.now && s.world.timeout == w.timeout
            && s.world.encoding == w.encoding
            && s.world.workloads == w.workloads
            && (j !in s.keys ==> s.world.policies[j] == w.policies[j])
            && (j in s.keys ==> w.policies[j].status.inFlight.Some? && Classify(w, j, j in f.unreachable).Some?)
            && s.world.policies[j].deleting == w.policies[j].deleting
            && s.world.policies[j].finalizer == w.policies[j].finalizer
            && s.world.policies[j].status.workloadUID == w.policies[j].status.workloadUID
            && (j in s.keys && s.reply.Done? ==> s.world.policies[j].status.inFlight.None?)
  {
    hide SweepOne;
    if order != [] {
      var n := |order| - 1;
      SweepAllMarker(w, order[..n], f, j);
      SweepOneMarker(SweepAll(w, order[..n], f).world, order[n], f, j);
      SweepOneMemory(SweepAll(w, order[..n], f).world, order[n], f);
    }
  }

  lemma ExpirerKeeps(w: World, f: Faults, j: Key, t: Log)
    requires StatusOk(w, j, t)
    ensures var s := ExpirerPass(w, f);
            StatusOk(s.world, j, NoteAll(t, s.effects, j))
  {
    hide StatusOk, SweepAll;
    var w1 := w.(gate := Unexpired(w.gate, w.now, w.timeout));
    assert StatusOk(w1, j, t) by { MemoryIrrelevant(w, w1, j, t); }
    SweepAllKeeps(w1, f.order, f, j, t);
    var s := SweepAll(w1, f.order, f);
    MemoryIrrelevant(s.world, ExpirerPass(w, f).world, j, NoteAll(t, s.effects, j));
    assert f.listFails ==> NoteAll(t, [], j) == t;
  }

  lemma MemoryIrrelevant(w: World, v: World, j: Key, t: Log)
    ensures w.policies == v.policies && w.now == v.now ==> (StatusOk(w, j, t) <==> StatusOk(v, j, t))
  {
  }

  /** At the end of a pass, every held slot is younger than the timeout, and belongs to an unchanged policy. */
  lemma ExpirerSlots(w: World, f: Faults, j: Key)
    requires SlotOk(w, j)
    ensures var v := ExpirerPass(w, f).world;
            && v.now == w.now && v.timeout == w.timeout && v.encoding == w.encoding && v.workloads == w.workloads
            && v.cap == w.cap
            && (!ExpirerPass(w, f).exit.Crashed? ==> SlotOk(v, j))
            && (j in v.gate ==> j in w.gate && v.gate[j] == w.gate[j] && w.now - v.gate[j] < w.timeout)
  {
    hide SweepAll;
    var w1 := w.(gate := Unexpired(w.gate, w.now, w.timeout));
    SweepAllKeepsMemory(w1, f.order, f);
    if j in w.policies {
      SweepAllMarker(w1, f.order, f, j);
    } else {
      SweepAllAbsent(w1, f.order, f, j);
    }
  }

  lemma {:induction false} SweepAllKeepsMemory(w: World, order: seq<Key>, f: Faults)
    ensures var v := SweepAll(w, order, f).world;
            && v.now == w.now && v.cap == w.cap && v.timeout == w.timeout && v.encoding == w.encoding
            && v.gate == w.gate && v.workloads == w.workloads
  {
    hide SweepOne;
    if order != [] {
      SweepAllKeepsMemory(w, order[..|order| - 1], f);
      SweepOneMemory(SweepAll(w, order[..|order| - 1], f).world, order[|order| - 1], f);
    }
  }

  lemma {:induction false} SweepAllAbsent(w: World, order: seq<Key>, f: Faults, j: Key)
    requires j !in w.policies
    ensures j !in SweepAll(w, order, f).world.policies
  {
    if order != [] { SweepAllAbsent(w, order[..|order| - 1], f, j); }
  }

  /** A tracked rollout younger than the timeout keeps its slot and its marker through a pass. */
  lemma ExpirerRollout(w: World, f: Faults, j: Key, r: OwnRollout)
    requires RolloutOk(w, j, r) && w.now - r.at < w.timeout
    ensures !ExpirerPass(w, f).exit.Crashed? ==> RolloutOk(ExpirerPass(w, f).world, j, r)
  {
    hide SweepAll;
    var w1 := w.(gate := Unexpired(w.gate, w.now, w.timeout));
    SweepAllKeepsMemory(w1, f.order, f);
    SweepAllMarker(w1, f.order, f, j);
    assert Classify(w1, j, j in f.unreachable).None?;
  }

  lemma ExpirerConstants(w: World, f: Faults)
    ensures var v := ExpirerPass(w, f).world;
            && v.now == w.now && v.cap == w.cap && v.timeout == w.timeout && v.encoding == w.encoding
            && v.workloads == w.workloads
  {
    hide SweepAll;
    SweepAllKeepsMemory(w.(gate := Unexpired(w.gate, w.now, w.timeout)), f.order, f);
  }

  lemma ExpirerGate(w: World, f: Faults)
    requires WithinCap(w.gate, w.cap)
    ensures WithinCap(ExpirerPass(w, f).world.gate, w.cap)
  {
    hide SweepAll, WithinCap;
    var w1 := w.(gate := Unexpired(w.gate, w.now, w.timeout));
    SweepAllKeepsMemory(w1, f.order, f);
    CallKeepsCap(w.gate, w.cap, Expire(w.now, w.timeout));
    ReleasedWithinCap(w1.gate, w.cap, set k | k in SweepAll(w1, f.order, f).keys);
  }

  // ---- Every event ------------------------------------------------------------------------

  /** What one event does to the log and slot of policy j. */
  lemma StepKeeps(w: World, e: Event, j: Key, t: Log)
    requires StatusOk(w, j, t) && SlotOk(w, j)
    ensures var s := Exec(w, e);
            StatusOk(s.world, j, NoteAll(t, s.effects, j)) && SlotOk(s.world, j)
  {
    hide Reconcile, ExpirerPass, Summarizes;
    match e
    case Reconciles(k, i) =>
      if j == k {
        ReconcileKeeps(w, k, i, t);
        ReconcileSlot(w, k, i);
      } else {
        ReconcileElse(w, k, i, j);
        ReconcileEffects(w, k, i);
        NoteNone(t, Reconcile(w, k, i).effects, j);
      }
    case Expires(f) =>
      ExpirerKeeps(w, f, j, t);
      ExpirerSlots(w, f, j);
    case CreatePolicy(k) => CreatedKeeps(w, k, j, t);
    case Elapse(d) =>
      if j in w.policies { LaterSummary(w.policies[j].status, t.entries, w.now, w.now + d); }
    case _ =>
  }

  lemma CreatedKeeps(w: World, k: Key, j: Key, t: Log)
    requires StatusOk(w, j, t) && SlotOk(w, j)
    ensures var s := Exec(w, CreatePolicy(k));
            StatusOk(s.world, j, NoteAll(t, s.effects, j)) && SlotOk(s.world, j)
  {
    hide Summarizes;
    OneEffect(t, Reset(k));
    if j != k { NoteNone(t, [Reset(k)], j); }
    FreshSummary(w.now);
  }

  lemma FreshSummary(now: int)
    ensures Summarizes(EMPTY_STATUS, [], now)
  {
  }

  lemma LaterSummary(st: Status, t: Trail, now: int, later: int)
    requires Summarizes(st, t, now) && now <= later
    ensures Summarizes(st, t, later)
  {
  }

  lemma StepGate(w: World, e: Event)
    requires WithinCap(w.gate, w.cap)
    ensures WithinCap(Exec(w, e).world.gate, w.cap) && Exec(w, e).world.cap == w.cap
  {
    hide Reconcile, ExpirerPass;
    match e
    case Reconciles(k, i) =>
      ReconcileGate(w, k, i);
      ReconcileConstants(w, k, i);
    case Expires(f) =>
      ExpirerGate(w, f);
      ExpirerConstants(w, f);
    case _ =>
  }
}
