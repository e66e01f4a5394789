/** What the printer columns and the RolloutInProgress condition of a policy say, step by step and over runs. */
module Columns {
  import opened Wrappers
  import opened PolicyTypes
  import opened Breaker
  import opened Gate
  import opened Workload
  import opened Scan
  import opened Maintenance
  import opened Control
  import opened Ledger
  import opened Invariants
  import opened Adoption

  /** The columns as they are to be read at `now`, in numbers. */
  predicate Fresh(st: Status, now: int, l: Limits) {
    var b, p := st.breaker, st.published;
    var active := b.windowStart.Some? && now < b.windowStart.value + l.window;
    && (b.lastRestartAt.Some? ==> p.nextEligible == Some(b.lastRestartAt.value + l.cooldown))
    && (p.tripped <==> active && 0 < l.max <= b.restartCount)
    && (l.max <= 0 ==> p.remaining == 0)
    && (0 < l.max && !active ==> p.remaining == l.max)
    && (0 < l.max && active ==> p.remaining >= 0 && p.remaining == if p.tripped then 0 else l.max - b.restartCount)
  }

  ghost predicate Counts(effects: seq<Effect>) { exists e :: e in effects && e.Counted? }

  ghost predicate Closes(effects: seq<Effect>) { exists e :: e in effects && e.Closed? }

  /** A step that counts or closes a restart refreshes the columns and moves the condition; no other does. */
  ghost predicate Shows(st: Status, s: Step, k: Key, now: int, l: Limits) {
    k in s.world.policies ==>
      var u := s.world.policies[k].status;
      if Counts(s.effects) then Fresh(u, now, l) && u.rolloutInProgress == Some(true) && u.inFlight.Some?
      else if Closes(s.effects) then Fresh(u, now, l) && u.rolloutInProgress == Some(false) && u.inFlight.None?
      else
        && u.published == st.published && u.rolloutInProgress == st.rolloutInProgress
        && u.inFlight == if Reset(k) in s.effects then None else st.inFlight
  }

  lemma CountShows(st: Status, version: string, cause: Cause, now: int, l: Limits)
    ensures var u := Recomputed(Applied(st, version, cause, now, l.window), now, l);
            Fresh(u, now, l) && u.rolloutInProgress == Some(true) && u.inFlight.Some?
  {
    hide LastN, Rolled;
  }

  lemma CommitShows(w: World, k: Key, i: Inputs, version: string, cause: Cause)
    requires k in w.policies && k in w.workloads
    ensures Shows(w.policies[k].status, Commit(w, k, i, version, cause), k, w.now, i.cfg.limits)
  {
    hide Live.Patched, Applied, Recomputed, Fresh;
    CountShows(w.policies[k].status, version, cause, w.now, i.cfg.limits);
    if Takes(i.countReply) {
      assert Counted(k, NewRecord(version, cause, w.now), i.cfg.limits) in Commit(w, k, i, version, cause).effects;
    }
  }

  lemma RecheckShows(w: World, k: Key, i: Inputs, cause: Cause)
    requires k in w.policies && k in w.workloads
    ensures Shows(w.policies[k].status, Recheck(w, k, i, cause), k, w.now, i.cfg.limits)
  {
    hide Commit, Changed, Fresh, World.Version;
    var v := Changed(w, k, i.interim);
    assert v.policies == w.policies && v.now == w.now by { ChangedElse(w, k, i.interim, k + "'"); }
    if k in v.workloads { CommitShows(v, k, i, w.Version(k), cause); }
  }

  lemma AdmitShows(w: World, k: Key, i: Inputs)
    requires k in w.policies && k in w.workloads
    ensures Shows(w.policies[k].status, Admit(w, k, i), k, w.now, i.cfg.limits)
  {
    hide Recheck, FirstBreach, Allowed, Fresh, World.Version;
    var f := FirstBreach(i.pods, i.cfg.grace, w.now);
    if f.Breach? { RecheckShows(w.(gate := Tried(w.gate, w.cap, k, w.now)), k, i, f.cause); }
  }

  lemma CloseShows(w: World, k: Key, i: Inputs)
    requires k in w.policies && k in w.workloads && w.policies[k].status.inFlight.Some?
    ensures Shows(w.policies[k].status, CloseSettled(w, k, i), k, w.now, i.cfg.limits)
  {
    if Takes(i.closeReply) {
      assert CloseSettled(w, k, i).effects != [];
      assert CloseSettled(w, k, i).effects[0].Closed?;
    }
  }

  lemma SettleShows(w: World, k: Key, i: Inputs)
    requires k in w.policies && k in w.workloads
    ensures Shows(w.policies[k].status, Settle(w, k, i), k, w.now, i.cfg.limits)
  {
    hide Admit, CloseSettled, Fresh, World.Version;
    AdmitShows(w, k, i);
    if w.policies[k].status.inFlight.Some? { CloseShows(Released(w, k), k, i); }
  }

  lemma ResetShows(st: Status, u: Status, s: Step, k: Key, now: int, l: Limits)
    requires Shows(u, s, k, now, l) && u.published == st.published && u.rolloutInProgress == st.rolloutInProgress
    requires u.inFlight.None?
    ensures Shows(st, After([Reset(k)], s), k, now, l)
  {
    hide Fresh;
    var t := After([Reset(k)], s);
    assert forall e :: e in t.effects <==> e == Reset(k) || e in s.effects;
    assert Reset(k) in t.effects;
    assert Counts(t.effects) <==> Counts(s.effects);
    assert Closes(t.effects) <==> Closes(s.effects);
  }

  lemma SameShows(st: Status, u: Status, s: Step, k: Key, now: int, l: Limits)
    requires Shows(u, s, k, now, l) && u.published == st.published && u.rolloutInProgress == st.rolloutInProgress
    requires u.inFlight == st.inFlight
    ensures Shows(st, s, k, now, l) && Shows(st, After([], s), k, now, l)
  {
    hide Fresh;
    assert [] + s.effects == s.effects;
  }

  lemma AdoptShows(w: World, k: Key, i: Inputs)
    requires k in w.policies && k in w.workloads && w.policies[k].status.workloadUID != w.workloads[k].uid
    requires !i.fetchFails && !i.adoptReply.Done?
    ensures Shows(w.policies[k].status, Resolve(w, k, i), k, w.now, i.cfg.limits)
  {
    hide Settle, Fresh;
    var effects := Resolve(w, k, i).effects;
    assert forall e :: e in effects ==> e == Reset(k);
    assert !Counts(effects) && !Closes(effects);
    if effects != [] { assert effects[0] == Reset(k); }
  }

  lemma ResolveShows(w: World, k: Key, i: Inputs)
    requires k in w.policies
    ensures Shows(w.policies[k].status, Resolve(w, k, i), k, w.now, i.cfg.limits)
  {
    hide Settle, Shows;
    if i.fetchFails || k !in w.workloads {
      NothingShows(w, k, i.cfg.limits, Resolve(w, k, i));
    } else {
      var st, uid := w.policies[k].status, w.workloads[k].uid;
      if st.workloadUID == uid {
        SettleShows(w, k, i);
      } else if i.adoptReply.Done? {
        var w' := Written(w, k, Adopted(st, uid), i.adoptReply);
        SettleShows(w', k, i);
        if Recreated(st, uid) {
          ResetShows(st, Adopted(st, uid), Settle(w', k, i), k, w.now, i.cfg.limits);
        } else {
          SameShows(st, Adopted(st, uid), Settle(w', k, i), k, w.now, i.cfg.limits);
        }
      } else {
        AdoptShows(w, k, i);
      }
    }
  }

  lemma NothingShows(w: World, k: Key, l: Limits, s: Step)
    requires k in w.policies && s.effects == []
    requires k in s.world.policies ==> s.world.policies[k].status.(dryRun := w.policies[k].status.dryRun)
                                       == w.policies[k].status
    ensures Shows(w.policies[k].status, s, k, w.now, l)
  {
  }

  /** A reconcile that counts or closes a restart refreshes the columns and moves the condition; no other does. */
  lemma ReconcileShows(w: World, k: Key, i: Inputs)
    requires k in w.policies
    ensures Shows(w.policies[k].status, Reconcile(w, k, i), k, w.now, i.cfg.limits)
  {
    hide Resolve, Shows;
    var p := w.policies[k];
    if !p.deleting && p.finalizer && p.status.dryRun == i.cfg.dryRun {
      ResolveShows(w, k, i);
    } else if !p.deleting && p.finalizer && i.modeReply.Done? {
      var st := p.status.(dryRun := i.cfg.dryRun);
      var w' := Written(w, k, st, i.modeReply);
      ResolveShows(w', k, i);
      SameShows(p.status, st, Resolve(w', k, i), k, w.now, i.cfg.limits);
    } else {
      NothingShows(w, k, i.cfg.limits, Reconcile(w, k, i));
    }
  }

  // ---- The expirer ----------------------------------------------------------------------------

  /** The sweep never refreshes the columns; it ends the condition exactly where it closes a rollout. */
  ghost predicate SweptShows(st: Status, u: Status, effects: seq<Effect>, k: Key) {
    && u.published == st.published
    && (if exists e :: e in effects && e.key == k then u.rolloutInProgress == Some(false) && u.inFlight.None?
        else u.rolloutInProgress == st.rolloutInProgress && u.inFlight == st.inFlight)
  }

  lemma SweepOneShows(w: World, k: Key, f: Faults, j: Key)
    requires j in w.policies
    ensures var s := SweepOne(w, k, f);
            j in s.world.policies && SweptShows(w.policies[j].status, s.world.policies[j].status, s.effects, j)
  {
    hide Classify;
    var s := SweepOne(w, k, f);
    if s.effects != [] { assert s.effects[0].key == k; }
  }

  lemma SweptTwice(st: Status, u: Status, v: Status, a: seq<Effect>, b: seq<Effect>, k: Key)
    requires SweptShows(st, u, a, k) && SweptShows(u, v, b, k)
    ensures SweptShows(st, v, a + b, k)
  {
    assert forall e :: e in a + b <==> e in a || e in b;
    if e :| e in a && e.key == k { assert e in a + b; }
    if e :| e in b && e.key == k { assert e in a + b; }
  }

  lemma {:induction false} SweepAllShows(w: World, order: seq<Key>, f: Faults, j: Key)
    requires j in w.policies
    ensures var s := SweepAll(w, order, f);
            j in s.world.policies && SweptShows(w.policies[j].status, s.world.policies[j].status, s.effects, j)
  {
    hide SweepOne, SweptShows;
    if order == [] {
      NothingSwept(w.policies[j].status, j);
    } else {
      var n := |order| - 1;
      var s := SweepAll(w, order[..n], f);
      SweepAllShows(w, order[..n], f, j);
      SweepOneShows(s.world, order[n], f, j);
      var t := SweepOne(s.world, order[n], f);
      SweptTwice(w.policies[j].status, s.world.policies[j].status, t.world.policies[j].status, s.effects, t.effects, j);
    }
  }

  lemma NothingSwept(st: Status, k: Key)
    ensures SweptShows(st, st, [], k)
  {
  }

  /** A pass leaves the columns as they were, also of a policy whose rollout it closes. */
  lemma PassKeepsColumns(w: World, f: Faults, k: Key)
    requires k in w.policies
    ensures var s := ExpirerPass(w, f);
            k in s.world.policies && SweptShows(w.policies[k].status, s.world.policies[k].status, s.effects, k)
  {
    hide SweepAll, SweptShows;
    NothingSwept(w.policies[k].status, k);
    SweepAllShows(w.(gate := Unexpired(w.gate, w.now, w.timeout)), f.order, f, k);
  }

  // ---- The condition over a run -----------------------------------------------------------------

  /** The condition is true exactly while a rollout is in flight. */
  predicate Accurate(st: Status) { st.rolloutInProgress == Some(true) <==> st.inFlight.Some? }

  /** The step drops the marker of k with its whole log, for a recreated workload, and counts nothing for it. */
  ghost predicate Orphans(w: World, e: Event, k: Key) {
    && k in w.policies && w.policies[k].status.inFlight.Some?
    && e.Reconciles? && e.key == k && Reset(k) in Exec(w, e).effects && !Counts(Exec(w, e).effects)
  }

  lemma ShowsAccurate(st: Status, s: Step, k: Key, now: int, l: Limits)
    requires k in s.world.policies && Shows(st, s, k, now, l) && Accurate(st)
    requires Closes(s.effects) && !Counts(s.effects) ==> Reset(k) !in s.effects
    ensures Accurate(s.world.policies[k].status) <==>
              !(st.inFlight.Some? && Reset(k) in s.effects && !Counts(s.effects))
  {
    hide Fresh;
  }

  lemma ReconcileAccurate(w: World, k: Key, i: Inputs)
    requires k in w.policies && k in Reconcile(w, k, i).world.policies && Accurate(w.policies[k].status)
    ensures Accurate(Reconcile(w, k, i).world.policies[k].status) <==> !Orphans(w, Reconciles(k, i), k)
  {
    hide Reconcile, Shows, Counts, Closes;
    var s := Reconcile(w, k, i);
    ReconcileShows(w, k, i);
    ClosesOrStartsOver(w, k, i);
    ShowsAccurate(w.policies[k].status, s, k, w.now, i.cfg.limits);
  }

  /** Only a marked rollout is closed, and settling starts no log over. */
  lemma SettleCloses(w: World, k: Key, i: Inputs)
    requires k in w.policies && k in w.workloads
    ensures var effects := Settle(w, k, i).effects;
            Reset(k) !in effects && (Closes(effects) ==> w.policies[k].status.inFlight.Some?)
  {
    hide Admit, Completed, Recomputed;
    AdmitClosesNothing(w, k, i);
  }

  lemma AdmitClosesNothing(w: World, k: Key, i: Inputs)
    requires k in w.policies && k in w.workloads
    ensures Reset(k) !in Admit(w, k, i).effects && !Closes(Admit(w, k, i).effects)
  {
    hide Recheck, FirstBreach, Allowed;
    var f := FirstBreach(i.pods, i.cfg.grace, w.now);
    if f.Breach? { RecheckClosesNothing(w.(gate := Tried(w.gate, w.cap, k, w.now)), k, i, f.cause); }
  }

  lemma RecheckClosesNothing(w: World, k: Key, i: Inputs, cause: Cause)
    requires k in w.policies && k in w.workloads
    ensures Reset(k) !in Recheck(w, k, i, cause).effects && !Closes(Recheck(w, k, i, cause).effects)
  {
    hide Applied, Recomputed, World.Version, Live.Patched;
  }

  lemma ResolveCloses(w: World, k: Key, i: Inputs)
    requires k in w.policies
    ensures Closes(Resolve(w, k, i).effects) ==> Reset(k) !in Resolve(w, k, i).effects
  {
    hide Settle;
    if k in w.workloads {
      SettleCloses(w, k, i);
      SettleCloses(Written(w, k, Adopted(w.policies[k].status, w.workloads[k].uid), i.adoptReply), k, i);
    }
  }

  /** No reconcile both starts the log over and closes a rollout: the marker is dropped with the log. */
  lemma ClosesOrStartsOver(w: World, k: Key, i: Inputs)
    ensures Closes(Reconcile(w, k, i).effects) ==> Reset(k) !in Reconcile(w, k, i).effects
  {
    hide Resolve;
    if k in w.policies {
      ResolveCloses(w, k, i);
      ResolveCloses(Written(w, k, w.policies[k].status.(dryRun := i.cfg.dryRun), i.modeReply), k, i);
    }
  }

  lemma OthersAccurate(w: World, e: Event, k: Key)
    requires k in Exec(w, e).world.policies && !(e.Reconciles? && e.key == k)
    requires k in w.policies ==> Accurate(w.policies[k].status)
    ensures Accurate(Exec(w, e).world.policies[k].status)
  {
    hide Reconcile, ExpirerPass, SweptShows;
    match e
    case Reconciles(j, i) => ReconcileElse(w, j, i, k);
    case Expires(f) =>
      if k in w.policies {
        PassKeepsColumns(w, f, k);
        SweptAccurate(w.policies[k].status, ExpirerPass(w, f).world.policies[k].status, ExpirerPass(w, f).effects, k);
      } else {
        PassCreatesNone(w, f, k);
      }
    case _ =>
  }

  lemma SweptAccurate(st: Status, u: Status, effects: seq<Effect>, k: Key)
    requires SweptShows(st, u, effects, k) && Accurate(st)
    ensures Accurate(u)
  {
  }

  lemma PassCreatesNone(w: World, f: Faults, k: Key)
    requires k !in w.policies
    ensures k !in ExpirerPass(w, f).world.policies
  {
    hide SweepAll;
    SweepAllAbsent(w.(gate := Unexpired(w.gate, w.now, w.timeout)), f.order, f, k);
  }

  /** One event spoils the condition exactly if it is the adoption of a recreated workload over a rollout in flight. */
  lemma StepAccurate(w: World, e: Event, k: Key)
    requires k in Exec(w, e).world.policies
    requires k in w.policies ==> Accurate(w.policies[k].status)
    ensures Accurate(Exec(w, e).world.policies[k].status) <==> !Orphans(w, e, k)
  {
    hide Reconcile, ExpirerPass, Accurate, Counts;
    if e.Reconciles? && e.key == k {
      if k in w.policies {
        ReconcileAccurate(w, k, e.inputs);
        ThroughCrash(Reconcile(w, k, e.inputs));
      } else {
        AbsentStays(w, k, e.inputs);
      }
    } else {
      OthersAccurate(w, e, k);
    }
  }

  lemma ThroughCrash(s: Step)
    ensures AfterCrash(s).effects == s.effects && AfterCrash(s).world.policies == s.world.policies
  {
  }

  /** In every reachable state the condition is true exactly while a rollout is in flight, unless one was so dropped. */
  lemma {:induction false} ConditionIsAccurate(s: State, events: seq<Event>, k: Key)
    requires Initial(s)
    requires forall m :: 0 <= m < |events| ==> !Orphans(Run(s, events[..m]).world, events[m], k)
    ensures var w := Run(s, events).world;
            k in w.policies ==> Accurate(w.policies[k].status)
    decreases |events|
  {
    hide Exec, Orphans, Recorded, Tracked;
    if events != [] {
      var n := |events| - 1;
      assert forall m :: 0 <= m < n ==> events[..n][..m] == events[..m];
      ConditionIsAccurate(s, events[..n], k);
      if k in Run(s, events).world.policies { StepAccurate(Run(s, events[..n]).world, events[n], k); }
    }
  }

  /** A workload recreated during a rollout and itself rolling out: the condition stays true, with nothing in flight. */
  lemma RecreationLeavesCondition(w: World, k: Key, i: Inputs)
    requires k in w.policies && !w.policies[k].deleting && w.policies[k].finalizer && k in w.workloads && k !in w.gate
    requires Accurate(w.policies[k].status) && w.policies[k].status.inFlight.Some?
    requires w.policies[k].status.dryRun == i.cfg.dryRun && !i.fetchFails && i.adoptReply.Done?
    requires Recreated(w.policies[k].status, w.workloads[k].uid)
    requires !w.workloads[k].settled && !w.workloads[k].onDelete
    ensures var s := Exec(w, Reconciles(k, i));
            && s.exit.ForeignRollout? && Orphans(w, Reconciles(k, i), k)
            && k in s.world.policies && !Accurate(s.world.policies[k].status)
  {
    hide Settle;
    var w' := Written(w, k, Adopted(w.policies[k].status, w.workloads[k].uid), i.adoptReply);
    RollingIsForeign(w', k, i);
    assert Reconcile(w, k, i) == After([Reset(k)], Settle(w', k, i));
    assert Reconcile(w, k, i).effects == [Reset(k)];
  }

  lemma RollingIsForeign(w: World, k: Key, i: Inputs)
    requires k in w.policies && k in w.workloads && k !in w.gate && w.policies[k].status.inFlight.None?
    requires !w.workloads[k].settled && !w.workloads[k].onDelete
    ensures Settle(w, k, i) == Step(w, [], ForeignRollout)
  {
  }
}
