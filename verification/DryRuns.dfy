/** Dry-run: nothing is restarted, and would-restarts are reported with the cadence of restarts. */
module DryRuns {
  import opened PolicyTypes
  import opened Breaker
  import opened Gate
  import opened Scan
  import opened Maintenance
  import opened Control
  import opened Ledger
  import opened Invariants
  import opened Decisions

  // ---- One step -------------------------------------------------------------------------------

  /** A would-restart is reported at least a cooldown after the last one, and only reporting moves that time. */
  predicate Muted(w: World, s: Step, k: Key, cooldown: int) {
    if s.exit.WouldRestart? then
      && (k in w.wouldRestart ==> w.now - w.wouldRestart[k] >= cooldown)
      && s.world.wouldRestart == w.wouldRestart[k := w.now]
    else s.world.wouldRestart == w.wouldRestart
  }

  lemma RecheckMuted(w: World, k: Key, i: Inputs, cause: Cause)
    requires k in w.policies && k in w.workloads
    ensures Muted(w, Recheck(w, k, i, cause), k, i.cfg.limits.cooldown)
  {
    hide Commit, Changed;
    var v := Changed(w, k, i.interim);
    assert v.now == w.now && v.policies == w.policies && v.wouldRestart == w.wouldRestart by {
      ChangeKeepsMemory(w, k, i.interim);
    }
    if k in v.workloads { CommitMuted(v, k, i, w.Version(k), cause); }
  }

  lemma ChangeKeepsMemory(w: World, k: Key, c: Change)
    ensures var v := Changed(w, k, c);
            v.now == w.now && v.policies == w.policies && v.wouldRestart == w.wouldRestart
  {
  }

  lemma CommitMuted(w: World, k: Key, i: Inputs, version: string, cause: Cause)
    requires k in w.policies && k in w.workloads
    ensures !Commit(w, k, i, version, cause).exit.WouldRestart?
    ensures Commit(w, k, i, version, cause).world.wouldRestart == w.wouldRestart
  {
    hide Applied, Recomputed;
  }

  lemma AdmitMuted(w: World, k: Key, i: Inputs)
    requires k in w.policies && k in w.workloads
    ensures Muted(w, Admit(w, k, i), k, i.cfg.limits.cooldown)
  {
    hide Recheck, FirstBreach, Allowed;
    var f := FirstBreach(i.pods, i.cfg.grace, w.now);
    if f.Breach? { RecheckMuted(w.(gate := Tried(w.gate, w.cap, k, w.now)), k, i, f.cause); }
  }

  lemma SettleMuted(w: World, k: Key, i: Inputs)
    requires k in w.policies && k in w.workloads
    ensures Muted(w, Settle(w, k, i), k, i.cfg.limits.cooldown)
  {
    hide Admit, Completed, Recomputed;
    AdmitMuted(w, k, i);
  }

  lemma ResolveMuted(w: World, k: Key, i: Inputs)
    requires k in w.policies
    ensures Muted(w, Resolve(w, k, i), k, i.cfg.limits.cooldown)
  {
    hide Settle, Adopted;
    if k in w.workloads {
      SettleMuted(w, k, i);
      SettleMuted(Written(w, k, Adopted(w.policies[k].status, w.workloads[k].uid), i.adoptReply), k, i);
    }
  }

  lemma DryRunMayNot(w: World, k: Key, i: Inputs)
    requires i.cfg.dryRun
    ensures !MayRestart(w, k, i)
  {
  }

  /** A dry-run never counts or dispatches a restart, and waits a cooldown after the report it remembers. */
  lemma DryRunOnlyReports(w: World, k: Key, i: Inputs, e: Effect)
    requires i.cfg.dryRun
    ensures var s := Reconcile(w, k, i);
            !s.exit.Dispatched? && (e in s.effects ==> !e.Counted? && !e.Stamped?)
            && Muted(w, s, k, i.cfg.limits.cooldown)
  {
    hide Reconcile, MayRestart, CountOf, Muted;
    DryRunMayNot(w, k, i);
    ReconcileActs(w, k, i, e);
    ReconcileMuted(w, k, i);
  }

  lemma ReconcileMuted(w: World, k: Key, i: Inputs)
    ensures Muted(w, Reconcile(w, k, i), k, i.cfg.limits.cooldown)
  {
    hide Resolve;
    if k in w.policies {
      ResolveMuted(w, k, i);
      ResolveMuted(Written(w, k, w.policies[k].status.(dryRun := i.cfg.dryRun), i.modeReply), k, i);
    }
  }

  // ---- Over a run -------------------------------------------------------------------------------

  lemma {:induction false} SweepKeepsReports(w: World, order: seq<Key>, f: Faults)
    ensures SweepAll(w, order, f).world.wouldRestart == w.wouldRestart
  {
    hide Classify, Completed;
    if order != [] { SweepKeepsReports(w, order[..|order| - 1], f); }
  }

  /** The last report about k was at `at` or later, and `at` is past. */
  predicate Remembers(w: World, k: Key, at: int) {
    k in w.wouldRestart && w.wouldRestart[k] >= at && w.now >= at
  }

  lemma StepRemembers(w: World, e: Event, k: Key, at: int)
    requires Remembers(w, k, at) && !Exec(w, e).exit.Crashed?
    ensures Remembers(Exec(w, e).world, k, at)
  {
    hide Reconcile, SweepAll;
    match e
    case Reconciles(j, i) =>
      ReconcileMuted(w, j, i);
      ReconcileConstants(w, j, i);
    case Expires(f) =>
      var w1 := w.(gate := Unexpired(w.gate, w.now, w.timeout));
      SweepKeepsReports(w1, f.order, f);
      SweepAllKeepsMemory(w1, f.order, f);
    case _ =>
  }

  /** No crash and no leader change happens in these events. */
  ghost predicate OneLeader(s: State, events: seq<Event>) {
    forall m :: 0 <= m < |events| ==> !Exec(Run(s, events[..m]).world, events[m]).exit.Crashed?
  }

  lemma {:induction false} RunRemembers(s: State, events: seq<Event>, k: Key, at: int)
    requires Remembers(s.world, k, at) && OneLeader(s, events)
    ensures Remembers(Run(s, events).world, k, at)
    decreases |events|
  {
    hide Exec, Recorded, Tracked, Remembers;
    if events != [] {
      var n := |events| - 1;
      assert forall m :: 0 <= m < n ==> events[..n][..m] == events[..m];
      RunRemembers(s, events[..n], k, at);
      StepRemembers(Run(s, events[..n]).world, events[n], k, at);
    }
  }

  /** Under one leader, two reports about one workload are at least the later one's cooldown apart. */
  lemma ReportSpacing(s: State, k: Key, i: Inputs, events: seq<Event>, j: Inputs)
    requires Exec(s.world, Reconciles(k, i)).exit.WouldRestart?
    requires OneLeader(Next(s, Reconciles(k, i)), events)
    requires var w := Run(Next(s, Reconciles(k, i)), events).world; Exec(w, Reconciles(k, j)).exit.WouldRestart?
    ensures var w := Run(Next(s, Reconciles(k, i)), events).world;
            w.now - s.world.now >= j.cfg.limits.cooldown
  {
    hide Reconcile, OneLeader, Run, Recorded, Tracked;
    var u := Next(s, Reconciles(k, i));
    ReconcileMuted(s.world, k, i);
    ReconcileConstants(s.world, k, i);
    RunRemembers(u, events, k, s.world.now);
    ReconcileMuted(Run(u, events).world, k, j);
  }
}
