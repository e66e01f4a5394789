/** When a reconcile restarts a workload, and which object the restart reaches. */
module Decisions {
  import opened PolicyTypes
  import opened Breaker
  import opened Gate
  import opened Scan
  import opened Maintenance
  import opened Control

  /** The bookkeeping a reconcile decides on: that of the workload object it adopts. */
  function DecidedOn(st: Status, uid: string): Bookkeeping { if Recreated(st, uid) then NO_RESTARTS else st.breaker }

  /** Nothing landed since the first read, and the reconcile is to act. */
  predicate Proceeds(w: World, k: Key, i: Inputs)
    requires k in w.workloads
  {
    var v := Changed(w, k, i.interim);
    !i.rereadFails && k in v.workloads && v.Version(k) == w.Version(k) && !i.cfg.dryRun
  }

  /** A container leaks, and every gate lets a restart pass. */
  ghost predicate Passes(w: World, k: Key, i: Inputs, b: Bookkeeping)
    requires k in w.workloads
  {
    && !i.podsFail && FirstBreach(i.pods, i.cfg.grace, w.now).Breach?
    && Admitted(b, w.Version(k), w.now, i.cfg.limits)
    && Allowed(i.cfg.windows, w.now)
    && k !in w.gate && (w.cap > 0 ==> |w.gate| < w.cap)
  }

  /** The policy is live and its recorded mode is, or is acknowledged to be, the configured one. */
  predicate Ready(w: World, k: Key, i: Inputs) {
    && k in w.policies && !w.policies[k].deleting && w.policies[k].finalizer
    && (w.policies[k].status.dryRun == i.cfg.dryRun || i.modeReply.Done?)
  }

  /** The workload was read and its object is, or is acknowledged to be, the adopted one. */
  predicate Adopts(w: World, k: Key, i: Inputs)
    requires k in w.policies
  {
    && !i.fetchFails && k in w.workloads
    && (w.policies[k].status.workloadUID == w.workloads[k].uid || i.adoptReply.Done?)
  }

  /** The workload is at rest, so that it may be restarted. */
  ghost predicate Restartable(w: World, k: Key, i: Inputs, b: Bookkeeping)
    requires k in w.workloads
  {
    w.workloads[k].settled && !w.workloads[k].onDelete && Passes(w, k, i, b) && Proceeds(w, k, i)
  }

  /** Every guard of a reconcile lets a restart of k pass. */
  ghost predicate MayRestart(w: World, k: Key, i: Inputs) {
    && Ready(w, k, i) && Adopts(w, k, i)
    && Restartable(w, k, i, DecidedOn(w.policies[k].status, w.workloads[k].uid))
  }

  /** The restart that is counted: of the version read first, for the first leak found, at this instant. */
  ghost function CountOf(w: World, k: Key, i: Inputs): Effect
    requires k in w.workloads
  {
    var f := FirstBreach(i.pods, i.cfg.grace, w.now);
    var cause := if f.Breach? then f.cause else Cause("", 0, 0);
    Counted(k, NewRecord(w.Version(k), cause, w.now), i.cfg.limits)
  }

  /** The effects of a restart, in order: as far as its two writes take effect. */
  function RestartEffects(k: Key, i: Inputs, count: Effect): seq<Effect> {
    if !Takes(i.countReply) then []
    else if i.countReply.Done? && Takes(i.dispatchReply) then [count, Stamped(k)]
    else [count]
  }

  /** The effects before a restart: adopting a recreated object starts the log over. */
  function Prelude(w: World, k: Key): seq<Effect> {
    if k in w.policies && k in w.workloads && Recreated(w.policies[k].status, w.workloads[k].uid) then [Reset(k)]
    else []
  }

  /** If `may`, the step counts the restart and then dispatches it, as far as the replies let it; if not, neither. */
  ghost predicate Acts(s: Step, k: Key, i: Inputs, may: bool, prelude: seq<Effect>, count: Effect, e: Effect) {
    && (may ==> s.effects == prelude + RestartEffects(k, i, count))
    && (s.exit.Dispatched? <==> may && i.countReply.Done? && i.dispatchReply.Done?)
    && (e.Counted? ==> (e in s.effects <==> may && Takes(i.countReply) && e == count))
    && (e.Stamped? ==> (e in s.effects <==> may && i.countReply.Done? && Takes(i.dispatchReply) && e == Stamped(k)))
  }

  lemma CommitActs(w: World, k: Key, i: Inputs, version: string, cause: Cause, e: Effect)
    requires k in w.policies && k in w.workloads
    ensures Acts(Commit(w, k, i, version, cause), k, i, true, [],
                 Counted(k, NewRecord(version, cause, w.now), i.cfg.limits), e)
  {
    hide Applied, Recomputed, NewRecord;
  }

  lemma RecheckActs(w: World, k: Key, i: Inputs, cause: Cause, e: Effect)
    requires k in w.policies && k in w.workloads
    ensures Acts(Recheck(w, k, i, cause), k, i, Proceeds(w, k, i), [],
                 Counted(k, NewRecord(w.Version(k), cause, w.now), i.cfg.limits), e)
  {
    hide Commit;
    var v := Changed(w, k, i.interim);
    if k in v.workloads { CommitActs(v, k, i, w.Version(k), cause, e); }
  }

  lemma ChangesAlike(w: World, v: World, k: Key, c: Change)
    requires v.workloads == w.workloads && v.encoding == w.encoding
    ensures Changed(v, k, c).workloads == Changed(w, k, c).workloads
    ensures Changed(v, k, c).encoding == Changed(w, k, c).encoding == w.encoding
  {
  }

  lemma AdmitActs(w: World, k: Key, i: Inputs, e: Effect)
    requires k in w.policies && k in w.workloads
    ensures Acts(Admit(w, k, i), k, i, Passes(w, k, i, w.policies[k].status.breaker) && Proceeds(w, k, i), [],
                 CountOf(w, k, i), e)
  {
    hide Recheck, FirstBreach, Allowed, NewRecord, Changed;
    var f := FirstBreach(i.pods, i.cfg.grace, w.now);
    if f.Breach? {
      var w1 := w.(gate := Tried(w.gate, w.cap, k, w.now));
      RecheckActs(w1, k, i, f.cause, e);
      ChangesAlike(w, w1, k, i.interim);
    }
  }

  lemma SettleActs(w: World, k: Key, i: Inputs, e: Effect)
    requires k in w.policies && k in w.workloads
    ensures Acts(Settle(w, k, i), k, i, Restartable(w, k, i, w.policies[k].status.breaker), [], CountOf(w, k, i), e)
  {
    hide Admit, Proceeds, Completed, Recomputed;
    AdmitActs(w, k, i, e);
  }

  /** Nothing a restart decision reads, other than policies, differs between the two worlds. */
  ghost predicate SameInputs(w: World, v: World) {
    w.now == v.now && w.cap == v.cap && w.gate == v.gate && w.workloads == v.workloads && w.encoding == v.encoding
  }

  lemma SameDecision(w: World, v: World, k: Key, i: Inputs, b: Bookkeeping)
    requires SameInputs(w, v) && k in w.workloads
    ensures Restartable(w, k, i, b) <==> Restartable(v, k, i, b)
    ensures CountOf(w, k, i) == CountOf(v, k, i)
  {
    hide FirstBreach, Allowed, Admitted, NewRecord, Changed;
    assert Changed(w, k, i.interim).workloads == Changed(v, k, i.interim).workloads
           && Changed(w, k, i.interim).encoding == Changed(v, k, i.interim).encoding by {
      ChangesAlike(w, v, k, i.interim);
    }
  }

  lemma ResolveActs(w: World, k: Key, i: Inputs, e: Effect)
    requires k in w.policies
    ensures Adopts(w, k, i) ==>
              Acts(Resolve(w, k, i), k, i,
                   Restartable(w, k, i, DecidedOn(w.policies[k].status, w.workloads[k].uid)),
                   Prelude(w, k), CountOf(w, k, i), e)
    ensures !Adopts(w, k, i) ==> Acts(Resolve(w, k, i), k, i, false, [], Stamped(k), e)
  {
    hide Settle, Restartable, CountOf;
    if k in w.workloads {
      var w' := Written(w, k, Adopted(w.policies[k].status, w.workloads[k].uid), i.adoptReply);
      SettleActs(w, k, i, e);
      SettleActs(w', k, i, e);
      SameDecision(w, w', k, i, w'.policies[k].status.breaker);
    }
  }

  lemma ReconcileActs(w: World, k: Key, i: Inputs, e: Effect)
    ensures Acts(Exec(w, Reconciles(k, i)), k, i, MayRestart(w, k, i), Prelude(w, k),
                 if k in w.workloads then CountOf(w, k, i) else Stamped(k), e)
  {
    hide Resolve, Restartable, CountOf;
    if k in w.policies {
      var w' := Written(w, k, w.policies[k].status.(dryRun := i.cfg.dryRun), i.modeReply);
      ResolveActs(w, k, i, e);
      ResolveActs(w', k, i, e);
      if k in w.workloads {
        SameDecision(w, w', k, i, DecidedOn(w.policies[k].status, w.workloads[k].uid));
      }
    }
  }

  /** A restart is dispatched exactly when every guard lets it pass and both writes are acknowledged. */
  lemma DispatchedIff(w: World, k: Key, i: Inputs)
    ensures Exec(w, Reconciles(k, i)).exit.Dispatched? <==>
              MayRestart(w, k, i) && i.countReply.Done? && i.dispatchReply.Done?
  {
    hide Exec, MayRestart;
    ReconcileActs(w, k, i, Stamped(k));
  }

  /** A restart is counted exactly when every guard lets it pass and the write takes effect. */
  lemma CountedIff(w: World, k: Key, i: Inputs, e: Effect)
    requires e.Counted?
    ensures e in Exec(w, Reconciles(k, i)).effects <==>
              MayRestart(w, k, i) && Takes(i.countReply) && e == CountOf(w, k, i)
  {
    hide Exec, CountOf, Restartable;
    ReconcileActs(w, k, i, e);
  }

  /** The cluster is never patched for a restart that was not durably counted in the same step. */
  lemma StampedOnlyIfCounted(w: World, k: Key, i: Inputs)
    requires Stamped(k) in Exec(w, Reconciles(k, i)).effects
    ensures k in w.workloads && CountOf(w, k, i) in Exec(w, Reconciles(k, i)).effects
  {
    hide Exec, CountOf, Restartable;
    ReconcileActs(w, k, i, Stamped(k));
    ReconcileActs(w, k, i, CountOf(w, k, i));
    CountOfCounts(w, k, i);
  }

  lemma CountOfCounts(w: World, k: Key, i: Inputs)
    requires k in w.workloads
    ensures CountOf(w, k, i).Counted?
  {
  }

  /** If the guards pass, the step logs the adoption of a new object, the count, and the stamp, and nothing else. */
  lemma RestartLogs(w: World, k: Key, i: Inputs)
    requires MayRestart(w, k, i)
    ensures Exec(w, Reconciles(k, i)).effects == Prelude(w, k) + RestartEffects(k, i, CountOf(w, k, i))
  {
    hide Exec, CountOf, Restartable;
    ReconcileActs(w, k, i, Stamped(k));
  }
}
