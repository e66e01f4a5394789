/** Why a reconcile ends as it does: each way to skip, wait or act, and the state of the cluster it stands for. */
module Exits {
  import opened Wrappers
  import opened PolicyTypes
  import opened Breaker
  import opened Gate
  import opened Workload
  import opened Scan
  import opened Maintenance
  import opened Control
  import opened Decisions

  /** A restart was counted less than a cooldown ago. */
  predicate Cools(b: Bookkeeping, now: int, l: Limits) {
    b.lastRestartAt.Some? && now < b.lastRestartAt.value + l.cooldown
  }

  /** This version had all the restarts of its window already; bookkeeping without a version is for any. */
  predicate SpentBudget(b: Bookkeeping, version: string, now: int, l: Limits) {
    && 0 < l.max <= b.restartCount
    && b.windowStart.Some? && now < b.windowStart.value + l.window
    && b.version in {"", version}
  }

  /** A would-restart was reported less than a cooldown ago. */
  predicate JustReported(w: World, k: Key, l: Limits) {
    k in w.wouldRestart && w.now < w.wouldRestart[k] + l.cooldown
  }

  /** The marker a reconcile decides on: a recreated workload has none. */
  function MarkerFor(st: Status, uid: string): Option<InFlight> { if Recreated(st, uid) then None else st.inFlight }

  predicate SlotFor(w: World, k: Key) { w.cap <= 0 || |w.gate| < w.cap }

  /** Why the workload is left alone after the last look at it, or not. */
  predicate WhyLast(w: World, k: Key, i: Inputs, exit: Exit)
    requires k in w.workloads
  {
    var v := Changed(w, k, i.interim);
    var gone := i.rereadFails || k !in v.workloads;
    match exit
    case RereadFailed => gone
    case Moved => !gone && v.Version(k) != w.Version(k)
    case WouldRestartMuted => !gone && v.Version(k) == w.Version(k) && i.cfg.dryRun && JustReported(w, k, i.cfg.limits)
    case WouldRestart => !gone && v.Version(k) == w.Version(k) && i.cfg.dryRun && !JustReported(w, k, i.cfg.limits)
    case Dispatched => !gone && v.Version(k) == w.Version(k) && !i.cfg.dryRun
    case _ => false
  }

  /** A container leaks, and no gate is in the way. */
  ghost predicate GatesOpen(w: World, k: Key, i: Inputs, b: Bookkeeping)
    requires k in w.workloads
  {
    && FirstBreach(i.pods, i.cfg.grace, w.now).Breach?
    && !Cools(b, w.now, i.cfg.limits) && !SpentBudget(b, w.Version(k), w.now, i.cfg.limits)
    && Allowed(i.cfg.windows, w.now) && SlotFor(w, k)
  }

  /** Why a workload at rest is not restarted: no leak, or the first gate in the way. */
  ghost predicate WhyRefused(w: World, k: Key, i: Inputs, b: Bookkeeping, exit: Exit)
    requires k in w.workloads
  {
    var l, leak := i.cfg.limits, FirstBreach(i.pods, i.cfg.grace, w.now).Breach?;
    var cools, spent := Cools(b, w.now, l), SpentBudget(b, w.Version(k), w.now, l);
    match exit
    case NoLeak => forall p :: p in i.pods ==> Quiet(p, i.cfg.grace, w.now)
    case CoolingDown => leak && cools
    case BreakerOpen => leak && !cools && spent
    case Deferred => leak && !cools && !spent && !Allowed(i.cfg.windows, w.now)
    case CapFull => leak && !cools && !spent && Allowed(i.cfg.windows, w.now) && !SlotFor(w, k)
    case _ => false
  }

  ghost predicate WhyAdmitted(w: World, k: Key, i: Inputs, b: Bookkeeping, exit: Exit)
    requires k in w.workloads
  {
    if GatesOpen(w, k, i, b) then WhyLast(w, k, i, exit) else WhyRefused(w, k, i, b, exit)
  }

  /** A StatefulSet that only updates pods somebody deletes. */
  predicate UpdatedByHand(live: Live) { live.kind.StatefulSet? && live.updatesOnDelete }

  /** Why a workload is not looked at for a leak: it is not to be restarted, is rolling out, or has just settled. */
  predicate WhyBusy(w: World, k: Key, i: Inputs, m: Option<InFlight>, exit: Exit)
    requires k in w.workloads
  {
    var live := w.workloads[k];
    var ours := m.Some? && m.value.dispatchedVersion == w.Version(k);
    var rolling := !UpdatedByHand(live) && !live.settled;
    var done := !UpdatedByHand(live) && live.settled && k in w.gate;
    match exit
    case NotAutoRestartable => UpdatedByHand(live)
    case Polling => rolling && k in w.gate
    case Resumed => rolling && k !in w.gate && ours
    case ForeignRollout => rolling && k !in w.gate && !ours
    case SlotFreed => done && (m.Some? ==> i.closeReply.Done?)
    case CloseErrored => done && m.Some? && !i.closeReply.Done?
    case _ => false
  }

  /** The workload may be restarted, is settled, and has no slot. */
  predicate AtRest(w: World, k: Key)
    requires k in w.workloads
  {
    !UpdatedByHand(w.workloads[k]) && w.workloads[k].settled && k !in w.gate
  }

  ghost predicate WhySettled(w: World, k: Key, i: Inputs, b: Bookkeeping, m: Option<InFlight>, exit: Exit)
    requires k in w.workloads
  {
    if AtRest(w, k) then WhyAdmitted(w, k, i, b, exit) else WhyBusy(w, k, i, m, exit)
  }

  ghost predicate Why(w: World, k: Key, i: Inputs, exit: Exit) {
    match exit
    case NoPolicy => k !in w.policies
    case Terminating => k in w.policies && w.policies[k].deleting && !w.policies[k].finalizer
    case Finalized => k in w.policies && w.policies[k].deleting && w.policies[k].finalizer
    case FinalizerAdded => k in w.policies && !w.policies[k].deleting && !w.policies[k].finalizer
    case WorkloadMissing => Ready(w, k, i) && k !in w.workloads
    case _ =>
      && Ready(w, k, i) && k in w.workloads
      && WhySettled(w, k, i, DecidedOn(w.policies[k].status, w.workloads[k].uid),
                    MarkerFor(w.policies[k].status, w.workloads[k].uid), exit)
  }

  /** The step failed at a read or a write; nothing is said of those. */
  predicate Failed(exit: Exit) { exit in {Errored, Crashed} }

  lemma RecheckWhy(w: World, k: Key, i: Inputs, cause: Cause, e: Exit)
    requires k in w.policies && k in w.workloads && !Failed(e) && !Failed(Recheck(w, k, i, cause).exit)
    ensures Recheck(w, k, i, cause).exit == e <==> WhyLast(w, k, i, e)
  {
    hide Commit, DryRun, JustReported, Changed, World.Version;
    var v := Changed(w, k, i.interim);
    ChangeMovesWorkloads(w, k, i.interim);
    ReportExit(w, Released(v, k), k, i);
    if k in v.workloads { CommitExit(v, k, i, w.Version(k), cause); }
  }

  lemma ChangeMovesWorkloads(w: World, k: Key, c: Change)
    ensures Changed(w, k, c) == w.(workloads := Changed(w, k, c).workloads)
  {
  }

  lemma ReportExit(w: World, v: World, k: Key, i: Inputs)
    requires v.now == w.now && v.wouldRestart == w.wouldRestart
    ensures DryRun(v, k, i).exit == if JustReported(w, k, i.cfg.limits) then WouldRestartMuted else WouldRestart
  {
  }

  lemma CommitExit(w: World, k: Key, i: Inputs, version: string, cause: Cause)
    requires k in w.policies && k in w.workloads
    ensures Commit(w, k, i, version, cause).exit in {Dispatched, Errored, Crashed}
  {
    hide Applied, Recomputed;
  }

  lemma RefusedWhy(w: World, k: Key, i: Inputs, e: Exit)
    requires k in w.policies && k in w.workloads && k !in w.gate && !Failed(e) && !Failed(Admit(w, k, i).exit)
    requires !GatesOpen(w, k, i, w.policies[k].status.breaker)
    ensures Admit(w, k, i).exit == e <==> WhyRefused(w, k, i, w.policies[k].status.breaker, e)
  {
    hide Recheck, FirstBreach, Allowed, Quiet, World.Version;
    NoBreachIffQuiet(i.pods, i.cfg.grace, w.now);
  }

  lemma AdmitWhy(w: World, k: Key, i: Inputs, e: Exit)
    requires k in w.policies && k in w.workloads && k !in w.gate && !Failed(e) && !Failed(Admit(w, k, i).exit)
    ensures Admit(w, k, i).exit == e <==> WhyAdmitted(w, k, i, w.policies[k].status.breaker, e)
  {
    hide Recheck, FirstBreach, Allowed, WhyLast, WhyRefused;
    if GatesOpen(w, k, i, w.policies[k].status.breaker) {
      var w1 := w.(gate := Tried(w.gate, w.cap, k, w.now));
      RecheckWhy(w1, k, i, FirstBreach(i.pods, i.cfg.grace, w.now).cause, e);
      SameLast(w, w1, k, i, e);
    } else {
      RefusedWhy(w, k, i, e);
    }
  }

  lemma SameLast(w: World, v: World, k: Key, i: Inputs, e: Exit)
    requires k in w.workloads && v.workloads == w.workloads && v.encoding == w.encoding && v.now == w.now
    requires v.wouldRestart == w.wouldRestart
    ensures WhyLast(v, k, i, e) <==> WhyLast(w, k, i, e)
  {
    hide Changed;
    ChangesAlike(w, v, k, i.interim);
  }

  lemma CloseExit(w: World, k: Key, i: Inputs)
    requires k in w.policies && k in w.workloads && w.policies[k].status.inFlight.Some?
    ensures CloseSettled(w, k, i).exit
            == if i.closeReply.Done? then SlotFreed else if Crashes(i.closeReply) then Crashed else CloseErrored
  {
    hide Completed, Recomputed;
  }

  lemma BusyWhy(w: World, k: Key, i: Inputs, e: Exit)
    requires k in w.policies && k in w.workloads && !AtRest(w, k) && !Failed(e) && !Failed(Settle(w, k, i).exit)
    ensures Settle(w, k, i).exit == e <==> WhyBusy(w, k, i, w.policies[k].status.inFlight, e)
  {
    hide Admit, CloseSettled, World.Version;
    if k in w.gate && w.policies[k].status.inFlight.Some? { CloseExit(Released(w, k), k, i); }
  }

  lemma SettleWhy(w: World, k: Key, i: Inputs, e: Exit)
    requires k in w.policies && k in w.workloads && !Failed(e) && !Failed(Settle(w, k, i).exit)
    ensures Settle(w, k, i).exit == e <==>
              WhySettled(w, k, i, w.policies[k].status.breaker, w.policies[k].status.inFlight, e)
  {
    hide Admit, WhyAdmitted, WhyBusy, CloseSettled;
    if AtRest(w, k) { AdmitWhy(w, k, i, e); } else { BusyWhy(w, k, i, e); }
  }

  lemma SameAdmitted(w: World, v: World, k: Key, i: Inputs, b: Bookkeeping, e: Exit)
    requires k in w.workloads && SameInputs(w, v) && v.wouldRestart == w.wouldRestart
    ensures WhyAdmitted(v, k, i, b, e) <==> WhyAdmitted(w, k, i, b, e)
  {
    hide FirstBreach, Allowed, Quiet, WhyLast, Cools, SpentBudget;
    SameLast(w, v, k, i, e);
  }

  /** What WhySettled reads, other than the policy. */
  lemma SameWhy(w: World, v: World, k: Key, i: Inputs, b: Bookkeeping, m: Option<InFlight>, e: Exit)
    requires k in w.workloads && SameInputs(w, v) && v.wouldRestart == w.wouldRestart
    ensures WhySettled(v, k, i, b, m, e) <==> WhySettled(w, k, i, b, m, e)
  {
    hide WhyAdmitted;
    SameAdmitted(w, v, k, i, b, e);
  }

  lemma ResolveWhy(w: World, k: Key, i: Inputs, e: Exit)
    requires k in w.policies && !Failed(e) && !Failed(Resolve(w, k, i).exit)
    ensures Resolve(w, k, i).exit == e <==>
              if k !in w.workloads then e == WorkloadMissing
              else WhySettled(w, k, i, DecidedOn(w.policies[k].status, w.workloads[k].uid),
                              MarkerFor(w.policies[k].status, w.workloads[k].uid), e)
  {
    hide Settle, WhySettled;
    if k in w.workloads {
      var st, uid := w.policies[k].status, w.workloads[k].uid;
      if st.workloadUID == uid {
        SettleWhy(w, k, i, e);
      } else {
        var w' := Written(w, k, Adopted(st, uid), i.adoptReply);
        SettleWhy(w', k, i, e);
        SameWhy(w, w', k, i, DecidedOn(st, uid), MarkerFor(st, uid), e);
      }
    }
  }

  /** Why a workload that was read ends the reconcile, and why one that was not. */
  lemma SettledExits(w: World, k: Key, i: Inputs, b: Bookkeeping, m: Option<InFlight>, e: Exit)
    requires k in w.workloads
    ensures WhySettled(w, k, i, b, m, e) ==>
              e !in {NoPolicy, Terminating, Finalized, FinalizerAdded, WorkloadMissing, AlreadyHeld}
  {
    hide FirstBreach, Allowed, Quiet, Changed;
  }

  /** The world in which a ready reconcile reads the workload. */
  function Moded(w: World, k: Key, i: Inputs): World
    requires k in w.policies
  {
    var st := w.policies[k].status;
    if st.dryRun == i.cfg.dryRun then w else Written(w, k, st.(dryRun := i.cfg.dryRun), i.modeReply)
  }

  lemma ReadyWhy(w: World, k: Key, i: Inputs, e: Exit)
    requires Ready(w, k, i) && !Failed(e) && !Failed(Resolve(Moded(w, k, i), k, i).exit)
    ensures Resolve(Moded(w, k, i), k, i).exit == e <==>
              if k !in w.workloads then e == WorkloadMissing
              else WhySettled(w, k, i, DecidedOn(w.policies[k].status, w.workloads[k].uid),
                              MarkerFor(w.policies[k].status, w.workloads[k].uid), e)
  {
    hide Resolve, WhySettled;
    var st, v := w.policies[k].status, Moded(w, k, i);
    ResolveWhy(v, k, i, e);
    if k in w.workloads {
      SameWhy(w, v, k, i, DecidedOn(st, w.workloads[k].uid), MarkerFor(st, w.workloads[k].uid), e);
    }
  }

  lemma ReadyResolves(w: World, k: Key, i: Inputs)
    requires Ready(w, k, i)
    ensures Reconcile(w, k, i) == Resolve(Moded(w, k, i), k, i)
  {
    hide Resolve;
  }

  /** Before the policy is ready, the exit is one of these four, or a failure. */
  lemma UnreadyWhy(w: World, k: Key, i: Inputs, e: Exit)
    requires !Ready(w, k, i) && !Failed(e) && !Failed(Reconcile(w, k, i).exit)
    ensures Reconcile(w, k, i).exit == e <==> Why(w, k, i, e)
  {
    hide Resolve, WhySettled;
  }

  lemma ReadyReasons(w: World, k: Key, i: Inputs, e: Exit)
    requires Ready(w, k, i) && !Failed(e)
    ensures Why(w, k, i, e) <==>
              if k !in w.workloads then e == WorkloadMissing
              else WhySettled(w, k, i, DecidedOn(w.policies[k].status, w.workloads[k].uid),
                              MarkerFor(w.policies[k].status, w.workloads[k].uid), e)
  {
    hide WhySettled;
    if k in w.workloads {
      SettledExits(w, k, i, DecidedOn(w.policies[k].status, w.workloads[k].uid),
                   MarkerFor(w.policies[k].status, w.workloads[k].uid), e);
    }
  }

  /** A reconcile that meets no failure ends in the one way that the cluster, the gates and the replies call for. */
  lemma ExitIff(w: World, k: Key, i: Inputs, e: Exit)
    requires !Failed(e) && !Failed(Reconcile(w, k, i).exit)
    ensures Reconcile(w, k, i).exit == e <==> Why(w, k, i, e)
  {
    hide Reconcile, Resolve, Why, WhySettled, Moded;
    if Ready(w, k, i) {
      ReadyResolves(w, k, i);
      ReadyWhy(w, k, i, e);
      ReadyReasons(w, k, i, e);
    } else {
      UnreadyWhy(w, k, i, e);
    }
  }

  /** The gate never answers that a workload is held already: such a workload is not looked at for a leak. */
  lemma NeverAlreadyHeld(w: World, k: Key, i: Inputs)
    ensures !Reconcile(w, k, i).exit.AlreadyHeld?
  {
    hide Reconcile, WhySettled;
    if !Failed(Reconcile(w, k, i).exit) {
      ExitIff(w, k, i, AlreadyHeld);
      if k in w.policies && k in w.workloads {
        SettledExits(w, k, i, DecidedOn(w.policies[k].status, w.workloads[k].uid),
                     MarkerFor(w.policies[k].status, w.workloads[k].uid), AlreadyHeld);
      }
    }
  }

  // ---- Failures -------------------------------------------------------------------------------------

  /** The pods, or the owner of the first one that matters, cannot be read. */
  ghost predicate PodsUnreadable(w: World, i: Inputs) {
    i.podsFail || FirstBreach(i.pods, i.cfg.grace, w.now).Unreadable?
  }

  predicate AnyReply(i: Inputs, bad: Reply -> bool) {
    || bad(i.finalizerReply) || bad(i.modeReply) || bad(i.adoptReply)
    || bad(i.closeReply) || bad(i.countReply) || bad(i.dispatchReply)
  }

  /** A stage failed: the process died in a write, or a write was not acknowledged or a read failed. */
  ghost predicate Explained(w: World, i: Inputs, exit: Exit) {
    && (exit.Crashed? ==> AnyReply(i, Crashes))
    && (exit.Errored? ==> i.fetchFails || PodsUnreadable(w, i) || AnyReply(i, (r: Reply) => !r.Done? && !Crashes(r)))
  }

  lemma RecheckFails(w: World, k: Key, i: Inputs, cause: Cause)
    requires k in w.policies && k in w.workloads
    ensures var exit := Recheck(w, k, i, cause).exit;
            && (exit.Crashed? ==> AnyReply(i, Crashes))
            && (exit.Errored? ==> AnyReply(i, (r: Reply) => !r.Done? && !Crashes(r)))
  {
    hide Applied, Recomputed, World.Version, Live.Patched, Changed;
    ChangeMovesWorkloads(w, k, i.interim);
  }

  lemma SettleFails(w: World, k: Key, i: Inputs)
    requires k in w.policies && k in w.workloads
    ensures Explained(w, i, Settle(w, k, i).exit)
  {
    hide Recheck, FirstBreach, Allowed, Completed, Recomputed, World.Version;
    var f := FirstBreach(i.pods, i.cfg.grace, w.now);
    if f.Breach? { RecheckFails(w.(gate := Tried(w.gate, w.cap, k, w.now)), k, i, f.cause); }
  }

  lemma ResolveFails(w: World, k: Key, i: Inputs)
    requires k in w.policies
    ensures Explained(w, i, Resolve(w, k, i).exit)
  {
    hide Settle, FirstBreach, Adopted;
    if k in w.workloads {
      SettleFails(w, k, i);
      SettleFails(Written(w, k, Adopted(w.policies[k].status, w.workloads[k].uid), i.adoptReply), k, i);
    }
  }

  /** A reconcile crashes only in a write, and fails only at a write that was not acknowledged or at a failed read. */
  lemma FailureIsExplained(w: World, k: Key, i: Inputs)
    ensures Explained(w, i, Reconcile(w, k, i).exit)
  {
    hide Resolve, FirstBreach;
    if k in w.policies {
      ResolveFails(w, k, i);
      ResolveFails(Written(w, k, w.policies[k].status.(dryRun := i.cfg.dryRun), i.modeReply), k, i);
    }
  }
}
