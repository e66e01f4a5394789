/**
  The controller process: the reconcile of internal/controller/reconciler.go, the sweep of
  internal/restart/store.go and the expirer tick of cmd/expirer.go, as they update their state in place.
  Each method does to the process and the cluster exactly what Control says.
 */
module Controller {
  import opened Wrappers
  import opened PolicyTypes
  import opened Breaker
  import opened Workload
  import opened Scan
  import opened Maintenance
  import opened Control
  import G = Gate

  type Key = G.Key

  /** The API server. Every write takes the reply it is going to get, and takes effect accordingly. */
  class Cluster {
    var policies: map<Key, Policy>
    var workloads: map<Key, Live>

    const encoding: Encoding

    constructor (e: Encoding, ps: map<Key, Policy>, ws: map<Key, Live>)
      ensures encoding == e && policies == ps && workloads == ws
    {
      encoding := e;
      policies := ps;
      workloads := ws;
    }

    method Persist(k: Key, st: PolicyStatus, r: Reply)
      requires k in policies
      modifies this`policies
      ensures policies == if Takes(r) then old(policies)[k := old(policies)[k].(status := st.View())] else old(policies)
    {
      if Takes(r) {
        policies := policies[k := policies[k].(status := st.View())];
      }
    }

    method AddFinalizer(k: Key, r: Reply)
      requires k in policies
      modifies this`policies
      ensures policies == if Takes(r) then old(policies)[k := old(policies)[k].(finalizer := true)] else old(policies)
    {
      if Takes(r) {
        policies := policies[k := policies[k].(finalizer := true)];
      }
    }

    /** A terminating policy disappears with its last finalizer. */
    method RemoveFinalizer(k: Key, r: Reply)
      modifies this`policies
      ensures policies == if Takes(r) then old(policies) - {k} else old(policies)
    {
      if Takes(r) {
        policies := policies - {k};
      }
    }

    /** A user creates a policy; nothing happens to one that is there. */
    method Create(k: Key)
      modifies this`policies
      ensures policies == if k in old(policies) then old(policies)
                          else old(policies)[k := Policy(EMPTY_STATUS, false, false)]
    {
      if k !in policies {
        policies := policies[k := Policy(EMPTY_STATUS, false, false)];
      }
    }

    /** A user deletes a policy; a finalizer keeps it terminating. */
    method Delete(k: Key)
      modifies this`policies
      ensures policies == if k !in old(policies) then old(policies)
                          else if old(policies)[k].finalizer
                          then old(policies)[k := old(policies)[k].(deleting := true)]
                          else old(policies) - {k}
    {
      if k in policies {
        if policies[k].finalizer {
          policies := policies[k := policies[k].(deleting := true)];
        } else {
          policies := policies - {k};
        }
      }
    }

    /** Somebody else's change. */
    method Interfere(k: Key, c: Change)
      modifies this`workloads
      ensures workloads == (match c
                            case Keep => old(workloads)
                            case Replace(live) => old(workloads)[k := live]
                            case Remove => old(workloads) - {k})
    {
      match c {
        case Keep =>
        case Replace(live) => workloads := workloads[k := live];
        case Remove => workloads := workloads - {k};
      }
    }

    /** The restart patch, as Object.Dispatch makes it. */
    method Dispatch(k: Key, now: int, r: Reply)
      requires k in workloads
      modifies this`workloads
      ensures workloads == if Takes(r)
                           then old(workloads)[k := old(workloads)[k].Patched(encoding.stamp(now))]
                           else old(workloads)
    {
      if Takes(r) {
        var o := new Object(workloads[k]);
        o.Dispatch(encoding.stamp(now));
        workloads := workloads[k := o.View()];
      }
    }
  }

  function NotDone(r: Reply): Exit { if Crashes(r) then Crashed else Errored }

  /**
    When the policy comes up again: after the polling interval while a rollout is to be watched, a slot to be
    waited for or a workload to appear; for a deferred restart at the first instant that allows it, so that the
    polling interval is never used instead; and otherwise only with the next event.
   */
  ghost predicate ComesBack(exit: Exit, wait: Option<int>, now: int, windows: Windows, requeueAfter: int) {
    if exit in {WorkloadMissing, Polling, Resumed, CapFull, Dispatched} then wait == Some(requeueAfter)
    else if exit.Deferred? then
      AllWellFormed(windows) ==> wait.Some? && FirstAllowed(windows, now, now + wait.value)
    else wait.None?
  }

  class Reconciler {
    const cluster: Cluster
    const gate: G.Gate
    const timeout: int
    const requeueAfter: int
    var lastWouldRestart: map<Key, int>

    constructor (c: Cluster, g: G.Gate, timeout: int, requeueAfter: int)
      ensures cluster == c && gate == g && this.timeout == timeout && this.requeueAfter == requeueAfter
      ensures lastWouldRestart == map[]
    {
      cluster := c;
      gate := g;
      this.timeout := timeout;
      this.requeueAfter := requeueAfter;
      lastWouldRestart := map[];
    }

    ghost function At(now: int): World
      reads this, cluster, gate
    {
      World(now, gate.cap, timeout, cluster.encoding, cluster.policies, cluster.workloads, gate.inflight,
            lastWouldRestart)
    }

    /** The status object holds what the policy stores. */
    ghost predicate Loaded(k: Key, st: PolicyStatus)
      reads cluster, st
    {
      k in cluster.policies && cluster.policies[k].status == st.View()
    }

    method Reconcile(k: Key, now: int, i: Inputs) returns (exit: Exit, wait: Option<int>, ghost effects: seq<Effect>)
      modifies this, cluster, gate
      ensures Step(At(now), effects, exit) == Control.Reconcile(old(At(now)), k, i)
      ensures ComesBack(exit, wait, now, i.cfg.windows, requeueAfter)
    {
      hide Control.Finalize, Control.Resolve;
      if k !in cluster.policies {
        return NoPolicy, None, [];
      }
      var policy := cluster.policies[k];
      if policy.deleting {
        exit, wait, effects := Finalize(k, now, i);
        return;
      }
      if !policy.finalizer {
        cluster.AddFinalizer(k, i.finalizerReply);
        return if i.finalizerReply.Done? then FinalizerAdded else NotDone(i.finalizerReply), None, [];
      }
      var st := new PolicyStatus(policy.status);
      if st.dryRun != i.cfg.dryRun {
        st.dryRun := i.cfg.dryRun;
        cluster.Persist(k, st, i.modeReply);
        if !i.modeReply.Done? {
          return NotDone(i.modeReply), None, [];
        }
      }
      exit, wait, effects := Resolve(k, now, i, st);
    }

    method Finalize(k: Key, now: int, i: Inputs) returns (exit: Exit, wait: Option<int>, ghost effects: seq<Effect>)
      requires k in cluster.policies
      modifies this, cluster, gate
      ensures Step(At(now), effects, exit) == Control.Finalize(old(At(now)), k, i)
      ensures ComesBack(exit, wait, now, i.cfg.windows, requeueAfter)
    {
      if !cluster.policies[k].finalizer {
        return Terminating, None, [];
      }
      var held := gate.Holds(k);
      if held {
        gate.Release(k);
      }
      cluster.RemoveFinalizer(k, i.finalizerReply);
      return if i.finalizerReply.Done? then Finalized else NotDone(i.finalizerReply), None, [];
    }

    method Resolve(k: Key, now: int, i: Inputs, st: PolicyStatus)
        returns (exit: Exit, wait: Option<int>, ghost effects: seq<Effect>)
      requires Loaded(k, st)
      modifies this, cluster, gate, st
      ensures Step(At(now), effects, exit) == Control.Resolve(old(At(now)), k, i)
      ensures ComesBack(exit, wait, now, i.cfg.windows, requeueAfter)
    {
      hide Control.Settle;
      if i.fetchFails {
        return Errored, None, [];
      }
      if k !in cluster.workloads {
        return WorkloadMissing, Some(requeueAfter), [];
      }
      var prevUID := st.workloadUID;
      ghost var reset := Recreated(st.View(), cluster.workloads[k].uid);
      st.AdoptWorkload(cluster.workloads[k].uid);
      effects := [];
      if prevUID != st.workloadUID {
        cluster.Persist(k, st, i.adoptReply);
        effects := if Takes(i.adoptReply) && reset then [Reset(k)] else [];
        if !i.adoptReply.Done? {
          return NotDone(i.adoptReply), None, effects;
        }
      }
      ghost var rest;
      exit, wait, rest := Settle(k, now, i, st);
      effects := effects + rest;
    }

    method Settle(k: Key, now: int, i: Inputs, st: PolicyStatus)
        returns (exit: Exit, wait: Option<int>, ghost effects: seq<Effect>)
      requires Loaded(k, st) && k in cluster.workloads
      modifies this, cluster, gate, st
      ensures Step(At(now), effects, exit) == Control.Settle(old(At(now)), k, i)
      ensures ComesBack(exit, wait, now, i.cfg.windows, requeueAfter)
    {
      hide Control.Admit, Completed, Recomputed, FirstAllowed, AllWellFormed;
      var live := cluster.workloads[k];
      if live.onDelete {
        return NotAutoRestartable, None, [];
      }
      var held := gate.Holds(k);
      if !live.settled {
        if held {
          return Polling, Some(requeueAfter), [];
        }
        if st.inFlight.Some? && st.inFlight.value.dispatchedVersion == live.Version(cluster.encoding.hash) {
          var _ := gate.TryAcquire(k, st.inFlight.value.dispatchedAt);
          return Resumed, Some(requeueAfter), [];
        }
        return ForeignRollout, None, [];
      }
      if held {
        gate.Release(k);
        if st.inFlight.None? {
          return SlotFreed, None, [];
        }
        var outcome := Outcome.Settled;
        if st.inFlight.value.dispatchedVersion != live.Version(cluster.encoding.hash) {
          outcome := Superseded;
        }
        st.CompleteInFlight(now, outcome);
        st.RecomputeObservability(now, i.cfg.limits);
        cluster.Persist(k, st, i.closeReply);
        effects := if Takes(i.closeReply) then [Closed(k, now, outcome)] else [];
        return if i.closeReply.Done? then SlotFreed else if Crashes(i.closeReply) then Crashed else CloseErrored,
               None, effects;
      }
      exit, wait, effects := Admit(k, now, i, st);
    }

    method Admit(k: Key, now: int, i: Inputs, st: PolicyStatus)
        returns (exit: Exit, wait: Option<int>, ghost effects: seq<Effect>)
      requires Loaded(k, st) && k in cluster.workloads
      modifies this, cluster, gate, st
      ensures Step(At(now), effects, exit) == Control.Admit(old(At(now)), k, i)
      ensures ComesBack(exit, wait, now, i.cfg.windows, requeueAfter)
    {
      hide Control.Recheck, FirstAllowed, Allowed, EarliestOpening, AllWellFormed, FirstBreach;
      if i.podsFail {
        return Errored, None, [];
      }
      var finding := FindBreach(i.pods, i.cfg.grace, now);
      if finding.Unreadable? {
        return Errored, None, [];
      }
      if finding.Nothing? {
        return NoLeak, None, [];
      }
      if InCooldown(st.Counters(), now, i.cfg.limits.cooldown) {
        return CoolingDown, None, [];
      }
      var version := cluster.workloads[k].Version(cluster.encoding.hash);
      if BreakerTripped(st.Counters(), version, now, i.cfg.limits) {
        return BreakerOpen, None, [];
      }
      var allowed := IsAllowed(i.cfg.windows, now);
      if !allowed {
        var opening := NextOpening(i.cfg.windows, now);
        var d := if opening.Some? then opening.value - now else 0;
        if d <= 0 {
          d := requeueAfter;
        }
        return Deferred, Some(d), [];
      }
      var attempt := gate.TryAcquire(k, now);
      match attempt {
        case AlreadyInFlight => return AlreadyHeld, None, [];
        case CapReached => return CapFull, Some(requeueAfter), [];
        case Acquired => exit, wait, effects := Recheck(k, now, i, st, finding.cause);
      }
    }

    method Recheck(k: Key, now: int, i: Inputs, st: PolicyStatus, cause: Cause)
        returns (exit: Exit, wait: Option<int>, ghost effects: seq<Effect>)
      requires Loaded(k, st) && k in cluster.workloads
      modifies this, cluster, gate, st
      ensures Step(At(now), effects, exit) == Control.Recheck(old(At(now)), k, i, cause)
      ensures ComesBack(exit, wait, now, i.cfg.windows, requeueAfter)
    {
      hide Control.Commit, FirstAllowed, AllWellFormed;
      var version := cluster.workloads[k].Version(cluster.encoding.hash);
      cluster.Interfere(k, i.interim);
      if i.rereadFails || k !in cluster.workloads {
        gate.Release(k);
        return RereadFailed, None, [];
      }
      if cluster.workloads[k].Version(cluster.encoding.hash) != version {
        gate.Release(k);
        return Moved, None, [];
      }
      if i.cfg.dryRun {
        gate.Release(k);
        if k in lastWouldRestart && now - lastWouldRestart[k] < i.cfg.limits.cooldown {
          return WouldRestartMuted, None, [];
        }
        lastWouldRestart := lastWouldRestart[k := now];
        return WouldRestart, None, [];
      }
      exit, wait, effects := Commit(k, now, i, st, version, cause);
    }

    method Commit(k: Key, now: int, i: Inputs, st: PolicyStatus, version: string, cause: Cause)
        returns (exit: Exit, wait: Option<int>, ghost effects: seq<Effect>)
      requires Loaded(k, st) && k in cluster.workloads
      modifies this, cluster, gate, st
      ensures Step(At(now), effects, exit) == Control.Commit(old(At(now)), k, i, version, cause)
      ensures ComesBack(exit, wait, now, i.cfg.windows, requeueAfter)
    {
      hide Applied, Recomputed, FirstAllowed, AllWellFormed;
      st.ApplyRestart(version, cause, now, i.cfg.limits.window);
      st.RecomputeObservability(now, i.cfg.limits);
      cluster.Persist(k, st, i.countReply);
      effects := if Takes(i.countReply) then [Counted(k, NewRecord(version, cause, now), i.cfg.limits)] else [];
      if !i.countReply.Done? {
        gate.Release(k);
        return NotDone(i.countReply), None, effects;
      }
      cluster.Dispatch(k, now, i.dispatchReply);
      effects := effects + if Takes(i.dispatchReply) then [Stamped(k)] else [];
      if !i.dispatchReply.Done? {
        gate.Release(k);
        return NotDone(i.dispatchReply), None, effects;
      }
      return Dispatched, Some(requeueAfter), effects;
    }
  }

  class Expirer {
    const cluster: Cluster
    const gate: G.Gate
    const timeout: int

    constructor (c: Cluster, g: G.Gate, timeout: int)
      ensures cluster == c && gate == g && this.timeout == timeout
    {
      cluster := c;
      gate := g;
      this.timeout := timeout;
    }

    /** The world with the reconciler's own memory, which the expirer does not see. */
    ghost function At(now: int, muted: map<Key, int>): World
      reads cluster, gate
    {
      World(now, gate.cap, timeout, cluster.encoding, cluster.policies, cluster.workloads, gate.inflight, muted)
    }

    method TimedOutOutcome(st: PolicyStatus, now: int) returns (outcome: Option<Outcome>)
      requires st.inFlight.Some?
      ensures outcome == TimedOutAt(st.inFlight.value, now, timeout)
    {
      if now - st.inFlight.value.dispatchedAt >= timeout {
        return Some(TimedOut);
      }
      return None;
    }

    method ClassifyInFlight(k: Key, st: PolicyStatus, now: int, unreachable: bool, ghost muted: map<Key, int>)
        returns (outcome: Option<Outcome>)
      requires st.inFlight.Some? && k in cluster.policies && cluster.policies[k].status == st.View()
      ensures outcome == Classify(At(now, muted), k, unreachable)
    {
      if unreachable {
        outcome := TimedOutOutcome(st, now);
        return;
      }
      if k !in cluster.workloads {
        return Some(Superseded);
      }
      var live := cluster.workloads[k];
      if live.uid != st.workloadUID {
        return Some(Superseded);
      }
      var dispatched := st.inFlight.value.dispatchedVersion;
      var version := live.Version(cluster.encoding.hash);
      if dispatched != "" && version != "" && version != dispatched {
        return Some(Superseded);
      }
      outcome := TimedOutOutcome(st, now);
    }

    /** Closes the rollout of one listed policy, if it no longer warrants a slot. */
    method SweepPolicy(k: Key, now: int, f: Faults, ghost muted: map<Key, int>)
        returns (keys: seq<Key>, reply: Reply, ghost effects: seq<Effect>)
      modifies cluster
      ensures Sweep(At(now, muted), effects, keys, reply) == SweepOne(old(At(now, muted)), k, f)
    {
      hide Classify, Completed;
      if k !in cluster.policies || cluster.policies[k].status.inFlight.None? {
        return [], Done, [];
      }
      var st := new PolicyStatus(cluster.policies[k].status);
      var outcome := ClassifyInFlight(k, st, now, k in f.unreachable, muted);
      if outcome.None? {
        return [], Done, [];
      }
      st.CompleteInFlight(now, outcome.value);
      reply := ReplyFor(f, k);
      cluster.Persist(k, st, reply);
      return [k], reply, if Takes(reply) then [Closed(k, now, outcome.value)] else [];
    }

    /** The keys to release are complete even if a write ends the sweep early. */
    method SweepInFlight(now: int, f: Faults, ghost muted: map<Key, int>)
        returns (keys: seq<Key>, reply: Reply, ghost effects: seq<Effect>)
      modifies cluster
      ensures Sweep(At(now, muted), effects, keys, reply) == SweepAll(old(At(now, muted)), f.order, f)
    {
      hide SweepOne, SweepAll;
      ghost var w := At(now, muted);
      keys, reply, effects := [], Done, [];
      SweepNothing(w, f);
      for n := 0 to |f.order|
        invariant reply == Done
        invariant Sweep(At(now, muted), effects, keys, Done) == SweepAll(w, f.order[..n], f)
      {
        SweepStops(w, f.order, n, f);
        var more;
        ghost var closed;
        more, reply, closed := SweepPolicy(f.order[n], now, f, muted);
        keys, effects := keys + more, effects + closed;
        if !reply.Done? {
          return;
        }
      }
      assert f.order[..|f.order|] == f.order;
    }

    /** One tick: expire old slots, sweep the policies, then release the slots of what the sweep closed. */
    method Tick(now: int, f: Faults, ghost muted: map<Key, int>) returns (exit: Exit, ghost effects: seq<Effect>)
      modifies cluster, gate
      ensures Step(At(now, muted), effects, exit) == ExpirerPass(old(At(now, muted)), f)
    {
      hide SweepAll;
      ghost var w := At(now, muted);
      var expired := gate.ExpireOlderThan(now, timeout);
      assert At(now, muted) == w.(gate := G.Unexpired(w.gate, now, timeout));
      if f.listFails {
        return Passed, [];
      }
      var keys, reply;
      keys, reply, effects := SweepInFlight(now, f, muted);
      if Crashes(reply) {
        return Crashed, effects;
      }
      ghost var held, swept := gate.inflight, At(now, muted);
      for n := 0 to |keys|
        invariant gate.inflight == held - set k | k in keys[..n]
        modifies gate
      {
        gate.Release(keys[n]);
        assert keys[..n + 1] == keys[..n] + [keys[n]];
      }
      assert keys[..|keys|] == keys;
      assert At(now, muted) == swept.(gate := held - set k | k in keys);
      return Passed, effects;
    }
  }

  lemma SweepNothing(w: World, f: Faults)
    ensures SweepAll(w, f.order[..0], f) == Sweep(w, [], [], Done)
  {
  }

  /** What the sweep does at policy n, and that it goes no further once a write is not acknowledged. */
  lemma {:induction false} SweepStops(w: World, order: seq<Key>, n: nat, f: Faults)
    requires n < |order| && SweepAll(w, order[..n], f).reply.Done?
    ensures var s, t := SweepAll(w, order[..n], f), SweepOne(SweepAll(w, order[..n], f).world, order[n], f);
            && SweepAll(w, order[..n + 1], f) == Sweep(t.world, s.effects + t.effects, s.keys + t.keys, t.reply)
            && (!t.reply.Done? ==> SweepAll(w, order, f) == SweepAll(w, order[..n + 1], f))
    decreases |order|
  {
    hide SweepOne;
    assert order[..n + 1][..n] == order[..n];
    if n + 1 < |order| {
      var shorter := order[..|order| - 1];
      assert shorter[..n] == order[..n] && shorter[..n + 1] == order[..n + 1];
      SweepStops(w, shorter, n, f);
    } else {
      assert order[..n + 1] == order;
    }
  }
}
