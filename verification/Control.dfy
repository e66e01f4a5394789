/**
  The restart control loop as a transition system: what one reconcile, one expirer pass and each
  outside event does to the durable policies, the live workloads and the leader's memory.
  Each step is atomic, except that any external effect may fail, be lost, or be the last before a crash.
 */
module Control {
  import opened Wrappers
  import opened PolicyTypes
  import opened Breaker
  import opened Gate
  import opened Workload
  import opened Scan
  import opened Maintenance

  /** How one write to the API server ends: acknowledged, refused, or done without an answer; or the process dies. */
  datatype Reply = Done | Refused | Lost | CrashBefore | CrashAfter

  /** The write took effect. */
  predicate Takes(r: Reply) { r.Done? || r.Lost? || r.CrashAfter? }

  predicate Crashes(r: Reply) { r.CrashBefore? || r.CrashAfter? }

  datatype Policy = Policy(status: Status, deleting: bool, finalizer: bool)

  /** Policies and workloads are durable; gate and wouldRestart live in the leader's memory. */
  datatype World = World(
    now: int,
    cap: int,
    timeout: int,
    encoding: Encoding,
    policies: map<Key, Policy>,
    workloads: map<Key, Live>,
    gate: Slots,
    wouldRestart: map<Key, int>)
  {
    /** The template version of workload k. */
    function Version(k: Key): string
      requires k in workloads
    {
      workloads[k].Version(encoding.hash)
    }
  }

  /** The resolved settings of a policy, as read by one reconcile. */
  datatype Config = Config(limits: Limits, grace: int, dryRun: bool, windows: Windows)

  /** What somebody else does to a workload. */
  datatype Change = Keep | Replace(live: Live) | Remove

  /** Everything a reconcile does not decide itself. */
  datatype Inputs = Inputs(
    cfg: Config,
    fetchFails: bool,
    podsFail: bool,
    pods: seq<Pod>,
    interim: Change,
    rereadFails: bool,
    finalizerReply: Reply,
    modeReply: Reply,
    adoptReply: Reply,
    closeReply: Reply,
    countReply: Reply,
    dispatchReply: Reply)

  /** The durable effects of a step, in order. */
  datatype Effect =
    | Reset(key: Key)
    | Counted(key: Key, rec: Record, limits: Limits)
    | Closed(key: Key, at: int, outcome: Outcome)
    | Stamped(key: Key)

  datatype Exit =
    | NoPolicy | Terminating | Finalized | FinalizerAdded | Errored | Crashed
    | WorkloadMissing | NotAutoRestartable | Polling | Resumed | ForeignRollout
    | SlotFreed | NoLeak | CoolingDown | BreakerOpen | Deferred | AlreadyHeld | CapFull
    | CloseErrored | RereadFailed | Moved | WouldRestart | WouldRestartMuted | Dispatched | Passed

  datatype Step = Step(world: World, effects: seq<Effect>, exit: Exit)

  // ---- Building blocks --------------------------------------------------------------

  function SetPolicy(w: World, k: Key, p: Policy): World { w.(policies := w.policies[k := p]) }

  /** A status write: it takes effect or not, whatever the caller is told. */
  function Written(w: World, k: Key, st: Status, r: Reply): World
    requires k in w.policies
  {
    if Takes(r) then SetPolicy(w, k, w.policies[k].(status := st)) else w
  }

  function Released(w: World, k: Key): World { w.(gate := w.gate - {k}) }

  function Changed(w: World, k: Key, c: Change): World {
    match c
    case Keep => w
    case Replace(live) => w.(workloads := w.workloads[k := live])
    case Remove => w.(workloads := w.workloads - {k})
  }

  /** A step that ends at a write which was not acknowledged. */
  function Halted(w: World, effects: seq<Effect>, r: Reply): Step {
    Step(w, effects, if Crashes(r) then Crashed else Errored)
  }

  function After(effects: seq<Effect>, s: Step): Step { s.(effects := effects + s.effects) }

  // ---- One reconcile ------------------------------------------------------------------

  ghost function Reconcile(w: World, k: Key, i: Inputs): Step {
    if k !in w.policies then Step(w, [], NoPolicy)
    else
      var p := w.policies[k];
      if p.deleting then Finalize(w, k, i)
      else if !p.finalizer then
        var w' := if Takes(i.finalizerReply) then SetPolicy(w, k, p.(finalizer := true)) else w;
        if i.finalizerReply.Done? then Step(w', [], FinalizerAdded) else Halted(w', [], i.finalizerReply)
      else if p.status.dryRun != i.cfg.dryRun then
        var w' := Written(w, k, p.status.(dryRun := i.cfg.dryRun), i.modeReply);
        if i.modeReply.Done? then Resolve(w', k, i) else Halted(w', [], i.modeReply)
      else Resolve(w, k, i)
  }

  /** Deletion: the slot is released first, then the finalizer is removed and the policy disappears. */
  function Finalize(w: World, k: Key, i: Inputs): Step
    requires k in w.policies
  {
    if !w.policies[k].finalizer then Step(w, [], Terminating)
    else
      var w1 := Released(w, k);
      var w2 := if Takes(i.finalizerReply) then w1.(policies := w1.policies - {k}) else w1;
      if i.finalizerReply.Done? then Step(w2, [], Finalized) else Halted(w2, [], i.finalizerReply)
  }

  /** Read the workload and adopt its identity, resetting stale bookkeeping. */
  ghost function Resolve(w: World, k: Key, i: Inputs): Step
    requires k in w.policies
  {
    if i.fetchFails then Step(w, [], Errored)
    else if k !in w.workloads then Step(w, [], WorkloadMissing)
    else
      var st, live := w.policies[k].status, w.workloads[k];
      if st.workloadUID == live.uid then Settle(w, k, i)
      else
        var w' := Written(w, k, Adopted(st, live.uid), i.adoptReply);
        var effects := if Takes(i.adoptReply) && Recreated(st, live.uid) then [Reset(k)] else [];
        if i.adoptReply.Done? then After(effects, Settle(w', k, i)) else Halted(w', effects, i.adoptReply)
  }

  /** Poll a rollout in progress, or close one that settled, before looking for a new breach. */
  ghost function Settle(w: World, k: Key, i: Inputs): Step
    requires k in w.policies && k in w.workloads
  {
    var st, live := w.policies[k].status, w.workloads[k];
    if live.onDelete then Step(w, [], NotAutoRestartable)
    else if !live.settled then
      if k in w.gate then Step(w, [], Polling)
      else if st.inFlight.Some? && st.inFlight.value.dispatchedVersion == w.Version(k) then
        Step(w.(gate := Tried(w.gate, w.cap, k, st.inFlight.value.dispatchedAt)), [], Resumed)
      else Step(w, [], ForeignRollout)
    else if k in w.gate then
      if st.inFlight.None? then Step(Released(w, k), [], SlotFreed)
      else CloseSettled(Released(w, k), k, i)
    else Admit(w, k, i)
  }

  function CloseSettled(w: World, k: Key, i: Inputs): Step
    requires k in w.policies && k in w.workloads && w.policies[k].status.inFlight.Some?
  {
    var st := w.policies[k].status;
    var ours := st.inFlight.value.dispatchedVersion == w.Version(k);
    var outcome := if ours then Outcome.Settled else Superseded;
    var w' := Written(w, k, Recomputed(Completed(st, w.now, outcome), w.now, i.cfg.limits), i.closeReply);
    var effects := if Takes(i.closeReply) then [Closed(k, w.now, outcome)] else [];
    Step(w', effects, if i.closeReply.Done? then SlotFreed else if Crashes(i.closeReply) then Crashed else CloseErrored)
  }

  /** Detection, then the gates in order: cooldown, breaker, maintenance window, concurrency. */
  ghost function Admit(w: World, k: Key, i: Inputs): Step
    requires k in w.policies && k in w.workloads
  {
    var b, live := w.policies[k].status.breaker, w.workloads[k];
    if i.podsFail then Step(w, [], Errored)
    else
      match FirstBreach(i.pods, i.cfg.grace, w.now)
      case Unreadable => Step(w, [], Errored)
      case Nothing => Step(w, [], NoLeak)
      case Breach(cause) =>
        if InCooldown(b, w.now, i.cfg.limits.cooldown) then Step(w, [], CoolingDown)
        else if BreakerTripped(b, w.Version(k), w.now, i.cfg.limits) then Step(w, [], BreakerOpen)
        else if !Allowed(i.cfg.windows, w.now) then Step(w, [], Deferred)
        else
          match TryOutcome(w.gate, w.cap, k)
          case AlreadyInFlight => Step(w, [], AlreadyHeld)
          case CapReached => Step(w, [], CapFull)
          case Acquired => Recheck(w.(gate := Tried(w.gate, w.cap, k, w.now)), k, i, cause)
  }

  /** Read the workload again and give way to a change that landed since; then act, or only say so in dry-run. */
  function Recheck(w: World, k: Key, i: Inputs, cause: Cause): Step
    requires k in w.policies && k in w.workloads
  {
    var version := w.Version(k);
    var w' := Changed(w, k, i.interim);
    if i.rereadFails || k !in w'.workloads then Step(Released(w', k), [], RereadFailed)
    else if w'.Version(k) != version then Step(Released(w', k), [], Moved)
    else if i.cfg.dryRun then DryRun(Released(w', k), k, i)
    else Commit(w', k, i, version, cause)
  }

  function DryRun(w: World, k: Key, i: Inputs): Step {
    if k in w.wouldRestart && w.now - w.wouldRestart[k] < i.cfg.limits.cooldown
    then Step(w, [], WouldRestartMuted)
    else Step(w.(wouldRestart := w.wouldRestart[k := w.now]), [], WouldRestart)
  }

  /** Persist the restart first, then dispatch it; the slot is kept only if both are acknowledged. */
  function Commit(w: World, k: Key, i: Inputs, version: string, cause: Cause): Step
    requires k in w.policies && k in w.workloads
  {
    var l := i.cfg.limits;
    var st := Recomputed(Applied(w.policies[k].status, version, cause, w.now, l.window), w.now, l);
    var w1 := Written(w, k, st, i.countReply);
    var counted := if Takes(i.countReply) then [Counted(k, NewRecord(version, cause, w.now), l)] else [];
    if !i.countReply.Done? then Halted(Released(w1, k), counted, i.countReply)
    else
      var w2 := if Takes(i.dispatchReply)
                then w1.(workloads := w1.workloads[k := w1.workloads[k].Patched(w.encoding.stamp(w.now))])
                else w1;
      var effects := counted + if Takes(i.dispatchReply) then [Stamped(k)] else [];
      if i.dispatchReply.Done? then Step(w2, effects, Dispatched)
      else Halted(Released(w2, k), effects, i.dispatchReply)
  }

  // ---- One expirer pass ---------------------------------------------------------------

  /** The order policies are listed in, and what goes wrong during the pass. */
  datatype Faults = Faults(order: seq<Key>, listFails: bool, unreachable: set<Key>, replies: map<Key, Reply>)

  function ReplyFor(f: Faults, k: Key): Reply { if k in f.replies then f.replies[k] else Done }

  function TimedOutAt(m: InFlight, now: int, timeout: int): Option<Outcome> {
    if now - m.dispatchedAt >= timeout then Some(TimedOut) else None
  }

  /** How, if at all, an in-flight rollout is closed by the sweep. */
  function Classify(w: World, k: Key, unreachable: bool): Option<Outcome>
    requires k in w.policies && w.policies[k].status.inFlight.Some?
  {
    var st := w.policies[k].status;
    var m := st.inFlight.value;
    if unreachable then TimedOutAt(m, w.now, w.timeout)
    else if k !in w.workloads then Some(Superseded)
    else if w.workloads[k].uid != st.workloadUID then Some(Superseded)
    else if m.dispatchedVersion != "" && w.Version(k) != "" && w.Version(k) != m.dispatchedVersion
    then Some(Superseded)
    else TimedOutAt(m, w.now, w.timeout)
  }

  /** The result of a sweep: the keys whose slots are to be released, and the last reply. */
  datatype Sweep = Sweep(world: World, effects: seq<Effect>, keys: seq<Key>, reply: Reply)

  /** What one policy of the sweep contributes. */
  function SweepOne(w: World, k: Key, f: Faults): Sweep {
    if k !in w.policies || w.policies[k].status.inFlight.None? then Sweep(w, [], [], Done)
    else
      match Classify(w, k, k in f.unreachable)
      case None => Sweep(w, [], [], Done)
      case Some(outcome) =>
        var r := ReplyFor(f, k);
        Sweep(Written(w, k, Completed(w.policies[k].status, w.now, outcome), r),
              if Takes(r) then [Closed(k, w.now, outcome)] else [],
              [k],
              r)
  }

  /** The sweep over the listed policies, up to the first write that is not acknowledged. */
  function SweepAll(w: World, order: seq<Key>, f: Faults): Sweep {
    if order == [] then Sweep(w, [], [], Done)
    else
      var s := SweepAll(w, order[..|order| - 1], f);
      if !s.reply.Done? then s
      else
        var t := SweepOne(s.world, order[|order| - 1], f);
        Sweep(t.world, s.effects + t.effects, s.keys + t.keys, t.reply)
  }

  function ExpirerPass(w: World, f: Faults): Step {
    var w1 := w.(gate := Unexpired(w.gate, w.now, w.timeout));
    if f.listFails then Step(w1, [], Passed)
    else
      var s := SweepAll(w1, f.order, f);
      if Crashes(s.reply) then Step(s.world, s.effects, Crashed)
      else Step(s.world.(gate := s.world.gate - set k | k in s.keys), s.effects, Passed)
  }

  // ---- Every event ----------------------------------------------------------------------

  datatype Event =
    | Reconciles(key: Key, inputs: Inputs)
    | Expires(faults: Faults)
    | Failover
    | External(key: Key, change: Change)
    | CreatePolicy(key: Key)
    | DeletePolicy(key: Key)
    | Elapse(seconds: nat)

  /** A new leader: durable state stays, memory is gone. */
  function Restarted(w: World): World { w.(gate := map[], wouldRestart := map[]) }

  function AfterCrash(s: Step): Step { if s.exit.Crashed? then s.(world := Restarted(s.world)) else s }

  ghost function Exec(w: World, e: Event): Step {
    match e
    case Reconciles(k, i) => AfterCrash(Reconcile(w, k, i))
    case Expires(f) => AfterCrash(ExpirerPass(w, f))
    case Failover => Step(Restarted(w), [], Crashed)
    case External(k, c) => Step(Changed(w, k, c), [], Passed)
    case CreatePolicy(k) =>
      if k in w.policies then Step(w, [], Passed)
      else Step(SetPolicy(w, k, Policy(EMPTY_STATUS, false, false)), [Reset(k)], Passed)
    case DeletePolicy(k) =>
      if k !in w.policies then Step(w, [], Passed)
      else if w.policies[k].finalizer then Step(SetPolicy(w, k, w.policies[k].(deleting := true)), [], Passed)
      else Step(w.(policies := w.policies - {k}), [], Passed)
    case Elapse(d) => Step(w.(now := w.now + d), [], Passed)
  }
}
