/**
  What an observer records of a run: per policy, the unbounded log behind its status; per workload, the
  rollout the current leader dispatched and nobody has seen end. Neither is read by the controller.
 */
module Ledger {
  import opened Wrappers
  import opened PolicyTypes
  import opened Breaker
  import opened Trail
  import opened Gate
  import opened Control

  /** The log of one policy; epoch counts how often its status started over. */
  datatype Log = Log(epoch: nat, entries: Trail)

  /** A rollout of the workload object the policy has adopted, from its dispatch or its resumption on. */
  datatype OwnRollout = OwnRollout(at: int, uid: string, version: string)

  datatype State = State(world: World, logs: map<Key, Log>, active: map<Key, OwnRollout>)

  function LogOf(logs: map<Key, Log>, k: Key): Log { if k in logs then logs[k] else Log(0, []) }

  // ---- Recording effects --------------------------------------------------------------

  function Note(t: Log, e: Effect): Log {
    match e
    case Reset(_) => Log(t.epoch + 1, [])
    case Counted(_, rec, limits) => t.(entries := Extended(t.entries, rec, limits))
    case Closed(_, at, outcome) => t.(entries := ClosedLast(t.entries, at, outcome))
    case Stamped(_) => t.(entries := StampedLast(t.entries))
  }

  /** The log of policy k after these effects; those of other policies do not touch it. */
  function NoteAll(t: Log, effects: seq<Effect>, k: Key): Log {
    if effects == [] then t
    else
      var before, e := NoteAll(t, effects[..|effects| - 1], k), effects[|effects| - 1];
      if e.key == k then Note(before, e) else before
  }

  lemma {:induction false} NoteConcat(t: Log, a: seq<Effect>, b: seq<Effect>, k: Key)
    ensures NoteAll(t, a + b, k) == NoteAll(NoteAll(t, a, k), b, k)
  {
    if b == [] {
      assert a + b == a;
    } else {
      assert (a + b)[..|a + b| - 1] == a + b[..|b| - 1];
      NoteConcat(t, a, b[..|b| - 1], k);
    }
  }

  lemma {:induction false} NoteNone(t: Log, effects: seq<Effect>, k: Key)
    requires forall e :: e in effects ==> e.key != k
    ensures NoteAll(t, effects, k) == t
  {
    if effects != [] { NoteNone(t, effects[..|effects| - 1], k); }
  }

  function Recorded(logs: map<Key, Log>, effects: seq<Effect>): map<Key, Log> {
    var touched := set e | e in effects :: e.key;
    map k | k in logs.Keys + touched :: NoteAll(LogOf(logs, k), effects, k)
  }

  lemma RecordedAt(logs: map<Key, Log>, effects: seq<Effect>, k: Key)
    ensures LogOf(Recorded(logs, effects), k) == NoteAll(LogOf(logs, k), effects, k)
  {
    if k !in Recorded(logs, effects) { NoteNone(LogOf(logs, k), effects, k); }
  }

  // ---- Tracking rollouts ----------------------------------------------------------------

  /** The reconcile found the rollout settled, whether or not it could record that. */
  predicate SawSettled(exit: Exit) { exit.SlotFreed? || exit.CloseErrored? }

  /** Nothing observable has ended rollout r of k in this step. */
  predicate StillRuns(k: Key, r: OwnRollout, e: Event, s: Step) {
    && k in s.world.policies && !s.world.policies[k].deleting
    && k in s.world.workloads && s.world.workloads[k].uid == r.uid && s.world.Version(k) == r.version
    && !(e.Reconciles? && e.key == k && SawSettled(s.exit))
    && !(e.Expires? && s.world.now - r.at >= s.world.timeout)
  }

  /** An acknowledged dispatch onto the object the policy has adopted, or a rollout of it whose slot is taken back. */
  predicate Starts(k: Key, e: Event, s: Step) {
    && e.Reconciles? && e.key == k && (s.exit.Dispatched? || s.exit.Resumed?)
    && k in s.world.gate && k in s.world.policies && k in s.world.workloads
    && s.world.workloads[k].uid == s.world.policies[k].status.workloadUID
  }

  /** A new leader term starts with no rollout of its own; it may resume those of the last one. */
  function Tracked(active: map<Key, OwnRollout>, e: Event, s: Step): map<Key, OwnRollout> {
    if s.exit.Crashed? then map[]
    else
      var running := map k | k in active && StillRuns(k, active[k], e, s) :: active[k];
      if e.Reconciles? && Starts(e.key, e, s)
      then running[e.key := OwnRollout(s.world.gate[e.key], s.world.workloads[e.key].uid, s.world.Version(e.key))]
      else running
  }

  ghost function Next(s: State, e: Event): State {
    var step := Exec(s.world, e);
    State(step.world, Recorded(s.logs, step.effects), Tracked(s.active, e, step))
  }

  ghost function Run(s: State, events: seq<Event>): State {
    if events == [] then s else Next(Run(s, events[..|events| - 1]), events[|events| - 1])
  }

  /** A cluster before the controller has done anything: policies are new, the gate is empty. */
  ghost predicate Initial(s: State) {
    && (forall k :: k in s.world.policies ==> s.world.policies[k].status == EMPTY_STATUS)
    && s.world.gate == map[] && s.logs == map[] && s.active == map[]
  }

  // ---- The invariant ------------------------------------------------------------------------

  /** The status of k is the bounded summary of its log. */
  ghost predicate StatusOk(w: World, k: Key, t: Log) {
    k in w.policies ==> Summarizes(w.policies[k].status, t.entries, w.now)
  }

  /** A held slot and a set marker carry the same time. */
  ghost predicate SlotOk(w: World, k: Key) {
    k in w.gate && k in w.policies && w.policies[k].status.inFlight.Some? ==>
      w.gate[k] == w.policies[k].status.inFlight.value.dispatchedAt
  }

  /** A tracked rollout holds its slot, and its policy's marker describes it. */
  ghost predicate RolloutOk(w: World, k: Key, r: OwnRollout) {
    && k in w.gate && w.gate[k] == r.at
    && k in w.policies && !w.policies[k].deleting
    && k in w.workloads && w.workloads[k].uid == r.uid && w.Version(k) == r.version
    && w.policies[k].status.workloadUID == r.uid
    && w.policies[k].status.inFlight == Some(InFlight(r.at, r.version))
  }

  ghost predicate Invariant(s: State) {
    && WithinCap(s.world.gate, s.world.cap)
    && (forall k :: StatusOk(s.world, k, LogOf(s.logs, k)))
    && (forall k :: SlotOk(s.world, k))
    && (forall k :: k in s.active ==> RolloutOk(s.world, k, s.active[k]))
  }

  // ---- One reconcile, stage by stage ------------------------------------------------------------

  /** The step leaves the status of k a summary of its log. */
  ghost predicate Keeps(s: Step, k: Key, t: Log) { StatusOk(s.world, k, NoteAll(t, s.effects, k)) }

  lemma OneEffect(t: Log, e: Effect)
    ensures NoteAll(t, [e], e.key) == Note(t, e)
  {
  }

  lemma CloseSettledKeeps(w: World, k: Key, i: Inputs, t: Log)
    requires k in w.policies && k in w.workloads && w.policies[k].status.inFlight.Some?
    requires StatusOk(w, k, t)
    ensures Keeps(CloseSettled(w, k, i), k, t)
  {
    hide Summarizes, Completed, Recomputed;
    var st, live := w.policies[k].status, w.workloads[k];
    var outcome := if st.inFlight.value.dispatchedVersion == w.Version(k) then Outcome.Settled else Superseded;
    OneEffect(t, Closed(k, w.now, outcome));
    CompleteClosesLast(st, t.entries, w.now, outcome, w.now);
    RecomputeKeepsSummary(Completed(st, w.now, outcome), ClosedLast(t.entries, w.now, outcome), w.now, i.cfg.limits);
  }

  lemma CommitKeeps(w: World, k: Key, i: Inputs, version: string, cause: Cause, t: Log)
    requires k in w.policies && k in w.workloads && StatusOk(w, k, t)
    requires Admitted(w.policies[k].status.breaker, version, w.now, i.cfg.limits)
    ensures Keeps(Commit(w, k, i, version, cause), k, t)
  {
    hide Summarizes, Applied, Recomputed, Admitted;
    var st, l := w.policies[k].status, i.cfg.limits;
    var counted := Effect.Counted(k, NewRecord(version, cause, w.now), l);
    var t1 := Note(t, counted);
    OneEffect(t, counted);
    OneEffect(t1, Effect.Stamped(k));
    NoteConcat(t, [counted], [Effect.Stamped(k)], k);
    assert [counted] + [] == [counted];
    ApplyExtendsLog(st, t.entries, version, cause, w.now, l);
    StampKeepsSummary(Recomputed(Applied(st, version, cause, w.now, l.window), w.now, l), t1.entries, w.now);
  }

  lemma AdmitKeeps(w: World, k: Key, i: Inputs, t: Log)
    requires k in w.policies && k in w.workloads && StatusOk(w, k, t)
    ensures Keeps(Admit(w, k, i), k, t)
  {
    hide Summarizes, Commit;
    if FirstBreachCause(w, k, i).Some? {
      var cause := FirstBreachCause(w, k, i).value;
      var w1 := Changed(w.(gate := Tried(w.gate, w.cap, k, w.now)), k, i.interim);
      if k in w1.workloads && Admitted(w.policies[k].status.breaker, w.Version(k), w.now, i.cfg.limits) {
        CommitKeeps(w1, k, i, w.Version(k), cause, t);
      }
    }
  }

  ghost function FirstBreachCause(w: World, k: Key, i: Inputs): Option<Cause> {
    var f := Scan.FirstBreach(i.pods, i.cfg.grace, w.now);
    if f.Breach? then Some(f.cause) else None
  }

  lemma SettleKeeps(w: World, k: Key, i: Inputs, t: Log)
    requires k in w.policies && k in w.workloads && StatusOk(w, k, t)
    ensures Keeps(Settle(w, k, i), k, t)
  {
    hide Summarizes, CloseSettled, Admit;
    AdmitKeeps(w, k, i, t);
    if w.policies[k].status.inFlight.Some? { CloseSettledKeeps(Released(w, k), k, i, t); }
  }

  lemma ResolveKeeps(w: World, k: Key, i: Inputs, t: Log)
    requires k in w.policies && StatusOk(w, k, t)
    ensures Keeps(Resolve(w, k, i), k, t)
  {
    hide Summarizes, Settle;
    if k in w.workloads {
      var st, uid := w.policies[k].status, w.workloads[k].uid;
      var effects := if Takes(i.adoptReply) && Recreated(st, uid) then [Reset(k)] else [];
      var w' := Written(w, k, Adopted(st, uid), i.adoptReply);
      AdoptRestartsLog(st, t.entries, uid, w.now);
      OneEffect(t, Reset(k));
      SettleKeeps(w, k, i, t);
      if i.adoptReply.Done? && st.workloadUID != uid {
        SettleKeeps(w', k, i, NoteAll(t, effects, k));
        NoteConcat(t, effects, Settle(w', k, i).effects, k);
      }
    }
  }

  lemma ReconcileKeeps(w: World, k: Key, i: Inputs, t: Log)
    requires StatusOk(w, k, t)
    ensures Keeps(Reconcile(w, k, i), k, t)
  {
    hide Summarizes, Resolve;
    if k in w.policies {
      var p := w.policies[k];
      ResolveKeeps(w, k, i, t);
      var st := p.status.(dryRun := i.cfg.dryRun);
      assert Summarizes(st, t.entries, w.now) by { ModeKeepsSummary(p.status, i.cfg.dryRun, t.entries, w.now); }
      if i.modeReply.Done? { ResolveKeeps(Written(w, k, st, i.modeReply), k, i, t); }
    }
  }

  lemma ModeKeepsSummary(st: Status, dryRun: bool, t: Trail, now: int)
    requires Summarizes(st, t, now)
    ensures Summarizes(st.(dryRun := dryRun), t, now)
  {
  }
}
