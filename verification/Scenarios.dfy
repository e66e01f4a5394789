/** Concrete runs that show what the program does not promise. */
module Scenarios {
  import opened Wrappers
  import opened PolicyTypes
  import opened Breaker
  import opened Trail
  import opened Gate
  import opened Workload
  import opened Detection
  import opened Scan
  import opened Control
  import opened Ledger
  import opened Runs
  import opened Decisions
  import opened Orphans
  import opened SlotMoves
  import opened Closures

  // ---- One workload, one policy, one leaking container -------------------------------------------

  /** A container over its threshold for the last minute. */
  function LeakyPod(now: int): Pod {
    Pod(true, 3600, OwnedBy(true),
        [Target("app", Settings(Sustained, 80, Some(400), 60, 0), [Sample(now - 60, 500, 0), Sample(now, 500, 0)])])
  }

  const LEAK := Cause("app", 500, 400)

  lemma LeakyPodLeaks(now: int)
    ensures FirstBreach([LeakyPod(now)], 0, now) == Breach(LEAK)
  {
    hide WindowSamples;
    var t := LeakyPod(now).targets[0];
    WindowHolds(t.samples, t.settings, now);
    assert FirstTarget([t], now) == Breach(CauseOf(t, now));
  }

  const LIMITS := Limits(5, 60, 3)

  /** A reconcile that finds the leak, and whose writes end as given. */
  function Ask(now: int, interim: Change, dispatchReply: Reply): Inputs {
    Inputs(Config(LIMITS, 0, false, []), false, false, [LeakyPod(now)], interim, false,
           Done, Done, Done, Done, Done, dispatchReply)
  }

  /** A Deployment of one replica, rolled out. */
  function Deployed(uid: string): Live {
    Live(Deployment, uid, false, Template(None, "image:1"), None, "",
         Progress(1, 1, None, 1, 1, 1, 0, 1, "", "", ""))
  }

  function Cluster(e: Encoding, now: int, st: Status, o: Live): World {
    World(now, 0, 60, e, map["app" := Policy(st, false, true)], map["app" := o], map[], map[])
  }

  /** The status after the restart counted at time 100. */
  function Counted100(e: Encoding): Status {
    var version := Deployed("u1").Version(e.hash);
    Recomputed(Applied(EMPTY_STATUS.(workloadUID := "u1"), version, LEAK, 100, 60), 100, LIMITS)
  }

  /** A reconcile that finds the leak past the cooldown of the first restart may restart again. */
  lemma AskMayRestart(e: Encoding, now: int, st: Status, r: Reply)
    requires st in {EMPTY_STATUS, Counted100(e)} && (st == EMPTY_STATUS || 105 <= now)
    ensures MayRestart(Cluster(e, now, st, Deployed("u1")), "app", Ask(now, Keep, r))
    ensures Prelude(Cluster(e, now, st, Deployed("u1")), "app") == []
  {
    hide FirstBreach;
    LeakyPodLeaks(now);
  }

  // ---- A restart whose record never gets an outcome ------------------------------------------------

  lemma FailedFirstRestart(e: Encoding)
    ensures var s := Exec(Cluster(e, 100, EMPTY_STATUS, Deployed("u1")), Reconciles("app", Ask(100, Keep, Refused)));
            s.world == Cluster(e, 100, Counted100(e), Deployed("u1"))
  {
    hide FirstBreach, Applied, Recomputed;
    LeakyPodLeaks(100);
  }

  /** The first dispatch fails, five seconds pass, and the second restart goes through. */
  const TWO_RESTARTS: seq<Event> :=
    [Reconciles("app", Ask(100, Keep, Refused)), Elapse(5), Reconciles("app", Ask(105, Keep, Done))]

  lemma RunThree(s: State, a: Event, b: Event, c: Event)
    ensures Run(s, [a, b, c]) == Next(Next(Next(s, a), b), c)
  {
    hide Next;
    assert [a, b, c][..2] == [a, b] && [a, b][..1] == [a];
    OneStep(s, a);
  }

  lemma WorldAfter(s: State, e: Event)
    ensures Next(s, e).world == Exec(s.world, e).world
  {
    hide Exec, Recorded;
  }

  lemma Waiting(s: State, d: nat)
    ensures Next(s, Elapse(d)).world == s.world.(now := s.world.now + d)
    ensures LogOf(Next(s, Elapse(d)).logs, "app") == LogOf(s.logs, "app")
  {
    RecordedAt(s.logs, [], "app");
  }

  ghost function Fresh(e: Encoding): State { State(Cluster(e, 100, EMPTY_STATUS, Deployed("u1")), map[], map[]) }

  /** From a fresh start, that run leaves the record of the first restart open behind the second. */
  lemma OrphanRun(e: Encoding)
    ensures var t := LogAfter(Fresh(e), TWO_RESTARTS, "app");
            Initial(Fresh(e)) && |t| == 2 && Open(t[0].rec) && !t[0].dispatched && Open(t[1].rec) && t[1].dispatched
  {
    hide Next, Run, MayRestart, Counted100, CountOf, Ask, Exec;
    var s, a, b, c := Fresh(e), TWO_RESTARTS[0], TWO_RESTARTS[1], TWO_RESTARTS[2];
    RunThree(s, a, b, c);
    AskMayRestart(e, 100, EMPTY_STATUS, Refused);
    AskReplies(100, Refused);
    AskReplies(105, Done);
    RestartAppends(s, "app", Ask(100, Keep, Refused));
    CountIsOfKey(s.world, "app", Ask(100, Keep, Refused));
    WorldAfter(s, a);
    FailedFirstRestart(e);
    Waiting(Next(s, a), 5);
    var s2 := Next(Next(s, a), b);
    AskMayRestart(e, 105, Counted100(e), Done);
    RestartAppends(s2, "app", Ask(105, Keep, Done));
    CountIsOfKey(s2.world, "app", Ask(105, Keep, Done));
  }

  lemma AskReplies(now: int, r: Reply)
    ensures Ask(now, Keep, r).countReply == Done && Ask(now, Keep, r).dispatchReply == r
  {
  }

  // ---- A workload recreated between the two reads ---------------------------------------------------

  /** The object, patched at time 100. */
  function Stamped100(e: Encoding, uid: string): Live { Deployed(uid).Patched(e.stamp(100)) }

  /** The object with its newest generation rolled out, or with its one replica down. */
  function RolledOut(o: Live, up: int): Live {
    o.(progress := Progress(o.progress.generation, o.progress.generation, None, 1, 1, up, 1 - up, 1, "", "", ""))
  }

  function Holding(w: World): World { w.(gate := map["app" := 100]) }

  lemma RolledOutFacts(e: Encoding, uid: string, up: int)
    ensures var o := RolledOut(Stamped100(e, uid), up);
            && o.uid == uid && !o.onDelete && (o.settled <==> up == 1)
            && o.Version(e.hash) == Deployed("u1").Version(e.hash)
  {
    PatchKeepsVersion(Deployed(uid), e.stamp(100), e.hash);
  }

  lemma Swapped(e: Encoding, now: int, st: Status, o: Live, p: Live, g: Slots)
    ensures Exec(Cluster(e, now, st, o).(gate := g), External("app", Replace(p))).world
            == Cluster(e, now, st, p).(gate := g)
  {
  }

  /** The first restart, of an object that may have been recreated since it was first read. */
  lemma FirstRestart(e: Encoding, uid: string)
    ensures var w := Cluster(e, 100, EMPTY_STATUS, Deployed("u1"));
            var s := Exec(w, Reconciles("app", Ask(100, Replace(Deployed(uid)), Done)));
            s.exit.Dispatched? && s.world == Holding(Cluster(e, 100, Counted100(e), Stamped100(e, uid)))
  {
    hide FirstBreach, Applied, Recomputed, Live.Patched;
    LeakyPodLeaks(100);
  }

  /** Adopting the new object forgets the restart, and frees the slot. */
  lemma AdoptionForgets(e: Encoding)
    ensures var w := Holding(Cluster(e, 100, Counted100(e), RolledOut(Stamped100(e, "u2"), 1)));
            var s := Exec(w, Reconciles("app", Ask(100, Keep, Done)));
            && s.exit.SlotFreed?
            && s.world == Cluster(e, 100, Adopted(Counted100(e), "u2"), RolledOut(Stamped100(e, "u2"), 1))
  {
    hide RolledOut, FirstBreach, Deployed;
    RolledOutFacts(e, "u2", 1);
  }

  lemma SecondRestart(e: Encoding)
    ensures var w := Cluster(e, 101, Adopted(Counted100(e), "u2"), RolledOut(Stamped100(e, "u2"), 1));
            Exec(w, Reconciles("app", Ask(101, Keep, Done))).exit.Dispatched?
  {
    hide FirstBreach, Exec, RolledOut, Publish, Deployed;
    RolledOutFacts(e, "u2", 1);
    var w := Cluster(e, 101, Adopted(Counted100(e), "u2"), RolledOut(Stamped100(e, "u2"), 1));
    LeakyPodLeaks(101);
    DispatchedIff(w, "app", Ask(101, Keep, Done));
  }

  /**
    Recreated from the same template between the reads, the new object is restarted, but counted under the
    old UID; once adopted, it is restarted again a second later, well within the cooldown.
   */
  lemma RecreatedIsRestartedTwice(e: Encoding)
    ensures var w1 := Exec(Cluster(e, 100, EMPTY_STATUS, Deployed("u1")),
                           Reconciles("app", Ask(100, Replace(Deployed("u2")), Done))).world;
            && "app" in w1.workloads && w1.workloads["app"] == Stamped100(e, "u2")
            && "app" in w1.policies && w1.policies["app"].status.workloadUID == "u1"
            && (var w2 := Exec(w1, External("app", Replace(RolledOut(w1.workloads["app"], 1)))).world;
                var w3 := Exec(w2, Reconciles("app", Ask(100, Keep, Done))).world;
                var w4 := Exec(w3, Elapse(1)).world;
                "app" in w4.workloads && w4.workloads["app"].uid == "u2"
                && Exec(w4, Reconciles("app", Ask(101, Keep, Done))).exit.Dispatched?)
  {
    hide Exec, RolledOut, Adopted, Counted100, Deployed;
    var o, st := Stamped100(e, "u2"), Counted100(e);
    FirstRestart(e, "u2");
    Swapped(e, 100, st, o, RolledOut(o, 1), map["app" := 100]);
    OneSecond(Cluster(e, 100, Adopted(st, "u2"), RolledOut(o, 1)));
    AdoptionForgets(e);
    SecondRestart(e);
    CountedUnder(e);
    RolledOutFacts(e, "u2", 1);
  }

  lemma OneSecond(w: World)
    ensures Exec(w, Elapse(1)).world == w.(now := w.now + 1)
  {
  }

  lemma CountedUnder(e: Encoding)
    ensures Counted100(e).workloadUID == "u1"
  {
  }

  // ---- A rollout that settles while no slot is held for it ---------------------------------------------

  lemma BlipIsResumed(e: Encoding, o: Live)
    requires o.uid == "u1" && !o.onDelete && !o.settled && o.Version(e.hash) == Deployed("u1").Version(e.hash)
    ensures Exec(Cluster(e, 100, Counted100(e), o), Reconciles("app", Ask(100, Keep, Done))).exit.Resumed?
  {
    hide FirstBreach, Deployed;
  }

  lemma LeaderGone(w: World, g: Slots)
    requires w.gate == map[] && w.wouldRestart == map[]
    ensures Exec(w.(gate := g), Failover).world == w
  {
  }

  lemma StillMarked(e: Encoding)
    ensures Counted100(e).inFlight.Some?
  {
  }

  lemma AskReads(now: int)
    ensures var i := Ask(now, Keep, Done);
            !i.fetchFails && i.modeReply.Done? && Takes(i.closeReply)
  {
  }

  /** Resumed within the cap and settled at once, the rollout is closed by the next reconcile. */
  lemma SettledRightAway(w: World, k: Key, i: Inputs, o: Live, j: Inputs)
    requires Exec(w, Reconciles(k, i)).exit.Resumed? && (w.cap <= 0 || |w.gate| < w.cap)
    requires k in w.workloads && o.uid == w.workloads[k].uid && o.Version(w.encoding.hash) == w.Version(k)
    requires o.settled && !o.onDelete
    requires !j.fetchFails && j.modeReply.Done? && Takes(j.closeReply)
    ensures var v := Exec(Exec(w, Reconciles(k, i)).world, External(k, Replace(o))).world;
            Closed(k, w.now, Outcome.Settled) in Exec(v, Reconciles(k, j)).effects
  {
    hide Reconcile;
    ResumeRetakesSlot(w, k, i);
    var v := Exec(Exec(w, Reconciles(k, i)).world, External(k, Replace(o))).world;
    ReconcileClosesIff(v, k, j, Closed(k, w.now, Outcome.Settled));
  }

  /**
    After a failover, a rollout that has already settled is left open; but if a pod goes down and comes back,
    it is resumed and then recorded as Settled after all.
   */
  lemma BlipSettlesAfterFailover(e: Encoding)
    ensures var o := Stamped100(e, "u1");
            var w1 := Exec(Cluster(e, 100, EMPTY_STATUS, Deployed("u1")),
                           Reconciles("app", Ask(100, Replace(Deployed("u1")), Done))).world;
            var w2 := Exec(Exec(w1, External("app", Replace(RolledOut(o, 1)))).world, Failover).world;
            var w3 := Exec(w2, External("app", Replace(RolledOut(o, 0)))).world;
            var w4 := Exec(w3, Reconciles("app", Ask(100, Keep, Done))).world;
            var w5 := Exec(w4, External("app", Replace(RolledOut(o, 1)))).world;
            && w2.gate == map[] && "app" in w2.policies && "app" in w2.workloads
            && w2.policies["app"].status.inFlight.Some? && w2.workloads["app"].settled
            && Exec(w3, Reconciles("app", Ask(100, Keep, Done))).exit.Resumed?
            && Closed("app", 100, Outcome.Settled) in Exec(w5, Reconciles("app", Ask(100, Keep, Done))).effects
  {
    hide Exec, RolledOut, Deployed, Counted100, Ask;
    var o, st := Stamped100(e, "u1"), Counted100(e);
    FirstRestart(e, "u1");
    Swapped(e, 100, st, o, RolledOut(o, 1), map["app" := 100]);
    LeaderGone(Cluster(e, 100, st, RolledOut(o, 1)), map["app" := 100]);
    Swapped(e, 100, st, RolledOut(o, 1), RolledOut(o, 0), map[]);
    StillMarked(e);
    RolledOutFacts(e, "u1", 1);
    RolledOutFacts(e, "u1", 0);
    BlipIsResumed(e, RolledOut(o, 0));
    AskReads(100);
    SettledRightAway(Cluster(e, 100, st, RolledOut(o, 0)), "app", Ask(100, Keep, Done), RolledOut(o, 1),
                       Ask(100, Keep, Done));
  }

  /** A restart whose patch was refused: a pod that goes down and comes back makes it, too, end as Settled. */
  lemma RefusedSettles(e: Encoding)
    ensures var o := Deployed("u1");
            var s1 := Exec(Cluster(e, 100, EMPTY_STATUS, o), Reconciles("app", Ask(100, Keep, Refused)));
            var w2 := Exec(s1.world, External("app", Replace(RolledOut(o, 0)))).world;
            var w3 := Exec(w2, Reconciles("app", Ask(100, Keep, Done))).world;
            var w4 := Exec(w3, External("app", Replace(o))).world;
            && s1.world.workloads == map["app" := o]
            && Closed("app", 100, Outcome.Settled) in Exec(w4, Reconciles("app", Ask(100, Keep, Done))).effects
  {
    hide Exec, Counted100, Ask;
    var o, st := Deployed("u1"), Counted100(e);
    FailedFirstRestart(e);
    Swapped(e, 100, st, o, RolledOut(o, 0), map[]);
    BlipIsResumed(e, RolledOut(o, 0));
    AskReads(100);
    SettledRightAway(Cluster(e, 100, st, RolledOut(o, 0)), "app", Ask(100, Keep, Done), o, Ask(100, Keep, Done));
  }

  /** The restart of time 100, rolled out, five seconds later and under a new leader. */
  function SettledUnderNewLeader(e: Encoding): World {
    Cluster(e, 105, Counted100(e), RolledOut(Stamped100(e, "u1"), 1))
  }

  lemma NewLeaderFindsIt(e: Encoding)
    ensures var w1 := Exec(Cluster(e, 100, EMPTY_STATUS, Deployed("u1")),
                           Reconciles("app", Ask(100, Replace(Deployed("u1")), Done))).world;
            var w2 := Exec(w1, External("app", Replace(RolledOut(Stamped100(e, "u1"), 1)))).world;
            Exec(Exec(w2, Failover).world, Elapse(5)).world == SettledUnderNewLeader(e)
  {
    hide Reconcile, RolledOut, Deployed, Counted100;
    var o, st := Stamped100(e, "u1"), Counted100(e);
    FirstRestart(e, "u1");
    Swapped(e, 100, st, o, RolledOut(o, 1), map["app" := 100]);
    LeaderGone(Cluster(e, 100, st, RolledOut(o, 1)), map["app" := 100]);
  }

  lemma MayRestartAgain(e: Encoding)
    ensures var w, i := SettledUnderNewLeader(e), Ask(105, Keep, Done);
            && MayRestart(w, "app", i) && Takes(i.countReply) && Prelude(w, "app") == []
            && "app" in w.policies && w.policies["app"].status.inFlight.Some?
  {
    hide FirstBreach, RolledOut, Deployed;
    LeakyPodLeaks(105);
    RolledOutFacts(e, "u1", 1);
  }

  /** Nothing failed, and yet the next restart is counted while its marker is set: its record is buried open. */
  lemma AcknowledgedIsBuried(e: Encoding)
    ensures var w1 := Exec(Cluster(e, 100, EMPTY_STATUS, Deployed("u1")),
                           Reconciles("app", Ask(100, Replace(Deployed("u1")), Done))).world;
            var w2 := Exec(w1, External("app", Replace(RolledOut(Stamped100(e, "u1"), 1)))).world;
            var w, i := Exec(Exec(w2, Failover).world, Elapse(5)).world, Ask(105, Keep, Done);
            && MayRestart(w, "app", i) && Takes(i.countReply) && Prelude(w, "app") == []
            && "app" in w.policies && w.policies["app"].status.inFlight.Some?
  {
    hide Exec, MayRestart, Ask, RolledOut, Deployed, Counted100;
    NewLeaderFindsIt(e);
    MayRestartAgain(e);
  }

  // ---- A dry-run that reports twice -----------------------------------------------------------------------

  function Report(now: int): Inputs { Ask(now, Keep, Done).(cfg := Config(LIMITS, 0, true, [])) }

  function Reporting(e: Encoding, now: int): World {
    Cluster(e, now, EMPTY_STATUS.(workloadUID := "u1", dryRun := true), Deployed("u1"))
  }

  lemma Reports(e: Encoding, now: int)
    ensures var s := Exec(Reporting(e, now), Reconciles("app", Report(now)));
            s.exit.WouldRestart? && s.world == Reporting(e, now).(wouldRestart := map["app" := now])
  {
    hide FirstBreach;
    LeakyPodLeaks(now);
  }

  /** After a leader change the same restart is reported again a second later, within the cooldown. */
  lemma FailoverReportsAgain(e: Encoding)
    ensures var s1 := Exec(Reporting(e, 100), Reconciles("app", Report(100)));
            var w2 := Exec(Exec(s1.world, Failover).world, Elapse(1)).world;
            s1.exit.WouldRestart? && Exec(w2, Reconciles("app", Report(101))).exit.WouldRestart?
  {
    hide Reconcile;
    Reports(e, 100);
    Reports(e, 101);
  }

  // ---- A Rollout that looks settled right after its restart -------------------------------------------------

  /** A healthy Rollout that reports no observed generation. */
  const UNOBSERVED := Live(Rollout, "u1", false, Template(None, "image:1"), None, "hash",
                           Progress(1, 0, None, 0, 0, 0, 0, 0, "", "", "Healthy"))

  lemma RolloutRestarts(e: Encoding)
    ensures var s := Exec(Cluster(e, 100, EMPTY_STATUS, UNOBSERVED), Reconciles("app", Ask(100, Keep, Done)));
            var st := Recomputed(Applied(EMPTY_STATUS.(workloadUID := "u1"), "hash", LEAK, 100, 60), 100, LIMITS);
            s.exit.Dispatched? && s.world == Holding(Cluster(e, 100, st, UNOBSERVED.Patched(e.stamp(100))))
  {
    hide FirstBreach, Applied, Recomputed, Live.Patched;
    LeakyPodLeaks(100);
  }

  /** The next reconcile records its restart as Settled, before anything was rolled out. */
  lemma RolloutSettlesAtOnce(e: Encoding)
    ensures var s := Exec(Cluster(e, 100, EMPTY_STATUS, UNOBSERVED), Reconciles("app", Ask(100, Keep, Done)));
            && s.exit.Dispatched?
            && Closed("app", 100, Outcome.Settled) in Exec(s.world, Reconciles("app", Ask(100, Keep, Done))).effects
  {
    hide Exec;
    var w := Exec(Cluster(e, 100, EMPTY_STATUS, UNOBSERVED), Reconciles("app", Ask(100, Keep, Done))).world;
    RolloutRestarts(e);
    ReconcileClosesIff(w, "app", Ask(100, Keep, Done), Closed("app", 100, Outcome.Settled));
  }
}
