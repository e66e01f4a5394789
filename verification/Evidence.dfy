/** From samples to restarts: every counted restart follows from a verdict on one container's unbounded log. */
module Evidence {
  import opened Wrappers
  import opened PolicyTypes
  import opened Detection
  import opened SeriesStore
  import opened Sampler
  import opened Readings
  import opened Scan
  import G = Gate
  import opened Control
  import opened Decisions

  type Ticks = seq<Tick>

  /** What this tick read of the container, if anything. */
  function ReadingOf(visits: seq<Visit>, key: SeriesStore.Key): Option<Reading> {
    if visits == [] then None
    else if visits[|visits| - 1].key == key then Some(visits[|visits| - 1].reading)
    else ReadingOf(visits[..|visits| - 1], key)
  }

  /** The unbounded log of a container: its readings in the latest ticks, back to the last tick without one. */
  function Observations(ticks: Ticks, key: SeriesStore.Key): seq<Reading> {
    if ticks == [] then []
    else
      match ReadingOf(ticks[|ticks| - 1].visits, key)
      case None => []
      case Some(r) => Observations(ticks[..|ticks| - 1], key) + [r]
  }

  lemma {:induction false} ReadingOfIs(visits: seq<Visit>, key: SeriesStore.Key)
    ensures ReadingOf(visits, key).None? <==> key !in KeysOf(visits)
    ensures ReadingOf(visits, key).Some? ==>
              exists v :: v in visits && v.key == key && v.reading == ReadingOf(visits, key).value
  {
    if visits != [] {
      ReadingOfIs(visits[..|visits| - 1], key);
      KeysOfNext(visits[..|visits| - 1], visits[|visits| - 1]);
      assert visits == visits[..|visits| - 1] + [visits[|visits| - 1]];
    }
  }

  /** What the store holds after a run of ticks is the trimmed form of each container's unbounded log. */
  lemma {:induction false} SeriesIsReplay(ticks: Ticks, b: Bounds, key: SeriesStore.Key)
    requires b.maxLen >= 0 && forall t :: t in ticks ==> ValidTick(t)
    ensures At(RunTicks(ticks, b), key) == Replay(Observations(ticks, key), b)
  {
    hide Observed, ObserveAll, KeysOf;
    if ticks != [] {
      var before, t := ticks[..|ticks| - 1], ticks[|ticks| - 1];
      assert t in ticks && ticks == before + [t];
      SeriesIsReplay(before, b, key);
      ReadingOfIs(t.visits, key);
      ObservedOnce(RunTicks(before, b), t.visits, b, key);
      ObservedKeys(RunTicks(before, b), t.visits, b);
      var log := Observations(ticks, key);
      if log != [] {
        assert log[..|log| - 1] == Observations(before, key);
      }
    }
  }

  ghost predicate TicksIncrease(ticks: Ticks) { forall i, j :: 0 <= i < j < |ticks| ==> ticks[i].now < ticks[j].now }

  lemma {:induction false} ObservationsAreTicks(ticks: Ticks, key: SeriesStore.Key)
    requires forall t :: t in ticks ==> ValidTick(t)
    ensures var log := Observations(ticks, key);
            |log| <= |ticks| && forall i :: 0 <= i < |log| ==> log[i].sample.time == ticks[|ticks| - |log| + i].now
  {
    if ticks != [] {
      var before, t := ticks[..|ticks| - 1], ticks[|ticks| - 1];
      assert t in ticks && ticks == before + [t];
      ObservationsAreTicks(before, key);
      ReadingOfIs(t.visits, key);
    }
  }

  lemma ObservationsIncrease(ticks: Ticks, key: SeriesStore.Key)
    requires TicksIncrease(ticks) && forall t :: t in ticks ==> ValidTick(t)
    ensures TimesIncrease(Observations(ticks, key))
  {
    hide Observations;
    ObservationsAreTicks(ticks, key);
  }

  /** A reconcile judges each container on what the store holds for it. */
  ghost predicate Drawn(pods: seq<Scan.Pod>, keys: seq<seq<SeriesStore.Key>>, data: map<SeriesStore.Key, Series>) {
    && |keys| == |pods|
    && (forall p :: 0 <= p < |pods| ==> |keys[p]| == |pods[p].targets|)
    && forall p, t :: 0 <= p < |pods| && 0 <= t < |pods[p].targets| ==>
         pods[p].targets[t].samples == if keys[p][t] in data then data[keys[p][t]].samples else []
  }

  lemma VerdictOnUnboundedLog(ticks: Ticks, b: Bounds, key: SeriesStore.Key, d: Settings, now: int)
    requires b.maxLen >= 1 && TicksIncrease(ticks) && forall t :: t in ticks ==> ValidTick(t)
    requires var data := RunTicks(ticks, b);
             Judge(if key in data then data[key].samples else [], d, now).leaking
    ensures var data := RunTicks(ticks, b);
            && key in data && Observations(ticks, key) != []
            && Judge(SinceBump(Observations(ticks, key)), d, now) == Judge(data[key].samples, d, now)
  {
    hide Leaking, RunTicks, Observations, Replay, SinceBump, WindowCovered, ThresholdBytes;
    SeriesIsReplay(ticks, b, key);
    ObservationsIncrease(ticks, key);
    CoveredVerdictIsExact(Observations(ticks, key), b, d, now);
  }

  // ---- The ticks are the sampler's own ---------------------------------------------------------------

  /** What one tick of the sampler found: the policies as it resolved them and the usage report. */
  datatype Round = Round(now: int, policies: seq<PolicyView>, usage: Usage)

  function TickOf(r: Round): Tick { Tick(r.now, PolicyVisits(r.policies, r.usage, r.now)) }

  function TicksOf(rounds: seq<Round>): Ticks {
    seq(|rounds|, i requires 0 <= i < |rounds| => TickOf(rounds[i]))
  }

  /** Rounds at increasing times, none of which targets a container twice. */
  ghost predicate Orderly(rounds: seq<Round>) {
    && (forall i, j :: 0 <= i < j < |rounds| ==> rounds[i].now < rounds[j].now)
    && forall r :: r in rounds ==> TargetedOnce(r.policies)
  }

  /** The reading a round takes of a container: its reported usage, with the limit and restart count of its target. */
  ghost predicate Takes(r: Round, key: SeriesStore.Key, reading: Reading) {
    && key in r.usage
    && exists p: nat, j: nat, t: nat :: TargetAt(r.policies, p, j, t, key)
         && var target := r.policies[p].pods[j].targets[t];
            reading == Reading(Sample(r.now, r.usage[key], target.limit), target.restarts)
  }

  /** The readings of a container in the latest rounds, back to the last one without the container. */
  ghost predicate IsLog(rounds: seq<Round>, key: SeriesStore.Key, log: seq<Reading>) {
    && |log| <= |rounds|
    && (forall i :: 0 <= i < |log| ==> Takes(rounds[|rounds| - |log| + i], key, log[i]))
    && (|log| < |rounds| ==>
          var r := rounds[|rounds| - |log| - 1];
          !(key in r.usage && Targeted(r.policies, key)))
  }

  lemma RoundIsValid(r: Round)
    requires TargetedOnce(r.policies)
    ensures ValidTick(TickOf(r))
  {
    hide PolicyVisits, TargetAt, DistinctKeys, TargetedOnce;
    VisitsDistinct(r.policies, r.usage, r.now);
    forall v | v in TickOf(r).visits ensures v.reading.sample.time == r.now {
      var p, j, t := VisitOfPolicy(r.policies, r.usage, r.now, v);
    }
  }

  lemma RoundsAreTicks(rounds: seq<Round>)
    requires Orderly(rounds)
    ensures TicksIncrease(TicksOf(rounds)) && forall t :: t in TicksOf(rounds) ==> ValidTick(t)
  {
    hide TickOf, ValidTick, TargetedOnce;
    forall t | t in TicksOf(rounds) ensures ValidTick(t) {
      var i :| 0 <= i < |rounds| && TicksOf(rounds)[i] == t;
      RoundIsValid(rounds[i]);
    }
    forall i | 0 <= i < |rounds| ensures TickOf(rounds[i]).now == rounds[i].now { NowOfTick(rounds[i]); }
  }

  lemma NowOfTick(r: Round)
    ensures TickOf(r).now == r.now
  {
  }

  /** What a tick's visits say of a container is what the round takes of it. */
  lemma ReadingIsTaken(r: Round, key: SeriesStore.Key)
    ensures match ReadingOf(TickOf(r).visits, key)
            case None => !(key in r.usage && Targeted(r.policies, key))
            case Some(reading) => Takes(r, key, reading)
  {
    hide PolicyVisits, Targeted, IsTarget, ReadingOf, Reads;
    ReadingOfIs(TickOf(r).visits, key);
    VisitedIff(r.policies, r.usage, r.now, key);
    if v :| v in TickOf(r).visits && v.key == key && Some(v.reading) == ReadingOf(TickOf(r).visits, key) {
      var p, j, t := VisitOfPolicy(r.policies, r.usage, r.now, v);
      ReadingIs(v, r.policies[p].pods[j].targets[t], r.usage, r.now);
    }
  }

  /** The unbounded log of a container is the one its rounds take. */
  lemma {:induction false} ObservationsAreLog(rounds: seq<Round>, key: SeriesStore.Key)
    ensures IsLog(rounds, key, Observations(TicksOf(rounds), key))
  {
    hide TickOf, ReadingOf, Takes, Targeted;
    if rounds != [] {
      var before, r := rounds[..|rounds| - 1], rounds[|rounds| - 1];
      assert TicksOf(rounds)[..|rounds| - 1] == TicksOf(before);
      ObservationsAreLog(before, key);
      ReadingIsTaken(r, key);
    }
  }

  /**
    A counted restart names a container on a Ready, aged, current-revision pod that leaks by the verdict on the
    unbounded log of what the sampler's rounds took of it since its last restart, with the very observation and
    threshold of that verdict.
   */
  lemma RestartHasEvidence(w: World, k: G.Key, i: Inputs, e: Effect, rounds: seq<Round>, b: Bounds,
                           keys: seq<seq<SeriesStore.Key>>) returns (p: nat, t: nat, log: seq<Reading>)
    requires e.Counted? && e in Exec(w, Reconciles(k, i)).effects
    requires b.maxLen >= 1 && Orderly(rounds)
    requires Drawn(i.pods, keys, RunTicks(TicksOf(rounds), b))
    ensures p < |i.pods| && t < |i.pods[p].targets| && Evaluated(i.pods[p], i.cfg.grace)
    ensures IsLog(rounds, keys[p][t], log) && log != []
    ensures var target, verdict := i.pods[p].targets[t], Judge(SinceBump(log), i.pods[p].targets[t].settings, w.now);
            verdict.leaking && e.rec.cause == Cause(target.name, verdict.observed, verdict.threshold)
  {
    hide Exec, Judge, RunTicks, TicksOf, Observations, FirstBreach, Evaluated, IsLog, Orderly, ValidTick;
    CountedIff(w, k, i, e);
    p, t := FirstBreachIs(i.pods, i.cfg.grace, w.now);
    RoundsAreTicks(rounds);
    VerdictOnUnboundedLog(TicksOf(rounds), b, keys[p][t], i.pods[p].targets[t].settings, w.now);
    log := Observations(TicksOf(rounds), keys[p][t]);
    ObservationsAreLog(rounds, keys[p][t]);
  }
}
