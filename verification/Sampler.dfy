/** One pass of the sampling loop of internal/controller/sampler.go over the store. */
module Sampler {
  import opened Wrappers
  import opened Detection
  import opened SeriesStore

  datatype Target = Target(name: string, limit: int, window: int, restarts: int)

  datatype Pod = Pod(namespace: string, name: string, targets: seq<Target>)

  /** A policy as one tick resolves it; Unresolved when its workload or pods cannot be read. */
  datatype PolicyView = Unresolved | Resolved(pods: seq<Pod>)

  /** One container to observe. */
  datatype Visit = Visit(key: Key, reading: Reading, window: int)

  type Usage = map<Key, int>

  // ---- The readings a tick takes, in order ---------------------------------------

  function TargetVisits(pod: Pod, targets: seq<Target>, usage: Usage, now: int): seq<Visit> {
    if targets == [] then []
    else
      var t := targets[|targets| - 1];
      var key := Key(pod.namespace, pod.name, t.name);
      TargetVisits(pod, targets[..|targets| - 1], usage, now)
      + if key in usage then [Visit(key, Reading(Sample(now, usage[key], t.limit), t.restarts), t.window)] else []
  }

  function PodVisits(pods: seq<Pod>, usage: Usage, now: int): seq<Visit> {
    if pods == [] then []
    else
      var pod := pods[|pods| - 1];
      PodVisits(pods[..|pods| - 1], usage, now) + TargetVisits(pod, pod.targets, usage, now)
  }

  function PolicyVisits(policies: seq<PolicyView>, usage: Usage, now: int): seq<Visit> {
    if policies == [] then []
    else
      var p := policies[|policies| - 1];
      PolicyVisits(policies[..|policies| - 1], usage, now)
      + if p.Resolved? then PodVisits(p.pods, usage, now) else []
  }

  function ObserveAll(data: map<Key, Series>, visits: seq<Visit>, b: Bounds): map<Key, Series>
    requires b.maxLen >= 0
  {
    if visits == [] then data
    else
      var d, v := ObserveAll(data, visits[..|visits| - 1], b), visits[|visits| - 1];
      d[v.key := Observed(At(d, v.key), v.reading, b)]
  }

  function KeysOf(visits: seq<Visit>): set<Key> { set v | v in visits :: v.key }

  /** Some container among visits[from..] covers its window right after it is observed. */
  predicate SomeCovered(data: map<Key, Series>, visits: seq<Visit>, from: nat, now: int, b: Bounds)
    requires b.maxLen >= 0
  {
    |visits| > from
    && (var last := visits[|visits| - 1];
        || Covered(At(ObserveAll(data, visits, b), last.key), last.window, now)
        || SomeCovered(data, visits[..|visits| - 1], from, now, b))
  }

  /** The store after a completed tick: every visit observed, then everything else evicted. */
  function Ticked(data: map<Key, Series>, visits: seq<Visit>, b: Bounds): map<Key, Series>
    requires b.maxLen >= 0
  {
    var d := ObserveAll(data, visits, b);
    map k | k in d && k in KeysOf(visits) :: d[k]
  }

  lemma ObserveNext(data: map<Key, Series>, visits: seq<Visit>, v: Visit, from: nat, now: int, b: Bounds)
    requires b.maxLen >= 0 && from <= |visits|
    ensures var d := ObserveAll(data, visits, b);
            ObserveAll(data, visits + [v], b) == d[v.key := Observed(At(d, v.key), v.reading, b)]
    ensures KeysOf(visits + [v]) == KeysOf(visits) + {v.key}
    ensures SomeCovered(data, visits + [v], from, now, b)
            <==> SomeCovered(data, visits, from, now, b)
                 || Covered(At(ObserveAll(data, visits + [v], b), v.key), v.window, now)
  {
    hide Observed, Covered;
    assert (visits + [v])[..|visits|] == visits;
  }

  /** How far a tick has come: the visits done since `before`, and what is known of them. */
  ghost predicate Progress(store: Store, before: map<Key, Series>, done: seq<Visit>, live: set<Key>)
    reads store
  {
    store.Valid() && store.data == ObserveAll(before, done, store.bounds) && live == KeysOf(done)
  }

  /** The innermost loop: one pod's containers. */
  method VisitTargets(store: Store, pod: Pod, usage: Usage, now: int, live0: set<Key>, enqueue0: bool,
                      ghost before: map<Key, Series>, ghost done: seq<Visit>, ghost from: nat)
    returns (live: set<Key>, enqueue: bool)
    requires Progress(store, before, done, live0) && from <= |done|
    requires enqueue0 <==> SomeCovered(before, done, from, now, store.bounds)
    modifies store`data
    ensures var done' := done + TargetVisits(pod, pod.targets, usage, now);
            Progress(store, before, done', live)
            && (enqueue <==> SomeCovered(before, done', from, now, store.bounds))
  {
    hide Observed, Covered, SomeCovered, ObserveAll, KeysOf;
    live, enqueue := live0, enqueue0;
    ghost var visits := done;
    for k := 0 to |pod.targets|
      invariant visits == done + TargetVisits(pod, pod.targets[..k], usage, now)
      invariant Progress(store, before, visits, live)
      invariant enqueue <==> SomeCovered(before, visits, from, now, store.bounds)
    {
      assert pod.targets[..k + 1][..k] == pod.targets[..k];
      var target := pod.targets[k];
      var key := Key(pod.namespace, pod.name, target.name);
      if key in usage {
        live := live + {key};
        var sample := Sample(now, usage[key], target.limit);
        ghost var visit := Visit(key, Reading(sample, target.restarts), target.window);
        ObserveNext(before, visits, visit, from, now, store.bounds);
        store.Observe(key, sample, target.restarts);
        var covered := store.IsCovered(key, target.window, now);
        if covered {
          enqueue := true;
        }
        visits := visits + [visit];
      }
    }
    assert pod.targets[..|pod.targets|] == pod.targets;
  }

  lemma PodVisitsNext(done: seq<Visit>, pods: seq<Pod>, j: nat, usage: Usage, now: int)
    requires j < |pods|
    ensures done + PodVisits(pods[..j + 1], usage, now)
            == done + PodVisits(pods[..j], usage, now) + TargetVisits(pods[j], pods[j].targets, usage, now)
  {
    hide TargetVisits;
    assert pods[..j + 1][..j] == pods[..j];
  }

  lemma NoVisitsYet(data: map<Key, Series>, done: seq<Visit>, pods: seq<Pod>, usage: Usage, now: int, b: Bounds)
    requires b.maxLen >= 0
    ensures done + PodVisits(pods[..0], usage, now) == done
    ensures !SomeCovered(data, done, |done|, now, b)
  {
  }

  /** The middle loop: one policy's pods. */
  method VisitPods(store: Store, pods: seq<Pod>, usage: Usage, now: int, live0: set<Key>,
                   ghost before: map<Key, Series>, ghost done: seq<Visit>)
    returns (live: set<Key>, enqueue: bool)
    requires Progress(store, before, done, live0)
    modifies store`data
    ensures var done' := done + PodVisits(pods, usage, now);
            Progress(store, before, done', live)
            && (enqueue <==> SomeCovered(before, done', |done|, now, store.bounds))
  {
    hide ObserveAll, KeysOf, TargetVisits, PodVisits, SomeCovered;
    live, enqueue := live0, false;
    ghost var visits := done;
    NoVisitsYet(before, done, pods, usage, now, store.bounds);
    for j := 0 to |pods|
      invariant visits == done + PodVisits(pods[..j], usage, now)
      invariant Progress(store, before, visits, live)
      invariant enqueue <==> SomeCovered(before, visits, |done|, now, store.bounds)
    {
      PodVisitsNext(done, pods, j, usage, now);
      live, enqueue := VisitTargets(store, pods[j], usage, now, live, enqueue, before, visits, |done|);
      visits := visits + TargetVisits(pods[j], pods[j].targets, usage, now);
    }
    assert pods[..|pods|] == pods;
  }

  /** Whether the tick hands policy i to the reconciler. */
  predicate Enqueues(data: map<Key, Series>, policies: seq<PolicyView>, i: nat, usage: Usage, now: int, b: Bounds)
    requires b.maxLen >= 0 && i < |policies|
  {
    SomeCovered(data, PolicyVisits(policies[..i + 1], usage, now),
                |PolicyVisits(policies[..i], usage, now)|, now, b)
  }

  /** sampleOnce: observe every reported container of every policy, then prune. */
  method SampleOnce(store: Store, listed: bool, policies: seq<PolicyView>, usage: Usage, now: int)
    returns (enqueued: seq<nat>, kept: nat)
    requires store.Valid()
    modifies store`data
    ensures !listed ==> store.data == old(store.data) && enqueued == []
    ensures listed ==> store.data == Ticked(old(store.data), PolicyVisits(policies, usage, now), store.bounds)
    ensures listed ==> kept == |store.data|
    ensures forall i: nat :: i in enqueued <==>
              listed && i < |policies| && Enqueues(old(store.data), policies, i, usage, now, store.bounds)
  {
    hide ObserveAll, KeysOf, PodVisits;
    enqueued, kept := [], 0;
    if !listed {
      return;
    }
    var live: set<Key> := {};
    ghost var before, b := store.data, store.bounds;
    ghost var done: seq<Visit> := [];
    NothingObserved(before, b);
    for i := 0 to |policies|
      invariant done == PolicyVisits(policies[..i], usage, now)
      invariant Progress(store, before, done, live)
      invariant forall p: nat :: p in enqueued <==> p < i && Enqueues(before, policies, p, usage, now, b)
    {
      assert policies[..i + 1][..i] == policies[..i];
      if policies[i].Resolved? {
        var enqueue: bool;
        live, enqueue := VisitPods(store, policies[i].pods, usage, now, live, before, done);
        done := done + PodVisits(policies[i].pods, usage, now);
        if enqueue {
          enqueued := enqueued + [i];
        }
      }
    }
    assert policies[..|policies|] == policies;
    kept := store.Prune(live);
  }

  lemma NothingObserved(data: map<Key, Series>, b: Bounds)
    requires b.maxLen >= 0
    ensures ObserveAll(data, [], b) == data && KeysOf([]) == {}
  {
  }

  // ---- What every completed tick leaves behind -----------------------------------------

  lemma {:induction false} ObservedKeys(data: map<Key, Series>, visits: seq<Visit>, b: Bounds)
    requires b.maxLen >= 0
    ensures ObserveAll(data, visits, b).Keys == data.Keys + KeysOf(visits)
  {
    if visits != [] {
      var r, v := visits[..|visits| - 1], visits[|visits| - 1];
      ObservedKeys(data, r, b);
      assert visits == r + [v];
      assert KeysOf(visits) == KeysOf(r) + {v.key};
    }
  }

  /** The store's keys are exactly the containers observed in the tick. */
  lemma KeysAreExactlyObserved(data: map<Key, Series>, visits: seq<Visit>, b: Bounds)
    requires b.maxLen >= 0
    ensures Ticked(data, visits, b).Keys == KeysOf(visits)
  {
    ObservedKeys(data, visits, b);
  }

  ghost predicate DistinctKeys(visits: seq<Visit>) {
    forall i, j :: 0 <= i < j < |visits| ==> visits[i].key != visits[j].key
  }

  lemma {:induction false} ObservedOnce(data: map<Key, Series>, visits: seq<Visit>, b: Bounds, key: Key)
    requires b.maxLen >= 0 && DistinctKeys(visits)
    ensures key !in KeysOf(visits) ==> At(ObserveAll(data, visits, b), key) == At(data, key)
    ensures forall v :: v in visits && v.key == key ==>
              At(ObserveAll(data, visits, b), key) == Some(Observed(At(data, key), v.reading, b))
  {
    hide Observed, KeysOf;
    if visits == [] {
      NothingObserved(data, b);
    } else {
      var r, last := visits[..|visits| - 1], visits[|visits| - 1];
      ObservedOnce(data, r, b, key);
      KeysOfNext(r, last);
      assert visits == r + [last];
      NotYetVisited(visits);
    }
  }

  lemma KeysOfNext(r: seq<Visit>, v: Visit)
    ensures KeysOf(r + [v]) == KeysOf(r) + {v.key}
  {
  }

  lemma NotYetVisited(visits: seq<Visit>)
    requires visits != [] && DistinctKeys(visits)
    ensures visits[|visits| - 1].key !in KeysOf(visits[..|visits| - 1])
  {
  }

  /** One completed tick: when it ran and what it read. */
  datatype Tick = Tick(now: int, visits: seq<Visit>)

  ghost predicate ValidTick(t: Tick) {
    DistinctKeys(t.visits) && forall v :: v in t.visits ==> v.reading.sample.time == t.now
  }

  function RunTicks(ticks: seq<Tick>, b: Bounds): map<Key, Series>
    requires b.maxLen >= 0
  {
    if ticks == [] then map[]
    else Ticked(RunTicks(ticks[..|ticks| - 1], b), ticks[|ticks| - 1].visits, b)
  }

  /** The samples are those of the last |samples| completed ticks, one each. */
  ghost predicate LatestTicks(samples: seq<Sample>, ticks: seq<Tick>) {
    |samples| <= |ticks|
    && forall i :: 0 <= i < |samples| ==> samples[i].time == ticks[|ticks| - |samples| + i].now
  }

  lemma LatestTicksStep(ser: Option<Series>, before: seq<Tick>, t: Tick, r: Reading, b: Bounds)
    requires b.maxLen >= 0 && r.sample.time == t.now
    requires ser.Some? ==> LatestTicks(ser.value.samples, before)
    ensures LatestTicks(Observed(ser, r, b).samples, before + [t])
  {
    hide DropCount, LatestTicks;
    var all := Appended(ser, r);
    var drop := DropCount(all, r.sample.time - b.retention, b.maxLen);
    var kept := if ser.Some? && r.restarts <= ser.value.lastRestarts then ser.value.samples else [];
    NoTicks(before);
    LatestTicksNext(kept, before, t, r.sample);
    LatestTicksTail(all, drop, before + [t]);
  }

  lemma NoTicks(ticks: seq<Tick>)
    ensures LatestTicks([], ticks)
  {
  }

  lemma LatestTicksNext(s: seq<Sample>, ticks: seq<Tick>, t: Tick, x: Sample)
    requires LatestTicks(s, ticks) && x.time == t.now
    ensures LatestTicks(s + [x], ticks + [t])
  {
  }

  lemma LatestTicksTail(s: seq<Sample>, drop: nat, ticks: seq<Tick>)
    requires LatestTicks(s, ticks) && drop <= |s|
    ensures LatestTicks(s[drop..], ticks)
  {
  }

  /** With no container targeted twice in a tick, no series has a gap or a stale end. */
  lemma {:induction false} SeriesHaveNoGaps(ticks: seq<Tick>, b: Bounds, key: Key)
    requires b.maxLen >= 0 && forall t :: t in ticks ==> ValidTick(t)
    requires key in RunTicks(ticks, b)
    ensures LatestTicks(RunTicks(ticks, b)[key].samples, ticks)
  {
    var before, t := ticks[..|ticks| - 1], ticks[|ticks| - 1];
    assert t in ticks && ticks == before + [t];
    var data := RunTicks(before, b);
    if key in data { SeriesHaveNoGaps(before, b, key); }
    var v :| v in t.visits && v.key == key;
    ObservedOnce(data, t.visits, b, key);
    LatestTicksStep(At(data, key), before, t, v.reading, b);
  }
}
