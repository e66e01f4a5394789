/** What one tick of internal/controller/sampler.go reads, said of the policies, the pods and the usage report. */
module Readings {
  import opened Wrappers
  import opened Detection
  import opened SeriesStore
  import opened Sampler

  // ---- Which containers, and what of them ------------------------------------------------------

  /** Container `key` is target t of a pod. */
  predicate IsTarget(pod: Pod, t: Target, key: Key) { key == Key(pod.namespace, pod.name, t.name) }

  /** Target t of pod j is container `key`. */
  predicate InPods(pods: seq<Pod>, j: nat, t: nat, key: Key) {
    j < |pods| && t < |pods[j].targets| && IsTarget(pods[j], pods[j].targets[t], key)
  }

  /** Target t of pod j of policy p, which was resolved, is container `key`. */
  predicate TargetAt(policies: seq<PolicyView>, p: nat, j: nat, t: nat, key: Key) {
    p < |policies| && policies[p].Resolved? && InPods(policies[p].pods, j, t, key)
  }

  ghost predicate Targeted(policies: seq<PolicyView>, key: Key) {
    exists p: nat, j: nat, t: nat :: TargetAt(policies, p, j, t, key)
  }

  /** No container is targeted by two policies, pods or targets. */
  ghost predicate TargetedOnce(policies: seq<PolicyView>) {
    forall p: nat, j: nat, t: nat, q: nat, l: nat, u: nat, key: Key ::
      TargetAt(policies, p, j, t, key) && TargetAt(policies, q, l, u, key) ==> p == q && j == l && t == u
  }

  /** The visit of a container in a tick: its usage, and the limit, window and restart count of this target. */
  predicate Reads(v: Visit, t: Target, usage: Usage, now: int) {
    && v.key in usage
    && v.reading.sample.time == now
    && v.reading.sample.workingSet == usage[v.key]
    && v.reading.sample.limit == t.limit
    && v.reading.restarts == t.restarts
    && v.window == t.window
  }

  lemma {:induction false} VisitOfTarget(pod: Pod, targets: seq<Target>, usage: Usage, now: int, v: Visit)
    returns (t: nat)
    requires v in TargetVisits(pod, targets, usage, now)
    ensures t < |targets| && IsTarget(pod, targets[t], v.key) && Reads(v, targets[t], usage, now)
  {
    var n := |targets| - 1;
    if v in TargetVisits(pod, targets[..n], usage, now) {
      t := VisitOfTarget(pod, targets[..n], usage, now, v);
    } else {
      t := n;
    }
  }

  lemma {:induction false} VisitOfPod(pods: seq<Pod>, usage: Usage, now: int, v: Visit) returns (j: nat, t: nat)
    requires v in PodVisits(pods, usage, now)
    ensures j < |pods| && t < |pods[j].targets|
    ensures IsTarget(pods[j], pods[j].targets[t], v.key) && Reads(v, pods[j].targets[t], usage, now)
  {
    hide TargetVisits, IsTarget, Reads;
    var n := |pods| - 1;
    if v in PodVisits(pods[..n], usage, now) {
      j, t := VisitOfPod(pods[..n], usage, now, v);
    } else {
      j := n;
      t := VisitOfTarget(pods[n], pods[n].targets, usage, now, v);
    }
  }

  /** Every visit of a tick is one of a target of a resolved policy. */
  lemma {:induction false} VisitOfPolicy(policies: seq<PolicyView>, usage: Usage, now: int, v: Visit)
    returns (p: nat, j: nat, t: nat)
    requires v in PolicyVisits(policies, usage, now)
    ensures TargetAt(policies, p, j, t, v.key) && Reads(v, policies[p].pods[j].targets[t], usage, now)
  {
    hide PodVisits, IsTarget, Reads;
    var n := |policies| - 1;
    if v in PolicyVisits(policies[..n], usage, now) {
      p, j, t := VisitOfPolicy(policies[..n], usage, now, v);
    } else {
      p := n;
      j, t := VisitOfPod(policies[n].pods, usage, now, v);
    }
  }

  lemma {:induction false} TargetIsVisited(pod: Pod, targets: seq<Target>, usage: Usage, now: int, t: nat, key: Key)
    returns (v: Visit)
    requires t < |targets| && IsTarget(pod, targets[t], key) && key in usage
    ensures v in TargetVisits(pod, targets, usage, now) && v.key == key
  {
    var n := |targets| - 1;
    if t < n {
      v := TargetIsVisited(pod, targets[..n], usage, now, t, key);
    } else {
      v := Visit(key, Reading(Sample(now, usage[key], targets[n].limit), targets[n].restarts), targets[n].window);
    }
  }

  lemma {:induction false} PodIsVisited(pods: seq<Pod>, usage: Usage, now: int, j: nat, t: nat, key: Key)
    returns (v: Visit)
    requires j < |pods| && t < |pods[j].targets| && IsTarget(pods[j], pods[j].targets[t], key) && key in usage
    ensures v in PodVisits(pods, usage, now) && v.key == key
  {
    hide TargetVisits, IsTarget;
    var n := |pods| - 1;
    if j < n {
      v := PodIsVisited(pods[..n], usage, now, j, t, key);
    } else {
      v := TargetIsVisited(pods[n], pods[n].targets, usage, now, t, key);
    }
  }

  lemma {:induction false} PolicyIsVisited(policies: seq<PolicyView>, usage: Usage, now: int, p: nat, j: nat, t: nat,
                                           key: Key) returns (v: Visit)
    requires TargetAt(policies, p, j, t, key) && key in usage
    ensures v in PolicyVisits(policies, usage, now) && v.key == key
  {
    hide PodVisits, IsTarget;
    var n := |policies| - 1;
    if p < n {
      v := PolicyIsVisited(policies[..n], usage, now, p, j, t, key);
    } else {
      v := PodIsVisited(policies[n].pods, usage, now, j, t, key);
    }
  }

  /** The containers a tick observes: those the report has and some resolved policy targets. */
  lemma VisitedIff(policies: seq<PolicyView>, usage: Usage, now: int, key: Key)
    ensures key in KeysOf(PolicyVisits(policies, usage, now)) <==> key in usage && Targeted(policies, key)
  {
    hide PolicyVisits, IsTarget, Reads;
    var visits := PolicyVisits(policies, usage, now);
    if key in KeysOf(visits) {
      var v :| v in visits && v.key == key;
      var p, j, t := VisitOfPolicy(policies, usage, now, v);
      ReadsInUsage(v, policies[p].pods[j].targets[t], usage, now);
    }
    if key in usage && Targeted(policies, key) {
      var p: nat, j: nat, t: nat :| TargetAt(policies, p, j, t, key);
      var v := PolicyIsVisited(policies, usage, now, p, j, t, key);
    }
  }

  lemma ReadsInUsage(v: Visit, t: Target, usage: Usage, now: int)
    requires Reads(v, t, usage, now)
    ensures v.key in usage
  {
  }

  // ---- What a tick leaves in the store ---------------------------------------------------------------

  /** The reading of `key` that a tick takes last. */
  lemma {:induction false} LastVisit(data: map<Key, Series>, visits: seq<Visit>, b: Bounds, key: Key)
    returns (before: Option<Series>, v: Visit)
    requires b.maxLen >= 0 && key in KeysOf(visits)
    ensures v in visits && v.key == key
    ensures At(ObserveAll(data, visits, b), key) == Some(Observed(before, v.reading, b))
  {
    hide Observed;
    var n := |visits| - 1;
    if visits[n].key == key {
      before, v := At(ObserveAll(data, visits[..n], b), key), visits[n];
    } else {
      KeysOfNext(visits[..n], visits[n]);
      assert visits == visits[..n] + [visits[n]];
      before, v := LastVisit(data, visits[..n], b, key);
    }
  }

  lemma NewestIsKept(before: Option<Series>, r: Reading, b: Bounds)
    requires b.maxLen >= 1 && b.retention >= 0
    ensures var s := Observed(before, r, b);
            s.samples != [] && s.samples[|s.samples| - 1] == r.sample && s.lastRestarts == r.restarts
  {
    var all := Appended(before, r);
    assert all[|all| - 1] == r.sample;
  }

  /**
    After a completed tick, a container is in the store exactly if the usage report has it and some resolved
    policy targets it; its newest sample is that usage, now, with the limit and restart count of such a target.
   */
  lemma TickReadsUsage(data: map<Key, Series>, policies: seq<PolicyView>, usage: Usage, now: int, b: Bounds, key: Key)
    requires b.maxLen >= 1 && b.retention >= 0
    ensures var after := Ticked(data, PolicyVisits(policies, usage, now), b);
            && (key in after <==> key in usage && Targeted(policies, key))
            && (key in after ==>
                  exists p: nat, j: nat, t: nat :: TargetAt(policies, p, j, t, key)
                    && NewestIs(after[key], now, usage[key], policies[p].pods[j].targets[t]))
  {
    hide PolicyVisits, IsTarget, Reads, ObserveAll, Observed, KeysOf;
    var visits := PolicyVisits(policies, usage, now);
    VisitedIff(policies, usage, now, key);
    ObservedKeys(data, visits, b);
    if key in Ticked(data, visits, b) {
      var before, v := LastVisit(data, visits, b, key);
      var p, j, t := VisitOfPolicy(policies, usage, now, v);
      NewestIsKept(before, v.reading, b);
      ReadingIs(v, policies[p].pods[j].targets[t], usage, now);
      assert NewestIs(Ticked(data, visits, b)[key], now, usage[key], policies[p].pods[j].targets[t]);
    }
  }

  /** The newest sample of a series, and the restart count it remembers. */
  predicate NewestIs(s: Series, now: int, bytes: int, t: Target) {
    && s.samples != []
    && s.samples[|s.samples| - 1].time == now
    && s.samples[|s.samples| - 1].workingSet == bytes
    && s.samples[|s.samples| - 1].limit == t.limit
    && s.lastRestarts == t.restarts
  }

  lemma ReadingIs(v: Visit, t: Target, usage: Usage, now: int)
    requires Reads(v, t, usage, now)
    ensures v.key in usage && v.reading == Reading(Sample(now, usage[v.key], t.limit), t.restarts)
    ensures v.window == t.window
  {
  }

  /** Where a container is targeted once, it is this target's limit and restart count. */
  lemma TickReadsTarget(data: map<Key, Series>, policies: seq<PolicyView>, usage: Usage, now: int, b: Bounds,
                        p: nat, j: nat, t: nat, key: Key)
    requires b.maxLen >= 1 && b.retention >= 0 && TargetedOnce(policies)
    requires TargetAt(policies, p, j, t, key) && key in usage
    ensures var after := Ticked(data, PolicyVisits(policies, usage, now), b);
            key in after && NewestIs(after[key], now, usage[key], policies[p].pods[j].targets[t])
  {
    hide Ticked, PolicyVisits, NewestIs;
    TickReadsUsage(data, policies, usage, now, b, key);
  }

  // ---- No container is visited twice -------------------------------------------------------------------

  lemma DistinctConcat(a: seq<Visit>, b: seq<Visit>)
    requires DistinctKeys(a) && DistinctKeys(b)
    requires forall v, w :: v in a && w in b ==> v.key != w.key
    ensures DistinctKeys(a + b)
  {
    forall i, j | 0 <= i < j < |a + b| ensures (a + b)[i].key != (a + b)[j].key {
      assert i < |a| ==> (a + b)[i] in a;
      assert j >= |a| ==> (a + b)[j] in b;
    }
  }

  ghost predicate NamesOnce(targets: seq<Target>) {
    forall t: nat, u: nat :: t < |targets| && u < |targets| && targets[t].name == targets[u].name ==> t == u
  }

  lemma {:induction false} TargetsDistinct(pod: Pod, targets: seq<Target>, usage: Usage, now: int)
    requires NamesOnce(targets)
    ensures DistinctKeys(TargetVisits(pod, targets, usage, now))
  {
    if targets != [] {
      var n := |targets| - 1;
      var before := TargetVisits(pod, targets[..n], usage, now);
      var last := TargetVisits(pod, targets, usage, now)[|before|..];
      TargetsDistinct(pod, targets[..n], usage, now);
      forall v, w | v in before && w in last ensures v.key != w.key {
        var t := VisitOfTarget(pod, targets[..n], usage, now, v);
      }
      DistinctConcat(before, last);
      assert TargetVisits(pod, targets, usage, now) == before + last;
    }
  }

  ghost predicate PodsOnce(pods: seq<Pod>) {
    forall j: nat, t: nat, l: nat, u: nat, key: Key ::
      InPods(pods, j, t, key) && InPods(pods, l, u, key) ==> j == l && t == u
  }

  lemma FewerPodsOnce(pods: seq<Pod>, n: nat)
    requires PodsOnce(pods) && n <= |pods|
    ensures PodsOnce(pods[..n])
  {
    forall j: nat, t: nat, l: nat, u: nat, key: Key | InPods(pods[..n], j, t, key) && InPods(pods[..n], l, u, key)
      ensures j == l && t == u
    {
      assert InPods(pods, j, t, key) && InPods(pods, l, u, key);
    }
  }

  lemma {:induction false} PodsDistinct(pods: seq<Pod>, usage: Usage, now: int)
    requires PodsOnce(pods)
    ensures DistinctKeys(PodVisits(pods, usage, now))
  {
    hide TargetVisits, DistinctKeys, Reads;
    if pods == [] {
      NoVisits();
    } else {
      var n := |pods| - 1;
      var pod := pods[n];
      FewerPodsOnce(pods, n);
      PodsDistinct(pods[..n], usage, now);
      forall t: nat, u: nat | t < |pod.targets| && u < |pod.targets| && pod.targets[t].name == pod.targets[u].name
        ensures t == u
      {
        assert InPods(pods, n, t, Key(pod.namespace, pod.name, pod.targets[t].name));
        assert InPods(pods, n, u, Key(pod.namespace, pod.name, pod.targets[u].name));
      }
      TargetsDistinct(pod, pod.targets, usage, now);
      var before, last := PodVisits(pods[..n], usage, now), TargetVisits(pod, pod.targets, usage, now);
      forall v, w | v in before && w in last ensures v.key != w.key {
        var j, t := VisitOfPod(pods[..n], usage, now, v);
        var u := VisitOfTarget(pod, pod.targets, usage, now, w);
        assert InPods(pods, j, t, v.key) && InPods(pods, n, u, w.key);
      }
      DistinctConcat(before, last);
    }
  }

  lemma NoVisits()
    ensures DistinctKeys([])
  {
  }

  lemma PodsOfPolicyOnce(policies: seq<PolicyView>, p: nat)
    requires TargetedOnce(policies) && p < |policies| && policies[p].Resolved?
    ensures PodsOnce(policies[p].pods)
  {
    hide IsTarget;
    var pods := policies[p].pods;
    forall j: nat, t: nat, l: nat, u: nat, key: Key | InPods(pods, j, t, key) && InPods(pods, l, u, key)
      ensures j == l && t == u
    {
      assert TargetAt(policies, p, j, t, key) && TargetAt(policies, p, l, u, key);
    }
  }

  lemma FewerTargetedOnce(policies: seq<PolicyView>, n: nat)
    requires TargetedOnce(policies) && n <= |policies|
    ensures TargetedOnce(policies[..n])
  {
    hide IsTarget;
    forall p: nat, j: nat, t: nat, q: nat, l: nat, u: nat, key: Key |
      TargetAt(policies[..n], p, j, t, key) && TargetAt(policies[..n], q, l, u, key)
      ensures p == q && j == l && t == u
    {
      assert TargetAt(policies, p, j, t, key) && TargetAt(policies, q, l, u, key);
    }
  }

  /** If no container is targeted twice, a tick observes none twice. */
  lemma {:induction false} VisitsDistinct(policies: seq<PolicyView>, usage: Usage, now: int)
    requires TargetedOnce(policies)
    ensures DistinctKeys(PolicyVisits(policies, usage, now))
  {
    hide PodVisits, DistinctKeys, Reads, TargetedOnce, PodsOnce;
    if policies == [] {
      NoVisits();
    } else {
      var n := |policies| - 1;
      FewerTargetedOnce(policies, n);
      VisitsDistinct(policies[..n], usage, now);
      var before := PolicyVisits(policies[..n], usage, now);
      if policies[n].Resolved? {
        var last := PodVisits(policies[n].pods, usage, now);
        PodsOfPolicyOnce(policies, n);
        PodsDistinct(policies[n].pods, usage, now);
        forall v, w | v in before && w in last ensures v.key != w.key { ApartFromLast(policies, usage, now, v, w); }
        DistinctConcat(before, last);
      } else {
        assert before + [] == before;
      }
    }
  }

  lemma ApartFromLast(policies: seq<PolicyView>, usage: Usage, now: int, v: Visit, w: Visit)
    requires policies != [] && TargetedOnce(policies) && policies[|policies| - 1].Resolved?
    requires v in PolicyVisits(policies[..|policies| - 1], usage, now)
    requires w in PodVisits(policies[|policies| - 1].pods, usage, now)
    ensures v.key != w.key
  {
    hide PodVisits, PolicyVisits, IsTarget, Reads;
    var n := |policies| - 1;
    var p, j, t := VisitOfPolicy(policies[..n], usage, now, v);
    var l, u := VisitOfPod(policies[n].pods, usage, now, w);
    assert TargetAt(policies, p, j, t, v.key) && TargetAt(policies, n, l, u, w.key);
  }

  // ---- Which policies a tick hands over ---------------------------------------------------------------

  /** The series spans a window: two samples or more, the oldest at least a window old. */
  predicate Spans(s: Series, window: int, now: int) {
    |s.samples| >= 2 && now - s.samples[0].time >= window
  }

  lemma {:induction false} SomeCoveredIff(data: map<Key, Series>, visits: seq<Visit>, from: nat, now: int, b: Bounds)
    requires b.maxLen >= 0 && DistinctKeys(visits)
    ensures SomeCovered(data, visits, from, now, b) <==>
              exists m: nat :: from <= m < |visits|
                && Spans(Observed(At(data, visits[m].key), visits[m].reading, b), visits[m].window, now)
  {
    hide Observed, ObserveAll, At, KeysOf;
    if |visits| > from {
      var n := |visits| - 1;
      assert forall m: nat :: m < n ==> visits[..n][m] == visits[m];
      SomeCoveredIff(data, visits[..n], from, now, b);
      ObservedOnce(data, visits, b, visits[n].key);
    }
  }

  /** Target t of pod j of policy i has a series that spans its own window. */
  predicate WarmAt(after: map<Key, Series>, policies: seq<PolicyView>, i: nat, j: nat, t: nat, key: Key, now: int) {
    && TargetAt(policies, i, j, t, key)
    && key in after
    && Spans(after[key], policies[i].pods[j].targets[t].window, now)
  }

  /** The visits of policy i are part of the tick's. */
  lemma {:induction false} VisitsOfPolicy(policies: seq<PolicyView>, i: nat, usage: Usage, now: int)
    requires i < |policies|
    ensures PolicyVisits(policies[..i + 1], usage, now) <= PolicyVisits(policies, usage, now)
    ensures PolicyVisits(policies[..i + 1], usage, now)
            == PolicyVisits(policies[..i], usage, now)
               + if policies[i].Resolved? then PodVisits(policies[i].pods, usage, now) else []
  {
    hide PodVisits;
    var n := |policies| - 1;
    assert policies[..i + 1][..i] == policies[..i];
    if i == n {
      assert policies[..i + 1] == policies;
    } else {
      assert policies[..n][..i + 1] == policies[..i + 1];
      VisitsOfPolicy(policies[..n], i, usage, now);
    }
  }

  /** What one visit of a tick leaves of its container, where none is targeted twice. */
  lemma SeriesAfterTick(data: map<Key, Series>, policies: seq<PolicyView>, usage: Usage, now: int, b: Bounds, v: Visit)
    requires b.maxLen >= 0 && TargetedOnce(policies) && v in PolicyVisits(policies, usage, now)
    ensures At(Ticked(data, PolicyVisits(policies, usage, now), b), v.key)
            == Some(Observed(At(data, v.key), v.reading, b))
  {
    hide Observed, ObserveAll, PolicyVisits, TargetedOnce, DistinctKeys;
    var visits := PolicyVisits(policies, usage, now);
    VisitsDistinct(policies, usage, now);
    ObservedOnce(data, visits, b, v.key);
  }

  lemma EnqueuedIsWarm(data: map<Key, Series>, policies: seq<PolicyView>, i: nat, usage: Usage, now: int, b: Bounds)
    returns (j: nat, t: nat, key: Key)
    requires b.maxLen >= 0 && i < |policies| && TargetedOnce(policies)
    requires Enqueues(data, policies, i, usage, now, b)
    ensures WarmAt(Ticked(data, PolicyVisits(policies, usage, now), b), policies, i, j, t, key, now)
  {
    hide Observed, PolicyVisits, PodVisits, TargetedOnce, Spans, SomeCovered, DistinctKeys, IsTarget, Ticked;
    var visits, from := PolicyVisits(policies[..i + 1], usage, now), |PolicyVisits(policies[..i], usage, now)|;
    VisitsOfPolicy(policies, i, usage, now);
    FewerTargetedOnce(policies, i + 1);
    VisitsDistinct(policies[..i + 1], usage, now);
    SomeCoveredIff(data, visits, from, now, b);
    var m: nat :| from <= m < |visits|
      && Spans(Observed(At(data, visits[m].key), visits[m].reading, b), visits[m].window, now);
    var v := visits[m];
    assert v in visits;
    j, t := VisitOfPod(policies[i].pods, usage, now, v);
    key := v.key;
    SeriesAfterTick(data, policies, usage, now, b, v);
    ReadingIs(v, policies[i].pods[j].targets[t], usage, now);
  }

  lemma WarmIsEnqueued(data: map<Key, Series>, policies: seq<PolicyView>, i: nat, usage: Usage, now: int, b: Bounds,
                       j: nat, t: nat, key: Key)
    requires b.maxLen >= 1 && b.retention >= 0 && i < |policies| && TargetedOnce(policies)
    requires WarmAt(Ticked(data, PolicyVisits(policies, usage, now), b), policies, i, j, t, key, now)
    ensures Enqueues(data, policies, i, usage, now, b)
  {
    hide Observed, PolicyVisits, PodVisits, TargetedOnce, Spans, SomeCovered, DistinctKeys, IsTarget, Ticked, NewestIs;
    var visits, from := PolicyVisits(policies[..i + 1], usage, now), |PolicyVisits(policies[..i], usage, now)|;
    VisitsOfPolicy(policies, i, usage, now);
    TickReadsUsage(data, policies, usage, now, b, key);
    var v := PodIsVisited(policies[i].pods, usage, now, j, t, key);
    var l, u := VisitOfPod(policies[i].pods, usage, now, v);
    PodsOfPolicyOnce(policies, i);
    ReadingIs(v, policies[i].pods[l].targets[u], usage, now);
    var m: nat :| m < |PodVisits(policies[i].pods, usage, now)| && PodVisits(policies[i].pods, usage, now)[m] == v;
    assert visits[from + m] == v;
    assert v in visits;
    SeriesAfterTick(data, policies, usage, now, b, v);
    FewerTargetedOnce(policies, i + 1);
    VisitsDistinct(policies[..i + 1], usage, now);
    SomeCoveredIff(data, visits, from, now, b);
  }

  /** A policy is handed to the reconciler iff one of its containers has a series that spans its window by now. */
  lemma EnqueuedIff(data: map<Key, Series>, policies: seq<PolicyView>, i: nat, usage: Usage, now: int, b: Bounds)
    requires b.maxLen >= 1 && b.retention >= 0 && i < |policies| && TargetedOnce(policies)
    ensures var after := Ticked(data, PolicyVisits(policies, usage, now), b);
            Enqueues(data, policies, i, usage, now, b) <==>
            exists j: nat, t: nat, key: Key :: WarmAt(after, policies, i, j, t, key, now)
  {
    hide Enqueues, WarmAt, PolicyVisits, TargetedOnce, Ticked;
    var after := Ticked(data, PolicyVisits(policies, usage, now), b);
    if Enqueues(data, policies, i, usage, now, b) {
      var j, t, key := EnqueuedIsWarm(data, policies, i, usage, now, b);
    }
    if j: nat, t: nat, key: Key :| WarmAt(after, policies, i, j, t, key, now) {
      WarmIsEnqueued(data, policies, i, usage, now, b, j, t, key);
    }
  }
}
