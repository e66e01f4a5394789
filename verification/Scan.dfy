/** The search of a reconcile for the first leaking container (internal/controller/reconciler.go). */
module Scan {
  import opened PolicyTypes
  import opened Detection

  /** A pod's owner as resolved: none, a failed lookup, or a workload at or off the current revision. */
  datatype Owner = NoOwner | LookupFails | OwnedBy(current: bool)

  /** A monitored container with the samples the store holds for it. */
  datatype Target = Target(name: string, settings: Settings, samples: seq<Sample>)

  datatype Pod = Pod(ready: bool, age: int, owner: Owner, targets: seq<Target>)

  datatype Finding = Nothing | Unreadable | Breach(cause: Cause)

  ghost predicate Leaks(t: Target, now: int) { Judge(t.samples, t.settings, now).leaking }

  ghost function CauseOf(t: Target, now: int): Cause {
    var v := Judge(t.samples, t.settings, now);
    Cause(t.name, v.observed, v.threshold)
  }

  ghost function FirstTarget(targets: seq<Target>, now: int): Finding {
    if targets == [] then Nothing
    else if Leaks(targets[0], now) then Breach(CauseOf(targets[0], now))
    else FirstTarget(targets[1..], now)
  }

  /** The pod is Ready and past its startup grace. */
  predicate Healthy(p: Pod, grace: int) { p.ready && p.age >= grace }

  ghost function InPod(p: Pod, grace: int, now: int): Finding {
    if !Healthy(p, grace) then Nothing
    else
      match p.owner
      case NoOwner => Nothing
      case LookupFails => Unreadable
      case OwnedBy(current) => if current then FirstTarget(p.targets, now) else Nothing
  }

  ghost function FirstBreach(pods: seq<Pod>, grace: int, now: int): Finding {
    if pods == [] then Nothing
    else if InPod(pods[0], grace, now).Nothing? then FirstBreach(pods[1..], grace, now)
    else InPod(pods[0], grace, now)
  }

  method FindBreach(pods: seq<Pod>, grace: int, now: int) returns (f: Finding)
    ensures f == FirstBreach(pods, grace, now)
  {
    for i := 0 to |pods|
      invariant FirstBreach(pods, grace, now) == FirstBreach(pods[i..], grace, now)
    {
      var pod := pods[i];
      assert pods[i..][0] == pod && pods[i..][1..] == pods[i + 1..];
      if !pod.ready || pod.age < grace {
        continue;
      }
      match pod.owner {
        case NoOwner => continue;
        case LookupFails => return Unreadable;
        case OwnedBy(current) =>
          if !current {
            continue;
          }
      }
      for j := 0 to |pod.targets|
        invariant FirstTarget(pod.targets, now) == FirstTarget(pod.targets[j..], now)
      {
        assert pod.targets[j..][0] == pod.targets[j] && pod.targets[j..][1..] == pod.targets[j + 1..];
        var res := Detect(pod.targets[j].samples, pod.targets[j].settings, now);
        if res.leaking {
          return Breach(Cause(pod.targets[j].name, res.observed, res.threshold));
        }
      }
    }
    return Nothing;
  }

  /** The pod is one whose containers are evaluated. */
  predicate Evaluated(p: Pod, grace: int) { Healthy(p, grace) && p.owner == OwnedBy(true) }

  /** Nothing in the pod stops the search. */
  ghost predicate Quiet(p: Pod, grace: int, now: int) {
    && !(Healthy(p, grace) && p.owner.LookupFails?)
    && (Evaluated(p, grace) ==> forall t :: t in p.targets ==> !Leaks(t, now))
  }

  lemma {:induction false} NoTargetLeaks(targets: seq<Target>, now: int)
    ensures !FirstTarget(targets, now).Unreadable?
    ensures FirstTarget(targets, now) == Nothing <==> forall t :: t in targets ==> !Leaks(t, now)
  {
    hide Leaks, CauseOf;
    if targets != [] {
      NoTargetLeaks(targets[1..], now);
      assert targets == [targets[0]] + targets[1..];
    }
  }

  /** The search goes past every pod exactly when each of them is quiet. */
  lemma {:induction false} NoBreachIffQuiet(pods: seq<Pod>, grace: int, now: int)
    ensures FirstBreach(pods, grace, now) == Nothing <==> forall p :: p in pods ==> Quiet(p, grace, now)
  {
    hide Leaks, FirstTarget;
    if pods != [] {
      NoTargetLeaks(pods[0].targets, now);
      NoBreachIffQuiet(pods[1..], grace, now);
      assert InPod(pods[0], grace, now).Nothing? <==> Quiet(pods[0], grace, now);
      assert forall p :: p in pods <==> p == pods[0] || p in pods[1..];
    }
  }

  /** c describes container j of these, and no earlier one leaks. */
  ghost predicate LeaksFirst(targets: seq<Target>, j: nat, now: int, c: Cause) {
    j < |targets| && Leaks(targets[j], now) && c == CauseOf(targets[j], now)
    && forall t :: t in targets[..j] ==> !Leaks(t, now)
  }

  lemma {:induction false} FirstTargetIs(targets: seq<Target>, now: int) returns (j: nat)
    requires FirstTarget(targets, now).Breach?
    ensures LeaksFirst(targets, j, now, FirstTarget(targets, now).cause)
  {
    hide Leaks, CauseOf;
    if Leaks(targets[0], now) {
      j := 0;
    } else {
      j := FirstTargetIs(targets[1..], now);
      assert targets[..j + 1] == [targets[0]] + targets[1..][..j];
      j := j + 1;
    }
  }

  /** A breach is the first leak of an evaluated pod, and every pod before that one is quiet. */
  lemma {:induction false} FirstBreachIs(pods: seq<Pod>, grace: int, now: int) returns (i: nat, j: nat)
    requires FirstBreach(pods, grace, now).Breach?
    ensures i < |pods| && Evaluated(pods[i], grace)
    ensures LeaksFirst(pods[i].targets, j, now, FirstBreach(pods, grace, now).cause)
    ensures forall p :: p in pods[..i] ==> Quiet(p, grace, now)
  {
    hide Leaks, FirstTarget, LeaksFirst;
    if InPod(pods[0], grace, now).Nothing? {
      NoTargetLeaks(pods[0].targets, now);
      i, j := FirstBreachIs(pods[1..], grace, now);
      assert pods[..i + 1] == [pods[0]] + pods[1..][..i];
      i := i + 1;
    } else {
      i := 0;
      j := FirstTargetIs(pods[0].targets, now);
    }
  }

  /** A pod that is not Ready or too young, has no owner, or is of an old revision. */
  predicate LeftOut(p: Pod, grace: int) {
    !p.ready || p.age < grace || p.owner.NoOwner? || p.owner == OwnedBy(false)
  }

  /** Such a pod makes no difference, wherever it is listed. */
  lemma {:induction false} LeftOutChangesNothing(before: seq<Pod>, p: Pod, after: seq<Pod>, grace: int, now: int)
    requires LeftOut(p, grace)
    ensures FirstBreach(before + [p] + after, grace, now) == FirstBreach(before + after, grace, now)
  {
    hide FirstTarget;
    var all := before + [p] + after;
    if before == [] {
      assert all[0] == p && all[1..] == after && before + after == after;
    } else {
      LeftOutChangesNothing(before[1..], p, after, grace, now);
      assert all[0] == before[0] && all[1..] == before[1..] + [p] + after;
      assert (before + after)[0] == before[0] && (before + after)[1..] == before[1..] + after;
    }
  }

  /** Any other pod, listed first, fails the search if its owner cannot be read, and else stops it iff one leaks. */
  lemma FirstPodDecides(p: Pod, after: seq<Pod>, grace: int, now: int)
    requires !LeftOut(p, grace)
    ensures var f := FirstBreach([p] + after, grace, now);
            if p.owner.LookupFails? then f == Unreadable
            else if exists t :: t in p.targets && Leaks(t, now) then f.Breach?
            else f == FirstBreach(after, grace, now)
  {
    hide Leaks, FirstTarget;
    NoTargetLeaks(p.targets, now);
    assert ([p] + after)[0] == p && ([p] + after)[1..] == after;
  }
}
