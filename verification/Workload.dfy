/** The managed workload of internal/restart/restart.go: its version, its settled state, and the restart patch. */
module Workload {
  import opened Wrappers

  const RESTARTED_AT := "kubectl.kubernetes.io/restartedAt"

  datatype Kind = Deployment | StatefulSet | Rollout

  /** A pod template: its annotations (nil or a map) and everything else, serialized. */
  datatype Template = Template(annotations: Option<map<string, string>>, rest: string)

  /** What the fingerprint hashes: the restart stamp is removed, and an empty map is omitted like a nil one. */
  datatype Canonical = Canonical(annotations: map<string, string>, rest: string)

  function Annotations(t: Template): map<string, string> {
    match t.annotations
    case None => map[]
    case Some(m) => m
  }

  function Canonicalize(t: Template): Canonical {
    Canonical(Annotations(t) - {RESTARTED_AT}, t.rest)
  }

  function Stamped(t: Template, stamp: string): Template {
    t.(annotations := Some(Annotations(t)[RESTARTED_AT := stamp]))
  }

  /** The status numbers the settled checks read. */
  datatype Progress = Progress(
    generation: int,
    observedGeneration: int,
    replicas: Option<int>,
    updated: int,
    total: int,
    available: int,
    unavailable: int,
    ready: int,
    currentRevision: string,
    updateRevision: string,
    phase: string)

  function Desired(p: Progress): int { if p.replicas.Some? then p.replicas.value else 1 }

  predicate DeploymentSettled(p: Progress) {
    && p.observedGeneration >= p.generation
    && p.updated == Desired(p) && p.total == Desired(p) && p.available == Desired(p) && p.unavailable == 0
  }

  predicate StatefulSetSettled(p: Progress) {
    && p.observedGeneration >= p.generation && p.currentRevision == p.updateRevision
    && p.updated == Desired(p) && p.total == Desired(p) && p.ready == Desired(p)
  }

  predicate RolloutSettled(p: Progress) {
    !(p.observedGeneration != 0 && p.observedGeneration < p.generation) && p.phase == "Healthy"
  }

  predicate Settled(kind: Kind, p: Progress) {
    match kind
    case Deployment => DeploymentSettled(p)
    case StatefulSet => StatefulSetSettled(p)
    case Rollout => RolloutSettled(p)
  }

  type Hash = Canonical -> string

  /** How templates and instants become text: the fingerprint, and the stamp of an instant. */
  datatype Encoding = Encoding(hash: Hash, stamp: int -> string)

  /** A workload object as the API server stores it. */
  datatype Live = Live(
    kind: Kind,
    uid: string,
    updatesOnDelete: bool,
    template: Template,
    restartAt: Option<string>,
    podHash: string,
    progress: Progress)
  {
    const settled: bool := Settled(kind, progress)

    const onDelete: bool := kind.StatefulSet? && updatesOnDelete

    /** Deployments and StatefulSets hash the template; a Rollout reports its pod hash. */
    function Version(hash: Hash): string {
      if kind.Rollout? then podHash else hash(Canonicalize(template))
    }

    /** The trigger the restart patch sets already carries this stamp. */
    predicate Carries(stamp: string) {
      if kind.Rollout? then restartAt == Some(stamp)
      else RESTARTED_AT in Annotations(template) && Annotations(template)[RESTARTED_AT] == stamp
    }

    /** The object after the restart patch; the API server counts a new generation when the spec changes. */
    function Patched(stamp: string): Live {
      var t := if kind.Rollout? then template else Stamped(template, stamp);
      var r := if kind.Rollout? then Some(stamp) else restartAt;
      var g := if t != template || r != restartAt then progress.generation + 1 else progress.generation;
      this.(template := t, restartAt := r, progress := progress.(generation := g))
    }
  }

  class Object {
    const kind: Kind
    const uid: string
    const updatesOnDelete: bool
    var template: Template
    var restartAt: Option<string>
    var podHash: string
    var progress: Progress

    constructor (o: Live)
      ensures View() == o
    {
      kind := o.kind;
      uid := o.uid;
      updatesOnDelete := o.updatesOnDelete;
      template := o.template;
      restartAt := o.restartAt;
      podHash := o.podHash;
      progress := o.progress;
    }

    function View(): Live
      reads this
    {
      Live(kind, uid, updatesOnDelete, template, restartAt, podHash, progress)
    }

    method SetTemplateRestartedAt(stamp: string)
      modifies this`template
      ensures template == Stamped(old(template), stamp)
    {
      if template.annotations.None? {
        template := template.(annotations := Some(map[]));
      }
      template := template.(annotations := Some(template.annotations.value[RESTARTED_AT := stamp]));
    }

    /** Stamps the restart trigger and sends it. */
    method Dispatch(stamp: string)
      modifies this`template, this`restartAt, this`progress
      ensures View() == old(View()).Patched(stamp)
      ensures forall hash: Hash :: View().Version(hash) == old(View()).Version(hash)
    {
      ghost var was := View();
      var changed := false;
      match kind {
        case Rollout =>
          changed := restartAt != Some(stamp);
          restartAt := Some(stamp);
        case _ =>
          var before := template;
          SetTemplateRestartedAt(stamp);
          changed := template != before;
      }
      if changed {
        progress := progress.(generation := progress.generation + 1);
      }
      forall hash: Hash ensures View().Version(hash) == was.Version(hash) { PatchKeepsVersion(was, stamp, hash); }
    }
  }

  /** The restart patch never moves the version, for any kind and any fingerprint function. */
  lemma PatchKeepsVersion(o: Live, stamp: string, hash: Hash)
    ensures o.Patched(stamp).Version(hash) == o.Version(hash)
    ensures o.Patched(stamp).uid == o.uid && o.Patched(stamp).onDelete == o.onDelete
  {
    StampKeepsCanonical(o.template, stamp);
  }

  /** The controller's own stamp never moves the fingerprint, whether annotations were nil or not. */
  lemma StampKeepsCanonical(t: Template, stamp: string)
    ensures Canonicalize(Stamped(t, stamp)) == Canonicalize(t)
  {
  }

  /** Two templates hash alike exactly when they agree in everything but the stamp; nil and empty annotations agree. */
  lemma CanonicalSeparates(t: Template, u: Template)
    ensures Canonicalize(t) == Canonicalize(u) <==>
              && t.rest == u.rest
              && forall k :: k != RESTARTED_AT ==>
                   (k in Annotations(t) <==> k in Annotations(u))
                   && (k in Annotations(t) && k in Annotations(u) ==> Annotations(t)[k] == Annotations(u)[k])
  {
    var a, b := Annotations(t), Annotations(u);
    var a', b' := a - {RESTARTED_AT}, b - {RESTARTED_AT};
    if Canonicalize(t) == Canonicalize(u) {
      forall k | k != RESTARTED_AT
        ensures (k in a <==> k in b) && (k in a && k in b ==> a[k] == b[k])
      {
        assert k in a <==> k in a';
        assert k in b <==> k in b';
      }
    }
    if forall k :: k != RESTARTED_AT ==> (k in a <==> k in b) && (k in a && k in b ==> a[k] == b[k]) {
      assert a' == b';
    }
  }

  /** The patch counts a new generation exactly when the trigger did not carry this stamp yet. */
  lemma PatchCountsGeneration(o: Live, stamp: string)
    ensures o.Patched(stamp).progress
            == o.progress.(generation := o.progress.generation + if o.Carries(stamp) then 0 else 1)
    ensures o.Patched(stamp).Carries(stamp)
  {
    if !o.kind.Rollout? {
      var a := Annotations(o.template);
      if o.Carries(stamp) {
        assert a[RESTARTED_AT := stamp] == a;
      } else {
        assert Annotations(Stamped(o.template, stamp))[RESTARTED_AT] == stamp;
      }
    }
  }

  /** After a fresh stamp, only a healthy Rollout that reports no observed generation still looks settled. */
  lemma PatchUnsettles(o: Live, stamp: string)
    requires o.progress.observedGeneration <= o.progress.generation && !o.Carries(stamp)
    ensures o.Patched(stamp).settled <==>
              o.kind.Rollout? && o.progress.observedGeneration == 0 && o.progress.phase == "Healthy"
  {
    PatchCountsGeneration(o, stamp);
  }

  /** The patch touches nothing but the restart trigger of the kind, and the generation. */
  lemma PatchTouchesOnlyTrigger(o: Live, stamp: string)
    ensures var n := o.Patched(stamp);
            && n.kind == o.kind && n.uid == o.uid && n.updatesOnDelete == o.updatesOnDelete && n.podHash == o.podHash
            && n.progress.(generation := o.progress.generation) == o.progress
            && (o.kind.Rollout? ==> n.template == o.template && n.restartAt == Some(stamp))
            && (!o.kind.Rollout? ==>
                  && n.restartAt == o.restartAt && n.template.rest == o.template.rest
                  && n.template.annotations.Some?
                  && n.template.annotations.value.Keys == Annotations(o.template).Keys + {RESTARTED_AT}
                  && n.template.annotations.value[RESTARTED_AT] == stamp
                  && forall a :: a in Annotations(o.template) && a != RESTARTED_AT ==>
                       n.template.annotations.value[a] == Annotations(o.template)[a])
  {
  }

  // ---- What settled means -----------------------------------------------------------------

  /** The spec asks for n replicas. */
  predicate Asks(p: Progress, n: int) { p.replicas == Some(n) || (p.replicas.None? && n == 1) }

  /** All n pods of the newest revision run, and there is no other. */
  predicate FullyOut(kind: Kind, p: Progress, n: int) {
    && p.updated == n && p.total == n
    && (kind.Deployment? ==> p.available == n && p.unavailable == 0)
    && (kind.StatefulSet? ==> p.ready == n && p.currentRevision == p.updateRevision)
  }

  /** A Deployment or StatefulSet is settled iff its controller saw the newest spec and it is out as the spec asks. */
  lemma SettledIffFullyOut(kind: Kind, p: Progress, n: int)
    requires !kind.Rollout? && Asks(p, n)
    ensures Settled(kind, p) <==> p.generation <= p.observedGeneration && FullyOut(kind, p, n)
  {
  }

  /** It is unsettled by a pod that is down, by another one of an old revision, and by a new size. */
  lemma AnyPodUnsettles(kind: Kind, p: Progress, d: int, revision: string)
    requires !kind.Rollout? && Settled(kind, p) && d > 0
    ensures !Settled(kind, p.(available := p.available - d, ready := p.ready - d))
    ensures !Settled(kind, p.(unavailable := d, ready := p.ready - d))
    ensures !Settled(kind, p.(total := p.total + d)) && !Settled(kind, p.(updated := p.updated - d))
    ensures !Settled(kind, p.(replicas := Some(Desired(p) + d)))
    ensures revision != p.updateRevision && kind.StatefulSet? ==> !Settled(kind, p.(currentRevision := revision))
  {
  }
}
