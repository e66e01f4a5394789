/** The durable per-workload state of api/v1alpha1/memoryleakpolicy_types.go, as far as the controller reads it. */
module PolicyTypes {
  import opened Wrappers

  const RESTART_HISTORY_LIMIT := 10

  datatype Outcome = InProgress | Settled | TimedOut | Failed | Superseded

  /** Why a restart was triggered. */
  datatype Cause = Cause(container: string, observed: int, threshold: int)

  /** One entry of the audit trail. */
  datatype Record = Record(
    triggeredAt: int,
    completedAt: Option<int>,
    cause: Cause,
    version: string,
    outcome: Outcome)

  /** The marker of a dispatched rollout that has not been closed. */
  datatype InFlight = InFlight(dispatchedAt: int, dispatchedVersion: string)

  /** The circuit-breaker fields. */
  datatype Bookkeeping = Bookkeeping(
    lastRestartAt: Option<int>,
    restartCount: int,
    windowStart: Option<int>,
    version: string)

  const NO_RESTARTS := Bookkeeping(None, 0, None, "")

  /** The fields shown in printer columns. */
  datatype Published = Published(tripped: bool, remaining: int, nextEligible: Option<int>)

  /** rolloutInProgress is the condition of that name, None until first set. */
  datatype Status = Status(
    workloadUID: string,
    breaker: Bookkeeping,
    inFlight: Option<InFlight>,
    history: seq<Record>,
    rolloutInProgress: Option<bool>,
    published: Published,
    dryRun: bool)

  const EMPTY_STATUS := Status("", NO_RESTARTS, None, [], None, Published(false, 0, None), false)

  /** The resolved settings a restart decision uses. */
  datatype Limits = Limits(cooldown: int, window: int, max: int)

  /** The last n elements, or all of a shorter sequence. */
  function LastN<T>(s: seq<T>, n: nat): (r: seq<T>)
    ensures |r| == if |s| <= n then |s| else n
    ensures forall i :: 0 <= i < |r| ==> r[i] == s[|s| - |r| + i]
  {
    if |s| <= n then s else s[|s| - n..]
  }
}
