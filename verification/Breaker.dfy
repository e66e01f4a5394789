/** The circuit breaker and status bookkeeping of internal/restart/breaker.go. Times are integer seconds. */
module Breaker {
  import opened Wrappers
  import opened PolicyTypes

  /** The breaker window is still active: not aged out, and the version is the stored one (or none is stored). */
  predicate SameWindow(b: Bookkeeping, version: string, now: int, window: int) {
    b.windowStart.Some? && now - b.windowStart.value < window && (b.version == "" || b.version == version)
  }

  predicate BreakerTripped(b: Bookkeeping, version: string, now: int, l: Limits) {
    l.max > 0 && SameWindow(b, version, now, l.window) && b.restartCount >= l.max
  }

  predicate InCooldown(b: Bookkeeping, now: int, cooldown: int) {
    b.lastRestartAt.Some? && now - b.lastRestartAt.value < cooldown
  }

  /** A restart at `now` passes both guards. */
  predicate Admitted(b: Bookkeeping, version: string, now: int, l: Limits) {
    !InCooldown(b, now, l.cooldown) && !BreakerTripped(b, version, now, l)
  }

  /** The bookkeeping after a restart: the window is extended, or rolls over to one that starts now. */
  function Rolled(b: Bookkeeping, version: string, now: int, window: int): Bookkeeping {
    if SameWindow(b, version, now, window)
    then Bookkeeping(Some(now), b.restartCount + 1, b.windowStart, version)
    else Bookkeeping(Some(now), 1, Some(now), version)
  }

  function NewRecord(version: string, cause: Cause, now: int): Record {
    Record(now, None, cause, version, InProgress)
  }

  function Applied(st: Status, version: string, cause: Cause, now: int, window: int): Status {
    st.(breaker := Rolled(st.breaker, version, now, window),
        history := LastN(st.history + [NewRecord(version, cause, now)], RESTART_HISTORY_LIMIT),
        inFlight := Some(InFlight(now, version)),
        rolloutInProgress := Some(true))
  }

  function ClosedRecord(r: Record, now: int, outcome: Outcome): Record {
    if r.completedAt.None? then r.(completedAt := Some(now), outcome := outcome) else r
  }

  function Completed(st: Status, now: int, outcome: Outcome): Status {
    var n := |st.history|;
    st.(history := if n == 0 then [] else st.history[n - 1 := ClosedRecord(st.history[n - 1], now, outcome)],
        inFlight := None,
        rolloutInProgress := Some(false))
  }

  function Publish(b: Bookkeeping, was: Published, now: int, l: Limits): Published {
    var active := b.windowStart.Some? && now - b.windowStart.value < l.window;
    Published(
      l.max > 0 && active && b.restartCount >= l.max,
      if l.max <= 0 then 0
      else if !active then l.max
      else if l.max > b.restartCount then l.max - b.restartCount
      else 0,
      if b.lastRestartAt.Some? then Some(b.lastRestartAt.value + l.cooldown) else was.nextEligible)
  }

  function Recomputed(st: Status, now: int, l: Limits): Status {
    st.(published := Publish(st.breaker, st.published, now, l))
  }

  predicate Recreated(st: Status, uid: string) { st.workloadUID != "" && st.workloadUID != uid }

  function Adopted(st: Status, uid: string): Status {
    if Recreated(st, uid)
    then st.(workloadUID := uid, breaker := NO_RESTARTS, inFlight := None, history := [])
    else st.(workloadUID := uid)
  }

  // ---- The status object, updated in place --------------------------------------------

  class PolicyStatus {
    var workloadUID: string
    var lastRestartAt: Option<int>
    var restartCount: int
    var windowStart: Option<int>
    var version: string
    var inFlight: Option<InFlight>
    var breakerTripped: bool
    var dryRun: bool
    var nextEligibleRestart: Option<int>
    var restartsRemaining: int
    var history: seq<Record>
    var rolloutInProgress: Option<bool>

    function Counters(): Bookkeeping
      reads this
    {
      Bookkeeping(lastRestartAt, restartCount, windowStart, version)
    }

    function View(): Status
      reads this
    {
      Status(workloadUID, Counters(), inFlight, history, rolloutInProgress,
                           Published(breakerTripped, restartsRemaining, nextEligibleRestart), dryRun)
    }

    /** The copy a client read decodes. */
    constructor (st: Status)
      ensures View() == st
    {
      workloadUID := st.workloadUID;
      lastRestartAt := st.breaker.lastRestartAt;
      restartCount := st.breaker.restartCount;
      windowStart := st.breaker.windowStart;
      version := st.breaker.version;
      inFlight := st.inFlight;
      breakerTripped := st.published.tripped;
      dryRun := st.dryRun;
      nextEligibleRestart := st.published.nextEligible;
      restartsRemaining := st.published.remaining;
      history := st.history;
      rolloutInProgress := st.rolloutInProgress;
    }

    method ApplyRestart(ver: string, cause: Cause, now: int, window: int)
      modifies this
      ensures View() == Applied(old(View()), ver, cause, now, window)
    {
      var same := SameWindow(Counters(), ver, now, window);
      if !same {
        restartCount := 1;
        windowStart := Some(now);
      } else {
        restartCount := restartCount + 1;
      }
      lastRestartAt := Some(now);
      version := ver;
      var h := history + [Record(now, None, cause, ver, InProgress)];
      if |h| > RESTART_HISTORY_LIMIT {
        h := h[|h| - RESTART_HISTORY_LIMIT..];
      }
      history := h;
      inFlight := Some(InFlight(now, ver));
      rolloutInProgress := Some(true);
    }

    method CompleteInFlight(now: int, outcome: Outcome)
      modifies this
      ensures View() == Completed(old(View()), now, outcome)
    {
      var n := |history|;
      if n > 0 && history[n - 1].completedAt.None? {
        history := history[n - 1 := history[n - 1].(completedAt := Some(now), outcome := outcome)];
      }
      inFlight := None;
      rolloutInProgress := Some(false);
    }

    method RecomputeObservability(now: int, l: Limits)
      modifies this
      ensures View() == Recomputed(old(View()), now, l)
    {
      var tripped, remaining := false, 0;
      if l.max > 0 {
        if windowStart.Some? && now - windowStart.value < l.window {
          tripped := restartCount >= l.max;
          var d := l.max - restartCount;
          if d > 0 {
            remaining := d;
          }
        } else {
          remaining := l.max;
        }
      }
      breakerTripped := tripped;
      restartsRemaining := remaining;
      if lastRestartAt.Some? {
        nextEligibleRestart := Some(lastRestartAt.value + l.cooldown);
      }
    }

    method AdoptWorkload(uid: string)
      modifies this
      ensures View() == Adopted(old(View()), uid)
    {
      if workloadUID != "" && workloadUID != uid {
        lastRestartAt := None;
        restartCount := 0;
        windowStart := None;
        version := "";
        inFlight := None;
        history := [];
      }
      workloadUID := uid;
    }
  }

  // ---- The published budget -------------------------------------------------------------

  /** The bookkeeping after restarts of one version at the given times. */
  function RolledAll(b: Bookkeeping, version: string, times: seq<int>, window: int): Bookkeeping {
    if times == [] then b
    else Rolled(RolledAll(b, version, times[..|times| - 1], window), version, times[|times| - 1], window)
  }

  /** None of the restarts at the given times meets a tripped breaker. */
  ghost predicate FitsBreaker(b: Bookkeeping, version: string, times: seq<int>, l: Limits) {
    forall i :: 0 <= i < |times| ==>
      !BreakerTripped(RolledAll(b, version, times[..i], l.window), version, times[i], l)
  }

  /** The times lie in the window active at `now`, or, if none is, in the one the first of them opens. */
  ghost predicate WithinOneWindow(b: Bookkeeping, now: int, times: seq<int>, window: int) {
    && (forall i :: 0 <= i < |times| ==> now <= times[i])
    && (forall i :: 0 <= i < |times| ==>
          times[i] - (if b.windowStart.Some? && now - b.windowStart.value < window
                      then b.windowStart.value else times[0]) < window)
  }

  lemma {:induction false} RolledWithin(b: Bookkeeping, now: int, times: seq<int>, window: int)
    requires WithinOneWindow(b, now, times, window)
    ensures var r, active := RolledAll(b, b.version, times, window),
                             b.windowStart.Some? && now - b.windowStart.value < window;
            && (times == [] ==> r == b)
            && (times != [] ==>
                  && r.restartCount == (if active then b.restartCount else 0) + |times|
                  && r.windowStart == (if active then b.windowStart else Some(times[0]))
                  && r.version == b.version)
  {
    if times != [] {
      var before := times[..|times| - 1];
      RolledWithin(b, now, before, window);
      if before != [] { assert before[0] == times[0]; }
    }
  }

  /** RestartsRemaining is exactly how many further restarts of the stored version fit one window. */
  lemma RemainingIsExact(b: Bookkeeping, was: Published, now: int, l: Limits, times: seq<int>)
    requires l.max > 0 && WithinOneWindow(b, now, times, l.window)
    ensures FitsBreaker(b, b.version, times, l) <==> |times| <= Publish(b, was, now, l).remaining
  {
    var remaining := Publish(b, was, now, l).remaining;
    forall i | 0 <= i < |times|
      ensures !BreakerTripped(RolledAll(b, b.version, times[..i], l.window), b.version, times[i], l)
              <==> i < remaining
    {
      RolledWithin(b, now, times[..i], l.window);
      if i > 0 { assert times[..i][0] == times[0]; }
    }
    if |times| > remaining {
      assert BreakerTripped(RolledAll(b, b.version, times[..remaining], l.window), b.version, times[remaining], l);
    }
  }

  /** The published flag is exact for the stored version, and an upper bound for any other. */
  lemma PublishedFlagIsUpperBound(b: Bookkeeping, was: Published, now: int, l: Limits, version: string)
    ensures Publish(b, was, now, l).tripped <==> BreakerTripped(b, b.version, now, l)
    ensures BreakerTripped(b, version, now, l) ==> Publish(b, was, now, l).tripped
    ensures Publish(b, was, now, l).tripped && !BreakerTripped(b, version, now, l) ==>
              b.version != "" && b.version != version
  {
  }

  /** The published instant is exactly where the cooldown ends. */
  lemma NextEligibleIsExact(b: Bookkeeping, was: Published, now: int, l: Limits, t: int)
    requires b.lastRestartAt.Some?
    ensures InCooldown(b, t, l.cooldown) <==> t < Publish(b, was, now, l).nextEligible.value
  {
  }
}
