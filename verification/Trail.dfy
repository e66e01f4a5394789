/** The unbounded log behind a policy status: every restart counted since the status was last reset. */
module Trail {
  import opened Wrappers
  import opened PolicyTypes
  import opened Breaker

  /** A counted restart, the settings it was admitted under, and whether the cluster was then patched. */
  datatype Entry = Entry(rec: Record, limits: Limits, dispatched: bool)

  type Trail = seq<Entry>

  /** The breaker fields as a fold over the log. */
  function Replay(t: Trail): Bookkeeping {
    if t == [] then NO_RESTARTS
    else
      var e := t[|t| - 1];
      Rolled(Replay(t[..|t| - 1]), e.rec.version, e.rec.triggeredAt, e.limits.window)
  }

  /** Every restart passed the cooldown and breaker guards at its time, and times never decrease. */
  ghost predicate Guarded(t: Trail) {
    t == []
    || (var n, e := |t| - 1, t[|t| - 1];
        && Guarded(t[..n])
        && Admitted(Replay(t[..n]), e.rec.version, e.rec.triggeredAt, e.limits)
        && (n > 0 ==> t[n - 1].rec.triggeredAt <= e.rec.triggeredAt))
  }

  ghost predicate Open(r: Record) { r.completedAt.None? }

  /** A record is open exactly while its outcome is InProgress. */
  ghost predicate HonestRecords(t: Trail) {
    forall i :: 0 <= i < |t| ==> (Open(t[i].rec) <==> t[i].rec.outcome == InProgress)
  }

  /** The in-flight marker is set exactly when the newest record is open, and then agrees with it. */
  ghost predicate MarkerMatches(st: Status, t: Trail) {
    && (st.inFlight.Some? <==> t != [] && Open(t[|t| - 1].rec))
    && (st.inFlight.Some? ==>
          && st.inFlight.value == InFlight(t[|t| - 1].rec.triggeredAt, t[|t| - 1].rec.version)
          && st.rolloutInProgress == Some(true))
  }

  /** The stored history is the newest part of the log. */
  ghost predicate HistoryMatches(h: seq<Record>, t: Trail) {
    && |h| == Min(|t|, RESTART_HISTORY_LIMIT)
    && forall i :: 0 <= i < |h| ==> h[i] == t[|t| - |h| + i].rec
  }

  /** A status is the bounded summary of a guarded log that ends no later than `now`. */
  ghost predicate Summarizes(st: Status, t: Trail, now: int) {
    && st.breaker == Replay(t)
    && Guarded(t)
    && HonestRecords(t)
    && HistoryMatches(st.history, t)
    && MarkerMatches(st, t)
    && (t != [] ==> t[|t| - 1].rec.triggeredAt <= now)
  }

  // ---- The three ways a status changes ---------------------------------------------

  function Extended(t: Trail, rec: Record, l: Limits): Trail { t + [Entry(rec, l, false)] }

  function ClosedLast(t: Trail, now: int, outcome: Outcome): Trail {
    if t == [] then t
    else
      var n := |t| - 1;
      t[..n] + [t[n].(rec := ClosedRecord(t[n].rec, now, outcome))]
  }

  function StampedLast(t: Trail): Trail {
    if t == [] then t else t[..|t| - 1] + [t[|t| - 1].(dispatched := true)]
  }

  lemma HistoryExtends(h: seq<Record>, t: Trail, e: Entry)
    requires HistoryMatches(h, t)
    ensures HistoryMatches(LastN(h + [e.rec], RESTART_HISTORY_LIMIT), t + [e])
  {
    var all, u := h + [e.rec], t + [e];
    assert forall i :: 0 <= i < |all| ==> all[i] == u[|u| - |all| + i].rec;
  }

  lemma HistoryReplaced(h: seq<Record>, t: Trail, e: Entry)
    requires HistoryMatches(h, t) && t != []
    ensures h != [] && h[|h| - 1] == t[|t| - 1].rec
    ensures HistoryMatches(h[|h| - 1 := e.rec], t[..|t| - 1] + [e])
  {
  }

  lemma HonestReplaced(t: Trail, e: Entry)
    requires HonestRecords(t) && t != [] && (Open(e.rec) <==> e.rec.outcome == InProgress)
    ensures HonestRecords(t[..|t| - 1] + [e])
  {
  }

  lemma LogExtends(t: Trail, e: Entry)
    requires Guarded(t) && Admitted(Replay(t), e.rec.version, e.rec.triggeredAt, e.limits)
    requires t != [] ==> t[|t| - 1].rec.triggeredAt <= e.rec.triggeredAt
    ensures Guarded(t + [e])
    ensures Replay(t + [e]) == Rolled(Replay(t), e.rec.version, e.rec.triggeredAt, e.limits.window)
  {
  }

  /** Counting an admitted restart extends the log by it. */
  lemma ApplyExtendsLog(st: Status, t: Trail, version: string, cause: Cause, now: int, l: Limits)
    requires Summarizes(st, t, now) && Admitted(st.breaker, version, now, l)
    ensures Summarizes(Recomputed(Applied(st, version, cause, now, l.window), now, l),
                       Extended(t, NewRecord(version, cause, now), l), now)
  {
    hide Admitted, Rolled, Replay, Guarded, Publish, HistoryMatches, LastN;
    var e := Entry(NewRecord(version, cause, now), l, false);
    LogExtends(t, e);
    HistoryExtends(st.history, t, e);
  }

  lemma {:induction false} LastReplaced(t: Trail, e: Entry)
    requires t != [] && Guarded(t)
    requires e.rec.triggeredAt == t[|t| - 1].rec.triggeredAt && e.rec.version == t[|t| - 1].rec.version
    requires e.limits == t[|t| - 1].limits
    ensures var t' := t[..|t| - 1] + [e]; Guarded(t') && Replay(t') == Replay(t)
  {
  }

  /** Closing the in-flight rollout closes the newest record and nothing else. */
  lemma CompleteClosesLast(st: Status, t: Trail, at: int, outcome: Outcome, now: int)
    requires Summarizes(st, t, now) && st.inFlight.Some? && outcome != InProgress
    ensures Summarizes(Completed(st, at, outcome), ClosedLast(t, at, outcome), now)
  {
    hide Replay, Guarded, HistoryMatches, HonestRecords;
    var n := |t| - 1;
    var e := t[n].(rec := ClosedRecord(t[n].rec, at, outcome));
    LastReplaced(t, e);
    HistoryReplaced(st.history, t, e);
    HonestReplaced(t, e);
  }

  lemma RecomputeKeepsSummary(st: Status, t: Trail, now: int, l: Limits)
    requires Summarizes(st, t, now)
    ensures Summarizes(Recomputed(st, now, l), t, now)
  {
  }

  /** Marking the newest restart as dispatched changes nothing the status records. */
  lemma StampKeepsSummary(st: Status, t: Trail, now: int)
    requires Summarizes(st, t, now)
    ensures Summarizes(st, StampedLast(t), now)
  {
    hide Replay, Guarded;
    if t != [] {
      var n := |t| - 1;
      var t' := StampedLast(t);
      LastReplaced(t, t[n].(dispatched := true));
      assert |t'| == |t| && forall i :: 0 <= i < |t| ==> t'[i].rec == t[i].rec;
    }
  }

  /** A recreated workload starts over with an empty log. */
  lemma AdoptRestartsLog(st: Status, t: Trail, uid: string, now: int)
    requires Summarizes(st, t, now)
    ensures Summarizes(Adopted(st, uid), if Recreated(st, uid) then [] else t, now)
  {
  }

  // ---- Counters and audit trail -----------------------------------------------------

  ghost predicate Cooling(t: Trail) { forall i :: 0 <= i < |t| ==> t[i].limits.cooldown > 0 }

  function TimeAt(t: Trail, i: nat): int
    requires i < |t|
  {
    t[i].rec.triggeredAt
  }

  lemma {:induction false} TimesOrdered(t: Trail, i: nat, j: nat)
    requires Guarded(t) && i <= j < |t|
    ensures TimeAt(t, i) <= TimeAt(t, j)
    ensures i < j ==> TimeAt(t, j) - TimeAt(t, i) >= t[j].limits.cooldown
    decreases |t|
  {
    var n := |t| - 1;
    if j < n {
      TimesOrdered(t[..n], i, j);
    } else if i < n {
      TimesOrdered(t[..n], i, n - 1);
      assert Replay(t[..n]).lastRestartAt == Some(TimeAt(t, n - 1));
    }
  }

  /** The window holds the newest restartCount restarts, starts at the oldest of them, and carries one version. */
  lemma {:induction false} ReplayShape(t: Trail)
    requires Guarded(t) && t != []
    ensures var b, n := Replay(t), |t|;
            && 1 <= b.restartCount <= n
            && b.windowStart == Some(TimeAt(t, n - b.restartCount))
            && b.lastRestartAt == Some(TimeAt(t, n - 1))
            && b.version == t[n - 1].rec.version
            && forall i :: n - b.restartCount <= i < n ==> t[i].rec.version in {b.version, ""}
  {
    var n := |t| - 1;
    if n > 0 {
      ReplayShape(t[..n]);
      forall i | 0 <= i < n ensures t[..n][i] == t[i] {}
    }
  }

  /** In a summary with positive cooldowns: exactly min(RestartCount, 10) history records lie in the window. */
  lemma CountersAgreeWithHistory(st: Status, t: Trail, now: int)
    requires Summarizes(st, t, now) && Cooling(t) && t != []
    ensures var b, h := st.breaker, st.history;
            && h != [] && b.windowStart.Some? && b.lastRestartAt == Some(h[|h| - 1].triggeredAt)
            && 1 <= b.restartCount && Min(b.restartCount, RESTART_HISTORY_LIMIT) <= |h|
            && forall i :: 0 <= i < |h| ==>
                 && (h[i].triggeredAt >= b.windowStart.value <==> i >= |h| - Min(b.restartCount, RESTART_HISTORY_LIMIT))
                 && (h[i].triggeredAt >= b.windowStart.value ==> h[i].version in {b.version, ""})
  {
    hide Guarded, Replay;
    ReplayShape(t);
    var b, h, n := st.breaker, st.history, |t|;
    forall i | 0 <= i < |h|
      ensures h[i].triggeredAt >= b.windowStart.value <==> i >= |h| - Min(b.restartCount, RESTART_HISTORY_LIMIT)
      ensures h[i].triggeredAt >= b.windowStart.value ==> h[i].version in {b.version, ""}
    {
      var k, first := n - |h| + i, n - b.restartCount;
      assert h[i] == t[k].rec;
      if k >= first { TimesOrdered(t, first, k); } else { TimesOrdered(t, k, first); }
    }
  }
}
