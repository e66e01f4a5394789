/** Which windows the bounded store of internal/sampling/buffer.go can cover, under the sizes cmd/main.go configures. */
module WarmUp {
  import opened Wrappers
  import opened Detection
  import opened SeriesStore

  // ---- Any log ------------------------------------------------------------------------------

  /** Sample i, other than the newest, is within both bounds and at least a window old. */
  ghost predicate OldEnough(s: seq<Sample>, i: nat, b: Bounds, window: int, now: int) {
    i + 1 < |s| && InBounds(s, i, b) && s[i].time <= now - window
  }

  /**
    Whatever ticks are missed and however often the container restarts: the window is covered exactly when
    some sample since the last restart, other than the newest, is within both bounds and a window old.
   */
  lemma CoveredIff(log: seq<Reading>, b: Bounds, window: int, now: int)
    requires b.maxLen >= 1 && TimesOrdered(log) && log != []
    ensures WindowCovered(Replay(log, b).value.samples, window, now)
            <==> exists i: nat :: OldEnough(SinceBump(log), i, b, window, now)
  {
    hide Replay, SinceBump, KeepsExactly, InBounds, SamplesOrdered, OldEnough;
    var s, r := SinceBump(log), Replay(log, b).value.samples;
    StoreKeepsExactly(log, b);
    KeptTail(s, r, b);
    var cut := |s| - |r|;
    if WindowCovered(r, window, now) {
      Kept(s, r, b, cut);
      OldestIsOldEnough(s, cut, b, window, now);
    }
    forall i: nat | OldEnough(s, i, b, window, now) ensures WindowCovered(r, window, now) {
      OldEnoughIsKept(s, r, b, i, window, now);
      SinceBumpOrdered(log);
      OrderedAt(s, cut, i);
    }
  }

  lemma OldestIsOldEnough(s: seq<Sample>, i: nat, b: Bounds, window: int, now: int)
    requires i + 1 < |s| && InBounds(s, i, b) && s[i].time <= now - window
    ensures OldEnough(s, i, b, window, now)
  {
  }

  lemma OldEnoughIsKept(s: seq<Sample>, r: seq<Sample>, b: Bounds, i: nat, window: int, now: int)
    requires KeepsExactly(s, r, b) && OldEnough(s, i, b, window, now)
    ensures |s| - |r| <= i < |s| - 1 && s[i].time <= now - window
  {
    Kept(s, r, b, i);
  }

  lemma OrderedAt(s: seq<Sample>, i: nat, j: nat)
    requires SamplesOrdered(s) && i <= j < |s|
    ensures s[i].time <= s[j].time
  {
  }

  // ---- Regular ticks ------------------------------------------------------------------------

  /** The sizes main configures for default window w0 sampled every step. */
  function Configured(w0: int, step: int): Bounds
    requires step > 0 && w0 >= 0
  {
    Bounds(w0 * 2 + step, w0 / step + 8)
  }

  /** The time n sampling steps take. */
  function Elapsed(n: int, step: int): int { n * step }

  /** Readings at ticks 0, 1, 2, ... with none missed; the container may restart at any of them. */
  ghost predicate TickLog(log: seq<Reading>, t0: int, step: int) {
    forall i :: 0 <= i < |log| ==> log[i].sample.time == t0 + Elapsed(i, step)
  }

  /** How many ticks back the store can span at most. */
  function Reach(b: Bounds, step: int): int
    requires step > 0
  {
    Min(b.maxLen - 1, b.retention / step)
  }

  lemma ElapsedOrder(i: int, j: int, step: int)
    requires step > 0
    ensures i <= j <==> Elapsed(i, step) <= Elapsed(j, step)
    ensures Elapsed(j - i, step) == Elapsed(j, step) - Elapsed(i, step)
  {
    hide Elapsed;
    ElapsedMinus(i, j, step);
    ElapsedMinus(j, i, step);
    if i <= j { ElapsedSign(j - i, step); } else { ElapsedSign(i - j, step); }
  }

  lemma ElapsedMinus(i: int, j: int, step: int)
    ensures Elapsed(j - i, step) == Elapsed(j, step) - Elapsed(i, step)
  {
  }

  lemma ElapsedSign(n: nat, step: int)
    requires step > 0
    ensures Elapsed(n, step) >= 0 && (n > 0 ==> Elapsed(n, step) > 0)
  {
  }

  lemma ElapsedWithin(j: int, total: int, step: int)
    requires step > 0
    ensures Elapsed(j, step) <= total <==> j <= total / step
  {
    var q := total / step;
    ElapsedOrder(j, q, step);
    ElapsedOrder(q + 1, j, step);
    assert total == q * step + total % step;
  }

  lemma TickTimesOrdered(log: seq<Reading>, t0: int, step: int)
    requires step > 0 && TickLog(log, t0, step)
    ensures TimesOrdered(log)
  {
    hide Elapsed;
    forall i, j | 0 <= i < j < |log| ensures log[i].sample.time <= log[j].sample.time {
      ElapsedOrder(i, j, step);
    }
  }

  /** The sample `back` ticks before the newest one since the last restart. */
  lemma TickBack(log: seq<Reading>, b: Bounds, t0: int, step: int, back: nat)
    requires step > 0 && TickLog(log, t0, step) && log != [] && back < |SinceBump(log)|
    ensures var s := SinceBump(log);
            var i := |s| - 1 - back;
            && s[i].time == log[|log| - 1].sample.time - Elapsed(back, step)
            && (InBounds(s, i, b) <==> back <= Reach(b, step))
  {
    hide Elapsed, SinceBump;
    var s, n := SinceBump(log), |log| - 1;
    SinceBumpIsTail(log);
    SinceBumpNewest(log);
    ElapsedOrder(n - back, n, step);
    ElapsedWithin(back, b.retention, step);
    assert s[|s| - 1 - back] == log[n - back].sample;
  }

  /** With no missed tick: the window spans at most the ticks since the last restart, the reach, and the time since. */
  lemma CoveredAtTick(log: seq<Reading>, b: Bounds, t0: int, step: int, window: int, now: int)
    requires step > 0 && b.maxLen >= 1 && b.retention >= 0
    requires TickLog(log, t0, step) && log != []
    ensures var back, newest := Min(|SinceBump(log)| - 1, Reach(b, step)), log[|log| - 1].sample.time;
            WindowCovered(Replay(log, b).value.samples, window, now)
            <==> back >= 1 && window <= Elapsed(back, step) + (now - newest)
  {
    hide Elapsed, Reach, Replay, SinceBump, InBounds;
    var s, newest := SinceBump(log), log[|log| - 1].sample.time;
    var back := Min(|s| - 1, Reach(b, step));
    TickTimesOrdered(log, t0, step);
    SinceBumpNewest(log);
    ReachNonNegative(b, step);
    CoveredIff(log, b, window, now);
    TickBack(log, b, t0, step, back);
    if back >= 1 && window <= Elapsed(back, step) + (now - newest) {
      assert OldEnough(s, |s| - 1 - back, b, window, now);
    }
    forall i: nat | OldEnough(s, i, b, window, now)
      ensures back >= 1 && window <= Elapsed(back, step) + (now - newest)
    {
      TickBack(log, b, t0, step, |s| - 1 - i);
      ElapsedOrder(|s| - 1 - i, back, step);
    }
  }

  lemma ReachNonNegative(b: Bounds, step: int)
    requires step > 0 && b.maxLen >= 1 && b.retention >= 0
    ensures Reach(b, step) >= 0
  {
  }

  lemma ConfiguredSizes(w0: int, step: int)
    requires step > 0 && w0 >= 0
    ensures Configured(w0, step).maxLen >= 8
  {
  }

  /** With the configured sizes and no missed tick: exactly the windows covered at a tick, and from when on. */
  lemma WarmUpBound(log: seq<Reading>, t0: int, step: int, w0: int, window: int)
    requires step > 0 && w0 >= 0 && window > 0
    requires TickLog(log, t0, step) && log != []
    ensures WindowCovered(Replay(log, Configured(w0, step)).value.samples, window, log[|log| - 1].sample.time)
            <==> window <= Elapsed(|SinceBump(log)| - 1, step)
                 && window <= Elapsed(Min(w0 / step + 7, (w0 * 2 + step) / step), step)
  {
    hide Elapsed, Replay, SinceBump;
    var b := Configured(w0, step);
    ConfiguredSizes(w0, step);
    SinceBumpNewest(log);
    CoveredAtTick(log, b, t0, step, window, log[|log| - 1].sample.time);
    ElapsedOrder(|SinceBump(log)| - 1, Reach(b, step), step);
    ElapsedOrder(1, Min(|SinceBump(log)| - 1, Reach(b, step)), step);
    ElapsedZero(step);
  }

  lemma ElapsedZero(step: int)
    ensures Elapsed(0, step) == 0
  {
  }

  /** The controller-wide window itself always warms up. */
  lemma DefaultWindowWarmsUp(w0: int, step: int)
    requires step > 0 && w0 > 0
    ensures w0 <= Elapsed(Min(w0 / step + 7, (w0 * 2 + step) / step), step)
  {
    hide Elapsed;
    var q := w0 / step;
    ElapsedWithin(q + 1, w0, step);
    ElapsedWithin(q + 1, w0 + step, step);
    assert w0 + step <= w0 * 2 + step;
    ElapsedWithin(q + 1, w0 * 2 + step, step);
    assert Elapsed(q + 1, step) <= w0 * 2 + step by { StepUp(w0, step); }
    ElapsedOrder(q + 1, Min(q + 7, (w0 * 2 + step) / step), step);
  }

  lemma StepUp(w0: int, step: int)
    requires step > 0
    ensures Elapsed(w0 / step + 1, step) <= w0 + step
  {
  }

  // ---- The documented example -----------------------------------------------------------------

  /** Consecutive readings are at most `step` apart. */
  ghost predicate NoGap(log: seq<Reading>, step: int) {
    forall i :: 0 < i < |log| ==> log[i - 1].sample.time <= log[i].sample.time <= log[i - 1].sample.time + step
  }

  lemma {:induction false} GapsAddUp(log: seq<Reading>, step: int, i: nat, j: nat)
    requires step > 0 && NoGap(log, step) && i <= j < |log|
    ensures log[i].sample.time <= log[j].sample.time <= log[i].sample.time + Elapsed(j - i, step)
    decreases j
  {
    hide Elapsed;
    ElapsedZero(step);
    if i < j {
      GapsAddUp(log, step, i, j - 1);
      ElapsedNext(j - 1 - i, step);
    }
  }

  lemma ElapsedNext(n: nat, step: int)
    ensures Elapsed(n + 1, step) == Elapsed(n, step) + step
  {
  }

  /** Without a gap longer than a step, no window is covered that the store's length cannot span. */
  lemma NoGapBound(log: seq<Reading>, b: Bounds, step: int, window: int, now: int)
    requires step > 0 && b.maxLen >= 1 && NoGap(log, step) && log != []
    requires WindowCovered(Replay(log, b).value.samples, window, now)
    ensures window <= Elapsed(b.maxLen - 1, step) + (now - log[|log| - 1].sample.time)
  {
    hide Elapsed, Replay, SinceBump, NoGap;
    var s := SinceBump(log);
    forall i, j | 0 <= i < j < |log| ensures log[i].sample.time <= log[j].sample.time {
      GapsAddUp(log, step, i, j);
    }
    CoveredIff(log, b, window, now);
    var i: nat :| OldEnough(s, i, b, window, now);
    SinceBumpIsTail(log);
    GapsAddUp(log, step, |log| - |s| + i, |log| - 1);
    ElapsedOrder(|s| - 1 - i, b.maxLen - 1, step);
  }

  /**
    Under the default flags (10 minutes, 30 seconds) and while readings come without a gap, a container
    judged within 90 seconds of its newest sample never leaks by the documented 15 minute window.
   */
  lemma DocumentedExampleNeverWarm(log: seq<Reading>, d: Settings, now: int)
    requires NoGap(log, 30) && log != [] && d.window == 900
    requires now < log[|log| - 1].sample.time + 90
    ensures !Judge(Replay(log, Configured(600, 30)).value.samples, d, now).leaking
  {
    hide Replay;
    if WindowCovered(Replay(log, Configured(600, 30)).value.samples, 900, now) {
      NoGapBound(log, Configured(600, 30), 30, 900, now);
    }
  }

  /** A reading of a container at its limit. */
  function FullAt(time: int): Reading { Reading(Sample(time, 500, 500), 0) }

  /** Twenty-seven ticks half a minute apart, then three lost ones, then one more. */
  const AFTER_THREE_LOST_TICKS: seq<Reading> := seq(27, i => FullAt(30 * i)) + [FullAt(900)]

  /** Three lost ticks are enough: the same window is then covered, and the container leaks by it. */
  lemma LostTicksWarmIt()
    ensures var d := Settings(Sustained, 80, None, 900, 0);
            Judge(Replay(AFTER_THREE_LOST_TICKS, Configured(600, 30)).value.samples, d, 900).leaking
  {
    hide Replay, SinceBump;
    var log, b, d := AFTER_THREE_LOST_TICKS, Configured(600, 30), Settings(Sustained, 80, None, 900, 0);
    var s := SinceBump(log);
    assert forall i :: 0 <= i < 28 ==> log[i] == FullAt(if i < 27 then 30 * i else 900);
    NeverRestarted(log);
    assert OldEnough(s, 0, b, 900, 900);
    CoveredIff(log, b, 900, 900);
    CoveredVerdictIsExact(log, b, d, 900);
    WindowHolds(s, d, 900);
  }

  lemma {:induction false} NeverRestarted(log: seq<Reading>)
    requires forall i :: 0 <= i < |log| ==> log[i].restarts == 0
    ensures |SinceBump(log)| == |log|
    ensures forall i :: 0 <= i < |log| ==> SinceBump(log)[i] == log[i].sample
  {
    if log != [] { NeverRestarted(log[..|log| - 1]); }
  }
}
