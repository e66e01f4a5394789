/** What the verdicts of internal/sampling/detect.go decide: how the modes relate, and each in numbers. */
module Verdicts {
  import opened Regression
  import opened Detection

  /** The combined verdict is the sustained and the trend verdict together. */
  lemma CombinedIsBoth(samples: seq<Sample>, d: Settings, now: int)
    ensures Judge(samples, d.(mode := Combined), now).leaking <==>
              && Judge(samples, d.(mode := Sustained), now).leaking
              && Judge(samples, d.(mode := Trend), now).leaking
  {
    hide WindowSamples, GrowthRate, SlopeDefined, Exceeds;
    var win := WindowSamples(samples, d.window, now);
    ModesAlike(win, d, d.(mode := Combined));
    ModesAlike(win, d, d.(mode := Sustained));
    ModesAlike(win, d, d.(mode := Trend));
  }

  lemma ModesAlike(win: seq<Sample>, d: Settings, e: Settings)
    requires e == d.(mode := e.mode)
    ensures SustainedAbove(win, d) <==> SustainedAbove(win, e)
    ensures TrendingUp(win, d) <==> TrendingUp(win, e)
  {
    hide GrowthRate, SlopeDefined;
  }

  // ---- Sustained, in numbers ------------------------------------------------------------------

  /** The sample is at the absolute cap if there is one, and else at the percentage of its limit, if it has any. */
  predicate AtThreshold(s: Sample, d: Settings) {
    match d.thresholdAbsolute
    case Some(cap) => cap <= s.workingSet
    case None => 0 < s.limit && d.thresholdPercent * s.limit <= 100 * s.workingSet
  }

  /** At least two samples lie in the window. */
  ghost predicate TwoInWindow(samples: seq<Sample>, window: int, now: int) {
    exists i: nat, j: nat :: i < j < |samples| && samples[i].time >= now - window && samples[j].time >= now - window
  }

  lemma {:induction false} WindowNotEmpty(samples: seq<Sample>, window: int, now: int) returns (i: nat)
    requires WindowSamples(samples, window, now) != []
    ensures i < |samples| && samples[i].time >= now - window
  {
    var n := |samples| - 1;
    if samples[n].time >= now - window { i := n; } else { i := WindowNotEmpty(samples[..n], window, now); }
  }

  lemma {:induction false} WindowHasTwo(samples: seq<Sample>, window: int, now: int) returns (i: nat, j: nat)
    requires |WindowSamples(samples, window, now)| >= 2
    ensures i < j < |samples| && samples[i].time >= now - window && samples[j].time >= now - window
  {
    var n := |samples| - 1;
    if samples[n].time >= now - window {
      i := WindowNotEmpty(samples[..n], window, now);
      j := n;
    } else {
      i, j := WindowHasTwo(samples[..n], window, now);
    }
  }

  lemma {:induction false} TwoInWindowCount(samples: seq<Sample>, window: int, now: int, i: nat, j: nat)
    requires i < j < |samples| && samples[i].time >= now - window && samples[j].time >= now - window
    ensures |WindowSamples(samples, window, now)| >= 2
  {
    var n := |samples| - 1;
    if j < n {
      TwoInWindowCount(samples[..n], window, now, i, j);
    } else {
      assert samples[..n][i] in samples[..n];
      assert samples[i] in WindowSamples(samples[..n], window, now);
    }
  }

  lemma WindowSize(samples: seq<Sample>, window: int, now: int)
    ensures |WindowSamples(samples, window, now)| >= 2 <==> TwoInWindow(samples, window, now)
  {
    if |WindowSamples(samples, window, now)| >= 2 { var i, j := WindowHasTwo(samples, window, now); }
    if i: nat, j: nat :| i < j < |samples| && samples[i].time >= now - window && samples[j].time >= now - window {
      TwoInWindowCount(samples, window, now, i, j);
    }
  }

  /** Sustained leaks exactly when the window is covered, holds two samples, and all of them are at the threshold. */
  lemma SustainedMeans(samples: seq<Sample>, d: Settings, now: int)
    requires d.mode.Sustained?
    ensures Judge(samples, d, now).leaking <==>
              && |samples| >= 2 && samples[0].time <= now - d.window
              && TwoInWindow(samples, d.window, now)
              && forall s :: s in samples && s.time >= now - d.window ==> AtThreshold(s, d)
  {
    hide TrendingUp, TwoInWindow;
    WindowSize(samples, d.window, now);
    forall s ensures Exceeds(s, d) <==> AtThreshold(s, d) { Thresholds(s, d); }
  }

  lemma Thresholds(s: Sample, d: Settings)
    ensures Exceeds(s, d) <==> AtThreshold(s, d)
  {
  }

  // ---- What a verdict reports -------------------------------------------------------------------

  /** With a percentage, the reported threshold is that share of the limit, rounded toward zero to whole bytes. */
  lemma ThresholdMeans(s: Sample, d: Settings)
    ensures d.thresholdAbsolute.Some? ==> ThresholdBytes(s, d) == d.thresholdAbsolute.value
    ensures d.thresholdAbsolute.None? && s.limit > 0 && d.thresholdPercent >= 0 ==>
              100 * ThresholdBytes(s, d) <= s.limit * d.thresholdPercent < 100 * (ThresholdBytes(s, d) + 1)
    ensures d.thresholdAbsolute.None? && s.limit > 0 && d.thresholdPercent < 0 ==>
              100 * (ThresholdBytes(s, d) - 1) < s.limit * d.thresholdPercent <= 100 * ThresholdBytes(s, d)
    ensures d.thresholdAbsolute.None? && s.limit <= 0 ==> ThresholdBytes(s, d) == 0
  {
    if d.thresholdAbsolute.None? && s.limit > 0 {
      ProductSign(s.limit, d.thresholdPercent);
      TruncatedMeans(s.limit * d.thresholdPercent);
    }
  }

  lemma ProductSign(a: int, b: int)
    requires a > 0
    ensures a * b >= 0 <==> b >= 0
  {
  }

  lemma TruncatedMeans(a: int)
    ensures a >= 0 ==> 100 * TruncatedDiv(a, 100) <= a < 100 * (TruncatedDiv(a, 100) + 1)
    ensures a < 0 ==> 100 * (TruncatedDiv(a, 100) - 1) < a <= 100 * TruncatedDiv(a, 100)
  {
  }

  /** A verdict reports the newest sample; where the mode looks at thresholds, a leak is reported at or over it. */
  lemma ReportIsNewest(samples: seq<Sample>, d: Settings, now: int)
    requires samples != []
    ensures var v, newest := Judge(samples, d, now), samples[|samples| - 1];
            && v.observed == newest.workingSet && v.threshold == ThresholdBytes(newest, d)
            && (v.leaking && !d.mode.Trend? && newest.time >= now - d.window ==> v.observed >= v.threshold)
  {
    var newest := samples[|samples| - 1];
    ThresholdMeans(newest, d);
  }

  // ---- Trend, by the rates between readings -------------------------------------------------------

  /** The window of a series in time order is its tail from some sample on. */
  lemma {:induction false} WindowIsTail(samples: seq<Sample>, window: int, now: int) returns (cut: nat)
    requires Increasing(samples)
    ensures cut <= |samples| && WindowSamples(samples, window, now) == samples[cut..]
  {
    hide Increasing;
    if samples == [] {
      cut := 0;
    } else {
      var n := |samples| - 1;
      PrefixIncreases(samples);
      cut := WindowIsTail(samples[..n], window, now);
      if samples[n].time >= now - window {
        assert samples[cut..] == samples[..n][cut..] + [samples[n]];
      } else {
        OldAreOut(samples, window, now);
        cut := n + 1;
      }
    }
  }

  lemma PrefixIncreases(samples: seq<Sample>)
    requires Increasing(samples) && samples != []
    ensures Increasing(samples[..|samples| - 1])
  {
  }

  lemma {:induction false} OldAreOut(samples: seq<Sample>, window: int, now: int)
    requires samples != [] && Increasing(samples) && samples[|samples| - 1].time < now - window
    ensures WindowSamples(samples, window, now) == []
  {
    var n := |samples| - 1;
    if n > 0 {
      assert samples[n - 1].time < samples[n - 1 + 1].time;
      OldAreOut(samples[..n], window, now);
    }
  }

  /** No step between readings grows at a rate that reaches the minimum growth over the window. */
  ghost predicate AllFallShort(samples: seq<Sample>, d: Settings)
    requires Increasing(samples)
  {
    forall i: nat :: i + 1 < |samples| ==> StepGrowth(samples, i, d.window) < d.trendMinGrowth as real
  }

  /** Every step between readings does. */
  ghost predicate AllReach(samples: seq<Sample>, d: Settings)
    requires Increasing(samples)
  {
    forall i: nat :: i + 1 < |samples| ==> StepGrowth(samples, i, d.window) >= d.trendMinGrowth as real
  }

  lemma TailIncreases(samples: seq<Sample>, cut: nat, d: Settings)
    requires Increasing(samples) && cut <= |samples|
    ensures Increasing(samples[cut..])
    ensures AllFallShort(samples, d) ==> AllFallShort(samples[cut..], d)
    ensures AllReach(samples, d) ==> AllReach(samples[cut..], d)
  {
    hide Times;
    var win := samples[cut..];
    forall i | 0 <= i < |win| - 1 ensures win[i].time < win[i + 1].time {
      assert win[i] == samples[cut + i] && win[i + 1] == samples[cut + i + 1];
    }
    forall i: nat | i + 1 < |win| ensures StepGrowth(win, i, d.window) == StepGrowth(samples, cut + i, d.window) {}
  }

  /**
    For readings in time order: if no step reaches the minimum growth, neither Trend nor Combined leaks; if
    every step does, and the minimum is positive, Trend leaks once the window is covered and holds two readings,
    and Combined decides like Sustained.
   */
  lemma GrowthDecidesVerdict(samples: seq<Sample>, d: Settings, now: int)
    requires Increasing(samples) && d.window > 0
    ensures AllFallShort(samples, d) && !d.mode.Sustained? ==> !Judge(samples, d, now).leaking
    ensures AllReach(samples, d) && d.trendMinGrowth > 0 && d.mode.Trend? ==>
              (Judge(samples, d, now).leaking <==>
                 WindowCovered(samples, d.window, now) && TwoInWindow(samples, d.window, now))
    ensures AllReach(samples, d) && d.trendMinGrowth > 0 && d.mode.Combined? ==>
              (Judge(samples, d, now).leaking <==> Judge(samples, d.(mode := Sustained), now).leaking)
  {
    hide TwoInWindow, TrendingUp, SustainedAbove, StepGrowth;
    var cut := WindowIsTail(samples, d.window, now);
    var win := samples[cut..];
    TailIncreases(samples, cut, d);
    WindowSize(samples, d.window, now);
    ModesAlike(win, d, d.(mode := Sustained));
    if |win| >= 2 { UniformGrowthDecides(win, d); }
  }
}
