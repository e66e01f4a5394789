/**
  The leak detectors of internal/sampling/detect.go.
  Times and durations are integers in one unit; the unit cancels in slope * window.
  Floating point is modelled by reals.
 */
module Detection {
  import opened Wrappers
  import opened Regression

  /** One memory observation; limit is 0 when the container has none. */
  datatype Sample = Sample(time: int, workingSet: int, limit: int)

  datatype Mode = Sustained | Trend | Combined

  datatype Settings = Settings(
    mode: Mode,
    thresholdPercent: int,
    thresholdAbsolute: Option<int>,
    window: int,
    trendMinGrowth: int)

  /** The outcome of evaluating a series; the explanation text is dropped. */
  datatype Verdict = Verdict(leaking: bool, observed: int, threshold: int)

  predicate Exceeds(s: Sample, d: Settings) {
    match d.thresholdAbsolute
    case Some(cap) => s.workingSet >= cap
    case None => s.limit > 0 && s.workingSet * 100 >= s.limit * d.thresholdPercent
  }

  /** Go's integer division: the quotient is truncated toward zero. */
  function TruncatedDiv(a: int, b: int): int
    requires b > 0
  {
    if a >= 0 then a / b else -(-a / b)
  }

  function ThresholdBytes(s: Sample, d: Settings): int {
    match d.thresholdAbsolute
    case Some(cap) => cap
    case None => if s.limit > 0 then TruncatedDiv(s.limit * d.thresholdPercent, 100) else 0
  }

  /** The samples no older than `window` before `now`, in order. */
  function WindowSamples(samples: seq<Sample>, window: int, now: int): (win: seq<Sample>)
    ensures forall s :: s in win <==> s in samples && s.time >= now - window
  {
    if samples == [] then []
    else
      var rest := WindowSamples(samples[..|samples| - 1], window, now);
      var s := samples[|samples| - 1];
      if s.time < now - window then rest else rest + [s]
  }

  /** The warm-up guard: some sample is at least a whole window old. */
  predicate WindowCovered(samples: seq<Sample>, window: int, now: int) {
    |samples| >= 2 && samples[0].time <= now - window
  }

  /** The series as points measured from time origin t0. */
  function Points(win: seq<Sample>, t0: int): seq<Point> {
    seq(|win|, i requires 0 <= i < |win| => Point((win[i].time - t0) as real, win[i].workingSet as real))
  }

  ghost predicate SameTimes(win: seq<Sample>) {
    forall i, j :: 0 <= i < |win| && 0 <= j < |win| ==> win[i].time == win[j].time
  }

  function Origin(win: seq<Sample>): int { if win == [] then 0 else win[0].time }

  ghost predicate SlopeDefined(win: seq<Sample>) {
    Denominator(Accumulate(Points(win, Origin(win)))) != 0.0
  }

  ghost function GrowthRate(win: seq<Sample>): real
    requires SlopeDefined(win)
  {
    Slope(Points(win, Origin(win)))
  }

  /** Conversion of a float to an int64: truncation toward zero. */
  function Truncated(r: real): int { if r >= 0.0 then r.Floor else -((-r).Floor) }

  /** Growth across one window at a given rate. */
  function Projected(rate: real, window: int): int { Truncated(Times(rate, window as real)) }

  ghost predicate TrendingUp(win: seq<Sample>, d: Settings) {
    SlopeDefined(win) && GrowthRate(win) > 0.0 && Projected(GrowthRate(win), d.window) >= d.trendMinGrowth
  }

  ghost predicate SustainedAbove(win: seq<Sample>, d: Settings) {
    forall s :: s in win ==> Exceeds(s, d)
  }

  ghost predicate Leaking(samples: seq<Sample>, d: Settings, now: int) {
    var win := WindowSamples(samples, d.window, now);
    && WindowCovered(samples, d.window, now)
    && |win| >= 2
    && (d.mode.Trend? || SustainedAbove(win, d))
    && (d.mode.Sustained? || TrendingUp(win, d))
  }

  /** What Detect reports for a series. */
  ghost function Judge(samples: seq<Sample>, d: Settings, now: int): Verdict {
    if samples == [] then Verdict(false, 0, 0)
    else
      var last := samples[|samples| - 1];
      Verdict(Leaking(samples, d, now), last.workingSet, ThresholdBytes(last, d))
  }

  // ---- The algorithms ----------------------------------------------------------

  method CollectWindow(samples: seq<Sample>, window: int, now: int) returns (out: seq<Sample>)
    ensures out == WindowSamples(samples, window, now)
  {
    var cutoff := now - window;
    out := [];
    for i := 0 to |samples|
      invariant out == WindowSamples(samples[..i], window, now)
    {
      assert samples[..i + 1][..i] == samples[..i];
      if samples[i].time >= cutoff {
        out := out + [samples[i]];
      }
    }
    assert samples[..|samples|] == samples;
  }

  method AllExceed(win: seq<Sample>, d: Settings) returns (all: bool)
    ensures all <==> SustainedAbove(win, d)
  {
    for i := 0 to |win|
      invariant forall j :: 0 <= j < i ==> Exceeds(win[j], d)
    {
      if !Exceeds(win[i], d) {
        return false;
      }
    }
    return true;
  }

  function Difference(a: real, b: real, c: real, d: real): real { a * b - c * d }

  /** A covered window with every sample in it, all over the threshold, leaks in sustained mode. */
  lemma WindowHolds(s: seq<Sample>, d: Settings, now: int)
    requires |s| >= 2 && d.mode.Sustained? && WindowCovered(s, d.window, now)
    requires forall i :: 0 <= i < |s| ==> Exceeds(s[i], d) && s[i].time >= now - d.window
    ensures Judge(s, d, now).leaking
  {
    var win := WindowSamples(s, d.window, now);
    AllInWindow(s, d.window, now);
  }

  lemma {:induction false} AllInWindow(s: seq<Sample>, window: int, now: int)
    requires forall i :: 0 <= i < |s| ==> s[i].time >= now - window
    ensures WindowSamples(s, window, now) == s
  {
    if s != [] {
      AllInWindow(s[..|s| - 1], window, now);
      assert s == s[..|s| - 1] + [s[|s| - 1]];
    }
  }

  /** The regression loop; the slope is undefined exactly when all sample times coincide. */
  method OlsSlope(win: seq<Sample>) returns (slope: real, ok: bool)
    ensures ok <==> SlopeDefined(win)
    ensures ok <==> !SameTimes(win)
    ensures ok ==> slope == GrowthRate(win)
  {
    hide SlopeDefined, GrowthRate, Accumulate, Times, Difference;
    SlopeDefinedIffTimesDiffer(win);
    AccumulateNone(Points(win, Origin(win)));
    var n := |win| as real;
    if n < 2.0 {
      return 0.0, false;
    }
    var t0 := win[0].time;
    ghost var p := Points(win, t0);
    var sumX, sumY, sumXY, sumXX := 0.0, 0.0, 0.0, 0.0;
    for i := 0 to |win|
      invariant var m := Accumulate(p[..i]);
                sumX == m.x && sumY == m.y && sumXY == m.xy && sumXX == m.xx
    {
      var x := (win[i].time - t0) as real;
      var y := win[i].workingSet as real;
      AccumulateNext(p, i);
      sumX, sumY, sumXY, sumXX := sumX + x, sumY + y, sumXY + Times(x, y), sumXX + Times(x, x);
    }
    assert p[..|win|] == p;
    MomentsCount(p);
    GrowthRateFraction(win, Accumulate(p));
    var denom := Difference(n, sumXX, sumX, sumX);
    if denom == 0.0 {
      return 0.0, false;
    }
    return Difference(n, sumXY, sumX, sumY) / denom, true;
  }

  lemma GrowthRateFraction(win: seq<Sample>, m: Moments)
    requires m == Accumulate(Points(win, Origin(win)))
    ensures SlopeDefined(win) <==> Difference(m.n, m.xx, m.x, m.x) != 0.0
    ensures SlopeDefined(win) ==>
              GrowthRate(win) == Difference(m.n, m.xy, m.x, m.y) / Difference(m.n, m.xx, m.x, m.x)
  {
    hide Accumulate, Points, Origin;
  }

  lemma AccumulateNone(p: seq<Point>)
    ensures Accumulate(p[..0]) == ZERO
  {
  }

  lemma AccumulateNext(p: seq<Point>, i: nat)
    requires i < |p|
    ensures var m, e, q := Accumulate(p[..i]), Accumulate(p[..i + 1]), p[i];
            && e.x == m.x + q.x && e.y == m.y + q.y
            && e.xy == m.xy + Times(q.x, q.y) && e.xx == m.xx + Times(q.x, q.x)
  {
    assert p[..i + 1][..i] == p[..i];
  }

  method TrendLeaking(win: seq<Sample>, d: Settings) returns (leaking: bool, projected: int)
    ensures leaking <==> TrendingUp(win, d)
    ensures leaking ==> projected == Projected(GrowthRate(win), d.window)
  {
    hide SlopeDefined, GrowthRate, Projected;
    var slope, ok := OlsSlope(win);
    if !ok || slope <= 0.0 {
      return false, 0;
    }
    projected := Projected(slope, d.window);
    leaking := projected >= d.trendMinGrowth;
  }

  method Detect(samples: seq<Sample>, d: Settings, now: int) returns (res: Verdict)
    ensures res == Judge(samples, d, now)
  {
    if |samples| == 0 {
      return Verdict(false, 0, 0);
    }
    var last := samples[|samples| - 1];
    res := Verdict(false, last.workingSet, ThresholdBytes(last, d));
    if !WindowCovered(samples, d.window, now) {
      return;
    }
    var win := CollectWindow(samples, d.window, now);
    if |win| < 2 {
      return;
    }
    var sustained := AllExceed(win, d);
    var trending, _ := TrendLeaking(win, d);
    match d.mode {
      case Sustained => if sustained { res := res.(leaking := true); }
      case Trend => if trending { res := res.(leaking := true); }
      case Combined => if sustained && trending { res := res.(leaking := true); }
    }
  }

  // ---- What the verdict means ----------------------------------------------------

  lemma SlopeDefinedIffTimesDiffer(win: seq<Sample>)
    ensures SlopeDefined(win) <==> !SameTimes(win)
  {
    hide Denominator;
    var p := Points(win, Origin(win));
    DenominatorZero(p);
    assert SameAbscissa(p) <==> SameTimes(win) by {
      assert forall i :: 0 <= i < |win| ==> p[i].x == (win[i].time - Origin(win)) as real;
      if SameAbscissa(p) {
        forall i, j | 0 <= i < |win| && 0 <= j < |win| ensures win[i].time == win[j].time {
          assert p[i].x == p[j].x;
        }
      }
    }
  }

  /** Any other time origin, and any constant added to memory, gives the same growth rate. */
  lemma GrowthRateIgnoresOrigin(win: seq<Sample>, other: seq<Sample>, t0: int, bytes: int)
    requires |other| == |win| && SlopeDefined(win)
    requires forall i :: 0 <= i < |win| ==>
               other[i].time == win[i].time && other[i].workingSet == win[i].workingSet + bytes
    ensures Denominator(Accumulate(Points(other, t0))) != 0.0
    ensures Slope(Points(other, t0)) == GrowthRate(win)
  {
    hide Numerator, Denominator;
    SlopeShift(Points(win, Origin(win)), Points(other, t0), (Origin(win) - t0) as real, bytes as real);
  }

  ghost predicate Increasing(win: seq<Sample>) {
    forall i :: 0 <= i < |win| - 1 ==> win[i].time < win[i + 1].time
  }

  /** Growth per unit of time between sample i and the next. */
  ghost function AdjacentRate(win: seq<Sample>, i: nat): real
    requires Increasing(win) && i + 1 < |win|
  {
    (win[i + 1].workingSet - win[i].workingSet) as real / (win[i + 1].time - win[i].time) as real
  }

  ghost predicate RatesBetween(win: seq<Sample>, lo: real, hi: real)
    requires Increasing(win)
  {
    forall i: nat :: i + 1 < |win| ==> lo <= AdjacentRate(win, i) <= hi
  }

  lemma {:induction false} ExtremeRates(win: seq<Sample>) returns (least: nat, greatest: nat)
    requires Increasing(win) && |win| >= 2
    ensures least + 1 < |win| && greatest + 1 < |win|
    ensures RatesBetween(win, AdjacentRate(win, least), AdjacentRate(win, greatest))
  {
    var last := |win| - 2;
    if last == 0 {
      return 0, 0;
    }
    var w := win[..|win| - 1];
    assert forall i: nat :: i < |w| ==> w[i] == win[i];
    least, greatest := ExtremeRates(w);
    forall i: nat | i + 1 < |w| ensures AdjacentRate(w, i) == AdjacentRate(win, i) {}
    forall i: nat | i + 1 < |win|
      ensures AdjacentRate(win, least) <= AdjacentRate(win, i) <= AdjacentRate(win, greatest) || i == last
    {
      if i + 1 < |w| { assert AdjacentRate(w, i) == AdjacentRate(win, i); }
    }
    if AdjacentRate(win, last) < AdjacentRate(win, least) { least := last; }
    if AdjacentRate(win, last) > AdjacentRate(win, greatest) { greatest := last; }
  }

  lemma QuotientBounds(num: real, den: real, lo: real, hi: real)
    requires den > 0.0 && lo <= num / den <= hi
    ensures lo * den <= num <= hi * den
  {
  }

  lemma RatesGiveGrowth(win: seq<Sample>, lo: real, hi: real)
    requires Increasing(win) && RatesBetween(win, lo, hi)
    ensures RatesWithin(Points(win, Origin(win)), lo, hi)
  {
    var p := Points(win, Origin(win));
    forall i | 0 <= i < |p| - 1 ensures GrowthWithin(p[i], p[i + 1], lo, hi) {
      assert lo <= AdjacentRate(win, i) <= hi;
      QuotientBounds((win[i + 1].workingSet - win[i].workingSet) as real,
                     (win[i + 1].time - win[i].time) as real, lo, hi);
    }
  }

  lemma {:induction false} IncreasingFar(win: seq<Sample>, i: nat, j: nat)
    requires Increasing(win) && i < j < |win|
    ensures win[i].time < win[j].time
    decreases j
  {
    if i < j - 1 { IncreasingFar(win, i, j - 1); }
    assert win[j - 1].time < win[j - 1 + 1].time;
  }

  lemma IncreasingDefinesSlope(win: seq<Sample>)
    requires Increasing(win) && |win| >= 2
    ensures SlopeDefined(win)
  {
    SlopeDefinedIffTimesDiffer(win);
    IncreasingFar(win, 0, |win| - 1);
  }

  /** The fitted growth rate lies between the least and the greatest adjacent growth rate. */
  lemma GrowthRateIsMean(win: seq<Sample>) returns (least: nat, greatest: nat)
    requires Increasing(win) && |win| >= 2
    ensures least + 1 < |win| && greatest + 1 < |win| && SlopeDefined(win)
    ensures RatesBetween(win, AdjacentRate(win, least), AdjacentRate(win, greatest))
    ensures AdjacentRate(win, least) <= GrowthRate(win) <= AdjacentRate(win, greatest)
  {
    hide Denominator, GrowthWithin;
    least, greatest := ExtremeRates(win);
    IncreasingDefinesSlope(win);
    var lo, hi := AdjacentRate(win, least), AdjacentRate(win, greatest);
    RatesGiveGrowth(win, lo, hi);
    SlopeBetween(Points(win, Origin(win)), lo, hi);
  }

  /** The growth across one window at an adjacent rate. */
  ghost function StepGrowth(win: seq<Sample>, i: nat, window: int): real
    requires Increasing(win) && i + 1 < |win|
  {
    Times(AdjacentRate(win, i), window as real)
  }

  /** A rate g between lo and hi, projected over a window, against an integer bound. */
  lemma ProjectedBetween(lo: real, g: real, hi: real, window: int, bound: int)
    requires lo <= g <= hi && window > 0
    ensures bound > 0 && Times(lo, window as real) >= bound as real ==> g > 0.0 && Projected(g, window) >= bound
    ensures Times(hi, window as real) < bound as real ==> g <= 0.0 || Projected(g, window) < bound
  {
    hide Truncated, Times;
    var w := window as real;
    Scaled(lo, g, w);
    Scaled(g, hi, w);
    if g <= 0.0 {
      Scaled(g, 0.0, w);
    } else {
      Scaled(0.0, g, w);
      TruncatedAgainst(Times(g, w), bound);
    }
  }

  lemma Scaled(a: real, b: real, w: real)
    requires a <= b && w > 0.0
    ensures Times(a, w) <= Times(b, w) && Times(0.0, w) == 0.0
  {
  }

  lemma TruncatedAgainst(r: real, bound: int)
    requires r >= 0.0
    ensures Truncated(r) >= bound <==> r >= bound as real
  {
  }

  /** Every step at or above the minimum growth is a trend; every step below it is none. */
  lemma UniformGrowthDecides(win: seq<Sample>, d: Settings)
    requires Increasing(win) && |win| >= 2 && d.window > 0
    ensures d.trendMinGrowth > 0
            && (forall i: nat :: i + 1 < |win| ==> StepGrowth(win, i, d.window) >= d.trendMinGrowth as real)
            ==> TrendingUp(win, d)
    ensures (forall i: nat :: i + 1 < |win| ==> StepGrowth(win, i, d.window) < d.trendMinGrowth as real)
            ==> !TrendingUp(win, d)
  {
    hide GrowthRate, SlopeDefined, AdjacentRate, Projected, RatesBetween, Times;
    var least, greatest := GrowthRateIsMean(win);
    ProjectedBetween(AdjacentRate(win, least), GrowthRate(win), AdjacentRate(win, greatest),
                     d.window, d.trendMinGrowth);
    assert StepGrowth(win, least, d.window) == Times(AdjacentRate(win, least), d.window as real);
    assert StepGrowth(win, greatest, d.window) == Times(AdjacentRate(win, greatest), d.window as real);
  }
}
