/** Ordinary least squares over a sequence of points: the sums olsSlope accumulates, and what they mean. */
module Regression {

  datatype Point = Point(x: real, y: real)

  /** The running sums of a regression. */
  datatype Moments = Moments(n: real, x: real, y: real, xy: real, xx: real, yy: real)

  function Accumulate(p: seq<Point>): Moments {
    if p == [] then Moments(0.0, 0.0, 0.0, 0.0, 0.0, 0.0)
    else Extend(Accumulate(p[..|p| - 1]), p[|p| - 1])
  }

  function Extend(m: Moments, q: Point): Moments {
    Moments(m.n + 1.0, m.x + q.x, m.y + q.y, m.xy + q.x * q.y, m.xx + q.x * q.x, m.yy + q.y * q.y)
  }

  function Numerator(m: Moments): real { m.n * m.xy - m.x * m.y }

  function Denominator(m: Moments): real { m.n * m.xx - m.x * m.x }

  // ---- The sums over pairs -------------------------------------------------

  function Area(a: Point, q: Point): real { (q.x - a.x) * (q.y - a.y) }

  function Times(a: real, b: real): real { a * b }

  function Square(a: real): real { Times(a, a) }

  /** Products of the offsets of `q` from every point of `p`. */
  function Cross(p: seq<Point>, q: Point): real {
    if p == [] then 0.0 else Cross(p[..|p| - 1], q) + Area(p[|p| - 1], q)
  }

  function Spread(p: seq<Point>, q: Point): real {
    if p == [] then 0.0 else Spread(p[..|p| - 1], q) + Square(q.x - p[|p| - 1].x)
  }

  /** The sum of (xj - xi)(yj - yi) over all i < j. */
  function PairProducts(p: seq<Point>): real {
    if p == [] then 0.0 else PairProducts(p[..|p| - 1]) + Cross(p[..|p| - 1], p[|p| - 1])
  }

  /** The sum of (xj - xi)^2 over all i < j. */
  function PairSquares(p: seq<Point>): real {
    if p == [] then 0.0 else PairSquares(p[..|p| - 1]) + Spread(p[..|p| - 1], p[|p| - 1])
  }

  function CrossForm(m: Moments, q: Point): real { m.n * (q.x * q.y) - q.x * m.y - q.y * m.x + m.xy }

  function SpreadForm(m: Moments, q: Point): real { m.n * (q.x * q.x) - 2.0 * (q.x * m.x) + m.xx }

  const ZERO := Moments(0.0, 0.0, 0.0, 0.0, 0.0, 0.0)

  lemma EmptyForms(q: Point)
    ensures CrossForm(ZERO, q) == 0.0 && SpreadForm(ZERO, q) == 0.0
    ensures Numerator(ZERO) == 0.0 && Denominator(ZERO) == 0.0
  {
  }

  lemma CrossStep(m: Moments, a: Point, q: Point)
    ensures CrossForm(Extend(m, a), q) == CrossForm(m, q) + Area(a, q)
  {
  }

  lemma SpreadStep(m: Moments, a: Point, q: Point)
    ensures SpreadForm(Extend(m, a), q) == SpreadForm(m, q) + Square(q.x - a.x)
  {
  }

  lemma {:induction false} CrossExpands(p: seq<Point>, q: Point)
    ensures Cross(p, q) == CrossForm(Accumulate(p), q)
  {
    hide CrossForm, Area, Extend;
    if p == [] {
      EmptyForms(q);
    } else {
      CrossExpands(p[..|p| - 1], q);
      CrossStep(Accumulate(p[..|p| - 1]), p[|p| - 1], q);
    }
  }

  lemma {:induction false} SpreadExpands(p: seq<Point>, q: Point)
    ensures Spread(p, q) == SpreadForm(Accumulate(p), q)
  {
    hide SpreadForm, Square, Extend;
    if p == [] {
      EmptyForms(q);
    } else {
      SpreadExpands(p[..|p| - 1], q);
      SpreadStep(Accumulate(p[..|p| - 1]), p[|p| - 1], q);
    }
  }

  /** Lagrange's identity: both halves of the slope fraction are sums over pairs of samples. */
  lemma {:induction false} SumsArePairs(p: seq<Point>)
    ensures Numerator(Accumulate(p)) == PairProducts(p)
    ensures Denominator(Accumulate(p)) == PairSquares(p)
  {
    hide Numerator, Denominator, CrossForm, SpreadForm, Extend;
    if p == [] {
      EmptyForms(Point(0.0, 0.0));
    } else {
      SumsArePairs(p[..|p| - 1]);
      CrossExpands(p[..|p| - 1], p[|p| - 1]);
      SpreadExpands(p[..|p| - 1], p[|p| - 1]);
      FractionStep(Accumulate(p[..|p| - 1]), p[|p| - 1]);
    }
  }

  lemma FractionStep(m: Moments, q: Point)
    ensures Numerator(Extend(m, q)) == Numerator(m) + CrossForm(m, q)
    ensures Denominator(Extend(m, q)) == Denominator(m) + SpreadForm(m, q)
  {
  }

  // ---- When the slope exists -----------------------------------------------

  ghost predicate SameAbscissa(p: seq<Point>) {
    forall i, j :: 0 <= i < |p| && 0 <= j < |p| ==> p[i].x == p[j].x
  }

  lemma {:induction false} SpreadZero(p: seq<Point>, q: Point)
    ensures Spread(p, q) >= 0.0
    ensures Spread(p, q) == 0.0 <==> forall i :: 0 <= i < |p| ==> p[i].x == q.x
  {
    hide Square;
    if p != [] {
      var r, a := p[..|p| - 1], p[|p| - 1];
      SpreadZero(r, q);
      SquareSign(q.x - a.x);
      assert forall i :: 0 <= i < |r| ==> p[i] == r[i];
      assert forall i :: 0 <= i < |p| ==> p[i] == if i < |r| then r[i] else a;
    }
  }

  lemma SquareSign(a: real)
    ensures Square(a) >= 0.0
    ensures Square(a) == 0.0 <==> a == 0.0
  {
    hide Times;
    if a > 0.0 {
      TimesSign(a, a);
    } else if a < 0.0 {
      TimesSign(-a, -a);
      TimesNegated(a, a);
    } else {
      TimesZero(a);
    }
  }

  lemma TimesSign(a: real, b: real)
    requires a > 0.0 && b > 0.0
    ensures Times(a, b) > 0.0
  {
  }

  lemma TimesNegated(a: real, b: real)
    ensures Times(-a, -b) == Times(a, b)
  {
  }

  lemma TimesZero(b: real)
    ensures Times(0.0, b) == 0.0
  {
  }

  lemma SameAbscissaNext(r: seq<Point>, q: Point)
    ensures SameAbscissa(r + [q]) <==> SameAbscissa(r) && forall i :: 0 <= i < |r| ==> r[i].x == q.x
  {
    var p := r + [q];
    if SameAbscissa(p) {
      assert forall i :: 0 <= i < |r| ==> r[i] == p[i] && p[i].x == p[|r|].x;
    }
  }

  lemma {:induction false} PairSquaresZero(p: seq<Point>)
    ensures PairSquares(p) >= 0.0
    ensures PairSquares(p) == 0.0 <==> SameAbscissa(p)
  {
    hide Spread, SameAbscissa;
    if p != [] {
      var r, q := p[..|p| - 1], p[|p| - 1];
      PairSquaresZero(r);
      SpreadZero(r, q);
      SameAbscissaNext(r, q);
      assert p == r + [q];
    } else {
      NoAbscissa(p);
    }
  }

  lemma NoAbscissa(p: seq<Point>)
    requires p == []
    ensures SameAbscissa(p)
  {
  }

  /** The denominator vanishes exactly when all sample times coincide. */
  lemma {:induction false} DenominatorZero(p: seq<Point>)
    ensures Denominator(Accumulate(p)) >= 0.0
    ensures Denominator(Accumulate(p)) == 0.0 <==> SameAbscissa(p)
  {
    hide Denominator, Accumulate, PairSquares, SameAbscissa;
    SumsArePairs(p);
    PairSquaresZero(p);
  }

  // ---- The slope is a weighted mean of pairwise slopes -----------------------

  /** Growth from a to q lies between lo and hi per unit of time. */
  predicate GrowthWithin(a: Point, q: Point, lo: real, hi: real) {
    a.x <= q.x && lo * (q.x - a.x) <= q.y - a.y <= hi * (q.x - a.x)
  }

  /** Times never decrease, and every adjacent growth rate lies between lo and hi. */
  ghost predicate RatesWithin(p: seq<Point>, lo: real, hi: real) {
    forall i :: 0 <= i < |p| - 1 ==> GrowthWithin(p[i], p[i + 1], lo, hi)
  }

  lemma GrowthChain(a: Point, b: Point, q: Point, lo: real, hi: real)
    requires GrowthWithin(a, b, lo, hi) && GrowthWithin(b, q, lo, hi)
    ensures GrowthWithin(a, q, lo, hi)
  {
  }

  lemma {:induction false} PairRate(p: seq<Point>, lo: real, hi: real, i: nat, j: nat)
    requires RatesWithin(p, lo, hi) && i < j < |p|
    ensures GrowthWithin(p[i], p[j], lo, hi)
    decreases j
  {
    hide GrowthWithin;
    assert GrowthWithin(p[j - 1], p[j], lo, hi);
    if i < j - 1 {
      PairRate(p, lo, hi, i, j - 1);
      GrowthChain(p[i], p[j - 1], p[j], lo, hi);
    }
  }

  /** One product of a bound and a weight, kept folded in the inductions. */
  function Weighted(c: real, w: real): real { c * w }

  lemma WeightedSum(c: real, a: real, b: real)
    ensures Weighted(c, a + b) == Weighted(c, a) + Weighted(c, b)
    ensures Weighted(c, 0.0) == 0.0
  {
  }

  lemma AreaBetween(a: Point, q: Point, lo: real, hi: real)
    requires GrowthWithin(a, q, lo, hi)
    ensures Weighted(lo, Square(q.x - a.x)) <= Area(a, q) <= Weighted(hi, Square(q.x - a.x))
  {
  }

  lemma {:induction false} CrossBetween(p: seq<Point>, q: Point, lo: real, hi: real)
    requires forall i :: 0 <= i < |p| ==> GrowthWithin(p[i], q, lo, hi)
    ensures Weighted(lo, Spread(p, q)) <= Cross(p, q) <= Weighted(hi, Spread(p, q))
  {
    hide Weighted, Square, Area, GrowthWithin;
    WeightedSum(lo, 0.0, 0.0);
    WeightedSum(hi, 0.0, 0.0);
    if p != [] {
      var r, a := p[..|p| - 1], p[|p| - 1];
      assert forall i :: 0 <= i < |r| ==> r[i] == p[i];
      CrossBetween(r, q, lo, hi);
      AreaBetween(a, q, lo, hi);
      WeightedSum(lo, Spread(r, q), Square(q.x - a.x));
      WeightedSum(hi, Spread(r, q), Square(q.x - a.x));
    }
  }

  lemma {:induction false} NumeratorBetween(p: seq<Point>, lo: real, hi: real)
    requires RatesWithin(p, lo, hi)
    ensures Weighted(lo, PairSquares(p)) <= PairProducts(p) <= Weighted(hi, PairSquares(p))
  {
    hide Weighted, GrowthWithin;
    WeightedSum(lo, 0.0, 0.0);
    WeightedSum(hi, 0.0, 0.0);
    if p != [] {
      var r, q := p[..|p| - 1], p[|p| - 1];
      assert RatesWithin(r, lo, hi) by {
        assert forall i :: 0 <= i < |r| ==> r[i] == p[i];
      }
      NumeratorBetween(r, lo, hi);
      forall i | 0 <= i < |r|
        ensures GrowthWithin(r[i], q, lo, hi)
      {
        PairRate(p, lo, hi, i, |p| - 1);
      }
      CrossBetween(r, q, lo, hi);
      WeightedSum(lo, PairSquares(r), Spread(r, q));
      WeightedSum(hi, PairSquares(r), Spread(r, q));
    }
  }

  /** The fitted slope; olsSlope reports it only when the denominator is not zero. */
  function Slope(p: seq<Point>): real
    requires Denominator(Accumulate(p)) != 0.0
  {
    Numerator(Accumulate(p)) / Denominator(Accumulate(p))
  }

  /** The slope lies between the least and the greatest adjacent growth rate. */
  lemma {:induction false} SlopeBetween(p: seq<Point>, lo: real, hi: real)
    requires RatesWithin(p, lo, hi)
    requires Denominator(Accumulate(p)) != 0.0
    ensures lo <= Slope(p) <= hi
  {
    SumsArePairs(p);
    DenominatorZero(p);
    NumeratorBetween(p, lo, hi);
    QuotientBetween(Numerator(Accumulate(p)), Denominator(Accumulate(p)), lo, hi);
  }

  lemma QuotientBetween(num: real, den: real, lo: real, hi: real)
    requires den > 0.0 && lo * den <= num <= hi * den
    ensures lo <= num / den <= hi
  {
  }

  // ---- Origin independence ---------------------------------------------------

  ghost predicate Shifted(p: seq<Point>, q: seq<Point>, dx: real, dy: real) {
    |p| == |q| && forall i :: 0 <= i < |p| ==> q[i] == Point(p[i].x + dx, p[i].y + dy)
  }

  lemma {:induction false} CrossShift(p: seq<Point>, q: seq<Point>, a: Point, dx: real, dy: real)
    requires Shifted(p, q, dx, dy)
    ensures Cross(p, a) == Cross(q, Point(a.x + dx, a.y + dy))
    ensures Spread(p, a) == Spread(q, Point(a.x + dx, a.y + dy))
  {
    if p != [] {
      CrossShift(p[..|p| - 1], q[..|q| - 1], a, dx, dy);
      var u, v, b := p[|p| - 1], q[|q| - 1], Point(a.x + dx, a.y + dy);
      assert b.x - v.x == a.x - u.x && b.y - v.y == a.y - u.y;
    }
  }

  lemma {:induction false} PairsShift(p: seq<Point>, q: seq<Point>, dx: real, dy: real)
    requires Shifted(p, q, dx, dy)
    ensures PairProducts(p) == PairProducts(q) && PairSquares(p) == PairSquares(q)
  {
    if p != [] {
      PairsShift(p[..|p| - 1], q[..|q| - 1], dx, dy);
      CrossShift(p[..|p| - 1], q[..|q| - 1], p[|p| - 1], dx, dy);
    }
  }

  /** Neither the time origin nor a constant added to every reading moves the slope. */
  lemma SlopeShift(p: seq<Point>, q: seq<Point>, dx: real, dy: real)
    requires Shifted(p, q, dx, dy)
    ensures Numerator(Accumulate(p)) == Numerator(Accumulate(q))
    ensures Denominator(Accumulate(p)) == Denominator(Accumulate(q))
  {
    SumsArePairs(p);
    SumsArePairs(q);
    PairsShift(p, q, dx, dy);
  }

  // ---- Least squares -----------------------------------------------------------

  /** The summed squared distance of the points from the line a + b*x. */
  function SquaredError(p: seq<Point>, a: real, b: real): real {
    if p == [] then 0.0
    else
      SquaredError(p[..|p| - 1], a, b) + Square(Residual(p[|p| - 1], a, b))
  }

  function Residual(q: Point, a: real, b: real): real { q.y - a - b * q.x }

  function ErrorOf(m: Moments, a: real, b: real): real {
    m.yy - 2.0 * a * m.y - 2.0 * b * m.xy + a * a * m.n + 2.0 * a * b * m.x + b * b * m.xx
  }

  lemma {:induction false} ErrorExpands(p: seq<Point>, a: real, b: real)
    ensures SquaredError(p, a, b) == ErrorOf(Accumulate(p), a, b)
  {
    hide ErrorOf, Square, Residual, Extend;
    if p == [] {
      assert ErrorOf(ZERO, a, b) == 0.0 by { ErrorEmpty(a, b); }
    } else {
      ErrorExpands(p[..|p| - 1], a, b);
      ErrorStep(Accumulate(p[..|p| - 1]), p[|p| - 1], a, b);
    }
  }

  lemma ErrorEmpty(a: real, b: real)
    ensures ErrorOf(ZERO, a, b) == 0.0
  {
  }

  lemma ErrorStep(m: Moments, q: Point, a: real, b: real)
    ensures ErrorOf(Extend(m, q), a, b)
         == ErrorOf(m, a, b) + Square(Residual(q, a, b))
  {
    var x, y := q.x, q.y;
    calc {
      (y - a - b * x) * (y - a - b * x);
      y * y + a * a + (b * x) * (b * x) - 2.0 * a * y - 2.0 * (b * x) * y + 2.0 * a * (b * x);
      { assert (b * x) * (b * x) == b * b * (x * x); }
      y * y - 2.0 * a * y - 2.0 * b * (x * y) + a * a + 2.0 * a * b * x + b * b * (x * x);
    }
    assert a * a * (m.n + 1.0) == a * a * m.n + a * a;
    assert b * b * (m.xx + x * x) == b * b * m.xx + b * b * (x * x);
    assert 2.0 * a * b * (m.x + x) == 2.0 * a * b * m.x + 2.0 * a * b * x;
    assert 2.0 * b * (m.xy + x * y) == 2.0 * b * m.xy + 2.0 * b * (x * y);
    assert 2.0 * a * (m.y + y) == 2.0 * a * m.y + 2.0 * a * y;
  }

  /** The same points moved onto the x axis; their error measures the gap between two lines. */
  function Flatten(p: seq<Point>): seq<Point> { seq(|p|, i requires 0 <= i < |p| => Point(p[i].x, 0.0)) }

  lemma {:induction false} FlattenMoments(p: seq<Point>)
    ensures var m, f := Accumulate(p), Accumulate(Flatten(p));
            f == Moments(m.n, m.x, 0.0, 0.0, m.xx, 0.0)
  {
    hide Extend;
    if p != [] {
      FlattenMoments(p[..|p| - 1]);
      assert Flatten(p)[..|p| - 1] == Flatten(p[..|p| - 1]);
      FlatStep(Accumulate(p[..|p| - 1]), p[|p| - 1]);
    }
  }

  lemma FlatStep(m: Moments, q: Point)
    ensures var e := Extend(m, q);
            Extend(Moments(m.n, m.x, 0.0, 0.0, m.xx, 0.0), Point(q.x, 0.0)) == Moments(e.n, e.x, 0.0, 0.0, e.xx, 0.0)
  {
  }

  lemma {:induction false} ErrorNonNegative(p: seq<Point>, a: real, b: real)
    ensures SquaredError(p, a, b) >= 0.0
  {
    hide Square, Residual;
    if p != [] {
      ErrorNonNegative(p[..|p| - 1], a, b);
      SquareSign(Residual(p[|p| - 1], a, b));
    }
  }

  lemma {:induction false} MomentsCount(p: seq<Point>)
    ensures Accumulate(p).n == |p| as real
  {
    if p != [] { MomentsCount(p[..|p| - 1]); }
  }

  /** The intercept that goes with the fitted slope. */
  function Intercept(p: seq<Point>): real
    requires |p| > 0 && Denominator(Accumulate(p)) != 0.0
  {
    (Accumulate(p).y - Slope(p) * Accumulate(p).x) / |p| as real
  }

  /** No other line has a smaller squared error than the fitted one. */
  lemma FittedLineIsBest(p: seq<Point>, a: real, b: real)
    requires |p| > 0 && Denominator(Accumulate(p)) != 0.0
    ensures SquaredError(p, Intercept(p), Slope(p)) <= SquaredError(p, a, b)
  {
    var m, s, c := Accumulate(p), Slope(p), Intercept(p);
    hide ErrorOf;
    MomentsCount(p);
    NormalEquations(m, s, c);
    ErrorExpands(p, a, b);
    ErrorExpands(p, c, s);
    ErrorNonNegative(Flatten(p), a - c, b - s);
    ErrorExpands(Flatten(p), a - c, b - s);
    FlattenMoments(p);
    ExcessError(m, s, c, a - c, b - s);
  }

  lemma NormalEquations(m: Moments, s: real, c: real)
    requires m.n != 0.0 && Denominator(m) != 0.0
    requires s == Numerator(m) / Denominator(m) && c == (m.y - s * m.x) / m.n
    ensures m.n * c + s * m.x == m.y
    ensures c * m.x + s * m.xx == m.xy
  {
  }

  /** Moving the line by (d, e) from the fitted one costs exactly the squared gap between the lines. */
  lemma ExcessError(m: Moments, s: real, c: real, d: real, e: real)
    requires m.n * c + s * m.x == m.y && c * m.x + s * m.xx == m.xy
    ensures ErrorOf(m, c + d, s + e)
         == ErrorOf(m, c, s) + ErrorOf(Moments(m.n, m.x, 0.0, 0.0, m.xx, 0.0), d, e)
  {
  }
}
