/**
 * The least-squares line through a weekly series (`_linear_trend`,
 * backend/analytics/forecast.py:74-110), over exact reals.
 */
module TrendLine {
  const FORECAST_DAYS := 30

  datatype Direction = Flat | Rising | Falling

  datatype Trend = TooShort | Trend(slope: real, forecast: real, direction: Direction)

  function Sum(ys: seq<int>): int {
    if ys == [] then 0 else Sum(ys[..|ys| - 1]) + ys[|ys| - 1]
  }

  /** `sum(range(n))` */
  function IndexSum(n: nat): nat {
    if n == 0 then 0 else IndexSum(n - 1) + n - 1
  }

  function MeanX(n: nat): real
    requires n > 0
  {
    IndexSum(n) as real / n as real
  }

  function MeanY(ys: seq<int>): real
    requires ys != []
  {
    Sum(ys) as real / |ys| as real
  }

  /** `sum((x - mean_x) ** 2 for x in xs)` */
  function Spread(n: nat, mx: real): real {
    if n == 0 then 0.0 else Spread(n - 1, mx) + Square((n - 1) as real - mx)
  }

  /** `sum((x - mean_x) * (y - mean_y) for x, y in zip(xs, series))` */
  function CoSpread(ys: seq<int>, mx: real, my: real): real {
    if ys == [] then 0.0
    else CoSpread(ys[..|ys| - 1], mx, my) + Product((|ys| - 1) as real - mx, ys[|ys| - 1] as real - my)
  }

  function Product(x: real, y: real): real {
    x * y
  }

  function Square(x: real): real {
    Product(x, x)
  }

  function Slope(ys: seq<int>): real
    requires |ys| >= 2
  {
    var mx, my := MeanX(|ys|), MeanY(ys);
    var denominator := Spread(|ys|, mx);
    if denominator != 0.0 then CoSpread(ys, mx, my) / denominator else 0.0
  }

  /** The height at week 0 of the line with that slope through the two means. */
  function Intercept(ys: seq<int>): real
    requires |ys| >= 2
  {
    MeanY(ys) - Slope(ys) * MeanX(|ys|)
  }

  function DirectionOf(slope: real): Direction {
    if -0.15 < slope < 0.15 then Flat else if slope > 0.0 then Rising else Falling
  }

  function LastLevel(ys: seq<int>): real
    requires |ys| >= 2
  {
    MeanY(ys) + Slope(ys) * ((|ys| - 1) as real - MeanX(|ys|))
  }

  function Projected(level: real): real {
    level * (FORECAST_DAYS as real / 7.0)
  }

  function LinearTrend(ys: seq<int>): Trend {
    if |ys| < 2 then TooShort
    else
      var projected := Projected(LastLevel(ys));
      Trend(Slope(ys), if projected > 0.0 then projected else 0.0, DirectionOf(Slope(ys)))
  }

  // ---------------------------------------------------------------- optimality

  function Line(a: real, b: real, x: real): real {
    a + b * x
  }

  /** How far the line a + b * x misses the series, squared and summed. */
  function SquaredError(ys: seq<int>, a: real, b: real): real {
    if ys == [] then 0.0
    else SquaredError(ys[..|ys| - 1], a, b) + Square(ys[|ys| - 1] as real - Line(a, b, (|ys| - 1) as real))
  }

  /** No line misses the series by less. */
  ghost predicate IsBestLine(ys: seq<int>, a: real, b: real) {
    forall p: real, q: real :: SquaredError(ys, a, b) <= SquaredError(ys, p, q)
  }

  lemma PositiveProduct(x: real, y: real)
    requires x > 0.0 && y > 0.0
    ensures Product(x, y) > 0.0
  {
  }

  lemma NegatedSquare(x: real)
    ensures Product(-x, -x) == Product(x, x)
  {
  }

  lemma SquareIsPositive(x: real)
    ensures Square(x) >= 0.0
    ensures Square(x) == 0.0 <==> x == 0.0
  {
    if x > 0.0 {
      PositiveProduct(x, x);
    } else if x < 0.0 {
      PositiveProduct(-x, -x);
      NegatedSquare(x);
      hide Product;
    }
  }

  lemma {:induction false} SpreadIsPositive(n: nat, mx: real)
    ensures Spread(n, mx) >= 0.0
    ensures n >= 2 ==> Spread(n, mx) > 0.0
  {
    if n > 0 {
      SpreadIsPositive(n - 1, mx);
      SquareIsPositive((n - 1) as real - mx);
      if n == 2 {
        assert Spread(1, mx) == Spread(0, mx) + Square(0.0 - mx);
        SquareIsPositive(0.0 - mx);
      }
    }
  }

  /** The squared error around the centre (mx, my), for the line that passes c above it with slope b. */
  function Expansion(v: real, co: real, spread: real, sy: real, sx: real, n: real, b: real, c: real): real {
    v - 2.0 * b * co + b * b * spread - 2.0 * c * (sy - b * sx) + n * c * c
  }

  lemma ExpansionAdds(v: real, co: real, spread: real, sy: real, sx: real, n: real, b: real, c: real,
      v1: real, co1: real, spread1: real, sy1: real, sx1: real)
    ensures Expansion(v, co, spread, sy, sx, n, b, c) + Expansion(v1, co1, spread1, sy1, sx1, 1.0, b, c)
         == Expansion(v + v1, co + co1, spread + spread1, sy + sy1, sx + sx1, n + 1.0, b, c)
  {
    assert b * (co + co1) == b * co + b * co1;
    assert b * b * (spread + spread1) == b * b * spread + b * b * spread1;
    assert c * (sy + sy1 - b * (sx + sx1)) == c * (sy - b * sx) + c * (sy1 - b * sx1);
  }

  lemma ExpansionOfOne(du: real, dv: real, b: real, c: real)
    ensures Expansion(Square(dv), Product(du, dv), Square(du), dv, du, 1.0, b, c) == Square(dv - b * du - c)
  {
  }

  lemma ExpansionStep(v: real, co: real, spread: real, sy: real, sx: real, n: real, b: real, c: real, du: real,
      dv: real)
    ensures Expansion(v, co, spread, sy, sx, n, b, c) + Square(dv - b * du - c)
         == Expansion(v + Square(dv), co + Product(du, dv), spread + Square(du), sy + dv, sx + du, n + 1.0, b, c)
  {
    hide Expansion, Square, Product;
    ExpansionOfOne(du, dv, b, c);
    ExpansionAdds(v, co, spread, sy, sx, n, b, c, Square(dv), Product(du, dv), Square(du), dv, du);
  }

  function Variation(ys: seq<int>, my: real): real {
    if ys == [] then 0.0 else Variation(ys[..|ys| - 1], my) + Square(ys[|ys| - 1] as real - my)
  }

  lemma CentredResidual(y: real, x: real, mx: real, my: real, b: real, c: real)
    ensures y - Line(my + c - b * mx, b, x) == y - my - b * (x - mx) - c
  {
  }

  /** The sum of n values, less n times m. */
  function Centred(sum: int, n: nat, m: real): real {
    sum as real - n as real * m
  }

  lemma CentredStep(sum: int, n: nat, m: real, x: int)
    ensures Centred(0, 0, m) == 0.0
    ensures Centred(sum + x, n + 1, m) == Centred(sum, n, m) + (x as real - m)
  {
    assert (n as real + 1.0) * m == n as real * m + m;
  }

  lemma {:induction false} ErrorExpands(ys: seq<int>, mx: real, my: real, b: real, c: real)
    ensures SquaredError(ys, my + c - b * mx, b)
         == Expansion(Variation(ys, my), CoSpread(ys, mx, my), Spread(|ys|, mx),
                      Centred(Sum(ys), |ys|, my), Centred(IndexSum(|ys|), |ys|, mx), |ys| as real, b, c)
  {
    hide Expansion, Line, Square, Product, Centred;
    CentredStep(0, 0, mx, 0);
    CentredStep(0, 0, my, 0);
    if ys == [] {
      ExpansionAtZero(b, c);
    } else {
      var n := |ys| - 1;
      var before := ys[..n];
      var du, dv := n as real - mx, ys[n] as real - my;
      ErrorExpands(before, mx, my, b, c);
      ExpansionStep(Variation(before, my), CoSpread(before, mx, my), Spread(n, mx),
                    Centred(Sum(before), n, my), Centred(IndexSum(n), n, mx), n as real, b, c, du, dv);
      CentredResidual(ys[n] as real, n as real, mx, my, b, c);
      CentredStep(Sum(before), n, my, ys[n]);
      CentredStep(IndexSum(n), n, mx, n);
      assert ys[n] as real - Line(my + c - b * mx, b, n as real) == dv - b * du - c;
      assert SquaredError(ys, my + c - b * mx, b) == SquaredError(before, my + c - b * mx, b) + Square(dv - b * du - c);
      assert Variation(ys, my) == Variation(before, my) + Square(dv);
      assert CoSpread(ys, mx, my) == CoSpread(before, mx, my) + Product(du, dv);
      assert Spread(|ys|, mx) == Spread(n, mx) + Square(du);
    }
  }

  lemma ExpansionAtZero(b: real, c: real)
    ensures Expansion(0.0, 0.0, 0.0, 0.0, 0.0, 0.0, b, c) == 0.0
  {
  }

  lemma ExpansionAtMeans(v: real, co: real, s: real, d: real, n: real, b: real, c: real)
    requires co == s * d
    ensures Expansion(v, co, d, 0.0, 0.0, n, b, c)
         == Expansion(v, co, d, 0.0, 0.0, n, s, 0.0) + d * Square(b - s) + n * Square(c)
  {
  }

  lemma MeansAndSlope(ys: seq<int>)
    requires |ys| >= 2
    ensures Centred(Sum(ys), |ys|, MeanY(ys)) == 0.0
    ensures Centred(IndexSum(|ys|), |ys|, MeanX(|ys|)) == 0.0
    ensures Spread(|ys|, MeanX(|ys|)) > 0.0
    ensures CoSpread(ys, MeanX(|ys|), MeanY(ys)) == Slope(ys) * Spread(|ys|, MeanX(|ys|))
  {
    hide Sum, IndexSum, CoSpread, Spread;
    SpreadIsPositive(|ys|, MeanX(|ys|));
  }

  /** The penalty of a line for its slope, and for its height at the mean week. */
  function Penalty(ys: seq<int>, a: real, b: real): real
    requires |ys| >= 2
  {
    Spread(|ys|, MeanX(|ys|)) * Square(b - Slope(ys)) + |ys| as real * Square(Line(a, b, MeanX(|ys|)) - MeanY(ys))
  }

  lemma LineAtMean(a: real, b: real, mx: real, my: real)
    ensures my + (Line(a, b, mx) - my) - b * mx == a
  {
  }

  /** Any line misses the series by what the trend line does, plus its penalty. */
  lemma ErrorGap(ys: seq<int>, a: real, b: real)
    requires |ys| >= 2
    ensures SquaredError(ys, a, b) == SquaredError(ys, Intercept(ys), Slope(ys)) + Penalty(ys, a, b)
  {
    hide SquaredError, Sum, IndexSum, CoSpread, Spread, Slope, MeanX, MeanY, Square, Product, Variation, Expansion,
      Centred;
    var n, mx, my := |ys| as real, MeanX(|ys|), MeanY(ys);
    var d, s := Spread(|ys|, mx), Slope(ys);
    var c := Line(a, b, mx) - my;
    MeansAndSlope(ys);
    ErrorExpands(ys, mx, my, b, c);
    ErrorExpands(ys, mx, my, s, 0.0);
    ExpansionAtMeans(Variation(ys, my), CoSpread(ys, mx, my), s, d, n, b, c);
    LineAtMean(a, b, mx, my);
    hide Line;
    assert SquaredError(ys, a, b) == Expansion(Variation(ys, my), CoSpread(ys, mx, my), d, 0.0, 0.0, n, b, c);
    assert my + 0.0 - s * mx == Intercept(ys);
  }

  lemma Penalties(d: real, n: real, x: real, y: real)
    requires d > 0.0 && n > 0.0
    ensures d * Square(x) + n * Square(y) >= 0.0
    ensures d * Square(x) + n * Square(y) == 0.0 <==> x == 0.0 && y == 0.0
  {
    SquareIsPositive(x);
    SquareIsPositive(y);
    hide Square;
    if x != 0.0 { assert d * Square(x) > 0.0; }
    if y != 0.0 { assert n * Square(y) > 0.0; }
  }

  lemma PenaltyIsZeroIff(ys: seq<int>, a: real, b: real)
    requires |ys| >= 2
    ensures Penalty(ys, a, b) >= 0.0
    ensures Penalty(ys, a, b) == 0.0 <==> a == Intercept(ys) && b == Slope(ys)
  {
    hide Spread, Square, MeanX, MeanY, Slope;
    var mx, my, s := MeanX(|ys|), MeanY(ys), Slope(ys);
    SpreadIsPositive(|ys|, mx);
    Penalties(Spread(|ys|, mx), |ys| as real, b - s, Line(a, b, mx) - my);
  }

  /** The trend line misses by no more than any other line, and it is the only one that does. */
  lemma TrendLineIsTheBest(ys: seq<int>, a: real, b: real)
    requires |ys| >= 2
    ensures IsBestLine(ys, a, b) <==> a == Intercept(ys) && b == Slope(ys)
  {
    hide SquaredError, Slope, Intercept, Penalty;
    forall p: real, q: real
      ensures SquaredError(ys, Intercept(ys), Slope(ys)) <= SquaredError(ys, p, q)
    {
      ErrorGap(ys, p, q);
      PenaltyIsZeroIff(ys, p, q);
    }
    if IsBestLine(ys, a, b) {
      ErrorGap(ys, a, b);
      PenaltyIsZeroIff(ys, a, b);
      assert SquaredError(ys, a, b) <= SquaredError(ys, Intercept(ys), Slope(ys));
    }
  }

  /**
   * What `_linear_trend` returns: from two weeks on there is a slope, and with it no line p + q * x
   * beats the trend line.
   */
  lemma TrendIsBest(ys: seq<int>, p: real, q: real)
    requires |ys| >= 2
    ensures LinearTrend(ys).Trend?
    ensures var slope := LinearTrend(ys).slope;
      SquaredError(ys, MeanY(ys) - slope * MeanX(|ys|), slope) <= SquaredError(ys, p, q)
  {
    hide SquaredError, Slope, MeanX, MeanY;
    TrendLineIsTheBest(ys, Intercept(ys), Slope(ys));
  }

  /** The steepness below which a line counts as flat, in signals per week. */
  const FLAT_SLOPE := 0.15

  /** What a trend says about the best line: how steep it is, where it leads, and whether it climbs or drops. */
  ghost predicate Tells(t: Trend, n: nat, a: real, b: real) {
    var last := (n - 1) as real;
    var climb, level := Line(a, b, last) - Line(a, b, 0.0), Line(a, b, last);
    && t.Trend? && t.slope == b
    && t.forecast == (if level > 0.0 then level / 7.0 * 30.0 else 0.0)
    && (t.direction.Rising? <==> climb >= FLAT_SLOPE * last)
    && (t.direction.Falling? <==> climb <= -FLAT_SLOPE * last)
  }

  lemma ClimbIsTheSlope(a: real, b: real, last: real)
    requires last > 0.0
    ensures Line(a, b, last) - Line(a, b, 0.0) >= FLAT_SLOPE * last <==> b >= FLAT_SLOPE
    ensures Line(a, b, last) - Line(a, b, 0.0) <= -FLAT_SLOPE * last <==> b <= -FLAT_SLOPE
  {
    assert Line(a, b, last) - Line(a, b, 0.0) == Product(b, last);
    assert Product(b - FLAT_SLOPE, last) == Product(b, last) - FLAT_SLOPE * last;
    assert Product(FLAT_SLOPE - b, last) == FLAT_SLOPE * last - Product(b, last);
    assert Product(b + FLAT_SLOPE, last) == Product(b, last) + FLAT_SLOPE * last;
    assert Product(-FLAT_SLOPE - b, last) == -FLAT_SLOPE * last - Product(b, last);
    hide Line, Product;
    if b < FLAT_SLOPE { PositiveProduct(FLAT_SLOPE - b, last); }
    if b > FLAT_SLOPE { PositiveProduct(b - FLAT_SLOPE, last); }
    if b > -FLAT_SLOPE { PositiveProduct(b + FLAT_SLOPE, last); }
    if b < -FLAT_SLOPE { PositiveProduct(-FLAT_SLOPE - b, last); }
  }

  /**
   * Whatever line fits the weeks best: the trend is its steepness, its level in the last week over
   * thirty days, and its climb from the first week to the last.
   */
  lemma TrendTells(ys: seq<int>, a: real, b: real)
    requires |ys| >= 2 && IsBestLine(ys, a, b)
    ensures Tells(LinearTrend(ys), |ys|, a, b)
  {
    hide SquaredError, IsBestLine, Slope, MeanX, MeanY, Line, Projected, LastLevel;
    TrendLineIsTheBest(ys, a, b);
    var last := (|ys| - 1) as real;
    LastLevelIs(ys);
    hide Intercept;
    ClimbIsTheSlope(a, b, last);
    ProjectedIs(Line(a, b, last));
    var t := LinearTrend(ys);
    assert t.slope == b && t.direction == DirectionOf(b);
  }

  lemma DirectionTells(t: Trend, n: nat, a: real, b: real)
    requires n >= 2 && Tells(t, n, a, b)
    ensures t.direction == if b >= 0.15 then Rising else if b <= -0.15 then Falling else Flat
  {
    ClimbIsTheSlope(a, b, (n - 1) as real);
    hide Line;
  }

  lemma ProjectedIs(level: real)
    ensures Projected(level) == level / 7.0 * 30.0
    ensures Projected(level) > 0.0 <==> level > 0.0
  {
  }

  lemma LastLevelIs(ys: seq<int>)
    requires |ys| >= 2
    ensures LastLevel(ys) == Line(Intercept(ys), Slope(ys), (|ys| - 1) as real)
  {
    hide Slope, MeanX, MeanY;
  }

  // ---------------------------------------------------------------- symmetries

  function Reverse(ys: seq<int>): seq<int> {
    if ys == [] then [] else [ys[|ys| - 1]] + Reverse(ys[..|ys| - 1])
  }

  function Raise(ys: seq<int>, k: int): seq<int> {
    if ys == [] then [] else Raise(ys[..|ys| - 1], k) + [ys[|ys| - 1] + k]
  }

  lemma LineShifts(a: real, b: real, x: real)
    ensures Line(a, b, 0.0) == a
    ensures Line(a + b, b, x) == Line(a, b, x + 1.0)
    ensures Line(Line(a, b, x), -b, x) == a
    ensures Line(a + x, b, 0.0) == a + x
  {
  }

  lemma {:induction false} ErrorFromFront(y: int, ys: seq<int>, a: real, b: real)
    ensures SquaredError([y] + ys, a, b) == Square(y as real - a) + SquaredError(ys, a + b, b)
  {
    hide Square, Line;
    if ys == [] {
      LineShifts(a, b, 0.0);
      assert [y][..0] == [];
    } else {
      var n := |ys| - 1;
      ErrorFromFront(y, ys[..n], a, b);
      LineShifts(a, b, n as real);
      assert ([y] + ys)[..|ys|] == [y] + ys[..n];
    }
  }

  lemma {:induction false} ErrorReversed(ys: seq<int>, a: real, b: real)
    ensures |Reverse(ys)| == |ys|
    ensures SquaredError(Reverse(ys), a, b) == SquaredError(ys, Line(a, b, (|ys| - 1) as real), -b)
  {
    hide Square, Line;
    if ys != [] {
      var n := |ys| - 1;
      var y := ys[n];
      ErrorReversed(ys[..n], a + b, b);
      ErrorFromFront(y, Reverse(ys[..n]), a, b);
      LineShifts(a, b, (n - 1) as real);
      LineShifts(a, b, n as real);
    }
  }

  lemma {:induction false} ErrorRaised(ys: seq<int>, k: int, a: real, b: real)
    ensures |Raise(ys, k)| == |ys|
    ensures SquaredError(Raise(ys, k), a + k as real, b) == SquaredError(ys, a, b)
  {
    if ys != [] {
      var n := |ys| - 1;
      ErrorRaised(ys[..n], k, a, b);
      assert Raise(ys, k)[..n] == Raise(ys[..n], k);
    }
  }

  /** Reading the weeks backwards turns the slope, and with it the direction, around. */
  lemma ReversingNegatesTheSlope(ys: seq<int>)
    requires |ys| >= 2
    ensures |Reverse(ys)| == |ys| && Slope(Reverse(ys)) == -Slope(ys)
    ensures LinearTrend(Reverse(ys)).direction
         == match LinearTrend(ys).direction case Flat => Flat case Rising => Falling case Falling => Rising
  {
    hide SquaredError, Slope, Intercept, Reverse, Line;
    var last := (|ys| - 1) as real;
    var a, b := Line(Intercept(ys), Slope(ys), last), -Slope(ys);
    TrendLineIsTheBest(ys, Intercept(ys), Slope(ys));
    ErrorReversed(ys, a, b);
    LineShifts(Intercept(ys), Slope(ys), last);
    forall p: real, q: real ensures SquaredError(Reverse(ys), a, b) <= SquaredError(Reverse(ys), p, q) {
      ErrorReversed(ys, p, q);
      assert SquaredError(ys, Intercept(ys), Slope(ys)) <= SquaredError(ys, Line(p, q, last), -q);
    }
    TrendLineIsTheBest(Reverse(ys), a, b);
  }

  /** A level shift moves the line, not its slope. */
  lemma RaisingKeepsTheSlope(ys: seq<int>, k: int)
    requires |ys| >= 2
    ensures |Raise(ys, k)| == |ys| && Slope(Raise(ys, k)) == Slope(ys)
  {
    hide SquaredError, Slope, Intercept, Raise;
    var a, b := Intercept(ys) + k as real, Slope(ys);
    TrendLineIsTheBest(ys, Intercept(ys), b);
    ErrorRaised(ys, k, Intercept(ys), b);
    forall p: real, q: real ensures SquaredError(Raise(ys, k), a, b) <= SquaredError(Raise(ys, k), p, q) {
      ErrorRaised(ys, k, p - k as real, q);
      assert p - k as real + k as real == p;
      assert SquaredError(ys, Intercept(ys), b) <= SquaredError(ys, p - k as real, q);
    }
    TrendLineIsTheBest(Raise(ys, k), a, b);
  }

  ghost predicate IsStraight(ys: seq<int>, a: real, b: real) {
    forall i :: 0 <= i < |ys| ==> ys[i] as real == Line(a, b, i as real)
  }

  lemma {:induction false} ErrorIsPositive(ys: seq<int>, a: real, b: real)
    ensures SquaredError(ys, a, b) >= 0.0
    ensures IsStraight(ys, a, b) ==> SquaredError(ys, a, b) == 0.0
  {
    hide Square, Line;
    if ys != [] {
      var n := |ys| - 1;
      ErrorIsPositive(ys[..n], a, b);
      SquareIsPositive(ys[n] as real - Line(a, b, n as real));
    }
  }

  /**
   * Weeks that lie on a line give that line back: its steepness, its direction from 0.15 a week on, and
   * the last week scaled to thirty days.
   */
  lemma StraightSeriesIsRecovered(ys: seq<int>, a: real, b: real)
    requires |ys| >= 2 && IsStraight(ys, a, b)
    ensures Slope(ys) == b && Intercept(ys) == a
    ensures LinearTrend(ys).direction == if b >= 0.15 then Rising else if b <= -0.15 then Falling else Flat
    ensures ys[|ys| - 1] >= 0 ==> LinearTrend(ys).forecast == ys[|ys| - 1] as real / 7.0 * 30.0
  {
    hide SquaredError, Slope, Intercept, Line, LinearTrend;
    ErrorIsPositive(ys, a, b);
    forall p: real, q: real ensures SquaredError(ys, a, b) <= SquaredError(ys, p, q) {
      ErrorIsPositive(ys, p, q);
    }
    TrendLineIsTheBest(ys, a, b);
    TrendTells(ys, a, b);
    DirectionTells(LinearTrend(ys), |ys|, a, b);
    assert ys[|ys| - 1] as real == Line(a, b, (|ys| - 1) as real);
  }
}
