/** The "Trend Line" tab (main.py:199-200): a degree-1 least-squares fit of the
    closes against their row positions 0..N-1, evaluated at every position.
    The fit is stated by its closed form (slope = covariance / variance,
    intercept = mean(y) - slope·mean(x)); it exists for N >= 2. */
module TrendLine {
  import opened Wrappers
  import opened Series
  import opened Indicators

  /** The positions `np.arange(N)` as reals. */
  function Positions(n: nat): (xs: seq<real>)
    ensures |xs| == n && forall i :: 0 <= i < n ==> xs[i] == i as real
  {
    seq(n, i => i as real)
  }

  /** The line c·x + d sampled at `xs`. */
  function OnLine(xs: seq<real>, c: real, d: real): (ys: seq<real>)
    ensures |ys| == |xs| && forall i :: 0 <= i < |xs| ==> ys[i] == c * xs[i] + d
  {
    seq(|xs|, i requires 0 <= i < |xs| => c * xs[i] + d)
  }

  /** The sum of the cross products of deviations, (x - mx)·(y - my). */
  function CrossDeviations(xs: seq<real>, ys: seq<real>, mx: real, my: real): real
    requires |xs| == |ys|
  {
    Sum(DeviationProducts(xs, ys, mx, my))
  }

  function Slope(ys: seq<real>): real
    requires |ys| >= 2
  {
    var xs := Positions(|ys|);
    PositionsSpread(|ys|);
    CrossDeviations(xs, ys, Mean(xs), Mean(ys)) / SquaredDeviations(xs, Mean(xs))
  }

  function Intercept(ys: seq<real>): real
    requires |ys| >= 2
  {
    InterceptThroughMeans(Positions(|ys|), ys, Slope(ys))
  }

  /** The intercept that puts a line of slope `a` through the point of means. */
  function InterceptThroughMeans(xs: seq<real>, ys: seq<real>, a: real): real
    requires |xs| > 0 && |ys| > 0
  {
    Mean(ys) - a * Mean(xs)
  }

  /** The fitted line at every position; no line for fewer than two points. */
  function LinearTrend(ys: seq<real>): (r: Option<seq<real>>)
    ensures r.Some? <==> |ys| >= 2
    ensures r.Some? ==> |r.value| == |ys|
  {
    if |ys| < 2 then None
    else Some(OnLine(Positions(|ys|), Slope(ys), Intercept(ys)))
  }

  // ---------------------------------------------------------------------------
  // Lemmas
  // ---------------------------------------------------------------------------

  /** Every squared deviation is bounded by their sum. */
  lemma SquaredDeviationsDominate(s: seq<real>, m: real, k: nat)
    requires k < |s|
    ensures (s[k] - m) * (s[k] - m) <= SquaredDeviations(s, m)
  {
    var squares := DeviationProducts(s, s, m, m);
    SquaresNonNegative(s, m);
    EntryAtMostSum(squares, k);
    assert squares[k] == (s[k] - m) * (s[k] - m);
  }

  /** Two or more distinct positions have a positive spread. */
  lemma PositionsSpread(n: nat)
    requires n >= 2
    ensures SquaredDeviations(Positions(n), Mean(Positions(n))) > 0.0
  {
    var xs := Positions(n);
    var m := Mean(xs);
    SquaredDeviationsDominate(xs, m, 0);
    SquaredDeviationsDominate(xs, m, 1);
    SquareNonNegative(xs[0] - m);
    SquareNonNegative(xs[1] - m);
    if m == 0.0 {
      assert (xs[1] - m) * (xs[1] - m) == 1.0;
    } else {
      PositiveSquare(xs[0] - m);
    }
  }

  lemma PositiveSquare(e: real)
    requires e != 0.0
    ensures e * e > 0.0
  {
    if e < 0.0 {
      assert e * e == (-e) * (-e);
    }
  }

  lemma OnLineFront(xs: seq<real>, c: real, d: real)
    requires |xs| > 0
    ensures OnLine(xs, c, d)[..|xs| - 1] == OnLine(xs[..|xs| - 1], c, d)
    ensures OnLine(xs, c, d)[|xs| - 1] == c * xs[|xs| - 1] + d
  {
    var n := |xs| - 1;
    assert forall i :: 0 <= i < n ==> OnLine(xs, c, d)[..n][i] == OnLine(xs[..n], c, d)[i];
  }

  /** Summing a line sampled at the `n` positions `xs`, whose sum is
      `total`, gives c·total + n·d. */
  lemma {:induction false} SumOnLine(xs: seq<real>, c: real, d: real, total: real, n: real)
    requires total == Sum(xs) && n == |xs| as real
    ensures Sum(OnLine(xs, c, d)) == c * total + n * d
    decreases |xs|
  {
    if |xs| > 0 {
      var last := |xs| - 1;
      var front := xs[..last];
      var sf, k := Sum(front), last as real;
      OnLineFront(xs, c, d);
      SumOnLine(front, c, d, sf, k);
      LineStep(sf, xs[last], c, d, k, total, n);
    }
  }

  /** One step of `SumOnLine`, on scalars. */
  lemma LineStep(s: real, x: real, c: real, d: real, k: real, total: real, n: real)
    requires total == s + x && n == k + 1.0
    ensures (c * s + k * d) + (c * x + d) == c * total + n * d
  {
    assert c * total == c * s + c * x;
    assert n * d == k * d + d;
  }

  lemma MeanOnLine(xs: seq<real>, c: real, d: real)
    requires |xs| > 0
    ensures Mean(OnLine(xs, c, d)) == c * Mean(xs) + d
  {
    var ys := OnLine(xs, c, d);
    var total, n := Sum(xs), |xs| as real;
    SumOnLine(xs, c, d, total, n);
    MeanStep(Mean(ys), Mean(xs), Sum(ys), total, c, d, n);
  }

  /** On scalars: if the line's total is c·total + n·d, its mean is c times
      the mean of the positions plus d. */
  lemma MeanStep(my: real, mx: real, sy: real, total: real, c: real, d: real, n: real)
    requires n > 0.0 && my == sy / n && mx == total / n && sy == c * total + n * d
    ensures my == c * mx + d
  {
  }

  /** Point by point, the deviation products of a line of slope c are c times
      the squared deviations of the positions. */
  lemma ProductsOnLine(xs: seq<real>, c: real, d: real, mx: real)
    ensures DeviationProducts(xs, OnLine(xs, c, d), mx, c * mx + d) == Scaled(c, DeviationProducts(xs, xs, mx, mx))
  {
    var ys := OnLine(xs, c, d);
    var lhs := DeviationProducts(xs, ys, mx, c * mx + d);
    var rhs := Scaled(c, DeviationProducts(xs, xs, mx, mx));
    forall i | 0 <= i < |xs|
      ensures lhs[i] == rhs[i]
    {
      DeviationOnLine(c, d, xs[i], ys[i], mx);
    }
  }

  /** For points on a line with slope c, the cross deviations are c times the
      spread of the positions. */
  lemma CrossDeviationsOnLine(xs: seq<real>, c: real, d: real, mx: real, my: real, spread: real)
    requires my == c * mx + d && spread == SquaredDeviations(xs, mx)
    ensures CrossDeviations(xs, OnLine(xs, c, d), mx, my) == c * spread
  {
    var squares := DeviationProducts(xs, xs, mx, mx);
    ProductsOnLine(xs, c, d, mx);
    SumScaled(c, squares, spread);
  }

  /** One point on the line: its cross deviation is c times its squared
      deviation. */
  lemma DeviationOnLine(c: real, d: real, x: real, y: real, mx: real)
    requires y == c * x + d
    ensures (x - mx) * (y - (c * mx + d)) == c * ((x - mx) * (x - mx))
  {
    var e := x - mx;
    assert y - (c * mx + d) == c * e;
  }

  /** On scalars: a ratio whose numerator is c times its non-zero
      denominator is c. */
  lemma Cancel(q: real, num: real, den: real, c: real)
    requires den != 0.0 && q == num / den && num == c * den
    ensures q == c
  {
  }

  /** Points that already lie on a line are fitted by that very line. */
  lemma FitOfLineIsThatLine(n: nat, c: real, d: real)
    requires n >= 2
    ensures Slope(OnLine(Positions(n), c, d)) == c
    ensures Intercept(OnLine(Positions(n), c, d)) == d
  {
    SlopeOfLine(n, c, d);
    InterceptOfLine(n, c, d);
  }

  lemma SlopeOfLine(n: nat, c: real, d: real)
    requires n >= 2
    ensures Slope(OnLine(Positions(n), c, d)) == c
  {
    var xs := Positions(n);
    var ys := OnLine(xs, c, d);
    var mx, my := Mean(xs), Mean(ys);
    MeanOnLine(xs, c, d);
    CrossDeviationsOnLine(xs, c, d, mx, my, SquaredDeviations(xs, mx));
    SlopeIsRatio(xs, ys);
    Cancel(Slope(ys), CrossDeviations(xs, ys, mx, my), SquaredDeviations(xs, mx), c);
  }

  lemma SlopeIsRatio(xs: seq<real>, ys: seq<real>)
    requires |ys| >= 2 && xs == Positions(|ys|)
    ensures SquaredDeviations(xs, Mean(xs)) > 0.0
    ensures Slope(ys) == CrossDeviations(xs, ys, Mean(xs), Mean(ys)) / SquaredDeviations(xs, Mean(xs))
  {
    PositionsSpread(|ys|);
  }

  lemma InterceptOfLine(n: nat, c: real, d: real)
    requires n >= 2
    ensures Intercept(OnLine(Positions(n), c, d)) == d
  {
    var xs := Positions(n);
    var ys := OnLine(xs, c, d);
    SlopeOfLine(n, c, d);
    MeanOnLine(xs, c, d);
    InterceptIsThroughMeans(xs, ys);
    InterceptStep(Intercept(ys), Mean(ys), Mean(xs), Slope(ys), c, d);
  }

  lemma InterceptIsThroughMeans(xs: seq<real>, ys: seq<real>)
    requires |ys| >= 2 && xs == Positions(|ys|)
    ensures Intercept(ys) == Mean(ys) - Slope(ys) * Mean(xs)
  {
  }

  /** On scalars: the intercept through the point of means of a line. */
  lemma InterceptStep(b: real, my: real, mx: real, a: real, c: real, d: real)
    requires b == my - a * mx && a == c && my == c * mx + d
    ensures b == d
  {
  }

  /** Re-fitting the trend line returns the same line. */
  lemma RefitIsIdempotent(ys: seq<real>)
    requires |ys| >= 2
    ensures LinearTrend(LinearTrend(ys).value) == LinearTrend(ys)
  {
    FitOfLineIsThatLine(|ys|, Slope(ys), Intercept(ys));
  }

  /** On scalars: N times the intercept through the means is the total of
      the points less the slope times the total of the positions. */
  lemma Rebalance(a: real, b: real, n: real, m: real, sx: real, sy: real, mx: real, my: real)
    requires n > 0.0 && n == m && mx == sx / n && my == sy / m
    requires b == my - a * mx
    ensures n * b == sy - a * sx
  {
    assert n * my == sy;
    assert n * (a * mx) == a * (n * mx);
    assert n * mx == sx;
  }

  lemma CountTimesIntercept(xs: seq<real>, ys: seq<real>, a: real)
    requires |xs| == |ys| > 0
    ensures (|xs| as real) * InterceptThroughMeans(xs, ys, a) == Sum(ys) - a * Sum(xs)
  {
    Rebalance(a, InterceptThroughMeans(xs, ys, a), |xs| as real, |ys| as real,
              Sum(xs), Sum(ys), Mean(xs), Mean(ys));
  }

  /** A line of any slope `a` through the point of means (intercept `b`) has
      the same total as the points. */
  lemma LineThroughMeansKeepsTotal(xs: seq<real>, ys: seq<real>, a: real, b: real)
    requires |xs| == |ys| > 0
    requires b == InterceptThroughMeans(xs, ys, a)
    ensures Sum(OnLine(xs, a, b)) == Sum(ys)
  {
    SumOnLine(xs, a, b, Sum(xs), |xs| as real);
    CountTimesIntercept(xs, ys, a);
  }

  /** The second normal equation of least squares: the fitted line has the
      same co-deviation with the positions as the closes have. With
      `ResidualsOfFitSumToZero` (the first normal equation) this singles out
      the least-squares line among all lines. */
  lemma FitKeepsCrossDeviations(ys: seq<real>)
    requires |ys| >= 2
    ensures var xs, fit := Positions(|ys|), LinearTrend(ys).value;
      CrossDeviations(xs, fit, Mean(xs), Mean(fit)) == CrossDeviations(xs, ys, Mean(xs), Mean(ys))
  {
    var xs := Positions(|ys|);
    FitCrossIsSlopeTimesSpread(ys);
    SlopeTimesSpread(xs, ys);
  }

  /** The fitted line's co-deviation with the positions is its slope times
      the spread of the positions. */
  lemma FitCrossIsSlopeTimesSpread(ys: seq<real>)
    requires |ys| >= 2
    ensures var xs, fit := Positions(|ys|), LinearTrend(ys).value;
      CrossDeviations(xs, fit, Mean(xs), Mean(fit)) == Slope(ys) * SquaredDeviations(xs, Mean(xs))
  {
    LineCrossDeviations(Positions(|ys|), Slope(ys), Intercept(ys));
  }

  /** Any line of slope `a` has co-deviation `a` times the spread of its
      positions. */
  lemma LineCrossDeviations(xs: seq<real>, a: real, b: real)
    requires |xs| > 0
    ensures CrossDeviations(xs, OnLine(xs, a, b), Mean(xs), Mean(OnLine(xs, a, b))) == a * SquaredDeviations(xs, Mean(xs))
  {
    var mx := Mean(xs);
    MeanOnLine(xs, a, b);
    CrossDeviationsOnLine(xs, a, b, mx, Mean(OnLine(xs, a, b)), SquaredDeviations(xs, mx));
  }

  /** The slope times the spread of the positions is the closes'
      co-deviation with the positions. */
  lemma SlopeTimesSpread(xs: seq<real>, ys: seq<real>)
    requires |ys| >= 2 && xs == Positions(|ys|)
    ensures Slope(ys) * SquaredDeviations(xs, Mean(xs)) == CrossDeviations(xs, ys, Mean(xs), Mean(ys))
  {
    SlopeIsRatio(xs, ys);
    RatioTimesDenominator(Slope(ys), CrossDeviations(xs, ys, Mean(xs), Mean(ys)), SquaredDeviations(xs, Mean(xs)));
  }

  /** On scalars: a ratio times its denominator is its numerator. */
  lemma RatioTimesDenominator(q: real, num: real, den: real)
    requires den != 0.0 && q == num / den
    ensures q * den == num
  {
  }

  /** The residuals of the fit sum to zero: the line has the same total as the
      closes. */
  lemma ResidualsOfFitSumToZero(ys: seq<real>)
    requires |ys| >= 2
    ensures Sum(LinearTrend(ys).value) == Sum(ys)
  {
    LineThroughMeansKeepsTotal(Positions(|ys|), ys, Slope(ys), Intercept(ys));
  }
}
