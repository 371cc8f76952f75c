/** The moving-average family computed on the filtered closing prices:
    `rolling(20).mean()`, `ewm(span=20).mean()`, `rolling(20).std()` and the
    Bollinger bands `SMA20 ± 2·STD` (main.py:170-174). */
module Indicators {
  import opened Wrappers
  import opened Series

  /** The window of SMA20 and STD. */
  const SmaWindow: nat := 20

  /** The band multiplier of the Bollinger bands. */
  const BandWidth: real := 2.0

  /** `ewm(span=20)`: alpha = 2 / (span + 1); `Decay` is 1 - alpha. */
  const Alpha: real := 2.0 / 21.0
  const Decay: real := 1.0 - Alpha

  // ---------------------------------------------------------------------------
  // Rolling mean
  // ---------------------------------------------------------------------------

  /** `rolling(w).mean()` with pandas' default `min_periods == w`: NaN until
      the trailing window is full. Computed from prefix sums (the sum of the
      prefix ending at `i` minus that ending before the window), which in
      exact arithmetic equal pandas' sliding-window sum. */
  function RollingMean(xs: seq<real>, w: nat): (r: Column)
    requires w >= 1
    ensures |r| == |xs|
    ensures forall i :: 0 <= i < |r| ==> (r[i].Some? <==> i >= w - 1)
  {
    seq(|xs|, i requires 0 <= i < |xs| =>
      if i < w - 1 then None
      else Some((Sum(xs[..i + 1]) - Sum(xs[..i + 1 - w])) / (w as real)))
  }

  /** Each defined rolling-mean entry is the mean of the `w` trailing points
      ending at it. */
  lemma RollingMeanIsWindowMean(xs: seq<real>, w: nat, i: nat)
    requires w >= 1 && w - 1 <= i < |xs|
    ensures RollingMean(xs, w)[i] == Some(Mean(xs[i + 1 - w..i + 1]))
  {
    WindowSum(xs, i + 1 - w, i + 1);
  }

  /** A series of N points has exactly N - w + 1 defined rolling means. */
  lemma RollingMeanDefinedCount(xs: seq<real>, w: nat)
    requires w >= 1
    ensures CountDefined(RollingMean(xs, w)) == if |xs| >= w then |xs| - w + 1 else 0
  {
    CountAfterWarmup(RollingMean(xs, w), w - 1);
  }

  /** A defined rolling mean lies within the range of its window. */
  lemma RollingMeanWithinWindow(xs: seq<real>, w: nat, i: nat, lo: real, hi: real)
    requires w >= 1 && w - 1 <= i < |xs|
    requires forall k :: i + 1 - w <= k <= i ==> lo <= xs[k] <= hi
    ensures lo <= RollingMean(xs, w)[i].value <= hi
  {
    RollingMeanIsWindowMean(xs, w, i);
    var win := xs[i + 1 - w..i + 1];
    assert forall k :: 0 <= k < |win| ==> win[k] == xs[i + 1 - w + k];
    MeanBounds(win, lo, hi);
  }

  /** SMA20 (main.py:170). */
  function Sma(xs: seq<real>): (r: Column)
    ensures |r| == |xs|
    ensures forall i :: 0 <= i < |r| ==> (r[i].Some? <==> i >= SmaWindow - 1)
  {
    RollingMean(xs, SmaWindow)
  }

  /** The worked example of a 3-point window: [1,2,3,4,5] gives [_,_,2,3,4]. */
  lemma RollingMeanExample()
    ensures RollingMean([1.0, 2.0, 3.0, 4.0, 5.0], 3) == [None, None, Some(2.0), Some(3.0), Some(4.0)]
  {
    var xs := [1.0, 2.0, 3.0, 4.0, 5.0];
    RollingMeanIsWindowMean(xs, 3, 2);
    RollingMeanIsWindowMean(xs, 3, 3);
    RollingMeanIsWindowMean(xs, 3, 4);
    SumOfThree(1.0, 2.0, 3.0);
    SumOfThree(2.0, 3.0, 4.0);
    SumOfThree(3.0, 4.0, 5.0);
    assert xs[0..3] == [1.0, 2.0, 3.0];
    assert xs[1..4] == [2.0, 3.0, 4.0];
    assert xs[2..5] == [3.0, 4.0, 5.0];
  }

  /** A 20-close series with a 5-point window: four leading NaNs, then
      mean(10, 12, 11, 13, 15) = 12.2. */
  lemma RollingMeanFivePointExample()
    ensures var xs := [10.0, 12.0, 11.0, 13.0, 15.0, 14.0, 16.0, 18.0, 17.0, 19.0,
                       21.0, 20.0, 22.0, 24.0, 23.0, 25.0, 27.0, 26.0, 28.0, 30.0];
      var r := RollingMean(xs, 5);
      r[0].None? && r[1].None? && r[2].None? && r[3].None? && r[4] == Some(12.2)
  {
    var xs := [10.0, 12.0, 11.0, 13.0, 15.0, 14.0, 16.0, 18.0, 17.0, 19.0,
               21.0, 20.0, 22.0, 24.0, 23.0, 25.0, 27.0, 26.0, 28.0, 30.0];
    RollingMeanIsWindowMean(xs, 5, 4);
    var w := xs[0..5];
    assert w == [10.0, 12.0, 11.0, 13.0, 15.0];
    assert w[..4][..3] == [10.0, 12.0, 11.0];
    SumOfThree(10.0, 12.0, 11.0);
    assert Sum(w[..4]) == 46.0;
    assert Sum(w) == 61.0;
  }

  lemma SumOfThree(a: real, b: real, c: real)
    ensures Sum([a, b, c]) == a + b + c
  {
    assert [a, b, c][..2] == [a, b];
    assert [a, b][..1] == [a];
    assert [a][..0] == [];
    assert Sum([a]) == a;
    assert Sum([a, b]) == a + b;
  }

  // ---------------------------------------------------------------------------
  // Exponential moving average, pandas' adjusted form
  // ---------------------------------------------------------------------------

  /** The running numerator of `ewm(adjust=True)`: each new point enters with
      weight 1 and every older weight decays by `Decay`. */
  function EwmNumerator(xs: seq<real>): real
    decreases |xs|
  {
    if |xs| == 0 then 0.0 else Decay * EwmNumerator(xs[..|xs| - 1]) + xs[|xs| - 1]
  }

  /** The running total of those weights after `n` points. */
  function EwmWeight(n: nat): (d: real)
    ensures d >= 0.0
    ensures n > 0 ==> d >= 1.0
  {
    if n == 0 then 0.0 else Decay * EwmWeight(n - 1) + 1.0
  }

  /** EMA20 (main.py:171): the adjusted exponentially weighted mean, defined at
      every index (no warm-up), starting from the first close. */
  function Ema(xs: seq<real>): (r: Column)
    ensures |r| == |xs|
    ensures forall i :: 0 <= i < |r| ==> r[i].Some?
  {
    seq(|xs|, i requires 0 <= i < |xs| => Some(EwmNumerator(xs[..i + 1]) / EwmWeight(i + 1)))
  }

  lemma EmaStartsAtFirstClose(xs: seq<real>)
    requires |xs| > 0
    ensures Ema(xs)[0] == Some(xs[0])
  {
    var first := xs[..1];
    assert first[..0] == [];
    assert EwmNumerator(first) == Decay * EwmNumerator([]) + xs[0];
    assert EwmWeight(1) == Decay * EwmWeight(0) + 1.0;
  }

  /** Reference form: the sum over the observations of Decay^age · x, where the
      age of `xs[k]` is `|xs| - 1 - k`. */
  function Power(b: real, k: nat): real
  {
    if k == 0 then 1.0 else b * Power(b, k - 1)
  }

  function WeightedByAge(xs: seq<real>): real
    decreases |xs|
  {
    if |xs| == 0 then 0.0 else Power(Decay, |xs| - 1) * xs[0] + WeightedByAge(xs[1..])
  }

  function Ones(n: nat): (s: seq<real>)
    ensures |s| == n && forall k :: 0 <= k < n ==> s[k] == 1.0
  {
    seq(n, k => 1.0)
  }

  /** Appending a point to the reference sum ages every older point once. */
  lemma {:induction false} WeightedByAgeSnoc(xs: seq<real>, x: real)
    ensures WeightedByAge(xs + [x]) == Decay * WeightedByAge(xs) + x
    decreases |xs|
  {
    if |xs| == 0 {
      assert (xs + [x])[1..] == [];
    } else {
      assert (xs + [x])[1..] == xs[1..] + [x];
      WeightedByAgeSnoc(xs[1..], x);
      var p := Power(Decay, |xs| - 1);
      assert Power(Decay, |xs|) * xs[0] == Decay * (p * xs[0]);
    }
  }

  lemma {:induction false} NumeratorIsWeightedByAge(xs: seq<real>)
    ensures EwmNumerator(xs) == WeightedByAge(xs)
    decreases |xs|
  {
    if |xs| > 0 {
      var front := xs[..|xs| - 1];
      NumeratorIsWeightedByAge(front);
      WeightedByAgeSnoc(front, xs[|xs| - 1]);
      assert front + [xs[|xs| - 1]] == xs;
    }
  }

  lemma {:induction false} WeightIsNumeratorOfOnes(n: nat)
    ensures EwmWeight(n) == EwmNumerator(Ones(n))
    decreases n
  {
    if n > 0 {
      assert Ones(n)[..n - 1] == Ones(n - 1);
      WeightIsNumeratorOfOnes(n - 1);
    }
  }

  /** EMA20 is the normalised weighted average
      sum_k (1-alpha)^k x[i-k] / sum_k (1-alpha)^k over the ages k <= i. */
  lemma EmaIsNormalisedWeightedSum(xs: seq<real>, i: nat)
    requires i < |xs|
    ensures WeightedByAge(Ones(i + 1)) >= 1.0
    ensures Ema(xs)[i] == Some(WeightedByAge(xs[..i + 1]) / WeightedByAge(Ones(i + 1)))
  {
    NumeratorIsWeightedByAge(xs[..i + 1]);
    NumeratorIsWeightedByAge(Ones(i + 1));
    WeightIsNumeratorOfOnes(i + 1);
  }

  /** With every point in [lo, hi], the running numerator `num` lies between
      lo and hi times the running weight `w`. */
  lemma {:induction false} NumeratorBounds(xs: seq<real>, lo: real, hi: real, num: real, w: real)
    requires forall k :: 0 <= k < |xs| ==> lo <= xs[k] <= hi
    requires num == EwmNumerator(xs) && w == EwmWeight(|xs|)
    ensures lo * w <= num <= hi * w
    decreases |xs|
  {
    if |xs| > 0 {
      var front := xs[..|xs| - 1];
      assert forall k :: 0 <= k < |front| ==> front[k] == xs[k];
      var nf, wf := EwmNumerator(front), EwmWeight(|front|);
      NumeratorBounds(front, lo, hi, nf, wf);
      DecayStep(nf, wf, xs[|xs| - 1], lo, hi);
    }
  }

  /** One step of `NumeratorBounds`, on scalars: decaying both the numerator
      and the weight and adding a point within [lo, hi] keeps the bounds. */
  lemma DecayStep(num: real, d: real, x: real, lo: real, hi: real)
    requires lo * d <= num <= hi * d && lo <= x <= hi
    ensures lo * (Decay * d + 1.0) <= Decay * num + x <= hi * (Decay * d + 1.0)
  {
    assert lo * (Decay * d + 1.0) == Decay * (lo * d) + lo;
    assert hi * (Decay * d + 1.0) == Decay * (hi * d) + hi;
  }

  /** Each EMA20 entry lies within the range of the closes seen so far. */
  lemma EmaWithinRange(xs: seq<real>, i: nat, lo: real, hi: real)
    requires i < |xs|
    requires forall k :: 0 <= k <= i ==> lo <= xs[k] <= hi
    ensures lo <= Ema(xs)[i].value <= hi
  {
    var p := xs[..i + 1];
    assert forall k :: 0 <= k < |p| ==> p[k] == xs[k];
    var w := EwmWeight(i + 1);
    var num := EwmNumerator(p);
    NumeratorBounds(p, lo, hi, num, w);
    QuotientBounds(num, w, lo, hi);
    assert Ema(xs)[i] == Some(num / w);
  }

  /** One step of the recursion: alpha·x + (1-alpha)·previous. */
  function RecursiveStep(prev: real, x: real): real
  {
    Alpha * x + Decay * prev
  }

  /** The recursive exponential average EMA[0] = x[0],
      EMA[i] = alpha·x[i] + (1-alpha)·EMA[i-1] (pandas' `adjust=False`),
      which the dashboard does not use. */
  function RecursiveEma(xs: seq<real>): (r: seq<real>)
    ensures |r| == |xs|
    ensures |xs| > 0 ==> r[0] == xs[0]
    ensures forall i :: 0 < i < |r| ==> r[i] == RecursiveStep(r[i - 1], xs[i])
    decreases |xs|
  {
    if |xs| <= 1 then xs
    else
      var front := xs[..|xs| - 1];
      var prev := RecursiveEma(front);
      assert forall i :: 0 < i < |prev| ==> prev[i] == RecursiveStep(prev[i - 1], xs[i]);
      prev + [RecursiveStep(prev[|prev| - 1], xs[|xs| - 1])]
  }

  /** The adjusted form is not the recursion: for closes [0, 21] pandas gives
      441/40 at index 1 where the recursion gives 2. */
  lemma EmaIsNotTheRecursiveForm()
    ensures Ema([0.0, 21.0])[1] == Some(441.0 / 40.0)
    ensures RecursiveEma([0.0, 21.0])[1] == 2.0
    ensures Ema([0.0, 21.0])[1].value != RecursiveEma([0.0, 21.0])[1]
  {
    var xs := [0.0, 21.0];
    assert xs[..2] == xs;
    assert xs[..2][..1] == [0.0];
    assert [0.0][..0] == [];
  }

  // ---------------------------------------------------------------------------
  // Rolling standard deviation and Bollinger bands
  // ---------------------------------------------------------------------------

  /** The sum of squared deviations of a series from `m`. */
  function SquaredDeviations(s: seq<real>, m: real): (r: real)
    ensures r >= 0.0
  {
    SquaresNonNegative(s, m);
    SumNonNegative(DeviationProducts(s, s, m, m));
    Sum(DeviationProducts(s, s, m, m))
  }

  lemma SquareNonNegative(e: real)
    ensures e * e >= 0.0
  {
    if e < 0.0 {
      assert e * e == (-e) * (-e);
    }
  }

  lemma SquaresNonNegative(s: seq<real>, m: real)
    ensures forall k :: 0 <= k < |s| ==> DeviationProducts(s, s, m, m)[k] >= 0.0
  {
    forall k | 0 <= k < |s|
      ensures DeviationProducts(s, s, m, m)[k] >= 0.0
    {
      SquareNonNegative(s[k] - m);
    }
  }

  /** The sample variance, with Bessel's n - 1 denominator (`std` has ddof=1). */
  function SampleVariance(s: seq<real>): (v: real)
    requires |s| >= 2
    ensures v >= 0.0
  {
    SquaredDeviations(s, Mean(s)) / ((|s| - 1) as real)
  }

  /** `root` behaves as the square root on the non-negative reals. */
  ghost predicate IsSqrt(root: real -> real)
  {
    forall v :: 0.0 <= v ==> 0.0 <= root(v) && root(v) * root(v) == v
  }

  /** STD (main.py:172): the rolling sample standard deviation over 20 points,
      NaN for the first 19. */
  function Std(xs: seq<real>, root: real -> real): (r: Column)
    requires IsSqrt(root)
    ensures |r| == |xs|
    ensures forall i :: 0 <= i < |r| ==> (r[i].Some? <==> i >= SmaWindow - 1)
  {
    seq(|xs|, i requires 0 <= i < |xs| =>
      if i < SmaWindow - 1 then None
      else Some(root(SampleVariance(xs[i + 1 - SmaWindow..i + 1]))))
  }

  /** Each defined STD entry is non-negative and squares to the sample
      variance of its 20-point window. */
  lemma StdIsWindowDeviation(xs: seq<real>, root: real -> real, i: nat)
    requires IsSqrt(root)
    requires SmaWindow - 1 <= i < |xs|
    ensures var sd := Std(xs, root)[i].value;
      sd >= 0.0 && sd * sd == SampleVariance(xs[i + 1 - SmaWindow..i + 1])
  {
    var v := SampleVariance(xs[i + 1 - SmaWindow..i + 1]);
    assert Std(xs, root)[i].value == root(v);
    assert 0.0 <= root(v) && root(v) * root(v) == v;
  }

  /** UB (main.py:173). */
  function UpperBand(xs: seq<real>, root: real -> real): (r: Column)
    requires IsSqrt(root)
    ensures |r| == |xs|
  {
    var sma, std := Sma(xs), Std(xs, root);
    seq(|xs|, i requires 0 <= i < |xs| => Plus(sma[i], Scale(BandWidth, std[i])))
  }

  /** LB (main.py:174). */
  function LowerBand(xs: seq<real>, root: real -> real): (r: Column)
    requires IsSqrt(root)
    ensures |r| == |xs|
  {
    var sma, std := Sma(xs), Std(xs, root);
    seq(|xs|, i requires 0 <= i < |xs| => Minus(sma[i], Scale(BandWidth, std[i])))
  }

  /** The bands share the SMA's 19-point warm-up, sit symmetrically around it
      and enclose it, at a distance of two sample standard deviations of the
      20-close window: that distance squared is 4 times the window's variance. */
  lemma BandsAroundSma(xs: seq<real>, root: real -> real, i: nat)
    requires IsSqrt(root)
    requires i < |xs|
    ensures UpperBand(xs, root)[i].Some? <==> i >= SmaWindow - 1
    ensures LowerBand(xs, root)[i].Some? <==> i >= SmaWindow - 1
    ensures i >= SmaWindow - 1 ==>
      var ub, mid, lb := UpperBand(xs, root)[i].value, Sma(xs)[i].value, LowerBand(xs, root)[i].value;
      ub - mid == mid - lb && lb <= mid <= ub &&
      (ub - mid) * (ub - mid) == BandWidth * BandWidth * SampleVariance(xs[i + 1 - SmaWindow..i + 1])
  {
    if i >= SmaWindow - 1 {
      StdIsWindowDeviation(xs, root, i);
      assert UpperBand(xs, root)[i].value - Sma(xs)[i].value == BandWidth * Std(xs, root)[i].value;
    }
  }
}
