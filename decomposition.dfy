/** The naive time-series decomposition of the closes (main.py:214-217):
    trend = `rolling(30).mean()` (default `min_periods`, so NaN for the first
    29 points), seasonal = close - trend, residual = seasonal - mean(seasonal),
    where the mean skips NaN. */
module Decomposition {
  import opened Wrappers
  import opened Series
  import opened Indicators

  const TrendWindow: nat := 30

  function TrendComponent(xs: seq<real>): (r: Column)
    ensures |r| == |xs|
    ensures forall i :: 0 <= i < |r| ==> (r[i].Some? <==> i >= TrendWindow - 1)
  {
    RollingMean(xs, TrendWindow)
  }

  function SeasonalComponent(xs: seq<real>): (r: Column)
    ensures |r| == |xs|
  {
    var trend := TrendComponent(xs);
    seq(|xs|, i requires 0 <= i < |xs| => Minus(Some(xs[i]), trend[i]))
  }

  function ResidualComponent(xs: seq<real>): (r: Column)
    ensures |r| == |xs|
  {
    var seasonal := SeasonalComponent(xs);
    match MeanDefined(seasonal)
    case None => seq(|xs|, i => None)
    case Some(m) => Shifted(seasonal, m)
  }

  /** Trend and seasonal share the 29-point warm-up; where defined they add
      back up to the close exactly, and the trend is the mean of the 30
      trailing closes. */
  lemma TrendPlusSeasonalIsClose(xs: seq<real>, i: nat)
    requires i < |xs|
    ensures SeasonalComponent(xs)[i].Some? <==> i >= TrendWindow - 1
    ensures i >= TrendWindow - 1 ==>
      TrendComponent(xs)[i] == Some(Mean(xs[i + 1 - TrendWindow..i + 1])) &&
      TrendComponent(xs)[i].value + SeasonalComponent(xs)[i].value == xs[i]
  {
    if i >= TrendWindow - 1 {
      RollingMeanIsWindowMean(xs, TrendWindow, i);
    }
  }

  /** The residual is defined exactly where the seasonal component is (and
      nowhere when fewer than 30 closes leave the seasonal mean NaN). */
  lemma ResidualDefinedWhereSeasonal(xs: seq<real>, i: nat)
    requires i < |xs|
    ensures ResidualComponent(xs)[i].Some? <==> |xs| >= TrendWindow && i >= TrendWindow - 1
  {
    var seasonal := SeasonalComponent(xs);
    forall j | 0 <= j < |xs|
      ensures seasonal[j].Some? <==> j >= TrendWindow - 1
    {
      TrendPlusSeasonalIsClose(xs, j);
    }
    CountAfterWarmup(seasonal, TrendWindow - 1);
  }

  /** The residual is the seasonal component less one constant: at any two
      defined positions, residual and seasonal differ by the same amount.
      With `ResidualsSumToZero` this fixes every residual value. */
  lemma ResidualIsShiftedSeasonal(xs: seq<real>, i: nat, j: nat)
    requires i < |xs| && j < |xs|
    requires ResidualComponent(xs)[i].Some? && ResidualComponent(xs)[j].Some?
    ensures SeasonalComponent(xs)[i].Some? && SeasonalComponent(xs)[j].Some?
    ensures ResidualComponent(xs)[i].value - SeasonalComponent(xs)[i].value ==
            ResidualComponent(xs)[j].value - SeasonalComponent(xs)[j].value
  {
  }

  /** The defined residuals sum to zero. */
  lemma ResidualsSumToZero(xs: seq<real>)
    ensures SumDefined(ResidualComponent(xs)) == 0.0
  {
    var seasonal := SeasonalComponent(xs);
    if MeanDefined(seasonal).None? {
      AllNaNSumsToZero(ResidualComponent(xs));
    } else {
      ShiftByMeanSumsToZero(seasonal);
    }
  }

  lemma {:induction false} AllNaNSumsToZero(c: Column)
    requires forall i :: 0 <= i < |c| ==> c[i].None?
    ensures SumDefined(c) == 0.0
    decreases |c|
  {
    if |c| > 0 {
      var front := c[..|c| - 1];
      assert forall i :: 0 <= i < |front| ==> front[i] == c[i];
      AllNaNSumsToZero(front);
    }
  }
}
