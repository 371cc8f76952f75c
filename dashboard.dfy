/** The computation inside `trend_app` (main.py:156-217): the no-data check on
    the loaded table, the date mask, and every indicator column derived from the
    filtered closes (the trend line has no value for fewer than two rows). The price table arrives as a parameter; how it is fetched
    is not part of this model. */
module Dashboard {
  import opened Wrappers
  import opened Series
  import opened DateFilter
  import opened Indicators
  import opened Decomposition
  import opened TrendLine

  /** The filtered table with its derived columns, aligned row by row. */
  datatype IndicatorSet = IndicatorSet(
    rows: seq<Bar>,
    sma20: Column, ema20: Column, std: Column, upper: Column, lower: Column,
    trendLine: Option<seq<real>>,
    trend: Column, seasonal: Column, residual: Column)

  datatype View = NoData | Charts(indicators: IndicatorSet)

  /** Every column derived from the rows of the selected range. */
  function Compute(rows: seq<Bar>, root: real -> real): (ind: IndicatorSet)
    requires IsSqrt(root)
    ensures ind.rows == rows
    ensures var n := |rows|;
      |ind.sma20| == n && |ind.ema20| == n && |ind.std| == n &&
      |ind.upper| == n && |ind.lower| == n &&
      (ind.trendLine.Some? <==> n >= 2) && (ind.trendLine.Some? ==> |ind.trendLine.value| == n) &&
      |ind.trend| == n && |ind.seasonal| == n && |ind.residual| == n
  {
    var xs := Closes(rows);
    IndicatorSet(rows, Sma(xs), Ema(xs), Std(xs, root), UpperBand(xs, root), LowerBand(xs, root),
                 LinearTrend(xs), TrendComponent(xs), SeasonalComponent(xs), ResidualComponent(xs))
  }

  /** `trend_app` as written: `root` stands for the square root that
      `rolling().std()` applies. The no-data check looks at the loaded table,
      before the date mask. */
  function TrendApp(bars: seq<Bar>, start: int, end: int, root: real -> real): (v: View)
    requires IsSqrt(root)
    ensures v.NoData? <==> |bars| == 0
    ensures v.Charts? ==> v.indicators.rows == FilterByDate(bars, start, end)
  {
    if |bars| == 0 then NoData
    else Charts(Compute(FilterByDate(bars, start, end), root))
  }

  /** A non-empty table whose selected range holds no rows (an inverted
      range, or one holding no trading day) passes the no-data check and
      reaches the trend-line fit with zero points, where the fit has no value
      (`np.polyfit` raises on an empty input). */
  lemma EmptySelectionReachesFit(bars: seq<Bar>, start: int, end: int, root: real -> real)
    requires IsSqrt(root)
    requires |bars| > 0 && FilterByDate(bars, start, end) == []
    ensures TrendApp(bars, start, end, root).Charts?
    ensures TrendApp(bars, start, end, root).indicators.rows == []
    ensures TrendApp(bars, start, end, root).indicators.trendLine.None?
  {
  }

  /** The pipeline with the no-data check moved after the date mask: an empty
      selection shows the no-data state, and every chart has rows to plot. */
  function GuardedTrendApp(bars: seq<Bar>, start: int, end: int, root: real -> real): (v: View)
    requires IsSqrt(root)
    ensures v.NoData? <==> FilterByDate(bars, start, end) == []
    ensures v.Charts? ==>
      v.indicators.rows == FilterByDate(bars, start, end) && |v.indicators.rows| > 0
  {
    var rows := FilterByDate(bars, start, end);
    if |rows| == 0 then NoData else Charts(Compute(rows, root))
  }

  /** The guarded pipeline differs from the source exactly on a non-empty
      table whose selection is empty. */
  lemma GuardedAgreesOnNonEmptySelection(bars: seq<Bar>, start: int, end: int, root: real -> real)
    requires IsSqrt(root)
    ensures GuardedTrendApp(bars, start, end, root) != TrendApp(bars, start, end, root) <==>
      |bars| > 0 && FilterByDate(bars, start, end) == []
  {
  }
}
