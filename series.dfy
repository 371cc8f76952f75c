/** Exact arithmetic over price series and over indicator columns.

    A column is aligned index by index with the rows of the price table; an
    entry is `None` where pandas would hold NaN. Pandas propagates NaN through
    `+`, `-` and `*`, and its reductions (`mean`, `sum`) skip it; the helpers
    here do the same. */
module Series {
  import opened Wrappers

  type Column = seq<Option<real>>

  /** The sum of a series, accumulated from the back. */
  function Sum(s: seq<real>): real
    decreases |s|
  {
    if |s| == 0 then 0.0 else Sum(s[..|s| - 1]) + s[|s| - 1]
  }

  /** The arithmetic mean of a non-empty series. */
  function Mean(s: seq<real>): real
    requires |s| > 0
  {
    Sum(s) / (|s| as real)
  }

  lemma {:induction false} SumAppend(a: seq<real>, b: seq<real>)
    ensures Sum(a + b) == Sum(a) + Sum(b)
    decreases |b|
  {
    if |b| == 0 {
      assert a + b == a;
    } else {
      assert (a + b)[..|a + b| - 1] == a + b[..|b| - 1];
      SumAppend(a, b[..|b| - 1]);
    }
  }

  /** A window sum is a difference of two prefix sums. */
  lemma WindowSum(xs: seq<real>, i: nat, j: nat)
    requires i <= j <= |xs|
    ensures Sum(xs[..j]) - Sum(xs[..i]) == Sum(xs[i..j])
  {
    assert xs[..j] == xs[..i] + xs[i..j];
    SumAppend(xs[..i], xs[i..j]);
  }

  /** `n` points within [lo, hi] sum to between n·lo and n·hi. */
  lemma {:induction false} SumBounds(s: seq<real>, lo: real, hi: real, n: real)
    requires forall k :: 0 <= k < |s| ==> lo <= s[k] <= hi
    requires n == |s| as real
    ensures lo * n <= Sum(s) <= hi * n
    decreases |s|
  {
    if |s| > 0 {
      var front := s[..|s| - 1];
      assert forall k :: 0 <= k < |front| ==> front[k] == s[k];
      var k := |front| as real;
      SumBounds(front, lo, hi, k);
      BoundStep(Sum(front), s[|s| - 1], k, n, lo, hi);
    }
  }

  /** One step of `SumBounds`, on scalars. */
  lemma BoundStep(sf: real, x: real, k: real, n: real, lo: real, hi: real)
    requires lo * k <= sf <= hi * k && lo <= x <= hi && n == k + 1.0
    ensures lo * n <= sf + x <= hi * n
  {
    assert lo * n == lo * k + lo;
    assert hi * n == hi * k + hi;
  }

  /** A mean lies between any lower and upper bound of its points. */
  lemma MeanBounds(s: seq<real>, lo: real, hi: real)
    requires |s| > 0
    requires forall k :: 0 <= k < |s| ==> lo <= s[k] <= hi
    ensures lo <= Mean(s) <= hi
  {
    var n := |s| as real;
    SumBounds(s, lo, hi, n);
    QuotientBounds(Sum(s), n, lo, hi);
  }

  /** On scalars: a quotient whose numerator lies between lo and hi times a
      positive denominator lies between lo and hi. */
  lemma QuotientBounds(num: real, d: real, lo: real, hi: real)
    requires d > 0.0 && lo * d <= num <= hi * d
    ensures lo <= num / d <= hi
  {
    assert num / d - lo == (num - lo * d) / d;
    assert hi - num / d == (hi * d - num) / d;
  }

  /** A sum of non-negative points is non-negative. */
  lemma {:induction false} SumNonNegative(s: seq<real>)
    requires forall k :: 0 <= k < |s| ==> s[k] >= 0.0
    ensures Sum(s) >= 0.0
    decreases |s|
  {
    if |s| > 0 {
      var front := s[..|s| - 1];
      assert forall k :: 0 <= k < |front| ==> front[k] == s[k];
      SumNonNegative(front);
    }
  }

  /** Each of a series of non-negative points is at most their sum. */
  lemma {:induction false} EntryAtMostSum(s: seq<real>, k: nat)
    requires k < |s|
    requires forall j :: 0 <= j < |s| ==> s[j] >= 0.0
    ensures s[k] <= Sum(s)
    decreases |s|
  {
    var front := s[..|s| - 1];
    assert forall j :: 0 <= j < |front| ==> front[j] == s[j];
    if k < |s| - 1 {
      EntryAtMostSum(front, k);
    } else {
      SumNonNegative(front);
    }
  }

  /** The deviation products (x - mx)·(y - my), point by point. */
  function DeviationProducts(xs: seq<real>, ys: seq<real>, mx: real, my: real): (ps: seq<real>)
    requires |xs| == |ys|
    ensures |ps| == |xs|
  {
    seq(|xs|, i requires 0 <= i < |xs| => (xs[i] - mx) * (ys[i] - my))
  }

  /** Every point of `s` multiplied by `c`. */
  function Scaled(c: real, s: seq<real>): (r: seq<real>)
    ensures |r| == |s|
  {
    seq(|s|, i requires 0 <= i < |s| => c * s[i])
  }

  /** Scaling every point scales the sum (`total`). */
  lemma {:induction false} SumScaled(c: real, s: seq<real>, total: real)
    requires total == Sum(s)
    ensures Sum(Scaled(c, s)) == c * total
    decreases |s|
  {
    if |s| > 0 {
      var n := |s| - 1;
      var r := Scaled(c, s);
      assert forall i :: 0 <= i < n ==> r[..n][i] == Scaled(c, s[..n])[i];
      assert r[..n] == Scaled(c, s[..n]);
      SumScaled(c, s[..n], Sum(s[..n]));
      Distribute(c, Sum(s[..n]), s[n], total);
    }
  }

  /** On scalars: c·a + c·b is c times their sum. */
  lemma Distribute(c: real, a: real, b: real, total: real)
    requires total == a + b
    ensures c * a + c * b == c * total
  {
  }

  /** NaN-propagating addition, subtraction and scaling of column entries. */
  function Plus(a: Option<real>, b: Option<real>): Option<real>
  {
    if a.Some? && b.Some? then Some(a.value + b.value) else None
  }

  function Minus(a: Option<real>, b: Option<real>): Option<real>
  {
    if a.Some? && b.Some? then Some(a.value - b.value) else None
  }

  function Scale(k: real, a: Option<real>): Option<real>
  {
    if a.Some? then Some(k * a.value) else None
  }

  /** The number of non-NaN entries of a column (pandas `count`). */
  function CountDefined(c: Column): (n: nat)
    ensures n <= |c|
    decreases |c|
  {
    if |c| == 0 then 0
    else CountDefined(c[..|c| - 1]) + (if c[|c| - 1].Some? then 1 else 0)
  }

  /** The sum of the non-NaN entries of a column (pandas `sum`). */
  function SumDefined(c: Column): real
    decreases |c|
  {
    if |c| == 0 then 0.0
    else SumDefined(c[..|c| - 1]) + (if c[|c| - 1].Some? then c[|c| - 1].value else 0.0)
  }

  /** The mean of the non-NaN entries (pandas `mean`, which skips NaN and is
      NaN itself when nothing is left). */
  function MeanDefined(c: Column): (m: Option<real>)
    ensures m.None? <==> CountDefined(c) == 0
  {
    var n := CountDefined(c);
    if n == 0 then None else Some(SumDefined(c) / (n as real))
  }

  /** A column whose entries are defined exactly from index `k` on has
      `|c| - k` defined entries (none when it is shorter than `k`). */
  lemma {:induction false} CountAfterWarmup(c: Column, k: nat)
    requires forall i :: 0 <= i < |c| ==> (c[i].Some? <==> i >= k)
    ensures CountDefined(c) == if |c| >= k then |c| - k else 0
    decreases |c|
  {
    if |c| > 0 {
      var front := c[..|c| - 1];
      assert forall i :: 0 <= i < |front| ==> front[i] == c[i];
      CountAfterWarmup(front, k);
    }
  }

  /** Every entry of `c` minus `m`; NaN stays NaN (pandas `column - scalar`). */
  function Shifted(c: Column, m: real): (d: Column)
    ensures |d| == |c|
    ensures forall i :: 0 <= i < |c| ==> d[i] == Minus(c[i], Some(m))
  {
    seq(|c|, i requires 0 <= i < |c| => Minus(c[i], Some(m)))
  }

  /** Subtracting a constant keeps the defined positions. */
  lemma {:induction false} CountDefinedShift(c: Column, m: real)
    ensures CountDefined(Shifted(c, m)) == CountDefined(c)
    decreases |c|
  {
    if |c| > 0 {
      var d := Shifted(c, m);
      assert d[..|d| - 1] == Shifted(c[..|c| - 1], m);
      CountDefinedShift(c[..|c| - 1], m);
    }
  }

  /** Subtracting `m` from every defined entry lowers their sum by `m` once
      per defined entry; `n` is that number of entries. */
  lemma {:induction false} SumDefinedShift(c: Column, m: real, n: real)
    requires n == CountDefined(c) as real
    ensures SumDefined(Shifted(c, m)) == SumDefined(c) - n * m
    decreases |c|
  {
    if |c| > 0 {
      var front := c[..|c| - 1];
      var last := c[|c| - 1];
      var nf := CountDefined(front) as real;
      SumDefinedShift(front, m, nf);
      assert SumDefined(Shifted(c, m)) == SumDefined(Shifted(front, m)) + (if last.Some? then last.value - m else 0.0) by {
        ShiftedFront(c, m);
      }
      ShiftStep(SumDefined(front), nf, n, m, last);
    }
  }

  /** Shifting commutes with dropping the last entry, and shifts that entry. */
  lemma ShiftedFront(c: Column, m: real)
    requires |c| > 0
    ensures Shifted(c, m)[..|c| - 1] == Shifted(c[..|c| - 1], m)
    ensures Shifted(c, m)[|c| - 1] == Minus(c[|c| - 1], Some(m))
  {
  }

  /** One step of `SumDefinedShift`, on scalars: the last entry adds
      `value - m` to the shifted sum when it is defined, and nothing otherwise. */
  lemma ShiftStep(s: real, n: real, total: real, m: real, last: Option<real>)
    requires total == n + (if last.Some? then 1.0 else 0.0)
    ensures (s - n * m) + (if last.Some? then last.value - m else 0.0)
         == (s + (if last.Some? then last.value else 0.0)) - total * m
  {
    if last.Some? {
      assert total * m == n * m + m;
    }
  }

  /** Subtracting the NaN-skipping mean leaves defined entries that sum to
      zero. */
  lemma ShiftByMeanSumsToZero(c: Column)
    requires MeanDefined(c).Some?
    ensures SumDefined(Shifted(c, MeanDefined(c).value)) == 0.0
  {
    var n := CountDefined(c) as real;
    var total := SumDefined(c);
    SumDefinedShift(c, total / n, n);
    CountTimesShare(n, total);
  }

  lemma CountTimesShare(n: real, total: real)
    requires n > 0.0
    ensures total - n * (total / n) == 0.0
  {
  }
}
