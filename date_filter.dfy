/** The date-range mask `df[(df.Date >= start) & (df.Date <= end)]`
    (main.py:168). Dates are day numbers; the mask keeps exactly the rows whose
    date lies in the closed interval, in their original order, and it neither
    clamps the bounds nor rejects an inverted interval. */
module DateFilter {

  /** One daily bar of the price table. */
  datatype Bar = Bar(date: int, open: real, high: real, low: real, close: real, volume: nat)

  predicate InRange(b: Bar, start: int, end: int)
  {
    start <= b.date <= end
  }

  function FilterByDate(bars: seq<Bar>, start: int, end: int): (r: seq<Bar>)
    ensures |r| <= |bars|
    ensures forall k :: 0 <= k < |r| ==> InRange(r[k], start, end)
    decreases |bars|
  {
    if |bars| == 0 then []
    else (if InRange(bars[0], start, end) then [bars[0]] else []) + FilterByDate(bars[1..], start, end)
  }

  /** The `Close` column of a table. */
  function Closes(bars: seq<Bar>): (xs: seq<real>)
    ensures |xs| == |bars| && forall k :: 0 <= k < |bars| ==> xs[k] == bars[k].close
  {
    seq(|bars|, k requires 0 <= k < |bars| => bars[k].close)
  }

  ghost predicate StrictlyIncreasing(idx: seq<nat>)
  {
    forall a, b :: 0 <= a < b < |idx| ==> idx[a] < idx[b]
  }

  /** The table's dates increase strictly from row to row. */
  ghost predicate Chronological(bars: seq<Bar>)
  {
    forall a, b :: 0 <= a < b < |bars| ==> bars[a].date < bars[b].date
  }

  /** Row numbers moved one row down. */
  function Bump(idx: seq<nat>): (r: seq<nat>)
    ensures |r| == |idx| && forall k :: 0 <= k < |idx| ==> r[k] == idx[k] + 1
  {
    seq(|idx|, k requires 0 <= k < |idx| => idx[k] + 1)
  }

  lemma BumpMembership(idx: seq<nat>)
    ensures 0 !in Bump(idx)
    ensures forall j: nat :: j + 1 in Bump(idx) <==> j in idx
  {
    var r := Bump(idx);
    forall j: nat
      ensures j + 1 in r <==> j in idx
    {
      if j + 1 in r {
        var k :| 0 <= k < |r| && r[k] == j + 1;
        assert idx[k] == j;
      }
      if j in idx {
        var k :| 0 <= k < |idx| && idx[k] == j;
        assert r[k] == j + 1;
      }
    }
  }

  /** The row numbers the mask keeps, in increasing order. */
  ghost function KeptRows(bars: seq<Bar>, start: int, end: int): seq<nat>
    decreases |bars|
  {
    if |bars| == 0 then []
    else (if InRange(bars[0], start, end) then [0] else []) + Bump(KeptRows(bars[1..], start, end))
  }

  lemma {:induction false} KeptRowsPickFilter(bars: seq<Bar>, start: int, end: int)
    ensures |KeptRows(bars, start, end)| == |FilterByDate(bars, start, end)|
    ensures forall k :: 0 <= k < |KeptRows(bars, start, end)| ==>
      KeptRows(bars, start, end)[k] < |bars| &&
      FilterByDate(bars, start, end)[k] == bars[KeptRows(bars, start, end)[k]]
    decreases |bars|
  {
    if |bars| > 0 {
      var rest := bars[1..];
      var tail, rt := KeptRows(rest, start, end), FilterByDate(rest, start, end);
      KeptRowsPickFilter(rest, start, end);
      var idx, r := KeptRows(bars, start, end), FilterByDate(bars, start, end);
      var d := if InRange(bars[0], start, end) then 1 else 0;
      assert idx == (if d == 1 then [0] else []) + Bump(tail);
      assert r == (if d == 1 then [bars[0]] else []) + rt;
      forall k | 0 <= k < |idx|
        ensures idx[k] < |bars| && r[k] == bars[idx[k]]
      {
        if k >= d {
          assert idx[k] == tail[k - d] + 1 && r[k] == rt[k - d];
          assert rt[k - d] == rest[tail[k - d]];
        }
      }
    }
  }

  lemma {:induction false} KeptRowsIncrease(bars: seq<Bar>, start: int, end: int)
    ensures StrictlyIncreasing(KeptRows(bars, start, end))
    ensures forall k :: 0 <= k < |KeptRows(bars, start, end)| ==> KeptRows(bars, start, end)[k] < |bars|
    decreases |bars|
  {
    if |bars| > 0 {
      KeptRowsIncrease(bars[1..], start, end);
    }
  }

  lemma {:induction false} KeptRowsAreInRange(bars: seq<Bar>, start: int, end: int)
    ensures forall j :: 0 <= j < |bars| ==> (InRange(bars[j], start, end) <==> j in KeptRows(bars, start, end))
    decreases |bars|
  {
    if |bars| > 0 {
      var rest := bars[1..];
      var tail := KeptRows(rest, start, end);
      KeptRowsAreInRange(rest, start, end);
      BumpMembership(tail);
      forall j | 1 <= j < |bars|
        ensures InRange(bars[j], start, end) <==> j in Bump(tail)
      {
        assert rest[j - 1] == bars[j];
        assert (j - 1) + 1 in Bump(tail) <==> j - 1 in tail;
      }
    }
  }

  /** The filter is an order-preserving subsequence that picks exactly the
      rows in range: `idx` lists the kept row numbers in increasing order, and
      a row's number is listed iff its date is in range. */
  lemma FilterKeepsExactlyRowsInRange(bars: seq<Bar>, start: int, end: int)
    returns (idx: seq<nat>)
    ensures |idx| == |FilterByDate(bars, start, end)|
    ensures StrictlyIncreasing(idx)
    ensures forall k :: 0 <= k < |idx| ==>
              idx[k] < |bars| && FilterByDate(bars, start, end)[k] == bars[idx[k]]
    ensures forall j :: 0 <= j < |bars| ==> (InRange(bars[j], start, end) <==> j in idx)
  {
    idx := KeptRows(bars, start, end);
    KeptRowsPickFilter(bars, start, end);
    KeptRowsIncrease(bars, start, end);
    KeptRowsAreInRange(bars, start, end);
  }

  /** An inverted interval selects nothing. */
  lemma {:induction false} InvertedRangeIsEmpty(bars: seq<Bar>, start: int, end: int)
    requires start > end
    ensures FilterByDate(bars, start, end) == []
    decreases |bars|
  {
    if |bars| > 0 {
      InvertedRangeIsEmpty(bars[1..], start, end);
    }
  }

  /** Bounds are not clamped to the available dates: an interval that lies
      entirely after the last date selects nothing. */
  lemma {:induction false} RangeAfterDataIsEmpty(bars: seq<Bar>, start: int, end: int)
    requires forall k :: 0 <= k < |bars| ==> bars[k].date < start
    ensures FilterByDate(bars, start, end) == []
    decreases |bars|
  {
    if |bars| > 0 {
      RangeAfterDataIsEmpty(bars[1..], start, end);
    }
  }

  lemma {:induction false} RangeBeforeDataIsEmpty(bars: seq<Bar>, start: int, end: int)
    requires forall k :: 0 <= k < |bars| ==> bars[k].date > end
    ensures FilterByDate(bars, start, end) == []
    decreases |bars|
  {
    if |bars| > 0 {
      RangeBeforeDataIsEmpty(bars[1..], start, end);
    }
  }

  /** On a chronological table whose dates all reach `start`, the filter is a
      prefix. */
  lemma {:induction false} FilterFromStartIsPrefix(bars: seq<Bar>, start: int, end: int)
    returns (hi: nat)
    requires Chronological(bars)
    requires forall k :: 0 <= k < |bars| ==> bars[k].date >= start
    ensures hi <= |bars| && FilterByDate(bars, start, end) == bars[..hi]
    decreases |bars|
  {
    if |bars| == 0 {
      hi := 0;
    } else if bars[0].date <= end {
      var h := FilterFromStartIsPrefix(bars[1..], start, end);
      hi := h + 1;
      assert bars[..hi] == [bars[0]] + bars[1..][..h];
    } else {
      RangeBeforeDataIsEmpty(bars[1..], start, end);
      hi := 0;
    }
  }

  /** On a chronological table the filter is a contiguous slice. */
  lemma {:induction false} FilterIsContiguous(bars: seq<Bar>, start: int, end: int)
    returns (lo: nat, hi: nat)
    requires Chronological(bars)
    ensures lo <= hi <= |bars| && FilterByDate(bars, start, end) == bars[lo..hi]
    decreases |bars|
  {
    if |bars| == 0 {
      lo, hi := 0, 0;
    } else if bars[0].date < start {
      var l, h := FilterIsContiguous(bars[1..], start, end);
      lo, hi := l + 1, h + 1;
      assert bars[lo..hi] == bars[1..][l..h];
    } else {
      lo := 0;
      hi := FilterFromStartIsPrefix(bars, start, end);
    }
  }
}
