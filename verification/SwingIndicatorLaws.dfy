/** What the fields of a prepared bar say about the raw rows: averages as sums, the true range as the
    span of three prices, returns as ratios, and the extremes of earlier rows. */
module SwingIndicatorLaws {
  import opened Prelude
  import opened SwingTypes
  import opened SwingIndicators

  // ---------------------------------------------------------------- averages

  /** The sum of a column over the rows from lo up to but not including hi. */
  function Total(rows: seq<Row>, f: Field, lo: nat, hi: nat): real
    requires lo <= hi <= |rows|
    decreases hi
  {
    if lo == hi then 0.0 else Total(rows, f, lo, hi - 1) + Get(rows[hi - 1], f)
  }

  lemma {:induction false} TotalIsSum(rows: seq<Row>, f: Field, lo: nat, hi: nat)
    requires lo <= hi <= |rows|
    ensures Sum(Column(rows, f)[lo..hi]) == Total(rows, f, lo, hi)
    decreases hi
  {
    if lo == hi {
    } else {
      TotalIsSum(rows, f, lo, hi - 1);
      assert Column(rows, f)[lo..hi][..hi - lo - 1] == Column(rows, f)[lo..hi - 1];
    }
  }

  /** The mean of a column over the last `period` rows up to idx, defined once there are so many. */
  ghost predicate IsAverage(a: Option<real>, rows: seq<Row>, f: Field, idx: int, period: Positive)
    requires idx < |rows|
  {
    && (a.Some? <==> period <= idx + 1)
    && (a.Some? ==> Product(period as real, a.value) == Total(rows, f, idx + 1 - period, idx + 1))
  }

  lemma QuotientTimes(total: real, n: real)
    requires n > 0.0
    ensures Product(n, total / n) == total
  {
  }

  lemma SmaIsAverage(rows: seq<Row>, f: Field, idx: int, period: Positive)
    requires idx < |rows|
    ensures IsAverage(Sma(Column(rows, f), idx, period), rows, f, idx, period)
  {
    if period <= idx + 1 {
      TotalIsSum(rows, f, idx + 1 - period, idx + 1);
      QuotientTimes(Total(rows, f, idx + 1 - period, idx + 1), period as real);
    }
  }

  /** The four averages of a bar; the past one ends the slope lookback earlier. */
  lemma AveragesOfBar(symbol: Symbol, rows: seq<Row>, idx: nat, params: Params)
    requires idx < |rows|
    ensures var b := BarAt(symbol, rows, idx, params);
            && IsAverage(b.smaShort, rows, Close, idx, params.smaShortPeriod)
            && IsAverage(b.smaLong, rows, Close, idx, params.smaLongPeriod)
            && IsAverage(b.smaLongPast, rows, Close, idx - params.smaLongSlopeLookback, params.smaLongPeriod)
            && IsAverage(b.avgTurnover, rows, Turnover, idx, params.avgTurnoverPeriod)
  {
    SmaIsAverage(rows, Close, idx, params.smaShortPeriod);
    SmaIsAverage(rows, Close, idx, params.smaLongPeriod);
    SmaIsAverage(rows, Close, idx - params.smaLongSlopeLookback, params.smaLongPeriod);
    SmaIsAverage(rows, Turnover, idx, params.avgTurnoverPeriod);
  }

  lemma {:induction false} TotalSlides(rows: seq<Row>, f: Field, lo: nat, hi: nat)
    requires lo < hi <= |rows|
    ensures Total(rows, f, lo, hi) == Get(rows[lo], f) + Total(rows, f, lo + 1, hi)
    decreases hi
  {
    if lo + 1 == hi {
    } else {
      TotalSlides(rows, f, lo, hi - 1);
    }
  }

  lemma Distribute(n: real, a: real, b: real)
    ensures Product(n, b - a) == Product(n, b) - Product(n, a)
  {
  }

  /** Both values are there, and from the first to the second it is the gain over the period. */
  ghost predicate MovesBy(period: Positive, before: Option<real>, after: Option<real>, gain: real) {
    before.Some? && after.Some? && Product(period as real, after.value - before.value) == gain
  }

  lemma StepOfAverages(before: Option<real>, after: Option<real>, rows: seq<Row>, idx: nat, p: Positive)
    requires idx + 1 < |rows| && p <= idx + 1
    requires IsAverage(before, rows, Close, idx, p) && IsAverage(after, rows, Close, idx + 1, p)
    ensures MovesBy(p, before, after, rows[idx + 1].close - rows[idx + 1 - p].close)
  {
    TotalSlides(rows, Close, idx + 1 - p, idx + 2);
    Distribute(p as real, before.value, after.value);
  }

  /** From one row to the next an average moves by the new value less the dropped one, over the period. */
  lemma AverageStep(symbol: Symbol, rows: seq<Row>, idx: nat, params: Params)
    requires idx + 1 < |rows| && params.smaShortPeriod <= idx + 1
    ensures MovesBy(params.smaShortPeriod, BarAt(symbol, rows, idx, params).smaShort,
                    BarAt(symbol, rows, idx + 1, params).smaShort,
                    rows[idx + 1].close - rows[idx + 1 - params.smaShortPeriod].close)
  {
    AveragesOfBar(symbol, rows, idx, params);
    AveragesOfBar(symbol, rows, idx + 1, params);
    StepOfAverages(BarAt(symbol, rows, idx, params).smaShort, BarAt(symbol, rows, idx + 1, params).smaShort,
                   rows, idx, params.smaShortPeriod);
  }

  // ---------------------------------------------------------------- the true range

  ghost predicate ProperRow(r: Row) { r.low <= r.high }

  /** The largest less the smallest of the high, the low and the close before. */
  function Span(rows: seq<Row>, i: nat): real
    requires 0 < i < |rows|
  {
    var prices := [rows[i].high, rows[i].low, rows[i - 1].close];
    MaxOf(prices) - MinOf(prices)
  }

  lemma TrueRangeIsSpan(rows: seq<Row>, i: nat)
    requires 0 < i < |rows| && ProperRow(rows[i])
    ensures TrueRange(Column(rows, High), Column(rows, Low), Column(rows, Close), i) == Span(rows, i)
  {
    var prices := [rows[i].high, rows[i].low, rows[i - 1].close];
    assert prices[0] in prices && prices[1] in prices && prices[2] in prices;
  }

  function SpanTotal(rows: seq<Row>, lo: nat, hi: nat): real
    requires 0 < lo <= hi <= |rows|
    decreases hi
  {
    if lo == hi then 0.0 else SpanTotal(rows, lo, hi - 1) + Span(rows, hi - 1)
  }

  lemma {:induction false} TrueRangesTotal(rows: seq<Row>, lo: nat, hi: nat)
    requires 0 < lo <= hi <= |rows| && forall i :: lo <= i < hi ==> ProperRow(rows[i])
    ensures RangeTotal(rows, lo, hi) == SpanTotal(rows, lo, hi)
    decreases hi
  {
    if lo == hi {
    } else {
      var h, l, c := Column(rows, High), Column(rows, Low), Column(rows, Close);
      TrueRangesTotal(rows, lo, hi - 1);
      TrueRangeIsSpan(rows, hi - 1);
      var all := TrueRanges(h, l, c, lo, hi);
      assert all[..|all| - 1] == TrueRanges(h, l, c, lo, hi - 1);
    }
  }

  function RangeTotal(rows: seq<Row>, lo: nat, hi: nat): real
    requires 0 < lo <= hi <= |rows|
  {
    Sum(TrueRanges(Column(rows, High), Column(rows, Low), Column(rows, Close), lo, hi))
  }

  function AtrOf(rows: seq<Row>, idx: nat, p: Positive): Option<real>
    requires idx < |rows|
  {
    Atr(Column(rows, High), Column(rows, Low), Column(rows, Close), idx, p)
  }

  /** The value is there with more rows than the period, and times the period it is the sum of the last spans. */
  ghost predicate IsMeanSpan(atr: Option<real>, rows: seq<Row>, idx: nat, p: Positive)
    requires idx < |rows|
  {
    && (atr.Some? <==> p <= idx)
    && (atr.Some? ==> Product(p as real, atr.value) == SpanTotal(rows, idx + 1 - p, idx + 1))
  }

  lemma AtrOfRows(rows: seq<Row>, idx: nat, p: Positive)
    requires idx < |rows| && forall i :: 0 <= i <= idx ==> ProperRow(rows[i])
    ensures IsMeanSpan(AtrOf(rows, idx, p), rows, idx, p)
  {
    if p <= idx {
      TrueRangesTotal(rows, idx + 1 - p, idx + 1);
      QuotientTimes(RangeTotal(rows, idx + 1 - p, idx + 1), p as real);
    }
  }

  lemma AtrOfBar(symbol: Symbol, rows: seq<Row>, idx: nat, params: Params)
    requires idx < |rows|
    ensures BarAt(symbol, rows, idx, params).atr == AtrOf(rows, idx, params.atrPeriod)
  {
  }

  /** The average true range of a bar, times its period, is the sum of the spans of that many rows. */
  lemma AtrIsMeanSpan(symbol: Symbol, rows: seq<Row>, idx: nat, params: Params)
    requires idx < |rows| && forall i :: 0 <= i <= idx ==> ProperRow(rows[i])
    ensures IsMeanSpan(BarAt(symbol, rows, idx, params).atr, rows, idx, params.atrPeriod)
  {
    AtrOfBar(symbol, rows, idx, params);
    AtrOfRows(rows, idx, params.atrPeriod);
  }

  // ---------------------------------------------------------------- the pullback

  /** The low of row k comes down to its own short average, raised by the tolerance. */
  ghost predicate Dips(symbol: Symbol, rows: seq<Row>, k: nat, params: Params)
    requires k < |rows|
  {
    var sma := BarAt(symbol, rows, k, params).smaShort;
    sma.Some? && rows[k].low <= Product(sma.value, 1.0 + params.pullbackSmaTolerance)
  }

  ghost predicate DippedSince(symbol: Symbol, rows: seq<Row>, lo: int, idx: nat, params: Params)
    requires idx < |rows|
  {
    exists k: nat :: lo <= k <= idx && Dips(symbol, rows, k, params)
  }

  lemma TouchesIsDips(symbol: Symbol, rows: seq<Row>, k: nat, params: Params)
    requires k < |rows|
    ensures TouchesAt(Column(rows, Low), Column(rows, Close), k, params.smaShortPeriod, params.pullbackSmaTolerance)
            <==> Dips(symbol, rows, k, params)
  {
  }

  lemma DippedStep(symbol: Symbol, rows: seq<Row>, lo: nat, idx: nat, params: Params)
    requires lo <= idx < |rows|
    ensures DippedSince(symbol, rows, lo, idx, params) <==>
            Dips(symbol, rows, idx, params) || (idx > 0 && DippedSince(symbol, rows, lo, idx - 1, params))
  {
  }

  function Touched(rows: seq<Row>, lo: nat, hi: nat, params: Params): bool
    requires hi <= |rows|
  {
    TouchedIn(Column(rows, Low), Column(rows, Close), lo, hi, params.smaShortPeriod, params.pullbackSmaTolerance)
  }

  lemma {:induction false} TouchedIsDipped(symbol: Symbol, rows: seq<Row>, lo: nat, idx: nat, params: Params)
    requires idx < |rows|
    ensures Touched(rows, lo, idx + 1, params) <==> DippedSince(symbol, rows, lo, idx, params)
    decreases idx
  {
    if lo <= idx {
      TouchesIsDips(symbol, rows, idx, params);
      DippedStep(symbol, rows, lo, idx, params);
      if idx > 0 {
        TouchedIsDipped(symbol, rows, lo, idx - 1, params);
      }
    }
  }

  predicate TouchedSince(rows: seq<Row>, idx: nat, params: Params)
    requires idx < |rows|
  {
    TouchedSmaRecently(Column(rows, Low), Column(rows, Close), idx, params.smaShortPeriod, params.pullbackLookback,
                       params.pullbackSmaTolerance)
  }

  lemma TouchedOfBar(symbol: Symbol, rows: seq<Row>, idx: nat, params: Params)
    requires idx < |rows|
    ensures BarAt(symbol, rows, idx, params).touchedSmaShortRecently == TouchedSince(rows, idx, params)
  {
  }

  lemma {:induction false} TouchedIsDippedSince(symbol: Symbol, rows: seq<Row>, idx: nat, params: Params)
    requires idx < |rows|
    ensures TouchedSince(rows, idx, params) <==>
            DippedSince(symbol, rows, idx + 1 - params.pullbackLookback, idx, params)
  {
    var first := idx + 1 - params.pullbackLookback;
    TouchedIsDipped(symbol, rows, if first < 0 then 0 else first, idx, params);
  }

  /** A bar has touched its short average recently exactly when one of the last `pullbackLookback` rows dips. */
  lemma {:induction false} TouchedIffDipped(symbol: Symbol, rows: seq<Row>, idx: nat, params: Params)
    requires idx < |rows|
    ensures BarAt(symbol, rows, idx, params).touchedSmaShortRecently <==>
            DippedSince(symbol, rows, idx + 1 - params.pullbackLookback, idx, params)
  {
    TouchedOfBar(symbol, rows, idx, params);
    TouchedIsDippedSince(symbol, rows, idx, params);
  }

  // ---------------------------------------------------------------- returns

  /** The close is one plus the return times the close n rows before; defined once there are so many. */
  ghost predicate IsReturn(r: Option<real>, rows: seq<Row>, idx: nat, n: nat)
    requires idx < |rows|
  {
    && (r.Some? <==> n <= idx)
    && (r.Some? ==> Product(1.0 + r.value, rows[idx - n].close) == rows[idx].close)
  }

  lemma ReturnIsRatio(rows: seq<Row>, idx: nat, n: Positive)
    requires idx < |rows|
    ensures IsReturn(Return(Column(rows, Close), idx, n), rows, idx, n)
  {
  }

  lemma ReturnsOfBar(symbol: Symbol, rows: seq<Row>, idx: nat, params: Params)
    requires idx < |rows|
    ensures var b := BarAt(symbol, rows, idx, params);
            && IsReturn(b.return5d, rows, idx, 5)
            && IsReturn(b.return20d, rows, idx, 20)
            && IsReturn(b.return60d, rows, idx, 60)
  {
    ReturnIsRatio(rows, idx, 5);
    ReturnIsRatio(rows, idx, 20);
    ReturnIsRatio(rows, idx, 60);
  }

  // ---------------------------------------------------------------- extremes of earlier rows

  ghost predicate IsHighest(x: real, rows: seq<Row>, lo: nat, hi: nat)
    requires hi <= |rows|
  {
    && (exists k :: lo <= k < hi && rows[k].high == x)
    && (forall k :: lo <= k < hi ==> rows[k].high <= x)
  }

  ghost predicate IsLowest(x: real, rows: seq<Row>, lo: nat, hi: nat)
    requires hi <= |rows|
  {
    && (exists k :: lo <= k < hi && rows[k].low == x)
    && (forall k :: lo <= k < hi ==> x <= rows[k].low)
  }

  lemma ExtremesOfRows(rows: seq<Row>, lo: nat, hi: nat)
    requires lo < hi <= |rows|
    ensures IsHighest(MaxOf(Column(rows, High)[lo..hi]), rows, lo, hi)
    ensures IsLowest(MinOf(Column(rows, Low)[lo..hi]), rows, lo, hi)
  {
    var highs, lows := Column(rows, High)[lo..hi], Column(rows, Low)[lo..hi];
    var i :| 0 <= i < |highs| && highs[i] == MaxOf(highs);
    assert rows[lo + i].high == MaxOf(highs);
    var j :| 0 <= j < |lows| && lows[j] == MinOf(lows);
    assert rows[lo + j].low == MinOf(lows);
    forall k | lo <= k < hi ensures rows[k].high <= MaxOf(highs) && MinOf(lows) <= rows[k].low {
      assert highs[k - lo] in highs && lows[k - lo] in lows;
    }
  }

  /** The prior high is the highest high of the rows before, its own row left out. */
  lemma PriorHighOfBar(symbol: Symbol, rows: seq<Row>, idx: nat, params: Params)
    requires idx < |rows|
    ensures var x, n := BarAt(symbol, rows, idx, params).priorHighBreakout, params.breakoutLookback;
            && (x.Some? <==> n <= idx)
            && (x.Some? ==> IsHighest(x.value, rows, idx - n, idx))
  {
    if params.breakoutLookback <= idx {
      ExtremesOfRows(rows, idx - params.breakoutLookback, idx);
    }
  }

  lemma ExtremesAreUnique(rows: seq<Row>, lo: nat, hi: nat, x: real, y: real)
    requires hi <= |rows|
    ensures IsHighest(x, rows, lo, hi) && IsHighest(y, rows, lo, hi) ==> x == y
    ensures IsLowest(x, rows, lo, hi) && IsLowest(y, rows, lo, hi) ==> x == y
  {
  }

  lemma RangeOfColumns(h: seq<real>, l: seq<real>, c: seq<real>, idx: nat, high: real, low: real)
    requires 20 <= idx < |c| && |h| == |l| == |c| && c[idx] > 0.0
    requires MaxOf(h[idx - 20..idx]) == high && MinOf(l[idx - 20..idx]) == low
    ensures var pct, place := PriorRangePct(h, l, c, idx, 20), PriorRangePosition(h, l, c[idx], idx, 20);
            && pct.Some? && Product(pct.value, c[idx]) == high - low
            && (place.Some? <==> low < high)
            && (low < high ==> Product(place.value, high - low) == c[idx] - low)
  {
    if low < high {
      QuotientTimes(c[idx] - low, high - low);
    }
  }

  /** The range of the twenty rows before as a part of the close, and where the close lies in it; there is none
      without twenty rows before. */
  lemma PriorRangeOfBar(symbol: Symbol, rows: seq<Row>, idx: nat, params: Params, high: real, low: real)
    requires idx < |rows|
    requires 20 <= idx ==> IsHighest(high, rows, idx - 20, idx) && IsLowest(low, rows, idx - 20, idx)
    ensures var b := BarAt(symbol, rows, idx, params);
            && (b.priorRange20dPct.Some? <==> 20 <= idx)
            && (b.priorRange20dPosition.Some? <==> 20 <= idx && low < high)
            && (20 <= idx ==> Product(b.priorRange20dPct.value, rows[idx].close) == high - low)
            && (20 <= idx && low < high ==>
                  Product(b.priorRange20dPosition.value, high - low) == rows[idx].close - low)
  {
    var h, l, c := Column(rows, High), Column(rows, Low), Column(rows, Close);
    if 20 <= idx {
      ExtremesOfRows(rows, idx - 20, idx);
      ExtremesAreUnique(rows, idx - 20, idx, high, MaxOf(h[idx - 20..idx]));
      ExtremesAreUnique(rows, idx - 20, idx, low, MinOf(l[idx - 20..idx]));
      RangeOfColumns(h, l, c, idx, high, low);
    }
  }
}
