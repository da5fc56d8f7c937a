/** Which rows signal: the three entry modes told by the prices of raw rows instead of the bar's ratios. */
module SwingSignalLaws {
  import opened Prelude
  import opened SwingTypes
  import opened SwingIndicators
  import opened SwingIndicatorLaws
  import opened SwingSignals

  // ---------------------------------------------------------------- thresholds as products

  lemma QuotientAtMost(a: real, b: real, m: real)
    requires b > 0.0
    ensures a / b <= m <==> a <= Product(m, b)
    ensures a / b >= m <==> a >= Product(m, b)
  {
    assert a == Product(a / b, b);
    PartAgainst(a / b, b, a, m);
  }

  lemma ProductGrows(x: real, y: real, b: real)
    requires b > 0.0 && x < y
    ensures Product(x, b) < Product(y, b)
  {
  }

  /** Comparing a part of the whole with a bound is comparing the amount with that bound of the whole. */
  lemma PartAgainst(part: real, whole: real, amount: real, bound: real)
    requires whole > 0.0 && Product(part, whole) == amount
    ensures part <= bound <==> amount <= Product(bound, whole)
    ensures part >= bound <==> amount >= Product(bound, whole)
  {
    if part < bound {
      ProductGrows(part, bound, whole);
    } else if bound < part {
      ProductGrows(bound, part, whole);
    }
  }

  /** The indicators that every mode needs are there. */
  predicate Measured(b: Bar) {
    && b.smaShort.Some? && b.smaLong.Some? && b.smaLongPast.Some?
    && b.atr.Some? && b.avgTurnover.Some? && b.return20d.Some?
  }

  predicate Between(x: real, low: real, cap: Option<real>) { low <= x && (cap.Some? ==> x < cap.value) }

  /** Price and turnover in range, averages in the order of an uptrend with the close above the long one, a
      return in range, not too far above the short average, and a range in proportion to the close. */
  ghost predicate InUptrend(b: Bar, params: Params)
    requires Measured(b)
  {
    && params.minPrice <= b.close && b.close <= params.maxPrice
    && Between(b.avgTurnover.value, params.minAvgTurnover, params.maxAvgTurnover)
    && b.smaLongPast.value < b.smaLong.value && b.smaLong.value < b.smaShort.value && b.smaLong.value < b.close
    && Between(b.return20d.value, params.minReturn20d, params.maxReturn20d)
    && b.close <= Product(1.0 + params.maxDistanceAboveSmaShort, b.smaShort.value)
    && Product(params.minAtrPct, b.close) <= b.atr.value && b.atr.value <= Product(params.maxAtrPct, b.close)
  }

  lemma TrendBaseIsUptrend(b: Bar, params: Params)
    ensures TrendBase(b, params) <==> Measured(b) && InUptrend(b, params)
  {
    if Measured(b) {
      QuotientAtMost(b.close, b.smaShort.value, 1.0 + params.maxDistanceAboveSmaShort);
      QuotientAtMost(b.atr.value, b.close, params.minAtrPct);
      QuotientAtMost(b.atr.value, b.close, params.maxAtrPct);
    }
  }

  // ---------------------------------------------------------------- the modes, over rows

  /** The highest high and the lowest low of the n rows before row k. */
  ghost predicate Extremes(rows: seq<Row>, k: nat, n: nat, high: real, low: real)
    requires n <= k < |rows|
  {
    IsHighest(high, rows, k - n, k) && IsLowest(low, rows, k - n, k)
  }

  /** The last `pullbackLookback` rows dipped to their short average, and the close is back at or above it. */
  ghost predicate PulledBack(symbol: Symbol, rows: seq<Row>, k: nat, params: Params)
    requires k < |rows|
  {
    var b := BarAt(symbol, rows, k, params);
    && Measured(b) && InUptrend(b, params)
    && b.smaShort.value <= rows[k].close
    && DippedSince(symbol, rows, k + 1 - params.pullbackLookback, k, params)
  }

  /** The close has gained enough over the close sixty rows before. */
  predicate EnoughReturn(close: real, base: real, params: Params) {
    params.minReturn60d.Some? ==> close >= Product(1.0 + params.minReturn60d.value, base)
  }

  /** The range of the twenty rows before is at most the allowed part of the close. */
  predicate Narrow(close: real, high: real, low: real, params: Params) {
    params.maxPriorRange20dPct.Some? ==> high - low <= Product(params.maxPriorRange20dPct.value, close)
  }

  /** The close lies at least the given part of the range above its low; without a range there is no signal. */
  predicate HighInRange(close: real, high: real, low: real, params: Params) {
    && low < high
    && (params.minPriorRange20dPosition.Some? ==>
          close - low >= Product(params.minPriorRange20dPosition.value, high - low))
  }

  /** What breakout and contraction share. */
  ghost predicate Calm(b: Bar, base: real, high: real, low: real, params: Params) {
    && Measured(b) && InUptrend(b, params) && b.smaShort.value < b.close
    && EnoughReturn(b.close, base, params) && Narrow(b.close, high, low, params)
  }

  /** The turnover is the required multiple of its average; an average that is not positive counts as zero. */
  ghost predicate Busy(b: Bar, params: Params) {
    b.avgTurnover.Some? &&
    (params.minTurnoverMultiple.Some? ==>
       if b.avgTurnover.value > 0.0 then b.turnover >= Product(params.minTurnoverMultiple.value, b.avgTurnover.value)
       else params.minTurnoverMultiple.value <= 0.0)
  }

  lemma BusyIff(b: Bar, params: Params)
    requires b.avgTurnover.Some?
    ensures AtLeast(if b.avgTurnover.value > 0.0 then b.turnover / b.avgTurnover.value else 0.0,
                    params.minTurnoverMultiple)
            <==> Busy(b, params)
  {
    if b.avgTurnover.value > 0.0 && params.minTurnoverMultiple.Some? {
      QuotientAtMost(b.turnover, b.avgTurnover.value, params.minTurnoverMultiple.value);
    }
  }

  /** The close reaches the highest high before it, raised by the buffer. */
  predicate Clears(close: real, top: real, params: Params) { close >= Product(top, 1.0 + params.breakoutBufferPct) }

  lemma PullbackIff(symbol: Symbol, rows: seq<Row>, k: nat, params: Params)
    requires k < |rows|
    ensures IsTrendPullbackSignal(BarAt(symbol, rows, k, params), params) <==> PulledBack(symbol, rows, k, params)
  {
    TrendBaseIsUptrend(BarAt(symbol, rows, k, params), params);
    TouchedIffDipped(symbol, rows, k, params);
  }

  /** The ratios of a bar against these prices. */
  ghost predicate Ratios(b: Bar, base: real, high: real, low: real, params: Params) {
    && b.return60d.Some? && (AtLeast(b.return60d.value, params.minReturn60d) <==> EnoughReturn(b.close, base, params))
    && b.priorRange20dPct.Some?
    && (AtMost(b.priorRange20dPct.value, params.maxPriorRange20dPct) <==> Narrow(b.close, high, low, params))
    && (HighInRange(b.close, high, low, params) <==>
          b.priorRange20dPosition.Some? &&
          AtLeast(b.priorRange20dPosition.value, params.minPriorRange20dPosition))
  }

  lemma ReturnIff(r: real, close: real, base: real, params: Params)
    requires base > 0.0 && Product(1.0 + r, base) == close
    ensures AtLeast(r, params.minReturn60d) <==> EnoughReturn(close, base, params)
  {
    if params.minReturn60d.Some? {
      PartAgainst(1.0 + r, base, close, 1.0 + params.minReturn60d.value);
    }
  }

  lemma RangeIff(pct: real, close: real, high: real, low: real, params: Params)
    requires close > 0.0 && Product(pct, close) == high - low
    ensures AtMost(pct, params.maxPriorRange20dPct) <==> Narrow(close, high, low, params)
  {
    if params.maxPriorRange20dPct.Some? {
      PartAgainst(pct, close, high - low, params.maxPriorRange20dPct.value);
    }
  }

  lemma PlaceIff(place: real, close: real, high: real, low: real, params: Params)
    requires low < high && Product(place, high - low) == close - low
    ensures AtLeast(place, params.minPriorRange20dPosition) <==> HighInRange(close, high, low, params)
  {
    if params.minPriorRange20dPosition.Some? {
      PartAgainst(place, high - low, close - low, params.minPriorRange20dPosition.value);
    }
  }

  lemma RatiosOfBar(symbol: Symbol, rows: seq<Row>, k: nat, params: Params, high: real, low: real)
    requires 60 <= k < |rows| && Extremes(rows, k, 20, high, low)
    ensures Ratios(BarAt(symbol, rows, k, params), rows[k - 60].close, high, low, params)
    ensures BarAt(symbol, rows, k, params).close == rows[k].close
  {
    var b := BarAt(symbol, rows, k, params);
    ReturnsOfBar(symbol, rows, k, params);
    PriorRangeOfBar(symbol, rows, k, params, high, low);
    ReturnIff(b.return60d.value, rows[k].close, rows[k - 60].close, params);
    RangeIff(b.priorRange20dPct.value, rows[k].close, high, low, params);
    if low < high {
      PlaceIff(b.priorRange20dPosition.value, rows[k].close, high, low, params);
    }
  }

  lemma BreakoutOfBar(b: Bar, base: real, high: real, low: real, params: Params)
    requires Ratios(b, base, high, low, params)
    ensures IsBreakoutSignal(b, params) <==>
            && Calm(b, base, high, low, params) && Busy(b, params)
            && b.priorHighBreakout.Some? && Clears(b.close, b.priorHighBreakout.value, params)
  {
    TrendBaseIsUptrend(b, params);
    if b.avgTurnover.Some? {
      BusyIff(b, params);
    }
  }

  lemma ContractionOfBar(b: Bar, base: real, high: real, low: real, params: Params)
    requires Ratios(b, base, high, low, params)
    ensures IsVolatilityContractionSignal(b, params) <==>
            Calm(b, base, high, low, params) && HighInRange(b.close, high, low, params)
  {
    TrendBaseIsUptrend(b, params);
  }

  lemma ShortHistory(symbol: Symbol, rows: seq<Row>, k: nat, params: Params)
    requires k < |rows| && k < 60
    ensures var b := BarAt(symbol, rows, k, params);
            !IsBreakoutSignal(b, params) && !IsVolatilityContractionSignal(b, params)
  {
    ReturnsOfBar(symbol, rows, k, params);
  }

  /** In sixty rows of history: gained enough, calm before, busy, and above the highest high before. */
  ghost predicate BrokenOut(symbol: Symbol, rows: seq<Row>, k: nat, params: Params, high: real, low: real, top: real)
    requires k < |rows|
  {
    var b := BarAt(symbol, rows, k, params);
    && 60 <= k && params.breakoutLookback <= k
    && Extremes(rows, k, 20, high, low) && IsHighest(top, rows, k - params.breakoutLookback, k)
    && Calm(b, rows[k - 60].close, high, low, params) && Busy(b, params) && Clears(rows[k].close, top, params)
  }

  ghost predicate Contracted(symbol: Symbol, rows: seq<Row>, k: nat, params: Params, high: real, low: real)
    requires k < |rows|
  {
    && 60 <= k && Extremes(rows, k, 20, high, low)
    && Calm(BarAt(symbol, rows, k, params), rows[k - 60].close, high, low, params)
    && HighInRange(rows[k].close, high, low, params)
  }

  /** Row k signals: in each mode by prices of the rows up to it. */
  ghost predicate RowSignals(symbol: Symbol, rows: seq<Row>, k: nat, params: Params)
    requires k < |rows|
  {
    match params.entryMode
    case TrendPullback => PulledBack(symbol, rows, k, params)
    case BreakoutContinuation => exists high, low, top :: BrokenOut(symbol, rows, k, params, high, low, top)
    case VolatilityContraction => exists high, low :: Contracted(symbol, rows, k, params, high, low)
  }

  lemma BreakoutIff(symbol: Symbol, rows: seq<Row>, k: nat, params: Params, high: real, low: real, top: real)
    requires 60 <= k < |rows| && Extremes(rows, k, 20, high, low)
    requires params.breakoutLookback <= k ==> IsHighest(top, rows, k - params.breakoutLookback, k)
    ensures IsBreakoutSignal(BarAt(symbol, rows, k, params), params) <==>
            BrokenOut(symbol, rows, k, params, high, low, top)
  {
    var b := BarAt(symbol, rows, k, params);
    RatiosOfBar(symbol, rows, k, params, high, low);
    BreakoutOfBar(b, rows[k - 60].close, high, low, params);
    PriorHighOfBar(symbol, rows, k, params);
    if params.breakoutLookback <= k {
      ExtremesAreUnique(rows, k - params.breakoutLookback, k, top, b.priorHighBreakout.value);
    }
  }

  lemma ContractionIff(symbol: Symbol, rows: seq<Row>, k: nat, params: Params, high: real, low: real)
    requires 60 <= k < |rows| && Extremes(rows, k, 20, high, low)
    ensures IsVolatilityContractionSignal(BarAt(symbol, rows, k, params), params) <==>
            Contracted(symbol, rows, k, params, high, low)
  {
    RatiosOfBar(symbol, rows, k, params, high, low);
    ContractionOfBar(BarAt(symbol, rows, k, params), rows[k - 60].close, high, low, params);
  }

  lemma ExtremesExist(rows: seq<Row>, k: nat, n: nat) returns (high: real, low: real)
    requires 0 < n <= k < |rows|
    ensures Extremes(rows, k, n, high, low)
  {
    ExtremesOfRows(rows, k - n, k);
    high, low := MaxOf(Column(rows, High)[k - n..k]), MinOf(Column(rows, Low)[k - n..k]);
  }

  lemma {:induction false} BreakoutByRows(symbol: Symbol, rows: seq<Row>, k: nat, params: Params)
    requires 60 <= k < |rows|
    ensures IsBreakoutSignal(BarAt(symbol, rows, k, params), params) <==>
            exists high, low, top :: BrokenOut(symbol, rows, k, params, high, low, top)
  {
    var high, low := ExtremesExist(rows, k, 20);
    var top := 0.0;
    if params.breakoutLookback <= k {
      var bottom;
      top, bottom := ExtremesExist(rows, k, params.breakoutLookback);
    }
    BreakoutIff(symbol, rows, k, params, high, low, top);
    if h, l, t :| BrokenOut(symbol, rows, k, params, h, l, t) {
      BreakoutIff(symbol, rows, k, params, h, l, t);
    }
  }

  lemma {:induction false} ContractionByRows(symbol: Symbol, rows: seq<Row>, k: nat, params: Params)
    requires 60 <= k < |rows|
    ensures IsVolatilityContractionSignal(BarAt(symbol, rows, k, params), params) <==>
            exists high, low :: Contracted(symbol, rows, k, params, high, low)
  {
    var high, low := ExtremesExist(rows, k, 20);
    ContractionIff(symbol, rows, k, params, high, low);
    if h, l :| Contracted(symbol, rows, k, params, h, l) {
      ContractionIff(symbol, rows, k, params, h, l);
    }
  }

  /** A prepared bar signals exactly when its row does. */
  lemma {:induction false} SignalsByRows(symbol: Symbol, rows: seq<Row>, k: nat, params: Params)
    requires k < |rows|
    ensures IsEntrySignal(BarAt(symbol, rows, k, params), params) <==> RowSignals(symbol, rows, k, params)
  {
    if params.entryMode.TrendPullback? {
      PullbackIff(symbol, rows, k, params);
    } else if k < 60 {
      ShortHistory(symbol, rows, k, params);
    } else if params.entryMode.BreakoutContinuation? {
      BreakoutByRows(symbol, rows, k, params);
    } else {
      ContractionByRows(symbol, rows, k, params);
    }
  }

  // ---------------------------------------------------------------- bars that differ in one field

  /** The program's default parameters in one of the modes, with a cap on the range before. */
  function DefaultParams(mode: EntryMode, maxRange: Option<real>): Params {
    Params(mode, 20, 60, 20, 14, 20, 200000000.0, None, 300.0, 5000.0, 0.05, None, None, 5, 0.01, 0.04, 0.015, 0.08,
           60, 0.0, None, maxRange, None, None, None, None, None, 1.5, 2.0, 10, TargetStopMaxHold, 1000000.0, 0.01,
           0.20, 5, None, 100, 0.00099, 0.0005)
  }

  /** A bar in an uptrend, three percent above its short average, at its highest high of the lookback. */
  function UptrendBar(): Bar {
    PreparedBar(0, 0, 1010.0, 1035.0, 1005.0, 1030.0, 300000000.0, Some(1000.0), Some(900.0), Some(890.0), Some(30.0),
                Some(300000000.0), Some(0.02), Some(0.1), Some(0.2), true, Some(1030.0), Some(0.1), Some(0.9))
  }

  lemma UptrendBarQualifies(mode: EntryMode)
    ensures Measured(UptrendBar()) && InUptrend(UptrendBar(), DefaultParams(mode, Some(0.1)))
  {
  }

  /** In each mode the bar signals, and does not when one field is changed: without a recent touch of the
      short average, below a higher prior high, or after a wider range. */
  lemma OneFieldDecides()
    ensures var b, params := UptrendBar(), DefaultParams(TrendPullback, Some(0.1));
            IsEntrySignal(b, params) && !IsEntrySignal(b.(touchedSmaShortRecently := false), params)
    ensures var b, params := UptrendBar(), DefaultParams(BreakoutContinuation, Some(0.1));
            IsEntrySignal(b, params) && !IsEntrySignal(b.(priorHighBreakout := Some(1031.0)), params)
    ensures var b, params := UptrendBar(), DefaultParams(VolatilityContraction, Some(0.1));
            IsEntrySignal(b, params) && !IsEntrySignal(b.(priorRange20dPct := Some(0.11)), params)
  {
    UptrendBarQualifies(TrendPullback);
    UptrendBarQualifies(BreakoutContinuation);
    UptrendBarQualifies(VolatilityContraction);
    TrendBaseIsUptrend(UptrendBar(), DefaultParams(TrendPullback, Some(0.1)));
    TrendBaseIsUptrend(UptrendBar(), DefaultParams(BreakoutContinuation, Some(0.1)));
    TrendBaseIsUptrend(UptrendBar(), DefaultParams(VolatilityContraction, Some(0.1)));
  }
}
