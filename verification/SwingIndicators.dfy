/** The per-symbol indicators and the bars prepared from them. */
module SwingIndicators {
  import opened Prelude
  import opened SwingTypes

  datatype Field = Open | High | Low | Close | Turnover

  function Get(r: Row, f: Field): real {
    match f
    case Open => r.open
    case High => r.high
    case Low => r.low
    case Close => r.close
    case Turnover => r.turnover
  }

  function Column(rows: seq<Row>, f: Field): (c: seq<real>)
    ensures |c| == |rows|
    ensures forall i :: 0 <= i < |rows| ==> c[i] == Get(rows[i], f)
  {
    seq(|rows|, i requires 0 <= i < |rows| => Get(rows[i], f))
  }

  function Sma(values: seq<real>, idx: int, period: Positive): Option<real>
    requires idx < |values|
  {
    if idx < 0 || idx + 1 < period then None
    else Some(Sum(values[idx + 1 - period..idx + 1]) / period as real)
  }

  function TrueRange(highs: seq<real>, lows: seq<real>, closes: seq<real>, i: nat): real
    requires 1 <= i < |closes| && |highs| == |lows| == |closes|
  {
    MaxReal(highs[i] - lows[i],
            MaxReal(AbsReal(highs[i] - closes[i - 1]), AbsReal(lows[i] - closes[i - 1])))
  }

  function TrueRanges(highs: seq<real>, lows: seq<real>, closes: seq<real>, lo: nat, hi: nat): seq<real>
    requires 1 <= lo <= hi <= |closes| && |highs| == |lows| == |closes|
    decreases hi - lo
  {
    if lo == hi then []
    else TrueRanges(highs, lows, closes, lo, hi - 1) + [TrueRange(highs, lows, closes, hi - 1)]
  }

  function Atr(highs: seq<real>, lows: seq<real>, closes: seq<real>, idx: nat, period: Positive): Option<real>
    requires idx < |closes| && |highs| == |lows| == |closes|
  {
    if idx < period then None
    else Some(Sum(TrueRanges(highs, lows, closes, idx + 1 - period, idx + 1)) / period as real)
  }

  function Return(values: seq<real>, idx: nat, period: Positive): Option<real>
    requires idx < |values|
  {
    if idx < period then None
    else if values[idx - period] <= 0.0 then None
    else Some(values[idx] / values[idx - period] - 1.0)
  }

  function PriorHigh(values: seq<real>, idx: nat, period: Positive): Option<real>
    requires idx < |values|
  {
    if idx < period then None else Some(MaxOf(values[idx - period..idx]))
  }

  function PriorRangePct(highs: seq<real>, lows: seq<real>, closes: seq<real>, idx: nat, period: Positive): Option<real>
    requires idx < |closes| && |highs| == |lows| == |closes|
  {
    if idx < period || closes[idx] <= 0.0 then None
    else Some((MaxOf(highs[idx - period..idx]) - MinOf(lows[idx - period..idx])) / closes[idx])
  }

  function PriorRangePosition(highs: seq<real>, lows: seq<real>, close: real, idx: nat, period: Positive): Option<real>
    requires idx < |highs| && |highs| == |lows|
  {
    if idx < period then None
    else
      var priorHigh := MaxOf(highs[idx - period..idx]);
      var priorLow := MinOf(lows[idx - period..idx]);
      if priorHigh - priorLow <= 0.0 then None
      else Some((close - priorLow) / (priorHigh - priorLow))
  }

  /** True when some bar in [lo, hi) dipped to within the tolerance of its own short SMA. */
  predicate TouchedIn(lows: seq<real>, closes: seq<real>, lo: nat, hi: nat, period: Positive, tolerance: real)
    requires hi <= |closes| && |lows| == |closes|
    decreases hi
  {
    lo < hi &&
    (TouchedIn(lows, closes, lo, hi - 1, period, tolerance) || TouchesAt(lows, closes, hi - 1, period, tolerance))
  }

  predicate TouchesAt(lows: seq<real>, closes: seq<real>, i: nat, period: Positive, tolerance: real)
    requires i < |closes| && |lows| == |closes|
  {
    Sma(closes, i, period).Some? && lows[i] <= Sma(closes, i, period).value * (1.0 + tolerance)
  }

  predicate TouchedSmaRecently(lows: seq<real>, closes: seq<real>, idx: nat, period: Positive,
                               lookback: int, tolerance: real)
    requires idx < |closes| && |lows| == |closes|
  {
    var start := if idx + 1 - lookback < 0 then 0 else idx + 1 - lookback;
    TouchedIn(lows, closes, start, idx + 1, period, tolerance)
  }

  /** The bar at idx, from the price columns of its symbol. */
  function BarOf(symbol: Symbol, row: Row, highs: seq<real>, lows: seq<real>, closes: seq<real>,
                 turnovers: seq<real>, idx: nat, params: Params): (b: PreparedBar)
    requires idx < |closes| && |highs| == |lows| == |closes| == |turnovers|
    ensures b.symbol == symbol && b.date == row.date && b.open == row.open && b.close == row.close
    ensures b.smaShort == Sma(closes, idx, params.smaShortPeriod)
    ensures b.priorHighBreakout == PriorHigh(highs, idx, params.breakoutLookback)
  {
    PreparedBar(
      symbol, row.date, row.open, row.high, row.low, row.close, row.turnover,
      Sma(closes, idx, params.smaShortPeriod),
      Sma(closes, idx, params.smaLongPeriod),
      Sma(closes, idx - params.smaLongSlopeLookback, params.smaLongPeriod),
      Atr(highs, lows, closes, idx, params.atrPeriod),
      Sma(turnovers, idx, params.avgTurnoverPeriod),
      Return(closes, idx, 5),
      Return(closes, idx, 20),
      Return(closes, idx, 60),
      TouchedSmaRecently(lows, closes, idx, params.smaShortPeriod, params.pullbackLookback,
                         params.pullbackSmaTolerance),
      PriorHigh(highs, idx, params.breakoutLookback),
      PriorRangePct(highs, lows, closes, idx, 20),
      PriorRangePosition(highs, lows, row.close, idx, 20))
  }

  lemma SmaPositive(values: seq<real>, idx: nat, period: Positive)
    requires idx < |values| && forall i :: 0 <= i < |values| ==> values[i] > 0.0
    ensures Sma(values, idx, period).Some? ==> Sma(values, idx, period).value > 0.0
  {
    if idx + 1 >= period {
      SumPositive(values[idx + 1 - period..idx + 1]);
    }
  }

  function BarAt(symbol: Symbol, rows: seq<Row>, idx: nat, params: Params): (b: Bar)
    requires idx < |rows|
    ensures b.symbol == symbol && b.date == rows[idx].date && b.open == rows[idx].open
  {
    SmaPositive(Column(rows, Close), idx, params.smaShortPeriod);
    BarOf(symbol, rows[idx], Column(rows, High), Column(rows, Low), Column(rows, Close), Column(rows, Turnover),
          idx, params)
  }

  /** The bars of the first n rows of one symbol. */
  function BarsUpTo(symbol: Symbol, rows: seq<Row>, n: nat, params: Params): (bars: seq<Bar>)
    requires n <= |rows|
    ensures |bars| == n
    ensures forall i :: 0 <= i < n ==> bars[i] == BarAt(symbol, rows, i, params)
  {
    seq(n, i requires 0 <= i < n => BarAt(symbol, rows, i, params))
  }

  function Prepare(data: seq<Series>, params: Params): (prepared: seq<BarSeries>)
    ensures |prepared| == |data|
    ensures forall i :: 0 <= i < |data| ==>
              prepared[i] == BarSeries(data[i].symbol,
                                       BarsUpTo(data[i].symbol, data[i].rows, |data[i].rows|, params))
  {
    if data == [] then []
    else
      var last := data[|data| - 1];
      Prepare(data[..|data| - 1], params) +
      [BarSeries(last.symbol, BarsUpTo(last.symbol, last.rows, |last.rows|, params))]
  }

  lemma PrepareOneMore(data: seq<Series>, s: nat, params: Params)
    requires s < |data|
    ensures Prepare(data[..s + 1], params) ==
            Prepare(data[..s], params) +
            [BarSeries(data[s].symbol, BarsUpTo(data[s].symbol, data[s].rows, |data[s].rows|, params))]
  {
    assert data[..s + 1][..s] == data[..s];
  }

  /** The bars of one symbol. */
  method BarsOfSymbol(symbol: Symbol, rows: seq<Row>, params: Params) returns (bars: seq<Bar>)
    ensures bars == BarsUpTo(symbol, rows, |rows|, params)
  {
    bars := [];
    for idx := 0 to |rows|
      invariant bars == BarsUpTo(symbol, rows, idx, params)
    {
      bars := bars + [BarAt(symbol, rows, idx, params)];
    }
  }

  method PrepareBars(data: seq<Series>, params: Params) returns (prepared: seq<BarSeries>)
    ensures prepared == Prepare(data, params)
  {
    prepared := [];
    for s := 0 to |data|
      invariant prepared == Prepare(data[..s], params)
    {
      PrepareOneMore(data, s, params);
      var bars := BarsOfSymbol(data[s].symbol, data[s].rows, params);
      prepared := prepared + [BarSeries(data[s].symbol, bars)];
    }
    assert data[..|data|] == data;
  }

  // ---------------------------------------------------------------- causality

  /** Two price columns agree on everything known at bar k. */
  ghost predicate SamePrefix(v: seq<real>, w: seq<real>, k: nat) {
    k <= |v| && k <= |w| && v[..k] == w[..k]
  }

  lemma SameWindow(v: seq<real>, w: seq<real>, k: nat, lo: nat, hi: nat)
    requires SamePrefix(v, w, k) && lo <= hi <= k
    ensures v[lo..hi] == w[lo..hi]
  {
  }

  lemma SamePoint(v: seq<real>, w: seq<real>, k: nat, i: nat)
    requires SamePrefix(v, w, k) && i < k
    ensures v[i] == w[i]
  {
  }

  lemma SmaCausal(v: seq<real>, w: seq<real>, k: nat, i: int, period: Positive)
    requires SamePrefix(v, w, k) && i < k
    ensures Sma(v, i, period) == Sma(w, i, period)
  {
    if 0 <= i && i + 1 >= period {
      SameWindow(v, w, k, i + 1 - period, i + 1);
    }
  }

  lemma {:induction false} TrueRangesCausal(h: seq<real>, l: seq<real>, c: seq<real>,
                                            h': seq<real>, l': seq<real>, c': seq<real>, k: nat, lo: nat, hi: nat)
    requires 1 <= lo <= hi <= k && |h| == |l| == |c| && |h'| == |l'| == |c'|
    requires SamePrefix(h, h', k) && SamePrefix(l, l', k) && SamePrefix(c, c', k)
    ensures TrueRanges(h, l, c, lo, hi) == TrueRanges(h', l', c', lo, hi)
    decreases hi - lo
  {
    if lo == hi {
    } else {
      SamePoint(h, h', k, hi - 1);
      SamePoint(l, l', k, hi - 1);
      SamePoint(c, c', k, hi - 2);
      TrueRangesCausal(h, l, c, h', l', c', k, lo, hi - 1);
    }
  }

  lemma TouchesAtCausal(l: seq<real>, c: seq<real>, l': seq<real>, c': seq<real>, k: nat, i: nat, period: Positive,
                        tolerance: real)
    requires i < k && |l| == |c| && |l'| == |c'|
    requires SamePrefix(l, l', k) && SamePrefix(c, c', k)
    ensures TouchesAt(l, c, i, period, tolerance) == TouchesAt(l', c', i, period, tolerance)
  {
    SamePoint(l, l', k, i);
    SmaCausal(c, c', k, i, period);
  }

  lemma {:induction false} TouchedCausal(l: seq<real>, c: seq<real>, l': seq<real>, c': seq<real>, k: nat,
                                         lo: nat, hi: nat, period: Positive, tolerance: real)
    requires hi <= k && |l| == |c| && |l'| == |c'|
    requires SamePrefix(l, l', k) && SamePrefix(c, c', k)
    ensures TouchedIn(l, c, lo, hi, period, tolerance) == TouchedIn(l', c', lo, hi, period, tolerance)
    decreases hi
  {
    if lo >= hi {
    } else {
      TouchesAtCausal(l, c, l', c', k, hi - 1, period, tolerance);
      TouchedCausal(l, c, l', c', k, lo, hi - 1, period, tolerance);
    }
  }

  lemma ColumnPrefix(rows: seq<Row>, rows': seq<Row>, k: nat, f: Field)
    requires k <= |rows| && k <= |rows'| && rows[..k] == rows'[..k]
    ensures SamePrefix(Column(rows, f), Column(rows', f), k)
  {
  }

  lemma AveragesCausal(c: seq<real>, c': seq<real>, t: seq<real>, t': seq<real>, idx: nat, params: Params)
    requires SamePrefix(c, c', idx + 1) && SamePrefix(t, t', idx + 1)
    ensures Sma(c, idx, params.smaShortPeriod) == Sma(c', idx, params.smaShortPeriod)
    ensures Sma(c, idx, params.smaLongPeriod) == Sma(c', idx, params.smaLongPeriod)
    ensures Sma(c, idx - params.smaLongSlopeLookback, params.smaLongPeriod)
         == Sma(c', idx - params.smaLongSlopeLookback, params.smaLongPeriod)
    ensures Sma(t, idx, params.avgTurnoverPeriod) == Sma(t', idx, params.avgTurnoverPeriod)
  {
    SmaCausal(c, c', idx + 1, idx, params.smaShortPeriod);
    SmaCausal(c, c', idx + 1, idx, params.smaLongPeriod);
    SmaCausal(c, c', idx + 1, idx - params.smaLongSlopeLookback, params.smaLongPeriod);
    SmaCausal(t, t', idx + 1, idx, params.avgTurnoverPeriod);
  }

  lemma BarOfCausal(symbol: Symbol, row: Row, h: seq<real>, l: seq<real>, c: seq<real>, t: seq<real>,
                    h': seq<real>, l': seq<real>, c': seq<real>, t': seq<real>, idx: nat, params: Params)
    requires |h| == |l| == |c| == |t| && |h'| == |l'| == |c'| == |t'|
    requires SamePrefix(h, h', idx + 1) && SamePrefix(l, l', idx + 1)
    requires SamePrefix(c, c', idx + 1) && SamePrefix(t, t', idx + 1)
    requires c[idx] == c'[idx] == row.close
    ensures BarOf(symbol, row, h, l, c, t, idx, params) == BarOf(symbol, row, h', l', c', t', idx, params)
  {
    AveragesCausal(c, c', t, t', idx, params);
    AtrCausal(h, l, c, h', l', c', idx, params.atrPeriod);
    ReturnCausal(c, c', idx, 5);
    ReturnCausal(c, c', idx, 20);
    ReturnCausal(c, c', idx, 60);
    RangeCausal(h, l, c, h', l', c', idx, params.breakoutLookback);
    RangeCausal(h, l, c, h', l', c', idx, 20);
    TouchedRecentlyCausal(l, c, l', c', idx, params.smaShortPeriod, params.pullbackLookback,
                          params.pullbackSmaTolerance);
  }

  /** A prepared bar is a function of the rows up to and including its own. */
  lemma {:induction false} BarCausal(symbol: Symbol, rows: seq<Row>, rows': seq<Row>, idx: nat, params: Params)
    requires idx < |rows| && idx < |rows'| && rows[..idx + 1] == rows'[..idx + 1]
    ensures BarAt(symbol, rows, idx, params) == BarAt(symbol, rows', idx, params)
  {
    assert rows[idx] == rows[..idx + 1][idx] == rows'[..idx + 1][idx] == rows'[idx];
    ColumnPrefix(rows, rows', idx + 1, High);
    ColumnPrefix(rows, rows', idx + 1, Low);
    ColumnPrefix(rows, rows', idx + 1, Close);
    ColumnPrefix(rows, rows', idx + 1, Turnover);
    BarOfCausal(symbol, rows[idx],
                Column(rows, High), Column(rows, Low), Column(rows, Close), Column(rows, Turnover),
                Column(rows', High), Column(rows', Low), Column(rows', Close), Column(rows', Turnover), idx, params);
  }

  lemma TouchedRecentlyCausal(l: seq<real>, c: seq<real>, l': seq<real>, c': seq<real>, idx: nat,
                              period: Positive, lookback: int, tolerance: real)
    requires |l| == |c| && |l'| == |c'|
    requires SamePrefix(l, l', idx + 1) && SamePrefix(c, c', idx + 1)
    ensures TouchedSmaRecently(l, c, idx, period, lookback, tolerance)
         == TouchedSmaRecently(l', c', idx, period, lookback, tolerance)
  {
    var start := if idx + 1 - lookback < 0 then 0 else idx + 1 - lookback;
    TouchedCausal(l, c, l', c', idx + 1, start, idx + 1, period, tolerance);
  }

  lemma AtrCausal(h: seq<real>, l: seq<real>, c: seq<real>, h': seq<real>, l': seq<real>, c': seq<real>,
                  idx: nat, period: Positive)
    requires |h| == |l| == |c| && |h'| == |l'| == |c'|
    requires SamePrefix(h, h', idx + 1) && SamePrefix(l, l', idx + 1) && SamePrefix(c, c', idx + 1)
    ensures Atr(h, l, c, idx, period) == Atr(h', l', c', idx, period)
  {
    if idx >= period {
      TrueRangesCausal(h, l, c, h', l', c', idx + 1, idx + 1 - period, idx + 1);
    }
  }

  lemma ReturnCausal(v: seq<real>, w: seq<real>, idx: nat, period: Positive)
    requires SamePrefix(v, w, idx + 1)
    ensures Return(v, idx, period) == Return(w, idx, period)
  {
  }

  lemma RangeCausal(h: seq<real>, l: seq<real>, c: seq<real>, h': seq<real>, l': seq<real>, c': seq<real>,
                    idx: nat, period: Positive)
    requires |h| == |l| == |c| && |h'| == |l'| == |c'|
    requires SamePrefix(h, h', idx + 1) && SamePrefix(l, l', idx + 1) && SamePrefix(c, c', idx + 1)
    ensures PriorHigh(h, idx, period) == PriorHigh(h', idx, period)
    ensures PriorRangePct(h, l, c, idx, period) == PriorRangePct(h', l', c', idx, period)
    ensures PriorRangePosition(h, l, c[idx], idx, period) == PriorRangePosition(h', l', c'[idx], idx, period)
  {
    SamePoint(c, c', idx + 1, idx);
    if idx >= period {
      SameWindow(h, h', idx + 1, idx - period, idx);
      SameWindow(l, l', idx + 1, idx - period, idx);
    }
  }
}
