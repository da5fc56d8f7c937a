/** The pools of a date as statements about raw rows: a template is in a pool exactly when two neighbouring
    rows of some symbol make it. */
module SwingPoolLaws {
  import opened Prelude
  import opened Sorting
  import opened SwingTypes
  import opened SwingIndicators
  import opened SwingIndicatorLaws
  import opened SwingSignals
  import opened SwingSignalLaws
  import opened SwingMarketLaws
  import opened SwingPools
  import opened SwingCausality

  // ---------------------------------------------------------------- two neighbouring rows

  /** Row k of series i has a successor. */
  predicate HasNext(data: seq<Series>, i: nat, k: nat) { i < |data| && k + 1 < |data[i].rows| }

  function SignalBar(data: seq<Series>, i: nat, k: nat, params: Params): Bar
    requires HasNext(data, i, k)
  {
    BarAt(data[i].symbol, data[i].rows, k, params)
  }

  function EntryBar(data: seq<Series>, i: nat, k: nat, params: Params): Bar
    requires HasNext(data, i, k)
  {
    BarAt(data[i].symbol, data[i].rows, k + 1, params)
  }

  lemma {:induction false} SeriesOfData(data: seq<Series>, i: nat, params: Params)
    requires ValidData(data) && i < |data|
    ensures var p := Prepare(data, params);
            ValidPrepared(p) && ValidSeries(p[i]) && SeriesOf(p, data[i].symbol) == Some(p[i])
  {
    PrepareValid(data, params);
    SeriesUnique(Prepare(data, params), i);
  }

  /** The entry bar is among its date's bars, and the signal bar is the one before it. */
  lemma {:induction false} NeighboursOfData(data: seq<Series>, i: nat, k: nat, params: Params)
    requires ValidData(data) && HasNext(data, i, k)
    ensures var p, bar := Prepare(data, params), EntryBar(data, i, k, params);
            && bar in Today(p, bar.date)
            && Previous(p, bar.symbol, bar.date) == Some(SignalBar(data, i, k, params))
  {
    var p, bar := Prepare(data, params), EntryBar(data, i, k, params);
    SeriesOfData(data, i, params);
    IncreasingIndex(Dates(p[i]), k + 1);
    TodayMember(p, bar.date, bar);
  }

  lemma {:induction false} PlaceOfBar(sr: BarSeries, bar: Bar, before: Bar) returns (k: nat)
    requires BarOn(sr, bar.date) == Some(bar) && PreviousIn(sr, bar.date) == Some(before)
    ensures k + 1 < |sr.bars| && sr.bars[k] == before && sr.bars[k + 1] == bar
  {
    k := IndexOf(Dates(sr), bar.date) - 1;
  }

  lemma BarsOfSeries(data: seq<Series>, params: Params, i: nat, k: nat)
    requires i < |data| && k + 1 < |Prepare(data, params)[i].bars|
    ensures HasNext(data, i, k)
    ensures Prepare(data, params)[i].bars[k] == SignalBar(data, i, k, params)
    ensures Prepare(data, params)[i].bars[k + 1] == EntryBar(data, i, k, params)
  {
  }

  /** Every bar of a date with a bar before it is such an entry bar. */
  lemma {:induction false} RowsOfBar(data: seq<Series>, params: Params, d: Date, bar: Bar) returns (i: nat, k: nat)
    requires ValidData(data) && bar in Today(Prepare(data, params), d)
    requires Previous(Prepare(data, params), bar.symbol, bar.date).Some?
    ensures HasNext(data, i, k) && bar == EntryBar(data, i, k, params) && bar.date == d
    ensures Previous(Prepare(data, params), bar.symbol, bar.date) == Some(SignalBar(data, i, k, params))
  {
    var p := Prepare(data, params);
    PrepareValid(data, params);
    TodayMember(p, d, bar);
    var sr := SeriesOf(p, bar.symbol).value;
    i :| 0 <= i < |p| && p[i] == sr;
    k := PlaceOfBar(sr, bar, PreviousIn(sr, d).value);
    BarsOfSeries(data, params, i, k);
  }

  // ---------------------------------------------------------------- what a template records

  /** The opening gap, as a product of the close before. */
  predicate GapOpen(open: real, close: real, params: Params) {
    && (params.minEntryGapPct.Some? ==> open >= Product(1.0 + params.minEntryGapPct.value, close))
    && (params.maxEntryGapPct.Some? ==> open < Product(1.0 + params.maxEntryGapPct.value, close))
  }

  /** The template enters at the open, places stop and target by the range of the signal row, and records
      the signal row's indicators, the gap between the rows and the market of the signal date. */
  predicate Drawn(t: Template, signal: Bar, bar: Bar, market: Option<MarketContext>, params: Params) {
    && signal.atr.Some? && signal.smaShort.Some? && signal.return20d.Some? && signal.avgTurnover.Some?
    && t.symbol == bar.symbol && t.entryDate == bar.date && t.entryPrice == bar.open
    && t.signalDate == signal.date && t.signalClose == signal.close && t.signalSmaShort == signal.smaShort.value
    && Product(t.signalAtrPct, signal.close) == signal.atr.value
    && t.signalReturn20d == signal.return20d.value && t.signalAvgTurnover == signal.avgTurnover.value
    && Product(1.0 + t.entryGapPct, signal.close) == bar.open
    && bar.open - t.stopPrice == Product(signal.atr.value, params.stopAtrMultiple)
    && t.targetPrice - bar.open == Product(Product(signal.atr.value, params.stopAtrMultiple), params.targetRMultiple)
    && t.market == market
  }

  /** A row whose range is positive and whose stop is above zero. */
  predicate Stoppable(signal: Bar, bar: Bar, params: Params) {
    signal.atr.Some? && signal.atr.value > 0.0 && Product(signal.atr.value, params.stopAtrMultiple) < bar.open
  }

  lemma GapIff(open: real, close: real, params: Params)
    requires close > 0.0
    ensures AtLeast(open / close - 1.0, params.minEntryGapPct) && BelowCap(open / close - 1.0, params.maxEntryGapPct)
            <==> GapOpen(open, close, params)
  {
    if params.minEntryGapPct.Some? {
      QuotientAtMost(open, close, 1.0 + params.minEntryGapPct.value);
    }
    if params.maxEntryGapPct.Some? {
      QuotientAtMost(open, close, 1.0 + params.maxEntryGapPct.value);
    }
  }

  /** The figures of a template, with the quotients as products. */
  lemma FiguresOf(open: real, close: real, atr: real, stop: real, target: real)
    requires close > 0.0
    ensures Product(atr / close, close) == atr && Product(1.0 + (open / close - 1.0), close) == open
    ensures open - (open - atr * stop) == Product(atr, stop)
    ensures open + atr * stop * target - open == Product(Product(atr, stop), target)
    ensures open - atr * stop <= 0.0 <==> open <= Product(atr, stop)
  {
  }

  lemma TemplateDraws(bar: Bar, signal: Bar, market: Option<MarketContext>, params: Params, filters: bool)
    requires if filters then IsEntrySignal(signal, params) else IsRandomBaselineTradable(signal, params)
    ensures var r := EntryTemplateOf(bar, signal, market, params, filters);
            && (r.Some? <==> Stoppable(signal, bar, params) && (filters ==> GapOpen(bar.open, signal.close, params)))
            && (r.Some? ==> Drawn(r.value, signal, bar, market, params))
  {
    GapIff(bar.open, signal.close, params);
    FiguresOf(bar.open, signal.close, signal.atr.value, params.stopAtrMultiple, params.targetRMultiple);
  }

  // ---------------------------------------------------------------- scores

  /** The average turnover in billions, at most two. */
  predicate IsLiquidity(x: real, avgTurnover: real) { 1000000000.0 * x == MinReal(avgTurnover, 2000000000.0) }

  /** How far the close lies above the average, as a part of the average. */
  predicate IsExcess(x: real, close: real, average: real) { Product(x, average) == MaxReal(close - average, 0.0) }

  /** Turnover against its average, zero when that is not positive. */
  predicate IsMultiple(x: real, turnover: real, average: real) {
    if average > 0.0 then Product(x, average) == turnover else x == 0.0
  }

  /** By how much the range exceeds a twentieth of the close, as a part of the close. */
  predicate IsPenalty(x: real, atr: real, close: real) { Product(x, close) == MaxReal(atr - 0.05 * close, 0.0) }

  lemma LiquidityExists(avgTurnover: real)
    ensures IsLiquidity(MinReal(avgTurnover / 1000000000.0, 2.0), avgTurnover)
  {
  }

  lemma ExcessExists(close: real, average: real)
    requires average > 0.0
    ensures IsExcess(MaxReal(close / average - 1.0, 0.0), close, average)
  {
    QuotientAtMost(close, average, 1.0);
    assert Product(close / average, average) == close;
  }

  lemma MultipleExists(turnover: real, average: real)
    ensures IsMultiple(if average > 0.0 then turnover / average else 0.0, turnover, average)
  {
  }

  lemma PenaltyExists(atr: real, close: real)
    requires close > 0.0
    ensures IsPenalty(MaxReal(atr / close - 0.05, 0.0), atr, close)
  {
    QuotientAtMost(atr, close, 0.05);
    assert Product(atr / close, close) == atr;
  }

  /** The pullback score: the 20-day return, less the excess over the short average, with a twentieth of the
      liquidity. */
  lemma PullbackScore(b: Bar) returns (excess: real, liquidity: real)
    requires b.return20d.Some? && b.smaShort.Some? && b.avgTurnover.Some?
    ensures IsExcess(excess, b.close, b.smaShort.value) && IsLiquidity(liquidity, b.avgTurnover.value)
    ensures TrendPullbackScore(b) == b.return20d.value - excess + liquidity / 20.0
  {
    excess := MaxReal(b.close / b.smaShort.value - 1.0, 0.0);
    liquidity := MinReal(b.avgTurnover.value / 1000000000.0, 2.0);
    ExcessExists(b.close, b.smaShort.value);
    LiquidityExists(b.avgTurnover.value);
  }

  /** The breakout score: three times the strength of the breakout, two fifths of the 20-day and a fifth of the
      60-day return, a little for a turnover multiple of up to three, less the penalty for a wide range. */
  lemma BreakoutScored(b: Bar, params: Params) returns (strength: real, multiple: real, penalty: real)
    requires IsBreakoutSignal(b, params)
    ensures Product(1.0 + strength, b.priorHighBreakout.value) == b.close
    ensures IsMultiple(multiple, b.turnover, b.avgTurnover.value) && IsPenalty(penalty, b.atr.value, b.close)
    ensures BreakoutScore(b) == 3.0 * strength + b.return20d.value * 2.0 / 5.0 + b.return60d.value / 5.0
                                + 3.0 * MinReal(multiple, 3.0) / 100.0 - penalty
  {
    strength := b.close / b.priorHighBreakout.value - 1.0;
    multiple := if b.avgTurnover.value > 0.0 then b.turnover / b.avgTurnover.value else 0.0;
    penalty := MaxReal(b.atr.value / b.close - 0.05, 0.0);
    MultipleExists(b.turnover, b.avgTurnover.value);
    PenaltyExists(b.atr.value, b.close);
  }

  /** The contraction score: the two returns and the place in the range count for it, the width of the range,
      the daily range and the excess over the short average against it. */
  lemma ContractionScored(b: Bar, params: Params) returns (excess: real, liquidity: real, atrPct: real)
    requires IsVolatilityContractionSignal(b, params)
    ensures IsExcess(excess, b.close, b.smaShort.value) && IsLiquidity(liquidity, b.avgTurnover.value)
    ensures Product(atrPct, b.close) == b.atr.value
    ensures VolatilityContractionScore(b)
         == b.return20d.value * 2.0 / 5.0 + b.return60d.value / 5.0 + b.priorRange20dPosition.value / 10.0
            + 3.0 * liquidity / 100.0 - b.priorRange20dPct.value * 3.0 / 5.0 - atrPct * 4.0 / 5.0 - excess / 2.0
  {
    excess := MaxReal(b.close / b.smaShort.value - 1.0, 0.0);
    liquidity := MinReal(b.avgTurnover.value / 1000000000.0, 2.0);
    atrPct := b.atr.value / b.close;
    ExcessExists(b.close, b.smaShort.value);
    LiquidityExists(b.avgTurnover.value);
  }

  /** The score of a signal is that of its mode. */
  lemma ScoreOfMode(b: Bar, params: Params)
    requires IsEntrySignal(b, params)
    ensures params.entryMode == TrendPullback ==> EntryScore(b, params) == TrendPullbackScore(b)
    ensures params.entryMode == BreakoutContinuation ==>
              IsBreakoutSignal(b, params) && EntryScore(b, params) == BreakoutScore(b)
    ensures params.entryMode == VolatilityContraction ==>
              IsVolatilityContractionSignal(b, params) && EntryScore(b, params) == VolatilityContractionScore(b)
  {
  }

  // ---------------------------------------------------------------- the pools over rows

  /** Row k signals, the market of its date is open, and the next row opens in reach of it with room for a
      stop. */
  ghost predicate Enters(data: seq<Series>, params: Params, i: nat, k: nat)
    requires HasNext(data, i, k)
  {
    var signal, bar := SignalBar(data, i, k, params), EntryBar(data, i, k, params);
    && RowSignals(data[i].symbol, data[i].rows, k, params)
    && MarketOpen(Today(Prepare(data, params), signal.date), params)
    && Stoppable(signal, bar, params) && GapOpen(bar.open, signal.close, params)
  }

  ghost predicate MadeByRows(data: seq<Series>, params: Params, i: nat, k: nat, t: Template) {
    HasNext(data, i, k) &&
    var signal, bar := SignalBar(data, i, k, params), EntryBar(data, i, k, params);
    && Enters(data, params, i, k)
    && Drawn(t, signal, bar, MarketOn(Prepare(data, params), signal.date), params)
    && IsEntrySignal(signal, params) && t.score == EntryScore(signal, params)
  }

  /** The template of a bar whose predecessor is known. */
  lemma {:induction false} SignalTemplateOf(p: seq<BarSeries>, params: Params, bar: Bar, signal: Bar)
    requires Previous(p, bar.symbol, bar.date) == Some(signal)
    ensures var r := SignalTemplate(p, params, bar);
            && (r.Some? <==>
                  && IsEntrySignal(signal, params) && MarketOpen(Today(p, signal.date), params)
                  && Stoppable(signal, bar, params) && GapOpen(bar.open, signal.close, params))
            && (r.Some? ==>
                  && Drawn(r.value, signal, bar, MarketOn(p, signal.date), params)
                  && r.value.score == EntryScore(signal, params))
  {
    MarketIff(p, signal.date, params);
    if IsEntrySignal(signal, params) {
      TemplateDraws(bar, signal, MarketOn(p, signal.date), params, true);
    }
  }

  lemma {:induction false} SignalTemplateIff(data: seq<Series>, params: Params, i: nat, k: nat)
    requires ValidData(data) && HasNext(data, i, k)
    ensures var r := SignalTemplate(Prepare(data, params), params, EntryBar(data, i, k, params));
            && (r.Some? <==> Enters(data, params, i, k))
            && (r.Some? ==> MadeByRows(data, params, i, k, r.value))
  {
    NeighboursOfData(data, i, k, params);
    SignalsByRows(data[i].symbol, data[i].rows, k, params);
    SignalTemplateOf(Prepare(data, params), params, EntryBar(data, i, k, params), SignalBar(data, i, k, params));
  }

  lemma {:induction false} InSignalPool(prepared: seq<BarSeries>, params: Params, d: Date, t: Template)
    ensures t in SignalPool(prepared, params, d) <==>
            exists b: Bar :: b in Today(prepared, d) && SignalTemplate(prepared, params, b) == Some(t)
  {
    var f, bars := ToSignal(prepared, params), TodayBySymbol(prepared, d);
    SameElements(bars, Today(prepared, d));
    SameElements(SignalPool(prepared, params, d), FilterMap(f, bars));
    FilterMapMember(f, bars, t);
    forall b: Bar ensures f(b) == SignalTemplate(prepared, params, b) {
    }
  }

  /** Every template of the signal pool is made by two neighbouring rows of a symbol, the later one on the
      pool's date. */
  lemma {:induction false} PoolComesFromRows(data: seq<Series>, params: Params, d: Date, t: Template)
    returns (i: nat, k: nat)
    requires ValidData(data) && t in SignalPool(Prepare(data, params), params, d)
    ensures MadeByRows(data, params, i, k, t) && data[i].rows[k + 1].date == d
  {
    var p := Prepare(data, params);
    InSignalPool(p, params, d, t);
    var b: Bar :| b in Today(p, d) && SignalTemplate(p, params, b) == Some(t);
    i, k := RowsOfBar(data, params, d, b);
    SignalTemplateIff(data, params, i, k);
  }

  /** And any two such rows put a template into the pool of the later one's date. */
  lemma {:induction false} RowsReachPool(data: seq<Series>, params: Params, i: nat, k: nat) returns (t: Template)
    requires ValidData(data) && HasNext(data, i, k) && Enters(data, params, i, k)
    ensures t in SignalPool(Prepare(data, params), params, data[i].rows[k + 1].date)
    ensures MadeByRows(data, params, i, k, t)
  {
    var p, bar := Prepare(data, params), EntryBar(data, i, k, params);
    SignalTemplateIff(data, params, i, k);
    NeighboursOfData(data, i, k, params);
    t := SignalTemplate(p, params, bar).value;
    InSignalPool(p, params, bar.date, t);
  }

  /** In pullback mode: one of the last rows up to the signal row has a low within the tolerance of its own
      short average, and the signal row closes at or above its own. */
  lemma {:induction false} PullbackPoolDipped(data: seq<Series>, params: Params, d: Date, t: Template)
    returns (i: nat, k: nat, dip: nat)
    requires ValidData(data) && params.entryMode == TrendPullback && t in SignalPool(Prepare(data, params), params, d)
    ensures MadeByRows(data, params, i, k, t) && data[i].rows[k + 1].date == d
    ensures k + 1 - params.pullbackLookback <= dip <= k && Dips(data[i].symbol, data[i].rows, dip, params)
    ensures t.signalSmaShort <= data[i].rows[k].close
  {
    i, k := PoolComesFromRows(data, params, d, t);
    var symbol, rows := data[i].symbol, data[i].rows;
    dip :| k + 1 - params.pullbackLookback <= dip <= k && Dips(symbol, rows, dip, params);
  }

  // ---------------------------------------------------------------- the tradable pool

  /** The baseline's row: its price and turnover are in range and its indicators are there. */
  predicate Usable(b: Bar, params: Params) {
    && b.atr.Some? && b.smaShort.Some? && b.return20d.Some? && b.avgTurnover.Some?
    && params.minPrice <= b.close && b.close <= params.maxPrice
    && Between(b.avgTurnover.value, params.minAvgTurnover, params.maxAvgTurnover)
  }

  ghost predicate UsedByRows(data: seq<Series>, params: Params, i: nat, k: nat, t: Template) {
    HasNext(data, i, k) &&
    var signal, bar := SignalBar(data, i, k, params), EntryBar(data, i, k, params);
    && Usable(signal, params) && Stoppable(signal, bar, params)
    && Drawn(t, signal, bar, MarketOn(Prepare(data, params), signal.date), params)
    && t.score == TrendPullbackScore(signal)
  }

  lemma {:induction false} TradableTemplateAfter(p: seq<BarSeries>, params: Params, bar: Bar, signal: Bar)
    requires Previous(p, bar.symbol, bar.date) == Some(signal)
    ensures var r := TradableTemplate(p, params, bar);
            && (r.Some? <==> Usable(signal, params) && Stoppable(signal, bar, params))
            && (r.Some? ==>
                  && Drawn(r.value, signal, bar, MarketOn(p, signal.date), params)
                  && r.value.score == TrendPullbackScore(signal))
  {
    if IsRandomBaselineTradable(signal, params) {
      TemplateDraws(bar, signal, MarketOn(p, signal.date), params, false);
    }
  }

  lemma {:induction false} TradableTemplateIff(data: seq<Series>, params: Params, i: nat, k: nat)
    requires ValidData(data) && HasNext(data, i, k)
    ensures var signal, bar := SignalBar(data, i, k, params), EntryBar(data, i, k, params);
            var r := TradableTemplate(Prepare(data, params), params, bar);
            && (r.Some? <==> Usable(signal, params) && Stoppable(signal, bar, params))
            && (r.Some? ==> UsedByRows(data, params, i, k, r.value))
  {
    NeighboursOfData(data, i, k, params);
    TradableTemplateAfter(Prepare(data, params), params, EntryBar(data, i, k, params), SignalBar(data, i, k, params));
  }

  lemma {:induction false} InTradablePool(prepared: seq<BarSeries>, params: Params, d: Date, t: Template)
    ensures t in TradablePool(prepared, params, d) <==>
            exists b: Bar :: b in Today(prepared, d) && TradableTemplate(prepared, params, b) == Some(t)
  {
    var f, bars := ToTradable(prepared, params), TodayBySymbol(prepared, d);
    SameElements(bars, Today(prepared, d));
    FilterMapMember(f, bars, t);
    forall b: Bar ensures f(b) == TradableTemplate(prepared, params, b) {
    }
  }

  /** The tradable pool of a date likewise: two rows of a symbol, the earlier one usable, and nothing else. */
  lemma {:induction false} TradableComesFromRows(data: seq<Series>, params: Params, d: Date, t: Template)
    returns (i: nat, k: nat)
    requires ValidData(data) && t in TradablePool(Prepare(data, params), params, d)
    ensures UsedByRows(data, params, i, k, t) && data[i].rows[k + 1].date == d
  {
    var p := Prepare(data, params);
    InTradablePool(p, params, d, t);
    var b: Bar :| b in Today(p, d) && TradableTemplate(p, params, b) == Some(t);
    i, k := RowsOfBar(data, params, d, b);
    TradableTemplateIff(data, params, i, k);
  }

  lemma {:induction false} RowsReachTradable(data: seq<Series>, params: Params, i: nat, k: nat) returns (t: Template)
    requires ValidData(data) && HasNext(data, i, k)
    requires Usable(SignalBar(data, i, k, params), params)
    requires Stoppable(SignalBar(data, i, k, params), EntryBar(data, i, k, params), params)
    ensures t in TradablePool(Prepare(data, params), params, data[i].rows[k + 1].date)
    ensures UsedByRows(data, params, i, k, t)
  {
    var p, bar := Prepare(data, params), EntryBar(data, i, k, params);
    TradableTemplateIff(data, params, i, k);
    NeighboursOfData(data, i, k, params);
    t := TradableTemplate(p, params, bar).value;
    InTradablePool(p, params, bar.date, t);
  }
}
