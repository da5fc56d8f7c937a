/** Market context, entry signals, scores, templates and sizing. */
module SwingSignals {
  import opened Prelude
  import opened Sorting
  import opened SwingTypes

  // ---------------------------------------------------------------- market context

  function TrueRatio(values: seq<bool>): Option<real> {
    if values == [] then None else Some(CountTrue(values) as real / |values| as real)
  }

  function CountTrue(values: seq<bool>): nat {
    if values == [] then 0
    else CountTrue(values[..|values| - 1]) + if values[|values| - 1] then 1 else 0
  }

  function Average(values: seq<real>): Option<real> {
    if values == [] then None else Some(Sum(values) / |values| as real)
  }

  function AboveSmaShort(b: Bar): Option<bool> {
    if b.smaShort.Some? then Some(b.close > b.smaShort.value) else None
  }

  function TrendUp(b: Bar): Option<bool> {
    if b.smaShort.Some? && b.smaLong.Some?
    then Some(b.smaShort.value > b.smaLong.value && b.close > b.smaLong.value) else None
  }

  function Return5d(b: Bar): Option<real> { b.return5d }
  function Return20d(b: Bar): Option<real> { b.return20d }
  function Return60d(b: Bar): Option<real> { b.return60d }
  function IsGain(r: real): Option<bool> { Some(r > 0.0) }

  function ClassifyMarketRegime(trend: Option<real>, breadth20d: Option<real>, avg20d: Option<real>,
                                breadth60d: Option<real>): MarketRegime
  {
    if trend.None? || breadth20d.None? || avg20d.None? then TransitionChop
    else if trend.value >= 0.55 && breadth20d.value >= 0.60 && avg20d.value > 0.0 then BroadUptrend
    else if trend.value < 0.35 && breadth20d.value < 0.45 && avg20d.value < 0.0 then BroadDowntrend
    else if trend.value < 0.45 && breadth20d.value >= 0.50 && avg20d.value > 0.0
            && (breadth60d.None? || breadth60d.value >= 0.45) then NarrowLeadership
    else TransitionChop
  }

  /** The market context of one date, from all bars of that date. */
  function MarketContextOf(d: Date, bars: seq<Bar>): MarketContext {
    var trend := TrueRatio(FilterMap(TrendUp, bars));
    var r5, r20, r60 := FilterMap(Return5d, bars), FilterMap(Return20d, bars), FilterMap(Return60d, bars);
    var breadth20d := TrueRatio(FilterMap(IsGain, r20));
    var breadth60d := TrueRatio(FilterMap(IsGain, r60));
    MarketContext(d, TrueRatio(FilterMap(AboveSmaShort, bars)), trend,
                  TrueRatio(FilterMap(IsGain, r5)), Average(r5),
                  breadth20d, Average(r20), breadth60d, Average(r60),
                  ClassifyMarketRegime(trend, breadth20d, Average(r20), breadth60d))
  }

  predicate IsMarketContextAllowed(context: Option<MarketContext>, params: Params) {
    if params.blockedMarketMin.None? && params.blockedMarketMax.None? then true
    else if context.None? || context.value.positiveReturn20dRatio.None? then false
    else
      var ratio := context.value.positiveReturn20dRatio.value;
      (params.blockedMarketMin.Some? && ratio < params.blockedMarketMin.value) ||
      (params.blockedMarketMax.Some? && ratio >= params.blockedMarketMax.value)
  }

  // ---------------------------------------------------------------- entry signals

  predicate BelowCap(x: real, cap: Option<real>) { cap.None? || x < cap.value }
  predicate AtMost(x: real, cap: Option<real>) { cap.None? || x <= cap.value }
  predicate AtLeast(x: real, floor: Option<real>) { floor.None? || x >= floor.value }

  /** What the three signals have in common. */
  predicate TrendBase(bar: Bar, params: Params) {
    && bar.smaShort.Some? && bar.smaLong.Some? && bar.smaLongPast.Some?
    && bar.atr.Some? && bar.avgTurnover.Some? && bar.return20d.Some?
    && params.minPrice <= bar.close <= params.maxPrice
    && bar.avgTurnover.value >= params.minAvgTurnover
    && BelowCap(bar.avgTurnover.value, params.maxAvgTurnover)
    && bar.smaShort.value > bar.smaLong.value
    && bar.close > bar.smaLong.value
    && bar.smaLong.value > bar.smaLongPast.value
    && bar.return20d.value >= params.minReturn20d
    && BelowCap(bar.return20d.value, params.maxReturn20d)
    && bar.close / bar.smaShort.value - 1.0 <= params.maxDistanceAboveSmaShort
    && params.minAtrPct <= bar.atr.value / bar.close <= params.maxAtrPct
  }

  predicate IsTrendPullbackSignal(bar: Bar, params: Params) {
    TrendBase(bar, params) && bar.touchedSmaShortRecently && bar.close >= bar.smaShort.value
  }

  predicate IsBreakoutSignal(bar: Bar, params: Params) {
    && TrendBase(bar, params)
    && bar.return60d.Some? && bar.priorHighBreakout.Some? && bar.priorRange20dPct.Some?
    && bar.close > bar.smaShort.value
    && AtLeast(bar.return60d.value, params.minReturn60d)
    && bar.close >= bar.priorHighBreakout.value * (1.0 + params.breakoutBufferPct)
    && AtLeast(if bar.avgTurnover.value > 0.0 then bar.turnover / bar.avgTurnover.value else 0.0,
               params.minTurnoverMultiple)
    && AtMost(bar.priorRange20dPct.value, params.maxPriorRange20dPct)
  }

  predicate IsVolatilityContractionSignal(bar: Bar, params: Params) {
    && TrendBase(bar, params)
    && bar.return60d.Some? && bar.priorRange20dPct.Some? && bar.priorRange20dPosition.Some?
    && bar.close > bar.smaShort.value
    && AtLeast(bar.return60d.value, params.minReturn60d)
    && AtMost(bar.priorRange20dPct.value, params.maxPriorRange20dPct)
    && AtLeast(bar.priorRange20dPosition.value, params.minPriorRange20dPosition)
  }

  predicate IsEntrySignal(bar: Bar, params: Params) {
    match params.entryMode
    case BreakoutContinuation => IsBreakoutSignal(bar, params)
    case VolatilityContraction => IsVolatilityContractionSignal(bar, params)
    case TrendPullback => IsTrendPullbackSignal(bar, params)
  }

  predicate IsRandomBaselineTradable(bar: Bar, params: Params) {
    && params.minPrice <= bar.close <= params.maxPrice
    && bar.atr.Some? && bar.atr.value > 0.0
    && bar.smaShort.Some? && bar.return20d.Some? && bar.avgTurnover.Some?
    && bar.avgTurnover.value >= params.minAvgTurnover
    && BelowCap(bar.avgTurnover.value, params.maxAvgTurnover)
  }

  // ---------------------------------------------------------------- scores

  function TrendPullbackScore(bar: Bar): real
    requires bar.return20d.Some? && bar.smaShort.Some?
  {
    var distance := MaxReal(bar.close / bar.smaShort.value - 1.0, 0.0);
    var turnoverScore := if bar.avgTurnover.None? then 0.0 else MinReal(bar.avgTurnover.value / 1000000000.0, 2.0);
    bar.return20d.value - distance + turnoverScore * 0.05
  }

  function BreakoutScore(bar: Bar): real
    requires bar.return20d.Some? && bar.return60d.Some? && bar.atr.Some?
    requires bar.avgTurnover.Some? && bar.priorHighBreakout.Some?
  {
    var multiple := if bar.avgTurnover.value > 0.0 then bar.turnover / bar.avgTurnover.value else 0.0;
    (bar.close / bar.priorHighBreakout.value - 1.0) * 3.0 + bar.return20d.value * 0.4 + bar.return60d.value * 0.2
    + MinReal(multiple, 3.0) * 0.03 - MaxReal(bar.atr.value / bar.close - 0.05, 0.0)
  }

  function VolatilityContractionScore(bar: Bar): real
    requires bar.return20d.Some? && bar.return60d.Some? && bar.smaShort.Some? && bar.atr.Some?
    requires bar.avgTurnover.Some? && bar.priorRange20dPct.Some? && bar.priorRange20dPosition.Some?
  {
    bar.return20d.value * 0.40 + bar.return60d.value * 0.20 + bar.priorRange20dPosition.value * 0.10
    + MinReal(bar.avgTurnover.value / 1000000000.0, 2.0) * 0.03
    - bar.priorRange20dPct.value * 0.60 - bar.atr.value / bar.close * 0.80
    - MaxReal(bar.close / bar.smaShort.value - 1.0, 0.0) * 0.50
  }

  /** The assertions in the scoring functions cannot fail on a bar that signalled. */
  function EntryScore(bar: Bar, params: Params): real
    requires IsEntrySignal(bar, params)
  {
    match params.entryMode
    case BreakoutContinuation => BreakoutScore(bar)
    case VolatilityContraction => VolatilityContractionScore(bar)
    case TrendPullback => TrendPullbackScore(bar)
  }

  // ---------------------------------------------------------------- templates and sizing

  /** The entry at today's open that yesterday's signal bar proposes. */
  function EntryTemplateOf(bar: Bar, signal: Bar, market: Option<MarketContext>, params: Params,
                           applyEntryFilters: bool): (r: Option<Template>)
    requires if applyEntryFilters then IsEntrySignal(signal, params) else IsRandomBaselineTradable(signal, params)
    ensures r.Some? ==> r.value.symbol == bar.symbol && r.value.entryDate == bar.date
  {
    if signal.atr.None? || signal.atr.value <= 0.0 then None
    else
      var gap := bar.open / signal.close - 1.0;
      if applyEntryFilters && params.minEntryGapPct.Some? && gap < params.minEntryGapPct.value then None
      else if applyEntryFilters && params.maxEntryGapPct.Some? && gap >= params.maxEntryGapPct.value then None
      else
        var stopDistance := signal.atr.value * params.stopAtrMultiple;
        if bar.open - stopDistance <= 0.0 then None
        else Some(EntryTemplate(
          bar.symbol, signal.date, signal.close, signal.smaShort.value, signal.atr.value / signal.close,
          signal.return20d.value, signal.avgTurnover.value, gap, bar.date, bar.open, bar.open - stopDistance,
          bar.open + stopDistance * params.targetRMultiple,
          if applyEntryFilters then EntryScore(signal, params) else TrendPullbackScore(signal),
          market))
  }

  /** The opening gap lies within the bounds; a missing bound does not count. */
  predicate GapAllowed(bar: Bar, signal: Bar, params: Params) {
    var gap := bar.open / signal.close - 1.0;
    AtLeast(gap, params.minEntryGapPct) && BelowCap(gap, params.maxEntryGapPct)
  }

  /** A template arises exactly when the range of the signal bar is positive, the gap is allowed where
      it counts, and the stop stays above zero. It enters at today's open, risks the multiple of the
      range, and aims at the R multiple of that risk. */
  lemma TemplateArises(bar: Bar, signal: Bar, market: Option<MarketContext>, params: Params, filters: bool)
    requires if filters then IsEntrySignal(signal, params) else IsRandomBaselineTradable(signal, params)
    ensures var r := EntryTemplateOf(bar, signal, market, params, filters);
            && (r.Some? <==> && signal.atr.value > 0.0
                             && (filters ==> GapAllowed(bar, signal, params))
                             && signal.atr.value * params.stopAtrMultiple < bar.open)
            && (r.Some? ==> && r.value.entryPrice == bar.open && r.value.signalDate == signal.date
                            && RiskPerShare(r.value) == signal.atr.value * params.stopAtrMultiple
                            && TargetPlaced(params, r.value))
  {
  }

  /** What a share loses at the stop. */
  function RiskPerShare(t: Template): real { t.entryPrice - t.stopPrice }

  /** The target is the R multiple of the stop distance above the entry. */
  predicate TargetPlaced(params: Params, t: Template) {
    t.targetPrice - t.entryPrice == RMultiple(params, RiskPerShare(t))
  }

  function RMultiple(params: Params, x: real): real { params.targetRMultiple * x }

  /** Python's // floors, also for a negative budget. */
  function LotsWithin(risk: real, notional: real, entryPrice: real, stopPrice: real, lot: Positive): int
    requires entryPrice > 0.0
  {
    var riskPerShare := entryPrice - stopPrice;
    if riskPerShare <= 0.0 then 0
    else
      var riskQty := (risk / riskPerShare).Floor;
      var notionalQty := (notional / entryPrice).Floor;
      MinInt(riskQty, notionalQty) / lot * lot
  }

  function RiskBudget(equity: real, params: Params): real { Product(equity, params.riskPerTradePct) }

  function NotionalCap(equity: real, params: Params): real { Product(equity, params.maxNotionalPerPositionPct) }

  function PositionSize(entryPrice: real, stopPrice: real, equity: real, params: Params): int
    requires entryPrice > 0.0
  {
    LotsWithin(Product(equity, params.riskPerTradePct), Product(equity, params.maxNotionalPerPositionPct),
               entryPrice, stopPrice, params.lotSize)
  }

  function MaterializeEntry(t: Template, equity: real, params: Params, rank: int,
      count: int): (r: Option<EntryCandidate>)
    ensures r.Some? ==> r.value.template == t && r.value.quantity > 0
  {
    var quantity := PositionSize(t.entryPrice, t.stopPrice, equity, params);
    if quantity <= 0 then None else Some(EntryCandidate(t, quantity, rank, count))
  }

  /** q shares at the given cost per share stay within the budget. */
  predicate Fits(q: int, perShare: real, budget: real) {
    q as real * perShare <= budget
  }

  lemma FloorWithin(budget: real, unit: real, q: int)
    requires unit > 0.0
    ensures q <= (budget / unit).Floor <==> Fits(q, unit, budget)
  {
    var ratio := budget / unit;
    assert ratio * unit == budget;
    if q <= ratio.Floor {
      assert q as real <= ratio;
      assert q as real * unit <= ratio * unit;
    } else {
      assert q as real > ratio;
      assert q as real * unit > ratio * unit;
    }
  }

  /** q is a whole number of lots, fits both budgets, and one more lot does not. */
  predicate LargestFit(risk: real, perShare: real, notional: real, price: real, lot: Positive, q: int) {
    && q % lot == 0
    && Fits(q, perShare, risk) && Fits(q, price, notional)
    && !(Fits(q + lot, perShare, risk) && Fits(q + lot, price, notional))
  }

  /** A position has a positive size exactly when its stop is below its entry, and the size is
      the largest whole number of lots within the risk budget and the notional cap. */
  lemma {:induction false} LotsWithinMaximal(risk: real, notional: real, entryPrice: real, stopPrice: real,
      lot: Positive, q: int)
    requires entryPrice > 0.0 && q > 0
    ensures q == LotsWithin(risk, notional, entryPrice, stopPrice, lot) <==>
            stopPrice < entryPrice && LargestFit(risk, entryPrice - stopPrice, notional, entryPrice, lot, q)
  {
    var unit := entryPrice - stopPrice;
    if unit > 0.0 {
      var r, n := (risk / unit).Floor, (notional / entryPrice).Floor;
      FloorWithin(risk, unit, q);
      FloorWithin(risk, unit, q + lot);
      FloorWithin(notional, entryPrice, q);
      FloorWithin(notional, entryPrice, q + lot);
      var m := MinInt(r, n);
      assert q <= m <==> Fits(q, unit, risk) && Fits(q, entryPrice, notional);
      assert q + lot <= m <==> Fits(q + lot, unit, risk) && Fits(q + lot, entryPrice, notional);
      LotRounding(m, lot, q);
    }
  }

  /** There is a size exactly when the stop is below the entry and one lot fits both budgets. */
  lemma {:induction false} OneLotFits(risk: real, notional: real, entryPrice: real, stopPrice: real, lot: Positive)
    requires entryPrice > 0.0
    ensures LotsWithin(risk, notional, entryPrice, stopPrice, lot) > 0 <==>
            stopPrice < entryPrice && Fits(lot, entryPrice - stopPrice, risk) && Fits(lot, entryPrice, notional)
  {
    var unit := entryPrice - stopPrice;
    if unit > 0.0 {
      FloorWithin(risk, unit, lot);
      FloorWithin(notional, entryPrice, lot);
      WholeLots(MinInt((risk / unit).Floor, (notional / entryPrice).Floor), lot);
    }
  }

  lemma WholeLots(m: int, lot: int)
    requires lot >= 1
    ensures m / lot * lot > 0 <==> m >= lot
  {
    assert m == m / lot * lot + m % lot;
    if m / lot >= 1 {
      MultipleAtLeast(m / lot, lot);
    } else {
      assert m / lot * lot <= 0;
    }
  }

  /** A template becomes a candidate exactly when one lot is affordable, and the candidate's size is
      the largest number of lots within both budgets. */
  lemma MaterializedSize(t: Template, equity: real, params: Params, rank: int, count: int)
    ensures var (r, unit) := (MaterializeEntry(t, equity, params, rank, count), RiskPerShare(t));
            var (risk, cap) := (RiskBudget(equity, params), NotionalCap(equity, params));
            && (r.Some? <==> unit > 0.0 && Fits(params.lotSize, unit, risk)
                             && Fits(params.lotSize, t.entryPrice, cap))
            && (r.Some? ==> LargestFit(risk, unit, cap, t.entryPrice, params.lotSize, r.value.quantity)
                            && r.value.rankedPosition == rank && r.value.candidateCount == count)
  {
    OneLotFits(RiskBudget(equity, params), NotionalCap(equity, params), t.entryPrice, t.stopPrice, params.lotSize);
    var r := MaterializeEntry(t, equity, params, rank, count);
    if r.Some? {
      PositionSizeMaximal(t.entryPrice, t.stopPrice, equity, params, r.value.quantity);
    }
  }

  lemma PositionSizeMaximal(entryPrice: real, stopPrice: real, equity: real, params: Params, q: int)
    requires entryPrice > 0.0 && q > 0
    ensures q == PositionSize(entryPrice, stopPrice, equity, params) <==>
            stopPrice < entryPrice &&
            LargestFit(RiskBudget(equity, params), entryPrice - stopPrice,
                       NotionalCap(equity, params), entryPrice, params.lotSize, q)
  {
    LotsWithinMaximal(RiskBudget(equity, params), NotionalCap(equity, params),
                      entryPrice, stopPrice, params.lotSize, q);
  }

  lemma {:induction false} LotRounding(m: int, lot: int, q: int)
    requires lot >= 1
    ensures q == m / lot * lot <==> q % lot == 0 && q <= m < q + lot
  {
    assert m == m / lot * lot + m % lot;
    if q % lot == 0 && q <= m < q + lot {
      assert q == q / lot * lot;
      QuotientUnique(m, lot, q / lot, m - q);
    } else if q == m / lot * lot {
      assert q == q / lot * lot + q % lot;
      QuotientUnique(q, lot, m / lot, 0);
    }
  }

  lemma {:induction false} QuotientUnique(m: int, lot: int, k: int, r: int)
    requires lot >= 1 && m == k * lot + r && 0 <= r < lot
    ensures m / lot == k
  {
    var d := m / lot;
    assert m == d * lot + m % lot;
    if d > k {
      assert d * lot == k * lot + (d - k) * lot;
      MultipleAtLeast(d - k, lot);
    } else if d < k {
      assert k * lot == d * lot + (k - d) * lot;
      MultipleAtLeast(k - d, lot);
    }
  }

  lemma MultipleAtLeast(j: int, lot: int)
    requires j >= 1 && lot >= 1
    ensures j * lot >= lot
  {
  }
}
