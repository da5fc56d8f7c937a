/** Records of the daily swing backtester. Symbols and dates are integers: only their order
    and equality are used. Prices and money are reals. The fields that the program copies from
    template to candidate to position to trade are nested here instead of copied. */
module SwingTypes {
  import opened Prelude

  type Symbol = int
  type Date = int
  type Positive = n: int | n >= 1 witness 1

  datatype EntryMode = TrendPullback | BreakoutContinuation | VolatilityContraction

  datatype ExitMode = TargetStopMaxHold | FixedHold

  datatype Params = Params(
    entryMode: EntryMode,
    smaShortPeriod: Positive,
    smaLongPeriod: Positive,
    smaLongSlopeLookback: nat,
    atrPeriod: Positive,
    avgTurnoverPeriod: Positive,
    minAvgTurnover: real,
    maxAvgTurnover: Option<real>,
    minPrice: real,
    maxPrice: real,
    minReturn20d: real,
    maxReturn20d: Option<real>,
    minReturn60d: Option<real>,
    pullbackLookback: int,
    pullbackSmaTolerance: real,
    maxDistanceAboveSmaShort: real,
    minAtrPct: real,
    maxAtrPct: real,
    breakoutLookback: Positive,
    breakoutBufferPct: real,
    minTurnoverMultiple: Option<real>,
    maxPriorRange20dPct: Option<real>,
    minPriorRange20dPosition: Option<real>,
    minEntryGapPct: Option<real>,
    maxEntryGapPct: Option<real>,
    blockedMarketMin: Option<real>,
    blockedMarketMax: Option<real>,
    stopAtrMultiple: real,
    targetRMultiple: real,
    maxHoldDays: nat,
    exitMode: ExitMode,
    startingCapital: real,
    riskPerTradePct: real,
    maxNotionalPerPositionPct: real,
    maxPositions: int,
    maxNewPositionsPerDay: Option<int>,
    lotSize: Positive,
    commissionRate: real,
    slippageRate: real)

  datatype ExecutionStress = ExecutionStress(
    exitBeforeEntryAtOpen: bool,
    limitDownUnfillable: bool,
    limitDownThresholdPct: real,
    gapStopAdditionalSlippageRate: real)

  datatype OhlcvRow = OhlcvRow(date: Date, open: real, high: real, low: real, close: real, turnover: real)

  /** A daily row of market data: quoted prices are positive. */
  type Row = r: OhlcvRow | r.open > 0.0 && r.high > 0.0 && r.low > 0.0 && r.close > 0.0
    witness OhlcvRow(0, 1.0, 1.0, 1.0, 1.0, 0.0)

  datatype PreparedBar = PreparedBar(
    symbol: Symbol,
    date: Date,
    open: real,
    high: real,
    low: real,
    close: real,
    turnover: real,
    smaShort: Option<real>,
    smaLong: Option<real>,
    smaLongPast: Option<real>,
    atr: Option<real>,
    avgTurnover: Option<real>,
    return5d: Option<real>,
    return20d: Option<real>,
    return60d: Option<real>,
    touchedSmaShortRecently: bool,
    priorHighBreakout: Option<real>,
    priorRange20dPct: Option<real>,
    priorRange20dPosition: Option<real>)

  ghost predicate PositivePrices(b: PreparedBar) {
    && b.open > 0.0 && b.close > 0.0
    && (b.smaShort.Some? ==> b.smaShort.value > 0.0)
    && (b.priorHighBreakout.Some? ==> b.priorHighBreakout.value > 0.0)
  }

  type Bar = b: PreparedBar | PositivePrices(b)
    ghost witness PreparedBar(0, 0, 1.0, 1.0, 1.0, 1.0, 0.0, None, None, None, None, None, None, None, None,
                              false, None, None, None)

  datatype Series = Series(symbol: Symbol, rows: seq<Row>)

  datatype BarSeries = BarSeries(symbol: Symbol, bars: seq<Bar>)

  datatype MarketRegime = BroadUptrend | NarrowLeadership | TransitionChop | BroadDowntrend

  datatype MarketContext = MarketContext(
    date: Date,
    closeAboveSma20Ratio: Option<real>,
    trendBreadthRatio: Option<real>,
    positiveReturn5dRatio: Option<real>,
    avgReturn5d: Option<real>,
    positiveReturn20dRatio: Option<real>,
    avgReturn20d: Option<real>,
    positiveReturn60dRatio: Option<real>,
    avgReturn60d: Option<real>,
    regime: MarketRegime)

  datatype EntryTemplate = EntryTemplate(
    symbol: Symbol,
    signalDate: Date,
    signalClose: real,
    signalSmaShort: real,
    signalAtrPct: real,
    signalReturn20d: real,
    signalAvgTurnover: real,
    entryGapPct: real,
    entryDate: Date,
    entryPrice: real,
    stopPrice: real,
    targetPrice: real,
    score: real,
    market: Option<MarketContext>)

  /** Templates are built at the open of a bar, so their entry price is positive. */
  type Template = t: EntryTemplate | t.entryPrice > 0.0
    witness EntryTemplate(0, 0, 1.0, 1.0, 0.0, 0.0, 0.0, 0.0, 0, 1.0, 1.0, 1.0, 0.0, None)

  datatype EntryCandidate = EntryCandidate(
    template: Template,
    quantity: int,
    rankedPosition: int,
    candidateCount: int)
  {
    function Symbol(): Symbol { template.symbol }

    function Notional(): real { template.entryPrice * quantity as real }
  }

  datatype Position = Position(entry: EntryCandidate, maxExitDate: Date) {
    function Symbol(): Symbol { entry.template.symbol }

    function EntryDate(): Date { entry.template.entryDate }
  }

  datatype ExitReason =
    | FixedHoldExit
    | LimitDownUnfillableGapStop
    | GapStop
    | Stop
    | Target
    | MaxHold
    | EndOfData

  datatype Trade = Trade(
    position: Position,
    exitDate: Date,
    exitPrice: real,
    reason: ExitReason,
    grossPnl: real,
    costs: real,
    netPnl: real)

  /** The order in which trades are reported. */
  predicate ByExit(a: Trade, b: Trade) {
    a.exitDate < b.exitDate || (a.exitDate == b.exitDate && a.position.Symbol() <= b.position.Symbol())
  }
}
