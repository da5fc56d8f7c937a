/** The per-date view of the prepared bars, and the two ways of generating entry candidates:
    from pools built once for the whole run, and directly on each date. */
module SwingPools {
  import opened Prelude
  import opened Sorting
  import opened SwingTypes
  import opened SwingSignals

  // ---------------------------------------------------------------- bars by date

  ghost predicate ValidSeries(sr: BarSeries) {
    && |sr.bars| > 0
    && (forall i :: 0 <= i < |sr.bars| ==> sr.bars[i].symbol == sr.symbol)
    && StrictlyIncreasing(Dates(sr))
  }

  /** One series per symbol, one bar per date. */
  ghost predicate ValidPrepared(prepared: seq<BarSeries>) {
    && (forall i :: 0 <= i < |prepared| ==> ValidSeries(prepared[i]))
    && (forall i, j :: 0 <= i < j < |prepared| ==> prepared[i].symbol != prepared[j].symbol)
  }

  function Dates(sr: BarSeries): (ds: seq<Date>)
    ensures |ds| == |sr.bars|
    ensures forall i :: 0 <= i < |ds| ==> ds[i] == sr.bars[i].date
  {
    seq(|sr.bars|, i requires 0 <= i < |sr.bars| => sr.bars[i].date)
  }

  function BarOn(sr: BarSeries, d: Date): (b: Option<Bar>)
    ensures b.Some? <==> d in Dates(sr)
    ensures b.Some? ==> b.value == sr.bars[IndexOf(Dates(sr), d)] && b.value.date == d
  {
    if d in Dates(sr) then Some(sr.bars[IndexOf(Dates(sr), d)]) else None
  }

  function OnDate(d: Date): BarSeries -> Option<Bar> {
    sr => BarOn(sr, d)
  }

  /** The bars of one date, in the symbol order of the prepared data. */
  function Today(prepared: seq<BarSeries>, d: Date): seq<Bar> {
    FilterMap(OnDate(d), prepared)
  }

  function SeriesOf(prepared: seq<BarSeries>, symbol: Symbol): (r: Option<BarSeries>)
    ensures r.Some? ==> r.value in prepared && r.value.symbol == symbol
    ensures r.None? ==> forall i :: 0 <= i < |prepared| ==> prepared[i].symbol != symbol
  {
    if prepared == [] then None
    else if prepared[0].symbol == symbol then Some(prepared[0])
    else SeriesOf(prepared[1..], symbol)
  }

  function PreviousIn(sr: BarSeries, d: Date): Option<Bar> {
    if d in Dates(sr) && IndexOf(Dates(sr), d) > 0 then Some(sr.bars[IndexOf(Dates(sr), d) - 1]) else None
  }

  /** The bar of the symbol just before the one dated d. */
  function Previous(prepared: seq<BarSeries>, symbol: Symbol, d: Date): Option<Bar> {
    if SeriesOf(prepared, symbol).None? then None else PreviousIn(SeriesOf(prepared, symbol).value, d)
  }

  function MarketOn(prepared: seq<BarSeries>, d: Date): Option<MarketContext> {
    if Today(prepared, d) == [] then None else Some(MarketContextOf(d, Today(prepared, d)))
  }

  function AllDates(prepared: seq<BarSeries>): (s: set<Date>)
    ensures forall d :: d in s <==> exists i :: 0 <= i < |prepared| && d in Dates(prepared[i])
  {
    set i, d | 0 <= i < |prepared| && d in Dates(prepared[i]) :: d
  }

  predicate Listed(prepared: seq<BarSeries>, symbol: Symbol, d: Date) {
    SeriesOf(prepared, symbol).Some? && d in Dates(SeriesOf(prepared, symbol).value)
  }

  /** All dates on which some symbol has a bar, in increasing order. */
  ghost predicate IsCalendar(prepared: seq<BarSeries>, cal: seq<Date>) {
    StrictlyIncreasing(cal) && forall d :: d in cal <==> d in AllDates(prepared)
  }

  lemma SeriesUnique(prepared: seq<BarSeries>, i: nat)
    requires ValidPrepared(prepared) && i < |prepared|
    ensures SeriesOf(prepared, prepared[i].symbol) == Some(prepared[i])
  {
  }

  lemma IncreasingIndex(ds: seq<Date>, i: nat)
    requires StrictlyIncreasing(ds) && i < |ds|
    ensures IndexOf(ds, ds[i]) == i
  {
  }

  function BarSymbol(b: Bar): int { b.symbol }
  function TemplateSymbol(t: Template): int { t.symbol }
  function CandidateSymbol(c: EntryCandidate): int { c.Symbol() }
  function SeriesSymbol(sr: BarSeries): int { sr.symbol }

  lemma TodayMember(prepared: seq<BarSeries>, d: Date, b: Bar)
    requires ValidPrepared(prepared)
    ensures b in Today(prepared, d) <==>
              b.date == d && SeriesOf(prepared, b.symbol).Some? &&
              BarOn(SeriesOf(prepared, b.symbol).value, d) == Some(b)
  {
    FilterMapMember(OnDate(d), prepared, b);
    if b in Today(prepared, d) {
      var sr :| sr in prepared && OnDate(d)(sr) == Some(b);
      var i :| 0 <= i < |prepared| && prepared[i] == sr;
      assert BarOn(sr, d) == Some(b);
      assert b.symbol == sr.symbol;
      SeriesUnique(prepared, i);
    }
    if b.date == d && SeriesOf(prepared, b.symbol).Some? && BarOn(SeriesOf(prepared, b.symbol).value, d) == Some(b) {
      var sr := SeriesOf(prepared, b.symbol).value;
      assert sr in prepared && OnDate(d)(sr) == Some(b);
    }
  }

  lemma TodayDistinct(prepared: seq<BarSeries>, d: Date)
    requires ValidPrepared(prepared)
    ensures DistinctBy(BarSymbol, Today(prepared, d))
  {
    forall sr | sr in prepared && OnDate(d)(sr).Some? ensures BarSymbol(OnDate(d)(sr).value) == SeriesSymbol(sr) {
      var i :| 0 <= i < |prepared| && prepared[i] == sr;
      assert ValidSeries(prepared[i]);
    }
    DistinctFilterMap(OnDate(d), SeriesSymbol, BarSymbol, prepared);
  }

  // ---------------------------------------------------------------- pools

  predicate BySymbol(a: Bar, b: Bar) { a.symbol <= b.symbol }

  /** Descending score, then symbol. */
  predicate ByScore(a: Template, b: Template) {
    a.score > b.score || (a.score == b.score && a.symbol <= b.symbol)
  }

  function TodayBySymbol(prepared: seq<BarSeries>, d: Date): seq<Bar> {
    Sort(BySymbol, Today(prepared, d))
  }

  function SignalTemplate(prepared: seq<BarSeries>, params: Params, bar: Bar): (r: Option<Template>)
    ensures r.Some? ==> r.value.symbol == bar.symbol && r.value.entryDate == bar.date
  {
    var signal := Previous(prepared, bar.symbol, bar.date);
    if signal.None? || !IsEntrySignal(signal.value, params) then None
    else
      var market := MarketOn(prepared, signal.value.date);
      if !IsMarketContextAllowed(market, params) then None
      else EntryTemplateOf(bar, signal.value, market, params, true)
  }

  function TradableTemplate(prepared: seq<BarSeries>, params: Params, bar: Bar): (r: Option<Template>)
    ensures r.Some? ==> r.value.symbol == bar.symbol && r.value.entryDate == bar.date
  {
    var signal := Previous(prepared, bar.symbol, bar.date);
    if signal.None? || !IsRandomBaselineTradable(signal.value, params) then None
    else EntryTemplateOf(bar, signal.value, MarketOn(prepared, signal.value.date), params, false)
  }

  function ToSignal(prepared: seq<BarSeries>, params: Params): Bar -> Option<Template> {
    (bar: Bar) => SignalTemplate(prepared, params, bar)
  }

  function ToTradable(prepared: seq<BarSeries>, params: Params): Bar -> Option<Template> {
    (bar: Bar) => TradableTemplate(prepared, params, bar)
  }

  function SignalPool(prepared: seq<BarSeries>, params: Params, d: Date): seq<Template> {
    Sort(ByScore, FilterMap(ToSignal(prepared, params), TodayBySymbol(prepared, d)))
  }

  function TradablePool(prepared: seq<BarSeries>, params: Params, d: Date): seq<Template> {
    FilterMap(ToTradable(prepared, params), TodayBySymbol(prepared, d))
  }

  // ---------------------------------------------------------------- candidates from the pools

  predicate Held(positions: seq<Position>, symbol: Symbol) {
    exists i :: 0 <= i < |positions| && positions[i].Symbol() == symbol
  }

  function IfNotHeld(positions: seq<Position>): Template -> Option<Template> {
    (t: Template) => if Held(positions, t.symbol) then None else Some(t)
  }

  function MaterializeRanked(ts: seq<Template>, equity: real, params: Params, rank: int,
      count: int): seq<EntryCandidate> {
    if ts == [] then []
    else
      var c := MaterializeEntry(ts[0], equity, params, rank, count);
      var rest := MaterializeRanked(ts[1..], equity, params, rank + 1, count);
      if c.Some? then [c.value] + rest else rest
  }

  function SignalCandidatesFromPool(pool: seq<Template>, equity: real, positions: seq<Position>, params: Params)
    : seq<EntryCandidate>
  {
    var available := FilterMap(IfNotHeld(positions), pool);
    MaterializeRanked(available, equity, params, 1, |available|)
  }

  function MaterializeFree(equity: real, positions: seq<Position>, params: Params): Template -> Option<EntryCandidate> {
    (t: Template) => if Held(positions, t.symbol) then None else MaterializeEntry(t, equity, params, 0, 0)
  }

  /** The universe baseline before its shuffle. */
  function UniverseCandidatesFromPool(pool: seq<Template>, equity: real, positions: seq<Position>, params: Params)
    : seq<EntryCandidate>
  {
    FilterMap(MaterializeFree(equity, positions, params), pool)
  }

  function Ranked(cs: seq<EntryCandidate>): (r: seq<EntryCandidate>)
    ensures |r| == |cs|
    ensures forall i :: 0 <= i < |cs| ==> r[i] == cs[i].(rankedPosition := i + 1, candidateCount := |cs|)
  {
    seq(|cs|, i requires 0 <= i < |cs| => cs[i].(rankedPosition := i + 1, candidateCount := |cs|))
  }

  predicate ByCandidateSymbol(a: EntryCandidate, b: EntryCandidate) { a.Symbol() <= b.Symbol() }

  function Counter(symbols: seq<Symbol>): map<Symbol, nat> {
    map s | s in symbols :: multiset(symbols)[s]
  }

  function CountIn(counts: map<Symbol, nat>, s: Symbol): nat {
    if s in counts then counts[s] else 0
  }

  function Copies(c: EntryCandidate, n: nat): seq<EntryCandidate> {
    seq(n, _ => c)
  }

  function ScheduledFromPool(pool: seq<Template>, counts: map<Symbol, nat>, equity: real, positions: seq<Position>,
                             params: Params): seq<EntryCandidate>
  {
    if pool == [] then []
    else
      var t := pool[0];
      var remaining := CountIn(counts, t.symbol);
      if remaining <= 0 || Held(positions, t.symbol)
      then ScheduledFromPool(pool[1..], counts, equity, positions, params)
      else
        var c := MaterializeEntry(t, equity, params, 0, 0);
        var rest := ScheduledFromPool(pool[1..], counts[t.symbol := 0], equity, positions, params);
        if c.Some? then Copies(c.value, remaining) + rest else rest
  }

  function ScheduledCandidatesFromPool(pool: seq<Template>, equity: real, positions: seq<Position>, params: Params,
                                       scheduled: seq<Symbol>): seq<EntryCandidate>
  {
    if scheduled == [] then []
    else Ranked(Sort(ByCandidateSymbol, ScheduledFromPool(pool, Counter(scheduled), equity, positions, params)))
  }

  // ---------------------------------------------------------------- candidates generated directly

  function DirectCandidate(prepared: seq<BarSeries>, equity: real, positions: seq<Position>, params: Params,
                           bar: Bar): Option<EntryCandidate>
  {
    if Held(positions, bar.symbol) then None
    else
      var signal := Previous(prepared, bar.symbol, bar.date);
      if signal.None? || !IsEntrySignal(signal.value, params) then None
      else
        var market := MarketOn(prepared, signal.value.date);
        if !IsMarketContextAllowed(market, params) then None
        else SignalledCandidate(bar, signal.value, market, equity, params)
  }

  function SignalledCandidate(bar: Bar, s: Bar, market: Option<MarketContext>, equity: real, params: Params)
    : Option<EntryCandidate>
    requires IsEntrySignal(s, params)
  {
    if s.atr.None? || s.atr.value <= 0.0 then None
    else
      var gap := bar.open / s.close - 1.0;
      if params.minEntryGapPct.Some? && gap < params.minEntryGapPct.value then None
      else if params.maxEntryGapPct.Some? && gap >= params.maxEntryGapPct.value then None
      else
        var stopDistance := s.atr.value * params.stopAtrMultiple;
        var stopPrice := bar.open - stopDistance;
        if stopPrice <= 0.0 then None
        else
          var quantity := PositionSize(bar.open, stopPrice, equity, params);
          if quantity <= 0 then None
          else Some(EntryCandidate(
            EntryTemplate(bar.symbol, s.date, s.close, s.smaShort.value, s.atr.value / s.close,
                          s.return20d.value, s.avgTurnover.value, gap, bar.date, bar.open, stopPrice,
                          bar.open + stopDistance * params.targetRMultiple, EntryScore(s, params), market),
            quantity, 0, 0))
  }

  function RandomBaselineCandidate(prepared: seq<BarSeries>, equity: real, positions: seq<Position>, params: Params,
                                   bar: Bar): Option<EntryCandidate>
  {
    if Held(positions, bar.symbol) then None
    else
      var signal := Previous(prepared, bar.symbol, bar.date);
      if signal.None? || !IsRandomBaselineTradable(signal.value, params) then None
      else TradableCandidate(bar, signal.value, MarketOn(prepared, signal.value.date), equity, params)
  }

  function TradableCandidate(bar: Bar, s: Bar, market: Option<MarketContext>, equity: real, params: Params)
    : Option<EntryCandidate>
    requires IsRandomBaselineTradable(s, params)
  {
    var stopDistance := s.atr.value * params.stopAtrMultiple;
    var stopPrice := bar.open - stopDistance;
    if stopPrice <= 0.0 then None
    else
      var quantity := PositionSize(bar.open, stopPrice, equity, params);
      if quantity <= 0 then None
      else Some(EntryCandidate(
        EntryTemplate(bar.symbol, s.date, s.close, s.smaShort.value, s.atr.value / s.close,
                      s.return20d.value, s.avgTurnover.value, bar.open / s.close - 1.0, bar.date, bar.open,
                      stopPrice, bar.open + stopDistance * params.targetRMultiple, TrendPullbackScore(s), market),
        quantity, 0, 0))
  }

  function ToDirect(prepared: seq<BarSeries>, equity: real, positions: seq<Position>, params: Params)
    : Bar -> Option<EntryCandidate>
  {
    (bar: Bar) => DirectCandidate(prepared, equity, positions, params, bar)
  }

  function ToRandomBaseline(prepared: seq<BarSeries>, equity: real, positions: seq<Position>, params: Params)
    : Bar -> Option<EntryCandidate>
  {
    (bar: Bar) => RandomBaselineCandidate(prepared, equity, positions, params, bar)
  }

  predicate ByCandidateScore(a: EntryCandidate, b: EntryCandidate) { ByScore(a.template, b.template) }

  function EntryCandidates(prepared: seq<BarSeries>, d: Date, equity: real, positions: seq<Position>, params: Params)
    : seq<EntryCandidate>
  {
    Ranked(Sort(ByCandidateScore, FilterMap(ToDirect(prepared, equity, positions, params), Today(prepared, d))))
  }

  /** The universe baseline before its shuffle. */
  function UniverseCandidates(prepared: seq<BarSeries>, d: Date, equity: real, positions: seq<Position>, params: Params)
    : seq<EntryCandidate>
  {
    FilterMap(ToRandomBaseline(prepared, equity, positions, params), TodayBySymbol(prepared, d))
  }

  function BaselineForSymbol(prepared: seq<BarSeries>, d: Date, equity: real, positions: seq<Position>, params: Params)
    : Symbol -> Option<EntryCandidate>
  {
    symbol =>
      var sr := SeriesOf(prepared, symbol);
      if sr.None? || BarOn(sr.value, d).None? then None
      else RandomBaselineCandidate(prepared, equity, positions, params, BarOn(sr.value, d).value)
  }

  function ScheduledCandidates(prepared: seq<BarSeries>, d: Date, equity: real, positions: seq<Position>,
                               params: Params, scheduled: seq<Symbol>): seq<EntryCandidate>
  {
    Ranked(Sort(ByCandidateSymbol, FilterMap(BaselineForSymbol(prepared, d, equity, positions, params), scheduled)))
  }
}
