/** The random-date baseline: every signal that fills a lot at the starting capital is moved to a
    random date on which its symbol is tradable. The schedule is drawn once, before the day loop. */
module SwingSchedule {
  import opened Prelude
  import opened Sorting
  import opened SwingTypes
  import opened SwingSignals
  import opened SwingPools
  import opened SwingPooledGeneration
  import opened SwingEntries

  // ---------------------------------------------------------------- dictionary order

  /** The keys of an insertion-ordered dictionary after it received xs as well. */
  function Enter(keys: seq<int>, xs: seq<int>): (r: seq<int>)
    ensures forall x :: x in r <==> x in keys || x in xs
    ensures (forall i, j :: 0 <= i < j < |keys| ==> keys[i] != keys[j]) ==>
              forall i, j :: 0 <= i < j < |r| ==> r[i] != r[j]
  {
    if xs == [] then keys
    else
      var before, x := Enter(keys, xs[..|xs| - 1]), xs[|xs| - 1];
      assert xs == xs[..|xs| - 1] + [x];
      if x in before then before else before + [x]
  }

  function FirstSeen(xs: seq<int>): (keys: seq<int>)
    ensures forall x :: x in keys <==> x in xs
    ensures forall i, j :: 0 <= i < j < |keys| ==> keys[i] != keys[j]
  {
    Enter([], xs)
  }

  lemma {:induction false} FirstSeenDistinct(xs: seq<int>)
    requires forall i, j :: 0 <= i < j < |xs| ==> xs[i] != xs[j]
    ensures FirstSeen(xs) == xs
    decreases |xs|
  {
    if xs == [] {
    } else {
      FirstSeenDistinct(xs[..|xs| - 1]);
    }
  }

  /** The dates in the order in which the bars bring them up: not sorted in general. */
  function DateOrder(prepared: seq<BarSeries>): seq<Date> {
    if prepared == [] then []
    else Enter(DateOrder(prepared[..|prepared| - 1]), Dates(prepared[|prepared| - 1]))
  }

  lemma {:induction false} DateOrderMember(prepared: seq<BarSeries>, d: Date)
    ensures d in DateOrder(prepared) <==> d in AllDates(prepared)
    decreases |prepared|
  {
    if prepared == [] {
    } else {
      var n := |prepared| - 1;
      DateOrderMember(prepared[..n], d);
      assert d in AllDates(prepared) <==> d in AllDates(prepared[..n]) || d in Dates(prepared[n]) by {
        if d in AllDates(prepared[..n]) {
          var i :| 0 <= i < n && d in Dates(prepared[..n][i]);
          assert d in Dates(prepared[i]);
        }
        if i :| 0 <= i < |prepared| && d in Dates(prepared[i]) {
          assert i == n || d in Dates(prepared[..n][i]);
        }
      }
    }
  }

  // ---------------------------------------------------------------- demand

  /** The templates of each date. */
  type Pool = Date -> seq<Template>

  function Signals(prepared: seq<BarSeries>, params: Params): Pool {
    (d: Date) => SignalPool(prepared, params, d)
  }

  function Tradables(prepared: seq<BarSeries>, params: Params): Pool {
    (d: Date) => TradablePool(prepared, params, d)
  }

  function SizedSymbol(params: Params): Template -> Option<Symbol> {
    (t: Template) =>
      if MaterializeEntry(t, params.startingCapital, params, 0, 0).Some? then Some(t.symbol) else None
  }

  /** The symbol of every signal that fills a lot at the starting capital, date by date. */
  function SignalSymbols(signals: Pool, params: Params, dates: seq<Date>): seq<Symbol> {
    if dates == [] then []
    else
      var n := |dates| - 1;
      SignalSymbols(signals, params, dates[..n]) + FilterMap(SizedSymbol(params), signals(dates[n]))
  }

  predicate HasTemplate(pool: seq<Template>, s: Symbol) {
    exists i :: 0 <= i < |pool| && pool[i].symbol == s
  }

  function DateIfTradable(tradables: Pool, s: Symbol): Date -> Option<Date> {
    (d: Date) => if HasTemplate(tradables(d), s) then Some(d) else None
  }

  /** The dates on which the symbol is tradable. */
  function TradableDates(tradables: Pool, dates: seq<Date>, s: Symbol): seq<Date> {
    FilterMap(DateIfTradable(tradables, s), dates)
  }

  // ---------------------------------------------------------------- the schedule

  datatype Placement = Placement(date: Date, symbol: Symbol)

  /** Drawing n times from the dates; nothing is drawn from an empty list. */
  function Draws(o: Oracle, rng: int, s: Symbol, dates: seq<Date>, n: nat): (int, seq<Placement>) {
    if n == 0 || dates == [] then (rng, [])
    else
      var (before, placed) := Draws(o, rng, s, dates, n - 1);
      var (after, d) := o.choice(before, dates);
      (after, placed + [Placement(d, s)])
  }

  /** What is drawn for a symbol from a generator state. */
  type Drawing = (int, Symbol) -> (int, seq<Placement>)

  /** Every symbol is drawn as often as it was signalled, from the dates on which it is tradable. */
  function DrawSignals(o: Oracle, signalled: seq<Symbol>, tradable: Symbol -> seq<Date>): Drawing {
    (rng: int, s: Symbol) => Draws(o, rng, s, tradable(s), multiset(signalled)[s])
  }

  /** The draws of the symbols one after the other. */
  function Placements(draw: Drawing, rng: int, symbols: seq<Symbol>): (int, seq<Placement>) {
    if symbols == [] then (rng, [])
    else
      var n := |symbols| - 1;
      var (before, placed) := Placements(draw, rng, symbols[..n]);
      var (after, more) := draw(before, symbols[n]);
      (after, placed + more)
  }

  function SymbolsOn(schedule: map<Date, seq<Symbol>>, d: Date): seq<Symbol> {
    if d in schedule then schedule[d] else []
  }

  function Place(schedule: map<Date, seq<Symbol>>, p: Placement): map<Date, seq<Symbol>> {
    schedule[p.date := SymbolsOn(schedule, p.date) + [p.symbol]]
  }

  function ScheduleOf(placements: seq<Placement>): map<Date, seq<Symbol>> {
    if placements == [] then map[]
    else Place(ScheduleOf(placements[..|placements| - 1]), placements[|placements| - 1])
  }

  function TradableOf(tradables: Pool, dates: seq<Date>): Symbol -> seq<Date> {
    (s: Symbol) => TradableDates(tradables, dates, s)
  }

  function DrawAll(o: Oracle, seed: int, signalled: seq<Symbol>, tradable: Symbol -> seq<Date>): seq<Placement> {
    Placements(DrawSignals(o, signalled, tradable), seed, FirstSeen(signalled)).1
  }

  /** All placements for the prepared bars. */
  function PlacementsFor(prepared: seq<BarSeries>, params: Params, o: Oracle, seed: int): seq<Placement> {
    var dates := DateOrder(prepared);
    DrawAll(o, seed, SignalSymbols(Signals(prepared, params), params, dates),
            TradableOf(Tradables(prepared, params), dates))
  }

  /** What a caller chooses besides the data, the stress settings and the seed. */
  datatype Options = Options(params: Params, kind: BaselineKind, selection: SelectionMode, oracle: Oracle)

  /** The program's configuration: only the random-date baseline has a schedule. */
  function ConfigOf(prepared: seq<BarSeries>, options: Options, seed: int): Config {
    Config(prepared, options.params, options.kind, options.selection, options.oracle,
           if options.kind.SymbolMatchedRandomDate?
           then ScheduleOf(PlacementsFor(prepared, options.params, options.oracle, seed)) else map[])
  }

  // ---------------------------------------------------------------- what the schedule holds

  function OnDay(d: Date): Placement -> Option<Symbol> {
    (p: Placement) => if p.date == d then Some(p.symbol) else None
  }

  function SymbolOf(p: Placement): Option<Symbol> { Some(p.symbol) }

  /** A date's symbols are those placed on it, in drawing order. */
  lemma {:induction false} ScheduleHolds(placements: seq<Placement>, d: Date)
    ensures SymbolsOn(ScheduleOf(placements), d) == FilterMap(OnDay(d), placements)
    decreases |placements|
  {
    if placements == [] {
    } else {
      var n := |placements| - 1;
      ScheduleHolds(placements[..n], d);
      FilterMapConcat(OnDay(d), placements[..n], [placements[n]]);
      assert placements == placements[..n] + [placements[n]];
      assert [placements[n]][1..] == [];
    }
  }

  lemma {:induction false} DrawsAreTradable(o: Oracle, rng: int, s: Symbol, dates: seq<Date>, n: nat)
    requires ValidOracle(o)
    ensures forall p :: p in Draws(o, rng, s, dates, n).1 ==> p.symbol == s && p.date in dates
  {
    if n == 0 || dates == [] {
    } else {
      DrawsAreTradable(o, rng, s, dates, n - 1);
    }
  }

  /** How often a symbol is placed. */
  function Times(placed: seq<Placement>, x: Symbol): nat {
    if placed == [] then 0
    else Times(placed[..|placed| - 1], x) + if placed[|placed| - 1].symbol == x then 1 else 0
  }

  lemma {:induction false} TimesConcat(placed: seq<Placement>, more: seq<Placement>, x: Symbol)
    ensures Times(placed + more, x) == Times(placed, x) + Times(more, x)
    decreases |more|
  {
    if more == [] {
      assert placed + more == placed;
    } else {
      assert (placed + more)[..|placed + more| - 1] == placed + more[..|more| - 1];
      TimesConcat(placed, more[..|more| - 1], x);
    }
  }

  lemma {:induction false} TimesAmongSymbols(placed: seq<Placement>, x: Symbol)
    ensures multiset(FilterMap(SymbolOf, placed))[x] == Times(placed, x)
    decreases |placed|
  {
    if placed == [] {
    } else {
      var n := |placed| - 1;
      TimesAmongSymbols(placed[..n], x);
      assert placed == placed[..n] + [placed[n]] && [placed[n]][1..] == [];
      FilterMapConcat(SymbolOf, placed[..n], [placed[n]]);
    }
  }

  lemma {:induction false} DrawsOfSymbol(o: Oracle, rng: int, s: Symbol, dates: seq<Date>, n: nat, x: Symbol)
    ensures Times(Draws(o, rng, s, dates, n).1, x) == if x == s && dates != [] then n else 0
  {
    if n == 0 || dates == [] {
    } else {
      DrawsOfSymbol(o, rng, s, dates, n - 1, x);
    }
  }

  /** How often a symbol is placed when every draw yields its symbol a fixed number of times. */
  lemma {:induction false} TimesPlaced(draw: Drawing, times: Symbol -> nat, rng: int, symbols: seq<Symbol>, x: Symbol)
    requires forall r, s :: Times(draw(r, s).1, x) == if x == s then times(s) else 0
    requires forall i, j :: 0 <= i < j < |symbols| ==> symbols[i] != symbols[j]
    ensures Times(Placements(draw, rng, symbols).1, x) == if x in symbols then times(x) else 0
    decreases |symbols|
  {
    if symbols == [] {
    } else {
      var n := |symbols| - 1;
      var before, placed := Placements(draw, rng, symbols[..n]).0, Placements(draw, rng, symbols[..n]).1;
      TimesPlaced(draw, times, rng, symbols[..n], x);
      TimesConcat(placed, draw(before, symbols[n]).1, x);
      assert symbols == symbols[..n] + [symbols[n]];
    }
  }

  lemma {:induction false} PlacedWhenTradable(draw: Drawing, tradable: Symbol -> seq<Date>, rng: int,
                                              symbols: seq<Symbol>)
    requires forall r, s, p :: p in draw(r, s).1 ==> p.date in tradable(p.symbol)
    ensures forall p :: p in Placements(draw, rng, symbols).1 ==> p.date in tradable(p.symbol)
    decreases |symbols|
  {
    if symbols == [] {
    } else {
      PlacedWhenTradable(draw, tradable, rng, symbols[..|symbols| - 1]);
    }
  }

  /** A bar that signals is tradable: the random baseline applies fewer filters. */
  lemma SignalIsTradable(prepared: seq<BarSeries>, params: Params, bar: Bar)
    requires SignalTemplate(prepared, params, bar).Some?
    ensures TradableTemplate(prepared, params, bar).Some?
  {
    var signal := Previous(prepared, bar.symbol, bar.date).value;
    assert TrendBase(signal, params);
  }

  lemma {:induction false} SignalHasTradable(prepared: seq<BarSeries>, params: Params, d: Date, t: Template)
    requires t in SignalPool(prepared, params, d)
    ensures HasTemplate(TradablePool(prepared, params, d), t.symbol)
  {
    var bars, pool := TodayBySymbol(prepared, d), TradablePool(prepared, params, d);
    SameElements(SignalPool(prepared, params, d), FilterMap(ToSignal(prepared, params), bars));
    FilterMapMember(ToSignal(prepared, params), bars, t);
    var b: Bar :| b in bars && ToSignal(prepared, params)(b) == Some(t);
    SignalIsTradable(prepared, params, b);
    var u := TradableTemplate(prepared, params, b).value;
    assert ToTradable(prepared, params)(b) == Some(u);
    FilterMapMember(ToTradable(prepared, params), bars, u);
    var i :| 0 <= i < |pool| && pool[i] == u;
    assert pool[i].symbol == t.symbol;
  }

  lemma {:induction false} SignalledAreTradable(prepared: seq<BarSeries>, params: Params, dates: seq<Date>, s: Symbol)
    requires s in SignalSymbols(Signals(prepared, params), params, dates)
    ensures TradableDates(Tradables(prepared, params), dates, s) != []
    decreases |dates|
  {
    var n := |dates| - 1;
    if s in FilterMap(SizedSymbol(params), SignalPool(prepared, params, dates[n])) {
      SizedIsTradable(prepared, params, dates[n], s);
      LastDateCounts(DateIfTradable(Tradables(prepared, params), s), dates);
    } else {
      SignalledAreTradable(prepared, params, dates[..n], s);
      LastDateCounts(DateIfTradable(Tradables(prepared, params), s), dates);
    }
  }

  lemma SizedIsTradable(prepared: seq<BarSeries>, params: Params, d: Date, s: Symbol)
    requires s in FilterMap(SizedSymbol(params), SignalPool(prepared, params, d))
    ensures HasTemplate(TradablePool(prepared, params, d), s)
  {
    FilterMapMember(SizedSymbol(params), SignalPool(prepared, params, d), s);
    var t :| t in SignalPool(prepared, params, d) && SizedSymbol(params)(t) == Some(s);
    SignalHasTradable(prepared, params, d, t);
  }

  lemma LastDateCounts(f: Date -> Option<Date>, dates: seq<Date>)
    requires dates != []
    ensures FilterMap(f, dates) == [] <==> FilterMap(f, dates[..|dates| - 1]) == [] && f(dates[|dates| - 1]).None?
  {
    var n := |dates| - 1;
    assert dates == dates[..n] + [dates[n]];
    FilterMapConcat(f, dates[..n], [dates[n]]);
  }

  /** The baseline is matched by symbol: each symbol is scheduled exactly as often as it has signals
      that fill a lot at the starting capital, and only on dates on which it is tradable. */
  lemma {:induction false} ScheduleIsMatched(prepared: seq<BarSeries>, params: Params, o: Oracle, seed: int)
    requires ValidOracle(o)
    ensures var placements := PlacementsFor(prepared, params, o, seed);
            && multiset(FilterMap(SymbolOf, placements))
                 == multiset(SignalSymbols(Signals(prepared, params), params, DateOrder(prepared)))
            && forall p :: p in placements ==>
                 p.date in TradableDates(Tradables(prepared, params), DateOrder(prepared), p.symbol)
  {
    var dates := DateOrder(prepared);
    var signalled := SignalSymbols(Signals(prepared, params), params, dates);
    forall s | s in signalled ensures TradableDates(Tradables(prepared, params), dates, s) != [] {
      SignalledAreTradable(prepared, params, dates, s);
    }
    DrawsMatch(o, seed, signalled, TradableOf(Tradables(prepared, params), dates));
  }

  lemma {:induction false} DrawsMatch(o: Oracle, seed: int, signalled: seq<Symbol>, tradable: Symbol -> seq<Date>)
    requires ValidOracle(o) && forall s :: s in signalled ==> tradable(s) != []
    ensures multiset(FilterMap(SymbolOf, DrawAll(o, seed, signalled, tradable))) == multiset(signalled)
    ensures forall p :: p in DrawAll(o, seed, signalled, tradable) ==> p.date in tradable(p.symbol)
  {
    var draw := DrawSignals(o, signalled, tradable);
    forall r, s, p | p in draw(r, s).1 ensures p.date in tradable(p.symbol) {
      DrawsAreTradable(o, r, s, tradable(s), multiset(signalled)[s]);
    }
    PlacedWhenTradable(draw, tradable, seed, FirstSeen(signalled));
    var times: Symbol -> nat := s => if tradable(s) != [] then multiset(signalled)[s] else 0;
    forall x: Symbol
      ensures multiset(FilterMap(SymbolOf, DrawAll(o, seed, signalled, tradable)))[x] == multiset(signalled)[x]
    {
      forall r, s ensures Times(draw(r, s).1, x) == if x == s then times(s) else 0 {
        DrawsOfSymbol(o, r, s, tradable(s), multiset(signalled)[s], x);
      }
      TimesAmongSymbols(DrawAll(o, seed, signalled, tradable), x);
      TimesPlaced(draw, times, seed, FirstSeen(signalled), x);
    }
  }

  // ---------------------------------------------------------------- the universe baseline is matched by date

  /** A bar with a signal template has a tradable template of the same entry and stop. */
  lemma SameLevels(prepared: seq<BarSeries>, params: Params, bar: Bar)
    requires SignalTemplate(prepared, params, bar).Some?
    ensures TradableTemplate(prepared, params, bar).Some?
    ensures var t, u := SignalTemplate(prepared, params, bar).value, TradableTemplate(prepared, params, bar).value;
            t.symbol == u.symbol && t.entryPrice == u.entryPrice && t.stopPrice == u.stopPrice
  {
    SignalIsTradable(prepared, params, bar);
    var signal := Previous(prepared, bar.symbol, bar.date).value;
    var market := MarketOn(prepared, signal.date);
    TemplateArises(bar, signal, market, params, true);
    TemplateArises(bar, signal, market, params, false);
  }

  lemma SameSize(t: Template, u: Template, equity: real, positions: seq<Position>, params: Params)
    requires t.symbol == u.symbol && t.entryPrice == u.entryPrice && t.stopPrice == u.stopPrice
    requires MaterializeFree(equity, positions, params)(t).Some?
    ensures MaterializeFree(equity, positions, params)(u).Some?
  {
  }

  lemma {:induction false} SignalSizedIsTradableSized(prepared: seq<BarSeries>, equity: real, positions: seq<Position>,
                                                      params: Params, bar: Bar)
    requires DirectCandidate(prepared, equity, positions, params, bar).Some?
    ensures RandomBaselineCandidate(prepared, equity, positions, params, bar).Some?
  {
    DirectIsMaterialized(prepared, equity, positions, params, bar);
    BaselineIsMaterialized(prepared, equity, positions, params, bar);
    SameLevels(prepared, params, bar);
    SameSize(SignalTemplate(prepared, params, bar).value, TradableTemplate(prepared, params, bar).value, equity,
             positions, params);
  }

  lemma {:induction false} KeepsMore<A, B>(f: A -> Option<B>, g: A -> Option<B>, xs: seq<A>)
    requires forall x :: f(x).Some? ==> g(x).Some?
    ensures |FilterMap(f, xs)| <= |FilterMap(g, xs)|
    decreases |xs|
  {
    if xs == [] {
    } else {
      KeepsMore(f, g, xs[1..]);
    }
  }

  lemma {:induction false} UniverseOutnumbersSignals(prepared: seq<BarSeries>, d: Date, equity: real,
                                                     positions: seq<Position>, params: Params)
    requires ValidPrepared(prepared)
    ensures |SignalCandidatesFromPool(SignalPool(prepared, params, d), equity, positions, params)|
         <= |UniverseCandidatesFromPool(TradablePool(prepared, params, d), equity, positions, params)|
  {
    var f, g := ToDirect(prepared, equity, positions, params), ToRandomBaseline(prepared, equity, positions, params);
    forall b: Bar | f(b).Some? ensures g(b).Some? {
      SignalSizedIsTradableSized(prepared, equity, positions, params, b);
    }
    PooledSignalsMatchDirect(prepared, d, equity, positions, params);
    PooledUniverseMatchesDirect(prepared, d, equity, positions, params);
    UnrankedLength(SignalCandidatesFromPool(SignalPool(prepared, params, d), equity, positions, params),
                   EntryCandidates(prepared, d, equity, positions, params));
    SameElements(Sort(ByCandidateScore, FilterMap(f, Today(prepared, d))), FilterMap(f, Today(prepared, d)));
    FilterMapMultiset(f, Today(prepared, d), TodayBySymbol(prepared, d));
    SameElements(FilterMap(f, Today(prepared, d)), FilterMap(f, TodayBySymbol(prepared, d)));
    KeepsMore(f, g, TodayBySymbol(prepared, d));
  }

  lemma UnrankedLength(cs: seq<EntryCandidate>, cs': seq<EntryCandidate>)
    requires UnrankedAll(cs) == UnrankedAll(cs')
    ensures |cs| == |cs'|
  {
    assert |UnrankedAll(cs)| == |UnrankedAll(cs')|;
  }

  /** The baseline is matched by date: in every state it tries exactly as many candidates as the strategy
      does, for every selection order. */
  lemma {:induction false} UniverseIsMatched(c: Config, d: Date, equity: real, positions: seq<Position>, rng: int)
    requires ValidPrepared(c.prepared) && ValidOracle(c.oracle)
    ensures |EntriesOn(c.(kind := UniverseDateMatchedRandom), d, equity, positions, rng).1|
         == |EntriesOn(c.(kind := Strategy), d, equity, positions, rng).1|
  {
    var signals := SignalCandidatesFromPool(SignalPool(c.prepared, c.params, d), equity, positions, c.params);
    var pool := TradablePool(c.prepared, c.params, d);
    UniverseOutnumbersSignals(c.prepared, d, equity, positions, c.params);
    DrawsDesired(c.oracle, rng, pool, equity, positions, c.params, |signals|);
    var (rng', drawn) := UniverseRandom(c.oracle, rng, pool, equity, positions, c.params, |signals|);
    SameElements(OrderCandidates(c.oracle, rng, c.selection, signals).1, signals);
    SameElements(OrderCandidates(c.oracle, rng', c.selection, drawn).1, drawn);
  }

  lemma DrawsDesired(o: Oracle, rng: int, pool: seq<Template>, equity: real, positions: seq<Position>, params: Params,
                     desired: nat)
    requires ValidOracle(o) && desired <= |UniverseCandidatesFromPool(pool, equity, positions, params)|
    ensures |UniverseRandom(o, rng, pool, equity, positions, params, desired).1| == desired
  {
    var cs := UniverseCandidatesFromPool(pool, equity, positions, params);
    SameElements(o.shuffle(rng, cs).1, cs);
  }
}
