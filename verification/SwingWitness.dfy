/** Concrete runs that show how the backtester deviates from what one might expect: a random-date
    schedule that moves with later data and that loses a position, a position that only the end of
    the data closes, and pooled candidates ranked differently from the direct ones. */
module SwingWitness {
  import opened Prelude
  import opened Sorting
  import opened SwingTypes
  import opened SwingSignals
  import opened SwingPools
  import opened SwingPooledGeneration
  import opened SwingEntries
  import opened SwingSchedule
  import opened SwingEngine
  import opened SwingProgram
  import opened SwingScheduledOffers
  import opened SwingBookkeeping
  import opened SwingOverwrites
  import opened SwingCausality
  import opened SwingRamp

  // ---------------------------------------------------------------- the program

  /** A generator that leaves lists alone and always chooses the first date. */
  function FirstChoice(): Oracle {
    Oracle((d, s) => 0, (d, s) => 0, (rng, cs) => (rng, cs), (rng, ds) => (rng, if ds == [] then 0 else ds[0]))
  }

  function RampOptions(kind: BaselineKind): Options { Options(RampParams(), kind, RankedOrder, FirstChoice()) }

  function Stress(exitsFirst: bool): ExecutionStress { ExecutionStress(exitsFirst, false, 0.0, 0.0) }

  function Setup(sr: BarSeries, kind: BaselineKind, seed: int): Config { ConfigOf([sr], RampOptions(kind), seed) }

  function EnvOfRamp(sr: BarSeries, kind: BaselineKind, exitsFirst: bool, seed: int): Env {
    Program([sr], RampOptions(kind), Stress(exitsFirst), seed)
  }

  // ---------------------------------------------------------------- its schedule

  lemma {:induction false} NoSignalsUpTo(signals: Pool, params: Params, dates: seq<Date>, k: nat)
    requires k <= |dates| && forall i :: 0 <= i < k ==> signals(dates[i]) == []
    ensures SignalSymbols(signals, params, dates[..k]) == []
    decreases k
  {
    if k == 0 {
    } else {
      NoSignalsUpTo(signals, params, dates, k - 1);
      assert dates[..k][..k - 1] == dates[..k - 1];
    }
  }

  lemma SignalsNext(signals: Pool, params: Params, dates: seq<Date>, k: nat)
    requires k < |dates|
    ensures SignalSymbols(signals, params, dates[..k + 1])
         == SignalSymbols(signals, params, dates[..k]) + FilterMap(SizedSymbol(params), signals(dates[k]))
  {
    assert dates[..k + 1][..k] == dates[..k];
  }

  /** n copies of one symbol. */
  ghost predicate AllOf(signalled: seq<Symbol>, s: Symbol, n: nat) {
    |signalled| == n && forall i :: 0 <= i < n ==> signalled[i] == s
  }

  lemma {:induction false} SignalsOfTwo(signals: Pool, params: Params, dates: seq<Date>, s: Symbol, twice: bool)
    requires |dates| == 23 && forall i :: 0 <= i < 21 ==> signals(dates[i]) == []
    requires FilterMap(SizedSymbol(params), signals(dates[21])) == [s]
    requires FilterMap(SizedSymbol(params), signals(dates[22])) == if twice then [s] else []
    ensures AllOf(SignalSymbols(signals, params, dates), s, if twice then 2 else 1)
  {
    NoSignalsUpTo(signals, params, dates, 21);
    SignalsNext(signals, params, dates, 21);
    SignalsNext(signals, params, dates, 22);
    assert dates[..23] == dates;
  }

  /** What a date contributes: its symbol, unless it opens at a gap. */
  function SignalledOn(sr: BarSeries, i: nat): seq<Symbol> {
    FilterMap(SizedSymbol(RampParams()), SignalPool([sr], RampParams(), i))
  }

  lemma {:induction false} SizedOrNot(t: Option<Template>, open: real, s: Symbol)
    requires open <= 250.0 && (t.Some? ==> EntryAt(t, open) && t.value.symbol == s)
    ensures FilterMap(SizedSymbol(RampParams()), OneIf(t)) == if t.None? then [] else [s]
  {
    if t.Some? {
      RampSizes(t.value, RampParams().startingCapital, 0, 0);
      FilterMapCons(SizedSymbol(RampParams()), t.value, []);
      assert [t.value] + [] == [t.value];
    }
  }

  predicate IsGap(base: real, i: int, open: real)
    requires base >= 100.0 && i >= 0
  {
    open / Price(base, i - 1) - 1.0 >= 0.05
  }

  lemma {:induction false} SignalOfDate(sr: BarSeries, base: real, n: nat, i: nat)
    requires RampTo(sr, base, n) && FIRST_ENTRY <= i <= n && sr.bars[i].open <= 250.0
    ensures SignalledOn(sr, i) == if IsGap(base, i, sr.bars[i].open) then [] else [sr.symbol]
  {
    TemplatesAfter(sr, base, n, i);
    SignalledOne(sr, i);
    SizedOrNot(SignalTemplate([sr], RampParams(), sr.bars[i]), sr.bars[i].open, sr.symbol);
  }

  lemma SignalledOne(sr: BarSeries, i: nat)
    requires Daily(sr) && i < |sr.bars|
    ensures SignalledOn(sr, i)
         == FilterMap(SizedSymbol(RampParams()), OneIf(SignalTemplate([sr], RampParams(), sr.bars[i])))
  {
    PoolsOfOne(sr, RampParams(), i);
  }

  lemma GapsOfTwo()
    ensures !IsGap(100.0, 21, Price(100.0, 21)) && !IsGap(100.0, 22, Price(100.0, 22)) && IsGap(100.0, 22, 200.0)
  {
    SmallGap(100.0, 20);
    SmallGap(100.0, 21);
  }

  /** Two entry dates, the second of which may open at a gap. */
  ghost predicate TwoEntries(sr: BarSeries, gap: bool) {
    && RampTo(sr, 100.0, 22) && |sr.bars| == 23
    && sr.bars[22].open == if gap then 200.0 else Price(100.0, 22)
  }

  lemma {:induction false} TwoDates(sr: BarSeries, gap: bool)
    requires TwoEntries(sr, gap)
    ensures SignalledOn(sr, 21) == [sr.symbol]
    ensures SignalledOn(sr, 22) == if gap then [] else [sr.symbol]
  {
    assert RampAt(sr, 100.0, 21);
    SignalOfDate(sr, 100.0, 22, 21);
    SignalOfDate(sr, 100.0, 22, 22);
    GapsOfTwo();
  }

  /** The symbol has n signals that fill a lot. */
  ghost predicate SignalsNumber(sr: BarSeries, params: Params, n: nat) {
    n > 0 && AllOf(SignalSymbols(Signals([sr], params), params, Dates(sr)), sr.symbol, n)
  }

  lemma {:induction false} SignalledTwice(sr: BarSeries, gap: bool)
    requires TwoEntries(sr, gap)
    ensures SignalsNumber(sr, RampParams(), if gap then 1 else 2)
  {
    var signals, ds := Signals([sr], RampParams()), Dates(sr);
    forall i | 0 <= i < 21 ensures signals(ds[i]) == [] {
      QuietBefore(sr, 100.0, 22, i);
    }
    TwoDates(sr, gap);
    SignalsOfTwo(signals, RampParams(), ds, sr.symbol, !gap);
  }

  lemma {:induction false} KeptNone<A, B>(f: A -> Option<B>, xs: seq<A>)
    requires forall i :: 0 <= i < |xs| ==> f(xs[i]).None?
    ensures FilterMap(f, xs) == []
    decreases |xs|
  {
    if xs == [] {
    } else {
      KeptNone(f, xs[1..]);
    }
  }

  lemma {:induction false} FirstKept(f: Date -> Option<Date>, ds: seq<Date>, k: nat)
    requires k < |ds| && (forall i :: 0 <= i < k ==> f(ds[i]).None?) && f(ds[k]).Some?
    ensures FilterMap(f, ds) != [] && FilterMap(f, ds)[0] == f(ds[k]).value
  {
    KeptNone(f, ds[..k]);
    assert ds == ds[..k] + ([ds[k]] + ds[k + 1..]);
    FilterMapConcat(f, ds[..k], [ds[k]] + ds[k + 1..]);
    FilterMapCons(f, ds[k], ds[k + 1..]);
  }

  /** The first entry date is the first date on which the symbol is tradable. */
  ghost predicate EntersFirst(sr: BarSeries, params: Params) {
    var dates := TradableDates(Tradables([sr], params), Dates(sr), sr.symbol);
    dates != [] && dates[0] == FIRST_ENTRY
  }

  lemma {:induction false} FirstTradable(sr: BarSeries, base: real, n: nat)
    requires RampTo(sr, base, n)
    ensures EntersFirst(sr, RampParams())
  {
    var f, ds := DateIfTradable(Tradables([sr], RampParams()), sr.symbol), Dates(sr);
    forall i | 0 <= i < 21 ensures f(ds[i]).None? {
      QuietBefore(sr, base, n, i);
    }
    TradableOn(sr, base, n, 21);
    FirstKept(f, ds, 21);
  }

  lemma TradableOn(sr: BarSeries, base: real, n: nat, i: nat)
    requires RampTo(sr, base, n) && FIRST_ENTRY <= i <= n
    ensures HasTemplate(TradablePool([sr], RampParams(), i), sr.symbol)
  {
    TemplatesAfter(sr, base, n, i);
    PoolsOfOne(sr, RampParams(), i);
    assert TradablePool([sr], RampParams(), i)[0].symbol == sr.symbol;
  }

  lemma {:induction false} DrawsFirst(rng: int, s: Symbol, dates: seq<Date>, n: nat)
    requires dates != []
    ensures Draws(FirstChoice(), rng, s, dates, n) == (rng, seq(n, _ => Placement(dates[0], s)))
    decreases n
  {
    if n == 0 {
    } else {
      DrawsFirst(rng, s, dates, n - 1);
      assert seq(n, _ => Placement(dates[0], s)) == seq(n - 1, _ => Placement(dates[0], s)) + [Placement(dates[0], s)];
    }
  }

  lemma {:induction false} AllOnFirst(s: Symbol, d: Date, n: nat)
    ensures multiset(FilterMap(OnDay(d), seq(n, _ => Placement(d, s))))[s] == n
    decreases n
  {
    var ps := seq(n, _ => Placement(d, s));
    if n == 0 {
    } else {
      AllOnFirst(s, d, n - 1);
      assert ps[1..] == seq(n - 1, _ => Placement(d, s));
    }
  }

  /** With one signalled symbol, all its signals are placed on its first tradable date. */
  lemma {:induction false} PlacedOnFirst(seed: int, s: Symbol, signalled: seq<Symbol>, tradable: Symbol -> seq<Date>)
    requires signalled != [] && AllOf(signalled, s, |signalled|) && tradable(s) != []
    ensures multiset(SymbolsOn(ScheduleOf(DrawAll(FirstChoice(), seed, signalled, tradable)), tradable(s)[0]))[s]
         == |signalled|
  {
    var draw := DrawSignals(FirstChoice(), signalled, tradable);
    OnlySymbol(signalled, s);
    OnlyCount(signalled, s);
    DrawsFirst(seed, s, tradable(s), |signalled|);
    assert [s][..0] == [];
    assert Placements(draw, seed, [s]).1 == [] + draw(seed, s).1 == draw(seed, s).1;
    ScheduleHolds(draw(seed, s).1, tradable(s)[0]);
    AllOnFirst(s, tradable(s)[0], |signalled|);
  }

  lemma {:induction false} OnlySymbol(signalled: seq<Symbol>, s: Symbol)
    requires signalled != [] && forall i :: 0 <= i < |signalled| ==> signalled[i] == s
    ensures FirstSeen(signalled) == [s]
    decreases |signalled|
  {
    var n := |signalled| - 1;
    if n == 0 {
      assert FirstSeen(signalled[..0]) == [];
    } else {
      OnlySymbol(signalled[..n], s);
    }
  }

  lemma {:induction false} OnlyCount(signalled: seq<Symbol>, s: Symbol)
    requires forall i :: 0 <= i < |signalled| ==> signalled[i] == s
    ensures multiset(signalled)[s] == |signalled|
    decreases |signalled|
  {
    if signalled == [] {
    } else {
      OnlyCount(signalled[1..], s);
      assert signalled == [signalled[0]] + signalled[1..];
    }
  }

  /** A choice of the first date places all signals on the first entry date. */
  lemma {:induction false} ScheduledOnFirst(sr: BarSeries, options: Options, seed: int, n: nat)
    requires Daily(sr) && options.kind.SymbolMatchedRandomDate? && options.oracle == FirstChoice()
    requires SignalsNumber(sr, options.params, n) && EntersFirst(sr, options.params)
    ensures multiset(Scheduled(ConfigOf([sr], options, seed), FIRST_ENTRY))[sr.symbol] == n
  {
    DailyOrder(sr);
    PlacedOnFirst(seed, sr.symbol, SignalSymbols(Signals([sr], options.params), options.params, Dates(sr)),
                  TradableOf(Tradables([sr], options.params), Dates(sr)));
  }

  /** The first entry date carries two placements, or one when the second date opens at a gap. */
  lemma {:induction false} PlacementsOfRamp(sr: BarSeries, gap: bool, seed: int)
    requires TwoEntries(sr, gap)
    ensures multiset(Scheduled(Setup(sr, SymbolMatchedRandomDate, seed), FIRST_ENTRY))[sr.symbol] ==
                if gap then 1 else 2
  {
    SignalledTwice(sr, gap);
    FirstTradable(sr, 100.0, 22);
    ScheduledOnFirst(sr, RampOptions(SymbolMatchedRandomDate), seed, if gap then 1 else 2);
  }

  // ---------------------------------------------------------------- later data move the schedule

  /** Rows that differ only in the last one, which opens at a gap or does not. */
  function TwoEntryRows(gap: bool): seq<Row> {
    Ramp(100.0, 22) + [if gap then OhlcvRow(22, 200.0, 200.0, 122.0, 122.0, 0.0) else Quote(100.0, 22)]
  }

  lemma TwoEntryBars(s: Symbol, gap: bool)
    ensures TwoEntries(BarsOf(s, TwoEntryRows(gap)), gap) && ValidRows(TwoEntryRows(gap))
  {
    var rows := TwoEntryRows(gap);
    assert rows[..22] == Ramp(100.0, 22);
    PreparedRamp(s, 100.0, rows, 22);
  }

  lemma {:induction false} RampIsPlaceable(sr: BarSeries, base: real, n: nat, kind: BaselineKind, seed: int)
    requires RampTo(sr, base, n)
    ensures Placeable(Setup(sr, kind, seed), FIRST_ENTRY, sr.symbol)
  {
    TemplatesAfter(sr, base, n, 21);
    PoolsOfOne(sr, RampParams(), 21);
    assert TradablePool([sr], RampParams(), 21)[0].symbol == sr.symbol;
  }

  lemma TwoEntryRowsAgree(s: Symbol)
    ensures Agree([Series(s, TwoEntryRows(false))], [Series(s, TwoEntryRows(true))], AtClose(FIRST_ENTRY))
  {
    var rows, rows' := TwoEntryRows(false), TwoEntryRows(true);
    forall k | 0 <= k < 23 ensures rows[k].date == rows'[k].date == k && (k < 22 ==> rows[k] == rows'[k]) {
      if k < 22 {
        assert rows[k] == Ramp(100.0, 22)[k] == rows'[k];
      }
    }
    assert SeriesAgree(Series(s, rows), Series(s, rows'), AtClose(FIRST_ENTRY));
  }

  lemma TwoEntryDataIsValid(s: Symbol, gap: bool)
    ensures ValidData([Series(s, TwoEntryRows(gap))])
  {
    TwoEntryBars(s, gap);
  }

  /** The random-date baseline looks ahead: two data sets that agree up to the first entry date give
      schedules, and so offers, that differ on it, because the last row decides how many signals
      there are to place. */
  lemma {:induction false} ScheduleUsesLaterData(s: Symbol, seed: int)
    ensures var data, data' := [Series(s, TwoEntryRows(false))], [Series(s, TwoEntryRows(true))];
            var options := RampOptions(SymbolMatchedRandomDate);
            && ValidData(data) && ValidData(data') && Agree(data, data', AtClose(FIRST_ENTRY))
            && !SameScheduleOn(data, data', options, seed, FIRST_ENTRY)
            && !OffersAgree(EnvOn(data, options, Stress(false), seed), EnvOn(data', options, Stress(false), seed),
                            FIRST_ENTRY)
  {
    TwoEntryDataIsValid(s, false);
    TwoEntryDataIsValid(s, true);
    TwoEntryRowsAgree(s);
    SchedulesDiffer(s, seed);
    DifferentOffers([Series(s, TwoEntryRows(false))], [Series(s, TwoEntryRows(true))],
                    RampOptions(SymbolMatchedRandomDate), seed);
  }

  lemma DifferentOffers(data: seq<Series>, data': seq<Series>, options: Options, seed: int)
    requires ValidData(data) && ValidData(data') && ValidOracle(options.oracle)
    requires Agree(data, data', AtClose(FIRST_ENTRY)) && !SameScheduleOn(data, data', options, seed, FIRST_ENTRY)
    ensures !OffersAgree(EnvOn(data, options, Stress(false), seed), EnvOn(data', options, Stress(false), seed),
                         FIRST_ENTRY)
  {
    AgreeEarlier(data, data', AtClose(FIRST_ENTRY), FIRST_ENTRY);
    ScheduleDecidesOffers(data, data', options, Stress(false), seed, FIRST_ENTRY);
  }

  lemma {:induction false} SchedulesDiffer(s: Symbol, seed: int)
    ensures !SameScheduleOn([Series(s, TwoEntryRows(false))], [Series(s, TwoEntryRows(true))],
                            RampOptions(SymbolMatchedRandomDate), seed, FIRST_ENTRY)
  {
    var sr, sr' := BarsOf(s, TwoEntryRows(false)), BarsOf(s, TwoEntryRows(true));
    TwoEntryBars(s, false);
    TwoEntryBars(s, true);
    PrepareOne(s, TwoEntryRows(false));
    PrepareOne(s, TwoEntryRows(true));
    DifferentPlacements(sr, sr', seed);
  }

  lemma {:induction false} DifferentPlacements(sr: BarSeries, sr': BarSeries, seed: int)
    requires TwoEntries(sr, false) && TwoEntries(sr', true) && sr.symbol == sr'.symbol
    ensures !SameOn(Setup(sr, SymbolMatchedRandomDate, seed), Setup(sr', SymbolMatchedRandomDate, seed), FIRST_ENTRY)
  {
    PlacementsOfRamp(sr, false, seed);
    PlacementsOfRamp(sr', true, seed);
    RampIsPlaceable(sr, 100.0, 22, SymbolMatchedRandomDate, seed);
  }

  // ---------------------------------------------------------------- runs that are quiet at first

  /** A date without candidates leaves a state without positions as it is. */
  lemma {:induction false} QuietStep(env: Env, d: Date, st: State)
    requires ValidEnv(env) && st.positions == []
    requires env.offer(d, st.equity, [], st.rng) == (st.rng, [])
    ensures StepDay(env, d, st) == st
  {
    NothingToClose(env, d, st);
    NothingToOpen(env, d, st);
  }

  lemma NothingToClose(env: Env, d: Date, st: State)
    requires st.positions == []
    ensures ExitPhase(env, d, st) == st
  {
    assert st.trades + [] == st.trades;
  }

  lemma NothingToOpen(env: Env, d: Date, st: State)
    requires ValidEnv(env) && st.positions == []
    requires env.offer(d, st.equity, [], st.rng) == (st.rng, [])
    ensures EntryPhase(env, d, st) == st
  {
    assert OpenAll(env, [], st.equity, [], 0) == Opened([], []);
    assert st.openings + [] == st.openings;
  }

  ghost predicate Offers(env: Env, d: Date, cs: seq<EntryCandidate>) {
    var st := Initial(env);
    env.offer(d, st.equity, [], st.rng) == (st.rng, cs)
  }

  lemma {:induction false} QuietRun(env: Env, cal: seq<Date>, run: seq<State>, k: nat)
    requires ValidEnv(env) && IsRun(env, cal, run) && k < |run|
    requires forall j :: 0 <= j < k ==> Offers(env, cal[j], [])
    ensures run[k] == Initial(env)
    decreases k
  {
    if k == 0 {
    } else {
      QuietRun(env, cal, run, k - 1);
      assert StepAt(env, cal, run, k - 1);
      QuietStep(env, cal[k - 1], run[k - 1]);
    }
  }

  lemma NoCandidates(c: Config, d: Date, equity: real, positions: seq<Position>, rng: int)
    requires c.selection == RankedOrder && c.oracle == FirstChoice()
    requires SignalPool(c.prepared, c.params, d) == [] && TradablePool(c.prepared, c.params, d) == []
    ensures EntriesOn(c, d, equity, positions, rng) == (rng, [])
  {
  }

  /** On a ramp nothing happens before the first entry date. */
  lemma {:induction false} RampIsQuiet(sr: BarSeries, base: real, n: nat, kind: BaselineKind, exitsFirst: bool,
                                       seed: int, d: nat)
    requires RampTo(sr, base, n) && d < FIRST_ENTRY
    ensures Offers(EnvOfRamp(sr, kind, exitsFirst, seed), d, [])
  {
    QuietBefore(sr, base, n, d);
    NoCandidates(Setup(sr, kind, seed), d, 1000.0, [], seed);
  }

  lemma {:induction false} StateAtFirstEntry(sr: BarSeries, base: real, n: nat, kind: BaselineKind, exitsFirst: bool,
                                             seed: int, cal: seq<Date>, run: seq<State>)
    requires RampTo(sr, base, n) && ValidEnv(EnvOfRamp(sr, kind, exitsFirst, seed))
    requires IsCalendar([sr], cal) && IsRun(EnvOfRamp(sr, kind, exitsFirst, seed), cal, run)
    ensures cal == Dates(sr)
    ensures run[FIRST_ENTRY] == Initial(EnvOfRamp(sr, kind, exitsFirst, seed))
  {
    DailyCalendar(sr, cal);
    forall j | 0 <= j < FIRST_ENTRY ensures Offers(EnvOfRamp(sr, kind, exitsFirst, seed), cal[j], []) {
      RampIsQuiet(sr, base, n, kind, exitsFirst, seed, j);
    }
    QuietRun(EnvOfRamp(sr, kind, exitsFirst, seed), cal, run, FIRST_ENTRY);
  }

  // ---------------------------------------------------------------- a repeated placement loses a position

  lemma {:induction false} AllOffered(cs: seq<EntryCandidate>, s: Symbol)
    requires forall c :: c in cs ==> c.Symbol() == s
    ensures Offered(cs, s) == |cs|
    decreases |cs|
  {
    if cs == [] {
    } else {
      assert cs[0] in cs;
      AllOffered(cs[1..], s);
    }
  }

  /** A sized candidate takes at most a quarter of the equity. */
  lemma {:induction false} QuarterAtMost(env: Env, d: Date, equity: real, c: EntryCandidate)
    requires env.params == RampParams() && GoodCandidate(env, d, equity, [], c)
    ensures 0.0 <= c.Notional() <= equity * 0.25
  {
    PositionSizeMaximal(c.template.entryPrice, c.template.stopPrice, equity, env.params, c.quantity);
    assert Fits(c.quantity, c.template.entryPrice, NotionalCap(equity, env.params));
  }

  lemma {:induction false} RoomForBoth(env: Env, cs: seq<EntryCandidate>, equity: real)
    requires AllListed(env.prepared, cs) && equity >= 0.0
    requires env.params.maxNewPositionsPerDay.None? && env.params.maxPositions >= 2
    requires |cs| == 2 && cs[0].Symbol() == cs[1].Symbol()
    requires forall i :: 0 <= i < 2 ==> 0.0 <= cs[i].Notional() <= equity * 0.25
    ensures OpensAt(env, cs, equity, Turn([], 0), 0) && OpensAt(env, cs, equity, Turn([], 0), 1)
  {
    var t := Turn([], 0);
    assert TryAll(env, cs[..0], equity, t) == t && OpenNotional([]) == 0.0;
    CopiesOverwrite(env, cs, equity, t, 0);
  }

  /** Two candidates of one symbol at the start both open. */
  lemma {:induction false} BothOpen(env: Env, d: Date, cs: seq<EntryCandidate>)
    requires ValidEnv(env) && env.params == RampParams() && Offers(env, d, cs)
    requires |cs| == 2 && cs[0].Symbol() == cs[1].Symbol()
    ensures OpensTwice(env, d, Initial(env))
  {
    var st := Initial(env);
    OfferListed(env, d, st.equity, [], st.rng);
    forall i | 0 <= i < 2 ensures 0.0 <= cs[i].Notional() <= st.equity * 0.25 {
      assert cs[i] in cs;
      QuarterAtMost(env, d, st.equity, cs[i]);
    }
    RoomForBoth(env, cs, st.equity);
    NothingToClose(env, d, st);
    assert AtEntries(env, d, st) == st;
    assert SameOpened(env, cs, st, 0, 1);
  }

  lemma {:induction false} PoolSymbols(sr: BarSeries, params: Params, d: nat)
    requires Daily(sr) && d < |sr.bars|
    ensures forall t :: t in SignalPool([sr], params, d) || t in TradablePool([sr], params, d) ==> t.symbol == sr.symbol
  {
    PoolsOfOne(sr, params, d);
    var bar := sr.bars[d];
    assert SignalTemplate([sr], params, bar).Some? ==> SignalTemplate([sr], params, bar).value.symbol == bar.symbol;
    assert TradableTemplate([sr], params, bar).Some? ==> TradableTemplate([sr], params, bar).value.symbol == bar.symbol;
  }

  lemma {:induction false} OnlyItsSymbol(sr: BarSeries, c: Config, d: nat, equity: real, rng: int)
    requires Daily(sr) && d < |sr.bars| && c.prepared == [sr] && ValidOracle(c.oracle)
    ensures forall e :: e in EntriesOn(c, d, equity, [], rng).1 ==> e.Symbol() == sr.symbol
  {
    EntriesFromPool(c, d, equity, [], rng);
    PoolSymbols(sr, c.params, d);
    forall e | e in EntriesOn(c, d, equity, [], rng).1 ensures e.Symbol() == sr.symbol {
      assert e.template in PoolOf(c, d);
    }
  }

  lemma {:induction false} OfferedTwice(sr: BarSeries, seed: int)
    requires TwoEntries(sr, false)
    ensures Offered(EntriesOn(Setup(sr, SymbolMatchedRandomDate, seed), FIRST_ENTRY, 1000.0, [], seed).1, sr.symbol)
         == 2
  {
    DailyIsValid(sr);
    PlacementsOfRamp(sr, false, seed);
    FirstOfferable(sr, seed);
    TimesOffered(Setup(sr, SymbolMatchedRandomDate, seed), FIRST_ENTRY, 1000.0, [], seed, sr.symbol);
  }

  lemma OffersOfConfig(c: Config, stress: ExecutionStress, seed: int, d: Date)
    requires c.selection == RankedOrder && !c.kind.UniverseDateMatchedRandom?
    ensures Offers(ProgramEnv(c, stress, seed), d, EntriesOn(c, d, c.params.startingCapital, [], seed).1)
  {
  }

  lemma {:induction false} OffersTwice(sr: BarSeries, seed: int) returns (cs: seq<EntryCandidate>)
    requires TwoEntries(sr, false)
    ensures Offers(EnvOfRamp(sr, SymbolMatchedRandomDate, false, seed), FIRST_ENTRY, cs)
    ensures |cs| == 2 && cs[0].Symbol() == cs[1].Symbol()
  {
    var c := Setup(sr, SymbolMatchedRandomDate, seed);
    cs := EntriesOn(c, FIRST_ENTRY, 1000.0, [], seed).1;
    OffersOfConfig(c, Stress(false), seed, FIRST_ENTRY);
    OfferedTwice(sr, seed);
    OnlyItsSymbol(sr, c, FIRST_ENTRY, 1000.0, seed);
    AllOffered(cs, sr.symbol);
    assert cs[0] in cs && cs[1] in cs;
  }

  lemma {:induction false} FirstOfferable(sr: BarSeries, seed: int)
    requires TwoEntries(sr, false)
    ensures OfferableOn(Setup(sr, SymbolMatchedRandomDate, seed), FIRST_ENTRY, 1000.0, [], sr.symbol)
  {
    TemplatesAfter(sr, 100.0, 22, 21);
    PoolsOfOne(sr, RampParams(), 21);
    assert RampAt(sr, 100.0, 21);
    var pool := TradablePool([sr], RampParams(), 21);
    RampSizes(pool[0], 1000.0, 0, 0);
    assert pool[0].symbol == sr.symbol && MaterializeFree(1000.0, [], RampParams())(pool[0]).Some?;
  }

  lemma {:induction false} TwoEntriesLosePosition(sr: BarSeries, seed: int, cal: seq<Date>, run: seq<State>)
    requires TwoEntries(sr, false) && IsCalendar([sr], cal)
    requires ValidEnv(EnvOfRamp(sr, SymbolMatchedRandomDate, false, seed))
    requires IsRun(EnvOfRamp(sr, SymbolMatchedRandomDate, false, seed), cal, run)
    ensures var env, st := EnvOfRamp(sr, SymbolMatchedRandomDate, false, seed), run[|run| - 1];
            && PositionsListed(env, st.positions)
            && multiset(PositionsOf(Report(env, st))) != multiset(OpenedPositions(st.openings))
  {
    var env := EnvOfRamp(sr, SymbolMatchedRandomDate, false, seed);
    var cs := OffersTwice(sr, seed);
    StateAtFirstEntry(sr, 100.0, 22, SymbolMatchedRandomDate, false, seed, cal, run);
    BothOpen(env, FIRST_ENTRY, cs);
    LosesOne(env, cal, run, FIRST_ENTRY);
  }

  /** The schedule of the two signals loses a position: both are placed on the first entry date, both
      open there, and the report has fewer trades than there were openings. */
  lemma {:induction false} RepeatedPlacementLosesPosition(s: Symbol, seed: int, cal: seq<Date>, run: seq<State>)
    requires IsRunOn([Series(s, TwoEntryRows(false))], RampOptions(SymbolMatchedRandomDate), Stress(false), seed,
                     cal, run)
    ensures var data, st := [Series(s, TwoEntryRows(false))], run[|run| - 1];
            var env := EnvOn(data, RampOptions(SymbolMatchedRandomDate), Stress(false), seed);
            && PositionsListed(env, st.positions)
            && multiset(PositionsOf(Report(env, st))) != multiset(OpenedPositions(st.openings))
  {
    PrepareOne(s, TwoEntryRows(false));
    TwoEntryBars(s, false);
    TwoEntriesLosePosition(BarsOf(s, TwoEntryRows(false)), seed, cal, run);
  }

  lemma LosesOne(env: Env, cal: seq<Date>, run: seq<State>, k: nat)
    requires ValidEnv(env) && IsRun(env, cal, run) && k < |cal| && OpensTwice(env, cal[k], run[k])
    ensures var st := run[|run| - 1];
            && PositionsListed(env, st.positions)
            && multiset(PositionsOf(Report(env, st))) != multiset(OpenedPositions(st.openings))
  {
    OneTradePerOpening(env, cal, run);
    assert OpensTwiceOn(env, cal, run, k);
  }

  // ---------------------------------------------------------------- a position entered on the last bar

  lemma {:induction false} OneCandidate(t: Template, equity: real, params: Params)
    requires MaterializeEntry(t, equity, params, 1, 1).Some?
    ensures SignalCandidatesFromPool([t], equity, [], params) == [MaterializeEntry(t, equity, params, 1, 1).value]
  {
    FilterMapCons(IfNotHeld([]), t, []);
    assert [t] + [] == [t] && [t][1..] == [];
    assert MaterializeRanked([], equity, params, 2, 1) == [];
  }

  /** The strategy's offer on a date that opens without a gap, when nothing is held. */
  lemma {:induction false} RampOffer(sr: BarSeries, n: nat, i: nat, equity: real, seed: int, rng: int)
    returns (c: EntryCandidate)
    requires RampTo(sr, 100.0, n) && FIRST_ENTRY <= i <= n
    requires !IsGap(100.0, i, sr.bars[i].open) && sr.bars[i].open <= equity * 0.25 && equity >= 1.0
    ensures EntriesOn(Setup(sr, Strategy, seed), i, equity, [], rng) == (rng, [c])
    ensures EntryAt(Some(c.template), sr.bars[i].open) && c.Symbol() == sr.symbol
  {
    TemplatesAfter(sr, 100.0, n, i);
    PoolsOfOne(sr, RampParams(), i);
    var t := SignalTemplate([sr], RampParams(), sr.bars[i]).value;
    RampSizes(t, equity, 1, 1);
    OneCandidate(t, equity, RampParams());
    c := MaterializeEntry(t, equity, RampParams(), 1, 1).value;
  }

  /** The first entry date opens where the ramp goes. */
  ghost predicate EntersOnRamp(sr: BarSeries) {
    RampTo(sr, 100.0, 21) && sr.bars[21].open == Price(100.0, 21)
  }

  lemma {:induction false} FirstOffer(sr: BarSeries, exitsFirst: bool, seed: int) returns (c: EntryCandidate)
    requires EntersOnRamp(sr)
    ensures Offers(EnvOfRamp(sr, Strategy, exitsFirst, seed), FIRST_ENTRY, [c])
    ensures EntryAt(Some(c.template), 121.0) && c.Symbol() == sr.symbol
  {
    GapsOfTwo();
    c := RampOffer(sr, 21, 21, 1000.0, seed, seed);
  }

  lemma {:induction false} OneOpens(env: Env, c: EntryCandidate, equity: real)
    requires AllListed(env.prepared, [c]) && c.Notional() <= equity
    requires env.params.maxNewPositionsPerDay.None? && env.params.maxPositions >= 1
    ensures OpenAll(env, [c], equity, [], 0).positions == [MakePosition(env, c)]
    ensures |OpenAll(env, [c], equity, [], 0).openings| == 1
  {
    assert [c][0] == c && [c][1..] == [] && OpenNotional([]) == 0.0;
    assert OpenAll(env, [], equity, Put([], MakePosition(env, c)), 1).positions == [MakePosition(env, c)];
  }

  lemma {:induction false} LoneOpening(env: Env, d: Date, c: EntryCandidate)
    requires ValidEnv(env) && env.params == RampParams() && Offers(env, d, [c]) && env.stress.exitBeforeEntryAtOpen
    ensures |StepDay(env, d, Initial(env)).positions| == 1
  {
    var st := Initial(env);
    NothingToClose(env, d, st);
    OfferListed(env, d, st.equity, [], st.rng);
    assert [c][0] in [c];
    QuarterAtMost(env, d, st.equity, c);
    OneOpens(env, c, st.equity);
  }

  lemma EndsOpen(env: Env, st: State)
    requires PositionsListed(env, st.positions) && st.positions != []
    ensures exists t :: t in Report(env, st) && t.reason == EndOfData
  {
    var ends := EndTrades(env, st.positions);
    var all := st.trades + ends;
    SameElements(Report(env, st), all);
    assert all[|st.trades|] == ends[0] && ends[0].reason == EndOfData;
    assert all[|st.trades|] in Report(env, st);
  }

  lemma {:induction false} LastBarSurvives(sr: BarSeries, seed: int, cal: seq<Date>, run: seq<State>)
    requires EntersOnRamp(sr) && |sr.bars| == 22 && IsCalendar([sr], cal)
    requires ValidEnv(EnvOfRamp(sr, Strategy, true, seed)) && IsRun(EnvOfRamp(sr, Strategy, true, seed), cal, run)
    ensures var env, st := EnvOfRamp(sr, Strategy, true, seed), run[|run| - 1];
            && PositionsListed(env, st.positions)
            && exists t :: t in Report(env, st) && t.reason == EndOfData
  {
    var env := EnvOfRamp(sr, Strategy, true, seed);
    StateAtFirstEntry(sr, 100.0, 21, Strategy, true, seed, cal, run);
    var c := FirstOffer(sr, true, seed);
    LoneOpening(env, FIRST_ENTRY, c);
    assert StepAt(env, cal, run, FIRST_ENTRY);
    RunListed(env, cal, run, |run| - 1);
    EndsOpen(env, run[|run| - 1]);
  }

  /** The ramp of 22 rows has such bars. */
  lemma LastBarRows(s: Symbol)
    ensures EntersOnRamp(BarsOf(s, Ramp(100.0, 22)))
  {
    var rows := Ramp(100.0, 22);
    assert rows[..21] == Ramp(100.0, 21) && rows[21] == Quote(100.0, 21);
    PreparedRamp(s, 100.0, rows, 21);
  }

  /** Exits first: a position entered on the last bar is closed by the end of the data only. */
  lemma {:induction false} LastBarPositionSurvives(s: Symbol, seed: int, cal: seq<Date>, run: seq<State>)
    requires IsRunOn([Series(s, Ramp(100.0, 22))], RampOptions(Strategy), Stress(true), seed, cal, run)
    ensures var env := EnvOn([Series(s, Ramp(100.0, 22))], RampOptions(Strategy), Stress(true), seed);
            var st := run[|run| - 1];
            && PositionsListed(env, st.positions)
            && exists t :: t in Report(env, st) && t.reason == EndOfData
  {
    PrepareOne(s, Ramp(100.0, 22));
    LastBarRows(s);
    LastBarSurvives(BarsOf(s, Ramp(100.0, 22)), seed, cal, run);
  }

  // ---------------------------------------------------------------- ranks of pooled candidates

  /** Two ramps side by side. */
  ghost predicate TwoRamps(a: BarSeries, b: BarSeries) {
    && RampTo(a, 100.0, 21) && RampTo(b, 1000000.0, 21) && a.symbol != b.symbol
    && a.bars[21].open == Price(100.0, 21) && b.bars[21].open == Price(1000000.0, 21)
  }

  lemma TwoRampsValid(a: BarSeries, b: BarSeries)
    requires TwoRamps(a, b)
    ensures ValidPrepared([a, b])
    ensures SeriesOf([a, b], a.symbol) == Some(a) && SeriesOf([a, b], b.symbol) == Some(b)
  {
    DailyIsValid(a);
    DailyIsValid(b);
    assert [a, b][1..] == [b];
  }

  /** A ramp's signal, whatever the other symbols. */
  lemma {:induction false} SignalAmong(prepared: seq<BarSeries>, sr: BarSeries, base: real)
    requires ValidPrepared(prepared) && sr in prepared && SeriesOf(prepared, sr.symbol) == Some(sr)
    requires RampTo(sr, base, 21) && sr.bars[21].open == Price(base, 21)
    ensures exists t :: t in SignalPool(prepared, RampParams(), 21) && EntryAt(Some(t), Price(base, 21))
  {
    var before, bar := sr.bars[20], sr.bars[21];
    DailyBar(sr, 21);
    assert RampAt(sr, base, 20);
    RampTemplates(base, before, bar, MarketOn(prepared, before.date), 20);
    SmallGap(base, 20);
    TemplatesFrom(prepared, bar, before);
    TodayMember(prepared, 21, bar);
    InSignalPool(prepared, 21, bar);
  }

  lemma {:induction false} InSignalPool(prepared: seq<BarSeries>, d: Date, bar: Bar)
    requires bar in Today(prepared, d) && SignalTemplate(prepared, RampParams(), bar).Some?
    ensures SignalTemplate(prepared, RampParams(), bar).value in SignalPool(prepared, RampParams(), d)
  {
    var f, bars := ToSignal(prepared, RampParams()), TodayBySymbol(prepared, d);
    SameElements(bars, Today(prepared, d));
    assert f(bar) == Some(SignalTemplate(prepared, RampParams(), bar).value);
    FilterMapMember(f, bars, SignalTemplate(prepared, RampParams(), bar).value);
    SameElements(SignalPool(prepared, RampParams(), d), FilterMap(f, bars));
  }

  lemma {:induction false} AvailableAtStart(pool: seq<Template>, t: Template)
    requires t in pool
    ensures t in FilterMap(IfNotHeld([]), pool)
  {
    assert IfNotHeld([])(t) == Some(t);
    FilterMapMember(IfNotHeld([]), pool, t);
  }

  lemma {:induction false} RanksOfTwo(a: BarSeries, b: BarSeries)
    requires TwoRamps(a, b)
    ensures SignalCandidatesFromPool(SignalPool([a, b], RampParams(), FIRST_ENTRY), 1000.0, [], RampParams())
         != EntryCandidates([a, b], FIRST_ENTRY, 1000.0, [], RampParams())
  {
    TwoRampsValid(a, b);
    SignalAmong([a, b], a, 100.0);
    SignalAmong([a, b], b, 1000000.0);
    var pool := SignalPool([a, b], RampParams(), 21);
    var t :| t in pool && EntryAt(Some(t), Price(100.0, 21));
    var u :| u in pool && EntryAt(Some(u), Price(1000000.0, 21));
    MixedSizes(pool, t, u);
    PooledRanksMatchDirect([a, b], 21, 1000.0, [], RampParams());
  }

  lemma {:induction false} MixedSizes(pool: seq<Template>, t: Template, u: Template)
    requires t in pool && u in pool
    requires EntryAt(Some(t), Price(100.0, 21)) && EntryAt(Some(u), Price(1000000.0, 21))
    ensures var available := FilterMap(IfNotHeld([]), pool);
            !NoneSized(available, 1000.0, RampParams()) && !AllSized(available, 1000.0, RampParams())
  {
    RampSizes(t, 1000.0, 0, 0);
    RampSizes(u, 1000.0, 0, 0);
    AvailableAtStart(pool, t);
    AvailableAtStart(pool, u);
  }

  lemma TwoRampRows(s: Symbol, s': Symbol)
    requires s != s'
    ensures TwoRamps(BarsOf(s, Ramp(100.0, 22)), BarsOf(s', Ramp(1000000.0, 22)))
  {
    var rows, rows' := Ramp(100.0, 22), Ramp(1000000.0, 22);
    assert rows[..21] == Ramp(100.0, 21) && rows[21] == Quote(100.0, 21);
    assert rows'[..21] == Ramp(1000000.0, 21) && rows'[21] == Quote(1000000.0, 21);
    PreparedRamp(s, 100.0, rows, 21);
    PreparedRamp(s', 1000000.0, rows', 21);
  }

  /** One symbol is too expensive for a lot: the pooled and the direct candidates then differ in rank
      or count. */
  lemma {:induction false} RanksDiffer(s: Symbol, s': Symbol)
    requires s != s'
    ensures var prepared := [BarsOf(s, Ramp(100.0, 22)), BarsOf(s', Ramp(1000000.0, 22))];
            SignalCandidatesFromPool(SignalPool(prepared, RampParams(), FIRST_ENTRY), 1000.0, [], RampParams())
              != EntryCandidates(prepared, FIRST_ENTRY, 1000.0, [], RampParams())
  {
    TwoRampRows(s, s');
    RanksOfTwo(BarsOf(s, Ramp(100.0, 22)), BarsOf(s', Ramp(1000000.0, 22)));
  }
}
