/** No look-ahead, from the raw rows through the indicators, the pools and the day loop. */
module SwingCausality {
  import opened Prelude
  import opened Sorting
  import opened SwingTypes
  import opened SwingIndicators
  import opened SwingSignals
  import opened SwingPools
  import opened SwingEntries
  import opened SwingSchedule
  import opened SwingScheduledOffers
  import opened SwingEngine
  import opened SwingProgram

  ghost predicate ValidData(data: seq<Series>) {
    && (forall i :: 0 <= i < |data| ==> ValidRows(data[i].rows))
    && (forall i, j :: 0 <= i < j < |data| ==> data[i].symbol != data[j].symbol)
  }

  ghost predicate ValidRows(rows: seq<Row>) {
    |rows| > 0 && forall i, j :: 0 <= i < j < |rows| ==> rows[i].date < rows[j].date
  }

  /** A point in time: a date at its open, or after its close. */
  datatype Moment = AtOpen(date: Date) | AtClose(date: Date)

  /** All prices of date e are known. */
  predicate Over(m: Moment, e: Date) { e < m.date || (m.AtClose? && e == m.date) }

  /** The opening prices of date e are known. */
  predicate Started(m: Moment, e: Date) { e <= m.date }

  /** Two data sets with the same symbols and trading dates that agree on everything known at a
      moment: the rows of the dates that are over and the opening prices of those that started. */
  ghost predicate Agree(data: seq<Series>, data': seq<Series>, m: Moment) {
    |data| == |data'| && forall i :: 0 <= i < |data| ==> SeriesAgree(data[i], data'[i], m)
  }

  ghost predicate SeriesAgree(s: Series, s': Series, m: Moment) {
    && s.symbol == s'.symbol && |s.rows| == |s'.rows|
    && forall k :: 0 <= k < |s.rows| ==>
         && s.rows[k].date == s'.rows[k].date
         && (Over(m, s.rows[k].date) ==> s.rows[k] == s'.rows[k])
         && (Started(m, s.rows[k].date) ==> s.rows[k].open == s'.rows[k].open)
  }

  /** The same relation on prepared bars. */
  ghost predicate BarsAgree(sr: BarSeries, sr': BarSeries, m: Moment) {
    && sr.symbol == sr'.symbol && |sr.bars| == |sr'.bars|
    && forall k :: 0 <= k < |sr.bars| ==> BarAgrees(sr.bars[k], sr'.bars[k], m)
  }

  ghost predicate BarAgrees(b: Bar, b': Bar, m: Moment) {
    && SameQuote(b, b', m)
    && (Over(m, b.date) ==> b == b')
  }

  predicate SameQuote(b: Bar, b': Bar, m: Moment) {
    b.symbol == b'.symbol && b.date == b'.date && (Started(m, b.date) ==> b.open == b'.open)
  }

  ghost predicate PreparedAgree(p: seq<BarSeries>, p': seq<BarSeries>, m: Moment) {
    |p| == |p'| && forall i :: 0 <= i < |p| ==> BarsAgree(p[i], p'[i], m)
  }

  lemma {:induction false} BarAgreesAt(s: Series, s': Series, m: Moment, params: Params, k: nat)
    requires ValidRows(s.rows) && SeriesAgree(s, s', m) && k < |s.rows|
    ensures BarAgrees(BarAt(s.symbol, s.rows, k, params), BarAt(s.symbol, s'.rows, k, params), m)
  {
    assert s.rows[k].date == s'.rows[k].date;
    if Over(m, s.rows[k].date) {
      forall j | 0 <= j < k + 1 ensures s.rows[j] == s'.rows[j] {
        assert s.rows[j].date <= s.rows[k].date;
      }
      assert s.rows[..k + 1] == s'.rows[..k + 1];
      BarCausal(s.symbol, s.rows, s'.rows, k, params);
    }
  }

  lemma {:induction false} PreparedSeries(s: Series, s': Series, m: Moment, params: Params)
    requires ValidRows(s.rows) && SeriesAgree(s, s', m)
    ensures BarsAgree(BarSeries(s.symbol, BarsUpTo(s.symbol, s.rows, |s.rows|, params)),
                      BarSeries(s'.symbol, BarsUpTo(s'.symbol, s'.rows, |s'.rows|, params)), m)
  {
    var bars, bars' := BarsUpTo(s.symbol, s.rows, |s.rows|, params), BarsUpTo(s'.symbol, s'.rows, |s'.rows|, params);
    forall k | 0 <= k < |bars| ensures BarAgrees(bars[k], bars'[k], m) {
      BarAgreesAt(s, s', m, params, k);
    }
  }

  /** The indicators of a date use nothing later than that date. */
  lemma {:induction false} PrepareCausal(data: seq<Series>, data': seq<Series>, m: Moment, params: Params)
    requires ValidData(data) && Agree(data, data', m)
    ensures PreparedAgree(Prepare(data, params), Prepare(data', params), m)
  {
    forall i | 0 <= i < |data| ensures BarsAgree(Prepare(data, params)[i], Prepare(data', params)[i], m) {
      assert SeriesAgree(data[i], data'[i], m);
      PreparedSeries(data[i], data'[i], m, params);
    }
  }

  lemma PrepareValid(data: seq<Series>, params: Params)
    requires ValidData(data)
    ensures ValidPrepared(Prepare(data, params))
  {
    var p := Prepare(data, params);
    forall i | 0 <= i < |p| ensures ValidSeries(p[i]) {
      assert ValidRows(data[i].rows);
    }
  }

  // ---------------------------------------------------------------- the per-date view

  lemma SameDates(sr: BarSeries, sr': BarSeries, m: Moment)
    requires BarsAgree(sr, sr', m)
    ensures Dates(sr) == Dates(sr')
  {
  }

  lemma BarOnAgrees(sr: BarSeries, sr': BarSeries, m: Moment, e: Date)
    requires BarsAgree(sr, sr', m)
    ensures BarOn(sr, e).Some? <==> BarOn(sr', e).Some?
    ensures BarOn(sr, e).Some? ==> BarAgrees(BarOn(sr, e).value, BarOn(sr', e).value, m)
  {
    SameDates(sr, sr', m);
    if e in Dates(sr) {
      var k := IndexOf(Dates(sr), e);
      assert BarAgrees(sr.bars[k], sr'.bars[k], m);
    }
  }

  function QuoteRelation(m: Moment): (Bar, Bar) -> bool {
    (b: Bar, b': Bar) => SameQuote(b, b', m)
  }

  /** Today's lists correspond bar by bar, and on dates that are over they are equal. */
  lemma {:induction false} TodayAgrees(p: seq<BarSeries>, p': seq<BarSeries>, m: Moment, e: Date)
    requires PreparedAgree(p, p', m)
    ensures Related(QuoteRelation(m), Today(p, e), Today(p', e))
    ensures Over(m, e) ==> Today(p, e) == Today(p', e)
    decreases |p|
  {
    if p == [] {
    } else {
      assert BarsAgree(p[0], p'[0], m);
      BarOnAgrees(p[0], p'[0], m, e);
      TodayAgrees(p[1..], p'[1..], m, e);
      if OnDate(e)(p[0]).Some? {
        ConsRelated(QuoteRelation(m), OnDate(e)(p[0]).value, OnDate(e)(p'[0]).value,
                    Today(p[1..], e), Today(p'[1..], e));
      }
    }
  }

  lemma TodayBySymbolAgrees(p: seq<BarSeries>, p': seq<BarSeries>, m: Moment, e: Date)
    requires PreparedAgree(p, p', m)
    ensures Related(QuoteRelation(m), TodayBySymbol(p, e), TodayBySymbol(p', e))
  {
    TodayAgrees(p, p', m, e);
    SortRelated(BySymbol, BySymbol, QuoteRelation(m), Today(p, e), Today(p', e));
  }

  lemma {:induction false} SeriesOfAgrees(p: seq<BarSeries>, p': seq<BarSeries>, m: Moment, s: Symbol)
    requires PreparedAgree(p, p', m)
    ensures SeriesOf(p, s).Some? <==> SeriesOf(p', s).Some?
    ensures SeriesOf(p, s).Some? ==> BarsAgree(SeriesOf(p, s).value, SeriesOf(p', s).value, m)
    decreases |p|
  {
    if p == [] {
    } else {
      assert BarsAgree(p[0], p'[0], m);
      if p[0].symbol != s {
        SeriesOfAgrees(p[1..], p'[1..], m, s);
      }
    }
  }

  lemma PreviousInAgrees(sr: BarSeries, sr': BarSeries, m: Moment, e: Date)
    requires ValidSeries(sr) && BarsAgree(sr, sr', m) && Started(m, e)
    ensures PreviousIn(sr, e) == PreviousIn(sr', e)
    ensures PreviousIn(sr, e).Some? ==> PreviousIn(sr, e).value.date < e
  {
    SameDates(sr, sr', m);
    if e in Dates(sr) && IndexOf(Dates(sr), e) > 0 {
      var k := IndexOf(Dates(sr), e) - 1;
      assert Dates(sr)[k] < Dates(sr)[k + 1];
      assert BarAgrees(sr.bars[k], sr'.bars[k], m);
    }
  }

  /** The bar before one on a started date belongs to a date that is over, so it is the same bar. */
  lemma {:induction false} PreviousAgrees(p: seq<BarSeries>, p': seq<BarSeries>, m: Moment, s: Symbol, e: Date)
    requires ValidPrepared(p) && PreparedAgree(p, p', m) && Started(m, e)
    ensures Previous(p, s, e) == Previous(p', s, e)
    ensures Previous(p, s, e).Some? ==> Previous(p, s, e).value.date < e
  {
    SeriesOfAgrees(p, p', m, s);
    if SeriesOf(p, s).Some? {
      var sr := SeriesOf(p, s).value;
      var i :| 0 <= i < |p| && p[i] == sr;
      assert ValidSeries(p[i]);
      PreviousInAgrees(sr, SeriesOf(p', s).value, m, e);
    }
  }

  /** A template uses the symbol, date and opening price of today's bar, not its other prices. */
  lemma TemplateSeesOnlyTheOpen(b: Bar, b': Bar, signal: Bar, market: Option<MarketContext>, params: Params,
      filters: bool)
    requires b.symbol == b'.symbol && b.date == b'.date && b.open == b'.open
    requires if filters then IsEntrySignal(signal, params) else IsRandomBaselineTradable(signal, params)
    ensures EntryTemplateOf(b, signal, market, params, filters) == EntryTemplateOf(b', signal, market, params, filters)
  {
  }

  lemma {:induction false} SignalContextAgrees(p: seq<BarSeries>, p': seq<BarSeries>, m: Moment, s: Symbol, e: Date)
    requires ValidPrepared(p) && PreparedAgree(p, p', m) && Started(m, e)
    ensures Previous(p, s, e) == Previous(p', s, e)
    ensures Previous(p, s, e).Some? ==>
              MarketOn(p, Previous(p, s, e).value.date) == MarketOn(p', Previous(p, s, e).value.date)
  {
    PreviousAgrees(p, p', m, s, e);
    if Previous(p, s, e).Some? {
      TodayAgrees(p, p', m, Previous(p, s, e).value.date);
    }
  }

  lemma {:induction false} TemplatesAgree(p: seq<BarSeries>, p': seq<BarSeries>, params: Params, m: Moment, b: Bar,
      b': Bar)
    requires ValidPrepared(p) && PreparedAgree(p, p', m)
    requires b.symbol == b'.symbol && b.date == b'.date && Started(m, b.date) && b.open == b'.open
    ensures SignalTemplate(p, params, b) == SignalTemplate(p', params, b')
    ensures TradableTemplate(p, params, b) == TradableTemplate(p', params, b')
  {
    SignalContextAgrees(p, p', m, b.symbol, b.date);
    var signal := Previous(p, b.symbol, b.date);
    if signal.Some? {
      var market := MarketOn(p, signal.value.date);
      if IsEntrySignal(signal.value, params) {
        TemplateSeesOnlyTheOpen(b, b', signal.value, market, params, true);
      }
      if IsRandomBaselineTradable(signal.value, params) {
        TemplateSeesOnlyTheOpen(b, b', signal.value, market, params, false);
      }
    }
  }

  lemma TodayIsDated(p: seq<BarSeries>, e: Date)
    ensures forall i :: 0 <= i < |TodayBySymbol(p, e)| ==> TodayBySymbol(p, e)[i].date == e
  {
    var bars := TodayBySymbol(p, e);
    SameElements(bars, Today(p, e));
    forall i | 0 <= i < |bars| ensures bars[i].date == e {
      assert bars[i] in bars;
      FilterMapMember(OnDate(e), p, bars[i]);
    }
  }

  /** The pools of a date use the rows before it and its opening prices, and nothing else. */
  lemma PoolsCausal(p: seq<BarSeries>, p': seq<BarSeries>, params: Params, m: Moment, e: Date)
    requires ValidPrepared(p) && PreparedAgree(p, p', m) && Started(m, e)
    ensures SignalPool(p, params, e) == SignalPool(p', params, e)
    ensures TradablePool(p, params, e) == TradablePool(p', params, e)
  {
    var bars, bars' := TodayBySymbol(p, e), TodayBySymbol(p', e);
    TodayBySymbolAgrees(p, p', m, e);
    TodayIsDated(p, e);
    forall i | 0 <= i < |bars|
      ensures ToSignal(p, params)(bars[i]) == ToSignal(p', params)(bars'[i])
      ensures ToTradable(p, params)(bars[i]) == ToTradable(p', params)(bars'[i])
    {
      assert QuoteRelation(m)(bars[i], bars'[i]);
      TemplatesAgree(p, p', params, m, bars[i], bars'[i]);
    }
    FilterMapCongruence(ToSignal(p, params), ToSignal(p', params), bars, bars');
    FilterMapCongruence(ToTradable(p, params), ToTradable(p', params), bars, bars');
  }

  lemma {:induction false} DeadlinesAgree(p: seq<BarSeries>, p': seq<BarSeries>, m: Moment, s: Symbol)
    requires PreparedAgree(p, p', m)
    ensures SeriesOf(p, s).Some? <==> SeriesOf(p', s).Some?
    ensures SeriesOf(p, s).Some? ==> Dates(SeriesOf(p, s).value) == Dates(SeriesOf(p', s).value)
  {
    SeriesOfAgrees(p, p', m, s);
    if SeriesOf(p, s).Some? {
      SameDates(SeriesOf(p, s).value, SeriesOf(p', s).value, m);
    }
  }

  // ---------------------------------------------------------------- the day loop

  /** The same candidates on date e, whatever the state. */
  ghost predicate OffersAgree(env: Env, env': Env, e: Date) {
    forall equity, ps, rng :: env.offer(e, equity, ps, rng) == env'.offer(e, equity, ps, rng)
  }

  /** Two runs whose bars agree at a moment and whose candidates agree on the dates that are over. */
  ghost predicate SameSetup(env: Env, env': Env, m: Moment) {
    && ValidEnv(env) && ValidEnv(env')
    && PreparedAgree(env.prepared, env'.prepared, m)
    && env'.params == env.params && env'.stress == env.stress && env'.seed == env.seed
    && forall e :: Over(m, e) ==> OffersAgree(env, env', e)
  }

  lemma {:induction false} OpenAllCausal(env: Env, env': Env, m: Moment, cs: seq<EntryCandidate>, equity: real,
                                         ps: seq<Position>, openedToday: nat)
    requires SameSetup(env, env', m)
    requires AllListed(env.prepared, cs) && AllListed(env'.prepared, cs)
    ensures OpenAll(env, cs, equity, ps, openedToday) == OpenAll(env', cs, equity, ps, openedToday)
    decreases |cs|
  {
    if cs == [] || DayFull(env.params, ps, openedToday) {
    } else {
      if OpenNotional(ps) + cs[0].Notional() > equity {
        OpenAllCausal(env, env', m, cs[1..], equity, ps, openedToday);
      } else {
        DeadlinesAgree(env.prepared, env'.prepared, m, cs[0].Symbol());
        var p := MakePosition(env, cs[0]);
        assert p == MakePosition(env', cs[0]);
        OpenAllCausal(env, env', m, cs[1..], equity, Put(ps, p), openedToday + 1);
      }
    }
  }

  /** With the same candidates and the same bars up to the open, date e opens the same positions:
      deadlines and limits do not look at the day's other prices. */
  lemma EntriesSeeOnlyTheOpen(env: Env, env': Env, m: Moment, e: Date, st: State)
    requires SameSetup(env, env', m) && OffersAgree(env, env', e)
    ensures EntryPhase(env, e, st) == EntryPhase(env', e, st)
  {
    var entries := env.offer(e, st.equity, st.positions, st.rng).1;
    OfferListed(env, e, st.equity, st.positions, st.rng);
    OfferListed(env', e, st.equity, st.positions, st.rng);
    OpenAllCausal(env, env', m, entries, st.equity, st.positions, 0);
  }

  lemma ExitsCausal(env: Env, env': Env, m: Moment, e: Date, st: State)
    requires SameSetup(env, env', m) && Over(m, e)
    ensures ExitPhase(env, e, st) == ExitPhase(env', e, st)
  {
    TodayAgrees(env.prepared, env'.prepared, m, e);
  }

  lemma StepCausal(env: Env, env': Env, m: Moment, e: Date, st: State)
    requires SameSetup(env, env', m) && Over(m, e)
    ensures StepDay(env, e, st) == StepDay(env', e, st)
  {
    if env.stress.exitBeforeEntryAtOpen {
      ExitsCausal(env, env', m, e, st);
      EntriesSeeOnlyTheOpen(env, env', m, e, ExitPhase(env, e, st));
    } else {
      EntriesSeeOnlyTheOpen(env, env', m, e, st);
      ExitsCausal(env, env', m, e, EntryPhase(env, e, st));
    }
  }

  lemma CalendarsAgree(p: seq<BarSeries>, p': seq<BarSeries>, m: Moment, cal: seq<Date>, cal': seq<Date>)
    requires PreparedAgree(p, p', m) && IsCalendar(p, cal) && IsCalendar(p', cal')
    ensures cal == cal'
  {
    forall i | 0 <= i < |p| ensures Dates(p[i]) == Dates(p'[i]) {
      assert BarsAgree(p[i], p'[i], m);
      SameDates(p[i], p'[i], m);
    }
    assert AllDates(p) == AllDates(p');
    AscendingUnique(cal, cal');
  }

  lemma {:induction false} RunsAgree(env: Env, env': Env, m: Moment, cal: seq<Date>, run: seq<State>, run': seq<State>,
      k: nat)
    requires SameSetup(env, env', m) && IsRun(env, cal, run) && IsRun(env', cal, run') && k < |run|
    requires forall j :: 0 <= j < k ==> Over(m, cal[j])
    ensures run[k] == run'[k]
    decreases k
  {
    if k == 0 {
    } else {
      RunsAgree(env, env', m, cal, run, run', k - 1);
      assert StepAt(env, cal, run, k - 1) && StepAt(env', cal, run', k - 1);
      StepCausal(env, env', m, cal[k - 1], run[k - 1]);
    }
  }

  /** The program on raw data. */
  function ConfigOn(data: seq<Series>, options: Options, seed: int): Config {
    ConfigOf(Prepare(data, options.params), options, seed)
  }

  function EnvOn(data: seq<Series>, options: Options, stress: ExecutionStress, seed: int): Env {
    Program(Prepare(data, options.params), options, stress, seed)
  }

  ghost predicate IsRunOn(data: seq<Series>, options: Options, stress: ExecutionStress, seed: int,
                          cal: seq<Date>, run: seq<State>)
  {
    && ValidData(data) && ValidOracle(options.oracle) && ValidEnv(EnvOn(data, options, stress, seed))
    && IsCalendar(Prepare(data, options.params), cal)
    && IsRun(EnvOn(data, options, stress, seed), cal, run)
  }

  /** The random-date schedule is drawn from the pools of all dates, so later data can move it.
      These are the two schedules agreeing on a date; the other baselines have none. */
  ghost predicate SameScheduleOn(data: seq<Series>, data': seq<Series>, options: Options, seed: int, e: Date) {
    options.kind.SymbolMatchedRandomDate? ==> SameOn(ConfigOn(data, options, seed), ConfigOn(data', options, seed), e)
  }

  /** With equal rows before date e and equal opening prices on it, the program offers the same
      candidates on it in every state exactly when the two schedules agree on it. */
  lemma {:induction false} ScheduleDecidesOffers(data: seq<Series>, data': seq<Series>, options: Options,
                                                 stress: ExecutionStress, seed: int, e: Date)
    requires ValidData(data) && ValidData(data') && ValidOracle(options.oracle) && Agree(data, data', AtOpen(e))
    ensures OffersAgree(EnvOn(data, options, stress, seed), EnvOn(data', options, stress, seed), e) <==>
            SameScheduleOn(data, data', options, seed, e)
  {
    var c, c' := ConfigOn(data, options, seed), ConfigOn(data', options, seed);
    PrepareCausal(data, data', AtOpen(e), options.params);
    PrepareValid(data, options.params);
    PrepareValid(data', options.params);
    PoolsCausal(c.prepared, c'.prepared, options.params, AtOpen(e), e);
    SchedulesDecide(c, c', stress, seed, e);
  }

  /** The same for two configurations with the same pools on the date. */
  lemma {:induction false} SchedulesDecide(c: Config, c': Config, stress: ExecutionStress, seed: int, e: Date)
    requires ValidPrepared(c.prepared) && ValidPrepared(c'.prepared) && ValidOracle(c.oracle)
    requires c'.params == c.params && c'.kind == c.kind && c'.selection == c.selection && c'.oracle == c.oracle
    requires SignalPool(c'.prepared, c.params, e) == SignalPool(c.prepared, c.params, e)
    requires TradablePool(c'.prepared, c.params, e) == TradablePool(c.prepared, c.params, e)
    ensures OffersAgree(ProgramEnv(c, stress, seed), ProgramEnv(c', stress, seed), e) <==>
            !c.kind.SymbolMatchedRandomDate? || SameOn(c, c', e)
  {
    SourcesOfConfigs(c, c', stress, seed, e);
    if c.kind.SymbolMatchedRandomDate? {
      SameOffersIffSameOn(c, c', e);
    }
  }

  lemma SourcesOfConfigs(c: Config, c': Config, stress: ExecutionStress, seed: int, e: Date)
    ensures OffersAgree(ProgramEnv(c, stress, seed), ProgramEnv(c', stress, seed), e) <==> SameOffers(c, c', e)
  {
    var env, env' := ProgramEnv(c, stress, seed), ProgramEnv(c', stress, seed);
    if SameOffers(c, c', e) {
      forall equity, ps, rng ensures env.offer(e, equity, ps, rng) == env'.offer(e, equity, ps, rng) {
        assert EntriesOn(c, e, equity, ps, rng) == EntriesOn(c', e, equity, ps, rng);
      }
    }
    if OffersAgree(env, env', e) {
      forall equity, ps, rng ensures EntriesOn(c, e, equity, ps, rng) == EntriesOn(c', e, equity, ps, rng) {
        assert env.offer(e, equity, ps, rng) == env'.offer(e, equity, ps, rng);
      }
    }
  }

  lemma {:induction false} ProgramsAgree(data: seq<Series>, data': seq<Series>, options: Options,
                                         stress: ExecutionStress, seed: int, m: Moment)
    requires ValidData(data) && ValidData(data') && ValidOracle(options.oracle) && Agree(data, data', m)
    requires forall e :: Over(m, e) ==> SameScheduleOn(data, data', options, seed, e)
    ensures SameSetup(EnvOn(data, options, stress, seed), EnvOn(data', options, stress, seed), m)
  {
    PrepareCausal(data, data', m, options.params);
    PrepareValid(data, options.params);
    PrepareValid(data', options.params);
    ProgramIsValid(ConfigOn(data, options, seed), stress, seed);
    ProgramIsValid(ConfigOn(data', options, seed), stress, seed);
    forall e | Over(m, e)
                 ensures OffersAgree(EnvOn(data, options, stress, seed), EnvOn(data', options, stress, seed), e) {
      AgreeEarlier(data, data', m, e);
      ScheduleDecidesOffers(data, data', options, stress, seed, e);
    }
  }

  lemma AgreeEarlier(data: seq<Series>, data': seq<Series>, m: Moment, e: Date)
    requires Agree(data, data', m) && Started(m, e)
    ensures Agree(data, data', AtOpen(e))
  {
    forall i | 0 <= i < |data| ensures SeriesAgree(data[i], data'[i], AtOpen(e)) {
      assert SeriesAgree(data[i], data'[i], m);
    }
  }

  /** Two data sets with the same trading dates that agree on every row dated up to d give the same
      equity, positions, trades and openings after every date up to d, whatever comes later. Of the
      random-date baseline this is asserted when the two schedules agree up to d. */
  lemma NoLookAhead(data: seq<Series>, data': seq<Series>, d: Date, options: Options, stress: ExecutionStress,
                    seed: int, cal: seq<Date>, cal': seq<Date>, run: seq<State>, run': seq<State>, k: nat)
    requires IsRunOn(data, options, stress, seed, cal, run) && IsRunOn(data', options, stress, seed, cal', run')
    requires Agree(data, data', AtClose(d))
    requires forall e :: e <= d ==> SameScheduleOn(data, data', options, seed, e)
    requires k < |run| && (k > 0 ==> cal[k - 1] <= d)
    ensures cal == cal' && run[k] == run'[k]
  {
    var m := AtClose(d);
    PrepareCausal(data, data', m, options.params);
    CalendarsAgree(Prepare(data, options.params), Prepare(data', options.params), m, cal, cal');
    ProgramsAgree(data, data', options, stress, seed, m);
    RunsAgree(EnvOn(data, options, stress, seed), EnvOn(data', options, stress, seed), m, cal, run, run', k);
  }

  /** The two programs with equal rows before the k-th date and equal opening prices on it: the same
      calendar, the same setup and offers up to that date, and the same state before it. */
  lemma SameUntilOpen(data: seq<Series>, data': seq<Series>, options: Options, stress: ExecutionStress, seed: int,
                      cal: seq<Date>, cal': seq<Date>, run: seq<State>, run': seq<State>, k: nat)
    requires IsRunOn(data, options, stress, seed, cal, run) && IsRunOn(data', options, stress, seed, cal', run')
    requires k < |cal| && Agree(data, data', AtOpen(cal[k]))
    requires forall e :: e <= cal[k] ==> SameScheduleOn(data, data', options, seed, e)
    ensures cal == cal' && run[k] == run'[k]
    ensures var env, env' := EnvOn(data, options, stress, seed), EnvOn(data', options, stress, seed);
            SameSetup(env, env', AtOpen(cal[k])) && OffersAgree(env, env', cal[k])
  {
    var env, env' := EnvOn(data, options, stress, seed), EnvOn(data', options, stress, seed);
    var m := AtOpen(cal[k]);
    PrepareCausal(data, data', m, options.params);
    CalendarsAgree(Prepare(data, options.params), Prepare(data', options.params), m, cal, cal');
    ProgramsAgree(data, data', options, stress, seed, m);
    ScheduleDecidesOffers(data, data', options, stress, seed, cal[k]);
    RunsAgree(env, env', m, cal, run, run', k);
  }

  /** Entries before exits: what is opened on the k-th date depends only on the rows before it
      and its opening prices, so the day's high, low and close cannot influence the choice. Again
      the random-date baseline needs schedules that agree up to the date. */
  lemma EntriesKnowOnlyTheOpen(data: seq<Series>, data': seq<Series>, options: Options, stress: ExecutionStress,
                               seed: int, cal: seq<Date>, cal': seq<Date>, run: seq<State>, run': seq<State>, k: nat)
    requires IsRunOn(data, options, stress, seed, cal, run) && IsRunOn(data', options, stress, seed, cal', run')
    requires k < |cal| && Agree(data, data', AtOpen(cal[k]))
    requires forall e :: e <= cal[k] ==> SameScheduleOn(data, data', options, seed, e)
    ensures cal == cal'
    ensures EntryPhase(EnvOn(data, options, stress, seed), cal[k], run[k])
         == EntryPhase(EnvOn(data', options, stress, seed), cal[k], run'[k])
  {
    var env, env' := EnvOn(data, options, stress, seed), EnvOn(data', options, stress, seed);
    SameUntilOpen(data, data', options, stress, seed, cal, cal', run, run', k);
    EntriesSeeOnlyTheOpen(env, env', AtOpen(cal[k]), cal[k], run[k]);
  }
}
