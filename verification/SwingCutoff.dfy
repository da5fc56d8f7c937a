/** Data that end at a date against the full data: bars, pools and offers of the dates that remain are the
    same, and a deadline is clamped to the last known date when the holding window reaches past it. */
module SwingCutoff {
  import opened Prelude
  import opened Sorting
  import opened SwingTypes
  import opened SwingIndicators
  import opened SwingPools
  import opened SwingEntries
  import opened SwingSchedule
  import opened SwingEngine
  import opened SwingProgram
  import opened SwingScheduledOffers
  import opened SwingDeadlines
  import opened SwingCausality

  // ---------------------------------------------------------------- data that end at a date

  /** The rows of a symbol up to a date, of which there is at least one. */
  ghost predicate RowsUpTo(part: seq<Row>, all: seq<Row>, last: Date) {
    && 0 < |part| <= |all| && part == all[..|part|]
    && (forall k :: 0 <= k < |part| ==> part[k].date <= last)
    && (forall k :: |part| <= k < |all| ==> all[k].date > last)
  }

  ghost predicate DataUpTo(part: seq<Series>, all: seq<Series>, last: Date) {
    |part| == |all| && forall i :: 0 <= i < |all| ==>
      part[i].symbol == all[i].symbol && RowsUpTo(part[i].rows, all[i].rows, last)
  }

  /** The same for prepared bars. */
  ghost predicate SeriesUpTo(part: BarSeries, all: BarSeries, last: Date) {
    && part.symbol == all.symbol && |part.bars| <= |all.bars| && part.bars == all.bars[..|part.bars|]
    && (forall k :: 0 <= k < |part.bars| ==> part.bars[k].date <= last)
    && (forall k :: |part.bars| <= k < |all.bars| ==> all.bars[k].date > last)
  }

  ghost predicate UpTo(part: seq<BarSeries>, all: seq<BarSeries>, last: Date) {
    |part| == |all| && forall i :: 0 <= i < |all| ==> SeriesUpTo(part[i], all[i], last)
  }

  lemma {:induction false} PreparedUpTo(s: Symbol, part: seq<Row>, all: seq<Row>, last: Date, params: Params)
    requires RowsUpTo(part, all, last)
    ensures SeriesUpTo(BarSeries(s, BarsUpTo(s, part, |part|, params)),
                       BarSeries(s, BarsUpTo(s, all, |all|, params)), last)
  {
    var bars, bars' := BarsUpTo(s, part, |part|, params), BarsUpTo(s, all, |all|, params);
    forall i | 0 <= i < |part| ensures bars[i] == bars'[..|part|][i] {
      assert part[..i + 1] == all[..i + 1];
      BarCausal(s, part, all, i, params);
    }
  }

  /** Cutting the rows cuts the prepared bars. */
  lemma {:induction false} PrepareUpTo(part: seq<Series>, all: seq<Series>, last: Date, params: Params)
    requires DataUpTo(part, all, last)
    ensures UpTo(Prepare(part, params), Prepare(all, params), last)
  {
    forall i | 0 <= i < |all| ensures SeriesUpTo(Prepare(part, params)[i], Prepare(all, params)[i], last) {
      PreparedUpTo(all[i].symbol, part[i].rows, all[i].rows, last, params);
    }
  }

  // ---------------------------------------------------------------- the days that remain

  lemma IndexInPart(ds: seq<Date>, m: nat, d: Date)
    requires m <= |ds| && d in ds[..m]
    ensures d in ds && IndexOf(ds, d) == IndexOf(ds[..m], d)
  {
    var i := IndexOf(ds[..m], d);
    assert ds[i] == ds[..m][i];
  }

  lemma {:induction false} DatesUpTo(part: BarSeries, all: BarSeries, last: Date)
    requires SeriesUpTo(part, all, last)
    ensures Dates(part) == Dates(all)[..|part.bars|]
    ensures forall d :: d in Dates(part) <==> d in Dates(all) && d <= last
  {
    forall k | 0 <= k < |part.bars| ensures Dates(part)[k] == Dates(all)[..|part.bars|][k] {
      assert part.bars[k] == all.bars[..|part.bars|][k];
    }
    forall d ensures d in Dates(part) <==> d in Dates(all) && d <= last {
      if d in Dates(part) {
        IndexInPart(Dates(all), |part.bars|, d);
      }
      if d in Dates(all) && d <= last {
        var k := IndexOf(Dates(all), d);
        assert k < |part.bars|;
        assert Dates(part)[k] == d;
      }
    }
  }

  lemma {:induction false} BarUpTo(part: BarSeries, all: BarSeries, last: Date, d: Date)
    requires SeriesUpTo(part, all, last) && d <= last
    ensures BarOn(part, d) == BarOn(all, d) && PreviousIn(part, d) == PreviousIn(all, d)
  {
    DatesUpTo(part, all, last);
    if d in Dates(part) {
      IndexInPart(Dates(all), |part.bars|, d);
      var i := IndexOf(Dates(part), d);
      assert part.bars[i] == all.bars[..|part.bars|][i];
      assert i > 0 ==> part.bars[i - 1] == all.bars[..|part.bars|][i - 1];
    }
  }

  lemma {:induction false} TodayUpTo(part: seq<BarSeries>, all: seq<BarSeries>, last: Date, d: Date)
    requires UpTo(part, all, last) && d <= last
    ensures Today(part, d) == Today(all, d)
  {
    forall i | 0 <= i < |all| ensures OnDate(d)(part[i]) == OnDate(d)(all[i]) {
      BarUpTo(part[i], all[i], last, d);
    }
    FilterMapCongruence(OnDate(d), OnDate(d), part, all);
  }

  lemma {:induction false} SeriesOfUpTo(part: seq<BarSeries>, all: seq<BarSeries>, last: Date, s: Symbol)
    requires UpTo(part, all, last)
    ensures SeriesOf(part, s).Some? <==> SeriesOf(all, s).Some?
    ensures SeriesOf(part, s).Some? ==> SeriesUpTo(SeriesOf(part, s).value, SeriesOf(all, s).value, last)
    decreases |part|
  {
    if part == [] {
    } else {
      assert SeriesUpTo(part[0], all[0], last);
      SeriesOfUpTo(part[1..], all[1..], last, s);
    }
  }

  lemma {:induction false} PreviousUpTo(part: seq<BarSeries>, all: seq<BarSeries>, last: Date, s: Symbol, d: Date)
    requires UpTo(part, all, last) && d <= last
    ensures Previous(part, s, d) == Previous(all, s, d)
    ensures Previous(part, s, d).Some? ==> Previous(part, s, d).value.date <= last
  {
    SeriesOfUpTo(part, all, last, s);
    if SeriesOf(part, s).Some? {
      BarUpTo(SeriesOf(part, s).value, SeriesOf(all, s).value, last, d);
    }
  }

  lemma {:induction false} ContextUpTo(part: seq<BarSeries>, all: seq<BarSeries>, last: Date, s: Symbol, d: Date)
    requires UpTo(part, all, last) && d <= last
    ensures Previous(part, s, d) == Previous(all, s, d)
    ensures Previous(part, s, d).Some? ==>
              MarketOn(part, Previous(part, s, d).value.date) == MarketOn(all, Previous(part, s, d).value.date)
  {
    PreviousUpTo(part, all, last, s, d);
    if Previous(part, s, d).Some? {
      TodayUpTo(part, all, last, Previous(part, s, d).value.date);
    }
  }

  /** The pools of the remaining dates are unchanged. */
  lemma {:induction false} PoolsUpTo(part: seq<BarSeries>, all: seq<BarSeries>, last: Date, params: Params, d: Date)
    requires UpTo(part, all, last) && d <= last
    ensures SignalPool(part, params, d) == SignalPool(all, params, d)
    ensures TradablePool(part, params, d) == TradablePool(all, params, d)
  {
    var bars := TodayBySymbol(all, d);
    TodayUpTo(part, all, last, d);
    TodayIsDated(all, d);
    forall i | 0 <= i < |bars|
      ensures ToSignal(part, params)(bars[i]) == ToSignal(all, params)(bars[i])
      ensures ToTradable(part, params)(bars[i]) == ToTradable(all, params)(bars[i])
    {
      ContextUpTo(part, all, last, bars[i].symbol, bars[i].date);
    }
    FilterMapCongruence(ToSignal(part, params), ToSignal(all, params), bars, bars);
    FilterMapCongruence(ToTradable(part, params), ToTradable(all, params), bars, bars);
  }

  // ---------------------------------------------------------------- deadlines

  /** The candidate's holding window ends inside the part, or nothing of its symbol was cut. */
  predicate WindowFits(part: seq<BarSeries>, all: seq<BarSeries>, params: Params, c: EntryCandidate)
    requires Listed(part, c.Symbol(), c.template.entryDate) && Listed(all, c.Symbol(), c.template.entryDate)
  {
    var ds, ds' := Dates(SeriesOf(all, c.Symbol()).value), Dates(SeriesOf(part, c.Symbol()).value);
    |ds'| == |ds| || IndexOf(ds, c.template.entryDate) + params.maxHoldDays < |ds'|
  }

  lemma {:induction false} DeadlineFits(env: Env, env': Env, last: Date, c: EntryCandidate)
    requires ValidPrepared(env.prepared) && UpTo(env'.prepared, env.prepared, last) && env'.params == env.params
    requires Listed(env'.prepared, c.Symbol(), c.template.entryDate)
    ensures Listed(env.prepared, c.Symbol(), c.template.entryDate)
    ensures MakePosition(env', c) == MakePosition(env, c) <==> WindowFits(env'.prepared, env.prepared, env.params, c)
  {
    SeriesOfUpTo(env'.prepared, env.prepared, last, c.Symbol());
    var part, all := SeriesOf(env'.prepared, c.Symbol()).value, SeriesOf(env.prepared, c.Symbol()).value;
    DatesUpTo(part, all, last);
    var i :| 0 <= i < |env.prepared| && env.prepared[i] == all;
    assert ValidSeries(env.prepared[i]);
    DeadlineIgnoresLaterDates(Dates(all), |part.bars|, c.template.entryDate, env.params.maxHoldDays);
  }

  // ---------------------------------------------------------------- the program

  /** The run on the part and the run on the whole, as long as the part lasts. */
  ghost predicate SamePrograms(env: Env, env': Env, last: Date) {
    && ValidEnv(env) && ValidEnv(env')
    && UpTo(env'.prepared, env.prepared, last)
    && env'.params == env.params && env'.stress == env.stress && env'.seed == env.seed
    && forall e :: e <= last ==> OffersAgree(env, env', e)
  }

  lemma {:induction false} OffersUpTo(c: Config, c': Config, last: Date, stress: ExecutionStress, seed: int, e: Date)
    requires ValidPrepared(c.prepared) && ValidPrepared(c'.prepared) && ValidOracle(c.oracle)
    requires c'.params == c.params && c'.kind == c.kind && c'.selection == c.selection && c'.oracle == c.oracle
    requires UpTo(c'.prepared, c.prepared, last) && e <= last
    ensures OffersAgree(ProgramEnv(c, stress, seed), ProgramEnv(c', stress, seed), e) <==>
            !c.kind.SymbolMatchedRandomDate? || SameOn(c, c', e)
  {
    PoolsUpTo(c'.prepared, c.prepared, last, c.params, e);
    SchedulesDecide(c, c', stress, seed, e);
  }

  /** The program on cut data and on the full data are such a pair, the random-date baseline provided
      that its two schedules agree up to the cut. */
  lemma {:induction false} ProgramsUpTo(part: seq<Series>, all: seq<Series>, last: Date, options: Options,
                                        stress: ExecutionStress, seed: int)
    requires ValidData(part) && ValidData(all) && ValidOracle(options.oracle) && DataUpTo(part, all, last)
    requires forall e :: e <= last ==> SameScheduleOn(all, part, options, seed, e)
    ensures SamePrograms(EnvOn(all, options, stress, seed), EnvOn(part, options, stress, seed), last)
  {
    var c, c' := ConfigOn(all, options, seed), ConfigOn(part, options, seed);
    PrepareUpTo(part, all, last, options.params);
    PrepareValid(part, options.params);
    PrepareValid(all, options.params);
    ProgramIsValid(c, stress, seed);
    ProgramIsValid(c', stress, seed);
    forall e | e <= last ensures OffersAgree(ProgramEnv(c, stress, seed), ProgramEnv(c', stress, seed), e) {
      assert SameScheduleOn(all, part, options, seed, e);
      OffersUpTo(c, c', last, stress, seed, e);
    }
  }

  lemma {:induction false} CalendarUpTo(part: seq<BarSeries>, all: seq<BarSeries>, last: Date, cal: seq<Date>, n: nat)
    requires UpTo(part, all, last) && IsCalendar(all, cal) && n <= |cal|
    requires (forall j :: 0 <= j < n ==> cal[j] <= last) && (forall j :: n <= j < |cal| ==> cal[j] > last)
    ensures IsCalendar(part, cal[..n])
  {
    forall d ensures d in cal[..n] <==> d in AllDates(part) {
      if d in cal[..n] {
        assert d in cal && d in AllDates(all);
        var i :| 0 <= i < |all| && d in Dates(all[i]);
        DatesUpTo(part[i], all[i], last);
      }
      if d in AllDates(part) {
        var i :| 0 <= i < |part| && d in Dates(part[i]);
        DatesUpTo(part[i], all[i], last);
        assert d in AllDates(all) && d in cal;
        var j :| 0 <= j < |cal| && cal[j] == d;
        assert cal[..n][j] == d;
      }
    }
  }

  /** How many of the dates come up to the last one. */
  function Remaining(cal: seq<Date>, last: Date): (n: nat)
    requires StrictlyIncreasing(cal)
    ensures n <= |cal|
    ensures forall j :: 0 <= j < n ==> cal[j] <= last
    ensures forall j :: n <= j < |cal| ==> cal[j] > last
  {
    if cal == [] then 0
    else if cal[|cal| - 1] <= last then |cal|
    else Remaining(cal[..|cal| - 1], last)
  }
}
