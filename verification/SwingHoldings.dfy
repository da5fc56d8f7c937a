/** Concrete runs about one holding: the strategy enters a single position on the first entry date of a
    ramp, and what happens to it depends on where the data end and on one low. */
module SwingHoldings {
  import opened Prelude
  import opened Sorting
  import opened SwingTypes
  import opened SwingSignals
  import opened SwingPools
  import opened SwingEntries
  import opened SwingEngine
  import opened SwingRisk
  import opened SwingCausality
  import opened SwingCutoff
  import opened SwingCutRuns
  import opened SwingRamp
  import opened SwingWitness

  // ---------------------------------------------------------------- the position

  /** Entered at 121 with the stop at 120 and the target at 122, for at most a quarter of the capital. */
  ghost predicate FirstHolding(sr: BarSeries, p: Position) {
    && p.Symbol() == sr.symbol && p.EntryDate() == FIRST_ENTRY
    && p.entry.template.entryPrice == 121.0 && p.entry.template.stopPrice == 120.0
    && p.entry.template.targetPrice == 122.0
    && 0.0 <= p.entry.Notional() <= 250.0
    && p.maxExitDate == MinInt(26, |sr.bars| - 1)
  }

  lemma {:induction false} HoldingDeadline(sr: BarSeries)
    requires Daily(sr) && |sr.bars| > FIRST_ENTRY
    ensures Listed([sr], sr.symbol, FIRST_ENTRY)
    ensures NthSymbolDate([sr], sr.symbol, FIRST_ENTRY, 5) == MinInt(26, |sr.bars| - 1)
  {
    DailyIsValid(sr);
    assert Dates(sr)[21] == 21;
    IncreasingIndex(Dates(sr), 21);
  }

  lemma {:induction false} CandidateHolds(sr: BarSeries, env: Env, c: EntryCandidate)
    requires Daily(sr) && |sr.bars| > FIRST_ENTRY && env.prepared == [sr] && env.params == RampParams()
    requires GoodCandidate(env, FIRST_ENTRY, 1000.0, [], c)
    requires EntryAt(Some(c.template), 121.0) && c.Symbol() == sr.symbol
    ensures FirstHolding(sr, MakePosition(env, c))
  {
    HoldingDeadline(sr);
    QuarterAtMost(env, FIRST_ENTRY, 1000.0, c);
    assert TargetPlaced(RampParams(), c.template);
  }

  /** The strategy's entries on the first entry date, from the initial state. */
  lemma {:induction false} FirstEntries(sr: BarSeries, exitsFirst: bool, seed: int) returns (p: Position)
    requires EntersOnRamp(sr) && ValidEnv(EnvOfRamp(sr, Strategy, exitsFirst, seed))
    ensures FirstHolding(sr, p)
    ensures var env := EnvOfRamp(sr, Strategy, exitsFirst, seed);
            var st := EntryPhase(env, FIRST_ENTRY, Initial(env));
            st.equity == 1000.0 && st.positions == [p] && st.trades == []
  {
    var env := EnvOfRamp(sr, Strategy, exitsFirst, seed);
    var c := FirstOffer(sr, exitsFirst, seed);
    OfferListed(env, FIRST_ENTRY, 1000.0, [], seed);
    assert [c][0] in [c];
    CandidateHolds(sr, env, c);
    OneOpens(env, c, 1000.0);
    p := MakePosition(env, c);
  }

  // ---------------------------------------------------------------- its exit on a date

  /** The exits of a book of one. */
  lemma {:induction false} ExitOfOne(env: Env, d: Date, st: State, p: Position)
    requires st.positions == [p]
    ensures var t := ExitToday(Today(env.prepared, d), p, env.params, env.stress);
            var next := ExitPhase(env, d, st);
            if t.None? then next == st
            else next.positions == [] && next.trades == st.trades + [t.value]
                 && next.equity == st.equity + t.value.netPnl
  {
    var today := Today(env.prepared, d);
    FilterMapCons(ToExit(today, env.params, env.stress), p, []);
    FilterMapCons(ToSurvivor(today, env.params, env.stress), p, []);
    assert [p] + [] == [p];
    if t :| ExitToday(today, p, env.params, env.stress) == Some(t) {
      assert [t][..0] == [] && NetPnl([t]) == NetPnl([]) + t.netPnl;
    } else {
      assert st.trades + [] == st.trades && NetPnl([]) == 0.0;
    }
  }

  lemma {:induction false} ExitOnDay(sr: BarSeries, params: Params, stress: ExecutionStress, p: Position, i: nat)
    requires Daily(sr) && i < |sr.bars| && p.Symbol() == sr.symbol
    ensures ExitToday(Today([sr], i), p, params, stress) == ExitOnBar(p, sr.bars[i], params, stress)
  {
    DailyIsValid(sr);
    BarTodayIsListed([sr], i, sr.symbol);
    DailyBar(sr, i);
  }

  /** A bar that reaches the stop closes the holding there; one between stop and target leaves it to its
      deadline. */
  lemma {:induction false} HoldingExit(sr: BarSeries, p: Position, bar: Bar, exitsFirst: bool)
    requires FirstHolding(sr, p) && bar.open > 120.0
    ensures var r := ExitOnBar(p, bar, RampParams(), Stress(exitsFirst));
            && (bar.low <= 120.0 ==> r.Some? && r.value.reason == Stop && r.value.position == p)
            && (bar.low > 120.0 && bar.high < 122.0 ==>
                  if bar.date >= p.maxExitDate then r.Some? && r.value.reason == MaxHold && r.value.position == p
                  else r.None?)
            && (r.Some? ==> r.value.netPnl >= -250.0 || bar.low > 120.0)
  {
  }

  // ---------------------------------------------------------------- data that end earlier

  /** The rows up to the first entry date, of which the last may fall to 119. */
  function EntryRows(falls: bool): seq<Row> {
    Ramp(100.0, 21) + [if falls then OhlcvRow(21, 121.0, 121.0, 119.0, 119.0, 0.0) else Quote(100.0, 21)]
  }

  /** One more row. */
  function LongerRows(falls: bool): seq<Row> { EntryRows(falls) + [Quote(100.0, 22)] }

  ghost predicate LastBarIs(sr: BarSeries, falls: bool) {
    && EntersOnRamp(sr)
    && sr.bars[21].high == 121.0 && sr.bars[21].low == (if falls then 119.0 else 121.0)
  }

  lemma {:induction false} EntryBars(s: Symbol, rows: seq<Row>, falls: bool)
    requires rows == EntryRows(falls) || rows == LongerRows(falls)
    ensures LastBarIs(BarsOf(s, rows), falls) && ValidRows(rows)
  {
    assert rows[..21] == Ramp(100.0, 21) && rows[21] == EntryRows(falls)[21];
    PreparedRamp(s, 100.0, rows, 21);
  }

  lemma RowsAreCut(s: Symbol, falls: bool)
    ensures DataUpTo([Series(s, EntryRows(falls))], [Series(s, LongerRows(falls))], FIRST_ENTRY)
  {
    var part, all := EntryRows(falls), LongerRows(falls);
    forall k | 0 <= k < |all| ensures all[k].date == k {
    }
    assert all[..|part|] == part;
    assert RowsUpTo(part, all, FIRST_ENTRY);
  }

  /** Entries first: the first entry date of a run, whose exits close the position if its bar falls or is
      the last one. */
  lemma {:induction false} FirstDay(sr: BarSeries, falls: bool, seed: int) returns (p: Position)
    requires LastBarIs(sr, falls) && ValidEnv(EnvOfRamp(sr, Strategy, false, seed))
    ensures FirstHolding(sr, p)
    ensures var env := EnvOfRamp(sr, Strategy, false, seed);
            var next := StepDay(env, FIRST_ENTRY, Initial(env));
            if falls || |sr.bars| == 22 then
              && next.positions == [] && |next.trades| == 1 && next.trades[0].position == p
              && next.trades[0].reason == if falls then Stop else MaxHold
            else next.positions == [p] && next.trades == []
  {
    var env := EnvOfRamp(sr, Strategy, false, seed);
    p := FirstEntries(sr, false, seed);
    HoldingExit(sr, p, sr.bars[21], false);
    ExitOnDay(sr, RampParams(), Stress(false), p, 21);
    ExitOfOne(env, FIRST_ENTRY, EntryPhase(env, FIRST_ENTRY, Initial(env)), p);
  }

  lemma {:induction false} AfterFirstDay(s: Symbol, rows: seq<Row>, falls: bool, seed: int, cal: seq<Date>,
                                         run: seq<State>)
    returns (p: Position)
    requires rows == EntryRows(falls) || rows == LongerRows(falls)
    requires IsRunOn([Series(s, rows)], RampOptions(Strategy), Stress(false), seed, cal, run)
    ensures |run| > 22 && FirstHolding(BarsOf(s, rows), p)
    ensures if falls || |rows| == 22 then
              && run[22].positions == [] && |run[22].trades| == 1 && run[22].trades[0].position == p
              && run[22].trades[0].reason == if falls then Stop else MaxHold
            else run[22].positions == [p] && run[22].trades == []
  {
    var sr := BarsOf(s, rows);
    var env := EnvOfRamp(sr, Strategy, false, seed);
    PrepareOne(s, rows);
    EntryBars(s, rows, falls);
    StateAtFirstEntry(sr, 100.0, 21, Strategy, false, seed, cal, run);
    assert StepAt(env, cal, run, FIRST_ENTRY);
    p := FirstDay(sr, falls, seed);
  }

  /** A deadline depends on later rows: without the row of the next day the position is closed on its
      first day as held too long, with it the position stays open. */
  lemma {:induction false} CutRunClosesEarlier(s: Symbol, seed: int, cal: seq<Date>, run: seq<State>, cal': seq<Date>,
                                               run': seq<State>)
    requires IsRunOn([Series(s, LongerRows(false))], RampOptions(Strategy), Stress(false), seed, cal, run)
    requires IsRunOn([Series(s, EntryRows(false))], RampOptions(Strategy), Stress(false), seed, cal', run')
    ensures DataUpTo([Series(s, EntryRows(false))], [Series(s, LongerRows(false))], FIRST_ENTRY)
    ensures |run| > 22 && |run[22].positions| == 1 && run[22].trades == []
    ensures |run'| > 22 && run'[22].positions == [] && |run'[22].trades| == 1 && run'[22].trades[0].reason == MaxHold
  {
    RowsAreCut(s, false);
    var p := AfterFirstDay(s, LongerRows(false), false, seed, cal, run);
    var p' := AfterFirstDay(s, EntryRows(false), false, seed, cal', run');
  }

  lemma {:induction false} HoldingDoesNotFit(part: BarSeries, all: BarSeries, p: Position)
    requires Daily(part) && Daily(all) && |part.bars| == 22 && |all.bars| == 23
    requires Listed([part], p.Symbol(), FIRST_ENTRY) && Listed([all], p.Symbol(), FIRST_ENTRY)
    requires p.EntryDate() == FIRST_ENTRY
    ensures !WindowFits([part], [all], RampParams(), p.entry)
  {
    DailyIsValid(all);
    assert Dates(all)[21] == 21;
    IncreasingIndex(Dates(all), 21);
  }

  lemma {:induction false} HoldingIsUnfit(s: Symbol, seed: int, p: Position)
    requires FirstHolding(BarsOf(s, LongerRows(true)), p)
    ensures !PositionFits(EnvOn([Series(s, LongerRows(true))], RampOptions(Strategy), Stress(false), seed),
                          EnvOn([Series(s, EntryRows(true))], RampOptions(Strategy), Stress(false), seed), p)
  {
    var part, all := BarsOf(s, EntryRows(true)), BarsOf(s, LongerRows(true));
    PrepareOne(s, EntryRows(true));
    PrepareOne(s, LongerRows(true));
    EntryBars(s, EntryRows(true), true);
    EntryBars(s, LongerRows(true), true);
    HoldingDeadline(part);
    HoldingDeadline(all);
    HoldingDoesNotFit(part, all, p);
  }

  /** The two runs keep the same although a window did not fit, when a price closed its position. */
  lemma {:induction false} UnfitPositionStopsOut(s: Symbol, seed: int, cal: seq<Date>, run: seq<State>,
                                                 cal': seq<Date>, run': seq<State>)
    requires IsRunOn([Series(s, LongerRows(true))], RampOptions(Strategy), Stress(false), seed, cal, run)
    requires IsRunOn([Series(s, EntryRows(true))], RampOptions(Strategy), Stress(false), seed, cal', run')
    ensures |run| > 22 && |run'| > 22 && SameKept(run[22], run'[22])
    ensures |run[22].trades| == 1 && run[22].trades[0].reason == Stop
    ensures !PositionFits(EnvOn([Series(s, LongerRows(true))], RampOptions(Strategy), Stress(false), seed),
                          EnvOn([Series(s, EntryRows(true))], RampOptions(Strategy), Stress(false), seed),
                          run[22].trades[0].position)
  {
    var part, all := [Series(s, EntryRows(true))], [Series(s, LongerRows(true))];
    RowsAreCut(s, true);
    var p := AfterFirstDay(s, LongerRows(true), true, seed, cal, run);
    var p' := AfterFirstDay(s, EntryRows(true), true, seed, cal', run');
    CutDataRun(part, all, FIRST_ENTRY, RampOptions(Strategy), Stress(false), seed, cal, run, cal', run', 22);
    HoldingIsUnfit(s, seed, p);
  }

  // ---------------------------------------------------------------- exits first: one low decides an entry

  /** Two more days, the first of which may fall to 119 after its open. */
  function TwoDays(falls: bool): seq<Row> {
    Ramp(100.0, 22) + [OhlcvRow(22, 121.5, 121.5, if falls then 119.0 else 121.5, 121.5, 0.0), Quote(100.0, 23)]
  }

  ghost predicate SecondBarIs(sr: BarSeries, falls: bool) {
    && EntersOnRamp(sr) && RampTo(sr, 100.0, 22) && |sr.bars| == 24
    && sr.bars[22].open == sr.bars[22].high == 121.5 && sr.bars[22].low == (if falls then 119.0 else 121.5)
  }

  lemma {:induction false} TwoDayBars(s: Symbol, falls: bool)
    ensures SecondBarIs(BarsOf(s, TwoDays(falls)), falls) && ValidRows(TwoDays(falls))
  {
    var rows := TwoDays(falls);
    assert rows[..22] == Ramp(100.0, 22) && rows[..21] == Ramp(100.0, 21) && rows[21] == Quote(100.0, 21);
    PreparedRamp(s, 100.0, rows, 21);
    PreparedRamp(s, 100.0, rows, 22);
  }

  lemma TwoDaysAgree(s: Symbol)
    ensures Agree([Series(s, TwoDays(false))], [Series(s, TwoDays(true))], AtOpen(22))
  {
    var rows, rows' := TwoDays(false), TwoDays(true);
    forall k | 0 <= k < 24 ensures rows[k].date == rows'[k].date == k && (k < 22 ==> rows[k] == rows'[k]) {
      if k < 22 {
        assert rows[k] == Ramp(100.0, 22)[k] == rows'[k];
      }
    }
    assert SeriesAgree(Series(s, rows), Series(s, rows'), AtOpen(22));
  }

  lemma {:induction false} NothingForHeld(sr: BarSeries, seed: int, i: nat, equity: real, p: Position, rng: int)
    requires Daily(sr) && i < |sr.bars| && p.Symbol() == sr.symbol
    ensures EntriesOn(Setup(sr, Strategy, seed), i, equity, [p], rng) == (rng, [])
  {
    var pool := SignalPool([sr], RampParams(), i);
    PoolSymbols(sr, RampParams(), i);
    forall k | 0 <= k < |pool| ensures IfNotHeld([p])(pool[k]).None? {
      assert pool[k] in pool && [p][0].Symbol() == pool[k].symbol;
    }
    KeptNone(IfNotHeld([p]), pool);
  }

  /** The second day when the position is open before it. */
  lemma {:induction false} SecondDay(sr: BarSeries, falls: bool, seed: int, st: State, p: Position)
    requires SecondBarIs(sr, falls) && ValidEnv(EnvOfRamp(sr, Strategy, true, seed))
    requires FirstHolding(sr, p) && st.positions == [p] && st.equity == 1000.0
    ensures var next := StepDay(EnvOfRamp(sr, Strategy, true, seed), 22, st);
            if falls then |next.positions| == 1 && next.positions[0].EntryDate() == 22
            else next.positions == st.positions
  {
    var env := EnvOfRamp(sr, Strategy, true, seed);
    var mid := ExitPhase(env, 22, st);
    HoldingExit(sr, p, sr.bars[22], true);
    ExitOnDay(sr, RampParams(), Stress(true), p, 22);
    ExitOfOne(env, 22, st, p);
    if falls {
      Reenters(sr, seed, mid);
    } else {
      NothingForHeld(sr, seed, 22, 1000.0, p, st.rng);
    }
  }

  lemma {:induction false} Reenters(sr: BarSeries, seed: int, st: State)
    requires RampTo(sr, 100.0, 22) && sr.bars[22].open == 121.5
    requires ValidEnv(EnvOfRamp(sr, Strategy, true, seed)) && st.positions == [] && st.equity >= 750.0
    ensures var next := EntryPhase(EnvOfRamp(sr, Strategy, true, seed), 22, st);
            |next.positions| == 1 && next.positions[0].EntryDate() == 22
  {
    var env := EnvOfRamp(sr, Strategy, true, seed);
    QuotientBounds(121.5, Price(100.0, 21), 0.0, 1.01);
    var c := RampOffer(sr, 22, 22, st.equity, seed, st.rng);
    OfferListed(env, 22, st.equity, [], st.rng);
    assert [c][0] in [c];
    QuarterAtMost(env, 22, st.equity, c);
    OneOpens(env, c, st.equity);
  }

  lemma {:induction false} AfterSecondDay(s: Symbol, falls: bool, seed: int, cal: seq<Date>, run: seq<State>)
    requires IsRunOn([Series(s, TwoDays(falls))], RampOptions(Strategy), Stress(true), seed, cal, run)
    ensures |cal| == 24 && cal[22] == 22
    ensures if falls then |run[23].positions| == 1 && run[23].positions[0].EntryDate() == 22
            else run[23].positions == run[22].positions
  {
    var sr := BarsOf(s, TwoDays(falls));
    var env := EnvOfRamp(sr, Strategy, true, seed);
    PrepareOne(s, TwoDays(falls));
    TwoDayBars(s, falls);
    StateAtFirstEntry(sr, 100.0, 21, Strategy, true, seed, cal, run);
    NothingToClose(env, FIRST_ENTRY, Initial(env));
    var p := FirstEntries(sr, true, seed);
    assert StepAt(env, cal, run, FIRST_ENTRY) && StepAt(env, cal, run, 22);
    SecondDay(sr, falls, seed, run[22], p);
  }

  /** Exits first, the low of a date can decide what is opened at its open: on the same book, when the low
      reaches the stop the position is closed and the symbol entered again, and otherwise it stays. */
  lemma {:induction false} LowDecidesEntry(s: Symbol, seed: int, cal: seq<Date>, run: seq<State>, cal': seq<Date>,
                                           run': seq<State>)
    requires IsRunOn([Series(s, TwoDays(false))], RampOptions(Strategy), Stress(true), seed, cal, run)
    requires IsRunOn([Series(s, TwoDays(true))], RampOptions(Strategy), Stress(true), seed, cal', run')
    ensures Agree([Series(s, TwoDays(false))], [Series(s, TwoDays(true))], AtOpen(22))
    ensures |cal| == 24 && cal == cal' && cal[22] == 22 && run[22] == run'[22]
    ensures run[23].positions == run[22].positions
    ensures |run'[23].positions| == 1 && run'[23].positions[0].EntryDate() == 22
  {
    TwoDaysAgree(s);
    AfterSecondDay(s, false, seed, cal, run);
    AfterSecondDay(s, true, seed, cal', run');
    SameUntilOpen([Series(s, TwoDays(false))], [Series(s, TwoDays(true))], RampOptions(Strategy), Stress(true), seed,
                  cal, cal', run, run', 22);
  }
}
