/** A steadily rising price series on which everything can be computed by hand: from its 21st row on
    every bar signals, so entries are possible from the 22nd date on. */
module SwingRamp {
  import opened Prelude
  import opened Sorting
  import opened SwingTypes
  import opened SwingIndicators
  import opened SwingSignals
  import opened SwingPools
  import opened SwingSchedule
  import opened SwingCausality

  // ---------------------------------------------------------------- the data

  /** The first date with a template: its signal bar is the first with a 20-day return. */
  const FIRST_ENTRY: nat := 21

  function Price(base: real, i: int): real { base + i as real }

  function Quote(base: real, i: nat): (r: Row)
    requires base >= 100.0
    ensures r.date == i
  {
    var p := Price(base, i);
    OhlcvRow(i, p, p, p, p, 0.0)
  }

  function Ramp(base: real, n: nat): (rows: seq<Row>)
    requires base >= 100.0
    ensures |rows| == n && forall i :: 0 <= i < n ==> rows[i] == Quote(base, i)
  {
    seq(n, (i: int) requires 0 <= i < n => Quote(base, i))
  }

  /** Short averages, a one-bar range as the stop distance, no market filter, no cost, and a cap of
      one quarter of the equity per position. */
  function RampParams(): Params {
    Params(TrendPullback, 1, 2, 1, 1, 1, 0.0, None, 0.0, 1000000000.0, 0.0, None, None, 1, 0.0, 0.0, 0.0, 1.0, 1, 0.0,
           None, None, None, None, Some(0.05), None, None, 1.0, 1.0, 5, TargetStopMaxHold, 1000.0, 1.0, 0.25, 10,
           None, 1, 0.0, 0.0)
  }

  // ---------------------------------------------------------------- its bars

  lemma SmaOfOne(values: seq<real>, i: nat)
    requires i < |values|
    ensures Sma(values, i, 1) == Some(values[i])
  {
    var window := values[i..i + 1];
    assert window == [values[i]] && window[..0] == [];
    assert Sum(window) == Sum([]) + values[i];
  }

  lemma SmaOfTwo(values: seq<real>, i: nat)
    requires 1 <= i < |values|
    ensures Sma(values, i, 2) == Some((values[i - 1] + values[i]) / 2.0)
  {
    var window := values[i - 1..i + 1];
    assert window == [values[i - 1], values[i]] && window[..1] == [values[i - 1]] && window[..1][..0] == [];
    assert Sum(window) == Sum(window[..1]) + values[i] && Sum(window[..1]) == Sum([]) + values[i - 1];
  }

  lemma AtrOfOne(v: seq<real>, i: nat)
    requires 1 <= i < |v| && v[i - 1] <= v[i]
    ensures Atr(v, v, v, i, 1) == Some(v[i] - v[i - 1])
  {
    assert TrueRanges(v, v, v, i, i) == [];
    assert TrueRanges(v, v, v, i, i + 1) == [] + [TrueRange(v, v, v, i)];
    assert Sum([TrueRange(v, v, v, i)]) == Sum([]) + TrueRange(v, v, v, i);
  }

  /** The values of a ramp bar that the signals look at. */
  ghost predicate RampBar(base: real, b: PreparedBar, i: nat)
    requires base >= 100.0 && i >= 20
  {
    && b.date == i && b.open == b.close == Price(base, i)
    && b.smaShort == Some(Price(base, i))
    && b.smaLong == Some((Price(base, i - 1) + Price(base, i)) / 2.0)
    && b.smaLongPast == Some((Price(base, i - 2) + Price(base, i - 1)) / 2.0)
    && b.atr == Some(Price(base, i) - Price(base, i - 1))
    && b.avgTurnover == Some(0.0)
    && b.return20d == Some(Price(base, i) / Price(base, i - 20) - 1.0)
    && b.touchedSmaShortRecently
  }

  lemma {:induction false} RampColumns(c: seq<real>, t: seq<real>, base: real, i: nat)
    requires base >= 100.0 && 20 <= i < |c| == |t|
    requires forall j :: 0 <= j < |c| ==> c[j] == Price(base, j) && t[j] == 0.0
    ensures Sma(c, i, 1) == Some(Price(base, i)) && Sma(t, i, 1) == Some(0.0)
    ensures Sma(c, i, 2) == Some((Price(base, i - 1) + Price(base, i)) / 2.0)
    ensures Sma(c, i - 1, 2) == Some((Price(base, i - 2) + Price(base, i - 1)) / 2.0)
    ensures Atr(c, c, c, i, 1) == Some(Price(base, i) - Price(base, i - 1))
    ensures Return(c, i, 20) == Some(Price(base, i) / Price(base, i - 20) - 1.0)
  {
    SmaOfOne(c, i);
    SmaOfTwo(c, i);
    SmaOfTwo(c, i - 1);
    SmaOfOne(t, i);
    AtrOfOne(c, i);
  }

  lemma TouchesItsOwnAverage(c: seq<real>, i: nat)
    requires i < |c|
    ensures TouchedSmaRecently(c, c, i, 1, 1, 0.0)
  {
    SmaOfOne(c, i);
    assert TouchedIn(c, c, i, i + 1, 1, 0.0);
  }

  lemma RampColumn(base: real, n: nat, f: Field)
    requires base >= 100.0
    ensures var c := Column(Ramp(base, n), f);
            forall j :: 0 <= j < n ==> c[j] == if f.Turnover? then 0.0 else Price(base, j)
  {
  }

  lemma RampRows(base: real, n: nat)
    requires base >= 100.0
    ensures var rows := Ramp(base, n);
            && Column(rows, High) == Column(rows, Close) && Column(rows, Low) == Column(rows, Close)
            && (forall j :: 0 <= j < n ==> Column(rows, Close)[j] == Price(base, j) && Column(rows, Turnover)[j] == 0.0)
  {
    RampColumn(base, n, High);
    RampColumn(base, n, Low);
    RampColumn(base, n, Close);
    RampColumn(base, n, Turnover);
  }

  lemma {:induction false} RampBarOf(s: Symbol, base: real, c: seq<real>, t: seq<real>, i: nat)
    requires base >= 100.0 && 20 <= i < |c| == |t|
    requires forall j :: 0 <= j < |c| ==> c[j] == Price(base, j) && t[j] == 0.0
    ensures RampBar(base, BarOf(s, Quote(base, i), c, c, c, t, i, RampParams()), i)
  {
    RampColumns(c, t, base, i);
    TouchesItsOwnAverage(c, i);
  }

  lemma {:induction false} RampBarAt(s: Symbol, base: real, n: nat, i: nat)
    requires base >= 100.0 && 20 <= i < n
    ensures RampBar(base, BarAt(s, Ramp(base, n), i, RampParams()), i)
  {
    var rows := Ramp(base, n);
    RampRows(base, n);
    RampBarOf(s, base, Column(rows, Close), Column(rows, Turnover), i);
    assert rows[i] == Quote(base, i);
  }

  lemma EarlyBar(s: Symbol, rows: seq<Row>, i: nat)
    requires i < 20 && i < |rows|
    ensures BarAt(s, rows, i, RampParams()).return20d == None
  {
  }

  // ---------------------------------------------------------------- signals and templates

  lemma QuotientBounds(a: real, b: real, low: real, high: real)
    requires b > 0.0 && low * b <= a <= high * b
    ensures low <= a / b <= high
  {
    var q := a / b;
    assert q * b == a;
    assert q < low ==> q * b < low * b;
    assert q > high ==> q * b > high * b;
  }

  lemma {:induction false} RampRatios(base: real, i: nat)
    requires base >= 100.0 && 20 <= i
    ensures var p := Price(base, i);
            && p / p == 1.0 && 0.0 <= (p - Price(base, i - 1)) / p <= 0.01
            && 1.0 <= p / Price(base, i - 20) <= 2.0 + i as real
  {
    var p := Price(base, i);
    QuotientBounds(p - Price(base, i - 1), p, 0.0, 0.01);
    QuotientBounds(p, Price(base, i - 20), 1.0, 2.0 + i as real);
  }

  lemma {:induction false} RampSignals(base: real, b: Bar, i: nat)
    requires 100.0 <= base <= 1000000.0 && 20 <= i < 100 && RampBar(base, b, i)
    ensures IsEntrySignal(b, RampParams()) && IsRandomBaselineTradable(b, RampParams())
  {
    RampRatios(base, i);
    assert TrendBase(b, RampParams());
  }

  /** The template that a date gives: its entry is the date's open and its stop one below. */
  predicate EntryAt(t: Option<Template>, open: real) {
    t.Some? && t.value.entryPrice == open && t.value.stopPrice == open - 1.0
  }

  /** A bar after a signalling one gives a tradable template, and a signal template unless it opens
      at a gap of five percent. */
  lemma {:induction false} RampTemplates(base: real, signal: Bar, bar: Bar, market: Option<MarketContext>, i: nat)
    requires 100.0 <= base <= 1000000.0 && 20 <= i < 100 && RampBar(base, signal, i)
    requires bar.open >= Price(base, i)
    ensures IsEntrySignal(signal, RampParams()) && IsRandomBaselineTradable(signal, RampParams())
    ensures EntryAt(EntryTemplateOf(bar, signal, market, RampParams(), false), bar.open)
    ensures var t := EntryTemplateOf(bar, signal, market, RampParams(), true);
            if bar.open / Price(base, i) - 1.0 >= 0.05 then t.None? else EntryAt(t, bar.open)
  {
    RampSignals(base, signal, i);
  }

  lemma SmallGap(base: real, i: nat)
    requires base >= 100.0
    ensures Price(base, i + 1) / Price(base, i) - 1.0 < 0.05
  {
    QuotientBounds(Price(base, i + 1), Price(base, i), 0.0, 1.01);
  }

  /** With these parameters a candidate needs the stop distance and four times the price of a share
      in equity. */
  lemma RampSizes(t: Template, equity: real, rank: int, count: int)
    requires t.stopPrice < t.entryPrice
    ensures MaterializeEntry(t, equity, RampParams(), rank, count).Some? <==>
            t.entryPrice - t.stopPrice <= equity && t.entryPrice <= equity * 0.25
  {
    MaterializedSize(t, equity, RampParams(), rank, count);
  }

  // ---------------------------------------------------------------- one symbol

  /** One symbol with bars dated 0, 1, 2, ... */
  ghost predicate Daily(sr: BarSeries) {
    |sr.bars| > 0 && forall i :: 0 <= i < |sr.bars| ==> sr.bars[i].date == i && sr.bars[i].symbol == sr.symbol
  }

  lemma DailyIsValid(sr: BarSeries)
    requires Daily(sr)
    ensures ValidSeries(sr) && ValidPrepared([sr])
    ensures forall d :: d in Dates(sr) <==> 0 <= d < |sr.bars|
  {
    forall d | 0 <= d < |sr.bars| ensures d in Dates(sr) {
      assert Dates(sr)[d] == d;
    }
  }

  lemma {:induction false} DailyOrder(sr: BarSeries)
    requires Daily(sr)
    ensures DateOrder([sr]) == Dates(sr)
  {
    assert [sr][..0] == [];
    assert DateOrder([sr]) == Enter(DateOrder([]), Dates(sr)) && DateOrder([]) == [];
    FirstSeenDistinct(Dates(sr));
  }

  lemma DailyCalendar(sr: BarSeries, cal: seq<Date>)
    requires Daily(sr) && IsCalendar([sr], cal)
    ensures cal == Dates(sr)
  {
    DailyIsValid(sr);
    assert [sr][0] == sr;
    AscendingUnique(cal, Dates(sr));
  }

  lemma DailyBar(sr: BarSeries, i: nat)
    requires Daily(sr) && i < |sr.bars|
    ensures BarOn(sr, i) == Some(sr.bars[i])
    ensures PreviousIn(sr, i) == if i > 0 then Some(sr.bars[i - 1]) else None
  {
    DailyIsValid(sr);
    IncreasingIndex(Dates(sr), i);
    assert Dates(sr)[i] == i;
  }

  /** The day of one symbol: its bar, and the bar before it. */
  lemma {:induction false} DayOfOne(sr: BarSeries, i: nat)
    requires Daily(sr) && i < |sr.bars|
    ensures TodayBySymbol([sr], i) == [sr.bars[i]] && Listed([sr], sr.symbol, i)
    ensures Previous([sr], sr.symbol, i) == if i > 0 then Some(sr.bars[i - 1]) else None
  {
    DailyBar(sr, i);
    FilterMapCons(OnDate(i), sr, []);
    assert [sr] + [] == [sr];
    assert Today([sr], i) == [sr.bars[i]];
    assert [sr.bars[i]][1..] == [];
  }

  function OneIf(t: Option<Template>): seq<Template> { if t.Some? then [t.value] else [] }

  lemma SingletonFilter(f: Bar -> Option<Template>, b: Bar)
    ensures FilterMap(f, [b]) == OneIf(f(b))
  {
    assert [b][1..] == [];
  }

  lemma SortOne(ts: seq<Template>)
    requires |ts| <= 1
    ensures Sort(ByScore, ts) == ts
  {
    if ts != [] {
      assert ts[1..] == [];
    }
  }

  lemma {:induction false} PoolsOfOne(sr: BarSeries, params: Params, i: nat)
    requires Daily(sr) && i < |sr.bars|
    ensures SignalPool([sr], params, i) == OneIf(SignalTemplate([sr], params, sr.bars[i]))
    ensures TradablePool([sr], params, i) == OneIf(TradableTemplate([sr], params, sr.bars[i]))
  {
    DayOfOne(sr, i);
    SingletonFilter(ToSignal([sr], params), sr.bars[i]);
    SingletonFilter(ToTradable([sr], params), sr.bars[i]);
    SortOne(OneIf(SignalTemplate([sr], params, sr.bars[i])));
  }

  // ---------------------------------------------------------------- a ramp up to some row

  /** The first n rows are a ramp, and the next one does not open below them. */
  ghost predicate RisesTo(base: real, rows: seq<Row>, n: nat) {
    && base >= 100.0 && |rows| > n
    && rows[..n] == Ramp(base, n)
    && (forall i :: n <= i < |rows| ==> rows[i].date == i)
    && rows[n].open >= Price(base, n - 1)
  }

  function BarsOf(s: Symbol, rows: seq<Row>): (sr: BarSeries)
    ensures sr.symbol == s && |sr.bars| == |rows|
    ensures forall i :: 0 <= i < |rows| ==> sr.bars[i] == BarAt(s, rows, i, RampParams())
  {
    BarSeries(s, BarsUpTo(s, rows, |rows|, RampParams()))
  }

  lemma PrepareOne(s: Symbol, rows: seq<Row>)
    ensures Prepare([Series(s, rows)], RampParams()) == [BarsOf(s, rows)]
  {
    var p := Prepare([Series(s, rows)], RampParams());
    assert |p| == 1 && p[0] == BarsOf(s, rows);
  }

  lemma RampIsDaily(s: Symbol, base: real, rows: seq<Row>, n: nat)
    requires RisesTo(base, rows, n)
    ensures Daily(BarsOf(s, rows)) && ValidRows(rows)
  {
    forall i | 0 <= i < |rows| ensures rows[i].date == i {
      if i < n {
        assert rows[i] == rows[..n][i] == Ramp(base, n)[i];
      }
    }
  }

  lemma {:induction false} RisingBar(s: Symbol, base: real, rows: seq<Row>, n: nat, i: nat)
    requires RisesTo(base, rows, n) && 20 <= i < n
    ensures RampBar(base, BarsOf(s, rows).bars[i], i)
  {
    RampBarAt(s, base, n, i);
    assert rows[..i + 1] == rows[..n][..i + 1] == Ramp(base, n)[..i + 1];
    BarCausal(s, rows, Ramp(base, n), i, RampParams());
  }

  /** What the signals see of bar i: no 20-day return at first, then the ramp. */
  ghost predicate RampAt(sr: BarSeries, base: real, i: nat)
    requires base >= 100.0 && i < |sr.bars|
  {
    if i < 20 then sr.bars[i].return20d == None else RampBar(base, sr.bars[i], i)
  }

  /** The bars of such a series, as far as the signals look at them. */
  ghost predicate RampTo(sr: BarSeries, base: real, n: nat) {
    && 100.0 <= base <= 1000000.0 && FIRST_ENTRY <= n <= 100
    && Daily(sr) && |sr.bars| > n
    && (forall i {:trigger RampAt(sr, base, i)} :: 0 <= i < n ==> RampAt(sr, base, i))
    && sr.bars[n].open >= Price(base, n - 1)
  }

  /** Preparing the rows gives these bars. */
  lemma {:induction false} PreparedRamp(s: Symbol, base: real, rows: seq<Row>, n: nat)
    requires RisesTo(base, rows, n) && base <= 1000000.0 && FIRST_ENTRY <= n <= 100
    ensures RampTo(BarsOf(s, rows), base, n) && BarsOf(s, rows).bars[n].open == rows[n].open
    ensures ValidRows(rows)
  {
    var sr := BarsOf(s, rows);
    RampIsDaily(s, base, rows, n);
    forall i | 0 <= i < n ensures RampAt(sr, base, i) {
      if i < 20 {
        EarlyBar(s, rows, i);
      } else {
        RisingBar(s, base, rows, n, i);
      }
    }
  }

  // ---------------------------------------------------------------- its pools

  /** Before the first entry date there are no templates. */
  lemma {:induction false} QuietBefore(sr: BarSeries, base: real, n: nat, i: nat)
    requires RampTo(sr, base, n) && i < FIRST_ENTRY
    ensures SignalPool([sr], RampParams(), i) == [] && TradablePool([sr], RampParams(), i) == []
  {
    PoolsOfOne(sr, RampParams(), i);
    DayOfOne(sr, i);
    assert i > 0 ==> RampAt(sr, base, i - 1);
  }

  lemma TemplatesFrom(prepared: seq<BarSeries>, bar: Bar, signal: Bar)
    requires Previous(prepared, bar.symbol, bar.date) == Some(signal)
    requires IsEntrySignal(signal, RampParams()) && IsRandomBaselineTradable(signal, RampParams())
    ensures var market := MarketOn(prepared, signal.date);
            && SignalTemplate(prepared, RampParams(), bar) == EntryTemplateOf(bar, signal, market, RampParams(), true)
            && TradableTemplate(prepared, RampParams(), bar)
                 == EntryTemplateOf(bar, signal, market, RampParams(), false)
  {
  }

  /** The two templates of a bar that follows a signalling one. */
  ghost predicate EntersAt(sr: BarSeries, base: real, i: nat)
    requires base >= 100.0 && 0 < i < |sr.bars|
  {
    var bar := sr.bars[i];
    var signal := SignalTemplate([sr], RampParams(), bar);
    && EntryAt(TradableTemplate([sr], RampParams(), bar), bar.open)
    && if bar.open / Price(base, i - 1) - 1.0 >= 0.05 then signal.None? else EntryAt(signal, bar.open)
  }

  /** From the first entry date on every date has a tradable template, and a signal template unless
      it opens at a gap. */
  lemma {:induction false} TemplatesAfter(sr: BarSeries, base: real, n: nat, i: nat)
    requires RampTo(sr, base, n) && FIRST_ENTRY <= i <= n
    ensures EntersAt(sr, base, i)
  {
    var before, bar := sr.bars[i - 1], sr.bars[i];
    DayOfOne(sr, i);
    assert RampAt(sr, base, i - 1) && (i < n ==> RampAt(sr, base, i));
    RampTemplates(base, before, bar, MarketOn([sr], before.date), i - 1);
    TemplatesFrom([sr], bar, before);
  }
}
