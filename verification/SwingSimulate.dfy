/** The backtest as it runs: build the context and the pools, then loop over the dates. */
module SwingSimulate {
  import opened Prelude
  import opened Sorting
  import opened SwingTypes
  import opened SwingSignals
  import opened SwingPools
  import opened SwingEntries
  import opened SwingSchedule
  import opened SwingEngine
  import opened SwingProgram

  // ---------------------------------------------------------------- context

  lemma FilterMapSnoc<A, B>(f: A -> Option<B>, xs: seq<A>, i: nat)
    requires i < |xs|
    ensures FilterMap(f, xs[..i + 1]) ==
            if f(xs[i]).Some? then FilterMap(f, xs[..i]) + [f(xs[i]).value] else FilterMap(f, xs[..i])
  {
    assert xs[..i + 1] == xs[..i] + [xs[i]];
    FilterMapConcat(f, xs[..i], [xs[i]]);
    assert [xs[i]][1..] == [];
  }

  /** The bars of date d among the first n symbols and the first m bars of the next one. */
  function TodayUpTo(prepared: seq<BarSeries>, n: nat, m: nat, d: Date): seq<Bar>
    requires n < |prepared| && m <= |prepared[n].bars|
  {
    if d in Dates(prepared[n])[..m] then Today(prepared[..n], d) + [BarOn(prepared[n], d).value]
    else Today(prepared[..n], d)
  }

  lemma TodayUpToNext(prepared: seq<BarSeries>, n: nat, m: nat, d: Date)
    requires ValidPrepared(prepared) && n < |prepared| && m < |prepared[n].bars|
    ensures TodayUpTo(prepared, n, m + 1, d) ==
            if d == prepared[n].bars[m].date then TodayUpTo(prepared, n, m, d) + [prepared[n].bars[m]]
            else TodayUpTo(prepared, n, m, d)
  {
  }

  lemma TodayUpToAll(prepared: seq<BarSeries>, n: nat, d: Date)
    requires n < |prepared|
    ensures TodayUpTo(prepared, n, 0, d) == Today(prepared[..n], d)
    ensures TodayUpTo(prepared, n, |prepared[n].bars|, d) == Today(prepared[..n + 1], d)
  {
    var ds := Dates(prepared[n]);
    assert ds[..|prepared[n].bars|] == ds;
    FilterMapSnoc(OnDate(d), prepared, n);
  }

  function BarsOf(byDate: map<Date, seq<Bar>>, d: Date): seq<Bar> {
    if d in byDate then byDate[d] else []
  }

  /** The dictionary after the first n symbols and the first m bars of the next one. */
  ghost predicate ByDateUpTo(prepared: seq<BarSeries>, n: nat, m: nat, byDate: map<Date, seq<Bar>>)
    requires n < |prepared| && m <= |prepared[n].bars|
  {
    forall d :: BarsOf(byDate, d) == TodayUpTo(prepared, n, m, d) && (d in byDate <==> BarsOf(byDate, d) != [])
  }

  function AddBar(byDate: map<Date, seq<Bar>>, bar: Bar): map<Date, seq<Bar>> {
    byDate[bar.date := BarsOf(byDate, bar.date) + [bar]]
  }

  lemma ByDateStep(prepared: seq<BarSeries>, n: nat, m: nat, byDate: map<Date, seq<Bar>>)
    requires ValidPrepared(prepared) && n < |prepared| && m < |prepared[n].bars| && ByDateUpTo(prepared, n, m, byDate)
    ensures ByDateUpTo(prepared, n, m + 1, AddBar(byDate, prepared[n].bars[m]))
  {
    var next := AddBar(byDate, prepared[n].bars[m]);
    forall d ensures BarsOf(next, d) == TodayUpTo(prepared, n, m + 1, d) && (d in next <==> BarsOf(next, d) != []) {
      TodayUpToNext(prepared, n, m, d);
      assert BarsOf(byDate, d) == TodayUpTo(prepared, n, m, d);
    }
  }

  /** The dates brought up by the first n symbols and the first m bars of the next one. */
  function OrderUpTo(prepared: seq<BarSeries>, n: nat, m: nat): seq<Date>
    requires n < |prepared| && m <= |prepared[n].bars|
  {
    Enter(DateOrder(prepared[..n]), Dates(prepared[n])[..m])
  }

  lemma OrderNext(prepared: seq<BarSeries>, n: nat, m: nat)
    requires n < |prepared| && m < |prepared[n].bars|
    ensures var (before, d) := (OrderUpTo(prepared, n, m), prepared[n].bars[m].date);
            OrderUpTo(prepared, n, m + 1) == if d in before then before else before + [d]
  {
    assert Dates(prepared[n])[..m + 1][..m] == Dates(prepared[n])[..m];
  }

  lemma OrderUpToAll(prepared: seq<BarSeries>, n: nat)
    requires n < |prepared|
    ensures OrderUpTo(prepared, n, 0) == DateOrder(prepared[..n])
    ensures OrderUpTo(prepared, n, |prepared[n].bars|) == DateOrder(prepared[..n + 1])
  {
    assert prepared[..n + 1][..n] == prepared[..n];
    assert Dates(prepared[n])[..|prepared[n].bars|] == Dates(prepared[n]);
  }

  /** The bars of the first n symbols, by date. */
  ghost predicate ByDate(prepared: seq<BarSeries>, byDate: map<Date, seq<Bar>>) {
    forall d :: BarsOf(byDate, d) == Today(prepared, d) && (d in byDate <==> BarsOf(byDate, d) != [])
  }

  lemma ByDateStarts(prepared: seq<BarSeries>, n: nat, byDate: map<Date, seq<Bar>>)
    requires n < |prepared|
    ensures ByDateUpTo(prepared, n, 0, byDate) <==> ByDate(prepared[..n], byDate)
    ensures ByDateUpTo(prepared, n, |prepared[n].bars|, byDate) <==> ByDate(prepared[..n + 1], byDate)
  {
    forall d ensures TodayUpTo(prepared, n, 0, d) == Today(prepared[..n], d)
             ensures TodayUpTo(prepared, n, |prepared[n].bars|, d) == Today(prepared[..n + 1], d) {
      TodayUpToAll(prepared, n, d);
    }
  }

  lemma ByDateKeys(prepared: seq<BarSeries>, byDate: map<Date, seq<Bar>>)
    requires ByDate(prepared, byDate)
    ensures forall d :: d in byDate <==> d in AllDates(prepared)
    ensures forall d :: d in byDate ==> byDate[d] == Today(prepared, d)
  {
    forall d ensures (d in byDate <==> d in AllDates(prepared)) && (d in byDate ==> byDate[d] == Today(prepared, d)) {
      assert BarsOf(byDate, d) == Today(prepared, d);
      TodayNonEmpty(prepared, d);
    }
  }

  /** The dictionary from dates to the bars of the date, in symbol order, and its keys in insertion
      order. */
  method BarsByDate(prepared: seq<BarSeries>) returns (byDate: map<Date, seq<Bar>>, order: seq<Date>)
    requires ValidPrepared(prepared)
    ensures forall d :: d in byDate <==> d in AllDates(prepared)
    ensures forall d :: d in byDate ==> byDate[d] == Today(prepared, d)
    ensures order == DateOrder(prepared)
  {
    byDate, order := map[], [];
    for n := 0 to |prepared|
      invariant ByDate(prepared[..n], byDate) && order == DateOrder(prepared[..n])
    {
      var bars := prepared[n].bars;
      ByDateStarts(prepared, n, byDate);
      OrderUpToAll(prepared, n);
      for m := 0 to |bars|
        invariant ByDateUpTo(prepared, n, m, byDate) && order == OrderUpTo(prepared, n, m)
      {
        ByDateStep(prepared, n, m, byDate);
        OrderNext(prepared, n, m);
        if bars[m].date !in order {
          order := order + [bars[m].date];
        }
        byDate := AddBar(byDate, bars[m]);
      }
      ByDateStarts(prepared, n, byDate);
    }
    assert prepared[..|prepared|] == prepared;
    ByDateKeys(prepared, byDate);
  }

  lemma TodayNonEmpty(prepared: seq<BarSeries>, d: Date)
    ensures Today(prepared, d) != [] <==> d in AllDates(prepared)
  {
    var today := Today(prepared, d);
    if today != [] {
      assert today[0] in today;
      FilterMapMember(OnDate(d), prepared, today[0]);
      var sr :| sr in prepared && OnDate(d)(sr) == Some(today[0]);
      var i :| 0 <= i < |prepared| && prepared[i] == sr;
      assert d in Dates(prepared[i]);
    }
    if d in AllDates(prepared) {
      var i :| 0 <= i < |prepared| && d in Dates(prepared[i]);
      assert prepared[i] in prepared && OnDate(d)(prepared[i]).Some?;
      FilterMapMember(OnDate(d), prepared, OnDate(d)(prepared[i]).value);
    }
  }

  /** The entries of the previous-bar dictionary that the first n symbols and the first m bars of
      the next one contribute. */
  ghost predicate PreviousUpTo(prepared: seq<BarSeries>, n: nat, m: nat, previous: map<(Symbol, Date), Bar>)
    requires n < |prepared| && m <= |prepared[n].bars|
  {
    forall s, d :: Lookup(previous, s, d) ==
      if s == prepared[n].symbol then (if d in Dates(prepared[n])[..m] then PreviousIn(prepared[n], d) else None)
      else Previous(prepared[..n], s, d)
  }

  function Lookup(previous: map<(Symbol, Date), Bar>, s: Symbol, d: Date): Option<Bar> {
    if (s, d) in previous then Some(previous[(s, d)]) else None
  }

  lemma {:induction false} SeriesOfPrefix(prepared: seq<BarSeries>, n: nat, s: Symbol)
    requires n < |prepared|
    ensures SeriesOf(prepared[..n + 1], s) ==
            if SeriesOf(prepared[..n], s).Some? then SeriesOf(prepared[..n], s)
            else if prepared[n].symbol == s then Some(prepared[n]) else None
    decreases n
  {
    assert prepared[..n + 1][0] == prepared[0];
    if n > 0 && prepared[0].symbol != s {
      SeriesOfPrefix(prepared[1..], n - 1, s);
      assert prepared[..n + 1][1..] == prepared[1..][..n] && prepared[..n][1..] == prepared[1..][..n - 1];
    } else if n == 0 {
      assert prepared[..1][1..] == [];
    }
  }

  lemma PreviousPrefix(prepared: seq<BarSeries>, n: nat, s: Symbol, d: Date)
    requires ValidPrepared(prepared) && n < |prepared|
    ensures Previous(prepared[..n + 1], s, d) ==
            if s == prepared[n].symbol then PreviousIn(prepared[n], d) else Previous(prepared[..n], s, d)
    ensures Previous(prepared[..n], prepared[n].symbol, d) == None
  {
    SeriesOfPrefix(prepared, n, s);
  }

  lemma PreviousStep(prepared: seq<BarSeries>, n: nat, m: nat, previous: map<(Symbol, Date), Bar>)
    requires ValidPrepared(prepared) && n < |prepared| && m < |prepared[n].bars|
    requires PreviousUpTo(prepared, n, m, previous)
    ensures var sr := prepared[n];
            PreviousUpTo(prepared, n, m + 1,
                         if m > 0 then previous[(sr.symbol, sr.bars[m].date) := sr.bars[m - 1]] else previous)
  {
    var sr := prepared[n];
    var ds := Dates(sr);
    assert ValidSeries(sr);
    assert ds[..m + 1] == ds[..m] + [ds[m]];
    IncreasingIndex(ds, m);
    var next := if m > 0 then previous[(sr.symbol, sr.bars[m].date) := sr.bars[m - 1]] else previous;
    forall s, d ensures Lookup(next, s, d) ==
      if s == sr.symbol then (if d in ds[..m + 1] then PreviousIn(sr, d) else None) else Previous(prepared[..n], s, d)
    {
      var was := Lookup(previous, s, d);
      if s == sr.symbol && d == ds[m] {
        assert PreviousIn(sr, d) == if m > 0 then Some(sr.bars[m - 1]) else None;
      } else {
        assert Lookup(next, s, d) == was;
      }
    }
  }

  method PreviousBars(prepared: seq<BarSeries>) returns (previous: map<(Symbol, Date), Bar>)
    requires ValidPrepared(prepared)
    ensures forall s, d :: Lookup(previous, s, d) == Previous(prepared, s, d)
  {
    previous := map[];
    for n := 0 to |prepared|
      invariant forall s, d :: Lookup(previous, s, d) == Previous(prepared[..n], s, d)
    {
      var bars := prepared[n].bars;
      var ds := Dates(prepared[n]);
      assert ValidSeries(prepared[n]);
      forall s, d ensures Previous(prepared[..n + 1], s, d) ==
                          if s == prepared[n].symbol then PreviousIn(prepared[n], d) else Previous(prepared[..n], s, d)
                  ensures Previous(prepared[..n], prepared[n].symbol, d) == None
      {
        PreviousPrefix(prepared, n, s, d);
      }
      for m := 0 to |bars|
        invariant PreviousUpTo(prepared, n, m, previous)
      {
        PreviousStep(prepared, n, m, previous);
        if m > 0 {
          previous := previous[(prepared[n].symbol, bars[m].date) := bars[m - 1]];
        }
      }
      assert ds[..|bars|] == ds;
    }
    assert prepared[..|prepared|] == prepared;
  }

  // ---------------------------------------------------------------- pools

  datatype CandidatePools = CandidatePools(
    signalByDate: map<Date, seq<Template>>,
    tradableByDate: map<Date, seq<Template>>,
    tradableDates: map<Symbol, seq<Date>>)

  function DatesOf(tradableDates: map<Symbol, seq<Date>>, s: Symbol): seq<Date> {
    if s in tradableDates then tradableDates[s] else []
  }

  /** The dictionary holds the templates of exactly these dates. */
  ghost predicate Holds(m: map<Date, seq<Template>>, pool: Pool, dates: seq<Date>) {
    && (forall i :: 0 <= i < |dates| ==> dates[i] in m && m[dates[i]] == pool(dates[i]))
    && (forall d :: d in m ==> d in dates)
  }

  ghost predicate PoolsOf(signals: Pool, tradables: Pool, dates: seq<Date>, pools: CandidatePools) {
    && Holds(pools.signalByDate, signals, dates)
    && Holds(pools.tradableByDate, tradables, dates)
    && forall s :: DatesOf(pools.tradableDates, s) == TradableDates(tradables, dates, s)
  }

  /** The two templates of one bar. */
  method TemplatesOfBar(prepared: seq<BarSeries>, params: Params, bar: Bar,
                        previous: map<(Symbol, Date), Bar>, byDate: map<Date, seq<Bar>>)
    returns (signalled: Option<Template>, tradable: Option<Template>)
    requires forall s, d :: Lookup(previous, s, d) == Previous(prepared, s, d)
    requires forall d :: d in byDate <==> d in AllDates(prepared)
    requires forall d :: d in byDate ==> byDate[d] == Today(prepared, d)
    ensures signalled == SignalTemplate(prepared, params, bar)
    ensures tradable == TradableTemplate(prepared, params, bar)
  {
    signalled, tradable := None, None;
    var signal := Lookup(previous, bar.symbol, bar.date);
    if signal.None? {
      return;
    }
    var market := MarketContextLookup(byDate, signal.value.date);
    MarketLookup(prepared, byDate, signal.value.date);
    if IsRandomBaselineTradable(signal.value, params) {
      tradable := EntryTemplateOf(bar, signal.value, market, params, false);
    }
    if IsEntrySignal(signal.value, params) && IsMarketContextAllowed(market, params) {
      signalled := EntryTemplateOf(bar, signal.value, market, params, true);
    }
  }

  function Tradable(tradableDates: map<Symbol, seq<Date>>, s: Symbol, d: Date): map<Symbol, seq<Date>> {
    tradableDates[s := DatesOf(tradableDates, s) + [d]]
  }

  /** The date is appended for exactly the symbols of the templates. */
  ghost predicate Recorded(before: map<Symbol, seq<Date>>, after: map<Symbol, seq<Date>>, ts: seq<Template>, d: Date) {
    forall s :: DatesOf(after, s) == if HasTemplate(ts, s) then DatesOf(before, s) + [d] else DatesOf(before, s)
  }

  lemma RecordOne(before: map<Symbol, seq<Date>>, after: map<Symbol, seq<Date>>, ts: seq<Template>,
                  t: Template, d: Date)
    requires Recorded(before, after, ts, d) && !HasTemplate(ts, t.symbol)
    ensures Recorded(before, Tradable(after, t.symbol, d), ts + [t], d)
  {
    var next, all := Tradable(after, t.symbol, d), ts + [t];
    forall s ensures DatesOf(next, s) == if HasTemplate(all, s) then DatesOf(before, s) + [d] else DatesOf(before, s) {
      assert HasTemplate(all, s) <==> HasTemplate(ts, s) || s == t.symbol by {
        assert all[|ts|] == t;
        if HasTemplate(ts, s) {
          var i :| 0 <= i < |ts| && ts[i].symbol == s;
          assert all[i].symbol == s;
        }
      }
    }
  }

  /** A symbol has one bar a day, so its template is not listed before its bar is reached. */
  lemma {:induction false} FreshTemplate(prepared: seq<BarSeries>, params: Params, bars: seq<Bar>, i: nat)
    requires i < |bars| && DistinctBy(BarSymbol, bars)
    ensures !HasTemplate(FilterMap(ToTradable(prepared, params), bars[..i]), bars[i].symbol)
  {
    var ts := FilterMap(ToTradable(prepared, params), bars[..i]);
    forall j | 0 <= j < |ts| ensures ts[j].symbol != bars[i].symbol {
      assert ts[j] in ts;
      FilterMapMember(ToTradable(prepared, params), bars[..i], ts[j]);
      var b: Bar :| b in bars[..i] && ToTradable(prepared, params)(b) == Some(ts[j]);
      var k :| 0 <= k < i && bars[k] == b;
      assert BarSymbol(bars[k]) != BarSymbol(bars[i]);
    }
  }

  /** One date's two lists of templates, and the date entered for each tradable symbol. */
  method BuildTemplates(prepared: seq<BarSeries>, params: Params, today: seq<Bar>,
                        previous: map<(Symbol, Date), Bar>, byDate: map<Date, seq<Bar>>, d: Date,
                        before: map<Symbol, seq<Date>>)
    returns (signals: seq<Template>, tradables: seq<Template>, tradableDates: map<Symbol, seq<Date>>)
    requires ValidPrepared(prepared) && today == Today(prepared, d)
    requires forall s, d :: Lookup(previous, s, d) == Previous(prepared, s, d)
    requires forall d :: d in byDate <==> d in AllDates(prepared)
    requires forall d :: d in byDate ==> byDate[d] == Today(prepared, d)
    ensures signals == SignalPool(prepared, params, d)
    ensures tradables == TradablePool(prepared, params, d)
    ensures Recorded(before, tradableDates, tradables, d)
  {
    var bars := Sort(BySymbol, today);
    TodayBySymbolDistinct(prepared, d);
    signals, tradables, tradableDates := [], [], before;
    for i := 0 to |bars|
      invariant signals == FilterMap(ToSignal(prepared, params), bars[..i])
      invariant tradables == FilterMap(ToTradable(prepared, params), bars[..i])
      invariant Recorded(before, tradableDates, tradables, d)
    {
      var bar := bars[i];
      FilterMapSnoc(ToSignal(prepared, params), bars, i);
      FilterMapSnoc(ToTradable(prepared, params), bars, i);
      FreshTemplate(prepared, params, bars, i);
      var signalled, tradable := TemplatesOfBar(prepared, params, bar, previous, byDate);
      if tradable.Some? {
        RecordOne(before, tradableDates, tradables, tradable.value, d);
        tradables := tradables + [tradable.value];
        tradableDates := Tradable(tradableDates, bar.symbol, d);
      }
      if signalled.Some? {
        signals := signals + [signalled.value];
      }
    }
    assert bars[..|bars|] == bars;
    signals := Sort(ByScore, signals);
  }

  lemma MarketLookup(prepared: seq<BarSeries>, byDate: map<Date, seq<Bar>>, d: Date)
    requires d in byDate <==> d in AllDates(prepared)
    requires d in byDate ==> byDate[d] == Today(prepared, d)
    ensures MarketContextLookup(byDate, d) == MarketOn(prepared, d)
  {
    TodayNonEmpty(prepared, d);
  }

  function MarketContextLookup(byDate: map<Date, seq<Bar>>, d: Date): Option<MarketContext> {
    if d in byDate then Some(MarketContextOf(d, byDate[d])) else None
  }

  lemma HoldsOneMore(m: map<Date, seq<Template>>, pool: Pool, order: seq<Date>, k: nat)
    requires k < |order| && Holds(m, pool, order[..k])
    ensures Holds(m[order[k] := pool(order[k])], pool, order[..k + 1])
  {
    var next := m[order[k] := pool(order[k])];
    forall i | 0 <= i < k + 1 ensures order[i] in next && next[order[i]] == pool(order[i]) {
      if i < k {
        assert order[..k][i] in m;
      }
    }
    assert order[..k + 1] == order[..k] + [order[k]];
  }

  lemma PoolsExtended(signals: Pool, tradables: Pool, order: seq<Date>, k: nat, pools: CandidatePools,
                      tradableDates: map<Symbol, seq<Date>>)
    requires k < |order| && PoolsOf(signals, tradables, order[..k], pools)
    requires Recorded(pools.tradableDates, tradableDates, tradables(order[k]), order[k])
    ensures PoolsOf(signals, tradables, order[..k + 1],
                    CandidatePools(pools.signalByDate[order[k] := signals(order[k])],
                                   pools.tradableByDate[order[k] := tradables(order[k])], tradableDates))
  {
    HoldsOneMore(pools.signalByDate, signals, order, k);
    HoldsOneMore(pools.tradableByDate, tradables, order, k);
    forall s ensures DatesOf(tradableDates, s) == TradableDates(tradables, order[..k + 1], s) {
      FilterMapSnoc(DateIfTradable(tradables, s), order, k);
    }
  }

  method BuildCandidatePools(prepared: seq<BarSeries>, params: Params, order: seq<Date>,
                             byDate: map<Date, seq<Bar>>, previous: map<(Symbol, Date), Bar>)
    returns (pools: CandidatePools)
    requires ValidPrepared(prepared) && forall k :: 0 <= k < |order| ==> order[k] in byDate
    requires forall s, d :: Lookup(previous, s, d) == Previous(prepared, s, d)
    requires forall d :: d in byDate <==> d in AllDates(prepared)
    requires forall d :: d in byDate ==> byDate[d] == Today(prepared, d)
    ensures PoolsOf(Signals(prepared, params), Tradables(prepared, params), order, pools)
  {
    pools := CandidatePools(map[], map[], map[]);
    for k := 0 to |order|
      invariant PoolsOf(Signals(prepared, params), Tradables(prepared, params), order[..k], pools)
    {
      pools := ExtendPools(prepared, params, order, k, byDate, previous, pools);
    }
    assert order[..|order|] == order;
  }

  /** The pools after one more date. */
  method ExtendPools(prepared: seq<BarSeries>, params: Params, order: seq<Date>, k: nat,
                     byDate: map<Date, seq<Bar>>, previous: map<(Symbol, Date), Bar>, before: CandidatePools)
    returns (pools: CandidatePools)
    requires ValidPrepared(prepared) && k < |order| && order[k] in byDate
    requires forall s, d :: Lookup(previous, s, d) == Previous(prepared, s, d)
    requires forall d :: d in byDate <==> d in AllDates(prepared)
    requires forall d :: d in byDate ==> byDate[d] == Today(prepared, d)
    requires PoolsOf(Signals(prepared, params), Tradables(prepared, params), order[..k], before)
    ensures PoolsOf(Signals(prepared, params), Tradables(prepared, params), order[..k + 1], pools)
  {
    var d := order[k];
    var signals, tradables, tradableDates :=
      BuildTemplates(prepared, params, byDate[d], previous, byDate, d, before.tradableDates);
    assert signals == Signals(prepared, params)(d) && tradables == Tradables(prepared, params)(d);
    PoolsExtended(Signals(prepared, params), Tradables(prepared, params), order, k, before, tradableDates);
    pools := CandidatePools(before.signalByDate[d := signals], before.tradableByDate[d := tradables], tradableDates);
  }

  // ---------------------------------------------------------------- the random-date schedule

  /** An insertion-ordered dictionary of counts: its keys and its values. */
  ghost predicate Counts(seen: seq<Symbol>, symbols: seq<Symbol>, counts: map<Symbol, nat>) {
    symbols == FirstSeen(seen) && forall s :: CountIn(counts, s) == multiset(seen)[s]
  }

  lemma CountOne(seen: seq<Symbol>, symbols: seq<Symbol>, counts: map<Symbol, nat>, s: Symbol)
    requires Counts(seen, symbols, counts)
    ensures Counts(seen + [s], if s in symbols then symbols else symbols + [s], counts[s := CountIn(counts, s) + 1])
  {
    var next := counts[s := CountIn(counts, s) + 1];
    assert (seen + [s])[..|seen + [s]| - 1] == seen;
    forall x ensures CountIn(next, x) == multiset(seen + [s])[x] {
      assert CountIn(counts, x) == multiset(seen)[x];
    }
  }

  lemma SizedNext(seen: seq<Symbol>, f: Template -> Option<Symbol>, pool: seq<Template>, j: nat)
    requires j < |pool|
    ensures seen + FilterMap(f, pool[..j + 1]) ==
            if f(pool[j]).Some? then (seen + FilterMap(f, pool[..j])) + [f(pool[j]).value]
            else seen + FilterMap(f, pool[..j])
  {
    FilterMapSnoc(f, pool, j);
  }

  /** One date's signals. */
  method CountPool(pool: seq<Template>, params: Params, ghost seen: seq<Symbol>, symbols: seq<Symbol>,
                   counts: map<Symbol, nat>)
    returns (symbols': seq<Symbol>, counts': map<Symbol, nat>)
    requires Counts(seen, symbols, counts)
    ensures Counts(seen + FilterMap(SizedSymbol(params), pool), symbols', counts')
  {
    symbols', counts' := symbols, counts;
    ghost var sized, now := SizedSymbol(params), seen;
    for j := 0 to |pool|
      invariant now == seen + FilterMap(sized, pool[..j])
      invariant Counts(now, symbols', counts')
    {
      SizedNext(seen, sized, pool, j);
      var s := pool[j].symbol;
      if MaterializeEntry(pool[j], params.startingCapital, params, 0, 0).Some? {
        assert sized(pool[j]) == Some(s);
        CountOne(now, symbols', counts', s);
        now := now + [s];
        if s !in symbols' {
          symbols' := symbols' + [s];
        }
        counts' := counts'[s := CountIn(counts', s) + 1];
      }
    }
    assert pool[..|pool|] == pool;
  }

  /** The symbols with a sized signal, in dictionary order, and how many each has. */
  method CountSignals(ghost signals: Pool, params: Params, order: seq<Date>, signalByDate: map<Date, seq<Template>>)
    returns (symbols: seq<Symbol>, counts: map<Symbol, nat>)
    requires Holds(signalByDate, signals, order)
    ensures Counts(SignalSymbols(signals, params, order), symbols, counts)
  {
    symbols, counts := [], map[];
    for k := 0 to |order|
      invariant Counts(SignalSymbols(signals, params, order[..k]), symbols, counts)
    {
      assert order[..k + 1][..k] == order[..k];
      symbols, counts :=
        CountPool(signalByDate[order[k]], params, SignalSymbols(signals, params, order[..k]), symbols, counts);
    }
    assert order[..|order|] == order;
  }

  lemma PlaceOne(placed: seq<Placement>, p: Placement)
    ensures ScheduleOf(placed + [p]) == Place(ScheduleOf(placed), p)
  {
    assert (placed + [p])[..|placed + [p]| - 1] == placed;
  }

  lemma DrawNext(o: Oracle, rng: int, s: Symbol, dates: seq<Date>, n: nat, placed: seq<Placement>)
    requires dates != []
    ensures var (before, more) := Draws(o, rng, s, dates, n);
            var (after, d) := o.choice(before, dates);
            && Draws(o, rng, s, dates, n + 1) == (after, more + [Placement(d, s)])
            && ScheduleOf(placed + Draws(o, rng, s, dates, n + 1).1)
                 == Place(ScheduleOf(placed + more), Placement(d, s))
  {
    var (before, more) := Draws(o, rng, s, dates, n);
    var p := Placement(o.choice(before, dates).1, s);
    assert placed + (more + [p]) == (placed + more) + [p];
    PlaceOne(placed + more, p);
  }

  /** One symbol's draws. */
  method DrawSymbol(o: Oracle, rng: int, s: Symbol, dates: seq<Date>, count: nat, ghost placed: seq<Placement>,
                    before: map<Date, seq<Symbol>>)
    returns (rng': int, schedule: map<Date, seq<Symbol>>)
    requires before == ScheduleOf(placed)
    ensures rng' == Draws(o, rng, s, dates, count).0
    ensures schedule == ScheduleOf(placed + Draws(o, rng, s, dates, count).1)
  {
    rng', schedule := rng, before;
    assert placed + Draws(o, rng, s, dates, 0).1 == placed;
    for i := 0 to count
      invariant rng' == Draws(o, rng, s, dates, i).0
      invariant schedule == ScheduleOf(placed + Draws(o, rng, s, dates, i).1)
    {
      if dates != [] {
        DrawNext(o, rng, s, dates, i, placed);
        var (after, d) := o.choice(rng', dates);
        rng', schedule := after, Place(schedule, Placement(d, s));
      }
    }
  }

  lemma PlacementsNext(draw: Drawing, seed: int, symbols: seq<Symbol>, i: nat)
    requires i < |symbols|
    ensures var (before, placed) := Placements(draw, seed, symbols[..i]);
            Placements(draw, seed, symbols[..i + 1])
              == (draw(before, symbols[i]).0, placed + draw(before, symbols[i]).1)
  {
    assert symbols[..i + 1][..i] == symbols[..i];
  }

  /** All draws, given the number of signals and the tradable dates of each symbol. */
  method DrawSchedule(o: Oracle, seed: int, ghost signalled: seq<Symbol>, ghost tradable: Symbol -> seq<Date>,
                      symbols: seq<Symbol>, counts: map<Symbol, nat>, tradableDates: map<Symbol, seq<Date>>)
    returns (schedule: map<Date, seq<Symbol>>)
    requires Counts(signalled, symbols, counts) && forall s :: DatesOf(tradableDates, s) == tradable(s)
    ensures schedule == ScheduleOf(DrawAll(o, seed, signalled, tradable))
  {
    ghost var draw := DrawSignals(o, signalled, tradable);
    var rng := seed;
    ghost var placed: seq<Placement> := [];
    schedule := map[];
    for i := 0 to |symbols|
      invariant Placements(draw, seed, symbols[..i]) == (rng, placed)
      invariant schedule == ScheduleOf(placed)
    {
      var s := symbols[i];
      PlacementsNext(draw, seed, symbols, i);
      assert draw(rng, s) == Draws(o, rng, s, DatesOf(tradableDates, s), CountIn(counts, s));
      ghost var more := draw(rng, s).1;
      rng, schedule := DrawSymbol(o, rng, s, DatesOf(tradableDates, s), CountIn(counts, s), placed, schedule);
      placed := placed + more;
    }
    assert symbols[..|symbols|] == symbols;
  }

  method BuildSchedule(prepared: seq<BarSeries>, params: Params, o: Oracle, seed: int, order: seq<Date>,
                       pools: CandidatePools)
    returns (schedule: map<Date, seq<Symbol>>)
    requires order == DateOrder(prepared)
    requires PoolsOf(Signals(prepared, params), Tradables(prepared, params), order, pools)
    ensures schedule == ScheduleOf(PlacementsFor(prepared, params, o, seed))
  {
    ghost var signals, tradable := Signals(prepared, params), TradableOf(Tradables(prepared, params), order);
    var symbols, counts := CountSignals(signals, params, order, pools.signalByDate);
    schedule := DrawSchedule(o, seed, SignalSymbols(signals, params, order), tradable, symbols, counts,
                             pools.tradableDates);
  }

  // ---------------------------------------------------------------- one day

  /** The exit rule moves position i to the trades or leaves it open. */
  lemma ExitStep(today: seq<Bar>, positions: seq<Position>, i: nat, params: Params, stress: ExecutionStress)
    requires i < |positions|
    ensures var trade := ExitToday(today, positions[i], params, stress);
            var closed := Closed(today, positions[..i], params, stress);
            if trade.None? then
              && Survivors(today, positions[..i + 1], params, stress) ==
                   Survivors(today, positions[..i], params, stress) + [positions[i]]
              && Closed(today, positions[..i + 1], params, stress) == closed
            else
              && Survivors(today, positions[..i + 1], params, stress) ==
                   Survivors(today, positions[..i], params, stress)
              && Closed(today, positions[..i + 1], params, stress) == closed + [trade.value]
              && NetPnl(closed + [trade.value]) == NetPnl(closed) + trade.value.netPnl
  {
    FilterMapSnoc(ToSurvivor(today, params, stress), positions, i);
    FilterMapSnoc(ToExit(today, params, stress), positions, i);
  }

  method ProcessExits(today: seq<Bar>, positions: seq<Position>, trades: seq<Trade>, equity: real,
                      params: Params, stress: ExecutionStress)
    returns (remaining: seq<Position>, allTrades: seq<Trade>, newEquity: real)
    ensures remaining == Survivors(today, positions, params, stress)
    ensures allTrades == trades + Closed(today, positions, params, stress)
    ensures newEquity == equity + NetPnl(Closed(today, positions, params, stress))
  {
    remaining, allTrades, newEquity := [], trades, equity;
    for i := 0 to |positions|
      invariant remaining == Survivors(today, positions[..i], params, stress)
      invariant allTrades == trades + Closed(today, positions[..i], params, stress)
      invariant newEquity == equity + NetPnl(Closed(today, positions[..i], params, stress))
    {
      ExitStep(today, positions, i, params, stress);
      var trade := ExitToday(today, positions[i], params, stress);
      if trade.None? {
        remaining := remaining + [positions[i]];
        continue;
      }
      allTrades := allTrades + [trade.value];
      newEquity := newEquity + trade.value.netPnl;
    }
    assert positions[..|positions|] == positions;
  }

  /** What trying candidate i does to the openings that are still to come. */
  lemma TryCandidate(env: Env, entries: seq<EntryCandidate>, i: nat, equity: real, book: seq<Position>,
      openedToday: nat)
    requires AllListed(env.prepared, entries) && i < |entries|
    ensures OpenAll(env, entries[i..], equity, book, openedToday) ==
            if DayFull(env.params, book, openedToday) then Opened(book, [])
            else if OpenNotional(book) + entries[i].Notional() > equity
            then OpenAll(env, entries[i + 1..], equity, book, openedToday)
            else
              var p := MakePosition(env, entries[i]);
              var rest := OpenAll(env, entries[i + 1..], equity, Put(book, p), openedToday + 1);
              Opened(rest.positions, [Opening(p, equity, book, Displaced(book, p.Symbol()))] + rest.openings)
  {
    assert entries[i..][0] == entries[i] && entries[i..][1..] == entries[i + 1..];
  }

  /** The openings already made, followed by those still to come. */
  ghost function After(openings: seq<Opening>, rest: Opened): Opened {
    Opened(rest.positions, openings + rest.openings)
  }

  lemma AfterOne(openings: seq<Opening>, o: Opening, rest: Opened)
    ensures After(openings + [o], rest) == After(openings, Opened(rest.positions, [o] + rest.openings))
  {
    assert (openings + [o]) + rest.openings == openings + ([o] + rest.openings);
  }

  /** The inner loop of the day: try the candidates in order until the day or the book is full. */
  method OpenPositions(env: Env, entries: seq<EntryCandidate>, equity: real, positions: seq<Position>)
    returns (book: seq<Position>, ghost openings: seq<Opening>)
    requires AllListed(env.prepared, entries)
    ensures Opened(book, openings) == OpenAll(env, entries, equity, positions, 0)
    ensures book == OpenAll(env, entries, equity, positions, 0).positions
  {
    book, openings := positions, [];
    var openedToday := 0;
    ghost var all := OpenAll(env, entries, equity, positions, 0);
    assert entries[0..] == entries;
    for i := 0 to |entries|
      invariant all == After(openings, OpenAll(env, entries[i..], equity, book, openedToday))
    {
      var c := entries[i];
      TryCandidate(env, entries, i, equity, book, openedToday);
      if env.params.maxNewPositionsPerDay.Some? && openedToday >= env.params.maxNewPositionsPerDay.value {
        return;
      }
      if |book| >= env.params.maxPositions {
        return;
      }
      if OpenNotional(book) + c.Notional() > equity {
        continue;
      }
      var p := MakePosition(env, c);
      ghost var o := Opening(p, equity, book, Displaced(book, p.Symbol()));
      AfterOne(openings, o, OpenAll(env, entries[i + 1..], equity, Put(book, p), openedToday + 1));
      openings := openings + [o];
      book := Put(book, p);
      openedToday := openedToday + 1;
    }
  }

  // ---------------------------------------------------------------- the run

  /** One date: exits and entries in the configured order. */
  method RunDay(c: Config, stress: ExecutionStress, seed: int, d: Date, today: seq<Bar>,
                signalPool: seq<Template>, tradablePool: seq<Template>, ghost st: State,
                positions: seq<Position>, trades: seq<Trade>, equity: real, rng: int)
    returns (ghost next: State, positions': seq<Position>, trades': seq<Trade>, equity': real, rng': int)
    requires ValidPrepared(c.prepared) && ValidOracle(c.oracle) && ValidEnv(ProgramEnv(c, stress, seed))
    requires today == Today(c.prepared, d)
    requires signalPool == SignalPool(c.prepared, c.params, d) && tradablePool == TradablePool(c.prepared, c.params, d)
    requires st == State(equity, positions, trades, rng, st.openings)
    ensures next == StepDay(ProgramEnv(c, stress, seed), d, st)
    ensures next == State(equity', positions', trades', rng', next.openings)
    ensures var after := StepDay(ProgramEnv(c, stress, seed), d, st);
            positions' == after.positions && trades' == after.trades && equity' == after.equity && rng' == after.rng
  {
    var env := ProgramEnv(c, stress, seed);
    positions', trades', equity' := positions, trades, equity;
    if stress.exitBeforeEntryAtOpen {
      positions', trades', equity' := ProcessExits(today, positions', trades', equity', c.params, stress);
    }
    ghost var before := State(equity', positions', trades', rng, st.openings);
    assert before == if stress.exitBeforeEntryAtOpen then ExitPhase(env, d, st) else st;
    var (rng1, entries) := EntriesFrom(c.params, c.kind, c.selection, c.oracle, signalPool, tradablePool,
                                       Scheduled(c, d), equity', positions', rng);
    assert (rng1, entries) == env.offer(d, equity', positions', rng);
    OfferListed(env, d, equity', positions', rng);
    ghost var added: seq<Opening>;
    positions', added := OpenPositions(env, entries, equity', positions');
    rng' := rng1;
    next := State(equity', positions', trades', rng', st.openings + added);
    assert next == EntryPhase(env, d, before);
    if !stress.exitBeforeEntryAtOpen {
      positions', trades', equity' := ProcessExits(today, positions', trades', equity', c.params, stress);
      next := State(equity', positions', trades', rng', next.openings);
    }
  }

  /** There is one run over the dates of the bars, and these are the trades it reports. */
  ghost predicate ReportsEveryRun(env: Env, trades: seq<Trade>)
    requires ValidEnv(env)
  {
    forall cal: seq<Date>, run: seq<State> :: IsCalendar(env.prepared, cal) && IsRun(env, cal, run) ==>
      PositionsListed(env, run[|run| - 1].positions) && trades == Report(env, run[|run| - 1])
  }

  lemma {:induction false} RunUnique(env: Env, cal: seq<Date>, run: seq<State>, run': seq<State>, k: nat)
    requires ValidEnv(env) && IsRun(env, cal, run) && IsRun(env, cal, run') && k <= |cal|
    ensures run[k] == run'[k]
  {
    if k == 0 {
    } else {
      RunUnique(env, cal, run, run', k - 1);
      assert StepAt(env, cal, run, k - 1) && StepAt(env, cal, run', k - 1);
    }
  }

  lemma OneReport(env: Env, cal: seq<Date>, run: seq<State>)
    requires ValidEnv(env) && IsCalendar(env.prepared, cal) && IsRun(env, cal, run)
    ensures PositionsListed(env, run[|run| - 1].positions)
    ensures ReportsEveryRun(env, Report(env, run[|run| - 1]))
  {
    RunListed(env, cal, run, |run| - 1);
    forall cal': seq<Date>, run': seq<State> | IsCalendar(env.prepared, cal') && IsRun(env, cal', run')
      ensures PositionsListed(env, run'[|run'| - 1].positions)
      ensures Report(env, run[|run| - 1]) == Report(env, run'[|run'| - 1])
    {
      AscendingUnique(cal, cal');
      RunUnique(env, cal, run, run', |cal|);
    }
  }

  /** The context, the pools and the schedule: everything that is computed before the day loop. */
  method Setup(prepared: seq<BarSeries>, options: Options, seed: int)
    returns (c: Config, byDate: map<Date, seq<Bar>>, pools: CandidatePools)
    requires ValidPrepared(prepared)
    ensures c == ConfigOf(prepared, options, seed)
    ensures forall d :: d in byDate <==> d in AllDates(prepared)
    ensures forall d :: d in byDate ==> byDate[d] == Today(prepared, d)
    ensures PoolsOf(Signals(prepared, options.params), Tradables(prepared, options.params), DateOrder(prepared), pools)
  {
    var order: seq<Date>;
    byDate, order := BarsByDate(prepared);
    var previous := PreviousBars(prepared);
    forall k | 0 <= k < |order| ensures order[k] in byDate {
      DateOrderMember(prepared, order[k]);
    }
    pools := BuildCandidatePools(prepared, options.params, order, byDate, previous);
    var schedule: map<Date, seq<Symbol>> := map[];
    if options.kind.SymbolMatchedRandomDate? {
      schedule := BuildSchedule(prepared, options.params, options.oracle, seed, order, pools);
    }
    c := Config(prepared, options.params, options.kind, options.selection, options.oracle, schedule);
  }

  lemma PoolAt(prepared: seq<BarSeries>, params: Params, pools: CandidatePools, d: Date)
    requires PoolsOf(Signals(prepared, params), Tradables(prepared, params), DateOrder(prepared), pools)
    requires d in AllDates(prepared)
    ensures d in pools.signalByDate && pools.signalByDate[d] == SignalPool(prepared, params, d)
    ensures d in pools.tradableByDate && pools.tradableByDate[d] == TradablePool(prepared, params, d)
  {
    DateOrderMember(prepared, d);
    var i :| 0 <= i < |DateOrder(prepared)| && DateOrder(prepared)[i] == d;
  }

  /** The day loop. */
  method RunDates(c: Config, stress: ExecutionStress, seed: int, dates: seq<Date>, byDate: map<Date, seq<Bar>>,
                  pools: CandidatePools)
    returns (positions: seq<Position>, closed: seq<Trade>, ghost run: seq<State>)
    requires ValidPrepared(c.prepared) && ValidOracle(c.oracle) && ValidEnv(ProgramEnv(c, stress, seed))
    requires forall d :: d in dates ==> d in byDate && d in AllDates(c.prepared)
    requires forall d :: d in byDate ==> byDate[d] == Today(c.prepared, d)
    requires PoolsOf(Signals(c.prepared, c.params), Tradables(c.prepared, c.params), DateOrder(c.prepared), pools)
    ensures IsRun(ProgramEnv(c, stress, seed), dates, run)
    ensures positions == run[|dates|].positions && closed == run[|dates|].trades
  {
    var equity, rng := c.params.startingCapital, seed;
    positions, closed := [], [];
    ghost var st := Initial(ProgramEnv(c, stress, seed));
    run := [st];
    for k := 0 to |dates|
      invariant IsRun(ProgramEnv(c, stress, seed), dates[..k], run) && run[k] == st
      invariant st == State(equity, positions, closed, rng, st.openings)
    {
      var d := dates[k];
      assert d in dates;
      PoolAt(c.prepared, c.params, pools, d);
      st, positions, closed, equity, rng :=
        RunDay(c, stress, seed, d, byDate[d], pools.signalByDate[d], pools.tradableByDate[d], st,
               positions, closed, equity, rng);
      RunExtended(ProgramEnv(c, stress, seed), dates, k, run, st);
      run := run + [st];
    }
    assert dates[..|dates|] == dates;
  }

  /** The whole backtest: the trades it returns are the report of the run of the day loop. */
  method Simulate(prepared: seq<BarSeries>, options: Options, stress: ExecutionStress, seed: int)
    returns (trades: seq<Trade>, ghost cal: seq<Date>, ghost run: seq<State>)
    requires ValidPrepared(prepared) && ValidOracle(options.oracle)
    ensures ValidEnv(Program(prepared, options, stress, seed)) && IsCalendar(prepared, cal)
    ensures IsRun(Program(prepared, options, stress, seed), cal, run)
    ensures PositionsListed(Program(prepared, options, stress, seed), run[|run| - 1].positions)
    ensures trades == Report(Program(prepared, options, stress, seed), run[|run| - 1])
    ensures ReportsEveryRun(Program(prepared, options, stress, seed), trades)
  {
    var c, byDate, pools := Setup(prepared, options, seed);
    ghost var env := ProgramEnv(c, stress, seed);
    ProgramIsValid(c, stress, seed);
    var dates := Ascending(byDate.Keys);
    cal := dates;
    var positions, closed;
    positions, closed, run := RunDates(c, stress, seed, dates, byDate, pools);
    RunListed(env, cal, run, |run| - 1);
    trades := Sort(ByExit, closed + EndTrades(ProgramEnv(c, stress, seed), positions));
    OneReport(env, cal, run);
  }

  lemma RunExtended(env: Env, cal: seq<Date>, k: nat, run: seq<State>, st: State)
    requires ValidEnv(env) && k < |cal| && IsRun(env, cal[..k], run) && st == StepDay(env, cal[k], run[k])
    ensures IsRun(env, cal[..k + 1], run + [st])
  {
    var dates, states := cal[..k + 1], run + [st];
    forall j | 0 <= j < k + 1 ensures StepAt(env, dates, states, j) {
      if j < k {
        assert StepAt(env, cal[..k], run, j);
      }
    }
  }
}
