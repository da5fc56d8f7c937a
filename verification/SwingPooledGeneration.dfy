/** Candidates drawn from the pools are the candidates generated directly. */
module SwingPooledGeneration {
  import opened Prelude
  import opened Sorting
  import opened SwingTypes
  import opened SwingSignals
  import opened SwingPools

  function Unranked(c: EntryCandidate): EntryCandidate {
    c.(rankedPosition := 0, candidateCount := 0)
  }

  function UnrankedAll(cs: seq<EntryCandidate>): (r: seq<EntryCandidate>)
    ensures |r| == |cs|
    ensures forall i :: 0 <= i < |cs| ==> r[i] == Unranked(cs[i])
  {
    seq(|cs|, i requires 0 <= i < |cs| => Unranked(cs[i]))
  }

  function Materialize(equity: real, params: Params): Template -> Option<EntryCandidate> {
    (t: Template) => MaterializeEntry(t, equity, params, 0, 0)
  }

  lemma ScoreOrder()
    ensures TotalPreorder(ByScore) && TotalPreorder(ByCandidateScore)
    ensures TotalPreorder(BySymbol) && TotalPreorder(ByCandidateSymbol)
  {
  }

  lemma SignalledIsTemplate(bar: Bar, s: Bar, market: Option<MarketContext>, equity: real, params: Params)
    requires IsEntrySignal(s, params)
    ensures SignalledCandidate(bar, s, market, equity, params) ==
            (var t := EntryTemplateOf(bar, s, market, params, true);
             if t.None? then None else MaterializeEntry(t.value, equity, params, 0, 0))
  {
  }

  lemma TradableIsTemplate(bar: Bar, s: Bar, market: Option<MarketContext>, equity: real, params: Params)
    requires IsRandomBaselineTradable(s, params)
    ensures TradableCandidate(bar, s, market, equity, params) ==
            (var t := EntryTemplateOf(bar, s, market, params, false);
             if t.None? then None else MaterializeEntry(t.value, equity, params, 0, 0))
  {
  }

  /** One bar: the direct candidate is the materialized template, if the symbol is free. */
  lemma {:induction false} DirectIsMaterialized(prepared: seq<BarSeries>, equity: real, positions: seq<Position>,
      params: Params, bar: Bar)
    ensures DirectCandidate(prepared, equity, positions, params, bar) ==
            (var t := SignalTemplate(prepared, params, bar);
             if t.None? then None else MaterializeFree(equity, positions, params)(t.value))
  {
    var signal := Previous(prepared, bar.symbol, bar.date);
    if signal.Some? && IsEntrySignal(signal.value, params) {
      SignalledIsTemplate(bar, signal.value, MarketOn(prepared, signal.value.date), equity, params);
    }
  }

  lemma {:induction false} BaselineIsMaterialized(prepared: seq<BarSeries>, equity: real, positions: seq<Position>,
      params: Params, bar: Bar)
    ensures RandomBaselineCandidate(prepared, equity, positions, params, bar) ==
            (var t := TradableTemplate(prepared, params, bar);
             if t.None? then None else MaterializeFree(equity, positions, params)(t.value))
  {
    var signal := Previous(prepared, bar.symbol, bar.date);
    if signal.Some? && IsRandomBaselineTradable(signal.value, params) {
      TradableIsTemplate(bar, signal.value, MarketOn(prepared, signal.value.date), equity, params);
    }
  }

  lemma {:induction false} MaterializedUnranked(ts: seq<Template>, equity: real, params: Params, rank: int, count: int)
    ensures UnrankedAll(MaterializeRanked(ts, equity, params, rank, count))
         == FilterMap(Materialize(equity, params), ts)
    decreases |ts|
  {
    if ts == [] {
    } else {
      MaterializedUnranked(ts[1..], equity, params, rank + 1, count);
    }
  }

  lemma RankedUnranked(cs: seq<EntryCandidate>)
    requires forall c :: c in cs ==> c == Unranked(c)
    ensures UnrankedAll(Ranked(cs)) == cs
  {
    forall i | 0 <= i < |cs| ensures UnrankedAll(Ranked(cs))[i] == cs[i] {
      assert cs[i] in cs;
    }
  }

  lemma TemplateKeys(ts: seq<Template>)
    requires DistinctBy(TemplateSymbol, ts)
    ensures KeysDistinct(ByScore, ts)
  {
  }

  lemma CandidateKeys(cs: seq<EntryCandidate>)
    requires DistinctBy(CandidateSymbol, cs)
    ensures KeysDistinct(ByCandidateScore, cs)
  {
  }

  /** The pool is the same list whichever order the day's symbols are visited in. */
  lemma PoolOrderFree(prepared: seq<BarSeries>, params: Params, d: Date)
    requires ValidPrepared(prepared)
    ensures SignalPool(prepared, params, d) == Sort(ByScore, FilterMap(ToSignal(prepared, params), Today(prepared, d)))
  {
    var f := ToSignal(prepared, params);
    var bars := Today(prepared, d);
    ScoreOrder();
    TodayDistinct(prepared, d);
    DistinctFilterMap(f, BarSymbol, TemplateSymbol, bars);
    TemplateKeys(FilterMap(f, bars));
    FilterMapMultiset(f, bars, TodayBySymbol(prepared, d));
    SortPermutation(ByScore, FilterMap(f, bars), FilterMap(f, TodayBySymbol(prepared, d)));
  }

  /** Sorting the surviving candidates is the same as dropping candidates from the sorted pool. */
  lemma MaterializeSorted(ts: seq<Template>, equity: real, positions: seq<Position>, params: Params)
    requires KeysDistinct(ByCandidateScore, FilterMap(MaterializeFree(equity, positions, params), ts))
    ensures FilterMap(MaterializeFree(equity, positions, params), Sort(ByScore, ts))
         == Sort(ByCandidateScore, FilterMap(MaterializeFree(equity, positions, params), ts))
  {
    var f := MaterializeFree(equity, positions, params);
    ScoreOrder();
    SortOrdered(ByScore, ts);
    FilterMapOrdered(f, ByScore, ByCandidateScore, Sort(ByScore, ts));
    FilterMapMultiset(f, Sort(ByScore, ts), ts);
    SortOrdered(ByCandidateScore, FilterMap(f, ts));
    SameElements(FilterMap(f, Sort(ByScore, ts)), FilterMap(f, ts));
    OrderedUnique(ByCandidateScore, FilterMap(f, Sort(ByScore, ts)), Sort(ByCandidateScore, FilterMap(f, ts)));
  }

  /** The pooled signal candidates are the direct ones, in the same order and with the same
      fields other than rank and count. */
  lemma PooledSignalsMatchDirect(prepared: seq<BarSeries>, d: Date, equity: real, positions: seq<Position>,
      params: Params)
    requires ValidPrepared(prepared)
    ensures UnrankedAll(SignalCandidatesFromPool(SignalPool(prepared, params, d), equity, positions, params))
         == UnrankedAll(EntryCandidates(prepared, d, equity, positions, params))
  {
    var bars := Today(prepared, d);
    var toSignal, toDirect := ToSignal(prepared, params), ToDirect(prepared, equity, positions, params);
    var free := MaterializeFree(equity, positions, params);
    var templates := FilterMap(toSignal, bars);
    var available := FilterMap(IfNotHeld(positions), SignalPool(prepared, params, d));
    TodayDistinct(prepared, d);
    forall b: Bar ensures toDirect(b) == (if toSignal(b).Some? then free(toSignal(b).value) else None) {
      DirectIsMaterialized(prepared, equity, positions, params, b);
    }
    FilterMapCompose(toSignal, free, toDirect, bars);
    DistinctFilterMap(toDirect, BarSymbol, CandidateSymbol, bars);
    CandidateKeys(FilterMap(toDirect, bars));
    PoolOrderFree(prepared, params, d);
    MaterializeSorted(templates, equity, positions, params);
    MaterializedUnranked(available, equity, params, 1, |available|);
    FilterMapCompose(IfNotHeld(positions), Materialize(equity, params), free, SignalPool(prepared, params, d));
    var direct := Sort(ByCandidateScore, FilterMap(toDirect, bars));
    forall c | c in direct ensures c == Unranked(c) {
      SameElements(direct, FilterMap(toDirect, bars));
      FilterMapMember(toDirect, bars, c);
    }
    RankedUnranked(direct);
  }

  // ---------------------------------------------------------------- rank and count

  ghost predicate AllSized(ts: seq<Template>, equity: real, params: Params) {
    forall t :: t in ts ==> MaterializeEntry(t, equity, params, 0, 0).Some?
  }

  ghost predicate NoneSized(ts: seq<Template>, equity: real, params: Params) {
    forall t :: t in ts ==> MaterializeEntry(t, equity, params, 0, 0).None?
  }

  lemma {:induction false} NothingMaterialized(ts: seq<Template>, equity: real, params: Params, rank: int, count: int)
    ensures MaterializeRanked(ts, equity, params, rank, count) == [] <==> NoneSized(ts, equity, params)
    decreases |ts|
  {
    if ts == [] {
    } else {
      NothingMaterialized(ts[1..], equity, params, rank + 1, count);
      assert ts == [ts[0]] + ts[1..];
      assert NoneSized(ts, equity, params) <==>
               MaterializeEntry(ts[0], equity, params, 0, 0).None? && NoneSized(ts[1..], equity, params);
    }
  }

  lemma {:induction false} MaterializedRanks(ts: seq<Template>, equity: real, params: Params, rank: int, count: int)
    ensures var cs := MaterializeRanked(ts, equity, params, rank, count);
            && |cs| <= |ts| && (|cs| == |ts| <==> AllSized(ts, equity, params))
            && (forall i :: 0 <= i < |cs| ==> cs[i].candidateCount == count)
            && (AllSized(ts, equity, params) ==> forall i :: 0 <= i < |cs| ==> cs[i].rankedPosition == rank + i)
    decreases |ts|
  {
    if ts == [] {
    } else {
      MaterializedRanks(ts[1..], equity, params, rank + 1, count);
      assert ts == [ts[0]] + ts[1..];
      assert AllSized(ts, equity, params) <==>
               MaterializeEntry(ts[0], equity, params, 0, 0).Some? && AllSized(ts[1..], equity, params);
    }
  }

  /** Rank and count agree too exactly when none of the available templates fills a lot, or all do. */
  lemma {:induction false} PooledRanksMatchDirect(prepared: seq<BarSeries>, d: Date, equity: real,
                                                  positions: seq<Position>, params: Params)
    requires ValidPrepared(prepared)
    ensures var available := FilterMap(IfNotHeld(positions), SignalPool(prepared, params, d));
            SignalCandidatesFromPool(SignalPool(prepared, params, d), equity, positions, params)
              == EntryCandidates(prepared, d, equity, positions, params)
            <==>
            NoneSized(available, equity, params) || AllSized(available, equity, params)
  {
    var available := FilterMap(IfNotHeld(positions), SignalPool(prepared, params, d));
    var pooled := SignalCandidatesFromPool(SignalPool(prepared, params, d), equity, positions, params);
    var direct := EntryCandidates(prepared, d, equity, positions, params);
    PooledSignalsMatchDirect(prepared, d, equity, positions, params);
    MaterializedRanks(available, equity, params, 1, |available|);
    NothingMaterialized(available, equity, params, 1, |available|);
    assert |pooled| == |UnrankedAll(pooled)| == |UnrankedAll(direct)| == |direct|;
    if AllSized(available, equity, params) {
      forall i | 0 <= i < |direct| ensures pooled[i] == direct[i] {
        assert UnrankedAll(pooled)[i] == UnrankedAll(direct)[i];
        assert pooled[i] == Unranked(pooled[i]).(rankedPosition := i + 1, candidateCount := |direct|);
        assert direct[i] == Unranked(direct[i]).(rankedPosition := i + 1, candidateCount := |direct|);
      }
    } else if direct != [] {
      assert pooled[0].candidateCount == |available| != |direct| == direct[0].candidateCount;
    }
  }

  // ---------------------------------------------------------------- random baselines

  /** Before the shuffle the two universe baselines are the same list. */
  lemma PooledUniverseMatchesDirect(prepared: seq<BarSeries>, d: Date, equity: real, positions: seq<Position>,
                                    params: Params)
    ensures UniverseCandidatesFromPool(TradablePool(prepared, params, d), equity, positions, params)
         == UniverseCandidates(prepared, d, equity, positions, params)
  {
    var f, g := ToTradable(prepared, params), MaterializeFree(equity, positions, params);
    var h := ToRandomBaseline(prepared, equity, positions, params);
    forall b: Bar ensures h(b) == (if f(b).Some? then g(f(b).value) else None) {
      BaselineIsMaterialized(prepared, equity, positions, params, b);
    }
    FilterMapCompose(f, g, h, TodayBySymbol(prepared, d));
  }

  /** How often a candidate occurs among the scheduled pool entries. */
  lemma {:induction false} ScheduledMultiplicity(pool: seq<Template>, counts: map<Symbol, nat>, equity: real,
                                                 positions: seq<Position>, params: Params, c: EntryCandidate)
    requires DistinctBy(TemplateSymbol, pool)
    ensures multiset(ScheduledFromPool(pool, counts, equity, positions, params))[c] ==
            if c in FilterMap(MaterializeFree(equity, positions, params), pool)
            then CountIn(counts, c.Symbol()) else 0
    decreases |pool|
  {
    var free := MaterializeFree(equity, positions, params);
    if pool == [] {
    } else {
      var t := pool[0];
      var remaining := CountIn(counts, t.symbol);
      var zeroed := if remaining <= 0 || Held(positions, t.symbol) then counts else counts[t.symbol := 0];
      ScheduledMultiplicity(pool[1..], zeroed, equity, positions, params, c);
      FilterMapMember(free, pool[1..], c);
      if c in FilterMap(free, pool[1..]) {
        var u :| u in pool[1..] && free(u) == Some(c);
        assert c.Symbol() == u.symbol != t.symbol;
      }
      if remaining > 0 && free(t).Some? {
        CopiesMultiplicity(free(t).value, remaining, c);
      }
    }
  }

  lemma {:induction false} CopiesMultiplicity(x: EntryCandidate, n: nat, c: EntryCandidate)
    ensures multiset(Copies(x, n))[c] == if c == x then n else 0
    decreases n
  {
    if n > 0 {
      CopiesMultiplicity(x, n - 1, c);
      assert Copies(x, n) == Copies(x, n - 1) + [x];
    } else {
      assert Copies(x, n) == [];
    }
  }

  /** How often a candidate occurs when it is generated once per scheduled symbol. */
  lemma {:induction false} DirectMultiplicity(f: Symbol -> Option<EntryCandidate>, scheduled: seq<Symbol>,
      c: EntryCandidate)
    requires forall s :: f(s).Some? ==> f(s).value.Symbol() == s
    ensures multiset(FilterMap(f, scheduled))[c] ==
                if f(c.Symbol()) == Some(c) then multiset(scheduled)[c.Symbol()] else 0
    decreases |scheduled|
  {
    if scheduled == [] {
    } else {
      DirectMultiplicity(f, scheduled[1..], c);
      assert scheduled == [scheduled[0]] + scheduled[1..];
    }
  }

  /** The pool's candidate for a symbol is the one generated directly for that symbol. */
  lemma PoolCandidateOfSymbol(prepared: seq<BarSeries>, d: Date, equity: real, positions: seq<Position>,
                              params: Params, c: EntryCandidate)
    requires ValidPrepared(prepared)
    ensures c in FilterMap(MaterializeFree(equity, positions, params), TradablePool(prepared, params, d))
            <==> BaselineForSymbol(prepared, d, equity, positions, params)(c.Symbol()) == Some(c)
  {
    var h := ToRandomBaseline(prepared, equity, positions, params);
    PooledUniverseMatchesDirect(prepared, d, equity, positions, params);
    FilterMapMember(h, TodayBySymbol(prepared, d), c);
    SameElements(TodayBySymbol(prepared, d), Today(prepared, d));
    if c in FilterMap(h, TodayBySymbol(prepared, d)) {
      var b :| b in Today(prepared, d) && h(b) == Some(c);
      TodayMember(prepared, d, b);
    }
    var sr := SeriesOf(prepared, c.Symbol());
    if sr.Some? && BarOn(sr.value, d).Some? {
      var b := BarOn(sr.value, d).value;
      BarHasSymbol(prepared, c.Symbol(), d);
      TodayMember(prepared, d, b);
    }
  }

  lemma BarHasSymbol(prepared: seq<BarSeries>, s: Symbol, d: Date)
    requires ValidPrepared(prepared)
    requires SeriesOf(prepared, s).Some? && BarOn(SeriesOf(prepared, s).value, d).Some?
    ensures BarOn(SeriesOf(prepared, s).value, d).value.symbol == s
  {
  }

  /** Both ways of serving a schedule produce every candidate equally often. */
  lemma ScheduledSameMultiset(prepared: seq<BarSeries>, d: Date, equity: real, positions: seq<Position>,
                              params: Params, scheduled: seq<Symbol>)
    requires ValidPrepared(prepared)
    ensures multiset(ScheduledFromPool(TradablePool(prepared, params, d), Counter(scheduled),
                                     equity, positions, params))
         == multiset(FilterMap(BaselineForSymbol(prepared, d, equity, positions, params), scheduled))
  {
    var pool := TradablePool(prepared, params, d);
    var f := BaselineForSymbol(prepared, d, equity, positions, params);
    var pooled := ScheduledFromPool(pool, Counter(scheduled), equity, positions, params);
    TodayDistinct(prepared, d);
    DistinctPermutation(BarSymbol, Today(prepared, d), TodayBySymbol(prepared, d));
    DistinctFilterMap(ToTradable(prepared, params), BarSymbol, TemplateSymbol, TodayBySymbol(prepared, d));
    BaselineSymbol(prepared, d, equity, positions, params);
    forall c: EntryCandidate ensures multiset(pooled)[c] == multiset(FilterMap(f, scheduled))[c] {
      ScheduledMultiplicity(pool, Counter(scheduled), equity, positions, params, c);
      DirectMultiplicity(f, scheduled, c);
      PoolCandidateOfSymbol(prepared, d, equity, positions, params, c);
      assert CountIn(Counter(scheduled), c.Symbol()) == multiset(scheduled)[c.Symbol()];
    }
  }

  /** The scheduled baseline is the same list, ranks included. */
  lemma {:induction false} PooledScheduledMatchesDirect(prepared: seq<BarSeries>, d: Date, equity: real,
                                                        positions: seq<Position>, params: Params,
                                                        scheduled: seq<Symbol>)
    requires ValidPrepared(prepared)
    ensures ScheduledCandidatesFromPool(TradablePool(prepared, params, d), equity, positions, params, scheduled)
         == ScheduledCandidates(prepared, d, equity, positions, params, scheduled)
  {
    var f := BaselineForSymbol(prepared, d, equity, positions, params);
    var direct := FilterMap(f, scheduled);
    if scheduled != [] {
      ScheduledSameMultiset(prepared, d, equity, positions, params, scheduled);
      BaselineSymbol(prepared, d, equity, positions, params);
      forall a, b | a in direct && b in direct && ByCandidateSymbol(a, b) && ByCandidateSymbol(b, a) ensures a == b {
        FilterMapMember(f, scheduled, a);
        FilterMapMember(f, scheduled, b);
      }
      ScoreOrder();
      SortPermutation(ByCandidateSymbol, direct,
                      ScheduledFromPool(TradablePool(prepared, params, d), Counter(scheduled),
                                        equity, positions, params));
    }
  }

  lemma BaselineSymbol(prepared: seq<BarSeries>, d: Date, equity: real, positions: seq<Position>, params: Params)
    requires ValidPrepared(prepared)
    ensures var f := BaselineForSymbol(prepared, d, equity, positions, params);
            forall s :: f(s).Some? ==> f(s).value.Symbol() == s
  {
  }
}
