/** What a rank means: the order of the pools, and the rank of a candidate as the number of better templates. */
module SwingRanks {
  import opened Prelude
  import opened Sorting
  import opened SwingTypes
  import opened SwingSignals
  import opened SwingPools
  import opened SwingPooledGeneration
  import opened SwingEntries

  /** A better score, or the same and an earlier symbol. */
  predicate Better(a: Template, b: Template) {
    b.score < a.score || (a.score == b.score && a.symbol < b.symbol)
  }

  // ---------------------------------------------------------------- the order of the pools

  /** A date's signal pool runs from the best template to the worst. */
  lemma {:induction false} SignalPoolDescends(prepared: seq<BarSeries>, params: Params, d: Date)
    requires ValidPrepared(prepared)
    ensures Ordered(Better, SignalPool(prepared, params, d))
  {
    var made := FilterMap(ToSignal(prepared, params), TodayBySymbol(prepared, d));
    ScoreOrder();
    SortOrdered(ByScore, made);
    TodayBySymbolDistinct(prepared, d);
    DistinctFilterMap(ToSignal(prepared, params), BarSymbol, TemplateSymbol, TodayBySymbol(prepared, d));
    DistinctPermutation(TemplateSymbol, made, SignalPool(prepared, params, d));
    TieBroken(SignalPool(prepared, params, d));
  }

  lemma TieBroken(pool: seq<Template>)
    requires Ordered(ByScore, pool) && DistinctBy(TemplateSymbol, pool)
    ensures Ordered(Better, pool)
  {
    forall i, j | 0 <= i < j < |pool| ensures Better(pool[i], pool[j]) {
      assert ByScore(pool[i], pool[j]) && TemplateSymbol(pool[i]) != TemplateSymbol(pool[j]);
    }
  }

  predicate EarlierSymbol(a: Template, b: Template) { a.symbol <= b.symbol }

  /** The tradable pool runs in the order of the symbols, each once. */
  lemma {:induction false} TradablePoolAscends(prepared: seq<BarSeries>, params: Params, d: Date, i: nat, j: nat)
    requires ValidPrepared(prepared) && i < j < |TradablePool(prepared, params, d)|
    ensures TradablePool(prepared, params, d)[i].symbol < TradablePool(prepared, params, d)[j].symbol
  {
    var pool := TradablePool(prepared, params, d);
    ScoreOrder();
    SortOrdered(BySymbol, Today(prepared, d));
    FilterMapOrdered(ToTradable(prepared, params), BySymbol, EarlierSymbol, TodayBySymbol(prepared, d));
    TradablePoolDistinct(prepared, params, d);
    assert EarlierSymbol(pool[i], pool[j]) && TemplateSymbol(pool[i]) != TemplateSymbol(pool[j]);
  }

  // ---------------------------------------------------------------- ranks of the signal candidates

  function Free(positions: seq<Position>): Template -> bool {
    (t: Template) => !Held(positions, t.symbol)
  }

  /** The free templates that are better than t. */
  function FreeAndBetter(positions: seq<Position>, t: Template): Template -> bool {
    (x: Template) => !Held(positions, x.symbol) && Better(x, t)
  }

  lemma {:induction false} TallyOfFree(positions: seq<Position>, pool: seq<Template>, p: Template -> bool,
                                       q: Template -> bool)
    requires forall t :: q(t) <==> !Held(positions, t.symbol) && p(t)
    ensures Tally(pool, q) == Tally(FilterMap(IfNotHeld(positions), pool), p)
    decreases |pool|
  {
    if pool == [] {
    } else {
      TallyOfFree(positions, pool[1..], p, q);
    }
  }

  lemma {:induction false} TallyOfPrefix<T>(xs: seq<T>, p: T -> bool, k: nat)
    requires k <= |xs| && forall i :: 0 <= i < |xs| ==> (p(xs[i]) <==> i < k)
    ensures Tally(xs, p) == k
    decreases |xs|
  {
    if xs == [] {
    } else {
      TallyOfPrefix(xs[1..], p, if k > 0 then k - 1 else 0);
    }
  }

  /** The candidate at place i is made from the template at the place that its rank says, and ranks ascend. */
  lemma {:induction false} RankIsPlace(ts: seq<Template>, equity: real, params: Params, rank: int, count: int, i: nat)
    requires i < |MaterializeRanked(ts, equity, params, rank, count)|
    ensures var c := MaterializeRanked(ts, equity, params, rank, count)[i];
            && 0 <= c.rankedPosition - rank < |ts| && c.template == ts[c.rankedPosition - rank]
            && c.candidateCount == count
    ensures forall j :: 0 <= j < i ==>
              MaterializeRanked(ts, equity, params, rank, count)[j].rankedPosition <
              MaterializeRanked(ts, equity, params, rank, count)[i].rankedPosition
    decreases |ts|
  {
    var head := MaterializeEntry(ts[0], equity, params, rank, count).Some?;
    var rest := MaterializeRanked(ts[1..], equity, params, rank + 1, count);
    if !head || i > 0 {
      RankIsPlace(ts[1..], equity, params, rank + 1, count, if head then i - 1 else i);
    }
  }

  /** A signal candidate's rank is one more than the number of better free templates in the pool, its count the
      number of all free ones, and candidates come in the order of their ranks, the better before the worse. */
  lemma {:induction false} RanksCountBetter(prepared: seq<BarSeries>, params: Params, d: Date, equity: real,
                                            positions: seq<Position>, i: nat)
    requires ValidPrepared(prepared)
    requires i < |SignalCandidatesFromPool(SignalPool(prepared, params, d), equity, positions, params)|
    ensures var pool := SignalPool(prepared, params, d);
            var cs := SignalCandidatesFromPool(pool, equity, positions, params);
            && cs[i].rankedPosition == 1 + Tally(pool, FreeAndBetter(positions, cs[i].template))
            && cs[i].candidateCount == Tally(pool, Free(positions))
            && forall j :: 0 <= j < i ==> Better(cs[j].template, cs[i].template)
  {
    var pool := SignalPool(prepared, params, d);
    var cs := SignalCandidatesFromPool(pool, equity, positions, params);
    var available := FilterMap(IfNotHeld(positions), pool);
    SignalPoolDescends(prepared, params, d);
    FilterMapOrdered(IfNotHeld(positions), Better, Better, pool);
    RankIsPlace(available, equity, params, 1, |available|, i);
    RankOfPlace(pool, positions, cs[i].rankedPosition - 1);
    forall j | 0 <= j < i ensures Better(cs[j].template, cs[i].template) {
      RankIsPlace(available, equity, params, 1, |available|, j);
    }
  }

  lemma RankOfPlace(pool: seq<Template>, positions: seq<Position>, k: nat)
    requires Ordered(Better, FilterMap(IfNotHeld(positions), pool)) && k < |FilterMap(IfNotHeld(positions), pool)|
    ensures var available := FilterMap(IfNotHeld(positions), pool);
            && k == Tally(pool, FreeAndBetter(positions, available[k]))
            && |available| == Tally(pool, Free(positions))
  {
    var available := FilterMap(IfNotHeld(positions), pool);
    var t := available[k];
    forall i | 0 <= i < |available| ensures Better(available[i], t) <==> i < k {
      assert i < k ==> Better(available[i], available[k]);
      assert k < i ==> Better(available[k], available[i]);
    }
    TallyOfPrefix(available, (x: Template) => Better(x, t), k);
    TallyOfFree(positions, pool, (x: Template) => Better(x, t), FreeAndBetter(positions, t));
    TallyOfPrefix(available, (x: Template) => true, |available|);
    TallyOfFree(positions, pool, (x: Template) => true, Free(positions));
  }

  // ---------------------------------------------------------------- ranks of the scheduled candidates

  /** The scheduled candidates come in the order of their symbols and are ranked in it. */
  lemma ScheduledInOrder(pool: seq<Template>, equity: real, positions: seq<Position>, params: Params,
                         scheduled: seq<Symbol>, i: nat)
    requires i < |ScheduledCandidatesFromPool(pool, equity, positions, params, scheduled)|
    ensures var cs := ScheduledCandidatesFromPool(pool, equity, positions, params, scheduled);
            && cs[i].rankedPosition == i + 1 && cs[i].candidateCount == |cs|
            && forall j :: 0 <= j < i ==> cs[j].Symbol() <= cs[i].Symbol()
  {
    var raw := ScheduledFromPool(pool, Counter(scheduled), equity, positions, params);
    ScoreOrder();
    SortOrdered(ByCandidateSymbol, raw);
    var sorted := Sort(ByCandidateSymbol, raw);
    assert forall j :: 0 <= j < i ==> ByCandidateSymbol(sorted[j], sorted[i]);
  }
}
