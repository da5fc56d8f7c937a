/** The candidates that are tried on one date: pools, baseline kinds and selection orders. */
module SwingEntries {
  import opened Prelude
  import opened Sorting
  import opened SwingTypes
  import opened SwingSignals
  import opened SwingPools

  datatype SelectionMode =
    | RankedOrder
    | RandomOrder
    | ScoreAscending
    | ScoreMiddle
    | Rank23First
    | StableHash
    | VolatilityBasketHash

  datatype BaselineKind =
    | Strategy
    | SignalSetRandom
    | UniverseDateMatchedRandom
    | SymbolMatchedRandomDate

  /** Hash digests and the random generator. A shuffle maps a generator state and a list to the
      next state and a rearrangement of the list, a choice to the next state and an element. */
  datatype Oracle = Oracle(
    stableHash: (Date, Symbol) -> int,
    basketHash: (Date, Symbol) -> int,
    shuffle: (int, seq<EntryCandidate>) -> (int, seq<EntryCandidate>),
    choice: (int, seq<Date>) -> (int, Date))

  ghost predicate ValidOracle(o: Oracle) {
    && (forall rng, cs :: multiset(o.shuffle(rng, cs).1) == multiset(cs))
    && (forall rng, ds :: ds != [] ==> o.choice(rng, ds).1 in ds)
  }

  // ---------------------------------------------------------------- candidate order

  predicate ByScoreAscending(a: EntryCandidate, b: EntryCandidate) {
    a.template.score < b.template.score || (a.template.score == b.template.score && a.Symbol() <= b.Symbol())
  }

  function FromMiddle(c: EntryCandidate): real { AbsReal(c.template.score - 0.15) }

  predicate ByScoreMiddle(a: EntryCandidate, b: EntryCandidate) {
    FromMiddle(a) < FromMiddle(b) || (FromMiddle(a) == FromMiddle(b) && a.Symbol() <= b.Symbol())
  }

  function RankBucket(c: EntryCandidate): int {
    if 2 <= c.rankedPosition <= 3 then 0
    else if c.rankedPosition == 1 then 1
    else if 4 <= c.rankedPosition <= 5 then 2
    else 3
  }

  predicate ByRankPreference(a: EntryCandidate, b: EntryCandidate) {
    if RankBucket(a) != RankBucket(b) then RankBucket(a) < RankBucket(b)
    else if a.rankedPosition != b.rankedPosition then a.rankedPosition < b.rankedPosition
    else ByScoreMiddle(a, b)
  }

  function ByHash(hash: (Date, Symbol) -> int): (EntryCandidate, EntryCandidate) -> bool {
    (a: EntryCandidate, b: EntryCandidate) =>
      var x, y := hash(a.template.signalDate, a.Symbol()), hash(b.template.signalDate, b.Symbol());
      x < y || (x == y && a.Symbol() <= b.Symbol())
  }

  function OrderCandidates(o: Oracle, rng: int, selection: SelectionMode, cs: seq<EntryCandidate>)
    : (r: (int, seq<EntryCandidate>))
    ensures ValidOracle(o) ==> multiset(r.1) == multiset(cs)
  {
    match selection
    case RankedOrder => (rng, cs)
    case ScoreAscending => (rng, Sort(ByScoreAscending, cs))
    case ScoreMiddle => (rng, Sort(ByScoreMiddle, cs))
    case Rank23First => (rng, Sort(ByRankPreference, cs))
    case StableHash => (rng, Sort(ByHash(o.stableHash), cs))
    case VolatilityBasketHash => (rng, Sort(ByHash(o.basketHash), cs))
    case RandomOrder => o.shuffle(rng, cs)
  }

  /** The key of a sorted selection order; the other two keep or shuffle the list. */
  function KeyOrder(o: Oracle, selection: SelectionMode): Option<(EntryCandidate, EntryCandidate) -> bool> {
    match selection
    case ScoreAscending => Some(ByScoreAscending)
    case ScoreMiddle => Some(ByScoreMiddle)
    case Rank23First => Some(ByRankPreference)
    case StableHash => Some(ByHash(o.stableHash))
    case VolatilityBasketHash => Some(ByHash(o.basketHash))
    case RankedOrder => None
    case RandomOrder => None
  }

  lemma RankPreferenceOrder()
    ensures TotalPreorder(ByRankPreference)
  {
  }

  lemma KeyOrdersAreOrders(o: Oracle, selection: SelectionMode)
    requires KeyOrder(o, selection).Some?
    ensures TotalPreorder(KeyOrder(o, selection).value)
  {
    RankPreferenceOrder();
  }

  /** A sorted selection order tries the candidates in the order of its key; and, symbols being
      distinct, the order does not depend on the list it started from. */
  lemma {:induction false} SelectionIsSorted(o: Oracle, rng: int, selection: SelectionMode, cs: seq<EntryCandidate>,
                                             cs': seq<EntryCandidate>)
    requires KeyOrder(o, selection).Some? && multiset(cs') == multiset(cs)
    ensures Ordered(KeyOrder(o, selection).value, OrderCandidates(o, rng, selection, cs).1)
    ensures OrderCandidates(o, rng, selection, cs).0 == rng
    ensures DistinctBy(CandidateSymbol, cs) ==>
              OrderCandidates(o, rng, selection, cs') == OrderCandidates(o, rng, selection, cs)
  {
    var le := KeyOrder(o, selection).value;
    KeyOrdersAreOrders(o, selection);
    SortOrdered(le, cs);
    if DistinctBy(CandidateSymbol, cs) {
      OneOfEachSymbol(cs);
      TiesShareSymbol(o, selection);
      SortPermutation(le, cs, cs');
    }
  }

  lemma OneOfEachSymbol(cs: seq<EntryCandidate>)
    requires DistinctBy(CandidateSymbol, cs)
    ensures forall a, b :: a in cs && b in cs && a.Symbol() == b.Symbol() ==> a == b
  {
    forall a, b | a in cs && b in cs && a.Symbol() == b.Symbol() ensures a == b {
      var i :| 0 <= i < |cs| && cs[i] == a;
      var j :| 0 <= j < |cs| && cs[j] == b;
      assert i < j ==> CandidateSymbol(cs[i]) != CandidateSymbol(cs[j]);
      assert j < i ==> CandidateSymbol(cs[j]) != CandidateSymbol(cs[i]);
    }
  }

  lemma TiesShareSymbol(o: Oracle, selection: SelectionMode)
    requires KeyOrder(o, selection).Some?
    ensures var le := KeyOrder(o, selection).value; forall a, b :: le(a, b) && le(b, a) ==> a.Symbol() == b.Symbol()
  {
  }

  /** The ranks 2 and 3 come first, then 1, then 4 and 5, then the others; within such a group by rank. */
  predicate PrefersRank(a: int, b: int) {
    if b == 2 || b == 3 then 2 <= a <= b
    else if b == 1 then a == 1 || a == 2 || a == 3
    else if b == 4 || b == 5 then 1 <= a <= b
    else 1 <= a <= 5 || a <= b
  }

  /** a's score lies between b's score and its mirror image at 0.15. */
  predicate NearerTheMiddle(a: real, b: real) {
    if b >= 0.15 then 0.30 - b <= a <= b else b <= a <= 0.30 - b
  }

  /** Smaller keys come first, equal keys by symbol. */
  predicate ByKeyThenSymbol(x: int, y: int, a: EntryCandidate, b: EntryCandidate) {
    x <= y && (x == y ==> a.Symbol() <= b.Symbol())
  }

  /** What comes first in each selection order; the ranked order keeps its list and the random one shuffles it. */
  lemma {:induction false} SelectionOrders(o: Oracle, rng: int, selection: SelectionMode, cs: seq<EntryCandidate>,
                                           i: nat, j: nat)
    requires i < j < |OrderCandidates(o, rng, selection, cs).1|
    ensures var ordered := OrderCandidates(o, rng, selection, cs).1;
            var a, b := ordered[i], ordered[j];
            var x, y := a.template.score, b.template.score;
            match selection
            case RankedOrder => ordered == cs
            case RandomOrder => ordered == o.shuffle(rng, cs).1
            case ScoreAscending => x <= y && (x == y ==> a.Symbol() <= b.Symbol())
            case ScoreMiddle => NearerTheMiddle(x, y) && (x == y || x == 0.30 - y ==> a.Symbol() <= b.Symbol())
            case Rank23First =>
              && PrefersRank(a.rankedPosition, b.rankedPosition)
              && (a.rankedPosition == b.rankedPosition ==>
                    NearerTheMiddle(x, y) && (x == y || x == 0.30 - y ==> a.Symbol() <= b.Symbol()))
            case StableHash =>
              ByKeyThenSymbol(o.stableHash(a.template.signalDate, a.Symbol()),
                              o.stableHash(b.template.signalDate, b.Symbol()), a, b)
            case VolatilityBasketHash =>
              ByKeyThenSymbol(o.basketHash(a.template.signalDate, a.Symbol()),
                              o.basketHash(b.template.signalDate, b.Symbol()), a, b)
  {
    if KeyOrder(o, selection).Some? {
      var le := KeyOrder(o, selection).value;
      KeyOrdersAreOrders(o, selection);
      SortOrdered(le, cs);
      assert le(OrderCandidates(o, rng, selection, cs).1[i], OrderCandidates(o, rng, selection, cs).1[j]);
    }
  }

  /** The universe baseline takes the first candidates of its shuffled list, as many as wanted, and ranks them. */
  lemma UniverseTakesFirst(o: Oracle, rng: int, pool: seq<Template>, equity: real, positions: seq<Position>,
                           params: Params, desired: nat, i: nat)
    requires i < |UniverseRandom(o, rng, pool, equity, positions, params, desired).1|
    ensures var drawn := UniverseRandom(o, rng, pool, equity, positions, params, desired).1;
            var shuffled := o.shuffle(rng, UniverseCandidatesFromPool(pool, equity, positions, params)).1;
            && |drawn| <= desired && i < |shuffled|
            && drawn[i].template == shuffled[i].template && drawn[i].quantity == shuffled[i].quantity
            && drawn[i].rankedPosition == i + 1 && drawn[i].candidateCount == |drawn|
  {
  }

  // ---------------------------------------------------------------- the day's entries

  function UniverseRandom(o: Oracle, rng: int, pool: seq<Template>, equity: real, positions: seq<Position>,
                          params: Params, desired: nat): (int, seq<EntryCandidate>)
  {
    if desired <= 0 then (rng, [])
    else
      var (rng', shuffled) := o.shuffle(rng, UniverseCandidatesFromPool(pool, equity, positions, params));
      (rng', Ranked(shuffled[..MinInt(desired, |shuffled|)]))
  }

  /** What the program is run on and how it picks its candidates. */
  datatype Config = Config(
    prepared: seq<BarSeries>,
    params: Params,
    kind: BaselineKind,
    selection: SelectionMode,
    oracle: Oracle,
    schedule: map<Date, seq<Symbol>>)

  function Scheduled(c: Config, d: Date): seq<Symbol> {
    if d in c.schedule then c.schedule[d] else []
  }

  /** The candidates of the baseline kind, in the order in which they are tried. */
  function EntriesFrom(params: Params, kind: BaselineKind, selection: SelectionMode, oracle: Oracle,
                       signalPool: seq<Template>, tradablePool: seq<Template>, scheduled: seq<Symbol>,
                       equity: real, positions: seq<Position>, rng: int): (int, seq<EntryCandidate>)
  {
    var signals := SignalCandidatesFromPool(signalPool, equity, positions, params);
    var (rng', entries) :=
      match kind
      case Strategy => (rng, signals)
      case SignalSetRandom => (rng, signals)
      case UniverseDateMatchedRandom => UniverseRandom(oracle, rng, tradablePool, equity, positions, params, |signals|)
      case SymbolMatchedRandomDate =>
        (rng, ScheduledCandidatesFromPool(tradablePool, equity, positions, params, scheduled));
    OrderCandidates(oracle, rng', selection, entries)
  }

  function EntriesOn(c: Config, d: Date, equity: real, positions: seq<Position>, rng: int): (int, seq<EntryCandidate>) {
    EntriesFrom(c.params, c.kind, c.selection, c.oracle, SignalPool(c.prepared, c.params, d),
                TradablePool(c.prepared, c.params, d), Scheduled(c, d), equity, positions, rng)
  }

  // ---------------------------------------------------------------- entries come from today's bars

  lemma {:induction false} PoolMember(prepared: seq<BarSeries>, params: Params, d: Date, t: Template)
    requires ValidPrepared(prepared)
    requires t in SignalPool(prepared, params, d) || t in TradablePool(prepared, params, d)
    ensures Listed(prepared, t.symbol, d) && t.entryDate == d
  {
    var bars := TodayBySymbol(prepared, d);
    SameElements(bars, Today(prepared, d));
    if t in SignalPool(prepared, params, d) {
      SameElements(SignalPool(prepared, params, d), FilterMap(ToSignal(prepared, params), bars));
      FilterMapMember(ToSignal(prepared, params), bars, t);
      var b: Bar :| b in bars && ToSignal(prepared, params)(b) == Some(t);
      TodayMember(prepared, d, b);
    } else {
      FilterMapMember(ToTradable(prepared, params), bars, t);
      var b: Bar :| b in bars && ToTradable(prepared, params)(b) == Some(t);
      TodayMember(prepared, d, b);
    }
  }

  /** Every candidate stems from a template of one of the pools. */
  ghost predicate FromPool(pool: seq<Template>, cs: seq<EntryCandidate>, positions: seq<Position>,
                           equity: real, params: Params)
  {
    forall c :: c in cs ==>
      && c.template in pool
      && !Held(positions, c.Symbol())
      && c.quantity > 0
      && c.quantity == PositionSize(c.template.entryPrice, c.template.stopPrice, equity, params)
  }

  lemma {:induction false} RankedFromPool(ts: seq<Template>, equity: real, params: Params, rank: int, count: int)
    ensures forall c :: c in MaterializeRanked(ts, equity, params, rank, count) ==>
              && c.template in ts
              && c.quantity > 0
              && c.quantity == PositionSize(c.template.entryPrice, c.template.stopPrice, equity, params)
    decreases |ts|
  {
    if ts == [] {
    } else {
      RankedFromPool(ts[1..], equity, params, rank + 1, count);
      assert ts == [ts[0]] + ts[1..];
    }
  }

  lemma SignalsFromPool(pool: seq<Template>, equity: real, positions: seq<Position>, params: Params)
    ensures FromPool(pool, SignalCandidatesFromPool(pool, equity, positions, params), positions, equity, params)
  {
    var available := FilterMap(IfNotHeld(positions), pool);
    RankedFromPool(available, equity, params, 1, |available|);
    forall t | t in available ensures t in pool && !Held(positions, t.symbol) {
      FilterMapMember(IfNotHeld(positions), pool, t);
    }
  }

  lemma {:induction false} UniverseFromPool(pool: seq<Template>, equity: real, positions: seq<Position>, params: Params)
    ensures FromPool(pool, UniverseCandidatesFromPool(pool, equity, positions, params), positions, equity, params)
  {
    var cs := UniverseCandidatesFromPool(pool, equity, positions, params);
    forall c | c in cs
      ensures c.template in pool && !Held(positions, c.Symbol()) && c.quantity > 0
      ensures c.quantity == PositionSize(c.template.entryPrice, c.template.stopPrice, equity, params)
    {
      FilterMapMember(MaterializeFree(equity, positions, params), pool, c);
    }
  }

  lemma {:induction false} ScheduleFromPool(pool: seq<Template>, counts: map<Symbol, nat>, equity: real,
                                            positions: seq<Position>, params: Params)
    ensures FromPool(pool, ScheduledFromPool(pool, counts, equity, positions, params), positions, equity, params)
    decreases |pool|
  {
    if pool == [] {
    } else {
      var t := pool[0];
      ScheduleFromPool(pool[1..], counts, equity, positions, params);
      ScheduleFromPool(pool[1..], counts[t.symbol := 0], equity, positions, params);
      assert pool == [t] + pool[1..];
    }
  }

  lemma RankedKeepsPool(pool: seq<Template>, cs: seq<EntryCandidate>, positions: seq<Position>,
                        equity: real, params: Params, n: nat)
    requires n <= |cs| && FromPool(pool, cs, positions, equity, params)
    ensures FromPool(pool, Ranked(cs[..n]), positions, equity, params)
  {
  }

  function PoolOf(c: Config, d: Date): seq<Template> {
    if c.kind.Strategy? || c.kind.SignalSetRandom? then SignalPool(c.prepared, c.params, d)
    else TradablePool(c.prepared, c.params, d)
  }

  lemma UniverseRandomFromPool(o: Oracle, rng: int, pool: seq<Template>, equity: real, positions: seq<Position>,
                               params: Params, desired: nat)
    requires ValidOracle(o)
    ensures FromPool(pool, UniverseRandom(o, rng, pool, equity, positions, params, desired).1,
                     positions, equity, params)
  {
    var cs := UniverseCandidatesFromPool(pool, equity, positions, params);
    var shuffled := o.shuffle(rng, cs).1;
    UniverseFromPool(pool, equity, positions, params);
    SameElements(shuffled, cs);
    RankedKeepsPool(pool, shuffled, positions, equity, params, MinInt(desired, |shuffled|));
  }

  lemma ScheduledCandidatesFromPoolSound(pool: seq<Template>, equity: real, positions: seq<Position>, params: Params,
                                         scheduled: seq<Symbol>)
    ensures FromPool(pool, ScheduledCandidatesFromPool(pool, equity, positions, params, scheduled),
                     positions, equity, params)
  {
    var raw := ScheduledFromPool(pool, Counter(scheduled), equity, positions, params);
    var sorted := Sort(ByCandidateSymbol, raw);
    ScheduleFromPool(pool, Counter(scheduled), equity, positions, params);
    SameElements(sorted, raw);
    RankedKeepsPool(pool, sorted, positions, equity, params, |sorted|);
    assert sorted[..|sorted|] == sorted;
  }

  /** Every candidate is a sized template of the pool, for a symbol that is not held. */
  lemma {:induction false} EntriesFromPool(c: Config, d: Date, equity: real, positions: seq<Position>, rng: int)
    requires ValidOracle(c.oracle)
    ensures FromPool(PoolOf(c, d), EntriesOn(c, d, equity, positions, rng).1, positions, equity, c.params)
  {
    var entries := EntriesOn(c, d, equity, positions, rng).1;
    var pool := PoolOf(c, d);
    var signals := SignalCandidatesFromPool(SignalPool(c.prepared, c.params, d), equity, positions, c.params);
    SignalsFromPool(SignalPool(c.prepared, c.params, d), equity, positions, c.params);
    match c.kind
    case Strategy => SameElements(entries, signals);
    case SignalSetRandom => SameElements(entries, signals);
    case UniverseDateMatchedRandom =>
      UniverseRandomFromPool(c.oracle, rng, pool, equity, positions, c.params, |signals|);
      SameElements(entries, UniverseRandom(c.oracle, rng, pool, equity, positions, c.params, |signals|).1);
    case SymbolMatchedRandomDate =>
      ScheduledCandidatesFromPoolSound(pool, equity, positions, c.params, Scheduled(c, d));
      SameElements(entries, ScheduledCandidatesFromPool(pool, equity, positions, c.params, Scheduled(c, d)));
  }

  // ---------------------------------------------------------------- distinct symbols

  lemma {:induction false} MaterializedDistinct(ts: seq<Template>, equity: real, params: Params, rank: int, count: int)
    requires DistinctBy(TemplateSymbol, ts)
    ensures DistinctBy(CandidateSymbol, MaterializeRanked(ts, equity, params, rank, count))
    decreases |ts|
  {
    if ts == [] {
    } else {
      var rest := MaterializeRanked(ts[1..], equity, params, rank + 1, count);
      MaterializedDistinct(ts[1..], equity, params, rank + 1, count);
      RankedFromPool(ts[1..], equity, params, rank + 1, count);
      forall i | 0 <= i < |rest| ensures rest[i].Symbol() != ts[0].symbol {
        assert rest[i] in rest;
        assert rest[i].template in ts[1..];
      }
    }
  }

  lemma TodayBySymbolDistinct(prepared: seq<BarSeries>, d: Date)
    requires ValidPrepared(prepared)
    ensures DistinctBy(BarSymbol, TodayBySymbol(prepared, d))
  {
    TodayDistinct(prepared, d);
    DistinctPermutation(BarSymbol, Today(prepared, d), TodayBySymbol(prepared, d));
  }

  lemma SignalsDistinct(prepared: seq<BarSeries>, params: Params, d: Date, equity: real, positions: seq<Position>)
    requires ValidPrepared(prepared)
    ensures DistinctBy(CandidateSymbol,
                       SignalCandidatesFromPool(SignalPool(prepared, params, d), equity, positions, params))
  {
    var bars := TodayBySymbol(prepared, d);
    TodayBySymbolDistinct(prepared, d);
    DistinctFilterMap(ToSignal(prepared, params), BarSymbol, TemplateSymbol, bars);
    var pool := SignalPool(prepared, params, d);
    DistinctPermutation(TemplateSymbol, FilterMap(ToSignal(prepared, params), bars), pool);
    var available := FilterMap(IfNotHeld(positions), pool);
    DistinctFilterMap(IfNotHeld(positions), TemplateSymbol, TemplateSymbol, pool);
    MaterializedDistinct(available, equity, params, 1, |available|);
  }

  lemma UniverseDistinct(prepared: seq<BarSeries>, params: Params, d: Date, o: Oracle, rng: int, equity: real,
                         positions: seq<Position>, desired: nat)
    requires ValidPrepared(prepared) && ValidOracle(o)
    ensures DistinctBy(CandidateSymbol, UniverseRandom(o, rng, TradablePool(prepared, params, d), equity, positions,
                                                       params, desired).1)
  {
    var pool := TradablePool(prepared, params, d);
    TradablePoolDistinct(prepared, params, d);
    var cs := UniverseCandidatesFromPool(pool, equity, positions, params);
    DistinctFilterMap(MaterializeFree(equity, positions, params), TemplateSymbol, CandidateSymbol, pool);
    DistinctPermutation(CandidateSymbol, cs, o.shuffle(rng, cs).1);
  }

  lemma TradablePoolDistinct(prepared: seq<BarSeries>, params: Params, d: Date)
    requires ValidPrepared(prepared)
    ensures DistinctBy(TemplateSymbol, TradablePool(prepared, params, d))
  {
    TodayBySymbolDistinct(prepared, d);
    DistinctFilterMap(ToTradable(prepared, params), BarSymbol, TemplateSymbol, TodayBySymbol(prepared, d));
  }

  /** Only the scheduled baseline can offer the same symbol twice on a day. */
  lemma {:induction false} EntriesDistinct(c: Config, d: Date, equity: real, positions: seq<Position>, rng: int)
    requires ValidPrepared(c.prepared) && ValidOracle(c.oracle) && !c.kind.SymbolMatchedRandomDate?
    ensures DistinctBy(CandidateSymbol, EntriesOn(c, d, equity, positions, rng).1)
  {
    var signals := SignalCandidatesFromPool(SignalPool(c.prepared, c.params, d), equity, positions, c.params);
    var universe := UniverseRandom(c.oracle, rng, TradablePool(c.prepared, c.params, d), equity, positions,
                                   c.params, |signals|).1;
    SignalsDistinct(c.prepared, c.params, d, equity, positions);
    UniverseDistinct(c.prepared, c.params, d, c.oracle, rng, equity, positions, |signals|);
    DistinctPermutation(CandidateSymbol, if c.kind.UniverseDateMatchedRandom? then universe else signals,
                        EntriesOn(c, d, equity, positions, rng).1);
  }

  // ---------------------------------------------------------------- targets

  lemma EntryTemplateTarget(bar: Bar, signal: Bar, market: Option<MarketContext>, params: Params, filters: bool)
    requires if filters then IsEntrySignal(signal, params) else IsRandomBaselineTradable(signal, params)
    ensures var r := EntryTemplateOf(bar, signal, market, params, filters);
            r.Some? ==> TargetPlaced(params, r.value)
  {
  }

  lemma {:induction false} BarTemplateTarget(prepared: seq<BarSeries>, params: Params, bar: Bar, t: Template)
    requires SignalTemplate(prepared, params, bar) == Some(t) || TradableTemplate(prepared, params, bar) == Some(t)
    ensures TargetPlaced(params, t)
  {
    var signal := Previous(prepared, bar.symbol, bar.date).value;
    var market := MarketOn(prepared, signal.date);
    if SignalTemplate(prepared, params, bar) == Some(t) {
      EntryTemplateTarget(bar, signal, market, params, true);
    } else {
      EntryTemplateTarget(bar, signal, market, params, false);
    }
  }

  lemma PoolTarget(c: Config, d: Date, t: Template)
    requires t in PoolOf(c, d)
    ensures TargetPlaced(c.params, t)
  {
    var bar := PoolBar(c, d, t);
    BarTemplateTarget(c.prepared, c.params, bar, t);
  }

  lemma {:induction false} PoolBar(c: Config, d: Date, t: Template) returns (bar: Bar)
    requires t in PoolOf(c, d)
    ensures SignalTemplate(c.prepared, c.params, bar) == Some(t) ||
                TradableTemplate(c.prepared, c.params, bar) == Some(t)
  {
    var bars := TodayBySymbol(c.prepared, d);
    var f := if c.kind.Strategy? || c.kind.SignalSetRandom? then ToSignal(c.prepared, c.params)
             else ToTradable(c.prepared, c.params);
    SameElements(SignalPool(c.prepared, c.params, d), FilterMap(ToSignal(c.prepared, c.params), bars));
    FilterMapMember(f, bars, t);
    bar :| bar in bars && f(bar) == Some(t);
  }
}
