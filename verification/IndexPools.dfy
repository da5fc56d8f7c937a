/** Pools of comparison observations for the random baselines: lists of positions in the combined
    list of event observations followed by random-date observations. */
module IndexPools {
  import opened Prelude

  datatype Observation = Observation(symbol: int, date: int, month: int, regime: Option<int>, sector: Option<int>,
                                     eventType: int)

  /** The five dictionaries as one: a kind and the attributes that must agree. */
  datatype Key = BySymbol(symbol: int) | BySymbolMonth(symbol: int, month: int)
               | BySymbolRegime(symbol: int, regime: Option<int>) | BySectorDate(sector: Option<int>, date: int)
               | ByEventType(eventType: int)

  predicate Matches(o: Observation, k: Key) {
    match k
    case BySymbol(symbol) => o.symbol == symbol
    case BySymbolMonth(symbol, month) => o.symbol == symbol && o.month == month
    case BySymbolRegime(symbol, regime) => o.symbol == symbol && o.regime == regime
    case BySectorDate(sector, date) => o.sector == sector && o.date == date
    case ByEventType(eventType) => o.eventType == eventType
  }

  // ---------------------------------------------------------------- plain scans

  /** Positions, counted from start, of the first n observations that match. */
  function Scan(os: seq<Observation>, n: nat, start: nat, k: Key): (r: seq<int>)
    requires n <= |os|
    ensures forall i :: i in r <==> start <= i < start + n && Matches(os[i - start], k)
  {
    if n == 0 then []
    else if Matches(os[n - 1], k) then Scan(os, n - 1, start, k) + [start + n - 1]
    else Scan(os, n - 1, start, k)
  }

  /** An event of the symbol took place on the date. */
  predicate EventDate(events: seq<Observation>, symbol: int, date: int) {
    exists e :: e in events && e.symbol == symbol && e.date == date
  }

  /** Positions of matching random observations that avoid the event dates of their symbol. */
  function RandomScan(events: seq<Observation>, randoms: seq<Observation>, n: nat, k: Key): (r: seq<int>)
    requires n <= |randoms|
    ensures forall i :: i in r <==>
              |events| <= i < |events| + n && Matches(randoms[i - |events|], k) &&
              !EventDate(events, randoms[i - |events|].symbol, randoms[i - |events|].date)
  {
    if n == 0 then []
    else
      var o := randoms[n - 1];
      if Matches(o, k) && !EventDate(events, o.symbol, o.date)
      then RandomScan(events, randoms, n - 1, k) + [|events| + n - 1]
      else RandomScan(events, randoms, n - 1, k)
  }

  // ---------------------------------------------------------------- the dictionaries

  function Get(d: map<Key, seq<int>>, k: Key): seq<int> { if k in d then d[k] else [] }

  function Add(d: map<Key, seq<int>>, k: Key, i: int): map<Key, seq<int>> { d[k := Get(d, k) + [i]] }

  function AddSymbolKeys(d: map<Key, seq<int>>, o: Observation, i: int): (r: map<Key, seq<int>>)
    ensures forall k :: Get(r, k) == if Matches(o, k) && !k.ByEventType? then Get(d, k) + [i] else Get(d, k)
  {
    var d1 := Add(d, BySymbol(o.symbol), i);
    var d2 := Add(d1, BySymbolMonth(o.symbol, o.month), i);
    var d3 := Add(d2, BySymbolRegime(o.symbol, o.regime), i);
    Add(d3, BySectorDate(o.sector, o.date), i)
  }

  method IndexEvents(events: seq<Observation>) returns (d: map<Key, seq<int>>)
    ensures forall k :: Get(d, k) == Scan(events, |events|, 0, k)
  {
    d := map[];
    for i := 0 to |events|
      invariant forall k :: Get(d, k) == Scan(events, i, 0, k)
    {
      ghost var before := d;
      d := AddSymbolKeys(d, events[i], i);
      d := Add(d, ByEventType(events[i].eventType), i);
      forall k ensures Get(d, k) == Scan(events, i + 1, 0, k) {
        assert Get(before, k) == Scan(events, i, 0, k);
      }
    }
  }

  lemma EventDateStep(events: seq<Observation>, e: Observation, s: int, d: int)
    ensures EventDate(events + [e], s, d) <==> EventDate(events, s, d) || (e.symbol == s && e.date == d)
  {
  }

  predicate Recorded(dates: map<int, set<int>>, s: int, d: int) { s in dates && d in dates[s] }

  method EventDates(events: seq<Observation>) returns (dates: map<int, set<int>>)
    ensures forall s, d :: Recorded(dates, s, d) <==> EventDate(events, s, d)
  {
    dates := map[];
    for i := 0 to |events|
      invariant forall s, d :: Recorded(dates, s, d) <==> EventDate(events[..i], s, d)
    {
      var e := events[i];
      assert events[..i + 1] == events[..i] + [e];
      ghost var before := dates;
      dates := dates[e.symbol := (if e.symbol in dates then dates[e.symbol] else {}) + {e.date}];
      forall s, d ensures Recorded(dates, s, d) <==> EventDate(events[..i + 1], s, d) {
        assert Recorded(before, s, d) <==> EventDate(events[..i], s, d);
        EventDateStep(events[..i], e, s, d);
      }
    }
    assert events[..|events|] == events;
  }

  method IndexRandoms(events: seq<Observation>, randoms: seq<Observation>) returns (d: map<Key, seq<int>>)
    ensures forall k: Key :: !k.ByEventType? ==> Get(d, k) == RandomScan(events, randoms, |randoms|, k)
  {
    var dates := EventDates(events);
    d := map[];
    for i := 0 to |randoms|
      invariant forall k: Key :: !k.ByEventType? ==> Get(d, k) == RandomScan(events, randoms, i, k)
    {
      var o := randoms[i];
      if Recorded(dates, o.symbol, o.date) {
        continue;
      }
      ghost var before := d;
      d := AddSymbolKeys(d, o, |events| + i);
      forall k: Key | !k.ByEventType? ensures Get(d, k) == RandomScan(events, randoms, i + 1, k) {
        assert Get(before, k) == RandomScan(events, randoms, i, k);
      }
    }
  }

  // ---------------------------------------------------------------- the pools

  function Without(xs: seq<int>, x: int): (r: seq<int>)
    ensures forall i :: i in r <==> i in xs && i != x
  {
    if xs == [] then []
    else if xs[0] != x then [xs[0]] + Without(xs[1..], x)
    else Without(xs[1..], x)
  }

  function PoolOrFallback(primary: seq<int>, fallback: seq<int>, self: int): (r: seq<int>)
    ensures r != []
    ensures self in r <==> r == [self]
    ensures r == [self] <==> forall i :: i in primary || i in fallback ==> i == self
    ensures (exists i :: i in primary && i != self) ==> forall i :: i in r <==> i in primary && i != self
  {
    var own := Without(primary, self);
    if own != [] then
      assert own[0] in own;
      own
    else
      var other := Without(fallback, self);
      if other != [] then
        assert other[0] in other;
        other
      else [self]
  }

  datatype Kind = SymbolRandomDate | SymbolEventDate | SymbolMonthRandomDate | SymbolRegimeRandomDate
                | SectorDateRandom | EventTypeMatched

  /** The attributes that the pool of this kind shares with the observation. */
  function KeyOf(kind: Kind, o: Observation): Key {
    match kind
    case SymbolRandomDate => BySymbol(o.symbol)
    case SymbolEventDate => BySymbol(o.symbol)
    case SymbolMonthRandomDate => BySymbolMonth(o.symbol, o.month)
    case SymbolRegimeRandomDate => BySymbolRegime(o.symbol, o.regime)
    case SectorDateRandom => BySectorDate(o.sector, o.date)
    case EventTypeMatched => ByEventType(o.eventType)
  }

  predicate EventsOnly(kind: Kind) { kind == SymbolEventDate || kind == EventTypeMatched }

  /** The pool of observation i by plain scans of the two lists. */
  function Pool(kind: Kind, events: seq<Observation>, randoms: seq<Observation>, i: nat): seq<int>
    requires i < |events|
  {
    var k := KeyOf(kind, events[i]);
    if EventsOnly(kind) then Scan(events, |events|, 0, k)
    else PoolOrFallback(RandomScan(events, randoms, |randoms|, k), Scan(events, |events|, 0, k), i)
  }

  method PoolsOfKind(kind: Kind, events: seq<Observation>, randoms: seq<Observation>,
                     eventIndex: map<Key, seq<int>>, randomIndex: map<Key, seq<int>>) returns (pools: seq<seq<int>>)
    requires forall k :: Get(eventIndex, k) == Scan(events, |events|, 0, k)
    requires forall k: Key :: !k.ByEventType? ==> Get(randomIndex, k) == RandomScan(events, randoms, |randoms|, k)
    ensures |pools| == |events| && forall i :: 0 <= i < |events| ==> pools[i] == Pool(kind, events, randoms, i)
  {
    pools := [];
    for i := 0 to |events|
      invariant |pools| == i && forall j :: 0 <= j < i ==> pools[j] == Pool(kind, events, randoms, j)
    {
      var k := KeyOf(kind, events[i]);
      var fallback := Get(eventIndex, k);
      pools := pools + [if EventsOnly(kind) then fallback else PoolOrFallback(Get(randomIndex, k), fallback, i)];
    }
  }

  /** All six lists of pools and the combined list they index. */
  method BaselineIndexPools(events: seq<Observation>, randoms: seq<Observation>)
    returns (pools: map<Kind, seq<seq<int>>>, combined: seq<Observation>)
    ensures combined == events + randoms
    ensures forall kind: Kind :: kind in pools
    ensures forall kind :: kind in pools ==> |pools[kind]| == |events|
    ensures forall kind, i :: kind in pools && 0 <= i < |events| ==> pools[kind][i] == Pool(kind, events, randoms, i)
  {
    combined := events + randoms;
    var eventIndex := IndexEvents(events);
    var randomIndex := IndexRandoms(events, randoms);
    var a := PoolsOfKind(SymbolRandomDate, events, randoms, eventIndex, randomIndex);
    var b := PoolsOfKind(SymbolEventDate, events, randoms, eventIndex, randomIndex);
    var c := PoolsOfKind(SymbolMonthRandomDate, events, randoms, eventIndex, randomIndex);
    var d := PoolsOfKind(SymbolRegimeRandomDate, events, randoms, eventIndex, randomIndex);
    var e := PoolsOfKind(SectorDateRandom, events, randoms, eventIndex, randomIndex);
    var f := PoolsOfKind(EventTypeMatched, events, randoms, eventIndex, randomIndex);
    pools := map[SymbolRandomDate := a, SymbolEventDate := b, SymbolMonthRandomDate := c,
                 SymbolRegimeRandomDate := d, SectorDateRandom := e, EventTypeMatched := f];
    forall kind: Kind ensures kind in pools {
      assert kind == SymbolRandomDate || kind == SymbolEventDate || kind == SymbolMonthRandomDate ||
             kind == SymbolRegimeRandomDate || kind == SectorDateRandom || kind == EventTypeMatched;
    }
  }

  // ---------------------------------------------------------------- what a pool holds

  /** What the pool of a kind has in common with the observation. */
  predicate Shares(kind: Kind, a: Observation, b: Observation) {
    match kind
    case SymbolRandomDate => a.symbol == b.symbol
    case SymbolEventDate => a.symbol == b.symbol
    case SymbolMonthRandomDate => a.symbol == b.symbol && a.month == b.month
    case SymbolRegimeRandomDate => a.symbol == b.symbol && a.regime == b.regime
    case SectorDateRandom => a.sector == b.sector && a.date == b.date
    case EventTypeMatched => a.eventType == b.eventType
  }

  lemma KeyMeansSharing(kind: Kind, a: Observation, b: Observation)
    ensures Matches(a, KeyOf(kind, b)) <==> Shares(kind, a, b)
  {
  }

  /** A random observation that a pool may draw: none of the symbol's events took place on its date. */
  predicate Admissible(events: seq<Observation>, o: Observation) {
    forall e :: e in events ==> e.symbol != o.symbol || e.date != o.date
  }

  lemma AdmissibleIff(events: seq<Observation>, o: Observation)
    ensures Admissible(events, o) <==> !EventDate(events, o.symbol, o.date)
  {
  }

  /** Two of the kinds draw from the events alone; they take every event that shares the attribute. */
  lemma EventKinds(kind: Kind, events: seq<Observation>, randoms: seq<Observation>, i: nat, j: int)
    requires i < |events|
    ensures EventsOnly(kind) <==> kind == SymbolEventDate || kind == EventTypeMatched
    ensures EventsOnly(kind) ==>
              (j in Pool(kind, events, randoms, i) <==> 0 <= j < |events| && Shares(kind, events[j], events[i]))
  {
    if 0 <= j < |events| {
      KeyMeansSharing(kind, events[j], events[i]);
    }
  }

  /** Every pool is nonempty and in range of the combined list, its members share the kind's
      attributes with the observation, and random members avoid the event dates of their symbol. */
  lemma PoolMembers(kind: Kind, events: seq<Observation>, randoms: seq<Observation>, i: nat, j: int)
    requires i < |events|
    ensures Pool(kind, events, randoms, i) != []
    ensures j in Pool(kind, events, randoms, i) ==>
              var combined := events + randoms;
              && 0 <= j < |combined|
              && Shares(kind, combined[j], events[i])
              && (j >= |events| ==> !EventsOnly(kind) && Admissible(events, combined[j]))
  {
    var k := KeyOf(kind, events[i]);
    assert Matches(events[i], k);
    assert i in Scan(events, |events|, 0, k);
    if j in Pool(kind, events, randoms, i) {
      KeyMeansSharing(kind, (events + randoms)[j], events[i]);
      AdmissibleIff(events, (events + randoms)[j]);
    }
  }

  /** A pool with a fallback holds the observation itself only as its last resort: when no other
      event and no admissible random date shares its attributes. */
  lemma {:induction false} SelfIsLastResort(kind: Kind, events: seq<Observation>, randoms: seq<Observation>, i: nat)
    requires i < |events| && !EventsOnly(kind)
    ensures var pool := Pool(kind, events, randoms, i);
            && (i in pool <==> pool == [i])
            && (pool == [i] <==>
                && (forall j :: 0 <= j < |events| && j != i ==> !Shares(kind, events[j], events[i]))
                && (forall j :: 0 <= j < |randoms| ==>
                      !Shares(kind, randoms[j], events[i]) || !Admissible(events, randoms[j])))
  {
    var k := KeyOf(kind, events[i]);
    var primary, fallback := RandomScan(events, randoms, |randoms|, k), Scan(events, |events|, 0, k);
    if Pool(kind, events, randoms, i) == [i] {
      forall j | 0 <= j < |events| && j != i ensures !Shares(kind, events[j], events[i]) {
        KeyMeansSharing(kind, events[j], events[i]);
        assert j !in fallback;
      }
      forall j | 0 <= j < |randoms| ensures !Shares(kind, randoms[j], events[i]) || !Admissible(events, randoms[j]) {
        KeyMeansSharing(kind, randoms[j], events[i]);
        AdmissibleIff(events, randoms[j]);
        assert |events| + j !in primary;
      }
    } else {
      var x :| (x in primary || x in fallback) && x != i;
      if x in fallback {
        KeyMeansSharing(kind, events[x], events[i]);
      } else {
        KeyMeansSharing(kind, randoms[x - |events|], events[i]);
        AdmissibleIff(events, randoms[x - |events|]);
      }
    }
  }

  lemma InRandomScan(events: seq<Observation>, randoms: seq<Observation>, k: Key, x: int)
    ensures x in RandomScan(events, randoms, |randoms|, k) ==> 0 <= x - |events| < |randoms|
    ensures 0 <= x - |events| < |randoms| ==>
              var o := randoms[x - |events|];
              (x in RandomScan(events, randoms, |randoms|, k) <==>
                 Matches(o, k) && !EventDate(events, o.symbol, o.date))
  {
  }

  lemma RandomsOfScan(kind: Kind, events: seq<Observation>, randoms: seq<Observation>, i: nat, x: int)
    requires i < |events|
    ensures x in RandomScan(events, randoms, |randoms|, KeyOf(kind, events[i])) <==>
            && |events| <= x < |events| + |randoms|
            && Shares(kind, randoms[x - |events|], events[i]) && Admissible(events, randoms[x - |events|])
  {
    InRandomScan(events, randoms, KeyOf(kind, events[i]), x);
    if |events| <= x < |events| + |randoms| {
      KeyMeansSharing(kind, randoms[x - |events|], events[i]);
      AdmissibleIff(events, randoms[x - |events|]);
    }
  }

  /** Random dates take precedence: whenever an admissible one shares the attributes, the pool holds exactly
      those. */
  lemma {:induction false} RandomDatesTakePrecedence(kind: Kind, events: seq<Observation>, randoms: seq<Observation>,
      i: nat, r: nat, j: int)
    requires i < |events| && !EventsOnly(kind) && r < |randoms|
    requires Shares(kind, randoms[r], events[i]) && Admissible(events, randoms[r])
    ensures j in Pool(kind, events, randoms, i) <==>
            && |events| <= j < |events| + |randoms|
            && Shares(kind, randoms[j - |events|], events[i]) && Admissible(events, randoms[j - |events|])
  {
    RandomsOfScan(kind, events, randoms, i, |events| + r);
    RandomsOfScan(kind, events, randoms, i, j);
    RandomsOfScan(kind, events, randoms, i, i);
  }
}
