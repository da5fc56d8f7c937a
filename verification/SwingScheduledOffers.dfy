/** What the random-date baseline offers on a date: each sized template of a free symbol as often as
    the symbol is scheduled on the date. */
module SwingScheduledOffers {
  import opened Prelude
  import opened Sorting
  import opened SwingTypes
  import opened SwingSignals
  import opened SwingPools
  import opened SwingEntries
  import opened SwingEngine
  import opened SwingProgram

  // ---------------------------------------------------------------- counting offers

  function OfferedSymbol(c: EntryCandidate): Option<Symbol> { Some(c.Symbol()) }

  /** How often a symbol is offered. */
  function Offered(cs: seq<EntryCandidate>, s: Symbol): nat { multiset(FilterMap(OfferedSymbol, cs))[s] }

  /** The pool has a template of the symbol that is sized and free. */
  predicate Offerable(free: Template -> Option<EntryCandidate>, pool: seq<Template>, s: Symbol) {
    exists i :: 0 <= i < |pool| && pool[i].symbol == s && free(pool[i]).Some?
  }

  lemma OfferedConcat(cs: seq<EntryCandidate>, more: seq<EntryCandidate>, s: Symbol)
    ensures Offered(cs + more, s) == Offered(cs, s) + Offered(more, s)
  {
    FilterMapConcat(OfferedSymbol, cs, more);
  }

  lemma {:induction false} OfferedCopies(c: EntryCandidate, n: nat, s: Symbol)
    ensures Offered(Copies(c, n), s) == if s == c.Symbol() then n else 0
    decreases n
  {
    if n == 0 {
      assert Copies(c, n) == [];
    } else {
      OfferedCopies(c, n - 1, s);
      assert Copies(c, n)[0] == c && Copies(c, n)[1..] == Copies(c, n - 1);
    }
  }

  lemma OfferedPermutation(cs: seq<EntryCandidate>, cs': seq<EntryCandidate>, s: Symbol)
    requires multiset(cs) == multiset(cs')
    ensures Offered(cs, s) == Offered(cs', s)
  {
    FilterMapMultiset(OfferedSymbol, cs, cs');
  }

  lemma OfferedRanked(cs: seq<EntryCandidate>, s: Symbol)
    ensures Offered(Ranked(cs), s) == Offered(cs, s)
  {
    FilterMapCongruence(OfferedSymbol, OfferedSymbol, Ranked(cs), cs);
  }

  lemma {:induction false} OfferedNowhere(cs: seq<EntryCandidate>, s: Symbol)
    ensures Offered(cs, s) == 0 <==> forall c :: c in cs ==> c.Symbol() != s
  {
    FilterMapMember(OfferedSymbol, cs, s);
    if c :| c in cs && c.Symbol() == s {
      assert OfferedSymbol(c) == Some(s);
    }
  }

  /** Nobody is offered twice exactly when the offers have distinct symbols. */
  lemma {:induction false} DistinctIffOnce(cs: seq<EntryCandidate>)
    ensures DistinctBy(CandidateSymbol, cs) <==> forall s :: Offered(cs, s) <= 1
    decreases |cs|
  {
    if cs == [] {
    } else {
      DistinctIffOnce(cs[1..]);
      forall s ensures Offered(cs, s) == Offered(cs[1..], s) + if s == cs[0].Symbol() then 1 else 0 {}
      OfferedNowhere(cs[1..], cs[0].Symbol());
      if DistinctBy(CandidateSymbol, cs) {
        assert DistinctBy(CandidateSymbol, cs[1..]);
        forall c | c in cs[1..] ensures c.Symbol() != cs[0].Symbol() {
          var i :| 0 <= i < |cs[1..]| && cs[1..][i] == c;
          assert CandidateSymbol(cs[0]) != CandidateSymbol(cs[i + 1]);
        }
      }
      if forall s :: Offered(cs, s) <= 1 {
        forall s ensures Offered(cs[1..], s) <= 1 {
          assert Offered(cs, s) <= 1;
        }
        assert Offered(cs, cs[0].Symbol()) <= 1;
        forall i, j | 0 <= i < j < |cs| ensures CandidateSymbol(cs[i]) != CandidateSymbol(cs[j]) {
          if i == 0 {
            assert cs[1..][j - 1] in cs[1..];
          } else {
            assert CandidateSymbol(cs[1..][i - 1]) != CandidateSymbol(cs[1..][j - 1]);
          }
        }
      }
    }
  }

  // ---------------------------------------------------------------- the scheduled candidates

  lemma OfferableTail(free: Template -> Option<EntryCandidate>, pool: seq<Template>, s: Symbol)
    requires pool != [] && DistinctBy(TemplateSymbol, pool)
    ensures Offerable(free, pool, s) <==>
            if s == pool[0].symbol then free(pool[0]).Some? else Offerable(free, pool[1..], s)
    ensures Offerable(free, pool[1..], s) ==> s != pool[0].symbol
    ensures DistinctBy(TemplateSymbol, pool[1..])
  {
    forall i | 0 < i < |pool| ensures pool[i].symbol != pool[0].symbol && pool[i] == pool[1..][i - 1] {
      assert TemplateSymbol(pool[0]) != TemplateSymbol(pool[i]);
    }
    forall i, j | 0 <= i < j < |pool[1..]| ensures TemplateSymbol(pool[1..][i]) != TemplateSymbol(pool[1..][j]) {
      assert TemplateSymbol(pool[i + 1]) != TemplateSymbol(pool[j + 1]);
    }
  }

  lemma {:induction false} ScheduledTimes(pool: seq<Template>, counts: map<Symbol, nat>, equity: real,
                                          positions: seq<Position>, params: Params, s: Symbol)
    requires DistinctBy(TemplateSymbol, pool)
    ensures Offered(ScheduledFromPool(pool, counts, equity, positions, params), s) ==
            if Offerable(MaterializeFree(equity, positions, params), pool, s) then CountIn(counts, s) else 0
    decreases |pool|
  {
    if pool == [] {
    } else {
      var free := MaterializeFree(equity, positions, params);
      var t := pool[0];
      var remaining := CountIn(counts, t.symbol);
      OfferableTail(free, pool, s);
      if remaining <= 0 || Held(positions, t.symbol) {
        ScheduledTimes(pool[1..], counts, equity, positions, params, s);
      } else {
        ScheduledTimes(pool[1..], counts[t.symbol := 0], equity, positions, params, s);
        if free(t).Some? {
          var c := free(t).value;
          OfferedCopies(c, remaining, s);
          OfferedConcat(Copies(c, remaining),
                        ScheduledFromPool(pool[1..], counts[t.symbol := 0], equity, positions, params), s);
        }
      }
    }
  }

  lemma CountOfScheduled(scheduled: seq<Symbol>, s: Symbol)
    ensures CountIn(Counter(scheduled), s) == multiset(scheduled)[s]
  {
  }

  lemma {:induction false} ScheduledCandidateTimes(pool: seq<Template>, equity: real, positions: seq<Position>,
                                                   params: Params, scheduled: seq<Symbol>, s: Symbol)
    requires DistinctBy(TemplateSymbol, pool)
    ensures Offered(ScheduledCandidatesFromPool(pool, equity, positions, params, scheduled), s) ==
            if Offerable(MaterializeFree(equity, positions, params), pool, s) then multiset(scheduled)[s] else 0
  {
    var raw := ScheduledFromPool(pool, Counter(scheduled), equity, positions, params);
    CountOfScheduled(scheduled, s);
    if scheduled == [] {
    } else {
      ScheduledTimes(pool, Counter(scheduled), equity, positions, params, s);
      OfferedRanked(Sort(ByCandidateSymbol, raw), s);
      OfferedPermutation(Sort(ByCandidateSymbol, raw), raw, s);
    }
  }

  /** The day's sized templates of free symbols. */
  predicate OfferableOn(c: Config, d: Date, equity: real, positions: seq<Position>, s: Symbol) {
    Offerable(MaterializeFree(equity, positions, c.params), TradablePool(c.prepared, c.params, d), s)
  }

  /** The random-date baseline offers a symbol as often as it is scheduled on the date, provided its
      template is sized and free, and not at all otherwise. */
  lemma {:induction false} TimesOffered(c: Config, d: Date, equity: real, positions: seq<Position>, rng: int, s: Symbol)
    requires ValidPrepared(c.prepared) && ValidOracle(c.oracle) && c.kind.SymbolMatchedRandomDate?
    ensures Offered(EntriesOn(c, d, equity, positions, rng).1, s) ==
            if OfferableOn(c, d, equity, positions, s) then multiset(Scheduled(c, d))[s] else 0
  {
    var pool := TradablePool(c.prepared, c.params, d);
    var candidates := ScheduledCandidatesFromPool(pool, equity, positions, c.params, Scheduled(c, d));
    TradablePoolDistinct(c.prepared, c.params, d);
    ScheduledCandidateTimes(pool, equity, positions, c.params, Scheduled(c, d), s);
    OfferedPermutation(EntriesOn(c, d, equity, positions, rng).1, candidates, s);
  }

  /** Its offers have distinct symbols exactly when no symbol with a sized template and no position
      is scheduled twice on the date. */
  lemma {:induction false} DistinctOnDate(c: Config, d: Date, equity: real, positions: seq<Position>, rng: int)
    requires ValidPrepared(c.prepared) && ValidOracle(c.oracle) && c.kind.SymbolMatchedRandomDate?
    ensures DistinctBy(CandidateSymbol, EntriesOn(c, d, equity, positions, rng).1) <==>
            forall s :: OfferableOn(c, d, equity, positions, s) ==> multiset(Scheduled(c, d))[s] <= 1
  {
    var cs := EntriesOn(c, d, equity, positions, rng).1;
    DistinctIffOnce(cs);
    forall s ensures Offered(cs, s) <= 1 <==>
                     (OfferableOn(c, d, equity, positions, s) ==> multiset(Scheduled(c, d))[s] <= 1)
    {
      TimesOffered(c, d, equity, positions, rng, s);
    }
  }

  // ---------------------------------------------------------------- templates that can be sized

  predicate SameSign(a: real, b: real) { (a > 0.0 && b > 0.0) || (a < 0.0 && b < 0.0) }

  /** Some equity gives the template a size: the stop is below the entry and the two percentages
      have the same sign. */
  predicate Sizable(t: Template, params: Params) {
    && t.stopPrice < t.entryPrice
    && SameSign(params.riskPerTradePct, params.maxNotionalPerPositionPct)
  }

  /** An equity whose shares r and n of it reach a and b. */
  function Reaching(a: real, r: real, b: real, n: real): real
    requires r != 0.0 && n != 0.0
  {
    a / r + b / n
  }

  lemma ReachingIsEnough(a: real, r: real, b: real, n: real)
    requires a > 0.0 && b > 0.0 && SameSign(r, n)
    ensures Reaching(a, r, b, n) * r >= a && Reaching(a, r, b, n) * n >= b
  {
    var x, y := a / r, b / n;
    assert x * r == a && y * n == b;
    SameSignProduct(y, r, b, n);
    SameSignProduct(x, n, a, r);
    assert (x + y) * r == x * r + y * r && (x + y) * n == x * n + y * n;
  }

  lemma SameSignProduct(y: real, r: real, b: real, n: real)
    requires b > 0.0 && y * n == b && SameSign(r, n)
    ensures y * r >= 0.0
  {
    if n > 0.0 {
      assert y > 0.0;
    } else {
      assert y < 0.0;
    }
  }

  lemma PositiveShares(equity: real, r: real, n: real)
    requires equity * r > 0.0 && equity * n > 0.0
    ensures SameSign(r, n)
  {
  }

  lemma SizableSuffices(t: Template, params: Params) returns (equity: real)
    requires Sizable(t, params)
    ensures MaterializeEntry(t, equity, params, 0, 0).Some?
  {
    var lot, unit := params.lotSize as real, RiskPerShare(t);
    var r, n := params.riskPerTradePct, params.maxNotionalPerPositionPct;
    assert lot * unit > 0.0 && lot * t.entryPrice > 0.0;
    equity := Reaching(lot * unit, r, lot * t.entryPrice, n);
    ReachingIsEnough(lot * unit, r, lot * t.entryPrice, n);
    assert Fits(params.lotSize, unit, RiskBudget(equity, params));
    assert Fits(params.lotSize, t.entryPrice, NotionalCap(equity, params));
    MaterializedSize(t, equity, params, 0, 0);
  }

  lemma SizedIsSizable(t: Template, equity: real, params: Params)
    requires MaterializeEntry(t, equity, params, 0, 0).Some?
    ensures Sizable(t, params)
  {
    MaterializedSize(t, equity, params, 0, 0);
    var lot, unit := params.lotSize as real, RiskPerShare(t);
    assert lot * unit > 0.0 && lot * t.entryPrice > 0.0;
    PositiveShares(equity, params.riskPerTradePct, params.maxNotionalPerPositionPct);
  }

  /** The symbol can be offered on the date, at some equity. */
  predicate Placeable(c: Config, d: Date, s: Symbol) {
    exists i :: 0 <= i < |TradablePool(c.prepared, c.params, d)| &&
      TradablePool(c.prepared, c.params, d)[i].symbol == s &&
      Sizable(TradablePool(c.prepared, c.params, d)[i], c.params)
  }

  lemma OfferableIsPlaceable(c: Config, d: Date, equity: real, positions: seq<Position>, s: Symbol)
    requires OfferableOn(c, d, equity, positions, s)
    ensures Placeable(c, d, s)
  {
    var pool := TradablePool(c.prepared, c.params, d);
    var i :| 0 <= i < |pool| && pool[i].symbol == s && MaterializeFree(equity, positions, c.params)(pool[i]).Some?;
    SizedIsSizable(pool[i], equity, c.params);
  }

  lemma PlaceableIsOfferable(c: Config, d: Date, s: Symbol) returns (equity: real)
    requires Placeable(c, d, s)
    ensures OfferableOn(c, d, equity, [], s)
  {
    var pool := TradablePool(c.prepared, c.params, d);
    var i :| 0 <= i < |pool| && pool[i].symbol == s && Sizable(pool[i], c.params);
    equity := SizableSuffices(pool[i], c.params);
    assert MaterializeFree(equity, [], c.params)(pool[i]).Some?;
  }

  /** No symbol that can be offered is scheduled twice on one date. */
  ghost predicate NoRepeats(c: Config) {
    forall d, s :: Placeable(c, d, s) ==> multiset(Scheduled(c, d))[s] <= 1
  }

  /** The program never offers a symbol twice on a day exactly when its schedule has no repeats. */
  lemma {:induction false} DistinctOffersIffNoRepeats(c: Config, stress: ExecutionStress, seed: int)
    requires ValidPrepared(c.prepared) && ValidOracle(c.oracle)
    ensures DistinctOffers(ProgramEnv(c, stress, seed)) <==> !c.kind.SymbolMatchedRandomDate? || NoRepeats(c)
  {
    var env := ProgramEnv(c, stress, seed);
    ProgramIsValid(c, stress, seed);
    if c.kind.SymbolMatchedRandomDate? {
      if NoRepeats(c) {
        forall d, equity, ps, rng ensures DistinctBy(CandidateSymbol, env.offer(d, equity, ps, rng).1) {
          forall s | OfferableOn(c, d, equity, ps, s) ensures multiset(Scheduled(c, d))[s] <= 1 {
            OfferableIsPlaceable(c, d, equity, ps, s);
          }
          DistinctOnDate(c, d, equity, ps, rng);
        }
      }
      if DistinctOffers(env) {
        forall d, s | Placeable(c, d, s) ensures multiset(Scheduled(c, d))[s] <= 1 {
          var equity := PlaceableIsOfferable(c, d, s);
          assert DistinctBy(CandidateSymbol, env.offer(d, equity, [], 0).1);
          DistinctOnDate(c, d, equity, [], 0);
        }
      }
    }
  }

  // ---------------------------------------------------------------- two schedules

  lemma {:induction false} SameScheduled(pool: seq<Template>, counts: map<Symbol, nat>, counts': map<Symbol, nat>,
                                         equity: real, positions: seq<Position>, params: Params)
    requires DistinctBy(TemplateSymbol, pool)
    requires forall s :: Offerable(MaterializeFree(equity, positions, params), pool, s) ==>
               CountIn(counts, s) == CountIn(counts', s)
    ensures ScheduledFromPool(pool, counts, equity, positions, params)
         == ScheduledFromPool(pool, counts', equity, positions, params)
    decreases |pool|
  {
    if pool == [] {
    } else {
      var free, t := MaterializeFree(equity, positions, params), pool[0];
      var next := if CountIn(counts, t.symbol) <= 0 || Held(positions, t.symbol) then counts else counts[t.symbol := 0];
      var next' := if CountIn(counts', t.symbol) <= 0 || Held(positions, t.symbol)
                         then counts' else counts'[t.symbol := 0];
      forall s | Offerable(free, pool[1..], s) ensures CountIn(next, s) == CountIn(next', s) {
        OfferableTail(free, pool, s);
      }
      OfferableTail(free, pool, t.symbol);
      SameScheduled(pool[1..], next, next', equity, positions, params);
    }
  }

  lemma FirstIsOffered(cs: seq<EntryCandidate>)
    ensures cs != [] ==> Offered(cs, cs[0].Symbol()) != 0
  {
    if cs != [] {
      OfferedNowhere(cs, cs[0].Symbol());
      assert cs[0] in cs;
    }
  }

  lemma EmptySchedule(pool: seq<Template>, equity: real, positions: seq<Position>, params: Params,
                      scheduled: seq<Symbol>)
    requires DistinctBy(TemplateSymbol, pool)
    ensures ScheduledCandidatesFromPool(pool, equity, positions, params, scheduled)
         == Ranked(Sort(ByCandidateSymbol, ScheduledFromPool(pool, Counter(scheduled), equity, positions, params)))
  {
    var raw := ScheduledFromPool(pool, Counter(scheduled), equity, positions, params);
    FirstIsOffered(raw);
    if scheduled == [] {
      forall s ensures Offered(raw, s) == 0 {
        ScheduledTimes(pool, Counter(scheduled), equity, positions, params, s);
      }
    }
  }

  /** Both schedules place every symbol that can be offered on the date equally often on it. */
  ghost predicate SameOn(c: Config, c': Config, d: Date) {
    forall s :: Placeable(c, d, s) ==> multiset(Scheduled(c, d))[s] == multiset(Scheduled(c', d))[s]
  }

  ghost predicate SameOffers(c: Config, c': Config, d: Date) {
    forall equity, positions, rng :: EntriesOn(c, d, equity, positions, rng) == EntriesOn(c', d, equity, positions, rng)
  }

  /** The same candidates are offered on a date, whatever the state, exactly when the two schedules
      agree on the date. */
  lemma {:induction false} SameOffersIffSameOn(c: Config, c': Config, d: Date)
    requires ValidPrepared(c.prepared) && ValidOracle(c.oracle) && c.kind.SymbolMatchedRandomDate?
    requires ValidPrepared(c'.prepared)
    requires c'.params == c.params && c'.kind == c.kind && c'.selection == c.selection && c'.oracle == c.oracle
    requires TradablePool(c'.prepared, c.params, d) == TradablePool(c.prepared, c.params, d)
    ensures SameOffers(c, c', d) <==> SameOn(c, c', d)
  {
    var pool := TradablePool(c.prepared, c.params, d);
    TradablePoolDistinct(c.prepared, c.params, d);
    if SameOn(c, c', d) {
      forall equity, positions, rng
        ensures EntriesOn(c, d, equity, positions, rng) == EntriesOn(c', d, equity, positions, rng)
      {
        forall s | Offerable(MaterializeFree(equity, positions, c.params), pool, s)
          ensures CountIn(Counter(Scheduled(c, d)), s) == CountIn(Counter(Scheduled(c', d)), s)
        {
          OfferableIsPlaceable(c, d, equity, positions, s);
          CountOfScheduled(Scheduled(c, d), s);
          CountOfScheduled(Scheduled(c', d), s);
        }
        SameScheduled(pool, Counter(Scheduled(c, d)), Counter(Scheduled(c', d)), equity, positions, c.params);
        EmptySchedule(pool, equity, positions, c.params, Scheduled(c, d));
        EmptySchedule(pool, equity, positions, c.params, Scheduled(c', d));
      }
    }
    if SameOffers(c, c', d) {
      forall s | Placeable(c, d, s) ensures multiset(Scheduled(c, d))[s] == multiset(Scheduled(c', d))[s] {
        var equity := PlaceableIsOfferable(c, d, s);
        assert EntriesOn(c, d, equity, [], 0) == EntriesOn(c', d, equity, [], 0);
        TimesOffered(c, d, equity, [], 0, s);
        TimesOffered(c', d, equity, [], 0, s);
      }
    }
  }
}
