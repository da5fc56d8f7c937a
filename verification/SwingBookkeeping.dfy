/** What every run keeps: each opening ends in exactly one trade, equity is the starting capital
    plus realized profit, and every opening respected the exposure and risk limits. */
module SwingBookkeeping {
  import opened Prelude
  import opened Sorting
  import opened SwingTypes
  import opened SwingPools
  import opened SwingEngine

  // ---------------------------------------------------------------- accounting

  function PositionsOf(ts: seq<Trade>): (ps: seq<Position>)
    ensures |ps| == |ts| && forall i :: 0 <= i < |ts| ==> ps[i] == ts[i].position
  {
    seq(|ts|, i requires 0 <= i < |ts| => ts[i].position)
  }

  function OpenedPositions(os: seq<Opening>): (ps: seq<Position>)
    ensures |ps| == |os| && forall i :: 0 <= i < |os| ==> ps[i] == os[i].position
  {
    seq(|os|, i requires 0 <= i < |os| => os[i].position)
  }

  function DisplacedPositions(os: seq<Opening>): seq<Position> {
    if os == [] then [] else DisplacedPositions(os[..|os| - 1]) + os[|os| - 1].displaced
  }

  lemma {:induction false} DisplacedConcat(xs: seq<Opening>, ys: seq<Opening>)
    ensures DisplacedPositions(xs + ys) == DisplacedPositions(xs) + DisplacedPositions(ys)
    decreases |ys|
  {
    if ys == [] {
      assert xs + ys == xs;
    } else {
      assert (xs + ys)[..|xs + ys| - 1] == xs + ys[..|ys| - 1];
      DisplacedConcat(xs, ys[..|ys| - 1]);
    }
  }

  /** Multiset arithmetic: x joins both sides. */
  lemma BagAdd<T>(x: multiset<T>, a: multiset<T>, b: multiset<T>, c: multiset<T>, d: multiset<T>)
    requires a + b == c + d
    ensures (x + a) + b == (x + c) + d
  {
    forall q: T ensures ((x + a) + b)[q] == ((x + c) + d)[q] {
      assert (a + b)[q] == (c + d)[q];
    }
  }

  lemma {:induction false} PutDisplaces(ps: seq<Position>, p: Position)
    ensures multiset(Put(ps, p)) + multiset(Displaced(ps, p.Symbol())) == multiset(ps) + multiset{p}
    ensures |Put(ps, p)| <= |ps| + 1
    decreases |ps|
  {
    if ps == [] {
    } else {
      assert ps == [ps[0]] + ps[1..];
      if ps[0].Symbol() != p.Symbol() {
        PutDisplaces(ps[1..], p);
        BagAdd(multiset{ps[0]}, multiset(Put(ps[1..], p)), multiset(Displaced(ps[1..], p.Symbol())),
               multiset(ps[1..]), multiset{p});
      }
    }
  }

  lemma {:induction false} DisplacedHeld(ps: seq<Position>, s: Symbol)
    ensures Displaced(ps, s) == [] <==> !Held(ps, s)
    decreases |ps|
  {
    if ps == [] || ps[0].Symbol() == s {
    } else {
      DisplacedHeld(ps[1..], s);
      forall i | 0 <= i < |ps| && ps[i].Symbol() == s ensures Held(ps[1..], s) {
        assert ps[1..][i - 1].Symbol() == s;
      }
      forall i | 0 <= i < |ps[1..]| && ps[1..][i].Symbol() == s ensures Held(ps, s) {
        assert ps[i + 1].Symbol() == s;
      }
    }
  }

  ghost predicate Balanced(open: seq<Position>, trades: seq<Trade>, openings: seq<Opening>) {
    multiset(PositionsOf(trades)) + multiset(open) + multiset(DisplacedPositions(openings))
      == multiset(OpenedPositions(openings))
  }

  lemma BagOpen<T>(now: multiset<T>, lost: multiset<T>, put: multiset<T>, added: multiset<T>,
                   first: multiset<T>, before: multiset<T>, p: multiset<T>)
    requires now + lost == put + added && put + first == before + p
    ensures now + (first + lost) == before + (p + added)
  {
    forall q: T ensures (now + (first + lost))[q] == (before + (p + added))[q] {
      assert (now + lost)[q] == (put + added)[q] && (put + first)[q] == (before + p)[q];
    }
  }

  lemma FirstDisplaced(first: Opening, rest: seq<Opening>)
    ensures DisplacedPositions([first] + rest) == first.displaced + DisplacedPositions(rest)
    ensures OpenedPositions([first] + rest) == [first.position] + OpenedPositions(rest)
  {
    DisplacedConcat([first], rest);
    assert [first][..0] == [];
    assert DisplacedPositions([first]) == DisplacedPositions([]) + first.displaced;
  }

  /** Opening p balances what the rest of the day opens. */
  lemma OpenStep(ps: seq<Position>, p: Position, equity: real, positions: seq<Position>, rest: seq<Opening>)
    requires multiset(positions) + multiset(DisplacedPositions(rest))
          == multiset(Put(ps, p)) + multiset(OpenedPositions(rest))
    ensures var all := [Opening(p, equity, ps, Displaced(ps, p.Symbol()))] + rest;
            multiset(positions) + multiset(DisplacedPositions(all)) == multiset(ps) + multiset(OpenedPositions(all))
  {
    var first := Opening(p, equity, ps, Displaced(ps, p.Symbol()));
    PutDisplaces(ps, p);
    FirstDisplaced(first, rest);
    BagOpen(multiset(positions), multiset(DisplacedPositions(rest)), multiset(Put(ps, p)),
            multiset(OpenedPositions(rest)), multiset(first.displaced), multiset(ps), multiset{p});
  }

  lemma {:induction false} OpenAllAccounting(env: Env, cs: seq<EntryCandidate>, equity: real, ps: seq<Position>,
      openedToday: nat)
    requires AllListed(env.prepared, cs)
    ensures var r := OpenAll(env, cs, equity, ps, openedToday);
            && multiset(r.positions) + multiset(DisplacedPositions(r.openings))
                 == multiset(ps) + multiset(OpenedPositions(r.openings))
            && (|r.positions| <= |ps| || |r.positions| <= env.params.maxPositions)
    decreases |cs|
  {
    if cs == [] || DayFull(env.params, ps, openedToday) {
      assert OpenedPositions([]) == [];
    } else if OpenNotional(ps) + cs[0].Notional() > equity {
      OpenAllAccounting(env, cs[1..], equity, ps, openedToday);
    } else {
      var p := MakePosition(env, cs[0]);
      var rest := OpenAll(env, cs[1..], equity, Put(ps, p), openedToday + 1);
      OpenAllAccounting(env, cs[1..], equity, Put(ps, p), openedToday + 1);
      OpenStep(ps, p, equity, rest.positions, rest.openings);
      PutDisplaces(ps, p);
    }
  }

  /** Splitting a list into exits and survivors loses nothing. */
  lemma {:induction false} Partition(exit: Position -> Option<Trade>, stay: Position -> Option<Position>,
      ps: seq<Position>)
    requires forall p :: stay(p) == if exit(p).Some? then None else Some(p)
    requires forall p :: exit(p).Some? ==> exit(p).value.position == p
    ensures multiset(PositionsOf(FilterMap(exit, ps))) + multiset(FilterMap(stay, ps)) == multiset(ps)
    ensures |FilterMap(stay, ps)| <= |ps|
    decreases |ps|
  {
    if ps == [] {
    } else {
      Partition(exit, stay, ps[1..]);
      assert ps == [ps[0]] + ps[1..];
      var closed, kept := FilterMap(exit, ps[1..]), FilterMap(stay, ps[1..]);
      if exit(ps[0]).Some? {
        assert PositionsOf([exit(ps[0]).value] + closed) == [ps[0]] + PositionsOf(closed);
        BagAdd(multiset{ps[0]}, multiset(PositionsOf(closed)), multiset(kept), multiset(ps[1..]), multiset{});
      } else {
        assert FilterMap(exit, ps) == closed;
        BagAdd(multiset{ps[0]}, multiset(kept), multiset(PositionsOf(closed)), multiset(ps[1..]), multiset{});
      }
    }
  }

  lemma ExitAccounting(today: seq<Bar>, ps: seq<Position>, params: Params, stress: ExecutionStress)
    ensures multiset(PositionsOf(Closed(today, ps, params, stress))) + multiset(Survivors(today, ps, params, stress))
         == multiset(ps)
    ensures |Survivors(today, ps, params, stress)| <= |ps|
  {
    Partition(ToExit(today, params, stress), ToSurvivor(today, params, stress), ps);
  }

  /** After every day of every run: positions are balanced, equity is realized profit on the
      starting capital, and the position count is within its limit. */
  ghost predicate Accounted(env: Env, st: State) {
    && Balanced(st.positions, st.trades, st.openings)
    && st.equity == env.params.startingCapital + NetPnl(st.trades)
    && (st.positions == [] || |st.positions| <= env.params.maxPositions)
  }

  lemma BagBalance<T>(closed: multiset<T>, open: multiset<T>, lost: multiset<T>, added: multiset<T>,
                      now: multiset<T>, lostNow: multiset<T>, openedNow: multiset<T>)
    requires closed + open + lost == added && now + lostNow == open + openedNow
    ensures closed + now + (lost + lostNow) == added + openedNow
  {
    forall q: T ensures (closed + now + (lost + lostNow))[q] == (added + openedNow)[q] {
      assert (closed + open + lost)[q] == added[q] && (now + lostNow)[q] == (open + openedNow)[q];
    }
  }

  lemma {:induction false} BalancedOpen(open: seq<Position>, trades: seq<Trade>, openings: seq<Opening>,
                     positions: seq<Position>, more: seq<Opening>)
    requires Balanced(open, trades, openings)
    requires multiset(positions) + multiset(DisplacedPositions(more))
          == multiset(open) + multiset(OpenedPositions(more))
    ensures Balanced(positions, trades, openings + more)
  {
    var closed, lost, lostNow := PositionsOf(trades), DisplacedPositions(openings), DisplacedPositions(more);
    var before, added := OpenedPositions(openings), OpenedPositions(more);
    BagBalance(multiset(closed), multiset(open), multiset(lost), multiset(before), multiset(positions),
               multiset(lostNow), multiset(added));
    DisplacedConcat(openings, more);
    OpenedConcat(openings, more);
    assert multiset(lost + lostNow) == multiset(lost) + multiset(lostNow);
    assert multiset(before + added) == multiset(before) + multiset(added);
  }

  lemma OpenedConcat(xs: seq<Opening>, ys: seq<Opening>)
    ensures OpenedPositions(xs + ys) == OpenedPositions(xs) + OpenedPositions(ys)
  {
  }

  lemma BalancedClose(open: seq<Position>, trades: seq<Trade>, openings: seq<Opening>,
                      positions: seq<Position>, closed: seq<Trade>)
    requires Balanced(open, trades, openings)
    requires multiset(PositionsOf(closed)) + multiset(positions) == multiset(open)
    ensures Balanced(positions, trades + closed, openings)
  {
    assert PositionsOf(trades + closed) == PositionsOf(trades) + PositionsOf(closed);
  }

  lemma EntryPhaseAccounted(env: Env, d: Date, st: State)
    requires ValidEnv(env) && Accounted(env, st)
    ensures Accounted(env, EntryPhase(env, d, st))
  {
    var entries := env.offer(d, st.equity, st.positions, st.rng).1;
    OfferListed(env, d, st.equity, st.positions, st.rng);
    OpenAllAccounting(env, entries, st.equity, st.positions, 0);
    var r := OpenAll(env, entries, st.equity, st.positions, 0);
    BalancedOpen(st.positions, st.trades, st.openings, r.positions, r.openings);
  }

  lemma ExitPhaseAccounted(env: Env, d: Date, st: State)
    requires Accounted(env, st)
    ensures Accounted(env, ExitPhase(env, d, st))
  {
    var today := Today(env.prepared, d);
    var closed := Closed(today, st.positions, env.params, env.stress);
    var survivors := Survivors(today, st.positions, env.params, env.stress);
    ExitAccounting(today, st.positions, env.params, env.stress);
    NetPnlConcat(st.trades, closed);
    BalancedClose(st.positions, st.trades, st.openings, survivors, closed);
  }

  lemma StepAccounted(env: Env, d: Date, st: State, next: State)
    requires ValidEnv(env) && Accounted(env, st) && next == StepDay(env, d, st)
    ensures Accounted(env, next)
  {
    if env.stress.exitBeforeEntryAtOpen {
      ExitPhaseAccounted(env, d, st);
      EntryPhaseAccounted(env, d, ExitPhase(env, d, st));
    } else {
      EntryPhaseAccounted(env, d, st);
      ExitPhaseAccounted(env, d, EntryPhase(env, d, st));
    }
  }

  lemma InitialAccounted(env: Env)
    ensures Accounted(env, Initial(env))
  {
  }

  lemma {:induction false} RunAccounted(env: Env, cal: seq<Date>, run: seq<State>, k: nat)
    requires ValidEnv(env) && IsRun(env, cal, run) && k < |run|
    ensures Accounted(env, run[k])
    decreases k
  {
    if k == 0 {
      InitialAccounted(env);
    } else {
      RunAccounted(env, cal, run, k - 1);
      assert StepAt(env, cal, run, k - 1);
      StepAccounted(env, cal[k - 1], run[k - 1], run[k]);
    }
  }

  // ---------------------------------------------------------------- no position is overwritten

  lemma {:induction false} PutHeld(ps: seq<Position>, p: Position, s: Symbol)
    requires s != p.Symbol() && !Held(ps, s)
    ensures !Held(Put(ps, p), s)
    decreases |ps|
  {
    PutMember(ps, p);
    var r := Put(ps, p);
    forall i | 0 <= i < |r| ensures r[i].Symbol() != s {
      assert r[i] in r;
    }
  }

  lemma {:induction false} DistinctNeverDisplace(env: Env, cs: seq<EntryCandidate>, equity: real, ps: seq<Position>,
      openedToday: nat)
    requires AllListed(env.prepared, cs) && DistinctBy(CandidateSymbol, cs)
    requires forall i :: 0 <= i < |cs| ==> !Held(ps, cs[i].Symbol())
    ensures DisplacedPositions(OpenAll(env, cs, equity, ps, openedToday).openings) == []
    decreases |cs|
  {
    if cs == [] || DayFull(env.params, ps, openedToday) {
    } else {
      if OpenNotional(ps) + cs[0].Notional() > equity {
        DistinctNeverDisplace(env, cs[1..], equity, ps, openedToday);
      } else {
        var p := MakePosition(env, cs[0]);
        DisplacedHeld(ps, p.Symbol());
        assert !Held(ps, cs[0].Symbol());
        forall i | 0 <= i < |cs[1..]| ensures !Held(Put(ps, p), cs[1..][i].Symbol()) {
          assert CandidateSymbol(cs[0]) != CandidateSymbol(cs[i + 1]);
          PutHeld(ps, p, cs[i + 1].Symbol());
        }
        DistinctNeverDisplace(env, cs[1..], equity, Put(ps, p), openedToday + 1);
        var rest := OpenAll(env, cs[1..], equity, Put(ps, p), openedToday + 1);
        DisplacedConcat([Opening(p, equity, ps, [])], rest.openings);
      }
    }
  }

  lemma EntryPhaseKeepsAll(env: Env, d: Date, st: State)
    requires ValidEnv(env) && DistinctOffers(env) && DisplacedPositions(st.openings) == []
    ensures DisplacedPositions(EntryPhase(env, d, st).openings) == []
  {
    var entries := env.offer(d, st.equity, st.positions, st.rng).1;
    OfferListed(env, d, st.equity, st.positions, st.rng);
    forall i | 0 <= i < |entries| ensures !Held(st.positions, entries[i].Symbol()) {
      assert entries[i] in entries;
    }
    DistinctNeverDisplace(env, entries, st.equity, st.positions, 0);
    DisplacedConcat(st.openings, OpenAll(env, entries, st.equity, st.positions, 0).openings);
  }

  ghost predicate NoneDisplaced(st: State) {
    DisplacedPositions(st.openings) == []
  }

  lemma StepKeepsAll(env: Env, d: Date, st: State, next: State)
    requires ValidEnv(env) && DistinctOffers(env) && NoneDisplaced(st)
    requires next == StepDay(env, d, st)
    ensures NoneDisplaced(next)
  {
    EntryPhaseKeepsAll(env, d, if env.stress.exitBeforeEntryAtOpen then ExitPhase(env, d, st) else st);
  }

  lemma {:induction false} RunNeverDisplaces(env: Env, cal: seq<Date>, run: seq<State>, k: nat)
    requires ValidEnv(env) && DistinctOffers(env) && IsRun(env, cal, run) && k < |run|
    ensures NoneDisplaced(run[k])
    decreases k
  {
    if k == 0 {
    } else {
      RunNeverDisplaces(env, cal, run, k - 1);
      assert StepAt(env, cal, run, k - 1);
      StepKeepsAll(env, cal[k - 1], run[k - 1], run[k]);
    }
  }

  /** The reported trades are the trades of the loop plus one per surviving position. */
  lemma ReportPositions(env: Env, st: State)
    requires PositionsListed(env, st.positions)
    ensures multiset(PositionsOf(Report(env, st))) == multiset(PositionsOf(st.trades)) + multiset(st.positions)
  {
    var ends := EndTrades(env, st.positions);
    assert PositionsOf(ends) == st.positions;
    assert PositionsOf(st.trades + ends) == PositionsOf(st.trades) + st.positions;
    PositionsOfPermutation(st.trades + ends, Report(env, st));
  }

  /** Every opened position yields exactly one trade, apart from those overwritten by a second
      opening of the same symbol, which only a source with duplicates can cause; equity at the end
      of the day loop is the starting capital plus the realized profit. */
  lemma EveryOpeningYieldsOneTrade(env: Env, cal: seq<Date>, run: seq<State>)
    requires ValidEnv(env) && IsRun(env, cal, run)
    ensures var st := run[|run| - 1];
            && PositionsListed(env, st.positions)
            && multiset(PositionsOf(Report(env, st))) + multiset(DisplacedPositions(st.openings))
                 == multiset(OpenedPositions(st.openings))
            && (|Report(env, st)| == |st.openings| <==> DisplacedPositions(st.openings) == [])
            && (DistinctOffers(env) ==>
                  multiset(PositionsOf(Report(env, st))) == multiset(OpenedPositions(st.openings)))
            && st.equity == env.params.startingCapital + NetPnl(st.trades)
  {
    var n := |run| - 1;
    var st := run[n];
    RunAccounted(env, cal, run, n);
    RunListed(env, cal, run, n);
    ReportPositions(env, st);
    BagSizes(PositionsOf(Report(env, st)), DisplacedPositions(st.openings), OpenedPositions(st.openings));
    if DistinctOffers(env) {
      RunNeverDisplaces(env, cal, run, n);
    }
  }

  lemma BagSizes<T>(a: seq<T>, b: seq<T>, c: seq<T>)
    requires multiset(a) + multiset(b) == multiset(c)
    ensures |a| == |c| <==> b == []
  {
    assert |multiset(a)| + |multiset(b)| == |multiset(c)|;
  }

  function ToPosition(t: Trade): Option<Position> { Some(t.position) }

  lemma {:induction false} PositionsOfIsMap(ts: seq<Trade>)
    ensures FilterMap(ToPosition, ts) == PositionsOf(ts)
    decreases |ts|
  {
    if ts == [] {
    } else {
      PositionsOfIsMap(ts[1..]);
    }
  }

  lemma PositionsOfPermutation(xs: seq<Trade>, ys: seq<Trade>)
    requires multiset(xs) == multiset(ys)
    ensures multiset(PositionsOf(xs)) == multiset(PositionsOf(ys))
  {
    FilterMapMultiset(ToPosition, xs, ys);
    PositionsOfIsMap(xs);
    PositionsOfIsMap(ys);
  }
}
