/** The entries of a date are greedy: whatever was offered and not opened found the day or the book full, or
    would still not fit. */
module SwingGreedy {
  import opened Sorting
  import opened SwingTypes
  import opened SwingPools
  import opened SwingEngine
  import opened SwingRisk

  ghost predicate IsOpen(ps: seq<Position>, c: EntryCandidate) { exists p :: p in ps && p.entry == c }

  /** The candidate was opened, or there is no room for it at the end. */
  ghost predicate Served(params: Params, c: EntryCandidate, equity: real, ps: seq<Position>, openedToday: nat) {
    || IsOpen(ps, c)
    || (params.maxNewPositionsPerDay.Some? && openedToday >= params.maxNewPositionsPerDay.value)
    || |ps| >= params.maxPositions
    || OpenNotional(ps) + c.Notional() > equity
  }

  lemma {:induction false} PutGrows(ps: seq<Position>, p: Position)
    requires p.entry.quantity > 0 && forall i :: 0 <= i < |ps| ==> ps[i].Symbol() != p.Symbol()
    ensures Put(ps, p) == ps + [p] && OpenNotional(Put(ps, p)) == OpenNotional(ps) + p.entry.Notional()
    decreases |ps|
  {
    if ps == [] {
      assert OpenNotional([p]) == p.entry.Notional() + OpenNotional([]);
    } else {
      PutGrows(ps[1..], p);
      assert Put(ps, p)[1..] == Put(ps[1..], p);
    }
  }

  /** Distinct symbols that the book does not hold, with a positive size. */
  ghost predicate Fresh(cs: seq<EntryCandidate>, ps: seq<Position>) {
    && DistinctBy(CandidateSymbol, cs)
    && (forall i :: 0 <= i < |cs| ==> cs[i].quantity > 0 && !Held(ps, cs[i].Symbol()))
  }

  lemma HeldWithOneMore(ps: seq<Position>, p: Position, s: Symbol)
    ensures Held(ps + [p], s) ==> Held(ps, s) || p.Symbol() == s
  {
    if Held(ps + [p], s) && p.Symbol() != s {
      var k :| 0 <= k < |ps + [p]| && (ps + [p])[k].Symbol() == s;
      assert ps[k].Symbol() == s;
    }
  }

  lemma FreshAfter(cs: seq<EntryCandidate>, ps: seq<Position>, p: Position)
    requires cs != [] && Fresh(cs, ps) && p.entry == cs[0]
    ensures Fresh(cs[1..], ps) && Fresh(cs[1..], ps + [p])
  {
    forall i | 0 <= i < |cs[1..]| ensures !Held(ps + [p], cs[1..][i].Symbol()) && !Held(ps, cs[1..][i].Symbol()) {
      assert CandidateSymbol(cs[0]) != CandidateSymbol(cs[i + 1]);
      HeldWithOneMore(ps, p, cs[i + 1].Symbol());
    }
    forall i, j | 0 <= i < j < |cs[1..]| ensures CandidateSymbol(cs[1..][i]) != CandidateSymbol(cs[1..][j]) {
      assert CandidateSymbol(cs[i + 1]) != CandidateSymbol(cs[j + 1]);
    }
  }

  /** Opening only adds to the notional of the book. */
  lemma {:induction false} NotionalGrows(env: Env, cs: seq<EntryCandidate>, equity: real, ps: seq<Position>,
                                         openedToday: nat)
    requires AllListed(env.prepared, cs) && Fresh(cs, ps)
    ensures OpenNotional(OpenAll(env, cs, equity, ps, openedToday).positions) >= OpenNotional(ps)
    decreases |cs|
  {
    if cs == [] || DayFull(env.params, ps, openedToday) {
    } else {
      var p := MakePosition(env, cs[0]);
      FreshAfter(cs, ps, p);
      if OpenNotional(ps) + cs[0].Notional() > equity {
        NotionalGrows(env, cs[1..], equity, ps, openedToday);
      } else {
        assert forall i :: 0 <= i < |ps| ==> ps[i].Symbol() != p.Symbol();
        PutGrows(ps, p);
        NotionalPositive(cs[0]);
        NotionalGrows(env, cs[1..], equity, Put(ps, p), openedToday + 1);
      }
    }
  }

  lemma {:induction false} AllServed(env: Env, cs: seq<EntryCandidate>, equity: real, ps: seq<Position>,
                                     openedToday: nat, i: nat)
    requires AllListed(env.prepared, cs) && Fresh(cs, ps) && i < |cs|
    ensures var r := OpenAll(env, cs, equity, ps, openedToday);
            Served(env.params, cs[i], equity, r.positions, openedToday + |r.openings|)
    decreases |cs|
  {
    if DayFull(env.params, ps, openedToday) {
    } else if OpenNotional(ps) + cs[0].Notional() > equity {
      FreshAfter(cs, ps, MakePosition(env, cs[0]));
      NotionalGrows(env, cs[1..], equity, ps, openedToday);
      if i > 0 {
        AllServed(env, cs[1..], equity, ps, openedToday, i - 1);
      }
    } else {
      var p := MakePosition(env, cs[0]);
      FreshAfter(cs, ps, p);
      assert forall k :: 0 <= k < |ps| ==> ps[k].Symbol() != p.Symbol();
      PutGrows(ps, p);
      if i > 0 {
        AllServed(env, cs[1..], equity, Put(ps, p), openedToday + 1, i - 1);
      } else {
        assert (ps + [p])[|ps|] == p;
        assert forall k :: 0 <= k < |cs[1..]| ==> !Held(ps + [p], cs[1..][k].Symbol());
        StaysOpen(env, cs[1..], equity, ps + [p], openedToday + 1, p);
      }
    }
  }

  lemma StaysOpen(env: Env, cs: seq<EntryCandidate>, equity: real, ps: seq<Position>, openedToday: nat, p: Position)
    requires AllListed(env.prepared, cs) && p in ps
    requires forall k :: 0 <= k < |cs| ==> !Held(ps, cs[k].Symbol())
    ensures IsOpen(OpenAll(env, cs, equity, ps, openedToday).positions, p.entry)
  {
    var k :| 0 <= k < |ps| && ps[k] == p;
    forall i | 0 <= i < |cs| ensures cs[i].Symbol() != p.Symbol() {
      assert !Held(ps, cs[i].Symbol());
    }
    OpenAllKeeps(env, cs, equity, ps, openedToday, p);
  }

  /** Of the candidates offered on a date, with distinct symbols, every one is opened unless the day has its
      number of new positions, the book its number of positions, or the candidate does not fit what the book
      leaves of the equity. */
  lemma {:induction false} DayIsGreedy(env: Env, d: Date, st: State, c: EntryCandidate)
    requires ValidEnv(env) && DistinctBy(CandidateSymbol, env.offer(d, st.equity, st.positions, st.rng).1)
    requires c in env.offer(d, st.equity, st.positions, st.rng).1
    ensures var next := EntryPhase(env, d, st);
            && |next.openings| >= |st.openings|
            && Served(env.params, c, st.equity, next.positions, |next.openings| - |st.openings|)
  {
    var cs := env.offer(d, st.equity, st.positions, st.rng).1;
    OfferListed(env, d, st.equity, st.positions, st.rng);
    forall i | 0 <= i < |cs| ensures cs[i].quantity > 0 && !Held(st.positions, cs[i].Symbol()) {
      assert cs[i] in cs;
    }
    var i :| 0 <= i < |cs| && cs[i] == c;
    AllServed(env, cs, st.equity, st.positions, 0, i);
  }
}
