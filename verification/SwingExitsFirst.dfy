/** Exits before entries: the exits of a date use its high, low and close, so what is opened at its open
    can depend on them, but only through the book and the equity that the exits leave. */
module SwingExitsFirst {
  import opened SwingTypes
  import opened SwingPools
  import opened SwingSchedule
  import opened SwingEngine
  import opened SwingDeadlines
  import opened SwingCausality

  // ---------------------------------------------------------------- entries extend the book

  /** The first n positions stay in place and the others were entered on date e. */
  ghost predicate Extends(ps: seq<Position>, n: nat, end: seq<Position>, e: Date) {
    && n <= |ps| && n <= |end| && end[..n] == ps[..n]
    && forall i :: n <= i < |end| ==> end[i].EntryDate() == e
  }

  ghost predicate FreeOf(ps: seq<Position>, n: nat, s: Symbol)
    requires n <= |ps|
  {
    forall i :: 0 <= i < n ==> ps[i].Symbol() != s
  }

  lemma {:induction false} PutExtends(ps: seq<Position>, n: nat, p: Position)
    requires Extends(ps, n, ps, p.EntryDate()) && FreeOf(ps, n, p.Symbol())
    ensures Extends(ps, n, Put(ps, p), p.EntryDate())
    decreases |ps|
  {
    if ps != [] && ps[0].Symbol() != p.Symbol() {
      var m := if n > 0 then n - 1 else 0;
      PutExtends(ps[1..], m, p);
      assert n > 0 ==> ps[..n] == [ps[0]] + ps[1..][..m];
    }
  }

  lemma {:induction false} OpenAllExtends(env: Env, cs: seq<EntryCandidate>, equity: real, ps: seq<Position>, n: nat,
                                          openedToday: nat, e: Date)
    requires AllListed(env.prepared, cs) && Extends(ps, n, ps, e)
    requires forall i :: 0 <= i < |cs| ==> cs[i].template.entryDate == e && FreeOf(ps, n, cs[i].Symbol())
    ensures Extends(ps, n, OpenAll(env, cs, equity, ps, openedToday).positions, e)
    decreases |cs|
  {
    if cs == [] || DayFull(env.params, ps, openedToday) {
    } else if OpenNotional(ps) + cs[0].Notional() > equity {
      OpenAllExtends(env, cs[1..], equity, ps, n, openedToday, e);
    } else {
      var next := Put(ps, MakePosition(env, cs[0]));
      PutExtends(ps, n, MakePosition(env, cs[0]));
      assert forall i :: 0 <= i < n ==> next[i] == next[..n][i] == ps[..n][i] == ps[i];
      OpenAllExtends(env, cs[1..], equity, next, n, openedToday + 1, e);
    }
  }

  lemma {:induction false} EntriesExtend(env: Env, e: Date, st: State)
    requires ValidEnv(env)
    ensures Extends(st.positions, |st.positions|, EntryPhase(env, e, st).positions, e)
  {
    var cs := env.offer(e, st.equity, st.positions, st.rng).1;
    OfferListed(env, e, st.equity, st.positions, st.rng);
    forall i | 0 <= i < |cs|
      ensures cs[i].template.entryDate == e && FreeOf(st.positions, |st.positions|, cs[i].Symbol())
    {
      assert cs[i] in cs && !Held(st.positions, cs[i].Symbol());
    }
    OpenAllExtends(env, cs, st.equity, st.positions, |st.positions|, 0, e);
  }

  lemma EarlierPart(ps: seq<Position>, ps': seq<Position>, end: seq<Position>, e: Date)
    requires Extends(ps, |ps|, end, e) && Extends(ps', |ps'|, end, e)
    requires forall i :: 0 <= i < |ps| ==> ps[i].EntryDate() < e
    requires forall i :: 0 <= i < |ps'| ==> ps'[i].EntryDate() < e
    ensures ps == ps'
  {
    assert ps == end[..|ps|] && ps' == end[..|ps'|];
    assert forall i :: 0 <= i < |end| ==> (i < |ps| <==> end[i].EntryDate() < e);
    assert forall i :: 0 <= i < |end| ==> (i < |ps'| <==> end[i].EntryDate() < e);
    assert (|ps| < |end| ==> end[|ps|].EntryDate() == e) && (|ps'| < |end| ==> end[|ps'|].EntryDate() == e);
  }

  // ---------------------------------------------------------------- what the entries depend on

  ghost predicate SameBook(st: State, st': State) {
    st.equity == st'.equity && st.positions == st'.positions && st.rng == st'.rng
  }

  lemma EntriesOfSameBook(env: Env, e: Date, st: State, st': State)
    requires ValidEnv(env) && SameBook(st, st') && st.openings == st'.openings
    ensures SameBook(EntryPhase(env, e, st), EntryPhase(env, e, st'))
    ensures EntryPhase(env, e, st).openings == EntryPhase(env, e, st').openings
  {
    OfferListed(env, e, st.equity, st.positions, st.rng);
  }

  lemma {:induction false} EnteredBefore(env: Env, cal: seq<Date>, run: seq<State>, k: nat)
    requires ValidEnv(env) && IsCalendar(env.prepared, cal) && IsRun(env, cal, run) && k < |cal|
    ensures var left := ExitPhase(env, cal[k], run[k]).positions;
            forall i :: 0 <= i < |left| ==> left[i].EntryDate() < cal[k]
  {
    var left := ExitPhase(env, cal[k], run[k]).positions;
    SurvivorsMember(Today(env.prepared, cal[k]), run[k].positions, env.params, env.stress);
    forall i | 0 <= i < |left| ensures left[i].EntryDate() < cal[k] {
      assert left[i] in left;
      if k > 0 {
        RunInTime(env, cal, run, k);
        assert PositionInTime(env, left[i], cal[k - 1]);
      }
    }
  }

  /** With equal rows before the k-th date and equal opening prices on it, the two runs hold the same after
      it exactly when its exits leave the same positions and equity; and then its openings are the same. */
  lemma {:induction false} EntriesAgreeIffExitsDo(data: seq<Series>, data': seq<Series>, options: Options,
                                                  stress: ExecutionStress, seed: int, cal: seq<Date>, cal': seq<Date>,
                                                  run: seq<State>, run': seq<State>, k: nat)
    requires IsRunOn(data, options, stress, seed, cal, run) && IsRunOn(data', options, stress, seed, cal', run')
    requires k < |cal| && Agree(data, data', AtOpen(cal[k])) && stress.exitBeforeEntryAtOpen
    requires forall e :: e <= cal[k] ==> SameScheduleOn(data, data', options, seed, e)
    ensures cal == cal'
    ensures var mid := ExitPhase(EnvOn(data, options, stress, seed), cal[k], run[k]);
            var mid' := ExitPhase(EnvOn(data', options, stress, seed), cal[k], run'[k]);
            && (SameBook(run[k + 1], run'[k + 1]) <==>
                  mid.positions == mid'.positions && mid.equity == mid'.equity)
            && (SameBook(mid, mid') ==> run[k + 1].openings == run'[k + 1].openings)
  {
    var env, env' := EnvOn(data, options, stress, seed), EnvOn(data', options, stress, seed);
    SameUntilOpen(data, data', options, stress, seed, cal, cal', run, run', k);
    var mid, mid' := ExitPhase(env, cal[k], run[k]), ExitPhase(env', cal[k], run'[k]);
    assert StepAt(env, cal, run, k) && StepAt(env', cal, run', k);
    EntriesSeeOnlyTheOpen(env, env', AtOpen(cal[k]), cal[k], mid);
    if SameBook(mid, mid') {
      EntriesOfSameBook(env', cal[k], mid, mid');
    }
    if SameBook(run[k + 1], run'[k + 1]) {
      EntriesExtend(env, cal[k], mid);
      EntriesExtend(env', cal[k], mid');
      EnteredBefore(env, cal, run, k);
      EnteredBefore(env', cal, run', k);
      EarlierPart(mid.positions, mid'.positions, run[k + 1].positions, cal[k]);
    }
  }
}
