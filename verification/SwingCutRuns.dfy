/** A run on data that end at a date against the run on the full data. The two keep the same as long as
    the windows of the open positions end inside the data; otherwise the full run holds a position that
    the shorter one closed, or holds with an earlier deadline. */
module SwingCutRuns {
  import opened Prelude
  import opened Sorting
  import opened SwingTypes
  import opened SwingIndicators
  import opened SwingPools
  import opened SwingEntries
  import opened SwingSchedule
  import opened SwingEngine
  import opened SwingProgram
  import opened SwingRisk
  import opened SwingDeadlines
  import opened SwingCausality
  import opened SwingCutoff

  // ---------------------------------------------------------------- what the program keeps

  /** A trade as the program records it: without the deadline, stop and target of its position. */
  function Recorded(t: Trade): Trade {
    var c := t.position.entry;
    t.(position := Position(c.(template := c.template.(stopPrice := 0.0, targetPrice := 0.0)), 0))
  }

  ghost predicate SameRecords(ts: seq<Trade>, ts': seq<Trade>) {
    |ts| == |ts'| && forall i :: 0 <= i < |ts| ==> Recorded(ts[i]) == Recorded(ts'[i])
  }

  /** Two states agree in everything that the program keeps: equity, generator, open positions with
      their deadlines, and recorded trades. */
  ghost predicate SameKept(st: State, st': State) {
    st'.equity == st.equity && st'.rng == st.rng && st'.positions == st.positions && SameRecords(st'.trades, st.trades)
  }

  /** The position was entered on a date of the part and its window fits the part. */
  ghost predicate PositionFits(env: Env, env': Env, p: Position) {
    && Listed(env'.prepared, p.Symbol(), p.EntryDate()) && Listed(env.prepared, p.Symbol(), p.EntryDate())
    && WindowFits(env'.prepared, env.prepared, env.params, p.entry)
  }

  ghost predicate OpenFit(env: Env, env': Env, ps: seq<Position>) {
    forall p :: p in ps ==> PositionFits(env, env', p)
  }

  /** A price closed the trade, not the deadline. */
  predicate ByPrice(t: Trade) { t.reason != MaxHold && t.reason != FixedHoldExit }

  // ---------------------------------------------------------------- sources that look at symbols only

  ghost predicate SameHeld(ps: seq<Position>, ps': seq<Position>) {
    forall s :: Held(ps, s) <==> Held(ps', s)
  }

  /** The source uses the open positions only through their symbols. */
  ghost predicate SeesSymbolsOnly(env: Env) {
    forall d, equity, ps, ps', rng ::
      SameHeld(ps, ps') ==> env.offer(d, equity, ps, rng) == env.offer(d, equity, ps', rng)
  }

  lemma {:induction false} ScheduledSeesSymbols(pool: seq<Template>, counts: map<Symbol, nat>, equity: real,
                                                ps: seq<Position>, ps': seq<Position>, params: Params)
    requires SameHeld(ps, ps')
    ensures ScheduledFromPool(pool, counts, equity, ps, params) == ScheduledFromPool(pool, counts, equity, ps', params)
    decreases |pool|
  {
    if pool == [] {
    } else {
      ScheduledSeesSymbols(pool[1..], counts, equity, ps, ps', params);
      ScheduledSeesSymbols(pool[1..], counts[pool[0].symbol := 0], equity, ps, ps', params);
    }
  }

  lemma PoolsSeeSymbols(pool: seq<Template>, equity: real, ps: seq<Position>, ps': seq<Position>, params: Params)
    requires SameHeld(ps, ps')
    ensures SignalCandidatesFromPool(pool, equity, ps, params) == SignalCandidatesFromPool(pool, equity, ps', params)
    ensures UniverseCandidatesFromPool(pool, equity, ps, params)
         == UniverseCandidatesFromPool(pool, equity, ps', params)
  {
    FilterMapCongruence(IfNotHeld(ps), IfNotHeld(ps'), pool, pool);
    FilterMapCongruence(MaterializeFree(equity, ps, params), MaterializeFree(equity, ps', params), pool, pool);
  }

  lemma {:induction false} EntriesSeeSymbols(c: Config, d: Date, equity: real, ps: seq<Position>, ps': seq<Position>,
                                             rng: int)
    requires SameHeld(ps, ps')
    ensures EntriesOn(c, d, equity, ps, rng) == EntriesOn(c, d, equity, ps', rng)
  {
    PoolsSeeSymbols(SignalPool(c.prepared, c.params, d), equity, ps, ps', c.params);
    PoolsSeeSymbols(TradablePool(c.prepared, c.params, d), equity, ps, ps', c.params);
    ScheduledSeesSymbols(TradablePool(c.prepared, c.params, d), Counter(Scheduled(c, d)), equity, ps, ps', c.params);
  }

  /** The program's source is one, for every baseline kind and selection order. */
  lemma {:induction false} ProgramSeesSymbolsOnly(c: Config, stress: ExecutionStress, seed: int)
    ensures SeesSymbolsOnly(ProgramEnv(c, stress, seed))
  {
    var env := ProgramEnv(c, stress, seed);
    forall d, equity, ps, ps', rng | SameHeld(ps, ps')
      ensures env.offer(d, equity, ps, rng) == env.offer(d, equity, ps', rng)
    {
      EntriesSeeSymbols(c, d, equity, ps, ps', rng);
    }
  }

  // ---------------------------------------------------------------- the two books

  ghost predicate AllMade(env: Env, ps: seq<Position>) {
    forall i :: 0 <= i < |ps| ==> Made(env, ps[i])
  }

  ghost predicate SameEntries(ps: seq<Position>, ps': seq<Position>) {
    |ps| == |ps'| && forall i :: 0 <= i < |ps| ==> ps[i].entry == ps'[i].entry
  }

  /** The same entries in the same order, each with the deadline of its own run. */
  ghost predicate TwinBooks(env: Env, env': Env, ps: seq<Position>, ps': seq<Position>) {
    SameEntries(ps, ps') && AllMade(env, ps) && AllMade(env', ps')
  }

  lemma EntriesHeld(ps: seq<Position>, ps': seq<Position>)
    requires SameEntries(ps, ps')
    ensures SameHeld(ps, ps')
  {
    forall s ensures Held(ps, s) <==> Held(ps', s) {
      if Held(ps, s) {
        var i :| 0 <= i < |ps| && ps[i].Symbol() == s;
        assert ps'[i].Symbol() == s;
      }
      if Held(ps', s) {
        var i :| 0 <= i < |ps'| && ps'[i].Symbol() == s;
        assert ps[i].Symbol() == s;
      }
    }
  }

  lemma {:induction false} NotionalOfEntries(ps: seq<Position>, ps': seq<Position>)
    requires SameEntries(ps, ps')
    ensures OpenNotional(ps) == OpenNotional(ps')
    decreases |ps|
  {
    if ps == [] {
    } else {
      NotionalOfEntries(ps[1..], ps'[1..]);
    }
  }

  lemma {:induction false} PutEntries(ps: seq<Position>, ps': seq<Position>, p: Position, p': Position)
    requires SameEntries(ps, ps') && p.entry == p'.entry
    ensures SameEntries(Put(ps, p), Put(ps', p'))
    decreases |ps|
  {
    if ps == [] {
    } else {
      PutEntries(ps[1..], ps'[1..], p, p');
    }
  }

  lemma {:induction false} PutMade(env: Env, ps: seq<Position>, p: Position)
    requires AllMade(env, ps) && Made(env, p)
    ensures AllMade(env, Put(ps, p))
  {
    PutMember(ps, p);
    forall i | 0 <= i < |Put(ps, p)| ensures Made(env, Put(ps, p)[i]) {
      assert Put(ps, p)[i] in Put(ps, p);
    }
  }

  lemma {:induction false} OpenAllTwins(env: Env, env': Env, cs: seq<EntryCandidate>, equity: real, ps: seq<Position>,
                                        ps': seq<Position>, openedToday: nat)
    requires env'.params == env.params && AllListed(env.prepared, cs) && AllListed(env'.prepared, cs)
    requires TwinBooks(env, env', ps, ps')
    ensures TwinBooks(env, env', OpenAll(env, cs, equity, ps, openedToday).positions,
                      OpenAll(env', cs, equity, ps', openedToday).positions)
    decreases |cs|
  {
    NotionalOfEntries(ps, ps');
    if cs == [] || DayFull(env.params, ps, openedToday) {
    } else if OpenNotional(ps) + cs[0].Notional() > equity {
      OpenAllTwins(env, env', cs[1..], equity, ps, ps', openedToday);
    } else {
      var p, p' := MakePosition(env, cs[0]), MakePosition(env', cs[0]);
      PutEntries(ps, ps', p, p');
      PutMade(env, ps, p);
      PutMade(env', ps', p');
      OpenAllTwins(env, env', cs[1..], equity, Put(ps, p), Put(ps', p'), openedToday + 1);
    }
  }

  /** Equal equity, generator and records, and twin books. */
  ghost predicate InStep(env: Env, env': Env, st: State, st': State) {
    && st'.equity == st.equity && st'.rng == st.rng && SameRecords(st'.trades, st.trades)
    && TwinBooks(env, env', st.positions, st'.positions)
  }

  lemma {:induction false} EntriesInStep(env: Env, env': Env, last: Date, e: Date, st: State, st': State)
    requires SamePrograms(env, env', last) && SeesSymbolsOnly(env) && e <= last && InStep(env, env', st, st')
    ensures InStep(env, env', EntryPhase(env, e, st), EntryPhase(env', e, st'))
  {
    assert OffersAgree(env, env', e);
    EntriesHeld(st.positions, st'.positions);
    var offered := env.offer(e, st.equity, st.positions, st.rng);
    assert env.offer(e, st.equity, st'.positions, st.rng) == offered;
    assert env'.offer(e, st.equity, st'.positions, st.rng) == offered;
    OfferListed(env, e, st.equity, st.positions, st.rng);
    OfferListed(env', e, st.equity, st'.positions, st.rng);
    OpenAllTwins(env, env', offered.1, st.equity, st.positions, st'.positions, 0);
  }

  // ---------------------------------------------------------------- exits of the two books

  /** Both versions of a position stay, or both leave with the same record. */
  ghost predicate SameExit(t: Option<Trade>, t': Option<Trade>) {
    if t.None? then t'.None? else t'.Some? && Recorded(t'.value) == Recorded(t.value)
  }

  ghost predicate SameExitOn(env: Env, e: Date, p: Position, p': Position) {
    var today := Today(env.prepared, e);
    SameExit(ExitToday(today, p, env.params, env.stress), ExitToday(today, p', env.params, env.stress))
  }

  /** The window of the position does not fit and its symbol has no more bars after date e in the part. */
  ghost predicate Stuck(env: Env, env': Env, e: Date, p: Position) {
    && Listed(env'.prepared, p.Symbol(), p.EntryDate()) && Listed(env.prepared, p.Symbol(), p.EntryDate())
    && !WindowFits(env'.prepared, env.prepared, env.params, p.entry)
    && forall x :: x in DatesOf(env', p.Symbol()) ==> x <= e
  }

  lemma CloseTwins(p: Position, p': Position, exitDate: Date, exitPrice: real, reason: ExitReason, params: Params)
    requires p.entry == p'.entry
    ensures CloseTrade(p', exitDate, exitPrice, reason, params)
         == CloseTrade(p, exitDate, exitPrice, reason, params).(position := p')
  {
  }

  /** The price and the reason at which a bar closes a position of this template, deadlines apart. */
  function PriceExit(t: Template, bar: Bar, stress: ExecutionStress): Option<(real, ExitReason)> {
    if bar.open <= t.stopPrice then
      if stress.limitDownUnfillable && bar.open <= t.entryPrice * (1.0 - stress.limitDownThresholdPct)
      then Some((MinReal(bar.open, bar.close), LimitDownUnfillableGapStop))
      else Some((bar.open * (1.0 - stress.gapStopAdditionalSlippageRate), GapStop))
    else if bar.low <= t.stopPrice then Some((t.stopPrice, Stop))
    else if bar.high >= t.targetPrice then Some((t.targetPrice, Target))
    else None
  }

  lemma ExitsByPrice(p: Position, bar: Bar, params: Params, stress: ExecutionStress)
    requires params.exitMode.TargetStopMaxHold?
    ensures var terms := PriceExit(p.entry.template, bar, stress);
            && (terms.Some? ==>
                  ExitOnBar(p, bar, params, stress)
                    == Some(CloseTrade(p, bar.date, terms.value.0, terms.value.1, params)))
            && (terms.None? && bar.date < p.maxExitDate ==> ExitOnBar(p, bar, params, stress).None?)
  {
  }

  /** Before its deadline a position leaves by price only, and so would any version of it. */
  lemma {:induction false} ExitBeforeDeadline(p: Position, p': Position, bar: Bar, params: Params,
                                              stress: ExecutionStress)
    requires p.entry == p'.entry && bar.date < p.maxExitDate
    ensures var r, r' := ExitOnBar(p, bar, params, stress), ExitOnBar(p', bar, params, stress);
            && (r.Some? ==> r' == Some(r.value.(position := p')) && r.value.position == p && ByPrice(r.value))
            && (r.None? && bar.date < p'.maxExitDate ==> r'.None?)
  {
    if params.exitMode.TargetStopMaxHold? {
      ExitsByPrice(p, bar, params, stress);
      ExitsByPrice(p', bar, params, stress);
      if terms :| PriceExit(p.entry.template, bar, stress) == Some(terms) {
        CloseTwins(p, p', bar.date, terms.0, terms.1, params);
      }
    }
  }

  lemma RecordHasNoDeadline(t: Trade, p: Position)
    requires p.entry == t.position.entry
    ensures Recorded(t.(position := p)) == Recorded(t)
  {
  }

  /** The deadline of a window that reaches past a prefix of the dates, on both sides. */
  lemma ClampedDate(all: seq<Date>, m: nat, d: Date, n: nat)
    requires StrictlyIncreasing(all) && m < |all| && d in all[..m] && d in all && IndexOf(all, d) + n >= m
    requires IndexOf(all[..m], d) == IndexOf(all, d)
    ensures NthDate(all, d, n) !in all[..m]
    ensures forall x :: x in all[..m] ==> x <= NthDate(all[..m], d, n)
  {
  }

  /** If the window does not fit, the deadline of the whole lies behind the part and that of the part
      is the symbol's last date. */
  lemma {:induction false} ClampedDeadline(env: Env, env': Env, last: Date, p: Position, p': Position)
    requires ValidPrepared(env.prepared) && UpTo(env'.prepared, env.prepared, last) && env'.params == env.params
    requires Made(env, p) && Made(env', p') && p.entry == p'.entry
    requires !WindowFits(env'.prepared, env.prepared, env.params, p.entry)
    ensures p.maxExitDate > last && forall x :: x in DatesOf(env', p.Symbol()) ==> x <= p'.maxExitDate
  {
    SeriesOfUpTo(env'.prepared, env.prepared, last, p.Symbol());
    var part, all := SeriesOf(env'.prepared, p.Symbol()).value, SeriesOf(env.prepared, p.Symbol()).value;
    DatesUpTo(part, all, last);
    var i :| 0 <= i < |env.prepared| && env.prepared[i] == all;
    assert ValidSeries(env.prepared[i]);
    IndexInPart(Dates(all), |part.bars|, p.EntryDate());
    ClampedDate(Dates(all), |part.bars|, p.EntryDate(), env.params.maxHoldDays);
  }

  lemma {:induction false} ExitOfTwins(env: Env, env': Env, last: Date, e: Date, p: Position, p': Position)
    requires SamePrograms(env, env', last) && e <= last && Made(env, p) && Made(env', p') && p.entry == p'.entry
    ensures SameExitOn(env, e, p, p') ||
              (ExitToday(Today(env.prepared, e), p, env.params, env.stress).None? && Stuck(env, env', e, p))
  {
    DeadlineFits(env, env', last, p.entry);
    if !WindowFits(env'.prepared, env.prepared, env.params, p.entry) {
      ClampedDeadline(env, env', last, p, p');
      var bar := BarOfSymbol(Today(env.prepared, e), p.Symbol());
      BarTodayIsListed(env.prepared, e, p.Symbol());
      if bar.Some? {
        ExitBeforeDeadline(p, p', bar.value, env.params, env.stress);
        if r :| ExitOnBar(p, bar.value, env.params, env.stress) == Some(r) {
          RecordHasNoDeadline(r, p');
        }
      }
    }
  }

  lemma {:induction false} PnlOfRecords(ts: seq<Trade>, ts': seq<Trade>)
    requires SameRecords(ts, ts')
    ensures NetPnl(ts) == NetPnl(ts')
    decreases |ts|
  {
    if ts == [] {
    } else {
      var n := |ts| - 1;
      PnlOfRecords(ts[..n], ts'[..n]);
      assert Recorded(ts[n]) == Recorded(ts'[n]);
    }
  }

  /** Exits that agree pair by pair leave the same entries and the same records. */
  lemma {:induction false} ExitsAgree(today: seq<Bar>, params: Params, stress: ExecutionStress, ps: seq<Position>,
                                      ps': seq<Position>)
    requires SameEntries(ps, ps')
    requires forall i :: 0 <= i < |ps| ==>
               SameExit(ExitToday(today, ps[i], params, stress), ExitToday(today, ps'[i], params, stress))
    ensures SameEntries(Survivors(today, ps, params, stress), Survivors(today, ps', params, stress))
    ensures SameRecords(Closed(today, ps', params, stress), Closed(today, ps, params, stress))
    decreases |ps|
  {
    if ps == [] {
    } else {
      ExitsAgree(today, params, stress, ps[1..], ps'[1..]);
      assert SameExit(ExitToday(today, ps[0], params, stress), ExitToday(today, ps'[0], params, stress));
    }
  }

  lemma SurvivorsMade(env: Env, today: seq<Bar>, ps: seq<Position>)
    requires AllMade(env, ps)
    ensures AllMade(env, Survivors(today, ps, env.params, env.stress))
  {
    SurvivorsMember(today, ps, env.params, env.stress);
    var left := Survivors(today, ps, env.params, env.stress);
    forall i | 0 <= i < |left| ensures Made(env, left[i]) {
      assert left[i] in left;
    }
  }

  /** The full run holds a stuck position; it will hold it as long as the part lasts. */
  ghost predicate LeftBehind(env: Env, env': Env, e: Date, st: State) {
    exists p :: p in st.positions && Stuck(env, env', e, p)
  }

  lemma ExitsOfTwins(env: Env, env': Env, e: Date, st: State, st': State)
    requires env'.params == env.params && env'.stress == env.stress && InStep(env, env', st, st')
    requires Today(env'.prepared, e) == Today(env.prepared, e)
    requires forall i :: 0 <= i < |st.positions| ==> SameExitOn(env, e, st.positions[i], st'.positions[i])
    ensures InStep(env, env', ExitPhase(env, e, st), ExitPhase(env', e, st'))
  {
    var today, ps, ps' := Today(env.prepared, e), st.positions, st'.positions;
    forall i | 0 <= i < |ps|
      ensures SameExit(ExitToday(today, ps[i], env.params, env.stress),
                       ExitToday(today, ps'[i], env.params, env.stress))
    {
      assert SameExitOn(env, e, ps[i], ps'[i]);
    }
    ExitsAgree(today, env.params, env.stress, ps, ps');
    PnlOfRecords(Closed(today, ps', env.params, env.stress), Closed(today, ps, env.params, env.stress));
    SurvivorsMade(env, today, ps);
    SurvivorsMade(env', today, ps');
  }

  lemma StuckStays(env: Env, env': Env, e: Date, st: State, p: Position)
    requires p in st.positions && Stuck(env, env', e, p)
    requires ExitToday(Today(env.prepared, e), p, env.params, env.stress).None?
    ensures LeftBehind(env, env', e, ExitPhase(env, e, st))
  {
    SurvivorsMember(Today(env.prepared, e), st.positions, env.params, env.stress);
    assert p in ExitPhase(env, e, st).positions;
  }

  lemma {:induction false} ExitsInStep(env: Env, env': Env, last: Date, e: Date, st: State, st': State)
    requires SamePrograms(env, env', last) && e <= last && InStep(env, env', st, st')
    ensures InStep(env, env', ExitPhase(env, e, st), ExitPhase(env', e, st'))
         || LeftBehind(env, env', e, ExitPhase(env, e, st))
  {
    var ps, ps' := st.positions, st'.positions;
    if i :| 0 <= i < |ps| && !SameExitOn(env, e, ps[i], ps'[i]) {
      ExitOfTwins(env, env', last, e, ps[i], ps'[i]);
      StuckStays(env, env', e, st, ps[i]);
    } else {
      TodayUpTo(env'.prepared, env.prepared, last, e);
      ExitsOfTwins(env, env', e, st, st');
    }
  }

  // ---------------------------------------------------------------- positions that are left behind

  /** Entries never touch a held symbol. */
  lemma {:induction false} EntriesLeaveBehind(env: Env, env': Env, e0: Date, e: Date, st: State)
    requires ValidEnv(env) && LeftBehind(env, env', e0, st)
    ensures LeftBehind(env, env', e0, EntryPhase(env, e, st))
  {
    var p :| p in st.positions && Stuck(env, env', e0, p);
    var cs := env.offer(e, st.equity, st.positions, st.rng).1;
    var k :| 0 <= k < |st.positions| && st.positions[k] == p;
    OfferListed(env, e, st.equity, st.positions, st.rng);
    forall i | 0 <= i < |cs| ensures cs[i].Symbol() != p.Symbol() {
      assert cs[i] in cs && !Held(st.positions, cs[i].Symbol());
    }
    OpenAllKeeps(env, cs, st.equity, st.positions, 0, p);
  }

  /** A stuck symbol has no bar on the dates that are left, so its position stays. */
  lemma {:induction false} NoBarLeft(env: Env, env': Env, last: Date, e0: Date, e: Date, p: Position)
    requires SamePrograms(env, env', last) && e0 < e <= last && Stuck(env, env', e0, p)
    ensures Stuck(env, env', e, p) && ExitToday(Today(env.prepared, e), p, env.params, env.stress).None?
  {
    SeriesOfUpTo(env'.prepared, env.prepared, last, p.Symbol());
    DatesUpTo(SeriesOf(env'.prepared, p.Symbol()).value, SeriesOf(env.prepared, p.Symbol()).value, last);
    assert e !in DatesOf(env', p.Symbol());
    UnlistedStays(env, e, p);
  }

  lemma UnlistedStays(env: Env, e: Date, p: Position)
    requires ValidPrepared(env.prepared) && !Listed(env.prepared, p.Symbol(), e)
    ensures ExitToday(Today(env.prepared, e), p, env.params, env.stress).None?
  {
    BarTodayIsListed(env.prepared, e, p.Symbol());
  }

  lemma {:induction false} ExitsLeaveBehind(env: Env, env': Env, last: Date, e0: Date, e: Date, st: State)
    requires SamePrograms(env, env', last) && e0 < e <= last && LeftBehind(env, env', e0, st)
    ensures LeftBehind(env, env', e, ExitPhase(env, e, st))
  {
    var p :| p in st.positions && Stuck(env, env', e0, p);
    NoBarLeft(env, env', last, e0, e, p);
    StuckStays(env, env', e, st, p);
  }

  // ---------------------------------------------------------------- the run

  lemma {:induction false} StepKeepsPace(env: Env, env': Env, last: Date, e: Date, st: State, st': State)
    requires SamePrograms(env, env', last) && SeesSymbolsOnly(env) && e <= last && InStep(env, env', st, st')
    ensures InStep(env, env', StepDay(env, e, st), StepDay(env', e, st'))
         || LeftBehind(env, env', e, StepDay(env, e, st))
  {
    if env.stress.exitBeforeEntryAtOpen {
      ExitsInStep(env, env', last, e, st, st');
      var mid, mid' := ExitPhase(env, e, st), ExitPhase(env', e, st');
      if InStep(env, env', mid, mid') {
        EntriesInStep(env, env', last, e, mid, mid');
      } else {
        EntriesLeaveBehind(env, env', e, e, mid);
      }
    } else {
      EntriesInStep(env, env', last, e, st, st');
      ExitsInStep(env, env', last, e, EntryPhase(env, e, st), EntryPhase(env', e, st'));
    }
  }

  lemma {:induction false} StepLeavesBehind(env: Env, env': Env, last: Date, e0: Date, e: Date, st: State)
    requires SamePrograms(env, env', last) && e0 < e <= last && LeftBehind(env, env', e0, st)
    ensures LeftBehind(env, env', e, StepDay(env, e, st))
  {
    if env.stress.exitBeforeEntryAtOpen {
      ExitsLeaveBehind(env, env', last, e0, e, st);
      EntriesLeaveBehind(env, env', e, e, ExitPhase(env, e, st));
    } else {
      EntriesLeaveBehind(env, env', e0, e, st);
      ExitsLeaveBehind(env, env', last, e0, e, EntryPhase(env, e, st));
    }
  }

  /** After every date that remains the two runs are in step, or the full one has a stuck position. */
  lemma {:induction false} RunKeepsPace(env: Env, env': Env, last: Date, cal: seq<Date>, run: seq<State>, n: nat,
                                        run': seq<State>, k: nat)
    requires SamePrograms(env, env', last) && SeesSymbolsOnly(env) && StrictlyIncreasing(cal)
    requires n <= |cal| && IsRun(env, cal, run) && IsRun(env', cal[..n], run')
    requires k <= n && forall j :: 0 <= j < k ==> cal[j] <= last
    ensures InStep(env, env', run[k], run'[k]) || (k > 0 && LeftBehind(env, env', cal[k - 1], run[k]))
    decreases k
  {
    if k == 0 {
    } else {
      RunKeepsPace(env, env', last, cal, run, n, run', k - 1);
      assert StepAt(env, cal, run, k - 1) && StepAt(env', cal[..n], run', k - 1);
      if InStep(env, env', run[k - 1], run'[k - 1]) {
        StepKeepsPace(env, env', last, cal[k - 1], run[k - 1], run'[k - 1]);
      } else {
        StepLeavesBehind(env, env', last, cal[k - 2], cal[k - 1], run[k - 1]);
      }
    }
  }

  lemma {:induction false} FittingTwins(env: Env, env': Env, last: Date, ps: seq<Position>, ps': seq<Position>)
    requires SamePrograms(env, env', last) && TwinBooks(env, env', ps, ps') && OpenFit(env, env', ps)
    ensures ps == ps'
  {
    forall i | 0 <= i < |ps| ensures ps[i] == ps'[i] {
      assert ps[i] in ps && PositionFits(env, env', ps[i]) && Made(env, ps[i]) && Made(env', ps'[i]);
      DeadlineFits(env, env', last, ps[i].entry);
    }
  }

  lemma {:induction false} OpenAreMade(env: Env, cal: seq<Date>, run: seq<State>, k: nat, p: Position)
    requires ValidEnv(env) && IsCalendar(env.prepared, cal) && IsRun(env, cal, run)
    requires k < |run| && p in run[k].positions
    ensures Made(env, p)
  {
    if k > 0 {
      RunInTime(env, cal, run, k);
    }
  }

  /** On data cut after a date the program keeps the same through the k-th date as on the full data
      exactly when every position that the full run still holds has its window inside the cut data. */
  lemma {:induction false} CutRunKeepsIffOpenFit(env: Env, env': Env, last: Date, cal: seq<Date>, run: seq<State>,
                                                 n: nat, run': seq<State>, k: nat)
    requires SamePrograms(env, env', last) && SeesSymbolsOnly(env)
    requires n <= |cal| && IsCalendar(env.prepared, cal) && IsCalendar(env'.prepared, cal[..n])
    requires IsRun(env, cal, run) && IsRun(env', cal[..n], run')
    requires k <= n && forall j :: 0 <= j < k ==> cal[j] <= last
    ensures SameKept(run[k], run'[k]) <==> OpenFit(env, env', run[k].positions)
  {
    if OpenFit(env, env', run[k].positions) {
      RunKeepsPace(env, env', last, cal, run, n, run', k);
      FittingTwins(env, env', last, run[k].positions, run'[k].positions);
    }
    if SameKept(run[k], run'[k]) {
      forall p | p in run[k].positions ensures PositionFits(env, env', p) {
        OpenAreMade(env, cal, run, k, p);
        OpenAreMade(env', cal[..n], run', k, p);
        SeriesOfUpTo(env'.prepared, env.prepared, last, p.Symbol());
        DeadlineFits(env, env', last, p.entry);
      }
    }
  }

  /** A position that closed by then although its window does not fit was closed by a price. */
  lemma {:induction false} UnfitClosedByPrice(env: Env, env': Env, last: Date, cal: seq<Date>, run: seq<State>, k: nat,
                                              t: Trade)
    requires SamePrograms(env, env', last) && IsCalendar(env.prepared, cal) && IsRun(env, cal, run)
    requires k < |run| && (forall j :: 0 <= j < k ==> cal[j] <= last) && t in run[k].trades
    ensures PositionFits(env, env', t.position) || ByPrice(t)
  {
    RunInTime(env, cal, run, k);
    RunGenuine(env, cal, run, k);
    var p := t.position;
    assert TradeInTime(env, t, cal[k - 1]) && Genuine(env, t);
    SeriesOfUpTo(env'.prepared, env.prepared, last, p.Symbol());
    DatesUpTo(SeriesOf(env'.prepared, p.Symbol()).value, SeriesOf(env.prepared, p.Symbol()).value, last);
    if !WindowFits(env'.prepared, env.prepared, env.params, p.entry) {
      ClampedDeadline(env, env', last, p, MakePosition(env', p.entry));
      ExitBeforeDeadline(p, p, BarOn(SeriesOf(env.prepared, p.Symbol()).value, t.exitDate).value, env.params,
                         env.stress);
    }
  }

  // ---------------------------------------------------------------- the program on cut data

  /** The backtest of the data cut after a date runs over the first dates of the full one. It keeps the
      same equity, open positions, records and generator after k of them exactly when every position that
      the full run then holds has its holding window inside the cut data. One that closed although its
      window does not fit was closed by a price. */
  lemma {:induction false} CutDataRun(part: seq<Series>, all: seq<Series>, last: Date, options: Options,
                                      stress: ExecutionStress, seed: int, cal: seq<Date>, run: seq<State>,
                                      cal': seq<Date>, run': seq<State>, k: nat)
    requires IsRunOn(all, options, stress, seed, cal, run) && IsRunOn(part, options, stress, seed, cal', run')
    requires DataUpTo(part, all, last) && k < |run'|
    requires forall e :: e <= last ==> SameScheduleOn(all, part, options, seed, e)
    ensures |cal'| <= |cal| && cal' == cal[..|cal'|]
    ensures var env, env' := EnvOn(all, options, stress, seed), EnvOn(part, options, stress, seed);
            && (SameKept(run[k], run'[k]) <==> OpenFit(env, env', run[k].positions))
            && (forall t :: t in run[k].trades && !PositionFits(env, env', t.position) ==> ByPrice(t))
  {
    var env, env' := EnvOn(all, options, stress, seed), EnvOn(part, options, stress, seed);
    var n := Remaining(cal, last);
    PrepareUpTo(part, all, last, options.params);
    CalendarUpTo(Prepare(part, options.params), Prepare(all, options.params), last, cal, n);
    AscendingUnique(cal', cal[..n]);
    ProgramsUpTo(part, all, last, options, stress, seed);
    ProgramSeesSymbolsOnly(ConfigOn(all, options, seed), stress, seed);
    CutRunKeepsIffOpenFit(env, env', last, cal, run, n, run', k);
    forall t | t in run[k].trades && !PositionFits(env, env', t.position) ensures ByPrice(t) {
      UnfitClosedByPrice(env, env', last, cal, run, k, t);
    }
  }
}
