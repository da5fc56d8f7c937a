/** Exposure, sizing and exit prices, over every run. */
module SwingRisk {
  import opened Prelude
  import opened Sorting
  import opened SwingTypes
  import opened SwingSignals
  import opened SwingPools
  import opened SwingEngine
  import opened SwingBookkeeping

  // ---------------------------------------------------------------- openings

  ghost predicate Made(env: Env, p: Position) {
    Listed(env.prepared, p.Symbol(), p.EntryDate()) && p == MakePosition(env, p.entry)
  }

  /** The size is the largest whole number of lots within both budgets of the equity. */
  ghost predicate BestSize(params: Params, c: EntryCandidate, equity: real) {
    && c.quantity > 0
    && c.template.stopPrice < c.template.entryPrice
    && LargestFit(RiskBudget(equity, params), c.template.entryPrice - c.template.stopPrice,
                  NotionalCap(equity, params), c.template.entryPrice, params.lotSize, c.quantity)
  }

  /** There was room under the position count, and the book including the new position cost no
      more than the equity, which was positive. */
  ghost predicate WithinExposure(params: Params, o: Opening) {
    && |o.before| < params.maxPositions
    && OpenNotional(o.before) + o.position.entry.Notional() <= o.equity
    && OpenNotional(Put(o.before, o.position)) <= o.equity
    && o.equity > 0.0
    && o.displaced == Displaced(o.before, o.position.Symbol())
  }

  /** The opened position has its deadline and target in place and respected the limits. */
  ghost predicate SoundOpening(env: Env, o: Opening) {
    && Made(env, o.position)
    && TargetPlaced(env.params, o.position.entry.template)
    && WithinExposure(env.params, o)
    && BestSize(env.params, o.position.entry, o.equity)
  }

  ghost predicate Sized(ps: seq<Position>) {
    forall i :: 0 <= i < |ps| ==> ps[i].entry.quantity > 0
  }

  lemma NotionalPositive(c: EntryCandidate)
    requires c.quantity > 0
    ensures c.Notional() > 0.0
  {
  }

  lemma {:induction false} OpenNotionalNonNegative(ps: seq<Position>)
    requires Sized(ps)
    ensures OpenNotional(ps) >= 0.0
    decreases |ps|
  {
    if ps == [] {
    } else {
      NotionalPositive(ps[0].entry);
      OpenNotionalNonNegative(ps[1..]);
    }
  }

  lemma {:induction false} PutNotional(ps: seq<Position>, p: Position)
    requires Sized(ps) && p.entry.quantity > 0
    ensures OpenNotional(Put(ps, p)) <= OpenNotional(ps) + p.entry.Notional()
    ensures Sized(Put(ps, p))
    decreases |ps|
  {
    if ps != [] {
      NotionalPositive(ps[0].entry);
      if ps[0].Symbol() != p.Symbol() {
        PutNotional(ps[1..], p);
        assert ([ps[0]] + Put(ps[1..], p))[1..] == Put(ps[1..], p);
      } else {
        assert ([p] + ps[1..])[1..] == ps[1..];
      }
    } else {
      assert OpenNotional([p]) == p.entry.Notional() + OpenNotional([]);
    }
  }

  lemma {:induction false} CandidateBestSize(params: Params, c: EntryCandidate, equity: real)
    requires c.quantity > 0
    requires c.quantity == PositionSize(c.template.entryPrice, c.template.stopPrice, equity, params)
    ensures BestSize(params, c, equity)
  {
    PositionSizeMaximal(c.template.entryPrice, c.template.stopPrice, equity, params, c.quantity);
  }

  lemma OpeningWithinExposure(params: Params, p: Position, equity: real, ps: seq<Position>)
    requires p.entry.quantity > 0 && Sized(ps) && |ps| < params.maxPositions
    requires OpenNotional(ps) + p.entry.Notional() <= equity
    ensures WithinExposure(params, Opening(p, equity, ps, Displaced(ps, p.Symbol())))
  {
    PutNotional(ps, p);
    OpenNotionalNonNegative(ps);
    NotionalPositive(p.entry);
  }

  lemma {:induction false} OpenAllSound(env: Env, d: Date, cs: seq<EntryCandidate>, start: seq<Position>, equity: real,
                                        ps: seq<Position>, openedToday: nat)
    requires AllListed(env.prepared, cs) && Sized(ps)
    requires forall i :: 0 <= i < |cs| ==> GoodCandidate(env, d, equity, start, cs[i])
    ensures Sized(OpenAll(env, cs, equity, ps, openedToday).positions)
    ensures forall o :: o in OpenAll(env, cs, equity, ps, openedToday).openings ==> SoundOpening(env, o)
    decreases |cs|
  {
    if cs == [] || DayFull(env.params, ps, openedToday) {
    } else {
      if OpenNotional(ps) + cs[0].Notional() > equity {
        OpenAllSound(env, d, cs[1..], start, equity, ps, openedToday);
      } else {
        var p := MakePosition(env, cs[0]);
        CandidateBestSize(env.params, cs[0], equity);
        OpeningWithinExposure(env.params, p, equity, ps);
        PutNotional(ps, p);
        OpenAllSound(env, d, cs[1..], start, equity, Put(ps, p), openedToday + 1);
      }
    }
  }

  ghost predicate SoundHistory(env: Env, st: State) {
    && Sized(st.positions)
    && forall o :: o in st.openings ==> SoundOpening(env, o)
  }

  lemma EntryPhaseSound(env: Env, d: Date, st: State)
    requires ValidEnv(env) && SoundHistory(env, st)
    ensures SoundHistory(env, EntryPhase(env, d, st))
  {
    var entries := env.offer(d, st.equity, st.positions, st.rng).1;
    OfferListed(env, d, st.equity, st.positions, st.rng);
    forall i | 0 <= i < |entries| ensures GoodCandidate(env, d, st.equity, st.positions, entries[i]) {
      assert entries[i] in entries;
    }
    OpenAllSound(env, d, entries, st.positions, st.equity, st.positions, 0);
  }

  lemma ExitPhaseSound(env: Env, d: Date, st: State)
    requires SoundHistory(env, st)
    ensures SoundHistory(env, ExitPhase(env, d, st))
  {
    SurvivorsMember(Today(env.prepared, d), st.positions, env.params, env.stress);
    var ps := ExitPhase(env, d, st).positions;
    forall i | 0 <= i < |ps| ensures ps[i].entry.quantity > 0 {
      assert ps[i] in ps;
    }
  }

  lemma StepSound(env: Env, d: Date, st: State, next: State)
    requires ValidEnv(env) && SoundHistory(env, st) && next == StepDay(env, d, st)
    ensures SoundHistory(env, next)
  {
    if env.stress.exitBeforeEntryAtOpen {
      ExitPhaseSound(env, d, st);
      EntryPhaseSound(env, d, ExitPhase(env, d, st));
    } else {
      EntryPhaseSound(env, d, st);
      ExitPhaseSound(env, d, EntryPhase(env, d, st));
    }
  }

  /** Every opening of every run respects the exposure and sizing limits. */
  lemma {:induction false} RunSound(env: Env, cal: seq<Date>, run: seq<State>, k: nat)
    requires ValidEnv(env) && IsRun(env, cal, run) && k < |run|
    ensures SoundHistory(env, run[k])
    decreases k
  {
    if k == 0 {
    } else {
      RunSound(env, cal, run, k - 1);
      assert StepAt(env, cal, run, k - 1);
      StepSound(env, cal[k - 1], run[k - 1], run[k]);
    }
  }

  // ---------------------------------------------------------------- exits

  /** The bar reached the stop, at its open or later. */
  predicate Touches(p: Position, bar: Bar) {
    bar.open <= p.entry.template.stopPrice || bar.low <= p.entry.template.stopPrice
  }

  /** In target/stop mode a bar that touches the stop closes the position whatever else it touches,
      above the stop exactly when the open gapped through it and the assumed slippage is so negative
      that it lifts the price back over it; a bar that does not is closed at the target it reaches,
      or at its close when time is up, and otherwise leaves the position open. */
  lemma {:induction false} ExitIsPessimistic(p: Position, bar: Bar, params: Params, stress: ExecutionStress)
    requires params.exitMode.TargetStopMaxHold?
    ensures var t := p.entry.template;
            var r := ExitOnBar(p, bar, params, stress);
            && (Touches(p, bar) ==>
                  r.Some? && (r.value.exitPrice > t.stopPrice <==>
                              r.value.reason == GapStop
                              && bar.open * (1.0 - stress.gapStopAdditionalSlippageRate) > t.stopPrice))
            && (!Touches(p, bar) && bar.high >= t.targetPrice ==> r.Some? && r.value.exitPrice == t.targetPrice)
            && (!Touches(p, bar) && bar.high < t.targetPrice && bar.date >= p.maxExitDate ==>
                  r.Some? && r.value.exitPrice == bar.close)
            && (r.None? <==> !Touches(p, bar) && bar.high < t.targetPrice && bar.date < p.maxExitDate)
    ensures stress.gapStopAdditionalSlippageRate >= 0.0 && Touches(p, bar) ==>
              ExitOnBar(p, bar, params, stress).value.exitPrice <= p.entry.template.stopPrice
  {
  }

  /** The trade is what the exit rule produced on the symbol's bar of the exit date. */
  ghost predicate Genuine(env: Env, t: Trade) {
    && Listed(env.prepared, t.position.Symbol(), t.exitDate)
    && ExitOnBar(t.position, BarOn(SeriesOf(env.prepared, t.position.Symbol()).value, t.exitDate).value,
                 env.params, env.stress) == Some(t)
  }

  lemma {:induction false} BarTodayIsListed(prepared: seq<BarSeries>, d: Date, s: Symbol)
    requires ValidPrepared(prepared)
    ensures BarOfSymbol(Today(prepared, d), s).Some? <==> Listed(prepared, s, d)
    ensures Listed(prepared, s, d) ==>
              BarOfSymbol(Today(prepared, d), s) == BarOn(SeriesOf(prepared, s).value, d)
  {
    var today := Today(prepared, d);
    var found := BarOfSymbol(today, s);
    if found.Some? {
      TodayMember(prepared, d, found.value);
    }
    if Listed(prepared, s, d) {
      var sr := SeriesOf(prepared, s).value;
      var i :| 0 <= i < |prepared| && prepared[i] == sr;
      assert ValidSeries(prepared[i]);
      var b := BarOn(sr, d).value;
      TodayMember(prepared, d, b);
      var j :| 0 <= j < |today| && today[j] == b;
    }
  }

  lemma ExitTodayGenuine(env: Env, d: Date, p: Position, t: Trade)
    requires ValidEnv(env) && ExitToday(Today(env.prepared, d), p, env.params, env.stress) == Some(t)
    ensures t.position == p && t.exitDate == d && Genuine(env, t)
  {
    BarTodayIsListed(env.prepared, d, p.Symbol());
  }

  lemma ClosedGenuine(env: Env, d: Date, ps: seq<Position>, t: Trade)
    requires ValidEnv(env) && t in Closed(Today(env.prepared, d), ps, env.params, env.stress)
    ensures t.position in ps && t.exitDate == d && Genuine(env, t)
  {
    var exit := ToExit(Today(env.prepared, d), env.params, env.stress);
    FilterMapMember(exit, ps, t);
    var p :| p in ps && exit(p) == Some(t);
    ExitTodayGenuine(env, d, p, t);
  }

  ghost predicate AllGenuine(env: Env, ts: seq<Trade>) {
    forall t :: t in ts ==> Genuine(env, t)
  }

  lemma {:induction false} RunGenuine(env: Env, cal: seq<Date>, run: seq<State>, k: nat)
    requires ValidEnv(env) && IsRun(env, cal, run) && k < |run|
    ensures AllGenuine(env, run[k].trades)
    decreases k
  {
    if k == 0 {
    } else {
      RunGenuine(env, cal, run, k - 1);
      assert StepAt(env, cal, run, k - 1);
      StepGenuine(env, cal[k - 1], run[k - 1], run[k]);
    }
  }

  lemma ExitPhaseGenuine(env: Env, d: Date, st: State)
    requires ValidEnv(env) && AllGenuine(env, st.trades)
    ensures AllGenuine(env, ExitPhase(env, d, st).trades)
  {
    forall t | t in Closed(Today(env.prepared, d), st.positions, env.params, env.stress) ensures Genuine(env, t) {
      ClosedGenuine(env, d, st.positions, t);
    }
  }

  lemma StepGenuine(env: Env, d: Date, st: State, next: State)
    requires ValidEnv(env) && AllGenuine(env, st.trades) && next == StepDay(env, d, st)
    ensures AllGenuine(env, next.trades)
  {
    ExitPhaseGenuine(env, d, if env.stress.exitBeforeEntryAtOpen then st else EntryPhase(env, d, st));
  }

  lemma StopLoss(p: Position, d: Date, params: Params, equity: real)
    requires BestSize(params, p.entry, equity)
    ensures -CloseTrade(p, d, p.entry.template.stopPrice, Stop, params).grossPnl <= RiskBudget(equity, params)
  {
  }

  lemma TargetGain(p: Position, d: Date, params: Params)
    requires TargetPlaced(params, p.entry.template)
    ensures CloseTrade(p, d, p.entry.template.targetPrice, Target, params).grossPnl
         == p.entry.quantity as real * RMultiple(params, RiskPerShare(p.entry.template))
  {
  }

  /** Every closed trade goes back to an opening that respected the limits. Before costs, a
      trade closed at its stop loses at most the risk budget of the equity it was opened with,
      and a trade closed at its target gains the R multiple of what the stop would have lost. */
  lemma {:induction false} StopLossWithinBudget(env: Env, cal: seq<Date>, run: seq<State>, k: nat, t: Trade)
    returns (o: Opening)
    requires ValidEnv(env) && IsRun(env, cal, run) && k < |run| && t in run[k].trades
    ensures o in run[k].openings && o.position == t.position && SoundOpening(env, o)
    ensures t.reason == Stop ==> -t.grossPnl <= RiskBudget(o.equity, env.params)
    ensures t.reason == Target ==>
              t.grossPnl == t.position.entry.quantity as real *
                              RMultiple(env.params, RiskPerShare(t.position.entry.template))
  {
    o := OpeningOf(env, cal, run, k, t);
    RunGenuine(env, cal, run, k);
    ExitProfit(env, t, o.equity);
  }

  lemma ExitProfit(env: Env, t: Trade, equity: real)
    requires ValidEnv(env) && Genuine(env, t) && BestSize(env.params, t.position.entry, equity)
    requires TargetPlaced(env.params, t.position.entry.template)
    ensures t.reason == Stop ==> -t.grossPnl <= RiskBudget(equity, env.params)
    ensures t.reason == Target ==>
              t.grossPnl == t.position.entry.quantity as real *
                              RMultiple(env.params, RiskPerShare(t.position.entry.template))
  {
    GenuineExit(env, t);
    if t.reason == Stop {
      StopLoss(t.position, t.exitDate, env.params, equity);
    } else if t.reason == Target {
      TargetGain(t.position, t.exitDate, env.params);
    }
  }

  lemma GenuineExit(env: Env, t: Trade)
    requires Genuine(env, t)
    ensures t.reason == Stop ==>
              t == CloseTrade(t.position, t.exitDate, t.position.entry.template.stopPrice, Stop, env.params)
    ensures t.reason == Target ==>
              t == CloseTrade(t.position, t.exitDate, t.position.entry.template.targetPrice, Target, env.params)
  {
  }

  /** Each trade of the loop has its opening in the history. */
  lemma OpeningOf(env: Env, cal: seq<Date>, run: seq<State>, k: nat, t: Trade) returns (o: Opening)
    requires ValidEnv(env) && IsRun(env, cal, run) && k < |run| && t in run[k].trades
    ensures o in run[k].openings && o.position == t.position && SoundOpening(env, o)
  {
    RunAccounted(env, cal, run, k);
    RunSound(env, cal, run, k);
    var st := run[k];
    var i :| 0 <= i < |st.trades| && st.trades[i] == t;
    assert PositionsOf(st.trades)[i] == t.position;
    BagMember(PositionsOf(st.trades), st.positions, DisplacedPositions(st.openings),
              OpenedPositions(st.openings), t.position);
    var j :| 0 <= j < |st.openings| && OpenedPositions(st.openings)[j] == t.position;
    o := st.openings[j];
  }

  lemma BagMember<T>(a: seq<T>, b: seq<T>, c: seq<T>, all: seq<T>, x: T)
    requires multiset(a) + multiset(b) + multiset(c) == multiset(all) && x in a
    ensures x in all
  {
    assert (multiset(a) + multiset(b) + multiset(c))[x] > 0;
    assert x in multiset(all);
  }
}
