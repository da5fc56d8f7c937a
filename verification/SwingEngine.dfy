/** The day loop: exits, ordered entries under the exposure limits, and the whole run. */
module SwingEngine {
  import opened Prelude
  import opened Sorting
  import opened SwingTypes
  import opened SwingSignals
  import opened SwingPools

  /** A run: the bars, the parameters, and a source of candidates. The source maps the date, the
      equity, the open positions and the generator state to the next generator state and the
      candidates in the order in which they are tried. */
  datatype Env = Env(
    prepared: seq<BarSeries>,
    params: Params,
    stress: ExecutionStress,
    seed: int,
    offer: (Date, real, seq<Position>, int) -> (int, seq<EntryCandidate>))

  /** A candidate for the open of date d: its symbol trades on d and is not held, its size comes
      from the sizing rule at the current equity, and its target is placed by the R multiple. */
  ghost predicate GoodCandidate(env: Env, d: Date, equity: real, ps: seq<Position>, c: EntryCandidate) {
    && Listed(env.prepared, c.Symbol(), d)
    && c.template.entryDate == d
    && !Held(ps, c.Symbol())
    && c.quantity > 0
    && c.quantity == PositionSize(c.template.entryPrice, c.template.stopPrice, equity, env.params)
    && TargetPlaced(env.params, c.template)
  }

  ghost predicate ValidEnv(env: Env) {
    && ValidPrepared(env.prepared)
    && forall d, equity, ps, rng, c :: c in env.offer(d, equity, ps, rng).1 ==> GoodCandidate(env, d, equity, ps, c)
  }

  /** The source never offers one symbol twice on a day. */
  ghost predicate DistinctOffers(env: Env) {
    forall d, equity, ps, rng :: DistinctBy(CandidateSymbol, env.offer(d, equity, ps, rng).1)
  }

  // ---------------------------------------------------------------- opening positions

  function NthSymbolDate(prepared: seq<BarSeries>, symbol: Symbol, d: Date, n: nat): Date
    requires Listed(prepared, symbol, d)
  {
    NthDate(Dates(SeriesOf(prepared, symbol).value), d, n)
  }

  ghost predicate AllListed(prepared: seq<BarSeries>, cs: seq<EntryCandidate>) {
    forall i :: 0 <= i < |cs| ==> Listed(prepared, cs[i].Symbol(), cs[i].template.entryDate)
  }

  function MakePosition(env: Env, c: EntryCandidate): Position
    requires Listed(env.prepared, c.Symbol(), c.template.entryDate)
  {
    Position(c, NthSymbolDate(env.prepared, c.Symbol(), c.template.entryDate, env.params.maxHoldDays))
  }

  /** Assignment to an insertion-ordered dictionary: a held symbol keeps its place. */
  function Put(ps: seq<Position>, p: Position): seq<Position> {
    if ps == [] then [p]
    else if ps[0].Symbol() == p.Symbol() then [p] + ps[1..]
    else [ps[0]] + Put(ps[1..], p)
  }

  /** The position that Put overwrites. */
  function Displaced(ps: seq<Position>, symbol: Symbol): seq<Position> {
    if ps == [] then []
    else if ps[0].Symbol() == symbol then [ps[0]]
    else Displaced(ps[1..], symbol)
  }

  function OpenNotional(ps: seq<Position>): real {
    if ps == [] then 0.0 else ps[0].entry.Notional() + OpenNotional(ps[1..])
  }

  /** A record of one opening: the position, the state it was opened in, and what it overwrote. */
  datatype Opening = Opening(position: Position, equity: real, before: seq<Position>, displaced: seq<Position>)

  datatype Opened = Opened(positions: seq<Position>, openings: seq<Opening>)

  predicate DayFull(params: Params, ps: seq<Position>, openedToday: nat) {
    (params.maxNewPositionsPerDay.Some? && openedToday >= params.maxNewPositionsPerDay.value) ||
    |ps| >= params.maxPositions
  }

  function OpenAll(env: Env, cs: seq<EntryCandidate>, equity: real, ps: seq<Position>, openedToday: nat): Opened
    requires AllListed(env.prepared, cs)
    decreases |cs|
  {
    if cs == [] || DayFull(env.params, ps, openedToday) then Opened(ps, [])
    else if OpenNotional(ps) + cs[0].Notional() > equity then OpenAll(env, cs[1..], equity, ps, openedToday)
    else
      var p := MakePosition(env, cs[0]);
      var rest := OpenAll(env, cs[1..], equity, Put(ps, p), openedToday + 1);
      Opened(rest.positions, [Opening(p, equity, ps, Displaced(ps, p.Symbol()))] + rest.openings)
  }

  // ---------------------------------------------------------------- exits

  function CloseTrade(p: Position, exitDate: Date, exitPrice: real, reason: ExitReason, params: Params): Trade {
    var entryNotional := p.entry.Notional();
    var exitNotional := exitPrice * p.entry.quantity as real;
    var costs := (entryNotional + exitNotional) * (params.commissionRate + params.slippageRate);
    Trade(p, exitDate, exitPrice, reason, exitNotional - entryNotional, costs, exitNotional - entryNotional - costs)
  }

  function ExitOnBar(p: Position, bar: Bar, params: Params, stress: ExecutionStress): Option<Trade> {
    var t := p.entry.template;
    if params.exitMode.FixedHold? then
      if bar.date >= p.maxExitDate then Some(CloseTrade(p, bar.date, bar.close, FixedHoldExit, params)) else None
    else if bar.open <= t.stopPrice then
      if stress.limitDownUnfillable && bar.open <= t.entryPrice * (1.0 - stress.limitDownThresholdPct)
      then Some(CloseTrade(p, bar.date, MinReal(bar.open, bar.close), LimitDownUnfillableGapStop, params))
      else Some(CloseTrade(p, bar.date, bar.open * (1.0 - stress.gapStopAdditionalSlippageRate), GapStop, params))
    else if bar.low <= t.stopPrice then Some(CloseTrade(p, bar.date, t.stopPrice, Stop, params))
    else if bar.high >= t.targetPrice then Some(CloseTrade(p, bar.date, t.targetPrice, Target, params))
    else if bar.date >= p.maxExitDate then Some(CloseTrade(p, bar.date, bar.close, MaxHold, params))
    else None
  }

  function BarOfSymbol(today: seq<Bar>, symbol: Symbol): (b: Option<Bar>)
    ensures b.Some? ==> b.value in today && b.value.symbol == symbol
    ensures b.None? ==> forall i :: 0 <= i < |today| ==> today[i].symbol != symbol
  {
    if today == [] then None
    else if today[0].symbol == symbol then Some(today[0])
    else BarOfSymbol(today[1..], symbol)
  }

  function ExitToday(today: seq<Bar>, p: Position, params: Params, stress: ExecutionStress): Option<Trade> {
    var bar := BarOfSymbol(today, p.Symbol());
    if bar.None? then None else ExitOnBar(p, bar.value, params, stress)
  }

  function ToExit(today: seq<Bar>, params: Params, stress: ExecutionStress): Position -> Option<Trade> {
    (p: Position) => ExitToday(today, p, params, stress)
  }

  function ToSurvivor(today: seq<Bar>, params: Params, stress: ExecutionStress): Position -> Option<Position> {
    (p: Position) => if ExitToday(today, p, params, stress).Some? then None else Some(p)
  }

  function Survivors(today: seq<Bar>, ps: seq<Position>, params: Params, stress: ExecutionStress): seq<Position> {
    FilterMap(ToSurvivor(today, params, stress), ps)
  }

  function Closed(today: seq<Bar>, ps: seq<Position>, params: Params, stress: ExecutionStress): seq<Trade> {
    FilterMap(ToExit(today, params, stress), ps)
  }

  function NetPnl(ts: seq<Trade>): real {
    if ts == [] then 0.0 else NetPnl(ts[..|ts| - 1]) + ts[|ts| - 1].netPnl
  }

  lemma {:induction false} NetPnlConcat(xs: seq<Trade>, ys: seq<Trade>)
    ensures NetPnl(xs + ys) == NetPnl(xs) + NetPnl(ys)
    decreases |ys|
  {
    if ys == [] {
      assert xs + ys == xs;
    } else {
      assert (xs + ys)[..|xs + ys| - 1] == xs + ys[..|ys| - 1];
      NetPnlConcat(xs, ys[..|ys| - 1]);
    }
  }

  // ---------------------------------------------------------------- the run

  /** Equity, open positions, closed trades and generator state, with the history of openings. */
  datatype State = State(equity: real, positions: seq<Position>, trades: seq<Trade>, rng: int, openings: seq<Opening>)

  function ExitPhase(env: Env, d: Date, st: State): State {
    var today := Today(env.prepared, d);
    var closed := Closed(today, st.positions, env.params, env.stress);
    st.(equity := st.equity + NetPnl(closed),
        positions := Survivors(today, st.positions, env.params, env.stress),
        trades := st.trades + closed)
  }

  ghost function EntryPhase(env: Env, d: Date, st: State): State
    requires ValidEnv(env)
  {
    var (rng, entries) := env.offer(d, st.equity, st.positions, st.rng);
    OfferListed(env, d, st.equity, st.positions, st.rng);
    var o := OpenAll(env, entries, st.equity, st.positions, 0);
    st.(positions := o.positions, rng := rng, openings := st.openings + o.openings)
  }

  ghost function StepDay(env: Env, d: Date, st: State): State
    requires ValidEnv(env)
  {
    if env.stress.exitBeforeEntryAtOpen then EntryPhase(env, d, ExitPhase(env, d, st))
    else ExitPhase(env, d, EntryPhase(env, d, st))
  }

  function Initial(env: Env): State {
    State(env.params.startingCapital, [], [], env.seed, [])
  }

  /** The states of a run over the given dates: the initial one, and one after each date. */
  ghost predicate IsRun(env: Env, cal: seq<Date>, run: seq<State>)
    requires ValidEnv(env)
  {
    && |run| == |cal| + 1
    && run[0] == Initial(env)
    && forall k :: 0 <= k < |cal| ==> StepAt(env, cal, run, k)
  }

  ghost predicate StepAt(env: Env, cal: seq<Date>, run: seq<State>, k: nat)
    requires ValidEnv(env) && |run| == |cal| + 1 && k < |cal|
  {
    run[k + 1] == StepDay(env, cal[k], run[k])
  }

  /** Positions still open after the last date are closed at their symbol's last bar. */
  function EndTrade(env: Env, p: Position): Trade
    requires Listed(env.prepared, p.Symbol(), p.EntryDate())
  {
    var bars := SeriesOf(env.prepared, p.Symbol()).value.bars;
    CloseTrade(p, bars[|bars| - 1].date, bars[|bars| - 1].close, EndOfData, env.params)
  }

  ghost predicate PositionsListed(env: Env, ps: seq<Position>) {
    forall i :: 0 <= i < |ps| ==> Listed(env.prepared, ps[i].Symbol(), ps[i].EntryDate())
  }

  function EndTrades(env: Env, ps: seq<Position>): (ts: seq<Trade>)
    requires PositionsListed(env, ps)
    ensures |ts| == |ps|
    ensures forall i :: 0 <= i < |ps| ==> ts[i] == EndTrade(env, ps[i])
  {
    seq(|ps|, i requires 0 <= i < |ps| => EndTrade(env, ps[i]))
  }

  /** The trades reported for a run that ends in st. */
  function Report(env: Env, st: State): seq<Trade>
    requires PositionsListed(env, st.positions)
  {
    Sort(ByExit, st.trades + EndTrades(env, st.positions))
  }

  // ---------------------------------------------------------------- membership

  /** The lookup of the entry date among the symbol's dates cannot fail. */
  lemma OfferListed(env: Env, d: Date, equity: real, ps: seq<Position>, rng: int)
    requires ValidEnv(env)
    ensures AllListed(env.prepared, env.offer(d, equity, ps, rng).1)
  {
    var cs := env.offer(d, equity, ps, rng).1;
    forall i | 0 <= i < |cs| ensures Listed(env.prepared, cs[i].Symbol(), cs[i].template.entryDate) {
      assert cs[i] in cs;
    }
  }

  lemma {:induction false} PutMember(ps: seq<Position>, p: Position)
    ensures forall q :: q in Put(ps, p) ==> q == p || q in ps
    decreases |ps|
  {
    if ps == [] {
    } else {
      PutMember(ps[1..], p);
      assert ps == [ps[0]] + ps[1..];
    }
  }

  ghost predicate MadeFrom(env: Env, cs: seq<EntryCandidate>, q: Position)
    requires AllListed(env.prepared, cs)
  {
    exists i :: 0 <= i < |cs| && q == MakePosition(env, cs[i])
  }

  lemma MadeFromTail(env: Env, cs: seq<EntryCandidate>, q: Position)
    requires AllListed(env.prepared, cs) && |cs| > 0 && MadeFrom(env, cs[1..], q)
    ensures MadeFrom(env, cs, q)
  {
  }

  /** Every position after the openings is an old one or was made from a candidate. */
  lemma {:induction false} OpenAllMember(env: Env, cs: seq<EntryCandidate>, equity: real, ps: seq<Position>,
      openedToday: nat)
    requires AllListed(env.prepared, cs)
    ensures forall q :: q in OpenAll(env, cs, equity, ps, openedToday).positions ==> q in ps || MadeFrom(env, cs, q)
    decreases |cs|
  {
    if cs == [] || DayFull(env.params, ps, openedToday) {
    } else {
      var fits := OpenNotional(ps) + cs[0].Notional() <= equity;
      var next := if fits then Put(ps, MakePosition(env, cs[0])) else ps;
      var count := if fits then openedToday + 1 else openedToday;
      PutMember(ps, MakePosition(env, cs[0]));
      OpenAllMember(env, cs[1..], equity, next, count);
      forall q | q in OpenAll(env, cs[1..], equity, next, count).positions ensures q in ps || MadeFrom(env, cs, q) {
        if MadeFrom(env, cs[1..], q) {
          MadeFromTail(env, cs, q);
        }
      }
    }
  }

  /** A position stays when no candidate has its symbol. */
  lemma {:induction false} OpenAllKeeps(env: Env, cs: seq<EntryCandidate>, equity: real, ps: seq<Position>,
                                        openedToday: nat, p: Position)
    requires AllListed(env.prepared, cs) && p in ps && forall i :: 0 <= i < |cs| ==> cs[i].Symbol() != p.Symbol()
    ensures p in OpenAll(env, cs, equity, ps, openedToday).positions
    decreases |cs|
  {
    if cs == [] || DayFull(env.params, ps, openedToday) {
    } else if OpenNotional(ps) + cs[0].Notional() > equity {
      OpenAllKeeps(env, cs[1..], equity, ps, openedToday, p);
    } else {
      PutKeeps(ps, MakePosition(env, cs[0]), p);
      OpenAllKeeps(env, cs[1..], equity, Put(ps, MakePosition(env, cs[0])), openedToday + 1, p);
    }
  }

  lemma {:induction false} PutKeeps(ps: seq<Position>, q: Position, p: Position)
    requires p in ps && q.Symbol() != p.Symbol()
    ensures p in Put(ps, q)
    decreases |ps|
  {
    if ps[0].Symbol() == q.Symbol() {
      assert p in ps[1..];
    } else if ps[0] != p {
      PutKeeps(ps[1..], q, p);
    }
  }

  lemma SurvivorsMember(today: seq<Bar>, ps: seq<Position>, params: Params, stress: ExecutionStress)
    ensures forall p :: p in Survivors(today, ps, params, stress) <==>
              p in ps && ExitToday(today, p, params, stress).None?
  {
    forall p ensures p in Survivors(today, ps, params, stress) <==>
                       p in ps && ExitToday(today, p, params, stress).None? {
      FilterMapMember(ToSurvivor(today, params, stress), ps, p);
      if p in ps && ExitToday(today, p, params, stress).None? {
        assert ToSurvivor(today, params, stress)(p) == Some(p);
      }
    }
  }

  lemma StepKeepsListed(env: Env, d: Date, st: State, next: State)
    requires ValidEnv(env) && PositionsListed(env, st.positions) && next == StepDay(env, d, st)
    ensures PositionsListed(env, next.positions)
  {
    if env.stress.exitBeforeEntryAtOpen {
      ExitKeepsListed(env, d, st);
      EntryKeepsListed(env, d, ExitPhase(env, d, st));
    } else {
      EntryKeepsListed(env, d, st);
      ExitKeepsListed(env, d, EntryPhase(env, d, st));
    }
  }

  lemma {:induction false} RunListed(env: Env, cal: seq<Date>, run: seq<State>, k: nat)
    requires ValidEnv(env) && IsRun(env, cal, run) && k < |run|
    ensures PositionsListed(env, run[k].positions)
    decreases k
  {
    if k == 0 {
    } else {
      RunListed(env, cal, run, k - 1);
      assert StepAt(env, cal, run, k - 1);
      StepKeepsListed(env, cal[k - 1], run[k - 1], run[k]);
    }
  }

  lemma ExitKeepsListed(env: Env, d: Date, st: State)
    requires PositionsListed(env, st.positions)
    ensures PositionsListed(env, ExitPhase(env, d, st).positions)
  {
    SurvivorsMember(Today(env.prepared, d), st.positions, env.params, env.stress);
    var ps := ExitPhase(env, d, st).positions;
    forall i | 0 <= i < |ps| ensures Listed(env.prepared, ps[i].Symbol(), ps[i].EntryDate()) {
      assert ps[i] in ps;
    }
  }

  lemma EntryKeepsListed(env: Env, d: Date, st: State)
    requires ValidEnv(env) && PositionsListed(env, st.positions)
    ensures PositionsListed(env, EntryPhase(env, d, st).positions)
  {
    var entries := env.offer(d, st.equity, st.positions, st.rng).1;
    OfferListed(env, d, st.equity, st.positions, st.rng);
    OpenAllMember(env, entries, st.equity, st.positions, 0);
    var ps := EntryPhase(env, d, st).positions;
    forall i | 0 <= i < |ps| ensures Listed(env.prepared, ps[i].Symbol(), ps[i].EntryDate()) {
      assert ps[i] in ps;
    }
  }
}
