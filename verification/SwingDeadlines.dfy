/** Every position is closed in time, and two trades in the same symbol never overlap. */
module SwingDeadlines {
  import opened Prelude
  import opened Sorting
  import opened SwingTypes
  import opened SwingPools
  import opened SwingEngine
  import opened SwingRisk

  function DatesOf(env: Env, s: Symbol): seq<Date>
    requires SeriesOf(env.prepared, s).Some?
  {
    Dates(SeriesOf(env.prepared, s).value)
  }

  lemma DatesIncrease(env: Env, s: Symbol)
    requires ValidEnv(env) && SeriesOf(env.prepared, s).Some?
    ensures StrictlyIncreasing(DatesOf(env, s)) && |DatesOf(env, s)| > 0
  {
  }

  lemma IndexMonotone(ds: seq<Date>, i: nat, j: nat)
    requires StrictlyIncreasing(ds) && i < |ds| && j < |ds|
    ensures ds[i] < ds[j] <==> i < j
  {
  }

  lemma DatesInCalendar(env: Env, cal: seq<Date>, s: Symbol, d: Date)
    requires IsCalendar(env.prepared, cal) && Listed(env.prepared, s, d)
    ensures d in cal
  {
  }

  /** How many bars of its symbol lie between two dates. */
  function BarsBetween(env: Env, s: Symbol, d: Date, e: Date): int
    requires Listed(env.prepared, s, d) && Listed(env.prepared, s, e)
  {
    IndexOf(DatesOf(env, s), e) - IndexOf(DatesOf(env, s), d)
  }

  /** The longest holding time in bars. With exits before entries the earliest exit is the bar
      after the entry, so a limit of zero bars still holds for one. */
  function HoldLimit(env: Env): nat {
    if env.stress.exitBeforeEntryAtOpen && env.params.maxHoldDays == 0 then 1 else env.params.maxHoldDays
  }

  /** The deadline lies ahead; or, when exits run first, no bar has come since the entry. */
  ghost predicate Waiting(env: Env, p: Position, d: Date)
    requires Listed(env.prepared, p.Symbol(), p.EntryDate())
  {
    p.maxExitDate > d ||
    (env.stress.exitBeforeEntryAtOpen && forall x :: x in DatesOf(env, p.Symbol()) && x <= d ==> x <= p.EntryDate())
  }

  ghost predicate PositionInTime(env: Env, p: Position, d: Date) {
    Made(env, p) && p.EntryDate() <= d && Waiting(env, p, d)
  }

  ghost predicate TradeInTime(env: Env, t: Trade, d: Date) {
    var p := t.position;
    && Made(env, p) && Listed(env.prepared, p.Symbol(), t.exitDate)
    && t.exitDate <= d
    && (if env.stress.exitBeforeEntryAtOpen then p.EntryDate() < t.exitDate else p.EntryDate() <= t.exitDate)
    && BarsBetween(env, p.Symbol(), p.EntryDate(), t.exitDate) <= HoldLimit(env)
  }

  ghost predicate InTime(env: Env, st: State, d: Date) {
    && (forall p :: p in st.positions ==> PositionInTime(env, p, d))
    && (forall t :: t in st.trades ==> TradeInTime(env, t, d))
  }

  /** A date on or before the deadline is within the limit. */
  lemma BeforeDeadline(env: Env, p: Position, d: Date)
    requires ValidEnv(env) && Made(env, p) && Listed(env.prepared, p.Symbol(), d) && d <= p.maxExitDate
    ensures BarsBetween(env, p.Symbol(), p.EntryDate(), d) <= env.params.maxHoldDays
  {
  }

  /** The first bar after the entry is one bar away. */
  lemma NextBar(env: Env, p: Position, d: Date)
    requires ValidEnv(env) && Made(env, p) && Listed(env.prepared, p.Symbol(), d)
    requires p.EntryDate() < d
    requires forall x :: x in DatesOf(env, p.Symbol()) && x < d ==> x <= p.EntryDate()
    ensures BarsBetween(env, p.Symbol(), p.EntryDate(), d) == 1
  {
    var ds := DatesOf(env, p.Symbol());
    var i, j := IndexOf(ds, p.EntryDate()), IndexOf(ds, d);
    DatesIncrease(env, p.Symbol());
    IndexMonotone(ds, i, j);
    assert ds[i + 1] in ds;
    IndexMonotone(ds, i, i + 1);
    IndexMonotone(ds, i + 1, j);
  }

  /** What the state promises when date d is about to be processed: everything is in time for
      every earlier date of the calendar. */
  ghost predicate Ready(env: Env, st: State, d: Date) {
    && (forall p :: p in st.positions ==> PositionReady(env, p, d))
    && (forall t :: t in st.trades ==> TradeInTime(env, t, d) && t.exitDate < d)
  }

  ghost predicate PositionReady(env: Env, p: Position, d: Date) {
    && Made(env, p)
    && p.EntryDate() < d
    && (p.maxExitDate >= d ||
        (env.stress.exitBeforeEntryAtOpen && forall x :: x in DatesOf(env, p.Symbol()) && x < d ==> x <= p.EntryDate()))
  }

  lemma ExitOnOrAfterDeadline(p: Position, bar: Bar, params: Params, stress: ExecutionStress)
    requires bar.date >= p.maxExitDate
    ensures ExitOnBar(p, bar, params, stress).Some?
  {
  }

  /** An exit on date d by a position that was ready for d is in time. */
  lemma ExitInTime(env: Env, d: Date, p: Position, t: Trade)
    requires ValidEnv(env) && PositionReady(env, p, d)
    requires ExitToday(Today(env.prepared, d), p, env.params, env.stress) == Some(t)
    ensures TradeInTime(env, t, d) && t.exitDate == d
  {
    ExitTodayGenuine(env, d, p, t);
    if p.maxExitDate >= d {
      BeforeDeadline(env, p, d);
    } else {
      NextBar(env, p, d);
    }
  }

  /** A position that did not exit on d still has time after d. */
  lemma SurvivorInTime(env: Env, d: Date, p: Position)
    requires ValidEnv(env) && Made(env, p) && p.EntryDate() <= d
    requires PositionReady(env, p, d) || p.maxExitDate >= d
    requires ExitToday(Today(env.prepared, d), p, env.params, env.stress).None?
    ensures PositionInTime(env, p, d)
  {
    var bar := BarOfSymbol(Today(env.prepared, d), p.Symbol());
    BarTodayIsListed(env.prepared, d, p.Symbol());
    if bar.Some? {
      if bar.value.date >= p.maxExitDate {
        ExitOnOrAfterDeadline(p, bar.value, env.params, env.stress);
      }
    } else if p.maxExitDate < d {
      assert forall x :: x in DatesOf(env, p.Symbol()) && x <= d ==> x < d;
    }
  }

  /** A position opened on d has its deadline on or after d. */
  lemma OpenedDeadline(env: Env, p: Position)
    requires ValidEnv(env) && Made(env, p)
    ensures p.maxExitDate >= p.EntryDate()
    ensures Listed(env.prepared, p.Symbol(), p.maxExitDate)
  {
    DatesIncrease(env, p.Symbol());
  }

  lemma EntryPhasePositions(env: Env, d: Date, st: State, p: Position)
    requires ValidEnv(env) && p in EntryPhase(env, d, st).positions && p !in st.positions
    ensures Made(env, p) && p.EntryDate() == d
  {
    var entries := env.offer(d, st.equity, st.positions, st.rng).1;
    OfferListed(env, d, st.equity, st.positions, st.rng);
    OpenAllMember(env, entries, st.equity, st.positions, 0);
    var i :| 0 <= i < |entries| && p == MakePosition(env, entries[i]);
    assert entries[i] in entries;
  }

  lemma EntriesFirst(env: Env, d: Date, st: State, next: State)
    requires ValidEnv(env) && !env.stress.exitBeforeEntryAtOpen && Ready(env, st, d) && next == StepDay(env, d, st)
    ensures InTime(env, next, d)
  {
    var mid := EntryPhase(env, d, st);
    forall p | p in mid.positions ensures Made(env, p) && p.EntryDate() <= d <= p.maxExitDate {
      if p !in st.positions {
        EntryPhasePositions(env, d, st, p);
        OpenedDeadline(env, p);
      }
    }
    SurvivorsMember(Today(env.prepared, d), mid.positions, env.params, env.stress);
    var end := ExitPhase(env, d, mid);
    forall p | p in end.positions ensures PositionInTime(env, p, d) {
      SurvivorInTime(env, d, p);
    }
    forall t | t in end.trades ensures TradeInTime(env, t, d) {
      if t !in mid.trades {
        ClosedGenuine(env, d, mid.positions, t);
        BeforeDeadline(env, t.position, d);
      }
    }
  }

  lemma ExitsFirst(env: Env, d: Date, st: State, next: State)
    requires ValidEnv(env) && env.stress.exitBeforeEntryAtOpen && Ready(env, st, d) && next == StepDay(env, d, st)
    ensures InTime(env, next, d)
  {
    var mid := ExitPhase(env, d, st);
    SurvivorsMember(Today(env.prepared, d), st.positions, env.params, env.stress);
    forall t | t in mid.trades ensures TradeInTime(env, t, d) {
      if t !in st.trades {
        ClosedReady(env, d, st.positions, t);
      }
    }
    var end := EntryPhase(env, d, mid);
    forall p | p in end.positions ensures PositionInTime(env, p, d) {
      if p in mid.positions {
        SurvivorInTime(env, d, p);
      } else {
        EntryPhasePositions(env, d, mid, p);
      }
    }
  }

  lemma ClosedReady(env: Env, d: Date, ps: seq<Position>, t: Trade)
    requires ValidEnv(env) && t in Closed(Today(env.prepared, d), ps, env.params, env.stress)
    requires forall p :: p in ps ==> PositionReady(env, p, d)
    ensures TradeInTime(env, t, d)
  {
    var exit := ToExit(Today(env.prepared, d), env.params, env.stress);
    FilterMapMember(exit, ps, t);
    var p :| p in ps && exit(p) == Some(t);
    ExitInTime(env, d, p, t);
  }

  /** In time for the k-th date means ready for the next one. */
  lemma NextReady(env: Env, cal: seq<Date>, st: State, k: nat)
    requires ValidEnv(env) && IsCalendar(env.prepared, cal) && 0 < k < |cal|
    requires InTime(env, st, cal[k - 1])
    ensures Ready(env, st, cal[k])
  {
    forall p | p in st.positions ensures PositionReady(env, p, cal[k]) {
      assert PositionInTime(env, p, cal[k - 1]);
      OpenedDeadline(env, p);
      DatesInCalendar(env, cal, p.Symbol(), p.maxExitDate);
      if p.maxExitDate <= cal[k - 1] {
        forall x | x in DatesOf(env, p.Symbol()) && x < cal[k] ensures x <= p.EntryDate() {
          DatesInCalendar(env, cal, p.Symbol(), x);
          var j :| 0 <= j < |cal| && cal[j] == x;
          assert j <= k - 1;
        }
      } else {
        var j :| 0 <= j < |cal| && cal[j] == p.maxExitDate;
        assert j >= k;
      }
    }
  }

  lemma StepInTime(env: Env, d: Date, st: State, next: State)
    requires ValidEnv(env) && Ready(env, st, d) && next == StepDay(env, d, st)
    ensures InTime(env, next, d)
  {
    if env.stress.exitBeforeEntryAtOpen {
      ExitsFirst(env, d, st, next);
    } else {
      EntriesFirst(env, d, st, next);
    }
  }

  lemma InitialReady(env: Env, d: Date)
    ensures Ready(env, Initial(env), d)
  {
  }

  lemma {:induction false} RunInTime(env: Env, cal: seq<Date>, run: seq<State>, k: nat)
    requires ValidEnv(env) && IsCalendar(env.prepared, cal) && IsRun(env, cal, run) && 0 < k < |run|
    ensures InTime(env, run[k], cal[k - 1])
    decreases k
  {
    assert StepAt(env, cal, run, k - 1);
    if k == 1 {
      InitialReady(env, cal[0]);
    } else {
      RunInTime(env, cal, run, k - 1);
      NextReady(env, cal, run[k - 1], k - 1);
    }
    StepInTime(env, cal[k - 1], run[k - 1], run[k]);
  }

  function LastDate(env: Env, s: Symbol): Date
    requires SeriesOf(env.prepared, s).Some? && |DatesOf(env, s)| > 0
  {
    DatesOf(env, s)[|DatesOf(env, s)| - 1]
  }

  /** A trade closes at the end of the data exactly when exits run first and it was entered on
      the last bar of its symbol; every other trade closed within the holding limit. */
  ghost predicate ClosedInTime(env: Env, t: Trade) {
    && Made(env, t.position) && |DatesOf(env, t.position.Symbol())| > 0
    && (t.reason == EndOfData <==>
          env.stress.exitBeforeEntryAtOpen && t.position.EntryDate() == LastDate(env, t.position.Symbol()))
    && (t.reason != EndOfData ==> TradeInTime(env, t, t.exitDate))
  }

  lemma LoopTradeInTime(env: Env, t: Trade, d: Date)
    requires ValidEnv(env) && TradeInTime(env, t, d) && Genuine(env, t)
    ensures ClosedInTime(env, t)
  {
    var ds := DatesOf(env, t.position.Symbol());
    DatesIncrease(env, t.position.Symbol());
    IndexMonotone(ds, |ds| - 1, IndexOf(ds, t.exitDate));
    NeverEndOfData(t.position, BarOn(SeriesOf(env.prepared, t.position.Symbol()).value, t.exitDate).value,
                   env.params, env.stress);
  }

  lemma NeverEndOfData(p: Position, bar: Bar, params: Params, stress: ExecutionStress)
    ensures ExitOnBar(p, bar, params, stress).Some? ==> ExitOnBar(p, bar, params, stress).value.reason != EndOfData
  {
  }

  lemma NothingAfterCalendar(env: Env, cal: seq<Date>, s: Symbol, d: Date)
    requires IsCalendar(env.prepared, cal) && |cal| > 0 && Listed(env.prepared, s, d)
    ensures d <= cal[|cal| - 1]
  {
    DatesInCalendar(env, cal, s, d);
    var j :| 0 <= j < |cal| && cal[j] == d;
    IndexMonotone(cal, |cal| - 1, j);
  }

  /** A position open after the last date was entered on the last bar of its symbol. */
  lemma LastSurvivor(env: Env, cal: seq<Date>, p: Position)
    requires ValidEnv(env) && IsCalendar(env.prepared, cal) && |cal| > 0
    requires PositionInTime(env, p, cal[|cal| - 1])
    ensures env.stress.exitBeforeEntryAtOpen
    ensures |DatesOf(env, p.Symbol())| > 0 && p.EntryDate() == LastDate(env, p.Symbol())
  {
    var ds := DatesOf(env, p.Symbol());
    OpenedDeadline(env, p);
    DatesIncrease(env, p.Symbol());
    NothingAfterCalendar(env, cal, p.Symbol(), p.maxExitDate);
    NothingAfterCalendar(env, cal, p.Symbol(), ds[|ds| - 1]);
    IndexMonotone(ds, |ds| - 1, IndexOf(ds, p.EntryDate()));
  }

  lemma SurvivorTradeInTime(env: Env, cal: seq<Date>, p: Position)
    requires ValidEnv(env) && IsCalendar(env.prepared, cal) && |cal| > 0
    requires PositionInTime(env, p, cal[|cal| - 1])
    ensures ClosedInTime(env, EndTrade(env, p))
  {
    DatesIncrease(env, p.Symbol());
    LastSurvivor(env, cal, p);
  }

  lemma ReportedInTime(env: Env, cal: seq<Date>, run: seq<State>, t: Trade)
    requires ValidEnv(env) && IsCalendar(env.prepared, cal) && IsRun(env, cal, run) && |run| > 1
    requires PositionsListed(env, run[|run| - 1].positions)
    requires t in run[|run| - 1].trades + EndTrades(env, run[|run| - 1].positions)
    ensures ClosedInTime(env, t)
  {
    var n := |run| - 1;
    var st := run[n];
    RunInTime(env, cal, run, n);
    if t in st.trades {
      RunGenuine(env, cal, run, n);
      LoopTradeInTime(env, t, cal[n - 1]);
    } else {
      var i :| 0 <= i < |st.positions| && t == EndTrades(env, st.positions)[i];
      assert st.positions[i] in st.positions;
      SurvivorTradeInTime(env, cal, st.positions[i]);
    }
  }

  lemma NoSurvivors(env: Env, cal: seq<Date>, run: seq<State>)
    requires ValidEnv(env) && IsCalendar(env.prepared, cal) && IsRun(env, cal, run) && !env.stress.exitBeforeEntryAtOpen
    ensures run[|run| - 1].positions == []
  {
    var n := |run| - 1;
    if n > 0 && run[n].positions != [] {
      RunInTime(env, cal, run, n);
      assert run[n].positions[0] in run[n].positions;
      LastSurvivor(env, cal, run[n].positions[0]);
    }
  }

  /** Every reported trade is closed in time; without exits first nothing survives the day loop. */
  lemma EveryPositionClosesInTime(env: Env, cal: seq<Date>, run: seq<State>)
    requires ValidEnv(env) && IsCalendar(env.prepared, cal) && IsRun(env, cal, run)
    ensures var st := run[|run| - 1];
            && PositionsListed(env, st.positions)
            && (!env.stress.exitBeforeEntryAtOpen ==> st.positions == [])
            && (forall t :: t in Report(env, st) ==> ClosedInTime(env, t))
  {
    var st := run[|run| - 1];
    RunListed(env, cal, run, |run| - 1);
    if !env.stress.exitBeforeEntryAtOpen {
      NoSurvivors(env, cal, run);
    }
    var all := st.trades + EndTrades(env, st.positions);
    SameElements(Report(env, st), all);
    if |run| > 1 {
      forall t | t in all ensures ClosedInTime(env, t) {
        ReportedInTime(env, cal, run, t);
      }
    }
  }

  // ---------------------------------------------------------------- no overlap

  /** The first trade is over before the second is entered; on the same day is early enough only
      when exits run first. */
  predicate Precedes(exitsFirst: bool, exitDate: Date, entryDate: Date) {
    if exitsFirst then exitDate <= entryDate else exitDate < entryDate
  }

  function Apart(exitsFirst: bool): (Trade, Trade) -> bool {
    (a: Trade, b: Trade) =>
      a.position.Symbol() == b.position.Symbol() ==>
        Precedes(exitsFirst, a.exitDate, b.position.EntryDate()) ||
        Precedes(exitsFirst, b.exitDate, a.position.EntryDate())
  }

  function PositionSymbol(p: Position): int { p.Symbol() }

  ghost predicate Separate(env: Env, st: State) {
    var first := env.stress.exitBeforeEntryAtOpen;
    && DistinctBy(PositionSymbol, st.positions)
    && Pairwise(Apart(first), st.trades)
    && (forall t, p :: t in st.trades && p in st.positions && t.position.Symbol() == p.Symbol() ==>
          Precedes(first, t.exitDate, p.EntryDate()))
  }

  lemma {:induction false} PutDistinct(ps: seq<Position>, p: Position)
    requires DistinctBy(PositionSymbol, ps)
    ensures DistinctBy(PositionSymbol, Put(ps, p))
    decreases |ps|
  {
    if ps == [] || ps[0].Symbol() == p.Symbol() {
    } else {
      PutDistinct(ps[1..], p);
      PutMember(ps[1..], p);
      var rest := Put(ps[1..], p);
      forall i | 0 <= i < |rest| ensures PositionSymbol(rest[i]) != PositionSymbol(ps[0]) {
        assert rest[i] in rest;
      }
    }
  }

  lemma {:induction false} OpenAllDistinct(env: Env, cs: seq<EntryCandidate>, equity: real, ps: seq<Position>,
      openedToday: nat)
    requires AllListed(env.prepared, cs) && DistinctBy(PositionSymbol, ps)
    ensures DistinctBy(PositionSymbol, OpenAll(env, cs, equity, ps, openedToday).positions)
    decreases |cs|
  {
    if cs == [] || DayFull(env.params, ps, openedToday) {
    } else {
      if OpenNotional(ps) + cs[0].Notional() > equity {
        OpenAllDistinct(env, cs[1..], equity, ps, openedToday);
      } else {
        PutDistinct(ps, MakePosition(env, cs[0]));
        OpenAllDistinct(env, cs[1..], equity, Put(ps, MakePosition(env, cs[0])), openedToday + 1);
      }
    }
  }

  lemma EntryPhaseSeparate(env: Env, d: Date, st: State)
    requires ValidEnv(env) && Separate(env, st)
    requires forall t :: t in st.trades ==> Precedes(env.stress.exitBeforeEntryAtOpen, t.exitDate, d)
    ensures Separate(env, EntryPhase(env, d, st))
  {
    OfferListed(env, d, st.equity, st.positions, st.rng);
    OpenAllDistinct(env, env.offer(d, st.equity, st.positions, st.rng).1, st.equity, st.positions, 0);
    var end := EntryPhase(env, d, st);
    forall t, p | t in end.trades && p in end.positions && t.position.Symbol() == p.Symbol()
      ensures Precedes(env.stress.exitBeforeEntryAtOpen, t.exitDate, p.EntryDate())
    {
      if p !in st.positions {
        EntryPhasePositions(env, d, st, p);
      }
    }
  }

  function TradeSymbol(t: Trade): int { t.position.Symbol() }

  lemma ClosedSeparate(f: Position -> Option<Trade>, g: Position -> Option<Position>, ps: seq<Position>)
    requires forall p :: f(p).Some? ==> f(p).value.position == p
    requires forall p :: g(p) == if f(p).Some? then None else Some(p)
    requires DistinctBy(PositionSymbol, ps)
    ensures DistinctBy(TradeSymbol, FilterMap(f, ps)) && DistinctBy(PositionSymbol, FilterMap(g, ps))
    ensures forall t, p :: t in FilterMap(f, ps) && p in FilterMap(g, ps) ==> t.position.Symbol() != p.Symbol()
    ensures forall t :: t in FilterMap(f, ps) ==> t.position in ps
    ensures forall p :: p in FilterMap(g, ps) ==> p in ps
  {
    DistinctFilterMap(f, PositionSymbol, TradeSymbol, ps);
    DistinctFilterMap(g, PositionSymbol, PositionSymbol, ps);
    forall t | t in FilterMap(f, ps) ensures t.position in ps && f(t.position) == Some(t) {
      FilterMapMember(f, ps, t);
    }
    forall p | p in FilterMap(g, ps) ensures p in ps && f(p).None? {
      FilterMapMember(g, ps, p);
    }
    forall t, p | t in FilterMap(f, ps) && p in FilterMap(g, ps) ensures t.position.Symbol() != p.Symbol() {
      var i :| 0 <= i < |ps| && ps[i] == t.position;
      var j :| 0 <= j < |ps| && ps[j] == p;
      if i != j {
        assert PositionSymbol(ps[i]) != PositionSymbol(ps[j]);
      }
    }
  }

  lemma PairwiseConcat(first: bool, xs: seq<Trade>, ys: seq<Trade>)
    requires Pairwise(Apart(first), xs) && DistinctBy(TradeSymbol, ys)
    requires forall x, y :: x in xs && y in ys && x.position.Symbol() == y.position.Symbol() ==>
               Precedes(first, x.exitDate, y.position.EntryDate())
    ensures Pairwise(Apart(first), xs + ys)
  {
  }

  lemma ExitPhaseSeparate(env: Env, d: Date, st: State)
    requires ValidEnv(env) && Separate(env, st)
    ensures Separate(env, ExitPhase(env, d, st))
  {
    var today := Today(env.prepared, d);
    ClosedSeparate(ToExit(today, env.params, env.stress), ToSurvivor(today, env.params, env.stress), st.positions);
    PairwiseConcat(env.stress.exitBeforeEntryAtOpen, st.trades, Closed(today, st.positions, env.params, env.stress));
    var end := ExitPhase(env, d, st);
    forall t, p | t in end.trades && p in end.positions && t.position.Symbol() == p.Symbol()
      ensures Precedes(env.stress.exitBeforeEntryAtOpen, t.exitDate, p.EntryDate())
    {
      assert p in st.positions;
    }
  }

  lemma StepSeparate(env: Env, d: Date, st: State, next: State)
    requires ValidEnv(env) && Separate(env, st) && next == StepDay(env, d, st)
    requires forall t :: t in st.trades ==> t.exitDate < d
    ensures Separate(env, next)
  {
    if env.stress.exitBeforeEntryAtOpen {
      ExitPhaseSeparate(env, d, st);
      var mid := ExitPhase(env, d, st);
      forall t | t in mid.trades ensures t.exitDate <= d {
        if t !in st.trades {
          ClosedGenuine(env, d, st.positions, t);
        }
      }
      EntryPhaseSeparate(env, d, mid);
    } else {
      EntryPhaseSeparate(env, d, st);
      ExitPhaseSeparate(env, d, EntryPhase(env, d, st));
    }
  }

  /** When the k-th date is about to be processed, every trade was closed earlier. */
  lemma TradesBefore(env: Env, cal: seq<Date>, run: seq<State>, k: nat)
    requires ValidEnv(env) && IsCalendar(env.prepared, cal) && IsRun(env, cal, run) && k < |cal|
    ensures forall t :: t in run[k].trades ==> t.exitDate < cal[k]
  {
    if k > 0 {
      RunInTime(env, cal, run, k);
      NextReady(env, cal, run[k], k);
    }
  }

  lemma {:induction false} RunSeparate(env: Env, cal: seq<Date>, run: seq<State>, k: nat)
    requires ValidEnv(env) && IsCalendar(env.prepared, cal) && IsRun(env, cal, run) && k < |run|
    ensures Separate(env, run[k])
    decreases k
  {
    if k == 0 {
    } else {
      RunSeparate(env, cal, run, k - 1);
      TradesBefore(env, cal, run, k - 1);
      assert StepAt(env, cal, run, k - 1);
      StepSeparate(env, cal[k - 1], run[k - 1], run[k]);
    }
  }

  /** Reported trades in the same symbol never overlap. */
  lemma TradesNeverOverlap(env: Env, cal: seq<Date>, run: seq<State>)
    requires ValidEnv(env) && IsCalendar(env.prepared, cal) && IsRun(env, cal, run)
    ensures var st := run[|run| - 1];
            PositionsListed(env, st.positions) && Pairwise(Apart(env.stress.exitBeforeEntryAtOpen), Report(env, st))
  {
    var n := |run| - 1;
    var st := run[n];
    RunListed(env, cal, run, n);
    RunSeparate(env, cal, run, n);
    var ends := EndTrades(env, st.positions);
    forall i, j | 0 <= i < j < |ends| ensures TradeSymbol(ends[i]) != TradeSymbol(ends[j]) {
      assert PositionSymbol(st.positions[i]) != PositionSymbol(st.positions[j]);
    }
    forall x, y | x in st.trades && y in ends && x.position.Symbol() == y.position.Symbol()
      ensures Precedes(env.stress.exitBeforeEntryAtOpen, x.exitDate, y.position.EntryDate())
    {
      var i :| 0 <= i < |ends| && ends[i] == y;
      assert st.positions[i] in st.positions;
    }
    PairwiseConcat(env.stress.exitBeforeEntryAtOpen, st.trades, ends);
    PairwisePermutation(Apart(env.stress.exitBeforeEntryAtOpen), st.trades + ends, Report(env, st));
  }

  lemma ClampedIndex(all: seq<Date>, m: nat, i: nat, n: nat)
    requires StrictlyIncreasing(all) && i < m <= |all|
    ensures all[MinInt(i + n, |all| - 1)] == all[MinInt(i + n, m - 1)] <==> m == |all| || i + n < m
  {
  }

  /** The deadline does not depend on later dates exactly when the holding window already fits. */
  lemma DeadlineIgnoresLaterDates(all: seq<Date>, m: nat, d: Date, n: nat)
    requires StrictlyIncreasing(all) && m <= |all| && d in all[..m]
    ensures d in all
    ensures NthDate(all, d, n) == NthDate(all[..m], d, n) <==> m == |all| || IndexOf(all, d) + n < m
  {
    var i := IndexOf(all[..m], d);
    assert all[i] == d;
    SameIndex(all, i);
    ClampedIndex(all, m, i, n);
  }

  lemma SameIndex(ds: seq<Date>, i: nat)
    requires StrictlyIncreasing(ds) && i < |ds|
    ensures IndexOf(ds, ds[i]) == i
  {
  }
}
