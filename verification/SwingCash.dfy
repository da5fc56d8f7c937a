/** The cash ledger of a run: what each trade pays and receives, at which price each reason closes, and
    the equity as the starting capital with all cash flows. */
module SwingCash {
  import opened Prelude
  import opened Sorting
  import opened SwingTypes
  import opened SwingSignalLaws
  import opened SwingPools
  import opened SwingEngine
  import opened SwingBookkeeping
  import opened SwingRisk
  import opened SwingDeadlines

  // ---------------------------------------------------------------- one trade

  /** What a unit of notional costs, on the way in and on the way out. */
  function Rate(params: Params): real { params.commissionRate + params.slippageRate }

  function Shares(t: Trade): real { t.position.entry.quantity as real }

  function EntryPrice(t: Trade): real { t.position.entry.template.entryPrice }

  /** Received for a share, after its cost. */
  function Proceeds(t: Trade, rate: real): real { Product(t.exitPrice, 1.0 - rate) }

  /** Paid for a share, with its cost. */
  function Outlay(t: Trade, rate: real): real { Product(EntryPrice(t), 1.0 + rate) }

  /** Every share brings its proceeds and takes its outlay; before costs it brings the difference in price. */
  predicate Booked(t: Trade, rate: real) {
    && t.netPnl == Product(Shares(t), Proceeds(t, rate) - Outlay(t, rate))
    && t.grossPnl == Product(Shares(t), t.exitPrice - EntryPrice(t))
    && t.costs == Product(Shares(t), Product(t.exitPrice + EntryPrice(t), rate))
  }

  lemma CostsOfBothSides(q: real, entry: real, exit: real, rate: real)
    ensures exit * q - entry * q - (entry * q + exit * q) * rate
         == Product(q, Product(exit, 1.0 - rate) - Product(entry, 1.0 + rate))
    ensures exit * q - entry * q == Product(q, exit - entry)
    ensures (entry * q + exit * q) * rate == Product(q, Product(exit + entry, rate))
  {
  }

  lemma CloseIsBooked(p: Position, exitDate: Date, exitPrice: real, reason: ExitReason, params: Params)
    ensures Booked(CloseTrade(p, exitDate, exitPrice, reason, params), Rate(params))
  {
    CostsOfBothSides(p.entry.quantity as real, p.entry.template.entryPrice, exitPrice, Rate(params));
  }

  /** A trade gains exactly when a share's proceeds exceed its outlay. */
  lemma ProfitIff(t: Trade, rate: real)
    requires Booked(t, rate) && t.position.entry.quantity > 0
    ensures t.netPnl > 0.0 <==> Proceeds(t, rate) > Outlay(t, rate)
    ensures t.netPnl == 0.0 <==> Proceeds(t, rate) == Outlay(t, rate)
  {
    SignOfProduct(Shares(t), Proceeds(t, rate) - Outlay(t, rate));
  }

  lemma SignOfProduct(q: real, x: real)
    requires q > 0.0
    ensures Product(q, x) > 0.0 <==> x > 0.0
    ensures Product(q, x) == 0.0 <==> x == 0.0
  {
  }

  // ---------------------------------------------------------------- the price of each reason

  /** The open is so far below the entry that the stop cannot be filled, where that is assumed. */
  predicate Unfillable(p: Position, bar: Bar, stress: ExecutionStress) {
    stress.limitDownUnfillable &&
    bar.open <= Product(p.entry.template.entryPrice, 1.0 - stress.limitDownThresholdPct)
  }

  /** The bar stays above the stop, from its open on. */
  predicate AboveStop(p: Position, bar: Bar) {
    p.entry.template.stopPrice < bar.open && p.entry.template.stopPrice < bar.low
  }

  /** The reason names what the bar did, and the price is the one that goes with it. */
  predicate PricedBy(t: Trade, bar: Bar, params: Params, stress: ExecutionStress) {
    var p, stop, target := t.position, t.position.entry.template.stopPrice, t.position.entry.template.targetPrice;
    && t.exitDate == bar.date
    && (params.exitMode.FixedHold? <==> t.reason == FixedHoldExit)
    && match t.reason
       case FixedHoldExit => p.maxExitDate <= bar.date && t.exitPrice == bar.close
       case LimitDownUnfillableGapStop =>
         bar.open <= stop && Unfillable(p, bar, stress) && t.exitPrice == MinReal(bar.open, bar.close)
       case GapStop =>
         && bar.open <= stop && !Unfillable(p, bar, stress)
         && t.exitPrice == Product(bar.open, 1.0 - stress.gapStopAdditionalSlippageRate)
       case Stop => bar.low <= stop < bar.open && t.exitPrice == stop
       case Target => AboveStop(p, bar) && target <= bar.high && t.exitPrice == target
       case MaxHold =>
         AboveStop(p, bar) && bar.high < target && p.maxExitDate <= bar.date && t.exitPrice == bar.close
       case EndOfData => false
  }

  lemma ExitIsPriced(p: Position, bar: Bar, params: Params, stress: ExecutionStress)
    ensures var r := ExitOnBar(p, bar, params, stress);
            && (r.Some? ==> r.value.position == p && PricedBy(r.value, bar, params, stress))
            && (r.None? <==>
                  && bar.date < p.maxExitDate
                  && (params.exitMode.TargetStopMaxHold? ==>
                        AboveStop(p, bar) && bar.high < p.entry.template.targetPrice))
  {
  }

  lemma ExitIsBooked(p: Position, bar: Bar, params: Params, stress: ExecutionStress)
    ensures var r := ExitOnBar(p, bar, params, stress);
            r.Some? ==> Booked(r.value, Rate(params))
  {
    var r := ExitOnBar(p, bar, params, stress);
    if r.Some? {
      CloseIsBooked(p, bar.date, r.value.exitPrice, r.value.reason, params);
    }
  }

  // ---------------------------------------------------------------- every run

  /** The trade is priced by the bar of its exit date, or at the symbol's last close when the data ended. */
  ghost predicate WellPriced(env: Env, t: Trade) {
    var s := t.position.Symbol();
    && Listed(env.prepared, s, t.exitDate)
    && var sr := SeriesOf(env.prepared, s).value;
       if t.reason == EndOfData then
         && |sr.bars| > 0 && t.exitDate == sr.bars[|sr.bars| - 1].date
         && t.exitPrice == sr.bars[|sr.bars| - 1].close
       else PricedBy(t, BarOn(sr, t.exitDate).value, env.params, env.stress)
  }

  lemma GenuineIsPriced(env: Env, t: Trade)
    requires Genuine(env, t)
    ensures WellPriced(env, t) && Booked(t, Rate(env.params))
  {
    var bar := BarOn(SeriesOf(env.prepared, t.position.Symbol()).value, t.exitDate).value;
    ExitIsPriced(t.position, bar, env.params, env.stress);
    ExitIsBooked(t.position, bar, env.params, env.stress);
  }

  lemma EndIsPriced(env: Env, p: Position)
    requires ValidEnv(env) && Listed(env.prepared, p.Symbol(), p.EntryDate())
    ensures WellPriced(env, EndTrade(env, p)) && Booked(EndTrade(env, p), Rate(env.params))
  {
    var sr := SeriesOf(env.prepared, p.Symbol()).value;
    var last := sr.bars[|sr.bars| - 1];
    assert Dates(sr)[|sr.bars| - 1] == last.date;
    CloseIsBooked(p, last.date, last.close, EndOfData, env.params);
  }

  /** Every reported trade of every run is priced and booked so. */
  lemma {:induction false} ReportIsPriced(env: Env, cal: seq<Date>, run: seq<State>, t: Trade)
    requires ValidEnv(env) && IsRun(env, cal, run) && PositionsListed(env, run[|run| - 1].positions)
    requires t in Report(env, run[|run| - 1])
    ensures WellPriced(env, t) && Booked(t, Rate(env.params))
  {
    var st := run[|run| - 1];
    var all := st.trades + EndTrades(env, st.positions);
    SameElements(Report(env, st), all);
    if t in st.trades {
      RunGenuine(env, cal, run, |run| - 1);
      GenuineIsPriced(env, t);
    } else {
      var i :| 0 <= i < |st.positions| && EndTrades(env, st.positions)[i] == t;
      EndIsPriced(env, st.positions[i]);
    }
  }

  /** The cash flows of the trades. */
  function CashFlow(ts: seq<Trade>, rate: real): real {
    if ts == [] then 0.0
    else
      var t := ts[|ts| - 1];
      CashFlow(ts[..|ts| - 1], rate) + Product(Shares(t), Proceeds(t, rate) - Outlay(t, rate))
  }

  lemma {:induction false} PnlIsCashFlow(ts: seq<Trade>, rate: real)
    requires forall t :: t in ts ==> Booked(t, rate)
    ensures NetPnl(ts) == CashFlow(ts, rate)
    decreases |ts|
  {
    if ts == [] {
    } else {
      assert ts[|ts| - 1] in ts;
      PnlIsCashFlow(ts[..|ts| - 1], rate);
    }
  }

  /** After every date the equity is the starting capital with what the closed trades received and paid, costs
      on both sides included. */
  lemma {:induction false} RunCash(env: Env, cal: seq<Date>, run: seq<State>, k: nat)
    requires ValidEnv(env) && IsRun(env, cal, run) && k < |run|
    ensures run[k].equity == env.params.startingCapital + CashFlow(run[k].trades, Rate(env.params))
  {
    RunAccounted(env, cal, run, k);
    RunGenuine(env, cal, run, k);
    forall t | t in run[k].trades ensures Booked(t, Rate(env.params)) {
      GenuineIsPriced(env, t);
    }
    PnlIsCashFlow(run[k].trades, Rate(env.params));
  }

  /** A trade closed by its deadline was held for exactly the holding limit, unless the data of its symbol end
      before. */
  lemma {:induction false} DeadlineIsExact(env: Env, cal: seq<Date>, run: seq<State>, k: nat, t: Trade)
    requires ValidEnv(env) && IsCalendar(env.prepared, cal) && IsRun(env, cal, run) && k < |run| && t in run[k].trades
    requires t.reason == MaxHold || t.reason == FixedHoldExit
    ensures Made(env, t.position) && Listed(env.prepared, t.position.Symbol(), t.exitDate)
    ensures var s := t.position.Symbol();
            || BarsBetween(env, s, t.position.EntryDate(), t.exitDate) == HoldLimit(env)
            || (|DatesOf(env, s)| > 0 && t.exitDate == LastDate(env, s))
  {
    RunInTime(env, cal, run, k);
    RunGenuine(env, cal, run, k);
    assert TradeInTime(env, t, cal[k - 1]) && Genuine(env, t);
    GenuineIsPriced(env, t);
    LateEnough(env, t.position, t.exitDate);
    EntryBeforeExit(env, t);
  }

  lemma LateEnough(env: Env, p: Position, d: Date)
    requires ValidEnv(env) && Made(env, p) && Listed(env.prepared, p.Symbol(), d) && p.maxExitDate <= d
    ensures |DatesOf(env, p.Symbol())| > 0
    ensures BarsBetween(env, p.Symbol(), p.EntryDate(), d) >= env.params.maxHoldDays || d == LastDate(env, p.Symbol())
  {
    var ds := DatesOf(env, p.Symbol());
    var i, j := IndexOf(ds, p.EntryDate()), IndexOf(ds, d);
    DatesIncrease(env, p.Symbol());
    var m := MinInt(i + env.params.maxHoldDays, |ds| - 1);
    assert p.maxExitDate == ds[m];
    IndexMonotone(ds, j, m);
  }

  lemma EntryBeforeExit(env: Env, t: Trade)
    requires ValidEnv(env) && Made(env, t.position) && Listed(env.prepared, t.position.Symbol(), t.exitDate)
    requires env.stress.exitBeforeEntryAtOpen ==> t.position.EntryDate() < t.exitDate
    ensures env.stress.exitBeforeEntryAtOpen ==>
              BarsBetween(env, t.position.Symbol(), t.position.EntryDate(), t.exitDate) >= 1
  {
    var ds := DatesOf(env, t.position.Symbol());
    DatesIncrease(env, t.position.Symbol());
    IndexMonotone(ds, IndexOf(ds, t.position.EntryDate()), IndexOf(ds, t.exitDate));
  }

  /** A hundred shares bought at 1000 and sold at 1100 cost 312.9 at the program's default rates. */
  lemma DefaultCosts(p: Position, exitDate: Date)
    requires p.entry.quantity == 100 && p.entry.template.entryPrice == 1000.0
    ensures var t := CloseTrade(p, exitDate, 1100.0, MaxHold, DefaultParams(TrendPullback, None));
            t.costs == 312.9 && t.netPnl == 9687.1
  {
  }
}
