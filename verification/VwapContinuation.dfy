/** VWAP continuation: after a trend row the price pulls back to the VWAP and then reclaims the
    high of the pullback. A state machine scans each symbol's day; the specification below says in
    terms of row positions which rows it emits. */
module VwapContinuation {
  import opened Prelude
  import opened Sorting
  import opened Grouping

  datatype Quote = Quote(price: NonZero, vwap: Option<NonZero>, smaShort: Option<real>, smaLong: Option<real>,
                         spreadBps: Option<real>, spreadTicks: Option<real>, askDepth: Option<int>,
                         bookImbalance: Option<real>, minutesFromOpen: Option<int>, minutesToClose: Option<int>)

  type Tick = Timed<Quote>

  datatype Params = Params(entryMinute: int, minMinutesToClose: int, trendMinBps: real, pullbackAboveBps: real,
                           maxBelowBps: real, reclaimAboveBps: real, maxRiskBps: real, maxSpreadBps: Option<real>,
                           maxSpreadTicks: Option<real>, minAskDepth: Option<int>, minBookImbalance: Option<real>,
                           requireSmaUptrend: bool, onePerSymbolDay: bool)

  datatype Candidate = Candidate(row: Tick, low: real, high: real, stop: real, riskBps: real, distanceBps: real)

  // ---------------------------------------------------------------- predicates on one row

  predicate PassesTime(r: Tick, p: Params) {
    && r.quote.minutesFromOpen.Some? && r.quote.minutesFromOpen.value >= p.entryMinute
    && r.quote.minutesToClose.Some? && r.quote.minutesToClose.value >= p.minMinutesToClose
  }

  /** Rows outside the time window or without a VWAP are passed over. */
  predicate Active(r: Tick, p: Params) { PassesTime(r, p) && r.quote.vwap.Some? }

  function DistanceBps(r: Tick): real
    requires r.quote.vwap.Some?
  {
    (r.quote.price - r.quote.vwap.value) / r.quote.vwap.value * 10000.0
  }

  predicate PassesTrend(r: Tick, p: Params, distance: real) {
    && distance >= p.trendMinBps
    && (p.requireSmaUptrend ==>
          && r.quote.smaShort.Some? && r.quote.smaLong.Some?
          && r.quote.smaShort.value >= r.quote.smaLong.value)
  }

  predicate PassesExecution(r: Tick, p: Params) {
    && (p.maxSpreadBps.None? || (r.quote.spreadBps.Some? && r.quote.spreadBps.value <= p.maxSpreadBps.value))
    && (p.maxSpreadTicks.None? || (r.quote.spreadTicks.Some? && r.quote.spreadTicks.value <= p.maxSpreadTicks.value))
    && (p.minAskDepth.None? || (r.quote.askDepth.Some? && r.quote.askDepth.value >= p.minAskDepth.value))
    && (p.minBookImbalance.None? ||
        (r.quote.bookImbalance.Some? && r.quote.bookImbalance.value >= p.minBookImbalance.value))
  }

  predicate Trend(r: Tick, p: Params) { Active(r, p) && PassesTrend(r, p, DistanceBps(r)) }

  predicate Zone(r: Tick, p: Params) {
    Active(r, p) && -p.maxBelowBps <= DistanceBps(r) <= p.pullbackAboveBps
  }

  function Risk(r: Tick, stop: real): real { (r.quote.price - stop) / r.quote.price * 10000.0 }

  /** What the row itself must satisfy to be emitted with the given stop. */
  predicate Tradable(r: Tick, stop: real, p: Params) {
    PassesExecution(r, p) && stop < r.quote.price && Risk(r, stop) <= p.maxRiskBps
  }

  /** The row lies in the time window. */
  predicate InWindow(r: Tick, p: Params) {
    && r.quote.minutesFromOpen.Some? && p.entryMinute <= r.quote.minutesFromOpen.value
    && r.quote.minutesToClose.Some? && p.minMinutesToClose <= r.quote.minutesToClose.value
  }

  /** d is the distance of the price from the VWAP in hundredths of a percent of the VWAP. */
  predicate IsDistance(r: Tick, d: real) {
    r.quote.vwap.Some? && Product(d, r.quote.vwap.value) == 10000.0 * (r.quote.price - r.quote.vwap.value)
  }

  lemma DistanceIsUnique(r: Tick, d: real)
    requires r.quote.vwap.Some?
    ensures IsDistance(r, DistanceBps(r)) && (IsDistance(r, d) ==> d == DistanceBps(r))
  {
    QuotientIsUnique(10000.0 * (r.quote.price - r.quote.vwap.value), r.quote.vwap.value, d);
    ScaledQuotient(r.quote.price - r.quote.vwap.value, r.quote.vwap.value);
  }

  lemma QuotientIsUnique(a: real, b: real, d: real)
    requires b != 0.0
    ensures Product(a / b, b) == a
    ensures Product(d, b) == a ==> d == a / b
  {
  }

  lemma ScaledQuotient(a: real, b: real)
    requires b != 0.0
    ensures a / b * 10000.0 == 10000.0 * a / b
  {
  }

  /** The tests on a row, in terms of what it quotes. */
  lemma RowTests(r: Tick, p: Params, d: real)
    ensures Active(r, p) <==> InWindow(r, p) && r.quote.vwap.Some?
    ensures IsDistance(r, d) ==>
              && (Trend(r, p) <==>
                    && InWindow(r, p) && p.trendMinBps <= d
                    && (p.requireSmaUptrend ==>
                          && r.quote.smaShort.Some? && r.quote.smaLong.Some?
                          && r.quote.smaLong.value <= r.quote.smaShort.value))
              && (Zone(r, p) <==> InWindow(r, p) && -p.maxBelowBps <= d && d <= p.pullbackAboveBps)
  {
    if r.quote.vwap.Some? {
      DistanceIsUnique(r, d);
    }
  }

  /** A limit on a quoted value: without one anything passes, with one the value must be there and keep it. */
  predicate Capped(x: Option<real>, cap: Option<real>) { cap.None? || (x.Some? && x.value <= cap.value) }

  predicate Floored(x: Option<real>, floor: Option<real>) { floor.None? || (x.Some? && floor.value <= x.value) }

  /** What a row must satisfy to be emitted with a stop; its risk is the distance to the stop in hundredths of a
      percent of its price. */
  lemma TradeTests(r: Tick, stop: real, p: Params, risk: real)
    requires Product(risk, r.quote.price) == 10000.0 * (r.quote.price - stop)
    ensures Risk(r, stop) == risk
    ensures Tradable(r, stop, p) <==>
            && stop < r.quote.price && risk <= p.maxRiskBps
            && Capped(r.quote.spreadBps, p.maxSpreadBps) && Capped(r.quote.spreadTicks, p.maxSpreadTicks)
            && (p.minAskDepth.None? || (r.quote.askDepth.Some? && p.minAskDepth.value <= r.quote.askDepth.value))
            && Floored(r.quote.bookImbalance, p.minBookImbalance)
  {
    QuotientIsUnique(10000.0 * (r.quote.price - stop), r.quote.price, risk);
    ScaledQuotient(r.quote.price - stop, r.quote.price);
  }

  // ---------------------------------------------------------------- which rows are emitted

  /** A trend row has been seen among the rows from s up to but not including e. */
  ghost predicate TrendIn(rows: seq<Tick>, s: nat, e: nat, p: Params)
    requires e <= |rows|
  {
    exists t :: s <= t < e && Trend(rows[t], p)
  }

  /** Row i lies in the pullback zone, at or after a trend row. */
  ghost predicate Pulls(rows: seq<Tick>, s: nat, i: nat, p: Params)
    requires i < |rows|
  {
    Zone(rows[i], p) && TrendIn(rows, s, i + 1, p)
  }

  /** The prices of the pullback rows from s up to e. */
  ghost function Pullback(rows: seq<Tick>, s: nat, e: nat, p: Params): seq<real>
    requires e <= |rows|
    decreases e
  {
    if e <= s then []
    else if Pulls(rows, s, e - 1, p) then Pullback(rows, s, e - 1, p) + [rows[e - 1].quote.price]
    else Pullback(rows, s, e - 1, p)
  }

  ghost predicate Reclaims(rows: seq<Tick>, r: nat, high: real, p: Params)
    requires r < |rows| && Active(rows[r], p)
  {
    && DistanceBps(rows[r]) >= p.reclaimAboveBps
    && rows[r].quote.price > high
    && (r == 0 || rows[r].quote.price > rows[r - 1].quote.price)
  }

  /** Row r is emitted when the state was last reset before row s. */
  ghost predicate Emits(rows: seq<Tick>, s: nat, r: nat, p: Params)
    requires r < |rows|
  {
    var ps := Pullback(rows, s, r, p);
    Active(rows[r], p) && !Pulls(rows, s, r, p) && ps != [] && Reclaims(rows, r, MaxOf(ps), p) &&
    Tradable(rows[r], MinReal(rows[r].quote.vwap.value, MinOf(ps)), p)
  }

  ghost function CandidateAt(rows: seq<Tick>, s: nat, r: nat, p: Params): Candidate
    requires r < |rows| && Emits(rows, s, r, p)
  {
    var ps := Pullback(rows, s, r, p);
    var stop := MinReal(rows[r].quote.vwap.value, MinOf(ps));
    Candidate(rows[r], MinOf(ps), MaxOf(ps), stop, Risk(rows[r], stop), DistanceBps(rows[r]))
  }

  /** The first row from i on that is emitted, or the number of rows. */
  ghost function FirstFrom(rows: seq<Tick>, s: nat, i: nat, p: Params): (r: nat)
    requires i <= |rows|
    ensures i <= r <= |rows|
    ensures r < |rows| ==> Emits(rows, s, r, p)
    decreases |rows| - i
  {
    if i == |rows| || Emits(rows, s, i, p) then i else FirstFrom(rows, s, i + 1, p)
  }

  /** The candidates still to come at row i when the state was last reset before row s. */
  ghost function EmissionsFrom(rows: seq<Tick>, s: nat, i: nat, p: Params): seq<Candidate>
    requires i <= |rows|
    decreases |rows| - i
  {
    var r := FirstFrom(rows, s, i, p);
    if r == |rows| then []
    else if p.onePerSymbolDay then [CandidateAt(rows, s, r, p)]
    else [CandidateAt(rows, s, r, p)] + EmissionsFrom(rows, r + 1, r + 1, p)
  }

  // ---------------------------------------------------------------- the state machine

  datatype Watch = Watch(trendSeen: bool, inPullback: bool, low: Option<real>, high: Option<real>)

  const IDLE := Watch(false, false, None, None)

  /** The state at row i when it was last reset before row s. */
  ghost function WatchAt(rows: seq<Tick>, s: nat, i: nat, p: Params): Watch
    requires i <= |rows|
  {
    var ps := Pullback(rows, s, i, p);
    if ps == [] then Watch(TrendIn(rows, s, i, p), false, None, None)
    else Watch(TrendIn(rows, s, i, p), true, Some(MinOf(ps)), Some(MaxOf(ps)))
  }

  lemma ExtremesOfAppend(ps: seq<real>, x: real)
    ensures MinOf(ps + [x]) == if ps == [] then x else MinReal(MinOf(ps), x)
    ensures MaxOf(ps + [x]) == if ps == [] then x else MaxReal(MaxOf(ps), x)
  {
  }

  lemma TrendExtends(rows: seq<Tick>, s: nat, i: nat, p: Params)
    requires s <= i < |rows|
    ensures TrendIn(rows, s, i + 1, p) <==> TrendIn(rows, s, i, p) || Trend(rows[i], p)
  {
  }

  /** The first half of the loop body: it notes a trend and widens the pullback. */
  method Track(rows: seq<Tick>, ghost s: nat, i: nat, p: Params, w: Watch) returns (next: Watch, pulled: bool)
    requires s <= i < |rows| && Active(rows[i], p) && w == WatchAt(rows, s, i, p)
    ensures pulled == Pulls(rows, s, i, p)
    ensures next == WatchAt(rows, s, i + 1, p)
  {
    var r := rows[i];
    TrendExtends(rows, s, i, p);
    ExtremesOfAppend(Pullback(rows, s, i, p), r.quote.price);
    var distance := DistanceBps(r);
    next := w;
    if PassesTrend(r, p, distance) {
      next := next.(trendSeen := true);
    }
    pulled := next.trendSeen && -p.maxBelowBps <= distance <= p.pullbackAboveBps;
    if pulled {
      next := next.(inPullback := true,
                    low := Some(if next.low.None? then r.quote.price else MinReal(next.low.value, r.quote.price)),
                    high := Some(if next.high.None? then r.quote.price else MaxReal(next.high.value, r.quote.price)));
    }
  }

  /** The second half of the loop body, for a row outside the pullback. */
  method Judge(rows: seq<Tick>, ghost s: nat, i: nat, p: Params, w: Watch, previous: Option<Tick>)
    returns (found: Option<Candidate>)
    requires s <= i < |rows| && Active(rows[i], p) && !Pulls(rows, s, i, p) && w == WatchAt(rows, s, i + 1, p)
    requires previous == if i == 0 then None else Some(rows[i - 1])
    ensures found.Some? <==> Emits(rows, s, i, p)
    ensures found.Some? ==> found.value == CandidateAt(rows, s, i, p)
  {
    var r := rows[i];
    if !w.inPullback {
      return None;
    }
    var distance := DistanceBps(r);
    var reclaimed := distance >= p.reclaimAboveBps && r.quote.price > w.high.value &&
                     (previous.None? || r.quote.price > previous.value.quote.price);
    if !reclaimed || !PassesExecution(r, p) {
      return None;
    }
    var stop := MinReal(r.quote.vwap.value, w.low.value);
    if stop >= r.quote.price {
      return None;
    }
    var risk := (r.quote.price - stop) / r.quote.price * 10000.0;
    if risk > p.maxRiskBps {
      return None;
    }
    return Some(Candidate(r, w.low.value, w.high.value, stop, risk, distance));
  }

  lemma FreshWatch(rows: seq<Tick>, s: nat, p: Params)
    requires s <= |rows|
    ensures WatchAt(rows, s, s, p) == IDLE
  {
  }

  lemma PassedOver(rows: seq<Tick>, s: nat, i: nat, p: Params)
    requires s <= i < |rows| && !Active(rows[i], p)
    ensures WatchAt(rows, s, i + 1, p) == WatchAt(rows, s, i, p)
  {
  }

  /** One row of the scan of a key. */
  method Step(rows: seq<Tick>, ghost s: nat, i: nat, p: Params, w: Watch, previous: Option<Tick>)
    returns (next: Watch, found: Option<Candidate>)
    requires s <= i < |rows| && w == WatchAt(rows, s, i, p)
    requires previous == if i == 0 then None else Some(rows[i - 1])
    ensures found.Some? <==> Emits(rows, s, i, p)
    ensures found.Some? ==> found.value == CandidateAt(rows, s, i, p) && next == IDLE
    ensures found.None? ==> next == WatchAt(rows, s, i + 1, p)
  {
    if !Active(rows[i], p) {
      PassedOver(rows, s, i, p);
      return w, None;
    }
    var pulled;
    next, pulled := Track(rows, s, i, p, w);
    if pulled {
      return next, None;
    }
    found := Judge(rows, s, i, p, next, previous);
    if found.Some? {
      next := IDLE;
    }
  }

  /** Row i moves at most one candidate from those still to come to those found. */
  lemma ScanStep(rows: seq<Tick>, s: nat, i: nat, p: Params, out: seq<Candidate>)
    requires i < |rows|
    ensures out + EmissionsFrom(rows, s, i, p) ==
            if !Emits(rows, s, i, p) then out + EmissionsFrom(rows, s, i + 1, p)
            else if p.onePerSymbolDay then out + [CandidateAt(rows, s, i, p)]
            else (out + [CandidateAt(rows, s, i, p)]) + EmissionsFrom(rows, i + 1, i + 1, p)
  {
    EmissionStep(rows, s, i, p);
  }

  /** Candidates still to come, before and after row i. */
  lemma EmissionStep(rows: seq<Tick>, s: nat, i: nat, p: Params)
    requires i < |rows|
    ensures EmissionsFrom(rows, s, i, p) ==
            if !Emits(rows, s, i, p) then EmissionsFrom(rows, s, i + 1, p)
            else if p.onePerSymbolDay then [CandidateAt(rows, s, i, p)]
            else [CandidateAt(rows, s, i, p)] + EmissionsFrom(rows, i + 1, i + 1, p)
  {
  }

  method ScanGroup(rows: seq<Tick>, p: Params) returns (out: seq<Candidate>)
    ensures out == EmissionsFrom(rows, 0, 0, p)
  {
    out := [];
    var w := IDLE;
    var previous: Option<Tick> := None;
    ghost var s := 0;
    FreshWatch(rows, 0, p);
    for i := 0 to |rows|
      invariant s <= i && w == WatchAt(rows, s, i, p)
      invariant previous == if i == 0 then None else Some(rows[i - 1])
      invariant EmissionsFrom(rows, 0, 0, p) == out + EmissionsFrom(rows, s, i, p)
    {
      var found;
      w, found := Step(rows, s, i, p, w, previous);
      ScanStep(rows, s, i, p, out);
      if found.Some? {
        out := out + [found.value];
        if p.onePerSymbolDay {
          return;
        }
        s := i + 1;
        FreshWatch(rows, s, p);
      }
      previous := Some(rows[i]);
    }
  }

  // ---------------------------------------------------------------- what an emission means

  lemma {:induction false} PullbackPrices(rows: seq<Tick>, s: nat, e: nat, p: Params)
    requires e <= |rows|
    ensures forall i :: s <= i < e && Pulls(rows, s, i, p) ==> rows[i].quote.price as real in Pullback(rows, s, e, p)
    ensures forall x :: x in Pullback(rows, s, e, p) ==> PulledAt(rows, s, e, p, x)
    decreases e
  {
    if e <= s {
    } else {
      PullbackPrices(rows, s, e - 1, p);
      forall x | x in Pullback(rows, s, e, p) ensures PulledAt(rows, s, e, p, x) {
        if x in Pullback(rows, s, e - 1, p) {
          var i :| s <= i < e - 1 && Pulls(rows, s, i, p) && rows[i].quote.price == x;
        } else {
          assert Pulls(rows, s, e - 1, p) && rows[e - 1].quote.price == x;
        }
      }
    }
  }

  /** Some pullback row from s up to e has this price. */
  ghost predicate PulledAt(rows: seq<Tick>, s: nat, e: nat, p: Params, x: real)
    requires e <= |rows|
  {
    exists i :: s <= i < e && Pulls(rows, s, i, p) && rows[i].quote.price == x
  }

  /** The story behind a candidate, told without the state machine: since the reset before row s a
      trend row is followed by pullback rows, the recorded low and high are the extreme prices of
      exactly those rows, and row r exceeds them all with an acceptable risk. */
  ghost predicate Justified(rows: seq<Tick>, s: nat, r: nat, c: Candidate, p: Params) {
    && s < r < |rows| && c.row == rows[r] && Active(c.row, p)
    && (exists t, z :: s <= t <= z < r && Trend(rows[t], p) && Zone(rows[z], p))
    && PulledAt(rows, s, r, p, c.low) && PulledAt(rows, s, r, p, c.high)
    && (forall z :: s <= z < r && Pulls(rows, s, z, p) ==> c.low <= rows[z].quote.price <= c.high < c.row.quote.price)
    && c.row.quote.price > rows[r - 1].quote.price && c.distanceBps >= p.reclaimAboveBps
    && c.distanceBps == DistanceBps(c.row) && c.stop == MinReal(c.row.quote.vwap.value, c.low) < c.row.quote.price
    && c.riskBps == Risk(c.row, c.stop) <= p.maxRiskBps && (c.row.quote.price > 0.0 ==> c.riskBps > 0.0)
    && PassesExecution(c.row, p)
  }

  lemma PositiveRisk(r: Tick, stop: real)
    requires stop < r.quote.price && r.quote.price > 0.0
    ensures Risk(r, stop) > 0.0
  {
  }

  lemma EmittedIsJustified(rows: seq<Tick>, s: nat, r: nat, p: Params)
    requires s <= r < |rows| && Emits(rows, s, r, p)
    ensures Justified(rows, s, r, CandidateAt(rows, s, r, p), p)
  {
    PullbackPrices(rows, s, r, p);
    var ps, c := Pullback(rows, s, r, p), CandidateAt(rows, s, r, p);
    assert PulledAt(rows, s, r, p, c.low) && PulledAt(rows, s, r, p, c.high);
    var z :| s <= z < r && Pulls(rows, s, z, p) && rows[z].quote.price == c.low;
    var t :| s <= t < z + 1 && Trend(rows[t], p);
    if c.row.quote.price > 0.0 {
      PositiveRisk(c.row, c.stop);
    }
  }

  /** Candidate k was emitted by row r with the state last reset before row `reset`. */
  ghost predicate EmittedAt(rows: seq<Tick>, reset: nat, r: nat, p: Params, c: Candidate) {
    reset <= r < |rows| && Emits(rows, reset, r, p) && c == CandidateAt(rows, reset, r, p)
  }

  lemma {:induction false} WhereEmitted(rows: seq<Tick>, s: nat, i: nat, p: Params, k: nat)
      returns (reset: nat, r: nat)
    requires s <= i <= |rows| && k < |EmissionsFrom(rows, s, i, p)|
    ensures EmittedAt(rows, reset, r, p, EmissionsFrom(rows, s, i, p)[k])
    ensures if k == 0 then reset == s
            else 0 < reset && rows[reset - 1] == EmissionsFrom(rows, s, i, p)[k - 1].row
    decreases |rows| - i
  {
    reset, r := s, FirstFrom(rows, s, i, p);
    if k == 0 {
    } else {
      var rest := EmissionsFrom(rows, r + 1, r + 1, p);
      assert EmissionsFrom(rows, s, i, p) == [CandidateAt(rows, s, r, p)] + rest;
      reset, r := WhereEmitted(rows, r + 1, r + 1, p, k - 1);
    }
  }

  /** Every candidate is justified since the last reset: the start of the scan for the first one,
      the row after the previous candidate for the others. */
  lemma {:induction false} EveryCandidateIsJustified(rows: seq<Tick>, p: Params, k: nat) returns (reset: nat, r: nat)
    requires k < |EmissionsFrom(rows, 0, 0, p)|
    ensures Justified(rows, reset, r, EmissionsFrom(rows, 0, 0, p)[k], p)
    ensures if k == 0 then reset == 0
            else 0 < reset && rows[reset - 1] == EmissionsFrom(rows, 0, 0, p)[k - 1].row
  {
    reset, r := WhereEmitted(rows, 0, 0, p, k);
    EmittedIsJustified(rows, reset, r, p);
  }

  /** Nothing is missed: a row that qualifies since the last reset is preceded by, or is, the next
      emission. */
  lemma {:induction false} NothingIsMissed(rows: seq<Tick>, s: nat, i: nat, k: nat, p: Params)
    requires s <= i <= k < |rows| && Emits(rows, s, k, p)
    ensures EmissionsFrom(rows, s, i, p) != []
    ensures exists r :: i <= r <= k && EmissionsFrom(rows, s, i, p)[0].row == rows[r]
    decreases k - i
  {
    EmissionStep(rows, s, i, p);
    if !Emits(rows, s, i, p) {
      NothingIsMissed(rows, s, i + 1, k, p);
    }
  }

  // ---------------------------------------------------------------- all keys

  ghost function AllEmissions(scans: seq<seq<Tick>>, n: nat, p: Params): seq<Candidate>
    requires n <= |scans|
  {
    if n == 0 then [] else AllEmissions(scans, n - 1, p) + EmissionsFrom(scans[n - 1], 0, 0, p)
  }

  predicate TimeThenSymbol(a: Candidate, b: Candidate) { RowOrder(a.row, b.row) }

  method FindCandidates(rows: seq<Tick>, p: Params) returns (out: seq<Candidate>)
    ensures out == Sort(TimeThenSymbol, AllEmissions(Scans(rows), |Scans(rows)|, p))
  {
    var scans := GroupRows(KeyOf, NotLater, rows);
    out := [];
    for i := 0 to |scans|
      invariant out == AllEmissions(scans, i, p)
    {
      var found := ScanGroup(scans[i], p);
      out := out + found;
    }
    out := Sort(TimeThenSymbol, out);
  }

  /** The candidates come in the order of time, those of one time by symbol. */
  lemma CandidatesInOrder(rows: seq<Tick>, p: Params, i: nat, j: nat)
    requires i < j < |Sort(TimeThenSymbol, AllEmissions(Scans(rows), |Scans(rows)|, p))|
    ensures var out := Sort(TimeThenSymbol, AllEmissions(Scans(rows), |Scans(rows)|, p));
            && out[i].row.timestamp <= out[j].row.timestamp
            && (out[i].row.timestamp == out[j].row.timestamp ==> out[i].row.key.symbol <= out[j].row.key.symbol)
  {
    var all := AllEmissions(Scans(rows), |Scans(rows)|, p);
    SortOrdered(TimeThenSymbol, all);
    assert TimeThenSymbol(Sort(TimeThenSymbol, all)[i], Sort(TimeThenSymbol, all)[j]);
  }

  predicate KeysDiffer(a: Candidate, b: Candidate) { a.row.key != b.row.key }

  lemma {:induction false} EmissionsKeepTheKey(rows: seq<Tick>, s: nat, i: nat, p: Params, k: Key)
    requires i <= |rows| && forall r :: r in rows ==> r.key == k
    ensures forall c :: c in EmissionsFrom(rows, s, i, p) ==> c.row.key == k
    ensures p.onePerSymbolDay ==> |EmissionsFrom(rows, s, i, p)| <= 1
    decreases |rows| - i
  {
    var r := FirstFrom(rows, s, i, p);
    if r < |rows| && !p.onePerSymbolDay {
      EmissionsKeepTheKey(rows, r + 1, r + 1, p, k);
    }
  }

  lemma {:induction false} AllEmissionsDiffer(scans: seq<seq<Tick>>, keys: seq<Key>, n: nat, p: Params)
    requires n <= |scans| == |keys| && p.onePerSymbolDay
    requires forall i, j :: 0 <= i < j < |keys| ==> keys[i] != keys[j]
    requires forall i :: 0 <= i < |scans| ==> forall r :: r in scans[i] ==> r.key == keys[i]
    ensures Pairwise(KeysDiffer, AllEmissions(scans, n, p))
    ensures forall c :: c in AllEmissions(scans, n, p) ==> c.row.key in keys[..n]
  {
    if n == 0 {
    } else {
      AllEmissionsDiffer(scans, keys, n - 1, p);
      EmissionsKeepTheKey(scans[n - 1], 0, 0, p, keys[n - 1]);
      var earlier, last := AllEmissions(scans, n - 1, p), EmissionsFrom(scans[n - 1], 0, 0, p);
      assert keys[..n] == keys[..n - 1] + [keys[n - 1]];
      assert forall c :: c in earlier ==> c.row.key != keys[n - 1];
      AppendDiffers(earlier, last);
    }
  }

  lemma AppendDiffers(earlier: seq<Candidate>, last: seq<Candidate>)
    requires Pairwise(KeysDiffer, earlier) && |last| <= 1
    requires forall c, d :: c in earlier && d in last ==> c.row.key != d.row.key
    ensures Pairwise(KeysDiffer, earlier + last)
  {
  }

  /** With one_per_symbol_day no two candidates share a date and symbol. */
  lemma OneCandidatePerSymbolAndDay(rows: seq<Tick>, p: Params)
    requires p.onePerSymbolDay
    ensures Pairwise(KeysDiffer, Sort(TimeThenSymbol, AllEmissions(Scans(rows), |Scans(rows)|, p)))
  {
    var scans, keys := Scans(rows), Keys(KeyOf, rows);
    KeysOnce(KeyOf, rows);
    forall i | 0 <= i < |scans| ensures forall r: Tick :: r in scans[i] ==> r.key == keys[i] {
      GroupAt(KeyOf, NotLater, rows, i);
    }
    AllEmissionsDiffer(scans, keys, |scans|, p);
    var all := AllEmissions(scans, |scans|, p);
    PairwisePermutation(KeysDiffer, all, Sort(TimeThenSymbol, all));
  }
}
