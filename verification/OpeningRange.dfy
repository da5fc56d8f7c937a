/** Opening-range breakout candidates of one trading day and symbol, and the funnel that counts how
    many rows survive each of the filter's stages. */
module OpeningRange {
  import opened Prelude
  import opened Sorting
  import opened Cooldown
  import opened Grouping

  datatype Quote = Quote(price: NonZero, vwap: Option<real>, volumeRatio: Option<real>, spreadBps: Option<real>,
                         spreadTicks: Option<real>, askDepth: Option<int>, minutesFromOpen: Option<int>,
                         minutesToClose: Option<int>)

  type Tick = Timed<Quote>

  datatype Params = Params(rangeMinutes: int, entryMinute: int, minMinutesToClose: int, requireVwap: bool,
                           minVolumeRatio: Option<real>, maxSpreadBps: Option<real>, maxSpreadTicks: Option<real>,
                           minAskDepth: Option<int>, maxRiskBps: Option<real>, cooldown: real)

  // ---------------------------------------------------------------- the row predicates

  predicate PassesTime(r: Tick, p: Params) {
    && r.quote.minutesFromOpen.Some? && r.quote.minutesFromOpen.value >= p.entryMinute
    && r.quote.minutesToClose.Some? && r.quote.minutesToClose.value >= p.minMinutesToClose
  }

  predicate PassesVwap(r: Tick, p: Params) {
    !p.requireVwap || (r.quote.vwap.Some? && r.quote.price >= r.quote.vwap.value)
  }

  predicate PassesVolume(r: Tick, p: Params) {
    p.minVolumeRatio.None? || (r.quote.volumeRatio.Some? && r.quote.volumeRatio.value >= p.minVolumeRatio.value)
  }

  predicate PassesExecution(r: Tick, p: Params) {
    && (p.maxSpreadBps.None? || (r.quote.spreadBps.Some? && r.quote.spreadBps.value <= p.maxSpreadBps.value))
    && (p.maxSpreadTicks.None? || (r.quote.spreadTicks.Some? && r.quote.spreadTicks.value <= p.maxSpreadTicks.value))
    && (p.minAskDepth.None? || (r.quote.askDepth.Some? && r.quote.askDepth.value >= p.minAskDepth.value))
  }

  predicate PassesBase(r: Tick, p: Params) {
    PassesTime(r, p) && PassesVwap(r, p) && PassesVolume(r, p) && PassesExecution(r, p)
  }

  /** A missing or zero VWAP falls back to the opening low. */
  function StopPrice(r: Tick, low: real): real {
    MaxReal(low, if r.quote.vwap.Some? && r.quote.vwap.value != 0.0 then r.quote.vwap.value else low)
  }

  function RiskBps(r: Tick, low: real): real {
    (r.quote.price - StopPrice(r, low)) / r.quote.price * 10000.0
  }

  predicate PassesRisk(r: Tick, low: real, p: Params) {
    StopPrice(r, low) < r.quote.price && (p.maxRiskBps.None? || RiskBps(r, low) <= p.maxRiskBps.value)
  }

  /** The stop is the higher of the opening low and the VWAP; a missing or zero VWAP does not count. */
  lemma StopIsHigher(r: Tick, low: real)
    ensures var stop, vwap := StopPrice(r, low), r.quote.vwap;
            && low <= stop && (vwap.Some? && vwap.value != 0.0 ==> vwap.value <= stop)
            && (stop == low || (vwap.Some? && vwap.value != 0.0 && stop == vwap.value))
  {
  }

  /** The tests of the stages on a row, in terms of what it quotes; the risk is the distance to the stop in
      hundredths of a percent of the price. */
  lemma StageTests(r: Tick, low: real, p: Params, risk: real)
    requires Product(risk, r.quote.price) == 10000.0 * (r.quote.price - StopPrice(r, low))
    ensures PassesTime(r, p) <==>
            && r.quote.minutesFromOpen.Some? && p.entryMinute <= r.quote.minutesFromOpen.value
            && r.quote.minutesToClose.Some? && p.minMinutesToClose <= r.quote.minutesToClose.value
    ensures PassesVwap(r, p) <==> (p.requireVwap ==> r.quote.vwap.Some? && r.quote.vwap.value <= r.quote.price)
    ensures PassesVolume(r, p) <==>
            (p.minVolumeRatio.Some? ==>
               r.quote.volumeRatio.Some? && p.minVolumeRatio.value <= r.quote.volumeRatio.value)
    ensures PassesExecution(r, p) <==>
            && (p.maxSpreadBps.Some? ==> r.quote.spreadBps.Some? && r.quote.spreadBps.value <= p.maxSpreadBps.value)
            && (p.maxSpreadTicks.Some? ==>
                  r.quote.spreadTicks.Some? && r.quote.spreadTicks.value <= p.maxSpreadTicks.value)
            && (p.minAskDepth.Some? ==> r.quote.askDepth.Some? && p.minAskDepth.value <= r.quote.askDepth.value)
    ensures RiskBps(r, low) == risk
    ensures PassesRisk(r, low, p) <==>
            StopPrice(r, low) < r.quote.price && (p.maxRiskBps.Some? ==> risk <= p.maxRiskBps.value)
    ensures InOpening(r, p) <==> r.quote.minutesFromOpen.Some? && 0 <= r.quote.minutesFromOpen.value < p.rangeMinutes
  {
    RiskIsUnique(r.quote.price - StopPrice(r, low), r.quote.price, risk);
  }

  lemma RiskIsUnique(gap: real, price: real, risk: real)
    requires price != 0.0 && Product(risk, price) == 10000.0 * gap
    ensures risk == gap / price * 10000.0
  {
  }

  // ---------------------------------------------------------------- crosses and stages

  /** A row that crosses the opening high, with the opening range it was judged by. */
  datatype Cross = Cross(row: Tick, high: real, low: real)

  datatype Candidate = Candidate(row: Tick, high: real, low: real, stop: real, riskBps: real)

  function CandidateOf(c: Cross): Candidate {
    Candidate(c.row, c.high, c.low, StopPrice(c.row, c.low), RiskBps(c.row, c.low))
  }

  function CandidatesOf(cs: seq<Cross>): (out: seq<Candidate>)
    ensures |out| == |cs| && forall i :: 0 <= i < |cs| ==> out[i] == CandidateOf(cs[i])
  {
    seq(|cs|, (i: int) requires 0 <= i < |cs| => CandidateOf(cs[i]))
  }

  predicate InOpening(r: Tick, p: Params) {
    r.quote.minutesFromOpen.Some? && 0 <= r.quote.minutesFromOpen.value < p.rangeMinutes
  }

  function OpeningPrice(p: Params): Tick -> Option<real> {
    (r: Tick) => if InOpening(r, p) then Some(r.quote.price) else None
  }

  function Opening(rows: seq<Tick>, p: Params): seq<real> { FilterMap(OpeningPrice(p), rows) }

  /** The price crosses from at or below the level of the row right before to above it. */
  predicate Crossed(rows: seq<Tick>, i: nat, high: real)
    requires i < |rows|
  {
    rows[i].quote.price > high && (i == 0 || rows[i - 1].quote.price <= high)
  }

  function CrossesFrom(rows: seq<Tick>, i: nat, high: real, low: real, p: Params): (cs: seq<Cross>)
    requires i <= |rows|
    decreases |rows| - i
  {
    if i == |rows| then []
    else if PassesTime(rows[i], p) && Crossed(rows, i, high)
    then [Cross(rows[i], high, low)] + CrossesFrom(rows, i + 1, high, low, p)
    else CrossesFrom(rows, i + 1, high, low, p)
  }

  /** A stage of the funnel keeps some of the crosses. */
  function VwapStage(p: Params): Cross -> Option<Cross> {
    (c: Cross) => if PassesVwap(c.row, p) then Some(c) else None
  }

  function VolumeStage(p: Params): Cross -> Option<Cross> {
    (c: Cross) => if PassesVolume(c.row, p) then Some(c) else None
  }

  function ExecutionStage(p: Params): Cross -> Option<Cross> {
    (c: Cross) => if PassesExecution(c.row, p) then Some(c) else None
  }

  function RiskStage(p: Params): Cross -> Option<Cross> {
    (c: Cross) => if PassesRisk(c.row, c.low, p) then Some(c) else None
  }

  predicate PassesAll(c: Cross, p: Params) {
    PassesVwap(c.row, p) && PassesVolume(c.row, p) && PassesExecution(c.row, p) && PassesRisk(c.row, c.low, p)
  }

  function AllStages(p: Params): Cross -> Option<Cross> {
    (c: Cross) => if PassesAll(c, p) then Some(c) else None
  }

  /** The rows counted as `risk`: those that pass all stages before the cooldown. */
  function RiskRows(cs: seq<Cross>, p: Params): seq<Cross> { FilterMap(AllStages(p), cs) }

  /** Filtering stage by stage leaves the rows that pass all of them. */
  lemma {:induction false} StagesCompose(cs: seq<Cross>, p: Params)
    ensures RiskRows(cs, p) == FilterMap(RiskStage(p), FilterMap(ExecutionStage(p),
                               FilterMap(VolumeStage(p), FilterMap(VwapStage(p), cs))))
  {
    var s1 := FilterMap(VwapStage(p), cs);
    var s2 := FilterMap(VolumeStage(p), s1);
    FilterMapCompose(ExecutionStage(p), RiskStage(p), LastStages(p, 2), s2);
    FilterMapCompose(VolumeStage(p), LastStages(p, 2), LastStages(p, 3), s1);
    FilterMapCompose(VwapStage(p), LastStages(p, 3), AllStages(p), cs);
  }

  /** The last two or three stages at once. */
  function LastStages(p: Params, n: int): Cross -> Option<Cross> {
    (c: Cross) => if (n < 3 || PassesVolume(c.row, p)) && PassesExecution(c.row, p) && PassesRisk(c.row, c.low, p)
                  then Some(c) else None
  }

  function Stamp(c: Cross): real { c.row.timestamp }

  /** Crosses of the rows of one key, in the order of time. */
  function GroupCrosses(rows: seq<Tick>, p: Params): seq<Cross> {
    var opening := Opening(rows, p);
    if opening == [] then [] else CrossesFrom(rows, 0, MaxOf(opening), MinOf(opening), p)
  }

  /** The highest and the lowest price of the first minutes. */
  ghost predicate IsOpeningRange(rows: seq<Tick>, p: Params, high: real, low: real) {
    && (forall r :: r in rows && InOpening(r, p) ==> low <= r.quote.price <= high)
    && (exists r :: r in rows && InOpening(r, p) && r.quote.price == high)
    && (exists r :: r in rows && InOpening(r, p) && r.quote.price == low)
  }

  /** c is row k, which is in time and comes from at or below the high to above it. */
  predicate CrossAt(rows: seq<Tick>, k: int, high: real, low: real, p: Params, c: Cross) {
    && 0 <= k < |rows| && c == Cross(rows[k], high, low) && PassesTime(rows[k], p)
    && high < rows[k].quote.price && (k > 0 ==> rows[k - 1].quote.price <= high)
  }

  /** With a price in the first minutes the crosses are the rows in time that break out of the range of these
      prices; without one there are none. */
  lemma {:induction false} CrossesBreakOut(rows: seq<Tick>, p: Params, high: real, low: real, c: Cross)
    ensures IsOpeningRange(rows, p, high, low) ==>
              (c in GroupCrosses(rows, p) <==> exists k :: CrossAt(rows, k, high, low, p, c))
    ensures (forall r :: r in rows ==> !InOpening(r, p)) ==> GroupCrosses(rows, p) == []
  {
    var prices := Opening(rows, p);
    OpeningHolds(rows, p);
    if prices != [] {
      FilterMapMember(OpeningPrice(p), rows, prices[0]);
      CrossMember(rows, 0, MaxOf(prices), MinOf(prices), p, c);
      if IsOpeningRange(rows, p, high, low) {
        RangeIsUnique(rows, p, high, low);
      }
    }
  }

  lemma RangeIsUnique(rows: seq<Tick>, p: Params, high: real, low: real)
    requires IsOpeningRange(rows, p, high, low) && Opening(rows, p) != []
    ensures high == MaxOf(Opening(rows, p)) && low == MinOf(Opening(rows, p))
  {
    var prices := Opening(rows, p);
    OpeningHolds(rows, p);
    FilterMapMember(OpeningPrice(p), rows, MaxOf(prices));
    FilterMapMember(OpeningPrice(p), rows, MinOf(prices));
  }

  lemma OpeningHolds(rows: seq<Tick>, p: Params)
    ensures forall r :: r in rows && InOpening(r, p) ==> r.quote.price in Opening(rows, p)
  {
    forall r | r in rows && InOpening(r, p) ensures r.quote.price in Opening(rows, p) {
      assert OpeningPrice(p)(r) == Some(r.quote.price);
      FilterMapMember(OpeningPrice(p), rows, r.quote.price);
    }
  }

  lemma {:induction false} CrossMember(rows: seq<Tick>, i: nat, high: real, low: real, p: Params, c: Cross)
    requires i <= |rows|
    ensures c in CrossesFrom(rows, i, high, low, p) <==> exists k :: i <= k && CrossAt(rows, k, high, low, p, c)
    decreases |rows| - i
  {
    if i == |rows| {
    } else {
      CrossMember(rows, i + 1, high, low, p, c);
      if CrossAt(rows, i, high, low, p, c) {
        assert c in CrossesFrom(rows, i, high, low, p);
      }
    }
  }

  /** The candidates of one key: the greedy cooldown filter over exactly its `risk` rows. */
  function GroupCandidates(rows: seq<Tick>, p: Params): seq<Candidate> {
    CandidatesOf(Thin(Stamp, None, RiskRows(GroupCrosses(rows, p), p), p.cooldown))
  }

  // ---------------------------------------------------------------- the scan of one key

  /** What the scan of the rows from i on still has to emit. */
  ghost function Pending(rows: seq<Tick>, i: nat, high: real, low: real, p: Params, last: Option<real>): seq<Candidate>
    requires i <= |rows|
  {
    CandidatesOf(Thin(Stamp, last, RiskRows(CrossesFrom(rows, i, high, low, p), p), p.cooldown))
  }

  ghost predicate Emits(rows: seq<Tick>, i: nat, high: real, low: real, p: Params, last: Option<real>)
    requires i < |rows|
  {
    PassesBase(rows[i], p) && Crossed(rows, i, high) && !Blocks(last, rows[i].timestamp, p.cooldown) &&
    PassesRisk(rows[i], low, p)
  }

  /** One row of the scan either leaves the rest of the work as it is or takes one row of it. */
  lemma ScanStep(rows: seq<Tick>, i: nat, high: real, low: real, p: Params, last: Option<real>)
    requires i < |rows|
    ensures var r := rows[i];
            Pending(rows, i, high, low, p, last) ==
            if Emits(rows, i, high, low, p, last)
            then [CandidateOf(Cross(r, high, low))] + Pending(rows, i + 1, high, low, p, Some(r.timestamp))
            else Pending(rows, i + 1, high, low, p, last)
  {
  }

  /** The decision on one row: the cooldown is checked before the risk, and only a row that is
      emitted will set the time of the last candidate. */
  method Judge(rows: seq<Tick>, i: nat, high: real, low: real, p: Params, last: Option<real>, previous: Option<Tick>)
    returns (candidate: Option<Candidate>)
    requires i < |rows|
    requires previous == if i == 0 then None else Some(rows[i - 1])
    ensures candidate == if Emits(rows, i, high, low, p, last)
                         then Some(CandidateOf(Cross(rows[i], high, low))) else None
  {
    var r := rows[i];
    if !PassesBase(r, p) {
      return None;
    }
    var crossed := r.quote.price > high && (previous.None? || previous.value.quote.price <= high);
    if !crossed {
      return None;
    }
    if Blocks(last, r.timestamp, p.cooldown) {
      return None;
    }
    var stop := StopPrice(r, low);
    if stop >= r.quote.price {
      return None;
    }
    var riskBps := (r.quote.price - stop) / r.quote.price * 10000.0;
    if p.maxRiskBps.Some? && riskBps > p.maxRiskBps.value {
      return None;
    }
    return Some(Candidate(r, high, low, stop, riskBps));
  }

  lemma Regroup(out: seq<Candidate>, c: Candidate, rest: seq<Candidate>)
    ensures out + ([c] + rest) == (out + [c]) + rest
  {
  }

  /** The scan of a key's ordered rows. */
  method ScanRows(rows: seq<Tick>, high: real, low: real, p: Params) returns (out: seq<Candidate>)
    ensures out == Pending(rows, 0, high, low, p, None)
  {
    out := [];
    var last: Option<real> := None;
    var previous: Option<Tick> := None;
    for i := 0 to |rows|
      invariant previous == if i == 0 then None else Some(rows[i - 1])
      invariant Pending(rows, 0, high, low, p, None) == out + Pending(rows, i, high, low, p, last)
    {
      var candidate := Judge(rows, i, high, low, p, last, previous);
      ScanStep(rows, i, high, low, p, last);
      previous := Some(rows[i]);
      if candidate.Some? {
        Regroup(out, candidate.value, Pending(rows, i + 1, high, low, p, Some(rows[i].timestamp)));
        out := out + [candidate.value];
        last := Some(rows[i].timestamp);
      }
    }
    assert Pending(rows, |rows|, high, low, p, last) == [];
  }

  /** The scan of one key emits the greedy cooldown selection of its `risk` rows. */
  method ScanGroup(rows: seq<Tick>, p: Params) returns (out: seq<Candidate>)
    ensures out == GroupCandidates(rows, p)
  {
    var opening := Opening(rows, p);
    if opening == [] {
      return [];
    }
    out := ScanRows(rows, MaxOf(opening), MinOf(opening), p);
  }

  // ---------------------------------------------------------------- all keys

  /** What is found in the first n groups, one group after the other. */
  function Gather<T>(find: seq<Tick> -> seq<T>, groups: seq<seq<Tick>>, n: nat): seq<T>
    requires n <= |groups|
  {
    if n == 0 then [] else Gather(find, groups, n - 1) + find(groups[n - 1])
  }

  function FindCrosses(p: Params): seq<Tick> -> seq<Cross> { (rows: seq<Tick>) => GroupCrosses(rows, p) }

  function FindEmissions(p: Params): seq<Tick> -> seq<Candidate> { (rows: seq<Tick>) => GroupCandidates(rows, p) }

  function AllCrosses(groups: seq<seq<Tick>>, p: Params): seq<Cross> { Gather(FindCrosses(p), groups, |groups|) }

  function AllCandidates(groups: seq<seq<Tick>>, p: Params): seq<Candidate> {
    Gather(FindEmissions(p), groups, |groups|)
  }

  predicate TimeThenSymbol(a: Candidate, b: Candidate) { RowOrder(a.row, b.row) }

  method FindCandidates(rows: seq<Tick>, p: Params) returns (out: seq<Candidate>)
    ensures out == Sort(TimeThenSymbol, AllCandidates(Scans(rows), p))
  {
    var groups := GroupRows(KeyOf, NotLater, rows);
    out := [];
    for i := 0 to |groups|
      invariant out == Gather(FindEmissions(p), groups, i)
    {
      var found := ScanGroup(groups[i], p);
      out := out + found;
    }
    out := Sort(TimeThenSymbol, out);
  }

  /** The candidates come in the order of time, those of one time by symbol. */
  lemma CandidatesInOrder(rows: seq<Tick>, p: Params, i: nat, j: nat)
    requires i < j < |Sort(TimeThenSymbol, AllCandidates(Scans(rows), p))|
    ensures var out := Sort(TimeThenSymbol, AllCandidates(Scans(rows), p));
            && out[i].row.timestamp <= out[j].row.timestamp
            && (out[i].row.timestamp == out[j].row.timestamp ==> out[i].row.key.symbol <= out[j].row.key.symbol)
  {
    var all := AllCandidates(Scans(rows), p);
    SortOrdered(TimeThenSymbol, all);
    assert TimeThenSymbol(Sort(TimeThenSymbol, all)[i], Sort(TimeThenSymbol, all)[j]);
  }

  /** The cross loop of the diagnostics: it gates on the time window alone. */
  method CrossLoop(rows: seq<Tick>, high: real, low: real, p: Params) returns (crosses: seq<Cross>)
    ensures crosses == CrossesFrom(rows, 0, high, low, p)
  {
    crosses := [];
    var previous: Option<Tick> := None;
    for i := 0 to |rows|
      invariant previous == if i == 0 then None else Some(rows[i - 1])
      invariant CrossesFrom(rows, 0, high, low, p) == crosses + CrossesFrom(rows, i, high, low, p)
    {
      var r := rows[i];
      var crossed := PassesTime(r, p) && r.quote.price > high && (previous.None? || previous.value.quote.price <= high);
      previous := Some(r);
      if crossed {
        crosses := crosses + [Cross(r, high, low)];
      }
    }
  }

  method CrossGroup(rows: seq<Tick>, p: Params) returns (crosses: seq<Cross>)
    ensures crosses == GroupCrosses(rows, p)
  {
    var opening := Opening(rows, p);
    if opening == [] {
      return [];
    }
    crosses := CrossLoop(rows, MaxOf(opening), MinOf(opening), p);
  }

  method CrossRows(rows: seq<Tick>, p: Params) returns (crosses: seq<Cross>)
    ensures crosses == AllCrosses(Scans(rows), p)
  {
    var groups := GroupRows(KeyOf, NotLater, rows);
    crosses := [];
    for i := 0 to |groups|
      invariant crosses == Gather(FindCrosses(p), groups, i)
    {
      var found := CrossGroup(groups[i], p);
      crosses := crosses + found;
    }
  }

  /** The number of rows left after each stage. */
  datatype Funnel = Funnel(crosses: int, vwap: int, volume: int, execution: int, risk: int, cooldown: int)

  function FunnelOf(rows: seq<Tick>, p: Params): Funnel {
    var crosses := AllCrosses(Scans(rows), p);
    var vwap := FilterMap(VwapStage(p), crosses);
    var volume := FilterMap(VolumeStage(p), vwap);
    var execution := FilterMap(ExecutionStage(p), volume);
    Funnel(|crosses|, |vwap|, |volume|, |execution|, |FilterMap(RiskStage(p), execution)|,
           |AllCandidates(Scans(rows), p)|)
  }

  method StageDiagnostics(rows: seq<Tick>, p: Params) returns (f: Funnel)
    ensures f == FunnelOf(rows, p)
  {
    var crosses := CrossRows(rows, p);
    var vwap := FilterMap(VwapStage(p), crosses);
    var volume := FilterMap(VolumeStage(p), vwap);
    var execution := FilterMap(ExecutionStage(p), volume);
    var risk := FilterMap(RiskStage(p), execution);
    var found := FindCandidates(rows, p);
    f := Funnel(|crosses|, |vwap|, |volume|, |execution|, |risk|, |found|);
  }

  // ---------------------------------------------------------------- the funnel and the cooldown

  /** Times of the candidates and of the `risk` rows of one key. */
  function EmissionTime(c: Candidate): real { c.row.timestamp }

  lemma {:induction false} CandidateTimes(cs: seq<Cross>)
    ensures Times(EmissionTime, CandidatesOf(cs)) == Times(Stamp, cs)
    decreases |cs|
  {
    if cs == [] {
    } else {
      CandidateTimes(cs[1..]);
      assert Times(EmissionTime, CandidatesOf(cs))[1..] == Times(EmissionTime, CandidatesOf(cs[1..]));
      assert Times(Stamp, cs)[1..] == Times(Stamp, cs[1..]);
    }
  }

  lemma {:induction false} RiskKeepsOrder(cs: seq<Cross>, p: Params)
    requires Chronological(Times(Stamp, cs))
    ensures Chronological(Times(Stamp, RiskRows(cs, p)))
    decreases |cs|
  {
    if cs == [] {
    } else {
      assert Times(Stamp, cs)[1..] == Times(Stamp, cs[1..]);
      RiskKeepsOrder(cs[1..], p);
      var rest := RiskRows(cs[1..], p);
      forall i | 0 <= i < |rest| ensures NotAfter(Stamp(cs[0]), Stamp(rest[i])) {
        assert rest[i] in rest;
        FilterMapMember(AllStages(p), cs[1..], rest[i]);
        var k :| 0 <= k < |cs[1..]| && cs[1..][k] == rest[i];
        assert NotAfter(Times(Stamp, cs)[0], Times(Stamp, cs)[k + 1]);
      }
    }
  }

  lemma {:induction false} CrossesInOrder(rows: seq<Tick>, i: nat, high: real, low: real, p: Params)
    requires i <= |rows| && Ordered(NotLater, rows)
    ensures Chronological(Times(Stamp, CrossesFrom(rows, i, high, low, p)))
    ensures forall c :: c in CrossesFrom(rows, i, high, low, p) ==> exists k :: i <= k < |rows| && rows[k] == c.row
    decreases |rows| - i
  {
    if i == |rows| {
    } else {
      CrossesInOrder(rows, i + 1, high, low, p);
      var rest := CrossesFrom(rows, i + 1, high, low, p);
      forall j | 0 <= j < |rest| ensures NotAfter(rows[i].timestamp, Stamp(rest[j])) {
        assert rest[j] in rest;
        var k :| i + 1 <= k < |rows| && rows[k] == rest[j].row;
        assert NotLater(rows[i], rows[k]);
      }
    }
  }

  lemma RiskRowsInOrder(rows: seq<Tick>, p: Params)
    requires Ordered(NotLater, rows)
    ensures Chronological(Times(Stamp, RiskRows(GroupCrosses(rows, p), p)))
  {
    var opening, cs := Opening(rows, p), GroupCrosses(rows, p);
    if opening != [] {
      CrossesInOrder(rows, 0, MaxOf(opening), MinOf(opening), p);
    }
    RiskKeepsOrder(cs, p);
  }

  lemma ScanInOrder(rows: seq<Tick>, i: nat)
    requires i < |Scans(rows)|
    ensures Ordered(NotLater, Scans(rows)[i])
  {
    GroupAt(KeyOf, NotLater, rows, i);
  }

  /** Per key, the candidates are spaced by the cooldown and no spaced choice of `risk` rows is
      larger. */
  lemma CandidatesAreOptimal(rows: seq<Tick>, i: nat, p: Params, us: seq<real>)
    requires i < |Scans(rows)|
    requires multiset(us) <= multiset(Times(Stamp, RiskRows(GroupCrosses(Scans(rows)[i], p), p)))
    requires Pairwise(Apart(p.cooldown), us)
    ensures Spaced(Times(EmissionTime, GroupCandidates(Scans(rows)[i], p)), p.cooldown)
    ensures |us| <= |GroupCandidates(Scans(rows)[i], p)|
  {
    ScanInOrder(rows, i);
    var risk := RiskRows(GroupCrosses(Scans(rows)[i], p), p);
    RiskRowsInOrder(Scans(rows)[i], p);
    OptimalOver(risk, p.cooldown, us);
  }

  lemma OptimalOver(risk: seq<Cross>, cooldown: real, us: seq<real>)
    requires Chronological(Times(Stamp, risk))
    requires multiset(us) <= multiset(Times(Stamp, risk)) && Pairwise(Apart(cooldown), us)
    ensures var found := CandidatesOf(Thin(Stamp, None, risk, cooldown));
            Spaced(Times(EmissionTime, found), cooldown) && |us| <= |found|
  {
    ThinTimes(Stamp, None, risk, cooldown);
    CandidateTimes(Thin(Stamp, None, risk, cooldown));
    ThinIsSpaced(None, Times(Stamp, risk), cooldown);
    ThinIsOptimal(Times(Stamp, risk), cooldown, us);
  }

  lemma {:induction false} ThinIsShorter<T>(time: T -> real, last: Option<real>, xs: seq<T>, cooldown: real)
    ensures |Thin(time, last, xs, cooldown)| <= |xs|
    decreases |xs|
  {
    if xs == [] {
    } else {
      ThinIsShorter(time, if Blocks(last, time(xs[0]), cooldown) then last else Some(time(xs[0])), xs[1..], cooldown);
    }
  }

  lemma {:induction false} NoCooldownThinsNothing(last: Option<real>, ts: seq<real>, cooldown: real)
    requires Chronological(ts) && cooldown <= 0.0
    requires last.Some? && ts != [] ==> last.value <= ts[0]
    ensures Thin(Same, last, ts, cooldown) == ts
    decreases |ts|
  {
    if ts == [] {
    } else {
      assert |ts| > 1 ==> NotAfter(ts[0], ts[1]);
      NoCooldownThinsNothing(Some(ts[0]), ts[1..], cooldown);
    }
  }

  lemma GroupBound(rows: seq<Tick>, p: Params)
    ensures CandidateCount(p)(rows) <= RiskCount(p)(rows)
    ensures Ordered(NotLater, rows) && p.cooldown <= 0.0 ==> CandidateCount(p)(rows) == RiskCount(p)(rows)
  {
    var risk := RiskRows(GroupCrosses(rows, p), p);
    ThinIsShorter(Stamp, None, risk, p.cooldown);
    if Ordered(NotLater, rows) && p.cooldown <= 0.0 {
      RiskRowsInOrder(rows, p);
      NoCooldownThinsNothing(None, Times(Stamp, risk), p.cooldown);
      ThinTimes(Stamp, None, risk, p.cooldown);
    }
  }

  function CandidateCount(p: Params): seq<Tick> -> int { (rows: seq<Tick>) => |GroupCandidates(rows, p)| }

  function RiskCount(p: Params): seq<Tick> -> int { (rows: seq<Tick>) => |RiskRows(GroupCrosses(rows, p), p)| }

  function Total(count: seq<Tick> -> int, groups: seq<seq<Tick>>, n: nat): int
    requires n <= |groups|
  {
    if n == 0 then 0 else Total(count, groups, n - 1) + count(groups[n - 1])
  }

  lemma {:induction false} GatherTotal<T>(find: seq<Tick> -> seq<T>, count: seq<Tick> -> int, groups: seq<seq<Tick>>,
      n: nat)
    requires n <= |groups| && forall rows :: count(rows) == |find(rows)|
    ensures |Gather(find, groups, n)| == Total(count, groups, n)
  {
    if n == 0 {
    } else {
      GatherTotal(find, count, groups, n - 1);
    }
  }

  /** Filtering what was gathered is gathering what passes the filter. */
  lemma {:induction false} GatherFiltered<A, B>(f: A -> Option<B>, find: seq<Tick> -> seq<A>, pass: seq<Tick> -> seq<B>,
                                                groups: seq<seq<Tick>>, n: nat)
    requires n <= |groups| && forall rows :: pass(rows) == FilterMap(f, find(rows))
    ensures FilterMap(f, Gather(find, groups, n)) == Gather(pass, groups, n)
  {
    if n == 0 {
    } else {
      GatherFiltered(f, find, pass, groups, n - 1);
      FilterMapConcat(f, Gather(find, groups, n - 1), find(groups[n - 1]));
    }
  }

  function FindRisk(p: Params): seq<Tick> -> seq<Cross> { (rows: seq<Tick>) => RiskRows(GroupCrosses(rows, p), p) }

  lemma Totals(groups: seq<seq<Tick>>, p: Params)
    ensures |AllCandidates(groups, p)| == Total(CandidateCount(p), groups, |groups|)
    ensures |RiskRows(AllCrosses(groups, p), p)| == Total(RiskCount(p), groups, |groups|)
  {
    GatherTotal(FindEmissions(p), CandidateCount(p), groups, |groups|);
    GatherFiltered(AllStages(p), FindCrosses(p), FindRisk(p), groups, |groups|);
    GatherTotal(FindRisk(p), RiskCount(p), groups, |groups|);
  }

  lemma {:induction false} TotalMonotone(count: seq<Tick> -> int, bound: seq<Tick> -> int, groups: seq<seq<Tick>>,
      n: nat)
    requires n <= |groups|
    requires forall i :: 0 <= i < |groups| ==> count(groups[i]) <= bound(groups[i])
    ensures Total(count, groups, n) <= Total(bound, groups, n)
  {
    if n == 0 {
    } else {
      TotalMonotone(count, bound, groups, n - 1);
    }
  }

  /** Every stage of the funnel is at most as wide as the one before it; the number of candidates
      that the scan emits is the last one, and without a cooldown it equals the `risk` stage. */
  lemma FunnelNarrows(rows: seq<Tick>, p: Params)
    ensures var f := FunnelOf(rows, p);
            && f.cooldown <= f.risk <= f.execution <= f.volume <= f.vwap <= f.crosses
            && (p.cooldown <= 0.0 ==> f.cooldown == f.risk)
  {
    var groups := Scans(rows);
    var crosses := AllCrosses(groups, p);
    var vwap := FilterMap(VwapStage(p), crosses);
    var volume := FilterMap(VolumeStage(p), vwap);
    var execution := FilterMap(ExecutionStage(p), volume);
    FilterMapShorter(VwapStage(p), crosses);
    FilterMapShorter(VolumeStage(p), vwap);
    FilterMapShorter(ExecutionStage(p), volume);
    FilterMapShorter(RiskStage(p), execution);
    StagesCompose(crosses, p);
    CandidatesWithinRisk(rows, p);
  }

  lemma CandidatesWithinRisk(rows: seq<Tick>, p: Params)
    ensures var candidates, risk := AllCandidates(Scans(rows), p), RiskRows(AllCrosses(Scans(rows), p), p);
            |candidates| <= |risk| && (p.cooldown <= 0.0 ==> |candidates| == |risk|)
  {
    var groups := Scans(rows);
    Totals(groups, p);
    forall i | 0 <= i < |groups|
      ensures CandidateCount(p)(groups[i]) <= RiskCount(p)(groups[i])
      ensures p.cooldown <= 0.0 ==> RiskCount(p)(groups[i]) <= CandidateCount(p)(groups[i])
    {
      ScanInOrder(rows, i);
      GroupBound(groups[i], p);
    }
    TotalMonotone(CandidateCount(p), RiskCount(p), groups, |groups|);
    if p.cooldown <= 0.0 {
      TotalMonotone(RiskCount(p), CandidateCount(p), groups, |groups|);
    }
  }
}
