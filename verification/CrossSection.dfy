/** The monthly cross-section: a builder ranks each date's eligible listings and assigns deciles,
    its own validator and the evaluator's validator check the table. */
module CrossSection {
  import opened Prelude
  import opened Sorting
  import opened Deciles

  // ---------------------------------------------------------------- eligibility

  datatype Listing = Listing(date: int, code: int, productAllowed: bool, marketAllowed: bool,
                             imom: Option<real>, turnover: Option<real>)

  datatype Reason = DisallowedProductCategory | DisallowedMarket | InsufficientReturns
                  | InsufficientTurnoverWindow | BelowMinimumTurnover | Eligible

  function ReasonOf(l: Listing, minimum: real): Reason {
    if !l.productAllowed then DisallowedProductCategory
    else if !l.marketAllowed then DisallowedMarket
    else if l.imom.None? then InsufficientReturns
    else if l.turnover.None? then InsufficientTurnoverWindow
    else if l.turnover.value < minimum then BelowMinimumTurnover
    else Eligible
  }

  // ---------------------------------------------------------------- the builder

  datatype Scored = Scored(code: int, imom: real)

  /** Best score first, ties by code. */
  predicate Before(a: Scored, b: Scored) { a.imom > b.imom || (a.imom == b.imom && a.code <= b.code) }

  function ScoreOn(date: int, minimum: real): Listing -> Option<Scored> {
    (l: Listing) =>
      if l.date == date && ReasonOf(l, minimum) == Eligible then Some(Scored(l.code, l.imom.value)) else None
  }

  function EligibleOn(listings: seq<Listing>, date: int, minimum: real): seq<Scored> {
    FilterMap(ScoreOn(date, minimum), listings)
  }

  function Selection(listings: seq<Listing>, date: int, minimum: real): seq<Scored> {
    Sort(Before, EligibleOn(listings, date, minimum))
  }

  datatype Ranking = Ranking(rank: int, count: int, decile: int)

  function RankingAt(n: int, i: int): Ranking {
    Ranking(i + 1, n, if n > 0 then Decile(n, i + 1) else 0)
  }

  /** Position of the code in the selection: the key of the join. */
  function PositionOf(selection: seq<Scored>, code: int): (i: nat)
    ensures i <= |selection|
  {
    if selection == [] || selection[0].code == code then 0 else 1 + PositionOf(selection[1..], code)
  }

  function RankingFor(selection: seq<Scored>): Scored -> Option<Ranking> {
    (s: Scored) => Some(RankingAt(|selection|, PositionOf(selection, s.code)))
  }

  datatype Row = Row(listing: Listing, eligible: bool, ranking: Option<Ranking>, top: bool)

  function RowOf(listings: seq<Listing>, minimum: real): Listing -> Option<Row> {
    (l: Listing) =>
      if ReasonOf(l, minimum) == Eligible then
        var selection := Selection(listings, l.date, minimum);
        var ranking := RankingAt(|selection|, PositionOf(selection, l.code));
        Some(Row(l, true, Some(ranking), ranking.decile == 10))
      else Some(Row(l, false, None, false))
  }

  /** All listings in their order, the eligible ones joined with their ranking. */
  function BuildCohort(listings: seq<Listing>, minimum: real): seq<Row> {
    FilterMap(RowOf(listings, minimum), listings)
  }

  ghost predicate KeysOnce(listings: seq<Listing>) {
    forall i, j :: 0 <= i < j < |listings| ==>
      listings[i].date != listings[j].date || listings[i].code != listings[j].code
  }

  // ---------------------------------------------------------------- rankings of one date

  function RankingOn(date: int): Row -> Option<Ranking> {
    (r: Row) => if r.eligible && r.listing.date == date then r.ranking else None
  }

  /** The rankings of n rows, best first. */
  function RankingList(n: nat): seq<Ranking> { seq(n, (i: int) requires 0 <= i < n => RankingAt(n, i)) }

  function CodeOf(s: Scored): int { s.code }

  lemma {:induction false} EligibleCodesOnce(listings: seq<Listing>, date: int, minimum: real)
    requires KeysOnce(listings)
    ensures DistinctBy(CodeOf, EligibleOn(listings, date, minimum))
    decreases |listings|
  {
    if listings == [] {
    } else {
      EligibleCodesOnce(listings[1..], date, minimum);
      var l, rest := listings[0], EligibleOn(listings[1..], date, minimum);
      forall i | 0 <= i < |rest| && ScoreOn(date, minimum)(l).Some? ensures rest[i].code != l.code {
        assert rest[i] in rest;
        FilterMapMember(ScoreOn(date, minimum), listings[1..], rest[i]);
        var m :| m in listings[1..] && ScoreOn(date, minimum)(m) == Some(rest[i]);
        var k :| 0 <= k < |listings[1..]| && listings[1..][k] == m;
        assert listings[k + 1] == m;
      }
    }
  }

  lemma {:induction false} PositionIsIndex(selection: seq<Scored>, i: nat)
    requires DistinctBy(CodeOf, selection) && i < |selection|
    ensures PositionOf(selection, selection[i].code) == i
    decreases |selection|
  {
    if i == 0 {
    } else {
      assert CodeOf(selection[0]) != CodeOf(selection[i]);
      forall j, k | 0 <= j < k < |selection[1..]| ensures CodeOf(selection[1..][j]) != CodeOf(selection[1..][k]) {
        assert CodeOf(selection[j + 1]) != CodeOf(selection[k + 1]);
      }
      PositionIsIndex(selection[1..], i - 1);
    }
  }

  /** Joined back, the selection's rows carry the rankings 1, 2, ... in order. */
  lemma {:induction false} SelectionRankings(selection: seq<Scored>)
    requires DistinctBy(CodeOf, selection)
    ensures FilterMap(RankingFor(selection), selection) == RankingList(|selection|)
  {
    var indices := RankingList(|selection|);
    forall i | 0 <= i < |selection| ensures RankingFor(selection)(selection[i]) == Some(indices[i]) {
      PositionIsIndex(selection, i);
    }
    FilterMapCongruence(RankingFor(selection), Present, selection, indices);
    PresentIsIdentity(indices);
  }

  function Present(r: Ranking): Option<Ranking> { Some(r) }

  lemma {:induction false} PresentIsIdentity(rs: seq<Ranking>)
    ensures FilterMap(Present, rs) == rs
    decreases |rs|
  {
    if rs == [] {
    } else {
      PresentIsIdentity(rs[1..]);
    }
  }

  /** On each date the eligible rows of the cohort carry the rankings 1..n, each once. */
  lemma CohortRankings(listings: seq<Listing>, minimum: real, date: int)
    requires KeysOnce(listings)
    ensures var n := |EligibleOn(listings, date, minimum)|;
            multiset(FilterMap(RankingOn(date), BuildCohort(listings, minimum))) == multiset(RankingList(n))
  {
    var eligible, selection := EligibleOn(listings, date, minimum), Selection(listings, date, minimum);
    EligibleCodesOnce(listings, date, minimum);
    DistinctPermutation(CodeOf, eligible, selection);
    FilterMapCompose(RowOf(listings, minimum), RankingOn(date), Joined(listings, minimum, date), listings);
    FilterMapCompose(ScoreOn(date, minimum), RankingFor(selection), Joined(listings, minimum, date), listings);
    FilterMapMultiset(RankingFor(selection), eligible, selection);
    SelectionRankings(selection);
  }

  /** The ranking that a listing receives on the date. */
  function Joined(listings: seq<Listing>, minimum: real, date: int): Listing -> Option<Ranking> {
    (l: Listing) =>
      if l.date == date && ReasonOf(l, minimum) == Eligible then
        var selection := Selection(listings, date, minimum);
        Some(RankingAt(|selection|, PositionOf(selection, l.code)))
      else None
  }

  // ---------------------------------------------------------------- the builder's validator

  datatype BuiltError = DuplicateRows | NoEligibleRows | MissingDecile | DecileOutOfRange | RankOrTopCount

  predicate RowKeysOnce(rows: seq<Row>) {
    forall i, j :: 0 <= i < j < |rows| ==>
      rows[i].listing.date != rows[j].listing.date || rows[i].listing.code != rows[j].listing.code
  }

  function TopOn(date: int): Row -> Option<Row> {
    (r: Row) => if r.eligible && r.listing.date == date && r.top then Some(r) else None
  }

  /** One date's group: its top rows number a tenth of the rows rounded up, the least rank is 1 and
      the greatest the number of rows. */
  ghost predicate GroupPasses(rows: seq<Row>, date: int) {
    var ranks, n := FilterMap(RankingOn(date), rows), |FilterMap(EligibleRowOn(date), rows)|;
    && |FilterMap(TopOn(date), rows)| == Ceil10(n)
    && (exists r :: r in ranks && r.rank == 1) && (forall r :: r in ranks ==> r.rank >= 1)
    && (exists r :: r in ranks && r.rank == n) && (forall r :: r in ranks ==> r.rank <= n)
  }

  function EligibleRowOn(date: int): Row -> Option<Row> {
    (r: Row) => if r.eligible && r.listing.date == date then Some(r) else None
  }

  ghost function ValidateBuilt(rows: seq<Row>): Option<BuiltError> {
    if !RowKeysOnce(rows) then Some(DuplicateRows)
    else if forall r :: r in rows ==> !r.eligible then Some(NoEligibleRows)
    else if exists r :: r in rows && r.eligible && r.ranking.None? then Some(MissingDecile)
    else if exists r :: r in rows && r.eligible && !(1 <= r.ranking.value.decile <= 10) then Some(DecileOutOfRange)
    else if exists r :: r in rows && r.eligible && !GroupPasses(rows, r.listing.date) then Some(RankOrTopCount)
    else None
  }

  // ---------------------------------------------------------------- the builder passes

  function InDecile(d: int): Ranking -> Option<Ranking> {
    (r: Ranking) => if r.decile == d then Some(r) else None
  }

  lemma {:induction false} CountInList(n: nat, d: int, k: nat)
    requires 0 < n && k <= n
    ensures |FilterMap(InDecile(d), RankingList(n)[..k])| == CountUpTo(n, d, k)
    decreases k
  {
    if k == 0 {
    } else {
      CountInList(n, d, k - 1);
      assert RankingList(n)[..k] == RankingList(n)[..k - 1] + [RankingAt(n, k - 1)];
      FilterMapConcat(InDecile(d), RankingList(n)[..k - 1], [RankingAt(n, k - 1)]);
    }
  }

  /** On each date every decile of the cohort holds the floor or the ceiling of a tenth of the
      eligible rows, the best decile the ceiling and the worst the floor. */
  lemma CohortDeciles(listings: seq<Listing>, minimum: real, date: int, d: int)
    requires KeysOnce(listings) && EligibleOn(listings, date, minimum) != [] && 1 <= d <= 10
    ensures var n := |EligibleOn(listings, date, minimum)|;
            var rankings := FilterMap(RankingOn(date), BuildCohort(listings, minimum));
            && |rankings| == n
            && (|FilterMap(InDecile(d), rankings)| == n / 10 || |FilterMap(InDecile(d), rankings)| == Ceil10(n))
            && |FilterMap(InDecile(10), rankings)| == Ceil10(n) && |FilterMap(InDecile(1), rankings)| == n / 10
  {
    var n := |EligibleOn(listings, date, minimum)|;
    var rankings := FilterMap(RankingOn(date), BuildCohort(listings, minimum));
    CohortRankings(listings, minimum, date);
    SameElements(rankings, RankingList(n));
    DecileSizes(n, d);
    DecileCount(n, d, rankings);
    DecileCount(n, 10, rankings);
    DecileCount(n, 1, rankings);
  }

  lemma DecileCount(n: nat, d: int, rankings: seq<Ranking>)
    requires 0 < n && multiset(rankings) == multiset(RankingList(n))
    ensures |FilterMap(InDecile(d), rankings)| == CountUpTo(n, d, n)
  {
    FilterMapMultiset(InDecile(d), rankings, RankingList(n));
    SameElements(FilterMap(InDecile(d), rankings), FilterMap(InDecile(d), RankingList(n)));
    CountInList(n, d, n);
    assert RankingList(n)[..n] == RankingList(n);
  }

  lemma CohortAt(listings: seq<Listing>, minimum: real)
    ensures |BuildCohort(listings, minimum)| == |listings|
    ensures forall i :: 0 <= i < |listings| ==>
              RowOf(listings, minimum)(listings[i]) == Some(BuildCohort(listings, minimum)[i])
  {
    FilterMapTotal(RowOf(listings, minimum), listings);
  }

  function TopRankingOn(date: int): Row -> Option<Ranking> {
    (r: Row) => if r.eligible && r.listing.date == date && r.ranking.Some? then InDecile(10)(r.ranking.value) else None
  }

  /** Rows of the cohort: eligible ones have a ranking, top ones are those of the best decile. */
  ghost predicate Consistent(r: Row) {
    (r.eligible <==> r.ranking.Some?) && (r.top <==> r.eligible && r.ranking.value.decile == 10)
  }

  lemma ConsistentCounts(rows: seq<Row>, date: int)
    requires forall r :: r in rows ==> Consistent(r)
    ensures |FilterMap(EligibleRowOn(date), rows)| == |FilterMap(RankingOn(date), rows)|
    ensures |FilterMap(TopOn(date), rows)| == |FilterMap(InDecile(10), FilterMap(RankingOn(date), rows))|
  {
    FilterMapSameLength(EligibleRowOn(date), RankingOn(date), rows);
    FilterMapSameLength(TopOn(date), TopRankingOn(date), rows);
    FilterMapCompose(RankingOn(date), InDecile(10), TopRankingOn(date), rows);
  }

  lemma CohortConsistent(listings: seq<Listing>, minimum: real)
    ensures forall r :: r in BuildCohort(listings, minimum) ==> Consistent(r)
  {
    CohortAt(listings, minimum);
    var rows := BuildCohort(listings, minimum);
    forall i | 0 <= i < |rows| ensures Consistent(rows[i]) {
      assert RowOf(listings, minimum)(listings[i]) == Some(rows[i]);
    }
  }

  lemma CohortGroupPasses(listings: seq<Listing>, minimum: real, date: int)
    requires KeysOnce(listings) && EligibleOn(listings, date, minimum) != []
    ensures GroupPasses(BuildCohort(listings, minimum), date)
  {
    var rows, n := BuildCohort(listings, minimum), |EligibleOn(listings, date, minimum)|;
    var ranks := FilterMap(RankingOn(date), rows);
    CohortConsistent(listings, minimum);
    ConsistentCounts(rows, date);
    CohortDeciles(listings, minimum, date, 10);
    CohortRankings(listings, minimum, date);
    SameElements(ranks, RankingList(n));
    assert RankingList(n)[0] in ranks && RankingList(n)[n - 1] in ranks;
  }

  lemma CohortKeys(listings: seq<Listing>, minimum: real)
    ensures RowKeysOnce(BuildCohort(listings, minimum)) <==> KeysOnce(listings)
    ensures forall l :: l in listings && ReasonOf(l, minimum) == Eligible ==>
                EligibleOn(listings, l.date, minimum) != []
    ensures forall r :: r in BuildCohort(listings, minimum) && r.eligible ==>
              r.listing in listings && ReasonOf(r.listing, minimum) == Eligible
  {
    CohortAt(listings, minimum);
    var rows := BuildCohort(listings, minimum);
    forall i | 0 <= i < |rows| ensures rows[i].listing == listings[i] {
      assert RowOf(listings, minimum)(listings[i]) == Some(rows[i]);
    }
    forall l | l in listings && ReasonOf(l, minimum) == Eligible
      ensures EligibleOn(listings, l.date, minimum) != []
    {
      FilterMapMember(ScoreOn(l.date, minimum), listings, Scored(l.code, l.imom.value));
    }
    forall i | 0 <= i < |rows| && rows[i].eligible ensures ReasonOf(rows[i].listing, minimum) == Eligible {
      assert RowOf(listings, minimum)(listings[i]) == Some(rows[i]);
    }
  }

  lemma {:induction false} ListedDecileRange(n: nat, rankings: seq<Ranking>, r: Ranking)
    requires multiset(rankings) == multiset(RankingList(n)) && r in rankings
    ensures 1 <= r.decile <= 10
  {
    SameElements(rankings, RankingList(n));
    var i :| 0 <= i < n && RankingList(n)[i] == r;
    DecileRange(n, i + 1);
  }

  lemma CohortDecileRange(listings: seq<Listing>, minimum: real, r: Row)
    requires KeysOnce(listings) && r in BuildCohort(listings, minimum) && r.eligible
    ensures r.ranking.Some? && 1 <= r.ranking.value.decile <= 10
  {
    var date, rows := r.listing.date, BuildCohort(listings, minimum);
    CohortConsistent(listings, minimum);
    CohortRankings(listings, minimum, date);
    FilterMapMember(RankingOn(date), rows, r.ranking.value);
    ListedDecileRange(|EligibleOn(listings, date, minimum)|, FilterMap(RankingOn(date), rows), r.ranking.value);
  }

  /** An eligible row with a proper decile whose group passes. */
  ghost predicate Proper(rows: seq<Row>, r: Row) {
    r.ranking.Some? && 1 <= r.ranking.value.decile <= 10 && GroupPasses(rows, r.listing.date)
  }

  lemma ProperRowsPass(rows: seq<Row>)
    requires RowKeysOnce(rows) && exists r :: r in rows && r.eligible
    requires forall r :: r in rows && r.eligible ==> Proper(rows, r)
    ensures ValidateBuilt(rows) == None
  {
  }

  lemma CohortPasses(listings: seq<Listing>, minimum: real)
    requires KeysOnce(listings) && exists l :: l in listings && ReasonOf(l, minimum) == Eligible
    ensures ValidateBuilt(BuildCohort(listings, minimum)) == None
  {
    var rows := BuildCohort(listings, minimum);
    CohortKeys(listings, minimum);
    EligibleRowsRemain(listings, minimum);
    forall r | r in rows && r.eligible ensures Proper(rows, r) {
      CohortDecileRange(listings, minimum, r);
      CohortGroupPasses(listings, minimum, r.listing.date);
    }
    ProperRowsPass(rows);
  }

  /** The built cohort fails its validator exactly for duplicate listings or for want of an eligible
      one: never for its ranks, deciles or counts. */
  lemma BuilderPassesItsValidator(listings: seq<Listing>, minimum: real)
    ensures ValidateBuilt(BuildCohort(listings, minimum)) ==
            if !KeysOnce(listings) then Some(DuplicateRows)
            else if forall l :: l in listings ==> ReasonOf(l, minimum) != Eligible then Some(NoEligibleRows)
            else None
  {
    CohortKeys(listings, minimum);
    EligibleRowsRemain(listings, minimum);
    if KeysOnce(listings) && exists l :: l in listings && ReasonOf(l, minimum) == Eligible {
      CohortPasses(listings, minimum);
    }
  }

  lemma EligibleRowsRemain(listings: seq<Listing>, minimum: real)
    ensures (exists r :: r in BuildCohort(listings, minimum) && r.eligible) <==>
            (exists l :: l in listings && ReasonOf(l, minimum) == Eligible)
  {
    CohortKeys(listings, minimum);
    CohortAt(listings, minimum);
    if l :| l in listings && ReasonOf(l, minimum) == Eligible {
      var i :| 0 <= i < |listings| && listings[i] == l;
      assert RowOf(listings, minimum)(listings[i]) == Some(BuildCohort(listings, minimum)[i]);
      assert BuildCohort(listings, minimum)[i].eligible;
    }
  }
}
