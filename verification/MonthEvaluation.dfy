/** One month of the gate: the formation frame is validated, each row is paired with its exact
    next-month return, and the month is complete or carries the reason why not. */
module MonthEvaluation {
  import opened Prelude
  import opened Sorting
  import opened Deciles
  import opened CrossSection
  import opened FormationRanks
  import opened RankCorrelation

  datatype Observation = Observation(imom: real, nextReturn: real, decile: int)

  datatype Incomplete = BelowMinimum | MissingEndpoint | UndefinedRankIc | EmptyExtremeDecile

  datatype Month = Month(eligible: int, valid: int, missing: int, best: int, worst: int,
                         reason: Option<Incomplete>, bestReturn: Option<real>, worstReturn: Option<real>,
                         spread: Option<real>, rankIc: Option<real>)

  datatype EvaluationError = MinimumNotPositive | BadRanks(error: RankError)

  predicate HasPrice(prices: map<int, real>, code: int) { code in prices && prices[code] > 0.0 }

  /** A row counts when both closes are present and positive. */
  function Observe(formation: map<int, real>, outcome: map<int, real>): Entry -> Option<Observation> {
    (e: Entry) =>
      if HasPrice(formation, e.code) && HasPrice(outcome, e.code) && e.decile.Some?
      then Some(Observation(e.imom, outcome[e.code] / formation[e.code] - 1.0, e.decile.value)) else None
  }

  function Scores(os: seq<Observation>): (r: seq<real>)
    ensures |r| == |os| && forall i :: 0 <= i < |os| ==> r[i] == os[i].imom
  {
    seq(|os|, (i: int) requires 0 <= i < |os| => os[i].imom)
  }

  function Returns(os: seq<Observation>): (r: seq<real>)
    ensures |r| == |os| && forall i :: 0 <= i < |os| ==> r[i] == os[i].nextReturn
  {
    seq(|os|, (i: int) requires 0 <= i < |os| => os[i].nextReturn)
  }

  function ReturnIn(decile: int): Observation -> Option<real> {
    (o: Observation) => if o.decile == decile then Some(o.nextReturn) else None
  }

  function RankIc(os: seq<Observation>, root: real -> real): Option<real> {
    Spearman(root, Scores(os), Returns(os))
  }

  /** Why a month with these observations is incomplete, if it is. */
  function ReasonFor(n: int, minimum: int, observations: seq<Observation>, root: real -> real): Option<Incomplete> {
    if n < minimum then Some(BelowMinimum)
    else if |observations| < n then Some(MissingEndpoint)
    else if RankIc(observations, root).None? then Some(UndefinedRankIc)
    else if FilterMap(ReturnIn(10), observations) == [] || FilterMap(ReturnIn(1), observations) == []
    then Some(EmptyExtremeDecile)
    else None
  }

  /** The report on a complete month: mean returns of the extreme deciles and their spread. */
  function CompleteMonth(n: int, valid: int, best: seq<real>, worst: seq<real>, rankIc: Option<real>): Month
    requires best != [] && worst != []
  {
    Month(n, valid, n - valid, |best|, |worst|, None, Some(Mean(best)), Some(Mean(worst)),
          Some(Mean(best) - Mean(worst)), rankIc)
  }

  /** The report on a month of n eligible rows with these observations. */
  function Report(n: int, os: seq<Observation>, minimum: int, root: real -> real): Month {
    var best, worst := FilterMap(ReturnIn(10), os), FilterMap(ReturnIn(1), os);
    var reason := ReasonFor(n, minimum, os, root);
    if reason.None? && best != [] && worst != [] then
      CompleteMonth(n, |os|, best, worst, RankIc(os, root))
    else Month(n, |os|, n - |os|, |best|, |worst|, reason, None, None, None, None)
  }

  function MonthOf(frame: seq<Entry>, formation: map<int, real>, outcome: map<int, real>, minimum: int,
                   root: real -> real): Month
  {
    Report(|frame|, FilterMap(Observe(formation, outcome), frame), minimum, root)
  }

  /** The row loop: observations and the number of rows without both closes. */
  method Observations(frame: seq<Entry>, formation: map<int, real>, outcome: map<int, real>)
    returns (observations: seq<Observation>, missing: int)
    requires forall e :: e in frame ==> e.decile.Some?
    ensures observations == FilterMap(Observe(formation, outcome), frame)
    ensures missing == |frame| - |observations|
  {
    observations, missing := [], 0;
    for i := 0 to |frame|
      invariant observations == FilterMap(Observe(formation, outcome), frame[..i])
      invariant missing == i - |observations|
    {
      var e := frame[i];
      assert e in frame;
      assert frame[..i + 1] == frame[..i] + [e];
      FilterMapConcat(Observe(formation, outcome), frame[..i], [e]);
      if !HasPrice(formation, e.code) || !HasPrice(outcome, e.code) {
        missing := missing + 1;
        continue;
      }
      observations := observations + [Observation(e.imom, outcome[e.code] / formation[e.code] - 1.0, e.decile.value)];
    }
    assert frame[..|frame|] == frame;
  }

  method Diagnose(n: int, os: seq<Observation>, missing: int, minimum: int, root: real -> real)
    returns (reason: Option<Incomplete>, rankIc: Option<real>)
    requires missing == n - |os| && |os| <= n
    ensures reason == ReasonFor(n, minimum, os, root)
    ensures reason.None? ==> rankIc == RankIc(os, root)
  {
    reason, rankIc := None, None;
    if n < minimum {
      reason := Some(BelowMinimum);
    } else if missing != 0 {
      reason := Some(MissingEndpoint);
    } else {
      rankIc := RankIc(os, root);
      if rankIc.None? {
        reason := Some(UndefinedRankIc);
      }
    }
    var best, worst := FilterMap(ReturnIn(10), os), FilterMap(ReturnIn(1), os);
    if reason.None? && (best == [] || worst == []) {
      reason := Some(EmptyExtremeDecile);
    }
  }

  method Conclude(n: int, os: seq<Observation>, missing: int, minimum: int, root: real -> real) returns (m: Month)
    requires missing == n - |os| && |os| <= n
    ensures m == Report(n, os, minimum, root)
  {
    var reason, rankIc := Diagnose(n, os, missing, minimum, root);
    var best, worst := FilterMap(ReturnIn(10), os), FilterMap(ReturnIn(1), os);
    if reason.None? {
      return CompleteMonth(n, |os|, best, worst, rankIc);
    }
    return Month(n, |os|, missing, |best|, |worst|, reason, None, None, None, None);
  }

  lemma ValidHasDeciles(frame: seq<Entry>)
    requires ValidateFormationRanks(frame) == None
    ensures forall e :: e in frame ==> e.decile.Some?
  {
  }

  method EvaluateMonth(frame: seq<Entry>, formation: map<int, real>, outcome: map<int, real>, minimum: int,
                       root: real -> real)
    returns (r: Result<Month, EvaluationError>)
    ensures r == if minimum <= 0 then Err(MinimumNotPositive)
                 else if ValidateFormationRanks(frame).Some? then Err(BadRanks(ValidateFormationRanks(frame).value))
                 else Ok(MonthOf(frame, formation, outcome, minimum, root))
  {
    if minimum <= 0 {
      return Err(MinimumNotPositive);
    }
    var invalid := ValidateFormationRanks(frame);
    if invalid.Some? {
      return Err(BadRanks(invalid.value));
    }
    ValidHasDeciles(frame);
    FilterMapShorter(Observe(formation, outcome), frame);
    var observations, missing := Observations(frame, formation, outcome);
    var month := Conclude(|frame|, observations, missing, minimum, root);
    return Ok(month);
  }

  // ---------------------------------------------------------------- when an extreme decile is empty

  /** The returns of a decile among the first k rows of a complete, valid frame. */
  lemma {:induction false} ReturnsOfDecile(os: seq<Observation>, n: nat, d: int, k: nat)
    requires 0 < n == |os| && k <= n
    requires forall i :: 0 <= i < n ==> os[i].decile == Decile(n, i + 1)
    ensures |FilterMap(ReturnIn(d), os[..k])| == CountUpTo(n, d, k)
    decreases k
  {
    if k == 0 {
    } else {
      ReturnsOfDecile(os, n, d, k - 1);
      assert os[..k] == os[..k - 1] + [os[k - 1]];
      FilterMapConcat(ReturnIn(d), os[..k - 1], [os[k - 1]]);
    }
  }

  /** When no endpoint of a valid frame is missing, the extreme deciles hold a tenth of the rows,
      the best one rounded up and the worst one rounded down. */
  lemma {:induction false} CompleteMonthCounts(frame: seq<Entry>, formation: map<int, real>, outcome: map<int, real>)
    requires frame != [] && ValidateFormationRanks(frame) == None
    requires |FilterMap(Observe(formation, outcome), frame)| == |frame|
    ensures var os, n := FilterMap(Observe(formation, outcome), frame), |frame|;
            |FilterMap(ReturnIn(10), os)| == Ceil10(n) && |FilterMap(ReturnIn(1), os)| == n / 10
  {
    var os, n := FilterMap(Observe(formation, outcome), frame), |frame|;
    FilterMapComplete(Observe(formation, outcome), frame);
    FilterMapTotal(Observe(formation, outcome), frame);
    forall i | 0 <= i < n ensures os[i].decile == Decile(n, i + 1) {
      assert Observe(formation, outcome)(frame[i]) == Some(os[i]);
    }
    ReturnsOfDecile(os, n, 10, n);
    ReturnsOfDecile(os, n, 1, n);
    assert os[..n] == os;
    DecileSizes(n, 1);
  }

  // ---------------------------------------------------------------- why a month is incomplete

  ghost predicate AllPriced(frame: seq<Entry>, formation: map<int, real>, outcome: map<int, real>) {
    forall e :: e in frame ==>
      e.code in formation && formation[e.code] > 0.0 && e.code in outcome && outcome[e.code] > 0.0
  }

  ghost predicate SameFor(frame: seq<Entry>, value: Entry -> real) {
    forall a, b :: a in frame && b in frame ==> value(a) == value(b)
  }

  function ScoreOf(): Entry -> real { (e: Entry) => e.imom }

  function PriceRatio(formation: map<int, real>, outcome: map<int, real>): Entry -> real {
    (e: Entry) =>
      if HasPrice(formation, e.code) && HasPrice(outcome, e.code) then outcome[e.code] / formation[e.code] else 0.0
  }

  ghost predicate ScoresTie(frame: seq<Entry>) { SameFor(frame, ScoreOf()) }

  ghost predicate ReturnsTie(frame: seq<Entry>, formation: map<int, real>, outcome: map<int, real>) {
    SameFor(frame, PriceRatio(formation, outcome))
  }

  lemma {:induction false} PricedIffNothingMissing(frame: seq<Entry>, formation: map<int, real>,
      outcome: map<int, real>)
    requires forall e :: e in frame ==> e.decile.Some?
    ensures |FilterMap(Observe(formation, outcome), frame)| == |frame| <==> AllPriced(frame, formation, outcome)
  {
    FilterMapComplete(Observe(formation, outcome), frame);
  }

  /** The observations of a priced frame tie exactly when its scores or its price ratios do. */
  lemma {:induction false} TiesOfFrame(frame: seq<Entry>, formation: map<int, real>, outcome: map<int, real>)
    requires (forall e :: e in frame ==> e.decile.Some?) && AllPriced(frame, formation, outcome)
    ensures var os := FilterMap(Observe(formation, outcome), frame);
            && |os| == |frame|
            && (AllTie(Scores(os)) <==> ScoresTie(frame))
            && (AllTie(Returns(os)) <==> ReturnsTie(frame, formation, outcome))
  {
    var os := FilterMap(Observe(formation, outcome), frame);
    FilterMapTotal(Observe(formation, outcome), frame);
    forall i | 0 <= i < |frame|
      ensures os[i].imom == ScoreOf()(frame[i])
      ensures os[i].nextReturn == PriceRatio(formation, outcome)(frame[i]) - 1.0
    {
      assert frame[i] in frame;
    }
    TiesByIndex(Scores(os), frame, ScoreOf(), 0.0);
    TiesByIndex(Returns(os), frame, PriceRatio(formation, outcome), 1.0);
  }

  lemma TiesByIndex(values: seq<real>, frame: seq<Entry>, value: Entry -> real, shift: real)
    requires |values| == |frame| && forall i :: 0 <= i < |frame| ==> values[i] == value(frame[i]) - shift
    ensures AllTie(values) <==> SameFor(frame, value)
  {
    if AllTie(values) {
      forall a, b | a in frame && b in frame ensures value(a) == value(b) {
        var i :| 0 <= i < |frame| && frame[i] == a;
        var j :| 0 <= j < |frame| && frame[j] == b;
        assert values[i] == values[j];
      }
    }
    if SameFor(frame, value) {
      forall i, j | 0 <= i < j < |values| ensures values[i] == values[j] {
        assert frame[i] in frame && frame[j] in frame;
      }
    }
  }

  /** The reason in terms of the counts of the extreme deciles and of ties. */
  lemma ReasonOfTies(n: int, os: seq<Observation>, minimum: int, root: real -> real)
    requires n == |os| && IsRoot(root)
    requires |FilterMap(ReturnIn(10), os)| == Ceil10(n) && |FilterMap(ReturnIn(1), os)| == n / 10
    ensures ReasonFor(n, minimum, os, root) ==
            if n < minimum then Some(BelowMinimum)
            else if n < 2 || AllTie(Scores(os)) || AllTie(Returns(os)) then Some(UndefinedRankIc)
            else if n < 10 then Some(EmptyExtremeDecile)
            else None
  {
    SpearmanUndefined(root, Scores(os), Returns(os));
  }

  /** The verdict on a valid month, read off its rows and prices: the first of too few rows, a
      missing close, a correlation that does not exist, and fewer than ten rows. */
  lemma {:induction false} WhyIncomplete(frame: seq<Entry>, formation: map<int, real>, outcome: map<int, real>,
                                         minimum: int, root: real -> real)
    requires ValidateFormationRanks(frame) == None && minimum > 0 && IsRoot(root)
    ensures MonthOf(frame, formation, outcome, minimum, root).reason ==
            if |frame| < minimum then Some(BelowMinimum)
            else if !AllPriced(frame, formation, outcome) then Some(MissingEndpoint)
            else if |frame| < 2 || ScoresTie(frame) || ReturnsTie(frame, formation, outcome)
            then Some(UndefinedRankIc)
            else if |frame| < 10 then Some(EmptyExtremeDecile)
            else None
  {
    var os := FilterMap(Observe(formation, outcome), frame);
    ValidHasDeciles(frame);
    FilterMapShorter(Observe(formation, outcome), frame);
    PricedIffNothingMissing(frame, formation, outcome);
    if frame != [] && AllPriced(frame, formation, outcome) {
      TiesOfFrame(frame, formation, outcome);
      CompleteMonthCounts(frame, formation, outcome);
      ReasonOfTies(|frame|, os, minimum, root);
    }
    ReasonIsReported(|frame|, os, minimum, root);
  }

  lemma ReasonIsReported(n: int, os: seq<Observation>, minimum: int, root: real -> real)
    ensures Report(n, os, minimum, root).reason == ReasonFor(n, minimum, os, root)
  {
  }

  /** A valid month is rejected for an empty extreme decile exactly when it has enough rows, all
      closes, two different scores and two different returns, but fewer than ten rows. */
  lemma EmptyDecileMeansFewerThanTen(frame: seq<Entry>, formation: map<int, real>, outcome: map<int, real>,
                                     minimum: int, root: real -> real)
    requires ValidateFormationRanks(frame) == None && minimum > 0 && IsRoot(root)
    ensures MonthOf(frame, formation, outcome, minimum, root).reason == Some(EmptyExtremeDecile) <==>
            && minimum <= |frame| < 10
            && AllPriced(frame, formation, outcome)
            && !ScoresTie(frame) && !ReturnsTie(frame, formation, outcome)
  {
    WhyIncomplete(frame, formation, outcome, minimum, root);
    if |frame| <= 1 {
      assert forall e :: e in frame ==> e == frame[0];
    }
  }

  // ---------------------------------------------------------------- the reason is reachable below ten

  /** n listings with falling scores. */
  function Ladder(n: nat): (scores: seq<Scored>)
    ensures |scores| == n && forall i :: 0 <= i < n ==> scores[i] == Scored(i, (n - i) as real)
  {
    seq(n, (i: int) requires 0 <= i < n => Scored(i, (n - i) as real))
  }

  function RisingClose(step: real, code: int): real { 1.0 + step * code as real }

  /** Closes of the listings: all one at formation, rising by listing at the outcome. */
  function Closes(n: nat, step: real): (closes: map<int, real>)
    ensures forall i :: 0 <= i < n ==> i in closes && closes[i] == RisingClose(step, i)
  {
    map code | 0 <= code < n :: RisingClose(step, code)
  }

  lemma LadderIsValid(n: nat)
    ensures ValidateFormationRanks(Table(Ladder(n))) == None
  {
    var scores := Ladder(n);
    SortOrdered(Before, scores);
    OrderedUnique(Before, Sort(Before, scores), scores);
    ScoresOfTable(scores);
    AcceptsOnlyTheBuildersTable(Table(scores));
  }

  lemma LadderHasNoTies(n: nat)
    requires n >= 2
    ensures var frame := Table(Ladder(n));
            && AllPriced(frame, Closes(n, 0.0), Closes(n, 1.0))
            && !ScoresTie(frame) && !ReturnsTie(frame, Closes(n, 0.0), Closes(n, 1.0))
  {
    var frame := Table(Ladder(n));
    assert frame[0] in frame && frame[1] in frame;
    var ratio := PriceRatio(Closes(n, 0.0), Closes(n, 1.0));
    assert ScoreOf()(frame[0]) != ScoreOf()(frame[1]);
    assert ratio(frame[0]) == 1.0 && ratio(frame[1]) == 2.0;
  }

  /** Between two and nine complete rows without ties reach the reason when the minimum allows. */
  lemma EmptyDecileIsReachable(n: nat, minimum: int, root: real -> real)
    requires 2 <= n && 0 < minimum <= n && IsRoot(root)
    ensures MonthOf(Table(Ladder(n)), Closes(n, 0.0), Closes(n, 1.0), minimum, root).reason
         == if n < 10 then Some(EmptyExtremeDecile) else None
  {
    LadderIsValid(n);
    LadderHasNoTies(n);
    WhyIncomplete(Table(Ladder(n)), Closes(n, 0.0), Closes(n, 1.0), minimum, root);
  }

  ghost predicate FailsForEmptyDecile(frame: seq<Entry>, formation: map<int, real>, outcome: map<int, real>,
                                      minimum: int, root: real -> real)
  {
    && ValidateFormationRanks(frame) == None
    && MonthOf(frame, formation, outcome, minimum, root).reason == Some(EmptyExtremeDecile)
  }

  /** So some valid month fails for an empty extreme decile exactly when the minimum is below ten. */
  lemma {:induction false} MinimumOfTenRulesOutEmptyDeciles(minimum: int, root: real -> real)
    requires minimum > 0 && IsRoot(root)
    ensures (exists frame, formation, outcome :: FailsForEmptyDecile(frame, formation, outcome, minimum, root))
            <==> minimum < 10
  {
    if minimum < 10 {
      var n := if minimum < 2 then 2 else minimum;
      EmptyDecileIsReachable(n, minimum, root);
      LadderIsValid(n);
      assert FailsForEmptyDecile(Table(Ladder(n)), Closes(n, 0.0), Closes(n, 1.0), minimum, root);
    }
    forall frame, formation, outcome | FailsForEmptyDecile(frame, formation, outcome, minimum, root)
      ensures minimum < 10
    {
      EmptyDecileMeansFewerThanTen(frame, formation, outcome, minimum, root);
    }
  }
}
