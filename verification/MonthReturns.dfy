/** The figures of a complete month, read off its rows and prices: the returns of the extreme deciles, their
    spread, and the rank correlation at its two ends. */
module MonthReturns {
  import opened Prelude
  import opened Sorting
  import opened Deciles
  import opened FormationRanks
  import opened RankCorrelation
  import opened MonthEvaluation

  /** Outcome over formation close of a row. */
  function Growth(formation: map<int, real>, outcome: map<int, real>, e: Entry): real
    requires e.code in formation && e.code in outcome && formation[e.code] != 0.0
  {
    outcome[e.code] / formation[e.code]
  }

  ghost predicate Priced(frame: seq<Entry>, formation: map<int, real>, outcome: map<int, real>) {
    forall i :: 0 <= i < |frame| ==>
      && frame[i].code in formation && formation[frame[i].code] > 0.0
      && frame[i].code in outcome && outcome[frame[i].code] > 0.0
  }

  /** The sum of the growths of the rows from lo up to hi. */
  function GrowthTotal(frame: seq<Entry>, formation: map<int, real>, outcome: map<int, real>, lo: nat, hi: nat): real
    requires Priced(frame, formation, outcome) && lo <= hi <= |frame|
    decreases hi
  {
    if lo == hi then 0.0
    else GrowthTotal(frame, formation, outcome, lo, hi - 1) + Growth(formation, outcome, frame[hi - 1])
  }

  /** A month that is reported complete. */
  ghost predicate Complete(frame: seq<Entry>, formation: map<int, real>, outcome: map<int, real>, minimum: int,
                           root: real -> real)
  {
    && ValidateFormationRanks(frame) == None && minimum > 0 && IsRoot(root)
    && MonthOf(frame, formation, outcome, minimum, root).reason == None
  }

  lemma {:induction false} CompleteMeans(frame: seq<Entry>, formation: map<int, real>, outcome: map<int, real>,
                                         minimum: int, root: real -> real)
    requires Complete(frame, formation, outcome, minimum, root)
    ensures |frame| >= 10 && !ScoresTie(frame)
    ensures AllPriced(frame, formation, outcome) && !ReturnsTie(frame, formation, outcome)
    ensures ReasonFor(|frame|, minimum, FilterMap(Observe(formation, outcome), frame), root) == None
  {
    WhyIncomplete(frame, formation, outcome, minimum, root);
    ReasonIsReported(|frame|, FilterMap(Observe(formation, outcome), frame), minimum, root);
  }

  /** The observations of the rows of a valid frame in which every row is priced. */
  ghost predicate Observed(frame: seq<Entry>, formation: map<int, real>, outcome: map<int, real>,
                           os: seq<Observation>)
    requires Priced(frame, formation, outcome)
  {
    && |os| == |frame|
    && forall i :: 0 <= i < |frame| ==>
         && os[i].imom == frame[i].imom && os[i].decile == Decile(|frame|, i + 1)
         && os[i].nextReturn == Growth(formation, outcome, frame[i]) - 1.0
  }

  lemma {:induction false} PricedRows(frame: seq<Entry>, formation: map<int, real>, outcome: map<int, real>)
    requires frame != [] && ValidateFormationRanks(frame) == None && AllPriced(frame, formation, outcome)
    ensures Priced(frame, formation, outcome)
    ensures Observed(frame, formation, outcome, FilterMap(Observe(formation, outcome), frame))
  {
    var os := FilterMap(Observe(formation, outcome), frame);
    forall i | 0 <= i < |frame|
      ensures HasPrice(formation, frame[i].code) && HasPrice(outcome, frame[i].code)
      ensures Observe(formation, outcome)(frame[i])
           == Some(Observation(frame[i].imom, outcome[frame[i].code] / formation[frame[i].code] - 1.0,
                               Decile(|frame|, i + 1)))
    {
      assert frame[i] in frame;
    }
    FilterMapTotal(Observe(formation, outcome), frame);
  }

  // ---------------------------------------------------------------- the extreme deciles are the ends of the frame

  lemma {:induction false} OthersKeepNothing(os: seq<Observation>, d: int)
    requires forall i :: 0 <= i < |os| ==> os[i].decile != d
    ensures FilterMap(ReturnIn(d), os) == []
    decreases |os|
  {
    if os == [] {
    } else {
      OthersKeepNothing(os[1..], d);
    }
  }

  lemma {:induction false} AllOfDecile(os: seq<Observation>, d: int)
    requires forall i :: 0 <= i < |os| ==> os[i].decile == d
    ensures FilterMap(ReturnIn(d), os) == Returns(os)
    decreases |os|
  {
    if os == [] {
    } else {
      AllOfDecile(os[1..], d);
      assert Returns(os) == [os[0].nextReturn] + Returns(os[1..]);
    }
  }

  lemma {:induction false} RunOfParts(before: seq<Observation>, run: seq<Observation>, after: seq<Observation>, d: int)
    requires forall i :: 0 <= i < |before| ==> before[i].decile != d
    requires forall i :: 0 <= i < |run| ==> run[i].decile == d
    requires forall i :: 0 <= i < |after| ==> after[i].decile != d
    ensures FilterMap(ReturnIn(d), before + (run + after)) == Returns(run)
  {
    OthersKeepNothing(before, d);
    AllOfDecile(run, d);
    OthersKeepNothing(after, d);
    FilterMapConcat(ReturnIn(d), before, run + after);
    FilterMapConcat(ReturnIn(d), run, after);
  }

  /** A decile that is a run of rows. */
  lemma {:induction false} RunOfDecile(os: seq<Observation>, d: int, lo: nat, hi: nat)
    requires lo <= hi <= |os| && forall i :: 0 <= i < |os| ==> (os[i].decile == d <==> lo <= i < hi)
    ensures FilterMap(ReturnIn(d), os) == Returns(os)[lo..hi]
  {
    RunOfParts(os[..lo], os[lo..hi], os[hi..], d);
    assert os == os[..lo] + (os[lo..hi] + os[hi..]);
    assert Returns(os)[lo..hi] == Returns(os[lo..hi]);
  }

  lemma EndsOfRanks(n: nat, i: nat)
    requires i < n
    ensures Decile(n, i + 1) == 10 <==> i < Ceil10(n)
    ensures Decile(n, i + 1) == 1 <==> n - n / 10 <= i
  {
    DecileIsRun(n, i + 1, 10);
    DecileIsRun(n, i + 1, 1);
  }

  /** The first rows make up the best decile and the last ones the worst. */
  lemma {:induction false} EndsOfFrame(os: seq<Observation>, n: nat)
    requires 10 <= n == |os| && forall i :: 0 <= i < n ==> os[i].decile == Decile(n, i + 1)
    ensures 0 < Ceil10(n) <= n && 0 < n / 10
    ensures FilterMap(ReturnIn(10), os) == Returns(os)[0..Ceil10(n)]
    ensures FilterMap(ReturnIn(1), os) == Returns(os)[n - n / 10..n]
  {
    var c, w := Ceil10(n), n - n / 10;
    forall i | 0 <= i < n
      ensures os[i].decile == 10 <==> 0 <= i < c
      ensures os[i].decile == 1 <==> w <= i < n
    {
      EndsOfRanks(n, i);
    }
    RunOfDecile(os, 10, 0, c);
    RunOfDecile(os, 1, w, n);
  }

  // ---------------------------------------------------------------- the figures

  lemma {:induction false} SumOfGrowths(frame: seq<Entry>, formation: map<int, real>, outcome: map<int, real>,
                                        rs: seq<real>, lo: nat, hi: nat)
    requires Priced(frame, formation, outcome) && lo <= hi <= |frame| == |rs|
    requires forall i :: 0 <= i < |frame| ==> rs[i] == Growth(formation, outcome, frame[i]) - 1.0
    ensures Sum(rs[lo..hi]) == GrowthTotal(frame, formation, outcome, lo, hi) - (hi - lo) as real
    decreases hi
  {
    if lo == hi {
    } else {
      SumOfGrowths(frame, formation, outcome, rs, lo, hi - 1);
      assert rs[lo..hi][..hi - lo - 1] == rs[lo..hi - 1];
    }
  }

  lemma MeanTimes(xs: seq<real>)
    requires xs != []
    ensures Product(|xs| as real, 1.0 + Mean(xs)) == |xs| as real + Sum(xs)
  {
    ShareOfTotal(|xs| as real, Sum(xs));
  }

  lemma ShareOfTotal(n: real, total: real)
    requires n > 0.0
    ensures Product(n, 1.0 + total / n) == n + total
  {
    assert Product(n, total / n) == total;
  }

  lemma ReasonNeedsDeciles(n: int, os: seq<Observation>, minimum: int, root: real -> real)
    requires ReasonFor(n, minimum, os, root) == None
    ensures FilterMap(ReturnIn(10), os) != [] && FilterMap(ReturnIn(1), os) != []
  {
  }

  lemma CompleteReport(n: int, os: seq<Observation>, minimum: int, root: real -> real)
    requires ReasonFor(n, minimum, os, root) == None
    ensures var best, worst := FilterMap(ReturnIn(10), os), FilterMap(ReturnIn(1), os);
            && best != [] && worst != []
            && Report(n, os, minimum, root) == CompleteMonth(n, |os|, best, worst, RankIc(os, root))
  {
    ReasonNeedsDeciles(n, os, minimum, root);
  }

  lemma FiguresOf(n: int, valid: int, best: seq<real>, worst: seq<real>, rankIc: Option<real>)
    requires best != [] && worst != []
    ensures var m := CompleteMonth(n, valid, best, worst, rankIc);
            && m.best == |best| && m.worst == |worst| && m.rankIc == rankIc
            && m.bestReturn.Some? && m.worstReturn.Some? && m.spread.Some?
            && Product(|best| as real, 1.0 + m.bestReturn.value) == |best| as real + Sum(best)
            && Product(|worst| as real, 1.0 + m.worstReturn.value) == |worst| as real + Sum(worst)
            && m.worstReturn.value + m.spread.value == m.bestReturn.value
  {
    MeanTimes(best);
    MeanTimes(worst);
  }

  lemma ReturnsAreGrowths(frame: seq<Entry>, formation: map<int, real>, outcome: map<int, real>, os: seq<Observation>,
                          lo: nat, hi: nat)
    requires Priced(frame, formation, outcome) && Observed(frame, formation, outcome, os) && lo <= hi <= |frame|
    ensures var part := Returns(os)[lo..hi];
            |part| == hi - lo && |part| as real + Sum(part) == GrowthTotal(frame, formation, outcome, lo, hi)
  {
    SumOfGrowths(frame, formation, outcome, Returns(os), lo, hi);
  }

  /** The sums over the two ends of the frame. */
  lemma {:induction false} SumsAtEnds(frame: seq<Entry>, formation: map<int, real>, outcome: map<int, real>,
                                      os: seq<Observation>)
    requires |frame| >= 10 && Priced(frame, formation, outcome) && Observed(frame, formation, outcome, os)
    ensures var n, best, worst := |frame|, FilterMap(ReturnIn(10), os), FilterMap(ReturnIn(1), os);
            && 0 < Ceil10(n) == |best| <= n && 0 < n / 10 == |worst|
            && |best| as real + Sum(best) == GrowthTotal(frame, formation, outcome, 0, Ceil10(n))
            && |worst| as real + Sum(worst) == GrowthTotal(frame, formation, outcome, n - n / 10, n)
  {
    EndsOfFrame(os, |frame|);
    ReturnsAreGrowths(frame, formation, outcome, os, 0, Ceil10(|frame|));
    ReturnsAreGrowths(frame, formation, outcome, os, |frame| - |frame| / 10, |frame|);
  }

  /** The figures of a report on a complete month: the ceiling of a tenth of the rows, times one plus the best
      return, is the sum of their growths at the head of the frame; the floor, times one plus the worst return,
      that at its foot; and the spread is the difference of the two returns. */
  ghost predicate Figures(frame: seq<Entry>, formation: map<int, real>, outcome: map<int, real>, m: Month) {
    var n := |frame|;
    && Priced(frame, formation, outcome)
    && 0 < Ceil10(n) <= n && m.best == Ceil10(n) && m.worst == n / 10
    && m.bestReturn.Some? && m.worstReturn.Some? && m.spread.Some?
    && Product(Ceil10(n) as real, 1.0 + m.bestReturn.value) == GrowthTotal(frame, formation, outcome, 0, Ceil10(n))
    && Product((n / 10) as real, 1.0 + m.worstReturn.value)
         == GrowthTotal(frame, formation, outcome, n - n / 10, n)
    && m.worstReturn.value + m.spread.value == m.bestReturn.value
  }

  lemma {:induction false} FiguresOfEnds(frame: seq<Entry>, formation: map<int, real>, outcome: map<int, real>,
                                         os: seq<Observation>, rankIc: Option<real>)
    requires |frame| >= 10 && Priced(frame, formation, outcome) && Observed(frame, formation, outcome, os)
    requires FilterMap(ReturnIn(10), os) != [] && FilterMap(ReturnIn(1), os) != []
    ensures Figures(frame, formation, outcome,
                    CompleteMonth(|frame|, |os|, FilterMap(ReturnIn(10), os), FilterMap(ReturnIn(1), os), rankIc))
  {
    SumsAtEnds(frame, formation, outcome, os);
    FiguresOf(|frame|, |os|, FilterMap(ReturnIn(10), os), FilterMap(ReturnIn(1), os), rankIc);
  }

  lemma {:induction false} ReturnsOfMonth(frame: seq<Entry>, formation: map<int, real>, outcome: map<int, real>,
                                          minimum: int, root: real -> real)
    requires Complete(frame, formation, outcome, minimum, root)
    ensures Figures(frame, formation, outcome, MonthOf(frame, formation, outcome, minimum, root))
  {
    var os := FilterMap(Observe(formation, outcome), frame);
    CompleteMeans(frame, formation, outcome, minimum, root);
    PricedRows(frame, formation, outcome);
    CompleteReport(|frame|, os, minimum, root);
    FiguresOfEnds(frame, formation, outcome, os, RankIc(os, root));
  }

  /** How many rows have both closes. */
  function BothPriced(frame: seq<Entry>, formation: map<int, real>, outcome: map<int, real>): nat {
    if frame == [] then 0
    else
      var code := frame[0].code;
      BothPriced(frame[1..], formation, outcome) +
      if code in formation && formation[code] > 0.0 && code in outcome && outcome[code] > 0.0 then 1 else 0
  }

  lemma {:induction false} ObservedCount(frame: seq<Entry>, formation: map<int, real>, outcome: map<int, real>)
    requires forall e :: e in frame ==> e.decile.Some?
    ensures |FilterMap(Observe(formation, outcome), frame)| == BothPriced(frame, formation, outcome)
    decreases |frame|
  {
    if frame == [] {
    } else {
      assert frame[0] in frame;
      ObservedCount(frame[1..], formation, outcome);
    }
  }

  lemma ReportCounts(n: int, os: seq<Observation>, minimum: int, root: real -> real)
    ensures var m := Report(n, os, minimum, root);
            && m.eligible == n && m.valid == |os| && m.missing == n - |os|
            && (m.reason.Some? ==> m.bestReturn.None? && m.worstReturn.None? && m.spread.None? && m.rankIc.None?)
  {
  }

  /** The counts of every valid month: its rows, those with both closes, and the others. A month that is not
      complete has no figures. */
  lemma {:induction false} CountsOfMonth(frame: seq<Entry>, formation: map<int, real>, outcome: map<int, real>,
                                         minimum: int, root: real -> real)
    requires ValidateFormationRanks(frame) == None
    ensures var m, both := MonthOf(frame, formation, outcome, minimum, root), BothPriced(frame, formation, outcome);
            && m.eligible == |frame| && m.valid == both && m.missing == |frame| - both
            && (m.reason.Some? ==> m.bestReturn.None? && m.worstReturn.None? && m.spread.None? && m.rankIc.None?)
  {
    ValidHasDeciles(frame);
    ObservedCount(frame, formation, outcome);
    ReportCounts(|frame|, FilterMap(Observe(formation, outcome), frame), minimum, root);
  }

  // ---------------------------------------------------------------- the sign of the spread

  lemma {:induction false} SumAbove(xs: seq<real>, c: real)
    requires forall i :: 0 <= i < |xs| ==> xs[i] >= c
    ensures Sum(xs) >= Product(|xs| as real, c)
    ensures xs != [] && (forall i :: 0 <= i < |xs| ==> xs[i] > c) ==> Sum(xs) > Product(|xs| as real, c)
    decreases |xs|
  {
    if xs == [] {
    } else {
      SumAbove(xs[..|xs| - 1], c);
      OneMore((|xs| - 1) as real, c);
    }
  }

  lemma {:induction false} SumBelow(xs: seq<real>, c: real)
    requires forall i :: 0 <= i < |xs| ==> xs[i] <= c
    ensures Sum(xs) <= Product(|xs| as real, c)
    decreases |xs|
  {
    if xs == [] {
    } else {
      SumBelow(xs[..|xs| - 1], c);
      OneMore((|xs| - 1) as real, c);
    }
  }

  lemma MeanAgainst(n: real, total: real, c: real)
    requires n > 0.0
    ensures total > Product(n, c) ==> total / n > c
    ensures total <= Product(n, c) ==> total / n <= c
  {
    assert Product(n, total / n) == total;
  }

  lemma MeansApart(xs: seq<real>, ys: seq<real>)
    requires xs != [] && ys != []
    requires forall i, j :: 0 <= i < |xs| && 0 <= j < |ys| ==> xs[i] > ys[j]
    ensures Mean(xs) > Mean(ys)
  {
    var c := MaxOf(ys);
    var j :| 0 <= j < |ys| && ys[j] == c;
    forall i | 0 <= i < |ys| ensures ys[i] <= c {
      assert ys[i] in ys;
    }
    SumAbove(xs, c);
    SumBelow(ys, c);
    MeanAgainst(|xs| as real, Sum(xs), c);
    MeanAgainst(|ys| as real, Sum(ys), c);
  }

  /** Every row at the head of the frame grows by more than every row at its foot. */
  ghost predicate HeadOutgrowsFoot(frame: seq<Entry>, formation: map<int, real>, outcome: map<int, real>)
    requires Priced(frame, formation, outcome)
  {
    forall i, j :: 0 <= i < Ceil10(|frame|) && i < |frame| && |frame| - |frame| / 10 <= j < |frame| && 0 <= j ==>
      Growth(formation, outcome, frame[i]) > Growth(formation, outcome, frame[j])
  }

  /** The opposite: every row at the foot grows by more. */
  ghost predicate FootOutgrowsHead(frame: seq<Entry>, formation: map<int, real>, outcome: map<int, real>)
    requires Priced(frame, formation, outcome)
  {
    forall i, j :: 0 <= i < Ceil10(|frame|) && i < |frame| && |frame| - |frame| / 10 <= j < |frame| && 0 <= j ==>
      Growth(formation, outcome, frame[i]) < Growth(formation, outcome, frame[j])
  }

  lemma {:induction false} MeansOfEnds(frame: seq<Entry>, formation: map<int, real>, outcome: map<int, real>,
                                       os: seq<Observation>)
    requires |frame| >= 10 && Priced(frame, formation, outcome) && Observed(frame, formation, outcome, os)
    ensures var best, worst := FilterMap(ReturnIn(10), os), FilterMap(ReturnIn(1), os);
            && best != [] && worst != []
            && (HeadOutgrowsFoot(frame, formation, outcome) ==> Mean(best) > Mean(worst))
            && (FootOutgrowsHead(frame, formation, outcome) ==> Mean(best) < Mean(worst))
  {
    var n, rs := |frame|, Returns(os);
    EndsOfFrame(os, n);
    var best, worst := rs[0..Ceil10(n)], rs[n - n / 10..n];
    forall j | 0 <= j < |worst| ensures worst[j] == Growth(formation, outcome, frame[n - n / 10 + j]) - 1.0 {
    }
    if HeadOutgrowsFoot(frame, formation, outcome) {
      MeansApart(best, worst);
    }
    if FootOutgrowsHead(frame, formation, outcome) {
      MeansApart(worst, best);
    }
  }

  /** The spread of a complete month is positive when its best decile outgrows the worst one row by row, and
      negative when the worst outgrows the best. */
  lemma {:induction false} SignOfSpread(frame: seq<Entry>, formation: map<int, real>, outcome: map<int, real>,
                                        minimum: int, root: real -> real)
    requires Complete(frame, formation, outcome, minimum, root)
    ensures Priced(frame, formation, outcome)
    ensures var spread := MonthOf(frame, formation, outcome, minimum, root).spread;
            && spread.Some?
            && (HeadOutgrowsFoot(frame, formation, outcome) ==> spread.value > 0.0)
            && (FootOutgrowsHead(frame, formation, outcome) ==> spread.value < 0.0)
  {
    var os, n := FilterMap(Observe(formation, outcome), frame), |frame|;
    CompleteMeans(frame, formation, outcome, minimum, root);
    PricedRows(frame, formation, outcome);
    MeansOfEnds(frame, formation, outcome, os);
    CompleteReport(n, os, minimum, root);
  }

  // ---------------------------------------------------------------- the rank correlation

  /** Rows with a better score grow by more, and rows with equal scores by the same. */
  ghost predicate GrowthFollowsScore(frame: seq<Entry>, formation: map<int, real>, outcome: map<int, real>)
    requires Priced(frame, formation, outcome)
  {
    forall i, j :: 0 <= i < |frame| && 0 <= j < |frame| ==>
      (frame[i].imom < frame[j].imom <==>
         Growth(formation, outcome, frame[i]) < Growth(formation, outcome, frame[j]))
  }

  ghost predicate GrowthOpposesScore(frame: seq<Entry>, formation: map<int, real>, outcome: map<int, real>)
    requires Priced(frame, formation, outcome)
  {
    forall i, j :: 0 <= i < |frame| && 0 <= j < |frame| ==>
      (frame[i].imom < frame[j].imom <==>
         Growth(formation, outcome, frame[j]) < Growth(formation, outcome, frame[i]))
  }

  lemma {:induction false} OrderOfObservations(frame: seq<Entry>, formation: map<int, real>, outcome: map<int, real>,
                                               os: seq<Observation>)
    requires Priced(frame, formation, outcome) && Observed(frame, formation, outcome, os)
    ensures SameOrder(MonthEvaluation.Scores(os), Returns(os)) <==> GrowthFollowsScore(frame, formation, outcome)
    ensures OppositeOrder(MonthEvaluation.Scores(os), Returns(os)) <==> GrowthOpposesScore(frame, formation, outcome)
    ensures AllTie(MonthEvaluation.Scores(os)) ==> ScoresTie(frame)
  {
    var scores, gains := MonthEvaluation.Scores(os), Returns(os);
    forall i | 0 <= i < |frame|
      ensures scores[i] == frame[i].imom && gains[i] == Growth(formation, outcome, frame[i]) - 1.0
    {
    }
    if SameOrder(scores, gains) {
      forall i, j | 0 <= i < |frame| && 0 <= j < |frame|
        ensures frame[i].imom < frame[j].imom <==>
                Growth(formation, outcome, frame[i]) < Growth(formation, outcome, frame[j])
      {
        assert scores[i] < scores[j] <==> gains[i] < gains[j];
      }
    }
    if OppositeOrder(scores, gains) {
      forall i, j | 0 <= i < |frame| && 0 <= j < |frame|
        ensures frame[i].imom < frame[j].imom <==>
                Growth(formation, outcome, frame[j]) < Growth(formation, outcome, frame[i])
      {
        assert scores[i] < scores[j] <==> gains[j] < gains[i];
      }
    }
    TiesByIndex(scores, frame, ScoreOf(), 0.0);
  }

  /** The rank correlation of a complete month is one exactly when growth ranks as the scores do, and minus one
      exactly when it ranks the other way round. */
  lemma {:induction false} FullRankIc(frame: seq<Entry>, formation: map<int, real>, outcome: map<int, real>,
                                      minimum: int, root: real -> real)
    requires Complete(frame, formation, outcome, minimum, root)
    ensures Priced(frame, formation, outcome)
    ensures var ic := MonthOf(frame, formation, outcome, minimum, root).rankIc;
            && (ic == Some(1.0) <==> GrowthFollowsScore(frame, formation, outcome))
            && (ic == Some(-1.0) <==> GrowthOpposesScore(frame, formation, outcome))
  {
    var os, n := FilterMap(Observe(formation, outcome), frame), |frame|;
    CompleteMeans(frame, formation, outcome, minimum, root);
    PricedRows(frame, formation, outcome);
    OrderOfObservations(frame, formation, outcome, os);
    SpearmanIsFull(root, MonthEvaluation.Scores(os), Returns(os));
    CompleteReport(n, os, minimum, root);
  }
}
