/** The gate over a development split: every formation date is paired with the next calendar date,
    both inside the split, and its month is evaluated from the closes of these two dates. */
module DevelopmentMonths {
  import opened Prelude
  import opened Sorting
  import opened CrossSection
  import opened FormationRanks
  import opened MonthEvaluation

  // ---------------------------------------------------------------- pairing

  function Later(calendar: set<int>, d: int): set<int> { set e | e in calendar && e > d }

  function NextOf(calendar: set<int>, d: int): (r: Option<int>)
    ensures r.Some? ==> r.value in calendar && d < r.value
    ensures r.Some? ==> forall e :: e in calendar ==> e <= d || r.value <= e
    ensures r.None? ==> forall e :: e in calendar ==> e <= d
  {
    if Later(calendar, d) == {} then
      assert forall e :: e in calendar && e > d ==> e in Later(calendar, d);
      None
    else
      assert forall e :: e in calendar && e > d ==> e in Later(calendar, d);
      Some(Least(Later(calendar, d)))
  }

  /** The date has a successor in the calendar, and both lie in the split. */
  predicate Paired(calendar: set<int>, start: int, end: int, d: int) {
    d in calendar && start <= d <= end && NextOf(calendar, d).Some? && NextOf(calendar, d).value <= end
  }

  function NextDates(calendar: set<int>, start: int, end: int): (next: map<int, int>)
    ensures next.Keys == set d | d in calendar && Paired(calendar, start, end, d)
    ensures forall d :: d in next <==> Paired(calendar, start, end, d)
    ensures forall d :: d in next ==> NextOf(calendar, d) == Some(next[d])
  {
    map d | d in calendar && Paired(calendar, start, end, d) :: NextOf(calendar, d).value
  }

  lemma {:induction false} Successor(calendar: set<int>, dates: seq<int>, k: nat)
    requires StrictlyIncreasing(dates) && (forall d :: d in dates <==> d in calendar) && k < |dates|
    ensures NextOf(calendar, dates[k]) == if k + 1 < |dates| then Some(dates[k + 1]) else None
  {
    forall e | e in calendar && e > dates[k] ensures k + 1 < |dates| && dates[k + 1] <= e {
      var j :| 0 <= j < |dates| && dates[j] == e;
      assert j > k;
    }
    assert k + 1 < |dates| ==> dates[k + 1] in dates;
  }

  /** The pairs that begin among the first k dates. */
  ghost predicate PairsUpTo(calendar: set<int>, start: int, end: int, dates: seq<int>, k: nat, next: map<int, int>)
    requires k <= |dates|
  {
    && next.Keys == (set d | d in dates[..k] && Paired(calendar, start, end, d))
    && forall d :: d in next ==> NextOf(calendar, d) == Some(next[d])
  }

  lemma PairStep(calendar: set<int>, start: int, end: int, dates: seq<int>, k: nat, next: map<int, int>)
    requires k < |dates| && PairsUpTo(calendar, start, end, dates, k, next)
    ensures PairsUpTo(calendar, start, end, dates, k + 1,
                      if Paired(calendar, start, end, dates[k])
                      then next[dates[k] := NextOf(calendar, dates[k]).value] else next)
  {
    assert dates[..k + 1] == dates[..k] + [dates[k]];
  }

  /** Walking over neighbouring dates of the sorted calendar. */
  method PairDates(calendar: set<int>, start: int, end: int) returns (next: map<int, int>)
    ensures next == NextDates(calendar, start, end)
  {
    var dates := Ascending(calendar);
    next := map[];
    for k := 0 to |dates|
      invariant PairsUpTo(calendar, start, end, dates, k, next)
    {
      Successor(calendar, dates, k);
      PairStep(calendar, start, end, dates, k, next);
      assert dates[k] in dates;
      if k + 1 < |dates| && start <= dates[k] <= end && dates[k + 1] <= end {
        next := next[dates[k] := dates[k + 1]];
      }
    }
    assert dates[..|dates|] == dates;
    SameMap(next, NextDates(calendar, start, end));
  }

  lemma SameMap<K, V>(m: map<K, V>, m': map<K, V>)
    requires m.Keys == m'.Keys && forall d :: d in m ==> m[d] == m'[d]
    ensures m == m'
  {
  }

  // ---------------------------------------------------------------- the months

  /** Some row of the date has a score. */
  predicate Available(rows: seq<Row>, d: int) {
    exists i :: 0 <= i < |rows| && rows[i].listing.date == d && rows[i].listing.imom.Some?
  }

  type Prices = map<(int, int), real>

  function ClosesOn(prices: Prices, d: int): (closes: map<int, real>)
    ensures forall code :: code in closes <==> (d, code) in prices
    ensures forall code :: code in closes ==> closes[code] == prices[(d, code)]
  {
    map key | key in prices && key.0 == d :: key.1 := prices[key]
  }

  function FormationDates(rows: seq<Row>, next: map<int, int>): seq<int> {
    Ascending(set d | d in next && Available(rows, d))
  }

  datatype DatedMonth = DatedMonth(formation: int, outcome: int, month: Month)

  datatype Failure = NoFormationDates | MonthFailed(error: EvaluationError)

  /** The verdict on the month of a formation and an outcome date. */
  type Verdict = (int, int) -> Result<Month, EvaluationError>

  function MonthAt(rows: seq<Row>, prices: Prices, minimum: int, root: real -> real): Verdict {
    (d: int, outcome: int) =>
      var frame := Frame(rows, d);
      if minimum <= 0 then Err(MinimumNotPositive)
      else if ValidateFormationRanks(frame).Some? then Err(BadRanks(ValidateFormationRanks(frame).value))
      else Ok(MonthOf(frame, ClosesOn(prices, d), ClosesOn(prices, outcome), minimum, root))
  }

  /** The months of the first n formation dates, or the first error. */
  function MonthsOf(verdict: Verdict, next: map<int, int>, dates: seq<int>, n: nat): Result<seq<DatedMonth>, Failure>
    requires n <= |dates| && forall d :: d in dates ==> d in next
  {
    if n == 0 then Ok([])
    else
      var before := MonthsOf(verdict, next, dates, n - 1);
      if before.Err? then before
      else
        var d := dates[n - 1];
        match verdict(d, next[d])
        case Err(error) => Err(MonthFailed(error))
        case Ok(month) => Ok(before.value + [DatedMonth(d, next[d], month)])
  }

  function Evaluated(rows: seq<Row>, prices: Prices, calendar: set<int>, start: int, end: int, minimum: int,
                     root: real -> real): Result<seq<DatedMonth>, Failure>
  {
    var next := NextDates(calendar, start, end);
    var dates := FormationDates(rows, next);
    if minimum <= 0 then Err(MonthFailed(MinimumNotPositive))
    else if dates == [] then Err(NoFormationDates)
    else MonthsOf(MonthAt(rows, prices, minimum, root), next, dates, |dates|)
  }

  lemma {:induction false} ErrorPersists(verdict: Verdict, next: map<int, int>, dates: seq<int>, n: nat, m: nat)
    requires n <= m <= |dates| && forall d :: d in dates ==> d in next
    requires MonthsOf(verdict, next, dates, n).Err?
    ensures MonthsOf(verdict, next, dates, m) == MonthsOf(verdict, next, dates, n)
    decreases m
  {
    if m == n {
    } else {
      ErrorPersists(verdict, next, dates, n, m - 1);
    }
  }

  lemma MonthStep(verdict: Verdict, next: map<int, int>, dates: seq<int>, n: nat, months: seq<DatedMonth>)
    requires n < |dates| && (forall d :: d in dates ==> d in next) && MonthsOf(verdict, next, dates, n) == Ok(months)
    ensures var d := dates[n];
            match verdict(d, next[d])
            case Err(error) => MonthsOf(verdict, next, dates, |dates|) == Err(MonthFailed(error))
            case Ok(month) => MonthsOf(verdict, next, dates, n + 1) == Ok(months + [DatedMonth(d, next[d], month)])
  {
    var d := dates[n];
    assert d in dates;
    if MonthsOf(verdict, next, dates, n + 1).Err? {
      ErrorPersists(verdict, next, dates, n + 1, |dates|);
    }
  }

  method Evaluate(rows: seq<Row>, prices: Prices, d: int, outcome: int, minimum: int, root: real -> real)
    returns (month: Result<Month, EvaluationError>)
    ensures month == MonthAt(rows, prices, minimum, root)(d, outcome)
  {
    month := EvaluateMonth(Frame(rows, d), ClosesOn(prices, d), ClosesOn(prices, outcome), minimum, root);
  }

  method EvaluateMonths(rows: seq<Row>, prices: Prices, calendar: set<int>, start: int, end: int, minimum: int,
                        root: real -> real)
    returns (r: Result<seq<DatedMonth>, Failure>)
    ensures r == Evaluated(rows, prices, calendar, start, end, minimum, root)
  {
    if minimum <= 0 {
      return Err(MonthFailed(MinimumNotPositive));
    }
    var next := PairDates(calendar, start, end);
    var dates := FormationDates(rows, next);
    if dates == [] {
      return Err(NoFormationDates);
    }
    ghost var verdict := MonthAt(rows, prices, minimum, root);
    var months: seq<DatedMonth> := [];
    for n := 0 to |dates|
      invariant MonthsOf(verdict, next, dates, n) == Ok(months)
    {
      var d := dates[n];
      assert d in dates;
      MonthStep(verdict, next, dates, n, months);
      var month := Evaluate(rows, prices, d, next[d], minimum, root);
      if month.Err? {
        return Err(MonthFailed(month.error));
      }
      months := months + [DatedMonth(d, next[d], month.value)];
    }
    r := Ok(months);
  }

  // ---------------------------------------------------------------- months follow each other

  lemma {:induction false} MonthsAt(verdict: Verdict, next: map<int, int>, dates: seq<int>, n: nat)
    requires n <= |dates| && (forall d :: d in dates ==> d in next) && MonthsOf(verdict, next, dates, n).Ok?
    ensures var months := MonthsOf(verdict, next, dates, n).value;
            && |months| == n
            && forall i :: 0 <= i < n ==>
                 && months[i].formation == dates[i] && months[i].outcome == next[dates[i]]
                 && verdict(dates[i], next[dates[i]]) == Ok(months[i].month)
  {
    if n == 0 {
    } else {
      MonthsAt(verdict, next, dates, n - 1);
    }
  }

  /** Each month ends on the trading date after its formation, inside the split, and no later than
      the next month begins: the return periods never overlap. */
  lemma MonthsFollowEachOther(rows: seq<Row>, prices: Prices, calendar: set<int>, start: int, end: int,
                              minimum: int, root: real -> real)
    requires Evaluated(rows, prices, calendar, start, end, minimum, root).Ok?
    ensures var months := Evaluated(rows, prices, calendar, start, end, minimum, root).value;
            && (forall i :: 0 <= i < |months| ==>
                  && start <= months[i].formation < months[i].outcome <= end
                  && (forall d :: d in calendar ==> d <= months[i].formation || months[i].outcome <= d)
                  && MonthAt(rows, prices, minimum, root)(months[i].formation, months[i].outcome)
                       == Ok(months[i].month))
            && (forall i, j :: 0 <= i < j < |months| ==> months[i].outcome <= months[j].formation)
  {
    var next := NextDates(calendar, start, end);
    var dates := FormationDates(rows, next);
    MonthsAt(MonthAt(rows, prices, minimum, root), next, dates, |dates|);
    forall i | 0 <= i < |dates|
      ensures dates[i] in next && dates[i] in calendar
    {
      assert dates[i] in dates;
    }
  }

  // ---------------------------------------------------------------- the split is sealed

  predicate Within(start: int, end: int, d: int) { start <= d <= end }

  /** Two calendars with the same dates in the split pair the same dates. */
  lemma {:induction false} SamePairs(calendar: set<int>, calendar': set<int>, start: int, end: int)
    requires forall d :: Within(start, end, d) ==> (d in calendar <==> d in calendar')
    ensures NextDates(calendar, start, end) == NextDates(calendar', start, end)
  {
    forall d ensures Paired(calendar, start, end, d) <==> Paired(calendar', start, end, d)
             ensures Paired(calendar, start, end, d) ==> NextOf(calendar, d) == NextOf(calendar', d) {
      if Paired(calendar, start, end, d) {
        PairCarriesOver(calendar, calendar', start, end, d);
      }
      if Paired(calendar', start, end, d) {
        PairCarriesOver(calendar', calendar, start, end, d);
      }
    }
    SameMap(NextDates(calendar, start, end), NextDates(calendar', start, end));
  }

  lemma {:induction false} PairCarriesOver(calendar: set<int>, calendar': set<int>, start: int, end: int, d: int)
    requires forall d :: Within(start, end, d) ==> (d in calendar <==> d in calendar')
    requires Paired(calendar, start, end, d)
    ensures Paired(calendar', start, end, d) && NextOf(calendar, d) == NextOf(calendar', d)
  {
    var x := NextOf(calendar, d).value;
    assert Within(start, end, x) && Within(start, end, d);
    assert x in calendar';
    var y := NextOf(calendar', d).value;
    assert Within(start, end, y);
  }

  /** The rows and prices of the split. */
  function RowIn(start: int, end: int): Row -> Option<Row> {
    (r: Row) => if Within(start, end, r.listing.date) then Some(r) else None
  }

  ghost predicate SameInSplit(rows: seq<Row>, rows': seq<Row>, prices: Prices, prices': Prices, start: int, end: int) {
    && FilterMap(RowIn(start, end), rows) == FilterMap(RowIn(start, end), rows')
    && forall key: (int, int) :: Within(start, end, key.0) ==>
         && (key in prices <==> key in prices')
         && (key in prices ==> prices[key] == prices'[key])
  }

  lemma AvailableInSplit(rows: seq<Row>, start: int, end: int, d: int)
    requires Within(start, end, d)
    ensures Available(rows, d) <==> Available(FilterMap(RowIn(start, end), rows), d)
  {
    var f, kept := RowIn(start, end), FilterMap(RowIn(start, end), rows);
    if Available(rows, d) {
      var i :| 0 <= i < |rows| && rows[i].listing.date == d && rows[i].listing.imom.Some?;
      assert rows[i] in rows && f(rows[i]) == Some(rows[i]);
      FilterMapMember(f, rows, rows[i]);
      var j :| 0 <= j < |kept| && kept[j] == rows[i];
      assert kept[j].listing.date == d;
    }
    if Available(kept, d) {
      var j :| 0 <= j < |kept| && kept[j].listing.date == d && kept[j].listing.imom.Some?;
      assert kept[j] in kept;
      FilterMapMember(f, rows, kept[j]);
      var i :| 0 <= i < |rows| && rows[i] == kept[j];
      assert rows[i].listing.date == d;
    }
  }

  /** The frame of a date in the split uses the rows of the split only. */
  lemma FrameInSplit(rows: seq<Row>, start: int, end: int, d: int)
    requires Within(start, end, d)
    ensures Frame(rows, d) == Frame(FilterMap(RowIn(start, end), rows), d)
  {
    FilterMapCompose(RowIn(start, end), EntryOn(d), EntryOn(d), rows);
  }

  lemma ClosesInSplit(rows: seq<Row>, rows': seq<Row>, prices: Prices, prices': Prices, start: int, end: int, d: int)
    requires SameInSplit(rows, rows', prices, prices', start, end) && Within(start, end, d)
    ensures ClosesOn(prices, d) == ClosesOn(prices', d)
  {
    forall code ensures code in ClosesOn(prices, d) <==> code in ClosesOn(prices', d) {
      assert (d, code).0 == d;
    }
    assert ClosesOn(prices, d).Keys == ClosesOn(prices', d).Keys;
  }

  lemma MonthInSplit(rows: seq<Row>, rows': seq<Row>, prices: Prices, prices': Prices, start: int, end: int,
                     d: int, outcome: int, minimum: int, root: real -> real)
    requires SameInSplit(rows, rows', prices, prices', start, end)
    requires Within(start, end, d) && Within(start, end, outcome)
    ensures MonthAt(rows, prices, minimum, root)(d, outcome) == MonthAt(rows', prices', minimum, root)(d, outcome)
  {
    FrameInSplit(rows, start, end, d);
    FrameInSplit(rows', start, end, d);
    ClosesInSplit(rows, rows', prices, prices', start, end, d);
    ClosesInSplit(rows, rows', prices, prices', start, end, outcome);
  }

  lemma {:induction false} SameVerdicts(verdict: Verdict, verdict': Verdict, next: map<int, int>, dates: seq<int>,
                                        n: nat)
    requires n <= |dates| && forall d :: d in dates ==> d in next
    requires forall d :: d in next ==> verdict(d, next[d]) == verdict'(d, next[d])
    ensures MonthsOf(verdict, next, dates, n) == MonthsOf(verdict', next, dates, n)
  {
    if n == 0 {
    } else {
      SameVerdicts(verdict, verdict', next, dates, n - 1);
      assert dates[n - 1] in dates;
    }
  }

  /** Rows, prices and calendar dates outside the split never influence the evaluation. */
  lemma SplitIsSealed(rows: seq<Row>, rows': seq<Row>, prices: Prices, prices': Prices, calendar: set<int>,
                      calendar': set<int>, start: int, end: int, minimum: int, root: real -> real)
    requires SameInSplit(rows, rows', prices, prices', start, end)
    requires forall d :: Within(start, end, d) ==> (d in calendar <==> d in calendar')
    ensures Evaluated(rows, prices, calendar, start, end, minimum, root)
         == Evaluated(rows', prices', calendar', start, end, minimum, root)
  {
    var next := NextDates(calendar, start, end);
    SamePairs(calendar, calendar', start, end);
    forall d | d in next ensures Available(rows, d) <==> Available(rows', d) {
      AvailableInSplit(rows, start, end, d);
      AvailableInSplit(rows', start, end, d);
    }
    assert (set d | d in next && Available(rows, d)) == (set d | d in next && Available(rows', d));
    forall d | d in next
      ensures MonthAt(rows, prices, minimum, root)(d, next[d]) == MonthAt(rows', prices', minimum, root)(d, next[d])
    {
      MonthInSplit(rows, rows', prices, prices', start, end, d, next[d], minimum, root);
    }
    var dates := FormationDates(rows, next);
    SameVerdicts(MonthAt(rows, prices, minimum, root), MonthAt(rows', prices', minimum, root), next, dates, |dates|);
  }
}
