/** The evaluator's view of one formation date: it re-checks the ranks and deciles that the builder
    stored, pairs each row with its next-month return, and says why a month is incomplete. */
module FormationRanks {
  import opened Prelude
  import opened Sorting
  import opened Deciles
  import opened CrossSection

  /** An eligible row of one date; the stored columns can be null. */
  datatype Entry = Entry(code: int, imom: real, rank: Option<int>, count: Option<int>, decile: Option<int>)

  datatype RankError = RanksNotContiguous | CountDrifted | DecilesDrifted | OrderDrifted

  /** Best score first, ties by code. */
  predicate ScoreOrder(a: Entry, b: Entry) { Before(Scored(a.code, a.imom), Scored(b.code, b.imom)) }

  function EntryCode(e: Entry): int { e.code }

  function Codes(frame: seq<Entry>): (codes: seq<int>)
    ensures |codes| == |frame| && forall i :: 0 <= i < |frame| ==> codes[i] == frame[i].code
  {
    seq(|frame|, (i: int) requires 0 <= i < |frame| => frame[i].code)
  }

  predicate RanksContiguous(frame: seq<Entry>) {
    forall i :: 0 <= i < |frame| ==> frame[i].rank == Some(i + 1)
  }

  predicate CountsAgree(frame: seq<Entry>) {
    forall i :: 0 <= i < |frame| ==> frame[i].count == Some(|frame|)
  }

  predicate DecilesAgree(frame: seq<Entry>) {
    forall i :: 0 <= i < |frame| ==> frame[i].decile == Some(Decile(|frame|, i + 1))
  }

  function ValidateFormationRanks(frame: seq<Entry>): Option<RankError> {
    if frame == [] then None
    else if !RanksContiguous(frame) then Some(RanksNotContiguous)
    else if !CountsAgree(frame) then Some(CountDrifted)
    else if !DecilesAgree(frame) then Some(DecilesDrifted)
    else if Codes(Sort(ScoreOrder, frame)) != Codes(frame) then Some(OrderDrifted)
    else None
  }

  // ---------------------------------------------------------------- what the validator accepts

  /** The table that the builder makes of a selection. */
  function Table(selection: seq<Scored>): seq<Entry> {
    var n := |selection|;
    seq(n, (i: int) requires 0 <= i < n =>
      Entry(selection[i].code, selection[i].imom, Some(i + 1), Some(n), Some(Decile(n, i + 1))))
  }

  function Scores(frame: seq<Entry>): (scores: seq<Scored>)
    ensures |scores| == |frame| && forall i :: 0 <= i < |frame| ==> scores[i] == Scored(frame[i].code, frame[i].imom)
  {
    seq(|frame|, (i: int) requires 0 <= i < |frame| => Scored(frame[i].code, frame[i].imom))
  }

  lemma SameCode(frame: seq<Entry>, i: nat, k: nat)
    requires DistinctBy(EntryCode, frame) && i < |frame| && k < |frame| && frame[i].code == frame[k].code
    ensures i == k
  {
  }

  lemma {:induction false} CodesFixRows(sorted: seq<Entry>, frame: seq<Entry>)
    requires DistinctBy(EntryCode, frame) && Codes(sorted) == Codes(frame) && forall e :: e in sorted ==> e in frame
    ensures sorted == frame
  {
    assert |sorted| == |Codes(sorted)| == |frame|;
    forall i | 0 <= i < |frame| ensures sorted[i] == frame[i] {
      assert sorted[i] in frame;
      var k :| 0 <= k < |frame| && frame[k] == sorted[i];
      assert Codes(sorted)[i] == Codes(frame)[i];
      SameCode(frame, i, k);
    }
  }

  /** With distinct codes, the code column of the sorted frame fixes the sorted frame. */
  lemma {:induction false} CodesFixOrder(frame: seq<Entry>)
    requires DistinctBy(EntryCode, frame)
    ensures Codes(Sort(ScoreOrder, frame)) == Codes(frame) <==> Ordered(ScoreOrder, frame)
  {
    var sorted := Sort(ScoreOrder, frame);
    SortOrdered(ScoreOrder, frame);
    SameElements(sorted, frame);
    if Codes(sorted) == Codes(frame) {
      CodesFixRows(sorted, frame);
    }
    if Ordered(ScoreOrder, frame) {
      OneOfEachCode(frame);
      OrderedUnique(ScoreOrder, sorted, frame);
    }
  }

  lemma OneOfEachCode(frame: seq<Entry>)
    requires DistinctBy(EntryCode, frame)
    ensures KeysDistinct(ScoreOrder, frame)
  {
    forall a, b | a in frame && b in frame && ScoreOrder(a, b) && ScoreOrder(b, a) ensures a == b {
      var i :| 0 <= i < |frame| && frame[i] == a;
      var k :| 0 <= k < |frame| && frame[k] == b;
      SameCode(frame, i, k);
    }
  }

  lemma {:induction false} SortedScores(frame: seq<Entry>)
    requires DistinctBy(EntryCode, frame)
    ensures Ordered(ScoreOrder, frame) <==> Sort(Before, Scores(frame)) == Scores(frame)
  {
    var scores := Scores(frame);
    SortOrdered(Before, scores);
    if Ordered(ScoreOrder, frame) {
      forall i, j | 0 <= i < j < |scores| ensures Before(scores[i], scores[j]) {
        assert ScoreOrder(frame[i], frame[j]);
      }
      OrderedUnique(Before, Sort(Before, scores), scores);
    }
    if Sort(Before, scores) == scores {
      forall i, j | 0 <= i < j < |frame| ensures ScoreOrder(frame[i], frame[j]) {
        assert Before(scores[i], scores[j]);
      }
    }
  }

  lemma ColumnsAgree(frame: seq<Entry>)
    requires frame != []
    ensures RanksContiguous(frame) && CountsAgree(frame) && DecilesAgree(frame) <==> frame == Table(Scores(frame))
  {
  }

  lemma ScoresOfTable(selection: seq<Scored>)
    ensures Scores(Table(selection)) == selection
  {
  }

  /** With distinct codes the validator accepts exactly the table that the builder makes of the
      frame's own scores. */
  lemma {:induction false} AcceptsOnlyTheBuildersTable(frame: seq<Entry>)
    requires DistinctBy(EntryCode, frame)
    ensures ValidateFormationRanks(frame) == None <==> frame == Table(Sort(Before, Scores(frame)))
  {
    if frame != [] {
      CodesFixOrder(frame);
      SortedScores(frame);
      ColumnsAgree(frame);
      ScoresOfTable(Sort(Before, Scores(frame)));
    }
  }

  /** An accepted frame runs from the best score to the worst, equal scores by ascending code. */
  lemma {:induction false} AcceptedFramesDescend(frame: seq<Entry>, i: nat, j: nat)
    requires DistinctBy(EntryCode, frame) && ValidateFormationRanks(frame) == None && i < j < |frame|
    ensures frame[i].imom >= frame[j].imom
    ensures frame[i].imom == frame[j].imom ==> frame[i].code < frame[j].code
  {
    CodesFixOrder(frame);
    assert ScoreOrder(frame[i], frame[j]) && EntryCode(frame[i]) != EntryCode(frame[j]);
  }

  // ---------------------------------------------------------------- the builder's frame

  function EntryWith(s: Scored, k: Option<Ranking>): Entry {
    if k.None? then Entry(s.code, s.imom, None, None, None)
    else Entry(s.code, s.imom, Some(k.value.rank), Some(k.value.count), Some(k.value.decile))
  }

  /** The evaluator's row; an eligible listing has a score. */
  function EntryOn(date: int): Row -> Option<Entry> {
    (r: Row) =>
      if r.eligible && r.listing.date == date && r.listing.imom.Some?
      then Some(EntryWith(Scored(r.listing.code, r.listing.imom.value), r.ranking)) else None
  }

  /** Null ranks come first. */
  predicate ByRank(a: Entry, b: Entry) {
    a.rank.None? || (b.rank.Some? && a.rank.value <= b.rank.value)
  }

  /** The eligible rows of one date, sorted by their stored rank. */
  function Frame(rows: seq<Row>, date: int): seq<Entry> { Sort(ByRank, FilterMap(EntryOn(date), rows)) }

  function EntryFor(selection: seq<Scored>): Scored -> Option<Entry> {
    (s: Scored) => Some(EntryWith(s, Some(RankingAt(|selection|, PositionOf(selection, s.code)))))
  }

  function JoinedEntry(listings: seq<Listing>, minimum: real, date: int): Listing -> Option<Entry> {
    (l: Listing) =>
      if l.date == date && ReasonOf(l, minimum) == Eligible then
        EntryFor(Selection(listings, date, minimum))(Scored(l.code, l.imom.value))
      else None
  }

  function Kept(e: Entry): Option<Entry> { Some(e) }

  lemma {:induction false} KeptIsIdentity(es: seq<Entry>)
    ensures FilterMap(Kept, es) == es
    decreases |es|
  {
    if es == [] {
    } else {
      KeptIsIdentity(es[1..]);
    }
  }

  lemma SelectionTable(selection: seq<Scored>)
    requires DistinctBy(CodeOf, selection)
    ensures FilterMap(EntryFor(selection), selection) == Table(selection)
  {
    forall i | 0 <= i < |selection| ensures EntryFor(selection)(selection[i]) == Kept(Table(selection)[i]) {
      PositionIsIndex(selection, i);
    }
    FilterMapCongruence(EntryFor(selection), Kept, selection, Table(selection));
    KeptIsIdentity(Table(selection));
  }

  lemma JoinOfListing(listings: seq<Listing>, minimum: real, date: int, l: Listing)
    ensures var r := RowOf(listings, minimum)(l).value;
            JoinedEntry(listings, minimum, date)(l) == EntryOn(date)(r)
    ensures JoinedEntry(listings, minimum, date)(l) ==
            (if ScoreOn(date, minimum)(l).Some?
             then EntryFor(Selection(listings, date, minimum))(ScoreOn(date, minimum)(l).value) else None)
  {
    if ReasonOf(l, minimum) == Eligible {
      var selection := Selection(listings, l.date, minimum);
      var ranking := RankingAt(|selection|, PositionOf(selection, l.code));
      assert RowOf(listings, minimum)(l) == Some(Row(l, true, Some(ranking), ranking.decile == 10));
      var s := Scored(l.code, l.imom.value);
      assert EntryFor(selection)(s) == Some(EntryWith(s, Some(ranking)));
      assert l.date == date ==> JoinedEntry(listings, minimum, date)(l) == Some(EntryWith(s, Some(ranking)));
      assert l.date == date ==>
             EntryOn(date)(Row(l, true, Some(ranking), ranking.decile == 10)) == Some(EntryWith(s, Some(ranking)));
    } else {
      assert RowOf(listings, minimum)(l) == Some(Row(l, false, None, false));
    }
  }

  lemma EntriesOfCohort(listings: seq<Listing>, minimum: real, date: int)
    requires KeysOnce(listings)
    ensures multiset(FilterMap(EntryOn(date), BuildCohort(listings, minimum))) ==
            multiset(Table(Selection(listings, date, minimum)))
    ensures DistinctBy(CodeOf, Selection(listings, date, minimum))
  {
    var eligible, selection := EligibleOn(listings, date, minimum), Selection(listings, date, minimum);
    EligibleCodesOnce(listings, date, minimum);
    DistinctPermutation(CodeOf, eligible, selection);
    forall l | l in listings
      ensures JoinedEntry(listings, minimum, date)(l) ==
              (if RowOf(listings, minimum)(l).Some? then EntryOn(date)(RowOf(listings, minimum)(l).value) else None)
      ensures JoinedEntry(listings, minimum, date)(l) ==
              (if ScoreOn(date, minimum)(l).Some? then EntryFor(selection)(ScoreOn(date, minimum)(l).value) else None)
    {
      JoinOfListing(listings, minimum, date, l);
    }
    FilterMapCompose(RowOf(listings, minimum), EntryOn(date), JoinedEntry(listings, minimum, date), listings);
    FilterMapCompose(ScoreOn(date, minimum), EntryFor(selection), JoinedEntry(listings, minimum, date), listings);
    FilterMapMultiset(EntryFor(selection), eligible, selection);
    SelectionTable(selection);
  }

  lemma {:induction false} SortedByRank(entries: seq<Entry>, selection: seq<Scored>)
    requires multiset(entries) == multiset(Table(selection))
    ensures Sort(ByRank, entries) == Table(selection)
  {
    var table := Table(selection);
    SortOrdered(ByRank, entries);
    SameElements(Sort(ByRank, entries), table);
    forall a, b | a in table && b in table && ByRank(a, b) && ByRank(b, a) ensures a == b {
      var i :| 0 <= i < |table| && table[i] == a;
      var j :| 0 <= j < |table| && table[j] == b;
      assert i == j;
    }
    forall a, b | a in Sort(ByRank, entries) && b in Sort(ByRank, entries) && ByRank(a, b) && ByRank(b, a)
      ensures a == b
    {
      assert a in table && b in table;
    }
    OrderedUnique(ByRank, Sort(ByRank, entries), table);
  }

  /** What the builder stores is the ranked table of the date's selection, and it passes the
      evaluator's check. */
  lemma {:induction false} BuilderPassesTheEvaluator(listings: seq<Listing>, minimum: real, date: int)
    requires KeysOnce(listings)
    ensures Frame(BuildCohort(listings, minimum), date) == Table(Selection(listings, date, minimum))
    ensures ValidateFormationRanks(Frame(BuildCohort(listings, minimum), date)) == None
  {
    var eligible, selection := EligibleOn(listings, date, minimum), Selection(listings, date, minimum);
    EntriesOfCohort(listings, minimum, date);
    SortedByRank(FilterMap(EntryOn(date), BuildCohort(listings, minimum)), selection);
    SortOrdered(Before, eligible);
    SortOrdered(Before, selection);
    ScoresOfTable(selection);
    TableCodesOnce(selection);
    SortAgain(eligible);
    AcceptsOnlyTheBuildersTable(Table(selection));
  }

  lemma TableCodesOnce(selection: seq<Scored>)
    requires DistinctBy(CodeOf, selection)
    ensures DistinctBy(EntryCode, Table(selection))
  {
  }

  lemma {:induction false} SortAgain(scores: seq<Scored>)
    ensures Sort(Before, Sort(Before, scores)) == Sort(Before, scores)
  {
    var once := Sort(Before, scores);
    SortOrdered(Before, scores);
    SortOrdered(Before, once);
    OrderedUnique(Before, Sort(Before, once), once);
  }
}
