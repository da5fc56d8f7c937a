/** The completed-fetch protocol of the financial archive. An append-only log holds response rows,
    stamped with the time of their fetch, and a marker after the last row of every completed fetch;
    readers trust a date only if its latest marker counts the rows it finds. */
module FetchProtocol {
  import opened Prelude
  import opened Sorting

  /** A JSON value that should be a date, or a timestamp with a zone: missing or empty, present but
      not readable, or read. */
  datatype Field = Missing | Unreadable | Read(value: int)

  datatype Row = Row(isMarker: bool, target: Option<int>, stamp: Field, count: Option<int>,
                     disclosedDate: Field, discDate: Field, upperDate: Field, lowerDate: Field, content: int)

  /** The first date field that is present decides, even when it cannot be read. */
  function RowDate(r: Row): Option<int> {
    var f := if !r.disclosedDate.Missing? then r.disclosedDate
             else if !r.discDate.Missing? then r.discDate
             else if !r.upperDate.Missing? then r.upperDate
             else r.lowerDate;
    if f.Read? then Some(f.value) else None
  }

  /** The four date fields in the order in which they count. */
  function DateFields(r: Row): seq<Field> { [r.disclosedDate, r.discDate, r.upperDate, r.lowerDate] }

  /** A row has a date exactly when one of its fields is read and all fields before that are missing. */
  lemma FirstFieldDecides(r: Row, date: int)
    ensures RowDate(r) == Some(date) <==>
            exists k :: 0 <= k < 4 && DateFields(r)[k] == Read(date) &&
                        forall j :: 0 <= j < k ==> DateFields(r)[j] == Missing
  {
    var fields := DateFields(r);
    assert fields[0] == r.disclosedDate && fields[1] == r.discDate;
    assert fields[2] == r.upperDate && fields[3] == r.lowerDate;
  }

  function Stamped(r: Row): Option<int> { if r.stamp.Read? then Some(r.stamp.value) else None }

  // ---------------------------------------------------------------- the verdict

  predicate MarksDate(r: Row, date: int) { r.isMarker && r.target == Some(date) }

  /** The last marker of the date in the log. */
  function LatestMarker(rows: seq<Row>, date: int): Option<Row> {
    if rows == [] then None
    else if MarksDate(rows[|rows| - 1], date) then Some(rows[|rows| - 1])
    else LatestMarker(rows[..|rows| - 1], date)
  }

  function ReceivedAt(date: int, time: int): Row -> Option<Row> {
    (r: Row) => if RowDate(r) == Some(date) && r.stamp == Read(time) then Some(r) else None
  }

  /** Time of the latest fetch of the date, and whether it is verified complete. */
  function FetchVerdict(rows: seq<Row>, signalDate: Option<int>): (Option<int>, bool) {
    if signalDate.None? then (None, false)
    else
      var marker := LatestMarker(rows, signalDate.value);
      if marker.None? then (None, false)
      else VerdictOf(rows, signalDate.value, marker.value)
  }

  function VerdictOf(rows: seq<Row>, date: int, marker: Row): (Option<int>, bool) {
    if marker.count.None? || marker.count.value < 0 || !marker.stamp.Read? then (Stamped(marker), false)
    else (Some(marker.stamp.value), |FilterMap(ReceivedAt(date, marker.stamp.value), rows)| == marker.count.value)
  }

  method ValidatedFetchMetadata(rows: seq<Row>, signalDate: Option<int>)
    returns (fetchedAt: Option<int>, complete: bool)
    ensures fetchedAt == FetchVerdict(rows, signalDate).0 && complete == FetchVerdict(rows, signalDate).1
  {
    if signalDate.None? {
      return None, false;
    }
    var date := signalDate.value;
    var latest: Option<Row> := None;
    for i := 0 to |rows|
      invariant latest == LatestMarker(rows[..i], date)
    {
      assert rows[..i + 1][..i] == rows[..i];
      if MarksDate(rows[i], date) {
        latest := Some(rows[i]);
      }
    }
    assert rows[..|rows|] == rows;
    if latest.None? {
      return None, false;
    }
    var marker := latest.value;
    if marker.count.None? || !marker.stamp.Read? || marker.count.value < 0 {
      return Stamped(marker), false;
    }
    var actual := CountReceived(rows, date, marker.stamp.value);
    return Some(marker.stamp.value), actual == marker.count.value;
  }

  method CountReceived(rows: seq<Row>, date: int, time: int) returns (actual: int)
    ensures actual == |FilterMap(ReceivedAt(date, time), rows)|
  {
    actual := 0;
    for i := 0 to |rows|
      invariant actual == |FilterMap(ReceivedAt(date, time), rows[..i])|
    {
      assert rows[..i + 1] == rows[..i] + [rows[i]];
      FilterMapConcat(ReceivedAt(date, time), rows[..i], [rows[i]]);
      if RowDate(rows[i]) != Some(date) || rows[i].stamp.Missing? {
        continue;
      }
      if Stamped(rows[i]) == Some(time) {
        actual := actual + 1;
      }
    }
    assert rows[..|rows|] == rows;
  }

  // ---------------------------------------------------------------- the selection

  /** Rows that were observable by the fetch of the date at the time. */
  predicate Observable(r: Row, date: int, time: int) {
    if r.isMarker then true
    else if RowDate(r).None? || RowDate(r).value > date then false
    else if r.stamp.Missing? then RowDate(r).value < date
    else if r.stamp.Unreadable? then false
    else if RowDate(r).value == date then r.stamp.value == time
    else r.stamp.value <= time
  }

  function Selects(date: int, time: int): Row -> Option<Row> {
    (r: Row) => if Observable(r, date, time) then Some(r) else None
  }

  function Selected(rows: seq<Row>, date: int, time: int): seq<Row> { FilterMap(Selects(date, time), rows) }

  datatype FetchError = NoFetchTime

  method RowsForCompletedFetch(rows: seq<Row>, date: int, fetchedAt: Option<int>)
    returns (r: Result<seq<Row>, FetchError>)
    ensures r.Err? <==> fetchedAt.None?
    ensures r.Ok? ==> r.value == Selected(rows, date, fetchedAt.value)
  {
    if fetchedAt.None? {
      return Err(NoFetchTime);
    }
    var time := fetchedAt.value;
    var selected: seq<Row> := [];
    for i := 0 to |rows|
      invariant selected == Selected(rows[..i], date, time)
    {
      var row := rows[i];
      assert rows[..i + 1] == rows[..i] + [row];
      FilterMapConcat(Selects(date, time), rows[..i], [row]);
      if row.isMarker {
        selected := selected + [row];
        continue;
      }
      var rowDate := RowDate(row);
      if rowDate.None? || rowDate.value > date {
        continue;
      }
      if row.stamp.Missing? {
        if rowDate.value < date {
          selected := selected + [row];
        }
        continue;
      }
      if Stamped(row).None? {
        continue;
      }
      var at := Stamped(row).value;
      if (rowDate.value == date && at == time) || (rowDate.value < date && at <= time) {
        selected := selected + [row];
      }
    }
    assert rows[..|rows|] == rows;
    return Ok(selected);
  }

  // ---------------------------------------------------------------- appends and selections

  lemma {:induction false} LatestMarkerConcat(rows: seq<Row>, more: seq<Row>, date: int)
    ensures LatestMarker(rows + more, date) ==
            if LatestMarker(more, date).Some? then LatestMarker(more, date) else LatestMarker(rows, date)
    decreases |more|
  {
    if more == [] {
      assert rows + more == rows;
    } else {
      assert (rows + more)[..|rows + more| - 1] == rows + more[..|more| - 1];
      LatestMarkerConcat(rows, more[..|more| - 1], date);
    }
  }

  lemma {:induction false} NoMarker(rows: seq<Row>, date: int)
    requires forall r :: r in rows ==> !MarksDate(r, date)
    ensures LatestMarker(rows, date) == None
    decreases |rows|
  {
    if rows == [] {
    } else {
      assert rows[|rows| - 1] in rows;
      NoMarker(rows[..|rows| - 1], date);
    }
  }

  lemma {:induction false} NothingKept(f: Row -> Option<Row>, rows: seq<Row>)
    requires forall r :: r in rows ==> f(r) == None
    ensures FilterMap(f, rows) == []
    decreases |rows|
  {
    if rows == [] {
    } else {
      assert rows[0] in rows;
      NothingKept(f, rows[1..]);
    }
  }

  /** Once the fetch at a time has a verdict, response rows stamped later change neither the verdict
      nor the selection: an interrupted append is invisible. */
  lemma {:induction false} LaterRowsAreInvisible(rows: seq<Row>, more: seq<Row>, date: int, time: int)
    requires FetchVerdict(rows, Some(date)).0 == Some(time)
    requires forall r :: r in more ==> !r.isMarker && r.stamp.Read? && r.stamp.value > time
    ensures FetchVerdict(rows + more, Some(date)) == FetchVerdict(rows, Some(date))
    ensures Selected(rows + more, date, time) == Selected(rows, date, time)
  {
    LatestMarkerConcat(rows, more, date);
    NoMarker(more, date);
    FilterMapConcat(ReceivedAt(date, time), rows, more);
    NothingKept(ReceivedAt(date, time), more);
    FilterMapConcat(Selects(date, time), rows, more);
    NothingKept(Selects(date, time), more);
    assert FilterMap(ReceivedAt(date, time), rows) + [] == FilterMap(ReceivedAt(date, time), rows);
    assert Selected(rows, date, time) + [] == Selected(rows, date, time);
  }

  lemma {:induction false} MarkersAreSelected(rows: seq<Row>, date: int, time: int)
    ensures LatestMarker(Selected(rows, date, time), date) == LatestMarker(rows, date)
    decreases |rows|
  {
    if rows == [] {
    } else {
      var before, last := rows[..|rows| - 1], rows[|rows| - 1];
      assert rows == before + [last];
      MarkersAreSelected(before, date, time);
      FilterMapConcat(Selects(date, time), before, [last]);
      if Observable(last, date, time) {
        LatestMarkerConcat(Selected(before, date, time), [last], date);
        LatestMarkerConcat([], [last], date);
      } else {
        assert Selected(rows, date, time) == Selected(before, date, time);
      }
    }
  }

  /** Selecting twice is selecting once, and the selected rows alone give the same verdict. */
  lemma {:induction false} SelectionKeepsTheVerdict(rows: seq<Row>, date: int, time: int)
    requires FetchVerdict(rows, Some(date)).0 == Some(time)
    ensures Selected(Selected(rows, date, time), date, time) == Selected(rows, date, time)
    ensures FetchVerdict(Selected(rows, date, time), Some(date)) == FetchVerdict(rows, Some(date))
  {
    FilterMapCompose(Selects(date, time), Selects(date, time), Selects(date, time), rows);
    MarkersAreSelected(rows, date, time);
    FilterMapCompose(Selects(date, time), ReceivedAt(date, time), ReceivedAt(date, time), rows);
  }

  // ---------------------------------------------------------------- whole histories

  /** One run of the exporter for a date: the response, and whether the run lived to write its marker
      or was cut off after some rows. */
  datatype Attempt = Attempt(target: int, time: int, response: seq<Row>, completed: bool, written: nat)

  function Stamp(time: int): Row -> Option<Row> { (r: Row) => Some(r.(stamp := Read(time))) }

  function StampedRows(a: Attempt): seq<Row> { FilterMap(Stamp(a.time), a.response) }

  function MarkerOf(a: Attempt): Row {
    Row(true, Some(a.target), Read(a.time), Some(|StampedRows(a)|), Missing, Missing, Missing, Missing, 0)
  }

  /** The lines an attempt appends. */
  function Lines(a: Attempt): seq<Row> {
    if a.completed then StampedRows(a) + [MarkerOf(a)]
    else StampedRows(a)[..MinInt(a.written, |StampedRows(a)|)]
  }

  function Log(attempts: seq<Attempt>): seq<Row> {
    if attempts == [] then [] else Log(attempts[..|attempts| - 1]) + Lines(attempts[|attempts| - 1])
  }

  /** Rows of a response that carry a date; they need not carry the requested one. */
  ghost predicate Holds(a: Attempt, date: int) {
    exists r :: r in a.response && RowDate(r) == Some(date)
  }

  /** Responses hold data rows, and of two fetches at the same time neither holds rows of the other's
      date. */
  ghost predicate Proper(attempts: seq<Attempt>) {
    && (forall a :: a in attempts ==> ProperResponse(a))
    && forall i, j :: 0 <= i < |attempts| && 0 <= j < |attempts| && i != j ==> Unmixed(attempts[i], attempts[j])
  }

  ghost predicate Unmixed(a: Attempt, b: Attempt) {
    a.time == b.time ==> a.target != b.target && !Holds(a, b.target)
  }

  ghost predicate ProperResponse(a: Attempt) {
    forall r :: r in a.response ==> !r.isMarker
  }

  /** The rows of the response that carry the requested date, as they are received. */
  function OnTarget(a: Attempt): seq<Row> { FilterMap(ReceivedAt(a.target, a.time), StampedRows(a)) }

  /** Position of the last completed fetch of the date, or the number of attempts. */
  function LastCompleted(attempts: seq<Attempt>, date: int): (k: nat)
    ensures k <= |attempts|
    ensures k < |attempts| ==> attempts[k].completed && attempts[k].target == date
  {
    if attempts == [] then 0
    else
      var n := |attempts| - 1;
      var earlier := LastCompleted(attempts[..n], date);
      if attempts[n].completed && attempts[n].target == date then n
      else if earlier == n then |attempts|
      else earlier
  }

  lemma {:induction false} StampedAreData(a: Attempt)
    requires ProperResponse(a)
    ensures forall r :: r in StampedRows(a) ==> !r.isMarker && r.stamp == Read(a.time)
    ensures forall r, date :: r in StampedRows(a) && RowDate(r) == Some(date) ==> Holds(a, date)
  {
    forall r | r in StampedRows(a)
      ensures !r.isMarker && r.stamp == Read(a.time)
      ensures forall date :: RowDate(r) == Some(date) ==> Holds(a, date)
    {
      FilterMapMember(Stamp(a.time), a.response, r);
      var q :| q in a.response && Stamp(a.time)(q) == Some(r);
      assert RowDate(q) == RowDate(r);
    }
  }

  lemma {:induction false} LinesOf(a: Attempt, date: int)
    requires ProperResponse(a)
    ensures LatestMarker(Lines(a), date) == if a.completed && a.target == date then Some(MarkerOf(a)) else None
    ensures forall r :: r in Lines(a) ==> r == MarkerOf(a) || r in StampedRows(a)
  {
    StampedAreData(a);
    if a.completed {
      LatestMarkerConcat(StampedRows(a), [MarkerOf(a)], date);
      LatestMarkerConcat([], [MarkerOf(a)], date);
      NoMarker(StampedRows(a), date);
    } else {
      NoMarker(Lines(a), date);
    }
  }

  lemma {:induction false} LatestMarkerOfLog(attempts: seq<Attempt>, date: int)
    requires Proper(attempts)
    ensures var k := LastCompleted(attempts, date);
            LatestMarker(Log(attempts), date) == if k < |attempts| then Some(MarkerOf(attempts[k])) else None
    decreases |attempts|
  {
    if attempts == [] {
    } else {
      var n := |attempts| - 1;
      LatestMarkerOfLog(attempts[..n], date);
      LinesOf(attempts[n], date);
      LatestMarkerConcat(Log(attempts[..n]), Lines(attempts[n]), date);
    }
  }

  /** The rows of an attempt at another time, or without rows of the date, are not counted. */
  lemma {:induction false} OthersAreNotReceived(a: Attempt, date: int, time: int)
    requires ProperResponse(a) && (a.time != time || !Holds(a, date))
    ensures FilterMap(ReceivedAt(date, time), Lines(a)) == []
  {
    StampedAreData(a);
    LinesOf(a, date);
    NothingKept(ReceivedAt(date, time), Lines(a));
  }

  lemma {:induction false} CompletedIsReceived(a: Attempt)
    requires a.completed
    ensures FilterMap(ReceivedAt(a.target, a.time), Lines(a)) == OnTarget(a)
  {
    FilterMapConcat(ReceivedAt(a.target, a.time), StampedRows(a), [MarkerOf(a)]);
    NothingKept(ReceivedAt(a.target, a.time), [MarkerOf(a)]);
  }

  /** The rows of an attempt that f keeps. */
  function Kept(f: Row -> Option<Row>, a: Attempt): seq<Row> { FilterMap(f, Lines(a)) }

  lemma LogStep(f: Row -> Option<Row>, attempts: seq<Attempt>)
    requires attempts != []
    ensures var n := |attempts| - 1;
            FilterMap(f, Log(attempts)) == FilterMap(f, Log(attempts[..n])) + Kept(f, attempts[n])
  {
    var n := |attempts| - 1;
    FilterMapConcat(f, Log(attempts[..n]), Lines(attempts[n]));
  }

  lemma {:induction false} NothingFromOthers(f: Row -> Option<Row>, attempts: seq<Attempt>)
    requires forall i :: 0 <= i < |attempts| ==> Kept(f, attempts[i]) == []
    ensures FilterMap(f, Log(attempts)) == []
    decreases |attempts|
  {
    if attempts == [] {
    } else {
      NothingFromOthers(f, attempts[..|attempts| - 1]);
      LogStep(f, attempts);
    }
  }

  /** When all attempts but one contribute nothing, the log holds what that one contributes. */
  lemma {:induction false} OnlyFrom(f: Row -> Option<Row>, attempts: seq<Attempt>, k: nat)
    requires k < |attempts|
    requires forall i :: 0 <= i < |attempts| && i != k ==> Kept(f, attempts[i]) == []
    ensures FilterMap(f, Log(attempts)) == Kept(f, attempts[k])
    decreases |attempts|
  {
    var n := |attempts| - 1;
    LogStep(f, attempts);
    if k == n {
      NothingFromOthers(f, attempts[..n]);
    } else {
      OnlyFrom(f, attempts[..n], k);
    }
  }

  lemma {:induction false} ReceivedFromAttempt(attempts: seq<Attempt>, k: nat)
    requires Proper(attempts) && k < |attempts| && attempts[k].completed
    ensures FilterMap(ReceivedAt(attempts[k].target, attempts[k].time), Log(attempts)) == OnTarget(attempts[k])
  {
    var a := attempts[k];
    var f := ReceivedAt(a.target, a.time);
    forall i | 0 <= i < |attempts| && i != k ensures Kept(f, attempts[i]) == [] {
      assert attempts[i] in attempts && Unmixed(attempts[i], attempts[k]);
      OthersAreNotReceived(attempts[i], a.target, a.time);
    }
    OnlyFrom(f, attempts, k);
    CompletedIsReceived(a);
  }

  /** Every row of the response carries the requested date. */
  ghost predicate AllOnTarget(a: Attempt) {
    forall r :: r in a.response ==> RowDate(r) == Some(a.target)
  }

  lemma {:induction false} CountsAllIffOnTarget(a: Attempt)
    ensures |OnTarget(a)| == |StampedRows(a)| <==> AllOnTarget(a)
  {
    FilterMapComplete(ReceivedAt(a.target, a.time), StampedRows(a));
    forall r ensures r in StampedRows(a) <==> exists q :: q in a.response && q.(stamp := Read(a.time)) == r {
      FilterMapMember(Stamp(a.time), a.response, r);
    }
    if AllOnTarget(a) {
      forall r | r in StampedRows(a) ensures ReceivedAt(a.target, a.time)(r).Some? {
        var q :| q in a.response && q.(stamp := Read(a.time)) == r;
        assert RowDate(q) == RowDate(r);
      }
    }
    if forall r :: r in StampedRows(a) ==> ReceivedAt(a.target, a.time)(r).Some? {
      forall q | q in a.response ensures RowDate(q) == Some(a.target) {
        var r := q.(stamp := Read(a.time));
        assert r in StampedRows(a) && RowDate(r) == RowDate(q);
      }
    }
  }

  /** Over every history of fetches, completed or cut off anywhere, the verdict on a date comes from
      its last completed fetch: it is complete exactly when all rows of that response carry the
      requested date, and exactly its rows of the date count as received. */
  lemma {:induction false} VerdictIsLastCompletedFetch(attempts: seq<Attempt>, date: int)
    requires Proper(attempts)
    ensures var k := LastCompleted(attempts, date);
            if k < |attempts|
            then FetchVerdict(Log(attempts), Some(date)) == (Some(attempts[k].time), AllOnTarget(attempts[k])) &&
                 FilterMap(ReceivedAt(date, attempts[k].time), Log(attempts)) == OnTarget(attempts[k])
            else FetchVerdict(Log(attempts), Some(date)) == (None, false)
  {
    var k := LastCompleted(attempts, date);
    LatestMarkerOfLog(attempts, date);
    if k < |attempts| {
      ReceivedFromAttempt(attempts, k);
      CountsAllIffOnTarget(attempts[k]);
    }
  }
}
