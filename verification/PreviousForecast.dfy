/** The previous forecast of an event: the last forecast of the same symbol, fiscal target and
    consolidation disclosed before it, if it was available strictly earlier. */
module PreviousForecast {
  import opened Prelude
  import opened Sorting

  datatype Key = Key(symbol: int, fiscalTarget: Option<int>, consolidation: Option<int>)

  datatype Figures = Figures(eps: Option<real>, operatingProfit: Option<real>, profit: Option<real>,
                             sales: Option<real>, dividend: Option<real>)

  datatype Event = Event(id: int, key: Key, disclosedAt: int, availableAt: int, source: int, figures: Figures)

  datatype Snapshot = Snapshot(source: int, availableAt: int, figures: Figures)

  /** An event without any forecast figure has no snapshot. */
  function SnapshotOf(e: Event): Option<Snapshot> {
    if e.figures == Figures(None, None, None, None, None) then None
    else Some(Snapshot(e.source, e.availableAt, e.figures))
  }

  /** Order of disclosure, ties by identifier. */
  predicate NotAfter(a: Event, b: Event) {
    a.disclosedAt < b.disclosedAt || (a.disclosedAt == b.disclosedAt && a.id <= b.id)
  }

  /** The event forecasts at least one of the five figures. */
  predicate IsForecast(e: Event) {
    || e.figures.eps.Some? || e.figures.operatingProfit.Some? || e.figures.profit.Some?
    || e.figures.sales.Some? || e.figures.dividend.Some?
  }

  predicate Bears(e: Event, key: Key) { e.key == key && IsForecast(e) }

  /** Position of the last forecast of the key before position n, or n. */
  function LatestBefore(ordered: seq<Event>, n: nat, key: Key): (k: nat)
    requires n <= |ordered|
    ensures k <= n && (k < n ==> Bears(ordered[k], key))
    ensures forall j :: 0 <= j < n && Bears(ordered[j], key) ==> k < n && j <= k
  {
    if n == 0 then 0
    else if Bears(ordered[n - 1], key) then n - 1
    else
      var k := LatestBefore(ordered, n - 1, key);
      if k == n - 1 then n else k
  }

  /** What is reported for the event at position i. */
  function Reported(ordered: seq<Event>, i: nat): Option<Snapshot>
    requires i < |ordered|
  {
    var k := LatestBefore(ordered, i, ordered[i].key);
    if k < i && ordered[k].availableAt < ordered[i].availableAt then SnapshotOf(ordered[k]) else None
  }

  /** The result after the first n events; a repeated identifier overwrites. */
  function ReportedUpTo(ordered: seq<Event>, n: nat): map<int, Snapshot>
    requires n <= |ordered|
  {
    if n == 0 then map[]
    else
      var r := Reported(ordered, n - 1);
      if r.Some? then ReportedUpTo(ordered, n - 1)[ordered[n - 1].id := r.value] else ReportedUpTo(ordered, n - 1)
  }

  function Ordering(events: seq<Event>): (ordered: seq<Event>)
    ensures |ordered| == |events|
  {
    Sort(NotAfter, events)
  }

  function Snapshots(events: seq<Event>): map<int, Snapshot> {
    ReportedUpTo(Ordering(events), |events|)
  }

  function SnapshotBefore(ordered: seq<Event>, n: nat, key: Key): Option<Snapshot>
    requires n <= |ordered|
  {
    var k := LatestBefore(ordered, n, key);
    if k < n then SnapshotOf(ordered[k]) else None
  }

  lemma SnapshotStep(ordered: seq<Event>, n: nat, key: Key)
    requires n < |ordered|
    ensures SnapshotBefore(ordered, n + 1, key) ==
            if Bears(ordered[n], key) then SnapshotOf(ordered[n]) else SnapshotBefore(ordered, n, key)
  {
  }

  lemma ReportedIs(ordered: seq<Event>, i: nat)
    requires i < |ordered|
    ensures var previous := SnapshotBefore(ordered, i, ordered[i].key);
            Reported(ordered, i) ==
            if previous.Some? && previous.value.availableAt < ordered[i].availableAt then previous else None
  {
  }

  function Entry(latest: map<Key, Snapshot>, key: Key): Option<Snapshot> {
    if key in latest then Some(latest[key]) else None
  }

  /** One pass in the order of disclosure, keeping the latest snapshot of every key. */
  method ScanOrdered(ordered: seq<Event>) returns (out: map<int, Snapshot>)
    ensures out == ReportedUpTo(ordered, |ordered|)
  {
    var latest: map<Key, Snapshot> := map[];
    out := map[];
    for i := 0 to |ordered|
      invariant out == ReportedUpTo(ordered, i)
      invariant forall k :: Entry(latest, k) == SnapshotBefore(ordered, i, k)
    {
      var e := ordered[i];
      var previous := Entry(latest, e.key);
      ReportedIs(ordered, i);
      if previous.Some? && previous.value.availableAt < e.availableAt {
        out := out[e.id := previous.value];
      }
      var current := SnapshotOf(e);
      ghost var before := latest;
      if current.Some? {
        latest := latest[e.key := current.value];
      }
      forall k ensures Entry(latest, k) == SnapshotBefore(ordered, i + 1, k) {
        assert Entry(before, k) == SnapshotBefore(ordered, i, k);
        SnapshotStep(ordered, i, k);
      }
    }
  }

  method PreviousForecastSnapshots(events: seq<Event>) returns (out: map<int, Snapshot>)
    ensures out == Snapshots(events)
  {
    out := ScanOrdered(Ordering(events));
  }

  // ---------------------------------------------------------------- an order-free description

  function IdOf(e: Event): int { e.id }

  predicate Earlier(a: Event, b: Event) { NotAfter(a, b) && a != b }

  /** p is the last forecast of e's key that comes before e. */
  ghost predicate IsPrevious(events: seq<Event>, e: Event, p: Event) {
    && p in events && Bears(p, e.key) && Earlier(p, e)
    && forall q :: q in events && Bears(q, e.key) && Earlier(q, e) ==> NotAfter(q, p)
  }

  lemma SamePlace(ordered: seq<Event>, i: nat, j: nat)
    requires DistinctBy(IdOf, ordered) && Ordered(NotAfter, ordered) && i < |ordered| && j < |ordered|
    ensures Earlier(ordered[i], ordered[j]) <==> i < j
    ensures NotAfter(ordered[i], ordered[j]) <==> i <= j
  {
  }

  lemma {:induction false} LatestIsPrevious(ordered: seq<Event>, i: nat)
    requires DistinctBy(IdOf, ordered) && Ordered(NotAfter, ordered) && i < |ordered|
    ensures var k := LatestBefore(ordered, i, ordered[i].key);
            if k < i then IsPrevious(ordered, ordered[i], ordered[k])
            else forall q :: q in ordered ==> !(Bears(q, ordered[i].key) && Earlier(q, ordered[i]))
  {
    var e, k := ordered[i], LatestBefore(ordered, i, ordered[i].key);
    forall q | q in ordered && Bears(q, e.key) && Earlier(q, e) ensures k < i && NotAfter(q, ordered[k]) {
      var j :| 0 <= j < |ordered| && ordered[j] == q;
      SamePlace(ordered, j, i);
      SamePlace(ordered, j, k);
    }
    if k < i {
      SamePlace(ordered, k, i);
    }
  }

  lemma {:induction false} ReportedEntry(ordered: seq<Event>, n: nat, i: nat)
    requires DistinctBy(IdOf, ordered) && i < |ordered| && n <= |ordered|
    ensures i >= n ==> ordered[i].id !in ReportedUpTo(ordered, n)
    ensures i < n ==> (if ordered[i].id in ReportedUpTo(ordered, n)
                       then Some(ReportedUpTo(ordered, n)[ordered[i].id]) else None)
                      == Reported(ordered, i)
  {
    if n == 0 {
    } else {
      ReportedEntry(ordered, n - 1, i);
      assert i < n - 1 ==> IdOf(ordered[i]) != IdOf(ordered[n - 1]);
      assert i > n - 1 ==> IdOf(ordered[n - 1]) != IdOf(ordered[i]);
    }
  }

  function SnapshotFor(events: seq<Event>, e: Event): Option<Snapshot> {
    if e.id in Snapshots(events) then Some(Snapshots(events)[e.id]) else None
  }

  /** Reported for an event is its previous forecast, with source, time and figures, when that one was available
      strictly earlier; otherwise, and when there is none, nothing is reported. */
  lemma ReportsThePreviousForecast(events: seq<Event>, e: Event, p: Event)
    requires DistinctBy(IdOf, events) && e in events
    ensures IsPrevious(events, e, p) ==>
              SnapshotFor(events, e) == if p.availableAt < e.availableAt
                                        then Some(Snapshot(p.source, p.availableAt, p.figures)) else None
    ensures (forall q :: q in events ==> !(Bears(q, e.key) && Earlier(q, e))) ==> SnapshotFor(events, e) == None
  {
    var ordered := Ordering(events);
    SortOrdered(NotAfter, events);
    SameElements(ordered, events);
    DistinctPermutation(IdOf, events, ordered);
    var i :| 0 <= i < |ordered| && ordered[i] == e;
    ReportedEntry(ordered, |ordered|, i);
    LatestIsPrevious(ordered, i);
    var k := LatestBefore(ordered, i, e.key);
    if IsPrevious(events, e, p) && k < i {
      OnePrevious(events, ordered, e, p, ordered[k]);
    }
  }

  lemma OnePrevious(events: seq<Event>, ordered: seq<Event>, e: Event, p: Event, q: Event)
    requires forall x :: x in events <==> x in ordered
    requires DistinctBy(IdOf, ordered)
    requires IsPrevious(events, e, p) && IsPrevious(ordered, e, q)
    ensures p == q
  {
  }

  /** Every event has a previous forecast or none comes before it. */
  lemma PreviousOrNone(events: seq<Event>, e: Event) returns (p: Event)
    requires DistinctBy(IdOf, events) && e in events
    ensures IsPrevious(events, e, p) || forall q :: q in events ==> !(Bears(q, e.key) && Earlier(q, e))
  {
    var ordered := Ordering(events);
    SortOrdered(NotAfter, events);
    SameElements(ordered, events);
    DistinctPermutation(IdOf, events, ordered);
    var i :| 0 <= i < |ordered| && ordered[i] == e;
    LatestIsPrevious(ordered, i);
    var k := LatestBefore(ordered, i, e.key);
    p := if k < i then ordered[k] else e;
  }

  /** Events disclosed after an event never change what is reported for it. */
  lemma LaterEventsDoNotMatter(events: seq<Event>, more: seq<Event>, e: Event)
    requires DistinctBy(IdOf, events + more) && e in events
    requires forall m :: m in more ==> !Earlier(m, e)
    ensures SnapshotFor(events + more, e) == SnapshotFor(events, e)
  {
    forall i, j | 0 <= i < j < |events| ensures IdOf(events[i]) != IdOf(events[j]) {
      assert IdOf((events + more)[i]) != IdOf((events + more)[j]);
    }
    var p := PreviousOrNone(events, e);
    assert IsPrevious(events, e, p) ==> IsPrevious(events + more, e, p);
    ReportsThePreviousForecast(events, e, p);
    ReportsThePreviousForecast(events + more, e, p);
  }

  // ---------------------------------------------------------------- ties in disclosure time

  /** Events become available when they are disclosed, as the loader sets them up. */
  ghost predicate AvailableOnDisclosure(events: seq<Event>) {
    forall x :: x in events ==> x.availableAt == x.disclosedAt
  }

  predicate EarlierForecast(events: seq<Event>, e: Event, q: Event) {
    q in events && Bears(q, e.key) && Earlier(q, e)
  }

  /** Some earlier forecast of the key was available strictly before the event. */
  ghost predicate ForecastInTime(events: seq<Event>, e: Event) {
    exists q :: EarlierForecast(events, e, q) && q.availableAt < e.availableAt
  }

  /** Some earlier forecast of the key was disclosed at the very time of the event. */
  ghost predicate ForecastTies(events: seq<Event>, e: Event) {
    exists q :: EarlierForecast(events, e, q) && q.disclosedAt == e.disclosedAt
  }

  /** Something is reported exactly when a forecast was available in time and none ties with the
      event: only the latest earlier forecast is looked at, so a tie hides the older ones. */
  lemma {:induction false} TieHidesForecast(events: seq<Event>, e: Event)
    requires DistinctBy(IdOf, events) && e in events && AvailableOnDisclosure(events)
    ensures SnapshotFor(events, e) != None <==> ForecastInTime(events, e) && !ForecastTies(events, e)
  {
    var p := PreviousOrNone(events, e);
    ReportsThePreviousForecast(events, e, p);
    if IsPrevious(events, e, p) {
      assert EarlierForecast(events, e, p);
      if q :| EarlierForecast(events, e, q) && q.disclosedAt == e.disclosedAt {
        assert NotAfter(q, p);
      }
    } else {
      forall q ensures !EarlierForecast(events, e, q) {
        assert q in events ==> !(Bears(q, e.key) && Earlier(q, e));
      }
    }
  }

  function Forecast(id: int, time: int): Event {
    Event(id, Key(1, None, None), time, time, id, Figures(Some(1.0), None, None, None, None))
  }

  /** Three forecasts of one key, the last two disclosed together: the first was available in time but
      the third reports nothing. */
  lemma {:induction false} OlderForecastIsMissed()
    ensures var events := [Forecast(1, 1), Forecast(2, 2), Forecast(3, 2)];
            && DistinctBy(IdOf, events) && AvailableOnDisclosure(events)
            && ForecastInTime(events, Forecast(3, 2)) && SnapshotFor(events, Forecast(3, 2)) == None
  {
    var events := [Forecast(1, 1), Forecast(2, 2), Forecast(3, 2)];
    assert events[0] in events && events[1] in events && events[2] in events;
    assert EarlierForecast(events, Forecast(3, 2), events[0]);
    assert EarlierForecast(events, Forecast(3, 2), events[1]);
    TieHidesForecast(events, Forecast(3, 2));
  }
}
