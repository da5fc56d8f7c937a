/** Train, validation and locked out-of-sample splits of event observations, with purged margins so
    that no 20-day holding window of one split reaches into the next. */
module SplitIsolation {
  import opened Prelude
  import opened Sorting

  const PURGE_TRADING_DAYS := 20

  datatype Observation = Observation(symbol: int, signal: int, exit20: Option<int>)

  datatype Label = Train | PurgeTrainValidation | Validation | PurgeValidationLockedOos | LockedOos

  datatype Manifest = Manifest(trainStart: int, trainEnd: int, validationStart: int, validationEnd: int,
                               lockedOosStart: int, lockedOosEnd: int, purgeDays: int, count: int, symbols: int)

  /** A manifest recorded earlier; its dates need not be in any order. */
  datatype FixedManifest = FixedManifest(trainEnd: int, validationStart: int, validationEnd: int,
                                         lockedOosStart: int, purgeDays: Option<int>)

  /** Used alike by the research code and by the auditor. */
  function LabelOf(o: Observation, m: Manifest): Label {
    if o.signal <= m.trainEnd then
      if o.exit20.Some? && o.exit20.value >= m.validationStart then PurgeTrainValidation else Train
    else if o.signal < m.validationStart then PurgeTrainValidation
    else if o.signal <= m.validationEnd then
      if o.exit20.Some? && o.exit20.value >= m.lockedOosStart then PurgeValidationLockedOos else Validation
    else if o.signal < m.lockedOosStart then PurgeValidationLockedOos
    else LockedOos
  }

  // ---------------------------------------------------------------- the manifest

  function SignalDates(os: seq<Observation>): set<int> { set o | o in os :: o.signal }

  function Symbols(os: seq<Observation>): set<int> { set o | o in os :: o.symbol }

  /** The manifest of a data set with these distinct signal dates, in order. */
  function ManifestOf(dates: seq<int>, fixed: Option<FixedManifest>, count: int, symbols: int): Option<Manifest> {
    var n := |dates|;
    if n == 0 then None
    else if fixed.None? then
      var trainEnd, validationEnd := dates[n * 6 / 10], dates[n * 8 / 10];
      Some(Manifest(dates[0], trainEnd, NthDate(dates, trainEnd, PURGE_TRADING_DAYS), validationEnd,
                    NthDate(dates, validationEnd, PURGE_TRADING_DAYS), dates[n - 1],
                    PURGE_TRADING_DAYS, count, symbols))
    else
      var f := fixed.value;
      var purge := if f.purgeDays.None? || f.purgeDays.value == 0 then PURGE_TRADING_DAYS else f.purgeDays.value;
      Some(Manifest(dates[0], f.trainEnd, f.validationStart, f.validationEnd, f.lockedOosStart, dates[n - 1],
                    purge, count, symbols))
  }

  function SplitManifest(os: seq<Observation>, fixed: Option<FixedManifest>): Option<Manifest> {
    ManifestOf(Ascending(SignalDates(os)), fixed, |os|, |Symbols(os)|)
  }

  /** The auditor reads the rows once, collecting the dates, the symbols and the count. */
  method Collect(rows: seq<Observation>) returns (dates: set<int>, symbols: set<int>, count: int)
    ensures dates == SignalDates(rows) && symbols == Symbols(rows) && count == |rows|
  {
    dates, symbols, count := {}, {}, 0;
    for i := 0 to |rows|
      invariant dates == SignalDates(rows[..i]) && symbols == Symbols(rows[..i]) && count == i
    {
      assert rows[..i + 1] == rows[..i] + [rows[i]];
      dates, symbols, count := dates + {rows[i].signal}, symbols + {rows[i].symbol}, count + 1;
    }
    assert rows[..|rows|] == rows;
  }

  /** The auditor's manifest of a stream is the research code's manifest of the same rows. */
  method StreamSplitManifest(rows: seq<Observation>) returns (m: Option<Manifest>)
    ensures m == SplitManifest(rows, None)
  {
    var dates, symbols, count := Collect(rows);
    m := ManifestOf(Ascending(dates), None, count, |symbols|);
  }

  // ---------------------------------------------------------------- separation

  /** The order in which the three splits follow each other. */
  function Place(l: Label): int {
    match l
    case Train => 0
    case Validation => 1
    case LockedOos => 2
    case _ => -1
  }

  /** For any manifest, whatever the order of its dates: the whole holding window of an observation
      of an earlier split lies strictly before the signal of every observation of a later one, and
      signals are strictly ordered even when no exit is recorded. */
  lemma SplitsAreSeparated(a: Observation, b: Observation, m: Manifest)
    requires 0 <= Place(LabelOf(a, m)) < Place(LabelOf(b, m))
    ensures a.signal < b.signal
    ensures a.exit20.Some? ==> a.exit20.value < b.signal
  {
  }

  predicate Violates(o: Observation, m: Manifest) {
    o.exit20.Some? &&
    ((LabelOf(o, m) == Train && o.exit20.value >= m.validationStart) ||
     (LabelOf(o, m) == Validation && o.exit20.value >= m.lockedOosStart))
  }

  /** The auditor's count of windows that reach into the next split is zero for every data set and
      every manifest. */
  method StreamSplitOverlapViolations(rows: seq<Observation>, manifest: Option<Manifest>) returns (violations: int)
    ensures violations == 0
    ensures manifest.Some? ==> forall o :: o in rows ==> !Violates(o, manifest.value)
  {
    violations := 0;
    if manifest.None? {
      return;
    }
    var m := manifest.value;
    for i := 0 to |rows|
      invariant violations == 0
    {
      var split := LabelOf(rows[i], m);
      if rows[i].exit20.None? {
        continue;
      }
      var exit := rows[i].exit20.value;
      if split == Train && exit >= m.validationStart {
        violations := violations + 1;
      }
      if split == Validation && exit >= m.lockedOosStart {
        violations := violations + 1;
      }
    }
  }

  // ---------------------------------------------------------------- short calendars

  predicate Computed(dates: seq<int>, m: Manifest) {
    ManifestOf(dates, None, m.count, m.symbols) == Some(m)
  }

  lemma PositionsFollow(dates: seq<int>, i: int, d: int, j: int, e: int)
    requires StrictlyIncreasing(dates) && At(dates, i, d) && At(dates, j, e)
    ensures d <= e <==> i <= j
  {
  }

  /** Position of the boundary twenty dates after the given tenths of n dates. */
  function ShiftedPosition(n: nat, tenths: nat): (i: int)
    requires n > 0 && tenths < 10
    ensures 0 <= i < n
  {
    MinInt(n * tenths / 10 + 20, n - 1)
  }

  ghost predicate At(dates: seq<int>, i: int, d: int) { 0 <= i < |dates| && dates[i] == d }

  /** Positions of the computed boundaries; the shifted ones stop at the last date. */
  lemma ComputedBoundaries(dates: seq<int>, m: Manifest)
    requires StrictlyIncreasing(dates) && Computed(dates, m)
    ensures dates != []
    ensures At(dates, |dates| * 6 / 10, m.trainEnd) && At(dates, |dates| * 8 / 10, m.validationEnd)
    ensures At(dates, ShiftedPosition(|dates|, 6), m.validationStart)
    ensures At(dates, ShiftedPosition(|dates|, 8), m.lockedOosStart)
  {
  }

  lemma LabelBySignal(m: Manifest, o: Observation)
    ensures LabelOf(o, m) == Train ==> o.signal <= m.trainEnd
    ensures LabelOf(o, m) == Validation ==> m.validationStart <= o.signal <= m.validationEnd
    ensures LabelOf(o, m) == LockedOos <==>
            m.trainEnd < o.signal && m.validationEnd < o.signal
            && m.validationStart <= o.signal && m.lockedOosStart <= o.signal
  {
  }

  lemma {:induction false} SignalByPosition(dates: seq<int>, m: Manifest, signal: int, i: nat)
    requires StrictlyIncreasing(dates) && Computed(dates, m) && i < |dates| && signal == dates[i]
    ensures signal <= m.trainEnd <==> i <= |dates| * 6 / 10
    ensures signal <= m.validationEnd <==> i <= |dates| * 8 / 10
    ensures m.validationStart <= signal <==> ShiftedPosition(|dates|, 6) <= i
    ensures m.lockedOosStart <= signal <==> ShiftedPosition(|dates|, 8) <= i
  {
    var n := |dates|;
    ComputedBoundaries(dates, m);
    PositionsFollow(dates, i, signal, n * 6 / 10, m.trainEnd);
    PositionsFollow(dates, i, signal, n * 8 / 10, m.validationEnd);
    PositionsFollow(dates, ShiftedPosition(n, 6), m.validationStart, i, signal);
    PositionsFollow(dates, ShiftedPosition(n, 8), m.lockedOosStart, i, signal);
  }

  /** Under the computed manifest signals of different splits lie at least twenty calendar positions
      apart, unless the later one is the last date of all. */
  lemma PurgeMargins(dates: seq<int>, m: Manifest, a: Observation, b: Observation, i: nat, j: nat)
    requires StrictlyIncreasing(dates) && Computed(dates, m)
    requires i < |dates| && j < |dates| && a.signal == dates[i] && b.signal == dates[j]
    requires 0 <= Place(LabelOf(a, m)) < Place(LabelOf(b, m))
    ensures j - i >= 20 || j == |dates| - 1
  {
    LabelBySignal(m, a);
    LabelBySignal(m, b);
    SignalByPosition(dates, m, a.signal, i);
    SignalByPosition(dates, m, b.signal, j);
  }

  /** An observation on the last date belongs to the locked split exactly when the calendar has at
      least six dates; no other date can stand in for it below that. */
  lemma {:induction false} LockedSplitNeedsSixDates(dates: seq<int>, m: Manifest, o: Observation, i: nat)
    requires StrictlyIncreasing(dates) && Computed(dates, m) && i < |dates| && o.signal == dates[i]
    ensures i == |dates| - 1 ==> (LabelOf(o, m) == LockedOos <==> |dates| >= 6)
    ensures |dates| < 6 ==> LabelOf(o, m) != LockedOos
  {
    LabelBySignal(m, o);
    SignalByPosition(dates, m, o.signal, i);
  }

  /** How many of the dates come up to day e: the position after the last of them. */
  function DatesThrough(dates: seq<int>, e: int): (n: nat)
    requires StrictlyIncreasing(dates)
    ensures n <= |dates|
    ensures forall q :: 0 <= q < |dates| ==> (dates[q] <= e <==> q < n)
  {
    if dates == [] then 0
    else if dates[|dates| - 1] <= e then |dates|
    else DatesThrough(dates[..|dates| - 1], e)
  }

  /** The recorded exit lies on or after the date at position q. */
  predicate ExitsFrom(dates: seq<int>, o: Observation, q: int)
    requires StrictlyIncreasing(dates)
  {
    o.exit20.Some? && q < DatesThrough(dates, o.exit20.value)
  }

  /** Under the computed manifest an observation is labelled by the calendar positions of its signal and, if one
      is recorded, of its exit. */
  lemma {:induction false} LabelByPosition(dates: seq<int>, m: Manifest, o: Observation, i: nat)
    requires StrictlyIncreasing(dates) && Computed(dates, m) && i < |dates| && o.signal == dates[i]
    ensures var n := |dates|;
            LabelOf(o, m) ==
            if i <= n * 6 / 10 then
              if ExitsFrom(dates, o, ShiftedPosition(n, 6)) then PurgeTrainValidation else Train
            else if i < ShiftedPosition(n, 6) then PurgeTrainValidation
            else if i <= n * 8 / 10 then
              if ExitsFrom(dates, o, ShiftedPosition(n, 8)) then PurgeValidationLockedOos else Validation
            else if i < ShiftedPosition(n, 8) then PurgeValidationLockedOos
            else LockedOos
  {
    SignalByPosition(dates, m, o.signal, i);
    ComputedBoundaries(dates, m);
  }

  /** With windows of at most twenty positions and enough dates, the only training observations that are purged
      are those of the last training date. */
  lemma {:induction false} ShortWindowsStay(dates: seq<int>, m: Manifest, o: Observation, i: nat)
    requires StrictlyIncreasing(dates) && Computed(dates, m) && i < |dates| && o.signal == dates[i]
    requires o.exit20.Some? ==> DatesThrough(dates, o.exit20.value) <= i + PURGE_TRADING_DAYS + 1
    requires |dates| * 6 / 10 + PURGE_TRADING_DAYS < |dates|
    ensures i < |dates| * 6 / 10 ==> LabelOf(o, m) == Train
  {
    LabelByPosition(dates, m, o, i);
  }

  ghost predicate ValidationDate(dates: seq<int>, m: Manifest, i: nat)
    requires i < |dates|
  {
    LabelOf(Observation(0, dates[i], None), m) == Validation
  }

  /** Some date can hold validation observations exactly when the shifted start of the split does not
      lie behind its end: for three to five dates, and then not again before ninety-eight. */
  lemma {:induction false} ValidationSplitNeedsManyDates(dates: seq<int>, m: Manifest)
    requires StrictlyIncreasing(dates) && Computed(dates, m)
    ensures var n := |dates|;
            && n > 0
            && ((exists i: nat :: i < n && ValidationDate(dates, m, i)) <==>
                n * 6 / 10 < n * 8 / 10 && ShiftedPosition(n, 6) <= n * 8 / 10)
            && ((exists i: nat :: i < n && ValidationDate(dates, m, i)) <==> 3 <= n <= 5 || n >= 98)
  {
    var n := |dates|;
    ComputedBoundaries(dates, m);
    forall i: nat | i < n
      ensures ValidationDate(dates, m, i) <==> n * 6 / 10 < i && ShiftedPosition(n, 6) <= i <= n * 8 / 10
    {
      LabelByPosition(dates, m, Observation(0, dates[i], None), i);
    }
    if n * 6 / 10 < n * 8 / 10 && ShiftedPosition(n, 6) <= n * 8 / 10 {
      assert ValidationDate(dates, m, n * 8 / 10);
    }
    RoomForValidation(n);
  }

  lemma RoomForValidation(n: nat)
    requires n > 0
    ensures n * 6 / 10 < n * 8 / 10 && ShiftedPosition(n, 6) <= n * 8 / 10 <==> 3 <= n <= 5 || n >= 98
  {
  }

  // ---------------------------------------------------------------- selection

  datatype Split = All | Development | TrainSplit | ValidationSplit | LockedOosSplit

  predicate Requested(split: Split, l: Label) {
    match split
    case All => true
    case Development => l == Train || l == Validation
    case TrainSplit => l == Train
    case ValidationSplit => l == Validation
    case LockedOosSplit => l == LockedOos
  }

  function In(split: Split, m: Manifest): Observation -> Option<Observation> {
    (o: Observation) => if Requested(split, LabelOf(o, m)) then Some(o) else None
  }

  function Labelled(l: Label, m: Manifest): Observation -> Option<Observation> {
    (o: Observation) => if LabelOf(o, m) == l then Some(o) else None
  }

  /** The number of observations under a label. */
  function CountOf(os: seq<Observation>, l: Label, m: Manifest): int { |FilterMap(Labelled(l, m), os)| }

  lemma CountStep(os: seq<Observation>, o: Observation, l: Label, m: Manifest)
    ensures CountOf(os + [o], l, m) == CountOf(os, l, m) + if LabelOf(o, m) == l then 1 else 0
  {
    FilterMapConcat(Labelled(l, m), os, [o]);
  }

  /** The defaultdict of label counts: a label is a key once it has been seen. */
  method CountLabels(os: seq<Observation>, m: Manifest) returns (counts: map<Label, int>)
    ensures forall l :: if l in counts then counts[l] == CountOf(os, l, m) > 0 else CountOf(os, l, m) == 0
  {
    counts := map[];
    for i := 0 to |os|
      invariant forall l :: if l in counts then counts[l] == CountOf(os[..i], l, m) > 0 else CountOf(os[..i], l, m) == 0
    {
      assert os[..i + 1] == os[..i] + [os[i]];
      forall l ensures CountOf(os[..i + 1], l, m) == CountOf(os[..i], l, m) + if LabelOf(os[i], m) == l then 1 else 0 {
        CountStep(os[..i], os[i], l, m);
      }
      var l := LabelOf(os[i], m);
      counts := counts[l := (if l in counts then counts[l] else 0) + 1];
    }
    assert os[..|os|] == os;
  }

  /** The selected observations in their order and the number of observations under each label. */
  method SelectObservations(os: seq<Observation>, split: Split, fixed: Option<FixedManifest>)
    returns (selected: seq<Observation>, counts: map<Label, int>)
    ensures SplitManifest(os, fixed).None? ==> selected == [] && counts == map[]
    ensures SplitManifest(os, fixed).Some? ==>
              var m := SplitManifest(os, fixed).value;
              && selected == FilterMap(In(split, m), os)
              && forall l :: if l in counts then counts[l] == CountOf(os, l, m) > 0 else CountOf(os, l, m) == 0
  {
    var manifest := SplitManifest(os, fixed);
    if manifest.None? {
      return [], map[];
    }
    selected := FilterMap(In(split, manifest.value), os);
    counts := CountLabels(os, manifest.value);
  }

  /** The label counts add up to all observations, and the selections to the counts: nothing is
      lost or selected twice. */
  lemma {:induction false} LabelsPartition(os: seq<Observation>, m: Manifest)
    ensures |os| == CountOf(os, Train, m) + CountOf(os, PurgeTrainValidation, m) + CountOf(os, Validation, m) +
                    CountOf(os, PurgeValidationLockedOos, m) + CountOf(os, LockedOos, m)
    ensures |FilterMap(In(TrainSplit, m), os)| == CountOf(os, Train, m)
    ensures |FilterMap(In(ValidationSplit, m), os)| == CountOf(os, Validation, m)
    ensures |FilterMap(In(LockedOosSplit, m), os)| == CountOf(os, LockedOos, m)
    ensures |FilterMap(In(Development, m), os)| == CountOf(os, Train, m) + CountOf(os, Validation, m)
    ensures |FilterMap(In(All, m), os)| == |os|
    decreases |os|
  {
    if os == [] {
    } else {
      LabelsPartition(os[1..], m);
    }
  }

  // ---------------------------------------------------------------- nothing is purged without need

  /** The days of the three splits; in a manifest whose dates are in order these are intervals. */
  predicate InTrain(o: Observation, m: Manifest) { o.signal <= m.trainEnd }

  predicate InValidation(o: Observation, m: Manifest) {
    m.trainEnd < o.signal && m.validationStart <= o.signal <= m.validationEnd
  }

  predicate InLocked(o: Observation, m: Manifest) {
    && m.trainEnd < o.signal && m.validationStart <= o.signal
    && m.validationEnd < o.signal && m.lockedOosStart <= o.signal
  }

  /** The days after a split and before the next one. */
  predicate InGap(o: Observation, m: Manifest) {
    || m.trainEnd < o.signal < m.validationStart
    || (m.trainEnd < o.signal && m.validationStart <= o.signal && m.validationEnd < o.signal < m.lockedOosStart)
  }

  /** The recorded window reaches the start of the next split. */
  predicate Reaches(o: Observation, start: int) { o.exit20.Some? && start <= o.exit20.value }

  function Selected(os: seq<Observation>, split: Split, m: Manifest): seq<Observation> { FilterMap(In(split, m), os) }

  /** An observation is selected for the split in whose days its signal lies, unless its window reaches the next
      split; it is left out of all three exactly when its signal lies in a gap or its window reaches over. */
  lemma {:induction false} SelectedUnlessReaching(os: seq<Observation>, m: Manifest, o: Observation)
    requires o in os
    ensures o in Selected(os, TrainSplit, m) <==> InTrain(o, m) && !Reaches(o, m.validationStart)
    ensures o in Selected(os, ValidationSplit, m) <==> InValidation(o, m) && !Reaches(o, m.lockedOosStart)
    ensures o in Selected(os, LockedOosSplit, m) <==> InLocked(o, m)
    ensures o in Selected(os, Development, m) <==>
            o in Selected(os, TrainSplit, m) || o in Selected(os, ValidationSplit, m)
    ensures o !in Selected(os, TrainSplit, m) && o !in Selected(os, ValidationSplit, m) &&
            o !in Selected(os, LockedOosSplit, m)
            <==>
            || InGap(o, m)
            || (InTrain(o, m) && Reaches(o, m.validationStart))
            || (InValidation(o, m) && Reaches(o, m.lockedOosStart))
  {
    SelectionMembers(os, TrainSplit, m, o);
    SelectionMembers(os, ValidationSplit, m, o);
    SelectionMembers(os, LockedOosSplit, m, o);
    SelectionMembers(os, Development, m, o);
  }

  /** The sorted signal days run from the first to the last. */
  lemma {:induction false} DaysOfSignals(os: seq<Observation>)
    ensures var dates := Ascending(SignalDates(os));
            && (dates == [] <==> os == [])
            && (os != [] ==>
                  && (exists o :: o in os && o.signal == dates[0])
                  && (exists o :: o in os && o.signal == dates[|dates| - 1])
                  && (forall o :: o in os ==> dates[0] <= o.signal <= dates[|dates| - 1]))
  {
    var dates := Ascending(SignalDates(os));
    if os != [] {
      assert os[0].signal in dates;
      assert dates[0] in SignalDates(os) && dates[|dates| - 1] in SignalDates(os);
      forall o | o in os ensures dates[0] <= o.signal <= dates[|dates| - 1] {
        assert o.signal in dates;
        var k :| 0 <= k < |dates| && dates[k] == o.signal;
      }
    }
    if dates != [] {
      assert dates[0] in SignalDates(os);
    }
  }

  /** What a manifest records of its data: the first and the last signal day, the numbers of observations and of
      symbols, and the purge; a recorded manifest keeps its own dates. */
  lemma {:induction false} ManifestRecords(os: seq<Observation>, fixed: Option<FixedManifest>)
    ensures SplitManifest(os, fixed).None? <==> os == []
    ensures os != [] ==>
              var m := SplitManifest(os, fixed).value;
              && (exists o :: o in os && o.signal == m.trainStart)
              && (exists o :: o in os && o.signal == m.lockedOosEnd)
              && (forall o :: o in os ==> m.trainStart <= o.signal <= m.lockedOosEnd)
              && m.count == |os| && m.symbols == |set o | o in os :: o.symbol|
              && (fixed.None? ==> m.purgeDays == 20)
              && (fixed.Some? ==>
                    && m.trainEnd == fixed.value.trainEnd && m.validationStart == fixed.value.validationStart
                    && m.validationEnd == fixed.value.validationEnd
                    && m.lockedOosStart == fixed.value.lockedOosStart
                    && m.purgeDays == (if fixed.value.purgeDays.None? || fixed.value.purgeDays == Some(0) then 20
                                       else fixed.value.purgeDays.value))
  {
    DaysOfSignals(os);
  }

  /** An observation is in a split's selection exactly when it has one of the split's labels, and
      every one so labelled is selected. */
  lemma {:induction false} SelectionMembers(os: seq<Observation>, split: Split, m: Manifest, o: Observation)
    ensures o in FilterMap(In(split, m), os) <==> o in os && Requested(split, LabelOf(o, m))
  {
    FilterMapMember(In(split, m), os, o);
  }
}
