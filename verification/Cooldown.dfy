/** The greedy cooldown filter: per symbol, keep a row unless it comes too soon after the last
    kept one. Timestamps are in seconds. */
module Cooldown {
  import opened Prelude
  import opened Sorting

  // ---------------------------------------------------------------- one stream of times

  predicate Blocks(last: Option<real>, t: real, cooldown: real) {
    last.Some? && t - last.value < cooldown
  }

  /** Keep an element unless it comes less than the cooldown after the last kept one. */
  function Thin<T>(time: T -> real, last: Option<real>, xs: seq<T>, cooldown: real): seq<T>
    decreases |xs|
  {
    if xs == [] then []
    else if Blocks(last, time(xs[0]), cooldown) then Thin(time, last, xs[1..], cooldown)
    else [xs[0]] + Thin(time, Some(time(xs[0])), xs[1..], cooldown)
  }

  function Same(t: real): real { t }

  predicate NotAfter(a: real, b: real) { a <= b }

  ghost predicate Chronological(ts: seq<real>) { Ordered(NotAfter, ts) }

  /** Consecutive times, hence any two, are at least the cooldown apart. */
  ghost predicate Spaced(ts: seq<real>, cooldown: real) {
    forall i, j :: 0 <= i < j < |ts| ==> ts[j] - ts[i] >= cooldown
  }

  function Times<T>(time: T -> real, xs: seq<T>): (ts: seq<real>)
    ensures |ts| == |xs| && forall i :: 0 <= i < |xs| ==> ts[i] == time(xs[i])
  {
    seq(|xs|, (i: int) requires 0 <= i < |xs| => time(xs[i]))
  }

  /** Thinning looks at nothing but the times. */
  lemma {:induction false} ThinTimes<T>(time: T -> real, last: Option<real>, xs: seq<T>, cooldown: real)
    ensures Times(time, Thin(time, last, xs, cooldown)) == Thin(Same, last, Times(time, xs), cooldown)
    decreases |xs|
  {
    if xs == [] {
    } else {
      var blocked := Blocks(last, time(xs[0]), cooldown);
      ThinTimes(time, if blocked then last else Some(time(xs[0])), xs[1..], cooldown);
      assert Times(time, xs)[1..] == Times(time, xs[1..]);
      if !blocked {
        var rest := Thin(time, Some(time(xs[0])), xs[1..], cooldown);
        assert Times(time, [xs[0]] + rest) == [time(xs[0])] + Times(time, rest);
      }
    }
  }

  lemma {:induction false} ThinMember<T>(time: T -> real, last: Option<real>, xs: seq<T>, cooldown: real)
    ensures forall x :: x in Thin(time, last, xs, cooldown) ==> x in xs
    decreases |xs|
  {
    if xs == [] {
    } else {
      assert xs == [xs[0]] + xs[1..];
      ThinMember(time, if Blocks(last, time(xs[0]), cooldown) then last else Some(time(xs[0])), xs[1..], cooldown);
    }
  }

  /** What is kept is spaced and compatible with the time kept before. */
  lemma {:induction false} ThinIsSpaced(last: Option<real>, ts: seq<real>, cooldown: real)
    requires Chronological(ts)
    ensures Spaced(Thin(Same, last, ts, cooldown), cooldown)
    ensures forall t :: t in Thin(Same, last, ts, cooldown) ==> !Blocks(last, t, cooldown)
    decreases |ts|
  {
    if ts == [] {
    } else {
      var blocked := Blocks(last, ts[0], cooldown);
      var last' := if blocked then last else Some(ts[0]);
      ThinIsSpaced(last', ts[1..], cooldown);
      ThinMember(Same, last', ts[1..], cooldown);
      var rest := Thin(Same, last', ts[1..], cooldown);
      forall i | 0 <= i < |rest| ensures !Blocks(last', rest[i], cooldown) && rest[i] >= ts[0] {
        assert rest[i] in rest;
        var k :| 0 <= k < |ts[1..]| && ts[1..][k] == rest[i];
        assert NotAfter(ts[0], ts[k + 1]);
      }
      if !blocked {
        assert Thin(Same, last, ts, cooldown) == [ts[0]] + rest;
      }
    }
  }

  /** A time that is left out lies within the cooldown of an earlier kept one. */
  lemma {:induction false} LeftOutNearKept(last: Option<real>, ts: seq<real>, cooldown: real, t: real)
    requires Chronological(ts) && t in ts
    ensures var kept := Thin(Same, last, ts, cooldown);
            t in kept || Blocks(last, t, cooldown) || exists k :: k in kept && k <= t < k + cooldown
    decreases |ts|
  {
    var i :| 0 <= i < |ts| && ts[i] == t;
    if i == 0 {
      assert ts[0] == t;
    } else {
      assert NotAfter(ts[0], ts[i]);
      assert ts[1..][i - 1] == t;
      var blocked := Blocks(last, ts[0], cooldown);
      var last' := if blocked then last else Some(ts[0]);
      LeftOutNearKept(last', ts[1..], cooldown, t);
      if !blocked {
        var kept, rest := Thin(Same, last, ts, cooldown), Thin(Same, last', ts[1..], cooldown);
        assert kept == [ts[0]] + rest;
        assert kept[0] == ts[0];
        if Blocks(last', t, cooldown) {
          assert ts[0] in kept && ts[0] <= t < ts[0] + cooldown;
        } else if t !in rest {
          var k :| k in rest && k <= t < k + cooldown;
          assert k in kept;
        } else {
          assert t in kept;
        }
      }
    }
  }

  /** us is obtained from ts by leaving times out. */
  predicate IsSelection(us: seq<real>, ts: seq<real>) {
    if us == [] then true
    else if ts == [] then false
    else (us[0] == ts[0] && IsSelection(us[1..], ts[1..])) || IsSelection(us, ts[1..])
  }

  lemma {:induction false} SelectionTail(us: seq<real>, ts: seq<real>)
    requires us != [] && IsSelection(us, ts)
    ensures us[0] in ts && IsSelection(us[1..], ts[1..])
    decreases |ts|
  {
    if us[0] != ts[0] || !IsSelection(us[1..], ts[1..]) {
      SelectionTail(us, ts[1..]);
    }
  }

  /** No spaced selection is larger than what the greedy filter keeps. */
  lemma {:induction false} ThinIsLargest(last: Option<real>, ts: seq<real>, cooldown: real, us: seq<real>)
    requires Chronological(ts) && IsSelection(us, ts) && Spaced(us, cooldown)
    requires us == [] || !Blocks(last, us[0], cooldown)
    ensures |us| <= |Thin(Same, last, ts, cooldown)|
    decreases |ts|
  {
    if us == [] {
    } else {
      if Blocks(last, ts[0], cooldown) {
        ThinIsLargest(last, ts[1..], cooldown, us);
      } else {
        SelectionTail(us, ts);
        var k :| 0 <= k < |ts| && ts[k] == us[0];
        assert k == 0 || NotAfter(ts[0], ts[k]);
        assert |us| > 1 ==> us[1] - us[0] >= cooldown;
        ThinIsLargest(Some(ts[0]), ts[1..], cooldown, us[1..]);
      }
    }
  }

  lemma HeadIsFirst(us: seq<real>)
    requires us != [] && Chronological(us)
    ensures forall u :: u in us ==> us[0] <= u
  {
  }

  lemma TailsIncluded(us: seq<real>, ts: seq<real>)
    requires us != [] && ts != [] && us[0] == ts[0] && multiset(us) <= multiset(ts)
    ensures multiset(us[1..]) <= multiset(ts[1..])
  {
    TailOfMultiset(us);
    TailOfMultiset(ts);
  }

  lemma StillIncluded(us: seq<real>, ts: seq<real>)
    requires ts != [] && ts[0] !in us && multiset(us) <= multiset(ts)
    ensures multiset(us) <= multiset(ts[1..])
  {
    TailOfMultiset(ts);
    forall u ensures multiset(us)[u] <= multiset(ts[1..])[u] {
      assert u == ts[0] ==> u !in multiset(us);
    }
  }

  lemma LaterThanHead(us: seq<real>, ts: seq<real>)
    requires Chronological(us) && Chronological(ts) && us != [] && multiset(us) <= multiset(ts)
    ensures ts != [] && (us[0] != ts[0] ==> ts[0] !in us)
  {
    assert us[0] in multiset(ts);
    var k :| 0 <= k < |ts| && ts[k] == us[0];
    assert k > 0 ==> NotAfter(ts[0], ts[k]);
    HeadIsFirst(us);
  }

  /** Among sorted lists, having no more of each time is being a selection. */
  lemma {:induction false} SubmultisetIsSelection(us: seq<real>, ts: seq<real>)
    requires Chronological(us) && Chronological(ts) && multiset(us) <= multiset(ts)
    ensures IsSelection(us, ts)
    decreases |ts|
  {
    if us == [] {
    } else {
      LaterThanHead(us, ts);
      if us[0] == ts[0] {
        TailsIncluded(us, ts);
        SubmultisetIsSelection(us[1..], ts[1..]);
      } else {
        StillIncluded(us, ts);
        SubmultisetIsSelection(us, ts[1..]);
      }
    }
  }

  /** A stronger form: any collection of the times, in any order, that are pairwise the cooldown
      apart has at most as many members as the greedy filter keeps. */
  lemma ThinIsOptimal(ts: seq<real>, cooldown: real, us: seq<real>)
    requires Chronological(ts) && multiset(us) <= multiset(ts) && Pairwise(Apart(cooldown), us)
    ensures |us| <= |Thin(Same, None, ts, cooldown)|
  {
    var vs := Sort(NotAfter, us);
    SortOrdered(NotAfter, us);
    PairwisePermutation(Apart(cooldown), us, vs);
    SubmultisetIsSelection(vs, ts);
    forall i, j | 0 <= i < j < |vs| ensures vs[j] - vs[i] >= cooldown {
      assert NotAfter(vs[i], vs[j]) && Apart(cooldown)(vs[i], vs[j]);
    }
    ThinIsLargest(None, ts, cooldown, vs);
    assert |multiset(us)| == |multiset(vs)|;
  }

  function Apart(cooldown: real): (real, real) -> bool {
    (a, b) => a - b >= cooldown || b - a >= cooldown
  }

  // ---------------------------------------------------------------- rows of several symbols

  datatype Row = Row(symbol: int, timestamp: real, id: int)

  predicate ByTimestamp(a: Row, b: Row) { a.timestamp <= b.timestamp }

  predicate TooSoon(last: map<int, real>, r: Row, cooldown: real) {
    r.symbol in last && r.timestamp - last[r.symbol] < cooldown
  }

  /** What the filter keeps of the remaining rows, given the last kept time of each symbol. */
  function Keep(last: map<int, real>, rows: seq<Row>, cooldown: real): seq<Row>
    decreases |rows|
  {
    if rows == [] then []
    else if TooSoon(last, rows[0], cooldown) then Keep(last, rows[1..], cooldown)
    else [rows[0]] + Keep(last[rows[0].symbol := rows[0].timestamp], rows[1..], cooldown)
  }

  function Deduped(rows: seq<Row>, cooldown: real): seq<Row> {
    Keep(map[], Sort(ByTimestamp, rows), cooldown)
  }

  method DedupeFeatures(rows: seq<Row>, cooldown: real) returns (out: seq<Row>)
    ensures out == Deduped(rows, cooldown)
  {
    var ordered := Sort(ByTimestamp, rows);
    var last: map<int, real> := map[];
    out := [];
    for i := 0 to |ordered|
      invariant Keep(map[], ordered, cooldown) == out + Keep(last, ordered[i..], cooldown)
    {
      var r := ordered[i];
      assert ordered[i..][0] == r && ordered[i..][1..] == ordered[i + 1..];
      if TooSoon(last, r, cooldown) {
        continue;
      }
      out := out + [r];
      last := last[r.symbol := r.timestamp];
    }
  }

  function StampOf(s: int): Row -> Option<real> {
    (r: Row) => if r.symbol == s then Some(r.timestamp) else None
  }

  /** The times at which a symbol occurs. */
  function TimesOf(rows: seq<Row>, s: int): seq<real> { FilterMap(StampOf(s), rows) }

  function LastOf(last: map<int, real>, s: int): Option<real> {
    if s in last then Some(last[s]) else None
  }

  /** Symbols do not disturb each other: each one's times are thinned on their own. */
  lemma {:induction false} KeepThinsEachSymbol(last: map<int, real>, rows: seq<Row>, cooldown: real, s: int)
    ensures TimesOf(Keep(last, rows, cooldown), s) == Thin(Same, LastOf(last, s), TimesOf(rows, s), cooldown)
    decreases |rows|
  {
    if rows == [] {
    } else {
      var r := rows[0];
      if TooSoon(last, r, cooldown) {
        KeepThinsEachSymbol(last, rows[1..], cooldown, s);
      } else {
        var last' := last[r.symbol := r.timestamp];
        KeepThinsEachSymbol(last', rows[1..], cooldown, s);
        FilterMapCons(StampOf(s), r, Keep(last', rows[1..], cooldown));
      }
      var rest := TimesOf(rows[1..], s);
      if r.symbol == s {
        assert TimesOf(rows, s) == [r.timestamp] + rest;
        assert TimesOf(rows, s)[1..] == rest;
      } else {
        assert TimesOf(rows, s) == rest;
      }
    }
  }

  lemma TimesInOrder(rows: seq<Row>, s: int)
    requires Ordered(ByTimestamp, rows)
    ensures Chronological(TimesOf(rows, s))
  {
    FilterMapOrdered(StampOf(s), ByTimestamp, NotAfter, rows);
  }

  /** Rows of one symbol are at least the cooldown apart. */
  function RowsApart(cooldown: real): (Row, Row) -> bool {
    (a: Row, b: Row) => a.symbol == b.symbol ==> Apart(cooldown)(a.timestamp, b.timestamp)
  }

  lemma {:induction false} TimesApart(rows: seq<Row>, cooldown: real, s: int)
    requires Pairwise(RowsApart(cooldown), rows)
    ensures Pairwise(Apart(cooldown), TimesOf(rows, s))
    decreases |rows|
  {
    if rows == [] {
    } else {
      var rest := rows[1..];
      forall i, j | 0 <= i < |rest| && 0 <= j < |rest| && i != j ensures RowsApart(cooldown)(rest[i], rest[j]) {
        assert RowsApart(cooldown)(rows[i + 1], rows[j + 1]);
      }
      TimesApart(rest, cooldown, s);
      var ts := TimesOf(rest, s);
      forall i | 0 <= i < |ts| && rows[0].symbol == s ensures Apart(cooldown)(rows[0].timestamp, ts[i]) {
        assert ts[i] in ts;
        FilterMapMember(StampOf(s), rest, ts[i]);
        var r :| r in rest && StampOf(s)(r) == Some(ts[i]);
        var k :| 0 <= k < |rest| && rest[k] == r;
        assert RowsApart(cooldown)(rows[0], rows[k + 1]);
      }
    }
  }

  // ---------------------------------------------------------------- what the filter promises

  /** Kept rows are spaced, and come from the input. */
  lemma DedupeIsSpaced(rows: seq<Row>, cooldown: real, s: int)
    ensures Spaced(TimesOf(Deduped(rows, cooldown), s), cooldown)
    ensures multiset(TimesOf(Sort(ByTimestamp, rows), s)) == multiset(TimesOf(rows, s))
  {
    var ordered := Sort(ByTimestamp, rows);
    SortOrdered(ByTimestamp, rows);
    TimesInOrder(ordered, s);
    KeepThinsEachSymbol(map[], ordered, cooldown, s);
    ThinIsSpaced(None, TimesOf(ordered, s), cooldown);
    FilterMapMultiset(StampOf(s), ordered, rows);
  }

  /** A row that is left out follows a kept row of its symbol by less than the cooldown. */
  lemma DedupeDropsOnlyNearKept(rows: seq<Row>, cooldown: real, r: Row)
    requires r in rows
    ensures exists k :: k in Deduped(rows, cooldown) && k.symbol == r.symbol && k.timestamp <= r.timestamp &&
                        (k.timestamp == r.timestamp || r.timestamp < k.timestamp + cooldown)
  {
    var ordered, s := Sort(ByTimestamp, rows), r.symbol;
    SortOrdered(ByTimestamp, rows);
    SameElements(ordered, rows);
    TimesInOrder(ordered, s);
    KeepThinsEachSymbol(map[], ordered, cooldown, s);
    FilterMapMember(StampOf(s), ordered, r.timestamp);
    assert StampOf(s)(r) == Some(r.timestamp);
    LeftOutNearKept(None, TimesOf(ordered, s), cooldown, r.timestamp);
    var kept := TimesOf(Deduped(rows, cooldown), s);
    var t :| t in kept && t <= r.timestamp && (t == r.timestamp || r.timestamp < t + cooldown);
    FilterMapMember(StampOf(s), Deduped(rows, cooldown), t);
  }

  /** No collection of the rows that respects the cooldown is larger, for any symbol or in all. */
  lemma DedupeIsOptimal(rows: seq<Row>, cooldown: real, xs: seq<Row>)
    requires multiset(xs) <= multiset(rows) && Pairwise(RowsApart(cooldown), xs)
    ensures forall s :: |TimesOf(xs, s)| <= |TimesOf(Deduped(rows, cooldown), s)|
    ensures |xs| <= |Deduped(rows, cooldown)|
  {
    var ordered := Sort(ByTimestamp, rows);
    SortOrdered(ByTimestamp, rows);
    forall s ensures |TimesOf(xs, s)| <= |TimesOf(Deduped(rows, cooldown), s)| {
      TimesInOrder(ordered, s);
      KeepThinsEachSymbol(map[], ordered, cooldown, s);
      FilterMapSubmultiset(StampOf(s), xs, ordered);
      TimesApart(xs, cooldown, s);
      ThinIsOptimal(TimesOf(ordered, s), cooldown, TimesOf(xs, s));
    }
    CountBySymbol(xs, Deduped(rows, cooldown));
  }

  lemma {:induction false} FilterMapSubmultiset<A, B>(f: A -> Option<B>, xs: seq<A>, ys: seq<A>)
    requires multiset(xs) <= multiset(ys)
    ensures multiset(FilterMap(f, xs)) <= multiset(FilterMap(f, ys))
    decreases |xs|
  {
    if xs == [] {
    } else {
      assert xs[0] in multiset(ys);
      var i := Locate(ys, xs[0]);
      TailOfMultiset(xs);
      FilterMapSubmultiset(f, xs[1..], ys[..i] + ys[i + 1..]);
      FilterMapCons(f, xs[0], ys[..i] + ys[i + 1..]);
      FilterMapMultiset(f, ys, [xs[0]] + (ys[..i] + ys[i + 1..]));
    }
  }

  function NotOf(s: int): Row -> Option<Row> {
    (r: Row) => if r.symbol == s then None else Some(r)
  }

  lemma {:induction false} SplitOffSymbol(xs: seq<Row>, s: int, t: int)
    ensures |xs| == |TimesOf(xs, s)| + |FilterMap(NotOf(s), xs)|
    ensures TimesOf(FilterMap(NotOf(s), xs), t) == if s == t then [] else TimesOf(xs, t)
    decreases |xs|
  {
    if xs == [] {
    } else {
      SplitOffSymbol(xs[1..], s, t);
      var rest := FilterMap(NotOf(s), xs[1..]);
      FilterMapCons(StampOf(t), xs[0], rest);
      assert FilterMap(NotOf(s), xs) == if xs[0].symbol == s then rest else [xs[0]] + rest;
    }
  }

  /** A list that has at least as many rows of every symbol has at least as many rows. */
  lemma {:induction false} CountBySymbol(xs: seq<Row>, ys: seq<Row>)
    requires forall s :: |TimesOf(xs, s)| <= |TimesOf(ys, s)|
    ensures |xs| <= |ys|
    decreases |xs|
  {
    if xs == [] {
    } else {
      var s := xs[0].symbol;
      var xs', ys' := FilterMap(NotOf(s), xs), FilterMap(NotOf(s), ys);
      forall t ensures |TimesOf(xs', t)| <= |TimesOf(ys', t)| {
        SplitOffSymbol(xs, s, t);
        SplitOffSymbol(ys, s, t);
      }
      SplitOffSymbol(xs, s, s);
      SplitOffSymbol(ys, s, s);
      CountBySymbol(xs', ys');
    }
  }
}
