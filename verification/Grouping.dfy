/** Rows grouped by trading date and symbol with a dictionary, each group put in the order of time. */
module Grouping {
  import opened Prelude
  import opened Sorting

  /** A trading date and a symbol: the rows of one key are scanned together. */
  datatype Key = Key(date: int, symbol: int)

  /** Prices that the programs divide by. */
  type NonZero = x: real | x != 0.0 witness 1.0

  function InGroup<T>(key: T -> Key, k: Key): T -> Option<T> {
    (r: T) => if key(r) == k then Some(r) else None
  }

  function Group<T>(key: T -> Key, rows: seq<T>, k: Key): seq<T> { FilterMap(InGroup(key, k), rows) }

  /** The keys in the order of their first row: the order in which a Python dict lists them. */
  function Keys<T>(key: T -> Key, rows: seq<T>): seq<Key> {
    if rows == [] then []
    else
      var earlier, k := Keys(key, rows[..|rows| - 1]), key(rows[|rows| - 1]);
      if k in earlier then earlier else earlier + [k]
  }

  lemma {:induction false} KeyOfRow<T>(key: T -> Key, rows: seq<T>)
    ensures forall r :: r in rows ==> key(r) in Keys(key, rows)
    decreases |rows|
  {
    if rows == [] {
    } else {
      KeyOfRow(key, rows[..|rows| - 1]);
      assert rows == rows[..|rows| - 1] + [rows[|rows| - 1]];
    }
  }

  lemma {:induction false} NoRows<T>(key: T -> Key, rows: seq<T>, k: Key)
    requires forall r :: r in rows ==> key(r) != k
    ensures Group(key, rows, k) == []
    decreases |rows|
  {
    if rows == [] {
    } else {
      assert rows[0] in rows;
      NoRows(key, rows[1..], k);
    }
  }

  /** Each key is listed once. */
  lemma {:induction false} KeysOnce<T>(key: T -> Key, rows: seq<T>)
    ensures forall i, j :: 0 <= i < j < |Keys(key, rows)| ==> Keys(key, rows)[i] != Keys(key, rows)[j]
    decreases |rows|
  {
    if rows == [] {
    } else {
      KeysOnce(key, rows[..|rows| - 1]);
    }
  }

  /** One more row joins the group of its key, which it opens if it is new. */
  lemma AppendRow<T>(key: T -> Key, rows: seq<T>, r: T)
    ensures Keys(key, rows + [r]) == if key(r) in Keys(key, rows) then Keys(key, rows) else Keys(key, rows) + [key(r)]
    ensures forall k :: Group(key, rows + [r], k) ==
                if key(r) == k then Group(key, rows, k) + [r] else Group(key, rows, k)
    ensures key(r) !in Keys(key, rows) ==> Group(key, rows + [r], key(r)) == [r]
  {
    assert (rows + [r])[..|rows + [r]| - 1] == rows;
    forall k ensures Group(key, rows + [r], k) ==
                     if key(r) == k then Group(key, rows, k) + [r] else Group(key, rows, k) {
      FilterMapConcat(InGroup(key, k), rows, [r]);
    }
    if key(r) !in Keys(key, rows) {
      KeyOfRow(key, rows);
      NoRows(key, rows, key(r));
    }
  }

  method GroupByKey<T>(key: T -> Key, rows: seq<T>) returns (keys: seq<Key>, groups: map<Key, seq<T>>)
    ensures keys == Keys(key, rows)
    ensures forall k :: k in groups <==> k in keys
    ensures forall k :: k in groups ==> groups[k] == Group(key, rows, k)
  {
    keys, groups := [], map[];
    for i := 0 to |rows|
      invariant keys == Keys(key, rows[..i])
      invariant forall k :: k in groups <==> k in keys
      invariant forall k :: k in groups ==> groups[k] == Group(key, rows[..i], k)
    {
      var r := rows[i];
      assert rows[..i + 1] == rows[..i] + [r];
      AppendRow(key, rows[..i], r);
      if key(r) in groups {
        groups := groups[key(r) := groups[key(r)] + [r]];
      } else {
        keys := keys + [key(r)];
        groups := groups[key(r) := [r]];
      }
    }
    assert rows[..|rows|] == rows;
  }

  /** The rows of each of the first n keys, in order. */
  function GroupsOf<T>(key: T -> Key, le: (T, T) -> bool, rows: seq<T>, keys: seq<Key>, n: nat): (groups: seq<seq<T>>)
    requires n <= |keys|
    ensures |groups| == n
  {
    if n == 0 then []
    else GroupsOf(key, le, rows, keys, n - 1) + [Sort(le, Group(key, rows, keys[n - 1]))]
  }

  function Groups<T>(key: T -> Key, le: (T, T) -> bool, rows: seq<T>): (groups: seq<seq<T>>)
    ensures |groups| == |Keys(key, rows)|
  {
    GroupsOf(key, le, rows, Keys(key, rows), |Keys(key, rows)|)
  }

  method GroupRows<T>(key: T -> Key, le: (T, T) -> bool, rows: seq<T>) returns (ordered: seq<seq<T>>)
    ensures ordered == Groups(key, le, rows)
  {
    var keys, groups := GroupByKey(key, rows);
    ordered := [];
    for i := 0 to |keys|
      invariant ordered == GroupsOf(key, le, rows, keys, i)
    {
      assert keys[i] in groups;
      ordered := ordered + [Sort(le, groups[keys[i]])];
    }
  }

  lemma {:induction false} GroupsOfAt<T>(key: T -> Key, le: (T, T) -> bool, rows: seq<T>, keys: seq<Key>, n: nat,
      i: nat)
    requires i < n <= |keys|
    ensures GroupsOf(key, le, rows, keys, n)[i] == Sort(le, Group(key, rows, keys[i]))
  {
    if i == n - 1 {
    } else {
      GroupsOfAt(key, le, rows, keys, n - 1, i);
    }
  }

  /** Group i holds the rows of key i, in order. */
  lemma GroupAt<T(!new)>(key: T -> Key, le: (T, T) -> bool, rows: seq<T>, i: nat)
    requires i < |Groups(key, le, rows)| && TotalPreorder(le)
    ensures Ordered(le, Groups(key, le, rows)[i])
    ensures forall r :: r in Groups(key, le, rows)[i] <==> r in rows && key(r) == Keys(key, rows)[i]
  {
    var k := Keys(key, rows)[i];
    var group := Group(key, rows, k);
    GroupsOfAt(key, le, rows, Keys(key, rows), |Keys(key, rows)|, i);
    SortOrdered(le, group);
    SameElements(Sort(le, group), group);
    forall r ensures r in group <==> r in rows && key(r) == k {
      FilterMapMember(InGroup(key, k), rows, r);
    }
  }

  // ---------------------------------------------------------------- timed rows

  /** A row of the intraday data: its key, its time, and what is quoted then. */
  datatype Timed<Q> = Timed(key: Key, timestamp: real, quote: Q)

  function KeyOf<Q>(r: Timed<Q>): Key { r.key }

  predicate NotLater<Q>(a: Timed<Q>, b: Timed<Q>) { a.timestamp <= b.timestamp }

  /** The order of the emitted rows. */
  predicate RowOrder<Q>(a: Timed<Q>, b: Timed<Q>) {
    a.timestamp < b.timestamp || (a.timestamp == b.timestamp && a.key.symbol <= b.key.symbol)
  }

  /** The rows of each date and symbol, in the order of time. */
  function Scans<Q>(rows: seq<Timed<Q>>): seq<seq<Timed<Q>>> { Groups(KeyOf, NotLater, rows) }
}
