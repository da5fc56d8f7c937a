/** Average ranks of tied values, as both correlation helpers compute them: sort, walk over the
    groups of equal values, and give every member of a group the middle of its positions. */
module TiedRanks {
  import opened Prelude
  import opened Sorting

  // ---------------------------------------------------------------- counting

  function Count(p: real -> bool, vs: seq<real>): nat {
    if vs == [] then 0 else Count(p, vs[..|vs| - 1]) + if p(vs[|vs| - 1]) then 1 else 0
  }

  function Below(v: real): real -> bool { x => x < v }

  function EqualTo(v: real): real -> bool { x => x == v }

  lemma {:induction false} CountConcat(p: real -> bool, xs: seq<real>, ys: seq<real>)
    ensures Count(p, xs + ys) == Count(p, xs) + Count(p, ys)
    decreases |ys|
  {
    if ys == [] {
      assert xs + ys == xs;
    } else {
      assert (xs + ys)[..|xs + ys| - 1] == xs + ys[..|ys| - 1];
      CountConcat(p, xs, ys[..|ys| - 1]);
    }
  }

  lemma {:induction false} CountPermutation(p: real -> bool, xs: seq<real>, ys: seq<real>)
    requires multiset(xs) == multiset(ys)
    ensures Count(p, xs) == Count(p, ys)
    decreases |xs|
  {
    if xs == [] {
    } else {
      SameElements(xs, ys);
      var i := Locate(ys, xs[0]);
      TailOfMultiset(xs);
      CountConcat(p, ys[..i], [xs[0]] + ys[i + 1..]);
      CountConcat(p, [xs[0]], ys[i + 1..]);
      CountConcat(p, ys[..i], ys[i + 1..]);
      CountConcat(p, [xs[0]], xs[1..]);
      assert xs == [xs[0]] + xs[1..];
      CountPermutation(p, xs[1..], ys[..i] + ys[i + 1..]);
    }
  }

  // ---------------------------------------------------------------- the rank of a value

  /** The number of smaller values plus the middle position among the equal ones. */
  function RankOf(vs: seq<real>, v: real): real {
    Count(Below(v), vs) as real + (Count(EqualTo(v), vs) as real + 1.0) / 2.0
  }

  function AllRanks(vs: seq<real>): (r: seq<real>)
    ensures |r| == |vs|
    ensures forall i :: 0 <= i < |vs| ==> r[i] == RankOf(vs, vs[i])
  {
    seq(|vs|, i requires 0 <= i < |vs| => RankOf(vs, vs[i]))
  }

  // ---------------------------------------------------------------- the loops

  type Indexed = (int, real)

  function Enumerate(vs: seq<real>): (r: seq<Indexed>)
    ensures |r| == |vs|
    ensures forall i :: 0 <= i < |vs| ==> r[i] == (i, vs[i])
  {
    seq(|vs|, i requires 0 <= i < |vs| => (i, vs[i]))
  }

  function Values(es: seq<Indexed>): (r: seq<real>)
    ensures |r| == |es|
    ensures forall i :: 0 <= i < |es| ==> r[i] == es[i].1
  {
    seq(|es|, i requires 0 <= i < |es| => es[i].1)
  }

  predicate ByValue(a: Indexed, b: Indexed) { a.1 <= b.1 }

  predicate ByValueThenIndex(a: Indexed, b: Indexed) { a.1 < b.1 || (a.1 == b.1 && a.0 <= b.0) }

  /** The enumerated values in non-decreasing order. */
  ghost predicate IsOrdered(vs: seq<real>, ordered: seq<Indexed>) {
    multiset(ordered) == multiset(Enumerate(vs)) && Ordered(ByValue, ordered)
  }

  lemma OrderedIndices(vs: seq<real>, ordered: seq<Indexed>)
    requires IsOrdered(vs, ordered)
    ensures |ordered| == |vs|
    ensures forall k :: 0 <= k < |ordered| ==> 0 <= ordered[k].0 < |vs| && ordered[k].1 == vs[ordered[k].0]
    ensures forall j, k :: 0 <= j < k < |ordered| ==> ordered[j].0 != ordered[k].0
  {
    SameElements(ordered, Enumerate(vs));
    forall k | 0 <= k < |ordered| ensures 0 <= ordered[k].0 < |vs| && ordered[k].1 == vs[ordered[k].0] {
      assert ordered[k] in Enumerate(vs);
    }
    DistinctPermutation(FirstOf, Enumerate(vs), ordered);
    forall j, k | 0 <= j < k < |ordered| ensures ordered[j].0 != ordered[k].0 {
      assert FirstOf(ordered[j]) != FirstOf(ordered[k]);
    }
  }

  /** Every position occurs in the enumeration. */
  lemma IndexPresent(vs: seq<real>, ordered: seq<Indexed>, i: nat) returns (k: nat)
    requires IsOrdered(vs, ordered) && i < |vs|
    ensures k < |ordered| && ordered[k].0 == i
  {
    SameElements(ordered, Enumerate(vs));
    assert Enumerate(vs)[i] in ordered;
    k :| 0 <= k < |ordered| && ordered[k] == Enumerate(vs)[i];
  }

  function FirstOf(e: Indexed): int { e.0 }

  function SecondOf(e: Indexed): Option<real> { Some(e.1) }

  lemma {:induction false} ValuesAsMap(es: seq<Indexed>)
    ensures FilterMap(SecondOf, es) == Values(es)
    decreases |es|
  {
    if es == [] {
    } else {
      ValuesAsMap(es[1..]);
    }
  }

  lemma OrderedValues(vs: seq<real>, ordered: seq<Indexed>)
    requires IsOrdered(vs, ordered)
    ensures multiset(Values(ordered)) == multiset(vs)
  {
    FilterMapMultiset(SecondOf, ordered, Enumerate(vs));
    ValuesAsMap(ordered);
    ValuesAsMap(Enumerate(vs));
    assert Values(Enumerate(vs)) == vs;
  }

  /** Counting a list whose first, middle and last stretch are uniform. */
  lemma {:induction false} CountStretches(p: real -> bool, all: seq<real>, start: nat, end: nat, inLow: bool,
      inMid: bool)
    requires start <= end <= |all|
    requires forall k :: 0 <= k < start ==> p(all[k]) == inLow
    requires forall k :: start <= k < end ==> p(all[k]) == inMid
    requires forall k :: end <= k < |all| ==> !p(all[k])
    ensures Count(p, all) == (if inLow then start else 0) + (if inMid then end - start else 0)
    decreases |all|
  {
    if all == [] {
    } else {
      var n := |all| - 1;
      CountStretches(p, all[..n], MinInt(start, n), MinInt(end, n), inLow, inMid);
    }
  }

  /** Counting among the values in order. */
  lemma OrderedCount(p: real -> bool, vs: seq<real>, ordered: seq<Indexed>, start: nat, end: nat, inLow: bool,
      inMid: bool)
    requires IsOrdered(vs, ordered) && start <= end <= |ordered|
    requires forall k :: 0 <= k < start ==> p(ordered[k].1) == inLow
    requires forall k :: start <= k < end ==> p(ordered[k].1) == inMid
    requires forall k :: end <= k < |ordered| ==> !p(ordered[k].1)
    ensures Count(p, vs) == (if inLow then start else 0) + (if inMid then end - start else 0)
  {
    OrderedValues(vs, ordered);
    CountPermutation(p, vs, Values(ordered));
    CountStretches(p, Values(ordered), start, end, inLow, inMid);
  }

  /** A maximal group [start, end) of equal values gets rank (start + 1 + end) / 2. */
  lemma GroupRank(vs: seq<real>, ordered: seq<Indexed>, start: nat, end: nat, v: real)
    requires IsOrdered(vs, ordered) && start < end <= |ordered|
    requires forall k :: 0 <= k < start ==> ordered[k].1 < v
    requires forall k :: start <= k < end ==> ordered[k].1 == v
    requires forall k :: end <= k < |ordered| ==> ordered[k].1 > v
    ensures RankOf(vs, v) == (start + 1 + end) as real / 2.0
  {
    OrderedCount(Below(v), vs, ordered, start, end, true, false);
    OrderedCount(EqualTo(v), vs, ordered, start, end, false, true);
  }

  /** The walk over the groups, given any value-ordered enumeration. */
  method RanksOf(vs: seq<real>, ordered: seq<Indexed>) returns (ranks: seq<real>)
    requires IsOrdered(vs, ordered)
    ensures ranks == AllRanks(vs)
  {
    OrderedIndices(vs, ordered);
    ranks := seq(|vs|, _ => 0.0);
    var start := 0;
    while start < |ordered|
      invariant 0 <= start <= |ordered| && |ranks| == |vs|
      invariant forall j, k :: 0 <= j < start <= k < |ordered| ==> ordered[j].1 < ordered[k].1
      invariant forall k :: 0 <= k < start ==> ranks[ordered[k].0] == RankOf(vs, ordered[k].1)
    {
      var v := ordered[start].1;
      var end := start + 1;
      while end < |ordered| && ordered[end].1 == v
        invariant start < end <= |ordered|
        invariant forall k :: start <= k < end ==> ordered[k].1 == v
      {
        end := end + 1;
      }
      forall k | end <= k < |ordered| ensures ordered[k].1 > v {
        assert ByValue(ordered[start], ordered[end]);
        assert k == end || ByValue(ordered[end], ordered[k]);
      }
      GroupRank(vs, ordered, start, end, v);
      var average := (start + 1 + end) as real / 2.0;
      var position := start;
      while position < end
        invariant start <= position <= end && |ranks| == |vs|
        invariant forall k :: 0 <= k < position ==> ranks[ordered[k].0] == RankOf(vs, ordered[k].1)
      {
        ranks := ranks[ordered[position].0 := average];
        position := position + 1;
      }
      start := end;
    }
    forall i | 0 <= i < |vs| ensures ranks[i] == AllRanks(vs)[i] {
      var k := IndexPresent(vs, ordered, i);
      assert ordered[k].1 == vs[i];
    }
  }

  /** The backtester's helper sorts by value only. */
  method SpearmanRanks(vs: seq<real>) returns (ranks: seq<real>)
    ensures ranks == AllRanks(vs)
  {
    SortOrdered(ByValue, Enumerate(vs));
    ranks := RanksOf(vs, Sort(ByValue, Enumerate(vs)));
  }

  /** The cross-section helper sorts by value and then position. */
  method AverageRanks(vs: seq<real>) returns (ranks: seq<real>)
    ensures ranks == AllRanks(vs)
  {
    var ordered := Sort(ByValueThenIndex, Enumerate(vs));
    SortOrdered(ByValueThenIndex, Enumerate(vs));
    forall i, j | 0 <= i < j < |ordered| ensures ByValue(ordered[i], ordered[j]) {
      assert ByValueThenIndex(ordered[i], ordered[j]);
    }
    ranks := RanksOf(vs, ordered);
  }

  // ---------------------------------------------------------------- what ranks mean

  /** Rearranging the values rearranges the ranks with them. */
  lemma RanksFollowPermutation(vs: seq<real>, ws: seq<real>, i: nat, j: nat)
    requires multiset(vs) == multiset(ws) && i < |vs| && j < |ws| && vs[i] == ws[j]
    ensures AllRanks(vs)[i] == AllRanks(ws)[j]
  {
    CountPermutation(Below(vs[i]), vs, ws);
    CountPermutation(EqualTo(vs[i]), vs, ws);
  }

  lemma {:induction false} CountBelow(vs: seq<real>, u: real, v: real)
    requires u < v
    ensures Count(Below(u), vs) + Count(EqualTo(u), vs) <= Count(Below(v), vs)
    decreases |vs|
  {
    if vs == [] {
    } else {
      CountBelow(vs[..|vs| - 1], u, v);
    }
  }

  lemma {:induction false} CountSelf(vs: seq<real>, i: nat)
    requires i < |vs|
    ensures Count(EqualTo(vs[i]), vs) >= 1
    decreases |vs|
  {
    if i == |vs| - 1 {
    } else {
      CountSelf(vs[..|vs| - 1], i);
    }
  }

  lemma RankIncreases(vs: seq<real>, i: nat, j: nat)
    requires i < |vs| && j < |vs| && vs[i] < vs[j]
    ensures AllRanks(vs)[i] < AllRanks(vs)[j]
  {
    CountBelow(vs, vs[i], vs[j]);
    CountSelf(vs, i);
    CountSelf(vs, j);
  }

  /** Ranks compare exactly as the values do. */
  lemma RanksReflectOrder(vs: seq<real>, i: nat, j: nat)
    requires i < |vs| && j < |vs|
    ensures AllRanks(vs)[i] < AllRanks(vs)[j] <==> vs[i] < vs[j]
  {
    if vs[i] < vs[j] {
      RankIncreases(vs, i, j);
    } else if vs[j] < vs[i] {
      RankIncreases(vs, j, i);
    }
  }

  /** Twice the position of u against vs: two for each smaller value, one for each equal one. */
  function Weight(vs: seq<real>, u: real): nat {
    2 * Count(Below(u), vs) + Count(EqualTo(u), vs)
  }

  function TotalWeight(us: seq<real>, vs: seq<real>): nat {
    if us == [] then 0 else TotalWeight(us[..|us| - 1], vs) + Weight(vs, us[|us| - 1])
  }

  /** Comparing x with every v, both ways, counts two per comparison. */
  lemma {:induction false} OneAgainstAll(x: real, us: seq<real>, vs: seq<real>)
    ensures TotalWeight(vs, us + [x]) + Weight(vs, x) == TotalWeight(vs, us) + 2 * |vs|
    decreases |vs|
  {
    if vs == [] {
    } else {
      var rest, v := vs[..|vs| - 1], vs[|vs| - 1];
      OneAgainstAll(x, us, rest);
      CountConcat(Below(v), us, [x]);
      CountConcat(EqualTo(v), us, [x]);
      assert [x][..0] == [];
    }
  }

  lemma {:induction false} AllPairs(us: seq<real>, vs: seq<real>)
    ensures TotalWeight(us, vs) + TotalWeight(vs, us) == 2 * (|us| * |vs|)
    decreases |us|
  {
    if us == [] {
      EmptyWeight(vs);
    } else {
      var rest, x := us[..|us| - 1], us[|us| - 1];
      AllPairs(rest, vs);
      OneAgainstAll(x, rest, vs);
      assert rest + [x] == us;
      Distribute(|rest|, |vs|);
    }
  }

  lemma Distribute(m: nat, n: nat)
    ensures (m + 1) * n == m * n + n
  {
  }

  lemma {:induction false} EmptyWeight(vs: seq<real>)
    ensures TotalWeight(vs, []) == 0
    decreases |vs|
  {
    if vs == [] {
    } else {
      EmptyWeight(vs[..|vs| - 1]);
    }
  }

  lemma {:induction false} SumOfRanks(us: seq<real>, vs: seq<real>, ranks: seq<real>)
    requires |ranks| == |us| && forall i :: 0 <= i < |us| ==> ranks[i] == RankOf(vs, us[i])
    ensures 2.0 * Sum(ranks) == (TotalWeight(us, vs) + |us|) as real
    decreases |us|
  {
    if us == [] {
    } else {
      var n := |us| - 1;
      SumOfRanks(us[..n], vs, ranks[..n]);
      assert 2.0 * RankOf(vs, us[n]) == Weight(vs, us[n]) as real + 1.0;
    }
  }

  /** However the values tie, their ranks sum to n (n + 1) / 2. */
  lemma RanksSum(vs: seq<real>)
    ensures 2.0 * Sum(AllRanks(vs)) == (|vs| * (|vs| + 1)) as real
  {
    SumOfRanks(vs, vs, AllRanks(vs));
    AllPairs(vs, vs);
  }
}
