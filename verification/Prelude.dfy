/** Small value types and sequence functions shared by the other modules. */
module Prelude {

  datatype Option<+T> = None | Some(value: T)

  datatype Result<+T, +E> = Ok(value: T) | Err(error: E)

  function MaxReal(a: real, b: real): (m: real)
    ensures m >= a && m >= b && (m == a || m == b)
  {
    if a >= b then a else b
  }

  function MinReal(a: real, b: real): (m: real)
    ensures m <= a && m <= b && (m == a || m == b)
  {
    if a <= b then a else b
  }

  function AbsReal(a: real): real {
    if a < 0.0 then -a else a
  }

  function MinInt(a: int, b: int): int {
    if a <= b then a else b
  }

  /** Python's max of a nonempty list. */
  function MaxOf(xs: seq<real>): (m: real)
    requires |xs| > 0
    ensures m in xs
    ensures forall x :: x in xs ==> x <= m
  {
    if |xs| == 1 then xs[0]
    else
      assert xs == xs[..|xs| - 1] + [xs[|xs| - 1]];
      MaxReal(MaxOf(xs[..|xs| - 1]), xs[|xs| - 1])
  }

  /** Python's min of a nonempty list. */
  function MinOf(xs: seq<real>): (m: real)
    requires |xs| > 0
    ensures m in xs
    ensures forall x :: x in xs ==> m <= x
  {
    if |xs| == 1 then xs[0]
    else
      assert xs == xs[..|xs| - 1] + [xs[|xs| - 1]];
      MinReal(MinOf(xs[..|xs| - 1]), xs[|xs| - 1])
  }

  /** A product as a name: lemmas can then speak of it without the solver multiplying it out. */
  function Product(a: real, b: real): real { a * b }

  function Sum(xs: seq<real>): real {
    if xs == [] then 0.0 else Sum(xs[..|xs| - 1]) + xs[|xs| - 1]
  }

  lemma {:induction false} SumPositive(xs: seq<real>)
    requires |xs| > 0
    requires forall i :: 0 <= i < |xs| ==> xs[i] > 0.0
    ensures Sum(xs) > 0.0
  {
    if |xs| == 1 {
    } else {
      SumPositive(xs[..|xs| - 1]);
    }
  }

  /** The number of elements for which p holds. */
  function Tally<T>(xs: seq<T>, p: T -> bool): nat {
    if xs == [] then 0 else Tally(xs[1..], p) + if p(xs[0]) then 1 else 0
  }

  predicate StrictlyIncreasing(xs: seq<int>) {
    forall i, j :: 0 <= i < j < |xs| ==> xs[i] < xs[j]
  }

  function Least(s: set<int>): (x: int)
    requires s != {}
    ensures x in s && forall y :: y in s ==> x <= y
  {
    LeastExists(s);
    var x :| x in s && forall y :: y in s ==> x <= y;
    x
  }

  lemma Pick<T>(s: set<T>) returns (x: T)
    requires s != {}
    ensures x in s
  {
    x :| x in s;
  }

  lemma {:induction false} LeastExists(s: set<int>)
    requires s != {}
    ensures exists x :: x in s && forall y :: y in s ==> x <= y
    decreases |s|
  {
    var x := Pick(s);
    if s != {x} {
      LeastExists(s - {x});
      var m :| m in s - {x} && forall y :: y in s - {x} ==> m <= y;
      assert s == (s - {x}) + {x};
      var least := if x < m then x else m;
      assert least in s && forall y :: y in s ==> least <= y;
    } else {
      assert forall y :: y in s ==> x <= y;
    }
  }

  lemma ConsAscending(s: set<int>, x: int, rest: seq<int>)
    requires x in s && forall y :: y in s ==> x <= y
    requires StrictlyIncreasing(rest) && forall y :: y in rest <==> y in s - {x}
    ensures StrictlyIncreasing([x] + rest)
    ensures forall y :: y in [x] + rest <==> y in s
  {
    forall i | 0 <= i < |rest| ensures x < rest[i] {
      assert rest[i] in rest;
    }
    forall y ensures y in [x] + rest <==> y in s {
      assert y in [x] + rest <==> y == x || y in rest;
    }
  }

  /** The elements of a set of dates in increasing order: Python's `sorted({...})`. */
  function Ascending(s: set<int>): (xs: seq<int>)
    ensures StrictlyIncreasing(xs)
    ensures forall x :: x in xs <==> x in s
    decreases |s|
  {
    if s == {} then []
    else
      var x := Least(s);
      var rest := Ascending(s - {x});
      ConsAscending(s, x, rest);
      [x] + rest
  }

  /** An increasing sequence is determined by its elements. */
  lemma {:induction false} AscendingUnique(xs: seq<int>, ys: seq<int>)
    requires StrictlyIncreasing(xs) && StrictlyIncreasing(ys)
    requires forall x :: x in xs <==> x in ys
    ensures xs == ys
    decreases |xs|
  {
    if xs == [] {
      assert forall i :: 0 <= i < |ys| ==> ys[i] in xs;
    } else {
      assert xs[0] in ys && ys != [];
      assert ys[0] in xs;
      assert xs[0] == ys[0];
      forall x ensures x in xs[1..] <==> x in ys[1..] {
        if x in xs[1..] { assert x in xs && x != xs[0]; assert x in ys; }
        if x in ys[1..] { assert x in ys && x != ys[0]; assert x in xs; }
      }
      AscendingUnique(xs[1..], ys[1..]);
    }
  }

  /** Position of the first occurrence: Python's `list.index`. */
  function IndexOf(xs: seq<int>, x: int): (i: nat)
    requires x in xs
    ensures i < |xs| && xs[i] == x
    ensures forall j :: 0 <= j < i ==> xs[j] != x
  {
    if xs[0] == x then 0 else 1 + IndexOf(xs[1..], x)
  }

  /** The n-th date after d in a calendar, or its last date. */
  function NthDate(ds: seq<int>, d: int, n: nat): (r: int)
    requires d in ds
    ensures r in ds
  {
    ds[MinInt(IndexOf(ds, d) + n, |ds| - 1)]
  }
}
