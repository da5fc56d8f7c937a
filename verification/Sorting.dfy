/** Python's `sorted` is stable; a stable insertion sort gives the same list. The lemmas below
    are what the callers need: the result is ordered and a permutation, it commutes with
    filtering and mapping, and it is determined by the elements when keys are distinct. */
module Sorting {
  import opened Prelude

  ghost predicate TotalPreorder<T(!new)>(le: (T, T) -> bool) {
    && (forall a, b :: le(a, b) || le(b, a))
    && (forall a, b, c :: le(a, b) && le(b, c) ==> le(a, c))
  }

  ghost predicate Ordered<T>(le: (T, T) -> bool, xs: seq<T>) {
    forall i, j :: 0 <= i < j < |xs| ==> le(xs[i], xs[j])
  }

  /** Elements that compare equal are the same element. */
  ghost predicate KeysDistinct<T>(le: (T, T) -> bool, xs: seq<T>) {
    forall a, b :: a in xs && b in xs && le(a, b) && le(b, a) ==> a == b
  }

  function Insert<T>(le: (T, T) -> bool, x: T, ys: seq<T>): (r: seq<T>)
    ensures multiset(r) == multiset{x} + multiset(ys)
    ensures |r| == |ys| + 1
  {
    if ys == [] then [x]
    else if le(x, ys[0]) then [x] + ys
    else
      assert ys == [ys[0]] + ys[1..];
      [ys[0]] + Insert(le, x, ys[1..])
  }

  function Sort<T>(le: (T, T) -> bool, xs: seq<T>): (r: seq<T>)
    ensures multiset(r) == multiset(xs)
    ensures |r| == |xs|
  {
    if xs == [] then []
    else
      assert xs == [xs[0]] + xs[1..];
      Insert(le, xs[0], Sort(le, xs[1..]))
  }

  lemma {:induction false} SameElements<T>(xs: seq<T>, ys: seq<T>)
    requires multiset(xs) == multiset(ys)
    ensures |xs| == |ys|
    ensures forall x :: x in xs <==> x in ys
  {
    assert |multiset(xs)| == |multiset(ys)|;
    forall x ensures x in xs <==> x in ys {
      assert x in xs <==> x in multiset(xs);
      assert x in ys <==> x in multiset(ys);
    }
  }

  lemma {:induction false} InsertOrdered<T(!new)>(le: (T, T) -> bool, x: T, ys: seq<T>)
    requires TotalPreorder(le) && Ordered(le, ys)
    ensures Ordered(le, Insert(le, x, ys))
    decreases |ys|
  {
    if ys == [] || le(x, ys[0]) {
    } else {
      InsertOrdered(le, x, ys[1..]);
      var r := Insert(le, x, ys[1..]);
      forall y | y in r ensures le(ys[0], y) {
        assert y in multiset(r);
        assert y == x || y in ys[1..];
      }
    }
  }

  lemma {:induction false} SortOrdered<T(!new)>(le: (T, T) -> bool, xs: seq<T>)
    requires TotalPreorder(le)
    ensures Ordered(le, Sort(le, xs))
    decreases |xs|
  {
    if xs == [] {
    } else {
      SortOrdered(le, xs[1..]);
      InsertOrdered(le, xs[0], Sort(le, xs[1..]));
    }
  }

  /** With distinct keys there is only one ordered arrangement of the same elements. */
  lemma {:induction false} OrderedUnique<T(!new)>(le: (T, T) -> bool, xs: seq<T>, ys: seq<T>)
    requires TotalPreorder(le) && Ordered(le, xs) && Ordered(le, ys)
    requires KeysDistinct(le, xs)
    requires multiset(xs) == multiset(ys)
    ensures xs == ys
    decreases |xs|
  {
    SameElements(xs, ys);
    if xs == [] {
    } else {
      SameHead(le, xs, ys);
      TailOfMultiset(xs);
      TailOfMultiset(ys);
      OrderedUnique(le, xs[1..], ys[1..]);
    }
  }

  lemma {:induction false} SameHead<T(!new)>(le: (T, T) -> bool, xs: seq<T>, ys: seq<T>)
    requires TotalPreorder(le) && Ordered(le, xs) && Ordered(le, ys) && KeysDistinct(le, xs)
    requires |xs| > 0 && |ys| > 0 && forall x :: x in xs <==> x in ys
    ensures xs[0] == ys[0]
  {
    assert xs[0] in ys && ys[0] in xs;
    assert le(xs[0], xs[0]) && le(ys[0], ys[0]);
    assert le(xs[0], ys[0]);
    assert le(ys[0], xs[0]);
  }

  lemma {:induction false} TailOfMultiset<T>(xs: seq<T>)
    requires |xs| > 0
    ensures multiset(xs[1..]) == multiset(xs) - multiset{xs[0]}
  {
    assert xs == [xs[0]] + xs[1..];
  }

  /** The sorted list does not depend on the order of the input, keys being distinct. */
  lemma {:induction false} SortPermutation<T(!new)>(le: (T, T) -> bool, xs: seq<T>, ys: seq<T>)
    requires TotalPreorder(le) && KeysDistinct(le, xs)
    requires multiset(xs) == multiset(ys)
    ensures Sort(le, xs) == Sort(le, ys)
  {
    SortOrdered(le, xs);
    SortOrdered(le, ys);
    SameElements(Sort(le, xs), xs);
    OrderedUnique(le, Sort(le, xs), Sort(le, ys));
  }

  /** A list comprehension that drops the elements mapped to None. */
  function FilterMap<A, B>(f: A -> Option<B>, xs: seq<A>): seq<B> {
    if xs == [] then []
    else if f(xs[0]).Some? then [f(xs[0]).value] + FilterMap(f, xs[1..])
    else FilterMap(f, xs[1..])
  }

  lemma {:induction false} FilterMapMember<A, B>(f: A -> Option<B>, xs: seq<A>, b: B)
    ensures b in FilterMap(f, xs) <==> exists a :: a in xs && f(a) == Some(b)
    decreases |xs|
  {
    if xs == [] {
    } else {
      FilterMapMember(f, xs[1..], b);
      assert xs == [xs[0]] + xs[1..];
      if b in FilterMap(f, xs) {
        if f(xs[0]) == Some(b) {
          assert xs[0] in xs;
        } else {
          var a :| a in xs[1..] && f(a) == Some(b);
          assert a in xs;
        }
      }
      if a :| a in xs && f(a) == Some(b) {
        assert a == xs[0] || a in xs[1..];
      }
    }
  }

  lemma {:induction false} FilterMapConcat<A, B>(f: A -> Option<B>, xs: seq<A>, ys: seq<A>)
    ensures FilterMap(f, xs + ys) == FilterMap(f, xs) + FilterMap(f, ys)
    decreases |xs|
  {
    if xs == [] {
      assert xs + ys == ys;
    } else {
      FilterMapConcat(f, xs[1..], ys);
      var head := if f(xs[0]).Some? then [f(xs[0]).value] else [];
      assert (xs + ys)[0] == xs[0] && (xs + ys)[1..] == xs[1..] + ys;
      assert (head + FilterMap(f, xs[1..])) + FilterMap(f, ys) == head + (FilterMap(f, xs[1..]) + FilterMap(f, ys));
    }
  }

  /** Equal results for corresponding elements give equal lists. */
  lemma {:induction false} FilterMapCongruence<A, C, B>(f: A -> Option<B>, g: C -> Option<B>,
                                                         xs: seq<A>, ys: seq<C>)
    requires |xs| == |ys|
    requires forall i :: 0 <= i < |xs| ==> f(xs[i]) == g(ys[i])
    ensures FilterMap(f, xs) == FilterMap(g, ys)
    decreases |xs|
  {
    if xs == [] {
    } else {
      FilterMapCongruence(f, g, xs[1..], ys[1..]);
    }
  }

  lemma {:induction false} FilterMapCompose<A, B, C>(f: A -> Option<B>, g: B -> Option<C>,
                                                     h: A -> Option<C>, xs: seq<A>)
    requires forall a :: a in xs ==> h(a) == (if f(a).Some? then g(f(a).value) else None)
    ensures FilterMap(h, xs) == FilterMap(g, FilterMap(f, xs))
    decreases |xs|
  {
    if xs == [] {
    } else {
      assert xs[0] in xs;
      FilterMapCompose(f, g, h, xs[1..]);
      FilterMapConcat(g, if f(xs[0]).Some? then [f(xs[0]).value] else [], FilterMap(f, xs[1..]));
    }
  }

  lemma {:induction false} FilterMapMultiset<A, B>(f: A -> Option<B>, xs: seq<A>, ys: seq<A>)
    requires multiset(xs) == multiset(ys)
    ensures multiset(FilterMap(f, xs)) == multiset(FilterMap(f, ys))
    decreases |xs|
  {
    if xs == [] {
    } else {
      SameElements(xs, ys);
      var i := Locate(ys, xs[0]);
      TailOfMultiset(xs);
      FilterMapMultiset(f, xs[1..], ys[..i] + ys[i + 1..]);
      FilterMapWithout(f, ys[..i], xs[0], ys[i + 1..]);
    }
  }

  lemma {:induction false} FilterMapWithout<A, B>(f: A -> Option<B>, before: seq<A>, x: A, after: seq<A>)
    ensures multiset(FilterMap(f, before + ([x] + after))) ==
            (if f(x).Some? then multiset{f(x).value} else multiset{}) + multiset(FilterMap(f, before + after))
  {
    FilterMapCons(f, x, after);
    FilterMapConcat(f, before, [x] + after);
    FilterMapConcat(f, before, after);
  }

  lemma {:induction false} FilterMapCons<A, B>(f: A -> Option<B>, x: A, xs: seq<A>)
    ensures FilterMap(f, [x] + xs) == if f(x).Some? then [f(x).value] + FilterMap(f, xs) else FilterMap(f, xs)
  {
    assert ([x] + xs)[0] == x && ([x] + xs)[1..] == xs;
  }

  /** A map that drops nothing keeps every place. */
  lemma {:induction false} FilterMapTotal<A, B>(f: A -> Option<B>, xs: seq<A>)
    requires forall x :: x in xs ==> f(x).Some?
    ensures |FilterMap(f, xs)| == |xs|
    ensures forall i :: 0 <= i < |xs| ==> f(xs[i]) == Some(FilterMap(f, xs)[i])
    decreases |xs|
  {
    if xs == [] {
    } else {
      assert xs[0] in xs;
      FilterMapTotal(f, xs[1..]);
    }
  }

  lemma {:induction false} FilterMapSameLength<A, B, C>(f: A -> Option<B>, g: A -> Option<C>, xs: seq<A>)
    requires forall x :: x in xs ==> (f(x).Some? <==> g(x).Some?)
    ensures |FilterMap(f, xs)| == |FilterMap(g, xs)|
    decreases |xs|
  {
    if xs == [] {
    } else {
      assert xs[0] in xs;
      FilterMapSameLength(f, g, xs[1..]);
    }
  }

  lemma {:induction false} FilterMapShorter<A, B>(f: A -> Option<B>, xs: seq<A>)
    ensures |FilterMap(f, xs)| <= |xs|
    decreases |xs|
  {
    if xs == [] {
    } else {
      FilterMapShorter(f, xs[1..]);
    }
  }

  /** A list keeps its length exactly when nothing is dropped. */
  lemma {:induction false} FilterMapComplete<A, B>(f: A -> Option<B>, xs: seq<A>)
    ensures |FilterMap(f, xs)| == |xs| <==> forall x :: x in xs ==> f(x).Some?
    decreases |xs|
  {
    if xs == [] {
    } else {
      FilterMapComplete(f, xs[1..]);
      FilterMapShorter(f, xs[1..]);
      assert xs == [xs[0]] + xs[1..];
    }
  }

  /** A place where x occurs; without it the multiset loses one x. */
  lemma {:induction false} Locate<T>(ys: seq<T>, x: T) returns (i: nat)
    requires x in ys
    ensures i < |ys| && ys[i] == x && ys == ys[..i] + ([x] + ys[i + 1..])
    ensures multiset(ys[..i] + ys[i + 1..]) == multiset(ys) - multiset{x}
  {
    i :| 0 <= i < |ys| && ys[i] == x;
    assert ys == ys[..i] + ([x] + ys[i + 1..]);
  }

  /** Dropping and mapping elements keeps the order when the map is monotone. */
  lemma {:induction false} FilterMapOrdered<A(!new), B(!new)>(f: A -> Option<B>, le: (A, A) -> bool,
                                                  le': (B, B) -> bool, xs: seq<A>)
    requires Ordered(le, xs)
    requires forall a, b :: a in xs && b in xs && f(a).Some? && f(b).Some? && le(a, b)
               ==> le'(f(a).value, f(b).value)
    ensures Ordered(le', FilterMap(f, xs))
    decreases |xs|
  {
    if xs == [] {
    } else {
      FilterMapOrdered(f, le, le', xs[1..]);
      if f(xs[0]).Some? {
        var rest := FilterMap(f, xs[1..]);
        forall i | 0 <= i < |rest| ensures le'(f(xs[0]).value, rest[i]) {
          assert rest[i] in rest;
          FilterMapMember(f, xs[1..], rest[i]);
          var a :| a in xs[1..] && f(a) == Some(rest[i]);
          assert a in xs && xs[0] in xs;
          var k :| 0 <= k < |xs[1..]| && xs[1..][k] == a;
          assert le(xs[0], xs[k + 1]);
        }
      }
    }
  }

  ghost predicate Related<A, B>(rel: (A, B) -> bool, xs: seq<A>, ys: seq<B>) {
    |xs| == |ys| && forall i :: 0 <= i < |xs| ==> rel(xs[i], ys[i])
  }

  ghost predicate SameKeys<A(!new), B(!new)>(le: (A, A) -> bool, le': (B, B) -> bool, rel: (A, B) -> bool) {
    forall a, b, a', b' {:trigger rel(a, a'), rel(b, b')} :: rel(a, a') && rel(b, b') ==> le(a, b) == le'(a', b')
  }

  lemma {:induction false} InsertRelated<A(!new), B(!new)>(le: (A, A) -> bool, le': (B, B) -> bool, rel: (A, B) -> bool,
                                               x: A, y: B, xs: seq<A>, ys: seq<B>)
    requires SameKeys(le, le', rel) && rel(x, y) && Related(rel, xs, ys)
    ensures Related(rel, Insert(le, x, xs), Insert(le', y, ys))
    decreases |xs|
  {
    if xs == [] {
    } else {
      assert rel(xs[0], ys[0]);
      assert le(x, xs[0]) == le'(y, ys[0]);
      if !le(x, xs[0]) {
        TailRelated(rel, xs, ys);
        InsertRelated(le, le', rel, x, y, xs[1..], ys[1..]);
        ConsRelated(rel, xs[0], ys[0], Insert(le, x, xs[1..]), Insert(le', y, ys[1..]));
      } else {
        ConsRelated(rel, x, y, xs, ys);
      }
    }
  }

  lemma {:induction false} ConsRelated<A, B>(rel: (A, B) -> bool, x: A, y: B, xs: seq<A>, ys: seq<B>)
    requires rel(x, y) && Related(rel, xs, ys)
    ensures Related(rel, [x] + xs, [y] + ys)
  {
  }

  lemma {:induction false} TailRelated<A, B>(rel: (A, B) -> bool, xs: seq<A>, ys: seq<B>)
    requires |xs| > 0 && Related(rel, xs, ys)
    ensures Related(rel, xs[1..], ys[1..])
  {
  }

  /** Lists that correspond element by element under a relation that respects the keys
      are sorted into lists that correspond element by element. */
  lemma {:induction false} SortRelated<A(!new), B(!new)>(le: (A, A) -> bool, le': (B, B) -> bool,
                                             rel: (A, B) -> bool, xs: seq<A>, ys: seq<B>)
    requires SameKeys(le, le', rel) && Related(rel, xs, ys)
    ensures Related(rel, Sort(le, xs), Sort(le', ys))
    decreases |xs|
  {
    if xs == [] {
    } else {
      SortRelated(le, le', rel, xs[1..], ys[1..]);
      InsertRelated(le, le', rel, xs[0], ys[0], Sort(le, xs[1..]), Sort(le', ys[1..]));
    }
  }

  // ---------------------------------------------------------------- distinct keys

  ghost predicate DistinctBy<T>(key: T -> int, xs: seq<T>) {
    forall i, j :: 0 <= i < j < |xs| ==> key(xs[i]) != key(xs[j])
  }

  /** Any two elements at different places stand in the relation. */
  ghost predicate Pairwise<T>(apart: (T, T) -> bool, xs: seq<T>) {
    forall i, j :: 0 <= i < |xs| && 0 <= j < |xs| && i != j ==> apart(xs[i], xs[j])
  }

  lemma {:induction false} PairwiseMultiplicity<T>(apart: (T, T) -> bool, xs: seq<T>, x: T)
    requires Pairwise(apart, xs) && !apart(x, x)
    ensures multiset(xs)[x] <= 1
    decreases |xs|
  {
    if xs == [] {
    } else {
      PairwiseMultiplicity(apart, xs[1..], x);
      assert xs == [xs[0]] + xs[1..];
      assert x == xs[0] ==> x !in multiset(xs[1..]);
    }
  }

  lemma {:induction false} DuplicateMultiplicity<T>(ys: seq<T>, i: nat, j: nat)
    requires i < j < |ys| && ys[i] == ys[j]
    ensures multiset(ys)[ys[i]] >= 2
  {
    assert ys == ys[..i] + [ys[i]] + ys[i + 1..j] + [ys[j]] + ys[j + 1..];
  }

  /** The order of the list does not matter. */
  lemma {:induction false} PairwisePermutation<T>(apart: (T, T) -> bool, xs: seq<T>, ys: seq<T>)
    requires Pairwise(apart, xs) && multiset(xs) == multiset(ys)
    ensures Pairwise(apart, ys)
  {
    SameElements(xs, ys);
    forall i, j | 0 <= i < |ys| && 0 <= j < |ys| && i != j ensures apart(ys[i], ys[j]) {
      assert ys[i] in xs && ys[j] in xs;
      if ys[i] == ys[j] && !apart(ys[i], ys[i]) {
        DuplicateMultiplicity(ys, if i < j then i else j, if i < j then j else i);
        PairwiseMultiplicity(apart, xs, ys[i]);
      }
    }
  }

  function KeyApart<T>(key: T -> int): (T, T) -> bool {
    (a, b) => key(a) != key(b)
  }

  lemma {:induction false} DistinctPermutation<T>(key: T -> int, xs: seq<T>, ys: seq<T>)
    requires DistinctBy(key, xs) && multiset(xs) == multiset(ys)
    ensures DistinctBy(key, ys)
  {
    forall i, j | 0 <= i < |xs| && 0 <= j < |xs| && i != j ensures key(xs[i]) != key(xs[j]) {
      assert i < j || j < i;
    }
    PairwisePermutation(KeyApart(key), xs, ys);
    forall i, j | 0 <= i < j < |ys| ensures key(ys[i]) != key(ys[j]) {
      assert KeyApart(key)(ys[i], ys[j]);
    }
  }

  lemma {:induction false} DistinctFilterMap<A, B>(f: A -> Option<B>, key: A -> int, key': B -> int, xs: seq<A>)
    requires DistinctBy(key, xs)
    requires forall a :: a in xs && f(a).Some? ==> key'(f(a).value) == key(a)
    ensures DistinctBy(key', FilterMap(f, xs))
    decreases |xs|
  {
    if xs == [] {
    } else {
      DistinctFilterMap(f, key, key', xs[1..]);
      var rest := FilterMap(f, xs[1..]);
      forall i | 0 <= i < |rest| && f(xs[0]).Some? ensures key'(rest[i]) != key'(f(xs[0]).value) {
        assert rest[i] in rest;
        FilterMapMember(f, xs[1..], rest[i]);
        var a :| a in xs[1..] && f(a) == Some(rest[i]);
        assert a in xs && xs[0] in xs;
      }
    }
  }
}
