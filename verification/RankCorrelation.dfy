/** The correlation of two lists and of their ranks. The square root is a parameter: the code uses
    it only to scale the result, and to find out whether its argument is zero. */
module RankCorrelation {
  import opened Prelude
  import opened TiedRanks

  function Mean(xs: seq<real>): real
    requires xs != []
  {
    Sum(xs) / |xs| as real
  }

  /** The sum of the products of the distances from x and from y. */
  function Products(xs: seq<real>, x: real, ys: seq<real>, y: real): real
    requires |xs| == |ys|
  {
    if xs == [] then 0.0
    else
      var n := |xs| - 1;
      Products(xs[..n], x, ys[..n], y) + Product(xs[n] - x, ys[n] - y)
  }

  function Squares(xs: seq<real>, x: real): real { Products(xs, x, xs, x) }

  ghost predicate IsRoot(root: real -> real) {
    forall x :: x >= 0.0 ==> root(x) >= 0.0 && Product(root(x), root(x)) == x
  }

  function Pearson(root: real -> real, xs: seq<real>, ys: seq<real>): Option<real>
    requires |xs| == |ys| > 0
  {
    var denominator := root(Product(Squares(xs, Mean(xs)), Squares(ys, Mean(ys))));
    if denominator == 0.0 then None else Some(Products(xs, Mean(xs), ys, Mean(ys)) / denominator)
  }

  function Spearman(root: real -> real, xs: seq<real>, ys: seq<real>): Option<real> {
    if |xs| != |ys| || |xs| < 2 then None else Pearson(root, AllRanks(xs), AllRanks(ys))
  }

  // ---------------------------------------------------------------- when it is defined

  ghost predicate AllTie(xs: seq<real>) {
    forall i, j :: 0 <= i < j < |xs| ==> xs[i] == xs[j]
  }

  lemma PositiveTimes(a: real, b: real)
    requires a > 0.0 && b > 0.0
    ensures Product(a, b) > 0.0
  {
  }

  lemma SquareSign(a: real)
    ensures Product(a, a) >= 0.0
    ensures Product(a, a) == 0.0 <==> a == 0.0
  {
    if a > 0.0 {
      PositiveTimes(a, a);
    } else if a < 0.0 {
      PositiveTimes(-a, -a);
    }
  }

  lemma ProductIsZero(a: real, b: real)
    ensures Product(a, b) == 0.0 <==> a == 0.0 || b == 0.0
    ensures a >= 0.0 && b >= 0.0 ==> Product(a, b) >= 0.0
  {
  }

  lemma {:induction false} SquaresVanish(xs: seq<real>, x: real)
    ensures Squares(xs, x) >= 0.0
    ensures Squares(xs, x) == 0.0 <==> forall i :: 0 <= i < |xs| ==> xs[i] == x
    decreases |xs|
  {
    if xs == [] {
    } else {
      var n := |xs| - 1;
      SquaresVanish(xs[..n], x);
      SquareSign(xs[n] - x);
      assert (forall i :: 0 <= i < |xs| ==> xs[i] == x) <==>
             xs[n] == x && forall i :: 0 <= i < n ==> xs[..n][i] == x;
    }
  }

  lemma {:induction false} SumOfTies(xs: seq<real>, c: real)
    requires forall i :: 0 <= i < |xs| ==> xs[i] == c
    ensures Sum(xs) == Product(|xs| as real, c)
    decreases |xs|
  {
    if xs == [] {
    } else {
      SumOfTies(xs[..|xs| - 1], c);
    }
  }

  lemma MeanOfTies(xs: seq<real>, c: real)
    requires xs != [] && forall i :: 0 <= i < |xs| ==> xs[i] == c
    ensures Mean(xs) == c
  {
    SumOfTies(xs, c);
  }

  /** The centred squares vanish exactly when all values tie. */
  lemma {:induction false} NoSpread(xs: seq<real>)
    requires xs != []
    ensures Squares(xs, Mean(xs)) >= 0.0
    ensures Squares(xs, Mean(xs)) == 0.0 <==> AllTie(xs)
  {
    SquaresVanish(xs, Mean(xs));
    if AllTie(xs) {
      MeanOfTies(xs, xs[0]);
    }
  }

  lemma RootIsZero(root: real -> real, x: real)
    requires IsRoot(root) && x >= 0.0
    ensures root(x) == 0.0 <==> x == 0.0
  {
    SquareSign(root(x));
  }

  /** The correlation is undefined exactly when one of the lists is constant. */
  lemma PearsonUndefined(root: real -> real, xs: seq<real>, ys: seq<real>)
    requires IsRoot(root) && |xs| == |ys| > 0
    ensures Pearson(root, xs, ys).None? <==> AllTie(xs) || AllTie(ys)
  {
    NoSpread(xs);
    NoSpread(ys);
    var a, b := Squares(xs, Mean(xs)), Squares(ys, Mean(ys));
    ProductIsZero(a, b);
    RootIsZero(root, Product(a, b));
  }

  lemma RanksTie(vs: seq<real>)
    ensures AllTie(AllRanks(vs)) <==> AllTie(vs)
  {
    forall i, j | 0 <= i < j < |vs| ensures AllRanks(vs)[i] == AllRanks(vs)[j] <==> vs[i] == vs[j] {
      RanksReflectOrder(vs, i, j);
      RanksReflectOrder(vs, j, i);
    }
  }

  /** The rank correlation is undefined exactly for fewer than two pairs or when all values of one
      side tie. */
  lemma SpearmanUndefined(root: real -> real, xs: seq<real>, ys: seq<real>)
    requires IsRoot(root)
    ensures Spearman(root, xs, ys).None? <==> |xs| != |ys| || |xs| < 2 || AllTie(xs) || AllTie(ys)
  {
    if |xs| == |ys| && |xs| >= 2 {
      PearsonUndefined(root, AllRanks(xs), AllRanks(ys));
      RanksTie(xs);
      RanksTie(ys);
    }
  }

  // ---------------------------------------------------------------- its range

  /** The squared distances of x - t * y, expanded. */
  function Residual(a: real, p: real, b: real, t: real): real {
    a - 2.0 * Product(t, p) + Product(Product(t, t), b)
  }

  lemma ResidualStep(a: real, p: real, b: real, t: real, u: real, v: real)
    ensures Residual(a + Product(u, u), p + Product(u, v), b + Product(v, v), t)
         == Residual(a, p, b, t) + Product(u - Product(t, v), u - Product(t, v))
  {
  }

  lemma {:induction false} ResidualNonNegative(xs: seq<real>, x: real, ys: seq<real>, y: real, t: real)
    requires |xs| == |ys|
    ensures Residual(Squares(xs, x), Products(xs, x, ys, y), Squares(ys, y), t) >= 0.0
    decreases |xs|
  {
    if xs == [] {
    } else {
      var n := |xs| - 1;
      ResidualNonNegative(xs[..n], x, ys[..n], y, t);
      var u, v := xs[n] - x, ys[n] - y;
      ResidualStep(Squares(xs[..n], x), Products(xs[..n], x, ys[..n], y), Squares(ys[..n], y), t, u, v);
      SquareSign(u - Product(t, v));
    }
  }

  lemma BestResidual(a: real, p: real, b: real)
    requires b > 0.0 && Residual(a, p, b, p / b) >= 0.0
    ensures Product(p, p) <= Product(a, b)
  {
    var t := p / b;
    assert Product(t, b) == p;
    assert Product(Product(t, t), b) == Product(t, p);
    assert Residual(a, p, b, t) == a - Product(t, p);
    assert Product(a - Product(t, p), b) >= 0.0;
    assert Product(a - Product(t, p), b) == Product(a, b) - Product(Product(t, p), b);
    assert Product(Product(t, p), b) == Product(p, p);
  }

  lemma SquareGrows(p: real, d: real)
    requires p > d > 0.0
    ensures Product(p, p) > Product(d, d)
  {
  }

  lemma QuotientInRange(p: real, d: real)
    requires d > 0.0 && Product(p, p) <= Product(d, d)
    ensures -1.0 <= p / d <= 1.0
  {
    if p > d {
      SquareGrows(p, d);
    } else if -p > d {
      SquareGrows(-p, d);
    }
    var q := p / d;
    assert q * d == p;
  }

  /** A defined correlation lies between -1 and 1. */
  lemma PearsonInRange(root: real -> real, xs: seq<real>, ys: seq<real>)
    requires IsRoot(root) && |xs| == |ys| > 0 && Pearson(root, xs, ys).Some?
    ensures -1.0 <= Pearson(root, xs, ys).value <= 1.0
  {
    NoSpread(xs);
    NoSpread(ys);
    PearsonUndefined(root, xs, ys);
    var a, b := Squares(xs, Mean(xs)), Squares(ys, Mean(ys));
    var p := Products(xs, Mean(xs), ys, Mean(ys));
    ProductIsZero(a, b);
    ResidualNonNegative(xs, Mean(xs), ys, Mean(ys), p / b);
    BestResidual(a, p, b);
    QuotientInRange(p, root(Product(a, b)));
  }

  // ---------------------------------------------------------------- when it is one or minus one

  ghost predicate SameOrder(xs: seq<real>, ys: seq<real>) {
    |xs| == |ys| && forall i, j :: 0 <= i < |xs| && 0 <= j < |xs| ==> (xs[i] < xs[j] <==> ys[i] < ys[j])
  }

  ghost predicate OppositeOrder(xs: seq<real>, ys: seq<real>) {
    |xs| == |ys| && forall i, j :: 0 <= i < |xs| && 0 <= j < |xs| ==> (xs[i] < xs[j] <==> ys[j] < ys[i])
  }

  /** The distances from x are t times the distances from y. */
  ghost predicate Proportional(xs: seq<real>, x: real, ys: seq<real>, y: real, t: real) {
    |xs| == |ys| && forall i :: 0 <= i < |xs| ==> xs[i] - x == Product(t, ys[i] - y)
  }

  lemma {:induction false} NoResidual(xs: seq<real>, x: real, ys: seq<real>, y: real, t: real)
    requires |xs| == |ys|
    requires Residual(Squares(xs, x), Products(xs, x, ys, y), Squares(ys, y), t) == 0.0
    ensures Proportional(xs, x, ys, y, t)
    decreases |xs|
  {
    if xs == [] {
    } else {
      var n := |xs| - 1;
      var u, v := xs[n] - x, ys[n] - y;
      ResidualNonNegative(xs[..n], x, ys[..n], y, t);
      ResidualStep(Squares(xs[..n], x), Products(xs[..n], x, ys[..n], y), Squares(ys[..n], y), t, u, v);
      SquareSign(u - Product(t, v));
      NoResidual(xs[..n], x, ys[..n], y, t);
      forall i | 0 <= i < |xs| ensures xs[i] - x == Product(t, ys[i] - y) {
        assert i < n ==> xs[..n][i] - x == Product(t, ys[..n][i] - y);
      }
    }
  }

  /** A product of full size leaves no residual. */
  lemma FullProduct(a: real, p: real, b: real)
    requires b > 0.0 && Product(p, p) == Product(a, b)
    ensures Residual(a, p, b, p / b) == 0.0
  {
    var t := p / b;
    assert Product(t, b) == p;
    assert Product(Product(t, t), b) == Product(t, p);
    assert Product(Product(t, p), b) == Product(p, p);
    CancelFactor(a, Product(t, p), b);
  }

  lemma CancelFactor(x: real, y: real, b: real)
    requires b > 0.0 && Product(x, b) == Product(y, b)
    ensures x == y
  {
  }

  lemma ScaledOrder(t: real, u: real, v: real)
    ensures t > 0.0 ==> (Product(t, u) < Product(t, v) <==> u < v)
    ensures t < 0.0 ==> (Product(t, u) < Product(t, v) <==> v < u)
  {
  }

  lemma {:induction false} ProportionalOrder(xs: seq<real>, x: real, ys: seq<real>, y: real, t: real)
    requires Proportional(xs, x, ys, y, t) && t != 0.0
    ensures t > 0.0 ==> SameOrder(xs, ys)
    ensures t < 0.0 ==> OppositeOrder(xs, ys)
  {
    forall i, j | 0 <= i < |xs| && 0 <= j < |xs|
      ensures t > 0.0 ==> (xs[i] < xs[j] <==> ys[i] < ys[j])
      ensures t < 0.0 ==> (xs[i] < xs[j] <==> ys[j] < ys[i])
    {
      ScaledOrder(t, ys[i] - y, ys[j] - y);
    }
  }

  lemma SameSize(r: real, q: real, d: real)
    requires d > 0.0 && q / d == r && (r == 1.0 || r == -1.0)
    ensures Product(q, q) == Product(d, d) && q == r * d
  {
    assert q == r * d;
  }

  /** A quotient of plus or minus one leaves no residual at a factor of its sign. */
  lemma FullQuotient(a: real, p: real, b: real, d: real)
    requires b > 0.0 && d > 0.0 && Product(d, d) == Product(a, b) && (p / d == 1.0 || p / d == -1.0)
    ensures Residual(a, p, b, p / b) == 0.0
    ensures p / d == 1.0 ==> p / b > 0.0
    ensures p / d == -1.0 ==> p / b < 0.0
  {
    SameSize(p / d, p, d);
    FullProduct(a, p, b);
  }

  /** A correlation of one means the same order, one of minus one the opposite order. */
  lemma {:induction false} FullCorrelation(root: real -> real, xs: seq<real>, ys: seq<real>)
    requires IsRoot(root) && |xs| == |ys| > 0
    ensures Pearson(root, xs, ys) == Some(1.0) ==> SameOrder(xs, ys)
    ensures Pearson(root, xs, ys) == Some(-1.0) ==> OppositeOrder(xs, ys)
  {
    var r := Pearson(root, xs, ys);
    if r == Some(1.0) || r == Some(-1.0) {
      var a, b := Squares(xs, Mean(xs)), Squares(ys, Mean(ys));
      var p := Products(xs, Mean(xs), ys, Mean(ys));
      NoSpread(xs);
      NoSpread(ys);
      PearsonUndefined(root, xs, ys);
      ProductIsZero(a, b);
      FullQuotient(a, p, b, root(Product(a, b)));
      NoResidual(xs, Mean(xs), ys, Mean(ys), p / b);
      ProportionalOrder(xs, Mean(xs), ys, Mean(ys), p / b);
    }
  }

  lemma RootOfSquare(root: real -> real, a: real)
    requires IsRoot(root) && a >= 0.0
    ensures root(Product(a, a)) == a
  {
    var r := root(Product(a, a));
    SquareSign(a);
    SquareSign(r);
    if 0.0 < r < a {
      SquareGrows(a, r);
    } else if 0.0 < a < r {
      SquareGrows(r, a);
    }
  }

  /** The products of a list with its mirror image are its squares, with the sign turned. */
  lemma {:induction false} MirroredProducts(xs: seq<real>, x: real, ys: seq<real>, c: real)
    requires |xs| == |ys| && forall i :: 0 <= i < |xs| ==> ys[i] == c - xs[i]
    ensures Products(xs, x, ys, c - x) == -Squares(xs, x)
    ensures Squares(ys, c - x) == Squares(xs, x)
    ensures Sum(ys) == Product(|xs| as real, c) - Sum(xs)
    decreases |xs|
  {
    if xs == [] {
    } else {
      var n := |xs| - 1;
      MirroredProducts(xs[..n], x, ys[..n], c);
      Mirrored(xs[n] - x);
      assert ys[n] - (c - x) == -(xs[n] - x);
      OneMore(n as real, c);
    }
  }

  lemma Mirrored(u: real)
    ensures Product(u, -u) == -Product(u, u) && Product(-u, -u) == Product(u, u)
  {
  }

  lemma OneMore(n: real, c: real)
    ensures Product(n + 1.0, c) == Product(n, c) + c
  {
  }

  lemma MirroredMean(xs: seq<real>, ys: seq<real>, c: real)
    requires |xs| == |ys| > 0 && forall i :: 0 <= i < |xs| ==> ys[i] == c - xs[i]
    ensures Mean(ys) == c - Mean(xs)
  {
    MirroredProducts(xs, 0.0, ys, c);
    SplitMean(|xs| as real, c, Sum(xs));
  }

  lemma SplitMean(n: real, c: real, total: real)
    requires n > 0.0
    ensures (Product(n, c) - total) / n == c - total / n
  {
  }

  lemma OwnQuotient(a: real)
    requires a > 0.0
    ensures a / a == 1.0 && -a / a == -1.0
  {
  }

  lemma WithItself(root: real -> real, xs: seq<real>)
    requires IsRoot(root) && xs != [] && !AllTie(xs)
    ensures Pearson(root, xs, xs) == Some(1.0)
  {
    NoSpread(xs);
    RootOfSquare(root, Squares(xs, Mean(xs)));
    OwnQuotient(Squares(xs, Mean(xs)));
  }

  lemma WithItsMirror(root: real -> real, xs: seq<real>, ys: seq<real>, c: real)
    requires IsRoot(root) && xs != [] && !AllTie(xs)
    requires |xs| == |ys| && forall i :: 0 <= i < |xs| ==> ys[i] == c - xs[i]
    ensures Pearson(root, xs, ys) == Some(-1.0)
  {
    NoSpread(xs);
    RootOfSquare(root, Squares(xs, Mean(xs)));
    OwnQuotient(Squares(xs, Mean(xs)));
    MirroredMean(xs, ys, c);
    MirroredProducts(xs, Mean(xs), ys, c);
  }

  // ---------------------------------------------------------------- ranks of the same and of the opposite order

  lemma {:induction false} CountsFollowOrder(xs: seq<real>, ys: seq<real>, i: nat, k: nat)
    requires SameOrder(xs, ys) && i < |xs| && k <= |xs|
    ensures Count(Below(xs[i]), xs[..k]) == Count(Below(ys[i]), ys[..k])
    ensures Count(EqualTo(xs[i]), xs[..k]) == Count(EqualTo(ys[i]), ys[..k])
    decreases k
  {
    if k == 0 {
    } else {
      CountsFollowOrder(xs, ys, i, k - 1);
      assert xs[..k][..k - 1] == xs[..k - 1] && ys[..k][..k - 1] == ys[..k - 1];
      assert xs[k - 1] < xs[i] <==> ys[k - 1] < ys[i];
      assert xs[i] < xs[k - 1] <==> ys[i] < ys[k - 1];
    }
  }

  lemma {:induction false} CountsMirrorOrder(xs: seq<real>, ys: seq<real>, i: nat, k: nat)
    requires OppositeOrder(xs, ys) && i < |xs| && k <= |xs|
    ensures Count(EqualTo(xs[i]), xs[..k]) == Count(EqualTo(ys[i]), ys[..k])
    ensures Count(Below(xs[i]), xs[..k]) + Count(EqualTo(xs[i]), xs[..k]) + Count(Below(ys[i]), ys[..k]) == k
    decreases k
  {
    if k == 0 {
    } else {
      CountsMirrorOrder(xs, ys, i, k - 1);
      assert xs[..k][..k - 1] == xs[..k - 1] && ys[..k][..k - 1] == ys[..k - 1];
      assert xs[k - 1] < xs[i] <==> ys[i] < ys[k - 1];
      assert xs[i] < xs[k - 1] <==> ys[k - 1] < ys[i];
    }
  }

  lemma {:induction false} RanksOfOrder(xs: seq<real>, ys: seq<real>)
    ensures SameOrder(xs, ys) ==> AllRanks(xs) == AllRanks(ys)
    ensures OppositeOrder(xs, ys) ==>
              forall i :: 0 <= i < |xs| ==> AllRanks(ys)[i] == (|xs| + 1) as real - AllRanks(xs)[i]
  {
    assert xs[..|xs|] == xs && ys[..|ys|] == ys;
    if SameOrder(xs, ys) {
      forall i | 0 <= i < |xs| ensures AllRanks(xs)[i] == AllRanks(ys)[i] {
        CountsFollowOrder(xs, ys, i, |xs|);
      }
    }
    if OppositeOrder(xs, ys) {
      forall i | 0 <= i < |xs| ensures AllRanks(ys)[i] == (|xs| + 1) as real - AllRanks(xs)[i] {
        CountsMirrorOrder(xs, ys, i, |xs|);
      }
    }
  }

  lemma RanksAreOrdered(vs: seq<real>)
    ensures forall i, j {:trigger AllRanks(vs)[i], AllRanks(vs)[j]} :: 0 <= i < |vs| && 0 <= j < |vs| ==>
              (AllRanks(vs)[i] < AllRanks(vs)[j] <==> vs[i] < vs[j])
  {
    forall i, j | 0 <= i < |vs| && 0 <= j < |vs| ensures AllRanks(vs)[i] < AllRanks(vs)[j] <==> vs[i] < vs[j] {
      RanksReflectOrder(vs, i, j);
    }
  }

  /** Two lists that are ordered like two others. */
  lemma OrdersCarryOver(xs: seq<real>, ys: seq<real>, us: seq<real>, vs: seq<real>)
    requires |xs| == |ys| == |us| == |vs|
    requires forall i, j :: 0 <= i < |xs| && 0 <= j < |xs| ==> (us[i] < us[j] <==> xs[i] < xs[j])
    requires forall i, j :: 0 <= i < |xs| && 0 <= j < |xs| ==> (vs[i] < vs[j] <==> ys[i] < ys[j])
    ensures SameOrder(us, vs) <==> SameOrder(xs, ys)
    ensures OppositeOrder(us, vs) <==> OppositeOrder(xs, ys)
  {
  }

  lemma OrderOfRanks(xs: seq<real>, ys: seq<real>)
    requires |xs| == |ys|
    ensures SameOrder(AllRanks(xs), AllRanks(ys)) <==> SameOrder(xs, ys)
    ensures OppositeOrder(AllRanks(xs), AllRanks(ys)) <==> OppositeOrder(xs, ys)
  {
    RanksAreOrdered(xs);
    RanksAreOrdered(ys);
    OrdersCarryOver(xs, ys, AllRanks(xs), AllRanks(ys));
  }

  lemma RanksInStep(root: real -> real, xs: seq<real>, ys: seq<real>)
    requires IsRoot(root) && |xs| == |ys| >= 2 && !AllTie(xs)
    ensures SameOrder(xs, ys) ==> Pearson(root, AllRanks(xs), AllRanks(ys)) == Some(1.0)
    ensures OppositeOrder(xs, ys) ==> Pearson(root, AllRanks(xs), AllRanks(ys)) == Some(-1.0)
  {
    RanksOfOrder(xs, ys);
    RanksTie(xs);
    if SameOrder(xs, ys) {
      WithItself(root, AllRanks(xs));
    }
    if OppositeOrder(xs, ys) {
      WithItsMirror(root, AllRanks(xs), AllRanks(ys), (|xs| + 1) as real);
    }
  }

  lemma RanksFullyCorrelated(root: real -> real, xs: seq<real>, ys: seq<real>)
    requires IsRoot(root) && |xs| == |ys| >= 2
    ensures Pearson(root, AllRanks(xs), AllRanks(ys)) == Some(1.0) ==> SameOrder(xs, ys)
    ensures Pearson(root, AllRanks(xs), AllRanks(ys)) == Some(-1.0) ==> OppositeOrder(xs, ys)
  {
    FullCorrelation(root, AllRanks(xs), AllRanks(ys));
    OrderOfRanks(xs, ys);
  }

  /** The rank correlation is one exactly when the second list is ordered as the first, and minus one exactly
      when it is ordered the other way round, the values of the first not being all the same. */
  lemma {:induction false} SpearmanIsFull(root: real -> real, xs: seq<real>, ys: seq<real>)
    requires IsRoot(root) && |xs| == |ys| >= 2
    ensures Spearman(root, xs, ys) == Some(1.0) <==> SameOrder(xs, ys) && !AllTie(xs)
    ensures Spearman(root, xs, ys) == Some(-1.0) <==> OppositeOrder(xs, ys) && !AllTie(xs)
  {
    SpearmanUndefined(root, xs, ys);
    RanksFullyCorrelated(root, xs, ys);
    if !AllTie(xs) {
      RanksInStep(root, xs, ys);
    }
  }
}
