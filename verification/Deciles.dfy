/** Deciles of a ranked cross-section: ten minus the floor of ten times the rank (from zero) over
    the number of ranked rows. Floating-point quotients are taken as exact. */
module Deciles {

  function Decile(n: int, rank: int): int
    requires n > 0
  {
    10 - (rank - 1) * 10 / n
  }

  function Ceil10(x: int): int { (x + 9) / 10 }

  /** The number of ranks that lie in the best b deciles. */
  function Cut(n: int, b: int): int { Ceil10(b * n) }

  lemma {:induction false} QuotientBelow(a: int, n: int, b: int)
    requires a >= 0 && n > 0
    ensures a / n < b <==> a < b * n
  {
    var q := a / n;
    assert a == n * q + a % n;
    if q < b {
      assert n * (q + 1) <= n * b;
    } else {
      assert n * q >= n * b;
    }
  }

  /** The best b deciles hold exactly the first Cut(n, b) ranks. */
  lemma {:induction false} BestDeciles(n: int, rank: int, b: int)
    requires 1 <= rank <= n
    ensures Decile(n, rank) > 10 - b <==> rank <= Cut(n, b)
  {
    QuotientBelow((rank - 1) * 10, n, b);
  }

  /** Decile d is a run of consecutive ranks. */
  lemma {:induction false} DecileIsRun(n: int, rank: int, d: int)
    requires 1 <= rank <= n
    ensures Decile(n, rank) == d <==> Cut(n, 10 - d) < rank <= Cut(n, 11 - d)
  {
    BestDeciles(n, rank, 10 - d);
    BestDeciles(n, rank, 11 - d);
  }

  lemma DecileRange(n: int, rank: int)
    requires 1 <= rank <= n
    ensures 1 <= Decile(n, rank) <= 10
  {
  }

  /** A better rank never has a worse decile. */
  lemma {:induction false} DecilesDescend(n: int, better: int, worse: int)
    requires 1 <= better <= worse <= n
    ensures Decile(n, better) >= Decile(n, worse)
  {
    var b := 11 - Decile(n, worse);
    BestDeciles(n, worse, b);
    BestDeciles(n, better, b);
  }

  /** How many of the first k ranks fall in decile d. */
  function CountUpTo(n: int, d: int, k: nat): int
    requires k <= n
  {
    if k == 0 then 0 else CountUpTo(n, d, k - 1) + (if Decile(n, k) == d then 1 else 0)
  }

  function Clamp(x: int, low: int, high: int): int {
    if x < low then low else if x > high then high else x
  }

  lemma CutsAscend(n: int, d: int)
    requires n >= 0 && 1 <= d <= 10
    ensures 0 <= Cut(n, 10 - d) <= Cut(n, 11 - d) <= n
    ensures Cut(n, 11 - d) - Cut(n, 10 - d) == n / 10 || Cut(n, 11 - d) - Cut(n, 10 - d) == Ceil10(n)
  {
  }

  lemma {:induction false} CountIsClamped(n: int, d: int, k: nat)
    requires 0 < n && k <= n && 1 <= d <= 10
    ensures CountUpTo(n, d, k) == Clamp(k, Cut(n, 10 - d), Cut(n, 11 - d)) - Cut(n, 10 - d)
    decreases k
  {
    CutsAscend(n, d);
    if k == 0 {
    } else {
      CountIsClamped(n, d, k - 1);
      DecileIsRun(n, k, d);
    }
  }

  /** The best decile holds the ceiling of a tenth of the rows and the worst one the floor. */
  lemma ExtremeDecileSizes(n: int)
    requires 0 < n
    ensures CountUpTo(n, 10, n) == Ceil10(n)
    ensures CountUpTo(n, 1, n) == n / 10
  {
    CountIsClamped(n, 10, n);
    CountIsClamped(n, 1, n);
  }

  /** Every decile holds the floor or the ceiling of a tenth of the rows; the best one the ceiling
      and the worst one the floor. */
  lemma DecileSizes(n: int, d: int)
    requires 0 < n && 1 <= d <= 10
    ensures CountUpTo(n, d, n) == n / 10 || CountUpTo(n, d, n) == Ceil10(n)
    ensures CountUpTo(n, 10, n) == Ceil10(n)
    ensures CountUpTo(n, 1, n) == n / 10
  {
    CutsAscend(n, d);
    CountIsClamped(n, d, n);
    ExtremeDecileSizes(n);
  }
}
