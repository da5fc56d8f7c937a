/** One-pass maximum drawdown against its definition over all pairs of points in time. */
module Drawdown {
  import opened Prelude
  import opened Sorting
  import opened SwingTypes

  /** Equity at the start and after each profit: the sums of the first i profits. */
  function EquityCurve(pnls: seq<real>): (curve: seq<real>)
    ensures |curve| == |pnls| + 1
    ensures forall i :: 0 <= i < |curve| ==> curve[i] == Sum(pnls[..i])
  {
    seq(|pnls| + 1, i requires 0 <= i <= |pnls| => Sum(pnls[..i]))
  }

  lemma CurveStep(pnls: seq<real>, n: nat)
    requires n < |pnls|
    ensures EquityCurve(pnls)[0] == 0.0
    ensures EquityCurve(pnls)[n + 1] == EquityCurve(pnls)[n] + pnls[n]
  {
    assert pnls[..n + 1][..n] == pnls[..n];
  }

  /** dd is the largest fall from some point to a later one. */
  ghost predicate IsMaxDrawdown(curve: seq<real>, dd: real) {
    && NoLargerFall(curve, |curve|, dd)
    && (exists i, j :: 0 <= i <= j < |curve| && Fall(curve, i, j) == dd)
  }

  function Fall(curve: seq<real>, i: nat, j: nat): real
    requires i < |curve| && j < |curve|
  {
    curve[i] - curve[j]
  }

  /** No fall among the first n points exceeds dd. */
  ghost predicate NoLargerFall(curve: seq<real>, n: nat, dd: real)
    requires n <= |curve|
  {
    forall i, j :: 0 <= i <= j < n ==> Fall(curve, i, j) <= dd
  }

  lemma MaxDrawdownUnique(curve: seq<real>, a: real, b: real)
    requires |curve| > 0 && IsMaxDrawdown(curve, a) && IsMaxDrawdown(curve, b)
    ensures a == b && a >= 0.0
  {
    var i, j :| 0 <= i <= j < |curve| && Fall(curve, i, j) == a;
    var k, l :| 0 <= k <= l < |curve| && Fall(curve, k, l) == b;
    assert Fall(curve, 0, 0) <= a;
  }

  /** Extending the curve by one point cannot fall further than from its peak. */
  lemma FallExtended(curve: seq<real>, n: nat, dd: real, peak: real, dd': real)
    requires n < |curve| && NoLargerFall(curve, n, dd)
    requires forall i :: 0 <= i <= n ==> curve[i] <= peak
    requires dd' >= dd && dd' >= peak - curve[n]
    ensures NoLargerFall(curve, n + 1, dd')
  {
  }

  /** The research variant keeps three running values. */
  method MaxDrawdown(pnls: seq<real>) returns (maxDd: real)
    ensures IsMaxDrawdown(EquityCurve(pnls), maxDd)
  {
    var equity, peak := 0.0, 0.0;
    maxDd := 0.0;
    ghost var curve := EquityCurve(pnls);
    ghost var top, from, down := 0, 0, 0;
    for n := 0 to |pnls|
      invariant equity == curve[n]
      invariant 0 <= top <= n && peak == curve[top]
      invariant forall i :: 0 <= i <= n ==> curve[i] <= peak
      invariant 0 <= from <= down <= n && Fall(curve, from, down) == maxDd
      invariant NoLargerFall(curve, n + 1, maxDd)
    {
      ghost var dd := maxDd;
      CurveStep(pnls, n);
      equity := equity + pnls[n];
      if equity > peak {
        top := n + 1;
      }
      peak := MaxReal(peak, equity);
      if peak - equity > maxDd {
        from, down := top, n + 1;
      }
      maxDd := MaxReal(maxDd, peak - equity);
      FallExtended(curve, n + 1, dd, peak, maxDd);
    }
  }

  datatype DrawdownPeriod = DrawdownPeriod(
    amount: real, peakDate: Option<int>, troughDate: Option<int>, peakEquity: real, troughEquity: real)

  function Pnls(trades: seq<Trade>): (r: seq<real>)
    ensures |r| == |trades|
    ensures forall i :: 0 <= i < |trades| ==> r[i] == trades[i].netPnl
  {
    seq(|trades|, i requires 0 <= i < |trades| => trades[i].netPnl)
  }

  /** The date on which the first i trades were closed; nothing before the first. */
  function DateAfter(trades: seq<Trade>, i: nat): Option<int>
    requires i <= |trades|
  {
    if i == 0 then None else Some(trades[i - 1].exitDate)
  }

  /** The period runs from the earliest highest point before the trough to the earliest point of
      largest fall; without any fall it is empty. */
  ghost predicate Describes(trades: seq<Trade>, curve: seq<real>, p: DrawdownPeriod, from: nat, down: nat)
    requires |curve| == |trades| + 1
  {
    && from <= down <= |trades|
    && p.amount == p.peakEquity - p.troughEquity == Fall(curve, from, down)
    && p.peakEquity == curve[from] && p.troughEquity == curve[down]
    && p.peakDate == DateAfter(trades, from)
    && (p.amount > 0.0 ==> p.troughDate == DateAfter(trades, down))
    && (p.amount == 0.0 ==> from == down == 0 && p.troughDate == None)
    && FirstPeak(curve, from, down)
    && (down > 0 ==> forall i, j :: 0 <= i <= j < down ==> Fall(curve, i, j) < p.amount)
  }

  /** from is the first of the highest points up to down. */
  ghost predicate FirstPeak(curve: seq<real>, from: nat, down: nat)
    requires from <= down < |curve|
  {
    (forall i :: 0 <= i < from ==> curve[i] < curve[from]) &&
    (forall i :: 0 <= i <= down ==> curve[i] <= curve[from])
  }

  lemma NewWorst(trades: seq<Trade>, curve: seq<real>, n: nat, top: nat, dd: real)
    requires |curve| == |trades| + 1 && n < |trades| && top <= n + 1
    requires FirstPeak(curve, top, n + 1) && NoLargerFall(curve, n + 1, dd)
    requires dd >= 0.0 && curve[top] - curve[n + 1] > dd
    ensures Describes(trades, curve,
                      DrawdownPeriod(curve[top] - curve[n + 1], DateAfter(trades, top), Some(trades[n].exitDate),
                                     curve[top], curve[n + 1]),
                      top, n + 1)
  {
  }

  /** The curve starts at zero and moves by the profit of each trade. */
  ghost predicate IsCurve(trades: seq<Trade>, curve: seq<real>) {
    && |curve| == |trades| + 1 && curve[0] == 0.0
    && forall i :: 0 <= i < |trades| ==> TradeStep(trades, curve, i)
  }

  ghost predicate TradeStep(trades: seq<Trade>, curve: seq<real>, i: nat)
    requires |curve| == |trades| + 1 && i < |trades|
  {
    curve[i + 1] == curve[i] + trades[i].netPnl
  }

  lemma CurveOfTrades(trades: seq<Trade>)
    ensures IsCurve(trades, EquityCurve(Pnls(trades)))
  {
    var curve := EquityCurve(Pnls(trades));
    forall i | 0 <= i < |trades| ensures TradeStep(trades, curve, i) {
      CurveStep(Pnls(trades), i);
    }
  }

  /** The pass over trades already in exit order. */
  method WorstPeriod(trades: seq<Trade>, ghost curve: seq<real>)
    returns (p: DrawdownPeriod, ghost from: nat, ghost down: nat)
    requires IsCurve(trades, curve)
    ensures IsMaxDrawdown(curve, p.amount) && Describes(trades, curve, p, from, down)
  {
    var equity, peak, maxDrawdown, maxPeak, maxTrough := 0.0, 0.0, 0.0, 0.0, 0.0;
    var peakDate: Option<int>, maxPeakDate: Option<int>, maxTroughDate: Option<int> := None, None, None;
    ghost var top := 0;
    from, down := 0, 0;
    for n := 0 to |trades|
      invariant equity == curve[n]
      invariant 0 <= top <= n && peak == curve[top] && peakDate == DateAfter(trades, top)
      invariant FirstPeak(curve, top, n)
      invariant down <= n && maxDrawdown >= 0.0
      invariant Describes(trades, curve,
                          DrawdownPeriod(maxDrawdown, maxPeakDate, maxTroughDate, maxPeak, maxTrough), from, down)
      invariant NoLargerFall(curve, n + 1, maxDrawdown)
    {
      ghost var dd := maxDrawdown;
      assert TradeStep(trades, curve, n);
      equity := equity + trades[n].netPnl;
      if equity > peak {
        peak, peakDate := equity, Some(trades[n].exitDate);
        top := n + 1;
      }
      var drawdown := peak - equity;
      if drawdown > maxDrawdown {
        NewWorst(trades, curve, n, top, maxDrawdown);
        maxDrawdown, maxPeak, maxTrough := drawdown, peak, equity;
        maxPeakDate, maxTroughDate := peakDate, Some(trades[n].exitDate);
        from, down := top, n + 1;
      }
      FallExtended(curve, n + 1, dd, peak, maxDrawdown);
    }
    p := DrawdownPeriod(maxDrawdown, maxPeakDate, maxTroughDate, maxPeak, maxTrough);
  }

  /** The backtester's variant also reports when the worst period began and ended. */
  method MaxDrawdownPeriod(trades: seq<Trade>) returns (p: DrawdownPeriod, ghost from: nat, ghost down: nat)
    ensures IsMaxDrawdown(EquityCurve(Pnls(Sort(ByExit, trades))), p.amount)
    ensures Describes(Sort(ByExit, trades), EquityCurve(Pnls(Sort(ByExit, trades))), p, from, down)
  {
    var ordered := Sort(ByExit, trades);
    CurveOfTrades(ordered);
    p, from, down := WorstPeriod(ordered, EquityCurve(Pnls(ordered)));
  }

  /** On the same profits in the same order the two variants report the same amount. */
  method BothVariants(trades: seq<Trade>) returns (a: real, b: real)
    ensures a == b && IsMaxDrawdown(EquityCurve(Pnls(Sort(ByExit, trades))), a)
  {
    var p, _, _ := MaxDrawdownPeriod(trades);
    a := p.amount;
    b := MaxDrawdown(Pnls(Sort(ByExit, trades)));
    MaxDrawdownUnique(EquityCurve(Pnls(Sort(ByExit, trades))), a, b);
  }
}
