/** The market context as counts over the bars of a date, the regions of the regimes, and the market filter as
    a bound on the number of gains. */
module SwingMarketLaws {
  import opened Prelude
  import opened Sorting
  import opened SwingTypes
  import opened SwingSignals
  import opened SwingSignalLaws
  import opened SwingPools

  // ---------------------------------------------------------------- the market context

  /** The sum of a value over the bars that have it. */
  function SumOver(bars: seq<Bar>, value: Bar -> Option<real>): real {
    if bars == [] then 0.0
    else SumOver(bars[1..], value) + if value(bars[0]).Some? then value(bars[0]).value else 0.0
  }

  /** The part of the bars with p that also have q, defined when there is one with p. */
  ghost predicate IsShare(x: Option<real>, bars: seq<Bar>, p: Bar -> bool, q: Bar -> bool) {
    && (x.Some? <==> Tally(bars, p) > 0)
    && (x.Some? ==> Product(x.value, Tally(bars, p) as real) == Tally(bars, q) as real)
  }

  /** The mean of the values of the bars that have one, defined when there is one. */
  ghost predicate IsMeanOver(x: Option<real>, bars: seq<Bar>, p: Bar -> bool, value: Bar -> Option<real>) {
    && (x.Some? <==> Tally(bars, p) > 0)
    && (x.Some? ==> Product(x.value, Tally(bars, p) as real) == SumOver(bars, value))
  }

  lemma {:induction false} CountTrueCons(x: bool, xs: seq<bool>)
    ensures CountTrue([x] + xs) == CountTrue(xs) + if x then 1 else 0
    decreases |xs|
  {
    if xs == [] {
      assert ([x] + xs)[..0] == [];
    } else {
      var n := |xs| - 1;
      CountTrueCons(x, xs[..n]);
      assert ([x] + xs)[..n + 1] == [x] + xs[..n];
    }
  }

  lemma {:induction false} SumCons(x: real, xs: seq<real>)
    ensures Sum([x] + xs) == x + Sum(xs)
    decreases |xs|
  {
    if xs == [] {
      assert ([x] + xs)[..0] == [];
    } else {
      var n := |xs| - 1;
      SumCons(x, xs[..n]);
      assert ([x] + xs)[..n + 1] == [x] + xs[..n];
    }
  }

  lemma {:induction false} TallyOfFlags(f: Bar -> Option<bool>, bars: seq<Bar>, p: Bar -> bool, q: Bar -> bool)
    requires forall b :: f(b) == if p(b) then Some(q(b)) else None
    requires forall b :: q(b) ==> p(b)
    ensures |FilterMap(f, bars)| == Tally(bars, p) && CountTrue(FilterMap(f, bars)) == Tally(bars, q)
    decreases |bars|
  {
    if bars == [] {
    } else {
      TallyOfFlags(f, bars[1..], p, q);
      if p(bars[0]) {
        CountTrueCons(q(bars[0]), FilterMap(f, bars[1..]));
      }
    }
  }

  lemma ShareOfFlags(f: Bar -> Option<bool>, bars: seq<Bar>, p: Bar -> bool, q: Bar -> bool)
    requires forall b :: f(b) == if p(b) then Some(q(b)) else None
    requires forall b :: q(b) ==> p(b)
    ensures IsShare(TrueRatio(FilterMap(f, bars)), bars, p, q)
  {
    TallyOfFlags(f, bars, p, q);
    if Tally(bars, p) > 0 {
      RatioTimes(Tally(bars, q) as real, Tally(bars, p) as real);
    }
  }

  lemma RatioTimes(a: real, n: real)
    requires n > 0.0
    ensures Product(a / n, n) == a
  {
  }

  function IfGain(value: Bar -> Option<real>): Bar -> Option<bool> {
    (b: Bar) => if value(b).Some? then Some(value(b).value > 0.0) else None
  }

  lemma GainsOfReturns(value: Bar -> Option<real>, bars: seq<Bar>, p: Bar -> bool, q: Bar -> bool)
    requires forall b :: p(b) == value(b).Some? && q(b) == (value(b).Some? && value(b).value > 0.0)
    ensures IsShare(TrueRatio(FilterMap(IsGain, FilterMap(value, bars))), bars, p, q)
  {
    FilterMapCompose(value, IsGain, IfGain(value), bars);
    ShareOfFlags(IfGain(value), bars, p, q);
  }

  lemma {:induction false} SumOfValues(value: Bar -> Option<real>, bars: seq<Bar>, p: Bar -> bool)
    requires forall b :: p(b) == value(b).Some?
    ensures |FilterMap(value, bars)| == Tally(bars, p) && Sum(FilterMap(value, bars)) == SumOver(bars, value)
    decreases |bars|
  {
    if bars == [] {
    } else {
      SumOfValues(value, bars[1..], p);
      if p(bars[0]) {
        SumCons(value(bars[0]).value, FilterMap(value, bars[1..]));
      }
    }
  }

  lemma MeanOfValues(value: Bar -> Option<real>, bars: seq<Bar>, p: Bar -> bool)
    requires forall b :: p(b) == value(b).Some?
    ensures IsMeanOver(Average(FilterMap(value, bars)), bars, p, value)
  {
    SumOfValues(value, bars, p);
    if Tally(bars, p) > 0 {
      RatioTimes(SumOver(bars, value), Tally(bars, p) as real);
    }
  }

  function Has5d(): Bar -> bool { (b: Bar) => b.return5d.Some? }
  function Has20d(): Bar -> bool { (b: Bar) => b.return20d.Some? }
  function Has60d(): Bar -> bool { (b: Bar) => b.return60d.Some? }
  function Gains5d(): Bar -> bool { (b: Bar) => b.return5d.Some? && 0.0 < b.return5d.value }
  function Gains20d(): Bar -> bool { (b: Bar) => b.return20d.Some? && 0.0 < b.return20d.value }
  function Gains60d(): Bar -> bool { (b: Bar) => b.return60d.Some? && 0.0 < b.return60d.value }

  /** The ratios and averages of a date's market context: shares of the bars that have the values, closes above
      the short average, uptrends, gains over 5, 20 and 60 rows, mean returns, and the regime read off the
      uptrends, the gains and the mean return over 20 rows, and the gains over 60. */
  lemma {:induction false} ContextCounts(d: Date, bars: seq<Bar>)
    ensures var c := MarketContextOf(d, bars);
            && c.date == d
            && IsShare(c.closeAboveSma20Ratio, bars, (b: Bar) => b.smaShort.Some?,
                       (b: Bar) => b.smaShort.Some? && b.smaShort.value < b.close)
            && IsShare(c.trendBreadthRatio, bars, (b: Bar) => b.smaShort.Some? && b.smaLong.Some?,
                       (b: Bar) => b.smaShort.Some? && b.smaLong.Some? &&
                                   b.smaLong.value < b.smaShort.value && b.smaLong.value < b.close)
            && IsShare(c.positiveReturn5dRatio, bars, Has5d(), Gains5d())
            && IsShare(c.positiveReturn20dRatio, bars, Has20d(), Gains20d())
            && IsShare(c.positiveReturn60dRatio, bars, Has60d(), Gains60d())
            && IsMeanOver(c.avgReturn5d, bars, Has5d(), (b: Bar) => b.return5d)
            && IsMeanOver(c.avgReturn20d, bars, Has20d(), (b: Bar) => b.return20d)
            && IsMeanOver(c.avgReturn60d, bars, Has60d(), (b: Bar) => b.return60d)
            && c.regime == ClassifyMarketRegime(c.trendBreadthRatio, c.positiveReturn20dRatio, c.avgReturn20d,
                                                c.positiveReturn60dRatio)
  {
    ShareOfFlags(AboveSmaShort, bars, (b: Bar) => b.smaShort.Some?,
                 (b: Bar) => b.smaShort.Some? && b.smaShort.value < b.close);
    ShareOfFlags(TrendUp, bars, (b: Bar) => b.smaShort.Some? && b.smaLong.Some?,
                 (b: Bar) => b.smaShort.Some? && b.smaLong.Some? &&
                             b.smaLong.value < b.smaShort.value && b.smaLong.value < b.close);
    GainShares(bars);
    MeanReturns(bars);
  }

  lemma GainShares(bars: seq<Bar>)
    ensures IsShare(TrueRatio(FilterMap(IsGain, FilterMap(Return5d, bars))), bars, Has5d(), Gains5d())
    ensures IsShare(TrueRatio(FilterMap(IsGain, FilterMap(Return20d, bars))), bars, Has20d(), Gains20d())
    ensures IsShare(TrueRatio(FilterMap(IsGain, FilterMap(Return60d, bars))), bars, Has60d(), Gains60d())
  {
    GainsOfReturns(Return5d, bars, Has5d(), Gains5d());
    GainsOfReturns(Return20d, bars, Has20d(), Gains20d());
    GainsOfReturns(Return60d, bars, Has60d(), Gains60d());
  }

  lemma MeanReturns(bars: seq<Bar>)
    ensures IsMeanOver(Average(FilterMap(Return5d, bars)), bars, Has5d(), (b: Bar) => b.return5d)
    ensures IsMeanOver(Average(FilterMap(Return20d, bars)), bars, Has20d(), (b: Bar) => b.return20d)
    ensures IsMeanOver(Average(FilterMap(Return60d, bars)), bars, Has60d(), (b: Bar) => b.return60d)
  {
    MeanOfValues(Return5d, bars, Has5d());
    MeanOfValues(Return20d, bars, Has20d());
    MeanOfValues(Return60d, bars, Has60d());
    SumOverCongruence(bars, Return5d, (b: Bar) => b.return5d);
    SumOverCongruence(bars, Return20d, (b: Bar) => b.return20d);
    SumOverCongruence(bars, Return60d, (b: Bar) => b.return60d);
  }

  lemma {:induction false} SumOverCongruence(bars: seq<Bar>, f: Bar -> Option<real>, g: Bar -> Option<real>)
    requires forall b :: f(b) == g(b)
    ensures SumOver(bars, f) == SumOver(bars, g)
    decreases |bars|
  {
    if bars == [] {
    } else {
      SumOverCongruence(bars[1..], f, g);
    }
  }

  /** The regions of the four regimes. */
  lemma RegimeRegions(trend: Option<real>, gains20: Option<real>, mean20: Option<real>, gains60: Option<real>)
    ensures var regime := ClassifyMarketRegime(trend, gains20, mean20, gains60);
            && (regime == BroadUptrend <==>
                  && trend.Some? && 0.55 <= trend.value && gains20.Some? && 0.60 <= gains20.value
                  && mean20.Some? && 0.0 < mean20.value)
            && (regime == BroadDowntrend <==>
                  && trend.Some? && trend.value < 0.35 && gains20.Some? && gains20.value < 0.45
                  && mean20.Some? && mean20.value < 0.0)
            && (regime == NarrowLeadership <==>
                  && trend.Some? && trend.value < 0.45 && gains20.Some? && 0.50 <= gains20.value
                  && mean20.Some? && 0.0 < mean20.value && (gains60.Some? ==> 0.45 <= gains60.value))
  {
  }

  // ---------------------------------------------------------------- the market filter

  /** Without bounds every market is allowed. With bounds there must be bars with a return on the signal date,
      and the number of gains among them must be below the lower bound's share or reach the upper bound's. */
  ghost predicate MarketOpen(bars: seq<Bar>, params: Params) {
    var n, gains := Tally(bars, Has20d()) as real, Tally(bars, Gains20d()) as real;
    || (params.blockedMarketMin.None? && params.blockedMarketMax.None?)
    || (n > 0.0 && params.blockedMarketMin.Some? && gains < Product(params.blockedMarketMin.value, n))
    || (n > 0.0 && params.blockedMarketMax.Some? && gains >= Product(params.blockedMarketMax.value, n))
  }

  lemma {:induction false} MarketIff(prepared: seq<BarSeries>, d: Date, params: Params)
    ensures IsMarketContextAllowed(MarketOn(prepared, d), params) <==> MarketOpen(Today(prepared, d), params)
  {
    var bars := Today(prepared, d);
    GainsOfReturns(Return20d, bars, Has20d(), Gains20d());
    var n, gains := Tally(bars, Has20d()) as real, Tally(bars, Gains20d()) as real;
    if n > 0.0 {
      var ratio := TrueRatio(FilterMap(IsGain, FilterMap(Return20d, bars))).value;
      if params.blockedMarketMin.Some? {
        PartAgainst(ratio, n, gains, params.blockedMarketMin.value);
      }
      if params.blockedMarketMax.Some? {
        PartAgainst(ratio, n, gains, params.blockedMarketMax.value);
      }
    }
  }
}
