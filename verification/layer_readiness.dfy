/** What a ready run means, in terms of the market data and the signal alone. */
module LayerReadiness {
  import opened Options
  import opened JsNumbers
  import opened LayerPipeline
  import opened LayerGates

  // ---- The condition, gate by gate ----

  predicate QuoteFresh(x: Input) {
    && x.quote.Some?
    && 0.0 < QuoteTime(x, x.quote.value) && x.now - QuoteTime(x, x.quote.value) <= 60000.0
    && x.quote.value.bid.Some? && x.quote.value.bid.value > 0.0
    && x.quote.value.ask.Some? && x.quote.value.ask.value > 0.0
  }

  function Spread(x: Input): Option<real> {
    if x.quote.None? then None else SpreadOf(x.quote.value)
  }

  predicate SpreadUpTo(x: Input, limit: real) {
    Spread(x).Some? && Spread(x).value <= limit
  }

  predicate VolatilityModerate(x: Input) {
    x.volatility.Some? && 10.0 <= x.volatility.value <= 200.0
  }

  predicate TimeframesAgree(x: Input) {
    x.direction.Some? && Weight(AllTrends(x), 4) > 0 && Confluence(x.direction.value, AllTrends(x)) >= 75
  }

  predicate NewsQuiet(x: Input) {
    forall i :: 0 <= i < |x.newsImpacts| ==> x.newsImpacts[i] < 70.0
  }

  predicate RewardAtLeast(x: Input, limit: real) {
    x.riskRewardRatio.Some? && x.riskRewardRatio.value >= limit
  }

  /** Entry, stop and pair are given; the rounded lots are below five, the stop is 10 to 200 pips, the risk at most 3 percent. */
  predicate PositionSized(x: Input) {
    && Truthy(x.entry) && Truthy(x.stop) && x.hasPair
    && Lots(Balance(x), StopPips(x.entry.value, x.stop.value)) < 5.0
    && 10.0 <= StopPips(x.entry.value, x.stop.value) <= 200.0
    && RiskPercent(Balance(x), StopPips(x.entry.value, x.stop.value)) <= 3.0
  }

  /** At least two thirds of the H1, H4 and D1 trends there are, and at least one, run the signal's way. */
  predicate TrendAligned(x: Input) {
    && x.direction.Some? && Analysed(HigherTrends(x), 3) > 0
    && 3 * Agreeing(x.direction.value, HigherTrends(x), 3) >= 2 * Analysed(HigherTrends(x), 3)
  }

  predicate IndicatorsAgree(x: Input) {
    && x.direction.Some?
    && (x.indicators.Some? ==> Share(IndicatorBallot(x.direction.value, x.indicators.value)) >= 0.6)
  }

  predicate AveragesAgree(x: Input) {
    && x.direction.Some?
    && (x.averages.Some? ==> Share(AverageBallot(x.direction.value, CurrentPrice(x).GetOr(0.0), x.averages.value)) >= 0.65)
  }

  /** The layer caught no exception of its own. */
  predicate Intact(x: Input, layer: nat) {
    layer !in x.broken
  }

  /** The first seventeen results when nothing stops the run. */
  function Early(x: Input): (r: seq<LayerResult>)
    ensures |r| == 17
  {
    seq(17, i requires 0 <= i < 17 => Standard(i + 1, Gate(x, i + 1)))
  }

  /** What the input must satisfy for an early layer to pass. */
  predicate Open(x: Input, layer: nat) {
    match layer
    case 1 => QuoteFresh(x)
    case 2 => SpreadUpTo(x, 30.0)
    case 3 => VolatilityModerate(x)
    case 4 => Intact(x, 4) && TrendAligned(x)
    case 5 => Intact(x, 5) && Truthy(CurrentPrice(x))
    case 6 => Intact(x, 6) && IndicatorsAgree(x)
    case 7 => Intact(x, 7) && Truthy(CurrentPrice(x)) && AveragesAgree(x)
    case 11 => Intact(x, 11) && TimeframesAgree(x)
    case 12 => NewsQuiet(x)
    case 16 => RewardAtLeast(x, 1.5)
    case 17 => Intact(x, 17) && PositionSized(x)
    case _ => true
  }

  /** Every gate at its own threshold, before layers 18 and 19 tighten spread and reward. */
  predicate GatesOpen(x: Input) {
    forall layer: nat :: 1 <= layer <= 17 ==> Open(x, layer)
  }

  predicate Cleared(x: Input) {
    GatesOpen(x) && SpreadUpTo(x, 25.0) && RewardAtLeast(x, 1.6)
  }

  // ---- Single gates ----

  lemma Layer1Passes(x: Input)
    ensures Standard(1, Layer1(x)).status.Pass? <==> QuoteFresh(x)
  {
  }

  lemma Layer2Passes(x: Input)
    ensures Standard(2, Layer2(x)).status.Pass? <==> SpreadUpTo(x, 30.0)
    ensures SpreadUpTo(x, 30.0) ==> Standard(2, Layer2(x)).metrics.spreadPoints == Spread(x)
  {
  }

  lemma Layer3Passes(x: Input)
    ensures Standard(3, Layer3(x)).status.Pass? <==> VolatilityModerate(x)
    ensures VolatilityModerate(x) ==> Standard(3, Layer3(x)).metrics.volatility == x.volatility
  {
  }

  lemma Layer5Passes(x: Input)
    ensures Standard(5, Layer5(x)).status.Pass? <==> Truthy(CurrentPrice(x))
  {
  }

  lemma Layer6Passes(x: Input)
    ensures Standard(6, Layer6(x)).status.Pass? <==> IndicatorsAgree(x)
  {
  }

  lemma Layer7Passes(x: Input)
    ensures Standard(7, Layer7(x)).status.Pass? <==> Truthy(CurrentPrice(x)) && AveragesAgree(x)
  {
  }

  lemma Layer11Passes(x: Input)
    ensures Standard(11, Layer11(x)).status.Pass? <==> TimeframesAgree(x)
    ensures TimeframesAgree(x) ==>
              Standard(11, Layer11(x)).metrics.confluenceScore == Some(Confluence(x.direction.value, AllTrends(x)) as real)
  {
  }

  lemma Layer16Passes(x: Input)
    ensures Standard(16, Layer16(x)).status.Pass? <==> RewardAtLeast(x, 1.5)
    ensures RewardAtLeast(x, 1.5) ==> Standard(16, Layer16(x)).metrics.riskRewardRatio == x.riskRewardRatio
  {
  }

  lemma LotsAtLeastMinimum(balance: real, pips: real)
    ensures Lots(balance, pips) >= 0.01
  {
    var ideal := IdealLots(balance, pips);
    var capped := if ideal.None? then (if balance > 0.0 then 5.0 else 0.01) else MaxReal(0.01, MinReal(5.0, ideal.value));
    RoundMonotone(1.0, capped * 100.0);
    assert Round(capped * 100.0) >= 1;
  }

  lemma {:induction false} AgreeingAtMost(d: Direction, trends: seq<Option<Trend>>, n: nat)
    requires n <= |trends|
    ensures Agreeing(d, trends, n) <= Analysed(trends, n) <= n
  {
    if n > 0 {
      AgreeingAtMost(d, trends, n - 1);
    }
  }

  lemma RatioAtLeast(part: nat, whole: nat, threshold: real)
    requires whole > 0
    ensures part as real / whole as real >= threshold <==> part as real >= threshold * whole as real
  {
    var q, w := part as real / whole as real, whole as real;
    assert q * w == part as real;
    if q >= threshold {
      MultiplyMonotone(threshold, q, w);
    }
    if part as real >= threshold * w {
      DivideMonotone(threshold * w, part as real, w);
      assert threshold * w / w == threshold;
    }
  }

  /** With at most three timeframes the ratio threshold of 0.66 means two thirds. */
  lemma Layer4Passes(x: Input)
    ensures Standard(4, Layer4(x)).status.Pass? <==> TrendAligned(x)
  {
    if x.direction.Some? && Analysed(HigherTrends(x), 3) > 0 {
      var part, whole := Agreeing(x.direction.value, HigherTrends(x), 3), Analysed(HigherTrends(x), 3);
      AgreeingAtMost(x.direction.value, HigherTrends(x), 3);
      RatioAtLeast(part, whole, 0.66);
      assert whole == 1 || whole == 2 || whole == 3;
    }
  }

  lemma Thirds(aligned: real)
    ensures Share(Ballot(aligned, 3.0)) >= 0.6 <==> aligned >= 1.8
  {
    assert Share(Ballot(aligned, 3.0)) * 3.0 == aligned;
  }

  /**
   What the 60 percent consensus of layer 6 comes to when all three indicators are there: the stochastic alone
   decides, unless it disagrees and RSI and MACD both agree.
   */
  lemma StochasticDecides(d: Direction, i: Indicators)
    requires i.rsi.Some? && i.histogram.Some? && i.stochastic.Some?
    ensures Share(IndicatorBallot(d, i)) >= 0.6 <==>
            StochasticAgrees(d, i.stochastic.value) || (RsiAgrees(d, i.rsi.value) && MacdAgrees(d, i.histogram.value))
  {
    var b := IndicatorBallot(d, i);
    Thirds(b.aligned);
    assert b == Ballot(b.aligned, 3.0);
  }

  /**
   What bars can give: five H1 bars make the H1 trend, all three indicators and all averages, and two D1 bars the
   level. The MACD the program uses takes its own line for the signal line, so its histogram is zero.
   */
  predicate Consistent(x: Input) {
    && x.trends.h1.Some? == x.indicators.Some? == x.averages.Some?
    && (x.trends.d1.Some? ==> x.level.Some?)
    && (x.indicators.Some? ==>
          var i := x.indicators.value; i.rsi.Some? && i.histogram == Some(0.0) && i.stochastic.Some?)
    && (x.averages.Some? ==>
          var m := x.averages.value; m.sma20.Some? && m.sma50.Some? && m.sma200.Some? && m.ema21.Some?)
  }

  /** So on inputs that bars give, layer 6 comes down to the stochastic alone. */
  lemma StochasticAlone(x: Input)
    requires Consistent(x)
    ensures Standard(6, Layer6(x)).status.Pass? <==>
            x.direction.Some? && (x.indicators.Some? ==> StochasticAgrees(x.direction.value, x.indicators.value.stochastic.value))
  {
    Layer6Passes(x);
    if x.direction.Some? && x.indicators.Some? {
      StochasticDecides(x.direction.value, x.indicators.value);
    }
  }

  lemma Layer17Passes(x: Input)
    ensures Standard(17, Layer17(x)).status.Pass? <==> PositionSized(x)
  {
    if Truthy(x.entry) && Truthy(x.stop) && x.hasPair {
      LotsAtLeastMinimum(Balance(x), StopPips(x.entry.value, x.stop.value));
    }
  }

  lemma Layer12Passes(x: Input)
    ensures Standard(12, Layer12(x)).status.Pass? <==> NewsQuiet(x)
  {
  }

  /** The result of an early layer. */
  function Result(x: Input, layer: nat): LayerResult {
    Standard(layer, Gate(x, layer))
  }

  lemma MarketPasses(x: Input, layer: nat)
    requires layer == 1 || layer == 2 || layer == 3 || layer == 12 || layer == 16
    ensures Result(x, layer).status.Pass? <==> Open(x, layer)
  {
    match layer
    case 1 => Layer1Passes(x);
    case 2 => Layer2Passes(x);
    case 3 => Layer3Passes(x);
    case 12 => Layer12Passes(x);
    case 16 => Layer16Passes(x);
  }

  lemma GuardedPasses(x: Input, layer: nat)
    requires layer in GUARDED
    ensures Result(x, layer).status.Pass? <==> Open(x, layer)
  {
    match layer
    case 4 => Layer4Passes(x);
    case 5 => Layer5Passes(x);
    case 6 => Layer6Passes(x);
    case 7 => Layer7Passes(x);
    case 11 => Layer11Passes(x);
    case 17 => Layer17Passes(x);
  }

  /** Each early layer passes exactly when its gate is open. */
  lemma LayerPassesExactly(x: Input, layer: nat)
    requires 1 <= layer <= 17
    ensures Result(x, layer).status.Pass? <==> Open(x, layer)
  {
    if layer in GUARDED {
      GuardedPasses(x, layer);
    } else if layer < 4 || layer == 12 || layer == 16 {
      MarketPasses(x, layer);
    }
  }

  ghost predicate RequiredPass(x: Input, layer: nat)
    requires 1 <= layer <= 17
  {
    Required(layer) ==> Early(x)[layer - 1].status.Pass?
  }

  lemma EarlyAt(x: Input, layer: nat)
    requires 1 <= layer <= 17
    ensures Early(x)[layer - 1] == Result(x, layer)
  {
  }

  /** The seventeen early layers pass where required exactly when every gate is open. */
  lemma EarlyPassesExactly(x: Input)
    ensures (forall layer :: 1 <= layer <= 17 ==> RequiredPass(x, layer)) <==> GatesOpen(x)
  {
    forall layer: nat | 1 <= layer <= 17
      ensures RequiredPass(x, layer) <==> Open(x, layer)
    {
      EarlyAt(x, layer);
      LayerPassesExactly(x, layer);
    }
  }

  // ---- The composite score ----

  /** How far above the highest minimum, 67, a layer's score lies at least when the gates are open. */
  function Margin(layer: nat): real {
    match layer
    case 1 => 33.0
    case 2 => 13.0
    case 3 => 13.0
    case 4 => -7.0
    case 5 => -7.0
    case 6 => -7.0
    case 7 => -7.0
    case 8 => 3.0
    case 9 => -7.0
    case 10 => 8.0
    case 11 => 8.0
    case 12 => 33.0
    case 13 => 23.0
    case 14 => 13.0
    case 15 => 3.0
    case 16 => -7.0
    case 17 => 18.0
    case _ => 0.0
  }

  function Margins(n: nat): real {
    if n == 0 then 0.0 else Margins(n - 1) + Margin(n)
  }

  ghost predicate Scores(r: LayerResult, margin: real) {
    if r.score.Some? then r.score.value - 67.0 >= margin else 0.0 >= margin
  }

  /** A passing share of at least 60 percent scores at least 60. */
  lemma ScoredMargin(ratio: real, threshold: real, layer: nat)
    requires threshold >= 0.6 && Standard(layer, Scored(ratio, threshold)).status.Pass?
    ensures Scores(Standard(layer, Scored(ratio, threshold)), -7.0)
  {
    assert Round(ratio * 100.0) >= 60;
  }

  lemma TrendMargin(x: Input)
    requires TrendAligned(x)
    ensures Scores(Standard(4, Layer4(x)), -7.0)
  {
    Layer4Passes(x);
    ScoredMargin(Agreeing(x.direction.value, HigherTrends(x), 3) as real / Analysed(HigherTrends(x), 3) as real, 0.66, 4);
  }

  lemma IndicatorMargin(x: Input)
    requires IndicatorsAgree(x)
    ensures Scores(Standard(6, Layer6(x)), -7.0)
  {
    if x.indicators.Some? {
      ScoredMargin(Share(IndicatorBallot(x.direction.value, x.indicators.value)), 0.6, 6);
    }
  }

  lemma AverageMargin(x: Input)
    requires AveragesAgree(x) && Truthy(CurrentPrice(x))
    ensures Scores(Standard(7, Layer7(x)), -7.0)
  {
    if x.averages.Some? {
      ScoredMargin(Share(AverageBallot(x.direction.value, CurrentPrice(x).value, x.averages.value)), 0.65, 7);
    }
  }

  lemma GuardedMargin(x: Input, layer: nat)
    requires layer in GUARDED && Open(x, layer)
    ensures Scores(Result(x, layer), Margin(layer))
  {
    match layer
    case 4 => TrendMargin(x);
    case 5 =>
    case 6 => IndicatorMargin(x);
    case 7 => AverageMargin(x);
    case 11 =>
    case 17 => Layer17Passes(x);
  }

  lemma LayerMargin(x: Input, layer: nat)
    requires 1 <= layer <= 17 && Open(x, layer)
    ensures Scores(Result(x, layer), Margin(layer))
  {
    if layer in GUARDED {
      GuardedMargin(x, layer);
    }
  }

  lemma {:induction false} MarginsAdd(x: Input, n: nat)
    requires GatesOpen(x) && n <= 17
    ensures ScoreSum(Early(x)[..n]) - 67.0 * ScoreCount(Early(x)[..n]) as real >= Margins(n)
  {
    if n > 0 {
      MarginsAdd(x, n - 1);
      assert Open(x, n);
      LayerMargin(x, n);
      EarlyAt(x, n);
      assert Early(x)[..n][..n - 1] == Early(x)[..n - 1];
    }
  }

  lemma MarginsBalance()
    ensures Margins(17) == 126.0
  {
    assert Margins(4) == 52.0;
    assert Margins(8) == 34.0;
    assert Margins(12) == 76.0;
    assert Margins(16) == 108.0;
  }

  lemma AverageIsHigh(x: Input)
    requires GatesOpen(x)
    ensures AverageScore(Early(x)) >= 67.0
  {
    MarginsAdd(x, 17);
    MarginsBalance();
    assert Early(x)[..17] == Early(x);
    var sum, count := ScoreSum(Early(x)), ScoreCount(Early(x));
    FirstScoreCounts(x);
    AverageAtLeast(sum, count as real, 67.0);
  }

  lemma MinCompositeAtMost(spread: Option<real>, volatility: Option<real>, reward: Option<real>)
    ensures MinComposite(spread, volatility, reward) <= 67.0
  {
  }

  /**
   The composite score of layer 18 is a redundant check: once the earlier required layers have passed, their
   scores average at least 67, the highest the adaptive minimum can rise.
   */
  lemma CompositeIsImplied(x: Input, spread: Option<real>, volatility: Option<real>, reward: Option<real>)
    requires GatesOpen(x)
    ensures AverageScore(Early(x)) >= MinComposite(spread, volatility, reward)
  {
    AverageIsHigh(x);
    MinCompositeAtMost(spread, volatility, reward);
  }

  lemma AverageAtLeast(sum: real, count: real, low: real)
    requires count > 0.0 && sum - low * count >= 0.0
    ensures sum / count >= low
  {
    DivideMonotone(low * count, sum, count);
    assert low * count / count == low;
  }

  lemma FirstScoreCounts(x: Input)
    requires GatesOpen(x)
    ensures ScoreCount(Early(x)) > 0
  {
    EarlyAt(x, 17);
    assert Open(x, 17);
    Layer17Passes(x);
    assert Early(x)[16].score.Some?;
  }

  // ---- Layers 18 and 19 over the early results ----

  lemma EarlyFind(x: Input, more: seq<LayerResult>, layer: nat)
    requires 1 <= layer <= 17
    requires forall i :: 0 <= i < |more| ==> more[i].layer == 18 + i
    ensures Find(Early(x) + more, layer) == Some(Early(x)[layer - 1])
  {
    var all := Early(x) + more;
    assert forall i :: 0 <= i < |all| ==> all[i].layer == i + 1;
    FindInOrder(all, 0, layer);
  }

  /** What layers 18 and 19 read back from the early results of open gates. */
  lemma ReadBack(x: Input, more: seq<LayerResult>)
    requires GatesOpen(x) && forall i :: 0 <= i < |more| ==> more[i].layer == 18 + i
    ensures MetricsOf(Early(x) + more, 2).spreadPoints == Spread(x)
    ensures MetricsOf(Early(x) + more, 16).riskRewardRatio == x.riskRewardRatio
  {
    EarlyFind(x, more, 2);
    EarlyFind(x, more, 16);
    EarlyAt(x, 2);
    EarlyAt(x, 16);
    assert Open(x, 2) && Open(x, 16);
    Layer2Passes(x);
    Layer16Passes(x);
  }

  lemma ConfluenceReadBack(x: Input)
    requires GatesOpen(x)
    ensures ConfluenceOf(Early(x)).Some? && ConfluenceOf(Early(x)).value >= 75.0
  {
    assert Early(x) + [] == Early(x);
    EarlyFind(x, [], 11);
    EarlyAt(x, 11);
    assert Open(x, 11);
    Layer11Passes(x);
  }

  lemma EarlyPassedAt(x: Input, more: seq<LayerResult>, layer: nat)
    requires GatesOpen(x) && 1 <= layer <= 17 && Required(layer)
    requires forall i :: 0 <= i < |more| ==> more[i].layer == 18 + i
    ensures PassedAt(Early(x) + more, layer)
  {
    EarlyPassesExactly(x);
    assert RequiredPass(x, layer);
    EarlyFind(x, more, layer);
  }

  lemma CriticalAllPassed(x: Input)
    requires GatesOpen(x)
    ensures CriticalPassed(Early(x)) && Failures(Early(x), [5, 7, 10, 13]) == 0
  {
    assert Early(x) + [] == Early(x);
    EarlyPassedAt(x, [], 1); EarlyPassedAt(x, [], 2); EarlyPassedAt(x, [], 3); EarlyPassedAt(x, [], 4);
    EarlyPassedAt(x, [], 6); EarlyPassedAt(x, [], 11); EarlyPassedAt(x, [], 12); EarlyPassedAt(x, [], 14);
    EarlyPassedAt(x, [], 16); EarlyPassedAt(x, [], 17);
    EarlyPassedAt(x, [], 5); EarlyPassedAt(x, [], 7); EarlyPassedAt(x, [], 10); EarlyPassedAt(x, [], 13);
    assert [5, 7, 10, 13][1..] == [7, 10, 13] && [7, 10, 13][1..] == [10, 13] && [10, 13][1..] == [13] && [13][1..] == [];
    assert Failures(Early(x), [13]) == 0;
    assert Failures(Early(x), [10, 13]) == 0;
    assert Failures(Early(x), [7, 10, 13]) == 0;
  }

  function Eighteenth(x: Input): LayerResult {
    Standard(18, Layer18(Early(x)))
  }

  function Nineteenth(x: Input): LayerResult {
    Standard(19, Layer19(Early(x) + [Eighteenth(x)]))
  }

  lemma ValidationPasses(previous: seq<LayerResult>)
    requires CriticalPassed(previous) && Failures(previous, [5, 7, 10, 13]) == 0
    requires ConfluenceOf(previous).Some? && ConfluenceOf(previous).value >= 75.0
    requires AverageScore(previous) >=
             MinComposite(MetricsOf(previous, 2).spreadPoints, MetricsOf(previous, 3).volatility, MetricsOf(previous, 16).riskRewardRatio)
    ensures Standard(18, Layer18(previous)).status.Pass?
  {
  }

  /** The final validation never rejects what the earlier required layers let through. */
  lemma Layer18Passes(x: Input)
    requires GatesOpen(x)
    ensures Eighteenth(x).status.Pass? && Eighteenth(x).layer == 18
  {
    var e := Early(x);
    CompositeIsImplied(x, MetricsOf(e, 2).spreadPoints, MetricsOf(e, 3).volatility, MetricsOf(e, 16).riskRewardRatio);
    CriticalAllPassed(x);
    ConfluenceReadBack(x);
    ValidationPasses(e);
  }

  lemma ClearancePasses(previous: seq<LayerResult>)
    requires PassedAt(previous, 18) && PassedAt(previous, 12)
    ensures var spread, reward := MetricsOf(previous, 2).spreadPoints, MetricsOf(previous, 16).riskRewardRatio;
      Standard(19, Layer19(previous)).status.Pass? <==>
      (spread.None? || spread.value <= 25.0) && (reward.None? || reward.value >= 1.6)
  {
  }

  lemma EighteenthPassedAt(x: Input)
    requires GatesOpen(x)
    ensures PassedAt(Early(x) + [Eighteenth(x)], 18)
  {
    Layer18Passes(x);
    var all := Early(x) + [Eighteenth(x)];
    assert forall i :: 0 <= i < |all| ==> all[i].layer == i + 1;
    FindInOrder(all, 0, 18);
  }

  lemma SpreadAndRewardGiven(x: Input)
    requires GatesOpen(x)
    ensures Spread(x).Some? && x.riskRewardRatio.Some?
  {
    assert Open(x, 2) && Open(x, 16);
  }

  /** The execution clearance then tightens spread and reward. */
  lemma Layer19PassesExactly(x: Input)
    requires GatesOpen(x)
    ensures Nineteenth(x).status.Pass? <==> SpreadUpTo(x, 25.0) && RewardAtLeast(x, 1.6)
  {
    var more := [Eighteenth(x)];
    EighteenthPassedAt(x);
    ReadBack(x, more);
    EarlyPassedAt(x, more, 12);
    SpreadAndRewardGiven(x);
    ClearancePasses(Early(x) + more);
  }

  // ---- The run ----

  /** Up to its cut, a run's results are the early results, then layers 18 and 19. */
  lemma RunIsEarly(x: Input, r: seq<LayerResult>, cut: nat)
    requires Explained(Processors(x), r, cut) && cut <= LAYERS
    ensures forall i :: 0 <= i < cut && i < 17 ==> r[i] == Early(x)[i]
    ensures cut > 17 ==> r[..17] == Early(x) && r[17] == Eighteenth(x)
    ensures cut > 18 ==> r[18] == Nineteenth(x)
    ensures cut > 19 ==> r[19].status.Pass?
  {
    forall i | 0 <= i < cut && i < 17
      ensures r[i] == Early(x)[i]
    {
      EarlyAt(x, i + 1);
    }
    if cut > 17 {
      assert r[..17] == Early(x);
      if cut > 18 {
        assert r[..18] == Early(x) + [Eighteenth(x)];
      }
    }
  }

  lemma ReadyIsCleared(x: Input, r: seq<LayerResult>, cut: nat)
    requires Explained(Processors(x), r, cut) && InOrder(r) && |r| == LAYERS
    requires forall layer :: 1 <= layer <= LAYERS && Required(layer) ==> r[layer - 1].status.Pass?
    ensures Cleared(x)
  {
    assert Required(18) && Required(19) && Required(LAYERS);
    assert r[LAYERS - 1].status.Pass?;
    assert cut == LAYERS;
    RunIsEarly(x, r, cut);
    forall layer | 1 <= layer <= 17
      ensures RequiredPass(x, layer)
    {
      assert Required(layer) ==> r[layer - 1].status.Pass?;
    }
    EarlyPassesExactly(x);
    assert r[17].status.Pass? && r[18].status.Pass?;
    Layer18Passes(x);
    Layer19PassesExactly(x);
  }

  lemma ClearedPasses(x: Input, r: seq<LayerResult>, cut: nat, layer: nat)
    requires Cleared(x) && Explained(Processors(x), r, cut) && 1 <= layer <= cut <= LAYERS && Required(layer)
    ensures r[layer - 1].status.Pass?
  {
    RunIsEarly(x, r, cut);
    if layer <= 17 {
      EarlyPassesExactly(x);
      assert RequiredPass(x, layer);
    } else {
      Layer18Passes(x);
      Layer19PassesExactly(x);
    }
  }

  lemma PassedGoesOn(results: seq<LayerResult>, o: Outcome)
    requires Required(|results| + 1) ==> Standard(|results| + 1, o).status.Pass?
    ensures Stops(results, o) <==> |results| + 1 >= LAYERS
  {
  }

  lemma ClearedRunsThrough(x: Input, r: seq<LayerResult>, cut: nat)
    requires Cleared(x) && Explained(Processors(x), r, cut) && 0 < cut <= |r| <= LAYERS
    requires Stops(r[..cut - 1], Processors(x)(cut, r[..cut - 1]))
    ensures cut == LAYERS
    ensures forall layer :: 1 <= layer <= LAYERS && Required(layer) ==> r[layer - 1].status.Pass?
  {
    if Required(cut) {
      ClearedPasses(x, r, cut, cut);
    }
    PassedGoesOn(r[..cut - 1], Processors(x)(cut, r[..cut - 1]));
    forall layer | 1 <= layer <= cut && Required(layer)
      ensures r[layer - 1].status.Pass?
    {
      ClearedPasses(x, r, cut, layer);
    }
  }

  /**
   A run is ready exactly when the quote is at most a minute old with positive prices, the spread at most 25
   points, volatility 10 to 200, two thirds of the higher trends run the signal's way, indicators and moving
   averages agree, the rounded weighted confluence is at least 75, no news impact reaches 70, reward to risk is
   at least 1.6, the position is sized within its limits, and no layer caught an exception.
   */
  lemma ReadyExactlyWhenCleared(x: Input)
    ensures Analyse(RunFrom(Processors(x), [])).layer18Ready <==> Cleared(x)
  {
    var p := Processors(x);
    var r := RunFrom(p, []);
    RunShape(p, []);
    ReadyIsAllRequired(r);
    var cut := RunExplained(p, []);
    if Cleared(x) {
      ClearedRunsThrough(x, r, cut);
    }
    if Analyse(r).layer18Ready {
      ReadyIsCleared(x, r, cut);
    }
  }

  /** A ready signal buys or sells: the trend layer agrees with no other direction, though layer 11 would with neutral trends. */
  lemma ReadyDirection(x: Input)
    requires Analyse(RunFrom(Processors(x), [])).layer18Ready
    ensures x.direction == Some(Buy) || x.direction == Some(Sell)
  {
    ReadyExactlyWhenCleared(x);
    assert Open(x, 4);
    AlignedDirection(x);
  }

  lemma AlignedDirection(x: Input)
    requires TrendAligned(x)
    ensures x.direction == Some(Buy) || x.direction == Some(Sell)
  {
    NobodyAgreesWithOther(HigherTrends(x), 3);
    assert x.direction.value != Other;
  }

  lemma {:induction false} NobodyAgreesWithOther(trends: seq<Option<Trend>>, n: nat)
    requires n <= |trends|
    ensures Agreeing(Other, trends, n) == 0
  {
    if n > 0 {
      NobodyAgreesWithOther(trends, n - 1);
    }
  }

  // ---- What readiness entails for the position ----

  lemma LotsUnclamped(balance: real, pips: real)
    requires pips > 0.0 && balance > 0.0 && 0.01 <= balance * 0.015 / (pips * 10.0) <= 5.0
    ensures Abs(Lots(balance, pips) - balance * 0.015 / (pips * 10.0)) <= 0.005
  {
    var ideal := balance * 0.015 / (pips * 10.0);
    var n := Round(ideal * 100.0) as real;
    assert -0.5 <= n - ideal * 100.0 <= 0.5;
  }

  /** Between the lot limits the money at risk is the 1.5 percent target, off by at most half a hundredth of a lot. */
  lemma RiskNearTarget(balance: real, pips: real)
    requires pips > 0.0 && balance > 0.0 && 0.01 <= balance * 0.015 / (pips * 10.0) <= 5.0
    ensures Abs(Risk(Lots(balance, pips), pips) - balance * 0.015) <= 0.005 * pips * 10.0
  {
    LotsUnclamped(balance, pips);
    RiskOff(Lots(balance, pips), balance * 0.015 / (pips * 10.0), balance * 0.015, pips);
  }

  lemma RiskOff(lots: real, ideal: real, target: real, pips: real)
    requires pips > 0.0 && Abs(lots - ideal) <= 0.005 && ideal == target / (pips * 10.0)
    ensures Abs(Risk(lots, pips) - target) <= 0.005 * pips * 10.0
  {
    var unit, off := pips * 10.0, lots - ideal;
    Regroup(lots, pips);
    Regroup(0.005, pips);
    QuotientTimesUnit(target, unit);
    assert lots * unit - ideal * unit == off * unit;
    MultiplyMonotone(off, 0.005, unit);
    MultiplyMonotone(-0.005, off, unit);
    assert -0.005 * unit == -(0.005 * unit);
    assert Risk(lots, pips) - target == off * unit;
    assert 0.005 * pips * 10.0 == 0.005 * unit;
  }

  lemma Regroup(lots: real, pips: real)
    ensures Risk(lots, pips) == lots * (pips * 10.0) == lots * pips * 10.0
  {
  }

  lemma QuotientTimesUnit(x: real, unit: real)
    requires unit != 0.0
    ensures x / unit * unit == x
  {
  }

  lemma PercentOfBalance(risk: real, balance: real)
    requires balance != 0.0 && risk > 0.0 && risk / balance * 100.0 <= 3.0
    ensures balance > 0.0 <==> risk <= 0.03 * balance
  {
    var q := risk / balance;
    assert q * balance == risk;
    if balance > 0.0 {
      MultiplyMonotone(q, 0.03, balance);
    }
  }

  lemma RiskIsPositive(lots: real, pips: real)
    requires lots >= 0.01 && pips >= 10.0
    ensures Risk(lots, pips) > 0.0
  {
    assert lots * pips > 0.0;
  }

  lemma SizedRisk(balance: real, pips: real)
    requires balance != 0.0 && pips >= 10.0 && RiskPercent(balance, pips) <= 3.0
    ensures Risk(Lots(balance, pips), pips) <= 0.03 * balance <==> balance > 0.0
  {
    LotsAtLeastMinimum(balance, pips);
    RiskIsPositive(Lots(balance, pips), pips);
    PercentOfBalance(Risk(Lots(balance, pips), pips), balance);
  }

  /**
   Ready runs are sized between 0.01 and 5 lots. Their risk is at most 3 percent of the balance exactly when the
   reported balance is positive: the percentage gate alone lets a negative balance through.
   */
  lemma ReadyRisk(x: Input)
    requires Analyse(RunFrom(Processors(x), [])).layer18Ready
    ensures PositionSized(x)
    ensures var pips := StopPips(x.entry.value, x.stop.value);
      && 0.01 <= Lots(Balance(x), pips) < 5.0
      && (Risk(Lots(Balance(x), pips), pips) <= 0.03 * Balance(x) <==> Balance(x) > 0.0)
  {
    ReadyExactlyWhenCleared(x);
    assert Open(x, 17);
    SizedGates(x);
  }

  lemma SizedGates(x: Input)
    requires PositionSized(x)
    ensures var pips := StopPips(x.entry.value, x.stop.value);
      && 0.01 <= Lots(Balance(x), pips) < 5.0
      && (Risk(Lots(Balance(x), pips), pips) <= 0.03 * Balance(x) <==> Balance(x) > 0.0)
  {
    var pips := StopPips(x.entry.value, x.stop.value);
    LotsAtLeastMinimum(Balance(x), pips);
    SizedRisk(Balance(x), pips);
  }

  /** Without a balance of its own the snapshot counts as 10000, and a ready run risks at most 300. */
  lemma DefaultBalanceRisk(x: Input)
    requires x.accountBalance.None? && Analyse(RunFrom(Processors(x), [])).layer18Ready
    ensures PositionSized(x)
    ensures Risk(Lots(10000.0, StopPips(x.entry.value, x.stop.value)), StopPips(x.entry.value, x.stop.value)) <= 300.0
  {
    ReadyRisk(x);
    assert Balance(x) == 10000.0;
  }

  /** A calm market with M15 and H4 bars alone, both rising, and a buy with a stop 20 pips away. */
  function CalmBuy(balance: real): Input {
    Input(1.0, Some(Quote(Some(1.0), None, Some(2.0), Some(2.001), Some(10.0), None, None)), None, Some(50.0),
          Trends(Some(Bullish), None, Some(Bullish), None), None, None, None, [], Some(balance),
          Some(Buy), Some(2.0), Some(2.0), Some(1.998), true, {}, 0.0)
  }

  lemma CalmBuyAgrees(balance: real)
    ensures TrendAligned(CalmBuy(balance)) && TimeframesAgree(CalmBuy(balance))
  {
    var x := CalmBuy(balance);
    var h, t := HigherTrends(x), AllTrends(x);
    assert Analysed(h, 1) == Agreeing(Buy, h, 1) == 0;
    assert Analysed(h, 2) == Agreeing(Buy, h, 2) == 1;
    assert Weight(t, 1) == AlignedWeight(Buy, t, 1) == 1;
    assert Weight(t, 2) == AlignedWeight(Buy, t, 2) == 1;
    assert Weight(t, 3) == AlignedWeight(Buy, t, 3) == 4;
  }

  lemma CalmBuyReady(balance: real)
    requires PositionSized(CalmBuy(balance))
    ensures Analyse(RunFrom(Processors(CalmBuy(balance)), [])).layer18Ready
  {
    var x := CalmBuy(balance);
    CalmBuyAgrees(balance);
    forall layer: nat | 1 <= layer <= 17
      ensures Open(x, layer)
    {
    }
    ReadyExactlyWhenCleared(x);
  }

  /** On inputs that bars give, runs end ready on a positive balance, and on a negative one, which no risk is 3 percent of. */
  lemma NegativeBalancePasses()
    ensures exists x: Input :: Consistent(x) && Balance(x) < 0.0 && Analyse(RunFrom(Processors(x), [])).layer18Ready
    ensures exists x: Input :: Consistent(x) && Balance(x) > 0.0 && Analyse(RunFrom(Processors(x), [])).layer18Ready
  {
    assert StopPips(2.0, 1.998) == 20.0;
    assert IdealLots(-1000.0, 20.0).value < 0.0;
    assert Lots(-1000.0, 20.0) == 0.01 && RiskPercent(-1000.0, 20.0) == -0.2;
    assert IdealLots(10000.0, 20.0) == Some(0.75);
    assert Lots(10000.0, 20.0) == 0.75 && RiskPercent(10000.0, 20.0) == 1.5;
    assert Consistent(CalmBuy(-1000.0)) && Consistent(CalmBuy(10000.0));
    assert Balance(CalmBuy(-1000.0)) == -1000.0 && Balance(CalmBuy(10000.0)) == 10000.0;
    CalmBuyReady(-1000.0);
    CalmBuyReady(10000.0);
  }
}
