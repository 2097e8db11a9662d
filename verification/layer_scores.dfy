/**
 What a ready run reports: the score of every layer, on the fields of the snapshot and the signal alone.
 */
module LayerScores {
  import opened Options
  import opened JsNumbers
  import opened Sums
  import opened LayerPipeline
  import opened LayerGates
  import opened LayerReadiness
  import opened LayerMeaning

  // ---- The score sheet ----

  /** All trends there run the given way, or one of three does not. */
  function TrendPoints(t: Trends, way: Trend): real {
    if (t.h1.None? || t.h1.value == way) && (t.h4.None? || t.h4.value == way) && (t.d1.None? || t.d1.value == way) then 100.0 else 67.0
  }

  /** A support backs a buy and a resistance a sell; away from a level, ten pips make room. */
  function LevelPoints(level: Option<Level>, buy: bool): real {
    match level
    case None => 60.0
    case Some(Level(kind, true, _)) => if kind.Pivot? then 80.0 else if kind.Support? == buy then 90.0 else 75.0
    case Some(Level(_, false, distance)) => if distance >= 10.0 then 80.0 else 75.0
  }

  /** How many of RSI and MACD stand on the stochastic's side, or 67 against it. */
  function IndicatorPoints(indicators: Option<Indicators>, buy: bool): real {
    match indicators
    case None => 60.0
    case Some(i) =>
      var rsi, histogram, k := i.rsi.GetOr(0.0), i.histogram.GetOr(0.0), i.stochastic.GetOr(0.0);
      var along := if buy then If(rsi >= 50.0, 1) + If(histogram > 0.0, 1) else If(rsi <= 50.0, 1) + If(histogram < 0.0, 1);
      if (k >= 50.0) != buy || along == 0 then 67.0 else if along == 1 then 83.0 else 100.0
  }

  /** Full marks for the signal's side of all three averages without a crossover against it; else one vote of three to four and a half is lost. */
  function AveragePoints(averages: Option<MovingAverages>, price: real, buy: bool): real {
    match averages
    case None => 60.0
    case Some(m) =>
      var sides := If((price > m.sma20.GetOr(0.0)) == buy, 1) + If((price > m.sma50.GetOr(0.0)) == buy, 1)
                   + If((price > m.ema21.GetOr(0.0)) == buy, 1);
      var fast, middle, slow := m.sma20.GetOr(0.0), m.sma50.GetOr(0.0), m.sma200.GetOr(0.0);
      var stacked := if buy then fast > middle > slow else fast < middle < slow;
      if sides == 3 && m.crossover != (if buy then Death else Golden) then 100.0
      else if m.crossover.NoCross? then (if stacked then 71.0 else 67.0)
      else if stacked then 78.0 else 75.0
  }

  /** The percentage of the weights 1 to 4 of the trends there that does not run the other way. */
  function ConfluencePoints(t: Trends, other: Trend): real {
    var there := If(t.m15.Some?, 1) + If(t.h1.Some?, 2) + If(t.h4.Some?, 3) + If(t.d1.Some?, 4);
    var against := If(t.m15 == Some(other), 1) + If(t.h1 == Some(other), 2) + If(t.h4 == Some(other), 3) + If(t.d1 == Some(other), 4);
    if there == 0 then 0.0 else Round((there - against) as real / there as real * 100.0) as real
  }

  /** The spread of a quote in points. */
  function Points(q: Quote): real {
    if q.spreadPoints.Some? then q.spreadPoints.value
    else if q.spread.Some? then q.spread.value
    else (q.ask.GetOr(0.0) - q.bid.GetOr(0.0)) / Point(q)
  }

  function Sheet(x: Input, buy: bool): (sheet: seq<real>)
    requires x.quote.Some? && x.riskRewardRatio.Some?
    ensures |sheet| == 17
  {
    [100.0, 100.0 - 2.0 * Points(x.quote.value) / 3.0, 80.0,
     TrendPoints(x.trends, if buy then Bullish else Bearish), LevelPoints(x.level, buy), IndicatorPoints(x.indicators, buy),
     AveragePoints(x.averages, x.quote.value.bid.GetOr(0.0), buy), 70.0, 60.0, 75.0,
     ConfluencePoints(x.trends, if buy then Bearish else Bullish), 100.0, 90.0, 80.0, 70.0,
     if x.riskRewardRatio.value >= 2.5 then 100.0 else 40.0 * x.riskRewardRatio.value, 85.0]
  }

  // ---- Each layer's score ----

  predicate Has(r: LayerResult, score: real) {
    r.status.Pass? && r.score == Some(score)
  }

  ghost predicate Ready(x: Input) {
    Analyse(RunFrom(Processors(x), [])).layer18Ready
  }

  lemma Rounded(part: real, whole: real, n: int)
    requires whole > 0.0 && (n as real - 0.5) * whole <= 100.0 * part < (n as real + 0.5) * whole
    ensures Round(part / whole * 100.0) == n
  {
    var share, low, high := part / whole, n as real - 0.5, n as real + 0.5;
    assert share * whole == part;
    Compared(100.0 * share, low, whole);
    Compared(100.0 * share, high, whole);
    assert 100.0 * share * whole == 100.0 * part;
    RoundExactly(share * 100.0, n);
  }

  lemma Compared(x: real, y: real, whole: real)
    requires whole > 0.0
    ensures x >= y <==> x * whole >= y * whole
  {
    assert (x - y) * whole == x * whole - y * whole;
  }

  lemma SpreadScore(x: Input)
    requires SpreadUpTo(x, 30.0)
    ensures x.quote.Some? && Has(Result(x, 2), 100.0 - 2.0 * Points(x.quote.value) / 3.0)
  {
    assert Spread(x) == Some(Points(x.quote.value));
  }

  lemma RewardScore(x: Input)
    requires RewardAtLeast(x, 1.5)
    ensures Has(Result(x, 16), if x.riskRewardRatio.value >= 2.5 then 100.0 else 40.0 * x.riskRewardRatio.value)
  {
  }

  lemma TrendScore(x: Input, buy: bool)
    requires Open(x, 4) && x.direction == Some(if buy then Buy else Sell)
    ensures Has(Result(x, 4), TrendPoints(x.trends, if buy then Bullish else Bearish))
  {
    var t, d := HigherTrends(x), if buy then Buy else Sell;
    assert Analysed(t, 1) == If(t[0].Some?, 1);
    assert Analysed(t, 2) == Analysed(t, 1) + If(t[1].Some?, 1);
    assert Analysed(t, 3) == Analysed(t, 2) + If(t[2].Some?, 1);
    assert Agreeing(d, t, 1) == If(t[0].Some? && Agrees(d, t[0].value), 1);
    assert Agreeing(d, t, 2) == Agreeing(d, t, 1) + If(t[1].Some? && Agrees(d, t[1].value), 1);
    assert Agreeing(d, t, 3) == Agreeing(d, t, 2) + If(t[2].Some? && Agrees(d, t[2].value), 1);
    LayerPassesExactly(x, 4);
    Rounded(Agreeing(d, t, 3) as real, Analysed(t, 3) as real, if Agreeing(d, t, 3) == Analysed(t, 3) then 100 else 67);
  }

  lemma LevelScored(x: Input, buy: bool)
    requires Open(x, 5) && x.direction == Some(if buy then Buy else Sell)
    ensures Has(Result(x, 5), LevelPoints(x.level, buy))
  {
  }

  lemma IndicatorScore(x: Input, buy: bool)
    requires Whole(x) && Open(x, 6) && x.direction == Some(if buy then Buy else Sell)
    ensures Has(Result(x, 6), IndicatorPoints(x.indicators, buy))
  {
    if x.indicators.Some? {
      var d, i := if buy then Buy else Sell, x.indicators.value;
      var b := IndicatorBallot(d, i);
      StochasticDecides(d, i);
      assert b == Ballot(b.aligned, 3.0);
      LayerPassesExactly(x, 6);
      Rounded(b.aligned, 3.0, if b.aligned == 3.0 then 100 else if b.aligned == 2.5 then 83 else 67);
    }
  }

  lemma AverageScored(x: Input, buy: bool)
    requires Whole(x) && QuoteAtMostMinuteOld(x) && Open(x, 7) && x.direction == Some(if buy then Buy else Sell)
    ensures Has(Result(x, 7), AveragePoints(x.averages, x.quote.value.bid.GetOr(0.0), buy))
  {
    var price := x.quote.value.bid.value;
    assert CurrentPrice(x) == Some(price);
    if x.averages.Some? {
      BallotScored(x.averages.value, price, buy);
    }
  }

  lemma BallotScored(m: MovingAverages, price: real, buy: bool)
    requires m.sma20.Some? && m.sma50.Some? && m.sma200.Some? && m.ema21.Some?
    requires Share(AverageBallot(if buy then Buy else Sell, price, m)) >= 0.65
    ensures Round(Share(AverageBallot(if buy then Buy else Sell, price, m)) * 100.0) as real == AveragePoints(Some(m), price, buy)
  {
    var d := if buy then Buy else Sell;
    var b := AverageBallot(d, price, m);
    AverageBallotMeaning(m, price, buy);
    var sides := OnSide(d, price, m.sma20) + OnSide(d, price, m.sma50) + OnSide(d, price, m.ema21);
    var bonus := if Stacked(d, m) then 0.5 else 0.0;
    var crossed := if m.crossover.NoCross? then 0.0 else 1.0;
    var along := if (buy && m.crossover.Golden?) || (!buy && m.crossover.Death?) then 1.0 else 0.0;
    assert b == Ballot(sides + bonus + along, 3.0 + bonus + crossed);
    Rounded(b.aligned, b.total,
            if b.aligned == b.total then 100 else if b.total == 3.0 then 67 else if b.total == 3.5 then 71 else if b.total == 4.0 then 75 else 78);
  }

  lemma ConfluenceScored(x: Input, buy: bool)
    requires Open(x, 11) && x.direction == Some(if buy then Buy else Sell)
    ensures Has(Result(x, 11), ConfluencePoints(x.trends, if buy then Bearish else Bullish))
  {
    var ts := AllTrends(x);
    WeightMeaning(x.trends, ts);
    AlignedMeaning(x.trends, ts, buy, if buy then Bearish else Bullish);
  }

  // ---- The run ----

  lemma OpenGate(x: Input, layer: nat)
    requires GatesOpen(x) && 1 <= layer <= 17
    ensures Open(x, layer)
  {
  }

  lemma MarketScored(x: Input, buy: bool, layer: nat)
    requires Open(x, 1) && Open(x, 2) && Open(x, 16) && Open(x, layer) && 1 <= layer <= 17 && layer !in GUARDED
    ensures Has(Result(x, layer), Sheet(x, buy)[layer - 1])
  {
    match layer
    case 2 => SpreadScore(x);
    case 16 => RewardScore(x);
    case _ =>
  }

  lemma TrendsScored(x: Input, buy: bool, layer: nat)
    requires Open(x, 1) && Open(x, 16) && Open(x, layer) && layer in {4, 5, 11, 17}
    requires x.direction == Some(if buy then Buy else Sell)
    ensures Has(Result(x, layer), Sheet(x, buy)[layer - 1])
  {
    match layer
    case 4 => TrendScore(x, buy);
    case 5 => LevelScored(x, buy);
    case 11 => ConfluenceScored(x, buy);
    case 17 => LayerPassesExactly(x, 17);
  }

  lemma BallotsScored(x: Input, buy: bool, layer: nat)
    requires Whole(x) && Open(x, 1) && Open(x, 16) && Open(x, layer) && layer in {6, 7}
    requires x.direction == Some(if buy then Buy else Sell)
    ensures Has(Result(x, layer), Sheet(x, buy)[layer - 1])
  {
    match layer
    case 6 => IndicatorScore(x, buy);
    case 7 => AverageScored(x, buy);
  }

  lemma ScoresOnSheet(x: Input, buy: bool, layer: nat)
    requires Whole(x) && GatesOpen(x) && x.direction == Some(if buy then Buy else Sell) && 1 <= layer <= 17
    ensures x.quote.Some? && x.riskRewardRatio.Some? && Has(Result(x, layer), Sheet(x, buy)[layer - 1])
  {
    OpenGate(x, 1);
    OpenGate(x, 2);
    OpenGate(x, 16);
    OpenGate(x, layer);
    if layer in {4, 5, 11, 17} {
      TrendsScored(x, buy, layer);
    } else if layer in {6, 7} {
      BallotsScored(x, buy, layer);
    } else {
      MarketScored(x, buy, layer);
    }
  }

  /** What a run up to layer 19 has cleared: its results are those of the gates, in order. */
  lemma ReadyResults(x: Input)
    requires Ready(x)
    ensures Cleared(x)
    ensures var r := RunFrom(Processors(x), []);
      |r| == 20 && r[..17] == Early(x) && r[17] == Eighteenth(x) && r[18] == Nineteenth(x)
  {
    ReadyExactlyWhenCleared(x);
    var p := Processors(x);
    var r := RunFrom(p, []);
    RunShape(p, []);
    ReadyIsAllRequired(r);
    var cut := RunExplained(p, []);
    ClearedRunsThrough(x, r, cut);
    RunIsEarly(x, r, cut);
  }

  lemma {:induction false} SheetSum(results: seq<LayerResult>, sheet: seq<real>, n: nat)
    requires n <= |results| && n <= |sheet|
    requires forall i :: 0 <= i < n ==> results[i].score == Some(sheet[i])
    ensures ScoreSum(results[..n]) == Sum(sheet[..n]) && ScoreCount(results[..n]) == n
  {
    if n > 0 {
      SheetSum(results, sheet, n - 1);
      assert results[..n][..n - 1] == results[..n - 1] && sheet[..n][..n - 1] == sheet[..n - 1];
    }
  }

  lemma EarlyAverage(x: Input, sheet: seq<real>)
    requires |sheet| == 17 && forall i :: 0 <= i < 17 ==> Early(x)[i].score == Some(sheet[i])
    ensures AverageScore(Early(x)) == Sum(sheet) / 17.0
  {
    SheetSum(Early(x), sheet, 17);
    assert Early(x)[..17] == Early(x) && sheet[..17] == sheet;
  }

  lemma TenthNear(avg: real)
    ensures Abs(Round(avg * 10.0) as real / 10.0 - avg) <= 0.05
  {
  }

  lemma FinalScore(x: Input)
    requires GatesOpen(x)
    ensures Has(Eighteenth(x), Round(AverageScore(Early(x)) * 10.0) as real / 10.0)
  {
    Layer18Passes(x);
    AverageIsHigh(x);
    TenthNear(AverageScore(Early(x)));
  }

  /** With the spread within 25 points neither the cap of 20 on its malus nor the floor of 55 on the score ever acts. */
  lemma ClearanceScore(previous: seq<LayerResult>, spread: real, volatility: real, confluence: real, reward: real)
    requires PassedAt(previous, 18) && PassedAt(previous, 12) && spread <= 25.0 && reward >= 1.6
    requires MetricsOf(previous, 2).spreadPoints == Some(spread) && MetricsOf(previous, 3).volatility == Some(volatility)
    requires ConfluenceOf(previous) == Some(confluence) && MetricsOf(previous, 16).riskRewardRatio == Some(reward)
    ensures Has(Standard(19, Layer19(previous)), Cleared19(spread, volatility, confluence, reward))
  {
  }

  function Cleared19(spread: real, volatility: real, confluence: real, reward: real): real {
    var bonus := (if volatility > 150.0 then -8.0 else 0.0) + (if confluence >= 85.0 then 4.0 else 0.0) + (if reward >= 2.0 then 4.0 else 0.0);
    var score := Round(92.0 - spread / 2.0 + bonus);
    if score <= 99 then score as real else 99.0
  }

  lemma ClearanceReads(x: Input, buy: bool)
    requires Cleared(x) && x.direction == Some(if buy then Buy else Sell)
    ensures x.quote.Some? && x.volatility.Some? && x.riskRewardRatio.Some?
    ensures Has(Nineteenth(x), Cleared19(Points(x.quote.value), x.volatility.value,
                                         ConfluencePoints(x.trends, if buy then Bearish else Bullish), x.riskRewardRatio.value))
  {
    var more := [Eighteenth(x)];
    OpenGate(x, 2);
    OpenGate(x, 3);
    OpenGate(x, 11);
    OpenGate(x, 12);
    OpenGate(x, 16);
    EighteenthPassedAt(x);
    ReadBack(x, more);
    EarlyPassedAt(x, more, 12);
    EarlyFind(x, more, 3);
    EarlyAt(x, 3);
    Layer3Passes(x);
    EarlyFind(x, more, 11);
    EarlyAt(x, 11);
    Layer11Passes(x);
    ConfluenceScored(x, buy);
    ClearanceScore(Early(x) + more, Points(x.quote.value), x.volatility.value,
                   ConfluencePoints(x.trends, if buy then Bearish else Bullish), x.riskRewardRatio.value);
  }

  lemma EarlyOnSheet(x: Input, buy: bool)
    requires Whole(x) && GatesOpen(x) && x.direction == Some(if buy then Buy else Sell)
    ensures x.quote.Some? && x.riskRewardRatio.Some? && OnSheet(Early(x), Sheet(x, buy))
  {
    ScoresOnSheet(x, buy, 1);
    forall i | 0 <= i < 17
      ensures Has(Early(x)[i], Sheet(x, buy)[i])
    {
      ScoresOnSheet(x, buy, i + 1);
      EarlyAt(x, i + 1);
    }
  }

  /** The first results passed with the scores of the sheet. */
  predicate OnSheet(results: seq<LayerResult>, sheet: seq<real>) {
    |sheet| <= |results| && forall i :: 0 <= i < |sheet| ==> Has(results[i], sheet[i])
  }

  /** The layer passed with the mean of the sheet, to a tenth. */
  predicate NearMean(r: LayerResult, sheet: seq<real>)
    requires |sheet| == 17
  {
    r.status.Pass? && r.score.Some? && Abs(r.score.value - Sum(sheet) / 17.0) <= 0.05
  }

  lemma FinalIsMean(x: Input, sheet: seq<real>)
    requires GatesOpen(x) && |sheet| == 17 && OnSheet(Early(x), sheet)
    ensures NearMean(Eighteenth(x), sheet)
  {
    EarlyAverage(x, sheet);
    FinalScore(x);
    TenthNear(AverageScore(Early(x)));
  }

  lemma PrefixOnSheet(results: seq<LayerResult>, early: seq<LayerResult>, sheet: seq<real>)
    requires |early| <= |results| && results[..|early|] == early && OnSheet(early, sheet)
    ensures OnSheet(results, sheet)
  {
    assert forall i :: 0 <= i < |early| ==> results[i] == results[..|early|][i];
  }

  /**
   A ready run reports the score sheet: seventeen positive scores, at layer 18 their mean to a tenth, at layer 19 the
   clearance of its spread, volatility, confluence and reward, all passed.
   */
  lemma ReadyReport(x: Input, buy: bool)
    requires Whole(x) && Ready(x) && x.direction == Some(if buy then Buy else Sell)
    ensures x.quote.Some? && x.volatility.Some? && x.riskRewardRatio.Some?
    ensures var r := RunFrom(Processors(x), []);
      && |r| == 20 && OnSheet(r, Sheet(x, buy))
      && NearMean(r[17], Sheet(x, buy))
      && Has(r[18], Cleared19(Points(x.quote.value), x.volatility.value,
                              ConfluencePoints(x.trends, if buy then Bearish else Bullish), x.riskRewardRatio.value))
  {
    ReadyResults(x);
    EarlyOnSheet(x, buy);
    PrefixOnSheet(RunFrom(Processors(x), []), Early(x), Sheet(x, buy));
    FinalIsMean(x, Sheet(x, buy));
    ClearanceReads(x, buy);
  }

  // ---- Runs that are not ready ----

  /** Of a position with a stop the first limit broken decides the score: size, risk, then the stop's distance. */
  lemma SizeScore(x: Input)
    requires Intact(x, 17) && Truthy(x.entry) && Truthy(x.stop) && x.hasPair && x.entry.value != x.stop.value
    ensures var pips := Abs(x.entry.value - x.stop.value) * 10000.0;
      var balance := if x.accountBalance.GetOr(0.0) != 0.0 then x.accountBalance.value else 10000.0;
      Result(x, 17).score ==
      Some(if balance > 0.0 && balance >= 3330.0 * pips then 30.0
           else if balance > 0.0 && 3.0 * balance < 10.0 * pips then 40.0
           else if pips < 10.0 then 35.0
           else if pips > 200.0 then 40.0
           else 85.0)
  {
    var pips, balance := StopPips(x.entry.value, x.stop.value), Balance(x);
    LotsAtLeastMinimum(balance, pips);
    if balance > 0.0 {
      SizedExactly(balance, pips);
    } else {
      NegativeSized(balance, pips);
    }
  }

  lemma SizedExactly(balance: real, pips: real)
    requires balance > 0.0 && pips > 0.0
    ensures Lots(balance, pips) < 5.0 <==> balance < 3330.0 * pips
    ensures Lots(balance, pips) < 5.0 ==> (RiskPercent(balance, pips) <= 3.0 <==> 10.0 * pips <= 3.0 * balance)
  {
    var ideal := balance * 0.015 / (pips * 10.0);
    BalanceCorridor(balance, pips);
    IdealMeaning(balance, pips, ideal);
    if ideal < 0.01 {
      SmallestSized(balance, pips);
    } else if ideal <= 5.0 {
      BetweenSized(balance, pips, ideal);
    } else {
      LargestSized(balance, pips);
    }
  }

  /** With the earlier gates open layer 19 fails for its spread before it fails for its reward. */
  lemma BlockedScore(x: Input)
    requires GatesOpen(x) && !Nineteenth(x).status.Pass?
    ensures x.quote.Some? && Nineteenth(x).status.Fail?
    ensures Nineteenth(x).score == Some(if !SpreadWithin(x.quote.value, 25.0) then 35.0 else 45.0)
  {
    var more := [Eighteenth(x)];
    OpenGate(x, 1);
    SpreadMeaning(x, 25.0);
    EighteenthPassedAt(x);
    ReadBack(x, more);
    EarlyPassedAt(x, more, 12);
    SpreadAndRewardGiven(x);
  }

  /** A layer that catches its own exception reports an ERROR without a score, and no such run is ready. */
  lemma CaughtError(x: Input, layer: nat)
    requires layer in x.broken && layer in {4, 5, 6, 7, 11, 17}
    ensures Result(x, layer) == LayerResult(layer, Error, None, NO_METRICS) && !Ready(x)
  {
    ReadyExactlyWhenCleared(x);
    assert !Open(x, layer);
  }

  /** So many of so many votes in percent; a zero score is not reported. */
  function Percentage(part: nat, whole: nat): (score: Option<real>)
    requires whole > 0
  {
    var rounded := Round(part as real / whole as real * 100.0) as real;
    if rounded == 0.0 then None else Some(rounded)
  }

  lemma ScoredPercentage(ratio: real, threshold: real, part: nat, whole: nat, layer: nat)
    requires whole > 0 && ratio == part as real / whole as real
    ensures Standard(layer, Scored(ratio, threshold)).score == Percentage(part, whole)
  {
  }

  lemma HigherCounts(x: Input, buy: bool)
    ensures var t, way := x.trends, if buy then Bullish else Bearish;
      && Analysed(HigherTrends(x), 3) == If(t.h1.Some?, 1) + If(t.h4.Some?, 1) + If(t.d1.Some?, 1)
      && Agreeing(if buy then Buy else Sell, HigherTrends(x), 3) == If(t.h1 == Some(way), 1) + If(t.h4 == Some(way), 1) + If(t.d1 == Some(way), 1)
  {
    var t, d := HigherTrends(x), if buy then Buy else Sell;
    assert Analysed(t, 1) == If(t[0].Some?, 1);
    assert Analysed(t, 2) == Analysed(t, 1) + If(t[1].Some?, 1);
    assert Agreeing(d, t, 1) == If(t[0].Some? && Agrees(d, t[0].value), 1);
    assert Agreeing(d, t, 2) == Agreeing(d, t, 1) + If(t[1].Some? && Agrees(d, t[1].value), 1);
  }

  /** Passed or not, layer 4 scores the share of the higher trends there that run with the signal. */
  lemma TrendShare(x: Input, buy: bool)
    requires x.direction == Some(if buy then Buy else Sell) && x.broken == {}
    requires x.trends.h1.Some? || x.trends.h4.Some? || x.trends.d1.Some?
    ensures var t, way := x.trends, if buy then Bullish else Bearish;
      Result(x, 4).score == Percentage(If(t.h1 == Some(way), 1) + If(t.h4 == Some(way), 1) + If(t.d1 == Some(way), 1),
                                       If(t.h1.Some?, 1) + If(t.h4.Some?, 1) + If(t.d1.Some?, 1))
  {
    HigherCounts(x, buy);
    var part, whole := Agreeing(x.direction.value, HigherTrends(x), 3), Analysed(HigherTrends(x), 3);
    ScoredPercentage(part as real / whole as real, 0.66, part, whole, 4);
  }

  function There(t: Trends): nat {
    If(t.m15.Some?, 1) + If(t.h1.Some?, 2) + If(t.h4.Some?, 3) + If(t.d1.Some?, 4)
  }

  function NotAgainst(t: Trends, other: Trend): nat {
    If(t.m15.Some? && t.m15.value != other, 1) + If(t.h1.Some? && t.h1.value != other, 2)
    + If(t.h4.Some? && t.h4.value != other, 3) + If(t.d1.Some? && t.d1.value != other, 4)
  }

  /** Layer 11 scores the share by weight of the trends there that do not run against it. */
  lemma ConfluenceShare(x: Input, buy: bool)
    requires x.direction == Some(if buy then Buy else Sell) && x.broken == {} && There(x.trends) > 0
    ensures Result(x, 11).score == Percentage(NotAgainst(x.trends, if buy then Bearish else Bullish), There(x.trends))
  {
    assert Weight(AllTrends(x), 4) == There(x.trends) by {
      WeightMeaning(x.trends, AllTrends(x));
    }
    assert AlignedWeight(x.direction.value, AllTrends(x), 4) == NotAgainst(x.trends, if buy then Bearish else Bullish) by {
      AlignedMeaning(x.trends, AllTrends(x), buy, if buy then Bearish else Bullish);
    }
  }

  lemma HalfVotes(b: Ballot, part: nat, whole: nat)
    requires whole > 0 && 2.0 * b.aligned == part as real && 2.0 * b.total == whole as real
    ensures Share(b) == part as real / whole as real
  {
    var q := Share(b);
    assert q * b.total == b.aligned;
    assert q * whole as real == part as real;
  }

  /** Layer 6 scores in half votes: RSI and MACD have one each, and another when with the signal, the stochastic two or none. */
  lemma IndicatorShare(x: Input, buy: bool, i: Indicators)
    requires x.direction == Some(if buy then Buy else Sell) && x.broken == {}
    requires x.indicators == Some(i) && i.rsi.Some? && i.histogram.Some? && i.stochastic.Some?
    ensures Result(x, 6).score == Percentage(2 + If(if buy then i.rsi.value >= 50.0 else i.rsi.value <= 50.0, 1)
                                               + If(if buy then i.histogram.value > 0.0 else i.histogram.value < 0.0, 1)
                                               + If((i.stochastic.value >= 50.0) == buy, 2), 6)
  {
    var b := IndicatorBallot(x.direction.value, i);
    var part := 2 + If(RsiAgrees(x.direction.value, i.rsi.value), 1) + If(MacdAgrees(x.direction.value, i.histogram.value), 1)
                  + If(StochasticAgrees(x.direction.value, i.stochastic.value), 2);
    assert 2.0 * b.aligned == part as real && b.total == 3.0;
    HalfVotes(b, part, 6);
    ScoredPercentage(Share(b), 0.6, part, 6, 6);
  }

  lemma AverageVotes(m: MovingAverages, price: real, buy: bool, stacked: nat)
    requires m.sma20.Some? && m.sma50.Some? && m.sma200.Some? && m.ema21.Some?
    requires stacked == If(Stacked(if buy then Buy else Sell, m), 1)
    ensures var b := AverageBallot(if buy then Buy else Sell, price, m);
      && 2.0 * b.total == (6 + stacked + If(!m.crossover.NoCross?, 2)) as real
      && 2.0 * b.aligned == (If((price > m.sma20.value) == buy, 2) + If((price > m.sma50.value) == buy, 2) + If((price > m.ema21.value) == buy, 2)
                             + stacked + If(m.crossover == (if buy then Golden else Death), 2)) as real
  {
  }

  /** Layer 7 too: two for each average, one more when they are stacked the signal's way, two for a crossover. */
  lemma AverageShare(x: Input, buy: bool, m: MovingAverages, price: real)
    requires x.direction == Some(if buy then Buy else Sell) && x.broken == {} && CurrentPrice(x) == Some(price) && price != 0.0
    requires x.averages == Some(m) && m.sma20.Some? && m.sma50.Some? && m.sma200.Some? && m.ema21.Some?
    ensures var fast, middle, slow := m.sma20.value, m.sma50.value, m.sma200.value;
      var stacked := If(if buy then fast > middle > slow else fast < middle < slow, 1);
      Result(x, 7).score == Percentage(If((price > fast) == buy, 2) + If((price > middle) == buy, 2) + If((price > m.ema21.value) == buy, 2)
                                         + stacked + If(m.crossover == (if buy then Golden else Death), 2),
                                       6 + stacked + If(!m.crossover.NoCross?, 2))
  {
    var stacked := If(Stacked(x.direction.value, m), 1);
    var part := If((price > m.sma20.value) == buy, 2) + If((price > m.sma50.value) == buy, 2) + If((price > m.ema21.value) == buy, 2)
                + stacked + If(m.crossover == (if buy then Golden else Death), 2);
    var whole := 6 + stacked + If(!m.crossover.NoCross?, 2);
    var b := AverageBallot(x.direction.value, price, m);
    AverageVotes(m, price, buy, stacked);
    HalfVotes(b, part, whole);
    ScoredPercentage(Share(b), 0.65, part, whole, 7);
  }
}
