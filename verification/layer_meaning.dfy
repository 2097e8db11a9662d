/**
 Readiness in the market's own terms: the exact condition for a run to end ready, stated on the fields of the
 snapshot and the signal without any of the pipeline's helper functions.
 */
module LayerMeaning {
  import opened Options
  import opened JsNumbers
  import opened LayerPipeline
  import opened LayerGates
  import opened LayerReadiness

  // ---- The condition ----

  /** The first nonzero time of the quote is at most a minute old, and both prices are positive. */
  predicate QuoteAtMostMinuteOld(x: Input) {
    && x.quote.Some?
    && var q := x.quote.value;
    && var at := if q.receivedAt.GetOr(0.0) != 0.0 then q.receivedAt.value
                 else if q.timestamp.GetOr(0.0) != 0.0 then q.timestamp.value
                 else x.lastQuoteAt.GetOr(0.0);
    && at > 0.0 && x.now <= at + 60000.0
    && q.bid.GetOr(0.0) > 0.0 && q.ask.GetOr(0.0) > 0.0
  }

  /** The size of a point. */
  function Point(q: Quote): (pip: real)
    ensures pip != 0.0
  {
    if q.pipSize.GetOr(0.0) != 0.0 then q.pipSize.value else 0.0001
  }

  /** A quoted spread decides, in points before plain; without one, how far the ask lies above the bid. */
  predicate SpreadWithin(q: Quote, limit: real) {
    if q.spreadPoints.Some? then q.spreadPoints.value <= limit
    else if q.spread.Some? then q.spread.value <= limit
    else
      && q.ask.Some? && q.bid.Some?
      && if Point(q) > 0.0 then q.ask.value - q.bid.value <= limit * Point(q) else q.ask.value - q.bid.value >= limit * Point(q)
  }

  function If(b: bool, weight: nat): nat {
    if b then weight else 0
  }

  /** Of the H1, H4 and D1 trends there are, at least two thirds and at least one run the given way. */
  predicate TrendsRun(t: Trends, way: Trend) {
    var there := If(t.h1.Some?, 1) + If(t.h4.Some?, 1) + If(t.d1.Some?, 1);
    var along := If(t.h1 == Some(way), 1) + If(t.h4 == Some(way), 1) + If(t.d1 == Some(way), 1);
    along >= 1 && 3 * along >= 2 * there
  }

  /** By weights 1, 2, 3 and 4, at most a quarter of the trends there are run the other way. */
  predicate FewAgainst(t: Trends, other: Trend) {
    var there := If(t.m15.Some?, 1) + If(t.h1.Some?, 2) + If(t.h4.Some?, 3) + If(t.d1.Some?, 4);
    var against := If(t.m15 == Some(other), 1) + If(t.h1 == Some(other), 2) + If(t.h4 == Some(other), 3) + If(t.d1 == Some(other), 4);
    there >= 1 && 4 * against <= there
  }

  /** The stochastic stands on the signal's half, or RSI and MACD both do. */
  predicate IndicatorsWith(i: Indicators, buy: bool) {
    var rsi, histogram, k := i.rsi.GetOr(0.0), i.histogram.GetOr(0.0), i.stochastic.GetOr(0.0);
    if buy then k >= 50.0 || (rsi >= 50.0 && histogram > 0.0) else k < 50.0 || (rsi <= 50.0 && histogram < 0.0)
  }

  /** The price lies on the signal's side of two of the three averages, or of all three against a crossover. */
  predicate AveragesWith(m: MovingAverages, price: real, buy: bool) {
    var sides := If((price > m.sma20.GetOr(0.0)) == buy, 1) + If((price > m.sma50.GetOr(0.0)) == buy, 1)
                 + If((price > m.ema21.GetOr(0.0)) == buy, 1);
    sides >= (if m.crossover == (if buy then Death else Golden) then 3 else 2)
  }

  /**
   The stop lies 10 to 200 pips from the entry, and a positive balance between 10/3 and 3330 times that many pips:
   below, the smallest position risks more than 3 percent; from there on, the position reaches five lots.
   */
  predicate SizeAllowed(x: Input) {
    && x.entry.GetOr(0.0) != 0.0 && x.stop.GetOr(0.0) != 0.0 && x.hasPair
    && var distance := Abs(x.entry.value - x.stop.value);
    && var balance := if x.accountBalance.GetOr(0.0) != 0.0 then x.accountBalance.value else 10000.0;
    && 0.001 <= distance <= 0.02
    && (balance < 0.0 || (100000.0 * distance <= 3.0 * balance && balance < 33300000.0 * distance))
  }

  predicate SignalSupported(x: Input, buy: bool) {
    && TrendsRun(x.trends, if buy then Bullish else Bearish)
    && FewAgainst(x.trends, if buy then Bearish else Bullish)
    && (x.indicators.Some? ==> IndicatorsWith(x.indicators.value, buy))
    && (x.averages.Some? ==> x.quote.Some? && AveragesWith(x.averages.value, x.quote.value.bid.GetOr(0.0), buy))
  }

  predicate MarketAllows(x: Input) {
    && QuoteAtMostMinuteOld(x) && SpreadWithin(x.quote.value, 25.0)
    && x.volatility.Some? && 10.0 <= x.volatility.value <= 200.0
    && (forall i :: 0 <= i < |x.newsImpacts| ==> x.newsImpacts[i] < 70.0)
    && x.riskRewardRatio.Some? && x.riskRewardRatio.value >= 1.6
  }

  /** When there are indicators or averages at all, there are all of them. */
  predicate Whole(x: Input) {
    && (x.indicators.Some? ==> var i := x.indicators.value; i.rsi.Some? && i.histogram.Some? && i.stochastic.Some?)
    && (x.averages.Some? ==> var m := x.averages.value; m.sma20.Some? && m.sma50.Some? && m.sma200.Some? && m.ema21.Some?)
  }

  predicate Tradable(x: Input) {
    && MarketAllows(x) && SizeAllowed(x) && x.broken !! {4, 5, 6, 7, 11, 17}
    && ((x.direction == Some(Buy) && SignalSupported(x, true)) || (x.direction == Some(Sell) && SignalSupported(x, false)))
  }

  // ---- Spread ----

  lemma QuotientAtMost(x: real, pip: real, limit: real)
    requires pip != 0.0
    ensures x / pip <= limit <==> if pip > 0.0 then x <= limit * pip else x >= limit * pip
  {
    var q := x / pip;
    assert q * pip == x;
    assert (limit - q) * pip == limit * pip - x;
  }

  /** The spread gates measure what the quote says, or the distance from bid to ask. */
  lemma SpreadMeaning(x: Input, limit: real)
    requires x.quote.Some?
    ensures SpreadUpTo(x, limit) <==> SpreadWithin(x.quote.value, limit)
  {
    var q := x.quote.value;
    if q.spreadPoints.None? && q.spread.None? && q.ask.Some? && q.bid.Some? {
      QuotientAtMost(q.ask.value - q.bid.value, Point(q), limit);
    }
  }

  /** Layer 2 alone passes exactly a spread within 30 points. */
  lemma Layer2Meaning(x: Input)
    requires x.quote.Some?
    ensures Result(x, 2).status.Pass? <==> SpreadWithin(x.quote.value, 30.0)
  {
    MarketPasses(x, 2);
    SpreadMeaning(x, 30.0);
  }

  // ---- Trends ----

  lemma TrendMeaning(x: Input)
    ensures TrendAligned(x) <==>
            (x.direction == Some(Buy) && TrendsRun(x.trends, Bullish)) || (x.direction == Some(Sell) && TrendsRun(x.trends, Bearish))
  {
    var t := HigherTrends(x);
    assert Analysed(t, 1) == If(t[0].Some?, 1);
    assert Analysed(t, 2) == Analysed(t, 1) + If(t[1].Some?, 1);
    assert Analysed(t, 3) == Analysed(t, 2) + If(t[2].Some?, 1);
    if x.direction.Some? {
      var d := x.direction.value;
      assert Agreeing(d, t, 1) == If(t[0].Some? && Agrees(d, t[0].value), 1);
      assert Agreeing(d, t, 2) == Agreeing(d, t, 1) + If(t[1].Some? && Agrees(d, t[1].value), 1);
      assert Agreeing(d, t, 3) == Agreeing(d, t, 2) + If(t[2].Some? && Agrees(d, t[2].value), 1);
    }
  }

  /** Of at most ten, a rounded percentage of 75 is three quarters. */
  lemma ThreeQuarters(part: nat, whole: nat)
    requires 0 < whole <= 10 && part <= whole
    ensures Round(part as real / whole as real * 100.0) >= 75 <==> 4 * part >= 3 * whole
  {
    RatioAtLeast(part, whole, 0.745);
    assert Round(part as real / whole as real * 100.0) >= 75 <==> part as real / whole as real >= 0.745;
  }

  lemma WeightMeaning(t: Trends, ts: seq<Option<Trend>>)
    requires ts == [t.m15, t.h1, t.h4, t.d1]
    ensures Weight(ts, 4) == If(t.m15.Some?, 1) + If(t.h1.Some?, 2) + If(t.h4.Some?, 3) + If(t.d1.Some?, 4)
  {
    assert Weight(ts, 1) == If(t.m15.Some?, 1);
    assert Weight(ts, 2) == Weight(ts, 1) + If(t.h1.Some?, 2);
    assert Weight(ts, 3) == Weight(ts, 2) + If(t.h4.Some?, 3);
  }

  lemma AlignedMeaning(t: Trends, ts: seq<Option<Trend>>, buy: bool, other: Trend)
    requires ts == [t.m15, t.h1, t.h4, t.d1] && other == (if buy then Bearish else Bullish)
    ensures AlignedWeight(if buy then Buy else Sell, ts, 4) ==
            If(t.m15.Some? && t.m15.value != other, 1) + If(t.h1.Some? && t.h1.value != other, 2)
            + If(t.h4.Some? && t.h4.value != other, 3) + If(t.d1.Some? && t.d1.value != other, 4)
  {
    var d := if buy then Buy else Sell;
    assert AlignedWeight(d, ts, 1) == If(t.m15.Some? && t.m15.value != other, 1);
    assert AlignedWeight(d, ts, 2) == AlignedWeight(d, ts, 1) + If(t.h1.Some? && t.h1.value != other, 2);
    assert AlignedWeight(d, ts, 3) == AlignedWeight(d, ts, 2) + If(t.h4.Some? && t.h4.value != other, 3);
  }

  lemma ConfluenceMeaning(x: Input, buy: bool)
    requires x.direction == Some(if buy then Buy else Sell)
    ensures TimeframesAgree(x) <==> FewAgainst(x.trends, if buy then Bearish else Bullish)
  {
    var ts := AllTrends(x);
    WeightMeaning(x.trends, ts);
    AlignedMeaning(x.trends, ts, buy, if buy then Bearish else Bullish);
    if Weight(ts, 4) > 0 {
      ThreeQuarters(AlignedWeight(x.direction.value, ts, 4), Weight(ts, 4));
    }
  }

  // ---- Indicators and averages ----

  lemma IndicatorMeaning(x: Input, buy: bool)
    requires Whole(x) && x.direction == Some(if buy then Buy else Sell)
    ensures IndicatorsAgree(x) <==> (x.indicators.Some? ==> IndicatorsWith(x.indicators.value, buy))
  {
    if x.indicators.Some? {
      StochasticDecides(x.direction.value, x.indicators.value);
    }
  }

  lemma ShareAtLeast(b: Ballot, threshold: real)
    requires b.total > 0.0
    ensures Share(b) >= threshold <==> b.aligned >= threshold * b.total
  {
    var q := b.aligned / b.total;
    assert q * b.total == b.aligned;
    assert (q - threshold) * b.total == b.aligned - threshold * b.total;
  }

  /** The 65 percent of layer 7 come to a count of sides: whether the averages are stacked never matters. */
  lemma AverageBallotMeaning(m: MovingAverages, price: real, buy: bool)
    requires m.sma20.Some? && m.sma50.Some? && m.sma200.Some? && m.ema21.Some?
    ensures Share(AverageBallot(if buy then Buy else Sell, price, m)) >= 0.65 <==> AveragesWith(m, price, buy)
  {
    var d := if buy then Buy else Sell;
    var b := AverageBallot(d, price, m);
    var sides := OnSide(d, price, m.sma20) + OnSide(d, price, m.sma50) + OnSide(d, price, m.ema21);
    var bonus := if Stacked(d, m) then 0.5 else 0.0;
    var crossed := if m.crossover.NoCross? then 0.0 else 1.0;
    var along := if (buy && m.crossover.Golden?) || (!buy && m.crossover.Death?) then 1.0 else 0.0;
    assert b == Ballot(sides + bonus + along, 3.0 + bonus + crossed);
    ShareAtLeast(b, 0.65);
  }

  lemma AverageMeaning(x: Input, buy: bool)
    requires Whole(x) && QuoteAtMostMinuteOld(x) && x.direction == Some(if buy then Buy else Sell)
    ensures Truthy(CurrentPrice(x))
    ensures AveragesAgree(x) <==> (x.averages.Some? ==> AveragesWith(x.averages.value, x.quote.value.bid.GetOr(0.0), buy))
  {
    if x.averages.Some? {
      AverageBallotMeaning(x.averages.value, x.quote.value.bid.value, buy);
    }
  }

  // ---- Position ----

  lemma NegativeSized(balance: real, pips: real)
    requires balance < 0.0 && pips > 0.0
    ensures Lots(balance, pips) == 0.01 && RiskPercent(balance, pips) <= 3.0
  {
    var unit := pips * 10.0;
    NegativeQuotient(balance * 0.015, unit);
    assert Round(0.01 * 100.0) == 1;
    assert Risk(0.01, pips) > 0.0;
    NegativeQuotient(-Risk(0.01, pips), -balance);
    assert -Risk(0.01, pips) / -balance == Risk(0.01, pips) / balance;
  }

  lemma NegativeQuotient(x: real, d: real)
    requires x < 0.0 && d > 0.0
    ensures x / d < 0.0
  {
    assert x / d * d == x;
  }

  lemma RiskPercentMeaning(balance: real, pips: real)
    requires balance > 0.0
    ensures RiskPercent(balance, pips) <= 3.0 <==> Lots(balance, pips) * (pips * 10.0) <= 0.03 * balance
  {
    var risk := Risk(Lots(balance, pips), pips);
    Regroup(Lots(balance, pips), pips);
    QuotientAtMost(risk, balance, 0.03);
  }

  lemma IdealMeaning(balance: real, pips: real, ideal: real)
    requires pips > 0.0 && ideal == balance * 0.015 / (pips * 10.0)
    ensures ideal < 0.01 <==> 3.0 * balance < 20.0 * pips
    ensures ideal < 4.995 <==> balance < 3330.0 * pips
    ensures ideal <= 5.0 <==> 3.0 * balance <= 10000.0 * pips
    ensures ideal * (pips * 10.0) == balance * 0.015
  {
    var unit := pips * 10.0;
    assert ideal * unit == balance * 0.015;
    QuotientAtMost(balance * 0.015, unit, 5.0);
    assert (ideal - 0.01) * unit == balance * 0.015 - 0.01 * unit;
    assert (ideal - 4.995) * unit == balance * 0.015 - 4.995 * unit;
  }

  lemma SmallestSized(balance: real, pips: real)
    requires balance > 0.0 && pips > 0.0 && balance * 0.015 / (pips * 10.0) < 0.01
    ensures Lots(balance, pips) == 0.01
  {
    assert Round(0.01 * 100.0) == 1;
  }

  lemma BetweenSized(balance: real, pips: real, ideal: real)
    requires balance > 0.0 && pips > 0.0 && ideal == balance * 0.015 / (pips * 10.0) && 0.01 <= ideal <= 5.0
    ensures Lots(balance, pips) < 5.0 <==> ideal < 4.995
    ensures Lots(balance, pips) <= 1.5 * ideal
  {
    var n := Round(ideal * 100.0);
    assert Lots(balance, pips) == n as real / 100.0;
    assert n as real <= ideal * 100.0 + 0.5;
  }

  lemma LargestSized(balance: real, pips: real)
    requires balance > 0.0 && pips > 0.0 && balance * 0.015 / (pips * 10.0) > 5.0
    ensures Lots(balance, pips) == 5.0
  {
    assert Round(5.0 * 100.0) == 500;
  }

  /** The size and risk limits together are a corridor for the balance. */
  lemma BalanceCorridor(balance: real, pips: real)
    requires balance > 0.0 && pips > 0.0
    ensures Lots(balance, pips) < 5.0 && RiskPercent(balance, pips) <= 3.0 <==> 10.0 * pips <= 3.0 * balance && balance < 3330.0 * pips
  {
    var ideal, unit := balance * 0.015 / (pips * 10.0), pips * 10.0;
    IdealMeaning(balance, pips, ideal);
    RiskPercentMeaning(balance, pips);
    if ideal < 0.01 {
      SmallestSized(balance, pips);
    } else if ideal <= 5.0 {
      BetweenSized(balance, pips, ideal);
      MultiplyMonotone(Lots(balance, pips), 1.5 * ideal, unit);
      assert 1.5 * ideal * unit == 1.5 * (ideal * unit);
    } else {
      LargestSized(balance, pips);
    }
  }

  lemma SizeMeaning(x: Input)
    ensures PositionSized(x) <==> SizeAllowed(x)
  {
    if Truthy(x.entry) && Truthy(x.stop) {
      var pips, balance := StopPips(x.entry.value, x.stop.value), Balance(x);
      assert pips == Abs(x.entry.value - x.stop.value) * 10000.0;
      if 10.0 <= pips <= 200.0 {
        if balance < 0.0 {
          NegativeSized(balance, pips);
        } else {
          BalanceCorridor(balance, pips);
        }
      }
    }
  }

  /** So every ready run has a quote whose spread is within 25 points. */
  lemma ReadySpread(x: Input)
    requires Analyse(RunFrom(Processors(x), [])).layer18Ready
    ensures x.quote.Some? && SpreadWithin(x.quote.value, 25.0)
  {
    ReadyExactlyWhenCleared(x);
    assert Open(x, 1);
    SpreadMeaning(x, 25.0);
  }

  // ---- The whole run ----

  lemma MarketMeaning(x: Input)
    ensures MarketAllows(x) <==>
            QuoteFresh(x) && SpreadUpTo(x, 25.0) && VolatilityModerate(x) && NewsQuiet(x) && RewardAtLeast(x, 1.6)
  {
    if x.quote.Some? {
      SpreadMeaning(x, 25.0);
    }
  }

  lemma SupportMeaning(x: Input, buy: bool)
    requires Whole(x) && QuoteAtMostMinuteOld(x) && x.direction == Some(if buy then Buy else Sell)
    ensures SignalSupported(x, buy) <==> TrendAligned(x) && TimeframesAgree(x) && IndicatorsAgree(x) && AveragesAgree(x)
  {
    TrendMeaning(x);
    ConfluenceMeaning(x, buy);
    IndicatorMeaning(x, buy);
    AverageMeaning(x, buy);
  }

  ghost predicate GuardedOpen(x: Input) {
    && Truthy(CurrentPrice(x)) && TrendAligned(x) && IndicatorsAgree(x) && AveragesAgree(x) && TimeframesAgree(x)
    && PositionSized(x) && x.broken !! {4, 5, 6, 7, 11, 17}
  }

  lemma ClearedParts(x: Input)
    ensures Cleared(x) <==>
            QuoteFresh(x) && SpreadUpTo(x, 25.0) && VolatilityModerate(x) && NewsQuiet(x) && RewardAtLeast(x, 1.6) && GuardedOpen(x)
  {
    if Cleared(x) {
      assert Open(x, 1) && Open(x, 3) && Open(x, 12);
      assert Open(x, 4) && Open(x, 5) && Open(x, 6) && Open(x, 7) && Open(x, 11) && Open(x, 17);
    }
  }

  /**
   A run ends ready exactly when the market allows the trade, the signal is a supported buy or sell, the size is
   allowed, and no layer caught an exception: a condition on the fields of the input alone.
   */
  lemma ReadyExactlyWhenTradable(x: Input)
    requires Whole(x)
    ensures Analyse(RunFrom(Processors(x), [])).layer18Ready <==> Tradable(x)
  {
    ReadyExactlyWhenCleared(x);
    ClearedParts(x);
    MarketMeaning(x);
    SizeMeaning(x);
    TrendMeaning(x);
    if QuoteAtMostMinuteOld(x) && (x.direction == Some(Buy) || x.direction == Some(Sell)) {
      SupportMeaning(x, x.direction == Some(Buy));
      AverageMeaning(x, x.direction == Some(Buy));
    }
  }
}
