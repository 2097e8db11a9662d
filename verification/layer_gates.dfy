/** The decision layers of the pipeline, as processors over a snapshot and a signal. */
module LayerGates {
  import opened Options
  import opened JsNumbers
  import opened LayerPipeline

  datatype Quote = Quote(
    receivedAt: Option<real>,
    timestamp: Option<real>,
    bid: Option<real>,
    ask: Option<real>,
    spreadPoints: Option<real>,
    spread: Option<real>,
    pipSize: Option<real>)

  datatype Trend = Bullish | Bearish | Neutral

  datatype Direction = Buy | Sell | Other

  /** The trend of each timeframe with at least five bars. */
  datatype Trends = Trends(m15: Option<Trend>, h1: Option<Trend>, h4: Option<Trend>, d1: Option<Trend>)

  datatype LevelKind = Pivot | Support | Resistance

  /** The daily pivot level the price is at, or else the nearest. */
  datatype Level = Level(kind: LevelKind, atLevel: bool, distancePips: real)

  datatype Indicators = Indicators(rsi: Option<real>, histogram: Option<real>, stochastic: Option<real>)

  datatype Crossover = NoCross | Golden | Death

  datatype MovingAverages = MovingAverages(
    sma20: Option<real>,
    sma50: Option<real>,
    sma200: Option<real>,
    ema21: Option<real>,
    crossover: Crossover)

  /**
   The snapshot and signal a run is given. level, indicators and averages are None when there are too few bars;
   broken holds the layers whose processor caught an exception in its own data.
   */
  datatype Input = Input(
    now: real,
    quote: Option<Quote>,
    lastQuoteAt: Option<real>,
    volatility: Option<real>,
    trends: Trends,
    level: Option<Level>,
    indicators: Option<Indicators>,
    averages: Option<MovingAverages>,
    newsImpacts: seq<real>,
    accountBalance: Option<real>,
    direction: Option<Direction>,
    riskRewardRatio: Option<real>,
    entry: Option<real>,
    stop: Option<real>,
    hasPair: bool,
    broken: set<nat>,
    metadataScore: real)

  function Truthy(x: Option<real>): bool {
    x.Some? && x.value != 0.0
  }

  function Verdict(status: Status, score: real): Outcome {
    Returned(Some(status), Some(score), NO_METRICS)
  }

  function Plain(status: Status): Outcome {
    Returned(Some(status), None, NO_METRICS)
  }

  function Measured(status: Status, score: Option<real>, metrics: Metrics): Outcome {
    Returned(Some(status), score, metrics)
  }

  // ---- Layer 1: quote freshness ----

  function QuoteTime(x: Input, q: Quote): real {
    if Truthy(q.receivedAt) then q.receivedAt.value
    else if Truthy(q.timestamp) then q.timestamp.value
    else if Truthy(x.lastQuoteAt) then x.lastQuoteAt.value
    else 0.0
  }

  function Layer1(x: Input): Outcome {
    if x.quote.None? then Plain(Fail)
    else
      var q := x.quote.value;
      var at := QuoteTime(x, q);
      if at <= 0.0 then Plain(Fail)
      else if x.now - at > 60000.0 then Plain(Fail)
      else if !Truthy(q.bid) || !Truthy(q.ask) || q.bid.value <= 0.0 || q.ask.value <= 0.0 then Plain(Fail)
      else Verdict(Pass, 100.0)
  }

  // ---- Layer 2: spread ----

  function SpreadOf(q: Quote): Option<real> {
    if q.spreadPoints.Some? then q.spreadPoints
    else if q.spread.Some? then q.spread
    else if q.ask.Some? && q.bid.Some? then
      Some((q.ask.value - q.bid.value) / (if Truthy(q.pipSize) then q.pipSize.value else 0.0001))
    else None
  }

  function Layer2(x: Input): Outcome {
    if x.quote.None? then Plain(Skip)
    else
      var s := SpreadOf(x.quote.value);
      if s.None? then Plain(Skip)
      else if s.value > 30.0 then Measured(Fail, None, NO_METRICS.(spreadPoints := s))
      else Measured(Pass, Some(100.0 - s.value / 30.0 * 20.0), NO_METRICS.(spreadPoints := s))
  }

  // ---- Layer 3: volatility ----

  function Layer3(x: Input): Outcome {
    if x.volatility.None? then Plain(Skip)
    else if x.volatility.value < 10.0 || x.volatility.value > 200.0 then Measured(Fail, None, NO_METRICS.(volatility := x.volatility))
    else Measured(Pass, Some(80.0), NO_METRICS.(volatility := x.volatility))
  }

  // ---- Layer 4: trend ----

  function HigherTrends(x: Input): seq<Option<Trend>> {
    [x.trends.h1, x.trends.h4, x.trends.d1]
  }

  /** The trend runs the signal's way; unlike in layer 11 a neutral one does not. */
  function Agrees(d: Direction, t: Trend): bool {
    (d.Buy? && t.Bullish?) || (d.Sell? && t.Bearish?)
  }

  function Analysed(trends: seq<Option<Trend>>, n: nat): nat
    requires n <= |trends|
  {
    if n == 0 then 0 else Analysed(trends, n - 1) + (if trends[n - 1].Some? then 1 else 0)
  }

  function Agreeing(d: Direction, trends: seq<Option<Trend>>, n: nat): nat
    requires n <= |trends|
  {
    if n == 0 then 0
    else Agreeing(d, trends, n - 1) + (if trends[n - 1].Some? && Agrees(d, trends[n - 1].value) then 1 else 0)
  }

  method CountTrends(d: Direction, trends: seq<Option<Trend>>) returns (analyzedCount: nat, alignedCount: nat)
    ensures analyzedCount == Analysed(trends, |trends|) && alignedCount == Agreeing(d, trends, |trends|)
  {
    analyzedCount, alignedCount := 0, 0;
    for i := 0 to |trends|
      invariant analyzedCount == Analysed(trends, i) && alignedCount == Agreeing(d, trends, i)
    {
      if trends[i].None? {
        continue;
      }
      analyzedCount := analyzedCount + 1;
      if Agrees(d, trends[i].value) {
        alignedCount := alignedCount + 1;
      }
    }
  }

  /** Pass from the given ratio on, scored by the rounded percentage. */
  function Scored(ratio: real, threshold: real): Outcome {
    Verdict(if ratio >= threshold then Pass else Fail, Round(ratio * 100.0) as real)
  }

  function Layer4(x: Input): Outcome {
    var trends := HigherTrends(x);
    if x.direction.None? || Analysed(trends, 3) == 0 then Verdict(Fail, 0.0)
    else Scored(Agreeing(x.direction.value, trends, 3) as real / Analysed(trends, 3) as real, 0.66)
  }

  // ---- Layer 5: support and resistance ----

  function CurrentPrice(x: Input): Option<real> {
    if x.quote.Some? && Truthy(x.quote.value.bid) then x.quote.value.bid else x.entry
  }

  function LevelScore(d: Option<Direction>, l: Level): real {
    if !l.atLevel then (if l.distancePips < 10.0 then 75.0 else 80.0)
    else if l.kind.Pivot? then 80.0
    else if d == Some(if l.kind.Support? then Buy else Sell) then 90.0
    else if d == Some(if l.kind.Support? then Sell else Buy) then 75.0
    else 70.0
  }

  function Layer5(x: Input): Outcome {
    if !Truthy(CurrentPrice(x)) then Verdict(Fail, 0.0)
    else if x.level.None? then Verdict(Pass, 60.0)
    else Verdict(Pass, LevelScore(x.direction, x.level.value))
  }

  // ---- Layers 6 and 7: indicators and moving averages ----

  /** A ballot over criteria: how many were counted, and how much of that agrees with the signal. */
  datatype Ballot = Ballot(aligned: real, total: real)

  function Vote(t: Ballot, counted: bool, share: real): Ballot {
    if counted then Ballot(t.aligned + share, t.total + 1.0) else t
  }

  function Share(t: Ballot): real {
    if t.total > 0.0 then t.aligned / t.total else 0.0
  }

  predicate RsiAgrees(d: Direction, rsi: real) {
    (d.Buy? && rsi >= 50.0) || (d.Sell? && rsi <= 50.0)
  }

  predicate MacdAgrees(d: Direction, histogram: real) {
    (d.Buy? && histogram > 0.0) || (d.Sell? && histogram < 0.0)
  }

  predicate StochasticAgrees(d: Direction, k: real) {
    (d.Buy? && k >= 50.0) || (d.Sell? && k < 50.0)
  }

  /** RSI and MACD count half when they do not agree, the stochastic counts nothing. */
  function IndicatorBallot(d: Direction, i: Indicators): Ballot {
    var withRsi := Vote(Ballot(0.0, 0.0), i.rsi.Some?, if RsiAgrees(d, i.rsi.GetOr(0.0)) then 1.0 else 0.5);
    var withMacd := Vote(withRsi, i.histogram.Some?, if MacdAgrees(d, i.histogram.GetOr(0.0)) then 1.0 else 0.5);
    Vote(withMacd, i.stochastic.Some?, if StochasticAgrees(d, i.stochastic.GetOr(0.0)) then 1.0 else 0.0)
  }

  function Layer6(x: Input): Outcome {
    if x.direction.None? then Verdict(Fail, 0.0)
    else if x.indicators.None? then Verdict(Pass, 60.0)
    else Scored(Share(IndicatorBallot(x.direction.value, x.indicators.value)), 0.6)
  }

  function OnSide(d: Direction, price: real, average: Option<real>): real {
    if (d.Buy? && price > average.GetOr(0.0)) || (d.Sell? && price <= average.GetOr(0.0)) then 1.0 else 0.0
  }

  /** The averages stand in the signal's order: short above long for a buy, below for a sell. */
  predicate Stacked(d: Direction, m: MovingAverages) {
    && m.sma20.Some? && m.sma50.Some? && m.sma200.Some?
    && ((d.Buy? && m.sma20.value > m.sma50.value > m.sma200.value) || (d.Sell? && m.sma20.value < m.sma50.value < m.sma200.value))
  }

  function AverageBallot(d: Direction, price: real, m: MovingAverages): Ballot {
    var t20 := Vote(Ballot(0.0, 0.0), m.sma20.Some?, OnSide(d, price, m.sma20));
    var t50 := Vote(t20, m.sma50.Some?, OnSide(d, price, m.sma50));
    var t21 := Vote(t50, m.ema21.Some?, OnSide(d, price, m.ema21));
    var stacked := if Stacked(d, m) then Ballot(t21.aligned + 0.5, t21.total + 0.5) else t21;
    Vote(stacked, !m.crossover.NoCross?,
         if (d.Buy? && m.crossover.Golden?) || (d.Sell? && m.crossover.Death?) then 1.0 else 0.0)
  }

  function Layer7(x: Input): Outcome {
    if x.direction.None? || !Truthy(CurrentPrice(x)) then Verdict(Fail, 0.0)
    else if x.averages.None? then Verdict(Pass, 60.0)
    else Scored(Share(AverageBallot(x.direction.value, CurrentPrice(x).value, x.averages.value)), 0.65)
  }

  // ---- Layer 11: timeframe confluence ----

  function AllTrends(x: Input): seq<Option<Trend>> {
    [x.trends.m15, x.trends.h1, x.trends.h4, x.trends.d1]
  }

  function Aligned(d: Direction, t: Trend): bool {
    (d.Buy? && t.Bullish?) || (d.Sell? && t.Bearish?) || t.Neutral?
  }

  /** Timeframe i weighs i + 1. */
  function Weight(trends: seq<Option<Trend>>, n: nat): nat
    requires n <= |trends|
  {
    if n == 0 then 0 else Weight(trends, n - 1) + (if trends[n - 1].Some? then n else 0)
  }

  function AlignedWeight(d: Direction, trends: seq<Option<Trend>>, n: nat): nat
    requires n <= |trends|
  {
    if n == 0 then 0
    else AlignedWeight(d, trends, n - 1) + (if trends[n - 1].Some? && Aligned(d, trends[n - 1].value) then n else 0)
  }

  method WeighTimeframes(d: Direction, trends: seq<Option<Trend>>) returns (totalWeight: nat, alignedWeight: nat)
    ensures totalWeight == Weight(trends, |trends|) && alignedWeight == AlignedWeight(d, trends, |trends|)
  {
    totalWeight, alignedWeight := 0, 0;
    for i := 0 to |trends|
      invariant totalWeight == Weight(trends, i) && alignedWeight == AlignedWeight(d, trends, i)
    {
      if trends[i].None? {
        continue;
      }
      totalWeight := totalWeight + (i + 1);
      if Aligned(d, trends[i].value) {
        alignedWeight := alignedWeight + (i + 1);
      }
    }
  }

  function Confluence(d: Direction, trends: seq<Option<Trend>>): int
    requires Weight(trends, |trends|) > 0
  {
    Round(AlignedWeight(d, trends, |trends|) as real / Weight(trends, |trends|) as real * 100.0)
  }

  function Layer11(x: Input): Outcome {
    if x.direction.None? || Weight(AllTrends(x), 4) == 0 then Verdict(Fail, 0.0)
    else
      var c := Confluence(x.direction.value, AllTrends(x));
      Measured(if c >= 75 then Pass else Fail, Some(c as real), NO_METRICS.(confluenceScore := Some(c as real)))
  }

  // ---- Layers 12 and 16: news and reward ----

  function Layer12(x: Input): Outcome {
    if exists i :: 0 <= i < |x.newsImpacts| && x.newsImpacts[i] >= 70.0 then Plain(Fail) else Verdict(Pass, 100.0)
  }

  function Layer16(x: Input): Outcome {
    if !Truthy(x.riskRewardRatio) then Plain(Skip)
    else if x.riskRewardRatio.value < 1.5 then Measured(Fail, None, NO_METRICS.(riskRewardRatio := x.riskRewardRatio))
    else Measured(Pass, Some(MinReal(100.0, x.riskRewardRatio.value * 40.0)), NO_METRICS.(riskRewardRatio := x.riskRewardRatio))
  }

  // ---- Layer 17: position size ----

  function Balance(x: Input): (b: real)
    ensures b != 0.0
  {
    if Truthy(x.accountBalance) then x.accountBalance.value else 10000.0
  }

  function StopPips(entry: real, stop: real): real {
    Abs(entry - stop) * 10000.0
  }

  /** Lots that risk 1.5% of the balance at ten per pip, before limits; a zero stop distance divides to infinity. */
  function IdealLots(balance: real, pips: real): Option<real> {
    if pips == 0.0 then None else Some(balance * 0.015 / (pips * 10.0))
  }

  function Lots(balance: real, pips: real): real {
    var ideal := IdealLots(balance, pips);
    var capped := if ideal.None? then (if balance > 0.0 then 5.0 else 0.01) else MaxReal(0.01, MinReal(5.0, ideal.value));
    Round(capped * 100.0) as real / 100.0
  }

  /** Money at risk at the stop. */
  function Risk(lots: real, pips: real): real {
    lots * pips * 10.0
  }

  function RiskPercent(balance: real, pips: real): real
    requires balance != 0.0
  {
    Risk(Lots(balance, pips), pips) / balance * 100.0
  }

  function Layer17(x: Input): Outcome {
    if !Truthy(x.entry) || !Truthy(x.stop) || !x.hasPair then Verdict(Fail, 0.0)
    else
      var balance, pips := Balance(x), StopPips(x.entry.value, x.stop.value);
      var lots := Lots(balance, pips);
      var m := NO_METRICS.(positionSize := Some(lots));
      if lots < 0.01 then Measured(Fail, Some(0.0), m)
      else if lots >= 5.0 then Measured(Fail, Some(30.0), m)
      else if RiskPercent(balance, pips) > 3.0 then Measured(Fail, Some(40.0), m)
      else if pips < 10.0 then Measured(Fail, Some(35.0), m)
      else if pips > 200.0 then Measured(Fail, Some(40.0), m)
      else Measured(Pass, Some(85.0), m)
  }

  // ---- Layer 18: final validation ----

  function MetricsOf(previous: seq<LayerResult>, layer: nat): Metrics {
    var r := Find(previous, layer);
    if r.Some? then r.value.metrics else NO_METRICS
  }

  /** The confluence metric, or the layer's score; toNumber turns a null score into zero. */
  function ConfluenceOf(previous: seq<LayerResult>): Option<real> {
    var r := Find(previous, 11);
    if r.None? then None
    else if r.value.metrics.confluenceScore.Some? then r.value.metrics.confluenceScore
    else Some(r.value.score.GetOr(0.0))
  }

  function ScoreSum(previous: seq<LayerResult>): real {
    if previous == [] then 0.0 else ScoreSum(previous[..|previous| - 1]) + previous[|previous| - 1].score.GetOr(0.0)
  }

  function ScoreCount(previous: seq<LayerResult>): nat {
    if previous == [] then 0
    else ScoreCount(previous[..|previous| - 1]) + (if previous[|previous| - 1].score.Some? then 1 else 0)
  }

  function AverageScore(previous: seq<LayerResult>): real {
    if ScoreCount(previous) == 0 then 0.0 else ScoreSum(previous) / ScoreCount(previous) as real
  }

  /** The bar the composite score must clear, raised in volatile, wide or poorly rewarded markets. */
  function MinComposite(spread: Option<real>, volatility: Option<real>, reward: Option<real>): real {
    60.0 + (if volatility.Some? && volatility.value > 140.0 then 3.0 else 0.0)
         + (if spread.Some? && spread.value > 20.0 then 2.0 else 0.0)
         + (if reward.Some? && reward.value < 1.8 then 2.0 else 0.0)
  }

  function Failures(previous: seq<LayerResult>, layers: seq<nat>): nat {
    if layers == [] then 0
    else (if PassedAt(previous, layers[0]) then 0 else 1) + Failures(previous, layers[1..])
  }

  predicate CriticalPassed(previous: seq<LayerResult>) {
    && PassedAt(previous, 1) && PassedAt(previous, 2) && PassedAt(previous, 3) && PassedAt(previous, 4)
    && PassedAt(previous, 6) && PassedAt(previous, 11) && PassedAt(previous, 12) && PassedAt(previous, 14)
    && PassedAt(previous, 16) && PassedAt(previous, 17)
  }

  function Layer18(previous: seq<LayerResult>): Outcome {
    if !CriticalPassed(previous) then Verdict(Fail, 0.0)
    else
      var support := Failures(previous, [5, 7, 10, 13]);
      var spread, volatility := MetricsOf(previous, 2).spreadPoints, MetricsOf(previous, 3).volatility;
      var min := MinComposite(spread, volatility, MetricsOf(previous, 16).riskRewardRatio);
      var avg := AverageScore(previous);
      var confluence := ConfluenceOf(previous);
      if support > 2 then Verdict(Fail, MaxReal(20.0, Round(avg * 0.7) as real))
      else if confluence.Some? && confluence.value < 75.0 then Verdict(Fail, MaxReal(25.0, Round(avg * 0.75) as real))
      else if avg < min then Verdict(Fail, MaxReal(25.0, Round(avg) as real))
      else Verdict(Pass, Round(avg * 10.0) as real / 10.0)
  }

  // ---- Layer 19: execution clearance ----

  function Clearance(spread: Option<real>, volatility: Option<real>, confluence: Option<real>, reward: Option<real>): real {
    92.0 - (if spread.Some? then MinReal(20.0, spread.value / 2.0) else 0.0)
         - (if volatility.Some? && volatility.value > 150.0 then 8.0 else 0.0)
         + (if confluence.Some? && confluence.value >= 85.0 then 4.0 else 0.0)
         + (if reward.Some? && reward.value >= 2.0 then 4.0 else 0.0)
  }

  function Layer19(previous: seq<LayerResult>): Outcome {
    if !PassedAt(previous, 18) then Verdict(Fail, 0.0)
    else
      var spread, volatility := MetricsOf(previous, 2).spreadPoints, MetricsOf(previous, 3).volatility;
      var confluence, reward := ConfluenceOf(previous), MetricsOf(previous, 16).riskRewardRatio;
      if !PassedAt(previous, 12) then Verdict(Fail, 10.0)
      else if spread.Some? && spread.value > 25.0 then Verdict(Fail, 35.0)
      else if reward.Some? && reward.value < 1.6 then Verdict(Fail, 45.0)
      else Verdict(Pass, MaxReal(55.0, MinReal(99.0, Round(Clearance(spread, volatility, confluence, reward)) as real)))
  }

  // ---- The pipeline's processors ----

  /** The layers that turn their own exceptions into a returned ERROR, which does not stop the run. */
  const GUARDED: set<nat> := {4, 5, 6, 7, 11, 17}

  /** Layers 1 to 17 look at the input alone; layer 20 always passes. */
  function Gate(x: Input, layer: nat): Outcome {
    if layer in GUARDED && layer in x.broken then Verdict(Error, 0.0) else Decision(x, layer)
  }

  function Decision(x: Input, layer: nat): Outcome {
    match layer
    case 1 => Layer1(x)
    case 2 => Layer2(x)
    case 3 => Layer3(x)
    case 4 => Layer4(x)
    case 5 => Layer5(x)
    case 6 => Layer6(x)
    case 7 => Layer7(x)
    case 8 => Verdict(Pass, 70.0)
    case 9 => Verdict(Pass, 60.0)
    case 10 => Verdict(Pass, 75.0)
    case 11 => Layer11(x)
    case 12 => Layer12(x)
    case 13 => Verdict(Pass, 90.0)
    case 14 => Verdict(Pass, 80.0)
    case 15 => Verdict(Pass, 70.0)
    case 16 => Layer16(x)
    case 17 => Layer17(x)
    case _ => Verdict(Pass, x.metadataScore)
  }

  function Processors(x: Input): Processor {
    (layer: nat, previous: seq<LayerResult>) =>
      if layer == 18 then Layer18(previous) else if layer == 19 then Layer19(previous) else Gate(x, layer)
  }
}
