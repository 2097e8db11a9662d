/** The performance summary of a list of trades; standard deviation and Sharpe ratio are left out. */
module PerformanceSummary {
  import opened Options
  import opened JsNumbers
  import opened Sums
  import opened MathHelpers

  /** The three figures of a trade the summary reads; None is a figure that came out as null. */
  datatype Result = Result(grossPips: real, netPips: Option<real>, returnPct: Option<real>)

  datatype Summary = Summary(
    totalTrades: nat,
    winRate: real,
    grossPips: real,
    netPips: real,
    avgReturnPct: real,
    profitFactor: real,
    maxDrawdownPct: real,
    expectancyPct: real)

  function Net(t: Result): real {
    t.netPips.GetOr(0.0)
  }

  function Return(t: Result): real {
    t.returnPct.GetOr(0.0)
  }

  function Gross(t: Result): real {
    t.grossPips
  }

  function Cost(t: Result): real {
    Abs(Net(t))
  }

  predicate IsWin(t: Result) {
    Net(t) > 0.0
  }

  predicate IsLoss(t: Result) {
    Net(t) <= 0.0
  }

  function Collect(trades: seq<Result>, f: Result -> real): (r: seq<real>)
    ensures |r| == |trades|
  {
    seq(|trades|, i requires 0 <= i < |trades| => f(trades[i]))
  }

  function Filter(trades: seq<Result>, p: Result -> bool): seq<Result> {
    if trades == [] then []
    else Filter(trades[..|trades| - 1], p) + (if p(trades[|trades| - 1]) then [trades[|trades| - 1]] else [])
  }

  function Winners(trades: seq<Result>): seq<Result> {
    Filter(trades, IsWin)
  }

  function Losers(trades: seq<Result>): seq<Result> {
    Filter(trades, IsLoss)
  }

  function TotalWin(trades: seq<Result>): real {
    Sum(Collect(Winners(trades), Net))
  }

  function TotalLoss(trades: seq<Result>): real {
    Sum(Collect(Losers(trades), Cost))
  }

  function ProfitFactor(trades: seq<Result>): real {
    if TotalLoss(trades) == 0.0 then TotalWin(trades) else TotalWin(trades) / TotalLoss(trades)
  }

  function WinRate(trades: seq<Result>): real
    requires trades != []
  {
    |Winners(trades)| as real / |trades| as real
  }

  function Expectancy(avg: real, winRate: real): real {
    avg * winRate - Abs(avg) * (1.0 - winRate)
  }

  function BuildPerformanceSummary(trades: seq<Result>): Summary {
    if trades == [] then Summary(0, 0.0, 0.0, 0.0, 0.0, 0.0, 0.0, 0.0)
    else
      var gains := Collect(trades, Return);
      var avg, winRate := Mean(gains), WinRate(trades);
      Summary(
        |trades|,
        ToFixed(winRate, 4),
        ToFixed(Sum(Collect(trades, Gross)), 2),
        ToFixed(Sum(Collect(trades, Net)), 2),
        ToFixed(Scale(avg, 100.0), 3),
        ToFixed(ProfitFactor(trades), 3),
        ToFixed(Scale(Abs(DrawdownOf(PrefixSums(gains)).maxDrawdown), 100.0), 3),
        ToFixed(Scale(Expectancy(avg, winRate), 100.0), 3))
  }

  lemma FilterSnoc(trades: seq<Result>, t: Result, p: Result -> bool)
    ensures Filter(trades + [t], p) == Filter(trades, p) + (if p(t) then [t] else [])
  {
    assert (trades + [t])[..|trades|] == trades;
  }

  /** Winners and losers partition the trades. */
  lemma {:induction false} FilterPartition(trades: seq<Result>)
    ensures multiset(Winners(trades)) + multiset(Losers(trades)) == multiset(trades)
    ensures |Winners(trades)| + |Losers(trades)| == |trades|
  {
    if trades != [] {
      var n := |trades| - 1;
      var front, t := trades[..n], trades[n];
      assert trades == front + [t];
      FilterPartition(front);
      FilterSnoc(front, t, IsWin);
      FilterSnoc(front, t, IsLoss);
    }
  }

  lemma CollectSnoc(trades: seq<Result>, t: Result, f: Result -> real)
    ensures Sum(Collect(trades + [t], f)) == Sum(Collect(trades, f)) + f(t)
  {
    var xs := Collect(trades + [t], f);
    assert xs[..|xs| - 1] == Collect(trades, f);
  }

  /** Accounting is conserved: net pips are total wins minus total losses. */
  lemma {:induction false} NetIsWinsMinusLosses(trades: seq<Result>)
    ensures Sum(Collect(trades, Net)) == TotalWin(trades) - TotalLoss(trades)
    ensures TotalWin(trades) >= 0.0 && TotalLoss(trades) >= 0.0
  {
    if trades != [] {
      var n := |trades| - 1;
      var front, t := trades[..n], trades[n];
      NetIsWinsMinusLosses(front);
      assert trades == front + [t];
      CollectSnoc(front, t, Net);
      if Net(t) > 0.0 {
        assert Winners(trades) == Winners(front) + [t] && Losers(trades) == Losers(front);
        CollectSnoc(Winners(front), t, Net);
      } else {
        assert Winners(trades) == Winners(front) && Losers(trades) == Losers(front) + [t];
        CollectSnoc(Losers(front), t, Cost);
      }
    }
  }

  /** With a real loss among the trades the profit factor exceeds 1 exactly when the net is positive; without one it is the net itself. */
  lemma ProfitFactorSign(trades: seq<Result>)
    ensures TotalLoss(trades) > 0.0 ==> (ProfitFactor(trades) > 1.0 <==> Sum(Collect(trades, Net)) > 0.0)
    ensures TotalLoss(trades) == 0.0 ==> ProfitFactor(trades) == Sum(Collect(trades, Net))
  {
    NetIsWinsMinusLosses(trades);
    var w, l := TotalWin(trades), TotalLoss(trades);
    if l > 0.0 {
      RatioAboveOne(w, l);
    }
  }

  /** A losing average makes the expectancy that average, whatever the win rate; a winning one is scaled by 2 * winRate - 1. */
  lemma ExpectancyForm(avg: real, winRate: real)
    ensures Expectancy(avg, winRate) == if avg < 0.0 then avg else avg * (2.0 * winRate - 1.0)
  {
  }

  lemma WinRateRange(trades: seq<Result>)
    requires trades != []
    ensures 0.0 <= WinRate(trades) <= 1.0
  {
    FilterPartition(trades);
    QuotientBetween(|Winners(trades)| as real, |trades| as real, 0.0, 1.0);
  }

  /** The reported net pips are within half a hundredth of total wins minus total losses. */
  lemma ReportedNet(trades: seq<Result>)
    requires trades != []
    ensures Abs(BuildPerformanceSummary(trades).netPips - (TotalWin(trades) - TotalLoss(trades))) <= 0.5 / Pow10(2)
  {
    NetIsWinsMinusLosses(trades);
    ToFixedError(Sum(Collect(trades, Net)), 2);
  }

  // ---- The report in the trades' own terms ----

  function NetAt(trades: seq<Result>, i: nat): real
    requires i < |trades|
  {
    if trades[i].netPips.Some? then trades[i].netPips.value else 0.0
  }

  /** The sum over all trades of what they won, and of what they lost. */
  function Won(trades: seq<Result>): real {
    Sum(seq(|trades|, i requires 0 <= i < |trades| => if NetAt(trades, i) > 0.0 then NetAt(trades, i) else 0.0))
  }

  function Lost(trades: seq<Result>): real {
    Sum(seq(|trades|, i requires 0 <= i < |trades| => if NetAt(trades, i) < 0.0 then -NetAt(trades, i) else 0.0))
  }

  function WonAt(trades: seq<Result>): set<nat> {
    set i: nat | i < |trades| && NetAt(trades, i) > 0.0
  }

  lemma WonSnoc(trades: seq<Result>, t: Result)
    ensures Won(trades + [t]) == Won(trades) + (if Net(t) > 0.0 then Net(t) else 0.0)
    ensures Lost(trades + [t]) == Lost(trades) + (if Net(t) < 0.0 then -Net(t) else 0.0)
  {
    var all, n := trades + [t], |trades|;
    var won := seq(n + 1, i requires 0 <= i < n + 1 => if NetAt(all, i) > 0.0 then NetAt(all, i) else 0.0);
    var lost := seq(n + 1, i requires 0 <= i < n + 1 => if NetAt(all, i) < 0.0 then -NetAt(all, i) else 0.0);
    assert won[..n] == seq(n, i requires 0 <= i < n => if NetAt(trades, i) > 0.0 then NetAt(trades, i) else 0.0);
    assert lost[..n] == seq(n, i requires 0 <= i < n => if NetAt(trades, i) < 0.0 then -NetAt(trades, i) else 0.0);
    assert Won(all) == Sum(won) && Lost(all) == Sum(lost);
  }

  lemma TotalsSnoc(front: seq<Result>, t: Result)
    ensures TotalWin(front + [t]) == TotalWin(front) + (if Net(t) > 0.0 then Net(t) else 0.0)
    ensures TotalLoss(front + [t]) == TotalLoss(front) + (if Net(t) < 0.0 then -Net(t) else 0.0)
    ensures |Winners(front + [t])| == |Winners(front)| + (if Net(t) > 0.0 then 1 else 0)
  {
    FilterSnoc(front, t, IsWin);
    FilterSnoc(front, t, IsLoss);
    if Net(t) > 0.0 {
      assert Losers(front + [t]) == Losers(front);
      CollectSnoc(Winners(front), t, Net);
    } else {
      assert Winners(front + [t]) == Winners(front);
      CollectSnoc(Losers(front), t, Cost);
    }
  }

  lemma {:induction false} TotalsMeaning(trades: seq<Result>)
    ensures TotalWin(trades) == Won(trades) && TotalLoss(trades) == Lost(trades)
    ensures |Winners(trades)| == |WonAt(trades)|
  {
    if trades == [] {
      assert WonAt(trades) == {};
    } else {
      var n := |trades| - 1;
      var front, t := trades[..n], trades[n];
      assert trades == front + [t];
      TotalsMeaning(front);
      WonSnoc(front, t);
      TotalsSnoc(front, t);
      assert WonAt(trades) == WonAt(front) + (if Net(t) > 0.0 then {n} else {});
    }
  }

  lemma WithinDigits(value: real, decimals: nat, half: real)
    requires half == 0.5 / Pow10(decimals)
    ensures -half <= ToFixed(value, decimals) - value <= half
  {
    ToFixedError(value, decimals);
  }

  lemma Halves()
    ensures 0.5 / Pow10(2) == 0.005 && 0.5 / Pow10(3) == 0.0005 && 0.5 / Pow10(4) == 0.00005
  {
    assert Pow10(1) == 10.0 && Pow10(2) == 100.0 && Pow10(3) == 1000.0 && Pow10(4) == 10000.0;
  }

  /** Counts and pips of the report are those of the trades, each within half its last digit. */
  lemma ReportedPips(trades: seq<Result>)
    requires trades != []
    ensures var n, r := |trades|, BuildPerformanceSummary(trades);
      && r.totalTrades == n
      && Abs(r.winRate - |WonAt(trades)| as real / n as real) <= 0.00005
      && Abs(r.grossPips - Sum(seq(n, i requires 0 <= i < n => trades[i].grossPips))) <= 0.005
      && Abs(r.netPips - (Won(trades) - Lost(trades))) <= 0.005
  {
    Halves();
    TotalsMeaning(trades);
    NetIsWinsMinusLosses(trades);
    var n := |trades|;
    assert Collect(trades, Gross) == seq(n, i requires 0 <= i < n => trades[i].grossPips);
    WithinDigits(WinRate(trades), 4, 0.00005);
    WithinDigits(Sum(Collect(trades, Gross)), 2, 0.005);
    WithinDigits(Sum(Collect(trades, Net)), 2, 0.005);
  }

  /** The profit factor is what was won to what was lost, and what was won when nothing was lost. */
  lemma ReportedFactor(trades: seq<Result>)
    requires trades != []
    ensures Abs(BuildPerformanceSummary(trades).profitFactor - (if Lost(trades) == 0.0 then Won(trades) else Won(trades) / Lost(trades))) <= 0.0005
  {
    Halves();
    TotalsMeaning(trades);
    WithinDigits(ProfitFactor(trades), 3, 0.0005);
  }

  function Gains(trades: seq<Result>): (r: seq<real>)
    ensures |r| == |trades|
  {
    seq(|trades|, i requires 0 <= i < |trades| => if trades[i].returnPct.Some? then trades[i].returnPct.value else 0.0)
  }

  /** A share of the winners below half makes a winning mean a losing expectation; a losing mean stays as it is. */
  function Expected(mean: real, share: real): real {
    if mean < 0.0 then mean else mean * (2.0 * share - 1.0)
  }

  lemma PercentWithin(value: real)
    ensures Abs(ToFixed(Scale(value, 100.0), 3) - 100.0 * value) <= 0.0005
  {
    Halves();
    WithinDigits(Scale(value, 100.0), 3, 0.0005);
  }

  function MeanGain(trades: seq<Result>): real
    requires trades != []
  {
    Sum(Gains(trades)) / |trades| as real
  }

  function WonShare(trades: seq<Result>): real
    requires trades != []
  {
    |WonAt(trades)| as real / |trades| as real
  }

  lemma MeanMeaning(trades: seq<Result>)
    requires trades != []
    ensures Collect(trades, Return) == Gains(trades)
    ensures Mean(Collect(trades, Return)) == MeanGain(trades) && WinRate(trades) == WonShare(trades)
  {
    assert Collect(trades, Return) == Gains(trades);
    TotalsMeaning(trades);
  }

  /** The mean return in percent, and what it lets expect by the share of winners. */
  lemma ReportedReturn(trades: seq<Result>)
    requires trades != []
    ensures Abs(BuildPerformanceSummary(trades).avgReturnPct - 100.0 * MeanGain(trades)) <= 0.0005
    ensures Abs(BuildPerformanceSummary(trades).expectancyPct - 100.0 * Expected(MeanGain(trades), WonShare(trades))) <= 0.0005
  {
    MeanMeaning(trades);
    ExpectationMeaning(MeanGain(trades), WonShare(trades));
    PercentWithin(MeanGain(trades));
  }

  lemma ExpectationMeaning(mean: real, share: real)
    ensures Abs(ToFixed(Scale(Expectancy(mean, share), 100.0), 3) - 100.0 * Expected(mean, share)) <= 0.0005
  {
    ExpectancyForm(mean, share);
    PercentWithin(Expected(mean, share));
  }

  /** The fall in percent of the running total of the returns. */
  lemma ReportedDrawdown(trades: seq<Result>)
    requires trades != []
    ensures Abs(BuildPerformanceSummary(trades).maxDrawdownPct - 100.0 * -DrawdownOf(PrefixSums(Gains(trades))).maxDrawdown) <= 0.0005
  {
    MeanMeaning(trades);
    DrawdownCorrect(PrefixSums(Gains(trades)));
    PercentWithin(-DrawdownOf(PrefixSums(Gains(trades))).maxDrawdown);
  }
}
