/**
 The bar-by-bar backtester: binary search for the entry bar, the exit scan with take-profit and stop-loss,
 transaction costs, and the run over a list of signals.
 */
module Backtester {
  import opened Options
  import opened JsNumbers
  import opened Sums
  import opened PerformanceSummary

  datatype Bar = Bar(timestamp: real, open: Option<real>, high: Option<real>, low: Option<real>, close: Option<real>, price: Option<real>)

  datatype Side = Long | Short

  datatype Reason = TakeProfit | StopLoss | Timeout | NoData

  datatype Limits = Limits(takeProfitPips: Option<real>, stopLossPips: Option<real>, pip: real)

  datatype Exit = Exit(price: real, reason: Reason)

  // ---- Finding the entry bar ----

  ghost predicate Increasing(ts: seq<real>) {
    forall i, j :: 0 <= i < j < |ts| ==> ts[i] < ts[j]
  }

  ghost predicate NonDecreasing(ts: seq<real>) {
    forall i, j :: 0 <= i < j < |ts| ==> ts[i] <= ts[j]
  }

  /** The search the loop performs on ts[left..right]; found is the best index so far. */
  function Search(ts: seq<real>, target: real, left: int, right: int, found: int): int
    requires 0 <= left <= right + 1 && right < |ts|
    decreases right - left
  {
    if left > right then found
    else
      var mid := (left + right) / 2;
      if ts[mid] >= target then Search(ts, target, left, mid - 1, mid)
      else Search(ts, target, mid + 1, right, found)
  }

  /** A linear scan for the first bar at or after the target. */
  function FirstAtOrAfter(ts: seq<real>, target: real, i: nat): int
    requires i <= |ts|
    decreases |ts| - i
  {
    if i == |ts| then -1 else if ts[i] >= target then i else FirstAtOrAfter(ts, target, i + 1)
  }

  function EntryIndex(ts: seq<real>, target: Option<real>, offset: int): int {
    if target.None? then -1
    else
      var found := Search(ts, target.value, 0, |ts| - 1, -1);
      if found == -1 then -1 else if found + offset < |ts| then found + offset else -1
  }

  method FindEntryIndex(ts: seq<real>, target: Option<real>, offset: int) returns (r: int)
    ensures r == EntryIndex(ts, target, offset)
  {
    if target.None? {
      return -1;
    }
    var left, right, found := 0, |ts| - 1, -1;
    while left <= right
      invariant 0 <= left <= right + 1 && right < |ts|
      invariant Search(ts, target.value, left, right, found) == Search(ts, target.value, 0, |ts| - 1, -1)
      decreases right - left
    {
      var mid := (left + right) / 2;
      if ts[mid] >= target.value {
        found := mid;
        right := mid - 1;
      } else {
        left := mid + 1;
      }
    }
    if found == -1 {
      return -1;
    }
    var index := found + offset;
    return if index < |ts| then index else -1;
  }

  lemma {:induction false} ScanFinds(ts: seq<real>, target: real, i: nat, k: int)
    requires i <= k < |ts| && ts[k] >= target && forall j :: i <= j < k ==> ts[j] < target
    ensures FirstAtOrAfter(ts, target, i) == k
    decreases k - i
  {
    if i < k {
      ScanFinds(ts, target, i + 1, k);
    }
  }

  lemma {:induction false} ScanFindsNone(ts: seq<real>, target: real, i: nat)
    requires i <= |ts| && forall j :: i <= j < |ts| ==> ts[j] < target
    ensures FirstAtOrAfter(ts, target, i) == -1
    decreases |ts| - i
  {
    if i < |ts| {
      ScanFindsNone(ts, target, i + 1);
    }
  }

  lemma {:induction false} SearchIsScan(ts: seq<real>, target: real, left: int, right: int, found: int)
    requires NonDecreasing(ts) && 0 <= left <= right + 1 && right < |ts|
    requires forall j :: 0 <= j < left ==> ts[j] < target
    requires found == (if right + 1 == |ts| then -1 else right + 1)
    requires found != -1 ==> ts[found] >= target
    ensures Search(ts, target, left, right, found) == FirstAtOrAfter(ts, target, 0)
    decreases right - left
  {
    if left > right {
      if found == -1 { ScanFindsNone(ts, target, 0); } else { ScanFinds(ts, target, 0, found); }
    } else {
      var mid := (left + right) / 2;
      if ts[mid] >= target {
        SearchIsScan(ts, target, left, mid - 1, mid);
      } else {
        assert forall j :: 0 <= j < mid ==> ts[j] <= ts[mid];
        SearchIsScan(ts, target, mid + 1, right, found);
      }
    }
  }

  /** On ordered timestamps the binary search is the linear scan for the first bar at or after the signal. */
  lemma EntryIsFirstAtOrAfter(ts: seq<real>, target: real, offset: int)
    requires NonDecreasing(ts)
    ensures var first := FirstAtOrAfter(ts, target, 0);
      EntryIndex(ts, Some(target), offset) ==
      (if first == -1 then -1 else if first + offset < |ts| then first + offset else -1)
  {
    SearchIsScan(ts, target, 0, |ts| - 1, -1);
  }

  // ---- Prices and exits ----

  function ResolvePrice(bar: Option<Bar>, fallback: Option<real>): Option<real> {
    if bar.None? then fallback
    else if bar.value.open.Some? then bar.value.open
    else if bar.value.close.Some? then bar.value.close
    else if bar.value.price.Some? then bar.value.price
    else fallback
  }

  /** The price that lies the given number of pips in the trade's favour. */
  function Target(side: Side, entry: real, pips: real, pip: real): real {
    entry + (if side.Long? then pips else -pips) * pip
  }

  function DetermineExitPrice(side: Side, entry: real, bar: Option<Bar>, limits: Limits): Exit {
    if bar.None? then Exit(entry, NoData)
    else
      var high, low := bar.value.high.GetOr(entry), bar.value.low.GetOr(entry);
      var close := ResolvePrice(bar, Some(entry)).GetOr(entry);
      var tp := Target(side, entry, limits.takeProfitPips.GetOr(0.0), limits.pip);
      var sl := Target(side, entry, -limits.stopLossPips.GetOr(0.0), limits.pip);
      if limits.takeProfitPips.Some? && (if side.Long? then high >= tp else low <= tp) then Exit(tp, TakeProfit)
      else if limits.stopLossPips.Some? && (if side.Long? then low <= sl else high >= sl) then Exit(sl, StopLoss)
      else Exit(close, Timeout)
  }

  /** The loop over bars idx..last: the first limit hit, or the last bar's own exit. */
  function ExitFrom(bars: seq<Bar>, side: Side, entry: real, limits: Limits, idx: nat, last: int): Exit
    requires last < |bars|
    decreases last - idx
  {
    if idx > last then Exit(entry, Timeout)
    else
      var e := DetermineExitPrice(side, entry, Some(bars[idx]), limits);
      if e.reason.TakeProfit? || e.reason.StopLoss? || idx == last then e
      else ExitFrom(bars, side, entry, limits, idx + 1, last)
  }

  /** The bar whose prices decide the exit; the loop reads none after it. */
  function DecidingBar(bars: seq<Bar>, side: Side, entry: real, limits: Limits, idx: nat, last: int): (b: int)
    requires last < |bars|
    ensures idx <= last ==> idx <= b <= last
    decreases last - idx
  {
    if idx >= last then last
    else
      var e := DetermineExitPrice(side, entry, Some(bars[idx]), limits);
      if e.reason.TakeProfit? || e.reason.StopLoss? then idx
      else DecidingBar(bars, side, entry, limits, idx + 1, last)
  }

  function GrossPips(side: Side, entry: real, exit: real, pip: real): real
    requires pip != 0.0
  {
    (if side.Long? then exit - entry else entry - exit) / pip
  }

  // ---- Transaction costs ----

  datatype CostModel = CostModel(spreadPips: real, slippagePips: real, commissionPerLot: real, lotSize: real, pipOverride: Option<real>)

  function PairPip(jpy: bool): (p: real)
    ensures p > 0.0
  {
    if jpy then 0.01 else 0.0001
  }

  /** A zero override counts as none. */
  function ModelPip(m: CostModel, jpy: bool): (p: real)
    ensures p != 0.0
  {
    if m.pipOverride.GetOr(0.0) != 0.0 then m.pipOverride.value else PairPip(jpy)
  }

  function Divide(x: real, y: real): real {
    if y == 0.0 then 0.0 else x / y
  }

  /** Pip value of the position in the quote currency. */
  function PipValue(m: CostModel, jpy: bool, entry: real, units: real): real {
    Divide(ModelPip(m, jpy), entry) * units
  }

  /** Spread, slippage and commission, for a pip value. */
  function CostAt(m: CostModel, pipValue: real, units: real): real {
    m.spreadPips * pipValue + m.slippagePips * pipValue + Divide(m.commissionPerLot, m.lotSize) * units
  }

  function ExactCost(m: CostModel, jpy: bool, entry: real, units: real): real {
    CostAt(m, PipValue(m, jpy, entry, units), units)
  }

  /**
   totalCost / pipValue as the program computes it. With no units the pip value is zero and the quotient is
   not a number; a zero entry price or lot size makes the total infinite, hence null, and null divides to zero.
   */
  function CostPips(m: CostModel, jpy: bool, entry: real, units: real): Option<real> {
    if units == 0.0 then None
    else if entry == 0.0 || m.lotSize == 0.0 then Some(0.0)
    else Some(Divide(ToFixed(ExactCost(m, jpy, entry, units), 8), PipValue(m, jpy, entry, units)))
  }

  // ---- One trade ----

  datatype Trade = Trade(
    side: Side,
    entryIndex: int,
    exitIndex: int,
    entryPrice: real,
    exitPrice: real,
    exitReason: Reason,
    grossPips: real,
    netPips: Option<real>,
    returnPct: Option<real>,
    units: real,
    holdBars: int)

  datatype Order = Order(side: Side, entryIndex: int, holdBars: int, takeProfitPips: Option<real>, stopLossPips: Option<real>, units: real)

  function OrderLimits(o: Order, jpy: bool): Limits {
    Limits(o.takeProfitPips, o.stopLossPips, PairPip(jpy))
  }

  function LastBar(n: nat, o: Order): int {
    Min(n - 1, o.entryIndex + Max(1, o.holdBars))
  }

  function ReturnOn(pips: real, pip: real, entry: real): real
    requires entry != 0.0
  {
    pips * pip / entry
  }

  /** The trade's figures from its entry and exit; exitIndex is the horizon even after an earlier exit. */
  function Settle(o: Order, entry: real, exit: Exit, last: int, m: CostModel, jpy: bool): Trade {
    var gross := GrossPips(o.side, entry, exit.price, PairPip(jpy));
    var costs := CostPips(m, jpy, entry, o.units);
    Trade(o.side, o.entryIndex, last, ToFixed(entry, 6), ToFixed(exit.price, 6), exit.reason, ToFixed(gross, 3),
          if costs.Some? then Some(ToFixed(gross - costs.value, 3)) else None,
          if costs.Some? && entry != 0.0 then Some(ToFixed(ReturnOn(gross - costs.value, PairPip(jpy), entry), 6)) else None,
          o.units, o.holdBars)
  }

  function TradeOf(bars: seq<Bar>, o: Order, m: CostModel, jpy: bool): Option<Trade> {
    if !(0 <= o.entryIndex < |bars|) then None
    else
      var entry := ResolvePrice(Some(bars[o.entryIndex]), None);
      if entry.None? then None
      else
        var last := LastBar(|bars|, o);
        Some(Settle(o, entry.value, ExitFrom(bars, o.side, entry.value, OrderLimits(o, jpy), o.entryIndex + 1, last), last, m, jpy))
  }

  method EvaluateTrade(bars: seq<Bar>, o: Order, m: CostModel, jpy: bool) returns (trade: Option<Trade>)
    ensures trade == TradeOf(bars, o, m, jpy)
  {
    if !(0 <= o.entryIndex < |bars|) {
      return None;
    }
    var entryPrice := ResolvePrice(Some(bars[o.entryIndex]), None);
    if entryPrice.None? {
      return None;
    }
    var entry := entryPrice.value;
    var finalIndex := LastBar(|bars|, o);
    var limits := OrderLimits(o, jpy);
    var exit := Exit(entry, Timeout);
    ghost var whole := ExitFrom(bars, o.side, entry, limits, o.entryIndex + 1, finalIndex);
    var idx := o.entryIndex + 1;
    while idx <= finalIndex
      invariant o.entryIndex < idx && finalIndex < |bars|
      invariant idx <= finalIndex ==> ExitFrom(bars, o.side, entry, limits, idx, finalIndex) == whole
      invariant idx > finalIndex ==> exit == whole
    {
      exit := DetermineExitPrice(o.side, entry, Some(bars[idx]), limits);
      if exit.reason.TakeProfit? || exit.reason.StopLoss? || idx == finalIndex {
        break;
      }
      idx := idx + 1;
    }
    trade := Some(Settle(o, entry, exit, finalIndex, m, jpy));
  }

  // ---- The run ----

  datatype Direction = Missing | LongSide | ShortSide | Unknown

  datatype Signal = Signal(
    direction: Direction,
    timestamp: Option<real>,
    holdBars: Option<int>,
    takeProfitPips: Option<real>,
    stopLossPips: Option<real>,
    units: Option<real>)

  datatype Engine = Engine(
    entryOffset: int,
    defaultHoldBars: int,
    defaultTakeProfitPips: Option<real>,
    defaultStopLossPips: Option<real>,
    units: real,
    costs: CostModel)

  function Timestamps(bars: seq<Bar>): (ts: seq<real>)
    ensures |ts| == |bars|
  {
    seq(|bars|, i requires 0 <= i < |bars| => bars[i].timestamp)
  }

  function OrderFor(e: Engine, s: Signal, entryIndex: int): Order {
    Order(if s.direction.ShortSide? then Short else Long, entryIndex,
          if s.holdBars.Some? then Max(s.holdBars.value, 1) else e.defaultHoldBars,
          if s.takeProfitPips.Some? then s.takeProfitPips else e.defaultTakeProfitPips,
          if s.stopLossPips.Some? then s.stopLossPips else e.defaultStopLossPips,
          s.units.GetOr(e.units))
  }

  /** What a signal becomes: no trade for an unknown direction or no entry bar. */
  function SignalTrade(e: Engine, bars: seq<Bar>, jpy: bool, s: Signal): Option<Trade> {
    if s.direction.Unknown? then None
    else
      var entryIndex := EntryIndex(Timestamps(bars), s.timestamp, e.entryOffset);
      if entryIndex == -1 then None else TradeOf(bars, OrderFor(e, s, entryIndex), e.costs, jpy)
  }

  function RunTrades(e: Engine, bars: seq<Bar>, jpy: bool, signals: seq<Signal>): seq<Trade> {
    if bars == [] || signals == [] then []
    else
      var n := |signals| - 1;
      var t := SignalTrade(e, bars, jpy, signals[n]);
      RunTrades(e, bars, jpy, signals[..n]) + (if t.Some? then [t.value] else [])
  }

  function TradeReturns(trades: seq<Trade>): (r: seq<real>)
    ensures |r| == |trades|
  {
    seq(|trades|, i requires 0 <= i < |trades| => trades[i].returnPct.GetOr(0.0))
  }

  /** The running return, each point rounded to six places as it is pushed. */
  function RoundedCurve(gains: seq<real>): (r: seq<real>)
    ensures |r| == |gains|
  {
    seq(|gains|, i requires 0 <= i < |gains| => ToFixed(Sum(gains[..i + 1]), 6))
  }

  function ToResult(t: Trade): Result {
    Result(t.grossPips, t.netPips, t.returnPct)
  }

  function Results(trades: seq<Trade>): (r: seq<Result>)
    ensures |r| == |trades|
  {
    seq(|trades|, i requires 0 <= i < |trades| => ToResult(trades[i]))
  }

  datatype RunResult = RunResult(trades: seq<Trade>, metrics: Summary, equityCurve: seq<real>)

  method Run(e: Engine, bars: seq<Bar>, jpy: bool, signals: seq<Signal>) returns (r: RunResult)
    ensures r.trades == RunTrades(e, bars, jpy, signals)
    ensures r.equityCurve == RoundedCurve(TradeReturns(r.trades))
    ensures r.metrics == BuildPerformanceSummary(Results(r.trades))
  {
    if bars == [] || signals == [] {
      return RunResult([], BuildPerformanceSummary([]), []);
    }
    var timestamps := Timestamps(bars);
    var trades: seq<Trade> := [];
    var equityCurve: seq<real> := [];
    var cumulativeReturn := 0.0;
    for i := 0 to |signals|
      invariant trades == RunTrades(e, bars, jpy, signals[..i])
      invariant cumulativeReturn == Sum(TradeReturns(trades))
      invariant equityCurve == RoundedCurve(TradeReturns(trades))
    {
      var signal := signals[i];
      assert signals[..i + 1][..i] == signals[..i];
      if signal.direction.Unknown? {
        continue;
      }
      var entryIndex := FindEntryIndex(timestamps, signal.timestamp, e.entryOffset);
      if entryIndex == -1 {
        continue;
      }
      var trade := EvaluateTrade(bars, OrderFor(e, signal, entryIndex), e.costs, jpy);
      if trade.None? {
        continue;
      }
      var t := trade.value;
      CurveSnoc(trades, t);
      trades := trades + [t];
      cumulativeReturn := cumulativeReturn + t.returnPct.GetOr(0.0);
      equityCurve := equityCurve + [ToFixed(cumulativeReturn, 6)];
    }
    assert signals[..|signals|] == signals;
    r := RunResult(trades, BuildPerformanceSummary(Results(trades)), equityCurve);
  }

  lemma CurveSnoc(trades: seq<Trade>, t: Trade)
    ensures var before, after := TradeReturns(trades), TradeReturns(trades + [t]);
      && Sum(after) == Sum(before) + t.returnPct.GetOr(0.0)
      && RoundedCurve(after) == RoundedCurve(before) + [ToFixed(Sum(after), 6)]
  {
    var before, after := TradeReturns(trades), TradeReturns(trades + [t]);
    assert after == before + [t.returnPct.GetOr(0.0)];
    assert after[..|before|] == before && after[..|after|] == after;
    forall i | 0 <= i < |before|
      ensures RoundedCurve(after)[i] == RoundedCurve(before)[i]
    {
      assert after[..i + 1] == before[..i + 1];
    }
  }
}
