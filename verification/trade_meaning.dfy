/**
 What a backtested trade is, in terms of the bars' prices, the order's pips and the costs: where it enters, which bar
 decides its exit, and what it earns.
 */
module TradeMeaning {
  import opened Options
  import opened JsNumbers
  import opened Sums
  import opened Backtester
  import opened BacktestProperties

  // ---- Prices ----

  /** The bar's price is its open, else its close, else its plain price. */
  predicate Priced(bar: Bar, p: real) {
    bar.open == Some(p) || (bar.open.None? && (bar.close == Some(p) || (bar.close.None? && bar.price == Some(p))))
  }

  predicate Unpriced(bar: Bar) {
    bar.open.None? && bar.close.None? && bar.price.None?
  }

  /** How far p lies from the entry in the trade's favour. */
  function Favour(side: Side, entry: real, p: real): real {
    if side.Long? then p - entry else entry - p
  }

  /** The bar's extremes in and against the trade's favour; a missing one is the entry itself. */
  function Best(side: Side, entry: real, bar: Bar): real {
    if side.Long? then bar.high.GetOr(entry) else bar.low.GetOr(entry)
  }

  function Worst(side: Side, entry: real, bar: Bar): real {
    if side.Long? then bar.low.GetOr(entry) else bar.high.GetOr(entry)
  }

  predicate TouchesProfit(o: Order, entry: real, bar: Bar, pip: real) {
    o.takeProfitPips.Some? && Favour(o.side, entry, Best(o.side, entry, bar)) >= o.takeProfitPips.value * pip
  }

  predicate TouchesStop(o: Order, entry: real, bar: Bar, pip: real) {
    o.stopLossPips.Some? && Favour(o.side, entry, Worst(o.side, entry, bar)) <= -(o.stopLossPips.value * pip)
  }

  /** No bar from a up to b touches a limit. */
  predicate Quiet(bars: seq<Bar>, o: Order, entry: real, pip: real, a: int, b: int)
    requires 0 <= a && b < |bars|
  {
    forall i :: a <= i <= b ==> !TouchesProfit(o, entry, bars[i], pip) && !TouchesStop(o, entry, bars[i], pip)
  }

  function YenPip(jpy: bool): (pip: real)
    ensures pip > 0.0
  {
    if jpy then 0.01 else 0.0001
  }

  /** The last bar the trade may be held to. */
  function Horizon(n: nat, o: Order): int {
    var held := o.entryIndex + if o.holdBars < 1 then 1 else o.holdBars;
    if held <= n - 1 then held else n - 1
  }

  // ---- One bar ----

  function LimitsOf(o: Order, pip: real): Limits {
    Limits(o.takeProfitPips, o.stopLossPips, pip)
  }

  lemma PricedResolves(bar: Bar, entry: real)
    ensures forall p :: Priced(bar, p) ==> ResolvePrice(Some(bar), Some(entry)) == Some(p) == ResolvePrice(Some(bar), None)
    ensures Unpriced(bar) ==> ResolvePrice(Some(bar), Some(entry)) == Some(entry) && ResolvePrice(Some(bar), None) == None
  {
  }

  lemma TargetFavour(side: Side, entry: real, pips: real, pip: real)
    ensures Favour(side, entry, Target(side, entry, pips, pip)) == pips * pip
    ensures forall p :: Favour(side, entry, p) >= pips * pip <==>
                        (if side.Long? then p >= Target(side, entry, pips, pip) else p <= Target(side, entry, pips, pip))
  {
    assert -pips * pip == -(pips * pip);
  }

  /** A bar takes the profit it touches, else stops at the stop it touches, else leaves at its own price. */
  lemma BarMeaning(o: Order, entry: real, bar: Bar, pip: real)
    ensures var e := DetermineExitPrice(o.side, entry, Some(bar), LimitsOf(o, pip));
      && (TouchesProfit(o, entry, bar, pip) ==> e == Exit(Target(o.side, entry, o.takeProfitPips.value, pip), TakeProfit))
      && (!TouchesProfit(o, entry, bar, pip) && TouchesStop(o, entry, bar, pip) ==>
            e == Exit(Target(o.side, entry, -o.stopLossPips.value, pip), StopLoss))
      && (!TouchesProfit(o, entry, bar, pip) && !TouchesStop(o, entry, bar, pip) ==>
            e == Exit(ResolvePrice(Some(bar), Some(entry)).GetOr(entry), Timeout))
  {
    var tp, sl := o.takeProfitPips.GetOr(0.0), o.stopLossPips.GetOr(0.0);
    TargetFavour(o.side, entry, tp, pip);
    TargetFavour(o.side, entry, -sl, pip);
    assert -sl * pip == -(sl * pip);
  }

  // ---- The scan ----

  lemma {:induction false} QuietExit(bars: seq<Bar>, o: Order, entry: real, pip: real, idx: nat, last: int)
    requires last < |bars| && Quiet(bars, o, entry, pip, idx, last)
    ensures ExitFrom(bars, o.side, entry, LimitsOf(o, pip), idx, last) ==
            if idx > last then Exit(entry, Timeout) else Exit(ResolvePrice(Some(bars[last]), Some(entry)).GetOr(entry), Timeout)
    decreases last - idx
  {
    if idx <= last {
      BarMeaning(o, entry, bars[idx], pip);
      if idx < last {
        QuietExit(bars, o, entry, pip, idx + 1, last);
      }
    }
  }

  lemma {:induction false} TouchedExit(bars: seq<Bar>, o: Order, entry: real, pip: real, idx: nat, b: nat, last: int)
    requires idx <= b <= last < |bars| && Quiet(bars, o, entry, pip, idx, b - 1)
    requires TouchesProfit(o, entry, bars[b], pip) || TouchesStop(o, entry, bars[b], pip)
    ensures ExitFrom(bars, o.side, entry, LimitsOf(o, pip), idx, last) ==
            if TouchesProfit(o, entry, bars[b], pip) then Exit(Target(o.side, entry, o.takeProfitPips.value, pip), TakeProfit)
            else Exit(Target(o.side, entry, -o.stopLossPips.value, pip), StopLoss)
    decreases b - idx
  {
    BarMeaning(o, entry, bars[idx], pip);
    if idx < b {
      TouchedExit(bars, o, entry, pip, idx + 1, b, last);
    }
  }

  // ---- The trade ----

  /** The trade leaves at p for the given reason. */
  ghost predicate LeavesAt(t: Trade, o: Order, entry: real, p: real, pip: real, reason: Reason)
    requires pip > 0.0
  {
    t.exitReason == reason && t.exitPrice == ToFixed(p, 6) && t.grossPips == ToFixed(Favour(o.side, entry, p) / pip, 3)
  }

  /** What the trade reports whichever way it ends; exitIndex is the horizon even after an earlier exit. */
  predicate Reports(t: Trade, bars: seq<Bar>, o: Order, entry: real) {
    && t.side == o.side && t.entryIndex == o.entryIndex && t.exitIndex == Horizon(|bars|, o)
    && t.entryPrice == ToFixed(entry, 6) && t.units == o.units && t.holdBars == o.holdBars
  }

  /** An order trades exactly when its entry bar is there and has a price; that is the entry. */
  lemma TradeEnters(bars: seq<Bar>, o: Order, m: CostModel, jpy: bool)
    ensures TradeOf(bars, o, m, jpy).Some? <==> 0 <= o.entryIndex < |bars| && !Unpriced(bars[o.entryIndex])
    ensures 0 <= o.entryIndex < |bars| ==> forall entry :: Priced(bars[o.entryIndex], entry) ==>
              TradeOf(bars, o, m, jpy).Some? && Reports(TradeOf(bars, o, m, jpy).value, bars, o, entry)
  {
    if 0 <= o.entryIndex < |bars| {
      PricedResolves(bars[o.entryIndex], 0.0);
    }
  }

  /** Untouched to its horizon, it times out there at the bar's price, or at the entry if there is none. */
  lemma TimeoutTrade(bars: seq<Bar>, o: Order, m: CostModel, jpy: bool, entry: real, p: real)
    requires 0 <= o.entryIndex < |bars| && Priced(bars[o.entryIndex], entry)
    requires var last := Horizon(|bars|, o);
      && Quiet(bars, o, entry, YenPip(jpy), o.entryIndex + 1, last)
      && if last == o.entryIndex then p == entry else Priced(bars[last], p) || (Unpriced(bars[last]) && p == entry)
    ensures TradeOf(bars, o, m, jpy).Some? && LeavesAt(TradeOf(bars, o, m, jpy).value, o, entry, p, YenPip(jpy), Timeout)
  {
    var last := Horizon(|bars|, o);
    PricedResolves(bars[o.entryIndex], entry);
    PricedResolves(bars[last], entry);
    QuietExit(bars, o, entry, YenPip(jpy), o.entryIndex + 1, last);
  }

  /** The price so many pips in the trade's favour. */
  function Moved(side: Side, entry: real, pips: real, pip: real): real {
    if side.Long? then entry + pips * pip else entry - pips * pip
  }

  /**
   The first bar that touches a limit decides, the take-profit first when it touches both: the trade earns exactly its
   take-profit or loses exactly its stop.
   */
  lemma TouchedTrade(bars: seq<Bar>, o: Order, m: CostModel, jpy: bool, entry: real, b: nat)
    requires 0 <= o.entryIndex < b <= Horizon(|bars|, o) && Priced(bars[o.entryIndex], entry)
    requires Quiet(bars, o, entry, YenPip(jpy), o.entryIndex + 1, b - 1)
    requires TouchesProfit(o, entry, bars[b], YenPip(jpy)) || TouchesStop(o, entry, bars[b], YenPip(jpy))
    ensures var t := TradeOf(bars, o, m, jpy);
      && t.Some?
      && if TouchesProfit(o, entry, bars[b], YenPip(jpy))
         then t.value.exitReason == TakeProfit && t.value.grossPips == ToFixed(o.takeProfitPips.value, 3)
         else t.value.exitReason == StopLoss && t.value.grossPips == ToFixed(-o.stopLossPips.value, 3)
    ensures var t, pip := TradeOf(bars, o, m, jpy).value, YenPip(jpy);
      var pips := if TouchesProfit(o, entry, bars[b], pip) then o.takeProfitPips.value else -o.stopLossPips.value;
      t.exitPrice == ToFixed(Moved(o.side, entry, pips, pip), 6)
  {
    var pip, last := YenPip(jpy), Horizon(|bars|, o);
    TouchedExit(bars, o, entry, pip, o.entryIndex + 1, b, last);
    TradeSettles(bars, o, m, jpy, entry);
    if TouchesProfit(o, entry, bars[b], pip) {
      SettledAt(o, entry, o.takeProfitPips.value, TakeProfit, last, m, jpy);
    } else {
      SettledAt(o, entry, -o.stopLossPips.value, StopLoss, last, m, jpy);
    }
  }

  lemma TradeSettles(bars: seq<Bar>, o: Order, m: CostModel, jpy: bool, entry: real)
    requires 0 <= o.entryIndex < |bars| && Priced(bars[o.entryIndex], entry)
    ensures var last := Horizon(|bars|, o);
      TradeOf(bars, o, m, jpy) ==
      Some(Settle(o, entry, ExitFrom(bars, o.side, entry, LimitsOf(o, YenPip(jpy)), o.entryIndex + 1, last), last, m, jpy))
  {
    PricedResolves(bars[o.entryIndex], entry);
  }

  lemma SettledAt(o: Order, entry: real, pips: real, reason: Reason, last: int, m: CostModel, jpy: bool)
    ensures var t := Settle(o, entry, Exit(Target(o.side, entry, pips, YenPip(jpy)), reason), last, m, jpy);
      && t.exitReason == reason && t.grossPips == ToFixed(pips, 3)
      && t.exitPrice == ToFixed(Moved(o.side, entry, pips, YenPip(jpy)), 6)
  {
    MoveOf(o.side, entry, pips, YenPip(jpy));
    TargetFavour(o.side, entry, pips, YenPip(jpy));
  }

  // ---- What it earns after costs ----

  /** Spread, slippage and commission in pips; a nonzero override replaces the pair's pip. */
  function CostInPips(m: CostModel, jpy: bool, entry: real): real
    requires entry != 0.0 && m.lotSize != 0.0
  {
    var pip := if m.pipOverride.GetOr(0.0) != 0.0 then m.pipOverride.value else YenPip(jpy);
    m.spreadPips + m.slippagePips + m.commissionPerLot * entry / (m.lotSize * pip)
  }

  /** The value of one pip of the position. */
  function ValueOfPip(m: CostModel, jpy: bool, entry: real, units: real): real
    requires entry != 0.0
  {
    (if m.pipOverride.GetOr(0.0) != 0.0 then m.pipOverride.value else YenPip(jpy)) / entry * units
  }

  lemma CostMeaning(m: CostModel, jpy: bool, entry: real, units: real)
    requires entry != 0.0 && m.lotSize != 0.0
    ensures CostInPips(m, jpy, entry) == UnitFreeCost(m, jpy, entry) && ValueOfPip(m, jpy, entry, units) == PipValue(m, jpy, entry, units)
  {
  }

  function GrossOf(bars: seq<Bar>, o: Order, jpy: bool, entry: real): real
    requires 0 <= o.entryIndex < |bars|
  {
    Favour(o.side, entry, ExitFrom(bars, o.side, entry, OrderLimits(o, jpy), o.entryIndex + 1, LastBar(|bars|, o)).price) / YenPip(jpy)
  }

  /** Gross pips are reported rounded, and net pips are what the costs leave of them unrounded. */
  lemma TradeAccounts(bars: seq<Bar>, o: Order, m: CostModel, jpy: bool, entry: real)
    requires 0 <= o.entryIndex < |bars| && Priced(bars[o.entryIndex], entry)
    requires entry != 0.0 && o.units != 0.0 && m.lotSize != 0.0
    ensures TradeOf(bars, o, m, jpy).Some? && ValueOfPip(m, jpy, entry, o.units) != 0.0
    ensures var t, gross := TradeOf(bars, o, m, jpy).value, GrossOf(bars, o, jpy, entry);
      && t.grossPips == ToFixed(gross, 3) && t.netPips.Some?
      && Abs(t.netPips.value - (gross - CostInPips(m, jpy, entry))) <=
         0.5 / Pow10(3) + 0.5 / Pow10(8) / Abs(ValueOfPip(m, jpy, entry, o.units))
  {
    PricedResolves(bars[o.entryIndex], entry);
    CostMeaning(m, jpy, entry, o.units);
    TradeNet(bars, o, m, jpy);
  }

  /** Pips as a share of the entry price. */
  function ShareOfEntry(pips: real, pip: real, entry: real): real
    requires entry != 0.0
  {
    pips * pip / entry
  }

  lemma ShareLinear(x: real, y: real, pip: real, entry: real)
    requires entry != 0.0
    ensures ShareOfEntry(x, pip, entry) - ShareOfEntry(y, pip, entry) == ShareOfEntry(x - y, pip, entry)
  {
    assert (x - y) * pip == x * pip - y * pip;
  }

  lemma ScaledError(net: real, exact: real, pip: real, entry: real, err: real)
    requires pip > 0.0 && entry != 0.0 && Abs(net - exact) <= err
    ensures Abs(ShareOfEntry(net, pip, entry) - ShareOfEntry(exact, pip, entry)) <= ShareOfEntry(err, pip, Abs(entry))
  {
    var d, e := net - exact, Abs(entry);
    ShareLinear(net, exact, pip, entry);
    AbsProduct(d, pip);
    MultiplyMonotone(Abs(d), err, pip);
    DivideMonotone(Abs(d * pip), err * pip, e);
    AbsQuotient(d * pip, entry);
  }

  lemma AbsQuotient(x: real, d: real)
    requires d != 0.0
    ensures Abs(x / d) == Abs(x) / Abs(d)
  {
    var q := x / d;
    assert q * d == x;
    AbsProduct(q, d);
    assert Abs(q) * Abs(d) / Abs(d) == Abs(q);
  }

  lemma ReturnIs(bars: seq<Bar>, o: Order, m: CostModel, jpy: bool, entry: real)
    requires 0 <= o.entryIndex < |bars| && Priced(bars[o.entryIndex], entry)
    requires entry != 0.0 && o.units != 0.0 && m.lotSize != 0.0
    ensures var t, costs := TradeOf(bars, o, m, jpy), CostPips(m, jpy, entry, o.units);
      && t.Some? && costs.Some?
      && t.value.returnPct == Some(ToFixed(ShareOfEntry(GrossOf(bars, o, jpy, entry) - costs.value, YenPip(jpy), entry), 6))
  {
    PricedResolves(bars[o.entryIndex], entry);
    SameGross(bars, o, jpy, entry);
    SameShare(GrossOf(bars, o, jpy, entry) - CostPips(m, jpy, entry, o.units).value, YenPip(jpy), entry);
  }

  lemma SameGross(bars: seq<Bar>, o: Order, jpy: bool, entry: real)
    requires 0 <= o.entryIndex < |bars|
    ensures var exit := ExitFrom(bars, o.side, entry, OrderLimits(o, jpy), o.entryIndex + 1, LastBar(|bars|, o));
      GrossOf(bars, o, jpy, entry) == GrossPips(o.side, entry, exit.price, PairPip(jpy))
  {
  }

  lemma SameShare(pips: real, pip: real, entry: real)
    requires entry != 0.0
    ensures ReturnOn(pips, pip, entry) == ShareOfEntry(pips, pip, entry)
  {
  }

  /** The return is the net pips as a share of the entry, up to the same rounding and its own at six places. */
  lemma TradeReturn(bars: seq<Bar>, o: Order, m: CostModel, jpy: bool, entry: real)
    requires 0 <= o.entryIndex < |bars| && Priced(bars[o.entryIndex], entry)
    requires entry != 0.0 && o.units != 0.0 && m.lotSize != 0.0
    ensures ValueOfPip(m, jpy, entry, o.units) != 0.0
    ensures var t := TradeOf(bars, o, m, jpy);
      var net := GrossOf(bars, o, jpy, entry) - CostInPips(m, jpy, entry);
      && t.Some? && t.value.returnPct.Some?
      && Abs(t.value.returnPct.value - ShareOfEntry(net, YenPip(jpy), entry)) <=
         0.5 / Pow10(6) + ShareOfEntry(0.5 / Pow10(8) / Abs(ValueOfPip(m, jpy, entry, o.units)), YenPip(jpy), Abs(entry))
  {
    var gross, pip := GrossOf(bars, o, jpy, entry), YenPip(jpy);
    ReturnIs(bars, o, m, jpy, entry);
    CostMeaning(m, jpy, entry, o.units);
    CostPipsWithinRounding(m, jpy, entry, o.units);
    var costs := CostPips(m, jpy, entry, o.units).value;
    ToFixedError(ShareOfEntry(gross - costs, pip, entry), 6);
    ScaledError(gross - costs, gross - CostInPips(m, jpy, entry), pip, entry,
                0.5 / Pow10(8) / Abs(ValueOfPip(m, jpy, entry, o.units)));
  }

  /** No units, no net and no return; a zero entry or lot size leaves the costs out, a zero entry the return too. */
  lemma TradeWithoutCosts(bars: seq<Bar>, o: Order, m: CostModel, jpy: bool, entry: real)
    requires 0 <= o.entryIndex < |bars| && Priced(bars[o.entryIndex], entry)
    requires o.units == 0.0 || entry == 0.0 || m.lotSize == 0.0
    ensures var t := TradeOf(bars, o, m, jpy);
      && t.Some? && (o.units == 0.0 ==> t.value.netPips.None?)
      && (o.units == 0.0 || entry == 0.0 ==> t.value.returnPct.None?)
      && (o.units != 0.0 ==> t.value.netPips == Some(t.value.grossPips))
  {
    PricedResolves(bars[o.entryIndex], entry);
  }

  // ---- Signals ----

  /** The order a signal places: its own terms where it has them, the engine's otherwise; at least one bar is held. */
  predicate Places(e: Engine, s: Signal, o: Order, entryIndex: int) {
    && o.entryIndex == entryIndex && (o.side.Short? <==> s.direction.ShortSide?)
    && o.holdBars == (if s.holdBars.None? then e.defaultHoldBars else if s.holdBars.value < 1 then 1 else s.holdBars.value)
    && o.takeProfitPips == (if s.takeProfitPips.Some? then s.takeProfitPips else e.defaultTakeProfitPips)
    && o.stopLossPips == (if s.stopLossPips.Some? then s.stopLossPips else e.defaultStopLossPips)
    && o.units == (if s.units.Some? then s.units.value else e.units)
  }

  /** On ordered bars a signal trades from the first bar at or after it, the offset further on. */
  lemma SignalMeaning(e: Engine, bars: seq<Bar>, jpy: bool, s: Signal, o: Order, i: nat)
    requires forall a, b :: 0 <= a < b < |bars| ==> bars[a].timestamp <= bars[b].timestamp
    requires s.timestamp.Some? && i < |bars| && bars[i].timestamp >= s.timestamp.value
    requires forall j :: 0 <= j < i ==> bars[j].timestamp < s.timestamp.value
    requires Places(e, s, o, i + e.entryOffset)
    ensures SignalTrade(e, bars, jpy, s) == if s.direction.Unknown? then None else TradeOf(bars, o, e.costs, jpy)
  {
    var ts := Timestamps(bars);
    ScanFinds(ts, s.timestamp.value, 0, i);
    EntryIsFirstAtOrAfter(ts, s.timestamp.value, e.entryOffset);
    assert o == OrderFor(e, s, i + e.entryOffset);
  }

  /** Without a time, or after the last bar, it does not trade. */
  lemma SignalWithoutBar(e: Engine, bars: seq<Bar>, jpy: bool, s: Signal)
    requires forall a, b :: 0 <= a < b < |bars| ==> bars[a].timestamp <= bars[b].timestamp
    requires s.timestamp.Some? ==> forall j :: 0 <= j < |bars| ==> bars[j].timestamp < s.timestamp.value
    ensures SignalTrade(e, bars, jpy, s).None?
  {
    if s.timestamp.Some? {
      var ts := Timestamps(bars);
      ScanFindsNone(ts, s.timestamp.value, 0);
      EntryIsFirstAtOrAfter(ts, s.timestamp.value, e.entryOffset);
    }
  }

  /** A run makes every signal's trade, in order. */
  lemma {:induction false} RunMakesAll(e: Engine, bars: seq<Bar>, jpy: bool, signals: seq<Signal>, k: nat)
    requires k < |signals| && SignalTrade(e, bars, jpy, signals[k]).Some?
    ensures |RunTrades(e, bars, jpy, signals[..k])| < |RunTrades(e, bars, jpy, signals)|
    ensures RunTrades(e, bars, jpy, signals)[|RunTrades(e, bars, jpy, signals[..k])|] == SignalTrade(e, bars, jpy, signals[k]).value
  {
    var n := |signals| - 1;
    assert bars != [];
    if k < n {
      assert signals[..n][..k] == signals[..k];
      RunMakesAll(e, bars, jpy, signals[..n], k);
    }
  }

  /** The curve adds up the returns of the trades so far, none for a trade without one, and the metrics are of the trades' figures. */
  lemma RunReports(trades: seq<Trade>, k: nat)
    requires k < |trades|
    ensures RoundedCurve(TradeReturns(trades))[k] ==
            ToFixed(Sum(seq(k + 1, i requires 0 <= i < k + 1 => if trades[i].returnPct.Some? then trades[i].returnPct.value else 0.0)), 6)
    ensures var r := Results(trades)[k];
      r.grossPips == trades[k].grossPips && r.netPips == trades[k].netPips && r.returnPct == trades[k].returnPct
  {
    assert TradeReturns(trades)[..k + 1] ==
           seq(k + 1, i requires 0 <= i < k + 1 => if trades[i].returnPct.Some? then trades[i].returnPct.value else 0.0);
  }
}
