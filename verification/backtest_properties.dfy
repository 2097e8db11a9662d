/** What the backtester guarantees about every trade and every run. */
module BacktestProperties {
  import opened Options
  import opened JsNumbers
  import opened Sums
  import opened MathHelpers
  import opened Backtester

  // ---- No look-ahead ----

  /** Two bar lists that agree on their first m bars. */
  ghost predicate SamePrefix(bars: seq<Bar>, bars': seq<Bar>, m: nat) {
    m <= |bars| && m <= |bars'| && bars[..m] == bars'[..m]
  }

  lemma {:induction false} ExitSeesPrefix(bars: seq<Bar>, bars': seq<Bar>, side: Side, entry: real, limits: Limits, idx: nat, last: int)
    requires last < |bars| && last < |bars'|
    requires SamePrefix(bars, bars', Max(0, DecidingBar(bars, side, entry, limits, idx, last) + 1))
    ensures ExitFrom(bars, side, entry, limits, idx, last) == ExitFrom(bars', side, entry, limits, idx, last)
    decreases last - idx
  {
    if idx <= last {
      var m := DecidingBar(bars, side, entry, limits, idx, last) + 1;
      assert bars[idx] == bars[..m][idx] == bars'[..m][idx];
      var e := DetermineExitPrice(side, entry, Some(bars[idx]), limits);
      if !(e.reason.TakeProfit? || e.reason.StopLoss? || idx == last) {
        ExitSeesPrefix(bars, bars', side, entry, limits, idx + 1, last);
      }
    }
  }

  /** The bar after which nothing matters to the order's trade. */
  function LastBarRead(bars: seq<Bar>, o: Order, jpy: bool): (b: int)
    requires 0 <= o.entryIndex < |bars|
  {
    var entry := ResolvePrice(Some(bars[o.entryIndex]), None);
    if entry.None? then o.entryIndex
    else Max(o.entryIndex, DecidingBar(bars, o.side, entry.value, OrderLimits(o, jpy), o.entryIndex + 1, LastBar(|bars|, o)))
  }

  /**
   A trade is decided by the bars up to the one it exits on: editing any later bar, or adding or dropping
   bars beyond the horizon, leaves every figure of it unchanged.
   */
  lemma TradeIgnoresTheFuture(bars: seq<Bar>, bars': seq<Bar>, o: Order, m: CostModel, jpy: bool)
    requires 0 <= o.entryIndex < |bars|
    requires SamePrefix(bars, bars', LastBarRead(bars, o, jpy) + 1)
    requires LastBar(|bars|, o) == LastBar(|bars'|, o)
    ensures TradeOf(bars, o, m, jpy) == TradeOf(bars', o, m, jpy)
  {
    var b := LastBarRead(bars, o, jpy);
    assert bars[o.entryIndex] == bars[..b + 1][o.entryIndex] == bars'[..b + 1][o.entryIndex];
    var entry := ResolvePrice(Some(bars[o.entryIndex]), None);
    if entry.Some? {
      var limits := OrderLimits(o, jpy);
      var last := LastBar(|bars|, o);
      var d := DecidingBar(bars, o.side, entry.value, limits, o.entryIndex + 1, last);
      var k := Max(0, d + 1);
      assert bars[..k] == bars[..b + 1][..k] && bars'[..k] == bars'[..b + 1][..k];
      ExitSeesPrefix(bars, bars', o.side, entry.value, limits, o.entryIndex + 1, last);
    }
  }

  lemma {:induction false} ScanPrefix(ts: seq<real>, ts': seq<real>, target: real, i: nat, m: nat)
    requires i <= m <= |ts| && m <= |ts'| && ts[..m] == ts'[..m]
    requires i <= FirstAtOrAfter(ts, target, i) < m
    ensures FirstAtOrAfter(ts', target, i) == FirstAtOrAfter(ts, target, i)
    decreases m - i
  {
    if i < m {
      assert ts[i] == ts[..m][i] == ts'[..m][i];
      if ts[i] < target {
        ScanRange(ts, target, i + 1);
        ScanPrefix(ts, ts', target, i + 1, m);
      }
    }
  }

  lemma {:induction false} ScanRange(ts: seq<real>, target: real, i: nat)
    requires i <= |ts|
    ensures FirstAtOrAfter(ts, target, i) == -1 || i <= FirstAtOrAfter(ts, target, i) < |ts|
    ensures FirstAtOrAfter(ts, target, i) != -1 ==> ts[FirstAtOrAfter(ts, target, i)] >= target
    decreases |ts| - i
  {
    if i < |ts| {
      ScanRange(ts, target, i + 1);
    }
  }

  lemma TimestampsPrefix(bars: seq<Bar>, bars': seq<Bar>, m: nat)
    requires SamePrefix(bars, bars', m)
    ensures Timestamps(bars)[..m] == Timestamps(bars')[..m]
  {
    assert forall i :: 0 <= i < m ==> bars[i] == bars[..m][i] && bars'[i] == bars'[..m][i];
  }

  /** An entry found inside the common prefix is found in both histories. */
  lemma SameEntry(ts: seq<real>, ts': seq<real>, target: real, offset: nat, m: nat)
    requires NonDecreasing(ts) && NonDecreasing(ts') && m <= |ts| && m <= |ts'| && ts[..m] == ts'[..m]
    requires EntryIndex(ts, Some(target), offset) != -1 && EntryIndex(ts, Some(target), offset) < m
    ensures EntryIndex(ts', Some(target), offset) == EntryIndex(ts, Some(target), offset) >= 0
  {
    EntryIsFirstAtOrAfter(ts, target, offset);
    EntryIsFirstAtOrAfter(ts', target, offset);
    ScanRange(ts, target, 0);
    ScanPrefix(ts, ts', target, 0, m);
  }

  /** An order whose horizon lies inside the common prefix trades alike in both histories. */
  lemma SameTrade(bars: seq<Bar>, bars': seq<Bar>, o: Order, c: CostModel, jpy: bool, m: nat)
    requires SamePrefix(bars, bars', m) && 0 <= o.entryIndex && o.entryIndex + Max(1, o.holdBars) < m
    ensures TradeOf(bars, o, c, jpy) == TradeOf(bars', o, c, jpy)
  {
    var b := LastBarRead(bars, o, jpy);
    assert bars[..b + 1] == bars[..m][..b + 1] && bars'[..b + 1] == bars'[..m][..b + 1];
    TradeIgnoresTheFuture(bars, bars', o, c, jpy);
  }

  /**
   End to end: when the bars are in time order and two histories agree up to the horizon of a signal's
   trade, the signal trades identically in both, entry search included.
   */
  lemma NoLookAhead(e: Engine, bars: seq<Bar>, bars': seq<Bar>, jpy: bool, s: Signal, m: nat)
    requires NonDecreasing(Timestamps(bars)) && NonDecreasing(Timestamps(bars')) && SamePrefix(bars, bars', m)
    requires e.entryOffset >= 0 && s.timestamp.Some?
    requires var entry := EntryIndex(Timestamps(bars), s.timestamp, e.entryOffset);
      var o := OrderFor(e, s, entry);
      && entry != -1 && entry + Max(1, o.holdBars) < m
    ensures SignalTrade(e, bars, jpy, s) == SignalTrade(e, bars', jpy, s)
  {
    TimestampsPrefix(bars, bars', m);
    SameEntry(Timestamps(bars), Timestamps(bars'), s.timestamp.value, e.entryOffset, m);
    SameTrade(bars, bars', OrderFor(e, s, EntryIndex(Timestamps(bars), s.timestamp, e.entryOffset)), e.costs, jpy, m);
  }

  // ---- Trades and their signals ----

  /** Every trade of a run is the trade of one of its signals. */
  lemma {:induction false} TradeHasSignal(e: Engine, bars: seq<Bar>, jpy: bool, signals: seq<Signal>, t: Trade) returns (k: nat)
    requires t in RunTrades(e, bars, jpy, signals)
    ensures k < |signals| && SignalTrade(e, bars, jpy, signals[k]) == Some(t)
  {
    var n := |signals| - 1;
    if t in RunTrades(e, bars, jpy, signals[..n]) {
      k := TradeHasSignal(e, bars, jpy, signals[..n], t);
    } else {
      k := n;
    }
  }

  // ---- Payoff ----

  /** A bar whose resolved price lies between its low and high, read as the exit scan reads them. */
  ghost predicate WellFormed(bar: Bar, entry: real) {
    var close := ResolvePrice(Some(bar), Some(entry)).GetOr(entry);
    bar.low.GetOr(entry) <= close <= bar.high.GetOr(entry)
  }

  lemma MoveOf(side: Side, entry: real, pips: real, pip: real)
    requires pip > 0.0
    ensures GrossPips(side, entry, Target(side, entry, pips, pip), pip) == pips
  {
    if side.Long? {
      assert Target(side, entry, pips, pip) - entry == pips * pip;
    } else {
      assert entry - Target(side, entry, pips, pip) == pips * pip;
    }
    assert pips * pip / pip == pips;
  }

  /** Gross pips order prices: up for a long trade, down for a short one. */
  lemma PipsMonotone(side: Side, entry: real, p: real, q: real, pip: real)
    requires pip > 0.0 && (if side.Long? then p <= q else q <= p)
    ensures GrossPips(side, entry, p, pip) <= GrossPips(side, entry, q, pip)
  {
    if side.Long? {
      DivideMonotone(p - entry, q - entry, pip);
    } else {
      DivideMonotone(entry - p, entry - q, pip);
    }
  }

  ghost predicate WithinLimits(gross: real, limits: Limits) {
    && (limits.takeProfitPips.Some? ==> gross <= limits.takeProfitPips.value)
    && (limits.stopLossPips.Some? ==> -limits.stopLossPips.value <= gross)
  }

  lemma BarPayoff(side: Side, entry: real, bar: Bar, limits: Limits)
    requires limits.pip > 0.0 && WellFormed(bar, entry)
    requires limits.takeProfitPips.GetOr(0.0) >= 0.0 && limits.stopLossPips.GetOr(0.0) >= 0.0
    ensures WithinLimits(GrossPips(side, entry, DetermineExitPrice(side, entry, Some(bar), limits).price, limits.pip), limits)
  {
    var tpPips, slPips, pip := limits.takeProfitPips.GetOr(0.0), limits.stopLossPips.GetOr(0.0), limits.pip;
    MoveOf(side, entry, tpPips, pip);
    MoveOf(side, entry, -slPips, pip);
    var e := DetermineExitPrice(side, entry, Some(bar), limits);
    if e.reason.Timeout? {
      if limits.takeProfitPips.Some? {
        PipsMonotone(side, entry, e.price, Target(side, entry, tpPips, pip), pip);
      }
      if limits.stopLossPips.Some? {
        PipsMonotone(side, entry, Target(side, entry, -slPips, pip), e.price, pip);
      }
    }
  }

  /** Over well-formed bars and nonnegative limits a trade's gross pips never leave [-stopLoss, takeProfit], either side. */
  lemma {:induction false} PayoffBounded(bars: seq<Bar>, side: Side, entry: real, limits: Limits, idx: nat, last: int)
    requires last < |bars| && limits.pip > 0.0
    requires forall i :: idx <= i <= last ==> WellFormed(bars[i], entry)
    requires limits.takeProfitPips.GetOr(0.0) >= 0.0 && limits.stopLossPips.GetOr(0.0) >= 0.0
    ensures WithinLimits(GrossPips(side, entry, ExitFrom(bars, side, entry, limits, idx, last).price, limits.pip), limits)
    decreases last - idx
  {
    if idx > last {
      assert GrossPips(side, entry, entry, limits.pip) == 0.0;
    } else {
      BarPayoff(side, entry, bars[idx], limits);
      var e := DetermineExitPrice(side, entry, Some(bars[idx]), limits);
      if !(e.reason.TakeProfit? || e.reason.StopLoss? || idx == last) {
        PayoffBounded(bars, side, entry, limits, idx + 1, last);
      }
    }
  }

  /** Reported gross pips within the limits, rounded as the report is. */
  ghost predicate ReportedWithin(grossPips: real, o: Order) {
    && (o.takeProfitPips.Some? ==> grossPips <= ToFixed(o.takeProfitPips.value, 3))
    && (o.stopLossPips.Some? ==> ToFixed(-o.stopLossPips.value, 3) <= grossPips)
  }

  ghost predicate Complete(bar: Bar) {
    && bar.low.Some? && bar.high.Some?
    && var price := ResolvePrice(Some(bar), None); price.Some? && bar.low.value <= price.value <= bar.high.value
  }

  predicate NonNegativeLimits(o: Order) {
    o.takeProfitPips.GetOr(0.0) >= 0.0 && o.stopLossPips.GetOr(0.0) >= 0.0
  }

  /** So a trade's reported gross pips never leave the rounded limits of its order. */
  lemma TradePayoff(bars: seq<Bar>, o: Order, m: CostModel, jpy: bool, t: Trade)
    requires TradeOf(bars, o, m, jpy) == Some(t) && NonNegativeLimits(o)
    requires forall i :: o.entryIndex < i <= LastBar(|bars|, o) ==> Complete(bars[i])
    ensures ReportedWithin(t.grossPips, o)
  {
    var entry := ResolvePrice(Some(bars[o.entryIndex]), None).value;
    var limits, last := OrderLimits(o, jpy), LastBar(|bars|, o);
    assert forall i :: o.entryIndex < i <= last ==> WellFormed(bars[i], entry);
    PayoffBounded(bars, o.side, entry, limits, o.entryIndex + 1, last);
    var gross := GrossPips(o.side, entry, ExitFrom(bars, o.side, entry, limits, o.entryIndex + 1, last).price, PairPip(jpy));
    if o.takeProfitPips.Some? {
      ToFixedMonotone(gross, o.takeProfitPips.value, 3);
    }
    if o.stopLossPips.Some? {
      ToFixedMonotone(-o.stopLossPips.value, gross, 3);
    }
  }

  /** And no trade of a run leaves the limits its signal and the engine's defaults give it. */
  lemma RunPayoff(e: Engine, bars: seq<Bar>, jpy: bool, signals: seq<Signal>, t: Trade) returns (k: nat)
    requires t in RunTrades(e, bars, jpy, signals)
    requires forall i :: 0 <= i < |bars| ==> Complete(bars[i])
    requires forall i :: 0 <= i < |signals| ==> NonNegativeLimits(OrderFor(e, signals[i], 0))
    ensures k < |signals| && SignalTrade(e, bars, jpy, signals[k]) == Some(t)
    ensures ReportedWithin(t.grossPips, OrderFor(e, signals[k], t.entryIndex))
  {
    k := TradeHasSignal(e, bars, jpy, signals, t);
    var entry := EntryIndex(Timestamps(bars), signals[k].timestamp, e.entryOffset);
    assert NonNegativeLimits(OrderFor(e, signals[k], 0));
    TradePayoff(bars, OrderFor(e, signals[k], entry), e.costs, jpy, t);
  }

  // ---- Mirror symmetry ----

  function Mirror(p: real, c: real): real {
    2.0 * c - p
  }

  function MirrorOpt(p: Option<real>, c: real): Option<real> {
    if p.Some? then Some(Mirror(p.value, c)) else None
  }

  /** All prices reflected about c: the mirrored high is the reflected low. */
  function MirrorBar(b: Bar, c: real): Bar {
    Bar(b.timestamp, MirrorOpt(b.open, c), MirrorOpt(b.low, c), MirrorOpt(b.high, c), MirrorOpt(b.close, c), MirrorOpt(b.price, c))
  }

  function MirrorBars(bars: seq<Bar>, c: real): (r: seq<Bar>)
    ensures |r| == |bars|
  {
    seq(|bars|, i requires 0 <= i < |bars| => MirrorBar(bars[i], c))
  }

  function Opposite(side: Side): Side {
    if side.Long? then Short else Long
  }

  lemma MirrorTarget(side: Side, entry: real, pips: real, pip: real, c: real)
    ensures Target(Opposite(side), Mirror(entry, c), pips, pip) == Mirror(Target(side, entry, pips, pip), c)
  {
    assert -pips * pip == -(pips * pip);
  }

  lemma MirrorExitBar(side: Side, entry: real, bar: Bar, limits: Limits, c: real)
    ensures var e := DetermineExitPrice(side, entry, Some(bar), limits);
      DetermineExitPrice(Opposite(side), Mirror(entry, c), Some(MirrorBar(bar, c)), limits) == Exit(Mirror(e.price, c), e.reason)
  {
    MirrorTarget(side, entry, limits.takeProfitPips.GetOr(0.0), limits.pip, c);
    MirrorTarget(side, entry, -limits.stopLossPips.GetOr(0.0), limits.pip, c);
  }

  /** Reflecting every price about a constant and swapping sides reflects the exit and keeps its reason and gross pips. */
  lemma {:induction false} MirrorPreservesPips(bars: seq<Bar>, side: Side, entry: real, limits: Limits, idx: nat, last: int, c: real)
    requires last < |bars| && limits.pip != 0.0
    ensures var e := ExitFrom(bars, side, entry, limits, idx, last);
      var e' := ExitFrom(MirrorBars(bars, c), Opposite(side), Mirror(entry, c), limits, idx, last);
      && e' == Exit(Mirror(e.price, c), e.reason)
      && GrossPips(Opposite(side), Mirror(entry, c), e'.price, limits.pip) == GrossPips(side, entry, e.price, limits.pip)
    decreases last - idx
  {
    if idx <= last {
      MirrorExitBar(side, entry, bars[idx], limits, c);
      var e := DetermineExitPrice(side, entry, Some(bars[idx]), limits);
      if !(e.reason.TakeProfit? || e.reason.StopLoss? || idx == last) {
        MirrorPreservesPips(bars, side, entry, limits, idx + 1, last, c);
      }
    }
  }

  function MirrorOrder(o: Order): Order {
    o.(side := Opposite(o.side))
  }

  /** Alike but for the prices and what the costs make of them. */
  ghost predicate SamePips(t: Trade, t': Trade) {
    && t'.side == Opposite(t.side) && t'.entryIndex == t.entryIndex && t'.exitIndex == t.exitIndex
    && t'.exitReason == t.exitReason && t'.grossPips == t.grossPips && t'.units == t.units && t'.holdBars == t.holdBars
  }

  ghost predicate SameOutcome(t: Option<Trade>, t': Option<Trade>) {
    t.Some? == t'.Some? && (t.Some? ==> SamePips(t.value, t'.value))
  }

  lemma MirrorTrade(bars: seq<Bar>, o: Order, m: CostModel, jpy: bool, c: real)
    ensures SameOutcome(TradeOf(bars, o, m, jpy), TradeOf(MirrorBars(bars, c), MirrorOrder(o), m, jpy))
  {
    if 0 <= o.entryIndex < |bars| {
      var entry := ResolvePrice(Some(bars[o.entryIndex]), None);
      assert ResolvePrice(Some(MirrorBars(bars, c)[o.entryIndex]), None) == MirrorOpt(entry, c);
      if entry.Some? {
        MirrorPreservesPips(bars, o.side, entry.value, OrderLimits(o, jpy), o.entryIndex + 1, LastBar(|bars|, o), c);
      }
    }
  }

  /** A missing direction counts as long, so its mirror image is short. */
  function MirrorSignal(s: Signal): Signal {
    match s.direction
    case Unknown => s
    case ShortSide => s.(direction := LongSide)
    case _ => s.(direction := ShortSide)
  }

  function MirrorSignals(signals: seq<Signal>): (r: seq<Signal>)
    ensures |r| == |signals|
  {
    seq(|signals|, i requires 0 <= i < |signals| => MirrorSignal(signals[i]))
  }

  lemma MirrorSignalTrade(e: Engine, bars: seq<Bar>, jpy: bool, s: Signal, c: real)
    ensures SameOutcome(SignalTrade(e, bars, jpy, s), SignalTrade(e, MirrorBars(bars, c), jpy, MirrorSignal(s)))
  {
    assert Timestamps(MirrorBars(bars, c)) == Timestamps(bars);
    var entry := EntryIndex(Timestamps(bars), s.timestamp, e.entryOffset);
    if !s.direction.Unknown? {
      assert OrderFor(e, MirrorSignal(s), entry) == MirrorOrder(OrderFor(e, s, entry));
      MirrorTrade(bars, OrderFor(e, s, entry), e.costs, jpy, c);
    }
  }

  lemma MirrorFront(signals: seq<Signal>, n: nat)
    requires n <= |signals|
    ensures MirrorSignals(signals)[..n] == MirrorSignals(signals[..n])
  {
  }

  /** A whole run on mirrored prices and swapped signals makes the same trades, pip for pip before costs. */
  lemma {:induction false} MirrorRun(e: Engine, bars: seq<Bar>, jpy: bool, signals: seq<Signal>, c: real)
    ensures var r, r' := RunTrades(e, bars, jpy, signals), RunTrades(e, MirrorBars(bars, c), jpy, MirrorSignals(signals));
      |r'| == |r| && forall i :: 0 <= i < |r| ==> SamePips(r[i], r'[i])
  {
    if signals != [] {
      var n := |signals| - 1;
      MirrorRun(e, bars, jpy, signals[..n], c);
      MirrorSignalTrade(e, bars, jpy, signals[n], c);
      MirrorFront(signals, n);
    }
  }

  // ---- Costs ----

  /** The cost of a trade in pips, free of rounding and of the number of units. */
  function UnitFreeCost(m: CostModel, jpy: bool, entry: real): real
    requires entry != 0.0 && m.lotSize != 0.0
  {
    m.spreadPips + m.slippagePips + m.commissionPerLot * entry / (m.lotSize * ModelPip(m, jpy))
  }

  lemma PipValueNonZero(m: CostModel, jpy: bool, entry: real, units: real)
    requires entry != 0.0 && units != 0.0
    ensures PipValue(m, jpy, entry, units) != 0.0
  {
    var perPip := ModelPip(m, jpy) / entry;
    assert perPip * entry == ModelPip(m, jpy);
    NonZeroProduct(perPip, units);
  }

  lemma NonZeroProduct(x: real, y: real)
    requires x != 0.0 && y != 0.0
    ensures x * y != 0.0
  {
  }

  /** Before rounding, the cost is the unit-free figure times the pip value. */
  lemma ExactCostPips(m: CostModel, jpy: bool, entry: real, units: real)
    requires entry != 0.0 && units != 0.0 && m.lotSize != 0.0
    ensures ExactCost(m, jpy, entry, units) == Scale(UnitFreeCost(m, jpy, entry), PipValue(m, jpy, entry, units))
  {
    var pv := PipValue(m, jpy, entry, units);
    PipValueIs(m, jpy, entry, units);
    CostAtPips(m, jpy, entry, units, pv);
  }

  lemma PipValueIs(m: CostModel, jpy: bool, entry: real, units: real)
    requires entry != 0.0
    ensures PipValue(m, jpy, entry, units) == ModelPip(m, jpy) / entry * units
  {
  }

  lemma CostAtPips(m: CostModel, jpy: bool, entry: real, units: real, pv: real)
    requires entry != 0.0 && units != 0.0 && m.lotSize != 0.0 && pv == ModelPip(m, jpy) / entry * units
    ensures CostAt(m, pv, units) == Scale(UnitFreeCost(m, jpy, entry), pv)
  {
    CostArithmetic(m.spreadPips, m.slippagePips, m.commissionPerLot, m.lotSize, entry, ModelPip(m, jpy), units, pv);
  }

  lemma CostArithmetic(spread: real, slippage: real, c: real, lot: real, entry: real, pip: real, units: real, pv: real)
    requires entry != 0.0 && units != 0.0 && lot != 0.0 && pip != 0.0 && pv == pip / entry * units
    ensures spread * pv + slippage * pv + c / lot * units == (spread + slippage + c * entry / (lot * pip)) * pv
  {
    var perPip := pip / entry;
    assert perPip * entry == pip;
    assert perPip != 0.0;
    CommissionInPips(c, lot, entry, pip, units, perPip);
    Collects(spread, slippage, c * entry / (lot * pip), pv, c / lot * units);
  }

  lemma Collects(a: real, b: real, k: real, pv: real, c: real)
    requires k * pv == c
    ensures a * pv + b * pv + c == (a + b + k) * pv
  {
  }

  lemma CommissionInPips(c: real, lot: real, entry: real, pip: real, units: real, perPip: real)
    requires lot != 0.0 && entry != 0.0 && pip != 0.0 && perPip * entry == pip
    ensures c * entry / (lot * pip) * (perPip * units) == c / lot * units
  {
    var k := c / lot;
    assert k * lot == c;
    assert c * entry == k * entry * lot;
    var q := c * entry / (lot * pip);
    assert q * (lot * pip) == k * entry * lot;
    assert q * pip == k * entry;
    assert q * (perPip * entry) == k * entry;
    assert q * perPip == k;
  }

  /**
   The cost in pips is spread plus slippage plus commission * entry / (lotSize * pip), up to the rounding of
   the total at eight places: at most half of 1e-8 divided by the pip value. Units enter only through that error.
   */
  lemma CostPipsWithinRounding(m: CostModel, jpy: bool, entry: real, units: real)
    requires entry != 0.0 && units != 0.0 && m.lotSize != 0.0
    ensures CostPips(m, jpy, entry, units).Some?
    ensures PipValue(m, jpy, entry, units) != 0.0
    ensures Abs(CostPips(m, jpy, entry, units).value - UnitFreeCost(m, jpy, entry)) <=
            0.5 / Pow10(8) / Abs(PipValue(m, jpy, entry, units))
  {
    ExactCostPips(m, jpy, entry, units);
    PipValueNonZero(m, jpy, entry, units);
    var pv, exact := PipValue(m, jpy, entry, units), ExactCost(m, jpy, entry, units);
    ToFixedError(exact, 8);
    QuotientOff(ToFixed(exact, 8), exact, UnitFreeCost(m, jpy, entry), pv, 0.5 / Pow10(8));
  }

  lemma QuotientOff(rounded: real, exact: real, cost: real, pv: real, err: real)
    requires pv != 0.0 && exact == Scale(cost, pv) && Abs(rounded - exact) <= err
    ensures Abs(rounded / pv - cost) <= err / Abs(pv)
  {
    var q := rounded / pv;
    assert q * pv == rounded;
    assert (q - cost) * pv == rounded - exact;
    AbsProduct(q - cost, pv);
    AbsBound(Abs(q - cost), Abs(pv), err);
  }

  lemma AbsProduct(a: real, b: real)
    ensures Abs(a * b) == Abs(a) * Abs(b)
  {
  }

  lemma AbsBound(size: real, p: real, err: real)
    requires p > 0.0 && size * p <= err
    ensures size <= err / p
  {
    DivideMonotone(size * p, err, p);
    assert size * p / p == size;
  }

  /**
   So a trade's reported net pips are its unrounded gross pips less the unit-free cost, up to the rounding of the
   report at three places and of the total cost at eight.
   */
  lemma TradeNet(bars: seq<Bar>, o: Order, m: CostModel, jpy: bool)
    requires TradeOf(bars, o, m, jpy).Some? && o.units != 0.0 && m.lotSize != 0.0
    requires ResolvePrice(Some(bars[o.entryIndex]), None) != Some(0.0)
    ensures var entry, t := ResolvePrice(Some(bars[o.entryIndex]), None).value, TradeOf(bars, o, m, jpy).value;
      var exit := ExitFrom(bars, o.side, entry, OrderLimits(o, jpy), o.entryIndex + 1, LastBar(|bars|, o));
      var gross := GrossPips(o.side, entry, exit.price, PairPip(jpy));
      && t.netPips.Some? && PipValue(m, jpy, entry, o.units) != 0.0
      && Abs(t.netPips.value - (gross - UnitFreeCost(m, jpy, entry))) <=
         0.5 / Pow10(3) + 0.5 / Pow10(8) / Abs(PipValue(m, jpy, entry, o.units))
  {
    var entry := ResolvePrice(Some(bars[o.entryIndex]), None).value;
    var exit := ExitFrom(bars, o.side, entry, OrderLimits(o, jpy), o.entryIndex + 1, LastBar(|bars|, o));
    CostPipsWithinRounding(m, jpy, entry, o.units);
    ToFixedError(GrossPips(o.side, entry, exit.price, PairPip(jpy)) - CostPips(m, jpy, entry, o.units).value, 3);
  }

  // ---- The equity curve ----

  lemma {:induction false} SumOnGrid(xs: seq<real>, decimals: nat)
    requires forall i :: 0 <= i < |xs| ==> OnGrid(xs[i], decimals)
    ensures OnGrid(Sum(xs), decimals)
  {
    if xs == [] {
      assert GridPoint(0, decimals) == 0.0;
    } else {
      var n := |xs| - 1;
      SumOnGrid(xs[..n], decimals);
      GridClosed(Sum(xs[..n]), xs[n], decimals);
    }
  }

  lemma ReturnOnGrid(bars: seq<Bar>, o: Order, m: CostModel, jpy: bool)
    ensures var t := TradeOf(bars, o, m, jpy); t.Some? ==> OnGrid(t.value.returnPct.GetOr(0.0), 6)
  {
    var t := TradeOf(bars, o, m, jpy);
    assert GridPoint(0, 6) == 0.0;
    if t.Some? && t.value.returnPct.Some? {
      var entry := ResolvePrice(Some(bars[o.entryIndex]), None).value;
      var exit := ExitFrom(bars, o.side, entry, OrderLimits(o, jpy), o.entryIndex + 1, LastBar(|bars|, o));
      var net := GrossPips(o.side, entry, exit.price, PairPip(jpy)) - CostPips(m, jpy, entry, o.units).value;
      ToFixedError(ReturnOn(net, PairPip(jpy), entry), 6);
    }
  }

  lemma {:induction false} ReturnsOnGrid(e: Engine, bars: seq<Bar>, jpy: bool, signals: seq<Signal>)
    ensures forall t :: t in RunTrades(e, bars, jpy, signals) ==> OnGrid(t.returnPct.GetOr(0.0), 6)
  {
    if bars != [] && signals != [] {
      var n := |signals| - 1;
      ReturnsOnGrid(e, bars, jpy, signals[..n]);
      var s := signals[n];
      if !s.direction.Unknown? {
        ReturnOnGrid(bars, OrderFor(e, s, EntryIndex(Timestamps(bars), s.timestamp, e.entryOffset)), e.costs, jpy);
      }
    }
  }

  /**
   Rounding each point of the equity curve loses nothing: every return is already a multiple of 1e-6, so the
   curve the run pushes point by point is the plain cumulative sum of the trades' returns.
   */
  lemma EquityIsCumulativeSum(e: Engine, bars: seq<Bar>, jpy: bool, signals: seq<Signal>)
    ensures var gains := TradeReturns(RunTrades(e, bars, jpy, signals));
      RoundedCurve(gains) == PrefixSums(gains)
  {
    var trades := RunTrades(e, bars, jpy, signals);
    var gains := TradeReturns(trades);
    ReturnsOnGrid(e, bars, jpy, signals);
    forall i | 0 <= i < |gains|
      ensures RoundedCurve(gains)[i] == PrefixSums(gains)[i]
    {
      var prefix := gains[..i + 1];
      forall k | 0 <= k < |prefix|
        ensures OnGrid(prefix[k], 6)
      {
        assert trades[k] in trades;
      }
      SumOnGrid(prefix, 6);
      ToFixedIdempotent(Sum(prefix), 6);
    }
  }
}
