/** The synthetic signals a live validation replays through the backtester. */
module LiveValidation {
  import opened Options
  import opened JsNumbers
  import opened Backtester
  import opened BacktestProperties

  datatype SignalPlan = SignalPlan(
    direction: Direction,
    takeProfitPips: Option<real>,
    stopLossPips: Option<real>,
    holdBars: Option<int>,
    signalStride: real)

  function Stride(plan: SignalPlan): nat {
    Max(1, plan.signalStride.Floor)
  }

  function SignalAt(bars: seq<Bar>, plan: SignalPlan, i: nat): Signal
    requires i < |bars|
  {
    Signal(plan.direction, Some(bars[i].timestamp), plan.holdBars, plan.takeProfitPips, plan.stopLossPips, None)
  }

  /** The bars that produce a signal: every stride-th one with a timestamp, zero counting as none. */
  predicate Emits(bars: seq<Bar>, plan: SignalPlan, i: nat)
    requires i < |bars|
  {
    i % Stride(plan) == 0 && bars[i].timestamp != 0.0
  }

  /** The signals of the first n bars, in order. */
  function SignalsUpTo(bars: seq<Bar>, plan: SignalPlan, n: nat): seq<Signal>
    requires n <= |bars|
  {
    if n == 0 then []
    else SignalsUpTo(bars, plan, n - 1) + (if Emits(bars, plan, n - 1) then [SignalAt(bars, plan, n - 1)] else [])
  }

  lemma {:induction false} NoneBetween(bars: seq<Bar>, plan: SignalPlan, i: nat, n: nat)
    requires i < n <= |bars| && forall k :: i < k < n ==> k % Stride(plan) != 0
    ensures SignalsUpTo(bars, plan, n) == SignalsUpTo(bars, plan, i + 1)
  {
    if n > i + 1 {
      NoneBetween(bars, plan, i, n - 1);
    }
  }

  lemma NextMultiple(i: nat, stride: nat)
    requires stride > 0 && i % stride == 0
    ensures (i + stride) % stride == 0
    ensures forall k :: i < k < i + stride ==> k % stride != 0
  {
    var q := i / stride;
    assert i == stride * q;
    assert i + stride == stride * (q + 1);
    DivModUnique(i + stride, stride, q + 1, 0);
    forall k | i < k < i + stride
      ensures k % stride != 0
    {
      DivModUnique(k, stride, q, k - i);
    }
  }

  method BuildSyntheticSignals(bars: seq<Bar>, plan: SignalPlan) returns (signals: seq<Signal>)
    ensures signals == SignalsUpTo(bars, plan, |bars|)
  {
    signals := [];
    var stride := Stride(plan);
    var i := 0;
    while i < |bars|
      invariant i % stride == 0
      invariant signals == SignalsUpTo(bars, plan, Min(i, |bars|))
    {
      NextMultiple(i, stride);
      NoneBetween(bars, plan, i, Min(i + stride, |bars|));
      if bars[i].timestamp != 0.0 {
        signals := signals + [SignalAt(bars, plan, i)];
      }
      i := i + stride;
    }
  }

  lemma EntersNextBar(ts: seq<real>, i: nat)
    requires Increasing(ts) && i < |ts|
    ensures EntryIndex(ts, Some(ts[i]), 1) == if i + 1 < |ts| then i + 1 else -1
  {
    ScanFinds(ts, ts[i], 0, i);
    EntryIsFirstAtOrAfter(ts, ts[i], 1);
  }

  /**
   End to end: with increasing timestamps and the default offset, the signal made from bar i trades at bar i + 1,
   never on the bar it was made from, and the last bar's signal does not trade.
   */
  lemma SyntheticSignalsEnterNextBar(e: Engine, bars: seq<Bar>, jpy: bool, plan: SignalPlan, i: nat)
    requires Increasing(Timestamps(bars)) && e.entryOffset == 1 && i < |bars|
    ensures var s := SignalAt(bars, plan, i);
      SignalTrade(e, bars, jpy, s) ==
      (if plan.direction.Unknown? || i + 1 == |bars| then None else TradeOf(bars, OrderFor(e, s, i + 1), e.costs, jpy))
  {
    EntersNextBar(Timestamps(bars), i);
  }

  ghost predicate TradedNext(e: Engine, bars: seq<Bar>, jpy: bool, plan: SignalPlan, i: nat, t: Trade) {
    && i + 1 < |bars| && Emits(bars, plan, i) && t.entryIndex == i + 1
    && Some(t) == TradeOf(bars, OrderFor(e, SignalAt(bars, plan, i), i + 1), e.costs, jpy)
  }

  lemma TradeIsNext(e: Engine, bars: seq<Bar>, jpy: bool, plan: SignalPlan, i: nat, t: Trade)
    requires Increasing(Timestamps(bars)) && e.entryOffset == 1 && i < |bars| && Emits(bars, plan, i)
    requires SignalTrade(e, bars, jpy, SignalAt(bars, plan, i)) == Some(t)
    ensures TradedNext(e, bars, jpy, plan, i, t)
  {
    SyntheticSignalsEnterNextBar(e, bars, jpy, plan, i);
  }

  lemma {:induction false} SignalHasBar(bars: seq<Bar>, plan: SignalPlan, n: nat, k: nat) returns (i: nat)
    requires n <= |bars| && k < |SignalsUpTo(bars, plan, n)|
    ensures i < n && Emits(bars, plan, i) && SignalsUpTo(bars, plan, n)[k] == SignalAt(bars, plan, i)
  {
    if k < |SignalsUpTo(bars, plan, n - 1)| {
      i := SignalHasBar(bars, plan, n - 1, k);
    } else {
      i := n - 1;
    }
  }

  /** Every trade of a whole synthetic run was entered one bar after a stride bar. */
  lemma SyntheticRunEntries(e: Engine, bars: seq<Bar>, jpy: bool, plan: SignalPlan, t: Trade) returns (i: nat)
    requires Increasing(Timestamps(bars)) && e.entryOffset == 1
    requires t in RunTrades(e, bars, jpy, SignalsUpTo(bars, plan, |bars|))
    ensures TradedNext(e, bars, jpy, plan, i, t)
  {
    var k := TradeHasSignal(e, bars, jpy, SignalsUpTo(bars, plan, |bars|), t);
    i := SignalHasBar(bars, plan, |bars|, k);
    TradeIsNext(e, bars, jpy, plan, i, t);
  }

  /** Bar i is on the stride, at least every bar, has a nonzero timestamp, and s is the plan's signal stamped with it. */
  predicate PlannedAt(bars: seq<Bar>, plan: SignalPlan, i: nat, s: Signal) {
    && i < |bars| && i % (if plan.signalStride < 2.0 then 1 else plan.signalStride.Floor) == 0 && bars[i].timestamp != 0.0
    && s.timestamp == Some(bars[i].timestamp) && s.direction == plan.direction && s.units.None?
    && s.holdBars == plan.holdBars && s.takeProfitPips == plan.takeProfitPips && s.stopLossPips == plan.stopLossPips
  }

  /** The signals are those of all bars planned, one a bar, in the bars' order. */
  lemma {:induction false} SignalsExactly(bars: seq<Bar>, plan: SignalPlan, n: nat) returns (at: seq<nat>)
    requires n <= |bars|
    ensures |at| == |SignalsUpTo(bars, plan, n)|
    ensures forall k :: 0 <= k < |at| ==> at[k] < n && PlannedAt(bars, plan, at[k], SignalsUpTo(bars, plan, n)[k])
    ensures forall j, k :: 0 <= j < k < |at| ==> at[j] < at[k]
    ensures forall i, s :: 0 <= i < n && PlannedAt(bars, plan, i, s) ==> i in at
  {
    at := [];
    if n > 0 {
      at := SignalsExactly(bars, plan, n - 1);
      assert Emits(bars, plan, n - 1) <==> PlannedAt(bars, plan, n - 1, SignalAt(bars, plan, n - 1));
      if Emits(bars, plan, n - 1) {
        at := at + [n - 1];
      }
    }
  }
}
