/** Walk-forward validation: overlapping windows over the bars, each run through the backtester with the signals inside it. */
module WalkForward {
  import opened Options
  import opened JsNumbers
  import opened PerformanceSummary
  import opened Backtester
  import opened BacktestProperties

  datatype WindowOptions = WindowOptions(windowSize: Option<int>, stepSize: Option<int>)

  datatype Window = Window(index: nat, start: nat, end: nat, bars: seq<Bar>, startTs: Option<real>, endTs: Option<real>)

  function WindowSize(n: nat, o: WindowOptions): nat {
    if o.windowSize.Some? then Max(10, o.windowSize.value) else n / 5
  }

  function StepSize(n: nat, o: WindowOptions): nat {
    if o.stepSize.Some? then Max(5, o.stepSize.value) else WindowSize(n, o) / 2
  }

  /** The loop's guard before its k-th iteration. */
  predicate Continues(n: nat, o: WindowOptions, k: nat) {
    k * StepSize(n, o) + WindowSize(n, o) <= n
  }

  /** A caller's test for termination: no bars, ten bars, or an explicit size. */
  predicate Halts(n: nat, o: WindowOptions) {
    n == 0 || n >= 10 || o.windowSize.Some? || o.stepSize.Some?
  }

  /**
   The splitting loop ends exactly when there are no bars, at least ten bars, or an explicit window or step size.
   With one to nine bars and no options the step is zero, the guard holds forever, and the loop never ends.
   */
  lemma HaltsExactly(n: nat, o: WindowOptions)
    ensures Halts(n, o) <==> n == 0 || exists k: nat :: !Continues(n, o, k)
  {
    var w, s := WindowSize(n, o), StepSize(n, o);
    if n > 0 {
      if Halts(n, o) {
        StepPositive(n, o);
        MultiplyUp(1, s, n + 1);
        assert !Continues(n, o, n + 1);
      } else {
        assert s == 0 && w <= n;
        assert forall k: nat :: Continues(n, o, k);
      }
    }
  }

  lemma StepPositive(n: nat, o: WindowOptions)
    requires n > 0 && Halts(n, o)
    ensures StepSize(n, o) >= 1
  {
  }

  function StampAt(segment: seq<Bar>, i: int): Option<real> {
    if 0 <= i < |segment| then Some(segment[i].timestamp) else None
  }

  function WindowAt(bars: seq<Bar>, o: WindowOptions, k: nat): Window
    requires Continues(|bars|, o, k)
  {
    var w := WindowSize(|bars|, o);
    var start := k * StepSize(|bars|, o);
    var segment := bars[start..start + w];
    Window(k, start, start + w, segment, StampAt(segment, 0), StampAt(segment, w - 1))
  }

  /** How many windows fit: floor((n - w) / s) + 1 when one does. */
  function WindowCount(n: nat, o: WindowOptions): nat
    requires n > 0 && Halts(n, o)
  {
    StepPositive(n, o);
    if WindowSize(n, o) > n then 0 else Strides(n - WindowSize(n, o), StepSize(n, o))
  }

  function Strides(room: nat, s: nat): nat
    requires s >= 1
  {
    room / s + 1
  }

  lemma MultiplyUp(a: nat, b: nat, s: nat)
    requires a <= b
    ensures a * s <= b * s
  {
    assert (b - a) * s >= 0;
  }

  lemma FitsExactly(room: nat, s: nat, k: nat)
    requires s >= 1
    ensures k * s <= room <==> k <= room / s
  {
    var q, r := room / s, room % s;
    assert room == q * s + r;
    if k <= q {
      MultiplyUp(k, q, s);
    } else {
      MultiplyUp(q + 1, k, s);
      assert (q + 1) * s == q * s + s;
    }
  }

  lemma ContinuesExactly(n: nat, o: WindowOptions, k: nat)
    requires n > 0 && Halts(n, o)
    ensures Continues(n, o, k) <==> k < WindowCount(n, o)
  {
    StepPositive(n, o);
    if WindowSize(n, o) <= n {
      FitsExactly(n - WindowSize(n, o), StepSize(n, o), k);
    }
  }

  lemma WindowCut(bars: seq<Bar>, o: WindowOptions, k: nat, start: nat)
    requires start == k * StepSize(|bars|, o) && start + WindowSize(|bars|, o) <= |bars|
    ensures Continues(|bars|, o, k)
    ensures var end := start + WindowSize(|bars|, o);
      WindowAt(bars, o, k) ==
      Window(k, start, end, bars[start..end], StampAt(bars[start..end], 0), StampAt(bars[start..end], end - start - 1))
    ensures start + StepSize(|bars|, o) == (k + 1) * StepSize(|bars|, o)
  {
  }

  method SplitIntoWalkForwardWindows(bars: seq<Bar>, o: WindowOptions) returns (windows: seq<Window>)
    requires Halts(|bars|, o)
    ensures |windows| == if bars == [] then 0 else WindowCount(|bars|, o)
    ensures forall k :: 0 <= k < |windows| ==> Continues(|bars|, o, k) && windows[k] == WindowAt(bars, o, k)
  {
    windows := [];
    if bars == [] {
      return;
    }
    var windowSize, stepSize := WindowSize(|bars|, o), StepSize(|bars|, o);
    StepPositive(|bars|, o);
    var start := 0;
    while start + windowSize <= |bars|
      invariant start == |windows| * stepSize
      invariant |windows| <= WindowCount(|bars|, o)
      invariant forall k :: 0 <= k < |windows| ==> Continues(|bars|, o, k) && windows[k] == WindowAt(bars, o, k)
      decreases |bars| - start
    {
      ContinuesExactly(|bars|, o, |windows|);
      WindowCut(bars, o, |windows|, start);
      var end := start + windowSize;
      var segment := bars[start..end];
      windows := windows + [Window(|windows|, start, end, segment, StampAt(segment, 0), StampAt(segment, |segment| - 1))];
      start := start + stepSize;
    }
    ContinuesExactly(|bars|, o, |windows|);
  }

  /** Windows have exactly the window size, advance by the step, and leave fewer than a step of bars at the end. */
  lemma WindowShape(bars: seq<Bar>, o: WindowOptions, k: nat)
    requires bars != [] && Halts(|bars|, o) && k < WindowCount(|bars|, o)
    ensures Continues(|bars|, o, k)
    ensures var x := WindowAt(bars, o, k);
      && |x.bars| == WindowSize(|bars|, o) && x.end <= |bars|
      && (k + 1 < WindowCount(|bars|, o) ==> Continues(|bars|, o, k + 1) && WindowAt(bars, o, k + 1).start == x.start + StepSize(|bars|, o))
      && (k + 1 == WindowCount(|bars|, o) ==> |bars| - x.end < StepSize(|bars|, o))
  {
    ContinuesExactly(|bars|, o, k);
    ContinuesExactly(|bars|, o, k + 1);
    assert (k + 1) * StepSize(|bars|, o) == k * StepSize(|bars|, o) + StepSize(|bars|, o);
  }

  ghost predicate Covered(bars: seq<Bar>, o: WindowOptions, b: nat) {
    exists k: nat :: Continues(|bars|, o, k) && WindowAt(bars, o, k).start <= b < WindowAt(bars, o, k).end
  }

  /** When the step does not exceed the window, every bar before the last window's end is in some window. */
  lemma {:induction false} NoGaps(bars: seq<Bar>, o: WindowOptions, k: nat, b: nat)
    requires bars != [] && Halts(|bars|, o) && k < WindowCount(|bars|, o)
    requires StepSize(|bars|, o) <= WindowSize(|bars|, o)
    requires Continues(|bars|, o, k) && b < WindowAt(bars, o, k).end
    ensures Covered(bars, o, b)
  {
    var x := WindowAt(bars, o, k);
    if b < x.start {
      WindowShape(bars, o, k - 1);
      NoGaps(bars, o, k - 1, b);
    } else {
      assert x.start <= b < x.end;
    }
  }

  /** The bar just after the first window is in none when the step is larger than the window. */
  lemma GapAfterFirst(bars: seq<Bar>, o: WindowOptions)
    requires bars != [] && StepSize(|bars|, o) > WindowSize(|bars|, o)
    ensures !Covered(bars, o, WindowSize(|bars|, o))
  {
    var w, s := WindowSize(|bars|, o), StepSize(|bars|, o);
    forall k: nat | Continues(|bars|, o, k)
      ensures !(WindowAt(bars, o, k).start <= w < WindowAt(bars, o, k).end)
    {
      if k > 0 {
        MultiplyUp(1, k, s);
      }
    }
  }

  /** With two windows or more, the windows cover every bar up to the last one's end exactly when the step does not exceed the window. */
  lemma GapsExactly(bars: seq<Bar>, o: WindowOptions)
    requires bars != [] && Halts(|bars|, o) && WindowCount(|bars|, o) >= 2
    ensures var last := WindowCount(|bars|, o) - 1;
      && Continues(|bars|, o, last)
      && ((forall b: nat :: b < WindowAt(bars, o, last).end ==> Covered(bars, o, b))
          <==> StepSize(|bars|, o) <= WindowSize(|bars|, o))
  {
    var last := WindowCount(|bars|, o) - 1;
    ContinuesExactly(|bars|, o, last);
    if StepSize(|bars|, o) <= WindowSize(|bars|, o) {
      forall b: nat | b < WindowAt(bars, o, last).end
        ensures Covered(bars, o, b)
      {
        NoGaps(bars, o, last, b);
      }
    } else {
      GapAfterFirst(bars, o);
      MultiplyUp(1, last, StepSize(|bars|, o));
    }
  }

  // ---- Validation ----

  /** null compares as zero. */
  function Bound(ts: Option<real>): real {
    ts.GetOr(0.0)
  }

  predicate Inside(x: Window, s: Signal) {
    s.timestamp.Some? && s.timestamp.value >= Bound(x.startTs) && s.timestamp.value <= Bound(x.endTs)
  }

  function WindowSignals(x: Window, signals: seq<Signal>): seq<Signal> {
    if signals == [] then []
    else WindowSignals(x, signals[..|signals| - 1]) +
         (if Inside(x, signals[|signals| - 1]) then [signals[|signals| - 1]] else [])
  }

  datatype WindowResult = WindowResult(window: Window, trades: seq<Trade>, metrics: Summary)

  function Concatenated(results: seq<WindowResult>): seq<Trade> {
    if results == [] then [] else Concatenated(results[..|results| - 1]) + results[|results| - 1].trades
  }

  method RunWalkForwardValidation(e: Engine, bars: seq<Bar>, jpy: bool, signals: seq<Signal>, o: WindowOptions)
      returns (windows: seq<Window>, results: seq<WindowResult>, aggregateMetrics: Summary)
    requires Halts(|bars|, o)
    ensures |results| == |windows| == if bars == [] then 0 else WindowCount(|bars|, o)
    ensures forall k :: 0 <= k < |windows| ==> Continues(|bars|, o, k) && windows[k] == WindowAt(bars, o, k)
    ensures forall k :: 0 <= k < |results| ==>
      && results[k].window == windows[k]
      && results[k].trades == RunTrades(e, windows[k].bars, jpy, WindowSignals(windows[k], signals))
      && results[k].metrics == BuildPerformanceSummary(Results(results[k].trades))
    ensures aggregateMetrics == BuildPerformanceSummary(Results(Concatenated(results)))
  {
    windows := SplitIntoWalkForwardWindows(bars, o);
    results := [];
    for k := 0 to |windows|
      invariant |results| == k
      invariant forall i :: 0 <= i < k ==>
        && results[i].window == windows[i]
        && results[i].trades == RunTrades(e, windows[i].bars, jpy, WindowSignals(windows[i], signals))
        && results[i].metrics == BuildPerformanceSummary(Results(results[i].trades))
    {
      var windowSignals := WindowSignals(windows[k], signals);
      if |windowSignals| == 0 {
        results := results + [WindowResult(windows[k], [], BuildPerformanceSummary([]))];
        assert Results([]) == [];
        continue;
      }
      var run := Run(e, windows[k].bars, jpy, windowSignals);
      results := results + [WindowResult(windows[k], run.trades, run.metrics)];
    }
    aggregateMetrics := BuildPerformanceSummary(Results(Concatenated(results)));
  }

  lemma {:induction false} WindowSignalsInside(x: Window, signals: seq<Signal>)
    ensures forall s :: s in WindowSignals(x, signals) <==> s in signals && Inside(x, s)
  {
    if signals != [] {
      var n := |signals| - 1;
      assert signals == signals[..n] + [signals[n]];
      WindowSignalsInside(x, signals[..n]);
    }
  }

  /**
   Every trade of a window is entered inside it, on a bar no earlier than its signal, and its signal lies inside
   the window too: nothing outside the window's bars reaches its trades.
   */
  lemma TradesStayInside(e: Engine, bars: seq<Bar>, jpy: bool, signals: seq<Signal>, o: WindowOptions, k: nat, t: Trade)
      returns (s: Signal)
    requires Continues(|bars|, o, k) && e.entryOffset >= 0 && NonDecreasing(Timestamps(bars))
    requires t in RunTrades(e, WindowAt(bars, o, k).bars, jpy, WindowSignals(WindowAt(bars, o, k), signals))
    ensures var x := WindowAt(bars, o, k);
      && s in signals && Inside(x, s)
      && x.start <= x.start + t.entryIndex < x.end
      && bars[x.start + t.entryIndex].timestamp >= s.timestamp.value
  {
    var x := WindowAt(bars, o, k);
    s := InsideSignal(e, x, jpy, signals, t);
    WindowOrdered(bars, o, k);
    TradeAfterSignal(e, x.bars, jpy, s, t);
    assert x.bars[t.entryIndex] == bars[x.start + t.entryIndex];
  }

  lemma InsideSignal(e: Engine, x: Window, jpy: bool, signals: seq<Signal>, t: Trade) returns (s: Signal)
    requires t in RunTrades(e, x.bars, jpy, WindowSignals(x, signals))
    ensures s in signals && Inside(x, s) && SignalTrade(e, x.bars, jpy, s) == Some(t)
  {
    var chosen := WindowSignals(x, signals);
    var i := TradeHasSignal(e, x.bars, jpy, chosen, t);
    s := chosen[i];
    WindowSignalsInside(x, signals);
  }

  lemma WindowOrdered(bars: seq<Bar>, o: WindowOptions, k: nat)
    requires Continues(|bars|, o, k) && NonDecreasing(Timestamps(bars))
    ensures NonDecreasing(Timestamps(WindowAt(bars, o, k).bars))
  {
    var x := WindowAt(bars, o, k);
    assert forall j :: 0 <= j < |x.bars| ==> Timestamps(x.bars)[j] == Timestamps(bars)[x.start + j];
  }

  lemma TradeAfterSignal(e: Engine, bars: seq<Bar>, jpy: bool, s: Signal, t: Trade)
    requires SignalTrade(e, bars, jpy, s) == Some(t) && s.timestamp.Some?
    requires e.entryOffset >= 0 && NonDecreasing(Timestamps(bars))
    ensures 0 <= t.entryIndex < |bars| && bars[t.entryIndex].timestamp >= s.timestamp.value
  {
    var ts := Timestamps(bars);
    EntryIsFirstAtOrAfter(ts, s.timestamp.value, e.entryOffset);
    ScanRange(ts, s.timestamp.value, 0);
    var first := FirstAtOrAfter(ts, s.timestamp.value, 0);
    assert t.entryIndex == first + e.entryOffset;
    assert ts[first] <= ts[t.entryIndex];
  }

  // ---- The windows in bars and signals ----

  /** The bars of a window, a fifth of all of them unless given, and the bars from one window to the next, half a window unless given. */
  predicate Sizes(n: nat, o: WindowOptions, size: nat, step: nat) {
    && size == (if o.windowSize.None? then n / 5 else if o.windowSize.value < 10 then 10 else o.windowSize.value)
    && step == (if o.stepSize.None? then size / 2 else if o.stepSize.value < 5 then 5 else o.stepSize.value)
  }

  /** There are as many windows as fit; window k is the bars from k steps on, stamped with its first and last bar. */
  lemma WindowsExactly(bars: seq<Bar>, o: WindowOptions, size: nat, step: nat, k: nat)
    requires bars != [] && Halts(|bars|, o) && Sizes(|bars|, o, size, step)
    ensures k < WindowCount(|bars|, o) <==> k * step + size <= |bars|
    ensures k < WindowCount(|bars|, o) ==>
      && Continues(|bars|, o, k)
      && var x := WindowAt(bars, o, k);
      && x.index == k && x.start == k * step && x.end == x.start + size && x.bars == bars[x.start..x.end]
      && (size > 0 ==> x.startTs == Some(bars[x.start].timestamp) && x.endTs == Some(bars[x.end - 1].timestamp))
  {
    ContinuesExactly(|bars|, o, k);
  }

  /** A window is given the signals stamped from its first to its last bar, both included, each as often as it was sent. */
  lemma WindowSignalsExactly(bars: seq<Bar>, o: WindowOptions, size: nat, step: nat, k: nat, signals: seq<Signal>)
    requires bars != [] && Halts(|bars|, o) && Sizes(|bars|, o, size, step) && size > 0 && k < WindowCount(|bars|, o)
    ensures Continues(|bars|, o, k)
    ensures forall s :: multiset(WindowSignals(WindowAt(bars, o, k), signals))[s] ==
                        if Stamped(bars, k * step, size, s.timestamp) then multiset(signals)[s] else 0
  {
    WindowsExactly(bars, o, size, step, k);
    SignalsCount(WindowAt(bars, o, k), signals);
  }

  predicate Stamped(bars: seq<Bar>, start: nat, size: nat, at: Option<real>) {
    && 0 < size && start + size <= |bars|
    && at.Some? && bars[start].timestamp <= at.value <= bars[start + size - 1].timestamp
  }

  lemma {:induction false} SignalsCount(x: Window, signals: seq<Signal>)
    ensures forall s :: multiset(WindowSignals(x, signals))[s] == if Inside(x, s) then multiset(signals)[s] else 0
  {
    if signals != [] {
      var n := |signals| - 1;
      SignalsCount(x, signals[..n]);
      assert signals == signals[..n] + [signals[n]];
    }
  }

  /** The trades of all windows follow each other in the windows' order. */
  lemma {:induction false} ConcatenatedInOrder(first: seq<WindowResult>, rest: seq<WindowResult>)
    ensures Concatenated(first + rest) == Concatenated(first) + Concatenated(rest)
    ensures |rest| == 1 ==> Concatenated(rest) == rest[0].trades
  {
    if rest == [] {
      assert first + rest == first;
    } else {
      var n := |rest| - 1;
      assert (first + rest)[..|first| + n] == first + rest[..n];
      ConcatenatedInOrder(first, rest[..n]);
    }
  }
}
