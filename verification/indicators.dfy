/** Moving averages and MACD: the incremental series and the batch values they must agree with. */
module Indicators {
  import opened Options
  import opened JsNumbers
  import opened Sums
  import opened Smoothing

  // ---- Exponential moving average ----

  function Average(closes: seq<real>, period: nat): real
    requires 1 <= period
  {
    Sum(closes[..Min(period, |closes|)]) / period as real
  }

  function Multiplier(period: nat): real {
    2.0 / (period + 1) as real
  }

  function Blend(ema: real, price: real, weight: real): real {
    (price - ema) * weight + ema
  }

  function EmaStep(ema: real, price: real, period: nat): real {
    Blend(ema, price, Multiplier(period))
  }

  /** The EMA of the first n closes: seeded with the mean of the first period. */
  function Ema(closes: seq<real>, period: nat, n: nat): real
    requires 1 <= period <= n <= |closes|
  {
    if n == period then Average(closes, period) else EmaStep(Ema(closes, period, n - 1), closes[n - 1], period)
  }

  function EmaValue(closes: seq<real>, period: nat): real
    requires 1 <= period
  {
    if |closes| < period then 0.0 else Ema(closes, period, |closes|)
  }

  method CalculateEMAValue(closes: seq<real>, period: nat) returns (ema: real)
    requires 1 <= period
    ensures ema == EmaValue(closes, period) && (|closes| < period ==> ema == 0.0)
  {
    if |closes| < period {
      return 0.0;
    }
    ema := Average(closes, period);
    for i := period to |closes|
      invariant ema == Ema(closes, period, i)
    {
      ema := EmaStep(ema, closes[i], period);
    }
  }

  lemma {:induction false} EmaPrefix(closes: seq<real>, period: nat, n: nat, m: nat)
    requires 1 <= period <= n <= m <= |closes|
    ensures Ema(closes[..m], period, n) == Ema(closes, period, n)
  {
    if n == period {
      assert closes[..m][..period] == closes[..period];
    } else {
      EmaPrefix(closes, period, n - 1, m);
    }
  }

  lemma ProductSign(x: real, y: real)
    requires x >= 0.0 && y >= 0.0
    ensures x * y >= 0.0
  {
  }

  lemma BlendBetween(ema: real, price: real, weight: real, lo: real, hi: real)
    requires 0.0 <= weight <= 1.0 && lo <= ema <= hi && lo <= price <= hi
    ensures lo <= Blend(ema, price, weight) <= hi
  {
    var b, rest := Blend(ema, price, weight), 1.0 - weight;
    ProductSign(price - lo, weight);
    ProductSign(ema - lo, rest);
    ProductSign(hi - price, weight);
    ProductSign(hi - ema, rest);
    assert b - lo == (price - lo) * weight + (ema - lo) * rest;
    assert hi - b == (hi - price) * weight + (hi - ema) * rest;
  }

  lemma MultiplierRange(period: nat)
    requires 1 <= period
    ensures 0.0 < Multiplier(period) <= 1.0
  {
    assert Multiplier(period) * (period + 1) as real == 2.0;
  }

  lemma StepBetween(ema: real, price: real, period: nat, lo: real, hi: real)
    requires 1 <= period && lo <= ema <= hi && lo <= price <= hi
    ensures lo <= EmaStep(ema, price, period) <= hi
  {
    MultiplierRange(period);
    BlendBetween(ema, price, Multiplier(period), lo, hi);
  }

  /** An EMA never leaves the range of the prices it averages. */
  lemma {:induction false} EmaBounded(closes: seq<real>, period: nat, n: nat, lo: real, hi: real)
    requires 1 <= period <= n <= |closes|
    requires forall i :: 0 <= i < n ==> lo <= closes[i] <= hi
    ensures lo <= Ema(closes, period, n) <= hi
  {
    if n == period {
      SumBounds(closes[..period], lo, hi);
      QuotientBetween(Sum(closes[..period]), period as real, lo, hi);
    } else {
      EmaBounded(closes, period, n - 1, lo, hi);
      StepBetween(Ema(closes, period, n - 1), closes[n - 1], period, lo, hi);
    }
  }

  lemma StepIsEma(before: real, price: real, period: nat)
    ensures EmaStep(before, price, period) == Step(before, price, 2.0 / (period + 1) as real)
  {
  }

  lemma {:induction false} EmaIsSmoothed(closes: seq<real>, period: nat, n: nat)
    requires 1 <= period <= n <= |closes|
    ensures Ema(closes, period, n) == Smoothed(Sum(closes[..period]) / period as real, closes[period..n], 2.0 / (period + 1) as real)
  {
    if n == period {
      assert closes[period..n] == [];
    } else {
      EmaIsSmoothed(closes, period, n - 1);
      StepIsEma(Ema(closes, period, n - 1), closes[n - 1], period);
      SmoothedNext(Sum(closes[..period]) / period as real, closes, 2.0 / (period + 1) as real, period, n - 1);
    }
  }

  /** The EMA with weight a = 2 / (period + 1): the mean of the first period, and each later close faded by 1 - a per bar. */
  lemma EmaClosed(closes: seq<real>, period: nat, n: nat)
    requires 1 <= period <= n <= |closes|
    ensures Ema(closes, period, n) == ClosedForm(Sum(closes[..period]) / period as real, closes[period..n], 2.0 / (period + 1) as real)
  {
    EmaIsSmoothed(closes, period, n);
    SmoothedClosed(Sum(closes[..period]) / period as real, closes[period..n], 2.0 / (period + 1) as real);
  }

  // ---- MACD ----

  datatype MacdPoint = MacdPoint(value: real, signal: Option<real>, histogram: Option<real>)

  /** The fast average as the series carries it, after n >= slow closes. */
  function FastAt(closes: seq<real>, fast: nat, slow: nat, n: nat): real
    requires 1 <= fast && slow <= n <= |closes|
  {
    if n == slow then (if fast <= slow then Ema(closes, fast, slow) else Average(closes, fast))
    else EmaStep(FastAt(closes, fast, slow, n - 1), closes[n - 1], fast)
  }

  function MacdAt(closes: seq<real>, fast: nat, slow: nat, n: nat): real
    requires 1 <= fast && 1 <= slow <= n <= |closes|
  {
    FastAt(closes, fast, slow, n) - Ema(closes, slow, n)
  }

  /** The first k values of the series. */
  function MacdValues(closes: seq<real>, fast: nat, slow: nat, k: nat): (v: seq<real>)
    requires 1 <= fast && 1 <= slow && slow + k <= |closes|
    ensures |v| == k
  {
    seq(k, i requires 0 <= i < k => MacdAt(closes, fast, slow, slow + i + 1))
  }

  /** The signal line is the EMA of the values so far, once there are enough. */
  function SignalOf(values: seq<real>, period: nat): Option<real>
    requires 1 <= period
  {
    if |values| < period then None else Some(Ema(values, period, |values|))
  }

  function PointOf(values: seq<real>, period: nat): MacdPoint
    requires 1 <= period && values != []
  {
    var v, s := values[|values| - 1], SignalOf(values, period);
    MacdPoint(v, s, if s.Some? then Some(v - s.value) else None)
  }

  /** The fast average brought up to the slow period's length. */
  method WarmUpFast(closes: seq<real>, fastPeriod: nat, slowPeriod: nat) returns (emaFast: real)
    requires 1 <= fastPeriod && slowPeriod <= |closes|
    ensures emaFast == FastAt(closes, fastPeriod, slowPeriod, slowPeriod)
  {
    emaFast := Average(closes, fastPeriod);
    var i := fastPeriod;
    while i < slowPeriod
      invariant fastPeriod <= slowPeriod ==> i <= slowPeriod && emaFast == Ema(closes, fastPeriod, i)
      invariant fastPeriod > slowPeriod ==> i == fastPeriod && emaFast == Average(closes, fastPeriod)
    {
      emaFast := EmaStep(emaFast, closes[i], fastPeriod);
      i := i + 1;
    }
  }

  method CalculateMACDSeries(closes: seq<real>, fastPeriod: nat, slowPeriod: nat, signalPeriod: nat) returns (series: seq<MacdPoint>)
    requires 1 <= fastPeriod && 1 <= slowPeriod && 1 <= signalPeriod
    ensures |series| == if |closes| < slowPeriod + signalPeriod then 0 else |closes| - slowPeriod
    ensures forall k :: 0 <= k < |series| ==>
      series[k] == PointOf(MacdValues(closes, fastPeriod, slowPeriod, k + 1), signalPeriod)
  {
    series := [];
    if |closes| < slowPeriod + signalPeriod {
      return;
    }
    var emaFast := WarmUpFast(closes, fastPeriod, slowPeriod);
    var emaSlow := Average(closes, slowPeriod);
    var values: seq<real> := [];
    var signal: Option<real> := None;
    for n := slowPeriod to |closes|
      invariant emaFast == FastAt(closes, fastPeriod, slowPeriod, n) && emaSlow == Ema(closes, slowPeriod, n)
      invariant values == MacdValues(closes, fastPeriod, slowPeriod, n - slowPeriod)
      invariant signal == SignalOf(values, signalPeriod)
      invariant |series| == n - slowPeriod
      invariant forall k :: 0 <= k < |series| ==>
        series[k] == PointOf(MacdValues(closes, fastPeriod, slowPeriod, k + 1), signalPeriod)
    {
      ghost var before := values;
      emaFast := EmaStep(emaFast, closes[n], fastPeriod);
      emaSlow := EmaStep(emaSlow, closes[n], slowPeriod);
      var macdValue := emaFast - emaSlow;
      MacdStep(closes, fastPeriod, slowPeriod, n);
      ValuesNext(closes, fastPeriod, slowPeriod, n);
      SignalNext(values, macdValue, signalPeriod);
      values := values + [macdValue];
      signal := NextSignal(signal, values, signalPeriod);
      var histogram := if signal.Some? then Some(macdValue - signal.value) else None;
      series := series + [MacdPoint(macdValue, signal, histogram)];
    }
  }

  lemma MacdStep(closes: seq<real>, fast: nat, slow: nat, n: nat)
    requires 1 <= fast && 1 <= slow <= n < |closes|
    ensures MacdAt(closes, fast, slow, n + 1) ==
            EmaStep(FastAt(closes, fast, slow, n), closes[n], fast) - EmaStep(Ema(closes, slow, n), closes[n], slow)
  {
  }

  lemma ValuesNext(closes: seq<real>, fast: nat, slow: nat, n: nat)
    requires 1 <= fast && 1 <= slow <= n < |closes|
    ensures MacdValues(closes, fast, slow, n + 1 - slow) ==
            MacdValues(closes, fast, slow, n - slow) + [MacdAt(closes, fast, slow, n + 1)]
  {
    var k := n - slow;
    var after, before := MacdValues(closes, fast, slow, k + 1), MacdValues(closes, fast, slow, k);
    assert after[k] == MacdAt(closes, fast, slow, slow + k + 1);
    assert forall i :: 0 <= i < k ==> after[i] == before[i];
  }

  /** The signal after a new value: the mean once there are enough, then one step of the average. */
  function NextSignal(signal: Option<real>, values: seq<real>, period: nat): Option<real>
    requires 1 <= period && values != []
  {
    if |values| == period then Some(Sum(values) / period as real)
    else if |values| > period && signal.Some? then Some(EmaStep(signal.value, values[|values| - 1], period))
    else signal
  }

  lemma SignalNext(values: seq<real>, v: real, period: nat)
    requires 1 <= period
    ensures SignalOf(values + [v], period) == NextSignal(SignalOf(values, period), values + [v], period)
  {
    var all := values + [v];
    assert all[..|all|] == all;
    if |values| + 1 > period {
      EmaPrefix(all, period, |values|, |values|);
      assert all[..|values|] == values;
    }
  }

  lemma {:induction false} FastAtIsEma(closes: seq<real>, fast: nat, slow: nat, n: nat)
    requires 1 <= fast <= slow <= n <= |closes|
    ensures FastAt(closes, fast, slow, n) == Ema(closes, fast, n)
  {
    if n > slow {
      FastAtIsEma(closes, fast, slow, n - 1);
    }
  }

  /** Streaming equals batch: each series value is the difference of the two EMAs of the prefix ending at its bar. */
  lemma MacdIsBatch(closes: seq<real>, fast: nat, slow: nat, n: nat)
    requires 1 <= fast <= slow < n <= |closes|
    ensures MacdAt(closes, fast, slow, n) == EmaValue(closes[..n], fast) - EmaValue(closes[..n], slow)
  {
    FastAtIsEma(closes, fast, slow, n);
    EmaPrefix(closes, fast, n, n);
    EmaPrefix(closes, slow, n, n);
  }

  ghost predicate StreamMatchesBatch(closes: seq<real>, fast: nat, slow: nat, n: nat)
    requires 1 <= fast && 1 <= slow < n <= |closes|
  {
    MacdAt(closes, fast, slow, n) == EmaValue(closes[..n], fast) - EmaValue(closes[..n], slow)
  }

  /** slow zeros and then ones. */
  function Stairs(slow: nat, signal: nat): (s: seq<real>)
    ensures |s| == slow + signal
  {
    seq(slow, i => 0.0) + seq(signal, i => 1.0)
  }

  lemma {:induction false} StairsSum(slow: nat, signal: nat, n: nat)
    requires n <= slow + signal
    ensures Sum(Stairs(slow, signal)[..n]) == if n <= slow then 0.0 else (n - slow) as real
  {
    if n > 0 {
      StairsSum(slow, signal, n - 1);
      SumSnoc(Stairs(slow, signal), n - 1);
    }
  }

  /** The seed the long fast average starts from: the share of ones among the closes it averages. */
  lemma StairsSeed(fast: nat, slow: nat, signal: nat)
    requires 1 <= slow < fast && 1 <= signal
    ensures var seed := Average(Stairs(slow, signal), fast);
      0.0 < seed <= 1.0 && (slow + 1 == fast ==> seed < 1.0)
  {
    var closes := Stairs(slow, signal);
    var k := Min(fast, |closes|) - slow;
    StairsSum(slow, signal, Min(fast, |closes|));
    QuotientBetween(k as real, fast as real, 0.0, 1.0);
    RatioAboveOne(fast as real, k as real);
    assert k as real / fast as real * fast as real == k as real;
  }

  lemma BlendUp(seed: real, weight: real)
    requires weight > 0.0 && seed <= 1.0
    ensures Blend(seed, 1.0, weight) >= seed
    ensures seed < 1.0 ==> Blend(seed, 1.0, weight) > seed
  {
  }

  /** With a fast period longer than the slow one the first value of the series already differs: its seed peeks at later bars. */
  lemma LongFastPeriodDiffers(fast: nat, slow: nat, signal: nat)
    requires 1 <= slow < fast && 1 <= signal
    ensures !StreamMatchesBatch(Stairs(slow, signal), fast, slow, slow + 1)
  {
    var closes, n := Stairs(slow, signal), slow + 1;
    var seed := Average(closes, fast);
    StairsSeed(fast, slow, signal);
    MultiplierRange(fast);
    BlendUp(seed, Multiplier(fast));
    assert FastAt(closes, fast, slow, n) == EmaStep(FastAt(closes, fast, slow, slow), closes[slow], fast);
    assert FastAt(closes, fast, slow, slow) == seed;
    EmaPrefix(closes, slow, n, n);
    if n == fast {
      assert closes[..n][..fast] == closes[..fast];
      assert EmaValue(closes[..n], fast) == seed;
    }
  }

  /** The series agrees with the batch values on every price history exactly when the fast period is no longer than the slow one. */
  lemma MacdMatchesExactly(fast: nat, slow: nat, signal: nat)
    requires 1 <= fast && 1 <= slow && 1 <= signal
    ensures (forall closes: seq<real>, n: nat ::
              slow + signal <= |closes| && slow < n <= |closes| ==> StreamMatchesBatch(closes, fast, slow, n))
            <==> fast <= slow
  {
    if fast <= slow {
      forall closes: seq<real>, n: nat | slow + signal <= |closes| && slow < n <= |closes|
        ensures StreamMatchesBatch(closes, fast, slow, n)
      {
        MacdIsBatch(closes, fast, slow, n);
      }
    } else {
      LongFastPeriodDiffers(fast, slow, signal);
    }
  }

  /**
   From its period on a point has a signal, the smoothed MACD values from their first mean on, and the histogram is how
   far the MACD lies above it; before, it has neither.
   */
  lemma PointMeaning(values: seq<real>, period: nat)
    requires 1 <= period && values != []
    ensures var p, v := PointOf(values, period), values[|values| - 1];
      if |values| < period then p == MacdPoint(v, None, None)
      else
        var signal := ClosedForm(Sum(values[..period]) / period as real, values[period..], 2.0 / (period + 1) as real);
        p == MacdPoint(v, Some(signal), Some(v - signal))
  {
    if |values| >= period {
      EmaClosed(values, period, |values|);
      assert values[period..|values|] == values[period..];
    }
  }
}
