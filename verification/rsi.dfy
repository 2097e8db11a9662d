/** Wilder's relative strength index: the batch value and the incremental series. */
module Rsi {
  import opened Options
  import opened JsNumbers
  import opened Sums
  import opened Smoothing

  function Gain(closes: seq<real>, i: nat): real
    requires 0 < i < |closes|
  {
    if closes[i] > closes[i - 1] then closes[i] - closes[i - 1] else 0.0
  }

  function Loss(closes: seq<real>, i: nat): real
    requires 0 < i < |closes|
  {
    if closes[i] < closes[i - 1] then closes[i - 1] - closes[i] else 0.0
  }

  datatype Averages = Averages(gain: real, loss: real)

  /** The sums of the first n changes' gains and losses. */
  function Totals(closes: seq<real>, n: nat): Averages
    requires n < |closes| || n == 0
  {
    if n == 0 then Averages(0.0, 0.0)
    else
      var before := Totals(closes, n - 1);
      Averages(before.gain + Gain(closes, n), before.loss + Loss(closes, n))
  }

  function Smooth(average: real, value: real, period: nat): real
    requires 1 <= period
  {
    (average * (period - 1) as real + value) / period as real
  }

  /** Wilder's averages at bar i. */
  function Wilder(closes: seq<real>, period: nat, i: nat): Averages
    requires 1 <= period <= i < |closes|
  {
    if i == period then Averages(Totals(closes, period).gain / period as real, Totals(closes, period).loss / period as real)
    else
      var before := Wilder(closes, period, i - 1);
      Averages(Smooth(before.gain, Gain(closes, i), period), Smooth(before.loss, Loss(closes, i), period))
  }

  /** 100 - 100 / (1 + gain / loss). */
  function Strength(gain: real, loss: real): real
    requires gain >= 0.0 && loss > 0.0
  {
    assert gain / loss >= 0.0;
    100.0 - 100.0 / (1.0 + gain / loss)
  }

  /**
   The batch formula on doubles: with no losses gain / loss is infinite, which gives 100, or 0 / 0, which is
   not a number (None).
   */
  function BatchRsi(a: Averages): Option<real>
    requires a.gain >= 0.0 && a.loss >= 0.0
  {
    if a.loss == 0.0 then (if a.gain == 0.0 then None else Some(100.0)) else Some(Strength(a.gain, a.loss))
  }

  function SeriesRsi(a: Averages): real
    requires a.gain >= 0.0 && a.loss >= 0.0
  {
    if a.loss == 0.0 && a.gain == 0.0 then 50.0
    else if a.loss == 0.0 then 100.0
    else if a.gain == 0.0 then 0.0
    else Strength(a.gain, a.loss)
  }

  lemma {:induction false} TotalsNonNegative(closes: seq<real>, n: nat)
    requires n < |closes| || n == 0
    ensures Totals(closes, n).gain >= 0.0 && Totals(closes, n).loss >= 0.0
  {
    if n > 0 {
      TotalsNonNegative(closes, n - 1);
    }
  }

  lemma SmoothNonNegative(average: real, value: real, period: nat)
    requires 1 <= period && average >= 0.0 && value >= 0.0
    ensures Smooth(average, value, period) >= 0.0
  {
    DivideMonotone(0.0, average * (period - 1) as real + value, period as real);
  }

  lemma {:induction false} WilderNonNegative(closes: seq<real>, period: nat, i: nat)
    requires 1 <= period <= i < |closes|
    ensures Wilder(closes, period, i).gain >= 0.0 && Wilder(closes, period, i).loss >= 0.0
  {
    if i == period {
      TotalsNonNegative(closes, period);
      DivideMonotone(0.0, Totals(closes, period).gain, period as real);
      DivideMonotone(0.0, Totals(closes, period).loss, period as real);
    } else {
      WilderNonNegative(closes, period, i - 1);
      var before := Wilder(closes, period, i - 1);
      SmoothNonNegative(before.gain, Gain(closes, i), period);
      SmoothNonNegative(before.loss, Loss(closes, i), period);
    }
  }

  /** The first loop of both functions: gains and losses of the first period changes, averaged. */
  method Seed(closes: seq<real>, period: nat) returns (avgGain: real, avgLoss: real)
    requires 1 <= period < |closes|
    ensures Averages(avgGain, avgLoss) == Wilder(closes, period, period)
  {
    var gains, losses := 0.0, 0.0;
    for i := 1 to period + 1
      invariant Averages(gains, losses) == Totals(closes, i - 1)
    {
      var change := closes[i] - closes[i - 1];
      if change > 0.0 {
        gains := gains + change;
      } else {
        losses := losses + Abs(change);
      }
    }
    avgGain, avgLoss := gains / period as real, losses / period as real;
  }

  datatype Batch = TooShort | Value(rsi: Option<real>)

  function BatchAt(closes: seq<real>, period: nat): Batch
    requires 1 <= period
  {
    if |closes| < period + 1 then TooShort
    else
      WilderNonNegative(closes, period, |closes| - 1);
      Value(BatchRsi(Wilder(closes, period, |closes| - 1)))
  }

  method CalculateRSI(closes: seq<real>, period: nat) returns (r: Batch)
    requires 1 <= period
    ensures r == BatchAt(closes, period) && (r.TooShort? <==> |closes| <= period)
  {
    if |closes| < period + 1 {
      return TooShort;
    }
    var avgGain, avgLoss := Seed(closes, period);
    for i := period + 1 to |closes|
      invariant Averages(avgGain, avgLoss) == Wilder(closes, period, i - 1)
    {
      var change := closes[i] - closes[i - 1];
      var gain := if change > 0.0 then change else 0.0;
      var loss := if change < 0.0 then Abs(change) else 0.0;
      avgGain := Smooth(avgGain, gain, period);
      avgLoss := Smooth(avgLoss, loss, period);
    }
    WilderNonNegative(closes, period, |closes| - 1);
    r := Value(BatchRsi(Averages(avgGain, avgLoss)));
  }

  function SeriesAt(closes: seq<real>, period: nat, i: nat): real
    requires 1 <= period <= i < |closes|
  {
    WilderNonNegative(closes, period, i);
    SeriesRsi(Wilder(closes, period, i))
  }

  method CalculateRSISeries(closes: seq<real>, period: nat) returns (series: seq<real>)
    requires 1 <= period
    ensures |series| == if |closes| <= period then 0 else |closes| - period
    ensures forall k :: 0 <= k < |series| ==> series[k] == SeriesAt(closes, period, period + k)
  {
    series := [];
    if |closes| <= period {
      return;
    }
    var avgGain, avgLoss := Seed(closes, period);
    WilderNonNegative(closes, period, period);
    series := [SeriesRsi(Averages(avgGain, avgLoss))];
    for i := period + 1 to |closes|
      invariant Averages(avgGain, avgLoss) == Wilder(closes, period, i - 1)
      invariant |series| == i - period
      invariant forall k :: 0 <= k < |series| ==> series[k] == SeriesAt(closes, period, period + k)
    {
      var change := closes[i] - closes[i - 1];
      var gain := if change > 0.0 then change else 0.0;
      var loss := if change < 0.0 then Abs(change) else 0.0;
      avgGain := Smooth(avgGain, gain, period);
      avgLoss := Smooth(avgLoss, loss, period);
      WilderNonNegative(closes, period, i);
      series := series + [SeriesRsi(Averages(avgGain, avgLoss))];
    }
  }

  lemma {:induction false} TotalsPrefix(closes: seq<real>, n: nat, m: nat)
    requires n < m <= |closes|
    ensures Totals(closes[..m], n) == Totals(closes, n)
  {
    if n > 0 {
      TotalsPrefix(closes, n - 1, m);
    }
  }

  lemma {:induction false} WilderPrefix(closes: seq<real>, period: nat, i: nat, m: nat)
    requires 1 <= period <= i < m <= |closes|
    ensures Wilder(closes[..m], period, i) == Wilder(closes, period, i)
  {
    if i == period {
      TotalsPrefix(closes, period, m);
    } else {
      WilderPrefix(closes, period, i - 1, m);
    }
  }

  lemma StrengthZero(loss: real)
    requires loss > 0.0
    ensures Strength(0.0, loss) == 0.0
  {
    assert 0.0 / loss == 0.0;
  }

  lemma {:induction false} TotalsFlat(closes: seq<real>, n: nat)
    requires n < |closes|
    ensures Totals(closes, n) == Averages(0.0, 0.0) <==> forall k :: 1 <= k <= n ==> closes[k] == closes[k - 1]
  {
    if n > 0 {
      TotalsFlat(closes, n - 1);
      TotalsNonNegative(closes, n - 1);
    }
  }

  lemma SmoothZero(average: real, value: real, period: nat)
    requires 1 <= period && average >= 0.0 && value >= 0.0
    ensures Smooth(average, value, period) == 0.0 <==> value == 0.0 && (period == 1 || average == 0.0)
  {
    var total := average * (period - 1) as real + value;
    QuotientZero(total, period as real);
    if period > 1 {
      ProductZero(average, (period - 1) as real);
    }
  }

  lemma QuotientZero(x: real, d: real)
    requires d > 0.0
    ensures x / d == 0.0 <==> x == 0.0
  {
    assert x / d * d == x;
  }

  lemma ProductZero(x: real, d: real)
    requires x >= 0.0 && d > 0.0
    ensures x * d >= 0.0 && (x * d == 0.0 <==> x == 0.0)
  {
  }

  /**
   The prices the averages at bar i depend on do not move: all up to i, or with a period of 1, where each average
   is the last change alone, just the last two.
   */
  predicate Flat(closes: seq<real>, period: nat, i: nat)
    requires 1 <= period <= i < |closes|
  {
    forall k :: (if period == 1 then i else 1) <= k <= i ==> closes[k] == closes[k - 1]
  }

  lemma {:induction false} WilderFlat(closes: seq<real>, period: nat, i: nat)
    requires 1 <= period <= i < |closes|
    ensures Wilder(closes, period, i) == Averages(0.0, 0.0) <==> Flat(closes, period, i)
  {
    if i == period {
      var t := Totals(closes, period);
      TotalsFlat(closes, period);
      QuotientZero(t.gain, period as real);
      QuotientZero(t.loss, period as real);
    } else {
      var before := Wilder(closes, period, i - 1);
      WilderFlat(closes, period, i - 1);
      WilderNonNegative(closes, period, i - 1);
      SmoothZero(before.gain, Gain(closes, i), period);
      SmoothZero(before.loss, Loss(closes, i), period);
    }
  }

  /**
   Streaming equals batch: the series value at bar i is the batch RSI of the prefix ending there, exactly unless the
   prices are flat; then the batch value is not a number and the series says 50.
   */
  lemma SeriesIsBatch(closes: seq<real>, period: nat, i: nat)
    requires 1 <= period <= i < |closes|
    ensures BatchAt(closes[..i + 1], period) == Value(Some(SeriesAt(closes, period, i))) <==> !Flat(closes, period, i)
    ensures Flat(closes, period, i) <==> BatchAt(closes[..i + 1], period) == Value(None)
    ensures Flat(closes, period, i) ==> SeriesAt(closes, period, i) == 50.0
  {
    WilderPrefix(closes, period, i, i + 1);
    WilderNonNegative(closes, period, i);
    WilderFlat(closes, period, i);
    var a := Wilder(closes, period, i);
    if a.loss > 0.0 && a.gain == 0.0 {
      StrengthZero(a.loss);
    }
  }

  /** The share form of the index: gains as a percentage of all movement. */
  lemma StrengthIsShare(gain: real, loss: real)
    requires gain >= 0.0 && loss > 0.0
    ensures Strength(gain, loss) * (gain + loss) == 100.0 * gain
  {
    var rs := gain / loss;
    assert rs * loss == gain;
    assert (1.0 + rs) * loss == gain + loss;
    var d := 100.0 / (1.0 + rs);
    assert d * (1.0 + rs) == 100.0;
    assert d * (gain + loss) == d * ((1.0 + rs) * loss) == 100.0 * loss;
  }

  lemma SeriesIsShare(a: Averages)
    requires a.gain >= 0.0 && a.loss >= 0.0 && a.gain + a.loss > 0.0
    ensures SeriesRsi(a) * (a.gain + a.loss) == 100.0 * a.gain
  {
    if a.loss > 0.0 {
      StrengthIsShare(a.gain, a.loss);
    }
  }

  lemma QuotientIs(x: real, y: real, d: real)
    requires d > 0.0 && x * d == y * d
    ensures x == y
  {
  }

  lemma ShareRange(x: real, gain: real, total: real)
    requires 0.0 <= gain <= total && total > 0.0 && x * total == 100.0 * gain
    ensures 0.0 <= x <= 100.0
  {
    DivideMonotone(0.0, 100.0 * gain, total);
    DivideMonotone(100.0 * gain, 100.0 * total, total);
    QuotientIs(x, 100.0 * gain / total, total);
    assert 100.0 * total / total == 100.0;
  }

  /** Every RSI value lies in 0..100. */
  lemma SeriesInRange(closes: seq<real>, period: nat, i: nat)
    requires 1 <= period <= i < |closes|
    ensures 0.0 <= SeriesAt(closes, period, i) <= 100.0
  {
    WilderNonNegative(closes, period, i);
    var a := Wilder(closes, period, i);
    if a.gain + a.loss > 0.0 {
      SeriesIsShare(a);
      ShareRange(SeriesRsi(a), a.gain, a.gain + a.loss);
    }
  }

  // ---- Wilder's averages in closed form ----

  /** The moves from each close to the next, up or down, as nonnegative amounts. */
  function Moves(closes: seq<real>, up: bool): (m: seq<real>)
    requires closes != []
    ensures |m| == |closes| - 1
  {
    seq(|closes| - 1, k requires 0 <= k < |closes| - 1 =>
      MaxReal(0.0, if up then closes[k + 1] - closes[k] else closes[k] - closes[k + 1]))
  }

  lemma {:induction false} TotalsAreSums(closes: seq<real>, n: nat)
    requires n < |closes|
    ensures Totals(closes, n) == Averages(Sum(Moves(closes, true)[..n]), Sum(Moves(closes, false)[..n]))
  {
    if n > 0 {
      TotalsAreSums(closes, n - 1);
      SumSnoc(Moves(closes, true), n - 1);
      SumSnoc(Moves(closes, false), n - 1);
    }
  }

  lemma SmoothIsStep(average: real, value: real, period: nat)
    requires 1 <= period
    ensures Smooth(average, value, period) == Step(average, value, 1.0 / period as real)
  {
    var p := period as real;
    var w := 1.0 / p;
    assert w * p == 1.0;
    var s := Smooth(average, value, period);
    assert s * p == average * (p - 1.0) + value;
    assert Step(average, value, w) * p == (value - average) * (w * p) + average * p;
  }

  lemma MovesAt(closes: seq<real>, i: nat)
    requires 0 < i < |closes|
    ensures Moves(closes, true)[i - 1] == Gain(closes, i) && Moves(closes, false)[i - 1] == Loss(closes, i)
  {
  }

  function MeanMove(closes: seq<real>, up: bool, period: nat): real
    requires 1 <= period < |closes|
  {
    Sum(Moves(closes, up)[..period]) / period as real
  }

  lemma {:induction false} SideIsSmoothed(closes: seq<real>, period: nat, i: nat, up: bool)
    requires 1 <= period <= i < |closes|
    ensures SideOf(Wilder(closes, period, i), up) ==
            Smoothed(MeanMove(closes, up, period), Moves(closes, up)[period..i], 1.0 / period as real)
  {
    if i == period {
      TotalsAreSums(closes, period);
      assert Moves(closes, up)[period..i] == [];
    } else {
      SideIsSmoothed(closes, period, i - 1, up);
      MovesAt(closes, i);
      SmoothIsStep(SideOf(Wilder(closes, period, i - 1), up), if up then Gain(closes, i) else Loss(closes, i), period);
      SmoothedNext(MeanMove(closes, up, period), Moves(closes, up), 1.0 / period as real, period, i - 1);
    }
  }

  function SideOf(a: Averages, up: bool): real {
    if up then a.gain else a.loss
  }

  lemma WilderIsSmoothed(closes: seq<real>, period: nat, i: nat)
    requires 1 <= period <= i < |closes|
    ensures Wilder(closes, period, i).gain == Smoothed(MeanMove(closes, true, period), Moves(closes, true)[period..i], 1.0 / period as real)
    ensures Wilder(closes, period, i).loss == Smoothed(MeanMove(closes, false, period), Moves(closes, false)[period..i], 1.0 / period as real)
  {
    SideIsSmoothed(closes, period, i, true);
    SideIsSmoothed(closes, period, i, false);
  }

  /** Wilder's averages with weight 1 / period: the mean of the first moves, and each later one faded by 1 - 1 / period per bar. */
  lemma WilderClosed(closes: seq<real>, period: nat, i: nat)
    requires 1 <= period <= i < |closes|
    ensures Wilder(closes, period, i).gain == ClosedForm(MeanMove(closes, true, period), Moves(closes, true)[period..i], 1.0 / period as real)
    ensures Wilder(closes, period, i).loss == ClosedForm(MeanMove(closes, false, period), Moves(closes, false)[period..i], 1.0 / period as real)
  {
    WilderIsSmoothed(closes, period, i);
    SmoothedClosed(MeanMove(closes, true, period), Moves(closes, true)[period..i], 1.0 / period as real);
    SmoothedClosed(MeanMove(closes, false, period), Moves(closes, false)[period..i], 1.0 / period as real);
  }

  /** And the index is the upward share of all movement, in percent. */
  lemma IndexIsShare(closes: seq<real>, period: nat, i: nat)
    requires 1 <= period <= i < |closes|
    ensures var a := Wilder(closes, period, i);
      a.gain + a.loss > 0.0 ==> SeriesAt(closes, period, i) * (a.gain + a.loss) == 100.0 * a.gain
  {
    WilderNonNegative(closes, period, i);
    var a := Wilder(closes, period, i);
    if a.gain + a.loss > 0.0 {
      SeriesIsShare(a);
    }
  }

  // ---- Mirror symmetry ----

  function Mirrored(closes: seq<real>, c: real): (r: seq<real>)
    ensures |r| == |closes|
  {
    seq(|closes|, i requires 0 <= i < |closes| => c - closes[i])
  }

  function Swap(a: Averages): Averages {
    Averages(a.loss, a.gain)
  }

  lemma {:induction false} MirrorTotals(closes: seq<real>, n: nat, c: real)
    requires n < |closes| || n == 0
    ensures Totals(Mirrored(closes, c), n) == Swap(Totals(closes, n))
  {
    if n > 0 {
      MirrorTotals(closes, n - 1, c);
    }
  }

  lemma {:induction false} MirrorWilder(closes: seq<real>, period: nat, i: nat, c: real)
    requires 1 <= period <= i < |closes|
    ensures Wilder(Mirrored(closes, c), period, i) == Swap(Wilder(closes, period, i))
  {
    if i == period {
      MirrorTotals(closes, period, c);
    } else {
      MirrorWilder(closes, period, i - 1, c);
      assert Gain(Mirrored(closes, c), i) == Loss(closes, i) && Loss(Mirrored(closes, c), i) == Gain(closes, i);
    }
  }

  lemma SharesAdd(x: real, y: real, gain: real, loss: real)
    requires gain + loss > 0.0 && x * (gain + loss) == 100.0 * gain && y * (gain + loss) == 100.0 * loss
    ensures x + y == 100.0
  {
    var d := gain + loss;
    assert (x + y) * d == x * d + y * d;
    QuotientIs(x + y, 100.0, d);
  }

  lemma SwappedAddsTo100(gain: real, loss: real)
    requires gain >= 0.0 && loss >= 0.0
    ensures SeriesRsi(Averages(gain, loss)) + SeriesRsi(Averages(loss, gain)) == 100.0
  {
    if gain + loss > 0.0 {
      SeriesIsShare(Averages(gain, loss));
      SeriesIsShare(Averages(loss, gain));
      var y := SeriesRsi(Averages(loss, gain));
      assert y * (loss + gain) == y * (gain + loss);
      SharesAdd(SeriesRsi(Averages(gain, loss)), y, gain, loss);
    }
  }

  /** Turning the price history upside down turns the index upside down: the two always add up to 100. */
  lemma MirrorAddsTo100(closes: seq<real>, period: nat, i: nat, c: real)
    requires 1 <= period <= i < |closes|
    ensures SeriesAt(closes, period, i) + SeriesAt(Mirrored(closes, c), period, i) == 100.0
  {
    WilderNonNegative(closes, period, i);
    MirrorWilder(closes, period, i, c);
    var a := Wilder(closes, period, i);
    SwappedAddsTo100(a.gain, a.loss);
    assert a == Averages(a.gain, a.loss);
  }
}
