/** The array statistics of the backtesting engine: running sums, one-pass drawdown, percentiles. */
module MathHelpers {
  import opened JsNumbers
  import opened Sums
  import opened StableSort

  function Mean(values: seq<real>): real {
    if values == [] then 0.0 else Sum(values) / |values| as real
  }

  /** cumulativeSum: the i-th entry is the sum of the first i + 1 values. */
  method CumulativeSum(values: seq<real>) returns (result: seq<real>)
    ensures result == PrefixSums(values)
  {
    result := [];
    var running := 0.0;
    for i := 0 to |values|
      invariant |result| == i && running == Sum(values[..i])
      invariant forall k :: 0 <= k < i ==> result[k] == Sum(values[..k + 1])
    {
      SumSnoc(values, i);
      running := running + values[i];
      result := result + [running];
    }
  }

  function PrefixSums(values: seq<real>): (r: seq<real>)
    ensures |r| == |values|
    ensures forall k :: 0 <= k < |r| ==> r[k] == Sum(values[..k + 1])
  {
    seq(|values|, k requires 0 <= k < |values| => Sum(values[..k + 1]))
  }

  // ---- Drawdown ----

  datatype Drawdown = Drawdown(maxDrawdown: real, peak: real, trough: real)

  /** p is the greatest of the first j + 1 values. */
  ghost predicate IsPeak(curve: seq<real>, j: nat, p: real)
    requires j < |curve|
  {
    (exists i :: 0 <= i <= j && curve[i] == p) && forall i :: 0 <= i <= j ==> curve[i] <= p
  }

  function RunningPeak(curve: seq<real>, j: nat): (p: real)
    requires j < |curve|
  {
    if j == 0 then curve[0]
    else
      var before := RunningPeak(curve, j - 1);
      if curve[j] > before then curve[j] else before
  }

  lemma {:induction false} RunningPeakIsMax(curve: seq<real>, j: nat)
    requires j < |curve|
    ensures IsPeak(curve, j, RunningPeak(curve, j))
  {
    if j > 0 {
      RunningPeakIsMax(curve, j - 1);
      var i :| 0 <= i <= j - 1 && curve[i] == RunningPeak(curve, j - 1);
    }
    assert curve[j] == curve[j];
  }

  function Fall(value: real, peak: real): real
    requires peak != 0.0
  {
    (value - peak) / peak
  }

  lemma FallMonotone(v: real, w: real, peak: real)
    requires peak > 0.0 && v <= w
    ensures Fall(v, peak) <= Fall(w, peak)
  {
    DivideMonotone(v - peak, w - peak, peak);
  }

  lemma FallSign(v: real, peak: real)
    requires peak != 0.0 && v <= peak
    ensures peak > 0.0 ==> Fall(v, peak) <= 0.0
    ensures peak < 0.0 ==> Fall(v, peak) >= 0.0
  {
    if peak > 0.0 {
      FallMonotone(v, peak, peak);
    } else {
      DivideMonotone(0.0, peak - v, -peak);
      assert (peak - v) / -peak == (v - peak) / peak;
    }
  }

  /** No value of the first n falls further below its running peak than dd. */
  ghost predicate Bounds(curve: seq<real>, n: nat, dd: real)
    requires n <= |curve|
  {
    forall j :: 0 <= j < n && RunningPeak(curve, j) > 0.0 ==> dd <= Fall(curve[j], RunningPeak(curve, j))
  }

  /** dd is no fall at all, or the fall of one of the first n values below its running peak. */
  ghost predicate Attained(curve: seq<real>, n: nat, dd: real)
    requires n <= |curve|
  {
    dd == 0.0 || exists j :: 0 <= j < n && RunningPeak(curve, j) > 0.0 && dd == Fall(curve[j], RunningPeak(curve, j))
  }

  /** The loop's state after the first n values; at is where the current peak was first reached. */
  ghost predicate Scanned(curve: seq<real>, n: nat, d: Drawdown, at: nat) {
    && 0 < n <= |curve| && at < n && curve[at] == d.peak == RunningPeak(curve, n - 1)
    && d.maxDrawdown <= 0.0 && Bounds(curve, n, d.maxDrawdown) && Attained(curve, n, d.maxDrawdown)
    && (forall k :: 0 <= k < at ==> curve[k] < d.peak)
    && (forall k :: at <= k < n ==> d.trough <= curve[k])
    && (exists k :: at <= k < n && curve[k] == d.trough)
    && (d.peak > 0.0 ==> d.maxDrawdown <= Fall(d.trough, d.peak))
  }

  lemma BoundsExtend(curve: seq<real>, n: nat, dd: real, dd': real)
    requires n < |curve| && Bounds(curve, n, dd) && dd' <= dd
    requires RunningPeak(curve, n) > 0.0 ==> dd' <= Fall(curve[n], RunningPeak(curve, n))
    ensures Bounds(curve, n + 1, dd')
  {
  }

  lemma FirstScanned(curve: seq<real>)
    requires curve != []
    ensures Scanned(curve, 1, Drawdown(0.0, curve[0], curve[0]), 0)
  {
    var p := curve[0];
    if p > 0.0 {
      FallSelf(p);
    }
    assert curve[0] == p;
  }

  lemma FallSelf(p: real)
    requires p != 0.0
    ensures Fall(p, p) == 0.0
  {
  }

  lemma AttainedExtends(curve: seq<real>, n: nat, dd: real)
    requires n < |curve| && Attained(curve, n, dd)
    ensures Attained(curve, n + 1, dd)
  {
  }

  lemma NewPeak(curve: seq<real>, n: nat, d: Drawdown, at: nat)
    requires n < |curve| && Scanned(curve, n, d, at) && curve[n] > d.peak
    ensures Scanned(curve, n + 1, Drawdown(d.maxDrawdown, curve[n], curve[n]), n)
  {
    var p := curve[n];
    assert RunningPeak(curve, n) == p;
    if p > 0.0 {
      FallSelf(p);
      assert Fall(curve[n], RunningPeak(curve, n)) == Fall(p, p);
    }
    BoundsExtend(curve, n, d.maxDrawdown, d.maxDrawdown);
    AttainedExtends(curve, n, d.maxDrawdown);
    RunningPeakIsMax(curve, n - 1);
    assert curve[n] == p;
  }

  function Deeper(dd: real, trough: real, peak: real): real {
    var drawdown := if peak == 0.0 then 0.0 else Fall(trough, peak);
    if drawdown < dd then drawdown else dd
  }

  lemma NewTrough(curve: seq<real>, n: nat, d: Drawdown, at: nat)
    requires n < |curve| && Scanned(curve, n, d, at) && curve[n] <= d.peak && curve[n] < d.trough
    ensures Scanned(curve, n + 1, Drawdown(Deeper(d.maxDrawdown, curve[n], d.peak), d.peak, curve[n]), at)
  {
    var v, dd' := curve[n], Deeper(d.maxDrawdown, curve[n], d.peak);
    if d.peak != 0.0 {
      FallSign(v, d.peak);
    }
    assert RunningPeak(curve, n) == d.peak;
    BoundsExtend(curve, n, d.maxDrawdown, dd');
    if dd' != d.maxDrawdown {
      assert d.peak > 0.0 && dd' == Fall(curve[n], RunningPeak(curve, n));
    }
    assert Attained(curve, n + 1, dd');
    assert curve[n] == v;
  }

  lemma NeitherPeakNorTrough(curve: seq<real>, n: nat, d: Drawdown, at: nat)
    requires n < |curve| && Scanned(curve, n, d, at) && d.trough <= curve[n] <= d.peak
    ensures Scanned(curve, n + 1, d, at)
  {
    assert RunningPeak(curve, n) == d.peak;
    if d.peak > 0.0 {
      FallMonotone(d.trough, curve[n], d.peak);
    }
    BoundsExtend(curve, n, d.maxDrawdown, d.maxDrawdown);
  }

  /** One step of the loop. */
  function Next(d: Drawdown, value: real): Drawdown {
    var raised := if value > d.peak then d.(peak := value, trough := value) else d;
    if value < raised.trough then Drawdown(Deeper(raised.maxDrawdown, value, raised.peak), raised.peak, value) else raised
  }

  lemma NextScanned(curve: seq<real>, n: nat, d: Drawdown, at: nat)
    requires n < |curve| && Scanned(curve, n, d, at)
    ensures Scanned(curve, n + 1, Next(d, curve[n]), if curve[n] > d.peak then n else at)
  {
    if curve[n] > d.peak {
      NewPeak(curve, n, d, at);
    } else if curve[n] < d.trough {
      NewTrough(curve, n, d, at);
    } else {
      NeitherPeakNorTrough(curve, n, d, at);
    }
  }

  lemma ScannedAll(curve: seq<real>, d: Drawdown, at: nat)
    requires Scanned(curve, |curve|, d, at)
    ensures LastRise(curve, at) && IsTrough(curve, at, d.trough)
  {
    RunningPeakIsMax(curve, |curve| - 1);
  }

  /** The loop's state after n values. */
  function Scan(curve: seq<real>, n: nat): Drawdown
    requires curve != [] && n <= |curve|
  {
    if n == 0 then Drawdown(0.0, curve[0], curve[0]) else Next(Scan(curve, n - 1), curve[n - 1])
  }

  function DrawdownOf(curve: seq<real>): Drawdown {
    if curve == [] then Drawdown(0.0, 0.0, 0.0) else Scan(curve, |curve|)
  }

  lemma {:induction false} ScanIsScanned(curve: seq<real>, n: nat) returns (at: nat)
    requires 0 < n <= |curve|
    ensures Scanned(curve, n, Scan(curve, n), at)
  {
    if n == 1 {
      FirstScanned(curve);
      at := 0;
      assert Scan(curve, 1) == Scan(curve, 0);
    } else {
      var before := ScanIsScanned(curve, n - 1);
      NextScanned(curve, n - 1, Scan(curve, n - 1), before);
      at := if curve[n - 1] > Scan(curve, n - 1).peak then n - 1 else before;
    }
  }

  /**
   The one pass is right: although a fall is computed only at a new trough, the result is the least of 0 and
   every fall below a positive running peak, on any curve; peak and trough are the last peak and the least value since.
   */
  lemma DrawdownCorrect(curve: seq<real>)
    ensures var r := DrawdownOf(curve);
      && r.maxDrawdown <= 0.0 && Bounds(curve, |curve|, r.maxDrawdown) && Attained(curve, |curve|, r.maxDrawdown)
      && (curve != [] ==> r.peak == RunningPeak(curve, |curve| - 1) && exists i :: LastRise(curve, i) && IsTrough(curve, i, r.trough))
  {
    if curve != [] {
      var at := ScanIsScanned(curve, |curve|);
      ScannedAll(curve, DrawdownOf(curve), at);
    }
  }

  /** maxDrawdown, in one pass. */
  method MaxDrawdown(curve: seq<real>) returns (r: Drawdown)
    ensures r == DrawdownOf(curve)
    ensures Bounds(curve, |curve|, r.maxDrawdown) && Attained(curve, |curve|, r.maxDrawdown)
  {
    DrawdownCorrect(curve);
    if curve == [] {
      return Drawdown(0.0, 0.0, 0.0);
    }
    var peak, trough, maxDd := curve[0], curve[0], 0.0;
    for n := 0 to |curve|
      invariant Drawdown(maxDd, peak, trough) == Scan(curve, n)
    {
      var value := curve[n];
      if value > peak {
        peak := value;
        trough := value;
      }
      if value < trough {
        trough := value;
        var drawdown := if peak == 0.0 then 0.0 else Fall(trough, peak);
        if drawdown < maxDd {
          maxDd := drawdown;
        }
      }
    }
    r := Drawdown(maxDd, peak, trough);
  }

  /** The final peak is first reached at i. */
  ghost predicate LastRise(curve: seq<real>, i: nat) {
    && i < |curve|
    && (forall k :: 0 <= k < i ==> curve[k] < curve[i])
    && (forall k :: i <= k < |curve| ==> curve[k] <= curve[i])
  }

  /** t is the least value from i on. */
  ghost predicate IsTrough(curve: seq<real>, i: nat, t: real) {
    (exists k :: i <= k < |curve| && curve[k] == t) && forall k :: i <= k < |curve| ==> t <= curve[k]
  }

  /** The quadratic definition on positive curves: the worst relative change from any value to a later one. */
  lemma DrawdownIsWorstPair(curve: seq<real>, dd: real)
    requires forall i :: 0 <= i < |curve| ==> curve[i] > 0.0
    requires dd == DrawdownOf(curve).maxDrawdown
    ensures forall i, j :: 0 <= i <= j < |curve| ==> dd <= Fall(curve[j], curve[i])
    ensures curve != [] ==> exists i, j :: 0 <= i <= j < |curve| && dd == Fall(curve[j], curve[i])
    ensures curve != [] ==> -1.0 < dd
  {
    DrawdownCorrect(curve);
    forall i, j | 0 <= i <= j < |curve|
      ensures dd <= Fall(curve[j], curve[i])
    {
      var p := RunningPeak(curve, j);
      RunningPeakIsMax(curve, j);
      SmallerBase(curve[j], curve[i], p);
    }
    if curve != [] {
      if dd == 0.0 {
        assert dd == Fall(curve[0], curve[0]);
      } else {
        var j :| 0 <= j < |curve| && RunningPeak(curve, j) > 0.0 && dd == Fall(curve[j], RunningPeak(curve, j));
        RunningPeakIsMax(curve, j);
        var i :| 0 <= i <= j && curve[i] == RunningPeak(curve, j);
        assert dd == Fall(curve[j], curve[i]);
        FallAboveMinusOne(curve[j], curve[i]);
      }
    }
  }

  lemma QuotientAntitone(v: real, base: real, peak: real)
    requires v > 0.0 && 0.0 < base <= peak
    ensures v / peak <= v / base
  {
    var q := v / peak;
    assert q * peak == v && q > 0.0;
    MultiplyMonotone(base, peak, q);
    assert q * base <= v;
    DivideMonotone(q * base, v, base);
    assert q * base / base == q;
  }

  lemma FallRatio(v: real, peak: real)
    requires peak != 0.0
    ensures Fall(v, peak) == v / peak - 1.0
  {
    assert v / peak - peak / peak == (v - peak) / peak;
    assert peak / peak == 1.0;
  }

  /** Measured from a smaller positive base, a positive value has fallen less. */
  lemma SmallerBase(v: real, base: real, peak: real)
    requires v > 0.0 && 0.0 < base <= peak
    ensures Fall(v, peak) <= Fall(v, base)
  {
    FallRatio(v, peak);
    FallRatio(v, base);
    QuotientAntitone(v, base, peak);
  }

  lemma FallAboveMinusOne(v: real, peak: real)
    requires v > 0.0 && peak > 0.0
    ensures Fall(v, peak) > -1.0
  {
    FallRatio(v, peak);
    assert v / peak > 0.0;
  }

  // ---- Percentiles ----

  function PercentileIndex(n: nat, rank: real): (i: nat)
    requires n > 0
    ensures i < n
  {
    Min(n - 1, Max(0, Scale(rank, n as real).Floor))
  }

  function Identity(x: real): real {
    x
  }

  function Percentile(values: seq<real>, rank: real): real {
    if values == [] then 0.0 else Sort(values, Identity)[PercentileIndex(|values|, rank)]
  }

  lemma SortedElements(values: seq<real>)
    ensures Ascending(Sort(values, Identity), Identity)
    ensures forall x :: x in Sort(values, Identity) <==> x in values
  {
    SortCorrect(values, Identity);
    forall x
      ensures x in Sort(values, Identity) <==> x in values
    {
      assert x in multiset(Sort(values, Identity)) <==> x in multiset(values);
    }
  }

  /** A percentile is one of the values, and a higher rank never gives a smaller one. */
  lemma PercentileMonotone(values: seq<real>, low: real, high: real)
    requires values != [] && low <= high
    ensures Percentile(values, low) in values
    ensures Percentile(values, low) <= Percentile(values, high)
  {
    SortedElements(values);
    var n := |values| as real;
    var i, j := PercentileIndex(|values|, low), PercentileIndex(|values|, high);
    ScaleMonotone(low, high, n);
    assert i <= j;
    var sorted := Sort(values, Identity);
    assert sorted[i] in sorted;
    assert i < j ==> Identity(sorted[i]) <= Identity(sorted[j]);
  }

  function CountOf(xs: seq<real>, q: real -> bool): nat {
    if xs == [] then 0 else (if q(xs[0]) then 1 else 0) + CountOf(xs[1..], q)
  }

  lemma {:induction false} CountInserted(x: real, xs: seq<real>, q: real -> bool)
    ensures CountOf(Insert(x, xs, Identity), q) == (if q(x) then 1 else 0) + CountOf(xs, q)
  {
    if xs == [] || x <= xs[0] {
      assert ([x] + xs)[1..] == xs;
    } else {
      assert Insert(x, xs, Identity)[1..] == Insert(x, xs[1..], Identity);
      CountInserted(x, xs[1..], q);
    }
  }

  lemma {:induction false} CountSorted(xs: seq<real>, q: real -> bool)
    ensures CountOf(Sort(xs, Identity), q) == CountOf(xs, q)
  {
    if xs != [] {
      CountSorted(xs[1..], q);
      CountInserted(xs[0], Sort(xs[1..], Identity), q);
    }
  }

  lemma {:induction false} CountBetween(xs: seq<real>, q: real -> bool, k: nat)
    requires k <= |xs|
    ensures (forall j :: k <= j < |xs| ==> !q(xs[j])) ==> CountOf(xs, q) <= k
    ensures (forall j :: 0 <= j < k ==> q(xs[j])) ==> CountOf(xs, q) >= k
  {
    if xs != [] {
      CountBetween(xs[1..], q, if k == 0 then 0 else k - 1);
      assert forall j :: 1 <= j < |xs| ==> xs[j] == xs[1..][j - 1];
      assert k == 0 && (forall j :: k <= j < |xs| ==> !q(xs[j])) ==> !q(xs[0]);
    }
  }

  function Below(p: real): real -> bool {
    x => x < p
  }

  function UpTo(p: real): real -> bool {
    x => x <= p
  }

  lemma AscendingCounts(sorted: seq<real>, k: nat)
    requires Ascending(sorted, Identity) && k < |sorted|
    ensures CountOf(sorted, Below(sorted[k])) <= k < CountOf(sorted, UpTo(sorted[k]))
  {
    forall j | 0 <= j < |sorted|
      ensures j > k ==> sorted[k] <= sorted[j]
      ensures j < k ==> sorted[j] <= sorted[k]
    {
      assert j < k ==> Identity(sorted[j]) <= Identity(sorted[k]);
      assert k < j ==> Identity(sorted[k]) <= Identity(sorted[j]);
    }
    CountBetween(sorted, Below(sorted[k]), k);
    CountBetween(sorted, UpTo(sorted[k]), k + 1);
  }

  /** At most the given share of the values lies below the percentile, and more than that share at or below it. */
  lemma PercentileSplits(values: seq<real>, rank: real)
    requires values != [] && 0.0 <= rank < 1.0
    ensures var p, share := Percentile(values, rank), Scale(rank, |values| as real);
      p in values && CountOf(values, Below(p)) as real <= share < CountOf(values, UpTo(p)) as real
  {
    var p := Percentile(values, rank);
    SortedElements(values);
    AscendingCounts(Sort(values, Identity), PercentileIndex(|values|, rank));
    CountSorted(values, Below(p));
    CountSorted(values, UpTo(p));
    RankIndex(|values|, rank);
    PercentileMonotone(values, rank, rank);
  }

  lemma RankIndex(n: nat, rank: real)
    requires n > 0 && 0.0 <= rank < 1.0
    ensures PercentileIndex(n, rank) as real <= Scale(rank, n as real) < PercentileIndex(n, rank) as real + 1.0
  {
    ScaleMonotone(0.0, rank, n as real);
    var size := n as real;
    assert (1.0 - rank) * size > 0.0;
    assert Scale(rank, size) == size - (1.0 - rank) * size;
  }
}
