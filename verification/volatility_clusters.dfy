/** The run-length segmentation of recent returns into volatility clusters with running averages. */
module VolatilityClusters {
  import opened JsNumbers
  import opened Sums

  datatype Candle = Candle(time: int, close: real)

  datatype State = Volatile | Calm | Normal

  datatype Cluster = Cluster(state: State, start: int, end: int, count: nat, avgMagnitude: real)

  datatype Volatility = Unknown | Analysis(state: State, meanAbs: real, clusters: seq<Cluster>)

  function Change(prev: Candle, curr: Candle): real {
    (curr.close - prev.close) / (if prev.close == 0.0 then 1.0 else prev.close)
  }

  /** The absolute return between each candle and the next. */
  function Magnitudes(slice: seq<Candle>): (m: seq<real>)
    requires slice != []
    ensures |m| == |slice| - 1
  {
    seq(|slice| - 1, i requires 0 <= i < |slice| - 1 => Abs(Change(slice[i], slice[i + 1])))
  }

  function Tag(magnitude: real, high: real, low: real): State {
    if magnitude > high then Volatile else if magnitude < low then Calm else Normal
  }

  function MeanAbs(slice: seq<Candle>): real
    requires |slice| > 1
  {
    Sum(Magnitudes(slice)) / (|slice| - 1) as real
  }

  /** What the loop sees of each return: the times at its ends, its tag and its magnitude. */
  datatype Track = Track(times: seq<int>, tags: seq<State>, mags: seq<real>) {
    ghost predicate Valid() {
      |times| == |tags| + 1 && |mags| == |tags|
    }
  }

  function TrackOf(slice: seq<Candle>, high: real, low: real): (t: Track)
    requires slice != []
    ensures t.Valid() && |t.times| == |slice| && t.mags == Magnitudes(slice)
  {
    Track(seq(|slice|, i requires 0 <= i < |slice| => slice[i].time),
          seq(|slice| - 1, i requires 0 <= i < |slice| - 1 => Tag(Magnitudes(slice)[i], high, low)),
          Magnitudes(slice))
  }

  /** How many returns the first k clusters cover. */
  function Covered(clusters: seq<Cluster>, k: nat): nat
    requires k <= |clusters|
  {
    if k == 0 then 0 else Covered(clusters, k - 1) + clusters[k - 1].count
  }

  /** Cluster c describes the returns a..b: one state, the exact mean magnitude, and the times at both ends. */
  ghost predicate Describes(c: Cluster, t: Track, a: nat, b: nat)
    requires t.Valid()
  {
    && a < b <= |t.tags| && c.count == b - a
    && c.start == t.times[a] && c.end == t.times[b]
    && (forall i :: a <= i < b ==> t.tags[i] == c.state)
    && Scale(c.avgMagnitude, c.count as real) == Sum(t.mags[a..b])
  }

  ghost predicate DescribesAt(clusters: seq<Cluster>, t: Track, k: nat)
    requires t.Valid() && k < |clusters|
  {
    Describes(clusters[k], t, Covered(clusters, k), Covered(clusters, k + 1))
  }

  /** The clusters are the maximal runs of equal tags over the first m returns. */
  ghost predicate Segments(clusters: seq<Cluster>, t: Track, m: nat)
    requires t.Valid()
  {
    && Covered(clusters, |clusters|) == m
    && (forall k :: 0 <= k < |clusters| ==> DescribesAt(clusters, t, k))
    && (forall k, k' :: 0 <= k < |clusters| && k' == k + 1 < |clusters| ==> clusters[k].state != clusters[k'].state)
  }

  lemma {:induction false} CoveredPrefix(xs: seq<Cluster>, ys: seq<Cluster>, k: nat)
    requires k <= |xs| && k <= |ys| && xs[..k] == ys[..k]
    ensures Covered(xs, k) == Covered(ys, k)
  {
    if k > 0 {
      assert xs[..k - 1] == xs[..k][..k - 1] && ys[..k - 1] == ys[..k][..k - 1];
      assert xs[k - 1] == xs[..k][k - 1] && ys[k - 1] == ys[..k][k - 1];
      CoveredPrefix(xs, ys, k - 1);
    }
  }

  /** Replacing or adding the cluster at position n keeps the description of the earlier ones. */
  lemma EarlierKept(clusters: seq<Cluster>, all: seq<Cluster>, t: Track, n: nat)
    requires t.Valid() && n <= |clusters| && n < |all| && all[..n] == clusters[..n]
    requires forall k :: 0 <= k < n ==> DescribesAt(clusters, t, k)
    ensures forall k :: 0 <= k < n ==> DescribesAt(all, t, k)
    ensures Covered(all, n) == Covered(clusters, n)
  {
    forall k | 0 <= k <= n
      ensures Covered(all, k) == Covered(clusters, k)
    {
      assert all[..k] == all[..n][..k] && clusters[..k] == clusters[..n][..k];
      CoveredPrefix(all, clusters, k);
    }
    forall k | 0 <= k < n
      ensures DescribesAt(all, t, k)
    {
      assert DescribesAt(clusters, t, k);
      assert all[k] == all[..n][k] == clusters[..n][k];
    }
  }

  function Started(t: Track, m: nat): Cluster
    requires m < |t.tags| && m < |t.mags| && m + 1 < |t.times|
  {
    Cluster(t.tags[m], t.times[m], t.times[m + 1], 1, t.mags[m])
  }

  lemma StartedDescribes(t: Track, m: nat)
    requires t.Valid() && m < |t.tags|
    ensures Describes(Started(t, m), t, m, m + 1)
  {
    assert t.mags[m..m + 1] == [t.mags[m]];
    assert Sum([t.mags[m]]) == Sum([t.mags[m]][..0]) + t.mags[m];
  }

  lemma StartCluster(clusters: seq<Cluster>, t: Track, m: nat)
    requires t.Valid() && m < |t.tags| && Segments(clusters, t, m)
    requires clusters != [] ==> clusters[|clusters| - 1].state != t.tags[m]
    ensures Segments(clusters + [Started(t, m)], t, m + 1)
  {
    var n, all := |clusters|, clusters + [Started(t, m)];
    EarlierKept(clusters, all, t, n);
    StartedDescribes(t, m);
    assert Covered(all, n + 1) == m + 1;
    assert DescribesAt(all, t, n);
  }

  function Extended(c: Cluster, end: int, magnitude: real): Cluster {
    var count := c.count + 1;
    Cluster(c.state, c.start, end, count, (Scale(c.avgMagnitude, (count - 1) as real) + magnitude) / count as real)
  }

  lemma SumSlice(xs: seq<real>, a: nat, b: nat)
    requires a <= b < |xs|
    ensures Sum(xs[a..b + 1]) == Sum(xs[a..b]) + xs[b]
  {
    assert xs[a..b + 1][..b - a] == xs[a..b];
  }

  lemma QuotientScales(x: real, n: real)
    requires n > 0.0
    ensures Scale(x / n, n) == x
  {
  }

  lemma ExtendedDescribes(c: Cluster, t: Track, a: nat, b: nat)
    requires t.Valid() && Describes(c, t, a, b) && b < |t.tags| && t.tags[b] == c.state
    ensures Describes(Extended(c, t.times[b + 1], t.mags[b]), t, a, b + 1)
  {
    SumSlice(t.mags, a, b);
    QuotientScales(Scale(c.avgMagnitude, c.count as real) + t.mags[b], (c.count + 1) as real);
  }

  lemma ExtendCluster(clusters: seq<Cluster>, t: Track, m: nat)
    requires t.Valid() && m < |t.tags| && Segments(clusters, t, m) && clusters != []
    requires clusters[|clusters| - 1].state == t.tags[m]
    ensures var n := |clusters| - 1;
      Segments(clusters[..n] + [Extended(clusters[n], t.times[m + 1], t.mags[m])], t, m + 1)
  {
    var n := |clusters| - 1;
    var all := clusters[..n] + [Extended(clusters[n], t.times[m + 1], t.mags[m])];
    EarlierKept(clusters, all, t, n);
    assert DescribesAt(clusters, t, n);
    ExtendedDescribes(clusters[n], t, Covered(clusters, n), m);
    assert Covered(all, n + 1) == m + 1;
    assert DescribesAt(all, t, n);
  }

  /** The last sixty candles. */
  function Window(data: seq<Candle>): seq<Candle> {
    data[|data| - Min(60, |data|)..]
  }

  /** The clusters' loop; current is the run being built, pushed when the tag changes and at the end. */
  method BuildClusters(slice: seq<Candle>, high: real, low: real) returns (clusters: seq<Cluster>)
    requires slice != []
    ensures Segments(clusters, TrackOf(slice, high, low), |slice| - 1)
  {
    ghost var t := TrackOf(slice, high, low);
    clusters := [];
    var current: seq<Cluster> := [];
    for i := 1 to |slice|
      invariant |current| <= 1 && (current == [] ==> clusters == [])
      invariant Segments(clusters + current, t, i - 1)
    {
      var magnitude := Abs(Change(slice[i - 1], slice[i]));
      var tag := Tag(magnitude, high, low);
      assert magnitude == t.mags[i - 1] && tag == t.tags[i - 1];
      if current == [] || current[0].state != tag {
        StartCluster(clusters + current, t, i - 1);
        clusters := clusters + current;
        current := [Cluster(tag, slice[i - 1].time, slice[i].time, 1, magnitude)];
      } else {
        ExtendCluster(clusters + current, t, i - 1);
        assert (clusters + current)[..|clusters|] == clusters;
        current := [Extended(current[0], slice[i].time, magnitude)];
      }
    }
    clusters := clusters + current;
  }

  method AnalyzeVolatility(data: seq<Candle>) returns (r: Volatility)
    ensures r.Unknown? <==> Min(60, |data|) < 15
    ensures r.Analysis? ==>
      var slice := if |data| <= 60 then data else data[|data| - 60..];
      && r.meanAbs == MeanAbs(slice)
      && Segments(r.clusters, TrackOf(slice, r.meanAbs * 1.8, r.meanAbs * 0.7), |slice| - 1)
      && r.clusters != [] && r.state == r.clusters[|r.clusters| - 1].state
  {
    if Min(60, |data|) < 15 {
      return Unknown;
    }
    var slice := Window(data);
    assert slice == if |data| <= 60 then data else data[|data| - 60..];
    var meanAbs := MeanAbs(slice);
    var clusters := BuildClusters(slice, meanAbs * 1.8, meanAbs * 0.7);
    r := Analysis(clusters[|clusters| - 1].state, meanAbs, clusters);
  }

  // ---- What the segmentation means ----

  /** Each cluster ends where the next begins, and the two differ in state. */
  lemma ClustersAdjoin(clusters: seq<Cluster>, t: Track, m: nat, k: nat)
    requires t.Valid() && Segments(clusters, t, m) && k + 1 < |clusters|
    ensures clusters[k].end == clusters[k + 1].start && clusters[k].state != clusters[k + 1].state
  {
    assert DescribesAt(clusters, t, k) && DescribesAt(clusters, t, k + 1);
  }

  /** The size of a candle's move relative to the close before it, or plain from a zero close. */
  function RelativeMove(prev: Candle, curr: Candle): real {
    if prev.close == 0.0 then Abs(curr.close) else Abs(curr.close - prev.close) / Abs(prev.close)
  }

  lemma MagnitudeIsMove(prev: Candle, curr: Candle)
    ensures Abs(Change(prev, curr)) == RelativeMove(prev, curr)
  {
    if prev.close != 0.0 {
      var q := Change(prev, curr);
      assert q * prev.close == curr.close - prev.close;
      AbsOfProduct(q, prev.close);
      assert Abs(q) * Abs(prev.close) / Abs(prev.close) == Abs(q);
    }
  }

  lemma AbsOfProduct(a: real, b: real)
    ensures Abs(a * b) == Abs(a) * Abs(b)
  {
  }

  /** In a volatile cluster every move exceeds the high threshold, in a calm one none reaches the low one; otherwise in between. */
  lemma ClusterMoves(clusters: seq<Cluster>, slice: seq<Candle>, high: real, low: real, k: nat, i: nat)
    requires slice != [] && Segments(clusters, TrackOf(slice, high, low), |slice| - 1) && low <= high
    requires k < |clusters| && Covered(clusters, k) <= i < Covered(clusters, k + 1)
    ensures i + 1 < |slice|
    ensures var move := RelativeMove(slice[i], slice[i + 1]);
      match clusters[k].state
      case Volatile => move > high
      case Calm => move < low
      case Normal => low <= move <= high
  {
    var t := TrackOf(slice, high, low);
    assert DescribesAt(clusters, t, k);
    assert t.tags[i] == clusters[k].state;
    MagnitudeIsMove(slice[i], slice[i + 1]);
  }

  /** The relative moves from candle a to candle b. */
  function MovesOf(slice: seq<Candle>, a: nat, b: nat): (moves: seq<real>)
    requires a <= b < |slice|
    ensures |moves| == b - a && forall i :: 0 <= i < b - a ==> moves[i] == RelativeMove(slice[a + i], slice[a + i + 1])
  {
    seq(b - a, i requires 0 <= i < b - a => RelativeMove(slice[a + i], slice[a + i + 1]))
  }

  lemma MagnitudesAreMoves(slice: seq<Candle>, a: nat, b: nat)
    requires a <= b < |slice|
    ensures Magnitudes(slice)[a..b] == MovesOf(slice, a, b)
  {
    forall i | 0 <= i < b - a
      ensures Magnitudes(slice)[a..b][i] == MovesOf(slice, a, b)[i]
    {
      MagnitudeIsMove(slice[a + i], slice[a + i + 1]);
    }
  }

  /** A cluster lasts from the candle before its first move to that of its last, and averages its moves. */
  lemma ClusterFigures(clusters: seq<Cluster>, slice: seq<Candle>, high: real, low: real, k: nat)
    requires slice != [] && Segments(clusters, TrackOf(slice, high, low), |slice| - 1) && k < |clusters|
    ensures var a, b, c := Covered(clusters, k), Covered(clusters, k + 1), clusters[k];
      && a < b < |slice| && c.count == b - a && c.start == slice[a].time && c.end == slice[b].time
      && Scale(c.avgMagnitude, c.count as real) == Sum(MovesOf(slice, a, b))
  {
    assert DescribesAt(clusters, TrackOf(slice, high, low), k);
    MagnitudesAreMoves(slice, Covered(clusters, k), Covered(clusters, k + 1));
  }

  /** The mean the thresholds are taken from is the mean of those moves. */
  lemma MeanAbsIsMeanMove(slice: seq<Candle>)
    requires |slice| > 1
    ensures MeanAbs(slice) == Sum(MovesOf(slice, 0, |slice| - 1)) / (|slice| - 1) as real
  {
    MagnitudesAreMoves(slice, 0, |slice| - 1);
    assert Magnitudes(slice)[0..|slice| - 1] == Magnitudes(slice);
  }

  function WeightedSum(clusters: seq<Cluster>, k: nat): real
    requires k <= |clusters|
  {
    if k == 0 then 0.0
    else WeightedSum(clusters, k - 1) + Scale(clusters[k - 1].avgMagnitude, clusters[k - 1].count as real)
  }

  lemma {:induction false} WeightedSumIsTotal(clusters: seq<Cluster>, t: Track, m: nat, k: nat)
    requires t.Valid() && Segments(clusters, t, m) && k <= |clusters|
    ensures Covered(clusters, k) <= |t.mags| && WeightedSum(clusters, k) == Sum(t.mags[..Covered(clusters, k)])
  {
    if k > 0 {
      WeightedSumIsTotal(clusters, t, m, k - 1);
      assert DescribesAt(clusters, t, k - 1);
      var a, b := Covered(clusters, k - 1), Covered(clusters, k);
      assert t.mags[..b] == t.mags[..a] + t.mags[a..b];
      SumConcat(t.mags[..a], t.mags[a..b]);
    }
  }

  /** The count-weighted mean of the clusters' running averages is the mean absolute return. */
  lemma WeightedMeanIsMeanAbs(clusters: seq<Cluster>, slice: seq<Candle>, high: real, low: real)
    requires |slice| > 1 && Segments(clusters, TrackOf(slice, high, low), |slice| - 1)
    ensures WeightedSum(clusters, |clusters|) / (|slice| - 1) as real == MeanAbs(slice)
  {
    var t := TrackOf(slice, high, low);
    WeightedSumIsTotal(clusters, t, |slice| - 1, |clusters|);
    assert t.mags[..|slice| - 1] == t.mags;
  }

  lemma {:induction false} CoveredMonotone(xs: seq<Cluster>, t: Track, m: nat, k: nat, n: nat)
    requires t.Valid() && Segments(xs, t, m) && k <= n <= |xs|
    ensures Covered(xs, k) <= Covered(xs, n) && (k < n ==> Covered(xs, k) < Covered(xs, n))
  {
    if k < n {
      assert DescribesAt(xs, t, n - 1);
      CoveredMonotone(xs, t, m, k, n - 1);
    }
  }

  /** A run cannot end where its tag continues, so no segmentation cuts before another does. */
  lemma NoEarlierCut(xs: seq<Cluster>, ys: seq<Cluster>, t: Track, m: nat, k: nat)
    requires t.Valid() && Segments(xs, t, m) && Segments(ys, t, m)
    requires k < |xs| && k < |ys| && Covered(xs, k) == Covered(ys, k)
    ensures Covered(xs, k + 1) >= Covered(ys, k + 1) && xs[k].state == ys[k].state
  {
    var a, b := Covered(xs, k), Covered(xs, k + 1);
    assert DescribesAt(xs, t, k) && DescribesAt(ys, t, k);
    assert t.tags[a] == xs[k].state == ys[k].state;
    CoveredMonotone(ys, t, m, k + 1, |ys|);
    if k + 1 < |xs| {
      assert DescribesAt(xs, t, k + 1);
      assert t.tags[b] == xs[k + 1].state != xs[k].state;
    }
  }

  lemma ScaleInjective(x: real, y: real, n: real)
    requires n > 0.0 && Scale(x, n) == Scale(y, n)
    ensures x == y
  {
  }

  lemma {:induction false} SegmentsAgree(xs: seq<Cluster>, ys: seq<Cluster>, t: Track, m: nat, k: nat)
    requires t.Valid() && Segments(xs, t, m) && Segments(ys, t, m) && k <= |xs| && k <= |ys|
    ensures xs[..k] == ys[..k] && Covered(xs, k) == Covered(ys, k)
  {
    if k > 0 {
      var j := k - 1;
      SegmentsAgree(xs, ys, t, m, j);
      NoEarlierCut(xs, ys, t, m, j);
      NoEarlierCut(ys, xs, t, m, j);
      assert DescribesAt(xs, t, j) && DescribesAt(ys, t, j);
      ScaleInjective(xs[j].avgMagnitude, ys[j].avgMagnitude, xs[j].count as real);
      assert xs[j] == ys[j];
      assert xs[..k] == xs[..j] + [xs[j]] && ys[..k] == ys[..j] + [ys[j]];
    }
  }

  /** The segmentation is canonical: the tagged returns have exactly one, so it is the one by maximal runs. */
  lemma SegmentsUnique(xs: seq<Cluster>, ys: seq<Cluster>, t: Track, m: nat)
    requires t.Valid() && Segments(xs, t, m) && Segments(ys, t, m)
    ensures xs == ys
  {
    var k := Min(|xs|, |ys|);
    SegmentsAgree(xs, ys, t, m, k);
    CoveredMonotone(xs, t, m, k, |xs|);
    CoveredMonotone(ys, t, m, k, |ys|);
    assert xs[..|xs|] == xs && ys[..|ys|] == ys;
  }
}
