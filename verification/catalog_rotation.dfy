/** The round-robin tick that hands the symbol catalog to the sync scheduler in batches. */
module CatalogRotation {
  import opened JsNumbers

  /** The batch a tick hands over: from index, wrapping to the front at most once. */
  function Batch<T>(list: seq<T>, index: nat, batchSize: nat): (b: seq<T>)
    requires list != [] && batchSize > 0
  {
    var start := index % |list|;
    var wrapCount := Max(0, start + batchSize - |list|);
    var joined := list[start..Min(start + batchSize, |list|)] + list[..Min(wrapCount, |list|)];
    joined[..Min(batchSize, |joined|)]
  }

  /** Where the next tick starts reading. */
  function NextIndex(n: nat, index: nat, batchSize: nat): nat
    requires n > 0
  {
    index % n + batchSize
  }

  function IndexAfter(n: nat, index: nat, batchSize: nat, ticks: nat): nat
    requires n > 0
  {
    if ticks == 0 then index else NextIndex(n, IndexAfter(n, index, batchSize, ticks - 1), batchSize)
  }

  /** A batch is the cyclic run of the catalog from its start; only a batch longer than the catalog is cut short. */
  lemma BatchIsCyclicRun<T>(list: seq<T>, index: nat, batchSize: nat)
    requires list != [] && batchSize > 0
    ensures |Batch(list, index, batchSize)| == Min(batchSize, 2 * |list| - index % |list|)
    ensures forall o :: 0 <= o < |Batch(list, index, batchSize)| ==>
              Batch(list, index, batchSize)[o] ==
              list[if index % |list| + o < |list| then index % |list| + o else index % |list| + o - |list|]
  {
  }

  lemma ModAdd(x: nat, y: nat, n: nat)
    requires n > 0
    ensures (x % n + y) % n == (x + y) % n
  {
    var a, b, r := x / n, (x % n + y) / n, (x % n + y) % n;
    assert x + y == n * a + (n * b + r);
    assert n * a + n * b == n * (a + b);
    DivModUnique(x + y, n, a + b, r);
  }

  lemma WrapOnce(x: nat, n: nat)
    requires n > 0 && x < 2 * n
    ensures x % n == if x < n then x else x - n
  {
    DivModUnique(x, n, if x < n then 0 else 1, if x < n then x else x - n);
  }

  /** Ticks advance the start by one batch each, modulo the catalog's length. */
  lemma {:induction false} StartAfter(n: nat, index: nat, batchSize: nat, ticks: nat)
    requires n > 0
    ensures IndexAfter(n, index, batchSize, ticks) % n == (index + ticks * batchSize) % n
  {
    if ticks > 0 {
      var before := IndexAfter(n, index, batchSize, ticks - 1);
      StartAfter(n, index, batchSize, ticks - 1);
      ModAdd(before, batchSize, n);
      ModAdd(index + (ticks - 1) * batchSize, batchSize, n);
      assert index + (ticks - 1) * batchSize + batchSize == index + ticks * batchSize;
    }
  }

  /** ceil(n / batchSize). */
  function TicksForAll(n: nat, batchSize: nat): nat
    requires batchSize > 0
  {
    (n + batchSize - 1) / batchSize
  }

  lemma TickBound(n: nat, batchSize: nat, distance: nat)
    requires batchSize > 0 && distance < n
    ensures distance / batchSize < TicksForAll(n, batchSize)
  {
    var q, k := distance / batchSize, TicksForAll(n, batchSize);
    var r := (n + batchSize - 1) % batchSize;
    assert n + batchSize - 1 == batchSize * k + r;
    assert batchSize * q <= distance;
    assert batchSize * (k - q) >= n + batchSize - 1 - r - distance > 0;
  }

  lemma HandedAt<T>(list: seq<T>, at: nat, batchSize: nat, offset: nat, j: nat)
    requires batchSize > 0 && j < |list| && offset < batchSize && offset < |list|
    requires (at % |list| + offset) % |list| == j
    ensures list[j] in Batch(list, at, batchSize)
  {
    WrapOnce(at % |list| + offset, |list|);
    BatchIsCyclicRun(list, at, batchSize);
    assert Batch(list, at, batchSize)[offset] == list[j];
  }

  /** Steps forward from start to j around a catalog of n symbols. */
  function Distance(start: nat, j: nat, n: nat): (d: nat)
    requires start < n && j < n
    ensures d < n
  {
    if j >= start then j - start else j - start + n
  }

  lemma WalkLands(n: nat, index: nat, walked: nat, offset: nat, j: nat)
    requires j < n && walked + offset == Distance(index % n, j, n)
    ensures ((index + walked) % n + offset) % n == j
  {
    ModAdd(index + walked, offset, n);
    ModAdd(index, walked + offset, n);
    WrapOnce(index % n + walked + offset, n);
    assert index + walked + offset == index + (walked + offset);
  }

  lemma SplitDistance(distance: nat, batchSize: nat) returns (tick: nat, offset: nat)
    requires batchSize > 0
    ensures tick == distance / batchSize && offset < batchSize && offset <= distance
    ensures tick * batchSize + offset == distance
  {
    tick, offset := distance / batchSize, distance % batchSize;
    MultiplyAtLeastZero(tick, batchSize);
  }

  lemma MultiplyAtLeastZero(a: nat, b: nat)
    ensures a * b >= 0
  {
  }

  lemma ReachingTick(n: nat, index: nat, batchSize: nat, j: nat) returns (tick: nat, offset: nat)
    requires batchSize > 0 && j < n
    ensures tick < TicksForAll(n, batchSize) && offset < batchSize && offset < n
    ensures (IndexAfter(n, index, batchSize, tick) % n + offset) % n == j
  {
    var distance := Distance(index % n, j, n);
    TickBound(n, batchSize, distance);
    tick, offset := SplitDistance(distance, batchSize);
    StartAfter(n, index, batchSize, tick);
    WalkLands(n, index, tick * batchSize, offset, j);
  }

  /** The j-th symbol is in one of the next ceil(length / batch) batches. */
  ghost predicate HandedInRound<T>(list: seq<T>, index: nat, batchSize: nat, j: nat)
    requires batchSize > 0 && j < |list|
  {
    exists tick: nat :: tick < TicksForAll(|list|, batchSize) &&
                        list[j] in Batch(list, IndexAfter(|list|, index, batchSize, tick), batchSize)
  }

  /**
   Fairness: from any starting index, every symbol of the catalog is handed over within ceil(length / batch)
   consecutive ticks, across the wrap-around and for batches longer than the catalog.
   */
  lemma RoundHandsEverySymbol<T>(list: seq<T>, index: nat, batchSize: nat)
    requires batchSize > 0
    ensures forall j :: 0 <= j < |list| ==> HandedInRound(list, index, batchSize, j)
  {
    forall j | 0 <= j < |list|
      ensures HandedInRound(list, index, batchSize, j)
    {
      var tick, offset := ReachingTick(|list|, index, batchSize, j);
      HandedAt(list, IndexAfter(|list|, index, batchSize, tick), batchSize, offset, j);
    }
  }

  class CatalogSync<T> {
    const list: seq<T>
    const batchSize: nat
    var index: nat

    constructor (list: seq<T>, syncMax: int)
      requires list != []
      ensures this.list == list && batchSize == Max(1, syncMax) && index == 0
    {
      this.list := list;
      batchSize := Max(1, syncMax);
      index := 0;
    }

    /** One tick; the batch goes to the sync scheduler. */
    method Tick() returns (batch: seq<T>)
      requires list != [] && batchSize > 0
      modifies this
      ensures batch == Batch(list, old(index), batchSize) && batch != []
      ensures index == NextIndex(|list|, old(index), batchSize)
    {
      var start := index % |list|;
      var wrapCount := Max(0, start + batchSize - |list|);
      var joined := list[start..Min(start + batchSize, |list|)] + list[..Min(wrapCount, |list|)];
      batch := joined[..Min(batchSize, |joined|)];
      index := start + batchSize;
    }
  }
}
