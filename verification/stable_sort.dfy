/** Array.prototype.sort with a numeric comparator: ascending by rank, and stable. */
module StableSort {

  ghost predicate Ascending<T(!new)>(xs: seq<T>, rank: T -> real) {
    forall i, j :: 0 <= i < j < |xs| ==> rank(xs[i]) <= rank(xs[j])
  }

  /** The elements of one rank, in order of appearance. */
  function OfRank<T>(xs: seq<T>, rank: T -> real, v: real): seq<T> {
    if xs == [] then []
    else (if rank(xs[0]) == v then [xs[0]] else []) + OfRank(xs[1..], rank, v)
  }

  function Insert<T>(x: T, xs: seq<T>, rank: T -> real): (r: seq<T>)
    ensures multiset(r) == multiset{x} + multiset(xs)
    ensures |r| == |xs| + 1
  {
    if xs == [] || rank(x) <= rank(xs[0]) then [x] + xs
    else
      assert xs == [xs[0]] + xs[1..];
      [xs[0]] + Insert(x, xs[1..], rank)
  }

  function Sort<T>(xs: seq<T>, rank: T -> real): (r: seq<T>)
    ensures multiset(r) == multiset(xs)
    ensures |r| == |xs|
  {
    if xs == [] then []
    else
      assert xs == [xs[0]] + xs[1..];
      Insert(xs[0], Sort(xs[1..], rank), rank)
  }

  lemma {:induction false} InsertAscending<T(!new)>(x: T, xs: seq<T>, rank: T -> real)
    requires Ascending(xs, rank)
    ensures Ascending(Insert(x, xs, rank), rank)
  {
    if xs == [] || rank(x) <= rank(xs[0]) {
    } else {
      InsertAscending(x, xs[1..], rank);
      var tail := Insert(x, xs[1..], rank);
      forall j | 0 <= j < |tail|
        ensures rank(xs[0]) <= rank(tail[j])
      {
        assert tail[j] in multiset(tail);
        assert tail[j] == x || tail[j] in xs[1..];
      }
    }
  }

  lemma OfRankCons<T>(x: T, tail: seq<T>, rank: T -> real, v: real)
    ensures OfRank([x] + tail, rank, v) == (if rank(x) == v then [x] else []) + OfRank(tail, rank, v)
  {
    assert ([x] + tail)[1..] == tail;
  }

  lemma {:induction false} InsertStable<T(!new)>(x: T, xs: seq<T>, rank: T -> real, v: real)
    ensures OfRank(Insert(x, xs, rank), rank, v) == OfRank([x] + xs, rank, v)
  {
    if xs == [] || rank(x) <= rank(xs[0]) {
    } else {
      InsertStable(x, xs[1..], rank, v);
      OfRankCons(xs[0], Insert(x, xs[1..], rank), rank, v);
      OfRankCons(x, xs, rank, v);
      OfRankCons(x, xs[1..], rank, v);
    }
  }

  /** The result is ordered by rank, and elements of equal rank keep their order of appearance. */
  lemma {:induction false} SortCorrect<T(!new)>(xs: seq<T>, rank: T -> real)
    ensures Ascending(Sort(xs, rank), rank)
    ensures forall v :: OfRank(Sort(xs, rank), rank, v) == OfRank(xs, rank, v)
  {
    if xs != [] {
      SortCorrect(xs[1..], rank);
      var tail := Sort(xs[1..], rank);
      InsertAscending(xs[0], tail, rank);
      forall v
        ensures OfRank(Sort(xs, rank), rank, v) == OfRank(xs, rank, v)
      {
        InsertStable(xs[0], tail, rank, v);
        OfRankCons(xs[0], tail, rank, v);
      }
    }
  }

  ghost predicate EarliestLeast<T(!new)>(xs: seq<T>, rank: T -> real, i: nat) {
    && i < |xs|
    && (forall j :: 0 <= j < i ==> rank(xs[i]) < rank(xs[j]))
    && (forall j :: i < j < |xs| ==> rank(xs[i]) <= rank(xs[j]))
  }

  lemma ConsEarliest<T(!new)>(x: T, tail: seq<T>, rank: T -> real, k: nat)
    requires EarliestLeast(tail, rank, k)
    ensures EarliestLeast([x] + tail, rank, if rank(x) <= rank(tail[k]) then 0 else k + 1)
  {
  }

  /** The first of the result is the earliest element of least rank. */
  lemma {:induction false} SortFirst<T(!new)>(xs: seq<T>, rank: T -> real) returns (i: nat)
    requires xs != []
    ensures EarliestLeast(xs, rank, i) && Sort(xs, rank)[0] == xs[i]
  {
    var tail := xs[1..];
    assert xs == [xs[0]] + tail;
    if tail == [] {
      i := 0;
    } else {
      var k := SortFirst(tail, rank);
      i := if rank(xs[0]) <= rank(tail[k]) then 0 else k + 1;
      ConsEarliest(xs[0], tail, rank, k);
    }
  }

  /** By rank, and among equal ranks by the tie order. */
  ghost predicate InOrder<T>(x: T, y: T, rank: T -> real, tie: (T, T) -> bool) {
    rank(x) < rank(y) || (rank(x) == rank(y) && tie(x, y))
  }

  ghost predicate AllInOrder<T(!new)>(xs: seq<T>, rank: T -> real, tie: (T, T) -> bool) {
    forall i, j :: 0 <= i < j < |xs| ==> InOrder(xs[i], xs[j], rank, tie)
  }

  lemma {:induction false} InsertInOrder<T(!new)>(x: T, xs: seq<T>, rank: T -> real, tie: (T, T) -> bool)
    requires AllInOrder(xs, rank, tie) && forall y :: y in xs ==> tie(x, y)
    ensures AllInOrder(Insert(x, xs, rank), rank, tie)
  {
    if xs == [] || rank(x) <= rank(xs[0]) {
      assert forall j :: 0 <= j < |xs| ==> xs[j] in xs && (j > 0 ==> rank(xs[0]) <= rank(xs[j]));
    } else {
      InsertInOrder(x, xs[1..], rank, tie);
      var tail := Insert(x, xs[1..], rank);
      forall j | 0 <= j < |tail|
        ensures InOrder(xs[0], tail[j], rank, tie)
      {
        assert tail[j] in multiset(tail);
        assert tail[j] == x || tail[j] in xs[1..];
      }
    }
  }

  /** Elements listed in a tie order stay in it among equal ranks. */
  lemma {:induction false} SortInOrder<T(!new)>(xs: seq<T>, rank: T -> real, tie: (T, T) -> bool)
    requires forall i, j :: 0 <= i < j < |xs| ==> tie(xs[i], xs[j])
    ensures AllInOrder(Sort(xs, rank), rank, tie)
  {
    if xs != [] {
      SortInOrder(xs[1..], rank, tie);
      var tail := Sort(xs[1..], rank);
      forall y | y in tail
        ensures tie(xs[0], y)
      {
        assert y in multiset(tail);
        assert y in xs[1..];
      }
      InsertInOrder(xs[0], tail, rank, tie);
    }
  }
}
