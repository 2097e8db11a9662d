/**
 The dashboard's capped, newest-wins merge of signal lists: what a merged list holds, and exactly when truncating
 after every batch leaves the final list unchanged.
 */
module SignalMerge {
  import opened Options
  import opened JsNumbers
  import opened StableSort

  /** stamp is the resolved sort timestamp; an empty string is a missing key. */
  datatype Signal = Signal(mergeKey: string, id: string, stamp: real, body: int)

  const MAX_CANDIDATE_ITEMS: nat := 200

  function Key(s: Signal): string {
    if s.mergeKey != "" then s.mergeKey else s.id
  }

  /** Ascending in this rank is newest first. */
  function Age(s: Signal): real {
    -s.stamp
  }

  function Limit(maxItems: int): nat {
    Max(1, if maxItems == 0 then MAX_CANDIDATE_ITEMS else maxItems)
  }

  function Present(entries: seq<Option<Signal>>): seq<Signal> {
    if entries == [] then []
    else (if entries[0].Some? then [entries[0].value] else []) + Present(entries[1..])
  }

  // ---- What the Map holds after the loop ----

  /** The distinct keys, in order of first appearance: a Map's iteration order. */
  function KeyOrder(items: seq<Signal>): seq<string> {
    if items == [] then []
    else
      var n := |items| - 1;
      var before, k := KeyOrder(items[..n]), Key(items[n]);
      if k == "" || k in before then before else before + [k]
  }

  /** The item kept for a key: the newest, and of equally new ones the last. */
  function Winner(items: seq<Signal>, k: string): Option<Signal> {
    if items == [] then None
    else
      var n := |items| - 1;
      var before, x := Winner(items[..n], k), items[n];
      if Key(x) == k && (before.None? || x.stamp >= before.value.stamp) then Some(x) else before
  }

  lemma {:induction false} KeyOrderCorrect(items: seq<Signal>)
    ensures forall k :: k in KeyOrder(items) <==> k != "" && exists s :: s in items && Key(s) == k
    ensures forall i, j :: 0 <= i < j < |KeyOrder(items)| ==> KeyOrder(items)[i] != KeyOrder(items)[j]
  {
    if items != [] {
      var n := |items| - 1;
      assert items == items[..n] + [items[n]];
      KeyOrderCorrect(items[..n]);
    }
  }

  lemma {:induction false} WinnerCorrect(items: seq<Signal>, k: string)
    ensures var w := Winner(items, k);
      && (w.None? <==> forall s :: s in items ==> Key(s) != k)
      && (w.Some? ==> w.value in items && Key(w.value) == k && forall s :: s in items && Key(s) == k ==> s.stamp <= w.value.stamp)
  {
    if items != [] {
      var n := |items| - 1;
      assert items == items[..n] + [items[n]];
      WinnerCorrect(items[..n], k);
    }
  }

  /** Ties go to the later item: nothing after the winner's place is as new. */
  lemma {:induction false} WinnerIsLastNewest(items: seq<Signal>, k: string) returns (i: nat)
    requires Winner(items, k).Some?
    ensures i < |items| && items[i] == Winner(items, k).value
    ensures forall j :: i < j < |items| && Key(items[j]) == k ==> items[j].stamp < items[i].stamp
  {
    var n := |items| - 1;
    if Winner(items, k) == Some(items[n]) {
      i := n;
    } else {
      i := WinnerIsLastNewest(items[..n], k);
    }
  }

  const NO_SIGNAL := Signal("", "", 0.0, 0)

  function Kept(items: seq<Signal>, k: string): Signal {
    Winner(items, k).GetOr(NO_SIGNAL)
  }

  function NewestPerKey(items: seq<Signal>): (r: seq<Signal>)
    ensures |r| == |KeyOrder(items)|
  {
    var order := KeyOrder(items);
    seq(|order|, i requires 0 <= i < |order| => Kept(items, order[i]))
  }

  lemma KeyHasWinner(items: seq<Signal>, k: string)
    requires k in KeyOrder(items)
    ensures Winner(items, k) == Some(Kept(items, k)) && Kept(items, k) in items && Key(Kept(items, k)) == k
    ensures forall s :: s in items && Key(s) == k ==> s.stamp <= Kept(items, k).stamp
  {
    KeyOrderCorrect(items);
    WinnerCorrect(items, k);
  }

  /** Newest item per key, newest first, equally new ones in order of their key's first appearance, capped. */
  function Merge(items: seq<Signal>, limit: nat): seq<Signal> {
    Take(Sort(NewestPerKey(items), Age), limit)
  }

  function Take(xs: seq<Signal>, limit: nat): seq<Signal> {
    if |xs| <= limit then xs else xs[..limit]
  }

  /** The Map's contents after the given items. */
  ghost function Table(items: seq<Signal>): map<string, Signal> {
    map k | k in KeyOrder(items) :: Kept(items, k)
  }

  lemma Snoc(xs: seq<Signal>, x: Signal, k: string)
    ensures KeyOrder(xs + [x]) ==
            if Key(x) == "" || Key(x) in KeyOrder(xs) then KeyOrder(xs) else KeyOrder(xs) + [Key(x)]
    ensures Winner(xs + [x], k) ==
            var before := Winner(xs, k);
            if Key(x) == k && (before.None? || x.stamp >= before.value.stamp) then Some(x) else before
  {
    assert (xs + [x])[..|xs + [x]| - 1] == xs;
  }

  lemma TableKeys(xs: seq<Signal>, x: Signal)
    ensures Table(xs + [x]).Keys == Table(xs).Keys + (if Key(x) == "" then {} else {Key(x)})
  {
    Snoc(xs, x, "");
  }

  lemma TableOther(xs: seq<Signal>, x: Signal, k: string)
    requires k in KeyOrder(xs) && k != Key(x)
    ensures k in Table(xs + [x]) && Table(xs + [x])[k] == Table(xs)[k]
  {
    Snoc(xs, x, k);
  }

  lemma TableSame(xs: seq<Signal>, x: Signal)
    requires Key(x) != ""
    ensures var key, before := Key(x), Table(xs);
      && key in Table(xs + [x])
      && Table(xs + [x])[key] == if key in before && x.stamp < before[key].stamp then before[key] else x
  {
    var key := Key(x);
    Snoc(xs, x, key);
    KeyOrderCorrect(xs);
    WinnerCorrect(xs, key);
  }

  lemma TableSnoc(xs: seq<Signal>, x: Signal)
    ensures Table(xs + [x]) ==
            var key, before := Key(x), Table(xs);
            if key == "" || (key in before && x.stamp < before[key].stamp) then before else before[key := x]
  {
    var after, before, key := Table(xs + [x]), Table(xs), Key(x);
    TableKeys(xs, x);
    KeyOrderCorrect(xs);
    if key != "" {
      TableSame(xs, x);
    }
    forall k | k in before && k != key
      ensures after[k] == before[k]
    {
      TableOther(xs, x, k);
    }
  }

  /** What one more item does to the Map's keys and entries. */
  lemma OneMoreItem(items: seq<Signal>, i: nat)
    requires i < |items|
    ensures var x, before, order := items[i], Table(items[..i]), KeyOrder(items[..i]);
      && KeyOrder(items[..i + 1]) == (if Key(x) == "" || Key(x) in order then order else order + [Key(x)])
      && Table(items[..i + 1]) ==
         (if Key(x) == "" || (Key(x) in before && x.stamp < before[Key(x)].stamp) then before else before[Key(x) := x])
  {
    assert items[..i + 1] == items[..i] + [items[i]];
    TableSnoc(items[..i], items[i]);
    Snoc(items[..i], items[i], "");
  }

  /** Array.from(byKey.values()). */
  function Values(order: seq<string>, byKey: map<string, Signal>): (r: seq<Signal>)
    ensures |r| == |order|
  {
    seq(|order|, i requires 0 <= i < |order| => if order[i] in byKey then byKey[order[i]] else NO_SIGNAL)
  }

  lemma ValuesAreNewest(items: seq<Signal>)
    ensures Values(KeyOrder(items), Table(items)) == NewestPerKey(items)
  {
    var order := KeyOrder(items);
    assert forall i :: 0 <= i < |order| ==> order[i] in order;
  }

  /** mergeSignalLists. */
  method MergeSignalLists(incoming: seq<Option<Signal>>, current: seq<Option<Signal>>, maxItems: int)
      returns (r: seq<Signal>)
    ensures r == Merge(Present(incoming) + Present(current), Limit(maxItems))
    ensures NewestListed(incoming, current, r)
    ensures CapFilled(incoming, current, if maxItems == 0 then 200 else if maxItems < 0 then 1 else maxItems, r)
  {
    var merged := Present(incoming) + Present(current);
    var order: seq<string> := [];
    var byKey: map<string, Signal> := map[];
    for i := 0 to |merged|
      invariant order == KeyOrder(merged[..i]) && byKey == Table(merged[..i])
    {
      var item := merged[i];
      OneMoreItem(merged, i);
      var key := Key(item);
      if key == "" {
        continue;
      }
      if key !in byKey {
        byKey := byKey[key := item];
        order := order + [key];
        continue;
      }
      var existing := byKey[key];
      if item.stamp >= existing.stamp {
        byKey := byKey[key := item];
      }
    }
    assert merged[..|merged|] == merged;
    ValuesAreNewest(merged);
    r := Take(Sort(Values(order, byKey), Age), Limit(maxItems));
    MergedNewest(incoming, current, Limit(maxItems));
    MergedFills(incoming, current, Limit(maxItems));
  }

  // ---- What the merged list is, independently of the algorithm ----

  ghost function Keyed(items: seq<Signal>): set<Signal> {
    set s | s in items && Key(s) != ""
  }

  /** Where a key first appears; the number of items when it does not. */
  function FirstAt(items: seq<Signal>, k: string): (i: nat)
    ensures i <= |items|
  {
    if items == [] || Key(items[0]) == k then 0 else 1 + FirstAt(items[1..], k)
  }

  lemma {:induction false} FirstAtHits(items: seq<Signal>, k: string)
    ensures forall j :: 0 <= j < FirstAt(items, k) ==> Key(items[j]) != k
    ensures FirstAt(items, k) < |items| ==> Key(items[FirstAt(items, k)]) == k
    ensures FirstAt(items, k) < |items| <==> exists s :: s in items && Key(s) == k
  {
    if items == [] || Key(items[0]) == k {
      assert items != [] ==> items[0] in items;
    } else {
      FirstAtHits(items[1..], k);
      assert forall s :: s in items <==> s == items[0] || s in items[1..];
    }
  }

  lemma {:induction false} FirstAtConcat(xs: seq<Signal>, ys: seq<Signal>, k: string)
    ensures FirstAt(xs + ys, k) == if FirstAt(xs, k) < |xs| then FirstAt(xs, k) else |xs| + FirstAt(ys, k)
  {
    if xs == [] {
      assert xs + ys == ys;
    } else {
      assert (xs + ys)[1..] == xs[1..] + ys;
      FirstAtConcat(xs[1..], ys, k);
    }
  }

  /** The Map lists its keys by first appearance. */
  lemma {:induction false} KeysByFirst(items: seq<Signal>)
    ensures forall i, j :: 0 <= i < j < |KeyOrder(items)| ==> FirstAt(items, KeyOrder(items)[i]) < FirstAt(items, KeyOrder(items)[j])
  {
    if items != [] {
      var n := |items| - 1;
      var front, last := items[..n], items[n];
      assert items == front + [last];
      KeysByFirst(front);
      KeyOrderCorrect(front);
      var before := KeyOrder(front);
      forall k | k in before || k == Key(last)
        ensures FirstAt(items, k) == if k in before then FirstAt(front, k) else FirstAt(items, k)
        ensures k in before ==> FirstAt(items, k) < n
      {
        FirstAtHits(front, k);
        FirstAtConcat(front, [last], k);
      }
      if Key(last) != "" && Key(last) !in before {
        FirstAtHits(front, Key(last));
        FirstAtConcat(front, [last], Key(last));
      }
      assert forall i :: 0 <= i < |before| ==> before[i] in before;
    }
  }

  ghost predicate IsWinner(items: seq<Signal>, x: Signal) {
    Key(x) != "" && Winner(items, Key(x)) == Some(x)
  }

  /** x is newer than y, or equally new with a key that appears first. */
  ghost predicate Leads(items: seq<Signal>, x: Signal, y: Signal) {
    x.stamp > y.stamp || (x.stamp == y.stamp && FirstAt(items, Key(x)) < FirstAt(items, Key(y)))
  }

  function Ranked(items: seq<Signal>): seq<Signal> {
    Sort(NewestPerKey(items), Age)
  }

  function Earlier(items: seq<Signal>): (Signal, Signal) -> bool {
    (x: Signal, y: Signal) => FirstAt(items, Key(x)) < FirstAt(items, Key(y))
  }

  lemma RankedOrder(items: seq<Signal>)
    ensures forall i, j :: 0 <= i < j < |Ranked(items)| ==> Leads(items, Ranked(items)[i], Ranked(items)[j])
  {
    var order, vs := KeyOrder(items), NewestPerKey(items);
    KeysByFirst(items);
    forall i | 0 <= i < |vs|
      ensures Key(vs[i]) == order[i]
    {
      assert order[i] in order;
      KeyHasWinner(items, order[i]);
    }
    SortInOrder(vs, Age, Earlier(items));
  }

  lemma RankedDistinct(items: seq<Signal>)
    ensures forall i, j :: 0 <= i < j < |Ranked(items)| ==> Ranked(items)[i] != Ranked(items)[j]
  {
    RankedOrder(items);
    forall i, j | 0 <= i < j < |Ranked(items)|
      ensures Ranked(items)[i] != Ranked(items)[j]
    {
      assert Leads(items, Ranked(items)[i], Ranked(items)[j]);
    }
  }

  lemma RankedElements(items: seq<Signal>, x: Signal)
    ensures x in Ranked(items) <==> IsWinner(items, x)
  {
    var order, vs := KeyOrder(items), NewestPerKey(items);
    KeyOrderCorrect(items);
    assert x in Ranked(items) <==> x in multiset(Ranked(items));
    assert x in vs <==> x in multiset(vs);
    if x in vs {
      var i :| 0 <= i < |vs| && vs[i] == x;
      assert order[i] in order;
      KeyHasWinner(items, order[i]);
    }
    if IsWinner(items, x) {
      WinnerCorrect(items, Key(x));
      assert Key(x) in order;
      var i :| 0 <= i < |order| && order[i] == Key(x);
      assert vs[i] == x;
    }
  }

  /** The winners that lead x. */
  ghost function Leaders(items: seq<Signal>, x: Signal): set<Signal> {
    set y | y in items && IsWinner(items, y) && Leads(items, y, x)
  }

  ghost function Elements(xs: seq<Signal>): set<Signal> {
    set x | x in xs
  }

  lemma {:induction false} ElementsSize(xs: seq<Signal>)
    requires forall i, j :: 0 <= i < j < |xs| ==> xs[i] != xs[j]
    ensures |Elements(xs)| == |xs|
  {
    if xs != [] {
      var n := |xs| - 1;
      ElementsSize(xs[..n]);
      assert xs == xs[..n] + [xs[n]];
      assert Elements(xs) == Elements(xs[..n]) + {xs[n]};
    }
  }

  /** An item's place in the ranking is the number of winners that lead it. */
  lemma PlaceIsLeaders(items: seq<Signal>, i: nat)
    requires i < |Ranked(items)|
    ensures |Leaders(items, Ranked(items)[i])| == i
  {
    var r := Ranked(items);
    RankedOrder(items);
    forall y
      ensures y in Leaders(items, r[i]) <==> y in r[..i]
    {
      RankedElements(items, y);
      if y in Leaders(items, r[i]) {
        var j :| 0 <= j < |r| && r[j] == y;
        assert r[..i][j] == y;
      }
      if y in r[..i] {
        var j :| 0 <= j < i && r[j] == y;
        WinnerCorrect(items, Key(y));
      }
    }
    assert Leaders(items, r[i]) == Elements(r[..i]);
    forall a, b | 0 <= a < b < i
      ensures r[..i][a] != r[..i][b]
    {
      assert Leads(items, r[a], r[b]);
    }
    ElementsSize(r[..i]);
  }

  /**
   The merged list, on any items: the newest item of each key, the last of equally new ones, led by fewer than
   limit others; and each item leads those after it.
   */
  lemma MergeIsTop(items: seq<Signal>, limit: nat)
    ensures forall i, j :: 0 <= i < j < |Merge(items, limit)| ==> Leads(items, Merge(items, limit)[i], Merge(items, limit)[j])
    ensures forall x :: x in Merge(items, limit) <==> IsWinner(items, x) && |Leaders(items, x)| < limit
  {
    var r, m := Ranked(items), Merge(items, limit);
    RankedOrder(items);
    forall x
      ensures x in m <==> IsWinner(items, x) && |Leaders(items, x)| < limit
    {
      RankedElements(items, x);
      if x in r {
        var i :| 0 <= i < |r| && r[i] == x;
        PlaceIsLeaders(items, i);
        RankedDistinct(items);
        assert forall t :: 0 <= t < |m| ==> m[t] == r[t];
        assert i < limit ==> m[i] == x;
      }
    }
  }

  // ---- The merged list in terms of the two key fields ----

  /** x is filed under k: its mergeKey, or, when it has none, its id. */
  predicate FiledUnder(x: Signal, k: string) {
    k != "" && (x.mergeKey == k || (x.mergeKey == "" && x.id == k))
  }

  predicate Sent(incoming: seq<Option<Signal>>, current: seq<Option<Signal>>, x: Signal) {
    Some(x) in incoming || Some(x) in current
  }

  /** Only a newest of what was sent under its key is listed, newest first, and no two under one key. */
  ghost predicate NewestListed(incoming: seq<Option<Signal>>, current: seq<Option<Signal>>, r: seq<Signal>) {
    && (forall x :: x in r ==> Sent(incoming, current, x) && FiledUnder(x, if x.mergeKey != "" then x.mergeKey else x.id))
    && (forall x, y, k :: x in r && FiledUnder(x, k) && Sent(incoming, current, y) && FiledUnder(y, k) ==> y.stamp <= x.stamp)
    && (forall i, j :: 0 <= i < j < |r| ==> r[i].stamp >= r[j].stamp && forall k :: !(FiledUnder(r[i], k) && FiledUnder(r[j], k)))
  }

  /** Short of the cap every key sent is listed; at the cap what is missing is no newer than what is listed. */
  ghost predicate CapFilled(incoming: seq<Option<Signal>>, current: seq<Option<Signal>>, cap: nat, r: seq<Signal>) {
    && |r| <= cap
    && forall y, k :: Sent(incoming, current, y) && FiledUnder(y, k) ==>
         (exists x :: x in r && FiledUnder(x, k)) || (|r| == cap && forall x :: x in r ==> x.stamp >= y.stamp)
  }

  lemma {:induction false} PresentElements(entries: seq<Option<Signal>>, x: Signal)
    ensures x in Present(entries) <==> Some(x) in entries
  {
    if entries != [] {
      PresentElements(entries[1..], x);
      assert entries == [entries[0]] + entries[1..];
    }
  }

  lemma SentElements(incoming: seq<Option<Signal>>, current: seq<Option<Signal>>, x: Signal)
    ensures x in Present(incoming) + Present(current) <==> Sent(incoming, current, x)
  {
    PresentElements(incoming, x);
    PresentElements(current, x);
  }

  lemma FiledUnderKey(x: Signal, k: string)
    ensures FiledUnder(x, k) <==> k != "" && Key(x) == k
  {
  }

  lemma MergedNewest(incoming: seq<Option<Signal>>, current: seq<Option<Signal>>, limit: nat)
    ensures NewestListed(incoming, current, Merge(Present(incoming) + Present(current), limit))
  {
    var items := Present(incoming) + Present(current);
    var r := Merge(items, limit);
    MergeIsTop(items, limit);
    forall x | x in r
      ensures Sent(incoming, current, x) && FiledUnder(x, if x.mergeKey != "" then x.mergeKey else x.id)
    {
      WinnerCorrect(items, Key(x));
      SentElements(incoming, current, x);
    }
    forall x, y, k | x in r && FiledUnder(x, k) && Sent(incoming, current, y) && FiledUnder(y, k)
      ensures y.stamp <= x.stamp
    {
      FiledUnderKey(x, k);
      FiledUnderKey(y, k);
      SentElements(incoming, current, y);
      WinnerCorrect(items, k);
    }
    forall i, j | 0 <= i < j < |r|
      ensures r[i].stamp >= r[j].stamp && forall k :: !(FiledUnder(r[i], k) && FiledUnder(r[j], k))
    {
      MergedLeads(items, limit, i, j);
      MergedKeysDistinct(items, limit, i, j);
    }
  }

  lemma MergedFills(incoming: seq<Option<Signal>>, current: seq<Option<Signal>>, limit: nat)
    ensures CapFilled(incoming, current, limit, Merge(Present(incoming) + Present(current), limit))
  {
    var items := Present(incoming) + Present(current);
    var r := Merge(items, limit);
    forall y, k | Sent(incoming, current, y) && FiledUnder(y, k)
      ensures (exists x :: x in r && FiledUnder(x, k)) || (|r| == limit && forall x :: x in r ==> x.stamp >= y.stamp)
    {
      SentElements(incoming, current, y);
      WinnerCorrect(items, k);
      var w := Winner(items, k).value;
      if w in r {
        FiledUnderKey(w, k);
      } else {
        CutOff(items, limit, w);
        KeysOfSize(r);
      }
    }
  }

  /** Of equally new items of one key, one of the current list is kept if there is one. */
  lemma CurrentWinsTies(incoming: seq<Option<Signal>>, current: seq<Option<Signal>>, limit: nat, x: Signal, y: Signal, k: string)
    requires x in Merge(Present(incoming) + Present(current), limit) && FiledUnder(x, k)
    requires Some(y) in current && FiledUnder(y, k) && y.stamp == x.stamp
    ensures Some(x) in current
  {
    var a, b := Present(incoming), Present(current);
    MergeIsTop(a + b, limit);
    WinnerConcat(a, b, k);
    WinnerCorrect(a + b, k);
    WinnerCorrect(b, k);
    WinnerCorrect(a, k);
    PresentElements(current, y);
    PresentElements(current, x);
  }

  /** at gives the places of the entries with a signal, in order. */
  ghost predicate Places(entries: seq<Option<Signal>>, items: seq<Signal>, at: seq<nat>) {
    && |at| == |items|
    && (forall k :: 0 <= k < |at| ==> at[k] < |entries| && entries[at[k]] == Some(items[k]))
    && (forall j, k :: 0 <= j < k < |at| ==> at[j] < at[k])
    && (forall i :: 0 <= i < |entries| && entries[i].Some? ==> i in at)
  }

  lemma {:induction false} PresentConcat(a: seq<Option<Signal>>, b: seq<Option<Signal>>)
    ensures Present(a + b) == Present(a) + Present(b)
  {
    if a == [] {
      assert a + b == b;
    } else {
      var first := if a[0].Some? then [a[0].value] else [];
      assert (a + b)[0] == a[0] && (a + b)[1..] == a[1..] + b;
      PresentConcat(a[1..], b);
      assert first + Present(a[1..]) + Present(b) == first + (Present(a[1..]) + Present(b));
    }
  }

  lemma {:induction false} PresentInOrder(entries: seq<Option<Signal>>) returns (at: seq<nat>)
    ensures Places(entries, Present(entries), at)
  {
    at := [];
    if entries != [] {
      var n := |entries| - 1;
      var before, last := entries[..n], entries[n];
      at := PresentInOrder(before);
      assert entries == before + [last] && [last][1..] == [];
      PresentConcat(before, [last]);
      OneMorePlace(before, last, Present(before), at);
      assert Present([last]) == if last.Some? then [last.value] else [];
      at := if last.Some? then at + [n] else at;
    }
  }

  lemma OneMorePlace(entries: seq<Option<Signal>>, last: Option<Signal>, items: seq<Signal>, at: seq<nat>)
    requires Places(entries, items, at)
    ensures last.Some? ==> Places(entries + [last], items + [last.value], at + [|entries|])
    ensures last.None? ==> Places(entries + [last], items, at)
  {
  }

  lemma LastPlaced(entries: seq<Option<Signal>>, items: seq<Signal>, at: seq<nat>, w: nat, k: string)
    requires Places(entries, items, at) && w < |items|
    requires forall j :: w < j < |items| && Key(items[j]) == k ==> items[j].stamp < items[w].stamp
    ensures forall j :: at[w] < j < |entries| && entries[j].Some? && FiledUnder(entries[j].value, k) ==>
                        entries[j].value.stamp < items[w].stamp
  {
    forall j | at[w] < j < |entries| && entries[j].Some? && FiledUnder(entries[j].value, k)
      ensures entries[j].value.stamp < items[w].stamp
    {
      var m :| 0 <= m < |at| && at[m] == j;
      assert w < m && entries[at[m]] == Some(items[m]);
    }
  }

  /** What is listed is the last of the newest sent under its key: all sent after it under that key are older. */
  lemma LastNewestListed(incoming: seq<Option<Signal>>, current: seq<Option<Signal>>, limit: nat, x: Signal, k: string)
      returns (i: nat)
    requires x in Merge(Present(incoming) + Present(current), limit) && FiledUnder(x, k)
    ensures var sent := incoming + current;
      && i < |sent| && sent[i] == Some(x)
      && forall j :: i < j < |sent| && sent[j].Some? && FiledUnder(sent[j].value, k) ==> sent[j].value.stamp < x.stamp
  {
    var items := Present(incoming + current);
    PresentConcat(incoming, current);
    assert Winner(items, k) == Some(x) by {
      MergeIsTop(items, limit);
    }
    var at := PresentInOrder(incoming + current);
    var w := WinnerIsLastNewest(items, k);
    LastPlaced(incoming + current, items, at, w, k);
    i := at[w];
  }

  lemma NonePlaced(entries: seq<Option<Signal>>, items: seq<Signal>, at: seq<nat>, p: nat, k: string)
    requires Places(entries, items, at) && p < |items| && p < FirstAt(items, k)
    ensures forall j :: 0 <= j <= at[p] && entries[j].Some? ==> !FiledUnder(entries[j].value, k)
  {
    FirstAtHits(items, k);
    forall j | 0 <= j <= at[p] && entries[j].Some?
      ensures !FiledUnder(entries[j].value, k)
    {
      var m :| 0 <= m < |at| && at[m] == j;
      assert m <= p && entries[at[m]] == Some(items[m]);
    }
  }

  lemma TiedPlaces(items: seq<Signal>, limit: nat, a: nat, b: nat)
    requires a < b < |Merge(items, limit)| && Merge(items, limit)[a].stamp == Merge(items, limit)[b].stamp
    ensures var x, y := Merge(items, limit)[a], Merge(items, limit)[b];
      && FirstAt(items, Key(x)) < FirstAt(items, Key(y)) && Key(x) != ""
      && FirstAt(items, Key(x)) < |items| && Key(items[FirstAt(items, Key(x))]) == Key(x)
  {
    MergeIsTop(items, limit);
    var x := Merge(items, limit)[a];
    assert x in Merge(items, limit) && Leads(items, x, Merge(items, limit)[b]);
    WinnerCorrect(items, Key(x));
    FirstAtHits(items, Key(x));
  }

  /** Of equally new signals listed, the key that was sent first comes first. */
  lemma TiesInOrder(incoming: seq<Option<Signal>>, current: seq<Option<Signal>>, limit: nat, a: nat, b: nat, k: string) returns (i: nat)
    requires var r := Merge(Present(incoming) + Present(current), limit);
      a < b < |r| && r[a].stamp == r[b].stamp && FiledUnder(r[b], k)
    ensures var sent, r := incoming + current, Merge(Present(incoming) + Present(current), limit);
      && i < |sent| && sent[i].Some? && FiledUnder(sent[i].value, if r[a].mergeKey != "" then r[a].mergeKey else r[a].id)
      && forall j :: 0 <= j <= i && sent[j].Some? ==> !FiledUnder(sent[j].value, k)
  {
    var items := Present(incoming + current);
    PresentConcat(incoming, current);
    var x := Merge(items, limit)[a];
    TiedPlaces(items, limit, a, b);
    var at := PresentInOrder(incoming + current);
    var p := FirstAt(items, Key(x));
    NonePlaced(incoming + current, items, at, p, k);
    FiledUnderKey(items[p], Key(x));
    i := at[p];
  }

  // ---- When two lists merge alike ----

  ghost function KeysOf(xs: seq<Signal>): set<string> {
    set x | x in xs :: Key(x)
  }

  lemma {:induction false} KeysOfSize(xs: seq<Signal>)
    ensures |KeysOf(xs)| <= |xs|
    ensures (forall i, j :: 0 <= i < j < |xs| ==> Key(xs[i]) != Key(xs[j])) ==> |KeysOf(xs)| == |xs|
  {
    if xs != [] {
      var n := |xs| - 1;
      KeysOfSize(xs[..n]);
      assert xs == xs[..n] + [xs[n]];
      assert KeysOf(xs) == KeysOf(xs[..n]) + {Key(xs[n])};
    }
  }

  lemma SubsetSize<T>(a: set<T>, b: set<T>)
    requires a <= b
    ensures |a| <= |b|
  {
    assert b == a + (b - a);
  }

  /** The winners of at least limit keys lead x. */
  ghost predicate Crowded(items: seq<Signal>, x: Signal, keys: set<string>, limit: nat) {
    && |keys| >= limit
    && forall k :: k in keys ==> k != "" && Winner(items, k).Some? && Leads(items, Winner(items, k).value, x)
  }

  /** Nothing crowded out stands in the first limit places. */
  lemma CrowdedPlace(items: seq<Signal>, i: nat, keys: set<string>, limit: nat)
    requires i < |Ranked(items)| && Crowded(items, Ranked(items)[i], keys, limit)
    ensures i >= limit
  {
    var r := Ranked(items);
    RankedOrder(items);
    forall k | k in keys
      ensures k in KeysOf(r[..i])
    {
      var y := Winner(items, k).value;
      WinnerCorrect(items, k);
      RankedElements(items, y);
      var j :| 0 <= j < |r| && r[j] == y;
      assert j < i;
      assert r[..i][j] == y;
    }
    SubsetSize(keys, KeysOf(r[..i]));
    KeysOfSize(r[..i]);
  }

  /** What only one of the lists ranks is crowded out of it, by the given keys. */
  ghost predicate OthersCrowded(p: seq<Signal>, q: seq<Signal>, keys: set<string>, limit: nat) {
    forall x :: IsWinner(p, x) && !IsWinner(q, x) ==> Crowded(p, x, keys, limit)
  }

  /** The lists break ties between common winners alike. */
  ghost predicate SameTies(p: seq<Signal>, q: seq<Signal>) {
    forall x, y :: IsWinner(p, x) && IsWinner(q, x) && IsWinner(p, y) && IsWinner(q, y) && x.stamp == y.stamp && Leads(p, x, y)
      ==> Leads(q, x, y)
  }

  /** The item at a place below the limit, when the places before it agree, is a common winner further on in the other list. */
  lemma CommonNext(p: seq<Signal>, q: seq<Signal>, keys: set<string>, limit: nat, i: nat) returns (j: nat)
    requires OthersCrowded(p, q, keys, limit) && i < limit && i < |Ranked(p)|
    requires i <= |Ranked(q)| && Ranked(p)[..i] == Ranked(q)[..i]
    ensures i <= j < |Ranked(q)| && Ranked(q)[j] == Ranked(p)[i] && IsWinner(p, Ranked(p)[i]) && IsWinner(q, Ranked(p)[i])
  {
    var r, r' := Ranked(p), Ranked(q);
    var x := r[i];
    RankedElements(p, x);
    RankedElements(q, x);
    if !IsWinner(q, x) {
      CrowdedPlace(p, i, keys, limit);
      assert false;
    }
    j :| 0 <= j < |r'| && r'[j] == x;
    RankedDistinct(p);
    forall t | 0 <= t < i
      ensures r'[t] != x
    {
      assert r[t] == r[..i][t] && r'[t] == r'[..i][t];
    }
  }

  lemma NextAgrees(p: seq<Signal>, q: seq<Signal>, keys: set<string>, limit: nat, n: nat)
    requires OthersCrowded(p, q, keys, limit) && OthersCrowded(q, p, keys, limit) && SameTies(p, q)
    requires n < limit && n < |Ranked(p)| && n <= |Ranked(q)| && Ranked(p)[..n] == Ranked(q)[..n]
    ensures n < |Ranked(q)| && Ranked(p)[n] == Ranked(q)[n]
  {
    var r, r' := Ranked(p), Ranked(q);
    var j := CommonNext(p, q, keys, limit, n);
    var k := CommonNext(q, p, keys, limit, n);
    RankedOrder(p);
    RankedOrder(q);
    assert k > n ==> Leads(p, r[n], r[k]);
    assert j > n ==> Leads(q, r'[n], r'[j]);
  }

  lemma TakeNext(r: seq<Signal>, r': seq<Signal>, n: nat)
    requires Take(r, n) == Take(r', n)
    requires n < |r| && n <= |r'| ==> n < |r'| && r[n] == r'[n]
    requires n < |r'| && n <= |r| ==> n < |r| && r[n] == r'[n]
    ensures Take(r, n + 1) == Take(r', n + 1)
  {
    if n < |r| && n < |r'| {
      assert r[..n + 1] == r[..n] + [r[n]] && r'[..n + 1] == r'[..n] + [r'[n]];
    }
  }

  lemma {:induction false} RankedAgree(p: seq<Signal>, q: seq<Signal>, keys: set<string>, limit: nat, i: nat)
    requires OthersCrowded(p, q, keys, limit) && OthersCrowded(q, p, keys, limit) && SameTies(p, q) && SameTies(q, p)
    requires i <= limit
    ensures Take(Ranked(p), i) == Take(Ranked(q), i)
  {
    if i > 0 {
      var r, r' := Ranked(p), Ranked(q);
      var n := i - 1;
      RankedAgree(p, q, keys, limit, n);
      if n < |r| && n <= |r'| {
        NextAgrees(p, q, keys, limit, n);
      }
      if n < |r'| && n <= |r| {
        NextAgrees(q, p, keys, limit, n);
      }
      TakeNext(r, r', n);
    }
  }

  lemma MergeAgree(p: seq<Signal>, q: seq<Signal>, keys: set<string>, limit: nat)
    requires OthersCrowded(p, q, keys, limit) && OthersCrowded(q, p, keys, limit) && SameTies(p, q) && SameTies(q, p)
    ensures Merge(p, limit) == Merge(q, limit)
  {
    RankedAgree(p, q, keys, limit, limit);
  }

  // ---- Truncating early: the one way it can matter ----

  ghost function KeysSince(s: set<Signal>, t: real): set<string> {
    set x | x in s && x.stamp >= t :: Key(x)
  }

  /**
   Two different items a and c of one key, another key's item b as new as a, c no newer, and more keys than the
   cap holds with something that new: a can be cut off behind b and be beaten to the list by c.
   */
  ghost predicate TieTrap(s: set<Signal>, limit: nat, a: Signal, b: Signal, c: Signal) {
    && a in s && b in s && c in s && Key(a) == Key(c) != Key(b) && a != c
    && a.stamp == b.stamp >= c.stamp
    && |KeysSince(s, a.stamp)| > limit
  }

  ghost predicate TieFree(s: set<Signal>, limit: nat) {
    forall a, b, c :: !TieTrap(s, limit, a, b, c)
  }

  lemma TieFreeSubset(s: set<Signal>, s': set<Signal>, limit: nat)
    requires s <= s' && TieFree(s', limit)
    ensures TieFree(s, limit)
  {
    forall a, b, c
      ensures !TieTrap(s, limit, a, b, c)
    {
      if TieTrap(s, limit, a, b, c) {
        SubsetSize(KeysSince(s, a.stamp), KeysSince(s', a.stamp));
        assert TieTrap(s', limit, a, b, c);
        assert false;
      }
    }
  }

  function Later(first: Option<Signal>, second: Option<Signal>): Option<Signal> {
    if second.None? || (first.Some? && first.value.stamp > second.value.stamp) then first else second
  }

  lemma {:induction false} WinnerConcat(xs: seq<Signal>, ys: seq<Signal>, k: string)
    ensures Winner(xs + ys, k) == Later(Winner(xs, k), Winner(ys, k))
  {
    if ys == [] {
      assert xs + ys == xs;
    } else {
      var n := |ys| - 1;
      assert (xs + ys)[..|xs + ys| - 1] == xs + ys[..n];
      WinnerConcat(xs, ys[..n], k);
    }
  }

  lemma MergedKeysDistinct(items: seq<Signal>, limit: nat, i: nat, j: nat)
    requires i < j < |Merge(items, limit)|
    ensures Key(Merge(items, limit)[i]) != Key(Merge(items, limit)[j])
  {
    MergeIsTop(items, limit);
    var m := Merge(items, limit);
    assert m[i] in m && m[j] in m && Leads(items, m[i], m[j]);
  }

  /** A merged list keeps the winners that made it. */
  lemma MergedWinner(items: seq<Signal>, limit: nat, k: string)
    requires k != ""
    ensures var w := Winner(items, k);
      Winner(Merge(items, limit), k) == if w.Some? && w.value in Merge(items, limit) then w else None
  {
    MergeIsTop(items, limit);
    WinnerCorrect(items, k);
    WinnerCorrect(Merge(items, limit), k);
  }

  lemma MergedFirst(items: seq<Signal>, limit: nat, i: nat)
    requires i < |Merge(items, limit)|
    ensures FirstAt(Merge(items, limit), Key(Merge(items, limit)[i])) == i
  {
    var m := Merge(items, limit);
    FirstAtHits(m, Key(m[i]));
    var j := FirstAt(m, Key(m[i]));
    assert m[i] in m;
    if j < i {
      MergedKeysDistinct(items, limit, j, i);
    }
  }

  lemma MergedPlace(items: seq<Signal>, limit: nat, x: Signal) returns (i: nat)
    requires x in Merge(items, limit)
    ensures i < |Merge(items, limit)| && Merge(items, limit)[i] == x && FirstAt(Merge(items, limit), Key(x)) == i
  {
    i :| 0 <= i < |Merge(items, limit)| && Merge(items, limit)[i] == x;
    MergedFirst(items, limit, i);
  }

  lemma MergedLeads(items: seq<Signal>, limit: nat, i: nat, j: nat)
    requires i < j < |Merge(items, limit)|
    ensures Leads(items, Merge(items, limit)[i], Merge(items, limit)[j])
  {
    MergeIsTop(items, limit);
  }

  /** The merged list breaks ties as the items did. */
  lemma MergedTies(items: seq<Signal>, limit: nat, x: Signal, y: Signal)
    requires x in Merge(items, limit) && y in Merge(items, limit) && x.stamp == y.stamp
    ensures FirstAt(Merge(items, limit), Key(x)) < FirstAt(Merge(items, limit), Key(y)) <==>
            FirstAt(items, Key(x)) < FirstAt(items, Key(y))
  {
    var i := MergedPlace(items, limit, x);
    var j := MergedPlace(items, limit, y);
    if i < j {
      MergedLeads(items, limit, i, j);
    } else if j < i {
      MergedLeads(items, limit, j, i);
    }
  }

  /** What was cut off stands behind a full list. */
  lemma CutOff(items: seq<Signal>, limit: nat, w: Signal)
    requires IsWinner(items, w) && w !in Merge(items, limit)
    ensures |KeysOf(Merge(items, limit))| == limit && Key(w) !in KeysOf(Merge(items, limit))
    ensures forall x :: x in Merge(items, limit) ==> Leads(items, x, w)
  {
    var r, m := Ranked(items), Merge(items, limit);
    RankedElements(items, w);
    RankedOrder(items);
    var i :| 0 <= i < |r| && r[i] == w;
    assert forall t :: 0 <= t < |r| && t < limit ==> m[t] == r[t];
    forall a, b | 0 <= a < b < |m|
      ensures Key(m[a]) != Key(m[b])
    {
      MergedKeysDistinct(items, limit, a, b);
    }
    KeysOfSize(m);
    forall x | x in m
      ensures Leads(items, x, w) && Key(x) != Key(w)
    {
      MergeIsTop(items, limit);
      var j :| 0 <= j < |m| && m[j] == x;
      assert Leads(items, r[j], r[i]);
    }
  }

  /** A cut-off item with another version in the later batch is strictly older than all that was kept. */
  lemma CutOffStrictly(batch: seq<Signal>, items: seq<Signal>, limit: nat, w: Signal, c: Signal, x: Signal)
    requires TieFree(Keyed(batch + items), limit) && IsWinner(items, w) && w !in Merge(items, limit)
    requires c in batch && Key(c) == Key(w) && c != w && c.stamp <= w.stamp && x in Merge(items, limit)
    ensures x.stamp > w.stamp
  {
    var s, m := Keyed(batch + items), Merge(items, limit);
    CutOff(items, limit, w);
    MergeIsTop(items, limit);
    WinnerCorrect(items, Key(w));
    WinnerCorrect(items, Key(x));
    if x.stamp == w.stamp {
      forall k | k in KeysOf(m) + {Key(w)}
        ensures k in KeysSince(s, w.stamp)
      {
        if k in KeysOf(m) {
          var y :| y in m && Key(y) == k;
          WinnerCorrect(items, k);
          assert y in s;
        }
        assert w in s;
      }
      SubsetSize(KeysOf(m) + {Key(w)}, KeysSince(s, w.stamp));
      assert Key(x) in KeysOf(m);
      assert TieTrap(s, limit, w, x, c);
      assert false;
    }
  }

  /** The kept version of a key is at least as new wherever the kept list goes. */
  lemma KeptWinner(batch: seq<Signal>, items: seq<Signal>, limit: nat, k: string)
    requires k in KeysOf(Merge(items, limit))
    ensures var m, q := Merge(items, limit), batch + Merge(items, limit);
      && k != "" && Winner(items, k).Some? && Winner(items, k).value in m
      && Winner(q, k) == Winner(batch + items, k) == Later(Winner(batch, k), Winner(items, k)) && Winner(q, k).Some?
  {
    MergeIsTop(items, limit);
    MergedWinner(items, limit, k);
    WinnerConcat(batch, items, k);
    WinnerConcat(batch, Merge(items, limit), k);
  }

  /** Where the two lists disagree about a key, its item was cut off; what is left is the later batch's. */
  lemma Disagreement(batch: seq<Signal>, items: seq<Signal>, limit: nat, k: string)
    requires k != "" && Winner(batch + items, k) != Winner(batch + Merge(items, limit), k)
    ensures var a, w := Winner(batch, k), Winner(items, k);
      && w.Some? && Key(w.value) == k && IsWinner(items, w.value) && w.value !in Merge(items, limit)
      && Winner(batch + items, k) == w && Winner(batch + Merge(items, limit), k) == a
      && (a.Some? ==> a.value in batch && Key(a.value) == k && a.value != w.value && a.value.stamp <= w.value.stamp)
  {
    WinnerConcat(batch, items, k);
    WinnerConcat(batch, Merge(items, limit), k);
    MergedWinner(items, limit, k);
    WinnerCorrect(items, k);
    WinnerCorrect(batch, k);
  }

  lemma WholeCrowded(batch: seq<Signal>, items: seq<Signal>, limit: nat, x: Signal)
    requires TieFree(Keyed(batch + items), limit)
    requires IsWinner(batch + items, x) && !IsWinner(batch + Merge(items, limit), x)
    ensures Crowded(batch + items, x, KeysOf(Merge(items, limit)), limit)
  {
    var p, m := batch + items, Merge(items, limit);
    Disagreement(batch, items, limit, Key(x));
    CutOff(items, limit, x);
    forall k | k in KeysOf(m)
      ensures k != "" && Winner(p, k).Some? && Leads(p, Winner(p, k).value, x)
    {
      KeptWinner(batch, items, limit, k);
      var y := Winner(items, k).value;
      WinnerCorrect(items, k);
      WinnerCorrect(p, k);
      if Winner(batch, Key(x)).Some? {
        CutOffStrictly(batch, items, limit, x, Winner(batch, Key(x)).value, y);
      } else {
        WinnerCorrect(batch, Key(x));
        FirstAtHits(batch, Key(x));
        FirstAtConcat(batch, items, Key(x));
        FirstAtConcat(batch, items, k);
      }
    }
  }

  lemma KeptLeads(batch: seq<Signal>, items: seq<Signal>, limit: nat, x: Signal, k: string)
    requires TieFree(Keyed(batch + items), limit) && k in KeysOf(Merge(items, limit))
    requires IsWinner(batch + Merge(items, limit), x) && !IsWinner(batch + items, x)
    ensures var y := Winner(batch + Merge(items, limit), k); k != "" && y.Some? && y.value.stamp > x.stamp
  {
    Disagreement(batch, items, limit, Key(x));
    KeptWinner(batch, items, limit, k);
    CutOffStrictly(batch, items, limit, Winner(items, Key(x)).value, x, Winner(items, k).value);
  }

  lemma PartCrowded(batch: seq<Signal>, items: seq<Signal>, limit: nat, x: Signal)
    requires TieFree(Keyed(batch + items), limit)
    requires IsWinner(batch + Merge(items, limit), x) && !IsWinner(batch + items, x)
    ensures Crowded(batch + Merge(items, limit), x, KeysOf(Merge(items, limit)), limit)
  {
    Disagreement(batch, items, limit, Key(x));
    CutOff(items, limit, Winner(items, Key(x)).value);
    forall k | k in KeysOf(Merge(items, limit))
      ensures var y := Winner(batch + Merge(items, limit), k); k != "" && y.Some? && Leads(batch + Merge(items, limit), y.value, x)
    {
      KeptLeads(batch, items, limit, x, k);
    }
  }

  lemma FirstInBatch(batch: seq<Signal>, rest: seq<Signal>, x: Signal)
    requires IsWinner(batch + rest, x)
    ensures FirstAt(batch, Key(x)) >= |batch| ==> Winner(rest, Key(x)) == Some(x)
  {
    WinnerConcat(batch, rest, Key(x));
    WinnerCorrect(batch, Key(x));
    FirstAtHits(batch, Key(x));
  }

  lemma TieKept(batch: seq<Signal>, items: seq<Signal>, limit: nat, x: Signal, y: Signal)
    requires var p, q := batch + items, batch + Merge(items, limit);
      IsWinner(p, x) && IsWinner(q, x) && IsWinner(p, y) && IsWinner(q, y) && x.stamp == y.stamp
    ensures FirstAt(batch + items, Key(x)) < FirstAt(batch + items, Key(y)) <==>
            FirstAt(batch + Merge(items, limit), Key(x)) < FirstAt(batch + Merge(items, limit), Key(y))
  {
    var m := Merge(items, limit);
    FirstAtConcat(batch, items, Key(x));
    FirstAtConcat(batch, items, Key(y));
    FirstAtConcat(batch, m, Key(x));
    FirstAtConcat(batch, m, Key(y));
    if FirstAt(batch, Key(x)) >= |batch| && FirstAt(batch, Key(y)) >= |batch| {
      FirstInBatch(batch, m, x);
      FirstInBatch(batch, m, y);
      WinnerCorrect(m, Key(x));
      WinnerCorrect(m, Key(y));
      MergedTies(items, limit, x, y);
    }
  }

  /** Merging a batch into an already truncated list is merging it into everything that list came from. */
  lemma MergeAbsorbs(batch: seq<Signal>, items: seq<Signal>, limit: nat)
    requires TieFree(Keyed(batch + items), limit)
    ensures Merge(batch + Merge(items, limit), limit) == Merge(batch + items, limit)
  {
    var p, q, keys := batch + items, batch + Merge(items, limit), KeysOf(Merge(items, limit));
    forall x | IsWinner(p, x) && !IsWinner(q, x)
      ensures Crowded(p, x, keys, limit)
    {
      WholeCrowded(batch, items, limit, x);
    }
    forall x | IsWinner(q, x) && !IsWinner(p, x)
      ensures Crowded(q, x, keys, limit)
    {
      PartCrowded(batch, items, limit, x);
    }
    forall x, y | IsWinner(p, x) && IsWinner(q, x) && IsWinner(p, y) && IsWinner(q, y) && x.stamp == y.stamp
      ensures Leads(p, x, y) <==> Leads(q, x, y)
    {
      TieKept(batch, items, limit, x, y);
    }
    MergeAgree(p, q, keys, limit);
  }

  function Flatten(batches: seq<seq<Signal>>): seq<Signal> {
    if batches == [] then [] else Flatten(batches[1..]) + batches[0]
  }

  /** The dashboard's state after the batches arrive one by one. */
  function Stream(state: seq<Signal>, batches: seq<seq<Signal>>, limit: nat): seq<Signal>
    decreases |batches|
  {
    if batches == [] then state else Stream(Merge(batches[0] + state, limit), batches[1..], limit)
  }

  lemma MergeFromItems(items: seq<Signal>, limit: nat)
    ensures forall x :: x in Merge(items, limit) ==> x in Keyed(items)
  {
    MergeIsTop(items, limit);
    forall x | x in Merge(items, limit)
      ensures x in Keyed(items)
    {
      WinnerCorrect(items, Key(x));
    }
  }

  /** Streaming any sequence of batches gives what merging all items at once gives. */
  lemma {:induction false} StreamingIsBatch(state: seq<Signal>, batches: seq<seq<Signal>>, limit: nat)
    requires batches != [] && TieFree(Keyed(Flatten(batches) + state), limit)
    ensures Stream(state, batches, limit) == Merge(Flatten(batches) + state, limit)
    decreases |batches|
  {
    var first, rest := batches[0], batches[1..];
    var later := Flatten(rest);
    assert Flatten(batches) + state == later + (first + state);
    if rest == [] {
      assert Flatten(batches) + state == first + state;
    } else {
      MergeFromItems(first + state, limit);
      TieFreeSubset(Keyed(later + Merge(first + state, limit)), Keyed(Flatten(batches) + state), limit);
      StreamingIsBatch(Merge(first + state, limit), rest, limit);
      MergeAbsorbs(later, first + state, limit);
    }
  }

  /** No two different items share a timestamp; the same item may occur many times. */
  ghost predicate DistinctStamps(s: set<Signal>) {
    forall a, b :: a in s && b in s && a.stamp == b.stamp ==> a == b
  }

  lemma DistinctWinners(p: seq<Signal>, q: seq<Signal>, x: Signal)
    requires Keyed(p) == Keyed(q) && DistinctStamps(Keyed(p)) && IsWinner(p, x)
    ensures IsWinner(q, x)
  {
    WinnerCorrect(p, Key(x));
    WinnerCorrect(q, Key(x));
    assert x in Keyed(q);
    var y := Winner(q, Key(x)).value;
    assert y in Keyed(p);
  }

  /** With distinct timestamps the order in which the same items arrive does not matter either. */
  lemma ArrivalOrderIrrelevant(state: seq<Signal>, batches: seq<seq<Signal>>, batches': seq<seq<Signal>>, limit: nat)
    requires batches != [] && batches' != []
    requires DistinctStamps(Keyed(Flatten(batches) + state))
    requires Keyed(Flatten(batches) + state) == Keyed(Flatten(batches') + state)
    ensures Stream(state, batches, limit) == Stream(state, batches', limit)
  {
    var p, q := Flatten(batches) + state, Flatten(batches') + state;
    StreamingIsBatch(state, batches, limit);
    StreamingIsBatch(state, batches', limit);
    forall x
      ensures IsWinner(p, x) <==> IsWinner(q, x)
    {
      if IsWinner(p, x) { DistinctWinners(p, q, x); }
      if IsWinner(q, x) { DistinctWinners(q, p, x); }
    }
    forall x, y | IsWinner(p, x) && IsWinner(p, y) && x.stamp == y.stamp
      ensures x == y
    {
      WinnerCorrect(p, Key(x));
      WinnerCorrect(p, Key(y));
      assert x in Keyed(p) && y in Keyed(p);
    }
    MergeAgree(p, q, {}, limit);
  }

  // ---- A trap springs ----

  /** Distinct items that fill the list ahead of a and b. */
  ghost predicate Fills(f: seq<Signal>, a: Signal, b: Signal) {
    && (forall i :: 0 <= i < |f| ==> Key(f[i]) != "" && Key(f[i]) != Key(a) && Key(f[i]) != Key(b) && f[i].stamp >= a.stamp)
    && (forall i, j :: 0 <= i < j < |f| ==> Key(f[i]) != Key(f[j]))
  }

  ghost predicate DistinctKeys(items: seq<Signal>) {
    forall i, j :: 0 <= i < j < |items| ==> Key(items[i]) != Key(items[j])
  }

  lemma DistinctWin(items: seq<Signal>, i: nat)
    requires DistinctKeys(items) && i < |items| && Key(items[i]) != ""
    ensures IsWinner(items, items[i]) && FirstAt(items, Key(items[i])) == i
  {
    assert items[i] in items;
    WinnerCorrect(items, Key(items[i]));
    FirstAtHits(items, Key(items[i]));
  }

  lemma CrowdedOut(items: seq<Signal>, x: Signal, keys: set<string>, limit: nat)
    requires IsWinner(items, x) && Crowded(items, x, keys, limit)
    ensures x !in Merge(items, limit)
  {
    var r := Ranked(items);
    RankedElements(items, x);
    var i :| 0 <= i < |r| && r[i] == x;
    CrowdedPlace(items, i, keys, limit);
    RankedDistinct(items);
    assert forall t :: 0 <= t < |r| && t < limit ==> Merge(items, limit)[t] == r[t];
  }

  lemma FilledKeys(f: seq<Signal>, a: Signal, b: Signal)
    requires Fills(f, a, b) && Key(a) != Key(b)
    ensures DistinctKeys(f + [b, a]) && |KeysOf(f + [b])| == |f| + 1
  {
    KeysOfSize(f + [b]);
  }

  /** The first batch loses a: the fillers and b take every place. */
  lemma FirstBatchDrops(f: seq<Signal>, a: Signal, b: Signal)
    requires Fills(f, a, b) && Key(a) != "" && Key(b) != "" && Key(a) != Key(b) && a.stamp == b.stamp
    ensures a !in Merge(f + [b, a], |f| + 1)
  {
    var items, front := f + [b, a], f + [b];
    FilledKeys(f, a, b);
    DistinctWin(items, |f| + 1);
    forall k | k in KeysOf(front)
      ensures k != "" && Winner(items, k).Some? && Leads(items, Winner(items, k).value, a)
    {
      var x :| x in front && Key(x) == k;
      var i :| 0 <= i < |front| && front[i] == x;
      assert front[i] == items[i];
      DistinctWin(items, i);
    }
    CrowdedOut(items, a, KeysOf(front), |f| + 1);
  }

  /** c, the fillers, b and a. */
  lemma AtOnceWinner(f: seq<Signal>, a: Signal, b: Signal, c: Signal)
    requires Fills(f, a, b) && Key(a) == Key(c) != "" && Key(b) != "" && Key(a) != Key(b) && a.stamp == b.stamp >= c.stamp
    ensures var items := [c] + (f + [b, a]);
      && IsWinner(items, a) && FirstAt(items, Key(a)) == 0
      && forall y :: y in items && Key(y) != Key(a) && y.stamp > a.stamp ==> y in Elements(f)
  {
    var front := [c] + (f + [b]);
    assert [c] + (f + [b, a]) == front + [a];
    assert forall y :: y in front <==> y == c || y in f || y == b;
    assert forall i :: 0 <= i < |f| ==> Key(f[i]) != Key(a);
    WinnerCorrect(front, Key(a));
    Snoc(front, a, Key(a));
  }

  /** Merged at once, a wins its key and stands before b: only newer fillers lead it. */
  lemma AtOnceKeeps(f: seq<Signal>, a: Signal, b: Signal, c: Signal)
    requires Fills(f, a, b) && Key(a) == Key(c) != "" && Key(b) != "" && Key(a) != Key(b) && a.stamp == b.stamp >= c.stamp
    ensures a in Merge([c] + (f + [b, a]), |f| + 1)
  {
    var items := [c] + (f + [b, a]);
    AtOnceWinner(f, a, b, c);
    forall y | y in Leaders(items, a)
      ensures y in Elements(f)
    {
      assert Leads(items, y, a);
    }
    forall i, j | 0 <= i < j < |f|
      ensures f[i] != f[j]
    {
      assert Key(f[i]) != Key(f[j]);
    }
    ElementsSize(f);
    SubsetSize(Leaders(items, a), Elements(f));
    MergeIsTop(items, |f| + 1);
  }

  ghost function Sprung(f: seq<Signal>, a: Signal, b: Signal, c: Signal): seq<seq<Signal>> {
    [f + [b, a], [c]]
  }

  lemma SprungItems(f: seq<Signal>, a: Signal, b: Signal, c: Signal)
    ensures Flatten(Sprung(f, a, b, c)) == [c] + (f + [b, a])
  {
    assert Sprung(f, a, b, c)[1..] == [[c]] && [[c]][1..] == [];
    assert Flatten([[c]]) == [] + [c] == [c];
  }

  /** So the batch that cuts a off, followed by c, does not end where one merge ends. */
  lemma TrapBreaks(f: seq<Signal>, a: Signal, b: Signal, c: Signal)
    requires Fills(f, a, b) && Key(a) == Key(c) != "" && Key(b) != "" && Key(a) != Key(b) && a != c && a.stamp == b.stamp >= c.stamp
    ensures Stream([], Sprung(f, a, b, c), |f| + 1) != Merge(Flatten(Sprung(f, a, b, c)), |f| + 1)
  {
    var first, limit := f + [b, a], |f| + 1;
    var batches := Sprung(f, a, b, c);
    var m := Merge(first, limit);
    assert batches[0] + [] == first && batches[1..] == [[c]] && [[c]][0] == [c] && [[c]][1..] == [];
    SprungItems(f, a, b, c);
    assert Stream(m, [[c]], limit) == Stream(Merge([c] + m, limit), [], limit);
    FirstBatchDrops(f, a, b);
    AtOnceKeeps(f, a, b, c);
    MergeFromItems([c] + m, limit);
  }

  lemma OneMoreFills(f: seq<Signal>, x: Signal, a: Signal, b: Signal)
    requires Fills(f, a, b) && Key(x) !in KeysOf(f)
    requires Key(x) != "" && Key(x) != Key(a) && Key(x) != Key(b) && x.stamp >= a.stamp
    ensures Fills(f + [x], a, b) && KeysOf(f + [x]) == KeysOf(f) + {Key(x)}
  {
    assert forall i :: 0 <= i < |f| ==> f[i] in f && Key(f[i]) in KeysOf(f);
    assert forall y :: y in f + [x] <==> y in f || y == x;
  }

  lemma ItemSince(s: set<Signal>, t: real, k: string) returns (x: Signal)
    requires k in KeysSince(s, t)
    ensures x in s && x.stamp >= t && Key(x) == k
  {
    x :| x in s && x.stamp >= t && Key(x) == k;
  }

  lemma {:induction false} PickFillers(s: set<Signal>, keys: set<string>, a: Signal, b: Signal, n: nat) returns (f: seq<Signal>)
    requires n <= |keys| && keys <= KeysSince(s, a.stamp) && "" !in keys && Key(a) !in keys && Key(b) !in keys
    ensures |f| == n && Fills(f, a, b) && KeysOf(f) <= keys && Elements(f) <= s
    decreases n
  {
    if n == 0 {
      f := [];
      assert KeysOf(f) == {} && Elements(f) == {};
    } else {
      var k :| k in keys;
      var x := ItemSince(s, a.stamp, k);
      var rest := PickFillers(s, keys - {k}, a, b, n - 1);
      f := rest + [x];
      OneMoreFills(rest, x, a, b);
      ElementsSnoc(rest, x);
    }
  }

  lemma ElementsSnoc(f: seq<Signal>, x: Signal)
    ensures Elements(f + [x]) == Elements(f) + {x}
  {
  }

  lemma SprungKeyed(f: seq<Signal>, a: Signal, b: Signal, c: Signal, s: set<Signal>)
    requires Elements(f) <= s && a in s && b in s && c in s
    ensures Keyed([c] + (f + [b, a])) <= s
  {
    forall x | x in [c] + (f + [b, a])
      ensures x in s
    {
      assert x == c || x == a || x == b || x in Elements(f);
    }
  }

  ghost predicate StreamsAlike(s: set<Signal>, limit: nat) {
    forall batches: seq<seq<Signal>> :: Keyed(Flatten(batches)) <= s ==> Stream([], batches, limit) == Merge(Flatten(batches), limit)
  }

  lemma TrapFound(s: set<Signal>, limit: nat, a: Signal, b: Signal, c: Signal)
    requires limit >= 1 && (forall x :: x in s ==> Key(x) != "") && TieTrap(s, limit, a, b, c)
    ensures !StreamsAlike(s, limit)
  {
    var since := KeysSince(s, a.stamp);
    var keys := since - {Key(a)} - {Key(b)};
    assert Key(a) in since && Key(b) in since;
    var f := PickFillers(s, keys, a, b, limit - 1);
    TrapBreaks(f, a, b, c);
    SprungItems(f, a, b, c);
    SprungKeyed(f, a, b, c, s);
  }

  /**
   The exact condition: every sequence of batches of the given items streams to what one merge gives, if and only
   if there is no tie trap among the items.
   */
  lemma StreamingExactly(s: set<Signal>, limit: nat)
    requires limit >= 1 && forall x :: x in s ==> Key(x) != ""
    ensures StreamsAlike(s, limit) <==> TieFree(s, limit)
  {
    if TieFree(s, limit) {
      forall batches: seq<seq<Signal>> | Keyed(Flatten(batches)) <= s
        ensures Stream([], batches, limit) == Merge(Flatten(batches), limit)
      {
        if batches != [] {
          assert Flatten(batches) + [] == Flatten(batches);
          TieFreeSubset(Keyed(Flatten(batches)), s, limit);
          StreamingIsBatch([], batches, limit);
        }
      }
    } else {
      var a, b, c :| TieTrap(s, limit, a, b, c);
      TrapFound(s, limit, a, b, c);
    }
  }

  /** Items of different keys never share a timestamp; versions of one key may. */
  ghost predicate NoCrossTies(s: set<Signal>) {
    forall a, b :: a in s && b in s && a.stamp == b.stamp ==> Key(a) == Key(b)
  }

  /** Ties within a key are harmless, and so are all ties while the keys fit the cap. */
  lemma HarmlessTies(s: set<Signal>, limit: nat)
    ensures NoCrossTies(s) ==> TieFree(s, limit)
    ensures |set x | x in s :: Key(x)| <= limit ==> TieFree(s, limit)
  {
    forall a, b, c | TieTrap(s, limit, a, b, c)
      ensures !NoCrossTies(s) && |set x | x in s :: Key(x)| > limit
    {
      SubsetSize(KeysSince(s, a.stamp), set x | x in s :: Key(x));
    }
  }

  /** n items of n different keys, the i-th named by i + 2 letters. */
  function Named(n: nat): (f: seq<Signal>)
    ensures |f| == n && forall i :: 0 <= i < n ==> |Key(f[i])| == i + 2 && f[i].stamp == 9.0
  {
    if n == 0 then [] else Named(n - 1) + [Signal(seq(n + 1, i => 'k'), "", 9.0, 0)]
  }

  lemma NamedFill(f: seq<Signal>, a: Signal, b: Signal)
    requires forall i :: 0 <= i < |f| ==> |Key(f[i])| == i + 2 && f[i].stamp == 9.0
    requires a == Signal("a", "", 5.0, 0) && b == Signal("b", "", 5.0, 0)
    ensures Fills(f, a, b) && Key(a) != Key(b)
  {
    assert Key(a) == "a" && Key(b) == "b" && "a"[0] != "b"[0];
  }

  /**
   At every cap equal timestamps do break streaming: n - 1 newer items fill the list, key a is truncated behind the
   equally new key b, and the stale item of key a that follows cannot bring it back; in one merge a wins its place.
   */
  lemma TiesBreakStreaming(limit: nat)
    requires limit >= 1
    ensures exists batches: seq<seq<Signal>> :: batches != [] && Stream([], batches, limit) != Merge(Flatten(batches), limit)
  {
    var a, b, stale := Signal("a", "", 5.0, 0), Signal("b", "", 5.0, 0), Signal("a", "", 1.0, 0);
    var f := Named(limit - 1);
    NamedFill(f, a, b);
    TrapBreaks(f, a, b, stale);
    assert Sprung(f, a, b, stale) != [];
  }
}
