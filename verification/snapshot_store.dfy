/**
 The bounded, versioned snapshot store shared by the dashboard and the execution engine: a Map with
 insertion order, sticky fields, a staleness mark set by reads, and eviction of the oldest entry.
 */
module SnapshotStore {
  import opened Options
  import opened StableSort

  datatype Quote = Quote(receivedAt: Option<int>, timestamp: Option<int>, source: Option<string>, body: int)

  datatype MetaValue = Time(at: int) | Text(text: Option<string>)

  /** The fields written with `data.f || existing?.f || default` that this model does not look into. */
  datatype Sticky =
    | TechnicalSnapshot | Layers | LayeredAnalysis | Signal | ValidationResult
    | ExecutionStatus | ExecutionResult | News | MarketPhase | Volatility

  /** What a caller writes: None, or a key left out of others, is an absent or falsy field. */
  datatype Data = Data(
    quote: Option<Quote>,
    bars: Option<map<string, int>>,
    others: map<Sticky, int>,
    signalValid: Option<bool>,
    layer18Ready: Option<bool>,
    metadata: map<string, MetaValue>)

  datatype Content = Content(
    quote: Option<Quote>,
    bars: map<string, int>,
    others: map<Sticky, int>,
    signalValid: bool,
    layer18Ready: bool,
    metadata: map<string, MetaValue>)

  datatype Snapshot = Snapshot(version: nat, createdAt: int, updatedAt: int, content: Content, stale: bool)

  datatype Config = Config(snapshotTTL: int, maxSnapshots: nat, enableVersioning: bool)

  const EMPTY: Content := Content(None, map[], map[], false, false, map[])
  const NOTHING: Data := Data(None, None, map[], None, None, map[])

  function Overlay(base: Content, data: Data): Content {
    Content(
      if data.quote.Some? then data.quote else base.quote,
      data.bars.GetOr(base.bars),
      base.others + data.others,
      data.signalValid.GetOr(base.signalValid),
      data.layer18Ready.GetOr(base.layer18Ready),
      base.metadata + data.metadata)
  }

  /** The spread of an existing snapshot's fields under the caller's updates. */
  function Spread(existing: Content, updates: Data): Data {
    Data(
      if updates.quote.Some? then updates.quote else existing.quote,
      Some(updates.bars.GetOr(existing.bars)),
      existing.others + updates.others,
      Some(updates.signalValid.GetOr(existing.signalValid)),
      Some(updates.layer18Ready.GetOr(existing.layer18Ready)),
      existing.metadata + updates.metadata)
  }

  function Write(existing: Option<Snapshot>, data: Data, now: int): Snapshot {
    match existing
    case None => Snapshot(1, now, now, Overlay(EMPTY, data), false)
    case Some(e) => Snapshot(e.version + 1, if e.createdAt != 0 then e.createdAt else now, now, Overlay(e.content, data), false)
  }

  function NormalizedQuote(quote: Option<Quote>, now: int): Option<Quote> {
    match quote
    case None => None
    case Some(q) => Some(q.(receivedAt := Some(q.receivedAt.GetOr(q.timestamp.GetOr(now)))))
  }

  function QuoteUpdates(quote: Option<Quote>, now: int): Data {
    var q := NormalizedQuote(quote, now);
    NOTHING.(quote := q,
             metadata := map["lastQuoteAt" := Time(if q.Some? then q.value.receivedAt.GetOr(now) else now),
                             "lastQuoteSource" := Text(if q.Some? then q.value.source else None)])
  }

  function BarsUpdates(existing: map<string, int>, timeframe: string, bars: int, now: int): Data {
    NOTHING.(bars := Some(existing[timeframe := bars]),
             metadata := map["lastBarsAt" := Time(now),
                             "lastBarsTimeframe" := Text(if timeframe == "" then None else Some(timeframe))])
  }

  // ---- The store as a value ----

  /** lost and log are history: versions evicted since the last clear, and each live key's writes since its creation. */
  datatype Store = Store(
    order: seq<string>,
    table: map<string, Snapshot>,
    version: nat,
    clock: int,
    lost: nat,
    log: map<string, seq<Data>>)

  function Find(s: Store, key: string): Option<Snapshot> {
    if key in s.table then Some(s.table[key]) else None
  }

  function UpdatedAt(table: map<string, Snapshot>): string -> real {
    k => if k in table then table[k].updatedAt as real else 0.0
  }

  /** The keys cleanup removes: the first of the entries sorted by update time, down to the limit. */
  function Victims(s: Store, maxSnapshots: nat): seq<string> {
    var sorted := Sort(s.order, UpdatedAt(s.table));
    if |sorted| > maxSnapshots then sorted[..|sorted| - maxSnapshots] else []
  }

  function Without(order: seq<string>, key: string): seq<string> {
    if order == [] then []
    else
      var n := |order| - 1;
      Without(order[..n], key) + (if order[n] == key then [] else [order[n]])
  }

  function Delete(s: Store, key: string): Store {
    if key !in s.table then s
    else s.(order := Without(s.order, key), table := s.table - {key}, lost := s.lost + s.table[key].version, log := s.log - {key})
  }

  function DeleteAll(s: Store, keys: seq<string>): Store
    decreases |keys|
  {
    if keys == [] then s else Delete(DeleteAll(s, keys[..|keys| - 1]), keys[|keys| - 1])
  }

  /** cleanupOldSnapshots: sort by update time and delete from the front down to the limit. */
  function Cleanup(s: Store, maxSnapshots: nat): Store {
    DeleteAll(s, Victims(s, maxSnapshots))
  }

  function AgeOf(table: map<string, Snapshot>, key: string): int {
    if key in table then table[key].updatedAt else 0
  }

  /** Where the earliest-inserted of the least recently updated keys stands. */
  function OldestAt(order: seq<string>, table: map<string, Snapshot>): (i: nat)
    requires order != []
    ensures i < |order|
  {
    var n := |order| - 1;
    if n == 0 then 0
    else
      var before := OldestAt(order[..n], table);
      if AgeOf(table, order[n]) < AgeOf(table, order[before]) then n else before
  }

  function OldestKey(s: Store): string
    requires s.order != []
  {
    s.order[OldestAt(s.order, s.table)]
  }

  /** The store without its oldest entry. */
  function Evict(s: Store): Store {
    if s.order == [] then s else Delete(s, OldestKey(s))
  }

  /** The Map after set, before any cleanup. */
  function Put(s: Store, c: Config, key: string, data: Data, logged: Data, now: int): Store {
    Store(
      if key in s.table then s.order else s.order + [key],
      s.table[key := Write(Find(s, key), data, now)],
      if c.enableVersioning then s.version + 1 else s.version,
      now,
      s.lost,
      s.log[key := (if key in s.log then s.log[key] else []) + [logged]])
  }

  function Create(s: Store, c: Config, key: string, data: Data, logged: Data, now: int): Store {
    var put := Put(s, c, key, data, logged, now);
    if |put.order| > c.maxSnapshots then Evict(put) else put
  }

  function Read(s: Store, c: Config, key: string, now: int): Store {
    if key in s.table && now - s.table[key].updatedAt > c.snapshotTTL
    then s.(table := s.table[key := s.table[key].(stale := true)], clock := now)
    else s.(clock := now)
  }

  function Update(s: Store, c: Config, key: string, updates: Data, now: int): Store {
    Create(s, c, key, if key in s.table then Spread(s.table[key].content, updates) else updates, updates, now)
  }

  function UpdateQuote(s: Store, c: Config, key: string, quote: Option<Quote>, now: int): Store {
    Update(s, c, key, QuoteUpdates(quote, now), now)
  }

  function BarsOf(s: Store, key: string): map<string, int> {
    if key in s.table then s.table[key].content.bars else map[]
  }

  function UpdateBars(s: Store, c: Config, key: string, timeframe: string, bars: int, now: int): Store {
    Update(Read(s, c, key, now), c, key, BarsUpdates(BarsOf(s, key), timeframe, bars, now), now)
  }

  function Cleared(s: Store, now: int): Store {
    Store([], map[], 0, now, 0, map[])
  }

  datatype Op =
    | OpCreate(key: string, data: Data)
    | OpRead(key: string)
    | OpUpdate(key: string, updates: Data)
    | OpQuote(key: string, quote: Option<Quote>)
    | OpBars(key: string, timeframe: string, bars: int)
    | OpClear

  function Apply(s: Store, c: Config, op: Op, now: int): Store {
    match op
    case OpCreate(key, data) => Create(s, c, key, data, data, now)
    case OpRead(key) => Read(s, c, key, now)
    case OpUpdate(key, updates) => Update(s, c, key, updates, now)
    case OpQuote(key, quote) => UpdateQuote(s, c, key, quote, now)
    case OpBars(key, timeframe, bars) => UpdateBars(s, c, key, timeframe, bars, now)
    case OpClear => Cleared(s, now)
  }

  // ---- Invariants ----

  ghost predicate WellFormed(s: Store) {
    && (forall k :: k in s.order <==> k in s.table)
    && (forall i, j :: 0 <= i < j < |s.order| ==> s.order[i] != s.order[j])
    && s.log.Keys == s.table.Keys
  }

  function TotalVersions(order: seq<string>, table: map<string, Snapshot>): nat {
    if order == [] then 0
    else TotalVersions(order[..|order| - 1], table) +
         (if order[|order| - 1] in table then table[order[|order| - 1]].version else 0)
  }

  /** A write log replayed from nothing. */
  function Replay(log: seq<Data>): Content {
    if log == [] then EMPTY else Overlay(Replay(log[..|log| - 1]), log[|log| - 1])
  }

  ghost predicate EntryInv(s: Store, c: Config, k: string)
    requires k in s.table && k in s.log
  {
    && s.table[k].version == |s.log[k]| >= 1
    && s.table[k].updatedAt <= s.clock
    && s.table[k].content == Replay(s.log[k])
    && (s.table[k].stale ==> s.clock - s.table[k].updatedAt > c.snapshotTTL)
  }

  /** Bounded size, exact version accounting, entries that replay their log, and honest staleness marks. */
  ghost predicate StoreInv(s: Store, c: Config) {
    && WellFormed(s)
    && |s.order| <= c.maxSnapshots
    && (c.enableVersioning ==> s.version == TotalVersions(s.order, s.table) + s.lost)
    && (forall k :: k in s.table ==> EntryInv(s, c, k))
  }

  ghost predicate StoreAt(s: Store, c: Config, now: int) {
    StoreInv(s, c) && s.clock == now
  }

  lemma {:induction false} OrderSize(order: seq<string>, table: map<string, Snapshot>)
    requires forall k :: k in order <==> k in table
    requires forall i, j :: 0 <= i < j < |order| ==> order[i] != order[j]
    ensures |order| == |table|
    decreases |order|
  {
    if order == [] {
      assert table.Keys == {};
    } else {
      var n := |order| - 1;
      var last := order[n];
      assert order == order[..n] + [last];
      OrderSize(order[..n], table - {last});
      assert (table - {last}).Keys == table.Keys - {last};
      assert |table.Keys - {last}| == |table.Keys| - 1;
    }
  }

  lemma {:induction false} TotalFrame(order: seq<string>, table: map<string, Snapshot>, table': map<string, Snapshot>)
    requires forall k :: k in order ==> k in table && k in table' && table[k].version == table'[k].version
    ensures TotalVersions(order, table) == TotalVersions(order, table')
  {
    if order != [] {
      TotalFrame(order[..|order| - 1], table, table');
    }
  }

  lemma {:induction false} TotalUpdate(order: seq<string>, table: map<string, Snapshot>, key: string, snapshot: Snapshot)
    requires key in order && (forall k :: k in order ==> k in table)
    requires forall i, j :: 0 <= i < j < |order| ==> order[i] != order[j]
    ensures TotalVersions(order, table[key := snapshot]) ==
            TotalVersions(order, table) - table[key].version + snapshot.version
  {
    var n := |order| - 1;
    assert order == order[..n] + [order[n]];
    if order[n] == key {
      TotalFrame(order[..n], table, table[key := snapshot]);
    } else {
      TotalUpdate(order[..n], table, key, snapshot);
    }
  }

  // ---- Single steps keep the invariant ----

  lemma {:induction false} WithoutElements(order: seq<string>, key: string)
    requires forall i, j :: 0 <= i < j < |order| ==> order[i] != order[j]
    ensures forall k :: k in Without(order, key) <==> k in order && k != key
    ensures forall i, j :: 0 <= i < j < |Without(order, key)| ==> Without(order, key)[i] != Without(order, key)[j]
    ensures |Without(order, key)| == |order| - (if key in order then 1 else 0)
  {
    if order != [] {
      var n := |order| - 1;
      assert order == order[..n] + [order[n]];
      WithoutElements(order[..n], key);
      assert order[n] !in order[..n];
    }
  }

  lemma {:induction false} TotalWithout(order: seq<string>, table: map<string, Snapshot>, key: string)
    requires key in order && (forall k :: k in order ==> k in table)
    requires forall i, j :: 0 <= i < j < |order| ==> order[i] != order[j]
    ensures TotalVersions(Without(order, key), table - {key}) + table[key].version == TotalVersions(order, table)
  {
    var n := |order| - 1;
    var front := order[..n];
    assert order == front + [order[n]];
    if order[n] == key {
      assert key !in front;
      WithoutAbsent(front, key);
      assert Without(order, key) == front;
      TotalFrame(front, table, table - {key});
    } else {
      TotalWithout(front, table, key);
      var w := Without(front, key);
      assert (w + [order[n]])[..|w|] == w;
    }
  }

  lemma {:induction false} WithoutAbsent(order: seq<string>, key: string)
    requires key !in order
    ensures Without(order, key) == order
  {
    if order != [] {
      var n := |order| - 1;
      assert order == order[..n] + [order[n]];
      WithoutAbsent(order[..n], key);
    }
  }

  lemma DeleteKeeps(s: Store, c: Config, key: string)
    requires WellFormed(s) && key in s.table
    requires c.enableVersioning ==> s.version == TotalVersions(s.order, s.table) + s.lost
    requires forall k :: k in s.table ==> EntryInv(s, c, k)
    ensures var r := Delete(s, key);
      && WellFormed(r) && |r.order| == |s.order| - 1
      && (c.enableVersioning ==> r.version == TotalVersions(r.order, r.table) + r.lost)
      && (forall k :: k in r.table ==> EntryInv(r, c, k))
  {
    WithoutElements(s.order, key);
    TotalWithout(s.order, s.table, key);
    var r := Delete(s, key);
    forall k | k in r.table
      ensures EntryInv(r, c, k)
    {
      assert EntryInv(s, c, k);
    }
  }

  /** The store after a write, before cleanup: every clause but the size bound. */
  ghost predicate Written(r: Store, c: Config, key: string) {
    && WellFormed(r) && key in r.table && r.table[key].updatedAt == r.clock
    && (c.enableVersioning ==> r.version == TotalVersions(r.order, r.table) + r.lost)
    && (forall k :: k in r.table ==> EntryInv(r, c, k))
  }

  /** The logged write has the effect of the stored one. */
  ghost predicate SameEffect(s: Store, key: string, data: Data, logged: Data) {
    var base := if key in s.table then s.table[key].content else EMPTY;
    Overlay(base, data) == Overlay(base, logged)
  }

  lemma PutLog(s: Store, c: Config, key: string, data: Data, logged: Data, now: int)
    requires StoreInv(s, c) && s.clock <= now && c.snapshotTTL >= 0
    requires SameEffect(s, key, data, logged)
    ensures forall k :: k in s.table && k != key ==> EntryInv(Put(s, c, key, data, logged, now), c, k)
    ensures EntryInv(Put(s, c, key, data, logged, now), c, key)
  {
    var r := Put(s, c, key, data, logged, now);
    var before := if key in s.log then s.log[key] else [];
    assert r.log[key][..|before|] == before;
    if key in s.table {
      assert EntryInv(s, c, key);
    }
    forall k | k in s.table && k != key
      ensures EntryInv(r, c, k)
    {
      assert EntryInv(s, c, k);
    }
  }

  lemma PutShape(s: Store, c: Config, key: string, data: Data, logged: Data, now: int)
    requires WellFormed(s)
    ensures WellFormed(Put(s, c, key, data, logged, now))
  {
  }

  /** The versions a write accounts for. */
  lemma PutTotals(s: Store, c: Config, key: string, data: Data, logged: Data, now: int)
    requires WellFormed(s)
    ensures var r := Put(s, c, key, data, logged, now);
      TotalVersions(r.order, r.table) == TotalVersions(s.order, s.table) + 1
  {
    var r := Put(s, c, key, data, logged, now);
    if key in s.table {
      TotalUpdate(s.order, s.table, key, r.table[key]);
    } else {
      assert r.order[..|s.order|] == s.order;
      TotalFrame(s.order, s.table, r.table);
    }
  }

  lemma PutVersion(s: Store, c: Config, key: string, data: Data, logged: Data, now: int)
    requires WellFormed(s) && (c.enableVersioning ==> s.version == TotalVersions(s.order, s.table) + s.lost)
    ensures var r := Put(s, c, key, data, logged, now);
      && key in r.table && r.table[key].updatedAt == r.clock
      && (c.enableVersioning ==> r.version == TotalVersions(r.order, r.table) + r.lost)
  {
    PutTotals(s, c, key, data, logged, now);
  }

  lemma PutEntries(s: Store, c: Config, key: string, data: Data, logged: Data, now: int)
    requires StoreInv(s, c) && s.clock <= now && c.snapshotTTL >= 0
    requires SameEffect(s, key, data, logged)
    ensures var r := Put(s, c, key, data, logged, now);
      && r.log.Keys == r.table.Keys
      && (forall k :: k in r.table ==> EntryInv(r, c, k))
  {
    PutLog(s, c, key, data, logged, now);
    var r := Put(s, c, key, data, logged, now);
    assert r.table.Keys == s.table.Keys + {key};
  }

  /** The i-th inserted entry is the earliest-inserted of the least recently updated. */
  ghost predicate OldestFirst(order: seq<string>, table: map<string, Snapshot>, i: nat) {
    && i < |order|
    && (forall j :: 0 <= j < i ==> AgeOf(table, order[i]) < AgeOf(table, order[j]))
    && (forall j :: i < j < |order| ==> AgeOf(table, order[i]) <= AgeOf(table, order[j]))
  }

  lemma {:induction false} OldestAtIsOldest(order: seq<string>, table: map<string, Snapshot>)
    requires order != []
    ensures OldestFirst(order, table, OldestAt(order, table))
  {
    var n := |order| - 1;
    if n > 0 {
      OldestAtIsOldest(order[..n], table);
      var before := OldestAt(order[..n], table);
      assert forall j :: 0 <= j < n ==> order[..n][j] == order[j];
      assert forall j :: 0 <= j < n ==> AgeOf(table, order[before]) <= AgeOf(table, order[..n][j]);
    }
  }

  lemma OldestUnique(order: seq<string>, table: map<string, Snapshot>, i: nat, j: nat)
    requires OldestFirst(order, table, i) && OldestFirst(order, table, j)
    ensures i == j
  {
    var a, b := AgeOf(table, order[i]), AgeOf(table, order[j]);
    assert a <= b <= a;
  }

  /** Sorting by update time brings the oldest entry to the front. */
  lemma SortedFrontIsOldest(s: Store)
    requires WellFormed(s) && s.order != []
    ensures Sort(s.order, UpdatedAt(s.table))[0] == OldestKey(s)
  {
    var rank := UpdatedAt(s.table);
    var i := SortFirst(s.order, rank);
    assert forall j :: 0 <= j < |s.order| ==> rank(s.order[j]) == AgeOf(s.table, s.order[j]) as real;
    assert OldestFirst(s.order, s.table, i);
    OldestAtIsOldest(s.order, s.table);
    OldestUnique(s.order, s.table, i, OldestAt(s.order, s.table));
  }

  /** One entry over the limit, the program's sort-and-delete cleanup evicts exactly the oldest entry. */
  lemma CleanupIsEvict(s: Store, maxSnapshots: nat)
    requires WellFormed(s) && |s.order| == maxSnapshots + 1
    ensures Cleanup(s, maxSnapshots) == Evict(s)
  {
    SortedFrontIsOldest(s);
    var v := OldestKey(s);
    assert Victims(s, maxSnapshots) == [v];
    DeleteOne(s, v);
  }

  lemma DeleteOne(s: Store, key: string)
    ensures DeleteAll(s, [key]) == Delete(s, key)
  {
    assert [key][..0] == [];
    assert DeleteAll(s, [key]) == Delete(DeleteAll(s, []), key);
  }

  /** The entry just written is last in order and latest in time, so it is not the oldest. */
  lemma WrittenIsNotOldest(s: Store, c: Config, key: string)
    requires Written(s, c, key) && |s.order| >= 2 && s.order[|s.order| - 1] == key
    ensures OldestKey(s) != key
  {
    OldestAtIsOldest(s.order, s.table);
    assert s.order[0] in s.order;
    assert EntryInv(s, c, s.order[0]);
    assert OldestAt(s.order, s.table) != |s.order| - 1;
  }

  lemma PutKeeps(s: Store, c: Config, key: string, data: Data, logged: Data, now: int)
    requires StoreInv(s, c) && s.clock <= now && c.snapshotTTL >= 0
    requires SameEffect(s, key, data, logged)
    ensures Written(Put(s, c, key, data, logged, now), c, key)
  {
    PutShape(s, c, key, data, logged, now);
    PutEntries(s, c, key, data, logged, now);
    PutVersion(s, c, key, data, logged, now);
  }

  /** A write evicts an entry exactly when a new key arrives at a full store: the oldest one, never the new one. */
  lemma CreateEvicts(s: Store, c: Config, key: string, data: Data, logged: Data, now: int)
    requires StoreInv(s, c) && s.clock <= now && c.snapshotTTL >= 0 && c.maxSnapshots >= 1
    requires SameEffect(s, key, data, logged)
    ensures var put := Put(s, c, key, data, logged, now);
      if key !in s.table && |s.order| == c.maxSnapshots
      then OldestKey(put) != key && Create(s, c, key, data, logged, now) == Delete(put, OldestKey(put))
      else Create(s, c, key, data, logged, now) == put
  {
    var put := Put(s, c, key, data, logged, now);
    if key !in s.table && |s.order| == c.maxSnapshots {
      PutKeeps(s, c, key, data, logged, now);
      WrittenIsNotOldest(put, c, key);
    }
  }

  lemma CreateKeeps(s: Store, c: Config, key: string, data: Data, logged: Data, now: int)
    requires StoreInv(s, c) && s.clock <= now && c.snapshotTTL >= 0 && c.maxSnapshots >= 1
    requires SameEffect(s, key, data, logged)
    ensures StoreInv(Create(s, c, key, data, logged, now), c) && Create(s, c, key, data, logged, now).clock == now
  {
    PutKeeps(s, c, key, data, logged, now);
    var put := Put(s, c, key, data, logged, now);
    if |put.order| > c.maxSnapshots {
      assert OldestKey(put) in put.order;
      DeleteKeeps(put, c, OldestKey(put));
    }
  }

  lemma ReadEntries(s: Store, c: Config, key: string, now: int)
    requires StoreInv(s, c) && s.clock <= now
    ensures forall k :: k in s.table ==> EntryInv(Read(s, c, key, now), c, k)
  {
    forall k | k in s.table
      ensures EntryInv(Read(s, c, key, now), c, k)
    {
      assert EntryInv(s, c, k);
    }
  }

  lemma ReadKeeps(s: Store, c: Config, key: string, now: int)
    requires StoreInv(s, c) && s.clock <= now
    ensures StoreInv(Read(s, c, key, now), c)
  {
    ReadEntries(s, c, key, now);
    ReadShape(s, c, key, now);
  }

  lemma ReadShape(s: Store, c: Config, key: string, now: int)
    requires WellFormed(s)
    ensures var r := Read(s, c, key, now);
      && WellFormed(r) && r.order == s.order && r.version == s.version && r.lost == s.lost && r.table.Keys == s.table.Keys
      && TotalVersions(r.order, r.table) == TotalVersions(s.order, s.table)
  {
    var r := Read(s, c, key, now);
    assert r.table.Keys == s.table.Keys && r.order == s.order;
    TotalFrame(s.order, s.table, r.table);
  }

  /** Spreading the existing snapshot under the updates writes what the updates alone write. */
  lemma SpreadSameEffect(s: Store, key: string, updates: Data)
    ensures SameEffect(s, key, if key in s.table then Spread(s.table[key].content, updates) else updates, updates)
  {
    if key in s.table {
      var e := s.table[key].content;
      assert e.others + (e.others + updates.others) == e.others + updates.others;
      assert e.metadata + (e.metadata + updates.metadata) == e.metadata + updates.metadata;
    }
  }

  lemma UpdateKeeps(s: Store, c: Config, key: string, updates: Data, now: int)
    requires StoreInv(s, c) && s.clock <= now && c.snapshotTTL >= 0 && c.maxSnapshots >= 1
    ensures StoreInv(Update(s, c, key, updates, now), c) && Update(s, c, key, updates, now).clock == now
  {
    SpreadSameEffect(s, key, updates);
    CreateKeeps(s, c, key, if key in s.table then Spread(s.table[key].content, updates) else updates, updates, now);
  }

  lemma BarsKeep(s: Store, c: Config, key: string, timeframe: string, bars: int, now: int)
    requires StoreInv(s, c) && s.clock <= now && c.snapshotTTL >= 0 && c.maxSnapshots >= 1
    ensures StoreInv(UpdateBars(s, c, key, timeframe, bars, now), c) && UpdateBars(s, c, key, timeframe, bars, now).clock == now
  {
    ReadKeeps(s, c, key, now);
    UpdateKeeps(Read(s, c, key, now), c, key, BarsUpdates(BarsOf(s, key), timeframe, bars, now), now);
  }

  lemma ClearKeeps(s: Store, c: Config, now: int)
    ensures StoreInv(Cleared(s, now), c) && Cleared(s, now).clock == now
  {
  }

  lemma QuoteKeeps(s: Store, c: Config, key: string, quote: Option<Quote>, now: int)
    requires StoreInv(s, c) && s.clock <= now && c.snapshotTTL >= 0 && c.maxSnapshots >= 1
    ensures StoreInv(UpdateQuote(s, c, key, quote, now), c) && UpdateQuote(s, c, key, quote, now).clock == now
  {
    UpdateKeeps(s, c, key, QuoteUpdates(quote, now), now);
  }

  lemma WriteKeeps(s: Store, c: Config, op: Op, now: int)
    requires StoreInv(s, c) && s.clock <= now && c.snapshotTTL >= 0 && c.maxSnapshots >= 1
    requires op.OpCreate? || op.OpUpdate? || op.OpQuote?
    ensures StoreAt(Apply(s, c, op, now), c, now)
  {
    if op.OpCreate? {
      CreateKeeps(s, c, op.key, op.data, op.data, now);
    } else if op.OpUpdate? {
      UpdateKeeps(s, c, op.key, op.updates, now);
    } else {
      QuoteKeeps(s, c, op.key, op.quote, now);
    }
  }

  /** Every operation keeps the invariant and leaves the clock at its own time. */
  lemma ApplyKeeps(s: Store, c: Config, op: Op, now: int)
    requires StoreInv(s, c) && s.clock <= now && c.snapshotTTL >= 0 && c.maxSnapshots >= 1
    ensures StoreAt(Apply(s, c, op, now), c, now)
  {
    match op
    case OpRead(key) => ReadKeeps(s, c, key, now);
    case OpBars(key, timeframe, bars) => BarsKeep(s, c, key, timeframe, bars, now);
    case OpClear => ClearKeeps(s, c, now);
    case _ => WriteKeeps(s, c, op, now);
  }

  // ---- Every run with a clock that never goes back ----

  function Run(s: Store, c: Config, ops: seq<(Op, int)>): Store
    decreases |ops|
  {
    if ops == [] then s else Run(Apply(s, c, ops[0].0, ops[0].1), c, ops[1..])
  }

  ghost predicate ClockAdvances(start: int, ops: seq<(Op, int)>) {
    && (ops != [] ==> start <= ops[0].1)
    && forall i, j :: 0 <= i < j < |ops| ==> ops[i].1 <= ops[j].1
  }

  lemma {:induction false} RunKeeps(s: Store, c: Config, ops: seq<(Op, int)>)
    requires StoreInv(s, c) && ClockAdvances(s.clock, ops) && c.snapshotTTL >= 0 && c.maxSnapshots >= 1
    ensures StoreInv(Run(s, c, ops), c)
    decreases |ops|
  {
    if ops != [] {
      ApplyKeeps(s, c, ops[0].0, ops[0].1);
      RunKeeps(Apply(s, c, ops[0].0, ops[0].1), c, ops[1..]);
    }
  }

  /** Every reachable store is bounded, accounts for every version ever written since the last clear, and replays its writes. */
  lemma ReachableInv(c: Config, start: int, ops: seq<(Op, int)>)
    requires ClockAdvances(start, ops) && c.snapshotTTL >= 0 && c.maxSnapshots >= 1
    ensures StoreInv(Run(Store([], map[], 0, start, 0, map[]), c, ops), c)
  {
    RunKeeps(Store([], map[], 0, start, 0, map[]), c, ops);
  }

  lemma OldestIsLeast(s: Store, k: string)
    requires WellFormed(s) && k in s.table
    ensures s.order != [] && OldestKey(s) in s.table && s.table[OldestKey(s)].updatedAt <= s.table[k].updatedAt
  {
    assert k in s.order;
    var j :| 0 <= j < |s.order| && s.order[j] == k;
    OldestAtIsOldest(s.order, s.table);
    assert OldestKey(s) in s.order;
    assert AgeOf(s.table, OldestKey(s)) <= AgeOf(s.table, s.order[j]);
  }

  /** The key just written is there with its new snapshot. */
  ghost predicate Stored(s: Store, r: Store, key: string, now: int) {
    && key in r.table && r.table[key].updatedAt == now && !r.table[key].stale
    && r.table[key].version == (if key in s.table then s.table[key].version else 0) + 1
  }

  /** Every other entry is untouched, or is the one evicted, which nothing alive before the write is older than. */
  ghost predicate OthersKept(s: Store, r: Store, key: string) {
    && (forall k :: k in r.table && k != key ==> k in s.table && r.table[k] == s.table[k])
    && (forall k, k' :: k in s.table && k !in r.table && k' in s.table && k' != key ==>
          s.table[k].updatedAt <= s.table[k'].updatedAt)
  }

  lemma PutEffects(s: Store, c: Config, key: string, data: Data, logged: Data, now: int)
    requires WellFormed(s)
    ensures var put := Put(s, c, key, data, logged, now);
      Stored(s, put, key, now) && OthersKept(s, put, key) && put.table.Keys == s.table.Keys + {key}
  {
  }

  lemma VictimIsLeast(s: Store, put: Store, key: string)
    requires WellFormed(s) && WellFormed(put) && put.order != [] && OldestKey(put) != key
    requires OthersKept(s, put, key) && put.table.Keys == s.table.Keys + {key}
    ensures OldestKey(put) in s.table
    ensures forall k :: k in s.table && k != key ==> s.table[OldestKey(put)].updatedAt <= s.table[k].updatedAt
  {
    var v := OldestKey(put);
    assert v in put.order;
    forall k | k in s.table && k != key
      ensures s.table[v].updatedAt <= s.table[k].updatedAt
    {
      OldestIsLeast(put, k);
    }
  }

  lemma DeleteEffects(s: Store, put: Store, key: string, now: int, v: string)
    requires Stored(s, put, key, now) && OthersKept(s, put, key) && put.table.Keys == s.table.Keys + {key}
    requires v != key && v in s.table
    requires forall k :: k in s.table && k != key ==> s.table[v].updatedAt <= s.table[k].updatedAt
    ensures var r := Delete(put, v);
      Stored(s, r, key, now) && OthersKept(s, r, key) && s.table.Keys - r.table.Keys == {v}
  {
  }

  /** The key is there, the others are kept, and an entry is lost exactly when a new key met a full store. */
  ghost predicate Survived(s: Store, c: Config, r: Store, key: string, now: int) {
    && Stored(s, r, key, now) && OthersKept(s, r, key)
    && |s.table.Keys - r.table.Keys| == if key !in s.table && |s.order| == c.maxSnapshots then 1 else 0
  }

  lemma CreateSurvives(s: Store, c: Config, key: string, data: Data, logged: Data, now: int)
    requires StoreInv(s, c) && s.clock <= now && c.snapshotTTL >= 0 && c.maxSnapshots >= 1
    requires SameEffect(s, key, data, logged)
    ensures Survived(s, c, Create(s, c, key, data, logged, now), key, now)
  {
    var put := Put(s, c, key, data, logged, now);
    CreateEvicts(s, c, key, data, logged, now);
    PutShape(s, c, key, data, logged, now);
    PutEffects(s, c, key, data, logged, now);
    if key !in s.table && |s.order| == c.maxSnapshots {
      VictimIsLeast(s, put, key);
      DeleteEffects(s, put, key, now, OldestKey(put));
    } else {
      assert s.table.Keys - put.table.Keys == {};
    }
  }

  lemma UpdateSurvives(s: Store, c: Config, key: string, updates: Data, now: int)
    requires StoreInv(s, c) && s.clock <= now && c.snapshotTTL >= 0 && c.maxSnapshots >= 1
    ensures Survived(s, c, Update(s, c, key, updates, now), key, now)
  {
    SpreadSameEffect(s, key, updates);
    CreateSurvives(s, c, key, if key in s.table then Spread(s.table[key].content, updates) else updates, updates, now);
  }

  /** read is s with at most the key's own mark set. */
  ghost predicate MarkedOnly(s: Store, read: Store, key: string) {
    && read.order == s.order && read.table.Keys == s.table.Keys
    && (forall k :: k in s.table ==> read.table[k] == s.table[k].(stale := read.table[k].stale))
    && (forall k :: k in s.table && k != key ==> read.table[k] == s.table[k])
  }

  lemma ReadSetsMark(s: Store, c: Config, key: string, now: int)
    ensures MarkedOnly(s, Read(s, c, key, now), key)
  {
  }

  /** The read before a bars update changes nothing a write could lose. */
  lemma SurvivesRead(s: Store, c: Config, read: Store, r: Store, key: string, now: int)
    requires MarkedOnly(s, read, key) && Survived(read, c, r, key, now)
    ensures Survived(s, c, r, key, now)
  {
    forall k, k' | k in s.table && k !in r.table && k' in s.table && k' != key
      ensures s.table[k].updatedAt <= s.table[k'].updatedAt
    {
      assert read.table[k].updatedAt <= read.table[k'].updatedAt;
    }
  }

  lemma BarsSurvive(s: Store, c: Config, read: Store, key: string, updates: Data, now: int)
    requires StoreInv(read, c) && read.clock <= now && c.snapshotTTL >= 0 && c.maxSnapshots >= 1 && MarkedOnly(s, read, key)
    ensures Survived(s, c, Update(read, c, key, updates, now), key, now)
  {
    UpdateSurvives(read, c, key, updates, now);
    SurvivesRead(s, c, read, Update(read, c, key, updates, now), key, now);
  }

  /**
   After any write, created or updated, the key is there, fresh and one version on; everything else is untouched but
   for at most one evicted entry, lost exactly when a new key met a full store, and no survivor is older than it.
   */
  lemma WriteSurvives(s: Store, c: Config, op: Op, now: int)
    requires StoreInv(s, c) && s.clock <= now && c.snapshotTTL >= 0 && c.maxSnapshots >= 1
    requires !op.OpRead? && !op.OpClear?
    ensures Survived(s, c, Apply(s, c, op, now), op.key, now)
  {
    match op
    case OpCreate(key, data) => CreateSurvives(s, c, key, data, data, now);
    case OpUpdate(key, updates) => UpdateSurvives(s, c, key, updates, now);
    case OpQuote(key, quote) => UpdateSurvives(s, c, key, QuoteUpdates(quote, now), now);
    case OpBars(key, timeframe, bars) =>
      ReadKeeps(s, c, key, now);
      ReadSetsMark(s, c, key, now);
      BarsSurvive(s, c, Read(s, c, key, now), key, BarsUpdates(BarsOf(s, key), timeframe, bars, now), now);
  }

  /** A read marks a snapshot stale exactly when its age exceeds the TTL, and returns it either way. */
  lemma ReadMarksExactlyStale(s: Store, c: Config, key: string, now: int)
    requires StoreInv(s, c) && s.clock <= now && key in s.table
    ensures var r := Read(s, c, key, now).table[key];
      && (r.stale <==> now - r.updatedAt > c.snapshotTTL)
      && r == s.table[key].(stale := r.stale)
  {
    assert EntryInv(s, c, key);
  }

  /** Reads and the statistics agree on an entry's staleness except at one age: the TTL itself, which only the statistics count. */
  lemma StalenessAgreesExactly(s: Store, c: Config, key: string, now: int)
    requires StoreInv(s, c) && s.clock <= now && key in s.table
    ensures var age := now - s.table[key].updatedAt;
      (Read(s, c, key, now).table[key].stale <==> age >= c.snapshotTTL) <==> age != c.snapshotTTL
  {
    ReadMarksExactlyStale(s, c, key, now);
  }

  // ---- Sticky fields ----

  /** The last value a log holds for a field, skipping writes that leave it out. */
  function Last<T>(log: seq<Data>, field: Data -> Option<T>): Option<T> {
    if log == [] then None
    else if field(log[|log| - 1]).Some? then field(log[|log| - 1])
    else Last(log[..|log| - 1], field)
  }

  lemma {:induction false} LastAt<T(!new)>(log: seq<Data>, field: Data -> Option<T>)
    ensures Last(log, field).None? ==> forall i :: 0 <= i < |log| ==> field(log[i]).None?
    ensures Last(log, field).Some? ==>
              exists i :: 0 <= i < |log| && field(log[i]) == Last(log, field) && forall j :: i < j < |log| ==> field(log[j]).None?
  {
    if log != [] {
      var n := |log| - 1;
      if field(log[n]).None? {
        LastAt(log[..n], field);
        if Last(log[..n], field).Some? {
          var i :| 0 <= i < n && field(log[..n][i]) == Last(log[..n], field) && forall j :: i < j < n ==> field(log[..n][j]).None?;
          assert field(log[i]) == Last(log, field) && forall j :: i < j < |log| ==> field(log[j]).None?;
        }
      }
    }
  }

  function Get<K, V>(m: map<K, V>, k: K): Option<V> {
    if k in m then Some(m[k]) else None
  }

  function OtherField(f: Sticky): Data -> Option<int> {
    (d: Data) => Get(d.others, f)
  }

  function MetaField(k: string): Data -> Option<MetaValue> {
    (d: Data) => Get(d.metadata, k)
  }

  /** Replaying a log leaves each field at its last written value, or at its default. */
  lemma {:induction false} ReplayIsLastWrite(log: seq<Data>)
    ensures var r := Replay(log);
      && r.quote == Last(log, (d: Data) => d.quote)
      && r.bars == Last(log, (d: Data) => d.bars).GetOr(map[])
      && r.signalValid == Last(log, (d: Data) => d.signalValid).GetOr(false)
      && r.layer18Ready == Last(log, (d: Data) => d.layer18Ready).GetOr(false)
      && (forall f :: Get(r.others, f) == Last(log, OtherField(f)))
      && (forall k :: Get(r.metadata, k) == Last(log, MetaField(k)))
  {
    if log != [] {
      var n := |log| - 1;
      ReplayIsLastWrite(log[..n]);
      var before, r := Replay(log[..n]), Replay(log);
      forall f
        ensures Get(r.others, f) == Last(log, OtherField(f))
      {
        assert Get(before.others, f) == Last(log[..n], OtherField(f));
        assert OtherField(f)(log[n]) == Get(log[n].others, f);
      }
      forall k
        ensures Get(r.metadata, k) == Last(log, MetaField(k))
      {
        assert Get(before.metadata, k) == Last(log[..n], MetaField(k));
        assert MetaField(k)(log[n]) == Get(log[n].metadata, k);
      }
    }
  }

  /** In every reachable store each sticky field holds its last write since the entry was created. */
  lemma StickyFields(c: Config, start: int, ops: seq<(Op, int)>, key: string)
    requires ClockAdvances(start, ops) && c.snapshotTTL >= 0 && c.maxSnapshots >= 1
    requires key in Run(Store([], map[], 0, start, 0, map[]), c, ops).table
    ensures var s := Run(Store([], map[], 0, start, 0, map[]), c, ops);
      && key in s.log
      && s.table[key].version == |s.log[key]|
      && s.table[key].content.quote == Last(s.log[key], (d: Data) => d.quote)
      && s.table[key].content.bars == Last(s.log[key], (d: Data) => d.bars).GetOr(map[])
      && s.table[key].content.signalValid == Last(s.log[key], (d: Data) => d.signalValid).GetOr(false)
      && s.table[key].content.layer18Ready == Last(s.log[key], (d: Data) => d.layer18Ready).GetOr(false)
      && (forall f :: Get(s.table[key].content.others, f) == Last(s.log[key], OtherField(f)))
  {
    ReachableInv(c, start, ops);
    var s := Run(Store([], map[], 0, start, 0, map[]), c, ops);
    assert EntryInv(s, c, key);
    ReplayIsLastWrite(s.log[key]);
  }

  // ---- Quote and bars updates at one instant commute ----

  /** What a caller can observe: everything but the logs. */
  ghost predicate SameStore(a: Store, b: Store) {
    b == a.(log := b.log)
  }

  /** A write to a live key evicts nothing. */
  lemma UpdateLive(s: Store, c: Config, key: string, updates: Data, now: int)
    requires StoreInv(s, c) && s.clock <= now && c.snapshotTTL >= 0 && c.maxSnapshots >= 1 && key in s.table
    ensures Update(s, c, key, updates, now) == Put(s, c, key, Spread(s.table[key].content, updates), updates, now)
  {
    SpreadSameEffect(s, key, updates);
    CreateEvicts(s, c, key, Spread(s.table[key].content, updates), updates, now);
  }

  lemma FirstPutsAgree(s: Store, c: Config, key: string, d: Data, e: Data, now: int)
    requires WellFormed(s) && key !in s.table
    ensures var a, b := Put(s, c, key, d, d, now), Put(s, c, key, e, e, now);
      && key in a.table && a.table[key] == Write(None, d, now)
      && SameBut(a, b, key, Write(None, e, now))
  {
  }

  /** b is a with another snapshot under key. */
  ghost predicate SameBut(a: Store, b: Store, key: string, snapshot: Snapshot) {
    b == a.(table := a.table[key := snapshot], log := b.log)
  }

  lemma DeleteSameBut(a: Store, b: Store, key: string, snapshot: Snapshot, v: string)
    requires SameBut(a, b, key, snapshot) && v != key && v in a.table
    ensures SameBut(Delete(a, v), Delete(b, v), key, snapshot)
  {
    assert b.table - {v} == (a.table - {v})[key := snapshot];
  }

  lemma {:induction false} OldestAtFrame(order: seq<string>, table: map<string, Snapshot>, table': map<string, Snapshot>)
    requires order != [] && forall k :: k in order ==> AgeOf(table, k) == AgeOf(table', k)
    ensures OldestAt(order, table) == OldestAt(order, table')
  {
    var n := |order| - 1;
    if n > 0 {
      assert order[n] in order;
      assert forall k :: k in order[..n] ==> k in order;
      OldestAtFrame(order[..n], table, table');
      assert order[OldestAt(order[..n], table)] in order;
    }
  }

  lemma EvictionsAgree(a: Store, b: Store, key: string, snapshot: Snapshot)
    requires WellFormed(a) && a.order != [] && OldestKey(a) != key
    requires SameBut(a, b, key, snapshot) && key in a.table && snapshot.updatedAt == a.table[key].updatedAt
    ensures OldestKey(a) == OldestKey(b) && SameBut(Delete(a, OldestKey(a)), Delete(b, OldestKey(b)), key, snapshot)
  {
    OldestAtFrame(a.order, a.table, b.table);
    assert OldestKey(a) in a.order;
    DeleteSameBut(a, b, key, snapshot, OldestKey(a));
  }

  /** Two first writes of a key at one instant leave stores that differ in that key's content alone. */
  lemma FirstWritesAgree(s: Store, c: Config, key: string, d: Data, e: Data, now: int)
    requires StoreInv(s, c) && s.clock <= now && c.snapshotTTL >= 0 && c.maxSnapshots >= 1 && key !in s.table
    ensures var a, b := Create(s, c, key, d, d, now), Create(s, c, key, e, e, now);
      key in a.table && a.table[key] == Write(None, d, now) && SameBut(a, b, key, Write(None, e, now))
  {
    CreateEvicts(s, c, key, d, d, now);
    CreateEvicts(s, c, key, e, e, now);
    FirstPutsAgree(s, c, key, d, e, now);
    if |s.order| == c.maxSnapshots {
      PutShape(s, c, key, d, d, now);
      EvictionsAgree(Put(s, c, key, d, d, now), Put(s, c, key, e, e, now), key, Write(None, e, now));
    }
  }

  lemma SpreadAbsorbs(base: Content, u: Data)
    ensures Overlay(base, Spread(base, u)) == Overlay(base, u)
  {
    assert base.others + (base.others + u.others) == base.others + u.others;
    assert base.metadata + (base.metadata + u.metadata) == base.metadata + u.metadata;
  }

  lemma OverlaysCommute(base: Content, q: Data, u: Data)
    requires q == NOTHING.(quote := q.quote, metadata := q.metadata)
    requires u == NOTHING.(bars := u.bars, metadata := u.metadata)
    requires q.metadata.Keys !! u.metadata.Keys
    ensures Overlay(Overlay(base, q), u) == Overlay(Overlay(base, u), q)
  {
    assert base.metadata + q.metadata + u.metadata == base.metadata + u.metadata + q.metadata;
  }

  lemma MetaKeysDisjoint(quote: Option<Quote>, bars: map<string, int>, timeframe: string, b: int, now: int)
    ensures QuoteUpdates(quote, now).metadata.Keys !! BarsUpdates(bars, timeframe, b, now).metadata.Keys
  {
    assert "lastQuoteAt"[4] == 'Q' == "lastQuoteSource"[4];
    assert "lastBarsAt"[4] == 'B' == "lastBarsTimeframe"[4];
  }

  /** Writing the quote and then the bars, or the bars and then the quote, leaves one snapshot. */
  lemma BothOrdersWriteOne(e: Option<Snapshot>, quote: Option<Quote>, timeframe: string, b: int, now: int)
    ensures var base := if e.Some? then e.value.content else EMPTY;
      var q, u := QuoteUpdates(quote, now), BarsUpdates(base.bars, timeframe, b, now);
      var first, first' := Write(e, q, now), Write(e, u, now);
      && first.content.bars == base.bars
      && Write(Some(first), Spread(first.content, u), now) == Write(Some(first'), Spread(first'.content, q), now)
  {
    var base := if e.Some? then e.value.content else EMPTY;
    var q, u := QuoteUpdates(quote, now), BarsUpdates(base.bars, timeframe, b, now);
    MetaKeysDisjoint(quote, base.bars, timeframe, b, now);
    OverlaysCommute(base, q, u);
    SpreadAbsorbs(Overlay(base, q), u);
    SpreadAbsorbs(Overlay(base, u), q);
  }

  lemma Overwrite<K, V>(m: map<K, V>, k: K, v: V, w: V)
    ensures m[k := v][k := w] == m[k := w]
  {
  }

  lemma FreshRead(s: Store, c: Config, key: string, now: int)
    requires key in s.table && s.table[key].updatedAt == now == s.clock && c.snapshotTTL >= 0
    ensures Read(s, c, key, now) == s
  {
  }

  lemma LivePutsMeet(a: Store, b: Store, c: Config, key: string, e: Option<Snapshot>, q: Data, u: Data, now: int)
    requires a.clock == now && key in a.table && a.table[key] == Write(e, q, now) && SameBut(a, b, key, Write(e, u, now))
    requires Write(Some(Write(e, q, now)), Spread(Write(e, q, now).content, u), now) ==
             Write(Some(Write(e, u, now)), Spread(Write(e, u, now).content, q), now)
    ensures SameStore(Put(a, c, key, Spread(a.table[key].content, u), u, now), Put(b, c, key, Spread(b.table[key].content, q), q, now))
  {
    var w := Write(Some(a.table[key]), Spread(a.table[key].content, u), now);
    Overwrite(a.table, key, b.table[key], w);
  }

  /** Once the first writes agree up to the key's content, the second writes bring it together. */
  lemma SecondWritesMeet(a: Store, b: Store, c: Config, key: string, e: Option<Snapshot>,
                         quote: Option<Quote>, timeframe: string, bars: int, now: int)
    requires StoreInv(a, c) && StoreInv(b, c) && a.clock == now && c.snapshotTTL >= 0 && c.maxSnapshots >= 1
    requires var base := if e.Some? then e.value.content else EMPTY;
      && key in a.table && a.table[key] == Write(e, QuoteUpdates(quote, now), now)
      && SameBut(a, b, key, Write(e, BarsUpdates(base.bars, timeframe, bars, now), now))
    ensures SameStore(UpdateBars(a, c, key, timeframe, bars, now), UpdateQuote(b, c, key, quote, now))
  {
    var base := if e.Some? then e.value.content else EMPTY;
    var q, u := QuoteUpdates(quote, now), BarsUpdates(base.bars, timeframe, bars, now);
    FreshRead(a, c, key, now);
    BothOrdersWriteOne(e, quote, timeframe, bars, now);
    UpdateLive(a, c, key, u, now);
    UpdateLive(b, c, key, q, now);
    LivePutsMeet(a, b, c, key, e, q, u, now);
  }

  /** The first writes of a live key, from a store whose mark a read may have set. */
  lemma LivePutsAgree(s: Store, read: Store, c: Config, key: string, q: Data, u: Data, now: int)
    requires key in s.table && key in read.table
    requires read == s.(table := s.table[key := s.table[key].(stale := read.table[key].stale)], clock := now)
    ensures var a := Put(s, c, key, Spread(s.table[key].content, q), q, now);
      var b := Put(read, c, key, Spread(s.table[key].content, u), u, now);
      && key in a.table && a.table[key] == Write(Some(s.table[key]), q, now)
      && SameBut(a, b, key, Write(Some(s.table[key]), u, now))
  {
    SpreadAbsorbs(s.table[key].content, q);
    SpreadAbsorbs(s.table[key].content, u);
    var w := Write(Some(s.table[key]), u, now);
    Overwrite(s.table, key, read.table[key], w);
    Overwrite(s.table, key, Write(Some(s.table[key]), q, now), w);
  }

  lemma FirstLiveWrites(s: Store, c: Config, key: string, quote: Option<Quote>, timeframe: string, bars: int, now: int)
    requires StoreInv(s, c) && s.clock <= now && c.snapshotTTL >= 0 && c.maxSnapshots >= 1 && key in s.table
    ensures var e := s.table[key];
      var a := UpdateQuote(s, c, key, quote, now);
      var b := UpdateBars(s, c, key, timeframe, bars, now);
      && key in a.table && a.table[key] == Write(Some(e), QuoteUpdates(quote, now), now)
      && SameBut(a, b, key, Write(Some(e), BarsUpdates(e.content.bars, timeframe, bars, now), now))
  {
    var q, u := QuoteUpdates(quote, now), BarsUpdates(BarsOf(s, key), timeframe, bars, now);
    var read := Read(s, c, key, now);
    UpdateLive(s, c, key, q, now);
    ReadKeeps(s, c, key, now);
    UpdateLive(read, c, key, u, now);
    ReadMarks(s, c, key, now);
    LivePutsAgree(s, read, c, key, q, u, now);
  }

  lemma ReadMarks(s: Store, c: Config, key: string, now: int)
    requires key in s.table
    ensures var read := Read(s, c, key, now);
      && key in read.table
      && read == s.(table := s.table[key := s.table[key].(stale := read.table[key].stale)], clock := now)
  {
    var read := Read(s, c, key, now);
    assert read.table == s.table[key := s.table[key].(stale := read.table[key].stale)];
  }

  lemma PutIgnoresClock(s: Store, c: Config, key: string, u: Data, now: int)
    requires key !in s.table
    ensures Put(Read(s, c, key, now), c, key, u, u, now) == Put(s, c, key, u, u, now)
  {
  }

  lemma FirstNewWrites(s: Store, c: Config, key: string, quote: Option<Quote>, timeframe: string, bars: int, now: int)
    requires StoreInv(s, c) && s.clock <= now && c.snapshotTTL >= 0 && c.maxSnapshots >= 1 && key !in s.table
    ensures var a, b := UpdateQuote(s, c, key, quote, now), UpdateBars(s, c, key, timeframe, bars, now);
      && key in a.table && a.table[key] == Write(None, QuoteUpdates(quote, now), now)
      && SameBut(a, b, key, Write(None, BarsUpdates(map[], timeframe, bars, now), now))
  {
    var q, u := QuoteUpdates(quote, now), BarsUpdates(map[], timeframe, bars, now);
    PutIgnoresClock(s, c, key, u, now);
    FirstWritesAgree(s, c, key, q, u, now);
  }

  /**
   At one clock value a quote update and a bars update of one key commute completely: same entries in the
   same order, same versions and metadata, same eviction, whether or not the key was there before.
   */
  lemma QuoteAndBarsCommute(s: Store, c: Config, key: string, quote: Option<Quote>, timeframe: string, bars: int, now: int)
    requires StoreInv(s, c) && s.clock <= now && c.snapshotTTL >= 0 && c.maxSnapshots >= 1
    ensures SameStore(UpdateBars(UpdateQuote(s, c, key, quote, now), c, key, timeframe, bars, now),
                      UpdateQuote(UpdateBars(s, c, key, timeframe, bars, now), c, key, quote, now))
  {
    var a, b := UpdateQuote(s, c, key, quote, now), UpdateBars(s, c, key, timeframe, bars, now);
    if key in s.table {
      FirstLiveWrites(s, c, key, quote, timeframe, bars, now);
    } else {
      FirstNewWrites(s, c, key, quote, timeframe, bars, now);
    }
    UpdateKeeps(s, c, key, QuoteUpdates(quote, now), now);
    BarsKeep(s, c, key, timeframe, bars, now);
    SecondWritesMeet(a, b, c, key, Find(s, key), quote, timeframe, bars, now);
  }

  // ---- Statistics ----

  function CountWhere(order: seq<string>, table: map<string, Snapshot>, p: Snapshot -> bool): nat {
    if order == [] then 0
    else CountWhere(order[..|order| - 1], table, p) +
         (if order[|order| - 1] in table && p(table[order[|order| - 1]]) then 1 else 0)
  }

  datatype Statistics = Statistics(total: nat, version: nat, ready: nat, pending: nat, current: nat, expired: nat)

  function StatisticsOf(s: Store, c: Config, now: int): Statistics {
    Statistics(
      |s.order|, s.version,
      CountWhere(s.order, s.table, (x: Snapshot) => x.content.signalValid && x.content.layer18Ready),
      CountWhere(s.order, s.table, (x: Snapshot) => !x.content.signalValid || !x.content.layer18Ready),
      CountWhere(s.order, s.table, (x: Snapshot) => now - x.updatedAt < c.snapshotTTL),
      CountWhere(s.order, s.table, (x: Snapshot) => now - x.updatedAt >= c.snapshotTTL))
  }

  lemma {:induction false} CountsPartition(order: seq<string>, table: map<string, Snapshot>, p: Snapshot -> bool, q: Snapshot -> bool)
    requires forall k :: k in order ==> k in table
    requires forall x :: p(x) <==> !q(x)
    ensures CountWhere(order, table, p) + CountWhere(order, table, q) == |order|
  {
    if order != [] {
      assert order[|order| - 1] in order;
      CountsPartition(order[..|order| - 1], table, p, q);
    }
  }

  lemma StatisticsPartition(s: Store, c: Config, now: int)
    requires WellFormed(s)
    ensures var t := StatisticsOf(s, c, now);
      t.total == |s.order| && t.ready + t.pending == t.total && t.current + t.expired == t.total
  {
    CountsPartition(s.order, s.table, (x: Snapshot) => x.content.signalValid && x.content.layer18Ready,
                    (x: Snapshot) => !x.content.signalValid || !x.content.layer18Ready);
    CountsPartition(s.order, s.table, (x: Snapshot) => now - x.updatedAt < c.snapshotTTL,
                    (x: Snapshot) => now - x.updatedAt >= c.snapshotTTL);
  }

  // ---- The program's manager ----

  lemma DeleteShape(s: Store, key: string)
    requires WellFormed(s) && key in s.table
    ensures WellFormed(Delete(s, key)) && |Delete(s, key).order| == |s.order| - 1
  {
    WithoutElements(s.order, key);
  }

  lemma EvictShape(s: Store)
    requires WellFormed(s) && s.order != []
    ensures WellFormed(Evict(s)) && |Evict(s).order| == |s.order| - 1
  {
    assert OldestKey(s) in s.order;
    DeleteShape(s, OldestKey(s));
  }

  /** A write keeps the Map well-formed and within its limit, whatever the clock. */
  lemma CreateShape(s: Store, c: Config, key: string, data: Data, logged: Data, now: int)
    requires WellFormed(s) && |s.order| <= c.maxSnapshots && c.maxSnapshots >= 1
    ensures WellFormed(Create(s, c, key, data, logged, now))
    ensures |Create(s, c, key, data, logged, now).order| <= c.maxSnapshots
  {
    var put := Put(s, c, key, data, logged, now);
    PutShape(s, c, key, data, logged, now);
    assert |put.order| <= c.maxSnapshots + 1;
    if |put.order| > c.maxSnapshots {
      EvictShape(put);
    }
  }

  class SnapshotManager {
    const config: Config
    var order: seq<string>
    var snapshots: map<string, Snapshot>
    var version: nat
    ghost var clock: int
    ghost var lost: nat
    ghost var log: map<string, seq<Data>>

    ghost function Contents(): Store
      reads this
    {
      Store(order, snapshots, version, clock, lost, log)
    }

    /** The Map is one, and within its limit. */
    ghost predicate Valid()
      reads this
    {
      config.maxSnapshots >= 1 && WellFormed(Contents()) && |order| <= config.maxSnapshots
    }

    constructor (config: Config, ghost now: int)
      requires config.maxSnapshots >= 1
      ensures Valid() && this.config == config && Contents() == Store([], map[], 0, now, 0, map[])
    {
      this.config := config;
      order, snapshots, version := [], map[], 0;
      clock, lost, log := now, 0, map[];
    }

    /** The Map entry and the global version, before any cleanup. */
    method SetSnapshot(key: string, data: Data, ghost logged: Data, now: int) returns (snapshot: Snapshot)
      modifies this
      ensures Contents() == Put(old(Contents()), config, key, data, logged, now)
      ensures snapshot == Write(Find(old(Contents()), key), data, now)
    {
      var existing := if key in snapshots then Some(snapshots[key]) else None;
      snapshot := Write(existing, data, now);
      if key !in snapshots {
        order := order + [key];
      }
      snapshots := snapshots[key := snapshot];
      log := log[key := (if key in log then log[key] else []) + [logged]];
      clock := now;
      if config.enableVersioning {
        version := version + 1;
      }
    }

    /** logged is the caller's own write; data may carry the existing fields spread under it. */
    method CreateSnapshot(key: string, data: Data, ghost logged: Data, now: int) returns (snapshot: Snapshot)
      requires Valid()
      modifies this
      ensures Valid() && Contents() == Create(old(Contents()), config, key, data, logged, now)
      ensures snapshot == Write(Find(old(Contents()), key), data, now)
    {
      CreateShape(Contents(), config, key, data, logged, now);
      PutShape(Contents(), config, key, data, logged, now);
      snapshot := SetSnapshot(key, data, logged, now);
      OrderSize(order, snapshots);
      if |snapshots| > config.maxSnapshots {
        CleanupIsEvict(Contents(), config.maxSnapshots);
        CleanupOldSnapshots();
      }
    }

    method DeleteSnapshot(key: string)
      modifies this`order, this`snapshots, this`lost, this`log
      ensures Contents() == Delete(old(Contents()), key)
    {
      if key in snapshots {
        lost := lost + snapshots[key].version;
        log := log - {key};
        order := Without(order, key);
        snapshots := snapshots - {key};
      }
    }

    method CleanupOldSnapshots()
      modifies this`order, this`snapshots, this`lost, this`log
      ensures Contents() == Cleanup(old(Contents()), config.maxSnapshots)
    {
      var sorted := Sort(order, UpdatedAt(snapshots));
      var toRemove := |sorted| - config.maxSnapshots;
      if toRemove > 0 {
        ghost var start := Contents();
        ghost var victims := Victims(start, config.maxSnapshots);
        for i := 0 to toRemove
          invariant victims == sorted[..toRemove]
          invariant Contents() == DeleteAll(start, victims[..i])
        {
          assert victims[..i + 1][..i] == victims[..i];
          DeleteSnapshot(sorted[i]);
        }
        assert victims[..toRemove] == victims;
      }
    }

    method GetSnapshot(key: string, now: int) returns (snapshot: Option<Snapshot>)
      requires Valid()
      modifies this`snapshots, this`clock
      ensures Valid() && Contents() == Read(old(Contents()), config, key, now)
      ensures snapshot == Find(Contents(), key)
    {
      clock := now;
      if key !in snapshots {
        return None;
      }
      var age := now - snapshots[key].updatedAt;
      if age > config.snapshotTTL {
        snapshots := snapshots[key := snapshots[key].(stale := true)];
      }
      return Some(snapshots[key]);
    }

    method UpdateSnapshot(key: string, updates: Data, now: int) returns (snapshot: Snapshot)
      requires Valid()
      modifies this
      ensures Valid() && Contents() == Update(old(Contents()), config, key, updates, now)
      ensures snapshot.updatedAt == now && !snapshot.stale
    {
      if key !in snapshots {
        snapshot := CreateSnapshot(key, updates, updates, now);
      } else {
        snapshot := CreateSnapshot(key, Spread(snapshots[key].content, updates), updates, now);
      }
    }

    method UpdateQuoteData(key: string, quote: Option<Quote>, now: int) returns (snapshot: Snapshot)
      requires Valid()
      modifies this
      ensures Valid() && Contents() == UpdateQuote(old(Contents()), config, key, quote, now)
    {
      snapshot := UpdateSnapshot(key, QuoteUpdates(quote, now), now);
    }

    method UpdateBarsData(key: string, timeframe: string, bars: int, now: int) returns (snapshot: Snapshot)
      requires Valid()
      modifies this
      ensures Valid() && Contents() == UpdateBars(old(Contents()), config, key, timeframe, bars, now)
    {
      var existing := GetSnapshot(key, now);
      var existingBars := if existing.Some? then existing.value.content.bars else map[];
      snapshot := UpdateSnapshot(key, BarsUpdates(existingBars, timeframe, bars, now), now);
    }

    method Clear(ghost now: int)
      requires Valid()
      modifies this
      ensures Valid() && Contents() == Cleared(old(Contents()), now)
    {
      order, snapshots, version := [], map[], 0;
      clock, lost, log := now, 0, map[];
    }
  }
}
