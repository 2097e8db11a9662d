/** What each write leaves in a snapshot, in terms of what was sent: quotes, bars, whole updates, and the log of them. */
module SnapshotWrites {
  import opened Options
  import opened SnapshotStore

  /** The content before a write: a new snapshot starts with nothing. */
  function Before(s: Store, key: string): Content {
    if key in s.table then s.table[key].content else Content(None, map[], map[], false, false, map[])
  }

  predicate Settled(c: Config) {
    c.snapshotTTL >= 0 && c.maxSnapshots >= 1
  }

  lemma CreateWrites(s: Store, c: Config, key: string, data: Data, logged: Data, now: int)
    requires StoreInv(s, c) && s.clock <= now && Settled(c) && SameEffect(s, key, data, logged)
    ensures var r := Create(s, c, key, data, logged, now);
      && key in r.table && r.table[key] == Write(Find(s, key), data, now)
      && r.version == s.version + (if c.enableVersioning then 1 else 0)
  {
    CreateEvicts(s, c, key, data, logged, now);
    PutShape(s, c, key, data, logged, now);
    var put := Put(s, c, key, data, logged, now);
    if key !in s.table && |s.order| == c.maxSnapshots {
      assert OldestKey(put) in put.order;
    }
  }

  lemma UpdateWrites(s: Store, c: Config, key: string, updates: Data, now: int)
    requires StoreInv(s, c) && s.clock <= now && Settled(c)
    ensures var r := Update(s, c, key, updates, now);
      && key in r.table && r.table[key].content == Overlay(Before(s, key), updates)
      && r.version == s.version + (if c.enableVersioning then 1 else 0)
  {
    SpreadSameEffect(s, key, updates);
    CreateWrites(s, c, key, if key in s.table then Spread(s.table[key].content, updates) else updates, updates, now);
  }

  lemma BarsWrite(s: Store, c: Config, key: string, timeframe: string, bars: int, now: int)
    requires StoreInv(s, c) && s.clock <= now && Settled(c)
    ensures var r := UpdateBars(s, c, key, timeframe, bars, now);
      && key in r.table
      && r.table[key].content == Overlay(Before(s, key), BarsUpdates(Before(s, key).bars, timeframe, bars, now))
      && r.version == s.version + (if c.enableVersioning then 1 else 0)
  {
    ReadKeeps(s, c, key, now);
    UpdateWrites(Read(s, c, key, now), c, key, BarsUpdates(BarsOf(s, key), timeframe, bars, now), now);
  }

  /**
   A quote update stores the quote it was given, received when it says, else at its own time, else now; the metadata
   say the same, and nothing else changes.
   */
  lemma QuoteStored(s: Store, c: Config, key: string, q: Quote, now: int)
    requires StoreInv(s, c) && s.clock <= now && Settled(c)
    ensures var r, before := Apply(s, c, OpQuote(key, Some(q)), now), Before(s, key);
      var at := if q.receivedAt.Some? then q.receivedAt.value else if q.timestamp.Some? then q.timestamp.value else now;
      key in r.table && r.table[key].content ==
        before.(quote := Some(Quote(Some(at), q.timestamp, q.source, q.body)),
                metadata := before.metadata["lastQuoteAt" := Time(at)]["lastQuoteSource" := Text(q.source)])
  {
    UpdateWrites(s, c, key, QuoteUpdates(Some(q), now), now);
    QuoteOverlay(Before(s, key), q, now);
  }

  lemma QuoteOverlay(before: Content, q: Quote, now: int)
    ensures var at := if q.receivedAt.Some? then q.receivedAt.value else if q.timestamp.Some? then q.timestamp.value else now;
      Overlay(before, QuoteUpdates(Some(q), now)) ==
        before.(quote := Some(Quote(Some(at), q.timestamp, q.source, q.body)),
                metadata := before.metadata["lastQuoteAt" := Time(at)]["lastQuoteSource" := Text(q.source)])
  {
    var at := if q.receivedAt.Some? then q.receivedAt.value else if q.timestamp.Some? then q.timestamp.value else now;
    QuoteMeta(before.metadata, at, q.source);
  }

  lemma NoQuoteOverlay(before: Content, now: int)
    ensures Overlay(before, QuoteUpdates(None, now)) ==
            before.(metadata := before.metadata["lastQuoteAt" := Time(now)]["lastQuoteSource" := Text(None)])
  {
    QuoteMeta(before.metadata, now, None);
  }

  lemma QuoteMeta(m: map<string, MetaValue>, at: int, source: Option<string>)
    ensures m + map["lastQuoteAt" := Time(at), "lastQuoteSource" := Text(source)] ==
            m["lastQuoteAt" := Time(at)]["lastQuoteSource" := Text(source)]
  {
  }

  /** Without a quote the update keeps the one before, and only notes the time. */
  lemma NoQuoteStored(s: Store, c: Config, key: string, now: int)
    requires StoreInv(s, c) && s.clock <= now && Settled(c)
    ensures var r, before := Apply(s, c, OpQuote(key, None), now), Before(s, key);
      key in r.table && r.table[key].content ==
        before.(metadata := before.metadata["lastQuoteAt" := Time(now)]["lastQuoteSource" := Text(None)])
  {
    UpdateWrites(s, c, key, QuoteUpdates(None, now), now);
    NoQuoteOverlay(Before(s, key), now);
  }

  /** A bars update replaces the bars of its timeframe and keeps every other timeframe, the quote and the rest. */
  lemma BarsStored(s: Store, c: Config, key: string, timeframe: string, bars: int, now: int)
    requires StoreInv(s, c) && s.clock <= now && Settled(c)
    ensures var r, before := Apply(s, c, OpBars(key, timeframe, bars), now), Before(s, key);
      key in r.table && r.table[key].content ==
        before.(bars := before.bars[timeframe := bars],
                metadata := before.metadata["lastBarsAt" := Time(now)]
                              ["lastBarsTimeframe" := Text(if timeframe == "" then None else Some(timeframe))])
  {
    BarsWrite(s, c, key, timeframe, bars, now);
    BarsOverlay(Before(s, key), timeframe, bars, now);
  }

  lemma BarsOverlay(before: Content, timeframe: string, bars: int, now: int)
    ensures Overlay(before, BarsUpdates(before.bars, timeframe, bars, now)) ==
            before.(bars := before.bars[timeframe := bars],
                    metadata := before.metadata["lastBarsAt" := Time(now)]
                                  ["lastBarsTimeframe" := Text(if timeframe == "" then None else Some(timeframe))])
  {
    BarsMeta(before.metadata, now, if timeframe == "" then None else Some(timeframe));
  }

  lemma BarsMeta(m: map<string, MetaValue>, at: int, timeframe: Option<string>)
    ensures m + map["lastBarsAt" := Time(at), "lastBarsTimeframe" := Text(timeframe)] ==
            m["lastBarsAt" := Time(at)]["lastBarsTimeframe" := Text(timeframe)]
  {
  }

  /** Every field sent is stored, and every field left out stays. */
  ghost predicate Merged(before: Content, sent: Data, after: Content) {
    && after.quote == (if sent.quote.Some? then sent.quote else before.quote)
    && after.bars == (if sent.bars.Some? then sent.bars.value else before.bars)
    && after.signalValid == (if sent.signalValid.Some? then sent.signalValid.value else before.signalValid)
    && after.layer18Ready == (if sent.layer18Ready.Some? then sent.layer18Ready.value else before.layer18Ready)
    && (forall f :: Get(after.others, f) == if f in sent.others then Some(sent.others[f]) else Get(before.others, f))
    && (forall k :: Get(after.metadata, k) == if k in sent.metadata then Some(sent.metadata[k]) else Get(before.metadata, k))
  }

  /** A created and an updated snapshot alike hold what was sent over what was there. */
  lemma DataStored(s: Store, c: Config, key: string, sent: Data, now: int)
    requires StoreInv(s, c) && s.clock <= now && Settled(c)
    ensures var created, updated := Apply(s, c, OpCreate(key, sent), now), Apply(s, c, OpUpdate(key, sent), now);
      && key in created.table && Merged(Before(s, key), sent, created.table[key].content)
      && key in updated.table && Merged(Before(s, key), sent, updated.table[key].content)
  {
    CreateWrites(s, c, key, sent, sent, now);
    UpdateWrites(s, c, key, sent, now);
    OverlayMerges(Before(s, key), sent);
  }

  lemma OverlayMerges(before: Content, sent: Data)
    ensures Merged(before, sent, Overlay(before, sent))
  {
  }

  /** Every write counts once in the global version, when versioning is on. */
  lemma VersionCounts(s: Store, c: Config, op: Op, now: int)
    requires StoreInv(s, c) && s.clock <= now && Settled(c) && !op.OpClear?
    ensures Apply(s, c, op, now).version == s.version + (if op.OpRead? || !c.enableVersioning then 0 else 1)
  {
    match op
    case OpCreate(key, data) => CreateWrites(s, c, key, data, data, now);
    case OpRead(key) =>
    case OpUpdate(key, updates) => UpdateWrites(s, c, key, updates, now);
    case OpQuote(key, quote) => UpdateWrites(s, c, key, QuoteUpdates(quote, now), now);
    case OpBars(key, timeframe, bars) => BarsWrite(s, c, key, timeframe, bars, now);
  }

  /** A snapshot keeps the time it was created, and a new one starts now. */
  lemma CreationKept(s: Store, c: Config, key: string, sent: Data, now: int)
    requires StoreInv(s, c) && s.clock <= now && Settled(c)
    ensures var r := Apply(s, c, OpCreate(key, sent), now);
      key in r.table && r.table[key].createdAt == if key in s.table && s.table[key].createdAt != 0 then s.table[key].createdAt else now
  {
    CreateWrites(s, c, key, sent, sent, now);
  }

  // ---- The log holds what was sent ----

  predicate Writes(op: Op, key: string) {
    !op.OpRead? && !op.OpClear? && op.key == key
  }

  /** d is what the operation sends. */
  predicate Carries(d: Data, op: Op, now: int) {
    match op
    case OpCreate(_, data) => d == data
    case OpUpdate(_, updates) => d == updates
    case OpQuote(_, None) => d.quote.None? && d.bars.None? && d.others == map[] && d.signalValid.None? && d.layer18Ready.None?
    case OpQuote(_, Some(q)) =>
      && d.quote == Some(q.(receivedAt := Some(if q.receivedAt.Some? then q.receivedAt.value
                                               else if q.timestamp.Some? then q.timestamp.value else now)))
      && d.bars.None? && d.others == map[] && d.signalValid.None? && d.layer18Ready.None?
    case OpBars(_, timeframe, bars) =>
      && d.quote.None? && d.bars.Some? && Get(d.bars.value, timeframe) == Some(bars)
      && d.others == map[] && d.signalValid.None? && d.layer18Ready.None?
    case _ => false
  }

  /** The writes to a key, in order. */
  function WritesTo(ops: seq<(Op, int)>, key: string): seq<(Op, int)> {
    if ops == [] then []
    else
      var n := |ops| - 1;
      WritesTo(ops[..n], key) + (if Writes(ops[n].0, key) then [ops[n]] else [])
  }

  /** The log is the last so many of the writes. */
  ghost predicate Tells(log: seq<Data>, writes: seq<(Op, int)>) {
    |log| <= |writes|
    && forall i, j :: 0 <= i < |log| && j == |writes| - |log| + i ==> Carries(log[i], writes[j].0, writes[j].1)
  }

  ghost predicate Told(s: Store, ops: seq<(Op, int)>) {
    forall k :: k in s.log ==> Tells(s.log[k], WritesTo(ops, k))
  }

  lemma TellsOneMore(log: seq<Data>, writes: seq<(Op, int)>, d: Data, w: (Op, int))
    requires Tells(log, writes) && Carries(d, w.0, w.1)
    ensures Tells(log + [d], writes + [w])
  {
  }

  /** What an operation does to the logs: it appends what it sends to its key's, and others stay or go. */
  ghost predicate Logs(s: Store, r: Store, op: Op, now: int) {
    forall k :: k in r.log ==>
      if Writes(op, k) then
        var old' := if k in s.log then s.log[k] else [];
        |r.log[k]| == |old'| + 1 && r.log[k][..|old'|] == old' && Carries(r.log[k][|old'|], op, now)
      else k in s.log && r.log[k] == s.log[k]
  }

  lemma PutLogs(s: Store, r: Store, c: Config, key: string, data: Data, logged: Data, op: Op, now: int)
    requires r == Create(s, c, key, data, logged, now) && Writes(op, key) && Carries(logged, op, now)
    ensures Logs(s, r, op, now)
  {
  }

  lemma ReadLogs(s: Store, c: Config, key: string, now: int)
    ensures Read(s, c, key, now).log == s.log
  {
  }

  lemma ApplyLogs(s: Store, c: Config, op: Op, now: int)
    ensures Logs(s, Apply(s, c, op, now), op, now)
  {
    match op
    case OpCreate(key, data) => PutLogs(s, Apply(s, c, op, now), c, key, data, data, op, now);
    case OpRead(key) => ReadLogs(s, c, key, now);
    case OpUpdate(key, u) =>
      PutLogs(s, Apply(s, c, op, now), c, key, if key in s.table then Spread(s.table[key].content, u) else u, u, op, now);
    case OpQuote(key, quote) =>
      var u := QuoteUpdates(quote, now);
      PutLogs(s, Apply(s, c, op, now), c, key, if key in s.table then Spread(s.table[key].content, u) else u, u, op, now);
    case OpBars(key, timeframe, bars) =>
      var read, u := Read(s, c, key, now), BarsUpdates(BarsOf(s, key), timeframe, bars, now);
      ReadLogs(s, c, key, now);
      PutLogs(read, Apply(s, c, op, now), c, key, if key in read.table then Spread(read.table[key].content, u) else u, u, op, now);
    case OpClear =>
  }

  lemma ToldOneMore(s: Store, r: Store, done: seq<(Op, int)>, op: Op, now: int)
    requires Told(s, done) && Logs(s, r, op, now)
    ensures Told(r, done + [(op, now)])
  {
    assert (done + [(op, now)])[..|done|] == done;
    forall k | k in r.log
      ensures Tells(r.log[k], WritesTo(done + [(op, now)], k))
    {
      if Writes(op, k) {
        var log := if k in s.log then s.log[k] else [];
        TellsOneMore(log, WritesTo(done, k), r.log[k][|log|], (op, now));
        assert r.log[k] == log + [r.log[k][|log|]];
      }
    }
  }

  lemma {:induction false} RunTells(s: Store, c: Config, done: seq<(Op, int)>, ops: seq<(Op, int)>)
    requires Told(s, done)
    ensures Told(Run(s, c, ops), done + ops)
    decreases |ops|
  {
    if ops == [] {
      assert done + ops == done;
    } else {
      var r := Apply(s, c, ops[0].0, ops[0].1);
      ApplyLogs(s, c, ops[0].0, ops[0].1);
      ToldOneMore(s, r, done, ops[0].0, ops[0].1);
      RunTells(r, c, done + [ops[0]], ops[1..]);
      assert done + [ops[0]] + ops[1..] == done + ops;
    }
  }

  /** In every run each entry's log is the last writes sent to its key, as many as its version says. */
  lemma LogIsWhatWasSent(c: Config, start: int, ops: seq<(Op, int)>, key: string)
    requires ClockAdvances(start, ops) && Settled(c)
    requires key in Run(Store([], map[], 0, start, 0, map[]), c, ops).table
    ensures var s := Run(Store([], map[], 0, start, 0, map[]), c, ops);
      key in s.log && s.table[key].version == |s.log[key]| && Tells(s.log[key], WritesTo(ops, key))
  {
    StickyFields(c, start, ops, key);
    RunTells(Store([], map[], 0, start, 0, map[]), c, [], ops);
    assert [] + ops == ops;
  }

  /** Clearing leaves nothing and restarts the version; a read changes no entry but for its stale mark, set once it is older than the time to live. */
  lemma ClearAndRead(s: Store, c: Config, key: string, now: int)
    ensures var r := Apply(s, c, OpClear, now);
      r.order == [] && r.table == map[] && r.version == 0
    ensures var r := Apply(s, c, OpRead(key), now);
      && r.order == s.order && r.version == s.version && r.table.Keys == s.table.Keys
      && forall k :: k in s.table ==>
           r.table[k] == if k == key && s.table[k].updatedAt + c.snapshotTTL < now then s.table[k].(stale := true) else s.table[k]
  {
  }

  // ---- The statistics ----

  lemma {:induction false} CountIsSize(order: seq<string>, table: map<string, Snapshot>, p: Snapshot -> bool)
    requires forall i, j :: 0 <= i < j < |order| ==> order[i] != order[j]
    ensures CountWhere(order, table, p) == |set k | k in order && k in table && p(table[k])|
  {
    var all := set k | k in order && k in table && p(table[k]);
    if order == [] {
      assert all == {};
    } else {
      var n := |order| - 1;
      var before := set k | k in order[..n] && k in table && p(table[k]);
      CountIsSize(order[..n], table, p);
      assert order == order[..n] + [order[n]];
      assert all == before + (if order[n] in table && p(table[order[n]]) then {order[n]} else {});
    }
  }

  lemma CountInTable(s: Store, p: Snapshot -> bool)
    requires WellFormed(s)
    ensures CountWhere(s.order, s.table, p) == |set k | k in s.table && p(s.table[k])|
  {
    CountIsSize(s.order, s.table, p);
    assert (set k | k in s.order && k in s.table && p(s.table[k])) == (set k | k in s.table && p(s.table[k]));
  }

  /** Ready are the entries with a valid signal and a passed final validation, current those written within the time to live. */
  lemma StatisticsCount(s: Store, c: Config, now: int)
    requires WellFormed(s)
    ensures var t := StatisticsOf(s, c, now);
      && t.total == |s.table| && t.version == s.version
      && t.ready == |set k | k in s.table && s.table[k].content.signalValid && s.table[k].content.layer18Ready|
      && t.current == |set k | k in s.table && s.table[k].updatedAt + c.snapshotTTL > now|
  {
    StatisticsPartition(s, c, now);
    CountInTable(s, (x: Snapshot) => x.content.signalValid && x.content.layer18Ready);
    CountInTable(s, (x: Snapshot) => now - x.updatedAt < c.snapshotTTL);
    assert (set k | k in s.table && s.table[k].content.signalValid && s.table[k].content.layer18Ready) ==
           (set k | k in s.table && ((x: Snapshot) => x.content.signalValid && x.content.layer18Ready)(s.table[k]));
    assert (set k | k in s.table && s.table[k].updatedAt + c.snapshotTTL > now) ==
           (set k | k in s.table && ((x: Snapshot) => now - x.updatedAt < c.snapshotTTL)(s.table[k]));
    OrderSize(s.order, s.table);
  }

  lemma OrderSize(order: seq<string>, table: map<string, Snapshot>)
    requires forall k :: k in order <==> k in table
    requires forall i, j :: 0 <= i < j < |order| ==> order[i] != order[j]
    ensures |order| == |table|
  {
    CountsPartition(order, table, (x: Snapshot) => true, (x: Snapshot) => false);
    CountIsSize(order, table, (x: Snapshot) => true);
    CountIsSize(order, table, (x: Snapshot) => false);
    assert (set k | k in order && k in table && ((x: Snapshot) => true)(table[k])) == table.Keys;
    assert (set k | k in order && k in table && ((x: Snapshot) => false)(table[k])) == {};
  }
}
