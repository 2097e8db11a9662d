/**
 The dashboard's snapshot request queue within one connected period: deduplicated, throttled, one post in
 flight, exponential backoff after HTTP 429. Each handler runs to completion at a given clock time.
 */
module SnapshotRequests {
  import opened Options
  import opened JsNumbers

  const MIN_INTERVAL_MS := 10_000
  const MIN_BACKOFF_MS := 30_000
  const MAX_BACKOFF_MS := 300_000
  const SYMBOL_GAP_MS := 60_000
  const MAX_QUEUE := 200

  datatype Outcome = Pending | Delivered(end: int) | Refused(end: int, pause: int) | Lost(end: int)

  datatype Post = Post(symbol: string, start: int, outcome: Outcome) {
    /** The earliest clock time at which the next post may start. */
    function NextAllowed(): int {
      match outcome
      case Pending => start
      case Delivered(end) => end + MIN_INTERVAL_MS
      case Refused(end, pause) => end + Max(MIN_INTERVAL_MS, pause)
      case Lost(end) => end + MIN_INTERVAL_MS
    }
  }

  /** What happened so far; nothing in the program reads it. */
  datatype History = History(
    posts: seq<Post>,
    accepted: seq<(string, int)>,
    enqueued: multiset<string>,
    delivered: multiset<string>,
    dropped: multiset<string>,
    coalesced: multiset<string>,
    refusals: nat)

  datatype State = State(
    clock: int,
    timer: Option<int>,
    inFlight: Option<string>,
    lastSentAt: int,
    backoffUntil: int,
    backoffMs: int,
    queue: seq<string>,
    lastRequestedAt: map<string, int>,
    history: History)

  datatype Event =
    | Request(symbol: string, now: int)
    | TimerFires(now: int)
    | PostSucceeds(now: int)
    | PostFails(now: int, status: int)

  function Init(clock: int): State {
    State(clock, None, None, 0, 0, MIN_BACKOFF_MS, [], map[],
          History([], [], multiset{}, multiset{}, multiset{}, multiset{}, 0))
  }

  /** scheduleSnapshotFlush: arms the timer unless one is armed or a post is in flight. */
  function Schedule(s: State): State {
    if s.inFlight.Some? || s.timer.Some? then s
    else s.(timer := Some(Max(s.clock, Max(s.lastSentAt + MIN_INTERVAL_MS, s.backoffUntil))))
  }

  function TooSoon(s: State, symbol: string): bool {
    var last := if symbol in s.lastRequestedAt then s.lastRequestedAt[symbol] else 0;
    s.clock - last < SYMBOL_GAP_MS
  }

  function Enqueue(s: State, symbol: string): State {
    if symbol in s.queue then s
    else
      var q := s.queue + [symbol];
      var h := s.history.(enqueued := s.history.enqueued + multiset{symbol});
      if |q| > MAX_QUEUE then s.(queue := q[1..], history := h.(dropped := h.dropped + multiset{q[0]}))
      else s.(queue := q, history := h)
  }

  function Noted(s: State, symbol: string): State {
    s.(lastRequestedAt := s.lastRequestedAt[symbol := s.clock],
       history := s.history.(accepted := s.history.accepted + [(symbol, s.clock)]))
  }

  function OnRequest(s: State, symbol: string): State {
    if symbol == "" || TooSoon(s, symbol) then s
    else Schedule(Enqueue(Noted(s, symbol), symbol))
  }

  function OnTimer(s: State): State {
    var idle := s.(timer := None);
    if s.queue == [] then idle
    else idle.(queue := s.queue[1..], inFlight := Some(s.queue[0]),
               history := s.history.(posts := s.history.posts + [Post(s.queue[0], s.clock, Pending)]))
  }

  /** The posts once the last one has its outcome. */
  function Ended(posts: seq<Post>, outcome: Outcome): seq<Post>
    requires posts != []
  {
    posts[|posts| - 1 := posts[|posts| - 1].(outcome := outcome)]
  }

  /** The finally block: the post is over, and a nonempty queue arms the timer again. */
  function Finish(s: State, outcome: Outcome): State {
    var posts := s.history.posts;
    var done := s.(inFlight := None, history := s.history.(posts := if posts == [] then [] else Ended(posts, outcome)));
    if done.queue == [] then done else Schedule(done)
  }

  function OnSuccess(s: State): State
    requires s.inFlight.Some?
  {
    var h := s.history.(delivered := s.history.delivered + multiset{s.inFlight.value}, refusals := 0);
    Finish(s.(lastSentAt := s.clock, backoffUntil := 0, backoffMs := MIN_BACKOFF_MS, history := h), Delivered(s.clock))
  }

  function Requeue(s: State, symbol: string): State {
    if symbol in s.queue then s.(history := s.history.(coalesced := s.history.coalesced + multiset{symbol}))
    else s.(queue := s.queue + [symbol])
  }

  /** The state a failed post leaves just before its symbol is queued again. */
  function AfterFailure(s: State, status: int): State {
    var sent := s.(lastSentAt := s.clock);
    if status != 429 then sent
    else
      var pause := Min(MAX_BACKOFF_MS, Max(MIN_BACKOFF_MS, s.backoffMs) * 2);
      sent.(backoffMs := pause, backoffUntil := s.clock + pause,
            history := s.history.(refusals := s.history.refusals + 1))
  }

  function FailureOutcome(s: State, status: int): Outcome {
    if status == 429 then Refused(s.clock, AfterFailure(s, status).backoffMs) else Lost(s.clock)
  }

  function OnFailure(s: State, status: int): State
    requires s.inFlight.Some?
  {
    Finish(Requeue(AfterFailure(s, status), s.inFlight.value), FailureOutcome(s, status))
  }

  /** Timers never fire early, a post ends only while one is in flight, and the clock never goes back. */
  predicate Enabled(s: State, e: Event) {
    && s.clock <= e.now
    && (e.TimerFires? ==> s.timer.Some? && s.timer.value <= e.now)
    && (e.PostSucceeds? || e.PostFails? ==> s.inFlight.Some?)
  }

  function Step(s: State, e: Event): State
    requires Enabled(s, e)
  {
    var at := s.(clock := e.now);
    match e
    case Request(symbol, _) => OnRequest(at, symbol)
    case TimerFires(_) => OnTimer(at)
    case PostSucceeds(_) => OnSuccess(at)
    case PostFails(_, status) => OnFailure(at, status)
  }

  // ---- The invariant ----

  ghost predicate Distinct(q: seq<string>) {
    forall i, j :: 0 <= i < j < |q| ==> q[i] != q[j]
  }

  /** Never a timer and a post together, a bounded duplicate-free queue, and no lost wakeup. */
  ghost predicate QueueInv(s: State) {
    && Distinct(s.queue)
    && !(s.timer.Some? && s.inFlight.Some?)
    && |s.queue| <= (if s.inFlight.Some? then MAX_QUEUE else MAX_QUEUE + 1)
    && (s.queue != [] ==> s.timer.Some? || s.inFlight.Some?)
    && (s.inFlight.Some? ==> s.inFlight.value != "")
    && "" !in s.queue
  }

  function Pow2(n: nat): nat {
    if n == 0 then 1 else 2 * Pow2(n - 1)
  }

  /** The pause after n answers of 429 since the last success; other failures leave it as it is. */
  function BackoffAfter(refusals: nat): int {
    Min(MAX_BACKOFF_MS, MIN_BACKOFF_MS * Pow2(refusals))
  }

  ghost predicate PaceInv(s: State) {
    && s.backoffMs == BackoffAfter(s.history.refusals)
    && (s.timer.Some? ==> s.timer.value >= s.lastSentAt + MIN_INTERVAL_MS && s.timer.value >= s.backoffUntil)
    && Paced(s.history.posts, s)
  }

  /** Every post respects the pause its predecessor imposed; only the last may be unfinished. */
  ghost predicate Paced(posts: seq<Post>, s: State) {
    && (forall i, j :: 0 <= i < |posts| && j == i + 1 < |posts| ==> posts[i].NextAllowed() <= posts[j].start)
    && (forall i :: 0 <= i < |posts| - 1 ==> !posts[i].outcome.Pending?)
    && (forall i :: 0 <= i < |posts| ==> posts[i].start <= s.clock)
    && (forall i :: 0 <= i < |posts| && !posts[i].outcome.Pending? ==> posts[i].start <= posts[i].outcome.end)
    && (s.inFlight.Some? <==> posts != [] && posts[|posts| - 1].outcome.Pending?)
    && (s.inFlight.Some? ==> posts[|posts| - 1].symbol == s.inFlight.value)
    && (s.inFlight.None? && posts != [] ==>
          posts[|posts| - 1].NextAllowed() <= Max(s.lastSentAt + MIN_INTERVAL_MS, s.backoffUntil))
  }

  /** Every symbol that entered the queue is delivered, dropped by overflow, coalesced, queued or in flight. */
  ghost predicate Balanced(h: History, queue: seq<string>, inFlight: Option<string>) {
    forall x :: h.enqueued[x] ==
                h.delivered[x] + h.dropped[x] + h.coalesced[x] + multiset(queue)[x] + (if inFlight == Some(x) then 1 else 0)
  }

  ghost predicate Conserved(s: State) {
    Balanced(s.history, s.queue, s.inFlight)
  }

  /** Two accepted requests for one symbol are at least a minute apart. */
  ghost predicate Throttled(s: State) {
    var a := s.history.accepted;
    && (forall k :: k in s.lastRequestedAt ==> s.lastRequestedAt[k] >= SYMBOL_GAP_MS)
    && (forall i :: 0 <= i < |a| ==> a[i].0 in s.lastRequestedAt && SYMBOL_GAP_MS <= a[i].1 <= s.lastRequestedAt[a[i].0])
    && (forall i, j :: 0 <= i < j < |a| && a[i].0 == a[j].0 ==> a[j].1 - a[i].1 >= SYMBOL_GAP_MS)
  }

  ghost predicate Inv(s: State) {
    QueueInv(s) && PaceInv(s) && Conserved(s) && Throttled(s)
  }

  lemma ScheduleKeeps(s: State)
    requires Distinct(s.queue) && "" !in s.queue && PaceInv(s) && Conserved(s) && Throttled(s)
    requires !(s.timer.Some? && s.inFlight.Some?)
    requires |s.queue| <= (if s.inFlight.Some? then MAX_QUEUE else MAX_QUEUE + 1)
    requires s.inFlight.Some? ==> s.inFlight.value != ""
    ensures Inv(Schedule(s))
  {
  }

  lemma PushShape(q: seq<string>, symbol: string)
    requires Distinct(q) && "" !in q && symbol != "" && symbol !in q
    ensures Distinct(q + [symbol]) && "" !in q + [symbol]
    ensures Distinct((q + [symbol])[1..]) && "" !in (q + [symbol])[1..]
  {
    var r := q + [symbol];
    assert forall x :: x in r ==> x in q || x == symbol;
    assert forall x :: x in r[1..] ==> x in r;
  }

  lemma PushCounts(q: seq<string>, symbol: string)
    ensures var r := q + [symbol];
      && multiset(r) == multiset(q) + multiset{symbol}
      && multiset(r[1..]) == multiset(r) - multiset{r[0]}
  {
    var r := q + [symbol];
    assert r == [r[0]] + r[1..];
  }

  lemma EnqueueConserves(s: State, symbol: string)
    requires Conserved(s)
    ensures Conserved(Enqueue(s, symbol))
  {
    var q := s.queue + [symbol];
    if symbol !in s.queue {
      PushCounts(s.queue, symbol);
      var h := s.history.(enqueued := s.history.enqueued + multiset{symbol});
      assert Balanced(h, q, s.inFlight);
      if |q| > MAX_QUEUE {
        DropBalances(h, q, s.inFlight);
      }
    }
  }

  lemma DropBalances(h: History, q: seq<string>, inFlight: Option<string>)
    requires q != [] && Balanced(h, q, inFlight)
    ensures Balanced(h.(dropped := h.dropped + multiset{q[0]}), q[1..], inFlight)
  {
    assert q == [q[0]] + q[1..];
    assert multiset(q) == multiset{q[0]} + multiset(q[1..]);
  }

  /** Pacing and throttling do not look at the queue. */
  lemma QueueFrame(s: State, r: State)
    requires r == s.(queue := r.queue, history := r.history)
    requires r.history == s.history.(enqueued := r.history.enqueued, dropped := r.history.dropped, coalesced := r.history.coalesced)
    ensures PaceInv(s) ==> PaceInv(r)
    ensures Throttled(s) ==> Throttled(r)
  {
  }

  lemma EnqueueKeeps(s: State, symbol: string)
    requires Inv(s) && symbol != ""
    ensures var r := Enqueue(s, symbol);
      && Distinct(r.queue) && "" !in r.queue && PaceInv(r) && Conserved(r) && Throttled(r)
      && |r.queue| <= (if s.inFlight.Some? then MAX_QUEUE else MAX_QUEUE + 1)
  {
    if symbol !in s.queue {
      PushShape(s.queue, symbol);
    }
    EnqueueConserves(s, symbol);
    QueueFrame(s, Enqueue(s, symbol));
  }

  lemma NotedThrottles(s: State, symbol: string)
    requires Throttled(s) && !TooSoon(s, symbol)
    ensures Throttled(Noted(s, symbol))
  {
    var a := s.history.accepted;
    assert forall i :: 0 <= i < |a| && a[i].0 == symbol ==> s.clock - a[i].1 >= SYMBOL_GAP_MS;
  }

  lemma NotedFrame(s: State, symbol: string)
    ensures var r := Noted(s, symbol);
      (QueueInv(s) ==> QueueInv(r)) && (PaceInv(s) ==> PaceInv(r)) && (Conserved(s) ==> Conserved(r))
  {
  }

  lemma NotedKeeps(s: State, symbol: string)
    requires Inv(s) && symbol != "" && !TooSoon(s, symbol)
    ensures Inv(Noted(s, symbol))
  {
    NotedFrame(s, symbol);
    NotedThrottles(s, symbol);
  }

  lemma RequestKeeps(s: State, symbol: string)
    requires Inv(s)
    ensures Inv(OnRequest(s, symbol))
  {
    if symbol != "" && !TooSoon(s, symbol) {
      NotedKeeps(s, symbol);
      EnqueueKeeps(Noted(s, symbol), symbol);
      ScheduleKeeps(Enqueue(Noted(s, symbol), symbol));
    }
  }

  lemma TimerPaces(s: State)
    requires PaceInv(s) && s.inFlight.None? && s.timer.Some? && s.timer.value <= s.clock
    ensures PaceInv(OnTimer(s))
  {
    var posts := s.history.posts;
    if s.queue != [] && posts != [] {
      assert posts[|posts| - 1].NextAllowed() <= s.clock;
    }
  }

  lemma TimerConserves(s: State)
    requires Conserved(s) && s.inFlight.None?
    ensures Conserved(OnTimer(s))
  {
    if s.queue != [] {
      assert s.queue == [s.queue[0]] + s.queue[1..];
      assert multiset(s.queue) == multiset{s.queue[0]} + multiset(s.queue[1..]);
    }
  }

  lemma TimerQueues(s: State)
    requires QueueInv(s) && s.timer.Some?
    ensures QueueInv(OnTimer(s))
  {
    if s.queue != [] {
      assert s.queue[0] in s.queue;
      assert forall x :: x in s.queue[1..] ==> x in s.queue;
    }
  }

  lemma TimerKeeps(s: State)
    requires Inv(s) && s.timer.Some? && s.timer.value <= s.clock
    ensures Inv(OnTimer(s))
  {
    TimerPaces(s);
    TimerConserves(s);
    TimerQueues(s);
    assert Throttled(OnTimer(s));
  }

  /** What a handler has established when it reaches the finally block. */
  ghost predicate Ending(s: State, outcome: Outcome) {
    && s.inFlight.Some? && s.timer.None? && Distinct(s.queue) && "" !in s.queue && |s.queue| <= MAX_QUEUE + 1
    && s.backoffMs == BackoffAfter(s.history.refusals) && Paced(s.history.posts, s)
    && !outcome.Pending? && outcome.end == s.clock == s.lastSentAt
    && (outcome.Refused? ==> s.backoffUntil == s.clock + outcome.pause)
    && Balanced(s.history, s.queue, None) && Throttled(s)
  }

  lemma FinishQueues(s: State, outcome: Outcome)
    requires Ending(s, outcome)
    ensures QueueInv(Finish(s, outcome))
  {
  }

  lemma FinishPaced(s: State, outcome: Outcome, r: State)
    requires Paced(s.history.posts, s) && s.inFlight.Some?
    requires !outcome.Pending? && outcome.end == s.clock == s.lastSentAt
    requires outcome.Refused? ==> s.backoffUntil == s.clock + outcome.pause
    requires r.inFlight.None? && r.clock == s.clock && r.lastSentAt == s.lastSentAt && r.backoffUntil == s.backoffUntil
    requires s.history.posts != [] ==> r.history.posts == Ended(s.history.posts, outcome)
    ensures Paced(r.history.posts, r)
  {
    var last := |s.history.posts| - 1;
    assert r.history.posts[last].NextAllowed() <= Max(s.lastSentAt + MIN_INTERVAL_MS, s.backoffUntil);
  }

  lemma FinishShape(s: State, outcome: Outcome)
    requires s.timer.None?
    ensures var r := Finish(s, outcome);
      && r.inFlight.None? && r.clock == s.clock && r.lastSentAt == s.lastSentAt && r.backoffUntil == s.backoffUntil
      && r.backoffMs == s.backoffMs && r.history == s.history.(posts := r.history.posts)
      && (s.history.posts != [] ==> r.history.posts == Ended(s.history.posts, outcome))
      && (r.timer.Some? ==> r.timer.value >= s.lastSentAt + MIN_INTERVAL_MS && r.timer.value >= s.backoffUntil)
  {
  }

  lemma FinishPaces(s: State, outcome: Outcome)
    requires Ending(s, outcome)
    ensures PaceInv(Finish(s, outcome))
  {
    FinishShape(s, outcome);
    FinishPaced(s, outcome, Finish(s, outcome));
  }

  lemma FinishKeeps(s: State, outcome: Outcome)
    requires Ending(s, outcome)
    ensures Inv(Finish(s, outcome))
  {
    FinishQueues(s, outcome);
    FinishPaces(s, outcome);
  }

  lemma SuccessKeeps(s: State)
    requires Inv(s) && s.inFlight.Some?
    ensures Inv(OnSuccess(s))
  {
    var h := s.history.(delivered := s.history.delivered + multiset{s.inFlight.value}, refusals := 0);
    FinishKeeps(s.(lastSentAt := s.clock, backoffUntil := 0, backoffMs := MIN_BACKOFF_MS, history := h), Delivered(s.clock));
  }

  lemma RequeueKeeps(s: State, symbol: string)
    requires Distinct(s.queue) && "" !in s.queue && symbol != ""
    requires s.inFlight == Some(symbol) && Conserved(s)
    ensures var r := Requeue(s, symbol);
      && Distinct(r.queue) && "" !in r.queue && |r.queue| <= |s.queue| + 1
      && Balanced(r.history, r.queue, None)
  {
    PushCounts(s.queue, symbol);
    if symbol !in s.queue {
      PushShape(s.queue, symbol);
    }
  }

  /** While a post is in flight, pacing does not look at the send time or the backoff. */
  lemma InFlightFrame(s: State, r: State)
    requires s.inFlight.Some? && r.inFlight == s.inFlight && r.clock == s.clock
    requires r.history.posts == s.history.posts && r.history.accepted == s.history.accepted
    requires r.lastRequestedAt == s.lastRequestedAt
    ensures Paced(s.history.posts, s) ==> Paced(r.history.posts, r)
    ensures Throttled(s) ==> Throttled(r)
  {
  }

  lemma AfterFailureBacksOff(s: State, status: int)
    requires s.backoffMs == BackoffAfter(s.history.refusals)
    ensures AfterFailure(s, status).backoffMs == BackoffAfter(AfterFailure(s, status).history.refusals)
  {
    BackoffBounds(s.history.refusals);
  }

  lemma FailureRequeues(s: State, status: int)
    requires QueueInv(s) && Conserved(s) && s.inFlight.Some?
    ensures var r := Requeue(AfterFailure(s, status), s.inFlight.value);
      && Distinct(r.queue) && "" !in r.queue && |r.queue| <= MAX_QUEUE + 1
      && Balanced(r.history, r.queue, None)
  {
    RequeueKeeps(AfterFailure(s, status), s.inFlight.value);
  }

  lemma FailurePaces(s: State, status: int)
    requires PaceInv(s) && Throttled(s) && s.inFlight.Some?
    ensures var r := Requeue(AfterFailure(s, status), s.inFlight.value);
      && r.backoffMs == BackoffAfter(r.history.refusals) && Paced(r.history.posts, r) && Throttled(r)
  {
    AfterFailureBacksOff(s, status);
    InFlightFrame(s, Requeue(AfterFailure(s, status), s.inFlight.value));
  }

  lemma FailureTimes(s: State, status: int)
    requires s.inFlight.Some?
    ensures var r, o := Requeue(AfterFailure(s, status), s.inFlight.value), FailureOutcome(s, status);
      && r.inFlight == s.inFlight && r.timer == s.timer
      && !o.Pending? && o.end == r.clock == r.lastSentAt && (o.Refused? ==> r.backoffUntil == r.clock + o.pause)
  {
  }

  lemma FailureEnds(s: State, status: int)
    requires QueueInv(s) && PaceInv(s) && Conserved(s) && Throttled(s) && s.inFlight.Some?
    ensures Ending(Requeue(AfterFailure(s, status), s.inFlight.value), FailureOutcome(s, status))
  {
    FailureTimes(s, status);
    FailurePaces(s, status);
    FailureRequeues(s, status);
  }

  lemma FailureKeeps(s: State, status: int)
    requires Inv(s) && s.inFlight.Some?
    ensures Inv(OnFailure(s, status))
  {
    FailureEnds(s, status);
    FinishKeeps(Requeue(AfterFailure(s, status), s.inFlight.value), FailureOutcome(s, status));
  }

  lemma StepKeeps(s: State, e: Event)
    requires Inv(s) && Enabled(s, e)
    ensures Inv(Step(s, e))
  {
    var at := s.(clock := e.now);
    assert Inv(at);
    match e
    case Request(symbol, _) => RequestKeeps(at, symbol);
    case TimerFires(_) => TimerKeeps(at);
    case PostSucceeds(_) => SuccessKeeps(at);
    case PostFails(_, status) => FailureKeeps(at, status);
  }

  /** t is reached from s by the given events, each enabled when it happens. */
  ghost predicate Reaches(s: State, events: seq<Event>, t: State)
    decreases |events|
  {
    if events == [] then s == t
    else Enabled(s, events[0]) && Reaches(Step(s, events[0]), events[1..], t)
  }

  lemma {:induction false} RunKeeps(s: State, events: seq<Event>, t: State)
    requires Inv(s) && Reaches(s, events, t)
    ensures Inv(t)
    decreases |events|
  {
    if events != [] {
      StepKeeps(s, events[0]);
      RunKeeps(Step(s, events[0]), events[1..], t);
    }
  }

  /** The invariant holds in every reachable state of every run. */
  lemma ReachableInv(clock: int, events: seq<Event>, t: State)
    requires Reaches(Init(clock), events, t)
    ensures Inv(t)
  {
    assert Inv(Init(clock));
    RunKeeps(Init(clock), events, t);
  }

  // ---- Progress through the queue ----

  ghost function Posts(s: State): nat {
    |s.history.posts|
  }

  ghost function Drops(s: State): nat {
    |s.history.dropped|
  }

  /** Later histories keep earlier posts, up to their outcome, and earlier drops. */
  ghost predicate Grew(s: State, r: State) {
    && Posts(s) <= Posts(r) && s.history.dropped <= r.history.dropped
    && forall i :: 0 <= i < Posts(s) ==> r.history.posts[i].symbol == s.history.posts[i].symbol
  }

  /** x is among the first p + 1 posts after s. */
  ghost predicate PostedBy(s: State, r: State, x: string, p: nat) {
    exists j :: Posts(s) <= j <= Posts(s) + p && j < Posts(r) && r.history.posts[j].symbol == x
  }

  ghost predicate DroppedSince(s: State, r: State, x: string) {
    r.history.dropped[x] > s.history.dropped[x]
  }

  /** From place p, x moved up one place for each post and each drop since. */
  ghost predicate MovedUp(s: State, r: State, x: string, p: nat) {
    var gone := Posts(r) - Posts(s) + Drops(r) - Drops(s);
    0 <= gone <= p < gone + |r.queue| && r.queue[p - gone] == x
  }

  lemma EnqueueMoves(s: State, symbol: string, p: nat)
    requires p < |s.queue|
    ensures var r, x := Enqueue(s, symbol), s.queue[p];
      Grew(s, r) && (DroppedSince(s, r, x) || MovedUp(s, r, x, p))
  {
    var r := Enqueue(s, symbol);
    if symbol !in s.queue && |s.queue| + 1 > MAX_QUEUE {
      assert r.history.dropped == s.history.dropped + multiset{s.queue[0]};
      assert Drops(r) == Drops(s) + 1;
    }
  }

  lemma TimerMoves(s: State, p: nat)
    requires p < |s.queue|
    ensures var r, x := OnTimer(s), s.queue[p];
      Grew(s, r) && (PostedBy(s, r, x, p) || MovedUp(s, r, x, p))
  {
    var r := OnTimer(s);
    assert r.history.posts[Posts(s)].symbol == s.queue[0];
  }

  /** A post that ends leaves everyone in the queue where they are. */
  ghost predicate Untouched(s: State, r: State) {
    && s.queue <= r.queue && Posts(r) == Posts(s) && r.history.dropped == s.history.dropped
    && forall i :: 0 <= i < Posts(s) ==> r.history.posts[i].symbol == s.history.posts[i].symbol
  }

  lemma FinishUntouched(s: State, outcome: Outcome)
    ensures Untouched(s, Finish(s, outcome))
  {
  }

  lemma SuccessUntouched(s: State)
    requires s.inFlight.Some?
    ensures Untouched(s, OnSuccess(s))
  {
    var h := s.history.(delivered := s.history.delivered + multiset{s.inFlight.value}, refusals := 0);
    FinishUntouched(s.(lastSentAt := s.clock, backoffUntil := 0, backoffMs := MIN_BACKOFF_MS, history := h), Delivered(s.clock));
  }

  lemma FailureUntouched(s: State, status: int)
    requires s.inFlight.Some?
    ensures Untouched(s, OnFailure(s, status))
  {
    var requeued := Requeue(AfterFailure(s, status), s.inFlight.value);
    assert Untouched(s, requeued);
    FinishUntouched(requeued, FailureOutcome(s, status));
  }

  lemma UntouchedStays(s: State, r: State, p: nat)
    requires Untouched(s, r) && p < |s.queue|
    ensures Grew(s, r) && MovedUp(s, r, s.queue[p], p)
  {
  }

  lemma RequestMoves(s: State, symbol: string, p: nat)
    requires p < |s.queue|
    ensures var r, x := OnRequest(s, symbol), s.queue[p];
      Grew(s, r) && (DroppedSince(s, r, x) || MovedUp(s, r, x, p))
  {
    if symbol != "" && !TooSoon(s, symbol) {
      EnqueueMoves(Noted(s, symbol), symbol, p);
    }
  }

  lemma StepMoves(s: State, e: Event, p: nat)
    requires Enabled(s, e) && p < |s.queue|
    ensures var r, x := Step(s, e), s.queue[p];
      Grew(s, r) && (PostedBy(s, r, x, p) || DroppedSince(s, r, x) || MovedUp(s, r, x, p))
  {
    var at := s.(clock := e.now);
    match e
    case Request(symbol, _) => RequestMoves(at, symbol, p);
    case TimerFires(_) => TimerMoves(at, p);
    case PostSucceeds(_) =>
      SuccessUntouched(at);
      UntouchedStays(at, OnSuccess(at), p);
    case PostFails(_, status) =>
      FailureUntouched(at, status);
      UntouchedStays(at, OnFailure(at, status), p);
  }

  lemma RequestGrows(s: State, symbol: string)
    ensures Grew(s, OnRequest(s, symbol))
  {
    assert Grew(s, Enqueue(Noted(s, symbol), symbol));
  }

  lemma TimerGrows(s: State)
    ensures Grew(s, OnTimer(s))
  {
  }

  lemma UntouchedGrows(s: State, r: State)
    requires Untouched(s, r)
    ensures Grew(s, r)
  {
  }

  lemma StepGrows(s: State, e: Event)
    requires Enabled(s, e)
    ensures Grew(s, Step(s, e))
  {
    var at := s.(clock := e.now);
    match e
    case Request(symbol, _) => RequestGrows(at, symbol);
    case TimerFires(_) => TimerGrows(at);
    case PostSucceeds(_) =>
      SuccessUntouched(at);
      UntouchedGrows(at, OnSuccess(at));
    case PostFails(_, status) =>
      FailureUntouched(at, status);
      UntouchedGrows(at, OnFailure(at, status));
  }

  lemma {:induction false} RunGrows(s: State, events: seq<Event>, t: State)
    requires Reaches(s, events, t)
    ensures Grew(s, t)
    decreases |events|
  {
    if events != [] {
      StepGrows(s, events[0]);
      RunGrows(Step(s, events[0]), events[1..], t);
    }
  }

  lemma GrewDrops(s: State, r: State)
    requires Grew(s, r)
    ensures Drops(s) <= Drops(r)
  {
    assert r.history.dropped == s.history.dropped + (r.history.dropped - s.history.dropped);
  }

  /** What happened to x up to r and from r to t happened to it from s to t. */
  lemma MovesCompose(s: State, r: State, t: State, x: string, p: nat, q: nat)
    requires Grew(s, r) && Grew(r, t) && q == p - (Posts(r) - Posts(s) + Drops(r) - Drops(s))
    requires PostedBy(r, t, x, q) || DroppedSince(r, t, x) || MovedUp(r, t, x, q)
    ensures PostedBy(s, t, x, p) || DroppedSince(s, t, x) || MovedUp(s, t, x, p)
  {
    GrewDrops(s, r);
    GrewDrops(r, t);
  }

  lemma EarlyOutcome(s: State, r: State, t: State, x: string, p: nat)
    requires Grew(s, r) && Grew(r, t) && (PostedBy(s, r, x, p) || DroppedSince(s, r, x))
    ensures PostedBy(s, t, x, p) || DroppedSince(s, t, x)
  {
    if PostedBy(s, r, x, p) {
      var j :| Posts(s) <= j <= Posts(s) + p && j < Posts(r) && r.history.posts[j].symbol == x;
      assert t.history.posts[j].symbol == x;
    }
  }

  /**
   First in, first out over any run: a queued symbol is posted within as many further posts as it has symbols in
   front of it, plus its own, or is dropped by overflow, or stands exactly as many places further up as were posted
   or dropped since; nothing ever moves it back.
   */
  lemma {:induction false} QueueProgress(s: State, events: seq<Event>, t: State, p: nat)
    requires Reaches(s, events, t) && p < |s.queue|
    ensures PostedBy(s, t, s.queue[p], p) || DroppedSince(s, t, s.queue[p]) || MovedUp(s, t, s.queue[p], p)
    decreases |events|
  {
    if events != [] {
      var r, x := Step(s, events[0]), s.queue[p];
      StepMoves(s, events[0], p);
      RunGrows(r, events[1..], t);
      if MovedUp(s, r, x, p) {
        var q := p - (Posts(r) - Posts(s) + Drops(r) - Drops(s));
        QueueProgress(r, events[1..], t, q);
        MovesCompose(s, r, t, x, p, q);
      } else {
        EarlyOutcome(s, r, t, x, p);
      }
    }
  }

  /** So once more posts have started than there were symbols in front, it has been posted or dropped. */
  lemma PostedOrDropped(s: State, events: seq<Event>, t: State, p: nat)
    requires Reaches(s, events, t) && p < |s.queue| && Posts(t) > Posts(s) + p
    ensures PostedBy(s, t, s.queue[p], p) || DroppedSince(s, t, s.queue[p])
  {
    QueueProgress(s, events, t, p);
    RunGrows(s, events, t);
    GrewDrops(s, t);
  }

  /** Backoff stays between half a minute and five minutes. */
  lemma {:induction false} BackoffBounds(refusals: nat)
    ensures MIN_BACKOFF_MS <= BackoffAfter(refusals) <= MAX_BACKOFF_MS
    ensures BackoffAfter(refusals + 1) == Min(MAX_BACKOFF_MS, Max(MIN_BACKOFF_MS, BackoffAfter(refusals)) * 2)
    ensures refusals >= 4 ==> BackoffAfter(refusals) == MAX_BACKOFF_MS
  {
    if refusals == 0 {
      assert Pow2(1) == 2;
    } else {
      BackoffBounds(refusals - 1);
      assert Pow2(refusals) >= 1;
      if refusals >= 4 {
        PowFour(refusals);
      }
    }
  }

  lemma {:induction false} PowFour(n: nat)
    requires n >= 4
    ensures Pow2(n) >= 16
  {
    if n == 4 {
      assert Pow2(4) == 2 * Pow2(3) == 4 * Pow2(2) == 8 * Pow2(1) == 16;
    } else {
      PowFour(n - 1);
    }
  }

  /** In every run, posts i and j start at least ten seconds apart per step between them. */
  lemma {:induction false} PostSpacing(s: State, i: nat, j: nat)
    requires Inv(s) && i <= j < |s.history.posts|
    ensures s.history.posts[j].start - s.history.posts[i].start >= MIN_INTERVAL_MS * (j - i)
    decreases j - i
  {
    if i < j {
      PostSpacing(s, i, j - 1);
      var previous := s.history.posts[j - 1];
      assert previous.NextAllowed() >= previous.start + MIN_INTERVAL_MS;
    }
  }

  /** The server's limit of twenty a minute is never approached: at most six posts start in any minute. */
  lemma AtMostSixPerMinute(clock: int, events: seq<Event>, t: State, i: nat, j: nat, from: int)
    requires Reaches(Init(clock), events, t) && i <= j < |t.history.posts|
    requires from <= t.history.posts[i].start && t.history.posts[j].start < from + 60_000
    ensures j - i + 1 <= 6
  {
    ReachableInv(clock, events, t);
    PostSpacing(t, i, j);
  }

  // ---- The program's mutable record and its handlers ----

  lemma DropFirst(q: seq<string>, elements: set<string>)
    requires q != [] && Distinct(q) && elements == (set x | x in q)
    ensures elements - {q[0]} == (set x | x in q[1..]) && Distinct(q[1..])
  {
    assert forall x :: x in q <==> x == q[0] || x in q[1..];
  }

  class Requester {
    var timer: Option<int>
    var inFlight: bool
    var current: string
    var lastSentAt: int
    var backoffUntil: int
    var backoffMs: int
    var queue: seq<string>
    var queuedSet: set<string>
    var lastRequestedAtBySymbol: map<string, int>
    ghost var clock: int
    ghost var history: History

    /** The set is exactly the queue's elements, and the queue has no duplicates. */
    ghost predicate Valid()
      reads this
    {
      queuedSet == (set x | x in queue) && Distinct(queue)
    }

    ghost function Contents(): State
      reads this
    {
      State(clock, timer, if inFlight then Some(current) else None, lastSentAt, backoffUntil, backoffMs,
            queue, lastRequestedAtBySymbol, history)
    }

    constructor (ghost now: int)
      ensures Valid() && Contents() == Init(now)
    {
      timer, inFlight, current := None, false, "";
      lastSentAt, backoffUntil, backoffMs := 0, 0, MIN_BACKOFF_MS;
      queue, queuedSet, lastRequestedAtBySymbol := [], {}, map[];
      clock, history := now, Init(now).history;
    }

    method ScheduleSnapshotFlush(now: int)
      requires now == clock
      modifies this`timer
      ensures Contents() == Schedule(old(Contents()))
    {
      if inFlight || timer.Some? {
        return;
      }
      var nextAllowedAt := Max(lastSentAt + MIN_INTERVAL_MS, backoffUntil);
      var delayMs := Max(0, nextAllowedAt - now);
      timer := Some(now + delayMs);
    }

    /** Queues a symbol that is not queued yet; an overlong queue loses its oldest symbol. */
    method EnqueueSymbol(symbol: string)
      requires Valid()
      modifies this`queue, this`queuedSet, this`history
      ensures Valid() && Contents() == Enqueue(old(Contents()), symbol)
    {
      if symbol !in queuedSet {
        queuedSet := queuedSet + {symbol};
        queue := queue + [symbol];
        history := history.(enqueued := history.enqueued + multiset{symbol});
        if |queue| > MAX_QUEUE {
          var dropped := queue[0];
          DropFirst(queue, queuedSet);
          queue := queue[1..];
          queuedSet := queuedSet - {dropped};
          history := history.(dropped := history.dropped + multiset{dropped});
        }
      }
    }

    method RequestSnapshotForSymbol(symbol: string, now: int)
      requires Valid() && Enabled(Contents(), Request(symbol, now))
      modifies this
      ensures Valid() && Contents() == Step(old(Contents()), Request(symbol, now))
    {
      clock := now;
      if symbol == "" {
        return;
      }
      var last := if symbol in lastRequestedAtBySymbol then lastRequestedAtBySymbol[symbol] else 0;
      if now - last < SYMBOL_GAP_MS {
        return;
      }
      lastRequestedAtBySymbol := lastRequestedAtBySymbol[symbol := now];
      history := history.(accepted := history.accepted + [(symbol, now)]);
      EnqueueSymbol(symbol);
      if timer.None? && !inFlight {
        ScheduleSnapshotFlush(now);
      }
    }

    method OnTimerFires(now: int)
      requires Valid() && Enabled(Contents(), TimerFires(now))
      modifies this
      ensures Valid() && Contents() == Step(old(Contents()), TimerFires(now))
    {
      clock := now;
      timer := None;
      if queue == [] {
        return;
      }
      var symbol := queue[0];
      DropFirst(queue, queuedSet);
      queue := queue[1..];
      queuedSet := queuedSet - {symbol};
      inFlight, current := true, symbol;
      history := history.(posts := history.posts + [Post(symbol, now, Pending)]);
    }

    method OnPostSucceeds(now: int)
      requires Valid() && Enabled(Contents(), PostSucceeds(now))
      modifies this
      ensures Valid() && Contents() == Step(old(Contents()), PostSucceeds(now))
    {
      clock := now;
      lastSentAt, backoffUntil, backoffMs := now, 0, MIN_BACKOFF_MS;
      history := history.(delivered := history.delivered + multiset{current}, refusals := 0);
      Settle(now, Delivered(now));
    }

    /** The catch block up to the re-queueing: the pause after a 429 answer. */
    method BackOff(now: int, status: int) returns (ghost outcome: Outcome)
      requires now == clock
      modifies this`lastSentAt, this`backoffMs, this`backoffUntil, this`history
      ensures Contents() == AfterFailure(old(Contents()), status)
      ensures outcome == FailureOutcome(old(Contents()), status)
    {
      lastSentAt := now;
      outcome := Lost(now);
      if status == 429 {
        var nextBackoff := Min(MAX_BACKOFF_MS, Max(MIN_BACKOFF_MS, backoffMs) * 2);
        backoffMs := nextBackoff;
        backoffUntil := now + nextBackoff;
        history := history.(refusals := history.refusals + 1);
        outcome := Refused(now, nextBackoff);
      }
    }

    /** Puts the symbol back at the end unless it is queued again already. */
    method RequeueSymbol(symbol: string)
      requires Valid()
      modifies this`queue, this`queuedSet, this`history
      ensures Valid() && Contents() == Requeue(old(Contents()), symbol)
    {
      if symbol !in queuedSet {
        queuedSet := queuedSet + {symbol};
        queue := queue + [symbol];
      } else {
        history := history.(coalesced := history.coalesced + multiset{symbol});
      }
    }

    method OnPostFails(now: int, status: int)
      requires Valid() && Enabled(Contents(), PostFails(now, status))
      modifies this
      ensures Valid() && Contents() == Step(old(Contents()), PostFails(now, status))
    {
      clock := now;
      ghost var outcome := BackOff(now, status);
      RequeueSymbol(current);
      Settle(now, outcome);
    }

    /** The finally block. */
    method Settle(now: int, ghost outcome: Outcome)
      requires now == clock && inFlight
      modifies this`timer, this`inFlight, this`history
      ensures Contents() == Finish(old(Contents()), outcome)
    {
      inFlight := false;
      history := history.(posts := if history.posts == [] then [] else Ended(history.posts, outcome));
      if |queue| > 0 {
        ScheduleSnapshotFlush(now);
      }
    }
  }
}
