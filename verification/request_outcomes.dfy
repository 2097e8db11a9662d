/**
 What the answers and the requests of a run bring about, told from its events alone: how long a refusal holds posts
 back, when the queue is served, and which requests have an effect.
 */
module RequestOutcomes {
  import opened Options
  import opened JsNumbers
  import opened SnapshotRequests

  /** The answers of 429 since the last success, told from the events alone; n is the count before them. */
  function Refusals(n: nat, events: seq<Event>): nat
    decreases |events|
  {
    if events == [] then n
    else
      Refusals(match events[0]
               case PostSucceeds(_) => 0
               case PostFails(_, status) => if status == 429 then n + 1 else n
               case _ => n,
               events[1..])
  }

  lemma StepRefusals(s: State, e: Event)
    requires Enabled(s, e)
    ensures Step(s, e).history.refusals == Refusals(s.history.refusals, [e])
  {
    assert [e][1..] == [];
  }

  lemma {:induction false} RefusalsCounted(s: State, events: seq<Event>, t: State)
    requires Reaches(s, events, t)
    ensures t.history.refusals == Refusals(s.history.refusals, events)
    decreases |events|
  {
    if events != [] {
      StepRefusals(s, events[0]);
      assert [events[0]][1..] == [];
      RefusalsCounted(Step(s, events[0]), events[1..], t);
    }
  }

  /** The n-th answer of 429 since the last success: twice the last pause, from half a minute up to five. */
  function PauseAfter(n: nat): int {
    if n == 0 then 30_000 else Min(300_000, 2 * PauseAfter(n - 1))
  }

  lemma {:induction false} PauseIsBackoff(n: nat)
    ensures PauseAfter(n) == BackoffAfter(n) && 30_000 <= PauseAfter(n) <= PauseAfter(n + 1) <= 300_000
  {
    BackoffBounds(n);
    if n > 0 {
      PauseIsBackoff(n - 1);
      BackoffBounds(n - 1);
    }
  }

  function AskedAt(s: State, symbol: string): int {
    if symbol in s.lastRequestedAt then s.lastRequestedAt[symbol] else 0
  }

  /** What pacing reads, apart from the queue, the timer and the post in flight. */
  datatype Pace = Pace(clock: int, lastSentAt: int, backoffUntil: int, backoffMs: int, asked: map<string, int>)

  function PaceOf(s: State): Pace {
    Pace(s.clock, s.lastSentAt, s.backoffUntil, s.backoffMs, s.lastRequestedAt)
  }

  lemma FinishPace(s: State, outcome: Outcome)
    ensures PaceOf(Finish(s, outcome)) == PaceOf(s)
  {
  }

  lemma FailurePace(s: State, now: int, status: int)
    requires Enabled(s, PostFails(now, status))
    ensures PaceOf(Step(s, PostFails(now, status))) ==
            var pause := Min(300_000, Max(30_000, s.backoffMs) * 2);
            Pace(now, now, if status == 429 then now + pause else s.backoffUntil, if status == 429 then pause else s.backoffMs,
                 s.lastRequestedAt)
  {
    var at := s.(clock := now);
    FinishPace(Requeue(AfterFailure(at, status), s.inFlight.value), FailureOutcome(at, status));
  }

  lemma SuccessPace(s: State, now: int)
    requires Enabled(s, PostSucceeds(now))
    ensures PaceOf(Step(s, PostSucceeds(now))) == Pace(now, now, 0, 30_000, s.lastRequestedAt)
  {
    var h := s.history.(delivered := s.history.delivered + multiset{s.inFlight.value}, refusals := 0);
    FinishPace(s.(clock := now, lastSentAt := now, backoffUntil := 0, backoffMs := MIN_BACKOFF_MS, history := h), Delivered(now));
  }

  lemma TimerPace(s: State, now: int)
    requires Enabled(s, TimerFires(now))
    ensures PaceOf(Step(s, TimerFires(now))) == PaceOf(s).(clock := now)
  {
  }

  lemma RequestPace(s: State, symbol: string, now: int)
    requires Enabled(s, Request(symbol, now))
    ensures PaceOf(Step(s, Request(symbol, now))) ==
            PaceOf(s).(clock := now, asked := if symbol != "" && now - AskedAt(s, symbol) >= 60_000 then s.lastRequestedAt[symbol := now]
                                              else s.lastRequestedAt)
  {
    var at := s.(clock := now);
    if symbol != "" && !TooSoon(at, symbol) {
      assert PaceOf(Enqueue(Noted(at, symbol), symbol)) == PaceOf(Noted(at, symbol));
    }
  }

  lemma PauseKnown(clock: int, events: seq<Event>, s: State)
    requires Reaches(Init(clock), events, s)
    ensures s.backoffMs == PauseAfter(Refusals(0, events)) && 30_000 <= s.backoffMs
  {
    ReachableInv(clock, events, s);
    RefusalsCounted(Init(clock), events, s);
    PauseIsBackoff(s.history.refusals);
  }

  /** A failed post sets the send time; only 429 lengthens the pause and starts it, any other status leaves both. */
  lemma AnswerPauses(clock: int, events: seq<Event>, s: State, now: int, status: int)
    requires Reaches(Init(clock), events, s) && Enabled(s, PostFails(now, status))
    ensures var r := PaceOf(Step(s, PostFails(now, status)));
      if status == 429 then r.backoffMs == PauseAfter(Refusals(0, events) + 1) && r.backoffUntil == now + r.backoffMs
      else r.backoffMs == s.backoffMs && r.backoffUntil == s.backoffUntil
  {
    PauseKnown(clock, events, s);
    FailurePace(s, now, status);
  }

  /** Until then no timer may fire, and no later answer but a success lifts it. */
  ghost predicate Barred(s: Pace, until: int) {
    until <= s.backoffUntil && until <= s.clock + s.backoffMs && s.backoffMs <= 300_000
  }

  lemma StepBars(s: State, e: Event, until: int)
    requires Enabled(s, e) && !e.PostSucceeds? && Barred(PaceOf(s), until)
    ensures Barred(PaceOf(Step(s, e)), until)
  {
    match e
    case Request(symbol, now) => RequestPace(s, symbol, now);
    case TimerFires(now) => TimerPace(s, now);
    case PostFails(now, status) => FailurePace(s, now, status);
  }

  lemma {:induction false} RunBars(s: State, events: seq<Event>, t: State, until: int)
    requires Reaches(s, events, t) && Barred(PaceOf(s), until) && forall e :: e in events ==> !e.PostSucceeds?
    ensures Barred(PaceOf(t), until)
    decreases |events|
  {
    if events != [] {
      assert events[0] in events && forall e :: e in events[1..] ==> e in events;
      StepBars(s, events[0], until);
      RunBars(Step(s, events[0]), events[1..], t, until);
    }
  }

  lemma RefusalBars(clock: int, events: seq<Event>, s: State, refusal: Event)
    requires refusal.PostFails? && refusal.status == 429
    requires Reaches(Init(clock), events, s) && Enabled(s, refusal)
    ensures Barred(PaceOf(Step(s, refusal)), refusal.now + PauseAfter(Refusals(0, events) + 1))
  {
    AnswerPauses(clock, events, s, refusal.now, 429);
    FailurePace(s, refusal.now, 429);
  }

  lemma TimerWaits(s: State, next: int)
    requires PaceInv(s) && Enabled(s, TimerFires(next))
    ensures next >= s.lastSentAt + 10_000 && next >= s.backoffUntil
  {
  }

  /** No timer of a reachable state fires within ten seconds of the last post's end, or before the pause is over. */
  lemma TimerWaitsReached(clock: int, events: seq<Event>, s: State, e: Event, more: seq<Event>, t: State, next: int)
    requires Reaches(Init(clock), events, s) && Enabled(s, e) && Reaches(Step(s, e), more, t) && Enabled(t, TimerFires(next))
    ensures next >= t.lastSentAt + 10_000 && next >= t.backoffUntil
  {
    ReachableInv(clock, events, s);
    StepKeeps(s, e);
    RunKeeps(Step(s, e), more, t);
    TimerWaits(t, next);
  }

  /**
   After the n-th 429 since the last success no post starts for min(300 s, 30 s * 2^n), whatever requests and other
   failures follow, unless a success comes first.
   */
  lemma RefusalHoldsBack(clock: int, events: seq<Event>, s: State, refusal: Event, more: seq<Event>, t: State, next: int)
    requires refusal.PostFails? && refusal.status == 429
    requires Reaches(Init(clock), events, s) && Enabled(s, refusal)
    requires Reaches(Step(s, refusal), more, t) && forall e :: e in more ==> !e.PostSucceeds?
    requires Enabled(t, TimerFires(next))
    ensures next >= refusal.now + PauseAfter(Refusals(0, events) + 1)
  {
    var until := RefusedUntil(clock, events, s, refusal);
    BarredWaits(clock, events, s, refusal, more, t, next, until);
  }

  lemma RefusedUntil(clock: int, events: seq<Event>, s: State, refusal: Event) returns (until: int)
    requires refusal.PostFails? && refusal.status == 429
    requires Reaches(Init(clock), events, s) && Enabled(s, refusal)
    ensures until == refusal.now + PauseAfter(Refusals(0, events) + 1) && Barred(PaceOf(Step(s, refusal)), until)
  {
    RefusalBars(clock, events, s, refusal);
    until := refusal.now + PauseAfter(Refusals(0, events) + 1);
  }

  lemma BarredWaits(clock: int, events: seq<Event>, s: State, e: Event, more: seq<Event>, t: State, next: int, until: int)
    requires Reaches(Init(clock), events, s) && Enabled(s, e) && Barred(PaceOf(Step(s, e)), until)
    requires Reaches(Step(s, e), more, t) && forall e' :: e' in more ==> !e'.PostSucceeds?
    requires Enabled(t, TimerFires(next))
    ensures next >= until
  {
    TimerWaitsReached(clock, events, s, e, more, t, next);
    StillBarred(Step(s, e), more, t, until);
  }

  lemma StillBarred(r: State, more: seq<Event>, t: State, until: int)
    requires Reaches(r, more, t) && Barred(PaceOf(r), until) && forall e :: e in more ==> !e.PostSucceeds?
    ensures until <= t.backoffUntil
  {
    RunBars(r, more, t, until);
  }

  lemma StepSentLate(s: State, e: Event, sent: int)
    requires Enabled(s, e) && sent <= s.lastSentAt && sent <= s.clock
    ensures sent <= Step(s, e).lastSentAt && sent <= Step(s, e).clock
  {
    StepPace(s, e);
  }

  lemma StepPace(s: State, e: Event)
    requires Enabled(s, e)
    ensures var r := PaceOf(Step(s, e));
      && r.clock == e.now && r.lastSentAt == (if e.PostSucceeds? || e.PostFails? then e.now else s.lastSentAt)
      && (!e.Request? ==> r.asked == s.lastRequestedAt)
  {
    match e
    case Request(symbol, now) => RequestPace(s, symbol, now);
    case TimerFires(now) => TimerPace(s, now);
    case PostSucceeds(now) => SuccessPace(s, now);
    case PostFails(now, status) => FailurePace(s, now, status);
  }

  lemma {:induction false} RunSentLate(s: State, events: seq<Event>, t: State, sent: int)
    requires Reaches(s, events, t) && sent <= s.lastSentAt && sent <= s.clock
    ensures sent <= t.lastSentAt
    decreases |events|
  {
    if events != [] {
      StepSentLate(s, events[0], sent);
      RunSentLate(Step(s, events[0]), events[1..], t, sent);
    }
  }

  /** After any post ends, whatever its answer, no other starts for ten seconds. */
  lemma EndHoldsBack(clock: int, events: seq<Event>, s: State, end: Event, more: seq<Event>, t: State, next: int)
    requires Reaches(Init(clock), events, s) && Enabled(s, end) && (end.PostSucceeds? || end.PostFails?)
    requires Reaches(Step(s, end), more, t) && Enabled(t, TimerFires(next))
    ensures next >= end.now + 10_000
  {
    StepPace(s, end);
    RunSentLate(Step(s, end), more, t, end.now);
    TimerWaitsReached(clock, events, s, end, more, t, next);
  }

  lemma FinishArms(s: State, outcome: Outcome)
    requires s.timer.None? && Finish(s, outcome).queue != []
    ensures Finish(s, outcome).timer == Some(Max(s.clock, Max(s.lastSentAt + 10_000, s.backoffUntil)))
  {
  }

  lemma SuccessArms(s: State, now: int)
    requires s.timer.None? && Enabled(s, PostSucceeds(now)) && Step(s, PostSucceeds(now)).queue != []
    requires now >= 0
    ensures Step(s, PostSucceeds(now)).timer == Some(now + 10_000)
  {
    var h := s.history.(delivered := s.history.delivered + multiset{s.inFlight.value}, refusals := 0);
    var at := s.(clock := now, lastSentAt := now, backoffUntil := 0, backoffMs := MIN_BACKOFF_MS, history := h);
    FinishArms(at, Delivered(now));
  }

  lemma FailureArms(s: State, now: int, status: int)
    requires s.timer.None? && Enabled(s, PostFails(now, status))
    ensures var r := Step(s, PostFails(now, status));
      r.queue != [] && r.timer == Some(Max(now + 10_000, r.backoffUntil))
  {
    var at := s.(clock := now);
    var requeued := Requeue(AfterFailure(at, status), s.inFlight.value);
    FinishArms(requeued, FailureOutcome(at, status));
  }

  lemma NoTimerInFlight(clock: int, events: seq<Event>, s: State)
    requires Reaches(Init(clock), events, s) && s.inFlight.Some?
    ensures s.timer.None?
  {
    ReachableInv(clock, events, s);
  }

  /** Nor does the queue wait longer: after a success it is served ten seconds later. */
  lemma SuccessServes(clock: int, events: seq<Event>, s: State, now: int)
    requires clock >= 0 && Reaches(Init(clock), events, s) && Enabled(s, PostSucceeds(now))
    ensures var r := Step(s, PostSucceeds(now)); r.queue == s.queue && (r.queue != [] ==> r.timer == Some(now + 10_000))
  {
    NoTimerInFlight(clock, events, s);
    RunClock(Init(clock), events, s);
    if Step(s, PostSucceeds(now)).queue != [] {
      SuccessArms(s, now);
    }
  }

  /** After a failure the symbol is queued again, and served ten seconds later or when the pause is over. */
  lemma FailureServes(clock: int, events: seq<Event>, s: State, now: int, status: int)
    requires Reaches(Init(clock), events, s) && Enabled(s, PostFails(now, status))
    ensures var r := Step(s, PostFails(now, status));
      && r.queue == (if s.inFlight.value in s.queue then s.queue else s.queue + [s.inFlight.value])
      && r.timer == Some(if status == 429 then now + PauseAfter(Refusals(0, events) + 1) else Max(now + 10_000, s.backoffUntil))
  {
    NoTimerInFlight(clock, events, s);
    AnswerPauses(clock, events, s, now, status);
    PauseIsBackoff(Refusals(0, events) + 1);
    FailureArms(s, now, status);
    FailureQueue(s, now, status);
  }

  lemma FinishQueue(s: State, outcome: Outcome)
    ensures Finish(s, outcome).queue == s.queue
  {
  }

  lemma FailureQueue(s: State, now: int, status: int)
    requires Enabled(s, PostFails(now, status))
    ensures Step(s, PostFails(now, status)).queue ==
            if s.inFlight.value in s.queue then s.queue else s.queue + [s.inFlight.value]
  {
    var at := s.(clock := now);
    FinishQueue(Requeue(AfterFailure(at, status), s.inFlight.value), FailureOutcome(at, status));
  }

  lemma {:induction false} RunClock(s: State, events: seq<Event>, t: State)
    requires Reaches(s, events, t)
    ensures s.clock <= t.clock
    decreases |events|
  {
    if events != [] {
      StepPace(s, events[0]);
      RunClock(Step(s, events[0]), events[1..], t);
    }
  }

  /** When a request for the symbol last took effect, told from the events alone. */
  function LastAsked(last: int, events: seq<Event>, symbol: string): int
    decreases |events|
  {
    if events == [] then last
    else
      LastAsked(match events[0]
                case Request(other, now) => if other == symbol && now - last >= 60_000 then now else last
                case _ => last,
                events[1..], symbol)
  }

  lemma StepAsks(s: State, e: Event, symbol: string)
    requires Enabled(s, e) && symbol != ""
    ensures AskedAt(Step(s, e), symbol) == LastAsked(AskedAt(s, symbol), [e], symbol)
  {
    assert [e][1..] == [];
    StepPace(s, e);
    if e.Request? {
      RequestPace(s, e.symbol, e.now);
    }
  }

  lemma {:induction false} AskedCounted(s: State, events: seq<Event>, t: State, symbol: string)
    requires Reaches(s, events, t) && symbol != ""
    ensures AskedAt(t, symbol) == LastAsked(AskedAt(s, symbol), events, symbol)
    decreases |events|
  {
    if events != [] {
      StepAsks(s, events[0], symbol);
      assert [events[0]][1..] == [];
      AskedCounted(Step(s, events[0]), events[1..], t, symbol);
    }
  }

  lemma AcceptedRequest(s: State, symbol: string)
    requires symbol != "" && !TooSoon(s, symbol)
    ensures var r := OnRequest(s, symbol);
      && r.queue == (if symbol in s.queue then s.queue
                     else if |s.queue| >= 200 then (s.queue + [symbol])[1..] else s.queue + [symbol])
      && r.inFlight == s.inFlight
      && r.timer == (if s.timer.Some? || s.inFlight.Some? then s.timer
                     else Some(Max(s.clock, Max(s.lastSentAt + 10_000, s.backoffUntil))))
  {
    var q := Enqueue(Noted(s, symbol), symbol);
    assert q.timer == s.timer && q.inFlight == s.inFlight && q.lastSentAt == s.lastSentAt && q.backoffUntil == s.backoffUntil;
  }

  /**
   A request has an effect exactly when the symbol is named and last took effect a minute or more ago; then a symbol
   that is not queued goes to the end, and of more than 200 the first is dropped. Idle, it arms the timer.
   */
  lemma RequestOutcome(clock: int, events: seq<Event>, s: State, symbol: string, now: int)
    requires Reaches(Init(clock), events, s) && Enabled(s, Request(symbol, now))
    ensures var r := Step(s, Request(symbol, now));
      if symbol == "" || now - LastAsked(0, events, symbol) < 60_000 then r == s.(clock := now)
      else
        && r.queue == (if symbol in s.queue then s.queue
                       else if |s.queue| >= 200 then (s.queue + [symbol])[1..] else s.queue + [symbol])
        && r.inFlight == s.inFlight
        && r.timer == (if s.timer.Some? || s.inFlight.Some? then s.timer
                       else Some(Max(now, Max(s.lastSentAt + 10_000, s.backoffUntil))))
  {
    if symbol != "" {
      AskedCounted(Init(clock), events, s, symbol);
      if !TooSoon(s.(clock := now), symbol) {
        AcceptedRequest(s.(clock := now), symbol);
      }
    }
  }

  /** The first request of all, a minute or more after the epoch, may be posted at once. */
  lemma FirstRequest(clock: int, symbol: string, now: int)
    requires 0 <= clock <= now && 60_000 <= now && symbol != ""
    ensures var r := Step(Init(clock), Request(symbol, now)); r.queue == [symbol] && r.timer == Some(now)
  {
    RequestOutcome(clock, [], Init(clock), symbol, now);
    assert [] + [symbol] == [symbol];
  }
}
