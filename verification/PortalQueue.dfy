/**
 The per-portal request queue of the Bitrix24 client and the loop that drains it.

 Every await in the source cuts a step. `Portal` is one portal's share of the module state, with the
 drain loop's suspension point; `History` remembers what was accepted, started and settled. The class
 updates the module's maps and is proved to act on one portal's share at a time.
 */
module PortalQueue {
  import opened Common
  import opened RetryLoop

  const MAX_QUEUE_SIZE := 100
  const THROTTLE_INTERVAL_MS := 500

  type Answer = Result<string, Failure>

  /** A queued call; `id` stands for its pair of resolve and reject callbacks. */
  datatype QueueEntry = QueueEntry(id: nat, method_: string, payload: string, accessToken: string)

  /** Where the drain loop of a portal is suspended. */
  datatype Loop = NotRunning | Calling(entry: QueueEntry) | Throttled(readyAt: int)

  datatype Portal = Portal(queue: Option<seq<QueueEntry>>, draining: bool, loop: Loop)

  datatype Admission = GoDirect | Queued | QueueFull

  datatype Settled = Settled(entry: QueueEntry, answer: Answer, at: int)

  datatype History = History(accepted: seq<QueueEntry>, starts: seq<int>, settled: seq<Settled>)

  datatype Event =
    | Call(entry: QueueEntry, at: int)
    | DirectFailed(failure: Failure, at: int)
    | StartDrain(at: int)
    | CallReturned(answer: Answer, at: int)
    | DelayElapsed(at: int)

  // ---------------------------------------------------------------- one portal's steps

  /** callBitrixApi up to its first await. */
  function Admit(p: Portal, entry: QueueEntry): (Portal, Admission) {
    if p.queue.None? then (p, GoDirect)
    else if |p.queue.value| >= MAX_QUEUE_SIZE then (p, QueueFull)
    else (p.(queue := Some(p.queue.value + [entry])), Queued)
  }

  /** The loop head: shift the next entry and call, or drop the portal and leave. */
  function NextOrLeave(p: Portal): Portal
    requires p.queue.Some?
  {
    if p.queue.value == [] then Portal(None, false, NotRunning)
    else Portal(Some(p.queue.value[1..]), true, Calling(p.queue.value[0]))
  }

  function BeginDrain(p: Portal): Portal {
    if p.draining then p
    else if p.queue.None? then p.(draining := false)
    else NextOrLeave(p.(draining := true))
  }

  const LIMIT_WORD := "QUERY_LIMIT_EXCEEDED"

  predicate Includes(text: string, word: string) {
    |word| <= |text| && (text[..|word|] == word || (text != [] && Includes(text[1..], word)))
  }

  predicate IsQueryLimit(f: Failure) {
    f.ApiError? && Includes(f.message, LIMIT_WORD)
  }

  /** The catch branch of callBitrixApi. */
  function AfterDirectFailure(p: Portal, f: Failure): Portal {
    if IsQueryLimit(f) && p.queue.None? then BeginDrain(p.(queue := Some([]))) else p
  }

  function AfterCall(p: Portal, now: int): Portal {
    if !p.loop.Calling? || p.queue.None? then p
    else if p.queue.value != [] then p.(loop := Throttled(now + THROTTLE_INTERVAL_MS))
    else NextOrLeave(p)
  }

  function AfterDelay(p: Portal, now: int): Portal {
    if p.loop.Throttled? && now >= p.loop.readyAt && p.queue.Some? then NextOrLeave(p) else p
  }

  /** What the drain loop hands to the callbacks: anything thrown that is no Error is wrapped as one. */
  function Delivered(a: Answer): Answer {
    if a.Err? && a.error.NonError? then Err(ApiError(a.error.text)) else a
  }

  /** What a call gave, and what its caller is handed: the same, but that whatever is no Error becomes one. */
  ghost predicate Hands(given: Answer, handed: Answer) {
    match given
    case Ok(body) => handed == Ok(body)
    case Err(ApiError(message)) => handed == Err(ApiError(message))
    case Err(OtherError(message)) => handed == Err(OtherError(message))
    case Err(NonError(text)) => handed == Err(ApiError(text))
  }

  lemma {:induction false} IncludesAt(text: string, word: string, i: nat)
    requires i <= |text| && word <= text[i..]
    ensures Includes(text, word)
  {
    if i > 0 {
      assert text[1..][i - 1..] == text[i..];
      IncludesAt(text[1..], word, i - 1);
    }
  }

  lemma {:induction false} IncludesWhere(text: string, word: string) returns (i: nat)
    requires Includes(text, word)
    ensures i <= |text| && word <= text[i..]
  {
    if word <= text {
      i := 0;
    } else {
      i := IncludesWhere(text[1..], word);
      assert text[1..][i..] == text[i + 1..];
      i := i + 1;
    }
  }

  /** The error a call leaves when the rate limit refused its last attempt throttles; other kinds of failure never do. */
  lemma {:induction false} RateLimitedCallsThrottle(before: string, after: string, text: string)
    ensures IsQueryLimit(ApiError(before + LIMIT_WORD + after)) && IsQueryLimit(ApiError(QUERY_LIMIT))
    ensures !IsQueryLimit(OtherError(text)) && !IsQueryLimit(NonError(text))
  {
    var whole := before + LIMIT_WORD + after;
    assert whole[|before|..] == LIMIT_WORD + after;
    IncludesAt(whole, LIMIT_WORD, |before|);
    assert QUERY_LIMIT == "Bitrix24 " + LIMIT_WORD;
    assert QUERY_LIMIT[9..] == LIMIT_WORD;
    IncludesAt(QUERY_LIMIT, LIMIT_WORD, 9);
  }

  /** Presence in the map decides: absent goes direct, fewer than 100 waiting joins the end, a full queue refuses. */
  lemma {:induction false} AdmissionByQueue(p: Portal, entry: QueueEntry)
    ensures p.queue.None? ==> Admit(p, entry) == (p, GoDirect)
    ensures p.queue.Some? && |p.queue.value| >= 100 ==> Admit(p, entry) == (p, QueueFull)
    ensures p.queue.Some? && |p.queue.value| < 100 ==>
              Admit(p, entry) == (Portal(Some(p.queue.value + [entry]), p.draining, p.loop), Queued)
  {}

  function Step(p: Portal, e: Event): Portal {
    match e
    case Call(entry, _) => Admit(p, entry).0
    case DirectFailed(f, _) => AfterDirectFailure(p, f)
    case StartDrain(_) => BeginDrain(p)
    case CallReturned(_, now) => AfterCall(p, now)
    case DelayElapsed(now) => AfterDelay(p, now)
  }

  /** What an observer records of a step: entries taken in, calls begun, callbacks invoked. */
  function Record(h: History, p: Portal, e: Event): History {
    var q := Step(p, e);
    var began := q.loop.Calling? && (!p.loop.Calling? || e.CallReturned?);
    History(
      if e.Call? && Admit(p, e.entry).1 == Queued then h.accepted + [e.entry] else h.accepted,
      if began then h.starts + [e.at] else h.starts,
      if e.CallReturned? && p.loop.Calling? && p.queue.Some? then h.settled + [Settled(p.loop.entry, Delivered(e.answer), e.at)] else h.settled)
  }

  datatype World = World(portal: Portal, history: History)

  function Next(w: World, e: Event): World {
    World(Step(w.portal, e), Record(w.history, w.portal, e))
  }

  function Run(w: World, es: seq<Event>): World
    decreases |es|
  {
    if es == [] then w else Run(Next(w, es[0]), es[1..])
  }

  predicate Chronological(es: seq<Event>, from: int) {
    es == [] || (es[0].at >= from && Chronological(es[1..], es[0].at))
  }

  function Last(es: seq<Event>, clock: int): int {
    if es == [] then clock else Last(es[1..], es[0].at)
  }

  // ---------------------------------------------------------------- the drain contract

  function Waiting(p: Portal): seq<QueueEntry> {
    (if p.loop.Calling? then [p.loop.entry] else []) + (if p.queue.Some? then p.queue.value else [])
  }

  /** Calls never overlap and begin at least 500 ms after the one before has settled. */
  ghost predicate Spaced(h: History) {
    && |h.settled| <= |h.starts| <= |h.settled| + 1
    && (forall i {:trigger h.settled[i]} | 0 <= i < |h.settled| ::
          h.starts[i] <= h.settled[i].at &&
          (i + 1 < |h.starts| ==> h.starts[i + 1] >= h.settled[i].at + 500))
  }

  /** Callbacks invoked so far are the oldest accepted entries, in order; the rest are still waiting. */
  ghost predicate Fifo(h: History, waiting: seq<QueueEntry>) {
    && |h.settled| <= |h.accepted|
    && (forall i | 0 <= i < |h.settled| :: h.settled[i].entry == h.accepted[i])
    && waiting == h.accepted[|h.settled|..]
  }

  ghost predicate Control(p: Portal, h: History, bound: nat, clock: int) {
    && (p.draining <==> p.loop != NotRunning)
    && (p.draining ==> p.queue.Some?)
    && (p.queue.Some? && !p.draining ==> h.settled == [])
    && (p.queue.Some? ==> |p.queue.value| <= bound)
    && |h.starts| == |h.settled| + (if p.loop.Calling? then 1 else 0)
    && (p.loop.Calling? ==> h.starts[|h.settled|] <= clock)
    && (p.loop.Throttled? ==>
          p.queue.value != [] && h.settled != [] &&
          p.loop.readyAt >= h.settled[|h.settled| - 1].at + THROTTLE_INTERVAL_MS)
  }

  ghost predicate Inv(w: World, bound: nat, clock: int) {
    && Control(w.portal, w.history, bound, clock)
    && Fifo(w.history, Waiting(w.portal))
    && Spaced(w.history)
  }

  /** A portal found with any queue and no drain running. */
  function Found(queue: seq<QueueEntry>): World {
    World(Portal(Some(queue), false, NotRunning), History(queue, [], []))
  }

  lemma InvAtStart(queue: seq<QueueEntry>, clock: int)
    ensures Inv(Found(queue), Max(|queue|, MAX_QUEUE_SIZE), clock)
  {}

  lemma {:induction false} LoopHeadKeepsInv(p: Portal, h: History, bound: nat, now: int)
    requires p.queue.Some? && |p.queue.value| <= bound
    requires Fifo(h, p.queue.value)
    requires Spaced(h) && |h.starts| == |h.settled|
    requires h.settled != [] ==> now >= h.settled[|h.settled| - 1].at + THROTTLE_INTERVAL_MS || p.queue.value == []
    ensures Inv(World(NextOrLeave(p), if p.queue.value == [] then h else h.(starts := h.starts + [now])), bound, now)
  {
    if p.queue.value != [] {
      assert Waiting(NextOrLeave(p)) == p.queue.value;
      assert Spaced(h.(starts := h.starts + [now]));
    } else {
      assert Waiting(NextOrLeave(p)) == p.queue.value;
    }
  }

  /** The entry in call is the oldest one waiting; settling it keeps the order. */
  lemma SettleKeepsFifo(h: History, x: Settled, rest: seq<QueueEntry>)
    requires Fifo(h, [x.entry] + rest)
    ensures Fifo(h.(settled := h.settled + [x]), rest)
  {
    var n := |h.settled|;
    assert h.accepted[n..][0] == x.entry;
    assert h.accepted[n + 1..] == h.accepted[n..][1..] == rest;
  }

  /** The callers settled since are handed these answers, one each and in this order. */
  ghost predicate SettledWith(before: seq<Settled>, after: seq<Settled>, answers: seq<Answer>) {
    && |after| == |before| + |answers| && before <= after
    && forall i | 0 <= i < |answers| :: Hands(answers[i], after[|before| + i].answer)
  }

  lemma {:induction false} SettledMore(before: seq<Settled>, between: seq<Settled>, after: seq<Settled>, answers: seq<Answer>)
    requires answers != []
    requires SettledWith(before, between, [answers[0]]) && SettledWith(between, after, answers[1..])
    ensures SettledWith(before, after, answers)
  {
    forall i | 0 <= i < |answers| ensures Hands(answers[i], after[|before| + i].answer) {
      if i == 0 {
        assert Hands([answers[0]][0], between[|before| + 0].answer);
      } else {
        assert Hands(answers[1..][i - 1], after[|between| + (i - 1)].answer);
      }
    }
  }

  lemma {:induction false} ReturnKeepsInv(w: World, answer: Answer, bound: nat, clock: int, now: int)
    requires Inv(w, bound, clock) && now >= clock && w.portal.loop.Calling?
    ensures Inv(Next(w, CallReturned(answer, now)), bound, now)
    ensures Next(w, CallReturned(answer, now)).history.accepted == w.history.accepted
    ensures SettledWith(w.history.settled, Next(w, CallReturned(answer, now)).history.settled, [answer])
  {
    var p, h := w.portal, w.history;
    var x := Settled(p.loop.entry, Delivered(answer), now);
    var h' := h.(settled := h.settled + [x]);
    SettleKeepsFifo(h, x, p.queue.value);
    assert Spaced(h');
    assert AfterCall(p, now).loop != NotRunning ==> AfterCall(p, now).loop.Throttled?;
    assert Next(w, CallReturned(answer, now)) == World(AfterCall(p, now), h');
    if p.queue.value == [] {
      LoopHeadKeepsInv(p, h', bound, now);
    } else {
      assert Waiting(AfterCall(p, now)) == p.queue.value;
    }
  }

  lemma {:induction false} CallKeepsInv(w: World, entry: QueueEntry, bound: nat, clock: int, now: int)
    requires Inv(w, bound, clock) && now >= clock && bound >= MAX_QUEUE_SIZE
    ensures Inv(Next(w, Call(entry, now)), bound, now)
    ensures w.history.accepted <= Next(w, Call(entry, now)).history.accepted
  {
    var p, h := w.portal, w.history;
    if Admit(p, entry).1 == Queued {
      var n := |h.settled|;
      assert Waiting(Admit(p, entry).0) == Waiting(p) + [entry];
      assert (h.accepted + [entry])[n..] == h.accepted[n..] + [entry];
    }
  }

  lemma {:induction false} StepKeepsInv(w: World, e: Event, bound: nat, clock: int)
    requires Inv(w, bound, clock) && e.at >= clock && bound >= MAX_QUEUE_SIZE
    ensures Inv(Next(w, e), bound, e.at)
    ensures w.history.accepted <= Next(w, e).history.accepted
  {
    var p, h := w.portal, w.history;
    match e {
      case Call(entry, now) => CallKeepsInv(w, entry, bound, clock, now);
      case DirectFailed(f, _) =>
        assert AfterDirectFailure(p, f) == p;
        assert Next(w, e) == w;
      case StartDrain(now) =>
        if !p.draining && p.queue.Some? {
          assert Waiting(p) == p.queue.value;
          LoopHeadKeepsInv(p, h, bound, now);
        } else {
          assert Next(w, e) == w;
        }
      case CallReturned(answer, now) =>
        if p.loop.Calling? {
          ReturnKeepsInv(w, answer, bound, clock, now);
        } else {
          assert Next(w, e) == w;
        }
      case DelayElapsed(now) =>
        if p.loop.Throttled? && now >= p.loop.readyAt {
          assert Waiting(p) == p.queue.value;
          LoopHeadKeepsInv(p, h, bound, now);
        } else {
          assert Next(w, e) == w;
        }
    }
  }

  lemma {:induction false} RunKeepsInv(w: World, es: seq<Event>, bound: nat, clock: int)
    requires Inv(w, bound, clock) && Chronological(es, clock) && bound >= MAX_QUEUE_SIZE
    ensures Inv(Run(w, es), bound, Last(es, clock))
    ensures w.history.accepted <= Run(w, es).history.accepted
    decreases |es|
  {
    if es != [] {
      StepKeepsInv(w, es[0], bound, clock);
      RunKeepsInv(Next(w, es[0]), es[1..], bound, es[0].at);
    }
  }

  /** What the calls of the drain gave, in the order in which they returned. */
  function Returned(w: World, es: seq<Event>): seq<Answer>
    decreases |es|
  {
    if es == [] then []
    else (if es[0].CallReturned? && w.portal.loop.Calling? then [es[0].answer] else []) + Returned(Next(w, es[0]), es[1..])
  }

  lemma {:induction false} EachGetsItsOwnAnswer(w: World, es: seq<Event>, bound: nat, clock: int)
    requires Inv(w, bound, clock) && Chronological(es, clock) && bound >= MAX_QUEUE_SIZE
    ensures SettledWith(w.history.settled, Run(w, es).history.settled, Returned(w, es))
    decreases |es|
  {
    if es != [] {
      var w' := Next(w, es[0]);
      StepKeepsInv(w, es[0], bound, clock);
      EachGetsItsOwnAnswer(w', es[1..], bound, es[0].at);
      if es[0].CallReturned? && w.portal.loop.Calling? {
        ReturnKeepsInv(w, es[0].answer, bound, clock, es[0].at);
        assert Returned(w, es)[1..] == Returned(w', es[1..]);
        SettledMore(w.history.settled, w'.history.settled, Run(w, es).history.settled, Returned(w, es));
      } else {
        assert w'.history.settled == w.history.settled && Returned(w, es) == Returned(w', es[1..]);
      }
    }
  }

  /**
   From any starting queue, with arrivals at every await: callbacks are invoked once each, in arrival order
   and with what their own call gave, drained calls are spaced, the queue is bounded, and the portal is gone
   only once all are settled.
   */
  lemma {:induction false} DrainContract(queue: seq<QueueEntry>, es: seq<Event>, clock: int)
    requires Chronological(es, clock)
    ensures var w := Run(Found(queue), es);
            && queue <= w.history.accepted
            && Fifo(w.history, Waiting(w.portal))
            && Spaced(w.history)
            && SettledWith([], w.history.settled, Returned(Found(queue), es))
            && (w.portal.queue.Some? ==> |w.portal.queue.value| <= Max(|queue|, MAX_QUEUE_SIZE))
            && (w.portal.queue.None? ==> |w.history.settled| == |w.history.accepted|)
  {
    InvAtStart(queue, clock);
    RunKeepsInv(Found(queue), es, Max(|queue|, MAX_QUEUE_SIZE), clock);
    EachGetsItsOwnAnswer(Found(queue), es, Max(|queue|, MAX_QUEUE_SIZE), clock);
  }

  /** The returns and wake-ups that let a running drain finish when nothing more arrives. */
  function Schedule(answers: seq<Answer>, now: int): seq<Event> {
    if answers == [] then []
    else
      var ready := now + THROTTLE_INTERVAL_MS;
      [CallReturned(answers[0], now), DelayElapsed(ready)] + Schedule(answers[1..], ready)
  }

  lemma RunTwo(w: World, a: Event, b: Event, es: seq<Event>)
    ensures Run(w, [a, b] + es) == Run(Next(Next(w, a), b), es)
  {
    assert ([a, b] + es)[1..] == [b] + es && ([b] + es)[1..] == es;
  }

  lemma {:induction false} OneRound(w: World, bound: nat, clock: int, answer: Answer, now: int)
    requires Inv(w, bound, clock) && now >= clock && bound >= MAX_QUEUE_SIZE && w.portal.loop.Calling?
    ensures var ready := now + THROTTLE_INTERVAL_MS;
            var w' := Next(Next(w, CallReturned(answer, now)), DelayElapsed(ready));
            && Inv(w', bound, ready)
            && w'.history.accepted == w.history.accepted
            && SettledWith(w.history.settled, w'.history.settled, [answer])
            && (if w.portal.queue.value == [] then w'.portal == Portal(None, false, NotRunning)
                else w'.portal.loop.Calling? && |w'.portal.queue.value| == |w.portal.queue.value| - 1)
  {
    ReturnKeepsInv(w, answer, bound, clock, now);
    var v := Next(w, CallReturned(answer, now));
    StepKeepsInv(v, DelayElapsed(now + THROTTLE_INTERVAL_MS), bound, now);
  }

  /** Whatever the calls answer, the drain hands each caller its own answer, in order, and then drops the portal. */
  lemma {:induction false} DrainFinishes(w: World, bound: nat, clock: int, answers: seq<Answer>, now: int)
    requires Inv(w, bound, clock) && now >= clock && bound >= MAX_QUEUE_SIZE
    requires w.portal.loop.Calling? && |answers| == |w.portal.queue.value| + 1
    ensures var done := Run(w, Schedule(answers, now));
            && done.portal == Portal(None, false, NotRunning)
            && done.history.accepted == w.history.accepted && Fifo(done.history, [])
            && SettledWith(w.history.settled, done.history.settled, answers)
    decreases |answers|
  {
    var ready := now + THROTTLE_INTERVAL_MS;
    OneRound(w, bound, clock, answers[0], now);
    RunTwo(w, CallReturned(answers[0], now), DelayElapsed(ready), Schedule(answers[1..], ready));
    var w' := Next(Next(w, CallReturned(answers[0], now)), DelayElapsed(ready));
    if w.portal.queue.value != [] {
      DrainFinishes(w', bound, ready, answers[1..], ready);
    } else {
      assert Schedule(answers[1..], ready) == [] && Run(w', []) == w';
      assert Waiting(w'.portal) == [];
    }
    SettledMore(w.history.settled, w'.history.settled, Run(w, Schedule(answers, now)).history.settled, answers);
  }

  /**
   As shipped, no portal is ever throttled: a failing direct call stores an empty queue and the drain it
   starts removes it before the first await, so from an empty map every call goes direct.
   */
  lemma {:induction false} NeverPopulatedFromEmpty(h: History, es: seq<Event>, entry: QueueEntry)
    ensures var w := Run(World(Portal(None, false, NotRunning), h), es);
            && w.portal == Portal(None, false, NotRunning)
            && w.history == h
            && Admit(w.portal, entry).1 == GoDirect
    decreases |es|
  {
    if es != [] {
      NeverPopulatedFromEmpty(h, es[1..], entry);
    }
  }

  // ---------------------------------------------------------------- the module's maps

  class PortalQueues {
    var portalQueues: map<string, seq<QueueEntry>>
    var draining: map<string, bool>
    /** Drain loops that are waiting at an await, by portal. */
    var suspended: map<string, Loop>

    constructor ()
      ensures portalQueues == map[] && draining == map[] && suspended == map[]
    {
      portalQueues, draining, suspended := map[], map[], map[];
    }

    ghost function Share(portal: string): Portal
      reads this
    {
      Portal(Lookup(portalQueues, portal), portal in draining && draining[portal],
             if portal in suspended then suspended[portal] else NotRunning)
    }

    method CallBitrixApi(portal: string, entry: QueueEntry) returns (admission: Admission)
      modifies this`portalQueues
      ensures (Share(portal), admission) == Admit(old(Share(portal)), entry)
      ensures forall other | other != portal :: Share(other) == old(Share(other))
    {
      if portal !in portalQueues {
        return GoDirect;
      }
      var existingQueue := portalQueues[portal];
      if |existingQueue| >= MAX_QUEUE_SIZE {
        return QueueFull;
      }
      portalQueues := portalQueues[portal := existingQueue + [entry]];
      admission := Queued;
    }

    method DirectCallFailed(portal: string, failure: Failure)
      modifies this
      ensures Share(portal) == AfterDirectFailure(old(Share(portal)), failure)
      ensures forall other | other != portal :: Share(other) == old(Share(other))
    {
      if IsQueryLimit(failure) && portal !in portalQueues {
        portalQueues := portalQueues[portal := []];
        DrainQueue(portal);
      }
    }

    /** drainQueue up to its first await. */
    method DrainQueue(portal: string)
      modifies this
      ensures Share(portal) == BeginDrain(old(Share(portal)))
      ensures forall other | other != portal :: Share(other) == old(Share(other))
    {
      if portal in draining && draining[portal] {
        return;
      }
      draining := draining[portal := true];
      if portal !in portalQueues {
        draining := draining - {portal};
        return;
      }
      LoopHead(portal);
    }

    method LoopHead(portal: string)
      requires portal in portalQueues && portal in draining && draining[portal]
      modifies this
      ensures Share(portal) == NextOrLeave(old(Share(portal)))
      ensures forall other | other != portal :: Share(other) == old(Share(other))
    {
      var queue := portalQueues[portal];
      if |queue| > 0 {
        var entry := queue[0];
        portalQueues := portalQueues[portal := queue[1..]];
        suspended := suspended[portal := Calling(entry)];
      } else {
        portalQueues := portalQueues - {portal};
        draining := draining - {portal};
        suspended := suspended - {portal};
      }
    }

    /** The drain resumes with the call's answer, settles the entry, and waits or goes on. */
    method CallReturned(portal: string, answer: Answer, now: int) returns (settled: Settled)
      requires Share(portal).loop.Calling? && Share(portal).draining && portal in portalQueues
      modifies this
      ensures Share(portal) == AfterCall(old(Share(portal)), now)
      ensures settled.entry == old(Share(portal)).loop.entry && settled.at == now
      ensures settled.answer == Delivered(answer) && Hands(answer, settled.answer)
      ensures forall other | other != portal :: Share(other) == old(Share(other))
    {
      var loop := suspended[portal];
      var reason := answer;
      if answer.Err? && answer.error.NonError? {
        reason := Err(ApiError(answer.error.text));
      }
      settled := Settled(loop.entry, reason, now);
      if |portalQueues[portal]| > 0 {
        suspended := suspended[portal := Throttled(now + THROTTLE_INTERVAL_MS)];
      } else {
        LoopHead(portal);
      }
    }

    method DelayElapsed(portal: string, now: int)
      requires Share(portal).loop.Throttled? && Share(portal).draining && portal in portalQueues
      requires now >= Share(portal).loop.readyAt
      modifies this
      ensures Share(portal) == AfterDelay(old(Share(portal)), now)
      ensures forall other | other != portal :: Share(other) == old(Share(other))
    {
      LoopHead(portal);
    }
  }
}
