/**
  Publisher threads, the event loop and the subscribers around one broker, as
  interleaved steps.  A publisher records its event under the lock, then schedules one
  loop callback per subscriber; a subscription registers under the lock and then replays
  the history on the loop thread, during which no other loop work runs.
 */
module EventBrokerProtocol {
  import opened BoundedQueue
  import opened Options
  import opened EventBroker

  /** A publish call after its critical section: `remaining` queues are not scheduled yet. */
  datatype Sending = Sending(event: Event, remaining: seq<QueueId>)

  /** A subscribe call between its critical section and its return. */
  datatype Replay = Replay(queue: QueueId, remaining: seq<Event>)

  /** What was subscribed: events published from `from` on are live; `until` is its end. */
  datatype Subscription = Subscription(process: ProcessId, from: nat, until: Option<nat>)

  datatype State = State(
    registry: Registry,
    queues: map<QueueId, seq<Event>>,
    callbacks: seq<(QueueId, Event)>,
    sending: seq<Sending>,
    replay: Option<Replay>,
    // history of the run
    published: seq<Event>,
    put: map<QueueId, seq<Event>>,
    subs: map<QueueId, Subscription>,
    overflowed: bool)

  datatype Step =
    | Publish(event: Event, order: seq<QueueId>)
    | Schedule(i: nat)
    | RunCallback
    | BeginSubscribe(process: ProcessId, queue: QueueId, loop: LoopId)
    | ReplayOne
    | EndSubscribe
    | Unsubscribe(process: ProcessId, queue: QueueId)
    | Get(queue: QueueId)

  ghost function Initial(limit: nat): State {
    State(Registry(limit, None, map[], map[]), map[], [], [], None, [], map[], map[], false)
  }

  /** `order` lists the members of `set` once each. */
  ghost predicate Lists(order: seq<QueueId>, members: set<QueueId>) {
    && (forall q :: q in order <==> q in members)
    && (forall i, j :: 0 <= i < j < |order| ==> order[i] != order[j])
  }

  ghost predicate Enabled(s: State, step: Step) {
    match step
    case Publish(e, order) =>
      Lists(order, if e.processId.Some? then s.registry.Subscribers(e.processId.value) else {})
    case Schedule(i) => i < |s.sending| && s.sending[i].remaining != []
    case RunCallback => s.replay.None? && s.callbacks != [] && s.callbacks[0].0 in s.queues && s.callbacks[0].0 in s.put
    case BeginSubscribe(p, q, l) => s.replay.None? && q !in s.queues
    case ReplayOne =>
      s.replay.Some? && s.replay.value.remaining != [] && s.replay.value.queue in s.queues
          && s.replay.value.queue in s.put
    case EndSubscribe => s.replay.Some? && s.replay.value.remaining == []
    case Unsubscribe(p, q) => s.replay.None?
    case Get(q) => s.replay.None? && q in s.queues && s.queues[q] != []
  }

  ghost function Next(s: State, step: Step): State
    requires Enabled(s, step)
  {
    match step
    case Publish(e, order) =>
      if e.processId.None? then s
      else s.(
        registry := s.registry.Published(e.processId.value, e),
        published := s.published + [e],
        sending := s.sending + [Sending(e, order)])
    case Schedule(i) =>
      var send := s.sending[i];
      s.(
        callbacks := s.callbacks + [(send.remaining[0], send.event)],
        sending := Scheduled(s.sending, i))
    case RunCallback =>
      var (q, e) := s.callbacks[0];
      s.(
        callbacks := s.callbacks[1..],
        queues := s.queues[q := PutLatest(s.registry.limit, s.queues[q], e)],
        put := s.put[q := s.put[q] + [e]])
    case BeginSubscribe(p, q, l) =>
      if !s.registry.Accepts(l) then s
      else s.(
        registry := s.registry.Subscribed(p, q, l),
        queues := s.queues[q := []],
        put := s.put[q := []],
        replay := Some(Replay(q, s.registry.History(p))),
        subs := s.subs[q := Subscription(p, |s.published|, None)])
    case ReplayOne =>
      var Replay(q, remaining) := s.replay.value;
      if Full(s.registry.limit, s.queues[q]) then s.(overflowed := true)
      else s.(
        queues := s.queues[q := s.queues[q] + [remaining[0]]],
        put := s.put[q := s.put[q] + [remaining[0]]],
        replay := Some(Replay(q, remaining[1..])))
    case EndSubscribe => s.(replay := None)
    case Unsubscribe(p, q) =>
      s.(
        registry := s.registry.Unsubscribed(p, q),
        subs := if q in s.subs && s.subs[q].process == p && s.subs[q].until.None?
                then s.subs[q := s.subs[q].(until := Some(|s.published|))] else s.subs)
    case Get(q) => s.(queues := s.queues[q := s.queues[q][1..]])
  }

  // ---------- What a subscriber is due ----------

  /** The events of one process id, in publication order. */
  ghost function Of(p: ProcessId, events: seq<Event>): seq<Event> {
    if events == [] then []
    else Of(p, events[..|events| - 1]) + if events[|events| - 1].processId == Some(p) then [events[|events| - 1]]
        else []
  }

  /** The last events before the subscription, then every later one until its end. */
  ghost function Due(limit: nat, published: seq<Event>, sub: Subscription): seq<Event>
    requires sub.from <= |published| && (sub.until.Some? ==> sub.from <= sub.until.value <= |published|)
  {
    var until := if sub.until.Some? then sub.until.value else |published|;
    LastN(limit, Of(sub.process, published[..sub.from])) + Of(sub.process, published[sub.from..until])
  }

  ghost function Replaying(s: State, q: QueueId): seq<Event> {
    if s.replay.Some? && s.replay.value.queue == q then s.replay.value.remaining else []
  }

  ghost function Pending(callbacks: seq<(QueueId, Event)>, q: QueueId): seq<Event> {
    if callbacks == [] then []
    else (if callbacks[0].0 == q then [callbacks[0].1] else []) + Pending(callbacks[1..], q)
  }

  /** Events recorded but not yet scheduled for `q`, in publication order; first `n` publish calls. */
  ghost function Unsent(sending: seq<Sending>, n: nat, q: QueueId): seq<Event>
    requires n <= |sending|
  {
    if n == 0 then []
    else Unsent(sending, n - 1, q) + if q in sending[n - 1].remaining then [sending[n - 1].event] else []
  }

  /** Everything ever put, still to be replayed, pending in the loop, or not scheduled yet. */
  ghost function Pipeline(s: State, q: QueueId): seq<Event>
    requires q in s.put
  {
    s.put[q] + Replaying(s, q) + Pending(s.callbacks, q) + Unsent(s.sending, |s.sending|, q)
  }

  // ---------- Invariants ----------

  ghost predicate Suffix(a: seq<Event>, b: seq<Event>) {
    |a| <= |b| && a == b[|b| - |a|..]
  }

  ghost predicate HistoryKept(s: State) {
    forall p :: s.registry.History(p) == LastN(s.registry.limit, Of(p, s.published))
  }

  ghost predicate SubsMatch(s: State) {
    && s.queues.Keys == s.put.Keys == s.subs.Keys
    && (forall q :: q in s.subs ==>
          s.subs[q].from <= |s.published| &&
          (s.subs[q].until.Some? ==> s.subs[q].from <= s.subs[q].until.value <= |s.published|))
    && (forall p, q :: q in s.registry.Subscribers(p) <==>
        q in s.subs && s.subs[q].process == p && s.subs[q].until.None?)
  }

  ghost predicate SendOk(s: State, send: Sending) {
    && send.event.processId.Some?
    && (forall q :: q in send.remaining ==> q in s.subs && s.subs[q].process == send.event.processId.value)
    && (forall i, j :: 0 <= i < j < |send.remaining| ==> send.remaining[i] != send.remaining[j])
  }

  ghost predicate InTransitOk(s: State) {
    && (forall i :: 0 <= i < |s.sending| ==> SendOk(s, s.sending[i]))
    && (forall i :: 0 <= i < |s.callbacks| ==>
          s.callbacks[i].0 in s.subs && s.callbacks[i].1.processId == Some(s.subs[s.callbacks[i].0].process))
  }

  ghost predicate QueueOk(s: State, q: QueueId)
    requires q in s.queues && q in s.put
  {
    Suffix(s.queues[q], s.put[q]) && (s.registry.limit > 0 ==> |s.queues[q]| <= s.registry.limit)
  }

  /** A queue being replayed has seen nothing but the replay, and the rest of it fits. */
  ghost predicate ReplayOk(s: State) {
    s.replay.Some? ==>
      var Replay(q, remaining) := s.replay.value;
      q in s.queues && q in s.put && s.put[q] == s.queues[q] && |s.queues[q]| + |remaining| <= s.registry.limit
  }

  ghost predicate Inv(s: State) {
    && HistoryKept(s) && SubsMatch(s) && InTransitOk(s) && ReplayOk(s) && !s.overflowed
    && QueuesOk(s)
  }

  /** Nothing due is missing or doubled. */
  ghost predicate NothingLost(s: State)
    requires SubsMatch(s)
  {
    forall q :: q in s.subs ==> multiset(Pipeline(s, q)) == multiset(Due(s.registry.limit, s.published, s.subs[q]))
  }

  /** ... and everything is in publication order. */
  ghost predicate InOrder(s: State)
    requires SubsMatch(s)
  {
    forall q :: q in s.subs ==> Pipeline(s, q) == Due(s.registry.limit, s.published, s.subs[q])
  }

  // ---------- Sequence lemmas ----------

  lemma OfAppend(p: ProcessId, events: seq<Event>, e: Event)
    ensures Of(p, events + [e]) == Of(p, events) + if e.processId == Some(p) then [e] else []
  {
    assert (events + [e])[..|events|] == events;
  }

  lemma OfEmpty(p: ProcessId)
    ensures Of(p, []) == []
  {
  }

  lemma LastNAppend(n: nat, s: seq<Event>, e: Event)
    ensures LastN(n, LastN(n, s) + [e]) == LastN(n, s + [e])
  {
  }

  lemma {:induction false} PendingAppend(callbacks: seq<(QueueId, Event)>, c: (QueueId, Event), q: QueueId)
    ensures Pending(callbacks + [c], q) == Pending(callbacks, q) + if c.0 == q then [c.1] else []
  {
    if callbacks != [] {
      assert (callbacks + [c])[1..] == callbacks[1..] + [c];
      PendingAppend(callbacks[1..], c, q);
    }
  }

  lemma {:induction false} PendingNone(callbacks: seq<(QueueId, Event)>, q: QueueId)
    requires forall i :: 0 <= i < |callbacks| ==> callbacks[i].0 != q
    ensures Pending(callbacks, q) == []
  {
    if callbacks != [] {
      PendingNone(callbacks[1..], q);
    }
  }

  lemma UnsentAppend(sending: seq<Sending>, send: Sending, q: QueueId)
    ensures Unsent(sending + [send], |sending| + 1, q)
         == Unsent(sending, |sending|, q) + if q in send.remaining then [send.event] else []
  {
    UnsentSame(sending, sending + [send], |sending|, q);
  }

  lemma {:induction false} UnsentNone(sending: seq<Sending>, n: nat, q: QueueId)
    requires n <= |sending| && forall i :: 0 <= i < n ==> q !in sending[i].remaining
    ensures Unsent(sending, n, q) == []
  {
    if n > 0 {
      UnsentNone(sending, n - 1, q);
    }
  }

  /** Unsent events of `q` depend only on which sends still wait for `q`. */
  lemma {:induction false} UnsentSame(a: seq<Sending>, b: seq<Sending>, n: nat, q: QueueId)
    requires n <= |a| && n <= |b|
    requires forall i :: 0 <= i < n ==> a[i].event == b[i].event && (q in a[i].remaining <==> q in b[i].remaining)
    ensures Unsent(a, n, q) == Unsent(b, n, q)
  {
    if n > 0 {
      UnsentSame(a, b, n - 1, q);
    }
  }

  /** `sending` after its i-th call has scheduled its next queue. */
  ghost function Scheduled(sending: seq<Sending>, i: nat): seq<Sending>
    requires i < |sending| && sending[i].remaining != []
  {
    sending[i := Sending(sending[i].event, sending[i].remaining[1..])]
  }

  /** Scheduling one send takes exactly its event out of the unsent ones of its queue ... */
  lemma {:induction false} UnsentScheduled(sending: seq<Sending>, i: nat, n: nat, q: QueueId)
    requires i < n <= |sending| && sending[i].remaining != [] && q == sending[i].remaining[0]
    requires q !in sending[i].remaining[1..]
    ensures multiset(Unsent(Scheduled(sending, i), n, q)) + multiset{sending[i].event}
        == multiset(Unsent(sending, n, q))
  {
    hide Unsent;
    var after := Scheduled(sending, i);
    UnsentLast(sending, n, q);
    UnsentLast(after, n, q);
    if i == n - 1 {
      UnsentSame(sending, after, i, q);
      assert Unsent(after, n, q) == Unsent(sending, i, q) + [];
    } else {
      UnsentScheduled(sending, i, n - 1, q);
      assert after[n - 1] == sending[n - 1];
      if q in sending[n - 1].remaining {
        AddLast(Unsent(after, n - 1, q), Unsent(sending, n - 1, q), sending[n - 1].event, sending[i].event);
      }
    }
  }

  lemma UnsentLast(sending: seq<Sending>, n: nat, q: QueueId)
    requires 0 < n <= |sending|
    ensures Unsent(sending, n, q)
         == if q in sending[n - 1].remaining then Unsent(sending, n - 1, q) + [sending[n - 1].event]
             else Unsent(sending, n - 1, q)
  {
  }

  lemma AddLast(left: seq<Event>, rest: seq<Event>, last: Event, e: Event)
    requires multiset(left) + multiset{e} == multiset(rest)
    ensures multiset(left + [last]) + multiset{e} == multiset(rest + [last])
  {
  }

  /** ... and its oldest one, if no older call still waits for that queue. */
  lemma {:induction false} UnsentScheduledOldest(sending: seq<Sending>, i: nat, n: nat, q: QueueId)
    requires i < n <= |sending| && sending[i].remaining != [] && q == sending[i].remaining[0]
    requires q !in sending[i].remaining[1..] && forall j :: 0 <= j < i ==> q !in sending[j].remaining
    ensures Unsent(sending, n, q) == [sending[i].event] + Unsent(Scheduled(sending, i), n, q)
  {
    var after := Scheduled(sending, i);
    if i == n - 1 {
      UnsentNone(sending, i, q);
      UnsentNone(after, n, q);
    } else {
      UnsentScheduledOldest(sending, i, n - 1, q);
    }
  }

  /** ... and leaves the other queues' unsent events alone. */
  lemma UnsentOthers(sending: seq<Sending>, i: nat, q: QueueId)
    requires i < |sending| && sending[i].remaining != [] && q != sending[i].remaining[0]
    ensures Unsent(Scheduled(sending, i), |sending|, q) == Unsent(sending, |sending|, q)
  {
    assert sending[i].remaining == [sending[i].remaining[0]] + sending[i].remaining[1..];
    UnsentSame(sending, Scheduled(sending, i), |sending|, q);
  }

  // ---------- One step ----------

  /** Oldest first: a send is scheduled only when no older one still waits for that queue. */
  ghost predicate OldestFirst(s: State, step: Step) {
    step.Schedule? && Enabled(s, step) ==>
      forall j :: 0 <= j < step.i ==> s.sending[step.i].remaining[0] !in s.sending[j].remaining
  }

  lemma KeepsHistory(s: State, step: Step)
    requires HistoryKept(s) && Enabled(s, step)
    ensures HistoryKept(Next(s, step))
  {
    hide Of, LastN;
    var r := Next(s, step);
    forall p
      ensures r.registry.History(p) == LastN(r.registry.limit, Of(p, r.published))
    {
      assert s.registry.History(p) == LastN(s.registry.limit, Of(p, s.published));
      if step.Publish? {
        OfAppend(p, s.published, step.event);
        LastNAppend(s.registry.limit, Of(p, s.published), step.event);
        assert Of(p, s.published) + [] == Of(p, s.published);
      }
    }
  }

  lemma KeepsSubs(s: State, step: Step)
    requires SubsMatch(s) && ReplayOk(s) && Enabled(s, step)
    ensures SubsMatch(Next(s, step))
  {
    var r := Next(s, step);
    match step
    case BeginSubscribe(p, q, l) =>
      if s.registry.Accepts(l) {
        KeepsSubsOnSubscribe(s, step);
      }
    case Unsubscribe(p, q) => KeepsSubsOnUnsubscribe(s, step);
    case Publish(e, order) => assert forall p :: r.registry.Subscribers(p) == s.registry.Subscribers(p);
    case Schedule(_) =>
    case RunCallback =>
    case ReplayOne =>
    case EndSubscribe =>
    case Get(_) =>
  }

  lemma KeepsSubsOnSubscribe(s: State, step: Step)
    requires SubsMatch(s) && Enabled(s, step) && step.BeginSubscribe? && s.registry.Accepts(step.loop)
    ensures SubsMatch(Next(s, step))
  {
    var r := Next(s, step);
    SubscribersAfter(s.registry, step.process, step.queue, step.loop);
    forall p, q
      ensures q in r.registry.Subscribers(p) <==> q in r.subs && r.subs[q].process == p && r.subs[q].until.None?
    {
      assert q in s.registry.Subscribers(p) <==> q in s.subs && s.subs[q].process == p && s.subs[q].until.None?;
    }
  }

  lemma KeepsSubsOnUnsubscribe(s: State, step: Step)
    requires SubsMatch(s) && Enabled(s, step) && step.Unsubscribe?
    ensures SubsMatch(Next(s, step))
  {
    var r := Next(s, step);
    SubscribersAfter(s.registry, step.process, step.queue, 0);
    assert step.queue in s.subs ==> r.subs.Keys == s.subs.Keys;
    forall p, q
      ensures q in r.registry.Subscribers(p) <==> q in r.subs && r.subs[q].process == p && r.subs[q].until.None?
    {
      assert q in s.registry.Subscribers(p) <==> q in s.subs && s.subs[q].process == p && s.subs[q].until.None?;
    }
  }

  lemma ScheduleKeepsTransit(s: State, i: nat)
    requires InTransitOk(s) && Enabled(s, Schedule(i))
    ensures InTransitOk(Next(s, Schedule(i)))
  {
    var r, send := Next(s, Schedule(i)), s.sending[i];
    assert SendOk(s, send);
    assert send.remaining[0] in send.remaining;
    forall j | 0 <= j < |r.sending|
      ensures SendOk(r, r.sending[j])
    {
      assert SendOk(s, s.sending[j]);
    }
  }

  lemma PublishKeepsTransit(s: State, step: Step)
    requires SubsMatch(s) && InTransitOk(s) && Enabled(s, step) && step.Publish?
    ensures InTransitOk(Next(s, step))
  {
    hide LastN;
    var r := Next(s, step);
    if step.event.processId.Some? {
      assert SendOk(s, Sending(step.event, step.order));
      forall j | 0 <= j < |r.sending|
        ensures SendOk(r, r.sending[j])
      {
        assert j < |s.sending| ==> SendOk(s, s.sending[j]);
      }
    }
  }

  lemma KeepsTransit(s: State, step: Step)
    requires SubsMatch(s) && InTransitOk(s) && Enabled(s, step)
    ensures InTransitOk(Next(s, step))
  {
    match step
    case Schedule(i) => ScheduleKeepsTransit(s, i);
    case Publish(_, _) => PublishKeepsTransit(s, step);
    case _ =>
      var r := Next(s, step);
      forall j | 0 <= j < |r.sending|
        ensures SendOk(r, r.sending[j])
      {
        assert SendOk(s, s.sending[j]);
      }
  }

  lemma KeepsReplay(s: State, step: Step)
    requires HistoryKept(s) && ReplayOk(s) && !s.overflowed && Enabled(s, step)
    ensures ReplayOk(Next(s, step)) && !Next(s, step).overflowed
  {
    if step.BeginSubscribe? {
      assert s.registry.History(step.process) == LastN(s.registry.limit, Of(step.process, s.published));
    }
  }

  ghost predicate QueuesOk(s: State) {
    forall q :: q in s.queues ==> q in s.put && QueueOk(s, q)
  }

  lemma PutKeepsSuffix(limit: nat, queue: seq<Event>, put: seq<Event>, e: Event)
    requires Suffix(queue, put) && (limit > 0 ==> |queue| <= limit)
    ensures Suffix(PutLatest(limit, queue, e), put + [e])
    ensures limit > 0 ==> |PutLatest(limit, queue, e)| <= limit
  {
    var rest := if Full(limit, queue) then queue[1..] else queue;
    assert rest == put[|put| - |rest|..];
    SuffixAppend(rest, put, e);
  }

  lemma SuffixAppend(queue: seq<Event>, put: seq<Event>, e: Event)
    requires Suffix(queue, put)
    ensures Suffix(queue + [e], put + [e])
  {
    var k := |put| - |queue|;
    assert (put + [e])[k..] == put[k..] + [e];
  }

  lemma CallbackKeepsQueues(s: State)
    requires QueuesOk(s) && Enabled(s, RunCallback)
    ensures QueuesOk(Next(s, RunCallback))
  {
    var (q, e) := s.callbacks[0];
    assert QueueOk(s, q);
    PutKeepsSuffix(s.registry.limit, s.queues[q], s.put[q], e);
    hide PutLatest, Suffix;
  }

  lemma ReplayKeepsQueues(s: State)
    requires QueuesOk(s) && Enabled(s, ReplayOne)
    ensures QueuesOk(Next(s, ReplayOne))
  {
    var q, e := s.replay.value.queue, s.replay.value.remaining[0];
    assert QueueOk(s, q);
    SuffixAppend(s.queues[q], s.put[q], e);
    hide Suffix;
  }

  lemma GetKeepsQueues(s: State, q: QueueId)
    requires QueuesOk(s) && Enabled(s, Get(q))
    ensures QueuesOk(Next(s, Get(q)))
  {
    assert QueueOk(s, q);
  }

  lemma KeepsQueues(s: State, step: Step)
    requires QueuesOk(s) && Enabled(s, step)
    ensures QueuesOk(Next(s, step))
  {
    match step
    case RunCallback => CallbackKeepsQueues(s);
    case ReplayOne => ReplayKeepsQueues(s);
    case Get(q) => GetKeepsQueues(s, q);
    case BeginSubscribe(_, _, _) =>
    case Publish(_, _) =>
    case Schedule(_) =>
    case EndSubscribe =>
    case Unsubscribe(_, _) =>
  }

  lemma InvStep(s: State, step: Step)
    requires Inv(s) && Enabled(s, step)
    ensures Inv(Next(s, step))
  {
    KeepsHistory(s, step);
    KeepsSubs(s, step);
    KeepsTransit(s, step);
    KeepsReplay(s, step);
    KeepsQueues(s, step);
  }

  // ---------- No gap, no duplicate ----------

  ghost function DueNow(s: State, q: QueueId): seq<Event>
    requires SubsMatch(s) && q in s.subs
  {
    Due(s.registry.limit, s.published, s.subs[q])
  }

  /** A published event becomes due for exactly the live subscriptions of its process id. */
  lemma DueAppend(limit: nat, published: seq<Event>, sub: Subscription, e: Event)
    requires sub.from <= |published| && (sub.until.Some? ==> sub.from <= sub.until.value <= |published|)
    ensures Due(limit, published + [e], sub)
         == Due(limit, published, sub) + if sub.until.None? && e.processId == Some(sub.process) then [e] else []
  {
    var after := published + [e];
    assert after[..sub.from] == published[..sub.from];
    if sub.until.Some? {
      assert after[sub.from..sub.until.value] == published[sub.from..sub.until.value];
    } else {
      assert after[sub.from..|after|] == published[sub.from..|published|] + [e];
      OfAppend(sub.process, published[sub.from..|published|], e);
    }
  }

  lemma LawPublish(s: State, step: Step, q: QueueId) returns (more: seq<Event>)
    requires SubsMatch(s) && Enabled(s, step) && step.Publish? && step.event.processId.Some? && q in s.subs
    ensures var r := Next(s, step);
            && q in r.put && Pipeline(r, q) == Pipeline(s, q) + more
            && Due(r.registry.limit, r.published, s.subs[q]) == DueNow(s, q) + more
  {
    var r, e := Next(s, step), step.event;
    DueAppend(s.registry.limit, s.published, s.subs[q], e);
    UnsentAppend(s.sending, Sending(e, step.order), q);
    assert q in s.registry.Subscribers(e.processId.value) <==> q in step.order;
    more := if q in step.order then [e] else [];
    Associate(s.put[q] + Replaying(s, q) + Pending(s.callbacks, q), Unsent(s.sending, |s.sending|, q), more);
  }

  lemma Associate(a: seq<Event>, b: seq<Event>, c: seq<Event>)
    ensures (a + b) + c == a + (b + c)
  {
  }

  /** The four parts of a pipeline, joined. */
  ghost function Join(put: seq<Event>, replaying: seq<Event>, pending: seq<Event>, unsent: seq<Event>): seq<Event> {
    put + replaying + pending + unsent
  }

  lemma LawSchedule(s: State, i: nat, q: QueueId)
    requires Enabled(s, Schedule(i)) && q in s.put && s.sending[i].remaining[0] !in s.sending[i].remaining[1..]
    ensures var r := Next(s, Schedule(i));
            && multiset(Pipeline(r, q)) == multiset(Pipeline(s, q))
            && (OldestFirst(s, Schedule(i)) ==> Pipeline(r, q) == Pipeline(s, q))
  {
    hide Unsent, Pending;
    var send, n := s.sending[i], |s.sending|;
    var to, after := send.remaining[0], Scheduled(s.sending, i);
    assert Pipeline(Next(s, Schedule(i)), q)
        == Join(s.put[q], Replaying(s, q), Pending(s.callbacks + [(to, send.event)], q), Unsent(after, n, q));
    assert Pipeline(s, q) == Join(s.put[q], Replaying(s, q), Pending(s.callbacks, q), Unsent(s.sending, n, q));
    PendingAppend(s.callbacks, (to, send.event), q);
    if to != q {
      UnsentOthers(s.sending, i, q);
    } else {
      UnsentScheduled(s.sending, i, n, q);
      MoveOne(s.put[q], Replaying(s, q), Pending(s.callbacks, q), send.event, Unsent(after, n, q),
          Unsent(s.sending, n, q));
      if OldestFirst(s, Schedule(i)) {
        UnsentScheduledOldest(s.sending, i, n, q);
      }
    }
  }

  /** Moving one event from the unsent to the pending part. */
  lemma MoveOne(put: seq<Event>, replaying: seq<Event>, pending: seq<Event>, e: Event,
                left: seq<Event>, unsent: seq<Event>)
    requires multiset(left) + multiset{e} == multiset(unsent)
    ensures multiset(Join(put, replaying, pending + [e], left)) == multiset(Join(put, replaying, pending, unsent))
    ensures unsent == [e] + left ==> Join(put, replaying, pending + [e], left) == Join(put, replaying, pending, unsent)
  {
  }

  lemma LawCallback(s: State, q: QueueId)
    requires Enabled(s, RunCallback) && q in s.put
    ensures q in Next(s, RunCallback).put && Pipeline(Next(s, RunCallback), q) == Pipeline(s, q)
  {
  }

  lemma LawReplay(s: State, q: QueueId)
    requires Enabled(s, ReplayOne) && q in s.put
    ensures q in Next(s, ReplayOne).put && Pipeline(Next(s, ReplayOne), q) == Pipeline(s, q)
  {
  }

  /** A new queue starts with the kept history as its replay and nothing else under way. */
  lemma LawSubscribe(s: State, step: Step)
    requires HistoryKept(s) && SubsMatch(s) && InTransitOk(s)
    requires Enabled(s, step) && step.BeginSubscribe? && s.registry.Accepts(step.loop)
    ensures var r := Next(s, step); SubsMatch(r) && Pipeline(r, step.queue) == DueNow(r, step.queue)
  {
    hide Of, Unsent, Pending, LastN;
    var q := step.queue;
    NothingUnderWay(s, q);
    KeepsSubsOnSubscribe(s, step);
    hide SubsMatch, InTransitOk;
    assert s.published[..|s.published|] == s.published;
    assert s.published[|s.published|..|s.published|] == [];
    OfEmpty(step.process);
    assert s.registry.History(step.process) == LastN(s.registry.limit, Of(step.process, s.published));
  }

  /** Nothing is scheduled or unscheduled for a queue that was never subscribed. */
  lemma NothingUnderWay(s: State, q: QueueId)
    requires InTransitOk(s) && q !in s.subs
    ensures Pending(s.callbacks, q) == [] && Unsent(s.sending, |s.sending|, q) == []
  {
    PendingNone(s.callbacks, q);
    forall i | 0 <= i < |s.sending|
      ensures q !in s.sending[i].remaining
    {
      assert SendOk(s, s.sending[i]);
    }
    UnsentNone(s.sending, |s.sending|, q);
  }

  /** A step appends the same events to a subscriber's pipeline and to what it is due. */
  lemma PipelineStep(s: State, step: Step, q: QueueId)
    requires SubsMatch(s) && InTransitOk(s) && ReplayOk(s) && Enabled(s, step) && q in s.subs
    requires multiset(Pipeline(s, q)) == multiset(DueNow(s, q))
    ensures var r := Next(s, step);
            && SubsMatch(r) && q in r.subs
            && multiset(Pipeline(r, q)) == multiset(DueNow(r, q))
            && (Pipeline(s, q) == DueNow(s, q) && OldestFirst(s, step) ==> Pipeline(r, q) == DueNow(r, q))
  {
    hide Of, Unsent, Pending, LastN;
    KeepsSubs(s, step);
    match step
    case Publish(e, order) =>
      if e.processId.Some? {
        var more := LawPublish(s, step, q);
      }
    case Schedule(i) =>
      assert SendOk(s, s.sending[i]);
      LawSchedule(s, i, q);
    case RunCallback => LawCallback(s, q);
    case ReplayOne => LawReplay(s, q);
    case BeginSubscribe(_, _, _) => OtherSteps(s, step, q);
    case EndSubscribe => OtherSteps(s, step, q);
    case Unsubscribe(_, _) => UnsubscribeKeepsDue(s, step, q);
    case Get(_) => OtherSteps(s, step, q);
  }

  /** Beginning another subscription, ending one and taking an event leave a subscriber's pipeline alone. */
  lemma OtherSteps(s: State, step: Step, q: QueueId)
    requires SubsMatch(s) && Enabled(s, step) && q in s.subs
        && (step.BeginSubscribe? || step.EndSubscribe? || step.Get?)
    ensures var r := Next(s, step);
            && q in r.put && q in r.subs && r.subs[q] == s.subs[q] && r.published == s.published
            && r.registry.limit == s.registry.limit && Pipeline(r, q) == Pipeline(s, q)
  {
    hide Unsent, Pending;
  }

  lemma UnsubscribeKeepsDue(s: State, step: Step, q: QueueId)
    requires SubsMatch(s) && Enabled(s, step) && step.Unsubscribe? && q in s.subs
    ensures var r := Next(s, step); SubsMatch(r) && q in r.subs && DueNow(r, q) == DueNow(s, q)
  {
    KeepsSubsOnUnsubscribe(s, step);
  }

  /** Every step keeps the contents of every subscriber's pipeline equal to what it is due. */
  lemma NothingLostStep(s: State, step: Step)
    requires Inv(s) && Enabled(s, step) && NothingLost(s)
    ensures SubsMatch(Next(s, step)) && NothingLost(Next(s, step))
    ensures InOrder(s) && OldestFirst(s, step) ==> InOrder(Next(s, step))
  {
    KeepsSubs(s, step);
    var r := Next(s, step);
    forall q | q in r.subs
      ensures multiset(Pipeline(r, q)) == multiset(DueNow(r, q))
      ensures InOrder(s) && OldestFirst(s, step) ==> Pipeline(r, q) == DueNow(r, q)
    {
      if q in s.subs {
        assert multiset(Pipeline(s, q)) == multiset(DueNow(s, q));
        assert InOrder(s) ==> Pipeline(s, q) == DueNow(s, q);
        PipelineStep(s, step, q);
      } else {
        LawSubscribe(s, step);
      }
    }
  }

  // ---------- Whole runs ----------

  ghost predicate IsRun(limit: nat, states: seq<State>, steps: seq<Step>) {
    && |states| == |steps| + 1 && states[0] == Initial(limit)
    && forall i :: 0 <= i < |steps| ==> Enabled(states[i], steps[i]) && states[i + 1] == Next(states[i], steps[i])
  }

  /**
    In every run, with any number of publishers: no replay overflows, every queue is a
    bounded suffix of what was put, and what was put, replayed, pending and unscheduled is
    as a multiset what is due.
   */
  lemma {:induction false} RunLosesNothing(limit: nat, states: seq<State>, steps: seq<Step>, n: nat)
    requires IsRun(limit, states, steps) && n <= |steps|
    ensures Inv(states[n]) && NothingLost(states[n])
  {
    if n > 0 {
      RunLosesNothing(limit, states, steps, n - 1);
      InvStep(states[n - 1], steps[n - 1]);
      NothingLostStep(states[n - 1], steps[n - 1]);
    }
  }

  /** In every run that schedules oldest first, it is so in publication order. */
  lemma {:induction false} OldestFirstRunIsOrdered(limit: nat, states: seq<State>, steps: seq<Step>, n: nat)
    requires IsRun(limit, states, steps) && n <= |steps|
    requires forall i :: 0 <= i < n ==> OldestFirst(states[i], steps[i])
    ensures Inv(states[n]) && NothingLost(states[n]) && InOrder(states[n])
  {
    if n > 0 {
      OldestFirstRunIsOrdered(limit, states, steps, n - 1);
      InvStep(states[n - 1], steps[n - 1]);
      NothingLostStep(states[n - 1], steps[n - 1]);
    }
  }

  // ---------- What is published, and who gets in ----------

  /** The events with a process id among the publish steps so far, in order. */
  ghost function PublishedBy(steps: seq<Step>, n: nat): seq<Event>
    requires n <= |steps|
  {
    if n == 0 then []
    else
      PublishedBy(steps, n - 1)
      + if steps[n - 1].Publish? && steps[n - 1].event.processId.Some? then [steps[n - 1].event] else []
  }

  /** Every event with a process id counts as published, and no other. */
  lemma {:induction false} EveryPublishCounts(limit: nat, states: seq<State>, steps: seq<Step>, n: nat)
    requires IsRun(limit, states, steps) && n <= |steps|
    ensures states[n].published == PublishedBy(steps, n)
  {
    if n > 0 {
      EveryPublishCounts(limit, states, steps, n - 1);
      PublishedAfter(states[n - 1], steps[n - 1]);
      hide Next, Enabled;
    }
  }

  lemma PublishedAfter(s: State, step: Step)
    requires Enabled(s, step)
    ensures Next(s, step).published
         == s.published + if step.Publish? && step.event.processId.Some? then [step.event] else []
  {
  }

  lemma LoopAfter(s: State, step: Step)
    requires Enabled(s, step)
    ensures Next(s, step).registry.loop
         == if step.BeginSubscribe? && s.registry.loop.None? then Some(step.loop) else s.registry.loop
  {
  }

  /** The broker's loop is that of the first subscribe call. */
  lemma {:induction false} LoopIsTheFirst(limit: nat, states: seq<State>, steps: seq<Step>, k: nat, n: nat)
    requires IsRun(limit, states, steps) && n <= |steps| && k < |steps| && steps[k].BeginSubscribe?
    requires forall i :: 0 <= i < k ==> !steps[i].BeginSubscribe?
    ensures states[n].registry.loop == if n <= k then None else Some(steps[k].loop)
  {
    hide Next, Enabled;
    if n > 0 {
      LoopIsTheFirst(limit, states, steps, k, n - 1);
      LoopAfter(states[n - 1], steps[n - 1]);
    }
  }

  /**
    A subscribe call adds its queue to the subscriptions and to the live subscribers of
    its process id if and only if it runs on the loop of the run's first subscribe call.
   */
  lemma SubscribeAcceptedIffSameLoop(limit: nat, states: seq<State>, steps: seq<Step>, k: nat, n: nat)
    requires IsRun(limit, states, steps) && k <= n < |steps| && steps[k].BeginSubscribe? && steps[n].BeginSubscribe?
    requires forall i :: 0 <= i < k ==> !steps[i].BeginSubscribe?
    ensures var q, r := steps[n].queue, states[n + 1];
            && (q in r.subs <==> steps[n].loop == steps[k].loop)
            && (steps[n].loop == steps[k].loop ==> q in r.registry.Subscribers(steps[n].process))
            && (steps[n].loop == steps[k].loop ==>
                  r.subs[q] == Subscription(steps[n].process, |states[n].published|, None))
            && (steps[n].loop != steps[k].loop ==> r == states[n])
  {
    LoopIsTheFirst(limit, states, steps, k, n);
    RunLosesNothing(limit, states, steps, n);
    BeginSubscribeAdds(states[n], steps[n]);
    hide Next, Enabled, Inv, NothingLost;
  }

  lemma BeginSubscribeAdds(s: State, step: Step)
    requires Inv(s) && Enabled(s, step) && step.BeginSubscribe?
    ensures var r, same := Next(s, step), s.registry.loop.None? || s.registry.loop == Some(step.loop);
            && step.queue !in s.subs
            && (same ==> step.queue in r.subs && step.queue in r.registry.Subscribers(step.process))
            && (same ==> r.subs[step.queue] == Subscription(step.process, |s.published|, None))
            && (!same ==> r == s)
  {
    hide HistoryKept, InTransitOk, QueuesOk, ReplayOk;
  }

  /** At most one publish call per process id is between its lock release and its last send. */
  ghost predicate OnePublisherPerProcess(s: State) {
    forall i, j :: 0 <= i < j < |s.sending| && s.sending[i].event.processId == s.sending[j].event.processId ==>
      s.sending[i].remaining == [] || s.sending[j].remaining == []
  }

  lemma OnePublisherIsOldestFirst(s: State, step: Step)
    requires Inv(s) && Enabled(s, step) && OnePublisherPerProcess(s)
    ensures OldestFirst(s, step)
  {
    if step.Schedule? {
      var q := s.sending[step.i].remaining[0];
      assert SendOk(s, s.sending[step.i]);
      assert q in s.sending[step.i].remaining;
      forall j | 0 <= j < step.i
        ensures q !in s.sending[j].remaining
      {
        assert SendOk(s, s.sending[j]);
      }
    }
  }

  /**
    With one publisher per process id, in every run and at every moment: everything ever
    put, then what is still to be replayed, pending or unscheduled, is exactly the last
    events before the subscription followed by every later event of that process id.
   */
  lemma OnePublisherHandOver(limit: nat, states: seq<State>, steps: seq<Step>, n: nat)
    requires IsRun(limit, states, steps) && n <= |steps|
    requires forall i :: 0 <= i <= n ==> OnePublisherPerProcess(states[i])
    ensures Inv(states[n])
    ensures forall q :: q in states[n].subs ==> Pipeline(states[n], q) == DueNow(states[n], q)
  {
    forall i | 0 <= i < n
      ensures OldestFirst(states[i], steps[i])
    {
      RunLosesNothing(limit, states, steps, i);
      OnePublisherIsOldestFirst(states[i], steps[i]);
    }
    OldestFirstRunIsOrdered(limit, states, steps, n);
  }

  /** Nothing is under way: no replay, no pending callback, no unscheduled send. */
  ghost predicate Quiet(s: State) {
    s.replay.None? && s.callbacks == [] && forall i :: 0 <= i < |s.sending| ==> s.sending[i].remaining == []
  }

  lemma QuietPipeline(s: State, q: QueueId)
    requires Quiet(s) && q in s.put
    ensures Pipeline(s, q) == s.put[q]
  {
    UnsentNone(s.sending, |s.sending|, q);
  }

  /**
    With any number of publishers: when nothing is under way, a subscriber has been put
    exactly the events it is due, each as often as it is due, and in publication order if
    everything is; and its queue holds the last of those put.
   */
  lemma QuietMeansDelivered(limit: nat, states: seq<State>, steps: seq<Step>, n: nat, q: QueueId)
    requires IsRun(limit, states, steps) && n <= |steps| && Quiet(states[n]) && q in states[n].subs
    ensures Inv(states[n]) && multiset(states[n].put[q]) == multiset(DueNow(states[n], q))
    ensures InOrder(states[n]) ==> states[n].put[q] == DueNow(states[n], q)
    ensures Suffix(states[n].queues[q], states[n].put[q])
  {
    hide Of, Unsent, LastN;
    RunLosesNothing(limit, states, steps, n);
    var s := states[n];
    QuietPipeline(s, q);
    hide Pipeline;
    assert multiset(Pipeline(s, q)) == multiset(DueNow(s, q));
    assert QueueOk(s, q);
  }

  /** A run with one more step. */
  lemma Extend(limit: nat, states: seq<State>, steps: seq<Step>, step: Step, r: State)
    returns (states': seq<State>, steps': seq<Step>)
    requires IsRun(limit, states, steps) && Enabled(states[|steps|], step) && r == Next(states[|steps|], step)
    ensures IsRun(limit, states', steps') && states' == states + [r] && steps' == steps + [step]
  {
    hide Enabled, Next;
    states', steps' := states + [r], steps + [step];
  }

  /** A live subscriber of "p", and both its events published but not scheduled. */
  ghost function BothPublished(r: Registry, a: Event, b: Event): State {
    State(r, map[0 := []], [], [Sending(a, [0]), Sending(b, [0])], None,
          [a, b], map[0 := []], map[0 := Subscription("p", 0, None)], false)
  }

  /** A live subscriber of "p" and nothing published. */
  ghost function LiveSubscriber(limit: nat): State {
    State(Registry(limit, Some(0), map["p" := {0}], map[]), map[0 := []], [], [], None,
          [], map[0 := []], map[0 := Subscription("p", 0, None)], false)
  }

  lemma LiveSubscriberRun(limit: nat) returns (states: seq<State>, steps: seq<Step>)
    ensures IsRun(limit, states, steps) && |states| == 3 && |steps| == 2 && states[2] == LiveSubscriber(limit)
  {
    hide LastN;
    var s1 := LiveSubscriber(limit).(replay := Some(Replay(0, [])));
    states, steps := [Initial(limit)], [];
    assert IsRun(limit, states, steps);
    assert {} + {0} == {0};
    hide IsRun;
    assert Initial(limit).registry.Subscribed("p", 0, 0) == s1.registry;
    states, steps := Extend(limit, states, steps, BeginSubscribe("p", 0, 0), s1);
    states, steps := Extend(limit, states, steps, EndSubscribe, LiveSubscriber(limit));
  }

  /** An event is published to subscriber 0 of "p", and not scheduled. */
  lemma PublishToOne(limit: nat, states: seq<State>, steps: seq<Step>, s: State, e: Event)
    returns (states': seq<State>, steps': seq<Step>, r: Registry)
    requires IsRun(limit, states, steps) && s == states[|steps|]
    requires e.processId == Some("p") && s.registry.Subscribers("p") == {0}
    ensures IsRun(limit, states', steps') && |states'| == |states| + 1 && |steps'| == |steps| + 1
    ensures r.Subscribers("p") == {0} && r.limit == s.registry.limit
    ensures states'[|steps'|]
         == s.(registry := r, sending := s.sending + [Sending(e, [0])], published := s.published + [e])
  {
    assert |states| == |steps| + 1;
    hide IsRun, LastN;
    r := s.registry.Published("p", e);
    states', steps' := Extend(limit, states, steps, Publish(e, [0]),
        s.(registry := r, sending := s.sending + [Sending(e, [0])], published := s.published + [e]));
  }

  lemma BothPublishedRun(limit: nat, a: Event, b: Event)
    returns (states: seq<State>, steps: seq<Step>, r: Registry)
    requires a.processId == b.processId == Some("p")
    ensures IsRun(limit, states, steps) && |states| == 5 && |steps| == 4 && states[4] == BothPublished(r, a, b)
  {
    states, steps := LiveSubscriberRun(limit);
    hide IsRun;
    var s3 := LiveSubscriber(limit);
    states, steps, r := PublishToOne(limit, states, steps, s3, a);
    states, steps, r := PublishToOne(limit, states, steps, states[3], b);
    assert states[4].sending == [Sending(a, [0]), Sending(b, [0])] && states[4].published == [a, b];
  }

  /**
    Two publishers of one process id: the later event can be scheduled first, so a live
    subscriber is sent b before a although a was published before b.
   */
  lemma TwoPublishersCanSwap(limit: nat, a: Event, b: Event) returns (states: seq<State>, steps: seq<Step>)
    requires a.processId == b.processId == Some("p")
    ensures IsRun(limit, states, steps) && |states| == 7 && |steps| == 6
    ensures states[6].published == [a, b] && states[6].subs == map[0 := Subscription("p", 0, None)]
    ensures states[6].callbacks == [(0, b), (0, a)]
  {
    var r: Registry;
    states, steps, r := BothPublishedRun(limit, a, b);
    hide IsRun;
    var s4 := BothPublished(r, a, b);
    var s5 := s4.(callbacks := [(0, b)], sending := [Sending(a, [0]), Sending(b, [])]);
    var s6 := s5.(callbacks := [(0, b), (0, a)], sending := [Sending(a, []), Sending(b, [])]);
    assert [0][1..] == [];
    assert Scheduled(s4.sending, 1) == s5.sending;
    states, steps := Extend(limit, states, steps, Schedule(1), s5);
    assert Scheduled(s5.sending, 0) == s6.sending;
    states, steps := Extend(limit, states, steps, Schedule(0), s6);
  }

  /** A subscriber gets the event published before it subscribed and then the one published during its replay. */
  lemma ReplayThenLive(limit: nat, a: Event, b: Event) returns (states: seq<State>, steps: seq<Step>)
    requires a.processId == b.processId == Some("p") && limit > 1
    ensures IsRun(limit, states, steps) && |states| == |steps| + 1
    ensures states[|steps|].put == map[0 := [a, b]] && states[|steps|].queues == map[0 := [b]]
  {
    var r: Registry;
    states, steps, r := ReplayedRun(limit, a, b);
    hide IsRun;
    var s5 := ReplayedSoFar(r, a, b, []).(replay := None);
    var s6 := s5.(callbacks := [(0, b)], sending := [Sending(a, []), Sending(b, [])]);
    var s7 := s6.(callbacks := [], queues := map[0 := [a, b]], put := map[0 := [a, b]]);
    assert [0][1..] == [] && [(0, b)][1..] == [] && [a] + [b] == [a, b] && [a, b][1..] == [b];
    assert Scheduled(s5.sending, 1) == s6.sending;
    assert s5.queues[0 := [a, b]] == map[0 := [a, b]] && s7.queues[0 := [b]] == map[0 := [b]];
    states, steps := Extend(limit, states, steps, Schedule(1), s6);
    states, steps := Extend(limit, states, steps, RunCallback, s7);
    states, steps := Extend(limit, states, steps, Get(0), s7.(queues := map[0 := [b]]));
  }

  /**
    Subscriber 0 of "p" after the first event was put; `rest` is still to be replayed,
    the second event unscheduled.
   */
  ghost function ReplayedSoFar(r: Registry, a: Event, b: Event, rest: seq<Event>): State {
    State(r, map[0 := [a]], [], [Sending(a, []), Sending(b, [0])], Some(Replay(0, rest)),
          [a, b], map[0 := [a]], map[0 := Subscription("p", 1, None)], false)
  }

  lemma ReplayedRun(limit: nat, a: Event, b: Event) returns (states: seq<State>, steps: seq<Step>, r: Registry)
    requires a.processId == b.processId == Some("p") && limit > 1
    ensures IsRun(limit, states, steps) && |states| == |steps| + 1 && r.limit == limit
    ensures states[|steps|] == ReplayedSoFar(r, a, b, []).(replay := None)
  {
    var r2: Registry;
    states, steps, r2 := SubscribedRun(limit, a);
    hide IsRun, LastN;
    r := r2.Published("p", b);
    var none: seq<Event> := [];
    var s2 := JustSubscribed(r2, a);
    var s3 := s2.(registry := r, sending := [Sending(a, []), Sending(b, [0])], published := [a, b]);
    assert r.limit == limit;
    states, steps := Extend(limit, states, steps, Publish(b, [0]), s3);
    var s4 := ReplayedSoFar(r, a, b, []);
    assert [a][1..] == [] && none + [a] == [a] && s3.queues[0 := [a]] == map[0 := [a]];
    states, steps := Extend(limit, states, steps, ReplayOne, s4);
    states, steps := Extend(limit, states, steps, EndSubscribe, s4.(replay := None));
  }

  /** Subscriber 0 of "p" has been registered, and the event published before is to be replayed. */
  ghost function JustSubscribed(r: Registry, a: Event): State {
    State(r, map[0 := []], [], [Sending(a, [])], Some(Replay(0, [a])), [a], map[0 := []],
          map[0 := Subscription("p", 1, None)], false)
  }

  lemma SubscribedRun(limit: nat, a: Event) returns (states: seq<State>, steps: seq<Step>, r: Registry)
    requires a.processId == Some("p") && limit > 1
    ensures IsRun(limit, states, steps) && |states| == |steps| + 1
    ensures r.limit == limit && r.Subscribers("p") == {0} && states[|steps|] == JustSubscribed(r, a)
  {
    var r1 := Registry(limit, None, map[], map[]).Published("p", a);
    r := r1.Subscribed("p", 0, 0);
    assert r1.History("p") == [a] && r1.limit == limit && r1.Accepts(0);
    var s1 := State(r1, map[], [], [Sending(a, [])], None, [a], map[], map[], false);
    states, steps := [Initial(limit)], [];
    assert IsRun(limit, states, steps);
    hide IsRun, LastN;
    states, steps := Extend(limit, states, steps, Publish(a, []), s1);
    states, steps := Extend(limit, states, steps, BeginSubscribe("p", 0, 0), JustSubscribed(r, a));
  }
}
