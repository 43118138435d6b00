/**
  The process event broker: who is subscribed to which process id, the bounded history
  per process id, and the bounded queues that drop their oldest event.
 */
module EventBroker {
  import opened BoundedQueue
  import opened Options

  type ProcessId = string
  type QueueId = nat
  type LoopId = nat

  /** An event; `processId` is absent when the field is missing or not a string. */
  datatype Event = Event(processId: Option<ProcessId>, body: string)

  /** The state the broker's lock protects. */
  datatype Registry = Registry(
    limit: nat,
    loop: Option<LoopId>,
    subscribers: map<ProcessId, set<QueueId>>,
    history: map<ProcessId, seq<Event>>)
  {
    function Subscribers(p: ProcessId): set<QueueId> {
      if p in subscribers then subscribers[p] else {}
    }

    function History(p: ProcessId): seq<Event> {
      if p in history then history[p] else []
    }

    /** No empty subscriber set is kept, and subscribers imply a known loop. */
    predicate Valid() {
      && (forall p :: p in subscribers ==> subscribers[p] != {})
      && (forall p :: p in history ==> |history[p]| <= limit)
      && (subscribers != map[] ==> loop.Some?)
    }

    predicate Accepts(l: LoopId) {
      loop.None? || loop == Some(l)
    }

    function Subscribed(p: ProcessId, q: QueueId, l: LoopId): Registry {
      this.(loop := Some(l), subscribers := subscribers[p := Subscribers(p) + {q}])
    }

    function Unsubscribed(p: ProcessId, q: QueueId): Registry {
      var rest := Subscribers(p) - {q};
      this.(subscribers := if rest == {} then subscribers - {p} else subscribers[p := rest])
    }

    function Published(p: ProcessId, e: Event): Registry {
      this.(history := history[p := LastN(limit, History(p) + [e])])
    }
  }

  /** Subscribing and unsubscribing change one membership. */
  lemma SubscribersAfter(r: Registry, p: ProcessId, q: QueueId, l: LoopId)
    ensures forall p' :: r.Subscribed(p, q, l).Subscribers(p') == r.Subscribers(p') + if p' == p then {q} else {}
    ensures forall p' :: r.Unsubscribed(p, q).Subscribers(p') == r.Subscribers(p') - if p' == p then {q} else {}
  {
  }

  /** The loop callback `_putLatest`: its put never finds the queue full. */
  method PutLatestCallback(queue: Queue<Event>, e: Event) returns (ok: bool)
    requires Bounded(queue.maxsize, queue.items)
    modifies queue
    ensures ok && queue.items == PutLatest(queue.maxsize, old(queue.items), e)
    ensures Bounded(queue.maxsize, queue.items)
  {
    if Full(queue.maxsize, queue.items) {
      var dropped := queue.GetNowait();
    }
    ok := queue.PutNowait(e);
  }

  /** The broker object; each method body is one critical section of its lock. */
  class ProcessEventBroker {
    const maxQueueSize: nat
    var loop: Option<LoopId>
    var subscribers: map<ProcessId, set<QueueId>>
    var history: map<ProcessId, seq<Event>>

    ghost function View(): Registry
      reads this
    {
      Registry(maxQueueSize, loop, subscribers, history)
    }

    constructor (maxQueueSize: nat)
      ensures View() == Registry(maxQueueSize, None, map[], map[]) && View().Valid()
    {
      this.maxQueueSize := maxQueueSize;
      loop, subscribers, history := None, map[], map[];
    }

    /** Registers a new queue and takes the history; nothing changes if the loop is not the broker's. */
    method Subscribe(p: ProcessId, q: QueueId, running: LoopId) returns (replay: Option<seq<Event>>)
      requires View().Valid()
      modifies this
      ensures View().Valid()
      ensures old(View()).Accepts(running) ==>
                replay == Some(old(View()).History(p)) && View() == old(View()).Subscribed(p, q, running)
      ensures !old(View()).Accepts(running) ==> replay.None? && View() == old(View())
      ensures replay.None? <==> old(loop).Some? && old(loop) != Some(running)
    {
      if loop.None? {
        loop := Some(running);
      } else if loop != Some(running) {
        return None;
      }
      if p !in subscribers {
        subscribers := subscribers[p := {}];
      }
      subscribers := subscribers[p := subscribers[p] + {q}];
      replay := Some(if p in history then history[p] else []);
    }

    method Unsubscribe(p: ProcessId, q: QueueId)
      requires View().Valid()
      modifies this
      ensures View().Valid() && View() == old(View()).Unsubscribed(p, q)
    {
      if p !in subscribers {
        assert subscribers - {p} == subscribers;
        return;
      }
      var rest := subscribers[p] - {q};
      subscribers := subscribers[p := rest];
      if rest == {} {
        subscribers := subscribers - {p};
        assert subscribers == old(subscribers) - {p};
      }
    }

    /** Records the event and takes the loop and queues to send it to. */
    method Publish(e: Event) returns (to: set<QueueId>, on: Option<LoopId>)
      requires View().Valid()
      modifies this
      ensures View().Valid()
      ensures e.processId.None? ==> View() == old(View()) && to == {}
      ensures e.processId.Some? ==>
                && View() == old(View()).Published(e.processId.value, e)
                && to == old(View()).Subscribers(e.processId.value) && on == old(loop) && (to != {} ==> on.Some?)
                && e.processId.value in history
                && (maxQueueSize > 0 ==>
                      var kept := history[e.processId.value]; kept != [] && kept[|kept| - 1] == e)
    {
      to, on := {}, None;
      if e.processId.None? {
        return;
      }
      var p := e.processId.value;
      var kept := (if p in history then history[p] else []) + [e];
      if |kept| > maxQueueSize {
        kept := kept[1..];
      }
      assert kept == LastN(maxQueueSize, View().History(p) + [e]);
      hide LastN;
      history := history[p := kept];
      on := loop;
      to := if p in subscribers then subscribers[p] else {};
    }
  }
}
