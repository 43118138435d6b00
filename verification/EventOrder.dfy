/**
  When a subscriber gets events in publication order: exactly if, for its queue, each
  publish call schedules its callback before those that published later.  For events that
  are all different the converse holds at every later moment too: what has been scheduled
  out of turn stays so.
 */
module EventOrder {
  import opened BoundedQueue
  import opened Options
  import opened EventBroker
  import opened EventBrokerProtocol

  ghost predicate Distinct(events: seq<Event>) {
    forall i, j :: 0 <= i < j < |events| ==> events[i] != events[j]
  }

  /** The publish calls are those of the published events, in order. */
  ghost predicate CallsArePublished(s: State) {
    |s.sending| == |s.published| && forall i :: 0 <= i < |s.sending| ==> s.sending[i].event == s.published[i]
  }

  /** What is past scheduling for a queue: its order does not change any more. */
  ghost function Sent(s: State, q: QueueId): seq<Event>
    requires q in s.put
  {
    s.put[q] + Replaying(s, q) + Pending(s.callbacks, q)
  }

  /** Some event past scheduling is not the one due at its place. */
  ghost predicate OutOfTurn(s: State, q: QueueId)
    requires SubsMatch(s) && q in s.subs
  {
    exists k :: 0 <= k < |Sent(s, q)| && k < |DueNow(s, q)| && Sent(s, q)[k] != DueNow(s, q)[k]
  }

  lemma PipelineIsSentAndUnsent(s: State, q: QueueId)
    requires q in s.put
    ensures Pipeline(s, q) == Sent(s, q) + Unsent(s.sending, |s.sending|, q)
  {
  }

  lemma KeepsCalls(s: State, step: Step)
    requires CallsArePublished(s) && Enabled(s, step)
    ensures CallsArePublished(Next(s, step)) && s.published <= Next(s, step).published
  {
  }

  /** Steps only append to what is past scheduling. */
  lemma SentGrows(s: State, step: Step, q: QueueId)
    requires SubsMatch(s) && Enabled(s, step) && q in s.subs
    ensures q in Next(s, step).put && Sent(s, q) <= Sent(Next(s, step), q)
  {
    AllKnown(s, q);
    hide SubsMatch, Pending;
    match step
    case Schedule(i) => PendingAppend(s.callbacks, (s.sending[i].remaining[0], s.sending[i].event), q);
    case RunCallback => CallbackMoves(s, q);
    case ReplayOne => ReplayMoves(s, q);
    case BeginSubscribe(_, _, _) =>
    case Publish(_, _) =>
    case EndSubscribe =>
    case Unsubscribe(_, _) =>
    case Get(_) =>
  }

  lemma AllKnown(s: State, q: QueueId)
    requires SubsMatch(s) && q in s.subs
    ensures q in s.queues && q in s.put
  {
  }

  lemma CallbackMoves(s: State, q: QueueId)
    requires Enabled(s, RunCallback) && q in s.put
    ensures q in Next(s, RunCallback).put && Sent(Next(s, RunCallback), q) == Sent(s, q)
  {
  }

  lemma ReplayMoves(s: State, q: QueueId)
    requires Enabled(s, ReplayOne) && q in s.put
    ensures q in Next(s, ReplayOne).put && Sent(Next(s, ReplayOne), q) == Sent(s, q)
  {
    hide Pending;
  }

  /** Steps only append to what is due. */
  lemma DueGrows(s: State, step: Step, q: QueueId)
    requires SubsMatch(s) && ReplayOk(s) && Enabled(s, step) && q in s.subs
    ensures SubsMatch(Next(s, step)) && q in Next(s, step).subs && DueNow(s, q) <= DueNow(Next(s, step), q)
  {
    hide Of, LastN, Unsent, Pending;
    KeepsSubs(s, step);
    if step.Publish? && step.event.processId.Some? {
      var more := LawPublish(s, step, q);
    } else if step.Unsubscribe? {
      UnsubscribeKeepsDue(s, step, q);
    }
  }

  lemma StaysOutOfTurn(s: State, step: Step, q: QueueId)
    requires SubsMatch(s) && ReplayOk(s) && Enabled(s, step) && q in s.subs && OutOfTurn(s, q)
    ensures SubsMatch(Next(s, step)) && q in Next(s, step).subs && OutOfTurn(Next(s, step), q)
  {
    SentGrows(s, step, q);
    DueGrows(s, step, q);
    hide Next, Sent, DueNow;
    var k :| 0 <= k < |Sent(s, q)| && k < |DueNow(s, q)| && Sent(s, q)[k] != DueNow(s, q)[k];
    var r := Next(s, step);
    assert Sent(r, q)[k] == Sent(s, q)[k] && DueNow(r, q)[k] == DueNow(s, q)[k];
  }

  lemma InOrderIsInTurn(s: State, q: QueueId)
    requires SubsMatch(s) && q in s.subs && InOrder(s)
    ensures !OutOfTurn(s, q)
  {
    AllKnown(s, q);
    assert Pipeline(s, q) == DueNow(s, q);
    hide Sent, DueNow, Pipeline, SubsMatch, InOrder, Unsent;
    PipelineIsSentAndUnsent(s, q);
  }

  /** The first unscheduled event of a queue is that of the first call that still waits for it. */
  lemma {:induction false} UnsentFirst(sending: seq<Sending>, n: nat, q: QueueId, j: nat) returns (first: nat)
    requires j < n <= |sending| && q in sending[j].remaining
    ensures first <= j && Unsent(sending, n, q) != [] && Unsent(sending, n, q)[0] == sending[first].event
  {
    if j < n - 1 {
      first := UnsentFirst(sending, n - 1, q, j);
    } else if i :| 0 <= i < n - 1 && q in sending[i].remaining {
      first := UnsentFirst(sending, n - 1, q, i);
    } else {
      UnsentNone(sending, n - 1, q);
      first := j;
    }
  }

  /** The due event behind those past scheduling is the first unscheduled one. */
  lemma NextDue(s: State, q: QueueId, j: nat) returns (first: nat)
    requires SubsMatch(s) && q in s.subs && InOrder(s) && j < |s.sending| && q in s.sending[j].remaining
    ensures first <= j && q in s.put && |Sent(s, q)| < |DueNow(s, q)|
        && DueNow(s, q)[|Sent(s, q)|] == s.sending[first].event
  {
    AllKnown(s, q);
    first := UnsentFirst(s.sending, |s.sending|, q, j);
    PipelineIsSentAndUnsent(s, q);
    assert Pipeline(s, q) == DueNow(s, q);
    hide Sent, DueNow, Pipeline, SubsMatch, InOrder, Unsent;
  }

  lemma SentAfterSchedule(s: State, i: nat, q: QueueId)
    requires Enabled(s, Schedule(i)) && q == s.sending[i].remaining[0] && q in s.put
    ensures var r := Next(s, Schedule(i)); q in r.put && Sent(r, q) == Sent(s, q) + [s.sending[i].event]
  {
    PendingAppend(s.callbacks, (q, s.sending[i].event), q);
    hide Pending;
    Associate(s.put[q] + Replaying(s, q), Pending(s.callbacks, q), [s.sending[i].event]);
  }

  /** Scheduling a call while an earlier one waits for the same queue is out of turn. */
  lemma OvertakingIsOutOfTurn(s: State, step: Step) returns (q: QueueId)
    requires Inv(s) && CallsArePublished(s) && Distinct(s.published) && InOrder(s)
    requires Enabled(s, step) && !OldestFirst(s, step)
    ensures SubsMatch(Next(s, step)) && q in Next(s, step).subs && OutOfTurn(Next(s, step), q)
  {
    var i := step.i;
    q := s.sending[i].remaining[0];
    var j :| 0 <= j < i && q in s.sending[j].remaining;
    assert q in s.subs by {
      assert SendOk(s, s.sending[i]) && q in s.sending[i].remaining;
    }
    DueGrows(s, step, q);
    var first := NextDue(s, q, j);
    SentAfterSchedule(s, i, q);
    var r, k := Next(s, step), |Sent(s, q)|;
    hide Next, Enabled, Sent, DueNow, SubsMatch, InTransitOk, HistoryKept, ReplayOk, QueuesOk, InOrder;
    assert Sent(r, q)[k] == s.published[i] && DueNow(r, q)[k] == s.published[first];
  }

  // ---------- Whole runs ----------

  lemma {:induction false} RunCalls(limit: nat, states: seq<State>, steps: seq<Step>, m: nat, n: nat)
    requires IsRun(limit, states, steps) && m <= n <= |steps|
    ensures CallsArePublished(states[m]) && CallsArePublished(states[n]) && states[m].published <= states[n].published
    decreases n
  {
    hide Next, Enabled;
    if m < n {
      RunCalls(limit, states, steps, m, n - 1);
      KeepsCalls(states[n - 1], steps[n - 1]);
    } else if n > 0 {
      RunCalls(limit, states, steps, n - 1, n - 1);
      KeepsCalls(states[n - 1], steps[n - 1]);
    }
  }

  lemma {:induction false} RunStaysOutOfTurn(limit: nat, states: seq<State>, steps: seq<Step>, m: nat, n: nat,
      q: QueueId)
    requires IsRun(limit, states, steps) && m <= n <= |steps|
    requires SubsMatch(states[m]) && q in states[m].subs && OutOfTurn(states[m], q)
    ensures SubsMatch(states[n]) && q in states[n].subs && OutOfTurn(states[n], q)
    decreases n - m
  {
    hide Next, Enabled, OutOfTurn;
    if m < n {
      RunStaysOutOfTurn(limit, states, steps, m, n - 1, q);
      RunLosesNothing(limit, states, steps, n - 1);
      hide SubsMatch, InTransitOk, HistoryKept, ReplayOk, QueuesOk, NothingLost;
      StaysOutOfTurn(states[n - 1], steps[n - 1], q);
    }
  }

  /** The first step of a run that does not schedule oldest first, if any. */
  lemma {:induction false} FirstOvertaking(limit: nat, states: seq<State>, steps: seq<Step>, n: nat) returns (k: nat)
    requires IsRun(limit, states, steps) && n <= |steps|
    ensures k <= n && forall i :: 0 <= i < k ==> OldestFirst(states[i], steps[i])
    ensures k < n ==> !OldestFirst(states[k], steps[k])
  {
    hide Next, OldestFirst;
    if n == 0 {
      k := 0;
    } else {
      k := FirstOvertaking(limit, states, steps, n - 1);
      if k == n - 1 && OldestFirst(states[k], steps[k]) {
        k := n;
      }
    }
  }

  /**
    If all published events are different: every subscriber's events are in publication
    order if and only if every step so far scheduled, for its queue, the oldest call first.
   */
  lemma OrderIffOldestFirst(limit: nat, states: seq<State>, steps: seq<Step>, n: nat)
    requires IsRun(limit, states, steps) && n <= |steps| && Distinct(states[n].published)
    ensures SubsMatch(states[n])
    ensures InOrder(states[n]) <==> forall i :: 0 <= i < n ==> OldestFirst(states[i], steps[i])
  {
    hide Next, Enabled, OldestFirst, InOrder, OutOfTurn;
    RunLosesNothing(limit, states, steps, n);
    var k := FirstOvertaking(limit, states, steps, n);
    OldestFirstRunIsOrdered(limit, states, steps, k);
    if k < n {
      RunCalls(limit, states, steps, k, n);
      var q := OvertakingIsOutOfTurn(states[k], steps[k]);
      RunStaysOutOfTurn(limit, states, steps, k + 1, n, q);
      if InOrder(states[n]) {
        InOrderIsInTurn(states[n], q);
      }
    }
  }
}
