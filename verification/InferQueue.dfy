/**
  The asynchronous copy of inference results: submitters, the publishing worker and the
  consumer around the incoming queue, the worker's pending list and the bounded result
  queue, as interleaved steps.  Results are numbered in the order in which they enter the
  incoming queue; `Complete` is the moment a result's copy event becomes ready.
 */
module InferQueue {
  import opened BoundedQueue
  import opened Options

  /**
    The worker: draining the incoming queue; going over its pending list; or, for the
    result it is publishing, before the first put, the eviction, or the second put.
   */
  datatype Worker =
    | Draining(pending: seq<nat>)
    | Passing(still: seq<nat>, todo: seq<nat>)
    | Offering(still: seq<nat>, result: nat, todo: seq<nat>)
    | Evicting(still: seq<nat>, result: nat, todo: seq<nat>)
    | Retrying(still: seq<nat>, result: nat, todo: seq<nat>)

  /**
    How a result left the queue: to the consumer, evicted by the put of the `turn`-th
    published result, or dropped itself by its own put.
   */
  datatype Exit = Taken(result: nat) | Evicted(result: nat, turn: nat) | Rejected(result: nat, turn: nat)

  datatype State = State(
    capacity: nat,
    submitted: nat,
    incoming: seq<nat>,
    worker: Worker,
    queue: seq<nat>,
    hand: Option<nat>,
    consumed: seq<nat>,
    ready: set<nat>,
    exits: seq<Exit>,
    offered: seq<nat>,       // results in the order the worker began to publish them
    secondPutFailed: bool)

  datatype Step =
    | Submit | Complete(result: nat)
    | Drain | BeginPass | Query | EndPass
    | Put | Evict | PutAgain
    | Take | Consume

  function Initial(capacity: nat): State {
    State(capacity, 0, [], Draining([]), [], None, [], {}, [], [], false)
  }

  predicate Enabled(s: State, step: Step) {
    match step
    case Submit => true
    case Complete(_) => true
    case Drain => s.worker.Draining? && s.incoming != []
    case BeginPass => s.worker.Draining? && s.incoming == []
    case Query => s.worker.Passing? && s.worker.todo != []
    case EndPass => s.worker.Passing? && s.worker.todo == []
    case Put => s.worker.Offering?
    case Evict => s.worker.Evicting?
    case PutAgain => s.worker.Retrying?
    case Take => s.hand.None? && s.queue != []
    case Consume => s.hand.Some?
  }

  function Next(s: State, step: Step): State
    requires Enabled(s, step)
  {
    var w := s.worker;
    match step
    case Submit => s.(incoming := s.incoming + [s.submitted], submitted := s.submitted + 1)
    case Complete(r) => s.(ready := s.ready + {r})
    case Drain => s.(worker := Draining(w.pending + [s.incoming[0]]), incoming := s.incoming[1..])
    case BeginPass => s.(worker := Passing([], w.pending))
    case Query =>
      if w.todo[0] in s.ready then
        s.(worker := Offering(w.still, w.todo[0], w.todo[1..]), offered := s.offered + [w.todo[0]])
      else s.(worker := Passing(w.still + [w.todo[0]], w.todo[1..]))
    case EndPass => s.(worker := Draining(w.still))
    case Put =>
      if Full(s.capacity, s.queue) then s.(worker := Evicting(w.still, w.result, w.todo))
      else s.(worker := Passing(w.still, w.todo), queue := s.queue + [w.result])
    case Evict =>
      if s.queue == [] then
        s.(worker := Passing(w.still, w.todo), exits := s.exits + [Rejected(w.result, |s.offered|)])
      else
        s.(worker := Retrying(w.still, w.result, w.todo), queue := s.queue[1..],
           exits := s.exits + [Evicted(s.queue[0], |s.offered|)])
    case PutAgain =>
      if Full(s.capacity, s.queue) then
        s.(worker := Passing(w.still, w.todo), exits := s.exits + [Rejected(w.result, |s.offered|)],
            secondPutFailed := true)
      else s.(worker := Passing(w.still, w.todo), queue := s.queue + [w.result])
    case Take => s.(hand := Some(s.queue[0]), queue := s.queue[1..], exits := s.exits + [Taken(s.queue[0])])
    case Consume => s.(hand := None, consumed := s.consumed + [s.hand.value])
  }

  // ---------- Views of a state ----------

  /** 0, 1, ..., n - 1: the submitted results. */
  function Range(n: nat): (r: seq<nat>)
    ensures |r| == n && forall i :: 0 <= i < n ==> r[i] == i
  {
    if n == 0 then [] else Range(n - 1) + [n - 1]
  }

  function Results(exits: seq<Exit>): (r: seq<nat>)
    ensures |r| == |exits| && forall i :: 0 <= i < |r| ==> r[i] == exits[i].result
  {
    if exits == [] then [] else Results(exits[..|exits| - 1]) + [exits[|exits| - 1].result]
  }

  function Delivered(exits: seq<Exit>): seq<nat> {
    if exits == [] then []
    else
      var rest, last := Delivered(exits[..|exits| - 1]), exits[|exits| - 1];
      if last.Taken? then rest + [last.result] else rest
  }

  function Lost(exits: seq<Exit>): seq<nat> {
    if exits == [] then []
    else
      var rest, last := Lost(exits[..|exits| - 1]), exits[|exits| - 1];
      if last.Taken? then rest else rest + [last.result]
  }

  function Hand(s: State): seq<nat> {
    if s.hand.Some? then [s.hand.value] else []
  }

  /** The result being put. */
  function Putting(w: Worker): seq<nat> {
    match w
    case Draining(_) => []
    case Passing(_, _) => []
    case Offering(_, result, _) => [result]
    case Evicting(_, result, _) => [result]
    case Retrying(_, result, _) => [result]
  }

  /** What the worker still holds back, in list order. */
  function Waiting(w: Worker): seq<nat> {
    if w.Draining? then w.pending else w.still + w.todo
  }

  /** Every result: published or being published, then the worker's, then the incoming ones. */
  function All(s: State): seq<nat> {
    s.offered + Waiting(s.worker) + s.incoming
  }

  // ---------- Invariants ----------

  /** The queue is first in, first out: what left it, what is in it and what is being put are the published results. */
  predicate Fifo(s: State) {
    && Results(s.exits) + s.queue + Putting(s.worker) == s.offered
    && Delivered(s.exits) == s.consumed + Hand(s)
  }

  /** The queue keeps its capacity, and the second put always finds room. */
  predicate Room(s: State) {
    && Bounded(s.capacity, s.queue)
    && (s.worker.Evicting? || s.worker.Retrying? ==> s.capacity > 0)
    && (s.worker.Retrying? ==> !Full(s.capacity, s.queue))
    && !s.secondPutFailed
  }

  /** Whatever has been offered to the queue was ready. */
  predicate OnlyReady(s: State) {
    forall i :: 0 <= i < |s.offered| ==> s.offered[i] in s.ready
  }

  /** A rejected result is the one being put; an evicted one is older by at most the capacity. */
  predicate ExitOk(s: State, i: nat)
    requires i < |s.exits|
  {
    match s.exits[i]
    case Taken(_) => true
    case Evicted(_, turn) => i + 1 < turn <= |s.offered| && turn - 1 - i <= s.capacity
    case Rejected(_, turn) => turn == i + 1 && turn <= |s.offered|
  }

  /** Losses belong to different puts. */
  predicate OnePerPut(s: State) {
    && (forall i :: 0 <= i < |s.exits| ==> ExitOk(s, i))
    && (forall i, j :: 0 <= i < j < |s.exits| && !s.exits[i].Taken? && !s.exits[j].Taken? ==>
          s.exits[i].turn < s.exits[j].turn)
    && (s.worker.Offering? || s.worker.Evicting? ==>
          forall i :: 0 <= i < |s.exits| && !s.exits[i].Taken? ==> s.exits[i].turn < |s.offered|)
  }

  predicate Conserved(s: State) {
    multiset(All(s)) == multiset(Range(s.submitted))
  }

  predicate Inv(s: State) {
    Fifo(s) && Room(s) && OnlyReady(s) && OnePerPut(s) && Conserved(s)
  }

  // ---------- One step ----------

  lemma ExitsAppend(exits: seq<Exit>, e: Exit)
    ensures Results(exits + [e]) == Results(exits) + [e.result]
    ensures Delivered(exits + [e]) == Delivered(exits) + if e.Taken? then [e.result] else []
    ensures Lost(exits + [e]) == Lost(exits) + if e.Taken? then [] else [e.result]
  {
    assert (exits + [e])[..|exits|] == exits;
  }

  lemma HeadMoves(exited: seq<nat>, queue: seq<nat>, putting: seq<nat>)
    requires queue != []
    ensures exited + [queue[0]] + queue[1..] + putting == exited + queue + putting
  {
  }

  lemma KeepsFifoOrder(s: State, step: Step)
    requires Fifo(s) && Room(s) && Enabled(s, step)
    ensures var r := Next(s, step); Results(r.exits) + r.queue + Putting(r.worker) == r.offered
  {
    var done := Results(s.exits);
    hide Results, Delivered;
    match step
    case Take =>
      ExitsAppend(s.exits, Taken(s.queue[0]));
      HeadMoves(done, s.queue, Putting(s.worker));
    case Evict =>
      if s.queue == [] {
        ExitsAppend(s.exits, Rejected(s.worker.result, |s.offered|));
      } else {
        ExitsAppend(s.exits, Evicted(s.queue[0], |s.offered|));
        HeadMoves(done, s.queue, Putting(s.worker));
      }
    case Put =>
      assert done + (s.queue + [s.worker.result]) == done + s.queue + [s.worker.result];
    case PutAgain =>
      assert done + (s.queue + [s.worker.result]) == done + s.queue + [s.worker.result];
    case Query =>
      assert done + s.queue + [] + [s.worker.todo[0]] == done + s.queue + [s.worker.todo[0]];
    case Submit =>
    case Complete(_) =>
    case Drain =>
    case BeginPass =>
    case EndPass =>
    case Consume =>
  }

  lemma KeepsDelivered(s: State, step: Step)
    requires Fifo(s) && Room(s) && Enabled(s, step)
    ensures Delivered(Next(s, step).exits) == Next(s, step).consumed + Hand(Next(s, step))
  {
    hide Results, Delivered;
    match step
    case Take => ExitsAppend(s.exits, Taken(s.queue[0]));
    case Evict =>
      if s.queue == [] {
        ExitsAppend(s.exits, Rejected(s.worker.result, |s.offered|));
      } else {
        ExitsAppend(s.exits, Evicted(s.queue[0], |s.offered|));
      }
    case PutAgain =>
    case Put =>
    case Query =>
    case Submit =>
    case Complete(_) =>
    case Drain =>
    case BeginPass =>
    case EndPass =>
    case Consume =>
  }

  lemma KeepsRoom(s: State, step: Step)
    requires Room(s) && Enabled(s, step)
    ensures Room(Next(s, step))
  {
  }

  lemma KeepsReady(s: State, step: Step)
    requires OnlyReady(s) && Enabled(s, step)
    ensures OnlyReady(Next(s, step))
  {
  }

  predicate Counted(s: State) {
    |s.exits| + |s.queue| + |Putting(s.worker)| == |s.offered|
  }

  lemma FifoCounts(s: State)
    requires Fifo(s)
    ensures Counted(s)
  {
    hide Results, Delivered;
  }

  lemma KeepsExits(s: State, step: Step)
    requires Counted(s) && Room(s) && OnePerPut(s) && Enabled(s, step)
    ensures var r := Next(s, step); forall i :: 0 <= i < |r.exits| ==> ExitOk(r, i)
  {
    var r := Next(s, step);
    forall i | 0 <= i < |r.exits|
      ensures ExitOk(r, i)
    {
      if i < |s.exits| {
        assert ExitOk(s, i) && r.exits[i] == s.exits[i];
      }
    }
  }

  lemma TurnsWithinOffered(s: State)
    requires OnePerPut(s)
    ensures forall i :: 0 <= i < |s.exits| && !s.exits[i].Taken? ==> s.exits[i].turn <= |s.offered|
  {
    forall i | 0 <= i < |s.exits| && !s.exits[i].Taken?
      ensures s.exits[i].turn <= |s.offered|
    {
      assert ExitOk(s, i);
    }
  }

  lemma KeepsOnePerPut(s: State, step: Step)
    requires Fifo(s) && Room(s) && OnePerPut(s) && Enabled(s, step)
    ensures OnePerPut(Next(s, step))
  {
    FifoCounts(s);
    KeepsExits(s, step);
    TurnsWithinOffered(s);
    hide Fifo, ExitOk;
  }

  /** The worker publishes a result while holding back an earlier one. */
  predicate Overtakes(s: State, step: Step)
    requires Enabled(s, step)
  {
    step.Query? && s.worker.todo[0] in s.ready && s.worker.still != []
  }

  /** Every step but an overtaking publication keeps the order of all results. */
  lemma AllAfter(s: State, step: Step)
    requires Enabled(s, step) && !Overtakes(s, step)
    ensures All(Next(s, step)) == All(s) + if step.Submit? then [s.submitted] else []
  {
    if step.Query? {
      QueryMoves(s.offered, s.worker.still, s.worker.todo, s.incoming);
    } else if step.Drain? {
      assert s.incoming == [s.incoming[0]] + s.incoming[1..];
    } else {
      assert Waiting(Next(s, step).worker) == Waiting(s.worker);
    }
  }

  /** Looking at the next result either publishes it, if none is held back, or holds it back. */
  lemma QueryMoves(offered: seq<nat>, still: seq<nat>, todo: seq<nat>, incoming: seq<nat>)
    requires todo != []
    ensures still == [] ==>
        (offered + [todo[0]]) + (still + todo[1..]) + incoming == offered + (still + todo) + incoming
    ensures offered + ((still + [todo[0]]) + todo[1..]) + incoming == offered + (still + todo) + incoming
  {
    assert todo == [todo[0]] + todo[1..];
  }

  lemma SameMembers(offered: seq<nat>, still: seq<nat>, x: nat, rest: seq<nat>, incoming: seq<nat>)
    ensures multiset(offered + [x] + (still + rest) + incoming)
         == multiset(offered + (still + ([x] + rest)) + incoming)
  {
  }

  lemma KeepsConserved(s: State, step: Step)
    requires Conserved(s) && Enabled(s, step)
    ensures Conserved(Next(s, step))
  {
    hide Range;
    if Overtakes(s, step) {
      var w := s.worker;
      assert w.todo == [w.todo[0]] + w.todo[1..];
      SameMembers(s.offered, w.still, w.todo[0], w.todo[1..], s.incoming);
    } else {
      AllAfter(s, step);
      SubmittedAfter(s, step);
      hide All, Next;
      if step.Submit? {
        RangeNext(s.submitted);
      }
    }
  }

  lemma RangeNext(n: nat)
    ensures Range(n + 1) == Range(n) + [n]
  {
  }

  lemma SubmittedAfter(s: State, step: Step)
    requires Enabled(s, step)
    ensures Next(s, step).submitted == s.submitted + if step.Submit? then 1 else 0
  {
  }

  lemma InvStep(s: State, step: Step)
    requires Inv(s) && Enabled(s, step)
    ensures Inv(Next(s, step))
  {
    hide Next, Results, Delivered, Room, OnlyReady, OnePerPut, Conserved;
    KeepsFifoOrder(s, step);
    KeepsDelivered(s, step);
    KeepsRoom(s, step);
    KeepsReady(s, step);
    KeepsOnePerPut(s, step);
    KeepsConserved(s, step);
  }

  // ---------- Whole runs ----------

  predicate IsRun(capacity: nat, states: seq<State>, steps: seq<Step>) {
    && |states| == |steps| + 1 && states[0] == Initial(capacity)
    && forall i :: 0 <= i < |steps| ==> Enabled(states[i], steps[i]) && states[i + 1] == Next(states[i], steps[i])
  }

  lemma InitialOk(capacity: nat)
    ensures Inv(Initial(capacity))
  {
  }

  lemma CapacityFixed(s: State, step: Step)
    requires Enabled(s, step)
    ensures Next(s, step).capacity == s.capacity
  {
  }

  lemma {:induction false} RunKeepsInv(capacity: nat, states: seq<State>, steps: seq<Step>, n: nat)
    requires IsRun(capacity, states, steps) && n <= |steps|
    ensures Inv(states[n]) && states[n].capacity == capacity
  {
    hide Inv, Next;
    if n == 0 {
      InitialOk(capacity);
    } else {
      RunKeepsInv(capacity, states, steps, n - 1);
      InvStep(states[n - 1], steps[n - 1]);
      CapacityFixed(states[n - 1], steps[n - 1]);
    }
  }

  lemma {:induction false} DeliveredOrLost(exits: seq<Exit>)
    ensures multiset(Results(exits)) == multiset(Delivered(exits)) + multiset(Lost(exits))
  {
    if exits != [] {
      var n := |exits| - 1;
      DeliveredOrLost(exits[..n]);
      ExitsAppend(exits[..n], exits[n]);
      assert exits == exits[..n] + [exits[n]];
    }
  }

  /** Where every result is: each submitted one is in exactly one place, once. */
  function Places(s: State): multiset<nat> {
    multiset(s.consumed) + multiset(Hand(s)) + multiset(Lost(s.exits)) + multiset(s.queue)
    + multiset(Putting(s.worker)) + multiset(Waiting(s.worker)) + multiset(s.incoming)
  }

  /**
    At every step of every run the submitted results are the disjoint union of the
    incoming, pending, queued, consumed and dropped ones.
   */
  lemma ResultsAreConserved(capacity: nat, states: seq<State>, steps: seq<Step>, n: nat)
    requires IsRun(capacity, states, steps) && n <= |steps|
    ensures Places(states[n]) == multiset(Range(states[n].submitted))
  {
    var s := states[n];
    RunKeepsInv(capacity, states, steps, n);
    DeliveredOrLost(s.exits);
    hide Lost, Delivered, Results, Range;
    assert multiset(s.offered) == multiset(Results(s.exits)) + multiset(s.queue) + multiset(Putting(s.worker));
    assert multiset(Delivered(s.exits)) == multiset(s.consumed) + multiset(Hand(s));
  }

  lemma {:induction false} RangeOnce(n: nat, r: nat)
    ensures multiset(Range(n))[r] == if r < n then 1 else 0
  {
    if n > 0 {
      RangeOnce(n - 1, r);
    }
  }

  /** No result is consumed twice, or consumed and dropped, or made up. */
  lemma ConsumedOnce(capacity: nat, states: seq<State>, steps: seq<Step>, n: nat, r: nat)
    requires IsRun(capacity, states, steps) && n <= |steps|
    ensures multiset(states[n].consumed)[r] + multiset(Lost(states[n].exits))[r] <= if r < states[n].submitted then 1
        else 0
  {
    var s := states[n];
    ResultsAreConserved(capacity, states, steps, n);
    RangeOnce(s.submitted, r);
    assert Places(s)[r] <= if r < s.submitted then 1 else 0;
  }

  /**
    Publication: the consumer gets, and the queue holds, only ready results; the queue
    never exceeds its capacity; and the put after an eviction never fails.
   */
  lemma OnlyReadyWithinCapacity(capacity: nat, states: seq<State>, steps: seq<Step>, n: nat)
    requires IsRun(capacity, states, steps) && n <= |steps|
    ensures forall i :: 0 <= i < |states[n].queue| ==> states[n].queue[i] in states[n].ready
    ensures forall i :: 0 <= i < |states[n].consumed| ==> states[n].consumed[i] in states[n].ready
    ensures Bounded(capacity, states[n].queue) && !states[n].secondPutFailed
  {
    var s := states[n];
    RunKeepsInv(capacity, states, steps, n);
    hide OnlyReady, OnePerPut, Conserved, Fifo;
    QueueIsReady(s);
    ConsumedIsReady(s);
  }

  lemma QueueIsReady(s: State)
    requires Fifo(s) && OnlyReady(s)
    ensures forall i :: 0 <= i < |s.queue| ==> s.queue[i] in s.ready
  {
    hide Results, Delivered;
    var exited := Results(s.exits);
    forall i | 0 <= i < |s.queue|
      ensures s.queue[i] in s.ready
    {
      assert (exited + s.queue + Putting(s.worker))[|exited| + i] == s.queue[i];
    }
  }

  lemma ConsumedIsReady(s: State)
    requires Fifo(s) && OnlyReady(s)
    ensures forall i :: 0 <= i < |s.consumed| ==> s.consumed[i] in s.ready
  {
    hide Results, Delivered;
    var exited := Results(s.exits);
    forall i | 0 <= i < |s.consumed|
      ensures s.consumed[i] in s.ready
    {
      assert Delivered(s.exits)[i] == s.consumed[i];
      DeliveredIn(s.exits, i);
      var j :| 0 <= j < |s.exits| && exited[j] == s.consumed[i];
      assert (exited + s.queue + Putting(s.worker))[j] == s.consumed[i];
    }
  }

  lemma {:induction false} DeliveredIn(exits: seq<Exit>, i: nat)
    requires i < |Delivered(exits)|
    ensures exists j :: 0 <= j < |exits| && Results(exits)[j] == Delivered(exits)[i]
  {
    var n := |exits| - 1;
    ExitsAppend(exits[..n], exits[n]);
    assert exits == exits[..n] + [exits[n]];
    if i < |Delivered(exits[..n])| {
      DeliveredIn(exits[..n], i);
      var j :| 0 <= j < n && Results(exits[..n])[j] == Delivered(exits[..n])[i];
      assert Results(exits)[j] == Delivered(exits)[i];
    } else {
      assert Results(exits)[n] == Delivered(exits)[i];
    }
  }

  /**
    The i-th result to leave the queue is the i-th one published.  If a put dropped it,
    it is that put's own result only when the put found the queue emptied, and otherwise
    the oldest one, published at most `capacity` before; and no other put's loss has the
    same number.
   */
  lemma PutsLoseTheOldest(capacity: nat, states: seq<State>, steps: seq<Step>, n: nat, i: nat)
    requires IsRun(capacity, states, steps) && n <= |steps| && i < |states[n].exits|
    ensures var e := states[n].exits[i];
            && i < |states[n].offered| && e.result == states[n].offered[i]
            && (e.Evicted? ==> i + 1 < e.turn <= i + 1 + capacity)
            && (e.Rejected? ==> e.turn == i + 1)
            && (!e.Taken? ==> forall j :: 0 <= j < |states[n].exits| && j != i && !states[n].exits[j].Taken? ==>
                  states[n].exits[j].turn != e.turn)
  {
    var s := states[n];
    RunKeepsInv(capacity, states, steps, n);
    assert Results(s.exits)[i] == s.offered[i];
    assert ExitOk(s, i);
  }

  // ---------- When results are dropped ----------

  /** The worker is after the first put of a result, which found the queue full. */
  predicate AfterFull(s: State) {
    s.worker.Evicting? || s.worker.Retrying?
  }

  lemma AfterFullComesFrom(s: State, step: Step)
    requires Enabled(s, step) && AfterFull(Next(s, step))
    ensures (step.Put? && 0 < s.capacity <= |s.queue|) || (AfterFull(s) && !step.PutAgain?)
    ensures Putting(Next(s, step).worker) == Putting(s.worker)
  {
  }

  /**
    A result is evicted, or dropped itself, only by a put whose first attempt found the
    queue holding as many results as its capacity.
   */
  lemma {:induction false} DropsOnlyWhenFull(capacity: nat, states: seq<State>, steps: seq<Step>, n: nat)
      returns (m: nat)
    requires IsRun(capacity, states, steps) && n <= |steps| && AfterFull(states[n])
    ensures m < n && steps[m].Put? && |states[m].queue| == capacity > 0
    ensures Putting(states[m].worker) == Putting(states[n].worker)
    ensures forall k :: m < k <= n ==> AfterFull(states[k])
  {
    hide Next, Enabled, AfterFull, Inv;
    if n == 0 {
      NotAfterFull(capacity);
    } else {
      AfterFullComesFrom(states[n - 1], steps[n - 1]);
      RunKeepsInv(capacity, states, steps, n - 1);
      if AfterFull(states[n - 1]) && !steps[n - 1].PutAgain? {
        m := DropsOnlyWhenFull(capacity, states, steps, n - 1);
      } else {
        FullIsCapacity(states[n - 1]);
        m := n - 1;
      }
    }
  }

  lemma NotAfterFull(capacity: nat)
    ensures !AfterFull(Initial(capacity))
  {
  }

  lemma FullIsCapacity(s: State)
    requires Inv(s) && 0 < s.capacity <= |s.queue|
    ensures |s.queue| == s.capacity
  {
    hide Fifo, OnlyReady, OnePerPut, Conserved;
  }

  /** And a put that finds room keeps every result. */
  lemma RoomMeansNoDrop(capacity: nat, states: seq<State>, steps: seq<Step>, n: nat)
    requires IsRun(capacity, states, steps) && n < |steps| && steps[n].Put?
    requires capacity == 0 || |states[n].queue| < capacity
    ensures states[n + 1].queue == states[n].queue + [states[n].worker.result]
    ensures states[n + 1].exits == states[n].exits && states[n + 1].worker.Passing?
  {
    RunKeepsInv(capacity, states, steps, n);
    assert states[n + 1] == Next(states[n], steps[n]);
  }

  // ---------- Order ----------

  predicate InOrder(s: State) {
    && |All(s)| == s.submitted
    && forall i :: 0 <= i < s.submitted ==> All(s)[i] == i
  }

  lemma KeepsOrder(s: State, step: Step)
    requires InOrder(s) && Enabled(s, step) && !Overtakes(s, step)
    ensures InOrder(Next(s, step))
  {
    AllAfter(s, step);
    hide All;
  }

  /** A publication that overtakes is out of place. */
  lemma OvertakingShows(s: State, step: Step)
    requires InOrder(s) && Enabled(s, step) && Overtakes(s, step)
    ensures var r := Next(s, step);
            |r.offered| == |s.offered| + 1 && r.offered[|s.offered|] != |s.offered|
  {
    var k := |s.offered|;
    assert All(s)[k] == s.worker.still[0];
    assert All(s)[k + |s.worker.still|] == s.worker.todo[0];
  }

  lemma {:induction false} OfferedOnlyGrows(capacity: nat, states: seq<State>, steps: seq<Step>, m: nat, n: nat)
    requires IsRun(capacity, states, steps) && m <= n <= |steps|
    ensures states[m].offered <= states[n].offered
    decreases n - m
  {
    if m < n {
      OfferedOnlyGrows(capacity, states, steps, m, n - 1);
      assert states[n - 1 + 1] == Next(states[n - 1], steps[n - 1]);
    }
  }

  lemma {:induction false} NoOvertakingKeepsOrder(capacity: nat, states: seq<State>, steps: seq<Step>, n: nat)
    requires IsRun(capacity, states, steps) && n <= |steps|
    requires forall i :: 0 <= i < n ==> !Overtakes(states[i], steps[i])
    ensures InOrder(states[n])
  {
    hide Next;
    if n > 0 {
      NoOvertakingKeepsOrder(capacity, states, steps, n - 1);
      KeepsOrder(states[n - 1], steps[n - 1]);
    }
  }

  /** The first overtaking of a run, if any. */
  lemma {:induction false} FirstOvertaking(capacity: nat, states: seq<State>, steps: seq<Step>, n: nat) returns (k: nat)
    requires IsRun(capacity, states, steps) && n <= |steps|
    ensures k <= n && forall i :: 0 <= i < k ==> !Overtakes(states[i], steps[i])
    ensures k < n ==> Overtakes(states[k], steps[k])
  {
    hide Next, Overtakes;
    if n == 0 {
      k := 0;
    } else {
      k := FirstOvertaking(capacity, states, steps, n - 1);
      if k == n - 1 && !Overtakes(states[k], steps[k]) {
        k := n;
      }
    }
  }

  /** Publication order is submission order exactly when no publication overtakes a result held back. */
  lemma OrderKeptIffNoOvertaking(capacity: nat, states: seq<State>, steps: seq<Step>, n: nat)
    requires IsRun(capacity, states, steps) && n <= |steps|
    ensures states[n].offered == Range(|states[n].offered|)
            <==> forall i :: 0 <= i < n ==> !Overtakes(states[i], steps[i])
  {
    var k := FirstOvertaking(capacity, states, steps, n);
    NoOvertakingKeepsOrder(capacity, states, steps, k);
    if k < n {
      OvertakingShows(states[k], steps[k]);
      OfferedOnlyGrows(capacity, states, steps, k + 1, n);
    } else {
      OfferedFirst(states[n]);
    }
  }

  lemma OfferedFirst(s: State)
    requires InOrder(s)
    ensures s.offered == Range(|s.offered|)
  {
    forall i | 0 <= i < |s.offered|
      ensures s.offered[i] == i
    {
      assert All(s)[i] == s.offered[i];
    }
  }

  predicate PrefixClosed(ready: set<nat>) {
    forall r, q :: r in ready && 0 <= q < r ==> q in ready
  }

  /** Events become ready in submission order, and never while the worker goes over its list. */
  predicate SteadyReadiness(states: seq<State>, steps: seq<Step>)
    requires |states| == |steps| + 1
  {
    && (forall i :: 0 <= i < |states| ==> PrefixClosed(states[i].ready))
    && (forall i :: 0 <= i < |steps| && steps[i].Complete? ==> states[i].worker.Draining?)
  }

  /** Of the results held back in this pass none is ready. */
  predicate HeldBackUnready(s: State) {
    !s.worker.Draining? ==> forall i :: 0 <= i < |s.worker.still| ==> s.worker.still[i] !in s.ready
  }

  lemma SteadyStep(s: State, step: Step)
    requires InOrder(s) && HeldBackUnready(s) && Enabled(s, step) && PrefixClosed(s.ready)
    requires step.Complete? ==> s.worker.Draining?
    ensures !Overtakes(s, step) && HeldBackUnready(Next(s, step))
  {
    if step.Query? && s.worker.still != [] {
      var k := |s.offered|;
      assert All(s)[k] == s.worker.still[0];
      assert All(s)[k + |s.worker.still|] == s.worker.todo[0];
    }
  }

  lemma {:induction false} SteadyRunInOrder(capacity: nat, states: seq<State>, steps: seq<Step>, n: nat)
    requires IsRun(capacity, states, steps) && SteadyReadiness(states, steps) && n <= |steps|
    ensures InOrder(states[n]) && HeldBackUnready(states[n])
  {
    hide Next, PrefixClosed;
    if n > 0 {
      SteadyRunInOrder(capacity, states, steps, n - 1);
      SteadyStep(states[n - 1], steps[n - 1]);
      KeepsOrder(states[n - 1], steps[n - 1]);
    }
  }

  lemma {:induction false} DeliveredAscends(exits: seq<Exit>)
    requires forall i :: 0 <= i < |exits| ==> exits[i].result == i
    ensures forall i :: 0 <= i < |Delivered(exits)| ==> Delivered(exits)[i] < |exits|
    ensures forall i, j :: 0 <= i < j < |Delivered(exits)| ==> Delivered(exits)[i] < Delivered(exits)[j]
  {
    if exits != [] {
      DeliveredAscends(exits[..|exits| - 1]);
    }
  }

  /**
    If events become ready in submission order and readiness is fixed during each pass,
    results are published in submission order and consumed in ascending order.
   */
  lemma PublicationIsSubmissionOrder(capacity: nat, states: seq<State>, steps: seq<Step>, n: nat)
    requires IsRun(capacity, states, steps) && SteadyReadiness(states, steps) && n <= |steps|
    ensures states[n].offered == Range(|states[n].offered|)
    ensures forall i, j :: 0 <= i < j < |states[n].consumed| ==> states[n].consumed[i] < states[n].consumed[j]
  {
    SteadyRunInOrder(capacity, states, steps, n);
    RunKeepsInv(capacity, states, steps, n);
    hide IsRun, SteadyReadiness, HeldBackUnready, InOrder, Fifo, Room, OnlyReady, OnePerPut, Conserved;
    OfferedFirst(states[n]);
    ConsumedAscends(states[n]);
  }

  lemma ConsumedAscends(s: State)
    requires Fifo(s) && s.offered == Range(|s.offered|)
    ensures forall i, j :: 0 <= i < j < |s.consumed| ==> s.consumed[i] < s.consumed[j]
  {
    var d := Delivered(s.exits);
    hide Delivered, Results, Range;
    forall i | 0 <= i < |s.exits|
      ensures s.exits[i].result == i
    {
      assert (Results(s.exits) + s.queue + Putting(s.worker))[i] == s.exits[i].result;
    }
    DeliveredAscends(s.exits);
    forall i | 0 <= i < |s.consumed|
      ensures s.consumed[i] == d[i]
    {
    }
  }

  /** A run with one more step, whose completions are in submission order. */
  predicate Closed(states: seq<State>, steps: seq<Step>) {
    IsRun(0, states, steps) && forall i :: 0 <= i < |states| ==> PrefixClosed(states[i].ready)
  }

  lemma Extend(states: seq<State>, steps: seq<Step>, step: Step, r: State)
      returns (states': seq<State>, steps': seq<Step>)
    requires Closed(states, steps) && Enabled(states[|steps|], step) && r == Next(states[|steps|], step)
    requires PrefixClosed(r.ready)
    ensures Closed(states', steps') && |states'| == |steps'| + 1 && |steps'| == |steps| + 1 && states'[|steps'|] == r
  {
    hide Enabled, Next, PrefixClosed;
    states', steps' := states + [r], steps + [step];
  }

  /** Completions in submission order are not enough: two of them during a pass swap the results. */
  lemma LateReadinessSwaps() returns (states: seq<State>, steps: seq<Step>)
    ensures Closed(states, steps) && states[|steps|].offered == [1, 0]
  {
    states, steps := SecondPublished();
    hide Closed;
    var s10 := State(0, 2, [], Passing([0], []), [1], None, [], {0, 1}, [], [1], false);
    var s11 := s10.(worker := Draining([0]));
    var s12 := s11.(worker := Passing([], [0]));
    var s13 := s12.(worker := Offering([], 0, []), offered := [1, 0]);
    states, steps := Extend(states, steps, EndPass, s11);
    states, steps := Extend(states, steps, BeginPass, s12);
    assert s12.worker.todo[1..] == [];
    states, steps := Extend(states, steps, Query, s13);
  }

  /** Both results become ready when the first has been looked at, and the second is published. */
  lemma SecondPublished() returns (states: seq<State>, steps: seq<Step>)
    ensures Closed(states, steps) && |states| == |steps| + 1
    ensures states[|steps|] == State(0, 2, [], Passing([0], []), [1], None, [], {0, 1}, [], [1], false)
  {
    states, steps := TwoPending();
    hide Closed;
    var s6 := State(0, 2, [], Passing([0], [1]), [], None, [], {}, [], [], false);
    var s7 := s6.(ready := {0});
    var s8 := s7.(ready := {0, 1});
    var s9 := s8.(worker := Offering([0], 1, []), offered := [1]);
    states, steps := Extend(states, steps, Complete(0), s7);
    states, steps := Extend(states, steps, Complete(1), s8);
    assert s8.worker.todo[1..] == [];
    states, steps := Extend(states, steps, Query, s9);
    states, steps := Extend(states, steps, Put, s9.(worker := Passing([0], []), queue := [1]));
  }

  lemma TwoPending() returns (states: seq<State>, steps: seq<Step>)
    ensures Closed(states, steps) && |steps| == 6
    ensures states[6] == State(0, 2, [], Passing([0], [1]), [], None, [], {}, [], [], false)
  {
    var s0 := Initial(0);
    var s1 := s0.(incoming := [0], submitted := 1);
    var s2 := s1.(incoming := [0, 1], submitted := 2);
    var s3 := s2.(worker := Draining([0]), incoming := [1]);
    var s4 := s3.(worker := Draining([0, 1]), incoming := []);
    var s5 := s4.(worker := Passing([], [0, 1]));
    var s6 := s5.(worker := Passing([0], [1]));
    states, steps := [s0], [];
    assert Closed(states, steps);
    hide Closed;
    states, steps := Extend(states, steps, Submit, s1);
    states, steps := Extend(states, steps, Submit, s2);
    states, steps := Extend(states, steps, Drain, s3);
    states, steps := Extend(states, steps, Drain, s4);
    states, steps := Extend(states, steps, BeginPass, s5);
    states, steps := Extend(states, steps, Query, s6);
  }

  // ---------- What can happen to a full queue ----------

  /** Any run with one more step. */
  lemma Append(capacity: nat, states: seq<State>, steps: seq<Step>, step: Step, r: State)
    returns (states': seq<State>, steps': seq<Step>)
    requires IsRun(capacity, states, steps) && Enabled(states[|steps|], step) && r == Next(states[|steps|], step)
    ensures IsRun(capacity, states', steps') && |states'| == |steps'| + 1 && states'[|steps'|] == r
  {
    hide Enabled, Next;
    states', steps' := states + [r], steps + [step];
  }

  /** A queue of one result, which is in it, and a second one about to be put after finding it full. */
  function FullQueue(): State {
    State(1, 2, [], Evicting([], 1, []), [0], None, [], {0, 1}, [], [0, 1], false)
  }

  /** Two results submitted and ready, with the worker about to go over them. */
  lemma BothReady() returns (states: seq<State>, steps: seq<Step>)
    ensures IsRun(1, states, steps) && |states| == |steps| + 1
    ensures states[|steps|] == State(1, 2, [], Passing([], [0, 1]), [], None, [], {0, 1}, [], [], false)
  {
    var s0 := Initial(1);
    var s1 := s0.(incoming := [0], submitted := 1);
    var s2 := s1.(incoming := [0, 1], submitted := 2);
    var s3 := s2.(worker := Draining([0]), incoming := [1]);
    var s4 := s3.(worker := Draining([0, 1]), incoming := []);
    var s5 := s4.(ready := {0});
    var s6 := s5.(ready := {0, 1});
    states, steps := [s0], [];
    states, steps := Append(1, states, steps, Submit, s1);
    hide IsRun;
    states, steps := Append(1, states, steps, Submit, s2);
    states, steps := Append(1, states, steps, Drain, s3);
    states, steps := Append(1, states, steps, Drain, s4);
    states, steps := Append(1, states, steps, Complete(0), s5);
    states, steps := Append(1, states, steps, Complete(1), s6);
    states, steps := Append(1, states, steps, BeginPass, s6.(worker := Passing([], [0, 1])));
  }

  lemma FullQueueRun() returns (states: seq<State>, steps: seq<Step>)
    ensures IsRun(1, states, steps) && |states| == |steps| + 1 && states[|steps|] == FullQueue()
  {
    states, steps := BothReady();
    hide IsRun;
    var s7 := State(1, 2, [], Passing([], [0, 1]), [], None, [], {0, 1}, [], [], false);
    var s8 := s7.(worker := Offering([], 0, [1]), offered := [0]);
    var s9 := s8.(worker := Passing([], [1]), queue := [0]);
    var s10 := s9.(worker := Offering([], 1, []), offered := [0, 1]);
    assert s7.worker.todo[1..] == [1] && s9.worker.todo[1..] == [];
    states, steps := Append(1, states, steps, Query, s8);
    states, steps := Append(1, states, steps, Put, s9);
    states, steps := Append(1, states, steps, Query, s10);
    states, steps := Append(1, states, steps, Put, FullQueue());
  }

  /** The oldest result is dropped, and the new one consumed. */
  lemma OldestCanBeEvicted() returns (states: seq<State>, steps: seq<Step>)
    ensures IsRun(1, states, steps) && |states| == |steps| + 1
    ensures states[|steps|].exits == [Evicted(0, 2), Taken(1)] && states[|steps|].consumed == [1]
  {
    states, steps := FullQueueRun();
    hide IsRun;
    var s11 := FullQueue();
    var s12 := s11.(worker := Retrying([], 1, []), queue := [], exits := [Evicted(0, 2)]);
    var s13 := s12.(worker := Passing([], []), queue := [1]);
    var s14 := s13.(hand := Some(1), queue := [], exits := [Evicted(0, 2), Taken(1)]);
    assert [0][1..] == [] && [1][1..] == [];
    states, steps := Append(1, states, steps, Evict, s12);
    states, steps := Append(1, states, steps, PutAgain, s13);
    states, steps := Append(1, states, steps, Take, s14);
    states, steps := Append(1, states, steps, Consume, s14.(hand := None, consumed := [1]));
  }

  /** The consumer empties the queue in between, and the new result is dropped with room for it. */
  lemma NewestCanBeDropped() returns (states: seq<State>, steps: seq<Step>)
    ensures IsRun(1, states, steps) && |states| == |steps| + 1
    ensures states[|steps|].exits == [Taken(0), Rejected(1, 2)] && states[|steps|].queue == []
  {
    states, steps := FullQueueRun();
    hide IsRun;
    var s11 := FullQueue();
    var s12 := s11.(hand := Some(0), queue := [], exits := [Taken(0)]);
    assert [0][1..] == [];
    states, steps := Append(1, states, steps, Take, s12);
    states, steps := Append(1, states, steps, Evict,
                            s12.(worker := Passing([], []), exits := [Taken(0), Rejected(1, 2)]));
  }

  // ---------- One pass of the worker ----------

  function Ready(results: seq<nat>, ready: set<nat>): (r: seq<nat>) {
    if results == [] then []
    else
      var rest, last := Ready(results[..|results| - 1], ready), results[|results| - 1];
      if last in ready then rest + [last] else rest
  }

  function Unready(results: seq<nat>, ready: set<nat>): seq<nat> {
    if results == [] then []
    else
      var rest, last := Unready(results[..|results| - 1], ready), results[|results| - 1];
      if last in ready then rest else rest + [last]
  }

  /** The queue after putting `results` one after another. */
  function AllPut(capacity: nat, queue: seq<nat>, results: seq<nat>): seq<nat> {
    if results == [] then queue
    else PutLatest(capacity, AllPut(capacity, queue, results[..|results| - 1]), results[|results| - 1])
  }

  /** What is left of `s` when only the newest fit. */
  function Newest(capacity: nat, s: seq<nat>): seq<nat> {
    if capacity == 0 then s else LastN(capacity, s)
  }

  lemma PutKeepsNewest(capacity: nat, s: seq<nat>, result: nat)
    ensures PutLatest(capacity, Newest(capacity, s), result) == Newest(capacity, s + [result])
  {
  }

  /** Puts in a row keep the newest results. */
  lemma {:induction false} AllPutKeepsNewest(capacity: nat, queue: seq<nat>, results: seq<nat>)
    requires Bounded(capacity, queue)
    ensures AllPut(capacity, queue, results) == Newest(capacity, queue + results)
  {
    if results == [] {
      assert queue + results == queue;
    } else {
      var n := |results| - 1;
      AllPutKeepsNewest(capacity, queue, results[..n]);
      PutKeepsNewest(capacity, queue + results[..n], results[n]);
      hide Newest, PutLatest;
      assert queue + results == queue + results[..n] + [results[n]];
    }
  }

  class InferenceResultQueue {
    const cpuQueue: Queue<nat>
    var incoming: seq<nat>
    var pending: seq<nat>

    constructor (queueSize: nat)
      ensures fresh(cpuQueue) && cpuQueue.maxsize == queueSize && cpuQueue.items == []
      ensures incoming == [] && pending == []
    {
      cpuQueue := new Queue(queueSize);
      incoming, pending := [], [];
    }

    /** Puts `result`, dropping the oldest one of a full queue; never drops `result` when alone. */
    static method PutLatest(target: Queue<nat>, result: nat)
      requires Bounded(target.maxsize, target.items)
      modifies target
      ensures target.items == BoundedQueue.PutLatest(target.maxsize, old(target.items), result)
      ensures Bounded(target.maxsize, target.items)
    {
      var ok := target.PutNowait(result);
      if !ok {
        var dropped := target.GetNowait();
        if dropped.Some? {
          ok := target.PutNowait(result);
        }
      }
    }

    /** One round of the worker while nothing else runs: `ready` are the completed results. */
    method PublishPass(ready: set<nat>)
      requires Bounded(cpuQueue.maxsize, cpuQueue.items)
      modifies this, cpuQueue
      ensures incoming == [] && pending == Unready(old(pending + incoming), ready)
      ensures cpuQueue.items == AllPut(cpuQueue.maxsize, old(cpuQueue.items), Ready(old(pending + incoming), ready))
      ensures Bounded(cpuQueue.maxsize, cpuQueue.items)
    {
      while incoming != []
        invariant pending + incoming == old(pending + incoming)
        invariant cpuQueue.items == old(cpuQueue.items)
        decreases |incoming|
      {
        pending, incoming := pending + [incoming[0]], incoming[1..];
      }
      var still := [];
      for i := 0 to |pending|
        invariant incoming == [] && pending == old(pending + incoming)
        invariant still == Unready(pending[..i], ready)
        invariant cpuQueue.items == AllPut(cpuQueue.maxsize, old(cpuQueue.items), Ready(pending[..i], ready))
        invariant Bounded(cpuQueue.maxsize, cpuQueue.items)
      {
        assert pending[..i + 1][..i] == pending[..i];
        if pending[i] in ready {
          PutLatest(cpuQueue, pending[i]);
        } else {
          still := still + [pending[i]];
        }
      }
      assert pending[..|pending|] == pending;
      pending := still;
    }
  }

  /** A pass loses nothing: ready and unready results are the pending ones. */
  lemma {:induction false} ReadyOrUnready(results: seq<nat>, ready: set<nat>)
    ensures multiset(Ready(results, ready)) + multiset(Unready(results, ready)) == multiset(results)
    ensures forall r :: r in Ready(results, ready) <==> r in results && r in ready
    ensures forall r :: r in Unready(results, ready) <==> r in results && r !in ready
  {
    if results != [] {
      ReadyOrUnready(results[..|results| - 1], ready);
      assert results == results[..|results| - 1] + [results[|results| - 1]];
    }
  }

  predicate Ascending(results: seq<nat>) {
    forall i, j :: 0 <= i < j < |results| ==> results[i] < results[j]
  }

  lemma AscendingAppend(results: seq<nat>, last: nat)
    requires Ascending(results) && forall r :: r in results ==> r < last
    ensures Ascending(results + [last])
  {
    assert forall i :: 0 <= i < |results| ==> results[i] in results;
  }

  /** ... in their order. */
  lemma {:induction false} PassKeepsOrder(results: seq<nat>, ready: set<nat>)
    requires Ascending(results)
    ensures Ascending(Ready(results, ready)) && Ascending(Unready(results, ready))
  {
    if results != [] {
      var front, last := results[..|results| - 1], results[|results| - 1];
      PassKeepsOrder(front, ready);
      ReadyOrUnready(front, ready);
      assert forall r :: r in front ==> r < last;
      hide Ascending;
      if last in ready {
        AscendingAppend(Ready(front, ready), last);
      } else {
        AscendingAppend(Unready(front, ready), last);
      }
    }
  }
}
