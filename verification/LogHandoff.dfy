/**
  Handing log records to the connected peer: the bounded record queue that drops its
  oldest record, the attached connection with its ready event, and the threads around
  them.  `LatestLogQueue` and `StreamProcess` are the two objects when their calls do not
  overlap; `LogHandoffProtocol` interleaves them.
 */
module LogHandoff {
  import opened BoundedQueue
  import opened Options

  type Record = nat
  type Connection = nat

  class LatestLogQueue {
    const items: Queue<Record>

    constructor (maxsize: nat)
      ensures fresh(items) && items.maxsize == maxsize && items.items == []
    {
      items := new Queue(maxsize);
    }

    /** `ok` is false when the last put raises that the queue is full. */
    method Put(record: Record) returns (ok: bool)
      requires Bounded(items.maxsize, items.items)
      modifies items
      ensures ok && Bounded(items.maxsize, items.items)
      ensures items.items == PutLatest(items.maxsize, old(items.items), record)
    {
      if Full(items.maxsize, items.items) {
        var oldest := items.GetNowait();
      }
      ok := items.PutNowait(record);
    }
  }

  class StreamProcess {
    var connection: Option<Connection>
    var ready: bool

    predicate Valid()
      reads this
    {
      ready <==> connection.Some?
    }

    constructor ()
      ensures Valid() && connection.None?
    {
      connection, ready := None, false;
    }

    method SetConnection(c: Connection)
      modifies this
      ensures Valid() && connection == Some(c)
    {
      connection := Some(c);
      ready := true;
    }

    /** Clears that connection and no other. */
    method ClearConnection(c: Connection)
      requires Valid()
      modifies this
      ensures Valid() && connection == if old(connection) == Some(c) then None else old(connection)
    {
      if connection == Some(c) {
        connection := None;
        ready := false;
      }
    }
  }
}

/**
  Emitters, the record sender, the heartbeat sender and the accepting thread, one shared
  access per step.  Records and connections are numbered in the order they come into
  being.  A send either succeeds or fails; the queue's lock is not the lock of its `get`,
  so the sender takes records while an emitter is in the middle of a put.
 */
module LogHandoffProtocol {
  import opened BoundedQueue
  import opened Counting
  import opened Options
  import opened LogHandoff

  /** A put holding the queue's lock, before its next operation. */
  datatype Stage = CheckFull | EvictOldest | PutRecord
  datatype Lock = Open | Putting(record: Record, stage: Stage, back: bool)

  /** A record that left the queue: taken by the sender, or discarded by the `put`-th put. */
  datatype Exit = Exit(record: Record, put: Option<nat>)

  datatype Records = Records(
    limit: nat,
    emitted: nat,
    waiting: set<Record>,
    lock: Lock,
    queue: seq<Record>,
    entered: seq<Record>,
    exits: seq<Exit>,
    sent: seq<Record>,
    putFailed: bool)

  datatype Sender =
    | Waiting | Getting
    | Looking(record: Record)
    | Sending(record: Record, connection: Connection)
    | PuttingBack(record: Record, failed: Option<Connection>)
    | InPut(failed: Option<Connection>)
    | WantClear(connection: Connection)
    | InClear(connection: Connection)

  datatype Heartbeat =
    | Resting | Beating(connection: Connection)
    | BeatFailed(connection: Connection) | BeatClearing(connection: Connection)

  datatype Acceptor =
    | Accepting
    | WantSet(connection: Connection) | InSet(connection: Connection)
    | Receiving(connection: Connection)
    | Leaving(connection: Connection) | InLeave(connection: Connection)

  datatype Thread = SenderThread | HeartbeatThread | AcceptorThread

  /** The connection lock, with the next write of its holder. */
  datatype Section =
    | Free
    | SetField(connection: Connection) | SetEvent(connection: Connection)
    | Compare(who: Thread, connection: Connection) | ClearEvent(who: Thread, connection: Connection)

  datatype Links = Links(
    connection: Option<Connection>,
    ready: bool,
    section: Section,
    sender: Sender,
    heartbeat: Heartbeat,
    acceptor: Acceptor,
    accepted: nat,
    latest: Option<Connection>,       // the connection last set
    cleared: set<Connection>)         // connections for which a clear has returned

  datatype State = State(r: Records, l: Links)

  datatype Step =
    | Emit | EmitterAcquire(record: Record) | SenderAcquire | PutStep
    | SenderWakes | SenderTimesOut | SenderGets | SenderLooks | SendSucceeds | SendFails
    | BeatLooks | BeatSucceeds | BeatFails
    | Accept | SetAcquire | Leave | ClearAcquire(who: Thread) | SectionStep

  function Initial(limit: nat): State {
    State(Records(limit, 0, {}, Open, [], [], [], [], false),
          Links(None, false, Free, Waiting, Resting, Accepting, 0, None, {}))
  }

  /** The connection a thread is about to clear. */
  function Clearing(l: Links, who: Thread): Option<Connection> {
    match who
    case SenderThread => if l.sender.WantClear? then Some(l.sender.connection) else None
    case HeartbeatThread => if l.heartbeat.BeatFailed? then Some(l.heartbeat.connection) else None
    case AcceptorThread => if l.acceptor.Leaving? then Some(l.acceptor.connection) else None
  }

  predicate Enabled(s: State, step: Step) {
    match step
    case Emit => true
    case EmitterAcquire(record) => s.r.lock.Open? && record in s.r.waiting
    case SenderAcquire => s.r.lock.Open? && s.l.sender.PuttingBack?
    case PutStep => s.r.lock.Putting?
    case SenderWakes => s.l.sender.Waiting? && s.l.ready
    case SenderTimesOut => s.l.sender.Getting?
    case SenderGets => s.l.sender.Getting? && s.r.queue != []
    case SenderLooks => s.l.sender.Looking? && s.l.section.Free?
    case SendSucceeds => s.l.sender.Sending?
    case SendFails => s.l.sender.Sending?
    case BeatLooks => s.l.heartbeat.Resting? && s.l.section.Free?
    case BeatSucceeds => s.l.heartbeat.Beating?
    case BeatFails => s.l.heartbeat.Beating?
    case Accept => s.l.acceptor.Accepting?
    case SetAcquire => s.l.acceptor.WantSet? && s.l.section.Free?
    case Leave => s.l.acceptor.Receiving?
    case ClearAcquire(who) => s.l.section.Free? && Clearing(s.l, who).Some?
    case SectionStep => !s.l.section.Free?
  }

  /** The next operation of the put that holds the queue's lock. */
  function PutNext(r: Records): Records
    requires r.lock.Putting?
  {
    match r.lock.stage
    case CheckFull =>
      r.(lock := r.lock.(stage := if Full(r.limit, r.queue) then EvictOldest else PutRecord))
    case EvictOldest =>
      if r.queue == [] then r.(lock := r.lock.(stage := PutRecord))
      else r.(lock := r.lock.(stage := PutRecord), queue := r.queue[1..],
              exits := r.exits + [Exit(r.queue[0], Some(|r.entered|))])
    case PutRecord =>
      if Full(r.limit, r.queue) then r.(lock := Open, putFailed := true)
      else r.(lock := Open, queue := r.queue + [r.lock.record], entered := r.entered + [r.lock.record])
  }

  function RecordsNext(s: State, step: Step): Records
    requires Enabled(s, step)
  {
    var r := s.r;
    match step
    case Emit => r.(waiting := r.waiting + {r.emitted}, emitted := r.emitted + 1)
    case EmitterAcquire(record) => r.(lock := Putting(record, CheckFull, false), waiting := r.waiting - {record})
    case SenderAcquire => r.(lock := Putting(s.l.sender.record, CheckFull, true))
    case PutStep => PutNext(r)
    case SenderGets => r.(queue := r.queue[1..], exits := r.exits + [Exit(r.queue[0], None)])
    case SendSucceeds => r.(sent := r.sent + [s.l.sender.record])
    case _ => r
  }

  /** Leaving the section after a clear. */
  function Cleared(l: Links, who: Thread, c: Connection): Links {
    var l' := l.(section := Free, cleared := l.cleared + {c});
    match who
    case SenderThread => l'.(sender := Waiting)
    case HeartbeatThread => l'.(heartbeat := Resting)
    case AcceptorThread => l'.(acceptor := Accepting)
  }

  function SectionNext(l: Links): Links
    requires !l.section.Free?
  {
    match l.section
    case SetField(c) => l.(section := SetEvent(c), connection := Some(c), latest := Some(c))
    case SetEvent(c) => l.(section := Free, ready := true, acceptor := Receiving(c))
    case Compare(who, c) =>
      if l.connection == Some(c) then l.(section := ClearEvent(who, c), connection := None)
      else Cleared(l, who, c)
    case ClearEvent(who, c) => Cleared(l.(ready := false), who, c)
  }

  function LinksNext(s: State, step: Step): Links
    requires Enabled(s, step)
  {
    var l := s.l;
    match step
    case Emit => l
    case EmitterAcquire(_) => l
    case SenderAcquire => l.(sender := InPut(l.sender.failed))
    case PutStep =>
      if s.r.lock.stage.PutRecord? && s.r.lock.back && l.sender.InPut? then
        l.(sender := if l.sender.failed.Some? then WantClear(l.sender.failed.value) else Waiting)
      else l
    case SenderWakes => l.(sender := Getting)
    case SenderTimesOut => l.(sender := Waiting)
    case SenderGets => l.(sender := Looking(s.r.queue[0]))
    case SenderLooks =>
      l.(sender := if l.connection.Some? then Sending(l.sender.record, l.connection.value)
                   else PuttingBack(l.sender.record, None))
    case SendSucceeds => l.(sender := Waiting)
    case SendFails => l.(sender := PuttingBack(l.sender.record, Some(l.sender.connection)))
    case BeatLooks => if l.connection.Some? then l.(heartbeat := Beating(l.connection.value)) else l
    case BeatSucceeds => l.(heartbeat := Resting)
    case BeatFails => l.(heartbeat := BeatFailed(l.heartbeat.connection))
    case Accept => l.(acceptor := WantSet(l.accepted), accepted := l.accepted + 1)
    case SetAcquire => l.(section := SetField(l.acceptor.connection), acceptor := InSet(l.acceptor.connection))
    case Leave => l.(acceptor := Leaving(l.acceptor.connection))
    case ClearAcquire(who) =>
      var l' := l.(section := Compare(who, Clearing(l, who).value));
      (match who
       case SenderThread => l'.(sender := InClear(l.sender.connection))
       case HeartbeatThread => l'.(heartbeat := BeatClearing(l.heartbeat.connection))
       case AcceptorThread => l'.(acceptor := InLeave(l.acceptor.connection)))
    case SectionStep => SectionNext(l)
  }

  function Next(s: State, step: Step): State
    requires Enabled(s, step)
  {
    State(RecordsNext(s, step), LinksNext(s, step))
  }

  // ---------- Connections ----------

  /** The connection set last, unless a clear of that very connection has returned. */
  function Attached(l: Links): Option<Connection> {
    if l.latest.Some? && l.latest.value !in l.cleared then l.latest else None
  }

  predicate Known(l: Links, c: Connection) {
    l.latest.Some? && c <= l.latest.value
  }

  predicate SenderKnows(l: Links) {
    match l.sender
    case Sending(_, c) => Known(l, c)
    case PuttingBack(_, failed) => failed.Some? ==> Known(l, failed.value)
    case InPut(failed) => failed.Some? ==> Known(l, failed.value)
    case WantClear(c) => Known(l, c)
    case InClear(c) => Known(l, c)
    case _ => true
  }

  predicate HeartbeatKnows(l: Links) {
    !l.heartbeat.Resting? ==> Known(l, l.heartbeat.connection)
  }

  /** Only the accepting thread brings in connections, and it clears one before the next. */
  predicate AcceptorOk(l: Links) {
    match l.acceptor
    case Accepting => l.latest.Some? ==> l.latest.value in l.cleared && l.latest.value < l.accepted
    case WantSet(c) => Unset(l, c)
    case InSet(c) => if l.section.SetEvent? then l.latest == Some(c) && c < l.accepted else Unset(l, c)
    case Receiving(c) => l.latest == Some(c) && c < l.accepted
    case Leaving(c) => l.latest == Some(c) && c < l.accepted
    case InLeave(c) => l.latest == Some(c) && c < l.accepted
  }

  predicate Unset(l: Links, c: Connection) {
    c < l.accepted && (l.latest.Some? ==> l.latest.value in l.cleared && l.latest.value < c)
  }

  /** Who holds the connection lock, for what. */
  predicate HolderOk(l: Links) {
    && (l.acceptor.InSet? <==> l.section.SetField? || l.section.SetEvent?)
    && (l.section.SetField? || l.section.SetEvent? ==> l.acceptor == InSet(l.section.connection))
    && (l.section.Compare? || l.section.ClearEvent? ==>
          match l.section.who
          case SenderThread => l.sender == InClear(l.section.connection)
          case HeartbeatThread => l.heartbeat == BeatClearing(l.section.connection)
          case AcceptorThread => l.acceptor == InLeave(l.section.connection))
    && (l.acceptor.InLeave? ==> (l.section.Compare? || l.section.ClearEvent?) && l.section.who.AcceptorThread?)
  }

  /** The field and the event, between and during the writes. */
  predicate FieldsOk(l: Links) {
    && (forall c :: c in l.cleared ==> Known(l, c))
    && match l.section
       case SetEvent(c) => l.connection == Some(c) && l.latest == Some(c) && c !in l.cleared
       case ClearEvent(_, c) => l.connection.None? && l.latest == Some(c)
       case _ => l.connection == Attached(l) && (l.ready <==> l.connection.Some?)
  }

  predicate LinksOk(l: Links) {
    SenderKnows(l) && HeartbeatKnows(l) && AcceptorOk(l) && HolderOk(l) && FieldsOk(l)
  }

  lemma KeepsSenderKnows(s: State, step: Step)
    requires LinksOk(s.l) && Enabled(s, step)
    ensures SenderKnows(LinksNext(s, step))
  {
  }

  lemma KeepsHeartbeatKnows(s: State, step: Step)
    requires LinksOk(s.l) && Enabled(s, step)
    ensures HeartbeatKnows(LinksNext(s, step))
  {
  }

  lemma KeepsAcceptor(s: State, step: Step)
    requires LinksOk(s.l) && Enabled(s, step)
    ensures AcceptorOk(LinksNext(s, step))
  {
  }

  lemma KeepsHolder(s: State, step: Step)
    requires LinksOk(s.l) && Enabled(s, step)
    ensures HolderOk(LinksNext(s, step))
  {
  }

  lemma KeepsFields(s: State, step: Step)
    requires LinksOk(s.l) && Enabled(s, step)
    ensures FieldsOk(LinksNext(s, step))
  {
  }

  // ---------- Records ----------

  function RecordsOf(exits: seq<Exit>): (r: seq<Record>)
    ensures |r| == |exits| && forall i :: 0 <= i < |r| ==> r[i] == exits[i].record
  {
    if exits == [] then [] else RecordsOf(exits[..|exits| - 1]) + [exits[|exits| - 1].record]
  }

  /** How often `record` was discarded. */
  function Discards(exits: seq<Exit>, record: Record): nat {
    if exits == [] then 0
    else
      var last := exits[|exits| - 1];
      Discards(exits[..|exits| - 1], record) + if last.put.Some? && last.record == record then 1 else 0
  }

  /** Whether the sender holds `record`. */
  function InHand(sender: Sender, record: Record): nat {
    if (sender.Looking? || sender.Sending? || sender.PuttingBack?) && sender.record == record then 1 else 0
  }

  function BeingPut(lock: Lock, record: Record): nat {
    if lock.Putting? && lock.record == record then 1 else 0
  }

  /** In how many places a record is. */
  function Times(s: State, record: Record): nat {
    (if record in s.r.waiting then 1 else 0) + BeingPut(s.r.lock, record) + Count(s.r.queue, record)
    + InHand(s.l.sender, record) + Count(s.r.sent, record) + Discards(s.r.exits, record)
  }

  ghost predicate Conserved(s: State) {
    forall record: Record :: Times(s, record) == if record < s.r.emitted then 1 else 0
  }

  /** The queue keeps its limit, and a put that reaches its last operation finds room. */
  predicate Room(r: Records) {
    && Bounded(r.limit, r.queue) && !r.putFailed
    && (r.lock.Putting? && r.lock.stage.EvictOldest? ==> r.limit > 0)
    && (r.lock.Putting? && r.lock.stage.PutRecord? ==> !Full(r.limit, r.queue))
  }

  predicate Fifo(r: Records) {
    RecordsOf(r.exits) + r.queue == r.entered
  }

  predicate PutIs(s: State) {
    s.l.sender.InPut? <==> s.r.lock.Putting? && s.r.lock.back
  }

  predicate DiscardOk(r: Records, i: nat)
    requires i < |r.exits|
  {
    r.exits[i].put.Some? ==> i < r.exits[i].put.value <= i + r.limit && r.exits[i].put.value <= |r.entered|
  }

  /** Each put discards at most one record, one that was in the queue. */
  predicate OnePerPut(r: Records) {
    && (forall i :: 0 <= i < |r.exits| ==> DiscardOk(r, i))
    && (forall i, j :: 0 <= i < j < |r.exits| && r.exits[i].put.Some? && r.exits[j].put.Some? ==>
          r.exits[i].put.value < r.exits[j].put.value)
    && (!(r.lock.Putting? && r.lock.stage.PutRecord?) ==>
          forall i :: 0 <= i < |r.exits| && r.exits[i].put.Some? ==> r.exits[i].put.value < |r.entered|)
  }

  ghost predicate Inv(s: State) {
    LinksOk(s.l) && PutIs(s) && Conserved(s) && Room(s.r) && Fifo(s.r) && OnePerPut(s.r)
  }

  lemma ExitsAppend(exits: seq<Exit>, e: Exit, record: Record)
    ensures RecordsOf(exits + [e]) == RecordsOf(exits) + [e.record]
    ensures Discards(exits + [e], record) == Discards(exits, record) + if e.put.Some? && e.record == record then 1
        else 0
  {
    assert (exits + [e])[..|exits|] == exits;
  }

  lemma KeepsPutIs(s: State, step: Step)
    requires PutIs(s) && HolderOk(s.l) && Enabled(s, step)
    ensures PutIs(Next(s, step))
  {
  }

  lemma KeepsRoom(s: State, step: Step)
    requires Room(s.r) && Enabled(s, step)
    ensures Room(RecordsNext(s, step))
  {
  }

  lemma HeadLeaves(exits: seq<Exit>, queue: seq<Record>, put: Option<nat>)
    requires queue != []
    ensures RecordsOf(exits + [Exit(queue[0], put)]) + queue[1..] == RecordsOf(exits) + queue
  {
    var before := RecordsOf(exits);
    ExitsAppend(exits, Exit(queue[0], put), 0);
    hide RecordsOf;
    assert before + [queue[0]] + queue[1..] == before + queue;
  }

  lemma KeepsFifo(s: State, step: Step)
    requires Fifo(s.r) && Room(s.r) && Enabled(s, step)
    ensures Fifo(RecordsNext(s, step))
  {
    var r := s.r;
    hide RecordsOf;
    if step.SenderGets? {
      HeadLeaves(r.exits, r.queue, None);
    } else if step.PutStep? && r.lock.stage.EvictOldest? && r.queue != [] {
      HeadLeaves(r.exits, r.queue, Some(|r.entered|));
    } else if step.PutStep? && r.lock.stage.PutRecord? {
      assert RecordsOf(r.exits) + (r.queue + [r.lock.record]) == RecordsOf(r.exits) + r.queue + [r.lock.record];
    }
  }

  lemma FifoCounts(r: Records)
    requires Fifo(r)
    ensures |r.exits| + |r.queue| == |r.entered|
  {
    hide RecordsOf;
  }

  lemma PutsWithinEntered(r: Records)
    requires OnePerPut(r)
    ensures forall i :: 0 <= i < |r.exits| && r.exits[i].put.Some? ==> r.exits[i].put.value <= |r.entered|
  {
    forall i | 0 <= i < |r.exits| && r.exits[i].put.Some?
      ensures r.exits[i].put.value <= |r.entered|
    {
      assert DiscardOk(r, i);
    }
  }

  lemma KeepsDiscards(s: State, step: Step)
    requires |s.r.exits| + |s.r.queue| == |s.r.entered|
    requires Room(s.r) && OnePerPut(s.r) && Enabled(s, step)
    ensures var r := RecordsNext(s, step); forall i :: 0 <= i < |r.exits| ==> DiscardOk(r, i)
  {
    var r := RecordsNext(s, step);
    forall i | 0 <= i < |r.exits|
      ensures DiscardOk(r, i)
    {
      if i < |s.r.exits| {
        assert DiscardOk(s.r, i) && r.exits[i] == s.r.exits[i];
      }
    }
  }

  lemma KeepsOnePerPut(s: State, step: Step)
    requires |s.r.exits| + |s.r.queue| == |s.r.entered|
    requires Room(s.r) && OnePerPut(s.r) && Enabled(s, step)
    ensures OnePerPut(RecordsNext(s, step))
  {
    KeepsDiscards(s, step);
    PutsWithinEntered(s.r);
    hide DiscardOk;
  }

  /** A record moves from one place to the next; emitting puts a new one in its first place. */
  lemma MovesOnce(s: State, step: Step, record: Record)
    requires Room(s.r) && PutIs(s) && HolderOk(s.l) && Enabled(s, step)
    requires step.Emit? ==> s.r.emitted !in s.r.waiting
    ensures Times(Next(s, step), record) == Times(s, record) + if step.Emit? && record == s.r.emitted then 1 else 0
  {
    hide Discards, Count;
    if step.PutStep? {
      PutMovesOnce(s, record);
    } else if step.SenderGets? {
      GetMovesOnce(s, record);
    } else if step.SendSucceeds? {
      CountAppend(s.r.sent, s.l.sender.record, record);
    } else if !(step.Emit? || step.EmitterAcquire? || step.SenderAcquire?) {
      SameRecords(s, step);
      hide Next;
    }
  }

  lemma GetMovesOnce(s: State, record: Record)
    requires Enabled(s, SenderGets)
    ensures Times(Next(s, SenderGets), record) == Times(s, record)
  {
    hide Discards, Count, RecordsOf;
    ExitsAppend(s.r.exits, Exit(s.r.queue[0], None), record);
    CountHead(s.r.queue, record);
  }

  lemma PutMovesOnce(s: State, record: Record)
    requires Room(s.r) && PutIs(s) && s.r.lock.Putting?
    ensures Times(Next(s, PutStep), record) == Times(s, record)
  {
    var r := s.r;
    assert InHand(LinksNext(s, PutStep).sender, record) == InHand(s.l.sender, record);
    hide LinksNext, Discards, Count, RecordsOf;
    if r.lock.stage.EvictOldest? && r.queue != [] {
      ExitsAppend(r.exits, Exit(r.queue[0], Some(|r.entered|)), record);
      CountHead(r.queue, record);
    } else if r.lock.stage.PutRecord? {
      CountAppend(r.queue, r.lock.record, record);
    }
  }

  /** The other steps move no record. */
  lemma SameRecords(s: State, step: Step)
    requires PutIs(s) && HolderOk(s.l) && Enabled(s, step)
    requires !step.PutStep? && !step.Emit? && !step.SenderGets? && !step.EmitterAcquire?
    requires !step.SenderAcquire? && !step.SendSucceeds?
    ensures Next(s, step).r == s.r
    ensures forall record :: InHand(Next(s, step).l.sender, record) == InHand(s.l.sender, record)
  {
  }

  lemma EmittedAfter(s: State, step: Step)
    requires Enabled(s, step)
    ensures Next(s, step).r.emitted == s.r.emitted + if step.Emit? then 1 else 0
  {
  }

  lemma KeepsConserved(s: State, step: Step)
    requires Conserved(s) && Room(s.r) && PutIs(s) && HolderOk(s.l) && Enabled(s, step)
    ensures Conserved(Next(s, step))
  {
    assert s.r.emitted !in s.r.waiting by {
      assert Times(s, s.r.emitted) == 0;
    }
    EmittedAfter(s, step);
    hide Next, Times;
    forall record: Record
      ensures Times(Next(s, step), record) == if record < Next(s, step).r.emitted then 1 else 0
    {
      MovesOnce(s, step, record);
    }
  }

  lemma InvStep(s: State, step: Step)
    requires Inv(s) && Enabled(s, step)
    ensures Inv(Next(s, step))
  {
    hide RecordsNext, LinksNext, Conserved, Room, PutIs, OnePerPut;
    KeepsSenderKnows(s, step);
    KeepsHeartbeatKnows(s, step);
    KeepsAcceptor(s, step);
    KeepsHolder(s, step);
    KeepsFields(s, step);
    KeepsPutIs(s, step);
    KeepsConserved(s, step);
    KeepsRoom(s, step);
    KeepsFifo(s, step);
    FifoCounts(s.r);
    KeepsOnePerPut(s, step);
  }

  // ---------- Whole runs ----------

  predicate IsRun(limit: nat, states: seq<State>, steps: seq<Step>) {
    && |states| == |steps| + 1 && states[0] == Initial(limit)
    && forall i :: 0 <= i < |steps| ==> Enabled(states[i], steps[i]) && states[i + 1] == Next(states[i], steps[i])
  }

  lemma InitialOk(limit: nat)
    ensures Inv(Initial(limit))
  {
  }

  lemma LimitFixed(s: State, step: Step)
    requires Enabled(s, step)
    ensures Next(s, step).r.limit == s.r.limit
  {
  }

  lemma {:induction false} RunKeepsInv(limit: nat, states: seq<State>, steps: seq<Step>, n: nat)
    requires IsRun(limit, states, steps) && n <= |steps|
    ensures Inv(states[n]) && states[n].r.limit == limit
  {
    hide Inv, Next;
    if n == 0 {
      InitialOk(limit);
    } else {
      RunKeepsInv(limit, states, steps, n - 1);
      InvStep(states[n - 1], steps[n - 1]);
      LimitFixed(states[n - 1], steps[n - 1]);
    }
  }

  /** In every interleaving the queue keeps its limit and no put finds it full. */
  lemma PutNeverFindsFull(limit: nat, states: seq<State>, steps: seq<Step>, n: nat)
    requires IsRun(limit, states, steps) && n <= |steps|
    ensures !states[n].r.putFailed && Bounded(limit, states[n].r.queue)
  {
    hide LinksOk, PutIs, Conserved, Fifo, OnePerPut;
    RunKeepsInv(limit, states, steps, n);
  }

  /**
    At every moment each emitted record is in exactly one place: waiting for the queue's
    lock, being put, queued, in the sender's hand, sent, or discarded; and no other is.
   */
  lemma EveryRecordIsInOnePlace(limit: nat, states: seq<State>, steps: seq<Step>, n: nat, record: Record)
    requires IsRun(limit, states, steps) && n <= |steps|
    ensures Times(states[n], record) == if record < states[n].r.emitted then 1 else 0
  {
    hide LinksOk, PutIs, Room, Fifo, OnePerPut, Times;
    RunKeepsInv(limit, states, steps, n);
  }

  /**
    Records leave the queue in the order in which they entered it, so what a put discards
    is the oldest one, entered at most `limit` puts before; and no two are discarded by
    the same put.
   */
  lemma PutsDiscardTheOldest(limit: nat, states: seq<State>, steps: seq<Step>, n: nat, i: nat)
    requires IsRun(limit, states, steps) && n <= |steps| && i < |states[n].r.exits|
    ensures var r := states[n].r;
            && i < |r.entered| && r.exits[i].record == r.entered[i]
            && (r.exits[i].put.Some? ==> i < r.exits[i].put.value <= i + limit)
            && (r.exits[i].put.Some? ==> forall j :: 0 <= j < |r.exits| && j != i ==> r.exits[j].put != r.exits[i].put)
  {
    RunKeepsInv(limit, states, steps, n);
    hide LinksOk, PutIs, Room, Conserved;
    var r := states[n].r;
    assert (RecordsOf(r.exits) + r.queue)[i] == r.exits[i].record;
    assert DiscardOk(r, i);
  }

  /**
    Whenever the connection lock is free, the ready event is set exactly if a connection
    is attached, and that is the one set last unless a clear of that very connection has
    returned: clearing an older one never detaches it.
   */
  lemma LatestStaysAttached(limit: nat, states: seq<State>, steps: seq<Step>, n: nat)
    requires IsRun(limit, states, steps) && n <= |steps| && states[n].l.section.Free?
    ensures var l := states[n].l;
            && (l.ready <==> l.connection.Some?)
            && (forall c :: l.connection == Some(c) <==> l.latest == Some(c) && c !in l.cleared)
  {
    hide PutIs, Room, Conserved, Fifo, OnePerPut;
    RunKeepsInv(limit, states, steps, n);
  }

  /** A clear touches the connection and the event only if its connection is the one set last. */
  lemma OldClearChangesNothing(limit: nat, states: seq<State>, steps: seq<Step>, n: nat)
    requires IsRun(limit, states, steps) && n < |steps| && steps[n].SectionStep?
    requires states[n].l.section.Compare? || states[n].l.section.ClearEvent?
    requires states[n].l.latest != Some(states[n].l.section.connection)
    ensures states[n + 1].l.connection == states[n].l.connection && states[n + 1].l.ready == states[n].l.ready
  {
    hide PutIs, Room, Conserved, Fifo, OnePerPut;
    RunKeepsInv(limit, states, steps, n);
    assert states[n + 1] == Next(states[n], steps[n]);
  }

  /** A connection is only set once the one before has been detached. */
  lemma SetReplacesNothing(limit: nat, states: seq<State>, steps: seq<Step>, n: nat)
    requires IsRun(limit, states, steps) && n <= |steps| && states[n].l.section.SetField?
    ensures states[n].l.connection.None? && !states[n].l.ready
    ensures states[n].l.latest.Some? ==> states[n].l.latest.value < states[n].l.section.connection
  {
    hide PutIs, Room, Conserved, Fifo, OnePerPut;
    RunKeepsInv(limit, states, steps, n);
  }

  /** The put that holds the queue's lock is about to discard a record. */
  predicate Discarding(r: Records) {
    r.lock.Putting? && r.lock.stage.EvictOldest?
  }

  lemma DiscardingComesFrom(s: State, step: Step)
    requires Enabled(s, step) && Discarding(RecordsNext(s, step))
    ensures Discarding(s.r)
            || (step.PutStep? && s.r.lock.stage.CheckFull? && 0 < s.r.limit <= |s.r.queue|)
    ensures s.r.lock.Putting? && RecordsNext(s, step).lock.record == s.r.lock.record
  {
  }

  lemma NotDiscarding(limit: nat)
    ensures !Discarding(Initial(limit).r)
  {
  }

  /** A put discards only if it has found the queue holding as many records as its limit. */
  lemma {:induction false} DiscardsOnlyWhenFull(
    limit: nat, states: seq<State>, steps: seq<Step>, n: nat) returns (m: nat)
    requires IsRun(limit, states, steps) && n <= |steps| && Discarding(states[n].r)
    ensures m < n && steps[m].PutStep? && |states[m].r.queue| == limit > 0
    ensures states[m].r.lock.Putting? && states[m].r.lock.record == states[n].r.lock.record
  {
    if n == 0 {
      NotDiscarding(limit);
    } else {
      DiscardingComesFrom(states[n - 1], steps[n - 1]);
      RunKeepsInv(limit, states, steps, n - 1);
      hide RecordsNext, LinksNext, LinksOk, Conserved, Fifo, OnePerPut;
      if Discarding(states[n - 1].r) {
        m := DiscardsOnlyWhenFull(limit, states, steps, n - 1);
      } else {
        m := n - 1;
      }
    }
  }

  // ---------- A record's way ----------

  lemma Append(limit: nat, states: seq<State>, steps: seq<Step>, step: Step, r: State)
    returns (states': seq<State>, steps': seq<Step>)
    requires IsRun(limit, states, steps) && Enabled(states[|steps|], step) && r == Next(states[|steps|], step)
    ensures IsRun(limit, states', steps') && |states'| == |steps'| + 1 && states'[|steps'|] == r
  {
    hide Enabled, Next;
    states', steps' := states + [r], steps + [step];
  }

  /** A connection is attached. */
  lemma ConnectedRun(limit: nat) returns (states: seq<State>, steps: seq<Step>)
    ensures IsRun(limit, states, steps) && |states| == |steps| + 1
    ensures states[|steps|]
         == State(Initial(limit).r, Links(Some(0), true, Free, Waiting, Resting, Receiving(0), 1, Some(0), {}))
  {
    var s0 := Initial(limit);
    var s1 := s0.(l := s0.l.(acceptor := WantSet(0), accepted := 1));
    var s2 := s1.(l := s1.l.(section := SetField(0), acceptor := InSet(0)));
    var s3 := s2.(l := s2.l.(section := SetEvent(0), connection := Some(0), latest := Some(0)));
    states, steps := [s0], [];
    states, steps := Append(limit, states, steps, Accept, s1);
    hide IsRun;
    states, steps := Append(limit, states, steps, SetAcquire, s2);
    states, steps := Append(limit, states, steps, SectionStep, s3);
    states, steps := Append(limit, states, steps, SectionStep,
                            s3.(l := s3.l.(section := Free, ready := true, acceptor := Receiving(0))));
  }

  /** A record is in the sender's hand, and the sender has the connection. */
  function InHandState(limit: nat): State {
    State(Records(limit, 1, {}, Open, [], [0], [Exit(0, None)], [], false),
          Links(Some(0), true, Free, Sending(0, 0), Resting, Receiving(0), 1, Some(0), {}))
  }

  lemma InHandRun(limit: nat) returns (states: seq<State>, steps: seq<Step>)
    ensures IsRun(limit, states, steps) && |states| == |steps| + 1 && states[|steps|] == InHandState(limit)
  {
    states, steps := ConnectedRun(limit);
    hide IsRun;
    var l := Links(Some(0), true, Free, Waiting, Resting, Receiving(0), 1, Some(0), {});
    var s4 := State(Records(limit, 1, {0}, Open, [], [], [], [], false), l);
    var s5 := s4.(r := Records(limit, 1, {}, Putting(0, CheckFull, false), [], [], [], [], false));
    var s6 := s5.(r := s5.r.(lock := Putting(0, PutRecord, false)));
    var s7 := s6.(r := Records(limit, 1, {}, Open, [0], [0], [], [], false));
    var s8 := s7.(l := l.(sender := Getting));
    var s9 := State(Records(limit, 1, {}, Open, [], [0], [Exit(0, None)], [], false), l.(sender := Looking(0)));
    assert {0} - {0} == {} && [0][1..] == [];
    states, steps := Append(limit, states, steps, Emit, s4);
    states, steps := Append(limit, states, steps, EmitterAcquire(0), s5);
    states, steps := Append(limit, states, steps, PutStep, s6);
    states, steps := Append(limit, states, steps, PutStep, s7);
    states, steps := Append(limit, states, steps, SenderWakes, s8);
    states, steps := Append(limit, states, steps, SenderGets, s9);
    states, steps := Append(limit, states, steps, SenderLooks, InHandState(limit));
  }

  /** The send succeeds: the record is sent. */
  lemma RecordCanBeSent(limit: nat) returns (states: seq<State>, steps: seq<Step>)
    ensures IsRun(limit, states, steps) && |states| == |steps| + 1
    ensures states[|steps|].r.sent == [0] && states[|steps|].l.connection == Some(0)
  {
    states, steps := InHandRun(limit);
    hide IsRun;
    states, steps := Append(limit, states, steps, SendSucceeds, Next(InHandState(limit), SendSucceeds));
  }

  /** It fails: the record is back in the queue, and the connection is detached. */
  lemma FailedRecordReturns(limit: nat) returns (states: seq<State>, steps: seq<Step>)
    ensures IsRun(limit, states, steps) && |states| == |steps| + 1
    ensures var s := states[|steps|];
            s.r.queue == [0] && s.r.sent == [] && s.l.connection.None? && !s.l.ready && s.l.cleared == {0}
  {
    states, steps := InHandRun(limit);
    hide IsRun;
    var s10 := InHandState(limit);
    var s11 := s10.(l := s10.l.(sender := PuttingBack(0, Some(0))));
    var s12 := State(s10.r.(lock := Putting(0, CheckFull, true)), s10.l.(sender := InPut(Some(0))));
    var s13 := s12.(r := s10.r.(lock := Putting(0, PutRecord, true)));
    var s14 := State(s10.r.(queue := [0], entered := [0, 0]), s10.l.(sender := WantClear(0)));
    var s15 := s14.(l := s14.l.(section := Compare(SenderThread, 0), sender := InClear(0)));
    var s16 := s15.(l := s15.l.(section := ClearEvent(SenderThread, 0), connection := None));
    states, steps := Append(limit, states, steps, SendFails, s11);
    states, steps := Append(limit, states, steps, SenderAcquire, s12);
    states, steps := Append(limit, states, steps, PutStep, s13);
    states, steps := Append(limit, states, steps, PutStep, s14);
    states, steps := Append(limit, states, steps, ClearAcquire(SenderThread), s15);
    states, steps := Append(limit, states, steps, SectionStep, s16);
    states, steps := Append(limit, states, steps, SectionStep, Next(s16, SectionStep));
  }
}
