/**
  The supervisor's threads around its connections, one critical section or one call per
  step: the openers, one receiver per opened connection, closers, the heartbeat monitor,
  and the publication of status events, which happens outside the lock.  A connection
  object is opened once.
 */
module ConnectionProtocol {
  import opened Options
  import opened Counting
  import opened Supervisor
  import S = StreamConnection

  /** The opening thread, by its next operation. */
  datatype Opener = Connecting | Attaching | Announcing | Starting | Registering | Registered | Refused

  /** The receiver thread, by its next operation. */
  datatype Receiver =
    | NotStarted | Checking | Reading | Stamping | Marking
    | Finishing | Evicting | Stopping | Finished

  datatype Conn = Conn(
    process: ProcessId,
    link: S.Link,
    opener: Opener,
    receiver: Receiver,
    connectedCalls: nat,
    closedCalls: nat)

  /**
    Statuses, and every change so far; and the numbers of the changes whose event is to be
    published, was published, or was skipped for want of a publisher.
   */
  datatype Board = Board(
    statuses: map<ProcessId, bool>,
    publisher: bool,
    changes: seq<Change>,
    pending: seq<nat>,
    published: seq<nat>,
    skipped: seq<nat>)

  /** A round of the monitor: what it saw when, and the processes it has yet to stop. */
  datatype Round = Round(at: int, seen: map<ProcessId, int>, left: set<ProcessId>)

  datatype State = State(
    timeout: int,
    now: int,
    conns: seq<Conn>,
    children: map<ProcessId, ConnectionId>,
    latest: map<ProcessId, ConnectionId>,      // last registered connection per process
    late: set<ConnectionId>,                   // registered after their closed callback had looked for them
    heartbeats: map<ProcessId, int>,
    round: Option<Round>,
    board: Board)

  datatype Act =
    | Connect | ConnectFails | Attach(pipe: S.RawConnection) | Announce | Start | Register
    | Close
    | Check | Receive(heartbeat: bool) | ReceiveEnds | Stamp | Mark | NotifyClosed | Evict | Stop

  datatype Step =
    | New(process: ProcessId) | On(c: ConnectionId, act: Act)
    | Tick(d: nat) | Look | Expire(process: ProcessId) | RoundEnds
    | SetPublisher | Publish(i: nat)

  function Initial(timeout: int, now: int): State {
    State(timeout, now, [], map[], map[], {}, map[], None, Board(map[], false, [], [], [], []))
  }

  predicate ActEnabled(conn: Conn, act: Act) {
    match act
    case Connect => conn.opener.Connecting?
    case ConnectFails => conn.opener.Connecting?
    case Attach(_) => conn.opener.Attaching?
    case Announce => conn.opener.Announcing?
    case Start => conn.opener.Starting?
    case Register => conn.opener.Registering?
    case Close => true
    case Check => conn.receiver.Checking?
    case Receive(_) => conn.receiver.Reading?
    case ReceiveEnds => conn.receiver.Reading?
    case Stamp => conn.receiver.Stamping?
    case Mark => conn.receiver.Marking?
    case NotifyClosed => conn.receiver.Finishing?
    case Evict => conn.receiver.Evicting?
    case Stop => conn.receiver.Stopping?
  }

  predicate Enabled(s: State, step: Step) {
    match step
    case New(_) => true
    case On(c, act) => c < |s.conns| && ActEnabled(s.conns[c], act)
    case Tick(_) => true
    case Look => s.round.None?
    case Expire(p) => s.round.Some? && p in s.round.value.left
    case RoundEnds => s.round.Some? && s.round.value.left == {}
    case SetPublisher => true
    case Publish(i) => i < |s.board.pending|
  }

  /** A connection after one operation on it. */
  function ConnNext(conn: Conn, act: Act): Conn
    requires ActEnabled(conn, act)
  {
    match act
    case Connect => conn.(opener := Attaching)
    case ConnectFails => conn.(opener := Refused)
    case Attach(pipe) =>
      conn.(link := conn.link.Attached(pipe), opener := if conn.link.closing then Refused else Announcing)
    case Announce => conn.(connectedCalls := conn.connectedCalls + 1, opener := Starting)
    case Start => conn.(receiver := Checking, opener := Registering)
    case Register => conn.(opener := Registered)
    case Close => conn.(link := conn.link.Closed())
    case Check => conn.(receiver := if conn.link.IsOpen() then Reading else Finishing)
    case Receive(heartbeat) => conn.(receiver := if heartbeat then Stamping else Checking)
    case ReceiveEnds => conn.(receiver := Finishing)
    case Stamp => conn.(receiver := Marking)
    case Mark => conn.(receiver := Checking)
    case NotifyClosed =>
      conn.(link := conn.link.Notified(), receiver := if conn.link.notified then Finished else Evicting)
    case Evict => conn.(closedCalls := conn.closedCalls + 1, receiver := Stopping)
    case Stop => conn.(receiver := Finished)
  }

  function SetStatus(b: Board, p: ProcessId, running: bool): Board {
    var b' := b.(statuses := b.statuses[p := running]);
    if Running(b.statuses, p) == running then b'
    else b'.(changes := b.changes + [Change(p, running)], pending := b.pending + [|b.changes|])
  }

  function PublishOne(b: Board, i: nat): Board
    requires i < |b.pending|
  {
    var b' := b.(pending := b.pending[..i] + b.pending[i + 1..]);
    if b.publisher then b'.(published := b.published + [b.pending[i]])
    else b'.(skipped := b.skipped + [b.pending[i]])
  }

  function BoardNext(s: State, step: Step): Board
    requires Enabled(s, step)
  {
    match step
    case On(c, Mark) => SetStatus(s.board, s.conns[c].process, true)
    case On(c, Stop) => SetStatus(s.board, s.conns[c].process, false)
    case Expire(p) => SetStatus(s.board, p, false)
    case SetPublisher => s.board.(publisher := true)
    case Publish(i) => PublishOne(s.board, i)
    case _ => s.board
  }

  function ConnsNext(s: State, step: Step): seq<Conn>
    requires Enabled(s, step)
  {
    match step
    case New(p) => s.conns + [Conn(p, S.Link(None, false, false), Connecting, NotStarted, 0, 0)]
    case On(c, act) => s.conns[c := ConnNext(s.conns[c], act)]
    case _ => s.conns
  }

  /** The closed callback has looked for its connection in the map. */
  predicate Past(conn: Conn) {
    conn.receiver.Stopping? || conn.receiver.Finished?
  }

  function Next(s: State, step: Step): State
    requires Enabled(s, step)
  {
    var s' := s.(conns := ConnsNext(s, step), board := BoardNext(s, step));
    match step
    case On(c, Register) =>
      s'.(children := s.children[s.conns[c].process := c], latest := s.latest[s.conns[c].process := c],
          late := if Past(s.conns[c]) then s.late + {c} else s.late)
    case On(c, Evict) => s'.(children := Evicted(s.children, s.conns[c].process, c))
    case On(c, Stamp) => s'.(heartbeats := s.heartbeats[s.conns[c].process := s.now])
    case Tick(d) => s'.(now := s.now + d)
    case Look => s'.(round := Some(Round(s.now, s.heartbeats, Expired(s.heartbeats, s.now, s.timeout))))
    case Expire(p) => s'.(round := Some(s.round.value.(left := s.round.value.left - {p})))
    case RoundEnds => s'.(round := None)
    case _ => s'
  }

  // ---------- Invariants ----------

  /** A connection is announced once before its receiver exists, and closed once by it. */
  predicate ConnOk(conn: Conn) {
    && conn.connectedCalls
        == (if conn.opener.Starting? || conn.opener.Registering? || conn.opener.Registered? then 1 else 0)
    && conn.closedCalls == (if Past(conn) then 1 else 0)
    && (!conn.receiver.NotStarted? <==> conn.opener.Registering? || conn.opener.Registered?)
    && (conn.link.notified <==> conn.receiver.Evicting? || Past(conn))
    && (conn.link.notified ==> conn.link.raw.None?)
    && (conn.link.closing ==> conn.link.raw.None?)
    && (conn.link.raw.Some? ==> !conn.opener.Connecting? && !conn.opener.Attaching? && !conn.opener.Refused?)
  }

  predicate ConnsOk(s: State) {
    forall c :: 0 <= c < |s.conns| ==> ConnOk(s.conns[c])
  }

  predicate IsRegistered(s: State, p: ProcessId, c: ConnectionId) {
    c < |s.conns| && s.conns[c].process == p && s.conns[c].opener.Registered?
  }

  /** The map holds the last registered connection until that one's own closed callback. */
  ghost predicate ChildrenOk(s: State) {
    && (forall p :: p in s.latest ==> IsRegistered(s, p, s.latest[p]))
    && (forall p :: p in s.children ==> p in s.latest && s.children[p] == s.latest[p])
    && (forall p :: p in s.latest && IsRegistered(s, p, s.latest[p]) ==>
          (p in s.children <==> !Past(s.conns[s.latest[p]]) || s.latest[p] in s.late))
    && (forall c :: c in s.late ==> c < |s.conns| && Past(s.conns[c]) && s.conns[c].opener.Registered?)
  }

  /** The changes of one process, in order. */
  function ChangesOf(p: ProcessId, changes: seq<Change>): seq<bool> {
    if changes == [] then []
    else
      var rest, last := ChangesOf(p, changes[..|changes| - 1]), changes[|changes| - 1];
      if last.process == p then rest + [last.running] else rest
  }

  predicate Alternates(changes: seq<bool>) {
    forall i :: 0 <= i < |changes| ==> changes[i] == (i % 2 == 0)
  }

  ghost predicate StatusOk(b: Board) {
    forall p :: Alternates(ChangesOf(p, b.changes)) && (Running(b.statuses, p) <==> |ChangesOf(p, b.changes)| % 2 == 1)
  }

  /** How many events change number `i` has. */
  function Events(b: Board, i: nat): nat {
    Count(b.published, i) + Count(b.pending, i) + Count(b.skipped, i)
  }

  ghost predicate EventsOk(b: Board) {
    forall i: nat :: Events(b, i) == if i < |b.changes| then 1 else 0
  }

  /** Since the monitor's look, a process it is to stop has had no heartbeat or a new one. */
  predicate RoundOk(s: State) {
    && (forall p :: p in s.heartbeats ==> s.heartbeats[p] <= s.now)
    && (s.round.Some? ==>
          var r := s.round.value;
          && r.at <= s.now
          && forall p :: p in r.left ==>
               && p in r.seen && r.at - r.seen[p] > s.timeout
               && p in s.heartbeats && (s.heartbeats[p] == r.seen[p] || s.heartbeats[p] >= r.at))
  }

  ghost predicate Inv(s: State) {
    ConnsOk(s) && ChildrenOk(s) && StatusOk(s.board) && EventsOk(s.board) && RoundOk(s)
  }

  // ---------- One step ----------

  lemma KeepsConn(conn: Conn, act: Act)
    requires ConnOk(conn) && ActEnabled(conn, act)
    ensures ConnOk(ConnNext(conn, act))
  {
  }

  lemma KeepsConns(s: State, step: Step)
    requires ConnsOk(s) && Enabled(s, step)
    ensures ConnsOk(Next(s, step))
  {
    hide ConnNext, ConnOk, BoardNext;
    if step.On? {
      KeepsConn(s.conns[step.c], step.act);
    } else if step.New? {
      assert ConnOk(Conn(step.process, S.Link(None, false, false), Connecting, NotStarted, 0, 0)) by {
        FreshOk(step.process);
      }
    }
  }

  lemma FreshOk(p: ProcessId)
    ensures ConnOk(Conn(p, S.Link(None, false, false), Connecting, NotStarted, 0, 0))
  {
  }

  /** What an operation keeps of the facts the map depends on. */
  lemma ConnMoves(conn: Conn, act: Act)
    requires ConnOk(conn) && ActEnabled(conn, act)
    ensures var r := ConnNext(conn, act);
            && r.process == conn.process
            && (conn.opener.Registered? ==> r.opener.Registered?)
            && (r.opener.Registered? ==> conn.opener.Registered? || act.Register?)
            && (Past(conn) ==> Past(r))
            && (Past(r) ==> Past(conn) || act.Evict?)
            && (act.Evict? ==> Past(r) && !Past(conn))
            && (act.Register? ==> r.opener.Registered? && !conn.opener.Registered?)
  {
  }

  lemma RegisterKeepsChildren(s: State, c: nat)
    requires ConnsOk(s) && ChildrenOk(s) && Enabled(s, On(c, Register))
    ensures ChildrenOk(Next(s, On(c, Register)))
  {
    hide ConnNext, ConnOk, BoardNext, Past;
    ConnMoves(s.conns[c], Register);
  }

  lemma EvictKeepsChildren(s: State, c: nat)
    requires ConnsOk(s) && ChildrenOk(s) && Enabled(s, On(c, Evict))
    ensures ChildrenOk(Next(s, On(c, Evict)))
  {
    hide ConnNext, ConnOk, BoardNext, Past;
    ConnMoves(s.conns[c], Evict);
  }

  lemma KeepsChildren(s: State, step: Step)
    requires ConnsOk(s) && ChildrenOk(s) && Enabled(s, step)
    ensures ChildrenOk(Next(s, step))
  {
    hide ConnNext, ConnOk, BoardNext, Past;
    if step.On? {
      if step.act.Register? {
        RegisterKeepsChildren(s, step.c);
      } else if step.act.Evict? {
        EvictKeepsChildren(s, step.c);
      } else {
        ConnMoves(s.conns[step.c], step.act);
      }
    }
  }

  lemma ChangesAppend(p: ProcessId, changes: seq<Change>, e: Change)
    ensures ChangesOf(p, changes + [e]) == ChangesOf(p, changes) + if e.process == p then [e.running] else []
  {
    assert (changes + [e])[..|changes|] == changes;
  }

  lemma SetKeepsStatusOf(b: Board, q: ProcessId, running: bool, p: ProcessId)
    requires Alternates(ChangesOf(p, b.changes)) && (Running(b.statuses, p) <==> |ChangesOf(p, b.changes)| % 2 == 1)
    ensures var r := SetStatus(b, q, running);
            Alternates(ChangesOf(p, r.changes)) && (Running(r.statuses, p) <==> |ChangesOf(p, r.changes)| % 2 == 1)
  {
    ChangesAppend(p, b.changes, Change(q, running));
    hide ChangesOf;
  }

  lemma SetKeepsStatus(b: Board, q: ProcessId, running: bool)
    requires StatusOk(b)
    ensures StatusOk(SetStatus(b, q, running))
  {
    hide SetStatus, ChangesOf, Alternates, Running;
    forall p
      ensures var r := SetStatus(b, q, running);
              Alternates(ChangesOf(p, r.changes)) && (Running(r.statuses, p) <==> |ChangesOf(p, r.changes)| % 2 == 1)
    {
      SetKeepsStatusOf(b, q, running, p);
    }
  }

  lemma SetKeepsEvents(b: Board, q: ProcessId, running: bool)
    requires EventsOk(b)
    ensures EventsOk(SetStatus(b, q, running))
  {
    hide Count;
    var r := SetStatus(b, q, running);
    forall i: nat
      ensures Events(r, i) == if i < |r.changes| then 1 else 0
    {
      CountAppend<nat>(b.pending, |b.changes|, i);
      assert Events(b, i) == if i < |b.changes| then 1 else 0;
    }
  }

  lemma PublishKeepsEvents(b: Board, k: nat)
    requires EventsOk(b) && k < |b.pending|
    ensures EventsOk(PublishOne(b, k))
  {
    hide Count;
    forall i: nat
      ensures Events(PublishOne(b, k), i) == if i < |b.changes| then 1 else 0
    {
      CountRemove(b.pending, k, i);
      CountAppend(b.published, b.pending[k], i);
      CountAppend(b.skipped, b.pending[k], i);
      assert Events(b, i) == if i < |b.changes| then 1 else 0;
    }
  }

  lemma PublisherKeepsEvents(b: Board)
    requires EventsOk(b)
    ensures EventsOk(b.(publisher := true))
  {
    hide Count;
    forall i: nat
      ensures Events(b.(publisher := true), i) == if i < |b.changes| then 1 else 0
    {
      assert Events(b, i) == if i < |b.changes| then 1 else 0;
    }
  }

  lemma KeepsBoard(s: State, step: Step)
    requires StatusOk(s.board) && EventsOk(s.board) && Enabled(s, step)
    ensures StatusOk(Next(s, step).board) && EventsOk(Next(s, step).board)
  {
    hide SetStatus, ConnsNext, ChangesOf, Count;
    match step
    case On(c, act) =>
      SetKeepsStatus(s.board, s.conns[c].process, act.Mark?);
      SetKeepsEvents(s.board, s.conns[c].process, act.Mark?);
    case Expire(p) =>
      SetKeepsStatus(s.board, p, false);
      SetKeepsEvents(s.board, p, false);
    case Publish(i) => PublishKeepsEvents(s.board, i);
    case New(_) =>
    case Tick(_) =>
    case Look =>
    case RoundEnds =>
    case SetPublisher => PublisherKeepsEvents(s.board);
  }

  lemma KeepsRound(s: State, step: Step)
    requires RoundOk(s) && Enabled(s, step)
    ensures RoundOk(Next(s, step))
  {
    hide ConnsNext, BoardNext;
  }

  lemma InvStep(s: State, step: Step)
    requires Inv(s) && Enabled(s, step)
    ensures Inv(Next(s, step))
  {
    hide Next, ConnsOk, ChildrenOk, StatusOk, EventsOk, RoundOk;
    KeepsConns(s, step);
    KeepsChildren(s, step);
    KeepsBoard(s, step);
    KeepsRound(s, step);
  }

  // ---------- Whole runs ----------

  predicate IsRun(timeout: int, now: int, states: seq<State>, steps: seq<Step>) {
    && |states| == |steps| + 1 && states[0] == Initial(timeout, now)
    && forall i :: 0 <= i < |steps| ==> Enabled(states[i], steps[i]) && states[i + 1] == Next(states[i], steps[i])
  }

  lemma InitialOk(timeout: int, now: int)
    ensures Inv(Initial(timeout, now))
  {
  }

  lemma {:induction false} RunKeepsInv(timeout: int, now: int, states: seq<State>, steps: seq<Step>, n: nat)
    requires IsRun(timeout, now, states, steps) && n <= |steps|
    ensures Inv(states[n])
  {
    hide Inv, Next;
    if n == 0 {
      InitialOk(timeout, now);
    } else {
      RunKeepsInv(timeout, now, states, steps, n - 1);
      InvStep(states[n - 1], steps[n - 1]);
    }
  }

  /**
    In every interleaving the closed callback is called at most once and only after the
    connected callback; an open connection has not been notified closed.
   */
  lemma ClosedOnceAfterConnected(timeout: int, now: int, states: seq<State>, steps: seq<Step>, n: nat, c: nat)
    requires IsRun(timeout, now, states, steps) && n <= |steps| && c < |states[n].conns|
    ensures var conn := states[n].conns[c];
            && conn.closedCalls <= conn.connectedCalls <= 1
            && (conn.link.IsOpen() ==> !conn.link.notified && conn.closedCalls == 0)
  {
    RunKeepsInv(timeout, now, states, steps, n);
    assert ConnOk(states[n].conns[c]);
  }

  predicate Ended(conn: Conn) {
    conn.link.closing || conn.link.notified
  }

  lemma EndedStays(s: State, step: Step, c: nat)
    requires Enabled(s, step) && c < |s.conns| && Ended(s.conns[c])
    ensures c < |Next(s, step).conns| && Ended(Next(s, step).conns[c])
  {
    hide BoardNext;
  }

  /** A connection that was closed or notified never is open again. */
  lemma {:induction false} NeverReopens(
    timeout: int, now: int, states: seq<State>, steps: seq<Step>, n: nat, m: nat, c: nat)
    requires IsRun(timeout, now, states, steps) && n <= m <= |steps|
    requires c < |states[n].conns| && Ended(states[n].conns[c])
    ensures c < |states[m].conns| && Ended(states[m].conns[c]) && !states[m].conns[c].link.IsOpen()
    decreases m - n
  {
    hide Next, Ended;
    if n < m {
      NeverReopens(timeout, now, states, steps, n, m - 1, c);
      EndedStays(states[m - 1], steps[m - 1], c);
    }
    RunKeepsInv(timeout, now, states, steps, m);
    EndedIsNotOpen(states[m], c);
  }

  lemma EndedIsNotOpen(s: State, c: nat)
    requires ConnsOk(s) && c < |s.conns| && Ended(s.conns[c])
    ensures !s.conns[c].link.IsOpen()
  {
    assert ConnOk(s.conns[c]);
  }

  /**
    The children map holds for a process exactly the connection registered last, from its
    registration until its own closed callback removes it; a connection whose callback
    came before its registration stays.
   */
  lemma ChildIsLatest(timeout: int, now: int, states: seq<State>, steps: seq<Step>, n: nat, p: ProcessId)
    requires IsRun(timeout, now, states, steps) && n <= |steps|
    ensures var s := states[n];
            && (p in s.latest ==> IsRegistered(s, p, s.latest[p]))
            && Child(s.children, p) ==
                 if p in s.latest && (!Past(s.conns[s.latest[p]]) || s.latest[p] in s.late) then Some(s.latest[p])
                     else None
  {
    hide ConnsOk, StatusOk, EventsOk, RoundOk;
    RunKeepsInv(timeout, now, states, steps, n);
  }

  /** An entry disappears or changes only by its own connection's callback or a later registration of that process. */
  lemma ClosingEvictsNoOther(timeout: int, now: int, states: seq<State>, steps: seq<Step>, n: nat, p: ProcessId)
    requires IsRun(timeout, now, states, steps) && n < |steps| && p in states[n].children
    ensures Child(states[n + 1].children, p) == Child(states[n].children, p)
            || steps[n] == On(states[n].children[p], Evict)
            || (steps[n].On? && steps[n].act.Register? && Child(states[n + 1].children, p) == Some(steps[n].c)
                && IsRegistered(states[n + 1], p, steps[n].c))
  {
    hide BoardNext;
    assert states[n + 1] == Next(states[n], steps[n]);
  }

  /** A process changes between running and stopped in turn, starting with running; its status is the last change. */
  lemma StatusAlternates(timeout: int, now: int, states: seq<State>, steps: seq<Step>, n: nat, p: ProcessId)
    requires IsRun(timeout, now, states, steps) && n <= |steps|
    ensures var b := states[n].board; var cs := ChangesOf(p, b.changes);
            && (forall i :: 0 <= i < |cs| ==> cs[i] == (i % 2 == 0))
            && Running(b.statuses, p) == if cs == [] then false else cs[|cs| - 1]
  {
    hide ConnsOk, ChildrenOk, EventsOk, RoundOk, ChangesOf;
    RunKeepsInv(timeout, now, states, steps, n);
  }

  /**
    Every change, and nothing else, has exactly one event: published, about to be, or
    skipped for want of a publisher.
   */
  lemma OneEventPerChange(timeout: int, now: int, states: seq<State>, steps: seq<Step>, n: nat, i: nat)
    requires IsRun(timeout, now, states, steps) && n <= |steps|
    ensures var b := states[n].board;
            Count(b.published, i) + Count(b.pending, i) + Count(b.skipped, i) == if i < |b.changes| then 1 else 0
  {
    hide ConnsOk, ChildrenOk, StatusOk, RoundOk, Count;
    RunKeepsInv(timeout, now, states, steps, n);
    assert Events(states[n].board, i) == if i < |states[n].board.changes| then 1 else 0;
  }

  lemma PublisherStays(s: State, step: Step)
    requires Enabled(s, step) && s.board.publisher
    ensures Next(s, step).board.publisher && Next(s, step).board.skipped == s.board.skipped
  {
  }

  /** Once a publisher is set, no further event is skipped. */
  lemma {:induction false} NothingSkippedAfterPublisher(
    timeout: int, now: int, states: seq<State>, steps: seq<Step>, n: nat, m: nat)
    requires IsRun(timeout, now, states, steps) && n <= m <= |steps| && states[n].board.publisher
    ensures states[m].board.publisher && states[m].board.skipped == states[n].board.skipped
    decreases m - n
  {
    hide Next;
    if n < m {
      NothingSkippedAfterPublisher(timeout, now, states, steps, n, m - 1);
      PublisherStays(states[m - 1], steps[m - 1]);
    }
  }

  /**
    The monitor stops a process whose last heartbeat is older than the timeout, unless a
    heartbeat came after the monitor's look.
   */
  lemma MonitorStopsExpired(timeout: int, now: int, states: seq<State>, steps: seq<Step>, n: nat)
    requires IsRun(timeout, now, states, steps) && n < |steps| && steps[n].Expire?
    ensures var s, p := states[n], steps[n].process;
            && p in s.heartbeats && s.round.Some?
            && (s.now - s.heartbeats[p] > s.timeout || s.heartbeats[p] >= s.round.value.at)
  {
    hide ConnsOk, ChildrenOk, StatusOk, EventsOk;
    RunKeepsInv(timeout, now, states, steps, n);
  }

  /** What each call to set a status leaves, and a heartbeat's time. */
  lemma StatusFollowsCalls(timeout: int, now: int, states: seq<State>, steps: seq<Step>, n: nat)
    requires IsRun(timeout, now, states, steps) && n < |steps|
    ensures var s, r := states[n], states[n + 1];
            && (steps[n].On? && steps[n].act.Mark? ==> Running(r.board.statuses, s.conns[steps[n].c].process))
            && (steps[n].On? && steps[n].act.Stop? ==> !Running(r.board.statuses, s.conns[steps[n].c].process))
            && (steps[n].Expire? ==> !Running(r.board.statuses, steps[n].process))
            && (steps[n].On? && steps[n].act.Stamp? ==>
                  var p := s.conns[steps[n].c].process; p in r.heartbeats && r.heartbeats[p] == s.now)
  {
    hide ConnsNext;
    assert states[n + 1] == Next(states[n], steps[n]);
  }

  /** Whether the monitor has yet to stop `p` in its round. */
  predicate Left(s: State, p: ProcessId) {
    s.round.Some? && p in s.round.value.left
  }

  lemma LeftAfter(s: State, step: Step, p: ProcessId)
    requires Enabled(s, step) && Left(s, p)
    ensures Left(Next(s, step), p) || step == Expire(p)
  {
    hide ConnsNext, BoardNext;
  }

  lemma LookFinds(s: State, p: ProcessId)
    requires Enabled(s, Look) && p in s.heartbeats && s.now - s.heartbeats[p] > s.timeout
    ensures Left(Next(s, Look), p)
  {
    hide ConnsNext, BoardNext;
  }

  /**
    A round of the monitor stops every process whose heartbeat is older than the timeout
    when it looks: before the round ends there is a step that stops it.
   */
  lemma {:induction false} RoundStopsExpired(
    timeout: int, now: int, states: seq<State>, steps: seq<Step>, n: nat, m: nat, p: ProcessId)
    requires IsRun(timeout, now, states, steps) && n < m <= |steps| && steps[n].Look?
    requires p in states[n].heartbeats && states[n].now - states[n].heartbeats[p] > states[n].timeout
    ensures Left(states[m], p) || exists k :: n < k < m && steps[k] == Expire(p)
    decreases m
  {
    hide Next, Left;
    if m == n + 1 {
      LookFinds(states[n], p);
    } else {
      RoundStopsExpired(timeout, now, states, steps, n, m - 1, p);
      if Left(states[m - 1], p) {
        LeftAfter(states[m - 1], steps[m - 1], p);
      }
    }
  }

  /** So by the end of the round. */
  lemma RoundEndsWithAllStopped(
    timeout: int, now: int, states: seq<State>, steps: seq<Step>, n: nat, m: nat, p: ProcessId)
    requires IsRun(timeout, now, states, steps) && n < m < |steps| && steps[n].Look? && steps[m].RoundEnds?
    requires p in states[n].heartbeats && states[n].now - states[n].heartbeats[p] > states[n].timeout
    ensures exists k :: n < k < m && steps[k] == Expire(p)
  {
    hide Next;
    RoundStopsExpired(timeout, now, states, steps, n, m, p);
  }

  // ---------- What the code does not promise ----------

  lemma Extend(timeout: int, states: seq<State>, steps: seq<Step>, step: Step, r: State)
    returns (states': seq<State>, steps': seq<Step>)
    requires IsRun(timeout, 0, states, steps) && Enabled(states[|steps|], step) && r == Next(states[|steps|], step)
    ensures |states'| == |steps'| + 1 && IsRun(timeout, 0, states', steps') && states'[|steps'|] == r
  {
    hide Enabled, Next;
    states', steps' := states + [r], steps + [step];
  }

  /** A run with a single connection, and nothing else changed so far. */
  function Single(timeout: int, conn: Conn): State {
    Initial(timeout, 0).(conns := [conn])
  }

  lemma Advance(timeout: int, states: seq<State>, steps: seq<Step>, conn: Conn, act: Act, r: Conn)
    returns (states': seq<State>, steps': seq<Step>)
    requires IsRun(timeout, 0, states, steps) && states[|steps|] == Single(timeout, conn)
    requires ActEnabled(conn, act) && r == ConnNext(conn, act)
    requires !act.Register? && !act.Stamp? && !act.Mark? && !act.Stop? && !act.Evict?
    ensures |states'| == |steps'| + 1 && IsRun(timeout, 0, states', steps') && states'[|steps'|] == Single(timeout, r)
  {
    hide IsRun, ActEnabled, ConnNext;
    states', steps' := Extend(timeout, states, steps, On(0, act), Single(timeout, r));
  }

  /** A connection that is open, announced and being read, but not registered yet. */
  function ReadingConn(): Conn {
    Conn("p", S.Link(Some(7), false, false), Registering, Reading, 1, 0)
  }

  lemma OpenedRun(timeout: int) returns (states: seq<State>, steps: seq<Step>)
    ensures |states| == |steps| + 1 && IsRun(timeout, 0, states, steps)
    ensures states[|steps|] == Single(timeout, ReadingConn())
  {
    var c0 := Conn("p", S.Link(None, false, false), Connecting, NotStarted, 0, 0);
    var c1 := c0.(opener := Attaching);
    var c2 := c1.(opener := Announcing, link := S.Link(Some(7), false, false));
    var c3 := c2.(opener := Starting, connectedCalls := 1);
    var c4 := c3.(opener := Registering, receiver := Checking);
    states, steps := [Initial(timeout, 0)], [];
    states, steps := Extend(timeout, states, steps, New("p"), Single(timeout, c0));
    hide IsRun;
    states, steps := Advance(timeout, states, steps, c0, Connect, c1);
    states, steps := Advance(timeout, states, steps, c1, Attach(7), c2);
    states, steps := Advance(timeout, states, steps, c2, Announce, c3);
    states, steps := Advance(timeout, states, steps, c3, Start, c4);
    states, steps := Advance(timeout, states, steps, c4, Check, ReadingConn());
  }

  /** A pipe that ends before its opener registers it leaves a dead connection in the map. */
  lemma DeadChildStays() returns (states: seq<State>, steps: seq<Step>)
    ensures IsRun(10, 0, states, steps)
    ensures var s := states[|steps|];
            s.children == map["p" := 0] && |s.conns| == 1 && s.conns[0].receiver.Finished? && !s.conns[0].link.IsOpen()
  {
    states, steps := OpenedRun(10);
    hide IsRun;
    var c6 := ReadingConn().(receiver := Finishing);
    var c7 := c6.(receiver := Evicting, link := S.Link(None, false, true));
    var c8 := c7.(receiver := Stopping, closedCalls := 1);
    var c9 := c8.(receiver := Finished);
    states, steps := Advance(10, states, steps, ReadingConn(), ReceiveEnds, c6);
    states, steps := Advance(10, states, steps, c6, NotifyClosed, c7);
    states, steps := Extend(10, states, steps, On(0, Evict), Single(10, c8));
    var s9 := Next(Single(10, c8), On(0, Stop));
    states, steps := Extend(10, states, steps, On(0, Stop), s9);
    states, steps := Extend(10, states, steps, On(0, Register), Next(s9, On(0, Register)));
  }

  /**
    Events are published outside the lock: the receiver's running event can come after
    the monitor's later stopped event, and then the last event is not the status.
   */
  lemma EventsCanSwap() returns (states: seq<State>, steps: seq<Step>)
    ensures IsRun(10, 0, states, steps)
    ensures var b := states[|steps|].board;
            b.changes == [Change("p", true), Change("p", false)]
            && b.published == [1, 0] && !Running(b.statuses, "p")
  {
    states, steps := RunningRun();
    hide IsRun;
    var s4 := states[|steps|];
    var s5 := s4.(now := 11);
    var s6 := s5.(round := Some(Round(11, map["p" := 0], {"p"})));
    assert Expired(s5.heartbeats, 11, 10) == {"p"};
    states, steps := Extend(10, states, steps, Tick(11), s5);
    states, steps := Extend(10, states, steps, Look, s6);
    var s7 := Next(s6, Expire("p"));
    states, steps := Extend(10, states, steps, Expire("p"), s7);
    var s8 := Next(s7, Publish(1));
    states, steps := Extend(10, states, steps, Publish(1), s8);
    states, steps := Extend(10, states, steps, Publish(0), Next(s8, Publish(0)));
  }

  /** The receiver has marked the process as running and not published it yet. */
  lemma RunningRun() returns (states: seq<State>, steps: seq<Step>)
    ensures IsRun(10, 0, states, steps) && |states| == |steps| + 1
    ensures states[|steps|]
        == State(10, 0, [ReadingConn().(receiver := Checking)], map[], map[], {}, map["p" := 0], None,
              Board(map["p" := true], true, [Change("p", true)], [0], [], []))
  {
    states, steps := OpenedRun(10);
    hide IsRun;
    var up := Change("p", true);
    var b := Board(map[], true, [], [], [], []);
    var s0 := Single(10, ReadingConn());
    var s1 := s0.(board := b);
    var s2 := s1.(conns := [ReadingConn().(receiver := Stamping)]);
    var s3 := s2.(conns := [ReadingConn().(receiver := Marking)], heartbeats := map["p" := 0]);
    var s4 := s3.(conns := [ReadingConn().(receiver := Checking)],
                  board := b.(statuses := map["p" := true], changes := [up], pending := [0]));
    states, steps := Extend(10, states, steps, SetPublisher, s1);
    states, steps := Extend(10, states, steps, On(0, Receive(true)), s2);
    states, steps := Extend(10, states, steps, On(0, Stamp), s3);
    states, steps := Extend(10, states, steps, On(0, Mark), s4);
  }
}
