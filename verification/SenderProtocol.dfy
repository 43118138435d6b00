/**
  The supervision of the sender worker: `start`, `stop`, the monitor thread and the worker
  processes as interleaved single reads and writes, with a monotone clock.  `start` and
  `stop` are each called at most once.  A process that is told to stop, terminated or
  killed is gone when the last join returns.
 */
module SenderProtocol {
  import opened Options

  type Id = nat

  /** A live worker: idle, or between a mux at time t and its three shared writes. */
  datatype WorkerPc = Idle | Stamped(at: int) | HeartbeatWritten | SuccessWritten

  datatype Thread = Starter | Monitor | Stopper

  /** The next operation of the thread that holds the lock. */
  datatype Work =
    | Check
    | ReadHeartbeat
    | StopBegin | StopSignalled | StopReaped | StopCleared
    | StartBegin | StartHeartbeat | StartAwaiting | StartProcess | StartLaunched

  datatype Section = Free | Held(who: Thread, work: Work)

  datatype StarterPc = StarterIdle | StarterInSection | StarterSpawning | StarterSpawned | StarterDone
  datatype MonitorPc =
    | MonitorAbsent | MonitorCreated | MonitorSleeping | MonitorWanting | MonitorInSection | MonitorExited
  datatype StopperPc =
    | StopperIdle | StopperSignalled | StopperJoined | StopperInSection | StopperReturned | StopperRaised

  /** A worker process ended by a supervisor while it was alive. */
  datatype Kill = Kill(who: Thread, worker: Id, pc: WorkerPc, at: int, heartbeat: int, lastMux: Option<int>,
      recordedSinceRead: bool)

  /** Where the three threads are. */
  datatype Control = Control(
    section: Section,
    starter: StarterPc,
    monitor: MonitorPc,
    stopper: StopperPc,
    monitorStop: bool,
    lateStart: bool,              // `start` entered its section after `stop` had left its own
    lateLaunch: bool)             // a worker was launched after `stop` had left its section

  /** The sender's fields, the live worker processes, and which worker did what when. */
  datatype Fields = Fields(
    process: Option<Id>,
    workers: map<Id, WorkerPc>,
    heartbeat: int,
    hasSuccessfulMux: bool,
    awaitingMux: bool,
    next: Id,
    stamp: map<Id, int>,          // heartbeat value set when a worker's start began
    muxed: map<Id, int>,          // time of a worker's last mux recorded in the heartbeat
    muxes: map<Id, int>)          // time of a worker's last mux, recorded or not
  {
    predicate Alive() {
      process.Some? && process.value in workers
    }

    function LastMux(w: Id): Option<int> {
      if w in muxes then Some(muxes[w]) else None
    }
  }

  /** The monitor's last look at the heartbeat, and the kills so far. */
  datatype Watch = Watch(readAt: int, readValue: int, recordedSince: bool, kills: seq<Kill>)

  datatype State = State(timeout: int, now: int, c: Control, f: Fields, w: Watch)

  datatype Step =
    | Tick(d: nat)
    | StarterAcquire | MonitorAcquire | StopperAcquire
    | SectionStep
    | CreateMonitor | StartMonitor | MonitorWake
    | StopperSignal | StopperJoin
    | WorkerMux(worker: Id)
    | WorkerWrite(worker: Id)
    | WorkerExit(worker: Id)

  function Initial(timeout: int, now: int): State {
    State(timeout, now,
          Control(Free, StarterIdle, MonitorAbsent, StopperIdle, false, false, false),
          Fields(None, map[], now, false, true, 0, map[], map[], map[]),
          Watch(now, now, false, []))
  }

  predicate Enabled(s: State, step: Step) {
    match step
    case Tick(_) => true
    case StarterAcquire => s.c.starter.StarterIdle? && s.c.section.Free?
    case MonitorAcquire => s.c.monitor.MonitorWanting? && s.c.section.Free?
    case StopperAcquire => s.c.stopper.StopperJoined? && s.c.section.Free?
    case SectionStep => s.c.section.Held?
    case CreateMonitor => s.c.starter.StarterSpawning?
    case StartMonitor => s.c.starter.StarterSpawned?
    case MonitorWake => s.c.monitor.MonitorSleeping?
    case StopperSignal => s.c.stopper.StopperIdle?
    case StopperJoin => s.c.stopper.StopperSignalled?
    case WorkerMux(w) => w in s.f.workers && s.f.workers[w].Idle?
    case WorkerWrite(w) => w in s.f.workers && !s.f.workers[w].Idle?
    case WorkerExit(w) => w in s.f.workers
  }

  // ---------- Under the lock ----------

  /** The holder leaves its `with self._lock` block. */
  function Release(c: Control): Control
    requires c.section.Held?
  {
    match c.section.who
    case Starter => c.(section := Free, starter := StarterSpawning)
    case Monitor => c.(section := Free, monitor := MonitorSleeping)
    case Stopper => c.(section := Free, stopper := StopperReturned)
  }

  /** What the holder does next, given whether `_process` is None and whether the worker is dead or stalled. */
  function ControlNext(c: Control, none: bool, failed: bool): Control
    requires c.section.Held?
  {
    var who := c.section.who;
    match c.section.work
    case Check => if none then Release(c) else c.(section := Held(who, ReadHeartbeat))
    case ReadHeartbeat => if failed then c.(section := Held(who, StopBegin)) else Release(c)
    case StopBegin => c.(section := Held(who, if none then StopCleared else StopSignalled))
    case StopSignalled => c.(section := Held(who, StopReaped))
    case StopReaped => c.(section := Held(who, StopCleared))
    case StopCleared => if who.Monitor? && !c.monitorStop then c.(section := Held(who, StartBegin)) else Release(c)
    case StartBegin => c.(section := Held(who, StartHeartbeat))
    case StartHeartbeat => c.(section := Held(who, StartAwaiting))
    case StartAwaiting => c.(section := Held(who, StartProcess))
    case StartProcess =>
      c.(section := Held(who, StartLaunched), lateLaunch := c.lateLaunch || c.stopper.StopperReturned?)
    case StartLaunched => Release(c)
  }

  /** The field the holder's operation writes. */
  function FieldsNext(f: Fields, work: Work, now: int): Fields {
    match work
    case StopSignalled => if f.Alive() then f.(workers := f.workers - {f.process.value}) else f
    case StopReaped => f.(process := None)
    case StartBegin => f.(heartbeat := now)
    case StartHeartbeat => f.(awaitingMux := true)
    case StartAwaiting => f.(process := Some(f.next), stamp := f.stamp[f.next := f.heartbeat], next := f.next + 1)
    case StartProcess => if f.process.Some? then f.(workers := f.workers[f.process.value := Idle]) else f
    case Check => f
    case ReadHeartbeat => f
    case StopBegin => f
    case StopCleared => f
    case StartLaunched => f
  }

  function WatchNext(w: Watch, f: Fields, who: Thread, work: Work, now: int): Watch {
    match work
    case Check => w.(readAt := now)
    case ReadHeartbeat => w.(readValue := f.heartbeat, recordedSince := false)
    case StopSignalled =>
      if f.Alive() then
        w.(kills := w.kills + [Kill(who, f.process.value, f.workers[f.process.value], now, f.heartbeat,
            f.LastMux(f.process.value), w.recordedSince)])
      else w
    case StopBegin => w
    case StopReaped => w
    case StopCleared => w
    case StartBegin => w
    case StartHeartbeat => w
    case StartAwaiting => w
    case StartProcess => w
    case StartLaunched => w
  }

  function Operate(s: State): State
    requires s.c.section.Held?
  {
    var work := s.c.section.work;
    State(s.timeout, s.now,
          ControlNext(s.c, s.f.process.None?, !s.f.Alive() || s.w.readAt - s.f.heartbeat >= s.timeout),
          FieldsNext(s.f, work, s.now),
          WatchNext(s.w, s.f, s.c.section.who, work, s.now))
  }

  // ---------- All steps ----------

  /** The next shared write of a worker that has muxed. */
  function WriteNext(f: Fields, w: Id): Fields
    requires w in f.workers
  {
    match f.workers[w]
    case Idle => f
    case Stamped(t) => f.(heartbeat := t, muxed := f.muxed[w := t], workers := f.workers[w := HeartbeatWritten])
    case HeartbeatWritten => f.(hasSuccessfulMux := true, workers := f.workers[w := SuccessWritten])
    case SuccessWritten => f.(awaitingMux := false, workers := f.workers[w := Idle])
  }

  function Next(s: State, step: Step): State
    requires Enabled(s, step)
  {
    match step
    case Tick(d) => s.(now := s.now + d)
    case StarterAcquire =>
      s.(c := s.c.(section := Held(Starter, StartBegin), starter := StarterInSection,
          lateStart := s.c.stopper.StopperReturned?))
    case MonitorAcquire => s.(c := s.c.(section := Held(Monitor, Check), monitor := MonitorInSection))
    case StopperAcquire => s.(c := s.c.(section := Held(Stopper, StopBegin), stopper := StopperInSection))
    case SectionStep => Operate(s)
    case CreateMonitor => s.(c := s.c.(starter := StarterSpawned, monitor := MonitorCreated))
    case StartMonitor => s.(c := s.c.(starter := StarterDone, monitor := MonitorSleeping))
    case MonitorWake => s.(c := s.c.(monitor := if s.c.monitorStop then MonitorExited else MonitorWanting))
    case StopperSignal => s.(c := s.c.(monitorStop := true, stopper := StopperSignalled))
    case StopperJoin => s.(c := s.c.(stopper := if s.c.monitor.MonitorCreated? then StopperRaised else StopperJoined))
    case WorkerMux(w) => s.(f := s.f.(workers := s.f.workers[w := Stamped(s.now)], muxes := s.f.muxes[w := s.now]))
    case WorkerWrite(w) => s.(f := WriteNext(s.f, w),
        w := s.w.(recordedSince := s.w.recordedSince || s.f.workers[w].Stamped?))
    case WorkerExit(w) => s.(f := s.f.(workers := s.f.workers - {w}))
  }

  // ---------- Invariants ----------

  predicate Starting(work: Work) {
    work.StartBegin? || work.StartHeartbeat? || work.StartAwaiting? || work.StartProcess? || work.StartLaunched?
  }

  predicate Stopping(work: Work) {
    work.StopBegin? || work.StopSignalled? || work.StopReaped? || work.StopCleared?
  }

  /** The program counters agree with who holds the lock and with each other. */
  predicate ThreadsOk(c: Control) {
    && (c.starter.StarterInSection? <==> c.section.Held? && c.section.who.Starter?)
    && (c.monitor.MonitorInSection? <==> c.section.Held? && c.section.who.Monitor?)
    && (c.stopper.StopperInSection? <==> c.section.Held? && c.section.who.Stopper?)
    && (c.section.Held? && c.section.who.Starter? ==> Starting(c.section.work))
    && (c.section.Held? && c.section.who.Stopper? ==> Stopping(c.section.work))
    && (c.monitor.MonitorAbsent? <==> !c.starter.StarterSpawned? && !c.starter.StarterDone?)
    && (c.monitor.MonitorCreated? <==> c.starter.StarterSpawned?)
    && (c.monitorStop <==> !c.stopper.StopperIdle?)
  }

  /** Only the worker in `_process` can be alive. */
  predicate OneWorker(f: Fields) {
    && (forall w :: w in f.workers ==> f.process == Some(w))
    && (f.process.Some? ==> f.process.value < f.next && f.process.value in f.stamp)
    && (forall w :: w in f.muxed ==> w < f.next)
    && (forall w :: w in f.muxes ==> w < f.next)
    && (forall w :: w in f.stamp ==> w < f.next)
  }

  /** What holds of the fields before each operation under the lock. */
  predicate SectionOk(section: Section, f: Fields) {
    section.Held? ==>
      match section.work
      case Check => true
      case ReadHeartbeat => f.process.Some?
      case StopBegin => true
      case StopSignalled => f.process.Some?
      case StopReaped => f.workers == map[]
      case StopCleared => f.process.None?
      case StartBegin => f.process.None?
      case StartHeartbeat => f.process.None?
      case StartAwaiting => f.process.None? && f.awaitingMux
      case StartProcess => f.process.Some? && f.workers == map[] && f.awaitingMux && f.process.value !in f.muxed
          && f.process.value !in f.muxes
      case StartLaunched => f.process.Some?
  }

  predicate ProcessOk(s: State) {
    OneWorker(s.f) && SectionOk(s.c.section, s.f) && (s.c.starter.StarterIdle? ==> s.f.process.None?)
  }

  /** The shared values tell about the current worker. */
  predicate SharedOk(f: Fields) {
    && (f.process.Some? && !f.awaitingMux ==>
          f.hasSuccessfulMux && f.process.value in f.muxed && f.heartbeat == f.muxed[f.process.value])
    && (forall w :: w in f.workers && (f.workers[w].HeartbeatWritten? || f.workers[w].SuccessWritten?) ==>
          w in f.muxed && f.heartbeat == f.muxed[w])
    && (forall w :: w in f.workers && f.workers[w].SuccessWritten? ==> f.hasSuccessfulMux)
  }

  /** The heartbeat is neither in the future nor older than the current worker's start and last mux. */
  predicate TimesOk(f: Fields, now: int) {
    && f.heartbeat <= now
    && (f.process.Some? && f.process.value in f.stamp ==>
          f.stamp[f.process.value] <= f.heartbeat
          && (f.process.value !in f.muxed ==> f.stamp[f.process.value] == f.heartbeat))
    && (f.process.Some? && f.process.value in f.muxed ==> f.muxed[f.process.value] == f.heartbeat)
    && (forall w :: w in f.workers && f.workers[w].Stamped? ==> f.heartbeat <= f.workers[w].at <= now)
  }

  /** Only a mux just made is not recorded yet, and a worker that has recorded one no longer awaits its first. */
  predicate MuxesOk(f: Fields) {
    forall w :: w in f.workers ==>
      if f.workers[w].Stamped? then w in f.muxes && f.muxes[w] == f.workers[w].at
      else
        && (w in f.muxes <==> w in f.muxed) && (w in f.muxes ==> f.muxes[w] == f.muxed[w])
        && (f.workers[w].Idle? && w in f.muxes ==> f.hasSuccessfulMux && !f.awaitingMux)
  }

  /** While the monitor stops a live worker, its decision was that the heartbeat it read was too old. */
  predicate DecisionOk(s: State) {
    && s.w.readAt <= s.now
    && (s.c.section == Held(Monitor, StopBegin) || s.c.section == Held(Monitor, StopSignalled) ==>
          s.f.Alive() ==>
            && s.w.readValue + s.timeout <= s.w.readAt
            && s.f.process.value in s.f.stamp && s.f.stamp[s.f.process.value] <= s.w.readValue
            && (!s.w.recordedSince ==> s.f.heartbeat == s.w.readValue))
  }

  /** The killed worker had muxed less than the timeout ago. */
  predicate Early(timeout: int, k: Kill) {
    k.lastMux.Some? && k.at < k.lastMux.value + timeout
  }

  /** A kill by the monitor is no sooner than the timeout after the start, and after the last mux it could see. */
  predicate KillOk(timeout: int, stamp: map<Id, int>, k: Kill) {
    k.who.Monitor? ==>
      && k.worker in stamp && stamp[k.worker] + timeout <= k.at
      && (k.recordedSinceRead || k.heartbeat + timeout <= k.at)
      && (k.pc.Stamped? ==> k.lastMux == Some(k.pc.at) && k.heartbeat <= k.pc.at)
      && (!k.pc.Stamped? && k.lastMux.Some? ==> k.lastMux.value == k.heartbeat)
      && (k.lastMux.None? ==> k.heartbeat == stamp[k.worker])
  }

  predicate KillsOk(s: State) {
    forall i :: 0 <= i < |s.w.kills| ==> KillOk(s.timeout, s.f.stamp, s.w.kills[i])
  }

  /** After `stop` nothing runs or is launched, unless `start` came later. */
  predicate StoppedOk(c: Control, none: bool) {
    && (c.lateStart ==> c.stopper.StopperReturned? && !c.starter.StarterIdle?)
    && (c.lateLaunch ==> c.lateStart)
    && (c.lateStart && !c.starter.StarterInSection? ==> c.lateLaunch)
    && (c.lateStart && c.section == Held(Starter, StartLaunched) ==> c.lateLaunch)
    && (c.stopper.StopperReturned? && !c.lateStart ==>
          none && (c.section.Held? ==> c.section == Held(Monitor, Check)))
  }

  /**
    Until `stop` has joined the monitor, a worker that `start` has launched stays in the
    field while there is no running monitor; a `stop` that raised changes nothing after that.
   */
  predicate RaisedOk(c: Control, none: bool) {
    && ((c.starter.StarterSpawning? || c.starter.StarterSpawned?)
        && (c.stopper.StopperIdle? || c.stopper.StopperSignalled?) ==>
          !none && c.section.Free?)
    && (c.stopper.StopperRaised? ==>
          && !none && c.section.Free? && (c.starter.StarterSpawned? || c.starter.StarterDone?)
          && (c.monitor.MonitorCreated? || c.monitor.MonitorSleeping? || c.monitor.MonitorExited?))
  }

  predicate Inv(s: State) {
    && ThreadsOk(s.c) && ProcessOk(s) && SharedOk(s.f) && MuxesOk(s.f) && TimesOk(s.f, s.now)
    && DecisionOk(s) && KillsOk(s) && StoppedOk(s.c, s.f.process.None?) && RaisedOk(s.c, s.f.process.None?)
  }

  lemma InitialOk(timeout: int, now: int)
    ensures Inv(Initial(timeout, now))
  {
  }

  // ---------- One step ----------

  lemma ControlKeepsThreads(c: Control, none: bool, failed: bool)
    requires ThreadsOk(c) && c.section.Held?
    ensures ThreadsOk(ControlNext(c, none, failed))
  {
    match c.section.work
    case Check =>
    case ReadHeartbeat =>
    case StopBegin =>
    case StopCleared =>
    case StartLaunched =>
    case _ =>
  }

  lemma KeepsThreads(s: State, step: Step)
    requires ThreadsOk(s.c) && Enabled(s, step)
    ensures ThreadsOk(Next(s, step).c)
  {
    hide FieldsNext, WatchNext, ControlNext;
    if step.SectionStep? {
      ControlKeepsThreads(s.c, s.f.process.None?, !s.f.Alive() || s.w.readAt - s.f.heartbeat >= s.timeout);
    }
  }

  lemma FieldsKeepOneWorker(f: Fields, section: Section, now: int)
    requires OneWorker(f) && SectionOk(section, f) && section.Held?
    ensures OneWorker(FieldsNext(f, section.work, now))
  {
    match section.work
    case StopSignalled =>
    case StopReaped =>
    case StartAwaiting =>
    case StartProcess =>
    case _ =>
  }

  lemma KeepsOneWorker(s: State, step: Step)
    requires OneWorker(s.f) && SectionOk(s.c.section, s.f) && Enabled(s, step)
    ensures OneWorker(Next(s, step).f)
  {
    hide ControlNext, WatchNext, FieldsNext;
    if step.SectionStep? {
      FieldsKeepOneWorker(s.f, s.c.section, s.now);
      hide OneWorker;
    }
  }

  lemma OperateKeepsSection(s: State)
    requires OneWorker(s.f) && SectionOk(s.c.section, s.f) && s.c.section.Held?
    ensures SectionOk(Operate(s).c.section, Operate(s).f)
  {
    hide WatchNext;
    match s.c.section.work
    case Check =>
    case ReadHeartbeat =>
    case StopBegin =>
    case StopSignalled =>
    case StopReaped =>
    case StopCleared =>
    case StartBegin =>
    case StartHeartbeat =>
    case StartAwaiting =>
    case StartProcess =>
    case StartLaunched =>
  }

  /** The next operation under the lock finds what it relies on. */
  lemma KeepsSection(s: State, step: Step)
    requires OneWorker(s.f) && SectionOk(s.c.section, s.f) && Enabled(s, step)
    requires s.c.starter.StarterIdle? ==> s.f.process.None?
    ensures SectionOk(Next(s, step).c.section, Next(s, step).f)
  {
    if step.SectionStep? {
      OperateKeepsSection(s);
      hide Operate;
    } else {
      hide Operate;
    }
  }

  lemma KeepsUnstarted(s: State, step: Step)
    requires ThreadsOk(s.c) && ProcessOk(s) && Enabled(s, step)
    ensures Next(s, step).c.starter.StarterIdle? ==> Next(s, step).f.process.None?
  {
    hide WatchNext, OneWorker;
    if step.SectionStep? {
      ProcessAfter(s.f, s.c.section.work, s.now);
      StarterMoves(s.c, s.f.process.None?, !s.f.Alive() || s.w.readAt - s.f.heartbeat >= s.timeout);
      hide FieldsNext, ControlNext;
    }
  }

  /** Under the lock the starter only moves on, and no one else creates a process before it. */
  lemma StarterMoves(c: Control, none: bool, failed: bool)
    requires ThreadsOk(c) && c.section.Held?
    ensures ControlNext(c, none, failed).starter.StarterIdle? ==> c.starter.StarterIdle?
    ensures c.starter.StarterIdle? ==> !c.section.who.Monitor? && !Starting(c.section.work)
  {
  }

  lemma FieldsKeepShared(f: Fields, section: Section, now: int)
    requires OneWorker(f) && SectionOk(section, f) && SharedOk(f) && section.Held?
    ensures SharedOk(FieldsNext(f, section.work, now))
  {
    match section.work
    case StopSignalled =>
    case StopReaped =>
    case StartBegin =>
    case StartHeartbeat =>
    case StartAwaiting =>
    case StartProcess =>
    case _ =>
  }

  lemma KeepsShared(s: State, step: Step)
    requires ProcessOk(s) && SharedOk(s.f) && Enabled(s, step)
    ensures SharedOk(Next(s, step).f)
  {
    hide ControlNext, WatchNext, FieldsNext;
    if step.SectionStep? {
      FieldsKeepShared(s.f, s.c.section, s.now);
      hide SharedOk;
    }
  }

  lemma FieldsKeepMuxes(f: Fields, section: Section, now: int)
    requires OneWorker(f) && SectionOk(section, f) && MuxesOk(f) && section.Held?
    ensures MuxesOk(FieldsNext(f, section.work, now))
  {
    match section.work
    case StopSignalled =>
    case StopReaped =>
    case StartBegin =>
    case StartHeartbeat =>
    case StartAwaiting =>
    case StartProcess =>
    case _ =>
  }

  lemma KeepsMuxes(s: State, step: Step)
    requires ProcessOk(s) && SharedOk(s.f) && MuxesOk(s.f) && Enabled(s, step)
    ensures MuxesOk(Next(s, step).f)
  {
    hide ControlNext, WatchNext, FieldsNext;
    if step.SectionStep? {
      FieldsKeepMuxes(s.f, s.c.section, s.now);
      hide MuxesOk;
    }
  }

  lemma FieldsKeepTimes(s: State)
    requires ProcessOk(s) && TimesOk(s.f, s.now) && s.c.section.Held?
    ensures TimesOk(FieldsNext(s.f, s.c.section.work, s.now), s.now)
  {
    match s.c.section.work
    case StopSignalled =>
    case StopReaped =>
    case StartBegin =>
    case StartAwaiting =>
    case StartProcess =>
    case _ =>
  }

  lemma KeepsTimes(s: State, step: Step)
    requires ProcessOk(s) && TimesOk(s.f, s.now) && SharedOk(s.f) && Enabled(s, step)
    ensures TimesOk(Next(s, step).f, Next(s, step).now)
  {
    hide ControlNext, WatchNext, FieldsNext;
    if step.SectionStep? {
      FieldsKeepTimes(s);
      hide TimesOk;
    }
  }

  /** The monitor gets to stopping only by finding a failure. */
  lemma DecisionComesFrom(c: Control, none: bool, failed: bool)
    requires c.section.Held?
    ensures var r := ControlNext(c, none, failed).section;
            && (r == Held(Monitor, StopBegin) ==> c.section == Held(Monitor, ReadHeartbeat) && failed)
            && (r == Held(Monitor, StopSignalled) ==> c.section == Held(Monitor, StopBegin))
  {
  }

  lemma OperateKeepsDecision(s: State)
    requires ThreadsOk(s.c) && ProcessOk(s) && TimesOk(s.f, s.now) && DecisionOk(s) && s.c.section.Held?
    ensures DecisionOk(Operate(s))
  {
    DecisionComesFrom(s.c, s.f.process.None?, !s.f.Alive() || s.w.readAt - s.f.heartbeat >= s.timeout);
    hide ControlNext;
  }

  lemma KeepsDecision(s: State, step: Step)
    requires ThreadsOk(s.c) && ProcessOk(s) && TimesOk(s.f, s.now) && DecisionOk(s) && Enabled(s, step)
    ensures DecisionOk(Next(s, step))
  {
    if step.SectionStep? {
      OperateKeepsDecision(s);
      hide Operate;
    } else {
      hide Operate;
    }
  }

  lemma KeepsKills(s: State, step: Step)
    requires ProcessOk(s) && MuxesOk(s.f) && TimesOk(s.f, s.now) && DecisionOk(s) && KillsOk(s) && Enabled(s, step)
    ensures KillsOk(Next(s, step))
  {
    hide ControlNext;
  }

  lemma ProcessAfter(f: Fields, work: Work, now: int)
    ensures FieldsNext(f, work, now).process
         == if work.StopReaped? then None else if work.StartAwaiting? then Some(f.next) else f.process
  {
  }

  lemma OperateKeepsStopped(s: State)
    requires ThreadsOk(s.c) && SectionOk(s.c.section, s.f) && StoppedOk(s.c, s.f.process.None?) && s.c.section.Held?
    ensures StoppedOk(Operate(s).c, Operate(s).f.process.None?)
  {
    ProcessAfter(s.f, s.c.section.work, s.now);
    hide WatchNext, FieldsNext;
    match s.c.section.work
    case Check =>
    case ReadHeartbeat =>
    case StopBegin =>
    case StopCleared =>
    case StartProcess =>
    case StartLaunched =>
    case _ =>
  }

  lemma KeepsStopped(s: State, step: Step)
    requires ThreadsOk(s.c) && ProcessOk(s) && StoppedOk(s.c, s.f.process.None?) && Enabled(s, step)
    ensures StoppedOk(Next(s, step).c, Next(s, step).f.process.None?)
  {
    if step.SectionStep? {
      OperateKeepsStopped(s);
      hide Operate;
    } else {
      hide Operate, OneWorker;
    }
  }

  lemma OperateKeepsRaised(c: Control, f: Fields, failed: bool, now: int)
    requires ThreadsOk(c) && SectionOk(c.section, f) && RaisedOk(c, f.process.None?) && c.section.Held?
    ensures RaisedOk(ControlNext(c, f.process.None?, failed), FieldsNext(f, c.section.work, now).process.None?)
  {
    ProcessAfter(f, c.section.work, now);
    hide FieldsNext;
    match c.section.work
    case Check =>
    case ReadHeartbeat =>
    case StopBegin =>
    case StopCleared =>
    case StartLaunched =>
    case _ =>
  }

  lemma KeepsRaised(s: State, step: Step)
    requires ThreadsOk(s.c) && SectionOk(s.c.section, s.f) && RaisedOk(s.c, s.f.process.None?) && Enabled(s, step)
    ensures RaisedOk(Next(s, step).c, Next(s, step).f.process.None?)
  {
    hide WatchNext, FieldsNext, ControlNext;
    if step.SectionStep? {
      OperateKeepsRaised(s.c, s.f, !s.f.Alive() || s.w.readAt - s.f.heartbeat >= s.timeout, s.now);
      hide RaisedOk;
    }
  }

  lemma InvStep(s: State, step: Step)
    requires Inv(s) && Enabled(s, step)
    ensures Inv(Next(s, step))
  {
    hide Next;
    KeepsThreads(s, step);
    KeepsOneWorker(s, step);
    KeepsSection(s, step);
    KeepsUnstarted(s, step);
    KeepsShared(s, step);
    KeepsMuxes(s, step);
    KeepsTimes(s, step);
    KeepsDecision(s, step);
    KeepsKills(s, step);
    KeepsStopped(s, step);
    KeepsRaised(s, step);
  }

  // ---------- Whole runs ----------

  predicate IsRun(timeout: int, now: int, states: seq<State>, steps: seq<Step>) {
    && |states| == |steps| + 1 && states[0] == Initial(timeout, now)
    && forall i :: 0 <= i < |steps| ==> Enabled(states[i], steps[i]) && states[i + 1] == Next(states[i], steps[i])
  }

  lemma {:induction false} RunKeepsInv(timeout: int, now: int, states: seq<State>, steps: seq<Step>, n: nat)
    requires IsRun(timeout, now, states, steps) && n <= |steps|
    ensures Inv(states[n])
  {
    hide Inv, Next;
    if n == 0 {
      InitialOk(timeout, now);
    } else {
      RunKeepsInv(timeout, now, states, steps, n - 1);
      InvStep(states[n - 1], steps[n - 1]);
    }
  }

  /** In every interleaving at most one worker process is alive. */
  lemma AtMostOneWorker(timeout: int, now: int, states: seq<State>, steps: seq<Step>, n: nat, a: Id, b: Id)
    requires IsRun(timeout, now, states, steps) && n <= |steps|
    requires a in states[n].f.workers && b in states[n].f.workers
    ensures a == b && states[n].f.process == Some(a)
  {
    RunKeepsInv(timeout, now, states, steps, n);
  }

  /** After `stop` has returned, a `start` that came before stays before, and nothing is started. */
  lemma StoppedStep(s: State, step: Step)
    requires ThreadsOk(s.c) && StoppedOk(s.c, s.f.process.None?) && Enabled(s, step)
    requires s.c.stopper.StopperReturned? && !s.c.starter.StarterIdle? && !s.c.lateStart
    ensures var r := Next(s, step);
            r.c.stopper.StopperReturned? && !r.c.starter.StarterIdle? && !r.c.lateStart && r.f.next == s.f.next
  {
    hide WatchNext;
  }

  lemma {:induction false} StoppedRun(timeout: int, now: int, states: seq<State>, steps: seq<Step>, n: nat, m: nat)
    requires IsRun(timeout, now, states, steps) && n <= m <= |steps|
    requires states[n].c.stopper.StopperReturned? && !states[n].c.starter.StarterIdle? && !states[n].c.lateStart
    ensures states[m].c.stopper.StopperReturned? && !states[m].c.starter.StarterIdle? && !states[m].c.lateStart
    ensures states[m].f.next == states[n].f.next
    decreases m - n
  {
    hide Next, Enabled, ThreadsOk, ProcessOk, SharedOk, MuxesOk, TimesOk, DecisionOk, KillsOk, StoppedOk, RaisedOk;
    if n < m {
      StoppedRun(timeout, now, states, steps, n, m - 1);
      RunKeepsInv(timeout, now, states, steps, m - 1);
      StoppedStep(states[m - 1], steps[m - 1]);
    }
  }

  /**
    Once `stop` has returned after a `start` that entered its section first, at every later
    moment no worker is alive and none has been created or launched since, whatever the
    monitor was doing when its join timed out.
   */
  lemma StopIsFinal(timeout: int, now: int, states: seq<State>, steps: seq<Step>, n: nat, m: nat)
    requires IsRun(timeout, now, states, steps) && n <= m <= |steps|
    requires states[n].c.stopper.StopperReturned? && !states[n].c.starter.StarterIdle? && !states[n].c.lateStart
    ensures states[m].f.workers == map[] && states[m].f.process.None?
    ensures !states[m].c.lateLaunch && states[m].f.next == states[n].f.next
  {
    StoppedRun(timeout, now, states, steps, n, m);
    RunKeepsInv(timeout, now, states, steps, m);
  }

  /** A worker is launched after `stop` exactly when `start` entered its section after `stop` left its own. */
  lemma LaunchAfterStopIffLateStart(timeout: int, now: int, states: seq<State>, steps: seq<Step>, n: nat)
    requires IsRun(timeout, now, states, steps) && n <= |steps|
    requires !states[n].c.starter.StarterIdle? && !states[n].c.starter.StarterInSection?
    ensures states[n].c.lateLaunch <==> states[n].c.lateStart
  {
    RunKeepsInv(timeout, now, states, steps, n);
  }

  /**
    The monitor kills a live worker no sooner than the timeout after its start began.  It
    kills one that muxed less than the timeout ago exactly when, at the kill, the heartbeat
    is fresh again or the worker has not yet written the heartbeat of a mux that recent; so
    the heartbeat of that mux was not written when the monitor read it.
   */
  lemma MonitorKillsStalledOnly(timeout: int, now: int, states: seq<State>, steps: seq<Step>, n: nat, i: nat)
    requires IsRun(timeout, now, states, steps) && n <= |steps| && i < |states[n].w.kills|
    requires states[n].w.kills[i].who.Monitor?
    ensures var k := states[n].w.kills[i];
            && k.worker in states[n].f.stamp && states[n].f.stamp[k.worker] + timeout <= k.at
            && (Early(timeout, k) <==> k.at - k.heartbeat < timeout || (k.pc.Stamped? && k.at - k.pc.at < timeout))
            && (Early(timeout, k) ==> k.recordedSinceRead || k.pc.Stamped?)
  {
    RunKeepsInv(timeout, now, states, steps, n);
    TimeoutFixed(timeout, now, states, steps, n);
    assert KillOk(timeout, states[n].f.stamp, states[n].w.kills[i]);
  }

  /** The step by which the holder of the lock begins to start the worker `w`. */
  predicate Begins(s: State, step: Step, w: Id)
    requires Enabled(s, step)
  {
    step.SectionStep? && s.c.section.work.StartBegin? && s.f.next == w
  }

  /** A start of `w` that began at `at` is under way, or `w` was created with that time as its stamp. */
  predicate BegunAt(s: State, w: Id, at: int) {
    || (s.f.next == w && s.f.process.None? && s.f.heartbeat == at && s.c.section.Held?
        && (s.c.section.work.StartHeartbeat? || s.c.section.work.StartAwaiting?))
    || (s.f.next > w && w in s.f.stamp && s.f.stamp[w] == at)
  }

  lemma BeginStep(s: State, step: Step, w: Id)
    requires SectionOk(s.c.section, s.f) && Enabled(s, step) && Begins(s, step, w)
    ensures BegunAt(Next(s, step), w, s.now)
  {
    hide WatchNext;
  }

  lemma BegunOperates(s: State, w: Id, at: int)
    requires s.c.section.Held? && BegunAt(s, w, at)
    ensures BegunAt(Operate(s), w, at)
  {
    hide WatchNext;
    match s.c.section.work
    case StartHeartbeat =>
    case StartAwaiting =>
    case _ =>
  }

  lemma BegunStays(s: State, step: Step, w: Id, at: int)
    requires OneWorker(s.f) && Enabled(s, step) && BegunAt(s, w, at)
    ensures BegunAt(Next(s, step), w, at)
  {
    if step.SectionStep? {
      BegunOperates(s, w, at);
    }
    hide Operate;
  }

  lemma {:induction false} BegunRun(
    timeout: int, now: int, states: seq<State>, steps: seq<Step>, k: nat, n: nat, w: Id)
    requires IsRun(timeout, now, states, steps) && k < n <= |steps| && Begins(states[k], steps[k], w)
    ensures BegunAt(states[n], w, states[k].now)
    decreases n - k
  {
    RunKeepsInv(timeout, now, states, steps, n - 1);
    hide Next, Enabled, OneWorker, SectionOk, SharedOk, MuxesOk, TimesOk, DecisionOk, KillsOk, StoppedOk, RaisedOk;
    hide ThreadsOk, BegunAt, Begins;
    if k < n - 1 {
      BegunRun(timeout, now, states, steps, k, n - 1, w);
      BegunStays(states[n - 1], steps[n - 1], w, states[k].now);
    } else {
      BeginStep(states[k], steps[k], w);
    }
  }

  /** A start under way, or a created worker, was begun by a step before. */
  predicate Under(s: State, w: Id) {
    || (s.f.next == w && s.c.section.Held? && (s.c.section.work.StartHeartbeat? || s.c.section.work.StartAwaiting?))
    || w in s.f.stamp
  }

  lemma UnderComesFrom(s: State, step: Step, w: Id)
    requires Enabled(s, step) && Under(Next(s, step), w)
    ensures Under(s, w) || Begins(s, step, w)
  {
    if step.SectionStep? {
      match s.c.section.work
      case StartBegin =>
      case StartHeartbeat =>
      case StartAwaiting =>
      case _ =>
    }
    hide WatchNext;
  }

  lemma {:induction false} WasBegun(
    timeout: int, now: int, states: seq<State>, steps: seq<Step>, n: nat, w: Id) returns (k: nat)
    requires IsRun(timeout, now, states, steps) && n <= |steps| && Under(states[n], w)
    ensures k < n && Begins(states[k], steps[k], w)
  {
    hide Next, Under;
    if n == 0 {
      NothingUnder(timeout, now, w);
    } else {
      UnderComesFrom(states[n - 1], steps[n - 1], w);
      if Under(states[n - 1], w) {
        k := WasBegun(timeout, now, states, steps, n - 1, w);
      } else {
        k := n - 1;
      }
    }
  }

  lemma NothingUnder(timeout: int, now: int, w: Id)
    ensures !Under(Initial(timeout, now), w)
  {
  }

  /**
    By the clock alone: every worker that the monitor kills was begun by a step of the run,
    and is killed no sooner than the timeout after that step.
   */
  lemma MonitorGivesEachWorkerItsTime(
    timeout: int, now: int, states: seq<State>, steps: seq<Step>, n: nat, i: nat)
    requires IsRun(timeout, now, states, steps) && n <= |steps| && i < |states[n].w.kills|
    requires states[n].w.kills[i].who.Monitor?
    ensures var kill := states[n].w.kills[i];
            && (exists k :: 0 <= k < n && Begins(states[k], steps[k], kill.worker))
            && (forall k :: 0 <= k < n && Begins(states[k], steps[k], kill.worker) ==>
                  states[k].now + timeout <= kill.at)
  {
    var kill := states[n].w.kills[i];
    MonitorKillsStalledOnly(timeout, now, states, steps, n, i);
    RunKeepsInv(timeout, now, states, steps, n);
    var first := WasBegun(timeout, now, states, steps, n, kill.worker);
    forall k | 0 <= k < n && Begins(states[k], steps[k], kill.worker)
      ensures states[k].now + timeout <= kill.at
    {
      BegunRun(timeout, now, states, steps, k, n, kill.worker);
    }
  }

  lemma {:induction false} TimeoutFixed(timeout: int, now: int, states: seq<State>, steps: seq<Step>, n: nat)
    requires IsRun(timeout, now, states, steps) && n <= |steps|
    ensures states[n].timeout == timeout
  {
    hide ControlNext, FieldsNext, WatchNext, WriteNext;
    if n > 0 {
      TimeoutFixed(timeout, now, states, steps, n - 1);
      assert states[n - 1 + 1] == Next(states[n - 1], steps[n - 1]);
    }
  }

  // ---------- The connection status ----------

  /** `connection_status` on one snapshot, condition by condition. */
  predicate Connected(s: State) {
    if !s.f.hasSuccessfulMux then false
    else if s.f.awaitingMux then false
    else if !s.f.Alive() then false
    else s.now - s.f.heartbeat < s.timeout
  }

  /**
    In every reachable state: connected means that the current worker is alive and muxed
    less than the timeout ago; a live worker that did so and has made its shared writes is
    shown as connected; and between a mux and its writes the last recorded mux decides.
   */
  lemma ConnectedMeansRecentMux(timeout: int, now: int, states: seq<State>, steps: seq<Step>, n: nat)
    requires IsRun(timeout, now, states, steps) && n <= |steps|
    ensures var s := states[n];
            && (Connected(s) ==>
                s.f.Alive() && s.f.process.value in s.f.muxes && s.now - s.f.muxes[s.f.process.value] < timeout)
            && (s.f.Alive() && s.f.workers[s.f.process.value].Idle? ==>
                  (Connected(s) <==> s.f.process.value in s.f.muxes && s.now - s.f.muxes[s.f.process.value] < timeout))
            && (Connected(s) <==> s.f.Alive() && !s.f.awaitingMux && s.f.process.value in s.f.muxed
                                  && s.now - s.f.muxed[s.f.process.value] < timeout)
  {
    RunKeepsInv(timeout, now, states, steps, n);
    TimeoutFixed(timeout, now, states, steps, n);
    hide IsRun;
  }

  /**
    Between restarts, a worker that no longer awaits its first mux has one, and the
    heartbeat is the time of the last one it has recorded: of its last one, unless it is
    about to write a later one.
   */
  lemma HeartbeatIsCurrentMux(timeout: int, now: int, states: seq<State>, steps: seq<Step>, n: nat)
    requires IsRun(timeout, now, states, steps) && n <= |steps|
    requires states[n].f.process.Some? && !states[n].f.awaitingMux
    ensures var f := states[n].f;
            && f.hasSuccessfulMux && f.process.value in f.muxed
                && f.heartbeat == f.muxed[f.process.value] <= states[n].now
            && (f.Alive() && !f.workers[f.process.value].Stamped? ==> f.LastMux(f.process.value) == Some(f.heartbeat))
            && (f.Alive() && f.workers[f.process.value].Stamped? ==>
                  f.LastMux(f.process.value).Some? && f.heartbeat <= f.LastMux(f.process.value).value)
  {
    RunKeepsInv(timeout, now, states, steps, n);
  }

  /**
    Once `stop` has ended, after a `start` that entered its section first, the process
    field is empty if and only if `stop` returned; after it raised, the monitor never gets
    to its section, and the worker is left alone.
   */
  lemma StopDropsWorkerIffItReturned(timeout: int, now: int, states: seq<State>, steps: seq<Step>, n: nat)
    requires IsRun(timeout, now, states, steps) && n <= |steps|
    requires (states[n].c.stopper.StopperReturned? && !states[n].c.lateStart) || states[n].c.stopper.StopperRaised?
    ensures var s := states[n];
            && (s.f.process.None? <==> s.c.stopper.StopperReturned?)
            && (s.c.stopper.StopperRaised? ==> !s.c.section.Held? && !s.c.monitor.MonitorWanting?)
  {
    RunKeepsInv(timeout, now, states, steps, n);
  }

  /** `stop` raises in exactly one step: its join, while the monitor thread is created and not started. */
  lemma RaisesAtJoin(s: State, step: Step)
    requires ThreadsOk(s.c) && Enabled(s, step)
    ensures Next(s, step).c.stopper.StopperRaised? <==>
            s.c.stopper.StopperRaised? || (step.StopperJoin? && s.c.starter.StarterSpawned?)
  {
    hide FieldsNext, WatchNext, WriteNext;
  }

  /**
    In every run `stop` has raised if and only if it joined the monitor thread at a moment
    at which `start` had created that thread and not yet started it.
   */
  lemma {:induction false} StopRaisesIffJoinedUnstarted(
    timeout: int, now: int, states: seq<State>, steps: seq<Step>, n: nat)
    requires IsRun(timeout, now, states, steps) && n <= |steps|
    ensures states[n].c.stopper.StopperRaised? <==>
            exists k :: 0 <= k < n && steps[k].StopperJoin? && states[k].c.starter.StarterSpawned?
  {
    hide Next, Enabled, ProcessOk, SharedOk, MuxesOk, TimesOk, DecisionOk, KillsOk, StoppedOk, RaisedOk;
    if n > 0 {
      StopRaisesIffJoinedUnstarted(timeout, now, states, steps, n - 1);
      RunKeepsInv(timeout, now, states, steps, n - 1);
      RaisesAtJoin(states[n - 1], steps[n - 1]);
    }
  }

  /** So the process field still holds the worker after `stop` has ended exactly if it joined at such a moment. */
  lemma StopLeavesWorkerIffJoinedUnstarted(timeout: int, now: int, states: seq<State>, steps: seq<Step>, n: nat)
    requires IsRun(timeout, now, states, steps) && n <= |steps|
    requires (states[n].c.stopper.StopperReturned? && !states[n].c.lateStart) || states[n].c.stopper.StopperRaised?
    ensures states[n].f.process.Some? <==>
            exists k :: 0 <= k < n && steps[k].StopperJoin? && states[k].c.starter.StarterSpawned?
  {
    StopRaisesIffJoinedUnstarted(timeout, now, states, steps, n);
    StopDropsWorkerIffItReturned(timeout, now, states, steps, n);
  }

  lemma StarterStaysDone(s: State, step: Step)
    requires ThreadsOk(s.c) && Enabled(s, step) && s.c.starter.StarterDone?
    ensures Next(s, step).c.starter.StarterDone? && Next(s, step).c.lateStart == s.c.lateStart
    ensures Next(s, step).c.stopper.StopperRaised? ==> s.c.stopper.StopperRaised?
  {
    RaisesAtJoin(s, step);
    hide FieldsNext, WatchNext, WriteNext;
  }

  /** Once `start` has returned, a `stop` that has not raised never will. */
  lemma {:induction false} StopAfterStartNeverRaises(
    timeout: int, now: int, states: seq<State>, steps: seq<Step>, k: nat, n: nat)
    requires IsRun(timeout, now, states, steps) && k <= n <= |steps|
    requires states[k].c.starter.StarterDone? && !states[k].c.stopper.StopperRaised?
    ensures states[n].c.starter.StarterDone? && !states[n].c.stopper.StopperRaised?
    ensures states[n].c.lateStart == states[k].c.lateStart
    decreases n - k
  {
    hide Next, Enabled, ThreadsOk, ProcessOk, SharedOk, MuxesOk, TimesOk, DecisionOk, KillsOk, StoppedOk, RaisedOk;
    if k < n {
      StopAfterStartNeverRaises(timeout, now, states, steps, k, n - 1);
      RunKeepsInv(timeout, now, states, steps, n - 1);
      StarterStaysDone(states[n - 1], steps[n - 1]);
    }
  }

  /** So a `stop` that is called after `start` has returned does not raise, and stops the worker when it returns. */
  lemma StopAfterStartStops(timeout: int, now: int, states: seq<State>, steps: seq<Step>, k: nat, n: nat)
    requires IsRun(timeout, now, states, steps) && k <= n <= |steps|
    requires states[k].c.starter.StarterDone? && states[k].c.stopper.StopperIdle?
    ensures !states[n].c.stopper.StopperRaised?
    ensures states[n].c.stopper.StopperReturned? ==> states[n].f.workers == map[] && states[n].f.process.None?
  {
    RunKeepsInv(timeout, now, states, steps, k);
    StopAfterStartNeverRaises(timeout, now, states, steps, k, n);
    if states[n].c.stopper.StopperReturned? {
      StopIsFinal(timeout, now, states, steps, n, n);
    }
  }

  /** A mux at time `now` and its three shared writes, when nothing comes between them. */
  lemma MuxAndWrites(s: State, w: Id)
    requires w in s.f.workers && s.f.workers[w].Idle?
    ensures var s1 := Next(s, WorkerMux(w));
            && Enabled(s1, WorkerWrite(w))
            && var s2 := Next(s1, WorkerWrite(w));
               && s2.f.heartbeat == s.now && s2.f.hasSuccessfulMux == s.f.hasSuccessfulMux
               && s2.f.awaitingMux == s.f.awaitingMux && Enabled(s2, WorkerWrite(w))
               && var s3 := Next(s2, WorkerWrite(w));
                  && s3.f.heartbeat == s.now && s3.f.hasSuccessfulMux
                  && s3.f.awaitingMux == s.f.awaitingMux && Enabled(s3, WorkerWrite(w))
                  && var s4 := Next(s3, WorkerWrite(w));
                     && s4.f.heartbeat == s.now && s4.f.hasSuccessfulMux && !s4.f.awaitingMux
                     && w in s4.f.workers && s4.f.workers[w].Idle?
  {
  }

  // ---------- What the code does not promise ----------

  /** A run with one more step. */
  lemma Extend(timeout: int, now: int, states: seq<State>, steps: seq<Step>, s: State, step: Step, r: State)
    returns (states': seq<State>, steps': seq<Step>)
    requires IsRun(timeout, now, states, steps) && s == states[|steps|]
    requires Enabled(s, step) && r == Next(s, step)
    ensures IsRun(timeout, now, states', steps') && states' == states + [r] && steps' == steps + [step]
  {
    hide Enabled, Next;
    states', steps' := states + [r], steps + [step];
  }

  lemma Operated(states: seq<State>, steps: seq<Step>, s: State, r: State)
    returns (states': seq<State>, steps': seq<Step>)
    requires IsRun(10, 0, states, steps) && s == states[|steps|]
    requires s.c.section.Held? && r == Operate(s)
    ensures IsRun(10, 0, states', steps') && states' == states + [r] && steps' == steps + [SectionStep]
  {
    hide Operate;
    states', steps' := Extend(10, 0, states, steps, s, SectionStep, r);
  }

  /** The fields after a start's five operations. */
  function Started(f: Fields, now: int): Fields {
    f.(heartbeat := now, awaitingMux := true, process := Some(f.next), stamp := f.stamp[f.next := now],
       next := f.next + 1, workers := map[f.next := Idle])
  }

  /** The starter goes through its section from its first operation on. */
  lemma StartSection(states: seq<State>, steps: seq<Step>, c: Control, f: Fields, w: Watch)
    returns (states': seq<State>, steps': seq<Step>)
    requires IsRun(10, 0, states, steps)
    requires states[|steps|] == State(10, 0, c.(section := Held(Starter, StartBegin)), f, w)
    requires f.process.None? && f.workers == map[]
    ensures IsRun(10, 0, states', steps') && |states'| == |states| + 5 && |steps'| == |steps| + 5
    ensures states <= states'
    ensures states'[|steps'|] == State(10, 0,
              c.(section := Free, starter := StarterSpawning, lateLaunch := c.lateLaunch || c.stopper.StopperReturned?),
              Started(f, 0), w)
  {
    var created := Started(f, 0).(workers := map[]);
    states', steps' := CreateSection(states, steps, c, f, w);
    var launched := c.(lateLaunch := c.lateLaunch || c.stopper.StopperReturned?);
    var s4 := State(10, 0, c.(section := Held(Starter, StartProcess)), created, w);
    var s5 := State(10, 0, launched.(section := Held(Starter, StartLaunched)), Started(f, 0), w);
    var s6 := State(10, 0, launched.(section := Free, starter := StarterSpawning), Started(f, 0), w);
    hide IsRun, Next;
    states', steps' := Operated(states', steps', s4, s5);
    states', steps' := Operated(states', steps', s5, s6);
  }

  lemma CreateSection(states: seq<State>, steps: seq<Step>, c: Control, f: Fields, w: Watch)
    returns (states': seq<State>, steps': seq<Step>)
    requires IsRun(10, 0, states, steps)
    requires states[|steps|] == State(10, 0, c.(section := Held(Starter, StartBegin)), f, w)
    requires f.process.None? && f.workers == map[]
    ensures IsRun(10, 0, states', steps') && |states'| == |states| + 3 && |steps'| == |steps| + 3
    ensures states <= states'
    ensures states'[|steps'|]
         == State(10, 0, c.(section := Held(Starter, StartProcess)), Started(f, 0).(workers := map[]), w)
  {
    var s1 := State(10, 0, c.(section := Held(Starter, StartBegin)), f, w);
    var s2 := State(10, 0, c.(section := Held(Starter, StartHeartbeat)), f.(heartbeat := 0), w);
    var s3 := State(10, 0, c.(section := Held(Starter, StartAwaiting)), s2.f.(awaitingMux := true), w);
    var s4 := State(10, 0, c.(section := Held(Starter, StartProcess)), Started(f, 0).(workers := map[]), w);
    assert |states| == |steps| + 1;
    hide IsRun, Next;
    states', steps' := Operated(states, steps, s1, s2);
    states', steps' := Operated(states', steps', s2, s3);
    states', steps' := Operated(states', steps', s3, s4);
  }

  /** A `start` whose section comes after that of `stop` leaves a worker running. */
  lemma LateStartLeavesWorker() returns (states: seq<State>, steps: seq<Step>)
    ensures IsRun(10, 0, states, steps) && |states| == 12 && |steps| == 11
    ensures states[5].c.stopper.StopperReturned? && states[11].f.Alive() && states[11].c.lateLaunch
  {
    var f := Fields(None, map[], 0, false, true, 0, map[], map[], map[]);
    var watch := Watch(0, 0, false, []);
    var c := Control(Free, StarterIdle, MonitorAbsent, StopperReturned, true, false, false);
    states, steps := ReturnedStop();
    hide IsRun;
    var late := c.(starter := StarterInSection, lateStart := true);
    var s6 := State(10, 0, late.(section := Held(Starter, StartBegin)), f, watch);
    states, steps := Extend(10, 0, states, steps, states[5], StarterAcquire, s6);
    states, steps := StartSection(states, steps, late, f, watch);
  }

  lemma ReturnedStop() returns (states: seq<State>, steps: seq<Step>)
    ensures IsRun(10, 0, states, steps) && |states| == 6 && |steps| == 5
    ensures states[5] == State(10, 0,
              Control(Free, StarterIdle, MonitorAbsent, StopperReturned, true, false, false),
              Fields(None, map[], 0, false, true, 0, map[], map[], map[]), Watch(0, 0, false, []))
  {
    var s0 := Initial(10, 0);
    var s1 := Next(s0, StopperSignal);
    var s2 := Next(s1, StopperJoin);
    var s3 := Next(s2, StopperAcquire);
    var s4 := Next(s3, SectionStep);
    var s5 := Next(s4, SectionStep);
    states, steps := [s0, s1, s2, s3, s4, s5], [StopperSignal, StopperJoin, StopperAcquire, SectionStep, SectionStep];
  }

  /** A started worker, with the starter about to create the monitor thread. */
  lemma StartedWorker() returns (states: seq<State>, steps: seq<Step>)
    ensures IsRun(10, 0, states, steps) && |states| == 7 && |steps| == 6
    ensures states[6] == State(10, 0,
              Control(Free, StarterSpawning, MonitorAbsent, StopperIdle, false, false, false),
              Fields(Some(0), map[0 := Idle], 0, false, true, 1, map[0 := 0], map[], map[]), Watch(0, 0, false, []))
  {
    var none: map<Id, int> := map[];
    assert none[0 := 0] == map[0 := 0];
    var c := Control(Free, StarterInSection, MonitorAbsent, StopperIdle, false, false, false);
    var f := Fields(None, map[], 0, false, true, 0, map[], map[], map[]);
    var s0 := Initial(10, 0);
    var s1 := s0.(c := c.(section := Held(Starter, StartBegin)));
    states, steps := [s0], [];
    states, steps := Extend(10, 0, states, steps, s0, StarterAcquire, s1);
    hide IsRun;
    states, steps := StartSection(states, steps, c, f, s0.w);
  }

  /** The monitor has found the heartbeat of a started worker too old and is about to stop it. */
  lemma StalledWorker() returns (states: seq<State>, steps: seq<Step>)
    ensures IsRun(10, 0, states, steps) && |steps| == 13 && |states| == 14
    ensures states[13] == State(10, 10,
              Control(Held(Monitor, StopBegin), StarterDone, MonitorInSection, StopperIdle, false, false, false),
              Fields(Some(0), map[0 := Idle], 0, false, true, 1, map[0 := 0], map[], map[]), Watch(10, 0, false, []))
  {
    hide IsRun;
    states, steps := StartedWorker();
    var s6 := states[6];
    var s7 := Next(s6, CreateMonitor);
    var s8 := Next(s7, StartMonitor);
    var s9 := Next(s8, Tick(10));
    var s10 := Next(s9, MonitorWake);
    var s11 := Next(s10, MonitorAcquire);
    var s12 := Next(s11, SectionStep);
    states, steps := Extend(10, 0, states, steps, s6, CreateMonitor, s7);
    states, steps := Extend(10, 0, states, steps, s7, StartMonitor, s8);
    states, steps := Extend(10, 0, states, steps, s8, Tick(10), s9);
    states, steps := Extend(10, 0, states, steps, s9, MonitorWake, s10);
    states, steps := Extend(10, 0, states, steps, s10, MonitorAcquire, s11);
    states, steps := Extend(10, 0, states, steps, s11, SectionStep, s12);
    states, steps := Extend(10, 0, states, steps, s12, SectionStep, Next(s12, SectionStep));
  }

  /** A worker that muxes and records it between the monitor's reading and the kill is killed at once. */
  lemma MonitorCanKillAfterMux() returns (states: seq<State>, steps: seq<Step>)
    ensures IsRun(10, 0, states, steps) && |steps| == 17
    ensures states[17].w.kills == [Kill(Monitor, 0, HeartbeatWritten, 10, 10, Some(10), true)]
    ensures Early(10, states[17].w.kills[0])
  {
    hide IsRun;
    states, steps := StalledWorker();
    var s13 := states[13];
    var s14 := Next(s13, WorkerMux(0));
    var s15 := Next(s14, WorkerWrite(0));
    var s16 := Next(s15, SectionStep);
    states, steps := Extend(10, 0, states, steps, s13, WorkerMux(0), s14);
    states, steps := Extend(10, 0, states, steps, s14, WorkerWrite(0), s15);
    states, steps := Extend(10, 0, states, steps, s15, SectionStep, s16);
    states, steps := Extend(10, 0, states, steps, s16, SectionStep, Next(s16, SectionStep));
  }

  /** ... and so is one that has muxed and not written the heartbeat yet, which then is as old as before. */
  lemma MonitorCanKillBeforeWrite() returns (states: seq<State>, steps: seq<Step>)
    ensures IsRun(10, 0, states, steps) && |steps| == 16
    ensures states[16].w.kills == [Kill(Monitor, 0, Stamped(10), 10, 0, Some(10), false)]
    ensures Early(10, states[16].w.kills[0])
  {
    hide IsRun;
    states, steps := StalledWorker();
    var s13 := states[13];
    var s14 := Next(s13, WorkerMux(0));
    var s15 := Next(s14, SectionStep);
    states, steps := Extend(10, 0, states, steps, s13, WorkerMux(0), s14);
    states, steps := Extend(10, 0, states, steps, s14, SectionStep, s15);
    states, steps := Extend(10, 0, states, steps, s15, SectionStep, Next(s15, SectionStep));
  }

  /** A `stop` between the creation of the monitor thread and its start raises, and the worker stays alive. */
  lemma StopCanRaise() returns (states: seq<State>, steps: seq<Step>)
    ensures IsRun(10, 0, states, steps) && |steps| == 11
    ensures var s := states[11];
            s.c.stopper.StopperRaised? && s.c.starter.StarterDone? && s.c.monitor.MonitorExited? && s.f.Alive()
  {
    hide IsRun;
    states, steps := StartedWorker();
    var s6 := states[6];
    var s7 := Next(s6, CreateMonitor);
    var s8 := Next(s7, StopperSignal);
    var s9 := Next(s8, StopperJoin);
    var s10 := Next(s9, StartMonitor);
    states, steps := Extend(10, 0, states, steps, s6, CreateMonitor, s7);
    states, steps := Extend(10, 0, states, steps, s7, StopperSignal, s8);
    states, steps := Extend(10, 0, states, steps, s8, StopperJoin, s9);
    states, steps := Extend(10, 0, states, steps, s9, StartMonitor, s10);
    states, steps := Extend(10, 0, states, steps, s10, MonitorWake, Next(s10, MonitorWake));
  }
}
