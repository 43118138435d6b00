/**
  The sender object: its fields, the worker process it has launched, and its methods when
  their critical sections are not interleaved with anything.  SenderProtocol interleaves
  the single operations of the same sections.
 */
module Sender {
  import opened Options
  import opened SenderProtocol

  /** The fields after `_stop_process`. */
  function Stopped(f: Fields): Fields {
    if f.process.None? then f else f.(workers := f.workers - {f.process.value}, process := None)
  }

  /** The monitor takes the worker for dead or stalled. */
  predicate Failed(f: Fields, now: int, timeout: int) {
    !f.Alive() || now - f.heartbeat >= timeout
  }

  /** What one round of the monitor makes of the fields. */
  function Round(f: Fields, now: int, timeout: int, monitorStop: bool): Fields {
    if f.process.None? || !Failed(f, now, timeout) then f
    else if monitorStop then Stopped(f)
    else Started(Stopped(f), now)
  }

  lemma NoWorkerLeft(f: Fields)
    requires OneWorker(f)
    ensures Stopped(f).process.None? && Stopped(f).workers == map[]
  {
    assert forall w :: w !in Stopped(f).workers;
  }

  /**
    A round replaces the worker by a new one, with a heartbeat of now, exactly if it is
    dead or its heartbeat is as old as the timeout, and no stop was requested.
   */
  lemma RoundReplaces(f: Fields, now: int, timeout: int, monitorStop: bool)
    requires OneWorker(f)
    ensures var r := Round(f, now, timeout, monitorStop);
            && (f.process.None? ==> r == f)
            && (f.process.Some? && f.process.value in f.workers && now - f.heartbeat < timeout ==> r == f)
            && (f.process.Some? && (f.process.value !in f.workers || now - f.heartbeat >= timeout) ==>
                  && (monitorStop ==> r.process.None? && r.workers == map[])
                  && (!monitorStop ==> r.process == Some(f.next) && r.workers == map[f.next := Idle])
                  && (!monitorStop ==> r.heartbeat == now && r.awaitingMux))
  {
    NoWorkerLeft(f);
  }

  class Sender {
    const heartbeatTimeout: int
    var process: Option<Id>
    var workers: map<Id, WorkerPc>
    var heartbeat: int
    var hasSuccessfulMux: bool
    var awaitingMux: bool
    var next: Id
    var monitorStop: bool
    ghost var stamp: map<Id, int>
    ghost var muxed: map<Id, int>
    ghost var muxes: map<Id, int>

    ghost function View(): Fields
      reads this
    {
      Fields(process, workers, heartbeat, hasSuccessfulMux, awaitingMux, next, stamp, muxed, muxes)
    }

    ghost predicate Valid()
      reads this
    {
      OneWorker(View())
    }

    constructor (timeout: int, now: int)
      ensures Valid() && View() == Initial(timeout, now).f && heartbeatTimeout == timeout && !monitorStop
    {
      heartbeatTimeout := timeout;
      process, workers, heartbeat := None, map[], now;
      hasSuccessfulMux, awaitingMux, monitorStop := false, true, false;
      next, stamp, muxed, muxes := 0, map[], map[], map[];
    }

    method StartProcess(now: int)
      requires Valid() && process.None?
      modifies this
      ensures Valid() && View() == Started(old(View()), now) && monitorStop == old(monitorStop)
      ensures process == Some(old(next)) && workers.Keys == {old(next)}
      ensures heartbeat == now && awaitingMux && hasSuccessfulMux == old(hasSuccessfulMux)
    {
      assert forall w :: w !in workers;
      heartbeat := now;
      awaitingMux := true;
      process, stamp, next := Some(next), stamp[next := now], next + 1;
      workers := map[process.value := Idle];
    }

    /** The worker ends, by itself, terminated or killed, before the handle is dropped. */
    method StopProcess()
      requires Valid()
      modifies this
      ensures Valid() && View() == Stopped(old(View())) && monitorStop == old(monitorStop)
      ensures process.None? && workers == map[]
    {
      if process.None? {
        assert forall w :: w !in workers;
        return;
      }
      workers := workers - {process.value};
      process := None;
      assert forall w :: w !in workers;
    }

    /** One round of the monitor that saw no stop request: a failed worker is replaced. */
    method MonitorRound(now: int)
      requires Valid()
      modifies this
      ensures Valid() && monitorStop == old(monitorStop)
      ensures View() == Round(old(View()), now, heartbeatTimeout, monitorStop)
      ensures old(process).None? ==> View() == old(View())
      ensures old(process).Some? && old(process).value in old(workers) && now - old(heartbeat) < heartbeatTimeout ==>
                View() == old(View())
      ensures var dead := old(process).Some? && old(process).value !in old(workers);
              var stalled := old(process).Some? && now - old(heartbeat) >= heartbeatTimeout;
              dead || stalled ==>
                if monitorStop then process.None? && workers == map[]
                else process == Some(old(next)) && workers.Keys == {old(next)} && heartbeat == now && awaitingMux
    {
      if process.None? {
        return;
      }
      var stalled := now - heartbeat >= heartbeatTimeout;
      if process.value !in workers || stalled {
        StopProcess();
        if !monitorStop {
          StartProcess(now);
        }
      }
    }

    method Stop()
      requires Valid()
      modifies this
      ensures Valid() && monitorStop && View() == Stopped(old(View()))
      ensures process.None? && workers == map[]
    {
      monitorStop := true;
      StopProcess();
    }

    /** True for "connected". */
    method ConnectionStatus(now: int) returns (connected: bool)
      ensures connected <==> hasSuccessfulMux && !awaitingMux && View().Alive() && now - heartbeat < heartbeatTimeout
    {
      if !hasSuccessfulMux {
        return false;
      }
      if awaitingMux {
        return false;
      }
      if process.None? || process.value !in workers {
        return false;
      }
      connected := now - heartbeat < heartbeatTimeout;
    }
  }

  // ---------- The methods are the sections of the protocol ----------

  /** Up to `n` operations of the thread that holds the lock, until it leaves its section. */
  function Operations(s: State, n: nat): State
    decreases n
  {
    if n == 0 || s.c.section.Free? then s else Operations(Operate(s), n - 1)
  }

  lemma OneOperation(s: State, n: nat, r: State)
    requires s.c.section.Held? && r == Operate(s)
    ensures Operations(s, n + 1) == Operations(r, n)
  {
    hide Operate;
  }

  /** The fields and the section when the new process has been created. */
  function Created(s: State): State
    requires s.c.section.Held?
  {
    s.(c := s.c.(section := Held(s.c.section.who, StartProcess)), f := Started(s.f, s.now).(workers := map[]))
  }

  lemma CreateOperations(s: State, n: nat)
    requires s.c.section.Held? && s.c.section.work.StartBegin? && s.f.process.None? && s.f.workers == map[]
    ensures Operations(s, n + 3) == Operations(Created(s), n)
  {
    var who := s.c.section.who;
    var s1 := s.(c := s.c.(section := Held(who, StartHeartbeat)), f := s.f.(heartbeat := s.now));
    var s2 := s1.(c := s.c.(section := Held(who, StartAwaiting)), f := s1.f.(awaitingMux := true));
    hide Operations;
    OneOperation(s, n + 2, s1);
    OneOperation(s1, n + 1, s2);
    OneOperation(s2, n, Created(s));
  }

  lemma LaunchOperations(s: State)
    requires s.c.section.Held? && s.c.section.work.StartProcess? && s.f.process.Some? && s.f.workers == map[]
    ensures var r := Operations(s, 2);
            r.c.section.Free? && r.f == s.f.(workers := map[s.f.process.value := Idle])
  {
    hide Operations;
    var s1 := Operate(s);
    var none: map<Id, WorkerPc> := map[];
    assert none[s.f.process.value := Idle] == map[s.f.process.value := Idle];
    OneOperation(s, 1, s1);
    OneOperation(s1, 0, Operate(s1));
    OperationsZero(Operate(s1));
  }

  /** Starting, once its section has begun with no worker. */
  lemma StartOperations(s: State)
    requires s.c.section.Held? && s.c.section.work.StartBegin?
    requires OneWorker(s.f) && s.f.process.None?
    ensures var r := Operations(s, 5);
            r.c.section.Free? && r.f == Started(s.f, s.now)
  {
    hide Operations, Operate;
    assert s.f.workers == map[] by {
      assert forall w :: w !in s.f.workers;
    }
    CreateOperations(s, 2);
    LaunchOperations(Created(s));
  }

  lemma OperationsZero(s: State)
    ensures Operations(s, 0) == s
  {
  }

  lemma OperationsFree(s: State, n: nat)
    requires s.c.section.Free?
    ensures Operations(s, n) == s
  {
  }

  /** Stopping a present process, up to its last operation. */
  lemma StopOperations(s: State, n: nat)
    requires s.c.section.Held? && s.c.section.work.StopBegin? && s.f.process.Some?
    requires OneWorker(s.f)
    ensures exists r: State :: r.c == s.c.(section := Held(s.c.section.who, StopCleared)) && r.f == Stopped(s.f)
              && r.now == s.now && r.timeout == s.timeout && Operations(s, n + 3) == Operations(r, n)
  {
    var who := s.c.section.who;
    var s1 := s.(c := s.c.(section := Held(who, StopSignalled)));
    var s2 := Operate(s1);
    var s3 := Operate(s2);
    assert s.f.Alive() || s.f.workers == s.f.workers - {s.f.process.value};
    assert s3.f == Stopped(s.f);
    OneOperation(s, n + 2, s1);
    OneOperation(s1, n + 1, s2);
    OneOperation(s2, n, s3);
  }

  /** The monitor's section, run through without interruption, has the effect of `MonitorRound`. */
  lemma MonitorSectionIsRound(s: State)
    requires s.c.section == Held(Monitor, Check) && OneWorker(s.f)
    ensures var r := Operations(s, 11);
            r.c.section.Free? && r.f == Round(s.f, s.now, s.timeout, s.c.monitorStop)
  {
    hide Operations;
    var s1 := Operate(s);
    OneOperation(s, 10, s1);
    if s.f.process.None? {
      OperationsFree(s1, 10);
    } else {
      var s2 := Operate(s1);
      OneOperation(s1, 9, s2);
      if !Failed(s.f, s.now, s.timeout) {
        OperationsFree(s2, 9);
      } else {
        StopOperations(s2, 6);
        var s5: State :| s5.c == s2.c.(section := Held(Monitor, StopCleared)) && s5.f == Stopped(s.f)
          && s5.now == s.now && s5.timeout == s.timeout && Operations(s2, 9) == Operations(s5, 6);
        var s6 := Operate(s5);
        OneOperation(s5, 5, s6);
        if s.c.monitorStop {
          OperationsFree(s6, 5);
        } else {
          StartOperations(s6);
        }
      }
    }
  }

  /** The section of `stop` has the effect of `StopProcess`. */
  lemma StopSectionIsStop(s: State)
    requires s.c.section == Held(Stopper, StopBegin) && OneWorker(s.f)
    ensures var r := Operations(s, 4);
            r.c.section.Free? && r.f == Stopped(s.f) && r.f.process.None? && r.f.workers == map[]
  {
    NoWorkerLeft(s.f);
    hide Operations;
    if s.f.process.None? {
      var s1 := Operate(s);
      OneOperation(s, 3, s1);
      OneOperation(s1, 2, Operate(s1));
      OperationsFree(Operate(s1), 2);
    } else {
      StopOperations(s, 1);
      var s3: State :| s3.c == s.c.(section := Held(Stopper, StopCleared)) && s3.f == Stopped(s.f)
        && s3.now == s.now && s3.timeout == s.timeout && Operations(s, 4) == Operations(s3, 1);
      OneOperation(s3, 0, Operate(s3));
      OperationsZero(Operate(s3));
    }
  }

  /** A run goes on with the operations of the thread that holds the lock. */
  lemma {:induction false} RunOperations(states: seq<State>, steps: seq<Step>, n: nat)
    returns (states': seq<State>, steps': seq<Step>)
    requires IsRun(10, 0, states, steps)
    ensures IsRun(10, 0, states', steps') && |states'| == |steps'| + 1
    ensures states'[|steps'|] == Operations(states[|steps|], n)
    decreases n
  {
    var s := states[|steps|];
    if n == 0 || s.c.section.Free? {
      states', steps' := states, steps;
    } else {
      states', steps' := Operated(states, steps, s, Operate(s));
      states', steps' := RunOperations(states', steps', n - 1);
    }
  }

  /** A worker that dies is replaced by the monitor's next round. */
  lemma DeadWorkerIsReplaced() returns (states: seq<State>, steps: seq<Step>)
    ensures IsRun(10, 0, states, steps) && |states| == |steps| + 1
    ensures var s := states[|steps|]; s.c.section.Free? && s.f.process == Some(1) && s.f.workers == map[1 := Idle]
  {
    states, steps := StartedWorker();
    hide IsRun, Operations;
    var s6 := states[6];
    var s7 := Next(s6, CreateMonitor);
    var s8 := Next(s7, StartMonitor);
    var s9 := s8.(f := s8.f.(workers := map[]));
    var s10 := Next(s9, MonitorWake);
    var s11 := Next(s10, MonitorAcquire);
    assert s8.f.workers - {0} == map[];
    states, steps := Extend(10, 0, states, steps, s6, CreateMonitor, s7);
    states, steps := Extend(10, 0, states, steps, s7, StartMonitor, s8);
    states, steps := Extend(10, 0, states, steps, s8, WorkerExit(0), s9);
    states, steps := Extend(10, 0, states, steps, s9, MonitorWake, s10);
    states, steps := Extend(10, 0, states, steps, s10, MonitorAcquire, s11);
    MonitorSectionIsRound(s11);
    RoundReplaces(s11.f, s11.now, s11.timeout, s11.c.monitorStop);
    states, steps := RunOperations(states, steps, 11);
  }
}
