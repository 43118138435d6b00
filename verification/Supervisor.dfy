/**
  The supervisor's maps: which connection serves a process, when its last heartbeat came,
  and whether it is shown as running.  Each method body is one critical section.
 */
module Supervisor {
  import opened Options

  type ProcessId = string
  type ConnectionId = nat

  /** A change of a process between stopped and running. */
  datatype Change = Change(process: ProcessId, running: bool)

  function Running(statuses: map<ProcessId, bool>, p: ProcessId): bool {
    p in statuses && statuses[p]
  }

  function Child(children: map<ProcessId, ConnectionId>, p: ProcessId): Option<ConnectionId> {
    if p in children then Some(children[p]) else None
  }

  /** What closing connection `c` of `p` leaves of the map. */
  function Evicted(children: map<ProcessId, ConnectionId>, p: ProcessId, c: ConnectionId): map<ProcessId,
      ConnectionId> {
    if Child(children, p) == Some(c) then children - {p} else children
  }

  function Expired(heartbeats: map<ProcessId, int>, now: int, timeout: int): set<ProcessId> {
    set p | p in heartbeats && now - heartbeats[p] > timeout
  }

  class Supervisor {
    var children: map<ProcessId, ConnectionId>
    var lastHeartbeats: map<ProcessId, int>
    var processStatuses: map<ProcessId, bool>

    constructor ()
      ensures children == map[] && lastHeartbeats == map[] && processStatuses == map[]
    {
      children, lastHeartbeats, processStatuses := map[], map[], map[];
    }

    /** Returns the change to publish, if the status changed. */
    method SetProcessStatus(p: ProcessId, running: bool) returns (change: Option<Change>)
      modifies this`processStatuses
      ensures processStatuses == old(processStatuses)[p := running]
      ensures change == if Running(old(processStatuses), p) != running then Some(Change(p, running)) else None
    {
      var previous := if p in processStatuses then processStatuses[p] else false;
      processStatuses := processStatuses[p := running];
      change := if previous != running then Some(Change(p, running)) else None;
    }

    method Register(p: ProcessId, c: ConnectionId)
      modifies this`children
      ensures children == old(children)[p := c]
    {
      children := children[p := c];
    }

    /** Only the connection that is registered removes its entry. */
    method OnClose(p: ProcessId, c: ConnectionId)
      modifies this`children
      ensures children == Evicted(old(children), p, c)
      ensures forall q :: Child(old(children), q) != Some(c) || q != p ==> Child(children, q) == Child(old(children), q)
    {
      if p in children && children[p] == c {
        children := children - {p};
      }
    }

    method Heartbeat(p: ProcessId, now: int)
      modifies this`lastHeartbeats
      ensures lastHeartbeats == old(lastHeartbeats)[p := now]
    {
      lastHeartbeats := lastHeartbeats[p := now];
    }
  }
}
