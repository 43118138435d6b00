/**
  The order of status events.  A change is made under the heartbeat lock and published
  after it, so events of different threads can overtake each other; this module says
  exactly when the published order is the order of the changes.
 */
module StatusEvents {
  import Counting
  import opened Supervisor
  import opened ConnectionProtocol

  /** Change number `i` is one of process `p`. */
  predicate IsOf(b: Board, i: nat, p: ProcessId) {
    i < |b.changes| && b.changes[i].process == p
  }

  /** Of the changes in `line`, those of `p` are in the order in which they were made. */
  predicate Ascends(b: Board, line: seq<nat>, p: ProcessId) {
    forall i, j :: 0 <= i < j < |line| && IsOf(b, line[i], p) && IsOf(b, line[j], p) ==> line[i] < line[j]
  }

  /** The published events of `p`, and then those still to be published, are in the order of its changes. */
  predicate InOrder(b: Board, p: ProcessId) {
    Ascends(b, b.published + b.pending, p)
  }

  /** An event of `p` is published while an earlier one of `p` is still pending. */
  predicate Overtakes(s: State, step: Step, p: ProcessId)
    requires Enabled(s, step)
  {
    && step.Publish? && s.board.publisher && IsOf(s.board, s.board.pending[step.i], p)
    && exists j :: 0 <= j < step.i && IsOf(s.board, s.board.pending[j], p)
  }

  /** Pending changes are kept in order, and nothing is published before there is a publisher. */
  predicate PendingOk(b: Board) {
    && (forall i, j :: 0 <= i < j < |b.pending| ==> b.pending[i] < b.pending[j])
    && (forall i :: 0 <= i < |b.pending| ==> b.pending[i] < |b.changes|)
    && (forall i :: 0 <= i < |b.published| ==> b.published[i] < |b.changes|)
    && (!b.publisher ==> b.published == [])
  }

  // ---------- One step ----------

  lemma SetKeepsPending(b: Board, q: ProcessId, running: bool)
    requires PendingOk(b)
    ensures PendingOk(SetStatus(b, q, running))
  {
  }

  lemma PublishKeepsPending(b: Board, k: nat)
    requires PendingOk(b) && k < |b.pending|
    ensures PendingOk(PublishOne(b, k))
  {
    var r := PublishOne(b, k);
    assert forall i :: 0 <= i < |r.pending| ==> r.pending[i] == b.pending[if i < k then i else i + 1];
  }

  lemma KeepsPending(s: State, step: Step)
    requires Enabled(s, step) && PendingOk(s.board)
    ensures PendingOk(Next(s, step).board)
  {
    hide ConnsNext, SetStatus, PublishOne;
    match step
    case On(c, act) => SetKeepsPending(s.board, s.conns[c].process, act.Mark?);
    case Expire(q) => SetKeepsPending(s.board, q, false);
    case Publish(k) => PublishKeepsPending(s.board, k);
    case _ =>
  }

  /** Joined lines ascend if both do and nothing in the second belongs before the first. */
  lemma AscendsJoin(b: Board, x: seq<nat>, y: seq<nat>, p: ProcessId)
    ensures Ascends(b, x + y, p) <==>
            && Ascends(b, x, p) && Ascends(b, y, p)
            && forall i, j :: 0 <= i < |x| && 0 <= j < |y| && IsOf(b, x[i], p) && IsOf(b, y[j], p) ==> x[i] < y[j]
  {
    var z := x + y;
    hide IsOf;
    if Ascends(b, z, p) {
      forall i, j | 0 <= i < j < |x| && IsOf(b, x[i], p) && IsOf(b, x[j], p)
        ensures x[i] < x[j]
      {
        assert z[i] == x[i] && z[j] == x[j];
      }
      forall i, j | 0 <= i < j < |y| && IsOf(b, y[i], p) && IsOf(b, y[j], p)
        ensures y[i] < y[j]
      {
        assert z[|x| + i] == y[i] && z[|x| + j] == y[j];
      }
      forall i, j | 0 <= i < |x| && 0 <= j < |y| && IsOf(b, x[i], p) && IsOf(b, y[j], p)
        ensures x[i] < y[j]
      {
        assert z[i] == x[i] && z[|x| + j] == y[j];
      }
    }
  }

  /** A change put before larger and smaller ones is in order exactly if none of the smaller ones is of its process. */
  lemma MovedToFront(b: Board, passed: seq<nat>, e: nat, rest: seq<nat>, p: ProcessId)
    requires Ascends(b, passed + rest, p)
    requires (forall j :: 0 <= j < |passed| ==> passed[j] < e) && (forall j :: 0 <= j < |rest| ==> e < rest[j])
    ensures Ascends(b, [e] + (passed + rest), p) <==>
            !(IsOf(b, e, p) && exists j :: 0 <= j < |passed| && IsOf(b, passed[j], p))
  {
    var others := passed + rest;
    hide IsOf;
    AscendsJoin(b, [e], others, p);
    assert Ascends(b, [e], p);
    hide Ascends;
    assert forall j :: 0 <= j < |passed| ==> others[j] == passed[j];
    assert forall j :: |passed| <= j < |others| ==> others[j] == rest[j - |passed|] && e < others[j];
    if j :| 0 <= j < |passed| && IsOf(b, passed[j], p) {
      assert !([e][0] < others[j]);
    }
  }

  /** Publishing keeps the order of `p` if and only if it does not overtake an event of `p`. */
  lemma PublishKeepsOrderIff(b: Board, k: nat, p: ProcessId)
    requires k < |b.pending| && PendingOk(b) && b.publisher
    ensures InOrder(PublishOne(b, k), p) <==>
            InOrder(b, p) && !(IsOf(b, b.pending[k], p) && exists j :: 0 <= j < k && IsOf(b, b.pending[j], p))
  {
    var r, done, passed, e, rest := PublishOne(b, k), b.published, b.pending[..k], b.pending[k], b.pending[k + 1..];
    assert b.pending == passed + [e] + rest;
    assert r.published + r.pending == done + ([e] + (passed + rest));
    SameLine(b, r, done + ([e] + (passed + rest)), p);
    hide PublishOne, IsOf, Ascends, PendingOk;
    AscendsJoin(b, done, [e] + (passed + rest), p);
    AscendsJoin(b, done, b.pending, p);
    PendingParts(b, k, p);
    MovedToFront(b, passed, e, rest, p);
    PendingAscends(b, p);
    SameFront(b, done, passed, e, rest, p);
    assert (exists j :: 0 <= j < k && IsOf(b, b.pending[j], p)) <==>
        (exists j :: 0 <= j < |passed| && IsOf(b, passed[j], p)) by {
      assert forall j :: 0 <= j < k ==> passed[j] == b.pending[j];
    }
  }

  lemma PendingParts(b: Board, k: nat, p: ProcessId)
    requires PendingOk(b) && k < |b.pending|
    ensures Ascends(b, b.pending[..k] + b.pending[k + 1..], p)
    ensures var passed := b.pending[..k]; forall j :: 0 <= j < |passed| ==> passed[j] < b.pending[k]
    ensures var rest := b.pending[k + 1..]; forall j :: 0 <= j < |rest| ==> b.pending[k] < rest[j]
  {
    var others := b.pending[..k] + b.pending[k + 1..];
    assert forall i :: 0 <= i < |others| ==> others[i] == b.pending[if i < k then i else i + 1];
  }

  lemma SameLine(b: Board, r: Board, line: seq<nat>, p: ProcessId)
    requires r.changes == b.changes
    ensures Ascends(r, line, p) <==> Ascends(b, line, p)
  {
    assert forall i :: IsOf(r, i, p) <==> IsOf(b, i, p);
  }

  lemma PendingAscends(b: Board, p: ProcessId)
    requires PendingOk(b)
    ensures Ascends(b, b.pending, p)
  {
  }

  /** Whether all of `done` comes before a line does not depend on the order of that line. */
  lemma SameFront(b: Board, done: seq<nat>, passed: seq<nat>, e: nat, rest: seq<nat>, p: ProcessId)
    ensures var line, moved := passed + [e] + rest, [e] + (passed + rest);
            (forall i, j :: 0 <= i < |done| && 0 <= j < |line| && IsOf(b, done[i], p) && IsOf(b, line[j], p) ==>
                done[i] < line[j])
            <==>
            (forall i, j :: 0 <= i < |done| && 0 <= j < |moved| && IsOf(b, done[i], p) && IsOf(b, moved[j], p) ==>
                done[i] < moved[j])
  {
    var line, moved := passed + [e] + rest, [e] + (passed + rest);
    hide IsOf;
    assert forall j :: 0 <= j < |line| ==>
        line[j] == moved[if j < |passed| then j + 1 else if j == |passed| then 0 else j];
    assert forall j :: 0 <= j < |moved| ==>
        moved[j] == line[if j == 0 then |passed| else if j <= |passed| then j - 1 else j];
  }

  lemma SetKeepsOrderIff(b: Board, q: ProcessId, running: bool, p: ProcessId)
    requires PendingOk(b)
    ensures InOrder(SetStatus(b, q, running), p) <==> InOrder(b, p)
  {
    var r := SetStatus(b, q, running);
    if r.changes != b.changes {
      var line := b.published + b.pending;
      assert r.published + r.pending == line + [|b.changes|];
      assert forall i :: 0 <= i < |line| ==> line[i] < |b.changes| && (IsOf(r, line[i], p) <==> IsOf(b, line[i], p));
      hide SetStatus, IsOf;
      AscendsJoin(r, line, [|b.changes|], p);
    }
  }

  lemma SkipKeepsOrder(b: Board, k: nat, p: ProcessId)
    requires k < |b.pending| && PendingOk(b) && !b.publisher
    ensures InOrder(PublishOne(b, k), p) && InOrder(b, p)
  {
  }

  lemma OrderStep(s: State, step: Step, p: ProcessId)
    requires Enabled(s, step) && PendingOk(s.board)
    ensures InOrder(Next(s, step).board, p) <==> InOrder(s.board, p) && !Overtakes(s, step, p)
  {
    hide SetStatus, PublishOne, ConnsNext, PendingOk;
    match step
    case On(c, act) => SetKeepsOrderIff(s.board, s.conns[c].process, act.Mark?, p);
    case Expire(q) => SetKeepsOrderIff(s.board, q, false, p);
    case Publish(i) =>
      if s.board.publisher {
        PublishKeepsOrderIff(s.board, i, p);
      } else {
        SkipKeepsOrder(s.board, i, p);
      }
    case SetPublisher => SameLine(s.board, s.board.(publisher := true), s.board.published + s.board.pending, p);
    case New(_) =>
    case Tick(_) =>
    case Look =>
    case RoundEnds =>
  }

  // ---------- Whole runs ----------

  lemma {:induction false} RunKeepsPending(timeout: int, now: int, states: seq<State>, steps: seq<Step>, n: nat)
    requires IsRun(timeout, now, states, steps) && n <= |steps|
    ensures PendingOk(states[n].board)
  {
    hide Next, Enabled;
    if n > 0 {
      RunKeepsPending(timeout, now, states, steps, n - 1);
      KeepsPending(states[n - 1], steps[n - 1]);
    }
  }

  /**
    At every moment of every run: the events of a process are in the order of its changes
    if and only if none of them was published before an earlier one of that process.
   */
  lemma {:induction false} StatusOrderIffNoOvertaking(
    timeout: int, now: int, states: seq<State>, steps: seq<Step>, n: nat, p: ProcessId)
    requires IsRun(timeout, now, states, steps) && n <= |steps|
    ensures InOrder(states[n].board, p) <==> forall i :: 0 <= i < n ==> !Overtakes(states[i], steps[i], p)
  {
    if n > 0 {
      hide Next, Enabled, Overtakes, InOrder, PendingOk;
      StatusOrderIffNoOvertaking(timeout, now, states, steps, n - 1, p);
      RunKeepsPending(timeout, now, states, steps, n - 1);
      OrderStep(states[n - 1], steps[n - 1], p);
      assert states[n - 1 + 1] == Next(states[n - 1], steps[n - 1]);
      if InOrder(states[n].board, p) {
        forall i | 0 <= i < n
          ensures !Overtakes(states[i], steps[i], p)
        {
          assert i < n - 1 || i == n - 1;
        }
      }
    }
  }

  // ---------- The last event ----------

  /** The last change of a process, or none. */
  lemma {:induction false} LastChange(p: ProcessId, changes: seq<Change>, x: nat)
    requires x < |changes| && changes[x].process == p
    requires forall y :: x < y < |changes| ==> changes[y].process != p
    ensures var cs := ChangesOf(p, changes); cs != [] && cs[|cs| - 1] == changes[x].running
  {
    if x < |changes| - 1 {
      LastChange(p, changes[..|changes| - 1], x);
    }
  }

  /** Every change that is neither published nor pending was skipped. */
  lemma NotLost(b: Board, y: nat)
    requires EventsOk(b) && y < |b.changes|
    ensures y in b.published || y in b.pending || y in b.skipped
  {
    assert Events(b, y) == 1;
    CountedIn(b.published, y);
    CountedIn(b.pending, y);
    CountedIn(b.skipped, y);
  }

  lemma {:induction false} CountedIn(items: seq<nat>, x: nat)
    ensures Counting.Count(items, x) > 0 ==> x in items
  {
    if items != [] {
      CountedIn(items[1..], x);
    }
  }

  /**
    Without overtaking, once no event of a process is pending: the changes made after the
    one published last were all skipped for want of a publisher; so if none was, the last
    event tells the status.
   */
  lemma LastEventIsStatus(timeout: int, now: int, states: seq<State>, steps: seq<Step>, n: nat, p: ProcessId, a: nat)
    requires IsRun(timeout, now, states, steps) && n <= |steps|
    requires forall i :: 0 <= i < n ==> !Overtakes(states[i], steps[i], p)
    requires var b := states[n].board;
             && a < |b.published| && IsOf(b, b.published[a], p)
             && (forall j :: a < j < |b.published| ==> !IsOf(b, b.published[j], p))
             && (forall j :: 0 <= j < |b.pending| ==> !IsOf(b, b.pending[j], p))
    ensures var b := states[n].board; var x := b.published[a];
            && (forall y :: x < y < |b.changes| && IsOf(b, y, p) ==> y in b.skipped)
            && ((forall y :: y in b.skipped && IsOf(b, y, p) ==> y < x) ==>
                Running(b.statuses, p) == b.changes[x].running)
  {
    var b := states[n].board;
    var x := b.published[a];
    StatusOrderIffNoOvertaking(timeout, now, states, steps, n, p);
    RunKeepsInv(timeout, now, states, steps, n);
    StatusAlternates(timeout, now, states, steps, n, p);
    hide IsRun, ChangesOf, ConnsOk, ChildrenOk, StatusOk, RoundOk;
    assert forall i :: 0 <= i < |b.published| ==> (b.published + b.pending)[i] == b.published[i];
    forall y | x < y < |b.changes| && IsOf(b, y, p)
      ensures y in b.skipped
    {
      NotLost(b, y);
    }
    if forall y :: y in b.skipped && IsOf(b, y, p) ==> y < x {
      forall y | x < y < |b.changes|
        ensures b.changes[y].process != p
      {
        assert !IsOf(b, y, p);
      }
      LastChange(p, b.changes, x);
    }
  }
}
