/**
  The receive stage: packets of successive RTSP connections are filtered, given
  durations, counted when their timestamps do not advance, and passed through the jitter
  buffer.  Connection outcomes, demuxed packets and clock readings are inputs.
 */
module Receive {
  import opened Options
  import opened JitterOrder
  import JitterHeap
  import JitterTheorems

  const ANOMALY_LOG_INTERVAL: real := 5.0

  /** One result of the demuxer; `now` is the clock when it is processed. */
  datatype Item =
    | Empty
    | Demuxed(pts: Option<int>, dts: Option<int>, duration: int, key: bool, data: seq<bv8>, now: real)

  /** One attempt to connect; `Streamed` delivered `items`, then ended cleanly or failed. */
  datatype Session =
    | OpenFailed
    | NoVideoStream
    | UnsupportedCodec
    | Streamed(codec: string, items: seq<Item>, failed: bool)

  datatype Status = Connected | Disconnected

  datatype Warning = Warning(at: real, count: nat)

  /** The anomaly window: not yet logged count, next log time, warnings so far. */
  datatype Window = Window(count: nat, nextAt: real, logged: seq<Warning>)

  predicate IsAccepted(item: Item) {
    item.Demuxed? && item.pts.Some? && item.dts.Some?
  }

  function Max(a: int, b: int): int {
    if a < b then b else a
  }

  /** The packet built for an accepted item that follows the packets `front`. */
  function NextPacket(codec: string, front: seq<Packet>, item: Item): Packet
    requires IsAccepted(item)
  {
    var duration :=
      if front == [] then item.duration else Max(0, item.pts.value - front[|front| - 1].pts);
    Packet(codec, item.pts.value, item.dts.value, duration, item.key, item.data)
  }

  /** The packets of one connection that are passed on, with their durations. */
  function Accepted(codec: string, items: seq<Item>, n: nat): (r: seq<Packet>)
    requires n <= |items|
    ensures |r| <= n
  {
    if n == 0 then [] else
      var front := Accepted(codec, items, n - 1);
      if IsAccepted(items[n - 1]) then front + [NextPacket(codec, front, items[n - 1])] else front
  }

  predicate Advances(ps: seq<Packet>, i: nat)
    requires 0 < i < |ps|
  {
    ps[i - 1].pts < ps[i].pts
  }

  /** How many packets do not advance over their predecessor. */
  function Anomalies(ps: seq<Packet>, n: nat): nat
    requires n <= |ps|
  {
    if n <= 1 then 0
    else Anomalies(ps, n - 1) + if Advances(ps, n - 1) then 0 else 1
  }

  function Tick(w: Window, anomalous: bool, now: real): Window {
    var count := w.count + if anomalous then 1 else 0;
    if now < w.nextAt then w.(count := count)
    else Window(0, now + ANOMALY_LOG_INTERVAL, if count > 0 then w.logged + [Warning(now, count)] else w.logged)
  }

  /** The window after the first `n` items of a connection. */
  function WindowAfter(w: Window, codec: string, items: seq<Item>, n: nat): Window
    requires n <= |items|
  {
    if n == 0 then w else
      var before := WindowAfter(w, codec, items, n - 1);
      if IsAccepted(items[n - 1]) then
        var ps := Accepted(codec, items, n);
        Tick(before, |ps| > 1 && !Advances(ps, |ps| - 1), items[n - 1].now)
      else before
  }

  function LoggedTotal(logged: seq<Warning>): nat {
    if logged == [] then 0 else LoggedTotal(logged[..|logged| - 1]) + logged[|logged| - 1].count
  }

  // ---------- One connection, seen from outside ----------

  function Deliveries(s: Session): (r: seq<Packet>) {
    if s.Streamed? then Accepted(s.codec, s.items, |s.items|) else []
  }

  /** The packets one connection hands on through a buffer of size `k`. */
  function Released(k: nat, s: Session): seq<Packet> {
    var ps := Deliveries(s);
    Packets(Play(k, ps, |ps|).out)
  }

  function SessionAnomalies(s: Session): nat {
    var ps := Deliveries(s);
    Anomalies(ps, |ps|)
  }

  function SessionWindow(w: Window, s: Session): Window {
    if s.Streamed? then WindowAfter(w, s.codec, s.items, |s.items|) else w
  }

  function StatusAfter(before: Status, s: Session): Status {
    match s
    case OpenFailed => Disconnected
    case NoVideoStream => Disconnected
    case UnsupportedCodec => before
    case Streamed(_, _, failed) => if failed then Disconnected else Connected
  }

  // ---------- Whole runs: the first `n` connection attempts ----------

  function AllReleased(k: nat, sessions: seq<Session>, n: nat): seq<Packet>
    requires n <= |sessions|
  {
    if n == 0 then [] else AllReleased(k, sessions, n - 1) + Released(k, sessions[n - 1])
  }

  function AllAnomalies(sessions: seq<Session>, n: nat): nat
    requires n <= |sessions|
  {
    if n == 0 then 0 else AllAnomalies(sessions, n - 1) + SessionAnomalies(sessions[n - 1])
  }

  function AllWindow(w: Window, sessions: seq<Session>, n: nat): Window
    requires n <= |sessions|
  {
    if n == 0 then w else SessionWindow(AllWindow(w, sessions, n - 1), sessions[n - 1])
  }

  function AllStatus(before: Status, sessions: seq<Session>, n: nat): Status
    requires n <= |sessions|
  {
    if n == 0 then before else StatusAfter(AllStatus(before, sessions, n - 1), sessions[n - 1])
  }

  /** The first `n` attempts are retried after: none has an unsupported codec. */
  predicate Retryable(sessions: seq<Session>, n: nat)
    requires n <= |sessions|
  {
    forall i :: 0 <= i < n ==> !sessions[i].UnsupportedCodec?
  }

  /** One more item. */
  lemma ItemStep(w: Window, codec: string, items: seq<Item>, i: nat)
    requires i < |items|
    ensures var ps, item := Accepted(codec, items, i), items[i];
            var qs := Accepted(codec, items, i + 1);
            if IsAccepted(item) then
              && qs == ps + [NextPacket(codec, ps, item)]
              && WindowAfter(w, codec, items, i + 1)
                 == Tick(WindowAfter(w, codec, items, i), |qs| > 1 && !Advances(qs, |qs| - 1), item.now)
            else qs == ps && WindowAfter(w, codec, items, i + 1) == WindowAfter(w, codec, items, i)
  {
  }

  // ---------- The stage itself ----------

  class Receiver {
    const bufferSize: nat
    var outOfOrderFrameCount: nat
    var inputRtspStatus: Status
    var window: Window
    var opens: nat
    var closes: nat

    constructor (bufferSize: nat, now: real)
      ensures this.bufferSize == bufferSize && window == Window(0, now + ANOMALY_LOG_INTERVAL, [])
      ensures outOfOrderFrameCount == 0 && inputRtspStatus == Disconnected && opens == closes == 0
    {
      this.bufferSize := bufferSize;
      window := Window(0, now + ANOMALY_LOG_INTERVAL, []);
      outOfOrderFrameCount, inputRtspStatus, opens, closes := 0, Disconnected, 0, 0;
    }

    /** The anomaly bookkeeping of one accepted packet. */
    method Observe(previousPts: Option<int>, pts: int, firstDuration: int, now: real) returns (duration: int)
      modifies this`outOfOrderFrameCount, this`window
      ensures duration == if previousPts.None? then firstDuration
                          else if pts > previousPts.value then pts - previousPts.value else 0
      ensures var anomalous := previousPts.Some? && pts <= previousPts.value;
              && window == Tick(old(window), anomalous, now)
              && outOfOrderFrameCount == old(outOfOrderFrameCount) + if anomalous then 1 else 0
      ensures var count := old(window).count + if previousPts.Some? && pts <= previousPts.value then 1 else 0;
              if now < old(window).nextAt then
                window.count == count && window.nextAt == old(window).nextAt && window.logged == old(window).logged
              else
                && window.count == 0 && window.nextAt == now + 5.0
                && window.logged == old(window).logged + if count > 0 then [Warning(now, count)] else []
    {
      if previousPts.None? {
        duration := firstDuration;
      } else {
        duration := pts - previousPts.value;
        if duration <= 0 {
          window := window.(count := window.count + 1);
          outOfOrderFrameCount := outOfOrderFrameCount + 1;
        }
        duration := Max(0, duration);
      }
      if now >= window.nextAt {
        if window.count != 0 {
          window := window.(logged := window.logged + [Warning(now, window.count)], count := 0);
        }
        window := window.(nextAt := now + ANOMALY_LOG_INTERVAL);
      }
    }

    /** What the demux loop holds after the first `i` items, of which `ps` were accepted. */
    ghost predicate Reached(codec: string, items: seq<Item>, i: nat, ps: seq<Packet>,
                            previousPts: Option<int>, jitterPackets: JitterHeap.Heap, jitterSequence: nat)
      reads jitterPackets
    {
      && i <= |items| && ps == Accepted(codec, items, i)
      && previousPts == (if ps == [] then None else Some(ps[|ps| - 1].pts))
      && (bufferSize > 0 ==> jitterSequence == |ps|)
      && jitterPackets.Valid() && jitterPackets.held == Play(bufferSize, ps, |ps|).held
    }

    /** The demux loop of one connection. */
    method Demux(codec: string, items: seq<Item>) returns (emitted: seq<Packet>)
      modifies this`outOfOrderFrameCount, this`window
      ensures var ps := Accepted(codec, items, |items|);
              && emitted == Packets(Play(bufferSize, ps, |ps|).out)
              && outOfOrderFrameCount == old(outOfOrderFrameCount) + Anomalies(ps, |ps|)
      ensures window == WindowAfter(old(window), codec, items, |items|)
    {
      emitted := [];
      var previousPts := None;
      var jitterPackets := new JitterHeap.Heap();
      var jitterSequence := 0;
      ghost var ps: seq<Packet> := [];
      for i := 0 to |items|
        invariant fresh(jitterPackets)
        invariant Reached(codec, items, i, ps, previousPts, jitterPackets, jitterSequence)
        invariant emitted == Packets(Play(bufferSize, ps, |ps|).out)
        invariant outOfOrderFrameCount == old(outOfOrderFrameCount) + Anomalies(ps, |ps|)
        invariant window == WindowAfter(old(window), codec, items, i)
      {
        hide Play, Anomalies, Packets, Reached, Tick, Accepted, WindowAfter;
        var item := items[i];
        if item.Empty? || item.pts.None? || item.dts.None? {
          Skipped(old(window), codec, items, i, ps, previousPts, jitterPackets, jitterSequence);
          continue;
        }
        var released;
        previousPts, jitterSequence, released, ps :=
          DemuxOne(codec, items, i, previousPts, jitterPackets, jitterSequence, ps, old(window));
        emitted := emitted + released;
      }
    }

    lemma Skipped(w: Window, codec: string, items: seq<Item>, i: nat, ps: seq<Packet>,
                  previousPts: Option<int>, jitterPackets: JitterHeap.Heap, jitterSequence: nat)
      requires i < |items| && !IsAccepted(items[i])
      requires Reached(codec, items, i, ps, previousPts, jitterPackets, jitterSequence)
      ensures Reached(codec, items, i + 1, ps, previousPts, jitterPackets, jitterSequence)
      ensures WindowAfter(w, codec, items, i + 1) == WindowAfter(w, codec, items, i)
    {
      ItemStep(w, codec, items, i);
      hide Play, Anomalies, Packets, Accepted, WindowAfter, Tick, NextPacket;
    }

    /** One item that is not skipped. */
    method DemuxOne(codec: string, items: seq<Item>, i: nat, previousPts: Option<int>,
                    jitterPackets: JitterHeap.Heap, jitterSequence: nat, ghost ps: seq<Packet>, ghost w: Window)
      returns (previousPts': Option<int>, jitterSequence': nat, released: seq<Packet>, ghost qs: seq<Packet>)
      requires i < |items| && IsAccepted(items[i])
      requires Reached(codec, items, i, ps, previousPts, jitterPackets, jitterSequence)
      requires window == WindowAfter(w, codec, items, i)
      modifies this`outOfOrderFrameCount, this`window, jitterPackets
      ensures Reached(codec, items, i + 1, qs, previousPts', jitterPackets, jitterSequence')
      ensures Packets(Play(bufferSize, qs, |qs|).out) == Packets(Play(bufferSize, ps, |ps|).out) + released
      ensures outOfOrderFrameCount + Anomalies(ps, |ps|) == old(outOfOrderFrameCount) + Anomalies(qs, |qs|)
      ensures window == WindowAfter(w, codec, items, i + 1)
    {
      hide Play, Anomalies, Packets, Accepted, WindowAfter, Tick, NextPacket, Advances;
      ItemStep(w, codec, items, i);
      var packet;
      packet, released, qs := Accept(codec, items[i], previousPts, jitterPackets, jitterSequence, ps);
      previousPts' := Some(packet.pts);
      jitterSequence' := if bufferSize > 0 then jitterSequence + 1 else jitterSequence;
    }

    /** One accepted packet: its bookkeeping, then the jitter buffer. */
    method Accept(codec: string, item: Item, previousPts: Option<int>,
                  jitterPackets: JitterHeap.Heap, jitterSequence: nat, ghost ps: seq<Packet>)
      returns (packet: Packet, released: seq<Packet>, ghost qs: seq<Packet>)
      requires IsAccepted(item)
      requires previousPts == if ps == [] then None else Some(ps[|ps| - 1].pts)
      requires jitterPackets.Valid() && (bufferSize > 0 ==> jitterSequence == |ps|)
      requires jitterPackets.held == Play(bufferSize, ps, |ps|).held
      modifies this`outOfOrderFrameCount, this`window, jitterPackets
      ensures packet == NextPacket(codec, ps, item) && qs == ps + [packet] && qs[|qs| - 1] == packet
      ensures jitterPackets.Valid() && jitterPackets.held == Play(bufferSize, qs, |qs|).held
      ensures Packets(Play(bufferSize, qs, |qs|).out) == Packets(Play(bufferSize, ps, |ps|).out) + released
      ensures outOfOrderFrameCount + Anomalies(ps, |ps|) == old(outOfOrderFrameCount) + Anomalies(qs, |qs|)
      ensures window == Tick(old(window), |qs| > 1 && !Advances(qs, |qs| - 1), item.now)
    {
      var pts := item.pts.value;
      var duration := Observe(previousPts, pts, item.duration, item.now);
      packet := Packet(codec, pts, item.dts.value, duration, item.key, item.data);
      released := Buffer(jitterPackets, jitterSequence, packet, ps);
      AnomaliesExtend(ps, packet);
      qs := ps + [packet];
      assert |qs| == |ps| + 1 && qs[|ps|] == packet;
      assert |ps| > 0 ==> qs[|ps| - 1] == ps[|ps| - 1];
    }

    /** Hands one accepted packet to the jitter buffer; `ps` are the earlier ones. */
    method Buffer(jitterPackets: JitterHeap.Heap, jitterSequence: nat, packet: Packet, ghost ps: seq<Packet>)
      returns (released: seq<Packet>)
      requires jitterPackets.Valid() && (bufferSize > 0 ==> jitterSequence == |ps|)
      requires jitterPackets.held == Play(bufferSize, ps, |ps|).held
      modifies jitterPackets
      ensures jitterPackets.Valid()
      ensures jitterPackets.held == Play(bufferSize, ps + [packet], |ps| + 1).held
      ensures Packets(Play(bufferSize, ps + [packet], |ps| + 1).out)
          == Packets(Play(bufferSize, ps, |ps|).out) + released
    {
      PlayExtend(bufferSize, ps, packet);
      if bufferSize == 0 {
        JitterTheorems.ZeroSizeIsPassThrough(ps, |ps|);
        JitterTheorems.ZeroSizeIsPassThrough(ps + [packet], |ps| + 1);
        return [packet];
      }
      released := [];
      JitterTheorems.HeldSorted(bufferSize, ps, |ps|);
      jitterPackets.Push(Entry(packet.pts, jitterSequence, packet));
      var size := jitterPackets.Size();
      if size > bufferSize {
        var least := jitterPackets.Pop();
        PacketsAppend(Play(bufferSize, ps, |ps|).out, least);
        released := [least.packet];
      }
    }

    /** One turn of the reconnect loop; `fatal` when the error is passed to the caller. */
    method Connect(s: Session) returns (emitted: seq<Packet>, fatal: bool)
      modifies this
      ensures s.UnsupportedCodec? ==> inputRtspStatus == old(inputRtspStatus)
      ensures s.OpenFailed? || s.NoVideoStream? || (s.Streamed? && s.failed) ==> inputRtspStatus == Disconnected
      ensures s.Streamed? && !s.failed ==> inputRtspStatus == Connected
      ensures emitted == Released(bufferSize, s) && fatal == s.UnsupportedCodec?
      ensures outOfOrderFrameCount == old(outOfOrderFrameCount) + SessionAnomalies(s)
      ensures window == SessionWindow(old(window), s)
      ensures inputRtspStatus == StatusAfter(old(inputRtspStatus), s)
      ensures opens - old(opens) == closes - old(closes) == if s.OpenFailed? then 0 else 1
    {
      emitted, fatal := [], false;
      match s {
        case OpenFailed =>
          inputRtspStatus := Disconnected;
        case NoVideoStream =>
          opens := opens + 1;
          inputRtspStatus := Disconnected;
          closes := closes + 1;
        case UnsupportedCodec =>
          opens := opens + 1;
          fatal := true;
          closes := closes + 1;
        case Streamed(codec, items, failed) =>
          opens := opens + 1;
          inputRtspStatus := Connected;
          emitted := Demux(codec, items);
          if failed {
            inputRtspStatus := Disconnected;
          }
          closes := closes + 1;
      }
    }

    /** The reconnect loop over `sessions`: ends early only at an unsupported codec. */
    method Run(sessions: seq<Session>) returns (emitted: seq<Packet>, done: nat)
      modifies this
      ensures done <= |sessions| && emitted == AllReleased(bufferSize, sessions, done)
      ensures if Retryable(sessions, |sessions|) then done == |sessions|
              else done > 0 && Retryable(sessions, done - 1) && sessions[done - 1].UnsupportedCodec?
      ensures outOfOrderFrameCount == old(outOfOrderFrameCount) + AllAnomalies(sessions, done)
      ensures window == AllWindow(old(window), sessions, done)
      ensures inputRtspStatus == AllStatus(old(inputRtspStatus), sessions, done)
      ensures opens - old(opens) == closes - old(closes)
    {
      emitted, done := [], 0;
      while done < |sessions|
        invariant done <= |sessions| && emitted == AllReleased(bufferSize, sessions, done)
        invariant Retryable(sessions, done)
        invariant outOfOrderFrameCount == old(outOfOrderFrameCount) + AllAnomalies(sessions, done)
        invariant window == AllWindow(old(window), sessions, done)
        invariant inputRtspStatus == AllStatus(old(inputRtspStatus), sessions, done)
        invariant opens - old(opens) == closes - old(closes)
      {
        var more, fatal := Connect(sessions[done]);
        emitted := emitted + more;
        done := done + 1;
        if fatal {
          return;
        }
      }
    }
  }

  lemma PlayExtend(k: nat, ps: seq<Packet>, p: Packet)
    ensures Play(k, ps + [p], |ps| + 1) == Offer(k, Play(k, ps, |ps|), p)
  {
    PlayPrefix(k, ps, ps + [p], |ps|);
  }

  lemma PacketsAppend(s: seq<Entry>, e: Entry)
    ensures Packets(s + [e]) == Packets(s) + [e.packet]
  {
  }

  lemma {:induction false} AnomaliesPrefix(ps: seq<Packet>, qs: seq<Packet>, n: nat)
    requires n <= |ps| <= |qs| && ps == qs[..|ps|]
    ensures Anomalies(ps, n) == Anomalies(qs, n)
  {
    if n > 1 {
      AnomaliesPrefix(ps, qs, n - 1);
    }
  }

  lemma AnomaliesExtend(ps: seq<Packet>, p: Packet)
    ensures Anomalies(ps + [p], |ps| + 1)
         == Anomalies(ps, |ps|) + if |ps| > 0 && p.pts <= ps[|ps| - 1].pts then 1 else 0
  {
    AnomaliesPrefix(ps, ps + [p], |ps|);
  }

  // ---------- Bookkeeping laws ----------

  lemma LoggedTotalAppend(logged: seq<Warning>, w: Warning)
    ensures LoggedTotal(logged + [w]) == LoggedTotal(logged) + w.count
  {
    assert (logged + [w])[..|logged|] == logged;
  }

  lemma TickConserves(w: Window, anomalous: bool, now: real)
    ensures var r := Tick(w, anomalous, now);
            LoggedTotal(r.logged) + r.count == LoggedTotal(w.logged) + w.count + if anomalous then 1 else 0
  {
    LoggedTotalAppend(w.logged, Warning(now, w.count + if anomalous then 1 else 0));
  }

  /** Every anomaly of a connection is either logged or still in the window. */
  lemma {:induction false} WindowConserves(w: Window, codec: string, items: seq<Item>, n: nat)
    requires n <= |items|
    ensures var r, ps := WindowAfter(w, codec, items, n), Accepted(codec, items, n);
            LoggedTotal(r.logged) + r.count == LoggedTotal(w.logged) + w.count + Anomalies(ps, |ps|)
  {
    if n > 0 {
      WindowConserves(w, codec, items, n - 1);
      ItemStep(w, codec, items, n - 1);
      var before, front, ps := WindowAfter(w, codec, items, n - 1), Accepted(codec, items, n - 1),
          Accepted(codec, items, n);
      hide WindowAfter, Accepted, Tick, LoggedTotal, NextPacket;
      if IsAccepted(items[n - 1]) {
        AnomaliesExtend(front, ps[|ps| - 1]);
        TickConserves(before, |ps| > 1 && !Advances(ps, |ps| - 1), items[n - 1].now);
      }
    }
  }

  /**
    Over any run the counter's increase, which `Run` ties to AllAnomalies, is the sum of
    all counts logged during it plus the change of the open window.
   */
  lemma {:induction false} AnomaliesAreLoggedOrPending(w: Window, sessions: seq<Session>, n: nat)
    requires n <= |sessions|
    ensures var r := AllWindow(w, sessions, n);
            LoggedTotal(r.logged) + r.count == LoggedTotal(w.logged) + w.count + AllAnomalies(sessions, n)
  {
    if n > 0 {
      AnomaliesAreLoggedOrPending(w, sessions, n - 1);
      var s := sessions[n - 1];
      if s.Streamed? {
        WindowConserves(AllWindow(w, sessions, n - 1), s.codec, s.items, |s.items|);
      }
    }
  }

  /** Warnings name at least one anomaly, are at least one interval apart and before `nextAt`. */
  predicate Spaced(w: Window) {
    && (forall i :: 0 <= i < |w.logged| ==> w.logged[i].count > 0)
    && (forall i :: 0 < i < |w.logged| ==> w.logged[i - 1].at + ANOMALY_LOG_INTERVAL <= w.logged[i].at)
    && (|w.logged| > 0 ==> w.logged[|w.logged| - 1].at + ANOMALY_LOG_INTERVAL <= w.nextAt)
  }

  lemma {:induction false} WindowStaysSpaced(w: Window, codec: string, items: seq<Item>, n: nat)
    requires n <= |items| && Spaced(w)
    ensures Spaced(WindowAfter(w, codec, items, n))
  {
    if n > 0 {
      WindowStaysSpaced(w, codec, items, n - 1);
    }
  }

  lemma {:induction false} WarningsAreSpaced(w: Window, sessions: seq<Session>, n: nat)
    requires n <= |sessions| && Spaced(w)
    ensures Spaced(AllWindow(w, sessions, n))
  {
    if n > 0 {
      WarningsAreSpaced(w, sessions, n - 1);
      var s := sessions[n - 1];
      if s.Streamed? {
        WindowStaysSpaced(AllWindow(w, sessions, n - 1), s.codec, s.items, |s.items|);
      }
    }
  }

  function DurationSum(ps: seq<Packet>, n: nat): int
    requires n <= |ps|
  {
    if n <= 1 then 0 else DurationSum(ps, n - 1) + ps[n - 1].duration
  }

  /** The total distance by which timestamps move backwards. */
  function Backward(ps: seq<Packet>, n: nat): nat
    requires n <= |ps|
  {
    if n <= 1 then 0 else Backward(ps, n - 1) + Max(0, ps[n - 2].pts - ps[n - 1].pts)
  }

  lemma {:induction false} SumsPrefix(ps: seq<Packet>, qs: seq<Packet>, n: nat)
    requires n <= |ps| <= |qs| && ps == qs[..|ps|]
    ensures DurationSum(ps, n) == DurationSum(qs, n) && Backward(ps, n) == Backward(qs, n)
  {
    if n > 1 {
      SumsPrefix(ps, qs, n - 1);
    }
  }

  /** Durations after the first packet span the timestamps, plus all backward movement. */
  lemma {:induction false} DurationsTelescope(codec: string, items: seq<Item>, n: nat)
    requires n <= |items| && Accepted(codec, items, n) != []
    ensures var ps := Accepted(codec, items, n);
            DurationSum(ps, |ps|) == ps[|ps| - 1].pts - ps[0].pts + Backward(ps, |ps|)
  {
    var front, ps := Accepted(codec, items, n - 1), Accepted(codec, items, n);
    if front != [] {
      DurationsTelescope(codec, items, n - 1);
      if IsAccepted(items[n - 1]) {
        SumsPrefix(front, ps, |front|);
      }
    }
  }

  // ---------- Which items become packets ----------

  /** The item has both timestamps, so it becomes a packet. */
  predicate HasTimestamps(item: Item) {
    item.Demuxed? && item.pts.Some? && item.dts.Some?
  }

  /** The timestamp of the packet before number i, if there is one. */
  function Previous(ps: seq<Packet>, i: nat): Option<int>
    requires i <= |ps|
  {
    if i == 0 then None else Some(ps[i - 1].pts)
  }

  /** The packet carries what the item gives, and the time since the packet before, or the item's duration. */
  predicate Carries(packet: Packet, codec: string, item: Item, previous: Option<int>)
    requires HasTimestamps(item)
  {
    && packet.codec == codec && Some(packet.pts) == item.pts && Some(packet.dts) == item.dts
    && packet.key == item.key && packet.data == item.data
    && packet.duration == if previous.None? then item.duration
                          else if packet.pts > previous.value then packet.pts - previous.value else 0
  }

  /** `at` lists, in order, the positions of the items below `n` that have both timestamps. */
  predicate ListsTimestamped(items: seq<Item>, n: nat, at: seq<nat>)
    requires n <= |items|
  {
    && (forall i, j :: 0 <= i < j < |at| ==> at[i] < at[j])
    && (forall i :: 0 <= i < |at| ==> at[i] < n && HasTimestamps(items[at[i]]))
    && (forall j :: 0 <= j < n && HasTimestamps(items[j]) ==> j in at)
  }

  /** Packet number i carries what the item at `at[i]` gives. */
  predicate CarryAll(ps: seq<Packet>, codec: string, items: seq<Item>, at: seq<nat>) {
    |ps| == |at| && forall i :: 0 <= i < |at| ==>
      at[i] < |items| && HasTimestamps(items[at[i]]) && Carries(ps[i], codec, items[at[i]], Previous(ps, i))
  }

  lemma ListOneMore(items: seq<Item>, n: nat, at: seq<nat>)
    requires 0 < n <= |items| && ListsTimestamped(items, n - 1, at)
    ensures ListsTimestamped(items, n, if HasTimestamps(items[n - 1]) then at + [n - 1] else at)
  {
    hide HasTimestamps;
    var all := at + [n - 1];
    forall j | 0 <= j < n && HasTimestamps(items[j])
      ensures j in all
    {
      if j < n - 1 {
        assert j in at;
      } else {
        assert all[|at|] == j;
      }
    }
  }

  lemma CarryOneMore(ps: seq<Packet>, codec: string, items: seq<Item>, at: seq<nat>, n: nat)
    requires 0 < n <= |items| && CarryAll(ps, codec, items, at) && HasTimestamps(items[n - 1])
    ensures CarryAll(ps + [NextPacket(codec, ps, items[n - 1])], codec, items, at + [n - 1])
  {
    var p := NextPacket(codec, ps, items[n - 1]);
    var qs, all := ps + [p], at + [n - 1];
    assert Carries(p, codec, items[n - 1], Previous(ps, |ps|));
    forall i | 0 <= i <= |ps|
      ensures Previous(qs, i) == Previous(ps, i)
    {
    }
    hide NextPacket, Carries, Previous, HasTimestamps;
    forall i | 0 <= i < |all|
      ensures all[i] < |items| && HasTimestamps(items[all[i]]) && Carries(qs[i], codec, items[all[i]], Previous(qs, i))
    {
      if i < |at| {
        assert all[i] == at[i] && qs[i] == ps[i];
      }
    }
  }

  lemma AcceptedOneMore(codec: string, items: seq<Item>, n: nat)
    requires 0 < n <= |items|
    ensures var ps := Accepted(codec, items, n - 1);
            Accepted(codec, items, n)
            == if HasTimestamps(items[n - 1]) then ps + [NextPacket(codec, ps, items[n - 1])] else ps
  {
    hide NextPacket;
  }

  /**
    The accepted packets correspond one to one and in order to exactly the items that have
    a pts and a dts, and carry their contents.
   */
  lemma {:induction false} AcceptedAreTheTimestamped(codec: string, items: seq<Item>, n: nat) returns (at: seq<nat>)
    requires n <= |items|
    ensures ListsTimestamped(items, n, at) && CarryAll(Accepted(codec, items, n), codec, items, at)
  {
    at := [];
    if n > 0 {
      AcceptedOneMore(codec, items, n);
      hide Accepted, NextPacket, CarryAll, ListsTimestamped, Carries;
      at := AcceptedAreTheTimestamped(codec, items, n - 1);
      ListOneMore(items, n, at);
      if HasTimestamps(items[n - 1]) {
        CarryOneMore(Accepted(codec, items, n - 1), codec, items, at, n);
        at := at + [n - 1];
      }
    }
  }

  /** So what a connection hands on without a buffer are exactly those items, in order. */
  lemma UnbufferedHandsOnTheTimestamped(s: Session) returns (at: seq<nat>)
    requires s.Streamed?
    ensures ListsTimestamped(s.items, |s.items|, at) && CarryAll(Released(0, s), s.codec, s.items, at)
  {
    at := AcceptedAreTheTimestamped(s.codec, s.items, |s.items|);
    var ps := Accepted(s.codec, s.items, |s.items|);
    JitterTheorems.ZeroSizeIsPassThrough(ps, |ps|);
    hide Accepted, CarryAll, ListsTimestamped, Play, Packets;
    assert ps[..|ps|] == ps;
  }

  /** With a buffer of any size a connection hands on packets that it accepted, none of them twice. */
  lemma HandsOnAccepted(k: nat, s: Session) returns (at: seq<nat>)
    ensures |at| == |Released(k, s)| && forall i, j :: 0 <= i < j < |at| ==> at[i] != at[j]
    ensures var ps := Deliveries(s); forall i :: 0 <= i < |at| ==> at[i] < |ps| && Released(k, s)[i] == ps[at[i]]
  {
    var ps := Deliveries(s);
    var out := Play(k, ps, |ps|).out;
    JitterTheorems.KeysDistinct(k, ps, |ps|);
    forall i | 0 <= i < |out|
      ensures out[i].arrival < |ps| && out[i] == EntryOf(ps, out[i].arrival)
    {
      JitterTheorems.EntriesAreArrivals(k, ps, |ps|, out[i]);
    }
    at := seq(|out|, i requires 0 <= i < |out| => out[i].arrival);
    var all := out + Play(k, ps, |ps|).held;
    forall i, j | 0 <= i < j < |at|
      ensures at[i] != at[j]
    {
      assert all[i] == out[i] && all[j] == out[j];
    }
  }

  /** Over a run, what each connection handed on stands as a whole behind all that earlier ones did. */
  lemma {:induction false} ConnectionsFollowEachOther(k: nat, sessions: seq<Session>, n: nat, i: nat)
    requires i < n <= |sessions|
    ensures AllReleased(k, sessions, i) + Released(k, sessions[i]) <= AllReleased(k, sessions, n)
    decreases n - i
  {
    hide Released;
    if i < n - 1 {
      ConnectionsFollowEachOther(k, sessions, n - 1, i);
    }
  }

  // ---------- What a connection hands on ----------

  /**
    A connection of n accepted packets hands on exactly max(0, n - k) of them and loses
    the others, at most k, when it ends.
   */
  lemma BoundedLoss(k: nat, s: Session)
    ensures var n := |Deliveries(s)|;
            |Released(k, s)| == (if n > k then n - k else 0) && n - |Released(k, s)| <= k
  {
    JitterTheorems.ExactDelay(k, Deliveries(s), |Deliveries(s)|);
  }

  /** With disorder bounded by the buffer size, a connection hands on the first n - k of the stable sort. */
  lemma ReleasedIsSortedPrefix(k: nat, s: Session)
    requires JitterTheorems.BoundedDisorder(k, Deliveries(s))
    ensures var ps := Deliveries(s);
            Released(k, s) == Packets(StableSort(ps, |ps|))[..if |ps| > k then |ps| - k else 0]
  {
    var ps := Deliveries(s);
    JitterTheorems.BoundedDisorderSorts(k, ps, |ps|);
  }
}
