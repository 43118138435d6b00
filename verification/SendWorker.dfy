/**
  The sender worker: packets taken from its queue are muxed to RTSP connections that
  start at a keyframe; any error closes the connection and waits for the next keyframe.
  Whether an attempt opens and muxes, and when, is an input: one `Attempt` per pass of
  the inner loop, and shutdown is requested after the last one.
 */
module SendWorker {
  import opened Options
  import opened AnnexB

  datatype Packet = Packet(codec: string, pts: int, data: Bytes, isKeyframe: bool)

  datatype Attempt = Attempt(opens: bool, muxes: bool, now: real)

  datatype Fate = Muxed(connection: nat) | Discarded

  /** The worker between two passes of its inner loop. */
  datatype Worker = Worker(
    used: nat,                     // attempts used
    fates: seq<Fate>,              // of the packets it is done with
    container: bool,               // a connection is open: the last of `connections`
    awaitingKeyframe: bool,
    connected: bool,
    connections: seq<seq<nat>>,    // positions of the packets muxed on each opened connection
    closes: nat,
    announced: nat,                // "connected" log lines
    lastMux: Option<real>,
    taken: nat)                    // packets taken from the queue

  function Start(): Worker {
    Worker(0, [], false, true, false, [], 0, 0, None, 0)
  }

  predicate Done(w: Worker, packets: seq<Packet>, env: seq<Attempt>) {
    |w.fates| >= |packets| || w.used >= |env|
  }

  /** One pass of the inner loop over the packet in hand. */
  function Pass(w: Worker, packets: seq<Packet>, env: seq<Attempt>): Worker {
    if Done(w, packets, env) then w
    else
      var i, a := |w.fates|, env[w.used];
      if w.awaitingKeyframe && !packets[i].isKeyframe then
        w.(used := w.used + 1, taken := i + 1, fates := w.fates + [Discarded])
      else if !w.container && !a.opens then
        w.(used := w.used + 1, taken := i + 1, awaitingKeyframe := true, connected := false)
      else
        var connections := if w.container then w.connections else w.connections + [[]];
        if |connections| > 0 && a.muxes then
          var last := |connections| - 1;
          w.(used := w.used + 1, taken := i + 1,
             fates := w.fates + [Muxed(last)],
             container := true, awaitingKeyframe := false, connected := true,
             connections := connections[last := connections[last] + [i]],
             announced := w.announced + (if w.connected then 0 else 1),
             lastMux := Some(a.now))
        else
          w.(used := w.used + 1, taken := i + 1, container := false, awaitingKeyframe := true, connected := false,
             connections := connections, closes := w.closes + 1)
  }

  lemma PassDiscards(w: Worker, packets: seq<Packet>, env: seq<Attempt>)
    requires !Done(w, packets, env) && w.awaitingKeyframe && !packets[|w.fates|].isKeyframe
    ensures Pass(w, packets, env) == w.(used := w.used + 1, taken := |w.fates| + 1, fates := w.fates + [Discarded])
  {
  }

  lemma PassCannotOpen(w: Worker, packets: seq<Packet>, env: seq<Attempt>)
    requires !Done(w, packets, env) && !(w.awaitingKeyframe && !packets[|w.fates|].isKeyframe)
    requires !w.container && !env[w.used].opens
    ensures Pass(w, packets, env)
         == w.(used := w.used + 1, taken := |w.fates| + 1, awaitingKeyframe := true, connected := false)
  {
  }

  /** With a connection open, its packets as in `connections`, the packet is muxed on it or it breaks. */
  lemma PassOnConnection(w: Worker, packets: seq<Packet>, env: seq<Attempt>, connections: seq<seq<nat>>)
    requires !Done(w, packets, env) && !(w.awaitingKeyframe && !packets[|w.fates|].isKeyframe)
    requires w.container || env[w.used].opens
    requires connections == (if w.container then w.connections else w.connections + [[]]) && connections != []
    ensures var a, last := env[w.used], |connections| - 1;
            Pass(w, packets, env) ==
              if a.muxes then
                Worker(w.used + 1, w.fates + [Muxed(last)], true, false, true,
                       connections[last := connections[last] + [|w.fates|]], w.closes,
                       w.announced + (if w.connected then 0 else 1), Some(a.now), |w.fates| + 1)
              else
                Worker(w.used + 1, w.fates, false, true, false, connections, w.closes + 1, w.announced, w.lastMux,
                    |w.fates| + 1)
  {
  }

  /** The worker after `n` passes. */
  function After(packets: seq<Packet>, env: seq<Attempt>, n: nat): Worker {
    if n == 0 then Start() else Pass(After(packets, env, n - 1), packets, env)
  }

  /**
    How many packets a worker that ends as `w` has taken.  `queue_packets` looks at the
    shutdown event before it waits for a packet, so with `lateTake`, when shutdown is
    requested during that wait, it still hands on one packet that gets no attempt.
   */
  function TakenAtEnd(packets: seq<Packet>, w: Worker, lateTake: bool): nat {
    if lateTake && w.taken == |w.fates| < |packets| then w.taken + 1 else w.taken
  }

  /** Attempt `j` muxed a packet. */
  predicate MuxedBy(packets: seq<Packet>, env: seq<Attempt>, j: nat) {
    var before, after := After(packets, env, j), After(packets, env, j + 1);
    |after.fates| > |before.fates| && after.fates[|before.fates|].Muxed?
  }

  /** Attempt `j` was the last of all to mux a packet. */
  ghost predicate LastToMux(packets: seq<Packet>, env: seq<Attempt>, j: nat) {
    MuxedBy(packets, env, j) && forall k :: j < k < |env| ==> !MuxedBy(packets, env, k)
  }

  /** A pass that does anything uses one attempt. */
  lemma {:induction false} UsedAreAttempts(packets: seq<Packet>, env: seq<Attempt>, n: nat)
    ensures After(packets, env, n).used <= n
    ensures !Done(After(packets, env, n), packets, env) ==> After(packets, env, n).used == n
  {
    if n > 0 {
      UsedAreAttempts(packets, env, n - 1);
    }
  }

  lemma PassMuxesAt(w: Worker, packets: seq<Packet>, env: seq<Attempt>)
    ensures var r := Pass(w, packets, env);
            && |w.fates| <= |r.fates| <= |w.fates| + 1 && w.fates <= r.fates
            && (if |r.fates| > |w.fates| && r.fates[|w.fates|].Muxed? then
                  w.used < |env| && !Done(w, packets, env) && r.lastMux == Some(env[w.used].now)
                else r.lastMux == w.lastMux)
  {
  }

  /** A mux is recorded exactly if some packet was muxed. */
  lemma {:induction false} RecordedIffMuxed(packets: seq<Packet>, env: seq<Attempt>, n: nat)
    ensures var w := After(packets, env, n); w.lastMux.Some? <==> exists i :: 0 <= i < |w.fates| && w.fates[i].Muxed?
  {
    if n > 0 {
      RecordedIffMuxed(packets, env, n - 1);
      var before := After(packets, env, n - 1);
      AfterNext(packets, env, n - 1);
      var w := After(packets, env, n);
      PassMuxesAt(before, packets, env);
      hide Pass, After;
      if i :| 0 <= i < |before.fates| && before.fates[i].Muxed? {
        assert w.fates[i].Muxed?;
      }
      if i :| 0 <= i < |w.fates| && w.fates[i].Muxed? {
        assert i < |before.fates| ==> before.fates[i].Muxed?;
      }
    }
  }

  /** The last recorded mux is that of the last attempt that muxed. */
  lemma {:induction false} LastMuxIs(packets: seq<Packet>, env: seq<Attempt>, n: nat) returns (j: nat)
    requires n <= |env| && After(packets, env, n).lastMux.Some?
    ensures j < n && MuxedBy(packets, env, j) && After(packets, env, n).lastMux == Some(env[j].now)
    ensures forall k :: j < k < n ==> !MuxedBy(packets, env, k)
  {
    if n > 0 {
      var before := After(packets, env, n - 1);
      UsedAreAttempts(packets, env, n - 1);
      AfterNext(packets, env, n - 1);
      PassMuxesAt(before, packets, env);
      assert MuxedBy(packets, env, n - 1) <==>
             var w := After(packets, env, n); |w.fates| > |before.fates| && w.fates[|before.fates|].Muxed?;
      hide Pass, After, MuxedBy;
      if MuxedBy(packets, env, n - 1) {
        j := n - 1;
      } else {
        j := LastMuxIs(packets, env, n - 1);
      }
    }
  }

  /** The values shared with the supervising process. */
  class SharedValues {
    var heartbeat: real
    var hasSuccessfulMux: bool
    var awaitingMux: bool

    function View(): Values
      reads this
    {
      Values(heartbeat, hasSuccessfulMux, awaitingMux)
    }
  }

  datatype Values = Values(heartbeat: real, hasSuccessfulMux: bool, awaitingMux: bool)

  /** The values after muxes of which the last was at `lastMux`; unchanged without one. */
  function Written(before: Values, lastMux: Option<real>): Values {
    if lastMux.None? then before else Values(lastMux.value, true, false)
  }

  /** What the whole run leaves in the log, and the shared values. */
  method Send(packets: seq<Packet>, env: seq<Attempt>, lateTake: bool, shared: SharedValues)
    returns (connections: seq<seq<nat>>, fates: seq<Fate>, closes: nat, announced: nat, taken: nat)
    modifies shared
    ensures var w := After(packets, env, |env|);
            && connections == w.connections && fates == w.fates && announced == w.announced
            && taken == TakenAtEnd(packets, w, lateTake)
            && closes == w.closes + (if w.container then 1 else 0)
            && shared.View() == Written(old(shared.View()), w.lastMux)
    ensures (forall i :: 0 <= i < |fates| ==> fates[i].Discarded?) ==> shared.View() == old(shared.View())
    ensures (exists i :: 0 <= i < |fates| && fates[i].Muxed?) ==>
              && shared.hasSuccessfulMux && !shared.awaitingMux
              && exists j :: 0 <= j < |env| && LastToMux(packets, env, j) && shared.heartbeat == env[j].now
  {
    AfterZero(packets, env);
    hide After, Pass;
    connections, fates, closes, announced, taken := [], [], 0, 0, 0;
    var container, awaitingKeyframe, connected := false, true, false;
    var used := 0;
    ghost var w := Start();
    while taken == |fates| && taken < |packets| && (used < |env| || lateTake)
      invariant w == After(packets, env, used) && used <= |env|
      invariant w == Worker(used, fates, container, awaitingKeyframe, connected, connections, closes, announced,
          w.lastMux, w.taken)
      invariant container ==> connections != []
      invariant |fates| <= taken <= |packets|
      invariant taken == |fates| || (taken == |fates| + 1 && used == |env|)
      invariant w.taken == taken || (w.taken == |fates| && taken == |fates| + 1 && lateTake)
      invariant shared.View() == Written(old(shared.View()), w.lastMux)
      decreases |packets| - taken
    {
      var packet := packets[taken];
      ghost var before := used;
      taken := taken + 1;
      while used < |env|
        invariant w == After(packets, env, used) && before <= used <= |env|
        invariant w == Worker(used, fates, container, awaitingKeyframe, connected, connections, closes, announced,
            w.lastMux, w.taken)
        invariant container ==> connections != []
        invariant |fates| == taken - 1
        invariant w.taken == taken || (w.taken == |fates| && used == before)
        invariant shared.View() == Written(old(shared.View()), w.lastMux)
      {
        var a := env[used];
        AfterNext(packets, env, used);
        used := used + 1;
        ghost var v := w;
        w := Pass(w, packets, env);
        if awaitingKeyframe && !packet.isKeyframe {
          PassDiscards(v, packets, env);
          fates := fates + [Discarded];
          break;
        }
        var failed := false;
        if !container {
          if a.opens {
            container := true;
            connections := connections + [[]];
          } else {
            PassCannotOpen(v, packets, env);
            failed := true;
          }
        }
        if !failed {
          PassOnConnection(v, packets, env, connections);
        }
        if !failed && a.muxes {
          var last := |connections| - 1;
          connections := connections[last := connections[last] + [taken - 1]];
          fates := fates + [Muxed(last)];
          if !connected {
            announced := announced + 1;
            connected := true;
          }
          shared.heartbeat := a.now;
          shared.hasSuccessfulMux := true;
          shared.awaitingMux := false;
          awaitingKeyframe := false;
          break;
        }
        connected := false;
        awaitingKeyframe := true;
        if container {
          closes := closes + 1;
        }
        container := false;
      }
    }
    DoneStays(packets, env, used);
    RecordedIffMuxed(packets, env, |env|);
    if w.lastMux.Some? {
      ghost var j := LastMuxIs(packets, env, |env|);
      assert LastToMux(packets, env, j);
    }
    if container {
      closes := closes + 1;
    }
  }

  lemma AfterZero(packets: seq<Packet>, env: seq<Attempt>)
    ensures After(packets, env, 0) == Start()
  {
  }

  lemma AfterNext(packets: seq<Packet>, env: seq<Attempt>, n: nat)
    ensures After(packets, env, n + 1) == Pass(After(packets, env, n), packets, env)
  {
  }

  lemma {:induction false} DoneStaysFrom(packets: seq<Packet>, env: seq<Attempt>, n: nat, m: nat)
    requires n <= m && Done(After(packets, env, n), packets, env)
    ensures After(packets, env, m) == After(packets, env, n)
    decreases m - n
  {
    if n < m {
      DoneStaysFrom(packets, env, n, m - 1);
    }
  }

  lemma DoneStays(packets: seq<Packet>, env: seq<Attempt>, n: nat)
    requires n <= |env| && Done(After(packets, env, n), packets, env)
    ensures After(packets, env, |env|) == After(packets, env, n)
  {
    DoneStaysFrom(packets, env, n, |env|);
  }
}
