/**
  What the sender worker keeps over every run: each connection carries a contiguous slice
  of the taken packets beginning at a keyframe, and no keyframe is dropped.
 */
module SendTheorems {
  import opened Options
  import opened AnnexB
  import opened SendWorker

  /** Consecutive positions. */
  predicate Contiguous(slice: seq<nat>) {
    forall j :: 0 <= j < |slice| ==> slice[j] == slice[0] + j
  }

  /** A connection's packets follow each other and begin with a keyframe. */
  predicate GoodSlice(packets: seq<Packet>, slice: seq<nat>) {
    Contiguous(slice) && (slice != [] ==> slice[0] < |packets| && packets[slice[0]].isKeyframe)
  }

  predicate Below(slice: seq<nat>, bound: nat) {
    forall j :: 0 <= j < |slice| ==> slice[j] < bound
  }

  /** All of `a` lies before all of `b`. */
  predicate Precedes(a: seq<nat>, b: seq<nat>) {
    a != [] && b != [] ==> a[|a| - 1] < b[0]
  }

  predicate InOrder(connections: seq<seq<nat>>) {
    forall c, d :: 0 <= c < d < |connections| ==> Precedes(connections[c], connections[d])
  }

  /** A packet's fate tells the only connection it was muxed on; only other packets than keyframes are discarded. */
  predicate FateOk(packets: seq<Packet>, w: Worker, i: nat)
    requires i < |w.fates| <= |packets|
  {
    match w.fates[i]
    case Muxed(c) =>
      && c < |w.connections| && w.connections[c] != [] && w.connections[c][0] <= i
      && i < w.connections[c][0] + |w.connections[c]|
    case Discarded => !packets[i].isKeyframe
  }

  predicate SliceFates(w: Worker, c: nat)
    requires c < |w.connections|
  {
    forall j :: 0 <= j < |w.connections[c]| ==>
        w.connections[c][j] < |w.fates| && w.fates[w.connections[c][j]] == Muxed(c)
  }

  /** An open connection is the last one, has carried the latest packet, and awaits no keyframe. */
  predicate OpenOk(w: Worker) {
    && (w.container <==> !w.awaitingKeyframe)
    && (w.container <==> w.connected)
    && w.closes + (if w.container then 1 else 0) == |w.connections|
    && (w.container ==>
          var last := w.connections[|w.connections| - 1];
          last != [] && last[|last| - 1] == |w.fates| - 1)
  }

  predicate Inv(packets: seq<Packet>, w: Worker) {
    && |w.fates| <= w.taken <= |w.fates| + 1 && w.taken <= |packets|
    && OpenOk(w)
    && (forall c :: 0 <= c < |w.connections| ==>
        GoodSlice(packets, w.connections[c]) && Below(w.connections[c], |w.fates|))
    && InOrder(w.connections)
    && (forall i :: 0 <= i < |w.fates| ==> FateOk(packets, w, i))
    && (forall c :: 0 <= c < |w.connections| ==> SliceFates(w, c))
  }

  /** What a pass that muxes nothing changes. */
  lemma PassWithoutMux(packets: seq<Packet>, env: seq<Attempt>, w: Worker)
    requires OpenOk(w) && |w.fates| <= w.taken && !Done(w, packets, env) && !Muxes(w, Pass(w, packets, env))
    ensures var r := Pass(w, packets, env);
            && OpenOk(r) && r.taken == |w.fates| + 1
            && (r.connections == w.connections || r.connections == w.connections + [[]])
            && (r.fates == w.fates || (r.fates == w.fates + [Discarded] && !packets[|w.fates|].isKeyframe))
  {
  }

  lemma PassKeeps(packets: seq<Packet>, env: seq<Attempt>, w: Worker)
    requires Inv(packets, w)
    ensures Inv(packets, Pass(w, packets, env))
  {
    var r := Pass(w, packets, env);
    if Muxes(w, r) {
      MuxKeeps(packets, env, w);
    } else if !Done(w, packets, env) {
      PassWithoutMux(packets, env, w);
      hide Pass, OpenOk;
      forall c | 0 <= c < |r.connections|
        ensures GoodSlice(packets, r.connections[c]) && Below(r.connections[c], |r.fates|) && SliceFates(r, c)
      {
        if c < |w.connections| {
          assert GoodSlice(packets, w.connections[c]) && SliceFates(w, c);
        }
      }
      forall i | 0 <= i < |r.fates|
        ensures FateOk(packets, r, i)
      {
        if i < |w.fates| {
          assert FateOk(packets, w, i);
        }
      }
    }
  }

  /** Adding the next position to the last slice keeps the slices in order. */
  lemma AppendKeepsOrder(before: seq<seq<nat>>, after: seq<seq<nat>>, i: nat)
    requires InOrder(before) && forall c :: 0 <= c < |before| ==> Below(before[c], i)
    requires |before| <= |after| <= |before| + 1 && after != []
    requires forall c :: 0 <= c < |after| - 1 ==> after[c] == before[c]
    requires after[|after| - 1] == (if |after| == |before| then before[|after| - 1] else []) + [i]
    ensures InOrder(after)
  {
    forall c, d | 0 <= c < d < |after|
      ensures Precedes(after[c], after[d])
    {
      assert Below(before[c], i);
      if d < |before| {
        assert Precedes(before[c], before[d]);
      }
    }
  }

  predicate Muxes(w: Worker, r: Worker) {
    |r.fates| > |w.fates| && r.fates[|w.fates|].Muxed?
  }

  lemma MuxKeeps(packets: seq<Packet>, env: seq<Attempt>, w: Worker)
    requires Inv(packets, w) && !Done(w, packets, env) && Muxes(w, Pass(w, packets, env))
    ensures Inv(packets, Pass(w, packets, env))
  {
    var r := Pass(w, packets, env);
    assert r.connections[|r.connections| - 1]
        == (if |r.connections| == |w.connections| then w.connections[|r.connections| - 1] else []) + [|w.fates|];
    AppendKeepsOrder(w.connections, r.connections, |w.fates|);
    forall c | 0 <= c < |r.connections|
      ensures GoodSlice(packets, r.connections[c]) && Below(r.connections[c], |r.fates|) && SliceFates(r, c)
    {
      MuxKeepsSlice(packets, env, w, c);
    }
    forall k | 0 <= k < |r.fates|
      ensures FateOk(packets, r, k)
    {
      MuxKeepsFate(packets, env, w, k);
    }
  }

  lemma MuxKeepsSlice(packets: seq<Packet>, env: seq<Attempt>, w: Worker, c: nat)
    requires !Done(w, packets, env) && OpenOk(w) && Muxes(w, Pass(w, packets, env))
    requires c < |w.connections| ==>
               GoodSlice(packets, w.connections[c]) && Below(w.connections[c], |w.fates|) && SliceFates(w, c)
    requires c < |Pass(w, packets, env).connections|
    ensures var r := Pass(w, packets, env);
            GoodSlice(packets, r.connections[c]) && Below(r.connections[c], |r.fates|) && SliceFates(r, c)
  {
  }

  lemma MuxKeepsFate(packets: seq<Packet>, env: seq<Attempt>, w: Worker, k: nat)
    requires !Done(w, packets, env) && OpenOk(w) && Muxes(w, Pass(w, packets, env))
    requires forall c :: 0 <= c < |w.connections| ==> GoodSlice(packets, w.connections[c])
    requires k <= |w.fates| < |packets| && (k < |w.fates| ==> FateOk(packets, w, k))
    ensures FateOk(packets, Pass(w, packets, env), k)
  {
  }

  lemma {:induction false} InvAlways(packets: seq<Packet>, env: seq<Attempt>, n: nat)
    ensures Inv(packets, After(packets, env, n))
  {
    if n > 0 {
      InvAlways(packets, env, n - 1);
      PassKeeps(packets, env, After(packets, env, n - 1));
    }
  }

  /**
    For every packet sequence and every pattern of failures, at every moment: the packets
    muxed on each connection are a contiguous slice of the taken ones that starts at a
    keyframe, slices of successive connections are in order and so disjoint, and at most
    the last opened connection is open.
   */
  lemma SlicesStartAtKeyframes(packets: seq<Packet>, env: seq<Attempt>, n: nat, c: nat)
    requires c < |After(packets, env, n).connections|
    ensures var w := After(packets, env, n);
            && GoodSlice(packets, w.connections[c]) && InOrder(w.connections)
            && |w.connections| - w.closes == if w.container then 1 else 0
  {
    InvAlways(packets, env, n);
  }

  /**
    No keyframe is lost: of the packets the worker has taken when it ends, at most the
    last one has no fate, the one in hand when shutdown is requested; every other is a
    discarded non-keyframe, or was muxed on exactly one connection.
   */
  lemma NoKeyframeLost(packets: seq<Packet>, env: seq<Attempt>, n: nat, lateTake: bool, i: nat)
    requires i < TakenAtEnd(packets, After(packets, env, n), lateTake)
    ensures var w := After(packets, env, n);
            && TakenAtEnd(packets, w, lateTake) <= |packets|
            && (i < |w.fates| || i + 1 == TakenAtEnd(packets, w, lateTake))
            && (i < |w.fates| && packets[i].isKeyframe ==> w.fates[i].Muxed?)
            && forall c :: 0 <= c < |w.connections| ==>
                 (i in w.connections[c] <==> i < |w.fates| && w.fates[i] == Muxed(c))
  {
    InvAlways(packets, env, n);
    var w := After(packets, env, n);
    if i < |w.fates| {
      assert FateOk(packets, w, i);
    }
    forall c | 0 <= c < |w.connections|
      ensures i in w.connections[c] <==> i < |w.fates| && w.fates[i] == Muxed(c)
    {
      assert SliceFates(w, c) && GoodSlice(packets, w.connections[c]);
      if i < |w.fates| && w.fates[i] == Muxed(c) {
        assert FateOk(packets, w, i);
        assert w.connections[c][i - w.connections[c][0]] == i;
      }
    }
  }

  /** Positions on one connection are muxed once. */
  lemma MuxedOnce(packets: seq<Packet>, env: seq<Attempt>, n: nat, c: nat, j: nat, k: nat)
    requires var w := After(packets, env, n); c < |w.connections| && j < k < |w.connections[c]|
    ensures var slice := After(packets, env, n).connections[c]; slice[j] < slice[k]
  {
    InvAlways(packets, env, n);
    assert GoodSlice(packets, After(packets, env, n).connections[c]);
  }

  /**
    A non-keyframe is discarded only while no connection is up: the packet taken just
    before it, if any, was discarded, or was muxed on a connection that has been closed.
   */
  lemma DiscardedOnlyWhileDown(packets: seq<Packet>, env: seq<Attempt>, n: nat)
    requires n > 0 && |After(packets, env, n).fates| > |After(packets, env, n - 1).fates|
    requires After(packets, env, n).fates[|After(packets, env, n - 1).fates|].Discarded?
    ensures var w := After(packets, env, n - 1); !w.container && w.closes == |w.connections|
  {
    InvAlways(packets, env, n - 1);
  }

  /**
    What an attempt does with the packet in hand: it muxes it exactly if it can mux and a
    connection is up, or the packet is a keyframe and the attempt can open one; it discards
    it exactly if no connection is up and it is no keyframe; otherwise the packet stays in hand.
   */
  lemma AttemptMuxesIff(packets: seq<Packet>, env: seq<Attempt>, n: nat)
    requires !Done(After(packets, env, n), packets, env) && n < |env|
    ensures var w, r := After(packets, env, n), After(packets, env, n + 1);
            var i := |w.fates|;
            && (MuxedBy(packets, env, n) <==> env[n].muxes && (w.container || (packets[i].isKeyframe && env[n].opens)))
            && (r.fates == w.fates + [Discarded] <==> !w.container && !packets[i].isKeyframe)
            && (!MuxedBy(packets, env, n) && (w.container || packets[i].isKeyframe) ==> r.fates == w.fates)
            && r.used == n + 1
  {
    UsedAreAttempts(packets, env, n);
    InvAlways(packets, env, n);
    var w := After(packets, env, n);
    assert OpenOk(w);
    AfterNext(packets, env, n);
    hide After, Inv;
  }

  // ---------- Which access unit comes first ----------

  /** Keyframe flags as the pipeline sets them: by the Annex-B scan. */
  ghost predicate FlaggedByScan(packets: seq<Packet>) {
    forall i :: 0 <= i < |packets| ==> (packets[i].isKeyframe <==> Detected(packets[i].codec, packets[i].data))
  }

  /** With flags set by the scan, the first access unit on every connection contains an IDR NAL unit. */
  lemma ConnectionsStartWithIdr(packets: seq<Packet>, env: seq<Attempt>, n: nat, c: nat)
    requires FlaggedByScan(packets)
    requires c < |After(packets, env, n).connections| && After(packets, env, n).connections[c] != []
    ensures var first := After(packets, env, n).connections[c][0];
            first < |packets| && ContainsIdr(packets[first].codec, packets[first].data)
  {
    InvAlways(packets, env, n);
    var first := After(packets, env, n).connections[c][0];
    assert GoodSlice(packets, After(packets, env, n).connections[c]);
    WhatIsOverlooked(packets[first].codec, packets[first].data);
  }

  // ---------- Announcements, and a network that works ----------

  function NonEmpty(connections: seq<seq<nat>>, n: nat): nat
    requires n <= |connections|
  {
    if n == 0 then 0 else NonEmpty(connections, n - 1) + if connections[n - 1] != [] then 1 else 0
  }

  lemma {:induction false} NonEmptySame(a: seq<seq<nat>>, b: seq<seq<nat>>, n: nat)
    requires n <= |a| && n <= |b| && forall c :: 0 <= c < n ==> (a[c] == [] <==> b[c] == [])
    ensures NonEmpty(a, n) == NonEmpty(b, n)
  {
    if n > 0 {
      NonEmptySame(a, b, n - 1);
    }
  }

  /** Success is announced once for each connection that has carried a packet, and for no other. */
  lemma {:induction false} AnnouncedOncePerConnection(packets: seq<Packet>, env: seq<Attempt>, n: nat)
    ensures var w := After(packets, env, n); w.announced == NonEmpty(w.connections, |w.connections|)
  {
    if n > 0 {
      AnnouncedOncePerConnection(packets, env, n - 1);
      var w := After(packets, env, n - 1);
      assert OpenOk(w) by {
        InvAlways(packets, env, n - 1);
      }
      PassAnnounces(packets, env, w);
    }
  }

  lemma PassAnnounces(packets: seq<Packet>, env: seq<Attempt>, w: Worker)
    requires OpenOk(w) && w.announced == NonEmpty(w.connections, |w.connections|)
    ensures var r := Pass(w, packets, env); r.announced == NonEmpty(r.connections, |r.connections|)
  {
    var r := Pass(w, packets, env);
    NonEmptySame(w.connections, r.connections, |w.connections|);
  }

  /** The positions from `lo` up to, not including, `hi`. */
  function Range(lo: nat, hi: nat): (r: seq<nat>)
    requires lo <= hi
    ensures |r| == hi - lo && forall j :: 0 <= j < hi - lo ==> r[j] == lo + j
  {
    seq(hi - lo, j requires 0 <= j < hi - lo => lo + j)
  }

  /**
    If every attempt succeeds, all packets from the first keyframe on are muxed in order
    on one connection.
   */
  lemma {:induction false} HealthyRun(packets: seq<Packet>, env: seq<Attempt>, n: nat, first: nat)
    requires n <= |env| && n <= |packets| && first < n
    requires forall a :: a in env ==> a.opens && a.muxes
    requires packets[first].isKeyframe && forall i :: 0 <= i < first ==> !packets[i].isKeyframe
    ensures var w := After(packets, env, n);
            && w.connections == [Range(first, n)]
            && w.container && !w.awaitingKeyframe && w.closes == 0 && |w.fates| == w.used == n
  {
    if n == first + 1 {
      BeforeFirstKeyframe(packets, env, first, first);
      assert env[first] in env;
      assert Range(first, n) == [first];
      var one: seq<seq<nat>> := After(packets, env, n - 1).connections + [[]];
      assert one[0] + [first] == Range(first, n);
      assert one[0 := one[0] + [first]] == [Range(first, n)];
    } else {
      HealthyRun(packets, env, n - 1, first);
      assert env[n - 1] in env;
      assert Range(first, n) == Range(first, n - 1) + [n - 1];
      assert [Range(first, n - 1)][0 := Range(first, n)] == [Range(first, n)];
    }
  }

  lemma {:induction false} BeforeFirstKeyframe(packets: seq<Packet>, env: seq<Attempt>, n: nat, first: nat)
    requires n <= first < |packets| && first < |env|
    requires forall i :: 0 <= i < first ==> !packets[i].isKeyframe
    ensures var w := After(packets, env, n);
            w.connections == [] && w.awaitingKeyframe && !w.container && w.closes == 0 && |w.fates| == w.used == n
  {
    if n > 0 {
      BeforeFirstKeyframe(packets, env, n - 1, first);
    }
  }
}
