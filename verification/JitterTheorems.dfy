/**
  What the online jitter buffer promises about a whole connection: conservation, exact
  delay, bounded loss, and when its output is the stable sort.
 */
module JitterTheorems {
  import opened JitterOrder

  // ---------- Every run ----------

  /** One arrival moves at most one entry from the held to the released side. */
  lemma OfferConserves(k: nat, j: Jitter, p: Packet)
    ensures var r := Offer(k, j, p);
            multiset(r.out) + multiset(r.held) == multiset(j.out) + multiset(j.held) + multiset{Entry(p.pts, j.next, p)}
  {
    var h := Insert(j.held, Entry(p.pts, j.next, p));
    InsertAdds(j.held, Entry(p.pts, j.next, p));
    assert multiset(j.out) + multiset(h) == multiset(j.out) + multiset(j.held) + multiset{Entry(p.pts, j.next, p)};
    assert h == [h[0]] + h[1..];
    assert |h| > k ==> multiset(j.out + [h[0]]) + multiset(h[1..]) == multiset(j.out) + multiset(h);
  }

  /** Released and held packets together are the accepted packets, each exactly once. */
  lemma {:induction false} Conservation(k: nat, ps: seq<Packet>, n: nat)
    requires n <= |ps|
    ensures multiset(Play(k, ps, n).out) + multiset(Play(k, ps, n).held) == Arrivals(ps, n)
  {
    if n > 0 {
      Conservation(k, ps, n - 1);
      OfferConserves(k, Play(k, ps, n - 1), ps[n - 1]);
    }
  }

  /** The held packets are kept in key order. */
  lemma {:induction false} HeldSorted(k: nat, ps: seq<Packet>, n: nat)
    requires n <= |ps|
    ensures Sorted(Play(k, ps, n).held) && ArrivedBefore(Play(k, ps, n).held, n)
  {
    if n > 0 {
      HeldSorted(k, ps, n - 1);
      InsertSorts(Play(k, ps, n - 1).held, EntryOf(ps, n - 1));
    }
  }

  /** After n arrivals exactly max(0, n - k) packets are out and the rest, at most k, are held. */
  lemma {:induction false} ExactDelay(k: nat, ps: seq<Packet>, n: nat)
    requires n <= |ps|
    ensures |Play(k, ps, n).out| == (if n > k then n - k else 0)
    ensures |Play(k, ps, n).held| == (if n > k then k else n)
  {
    if n > 0 {
      ExactDelay(k, ps, n - 1);
    }
  }

  /** What has been released is never taken back. */
  lemma {:induction false} OutGrows(k: nat, ps: seq<Packet>, i: nat, n: nat)
    requires i <= n <= |ps|
    ensures Play(k, ps, i).out <= Play(k, ps, n).out
    decreases n - i
  {
    if i < n {
      OutGrows(k, ps, i, n - 1);
    }
  }

  /** The m-th release happens on the arrival of packet m + k (both counted from 0), and stays. */
  lemma ReleaseOnArrival(k: nat, ps: seq<Packet>, m: nat, n: nat)
    requires m + k < n <= |ps|
    ensures |Play(k, ps, m + k).out| == m
    ensures |Play(k, ps, m + k + 1).out| == m + 1 <= |Play(k, ps, n).out|
    ensures Play(k, ps, m + k + 1).out[m] == Play(k, ps, n).out[m]
  {
    hide Play;
    ExactDelay(k, ps, m + k);
    ExactDelay(k, ps, m + k + 1);
    OutGrows(k, ps, m + k + 1, n);
  }

  /** With size 0 the buffer hands every packet straight on, as the shortcut does. */
  lemma {:induction false} ZeroSizeIsPassThrough(ps: seq<Packet>, n: nat)
    requires n <= |ps|
    ensures Packets(Play(0, ps, n).out) == ps[..n] && Play(0, ps, n).held == []
  {
    if n > 0 {
      ZeroSizeIsPassThrough(ps, n - 1);
      var e := EntryOf(ps, n - 1);
      assert Insert([], e) == [e];
      assert Play(0, ps, n).out == Play(0, ps, n - 1).out + [e];
    }
  }

  /** Every entry of a run is the entry of an arrival. */
  lemma EntriesAreArrivals(k: nat, ps: seq<Packet>, n: nat, e: Entry)
    requires n <= |ps|
    requires e in Play(k, ps, n).out || e in Play(k, ps, n).held
    ensures e.arrival < n && e == EntryOf(ps, e.arrival)
  {
    var j := Play(k, ps, n);
    Conservation(k, ps, n);
    assert e in multiset(j.out) + multiset(j.held);
    ArrivalsAre(ps, n, e);
  }

  // ---------- When the output is the stable sort ----------

  /** The packet arriving at i has a smaller timestamp than one released before it. */
  predicate Late(k: nat, ps: seq<Packet>, i: nat)
    requires i < |ps|
  {
    exists e :: e in Play(k, ps, i).out && ps[i].pts < e.pts
  }

  predicate NoLate(k: nat, ps: seq<Packet>, n: nat)
    requires n <= |ps|
  {
    forall i :: 0 <= i < n ==> !Late(k, ps, i)
  }

  /** Inserting the newest entry behind a prefix it may not undercut. */
  lemma {:induction false} InsertBehind(a: seq<Entry>, b: seq<Entry>, e: Entry)
    requires forall x :: x in a ==> x.pts <= e.pts
    ensures Insert(a + b, e) == a + Insert(b, e)
  {
    if |b| == 0 {
      assert a + b == a;
      if |a| > 0 {
        assert a[|a| - 1] in a;
      }
    } else if b[|b| - 1].pts > e.pts {
      var front := b[..|b| - 1];
      assert (a + b)[..|a + b| - 1] == a + front;
      InsertBehind(a, front, e);
      assert a + (Insert(front, e) + [b[|b| - 1]]) == (a + Insert(front, e)) + [b[|b| - 1]];
    } else {
      assert (a + b) + [e] == a + (b + [e]);
    }
  }

  /** If nothing arrives late, released ++ held is the stable sort after every arrival. */
  lemma {:induction false} NoLateSorts(k: nat, ps: seq<Packet>, n: nat)
    requires n <= |ps| && NoLate(k, ps, n)
    ensures Play(k, ps, n).out + Play(k, ps, n).held == StableSort(ps, n)
  {
    if n > 0 {
      NoLateSorts(k, ps, n - 1);
      var j := Play(k, ps, n - 1);
      var e := EntryOf(ps, n - 1);
      assert !Late(k, ps, n - 1);
      InsertBehind(j.out, j.held, e);
      var h := Insert(j.held, e);
      assert j.out + h == (j.out + [h[0]]) + h[1..];
    }
  }

  /** A late packet is out of order in released ++ held. */
  lemma LateBreaksOrder(k: nat, ps: seq<Packet>, i: nat, n: nat)
    requires i < n <= |ps| && Late(k, ps, i)
    ensures !Sorted(Play(k, ps, n).out + Play(k, ps, n).held)
  {
    var before, all := Play(k, ps, i), Play(k, ps, n);
    var e :| e in before.out && ps[i].pts < e.pts;
    var pos :| 0 <= pos < |before.out| && before.out[pos] == e;
    OutGrows(k, ps, i, n);
    var late := EntryOf(ps, i);
    Conservation(k, ps, n);
    ArrivalsAre(ps, n, late);
    var whole := all.out + all.held;
    assert late in multiset(all.out) + multiset(all.held);
    assert late in whole;
    var at :| 0 <= at < |whole| && whole[at] == late;
    if at < |before.out| {
      assert before.out[at] == late;
      EntriesAreArrivals(k, ps, i, late);
      assert false;
    }
    assert whole[pos] == e && pos < at;
    assert !Before(whole[pos], whole[at]);
  }

  /**
    For every buffer size and every packet sequence: the released packets are a prefix
    of the stable sort if and only if no packet arrives after a packet with a larger
    timestamp has been released.
   */
  lemma ReleasesSortIffNoLate(k: nat, ps: seq<Packet>, n: nat)
    requires n <= |ps|
    ensures Play(k, ps, n).out <= StableSort(ps, n) <==> NoLate(k, ps, n)
  {
    if NoLate(k, ps, n) {
      NoLateSorts(k, ps, n);
    }
    if Play(k, ps, n).out <= StableSort(ps, n) {
      PrefixMeansSorted(k, ps, n);
      StableSortSorts(ps, n);
      if i :| 0 <= i < n && Late(k, ps, i) {
        LateBreaksOrder(k, ps, i, n);
        assert false;
      }
    }
  }

  lemma PrefixMeansSorted(k: nat, ps: seq<Packet>, n: nat)
    requires n <= |ps| && Play(k, ps, n).out <= StableSort(ps, n)
    ensures Play(k, ps, n).out + Play(k, ps, n).held == StableSort(ps, n)
  {
    var j, s := Play(k, ps, n), StableSort(ps, n);
    var rest := s[|j.out|..];
    assert s == j.out + rest;
    assert multiset(s) == multiset(j.out) + multiset(rest);
    assert multiset(rest) == multiset(j.held) by {
      Conservation(k, ps, n);
      StableSortSorts(ps, n);
      MultisetCancel(multiset(j.out), multiset(rest), multiset(j.held));
    }
    assert Sorted(rest) && Sorted(j.held) by {
      StableSortSorts(ps, n);
      HeldSorted(k, ps, n);
    }
    SortedUnique(rest, j.held);
  }

  lemma MultisetCancel(a: multiset<Entry>, b: multiset<Entry>, c: multiset<Entry>)
    requires a + b == a + c
    ensures b == c
  {
    forall e
      ensures b[e] == c[e]
    {
      assert (a + b)[e] == a[e] + b[e] && (a + c)[e] == a[e] + c[e];
    }
  }

  // ---------- ... told from the input alone ----------

  /** How many of the first `n` packets have a larger timestamp than `x`. */
  function Larger(ps: seq<Packet>, n: nat, x: int): nat
    requires n <= |ps|
  {
    if n == 0 then 0 else Larger(ps, n - 1, x) + if ps[n - 1].pts > x then 1 else 0
  }

  function Above(s: seq<Entry>, x: int): (n: nat)
    ensures n <= |s|
  {
    if s == [] then 0 else Above(s[..|s| - 1], x) + if s[|s| - 1].pts > x then 1 else 0
  }

  lemma {:induction false} AboveJoin(a: seq<Entry>, b: seq<Entry>, x: int)
    ensures Above(a + b, x) == Above(a, x) + Above(b, x)
  {
    if b == [] {
      assert a + b == a;
    } else {
      assert (a + b)[..|a + b| - 1] == a + b[..|b| - 1];
      AboveJoin(a, b[..|b| - 1], x);
    }
  }

  lemma {:induction false} AboveInsert(s: seq<Entry>, e: Entry, x: int)
    ensures Above(Insert(s, e), x) == Above(s, x) + if e.pts > x then 1 else 0
  {
    if |s| > 0 && s[|s| - 1].pts > e.pts {
      var front := s[..|s| - 1];
      AboveInsert(front, e, x);
      assert (Insert(front, e) + [s[|s| - 1]])[..|s|] == Insert(front, e);
    } else {
      assert (s + [e])[..|s|] == s;
    }
  }

  lemma {:induction false} AboveSort(ps: seq<Packet>, n: nat, x: int)
    requires n <= |ps|
    ensures Above(StableSort(ps, n), x) == Larger(ps, n, x)
  {
    if n > 0 {
      AboveSort(ps, n - 1, x);
      AboveInsert(StableSort(ps, n - 1), EntryOf(ps, n - 1), x);
    }
  }

  lemma {:induction false} AboveNone(s: seq<Entry>, x: int)
    requires forall i :: 0 <= i < |s| ==> s[i].pts <= x
    ensures Above(s, x) == 0
  {
    if s != [] {
      AboveNone(s[..|s| - 1], x);
    }
  }

  lemma {:induction false} AboveAll(s: seq<Entry>, x: int)
    requires forall i :: 0 <= i < |s| ==> s[i].pts > x
    ensures Above(s, x) == |s|
  {
    if s != [] {
      AboveAll(s[..|s| - 1], x);
    }
  }

  /**
    In key order, with `held` behind `out`: some of `out` is above `x` if and only if more
    than `held` is.
   */
  lemma AboveSplit(out: seq<Entry>, held: seq<Entry>, x: int)
    requires Sorted(out + held)
    ensures (exists e :: e in out && x < e.pts) <==> Above(out + held, x) > |held|
  {
    var s := out + held;
    if e :| e in out && x < e.pts {
      var at :| 0 <= at < |out| && out[at] == e;
      forall i | at <= i < |s|
        ensures s[i].pts > x
      {
        assert i > at ==> Before(s[at], s[i]);
      }
      assert s == s[..at] + s[at..];
      AboveJoin(s[..at], s[at..], x);
      AboveAll(s[at..], x);
    } else {
      forall i | 0 <= i < |out|
        ensures out[i].pts <= x
      {
        assert out[i] in out;
      }
      AboveJoin(out, held, x);
      AboveNone(out, x);
    }
  }

  /** As long as nothing was late, a packet is late exactly if more than k earlier ones are larger. */
  lemma LateIffLarger(k: nat, ps: seq<Packet>, n: nat)
    requires n < |ps| && NoLate(k, ps, n)
    ensures Late(k, ps, n) <==> Larger(ps, n, ps[n].pts) > k
  {
    var j := Play(k, ps, n);
    hide Play, StableSort, Sorted;
    NoLateSorts(k, ps, n);
    StableSortSorts(ps, n);
    ExactDelay(k, ps, n);
    AboveSplit(j.out, j.held, ps[n].pts);
    AboveSort(ps, n, ps[n].pts);
  }

  lemma {:induction false} NoLateIffFewLarger(k: nat, ps: seq<Packet>, n: nat)
    requires n <= |ps|
    ensures NoLate(k, ps, n) <==> forall i :: 0 <= i < n ==> Larger(ps, i, ps[i].pts) <= k
  {
    hide Late, Larger;
    if n > 0 {
      NoLateIffFewLarger(k, ps, n - 1);
      if NoLate(k, ps, n - 1) {
        LateIffLarger(k, ps, n - 1);
      }
    }
  }

  /**
    For every buffer size and every packet sequence: the released packets are a prefix of
    the stable sort if and only if each packet arrives after at most k packets with a
    larger timestamp.
   */
  lemma ReleasesSortIffFewLarger(k: nat, ps: seq<Packet>, n: nat)
    requires n <= |ps|
    ensures Play(k, ps, n).out <= StableSort(ps, n) <==> forall i :: 0 <= i < n ==> Larger(ps, i, ps[i].pts) <= k
  {
    ReleasesSortIffNoLate(k, ps, n);
    NoLateIffFewLarger(k, ps, n);
  }

  /** A buffer of size 1 releases the first of three packets before the third, which belongs before it. */
  lemma TooFarOutOfOrder(p: Packet)
    ensures var ps := [p.(pts := 2), p.(pts := 3), p.(pts := 1)];
            Packets(Play(1, ps, 3).out) == [ps[0], ps[2]] && !(Play(1, ps, 3).out <= StableSort(ps, 3))
  {
    var ps := [p.(pts := 2), p.(pts := 3), p.(pts := 1)];
    assert Larger(ps, 0, 1) == 0;
    assert Larger(ps, 1, 1) == 1;
    assert Larger(ps, 2, 1) == 2;
    ReleasesSortIffFewLarger(1, ps, 3);
    assert ps[2].pts == 1;
    hide StableSort, Larger;
    var a, b, c := EntryOf(ps, 0), EntryOf(ps, 1), EntryOf(ps, 2);
    var none: seq<Entry> := [];
    assert none + [a] == [a] && [a] + [b] == [a, b];
    assert Play(1, ps, 0) == Jitter([], 0, []);
    assert Play(1, ps, 1) == Jitter([a], 1, []);
    assert Play(1, ps, 2) == Jitter([b], 2, [a]);
    assert [b][..0] == none && none + [c] == [c] && [c] + [b] == [c, b];
    assert Insert(none, c) == [c];
    assert Insert([b], c) == [c, b];
    assert Play(1, ps, 3) == Offer(1, Play(1, ps, 2), ps[2]);
    assert Play(1, ps, 3).out == [a, c];
  }

  // ---------- Bounded disorder ----------

  /** A packet is overtaken only by packets that arrive at most k places after it. */
  predicate BoundedDisorder(k: nat, ps: seq<Packet>) {
    forall i, j :: 0 <= i && i + k < j < |ps| ==> ps[i].pts <= ps[j].pts
  }

  predicate DistinctArrivals(s: seq<Entry>) {
    forall i, j :: 0 <= i < j < |s| ==> s[i].arrival != s[j].arrival
  }

  /** Fewer different arrival numbers fit below `n` than there are numbers. */
  lemma {:induction false} DistinctFit(s: seq<Entry>, lo: nat, n: nat)
    requires DistinctArrivals(s) && lo <= n
    requires forall i :: 0 <= i < |s| ==> lo <= s[i].arrival < n
    ensures |s| <= n - lo
    decreases n - lo
  {
    if |s| > 0 {
      assert lo <= s[0].arrival < n;
      if exists i :: 0 <= i < |s| && s[i].arrival == lo {
        var i :| 0 <= i < |s| && s[i].arrival == lo;
        DistinctFit(s[..i] + s[i + 1..], lo + 1, n);
      } else {
        DistinctFit(s, lo + 1, n);
      }
    }
  }

  /** More than k entries with different arrivals below n: one arrived before n - k. */
  lemma Pigeonhole(s: seq<Entry>, k: nat, n: nat) returns (at: nat)
    requires |s| > k && DistinctArrivals(s) && ArrivedBefore(s, n)
    ensures at < |s| && s[at].arrival + k < n
  {
    if forall i :: 0 <= i < |s| ==> s[i].arrival + k >= n {
      assert forall i :: 0 <= i < |s| ==> s[i] in s;
      DistinctFit(s, if n >= k then n - k else 0, n);
      assert false;
    } else {
      at :| 0 <= at < |s| && s[at].arrival + k < n;
    }
  }

  /** Different positions of a run hold different arrival numbers, so heap keys never tie. */
  lemma KeysDistinct(k: nat, ps: seq<Packet>, n: nat)
    requires n <= |ps|
    ensures DistinctArrivals(Play(k, ps, n).out + Play(k, ps, n).held)
  {
    var j := Play(k, ps, n);
    var all := j.out + j.held;
    Conservation(k, ps, n);
    assert multiset(all) == Arrivals(ps, n);
    forall a, b | 0 <= a < b < |all|
      ensures all[a].arrival != all[b].arrival
    {
      if all[a].arrival == all[b].arrival {
        EntriesAreArrivals(k, ps, n, all[a]);
        EntriesAreArrivals(k, ps, n, all[b]);
        ArrivalsAre(ps, n, all[a]);
        TwiceIn(all, a, b);
        assert false;
      }
    }
  }

  lemma TwiceIn(s: seq<Entry>, a: nat, b: nat)
    requires a < b < |s| && s[a] == s[b]
    ensures multiset(s)[s[a]] >= 2
  {
    assert s == s[..a] + [s[a]] + s[a + 1..b] + [s[b]] + s[b + 1..];
  }

  /**
    A released packet and those behind it in key order, the held ones among them, are at
    least k + 1 packets with different arrival numbers, so one of them arrived more than k
    places before packet n.
   */
  lemma ReleasedIsNotLater(k: nat, ps: seq<Packet>, n: nat, all: seq<Entry>, pos: nat)
    requires BoundedDisorder(k, ps) && n < |ps| && Sorted(all) && pos + k < |all|
    requires forall e :: e in all ==> e.arrival < n && e == EntryOf(ps, e.arrival)
    requires forall i, j :: 0 <= i < j < |all| ==> all[i].arrival != all[j].arrival
    ensures all[pos].pts <= ps[n].pts
  {
    var tail := all[pos..];
    forall x | x in tail
      ensures x.arrival < n && x == EntryOf(ps, x.arrival) && all[pos].pts <= x.pts
    {
      var at :| 0 <= at < |tail| && tail[at] == x;
      assert x == all[pos + at] && all[pos + at] in all;
    }
    var at := Pigeonhole(tail, k, n);
    assert tail[at] in tail;
    assert ps[tail[at].arrival].pts <= ps[n].pts;
  }

  lemma BoundedDisorderStep(k: nat, ps: seq<Packet>, n: nat)
    requires BoundedDisorder(k, ps) && n < |ps| && NoLate(k, ps, n)
    ensures !Late(k, ps, n)
  {
    var j := Play(k, ps, n);
    var all := j.out + j.held;
    hide Play, StableSort, BoundedDisorder, Sorted;
    NoLateSorts(k, ps, n);
    StableSortSorts(ps, n);
    KeysDistinct(k, ps, n);
    ExactDelay(k, ps, n);
    forall e | e in all
      ensures e.arrival < n && e == EntryOf(ps, e.arrival)
    {
      EntriesAreArrivals(k, ps, n, e);
    }
    forall e | e in j.out
      ensures e.pts <= ps[n].pts
    {
      var pos :| 0 <= pos < |j.out| && j.out[pos] == e;
      assert all[pos] == e;
      ReleasedIsNotLater(k, ps, n, all, pos);
    }
  }

  lemma {:induction false} BoundedDisorderNeverLate(k: nat, ps: seq<Packet>, n: nat)
    requires BoundedDisorder(k, ps) && n <= |ps|
    ensures NoLate(k, ps, n)
  {
    if n > 0 {
      BoundedDisorderNeverLate(k, ps, n - 1);
      BoundedDisorderStep(k, ps, n - 1);
    }
  }

  /**
    On input whose disorder is bounded by the buffer size, the online buffer releases
    exactly the first n - k packets of the stable sort, at every moment of the run.
   */
  lemma BoundedDisorderSorts(k: nat, ps: seq<Packet>, n: nat)
    requires BoundedDisorder(k, ps) && n <= |ps|
    ensures Play(k, ps, n).out == StableSort(ps, n)[..if n > k then n - k else 0]
    ensures Play(k, ps, n).out + Play(k, ps, n).held == StableSort(ps, n)
  {
    BoundedDisorderNeverLate(k, ps, n);
    NoLateSorts(k, ps, n);
    ExactDelay(k, ps, n);
  }

  /** Only packets that arrive at most k places after a packet can sort before it. */
  lemma SortRank(k: nat, ps: seq<Packet>, n: nat, pos: nat)
    requires BoundedDisorder(k, ps) && pos < n <= |ps|
    ensures pos <= StableSort(ps, n)[pos].arrival + k
  {
    var s := StableSort(ps, n);
    hide StableSort, Play, Insert, BoundedDisorder, Sorted;
    BoundedDisorderSorts(k, ps, n);
    KeysDistinct(k, ps, n);
    StableSortSorts(ps, n);
    forall e | e in s
      ensures e.arrival < n && e == EntryOf(ps, e.arrival)
    {
      EntriesAreArrivals(k, ps, n, e);
    }
    RankFits(k, ps, n, s, pos);
  }

  /** The first entries in key order, up to that of a packet, have different arrival numbers of at most k more. */
  lemma RankFits(k: nat, ps: seq<Packet>, n: nat, s: seq<Entry>, pos: nat)
    requires BoundedDisorder(k, ps) && n <= |ps| && Sorted(s) && DistinctArrivals(s) && pos < |s|
    requires forall e :: e in s ==> e.arrival < n && e == EntryOf(ps, e.arrival)
    ensures pos <= s[pos].arrival + k
  {
    var a := s[pos].arrival;
    assert s[pos] in s;
    var upTo := s[..pos + 1];
    forall i | 0 <= i < |upTo|
      ensures upTo[i].arrival < a + k + 1
    {
      assert s[i] in s && (i < pos ==> Before(s[i], s[pos]));
    }
    DistinctFit(upTo, 0, a + k + 1);
  }

  /** Where the packet that arrived at position a stands in the sort. */
  lemma PositionInSort(ps: seq<Packet>, n: nat, a: nat) returns (pos: nat)
    requires a < n <= |ps|
    ensures pos < n && StableSort(ps, n)[pos] == EntryOf(ps, a)
  {
    StableSortSorts(ps, n);
    ArrivalsAre(ps, n, EntryOf(ps, a));
    assert EntryOf(ps, a) in multiset(StableSort(ps, n));
    pos :| 0 <= pos < n && StableSort(ps, n)[pos] == EntryOf(ps, a);
  }

  /**
    Under bounded disorder the packet that arrives at position a (counted from 0) has
    been released once 2k more packets have arrived.
   */
  lemma BoundedDelay(k: nat, ps: seq<Packet>, n: nat, a: nat)
    requires BoundedDisorder(k, ps) && a + 2 * k < n <= |ps|
    ensures EntryOf(ps, a) in Play(k, ps, n).out
  {
    var pos := PositionInSort(ps, n, a);
    SortRank(k, ps, n, pos);
    BoundedDisorderSorts(k, ps, n);
    assert StableSort(ps, n)[pos] == Play(k, ps, n).out[pos];
  }
}
