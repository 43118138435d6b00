/**
  The jitter buffer of the receive stage as a pure function of the accepted packets:
  the key order of its heap, the stable sort by timestamp, and the online buffer that
  releases one packet whenever it holds more than its configured size.
 */
module JitterOrder {

  /** What one accepted packet carries to the decoder. */
  datatype Packet = Packet(codec: string, pts: int, dts: int, duration: int, key: bool, data: seq<bv8>)

  /** A heap entry: the tuple (pts, arrival number, packet). */
  datatype Entry = Entry(pts: int, arrival: nat, packet: Packet)

  /** The order of the first two tuple components. */
  predicate Before(a: Entry, b: Entry) {
    a.pts < b.pts || (a.pts == b.pts && a.arrival < b.arrival)
  }

  /** Strictly increasing keys; in particular no two keys are equal. */
  predicate Sorted(s: seq<Entry>) {
    forall i, j :: 0 <= i < j < |s| ==> Before(s[i], s[j])
  }

  predicate ArrivedBefore(s: seq<Entry>, n: nat) {
    forall e :: e in s ==> e.arrival < n
  }

  /** Put the newest entry behind every entry whose timestamp is not larger. */
  function Insert(s: seq<Entry>, e: Entry): (r: seq<Entry>)
    ensures |r| == |s| + 1
  {
    if |s| == 0 || s[|s| - 1].pts <= e.pts then s + [e]
    else Insert(s[..|s| - 1], e) + [s[|s| - 1]]
  }

  function EntryOf(ps: seq<Packet>, i: nat): Entry
    requires i < |ps|
  {
    Entry(ps[i].pts, i, ps[i])
  }

  /** The first `n` packets in heap-key order. */
  function StableSort(ps: seq<Packet>, n: nat): (r: seq<Entry>)
    requires n <= |ps|
    ensures |r| == n
  {
    if n == 0 then [] else Insert(StableSort(ps, n - 1), EntryOf(ps, n - 1))
  }

  function Packets(s: seq<Entry>): (r: seq<Packet>)
    ensures |r| == |s| && forall i :: 0 <= i < |s| ==> r[i] == s[i].packet
  {
    seq(|s|, i requires 0 <= i < |s| => s[i].packet)
  }

  /** The entries of the first `n` packets, each once. */
  function Arrivals(ps: seq<Packet>, n: nat): (r: multiset<Entry>)
    requires n <= |ps|
  {
    if n == 0 then multiset{} else Arrivals(ps, n - 1) + multiset{EntryOf(ps, n - 1)}
  }

  /** The buffer of size `k`: what it holds (in key order) and what it has released. */
  datatype Jitter = Jitter(held: seq<Entry>, next: nat, out: seq<Entry>)

  function Offer(k: nat, j: Jitter, p: Packet): Jitter {
    var h := Insert(j.held, Entry(p.pts, j.next, p));
    if |h| > k then Jitter(h[1..], j.next + 1, j.out + [h[0]]) else Jitter(h, j.next + 1, j.out)
  }

  /** The buffer after one connection has delivered the first `n` packets of `ps`. */
  function Play(k: nat, ps: seq<Packet>, n: nat): (r: Jitter)
    requires n <= |ps|
    ensures r.next == n
  {
    if n == 0 then Jitter([], 0, []) else Offer(k, Play(k, ps, n - 1), ps[n - 1])
  }

  /** Later arrivals do not change what has happened. */
  lemma {:induction false} PlayPrefix(k: nat, ps: seq<Packet>, qs: seq<Packet>, n: nat)
    requires n <= |ps| <= |qs| && ps == qs[..|ps|]
    ensures Play(k, ps, n) == Play(k, qs, n)
  {
    if n > 0 {
      PlayPrefix(k, ps, qs, n - 1);
    }
  }

  // ---------- The sort ----------

  lemma {:induction false} InsertAdds(s: seq<Entry>, e: Entry)
    ensures multiset(Insert(s, e)) == multiset(s) + multiset{e}
  {
    if |s| > 0 && s[|s| - 1].pts > e.pts {
      InsertAdds(s[..|s| - 1], e);
      assert s == s[..|s| - 1] + [s[|s| - 1]];
    }
  }

  /** Inserting the newest arrival keeps the key order. */
  lemma {:induction false} InsertSorts(s: seq<Entry>, e: Entry)
    requires Sorted(s) && ArrivedBefore(s, e.arrival)
    ensures Sorted(Insert(s, e)) && ArrivedBefore(Insert(s, e), e.arrival + 1)
  {
    if |s| > 0 && s[|s| - 1].pts > e.pts {
      var front, last := s[..|s| - 1], s[|s| - 1];
      InsertSorts(front, e);
      InsertAdds(front, e);
      var r := Insert(front, e);
      forall i | 0 <= i < |r|
        ensures Before(r[i], last)
      {
        assert r[i] in multiset(front) + multiset{e};
        if r[i] != e {
          var at :| 0 <= at < |front| && front[at] == r[i];
          assert Before(s[at], s[|s| - 1]);
        }
      }
    } else {
      forall i | 0 <= i < |s|
        ensures Before(s[i], e)
      {
        assert s[i] in s;
        assert i < |s| - 1 ==> Before(s[i], s[|s| - 1]);
      }
    }
  }

  /** The least key stands first. */
  lemma SameFirst(a: seq<Entry>, b: seq<Entry>)
    requires Sorted(a) && Sorted(b) && multiset(a) == multiset(b) && |a| > 0
    ensures |b| == |a| && a[0] == b[0]
  {
    assert |multiset(a)| == |a| && |multiset(b)| == |b|;
    assert a[0] in multiset(b) && b[0] in multiset(a);
    var i :| 0 <= i < |b| && b[i] == a[0];
    var j :| 0 <= j < |a| && a[j] == b[0];
  }

  lemma TailMultiset(s: seq<Entry>)
    requires |s| > 0
    ensures multiset(s[1..]) == multiset(s) - multiset{s[0]}
  {
    assert s == [s[0]] + s[1..];
  }

  /** Two key-ordered sequences over the same entries are the same sequence. */
  lemma {:induction false} SortedUnique(a: seq<Entry>, b: seq<Entry>)
    requires Sorted(a) && Sorted(b) && multiset(a) == multiset(b)
    ensures a == b
  {
    if |a| == 0 {
      assert |multiset(b)| == 0;
    } else {
      SameFirst(a, b);
      TailMultiset(a);
      TailMultiset(b);
      SortedUnique(a[1..], b[1..]);
      assert a == [a[0]] + a[1..] && b == [b[0]] + b[1..];
    }
  }

  /** The sort is in key order and keeps every packet exactly once. */
  lemma {:induction false} StableSortSorts(ps: seq<Packet>, n: nat)
    requires n <= |ps|
    ensures Sorted(StableSort(ps, n)) && ArrivedBefore(StableSort(ps, n), n)
    ensures multiset(StableSort(ps, n)) == Arrivals(ps, n)
  {
    if n > 0 {
      hide Insert, Sorted, ArrivedBefore;
      StableSortSorts(ps, n - 1);
      InsertSorts(StableSort(ps, n - 1), EntryOf(ps, n - 1));
      InsertAdds(StableSort(ps, n - 1), EntryOf(ps, n - 1));
    }
  }

  /** Every entry of a run is the entry of the packet with its arrival number, and occurs once. */
  lemma {:induction false} ArrivalsAre(ps: seq<Packet>, n: nat, e: Entry)
    requires n <= |ps|
    ensures Arrivals(ps, n)[e] == if e.arrival < n && e == EntryOf(ps, e.arrival) then 1 else 0
  {
    if n > 0 {
      ArrivalsAre(ps, n - 1, e);
    }
  }

  /** Timestamps never decrease along the sort, and equal timestamps keep arrival order. */
  lemma StableSortIsStable(ps: seq<Packet>, i: nat, j: nat)
    requires i < j < |ps|
    ensures var s := StableSort(ps, |ps|);
            && s[i].pts <= s[j].pts
            && (s[i].pts == s[j].pts ==> s[i].arrival < s[j].arrival)
            && s[i].arrival < |ps| && s[i] == EntryOf(ps, s[i].arrival)
  {
    var s := StableSort(ps, |ps|);
    StableSortSorts(ps, |ps|);
    assert Before(s[i], s[j]);
    assert s[i] in multiset(s);
    ArrivalsAre(ps, |ps|, s[i]);
  }
}
