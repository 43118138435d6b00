/**
  The list-backed binary heap that holds the jitter buffer's entries: appending with a
  walk towards the root, and removing the root by walking the last entry to a leaf and
  back up.  Entries are compared by (pts, arrival number) only: comparing two entries
  with equal keys would fall through to the packets, which have no order.
 */
module JitterHeap {
  import opened JitterOrder

  /** Tuple comparison, defined only where it is decided before the packets are reached. */
  predicate Less(a: Entry, b: Entry)
    requires a.pts != b.pts || a.arrival != b.arrival
  {
    Before(a, b)
  }

  ghost predicate DistinctKeys(s: seq<Entry>) {
    forall i, j :: 0 <= i < j < |s| ==> s[i].arrival != s[j].arrival
  }

  function Parent(i: int): (p: nat)
    requires i > 0
    ensures p < i
  {
    (i - 1) / 2
  }

  /** The entry at `i` comes after its parent. */
  ghost predicate Linked(s: seq<Entry>, i: int)
    requires 0 < i < |s|
  {
    Before(s[Parent(i)], s[i])
  }

  ghost predicate HeapOrdered(s: seq<Entry>) {
    forall i :: 0 < i < |s| ==> Linked(s, i)
  }

  /** The children of `hole` come after its parent. */
  ghost predicate Bridged(s: seq<Entry>, hole: nat) {
    0 < hole < |s| ==>
      && (2 * hole + 1 < |s| ==> Before(s[Parent(hole)], s[2 * hole + 1]))
      && (2 * hole + 2 < |s| ==> Before(s[Parent(hole)], s[2 * hole + 2]))
  }

  /** Heap order but for the link into `hole`. */
  ghost predicate OrderedButInto(s: seq<Entry>, hole: nat) {
    (forall i :: 0 < i < |s| && i != hole ==> Linked(s, i)) && Bridged(s, hole)
  }

  /** Heap order but for the links into and out of `hole`. */
  ghost predicate OrderedButAround(s: seq<Entry>, hole: nat) {
    (forall i :: 0 < i < |s| && i != hole && Parent(i) != hole ==> Linked(s, i)) && Bridged(s, hole)
  }

  function Swap(s: seq<Entry>, i: nat, j: nat): seq<Entry>
    requires i < |s| && j < |s|
  {
    s[i := s[j]][j := s[i]]
  }

  lemma SwapKeeps(s: seq<Entry>, i: nat, j: nat)
    requires i < |s| && j < |s| && i != j
    ensures multiset(Swap(s, i, j)) == multiset(s)
    ensures DistinctKeys(s) ==> DistinctKeys(Swap(s, i, j))
  {
  }

  /** The root of a heap comes before every other entry. */
  lemma {:induction false} RootIsLeast(s: seq<Entry>, i: nat)
    requires HeapOrdered(s) && i < |s|
    ensures s[i] == s[0] || Before(s[0], s[i])
  {
    if i > 0 {
      assert Linked(s, i);
      RootIsLeast(s, Parent(i));
    }
  }

  /** Exchanging a misplaced entry with its larger parent moves the hole up. */
  lemma StepDown(s: seq<Entry>, pos: nat)
    requires 0 < pos < |s| && OrderedButInto(s, pos) && !Before(s[Parent(pos)], s[pos])
    requires DistinctKeys(s)
    ensures OrderedButInto(Swap(s, pos, Parent(pos)), Parent(pos))
  {
    var p := Parent(pos);
    var r := Swap(s, pos, p);
    assert s[p].arrival != s[pos].arrival;
    forall i | 0 < i < |r| && i != p
      ensures Linked(r, i)
    {
      if i != pos {
        assert Linked(s, i);
      }
    }
    if p > 0 {
      assert Linked(s, p);
      if 2 * p + 1 != pos { assert Linked(s, 2 * p + 1); }
      if 2 * p + 2 != pos && 2 * p + 2 < |s| { assert Linked(s, 2 * p + 2); }
    }
  }

  /** Exchanging the hole with its smaller child moves the hole down. */
  lemma StepUp(s: seq<Entry>, pos: nat, child: nat)
    requires child < |s| && (child == 2 * pos + 1 || child == 2 * pos + 2) && OrderedButAround(s, pos)
    requires child == 2 * pos + 2 ==> Before(s[child], s[2 * pos + 1])
    requires child == 2 * pos + 1 && child + 1 < |s| ==> Before(s[child], s[child + 1])
    ensures OrderedButAround(Swap(s, pos, child), child)
  {
    var r := Swap(s, pos, child);
    forall i | 0 < i < |r| && i != child && Parent(i) != child
      ensures Linked(r, i)
    {
      if i != pos && Parent(i) != pos {
        assert Linked(s, i);
      }
    }
    if 2 * child + 1 < |s| { assert Linked(s, 2 * child + 1); }
    if 2 * child + 2 < |s| { assert Linked(s, 2 * child + 2); }
  }

  /** Moves the entry at `start` towards the root past every larger parent. */
  method SiftDown(s: seq<Entry>, start: nat) returns (r: seq<Entry>)
    requires start < |s| && DistinctKeys(s) && OrderedButInto(s, start)
    ensures HeapOrdered(r) && DistinctKeys(r) && multiset(r) == multiset(s)
  {
    r := s;
    var pos: nat := start;
    while pos > 0
      invariant pos < |r| && DistinctKeys(r) && multiset(r) == multiset(s)
      invariant OrderedButInto(r, pos)
    {
      var parentPos := Parent(pos);
      if !Less(r[pos], r[parentPos]) {
        assert Linked(r, pos);
        break;
      }
      StepDown(r, pos);
      SwapKeeps(r, pos, parentPos);
      r := Swap(r, pos, parentPos);
      pos := parentPos;
    }
  }

  /** Moves the root to a leaf along the smaller children, then back up to its place. */
  method SiftUp(s: seq<Entry>) returns (r: seq<Entry>)
    requires |s| > 0 && DistinctKeys(s) && OrderedButAround(s, 0)
    ensures HeapOrdered(r) && DistinctKeys(r) && multiset(r) == multiset(s)
  {
    r := s;
    var pos: nat, childPos: nat := 0, 1;
    while childPos < |r|
      invariant pos < |r| == |s| && childPos == 2 * pos + 1
      invariant DistinctKeys(r) && multiset(r) == multiset(s)
      invariant OrderedButAround(r, pos)
      decreases |s| - pos
    {
      var rightPos := childPos + 1;
      assert rightPos < |r| ==> r[childPos].arrival != r[rightPos].arrival;
      if rightPos < |r| && !Less(r[childPos], r[rightPos]) {
        childPos := rightPos;
      }
      StepUp(r, pos, childPos);
      SwapKeeps(r, pos, childPos);
      r := Swap(r, pos, childPos);
      pos := childPos;
      childPos := 2 * pos + 1;
    }
    r := SiftDown(r, pos);
  }

  /** The list `jitter_packets`. */
  class Heap {
    var items: seq<Entry>
    // the same entries in key order
    ghost var held: seq<Entry>

    ghost predicate Valid()
      reads this
    {
      HeapOrdered(items) && DistinctKeys(items) && Sorted(held) && multiset(held) == multiset(items)
    }

    constructor ()
      ensures Valid() && held == []
    {
      items, held := [], [];
    }

    method Size() returns (n: nat)
      requires Valid()
      ensures n == |held|
    {
      assert |multiset(items)| == |multiset(held)|;
      n := |items|;
    }

    /** Adds an entry that arrived after all held ones. */
    method Push(e: Entry)
      requires Valid() && ArrivedBefore(held, e.arrival)
      modifies this
      ensures Valid() && held == Insert(old(held), e)
    {
      forall i | 0 <= i < |items|
        ensures items[i].arrival < e.arrival
      {
        assert items[i] in multiset(items);
        assert items[i] in held;
      }
      InsertAdds(held, e);
      InsertSorts(held, e);
      forall i | 0 < i < |items|
        ensures Linked(items + [e], i)
      {
        assert Linked(items, i);
      }
      var r := SiftDown(items + [e], |items|);
      items, held := r, Insert(held, e);
    }

    /** Removes the entry with the least key. */
    method Pop() returns (least: Entry)
      requires Valid() && held != []
      modifies this
      ensures least == old(held)[0]
      ensures Valid() && held == old(held)[1..]
    {
      assert |multiset(items)| == |multiset(held)|;
      RootIsMinimum(items, held);
      TailMultiset(held);
      InOrderTail(held);
      var rest;
      least, rest := RemoveRoot(items);
      items, held := rest, held[1..];
    }
  }

  lemma InOrderTail(s: seq<Entry>)
    requires Sorted(s) && s != []
    ensures Sorted(s[1..])
  {
  }

  /** Takes the root off a heap list. */
  method RemoveRoot(s: seq<Entry>) returns (root: Entry, rest: seq<Entry>)
    requires |s| > 0 && HeapOrdered(s) && DistinctKeys(s)
    ensures root == s[0] && multiset(rest) == multiset(s) - multiset{root}
    ensures HeapOrdered(rest) && DistinctKeys(rest)
  {
    var last := s[|s| - 1];
    rest := s[..|s| - 1];
    if rest != [] {
      root := rest[0];
      LastToRoot(s);
      rest := SiftUp(rest[0 := last]);
    } else {
      root := last;
      assert s == [last];
    }
  }

  /** Replacing the root by the last entry removes exactly the root. */
  lemma LastToRoot(s: seq<Entry>)
    requires |s| > 1 && HeapOrdered(s) && DistinctKeys(s)
    ensures var r := s[..|s| - 1][0 := s[|s| - 1]];
            multiset(r) == multiset(s) - multiset{s[0]} && DistinctKeys(r) && OrderedButAround(r, 0)
  {
    var last, rest := s[|s| - 1], s[..|s| - 1];
    var r := rest[0 := last];
    assert s == rest + [last];
    assert multiset(r) == multiset(rest) - multiset{s[0]} + multiset{last};
    forall i | 0 < i < |r| && Parent(i) != 0
      ensures Linked(r, i)
    {
      assert Linked(s, i);
    }
  }

  /** The root of the heap is the first entry in key order. */
  lemma RootIsMinimum(items: seq<Entry>, held: seq<Entry>)
    requires HeapOrdered(items) && Sorted(held) && multiset(held) == multiset(items) && |items| > 0
    ensures |held| > 0 && held[0] == items[0]
  {
    assert items[0] in multiset(held);
    var at :| 0 <= at < |held| && held[at] == items[0];
    assert held[0] in multiset(items);
    var i :| 0 <= i < |items| && items[i] == held[0];
    RootIsLeast(items, i);
    assert at > 0 ==> Before(held[0], held[at]);
  }
}
