/** The bounded first-in-first-out queue of Python's `queue` and `asyncio` modules. */
module BoundedQueue {
  import opened Options

  /** A queue of size 0 is unbounded. */
  predicate Full<T>(limit: nat, items: seq<T>) {
    limit > 0 && |items| >= limit
  }

  predicate Bounded<T>(limit: nat, items: seq<T>) {
    limit > 0 ==> |items| <= limit
  }

  /** What a bounded deque of length `n` keeps of `s`. */
  function LastN<T>(n: nat, s: seq<T>): (r: seq<T>)
    ensures |r| == (if |s| < n then |s| else n) && forall i :: 0 <= i < |r| ==> r[i] == s[|s| - |r| + i]
  {
    if |s| <= n then s else s[|s| - n..]
  }

  /** A put that drops the oldest item of a full queue. */
  function PutLatest<T>(limit: nat, items: seq<T>, item: T): seq<T> {
    if Full(limit, items) then items[1..] + [item] else items + [item]
  }

  class Queue<T> {
    const maxsize: nat
    var items: seq<T>

    constructor (maxsize: nat)
      ensures this.maxsize == maxsize && items == []
    {
      this.maxsize := maxsize;
      items := [];
    }

    /** False when the queue raises that it is full. */
    method PutNowait(item: T) returns (ok: bool)
      modifies this
      ensures ok == !Full(maxsize, old(items))
      ensures ok <==> maxsize == 0 || |old(items)| < maxsize
      ensures items == if ok then old(items) + [item] else old(items)
    {
      ok := !Full(maxsize, items);
      if ok {
        items := items + [item];
      }
    }

    /** None when the queue raises that it is empty. */
    method GetNowait() returns (item: Option<T>)
      modifies this
      ensures old(items) == [] ==> item.None? && items == []
      ensures old(items) != [] ==> item == Some(old(items)[0]) && items == old(items)[1..]
    {
      if items == [] {
        item := None;
      } else {
        item := Some(items[0]);
        items := items[1..];
      }
    }
  }
}
