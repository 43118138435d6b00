/** How often a value occurs in a sequence. */
module Counting {
  function Count<T(==)>(items: seq<T>, x: T): nat {
    if items == [] then 0
    else Count(items[1..], x) + if items[0] == x then 1 else 0
  }

  lemma CountHead<T>(items: seq<T>, x: T)
    requires items != []
    ensures Count(items, x) == Count(items[1..], x) + if items[0] == x then 1 else 0
  {
  }

  lemma {:induction false} CountAppend<T>(items: seq<T>, last: T, x: T)
    ensures Count(items + [last], x) == Count(items, x) + if last == x then 1 else 0
  {
    if items != [] {
      CountAppend(items[1..], last, x);
      assert (items + [last])[1..] == items[1..] + [last];
    }
  }

  lemma {:induction false} CountRemove<T>(items: seq<T>, i: nat, x: T)
    requires i < |items|
    ensures Count(items, x) == Count(items[..i] + items[i + 1..], x) + if items[i] == x then 1 else 0
  {
    if i == 0 {
      assert items[..0] + items[1..] == items[1..];
    } else {
      CountRemove(items[1..], i - 1, x);
      assert (items[..i] + items[i + 1..])[1..] == items[1..][..i - 1] + items[1..][i..];
    }
  }
}
