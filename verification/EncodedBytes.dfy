/**
  Extraction of the bytes from what the encoder returns: a search through nested
  dictionaries and lists that swallows type errors but not value errors.
 */
module EncodedBytes {
  import opened Options

  /** A dictionary keeps its insertion order. `Other` is anything that is neither bytes, int, dict, list nor tuple. */
  datatype Value =
    | Bytes(b: seq<int>)
    | Int(n: int)
    | Dict(entries: seq<Entry>)
    | List(items: seq<Value>)
    | Other

  datatype Entry = Entry(key: string, value: Value)

  datatype Result = Ok(b: seq<int>) | TypeError | ValueError

  const PREFERRED: seq<string> := ["bitstream", "data", "packet", "encoded_data", "payload"]

  /** `bytes(items)`: the first element that is no int, or no byte, decides the error. */
  function ToBytes(items: seq<Value>): Result {
    if items == [] then Ok([])
    else if !items[0].Int? then TypeError
    else if !(0 <= items[0].n <= 255) then ValueError
    else
      match ToBytes(items[1..])
      case Ok(b) => Ok([items[0].n] + b)
      case TypeError => TypeError
      case ValueError => ValueError
  }

  predicate AllInts(items: seq<Value>) {
    forall i :: 0 <= i < |items| ==> items[i].Int?
  }

  function Lookup(entries: seq<Entry>, key: string): Option<Value> {
    if entries == [] then None
    else if entries[0].key == key then Some(entries[0].value)
    else Lookup(entries[1..], key)
  }

  /** The first preferred key, from the k-th on, that holds bytes or a list. */
  function Preferred(entries: seq<Entry>, k: nat): Option<Value>
    requires k <= |PREFERRED|
    decreases |PREFERRED| - k
  {
    if k == |PREFERRED| then None
    else
      var v := Lookup(entries, PREFERRED[k]);
      if v.Some? && (v.value.Bytes? || v.value.List?) then v else Preferred(entries, k + 1)
  }

  /** `encoded_bytes`. */
  function Extract(v: Value): Result
    decreases v, 1
  {
    match v
    case Bytes(b) => Ok(b)
    case Dict(entries) =>
      (match Preferred(entries, 0)
       case Some(Bytes(b)) => Ok(b)
       case Some(List(items)) => ToBytes(items)
       case _ => ExtractValues(entries))
    case List(items) => if AllInts(items) then ToBytes(items) else ExtractItems(items)
    case Int(_) => TypeError
    case Other => TypeError
  }

  /** The loop over a dictionary's values. */
  function ExtractValues(entries: seq<Entry>): Result
    decreases entries, 0
  {
    if entries == [] then TypeError
    else
      var r := Extract(entries[0].value);
      if r.TypeError? then ExtractValues(entries[1..]) else r
  }

  /** The loop over a list's elements. */
  function ExtractItems(items: seq<Value>): Result
    decreases items, 0
  {
    if items == [] then TypeError
    else
      var r := Extract(items[0]);
      if r.TypeError? then ExtractItems(items[1..]) else r
  }

  // ---------- Reference: the candidates in search order ----------

  /**
    Everything the search would convert, in its order: byte strings and lists of ints.
    A list under a preferred key is the only candidate of its dictionary, and none at all
    if converting it is a type error.
   */
  function Candidates(v: Value): seq<Value>
    decreases v, 1
  {
    match v
    case Bytes(b) => [v]
    case Dict(entries) =>
      (match Preferred(entries, 0)
       case Some(List(items)) => if ToBytes(items).TypeError? then [] else [List(items)]
       case Some(w) => [w]
       case None => ValueCandidates(entries))
    case List(items) => if AllInts(items) then [v] else ItemCandidates(items)
    case Int(_) => []
    case Other => []
  }

  function ValueCandidates(entries: seq<Entry>): seq<Value>
    decreases entries, 0
  {
    if entries == [] then [] else Candidates(entries[0].value) + ValueCandidates(entries[1..])
  }

  function ItemCandidates(items: seq<Value>): seq<Value>
    decreases items, 0
  {
    if items == [] then [] else Candidates(items[0]) + ItemCandidates(items[1..])
  }

  /** What a candidate converts to. */
  function Convert(c: Value): Result {
    match c
    case Bytes(b) => Ok(b)
    case List(items) => ToBytes(items)
    case _ => TypeError
  }

  // ---------- The search in plain terms ----------

  predicate IsByte(v: Value) {
    v.Int? && 0 <= v.n <= 255
  }

  /** A list converts exactly if all its elements are bytes; the first other one decides the error. */
  lemma {:induction false} ToBytesIs(items: seq<Value>)
    ensures ToBytes(items).Ok? <==> forall i :: 0 <= i < |items| ==> IsByte(items[i])
    ensures ToBytes(items).Ok? ==>
              |ToBytes(items).b| == |items| && forall i :: 0 <= i < |items| ==> Int(ToBytes(items).b[i]) == items[i]
    ensures ToBytes(items).TypeError? <==>
            exists i :: 0 <= i < |items| && !items[i].Int? && forall j :: 0 <= j < i ==> IsByte(items[j])
  {
    if items != [] {
      var rest := items[1..];
      ToBytesIs(rest);
      assert forall i :: 0 < i < |items| ==> items[i] == rest[i - 1];
      if i :| 0 <= i < |rest| && !rest[i].Int? && forall j :: 0 <= j < i ==> IsByte(rest[j]) {
        assert items[i + 1] == rest[i];
      }
      if i :| 0 < i < |items| && !items[i].Int? && forall j :: 0 <= j < i ==> IsByte(items[j]) {
        assert rest[i - 1] == items[i];
        forall j | 0 <= j < i - 1
          ensures IsByte(rest[j])
        {
          assert rest[j] == items[j + 1];
        }
      }
    }
  }

  /** A list that is not all ints gives what its first element gives that can be searched. */
  lemma {:induction false} FirstSearchableItem(items: seq<Value>, i: nat)
    requires i <= |items| && forall j :: 0 <= j < i ==> Extract(items[j]).TypeError?
    ensures i == |items| ==> ExtractItems(items) == TypeError
    ensures i < |items| && !Extract(items[i]).TypeError? ==> ExtractItems(items) == Extract(items[i])
  {
    if i > 0 {
      assert forall j :: 0 < j < |items| ==> items[j] == items[1..][j - 1];
      FirstSearchableItem(items[1..], i - 1);
    }
  }

  lemma ListGivesItsFirst(items: seq<Value>, i: nat)
    requires i < |items| && !Extract(items[i]).TypeError? && forall j :: 0 <= j < i ==> Extract(items[j]).TypeError?
    requires exists j :: 0 <= j < |items| && !items[j].Int?
    ensures Extract(List(items)) == Extract(items[i])
  {
    FirstSearchableItem(items, i);
  }

  lemma {:induction false} FirstSearchableValue(entries: seq<Entry>, i: nat)
    requires i < |entries| && !Extract(entries[i].value).TypeError?
    requires forall j :: 0 <= j < i ==> Extract(entries[j].value).TypeError?
    ensures ExtractValues(entries) == Extract(entries[i].value)
  {
    if i > 0 {
      assert forall j :: 0 < j < |entries| ==> entries[j] == entries[1..][j - 1];
      FirstSearchableValue(entries[1..], i - 1);
    }
  }

  predicate IsFirst(entries: seq<Entry>, i: nat, key: string)
    requires i < |entries|
  {
    entries[i].key == key && forall j :: 0 <= j < i ==> entries[j].key != key
  }

  lemma {:induction false} LookupIs(entries: seq<Entry>, key: string)
    ensures Lookup(entries, key).None? ==> forall i :: 0 <= i < |entries| ==> entries[i].key != key
    ensures forall i :: 0 <= i < |entries| && IsFirst(entries, i, key) ==>
        Lookup(entries, key) == Some(entries[i].value)
  {
    if entries != [] {
      assert forall j :: 0 < j < |entries| ==> entries[j] == entries[1..][j - 1];
      LookupIs(entries[1..], key);
      forall i | 0 < i < |entries| && IsFirst(entries, i, key)
        ensures Lookup(entries, key) == Some(entries[i].value)
      {
        assert forall j :: 0 <= j < i - 1 ==> entries[1..][j] == entries[j + 1];
        assert IsFirst(entries[1..], i - 1, key);
      }
    }
  }

  /** Keys of a dictionary are different. */
  predicate UniqueKeys(entries: seq<Entry>) {
    forall i, j :: 0 <= i < j < |entries| ==> entries[i].key != entries[j].key
  }

  lemma LookupUnique(entries: seq<Entry>, i: nat)
    requires UniqueKeys(entries) && i < |entries|
    ensures Lookup(entries, entries[i].key) == Some(entries[i].value)
  {
    LookupIs(entries, entries[i].key);
    assert IsFirst(entries, i, entries[i].key);
  }

  predicate Converts(v: Value) {
    v.Bytes? || v.List?
  }

  /** The key of the entry is the name at rank `r`. */
  predicate Named(r: nat, key: string) {
    || (r == 0 && key == "bitstream") || (r == 1 && key == "data") || (r == 2 && key == "packet")
    || (r == 3 && key == "encoded_data") || (r == 4 && key == "payload")
  }

  lemma NamesArePreferred(r: nat, key: string)
    ensures Named(r, key) <==> r < |PREFERRED| && PREFERRED[r] == key
  {
  }

  lemma NotPreferred(entries: seq<Entry>, k: nat)
    requires UniqueKeys(entries) && k < |PREFERRED|
    requires forall j :: 0 <= j < |entries| && Named(k, entries[j].key) ==> !Converts(entries[j].value)
    ensures Preferred(entries, k) == Preferred(entries, k + 1)
  {
    var v := Lookup(entries, PREFERRED[k]);
    if v.Some? {
      LookupInside(entries, PREFERRED[k]);
      var i :| 0 <= i < |entries| && entries[i].key == PREFERRED[k] && entries[i].value == v.value;
      NamesArePreferred(k, entries[i].key);
    }
  }

  /** From rank `k` on, the preferred entry is the one at rank `r` if no rank between holds bytes or a list. */
  lemma {:induction false} PreferredFrom(entries: seq<Entry>, k: nat, r: nat, i: nat)
    requires UniqueKeys(entries) && k <= r && i < |entries|
    requires Named(r, entries[i].key) && Converts(entries[i].value)
    requires forall q, j :: k <= q < r && 0 <= j < |entries| && Named(q, entries[j].key) ==> !Converts(entries[j].value)
    ensures k <= |PREFERRED| && Preferred(entries, k) == Some(entries[i].value)
    decreases r - k
  {
    NamesArePreferred(r, entries[i].key);
    if k < r {
      NotPreferred(entries, k);
      PreferredFrom(entries, k + 1, r, i);
    } else {
      LookupUnique(entries, i);
    }
  }

  /** A dictionary gives what its first preferred entry that holds bytes or a list converts to. */
  lemma DictGivesItsPreferred(entries: seq<Entry>, r: nat, i: nat)
    requires UniqueKeys(entries) && i < |entries| && Named(r, entries[i].key) && Converts(entries[i].value)
    requires forall q, j :: 0 <= q < r && 0 <= j < |entries| && Named(q, entries[j].key) ==> !Converts(entries[j].value)
    ensures Extract(Dict(entries)) ==
            if entries[i].value.Bytes? then Ok(entries[i].value.b)
            else ToBytes(entries[i].value.items)
  {
    PreferredFrom(entries, 0, r, i);
  }

  lemma {:induction false} NonePreferred(entries: seq<Entry>, k: nat)
    requires UniqueKeys(entries) && k <= |PREFERRED|
    requires forall q, j :: k <= q < 5 && 0 <= j < |entries| && Named(q, entries[j].key) ==> !Converts(entries[j].value)
    ensures Preferred(entries, k).None?
    decreases |PREFERRED| - k
  {
    if k < |PREFERRED| {
      NotPreferred(entries, k);
      NonePreferred(entries, k + 1);
    }
  }

  /** Without such an entry it gives what its first value gives that can be searched. */
  lemma DictGivesItsFirst(entries: seq<Entry>, i: nat)
    requires UniqueKeys(entries) && i < |entries| && !Extract(entries[i].value).TypeError?
    requires forall j :: 0 <= j < i ==> Extract(entries[j].value).TypeError?
    requires forall q, j :: 0 <= q < 5 && 0 <= j < |entries| && Named(q, entries[j].key) ==> !Converts(entries[j].value)
    ensures Extract(Dict(entries)) == Extract(entries[i].value)
  {
    NonePreferred(entries, 0);
    FirstSearchableValue(entries, i);
  }

  lemma {:induction false} IntsNoTypeError(items: seq<Value>)
    requires AllInts(items)
    ensures !ToBytes(items).TypeError?
  {
    if items != [] {
      IntsNoTypeError(items[1..]);
    }
  }

  lemma PreferredKind(entries: seq<Entry>, k: nat)
    requires k <= |PREFERRED|
    ensures Preferred(entries, k).Some? ==> Preferred(entries, k).value.Bytes? || Preferred(entries, k).value.List?
    decreases |PREFERRED| - k
  {
    if k < |PREFERRED| {
      PreferredKind(entries, k + 1);
    }
  }

  ghost predicate FirstDecides(r: Result, cs: seq<Value>) {
    && (cs == [] ==> r == TypeError)
    && (cs != [] ==> r == Convert(cs[0]) && !r.TypeError?)
  }

  /** On every value the first candidate decides the result; without one it is a type error. */
  lemma {:induction false} FirstCandidateDecides(v: Value)
    ensures FirstDecides(Extract(v), Candidates(v))
    decreases v, 1
  {
    match v
    case Bytes(b) =>
    case Dict(entries) =>
      PreferredKind(entries, 0);
      if Preferred(entries, 0).None? {
        FirstValueDecides(entries);
      }
    case List(items) =>
      if AllInts(items) {
        IntsNoTypeError(items);
      } else {
        FirstItemDecides(items);
      }
    case Int(_) =>
    case Other =>
  }

  lemma {:induction false} FirstValueDecides(entries: seq<Entry>)
    ensures FirstDecides(ExtractValues(entries), ValueCandidates(entries))
    decreases entries, 0
  {
    if entries != [] {
      FirstCandidateDecides(entries[0].value);
      FirstValueDecides(entries[1..]);
    }
  }

  lemma {:induction false} FirstItemDecides(items: seq<Value>)
    ensures FirstDecides(ExtractItems(items), ItemCandidates(items))
    decreases items, 0
  {
    if items != [] {
      FirstCandidateDecides(items[0]);
      FirstItemDecides(items[1..]);
    }
  }

  // ---------- Where the bytes come from ----------

  /** `w` is `v` or inside it. */
  predicate Inside(w: Value, v: Value)
    decreases v
  {
    w == v || match v
      case Dict(entries) => exists i :: 0 <= i < |entries| && Inside(w, entries[i].value)
      case List(items) => exists i :: 0 <= i < |items| && Inside(w, items[i])
      case _ => false
  }

  lemma {:induction false} LookupInside(entries: seq<Entry>, key: string)
    requires Lookup(entries, key).Some?
    ensures exists i :: 0 <= i < |entries| && entries[i].key == key && entries[i].value == Lookup(entries, key).value
  {
    if entries[0].key != key {
      LookupInside(entries[1..], key);
      var i :| 0 <= i < |entries[1..]| && entries[1..][i].key == key
          && entries[1..][i].value == Lookup(entries, key).value;
      assert entries[i + 1] == entries[1..][i];
    }
  }

  lemma {:induction false} PreferredInside(entries: seq<Entry>, k: nat)
    requires k <= |PREFERRED| && Preferred(entries, k).Some?
    ensures exists i :: (0 <= i < |entries| && entries[i].key in PREFERRED
                         && entries[i].value == Preferred(entries, k).value)
    decreases |PREFERRED| - k
  {
    var v := Lookup(entries, PREFERRED[k]);
    if v.Some? && (v.value.Bytes? || v.value.List?) {
      LookupInside(entries, PREFERRED[k]);
    } else {
      PreferredInside(entries, k + 1);
    }
  }

  /** A byte string, or a list of ints only. */
  predicate Convertible(c: Value) {
    c.Bytes? || (c.List? && AllInts(c.items))
  }

  lemma {:induction false} OkMeansInts(items: seq<Value>)
    requires ToBytes(items).Ok?
    ensures AllInts(items)
        && ToBytes(items).b == seq(|items|, i requires 0 <= i < |items| => if items[i].Int? then items[i].n else 0)
  {
    if items != [] {
      OkMeansInts(items[1..]);
    }
  }

  /** Every candidate lies inside the value. */
  lemma {:induction false} CandidatesInside(v: Value, c: Value)
    requires c in Candidates(v)
    ensures Inside(c, v)
    decreases v, 1
  {
    match v
    case Bytes(b) =>
    case Dict(entries) =>
      if Preferred(entries, 0).Some? {
        PreferredInside(entries, 0);
        var i :| 0 <= i < |entries| && entries[i].key in PREFERRED && entries[i].value == Preferred(entries, 0).value;
        assert Inside(c, entries[i].value);
      } else {
        var i := ValueCandidatesInside(entries, c);
      }
    case List(items) =>
      if !AllInts(items) {
        var i := ItemCandidatesInside(items, c);
      }
    case Int(_) =>
    case Other =>
  }

  lemma {:induction false} ValueCandidatesInside(entries: seq<Entry>, c: Value) returns (i: nat)
    requires c in ValueCandidates(entries)
    ensures i < |entries| && Inside(c, entries[i].value)
    decreases entries, 0
  {
    if c in Candidates(entries[0].value) {
      CandidatesInside(entries[0].value, c);
      i := 0;
    } else {
      var j := ValueCandidatesInside(entries[1..], c);
      i := j + 1;
    }
  }

  lemma {:induction false} ItemCandidatesInside(items: seq<Value>, c: Value) returns (i: nat)
    requires c in ItemCandidates(items)
    ensures i < |items| && Inside(c, items[i])
    decreases items, 0
  {
    if c in Candidates(items[0]) {
      CandidatesInside(items[0], c);
      i := 0;
    } else {
      var j := ItemCandidatesInside(items[1..], c);
      i := j + 1;
    }
  }

  /** What is returned is a byte string or an all-integer list of the tree. */
  lemma ResultIsInside(v: Value) returns (c: Value)
    requires Extract(v).Ok?
    ensures Inside(c, v) && Convertible(c) && Convert(c) == Extract(v) && Candidates(v) != [] && c == Candidates(v)[0]
    ensures c.Bytes? ==> Extract(v).b == c.b
    ensures c.List? ==> |Extract(v).b| == |c.items| && forall i :: 0 <= i < |c.items| ==>
        Int(Extract(v).b[i]) == c.items[i]
  {
    FirstCandidateDecides(v);
    c := Candidates(v)[0];
    CandidatesInside(v, c);
    if c.List? {
      OkMeansInts(c.items);
      ToBytesIs(c.items);
    }
  }

  // ---------- When it succeeds ----------

  /** No dictionary of the tree holds a list under a preferred key. */
  predicate NoPreferredLists(v: Value)
    decreases v
  {
    match v
    case Dict(entries) =>
      forall i :: 0 <= i < |entries| ==>
        NoPreferredLists(entries[i].value) && (entries[i].key in PREFERRED ==> !entries[i].value.List?)
    case List(items) => forall i :: 0 <= i < |items| ==> NoPreferredLists(items[i])
    case _ => true
  }

  /** Every integer of the tree is a byte. */
  predicate BytesOnly(v: Value)
    decreases v
  {
    match v
    case Dict(entries) => forall i :: 0 <= i < |entries| ==> BytesOnly(entries[i].value)
    case List(items) => forall i :: 0 <= i < |items| ==> BytesOnly(items[i])
    case Int(n) => 0 <= n <= 255
    case _ => true
  }

  /** The tree holds a byte string or an all-integer list. */
  predicate HasConvertible(v: Value)
    decreases v
  {
    Convertible(v) || match v
      case Dict(entries) => exists i :: 0 <= i < |entries| && HasConvertible(entries[i].value)
      case List(items) => exists i :: 0 <= i < |items| && HasConvertible(items[i])
      case _ => false
  }

  lemma {:induction false} ConvertibleIsCandidate(v: Value)
    requires NoPreferredLists(v) && HasConvertible(v)
    ensures Candidates(v) != []
    decreases v, 1
  {
    if !Convertible(v) {
      match v
      case Dict(entries) =>
        PreferredKind(entries, 0);
        if Preferred(entries, 0).Some? {
          PreferredInside(entries, 0);
        } else {
          var i :| 0 <= i < |entries| && HasConvertible(entries[i].value);
          ValueIsCandidate(entries, i);
        }
      case List(items) =>
        var i :| 0 <= i < |items| && HasConvertible(items[i]);
        ItemIsCandidate(items, i);
    }
  }

  lemma {:induction false} ValueIsCandidate(entries: seq<Entry>, i: nat)
    requires i < |entries| && NoPreferredLists(entries[i].value) && HasConvertible(entries[i].value)
    ensures ValueCandidates(entries) != []
    decreases entries, 0
  {
    if i == 0 {
      ConvertibleIsCandidate(entries[0].value);
    } else {
      ValueIsCandidate(entries[1..], i - 1);
    }
  }

  lemma {:induction false} ItemIsCandidate(items: seq<Value>, i: nat)
    requires i < |items| && NoPreferredLists(items[i]) && HasConvertible(items[i])
    ensures ItemCandidates(items) != []
    decreases items, 0
  {
    if i == 0 {
      ConvertibleIsCandidate(items[0]);
    } else {
      ItemIsCandidate(items[1..], i - 1);
    }
  }

  lemma {:induction false} InsideConvertible(c: Value, v: Value)
    requires Inside(c, v) && Convertible(c)
    ensures HasConvertible(v)
    decreases v
  {
    if c != v {
      match v
      case Dict(entries) =>
        var i :| 0 <= i < |entries| && Inside(c, entries[i].value);
        InsideConvertible(c, entries[i].value);
      case List(items) =>
        var i :| 0 <= i < |items| && Inside(c, items[i]);
        InsideConvertible(c, items[i]);
    }
  }

  lemma {:induction false} InsideBytesOnly(c: Value, v: Value)
    requires Inside(c, v) && BytesOnly(v)
    ensures BytesOnly(c)
    decreases v
  {
    if c != v {
      match v
      case Dict(entries) =>
        var i :| 0 <= i < |entries| && Inside(c, entries[i].value);
        InsideBytesOnly(c, entries[i].value);
      case List(items) =>
        var i :| 0 <= i < |items| && Inside(c, items[i]);
        InsideBytesOnly(c, items[i]);
    }
  }

  lemma {:induction false} ByteListConverts(items: seq<Value>)
    requires forall i :: 0 <= i < |items| ==> BytesOnly(items[i])
    ensures !ToBytes(items).ValueError?
  {
    if items != [] {
      ByteListConverts(items[1..]);
    }
  }

  /**
    On every tree whose integers are bytes and whose preferred keys hold no list, the
    extraction succeeds if and only if the tree holds a byte string or an all-integer list.
   */
  lemma SucceedsIffConvertible(v: Value)
    requires NoPreferredLists(v) && BytesOnly(v)
    ensures Extract(v).Ok? <==> HasConvertible(v)
    ensures !Extract(v).ValueError?
  {
    FirstCandidateDecides(v);
    if HasConvertible(v) {
      ConvertibleIsCandidate(v);
    }
    if Candidates(v) != [] {
      var c := Candidates(v)[0];
      CandidatesInside(v, c);
      InsideBytesOnly(c, v);
      if c.List? {
        ByteListConverts(c.items);
      }
    }
    if Extract(v).Ok? {
      var c := ResultIsInside(v);
      InsideConvertible(c, v);
    }
  }

  /**
    The search can get to a convertible value: it does not descend into a dictionary in
    which the first preferred key that holds bytes or a list holds a list.
   */
  predicate Reachable(v: Value)
    decreases v
  {
    Convertible(v) || match v
      case Dict(entries) =>
        (match Preferred(entries, 0)
         case Some(w) => Convertible(w)
         case None => exists i :: 0 <= i < |entries| && Reachable(entries[i].value))
      case List(items) => exists i :: 0 <= i < |items| && Reachable(items[i])
      case _ => false
  }

  lemma {:induction false} TypeErrorMeansNotInts(items: seq<Value>)
    requires forall i :: 0 <= i < |items| ==> BytesOnly(items[i])
    ensures ToBytes(items).TypeError? <==> !AllInts(items)
  {
    if items != [] {
      TypeErrorMeansNotInts(items[1..]);
      assert AllInts(items) <==> items[0].Int? && AllInts(items[1..]) by {
        assert forall i :: 0 < i < |items| ==> items[i] == items[1..][i - 1];
      }
    }
  }

  lemma {:induction false} CandidatesIffReachable(v: Value)
    requires BytesOnly(v)
    ensures Candidates(v) != [] <==> Reachable(v)
    decreases v, 1
  {
    match v
    case Bytes(b) =>
    case Dict(entries) =>
      if Preferred(entries, 0).Some? {
        PreferredKind(entries, 0);
        PreferredInside(entries, 0);
        if Preferred(entries, 0).value.List? {
          TypeErrorMeansNotInts(Preferred(entries, 0).value.items);
        }
      } else {
        ValuesIffReachable(entries);
      }
    case List(items) =>
      if !AllInts(items) {
        ItemsIffReachable(items);
      }
    case Int(_) =>
    case Other =>
  }

  lemma {:induction false} ValuesIffReachable(entries: seq<Entry>)
    requires forall i :: 0 <= i < |entries| ==> BytesOnly(entries[i].value)
    ensures ValueCandidates(entries) != [] <==> exists i :: 0 <= i < |entries| && Reachable(entries[i].value)
    decreases entries, 0
  {
    if entries != [] {
      CandidatesIffReachable(entries[0].value);
      ValuesIffReachable(entries[1..]);
      assert forall i :: 0 < i < |entries| ==> entries[i] == entries[1..][i - 1];
    }
  }

  lemma {:induction false} ItemsIffReachable(items: seq<Value>)
    requires forall i :: 0 <= i < |items| ==> BytesOnly(items[i])
    ensures ItemCandidates(items) != [] <==> exists i :: 0 <= i < |items| && Reachable(items[i])
    decreases items, 0
  {
    if items != [] {
      CandidatesIffReachable(items[0]);
      ItemsIffReachable(items[1..]);
      assert forall i :: 0 < i < |items| ==> items[i] == items[1..][i - 1];
    }
  }

  /** On every tree whose integers are bytes, the extraction succeeds exactly when it can reach a convertible value. */
  lemma SucceedsIffReachable(v: Value)
    requires BytesOnly(v)
    ensures Extract(v).Ok? <==> Reachable(v)
  {
    FirstCandidateDecides(v);
    CandidatesIffReachable(v);
    if Candidates(v) != [] {
      var c := Candidates(v)[0];
      CandidatesInside(v, c);
      InsideBytesOnly(c, v);
      if c.List? {
        ByteListConverts(c.items);
      }
    }
  }

  /** A preferred list that does not convert hides the bytes beside it. */
  lemma PreferredListHidesBytes(b: seq<int>)
    ensures var v := Dict([Entry("data", List([Other])), Entry("x", Bytes(b))]);
            HasConvertible(v) && BytesOnly(v) && Extract(v) == TypeError
  {
    var entries := [Entry("data", List([Other])), Entry("x", Bytes(b))];
    assert HasConvertible(entries[1].value);
    assert Lookup(entries[1..][1..], "bitstream") == None;
    assert Lookup(entries[1..], "bitstream") == None;
    assert Lookup(entries, "data") == Some(List([Other]));
    assert Preferred(entries, 1) == Some(List([Other]));
  }
}
