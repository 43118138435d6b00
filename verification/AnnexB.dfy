/**
  The keyframe test on Annex-B access units (Annex B of ITU-T H.264 and ITU-T H.265): a
  scan for start codes that looks at the header byte behind each one it visits.
 */
module AnnexB {
  type Bytes = seq<bv8>

  const START_CODE: Bytes := [0, 0, 1]

  function Lower(c: char): char {
    if 'A' <= c <= 'Z' then ((c as int) - ('A' as int) + ('a' as int)) as char else c
  }

  function ToLower(s: string): string {
    if s == "" then "" else [Lower(s[0])] + ToLower(s[1..])
  }

  predicate IsH264(codec: string) {
    ToLower(codec) == "h264"
  }

  predicate IsHevc(codec: string) {
    ToLower(codec) == "h265" || ToLower(codec) == "hevc"
  }

  /** The NAL unit type is an IDR picture: 5 for H.264, 19 or 20 for H.265. */
  predicate IdrHeader(codec: string, header: bv8) {
    || (IsH264(codec) && header & 0x1F == 5)
    || (IsHevc(codec) && (header >> 1) & 0x3F in {19, 20})
  }

  predicate StartCodeAt(data: Bytes, p: int) {
    0 <= p && p + 3 <= |data| && data[p] == 0 && data[p + 1] == 0 && data[p + 2] == 1
  }

  /** A start code at `p` followed by an IDR header. */
  predicate IdrAt(codec: string, data: Bytes, p: int) {
    StartCodeAt(data, p) && p + 3 < |data| && IdrHeader(codec, data[p + 3])
  }

  /** `bytes.find(START_CODE, offset)`, with |data| for "not found". */
  method Find(data: Bytes, offset: nat) returns (p: nat)
    requires offset <= |data|
    ensures offset <= p <= |data|
    ensures p < |data| ==> StartCodeAt(data, p)
    ensures forall i :: offset <= i < p ==> !StartCodeAt(data, i)
  {
    p := offset;
    while p < |data|
      invariant offset <= p <= |data|
      invariant forall i :: offset <= i < p ==> !StartCodeAt(data, i)
    {
      if p + 3 <= |data| && data[p..p + 3] == START_CODE {
        return;
      }
      p := p + 1;
    }
  }

  /** How many start codes in a row, each beginning at the header byte of the one before, end with the one at `p`. */
  function ChainLength(data: Bytes, p: nat): (n: nat)
    requires StartCodeAt(data, p)
    ensures n > 0
  {
    if p >= 3 && StartCodeAt(data, p - 3) then ChainLength(data, p - 3) + 1 else 1
  }

  /** A start code whose header the scan looks at. */
  predicate Visited(data: Bytes, p: int) {
    StartCodeAt(data, p) && ChainLength(data, p) % 2 == 1
  }

  /** Some visited start code is followed by an IDR header. */
  ghost predicate Detected(codec: string, data: Bytes) {
    exists p :: Visited(data, p) && IdrAt(codec, data, p)
  }

  /**
    The scan, on arbitrary bytes: what it finds is a real start code with an IDR header,
    and it overlooks IDR headers exactly when each of them is behind a start code that
    ends a chain of an even number of start codes.
   */
  method IsIdrKeyframe(codec: string, data: Bytes) returns (found: bool)
    ensures found <==> Detected(codec, data)
    ensures found ==> ContainsIdr(codec, data)
    ensures !found && ContainsIdr(codec, data) <==>
            ContainsIdr(codec, data) && forall p :: IdrAt(codec, data, p) ==> ChainLength(data, p) % 2 == 0
  {
    WhatIsOverlooked(codec, data);
    if !IsH264(codec) && !IsHevc(codec) {
      return false;
    }
    var offset: nat := 0;
    while offset + 3 < |data|
      invariant forall p :: 0 <= p < offset && Visited(data, p) ==> !IdrAt(codec, data, p)
      invariant offset == 0 || (offset >= 4 && offset <= |data| && Visited(data, offset - 4))
      decreases |data| - offset
    {
      var start := Find(data, offset);
      if start == |data| {
        NoneVisitedFrom(data, offset, start);
        return false;
      }
      ScanVisits(data, offset, start);
      var header := start + 3;
      if header >= |data| {
        return false;
      }
      var idr := if IsH264(codec) then data[header] & 0x1F == 5 else (data[header] >> 1) & 0x3F in {19, 20};
      if idr {
        assert IdrAt(codec, data, start);
        return true;
      }
      BetweenStartCodes(data, start);
      offset := header + 1;
    }
    found := false;
  }

  /** A start code cannot begin inside the three bytes of another. */
  lemma BetweenStartCodes(data: Bytes, p: nat)
    requires StartCodeAt(data, p)
    ensures !StartCodeAt(data, p + 1) && !StartCodeAt(data, p + 2)
    ensures Visited(data, p) ==> !Visited(data, p + 3)
  {
  }

  /** The first start code found from `offset` on is visited, and the one before `offset` is not skipped wrongly. */
  lemma ScanVisits(data: Bytes, offset: nat, start: nat)
    requires offset == 0 || (offset >= 4 && Visited(data, offset - 4))
    requires offset <= start && StartCodeAt(data, start)
    requires forall i :: offset <= i < start ==> !StartCodeAt(data, i)
    ensures Visited(data, start)
  {
    if start >= 3 && StartCodeAt(data, start - 3) {
      // the predecessor lies before offset, so it is the unvisited one at offset - 1
      assert start - 3 < offset;
      BetweenStartCodes(data, offset - 4);
      assert start - 3 == offset - 1;
      assert ChainLength(data, start - 3) == ChainLength(data, offset - 4) + 1;
    }
  }

  lemma NoneVisitedFrom(data: Bytes, from: nat, to: nat)
    requires to == |data|
    requires forall i :: from <= i < to ==> !StartCodeAt(data, i)
    ensures forall i :: from <= i ==> !Visited(data, i)
  {
  }

  // ---------- On arbitrary bytes ----------

  /** What the access unit should be recognised by: some start code with an IDR header. */
  ghost predicate ContainsIdr(codec: string, data: Bytes) {
    exists p :: IdrAt(codec, data, p)
  }

  lemma WhatIsOverlooked(codec: string, data: Bytes)
    ensures Detected(codec, data) ==> ContainsIdr(codec, data)
    ensures Detected(codec, data) <==> exists p :: IdrAt(codec, data, p) && ChainLength(data, p) % 2 != 0
  {
    forall p | IdrAt(codec, data, p) && ChainLength(data, p) % 2 != 0
      ensures Visited(data, p)
    {
    }
  }

  /** The chain ending at `p` has n start codes: n of them lie three bytes apart up to `p`, and none before those. */
  lemma {:induction false} ChainLengthIs(data: Bytes, p: nat, n: nat)
    requires StartCodeAt(data, p)
    ensures ChainLength(data, p) == n <==>
            n > 0 && (forall i :: 0 <= i < n ==> StartCodeAt(data, p - 3 * i)) && !StartCodeAt(data, p - 3 * n)
  {
    if p >= 3 && StartCodeAt(data, p - 3) {
      if n > 1 {
        ChainLengthIs(data, p - 3, n - 1);
        assert forall i :: 0 <= i < n - 1 ==> p - 3 - 3 * i == p - 3 * (i + 1);
        if ChainLength(data, p - 3) == n - 1 {
          forall i | 0 < i < n
            ensures StartCodeAt(data, p - 3 * i)
          {
            assert StartCodeAt(data, p - 3 - 3 * (i - 1));
          }
        } else if forall i :: 0 <= i < n ==> StartCodeAt(data, p - 3 * i) {
          forall i | 0 <= i < n - 1
            ensures StartCodeAt(data, p - 3 - 3 * i)
          {
            assert StartCodeAt(data, p - 3 * (i + 1));
          }
        }
      }
    } else if n > 1 {
      assert !StartCodeAt(data, p - 3 * 1);
    }
  }

  /** Without a start code at another's header byte the scan misses nothing. */
  lemma NoChainsComplete(codec: string, data: Bytes)
    requires forall p :: StartCodeAt(data, p) ==> !StartCodeAt(data, p + 3)
    ensures Detected(codec, data) <==> ContainsIdr(codec, data)
  {
    if p :| IdrAt(codec, data, p) {
      assert StartCodeAt(data, p - 3) ==> !StartCodeAt(data, p - 3 + 3);
      assert Visited(data, p);
    }
  }

  /** Two start codes in a row hide the IDR header behind the second one. */
  lemma AdjacentStartCodesHideIdr()
    ensures var data := [0, 0, 1, 0, 0, 1, 0x65];
            ContainsIdr("h264", data) && !Detected("h264", data)
  {
    var data: Bytes := [0, 0, 1, 0, 0, 1, 0x65];
    H264Name();
    assert IdrAt("h264", data, 3);
    assert ChainLength(data, 3) == 2;
    forall p | IdrAt("h264", data, p)
      ensures p == 3
    {
    }
  }

  lemma H264Name()
    ensures IsH264("h264")
  {
    assert ToLower("") == "";
    assert ToLower("4") == "4";
    assert ToLower("64") == "64";
    assert ToLower("264") == "264";
  }

  // ---------- Codecs and headers in plain terms ----------

  predicate Is(c: char, lower: char, upper: char) {
    c == lower || c == upper
  }

  lemma LowerIs(c: char)
    ensures (Lower(c) == 'h' <==> Is(c, 'h', 'H')) && (Lower(c) == 'e' <==> Is(c, 'e', 'E'))
    ensures (Lower(c) == 'v' <==> Is(c, 'v', 'V')) && (Lower(c) == 'c' <==> Is(c, 'c', 'C'))
    ensures (Lower(c) == '2' <==> c == '2') && (Lower(c) == '4' <==> c == '4')
    ensures (Lower(c) == '5' <==> c == '5') && (Lower(c) == '6' <==> c == '6')
  {
  }

  lemma {:induction false} ToLowerIs(s: string)
    ensures |ToLower(s)| == |s| && forall i :: 0 <= i < |s| ==> ToLower(s)[i] == Lower(s[i])
  {
    if s != "" {
      ToLowerIs(s[1..]);
      assert forall i :: 0 < i < |s| ==> ToLower(s)[i] == ToLower(s[1..])[i - 1];
    }
  }

  /** The names of the two codecs, in upper or lower case. */
  lemma CodecNames(codec: string)
    ensures IsH264(codec) <==> |codec| == 4 && Is(codec[0], 'h', 'H') && codec[1..] == "264"
    ensures IsHevc(codec) <==>
            |codec| == 4 && ((Is(codec[0], 'h', 'H') && codec[1..] == "265")
                             || (Is(codec[0], 'h', 'H') && Is(codec[1], 'e', 'E')
                                 && Is(codec[2], 'v', 'V') && Is(codec[3], 'c', 'C')))
  {
    ToLowerIs(codec);
    var low := ToLower(codec);
    hide ToLower, Lower;
    if |codec| == 4 {
      LowerIs(codec[0]);
      LowerIs(codec[1]);
      LowerIs(codec[2]);
      LowerIs(codec[3]);
      assert low == [low[0], low[1], low[2], low[3]];
      assert codec[1..] == [codec[1], codec[2], codec[3]];
    }
  }

  /**
    In numbers: type 5, the last five bits of an H.264 header, and types 19 and 20, the six
    bits after the first one of an H.265 header, and nothing else.
   */
  lemma IdrHeaderIsType(codec: string, header: bv8)
    ensures IsH264(codec) ==> (IdrHeader(codec, header) <==> header as int % 32 == 5)
    ensures IsHevc(codec) ==> (IdrHeader(codec, header) <==> 19 <= header as int / 2 % 64 <= 20)
    ensures !IsH264(codec) && !IsHevc(codec) ==> !IdrHeader(codec, header)
    ensures !(IsH264(codec) && IsHevc(codec))
  {
    HevcBits(header);
    H264Bits(header);
  }

  lemma HevcBits(header: bv8)
    ensures (header >> 1) & 0x3F in {19, 20} <==> header as int / 2 % 64 in {19, 20}
  {
  }

  lemma H264Bits(header: bv8)
    ensures header & 0x1F == 5 <==> header as int % 32 == 5
  {
  }

  // ---------- On framed NAL units ----------

  /**
    Section 7.4.1 of H.264, section 7.4.2 of H.265: not empty, no 000000, 000001 or
    000002 inside, no 00 at the end.
   */
  predicate WellFormed(nal: Bytes) {
    && |nal| > 0 && nal[|nal| - 1] != 0
    && forall i :: 0 <= i && i + 2 < |nal| ==> !(nal[i] == 0 && nal[i + 1] == 0 && nal[i + 2] <= 2)
  }

  function Zeros(n: nat): (r: Bytes)
    ensures |r| == n && forall i :: 0 <= i < n ==> r[i] == 0
  {
    if n == 0 then [] else Zeros(n - 1) + [0]
  }

  /** One framed unit: any number of zero bytes (0 and 1 give the two usual start codes), the start code, the unit. */
  datatype Unit = Unit(zeros: nat, nal: Bytes)

  /** The byte stream of `units`, followed by `trailing` zero bytes. */
  function Frame(units: seq<Unit>, trailing: nat): Bytes {
    if units == [] then Zeros(trailing)
    else Zeros(units[0].zeros) + START_CODE + units[0].nal + Frame(units[1..], trailing)
  }

  /** Where the nal bytes of the i-th unit begin. */
  function NalOffset(units: seq<Unit>, i: nat): nat
    requires i < |units|
  {
    if i == 0 then units[0].zeros + 3
    else units[0].zeros + 3 + |units[0].nal| + NalOffset(units[1..], i - 1)
  }

  predicate AllWellFormed(units: seq<Unit>) {
    forall i :: 0 <= i < |units| ==> WellFormed(units[i].nal)
  }

  /** Later units lie at least a start code behind the end of earlier ones. */
  lemma {:induction false} OffsetsApart(units: seq<Unit>, i: nat, j: nat)
    requires i < j < |units|
    ensures NalOffset(units, i) + |units[i].nal| + 3 <= NalOffset(units, j) && NalOffset(units, i) >= 3
  {
    if i == 0 {
      OffsetPositive(units[1..], j - 1);
    } else {
      OffsetsApart(units[1..], i - 1, j - 1);
    }
  }

  lemma {:induction false} OffsetPositive(units: seq<Unit>, i: nat)
    requires i < |units|
    ensures NalOffset(units, i) >= 3
  {
    if i > 0 {
      OffsetPositive(units[1..], i - 1);
    }
  }

  /** The header byte of the i-th unit stands at its offset. */
  lemma {:induction false} HeaderAt(units: seq<Unit>, trailing: nat, i: nat)
    requires i < |units| && |units[i].nal| > 0
    ensures NalOffset(units, i) < |Frame(units, trailing)|
    ensures Frame(units, trailing)[NalOffset(units, i)] == units[i].nal[0]
  {
    var head := Zeros(units[0].zeros) + START_CODE + units[0].nal;
    assert Frame(units, trailing) == head + Frame(units[1..], trailing);
    if i == 0 {
      assert head[units[0].zeros + 3] == units[0].nal[0];
    } else {
      HeaderAt(units[1..], trailing, i - 1);
    }
  }

  /** No start code begins in a well-formed unit, whatever follows it. */
  lemma NoStartCodeInUnit(nal: Bytes, tail: Bytes, k: nat)
    requires WellFormed(nal) && k < |nal|
    ensures !StartCodeAt(nal + tail, k)
  {
    var f := nal + tail;
    assert f[|nal| - 1] == nal[|nal| - 1];
    assert k + 2 < |nal| ==> f[k] == nal[k] && f[k + 1] == nal[k + 1] && f[k + 2] == nal[k + 2];
  }

  /** Within and across the end of one framed unit only its own start code begins. */
  lemma StartCodeInHead(u: Unit, tail: Bytes, p: nat)
    requires WellFormed(u.nal) && p < u.zeros + 3 + |u.nal|
    ensures StartCodeAt(Zeros(u.zeros) + START_CODE + u.nal + tail, p) <==> p == u.zeros
  {
    var f := Zeros(u.zeros) + START_CODE + u.nal + tail;
    var at := u.zeros + 3;
    assert f[u.zeros] == 0 && f[u.zeros + 1] == 0 && f[u.zeros + 2] == 1;
    if p < u.zeros {
      assert p + 2 < u.zeros ==> f[p + 2] == 0;
    } else if p >= at {
      var head := Zeros(u.zeros) + START_CODE;
      NoStartCodeInUnit(u.nal, tail, p - at);
      StartCodeShift(head, u.nal + tail, p - at);
      assert f == head + (u.nal + tail);
    }
    hide WellFormed, Zeros;
  }

  /** The start codes of a framed stream are exactly those put before the units. */
  lemma {:induction false} StartCodesAreFraming(units: seq<Unit>, trailing: nat, p: nat)
    requires AllWellFormed(units)
    ensures StartCodeAt(Frame(units, trailing), p) <==> exists i :: 0 <= i < |units| && NalOffset(units, i) == p + 3
  {
    var f := Frame(units, trailing);
    if units != [] {
      var u, rest := units[0], units[1..];
      var tail := Frame(rest, trailing);
      var head := Zeros(u.zeros) + START_CODE + u.nal;
      assert f == head + tail;
      assert NalOffset(units, 0) == u.zeros + 3;
      if p < |head| {
        StartCodeInHead(u, tail, p);
        forall i | 0 < i < |units|
          ensures NalOffset(units, i) != p + 3
        {
          OffsetsApart(units, 0, i);
        }
      } else {
        var q := p - |head|;
        StartCodesAreFraming(rest, trailing, q);
        StartCodeShift(head, tail, q);
        OffsetsShift(units, |head|, q);
      }
    }
  }

  lemma StartCodeShift(head: Bytes, tail: Bytes, q: nat)
    ensures StartCodeAt(head + tail, |head| + q) <==> StartCodeAt(tail, q)
  {
    assert forall k :: 0 <= k < |tail| ==> (head + tail)[|head| + k] == tail[k];
  }

  lemma OffsetsShift(units: seq<Unit>, h: nat, q: nat)
    requires units != [] && h == units[0].zeros + 3 + |units[0].nal|
    ensures (exists i :: 0 <= i < |units| && NalOffset(units, i) == h + q + 3) <==>
            (exists i :: 0 <= i < |units[1..]| && NalOffset(units[1..], i) == q + 3)
  {
    if i :| 0 <= i < |units[1..]| && NalOffset(units[1..], i) == q + 3 {
      assert NalOffset(units, i + 1) == h + q + 3;
    }
    if i :| 0 <= i < |units| && NalOffset(units, i) == h + q + 3 {
      assert NalOffset(units[1..], i - 1) == q + 3;
    }
  }

  /** No start code of a framed stream begins at the header byte of another. */
  lemma FramedHasNoChains(units: seq<Unit>, trailing: nat)
    requires AllWellFormed(units)
    ensures forall p :: StartCodeAt(Frame(units, trailing), p) ==> !StartCodeAt(Frame(units, trailing), p + 3)
  {
    var f := Frame(units, trailing);
    hide Frame, NalOffset;
    forall p | StartCodeAt(f, p)
      ensures !StartCodeAt(f, p + 3)
    {
      StartCodesAreFraming(units, trailing, p);
      StartCodesAreFraming(units, trailing, p + 3);
      var i :| 0 <= i < |units| && NalOffset(units, i) == p + 3;
      if j :| 0 <= j < |units| && NalOffset(units, j) == p + 6 {
        if i < j { OffsetsApart(units, i, j); } else if j < i { OffsetsApart(units, j, i); }
      }
    }
  }

  /** The IDR headers of a framed stream are those of its units. */
  lemma FramedContainsIdr(codec: string, units: seq<Unit>, trailing: nat)
    requires AllWellFormed(units)
    ensures ContainsIdr(codec, Frame(units, trailing))
            <==> exists i :: 0 <= i < |units| && IdrHeader(codec, units[i].nal[0])
  {
    var f := Frame(units, trailing);
    hide Frame, NalOffset;
    if p :| IdrAt(codec, f, p) {
      StartCodesAreFraming(units, trailing, p);
      var i :| 0 <= i < |units| && NalOffset(units, i) == p + 3;
      HeaderAt(units, trailing, i);
      assert IdrHeader(codec, units[i].nal[0]);
    }
    if i :| 0 <= i < |units| && IdrHeader(codec, units[i].nal[0]) {
      HeaderAt(units, trailing, i);
      OffsetPositive(units, i);
      StartCodesAreFraming(units, trailing, NalOffset(units, i) - 3);
      assert IdrAt(codec, f, NalOffset(units, i) - 3);
    }
  }

  /**
    On every framed list of well-formed NAL units the scan answers true if and only if
    some unit has an IDR type.
   */
  lemma FramedDetection(codec: string, units: seq<Unit>, trailing: nat)
    requires AllWellFormed(units)
    ensures Detected(codec, Frame(units, trailing)) <==>
        exists i :: 0 <= i < |units| && IdrHeader(codec, units[i].nal[0])
  {
    FramedHasNoChains(units, trailing);
    NoChainsComplete(codec, Frame(units, trailing));
    FramedContainsIdr(codec, units, trailing);
  }

  /**
    In numbers: the scan of a framed stream answers true if and only if some unit is of
    type 5 for H.264, or of type 19 or 20 for H.265, and never for another codec.
   */
  lemma FramedDetectionByType(codec: string, units: seq<Unit>, trailing: nat)
    requires AllWellFormed(units)
    ensures IsH264(codec) ==>
            (Detected(codec, Frame(units, trailing)) <==>
               exists i :: 0 <= i < |units| && units[i].nal[0] as int % 32 == 5)
    ensures IsHevc(codec) ==>
            (Detected(codec, Frame(units, trailing)) <==>
               exists i :: 0 <= i < |units| && 19 <= units[i].nal[0] as int / 2 % 64 <= 20)
    ensures !IsH264(codec) && !IsHevc(codec) ==> !Detected(codec, Frame(units, trailing))
  {
    FramedDetection(codec, units, trailing);
    hide IdrHeader, IsH264, IsHevc, Detected, Frame;
    forall i | 0 <= i < |units|
      ensures IsH264(codec) ==> (IdrHeader(codec, units[i].nal[0]) <==> units[i].nal[0] as int % 32 == 5)
      ensures IsHevc(codec) ==>
              (IdrHeader(codec, units[i].nal[0]) <==> 19 <= units[i].nal[0] as int / 2 % 64 <= 20)
      ensures !IsH264(codec) && !IsHevc(codec) ==> !IdrHeader(codec, units[i].nal[0])
    {
      IdrHeaderIsType(codec, units[i].nal[0]);
    }
  }
}
