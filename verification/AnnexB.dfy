/**
  * Repackaging an H.264 access unit from the byte stream format of Annex B
  * (start codes) to length-prefixed NAL units.
  *
  * `Nals` is the specification of the splitter: cut after every 00 00 01 and
  * strip the zeros that precede a later start code.
  */
module AnnexB {
  import opened Options
  import opened Bytes

  const UINT32_MAX: nat := 0xffff_ffff

  /** A start code 00 00 01 ends at position `e`. */
  predicate CodeEndsAt(s: seq<Byte>, e: nat) {
    3 <= e <= |s| && s[e - 3] == 0 && s[e - 2] == 0 && s[e - 1] == 1
  }

  predicate NoCodeBefore(s: seq<Byte>, bound: nat) {
    forall e :: 0 <= e < bound ==> !CodeEndsAt(s, e)
  }

  function FirstEnd(s: seq<Byte>, from: nat): (r: Option<nat>)
    ensures r.Some? ==> from <= r.value && CodeEndsAt(s, r.value)
    decreases |s| + 1 - from
  {
    if from > |s| then None
    else if CodeEndsAt(s, from) then Some(from)
    else FirstEnd(s, from + 1)
  }

  /** It is the first one, and there is none when it says so. */
  lemma {:induction false} FirstEndLeast(s: seq<Byte>, from: nat, e: nat)
    requires from <= e && CodeEndsAt(s, e)
    ensures FirstEnd(s, from).Some? && FirstEnd(s, from).value <= e
    decreases |s| + 1 - from
  {
    if !CodeEndsAt(s, from) {
      FirstEndLeast(s, from + 1, e);
    }
  }

  function Trim(s: seq<Byte>): (r: seq<Byte>)
    ensures r <= s
    ensures r == [] || r[|r| - 1] != 0
  {
    if s == [] || s[|s| - 1] != 0 then s else Trim(s[..|s| - 1])
  }

  /** The NAL units of what follows a start code. */
  function Nals(s: seq<Byte>): seq<seq<Byte>>
    decreases |s|
  {
    if s == [] then []
    else match FirstEnd(s, 0)
      case None => [s]
      case Some(e) =>
        var nal := Trim(s[..e - 3]);
        Unit(nal) + Nals(s[e..])
  }

  /** The NAL units of an access unit, or nothing when it has no start code. */
  function Split(data: seq<Byte>): Option<seq<seq<Byte>>> {
    match FirstEnd(data, 0)
    case None => None
    case Some(e) => Some(Nals(data[e..]))
  }

  // ---- Joining and splitting are inverse ------------------------------------------------

  function Zeros(n: nat): (r: seq<Byte>)
    ensures |r| == n && forall i :: 0 <= i < n ==> r[i] == 0
  {
    seq(n, _ => 0)
  }

  predicate NoCode(s: seq<Byte>) {
    NoCodeBefore(s, |s| + 1)
  }

  predicate WholeNal(nal: seq<Byte>) {
    nal != [] && NoCode(nal) && nal[|nal| - 1] != 0
  }

  /**
    * Units behind start codes: each has at least two zeros before its 01, so this
    * covers 3-byte codes, 4-byte codes and any padding in front of either.
    */
  function Join(zeros: seq<nat>, nals: seq<seq<Byte>>): seq<Byte>
    requires |zeros| == |nals|
  {
    if nals == [] then [] else Zeros(zeros[0]) + [1] + nals[0] + Join(zeros[1..], nals[1..])
  }

  lemma FirstEndIs(s: seq<Byte>, e: nat)
    requires CodeEndsAt(s, e) && NoCodeBefore(s, e)
    ensures FirstEnd(s, 0) == Some(e)
  {
    FirstEndLeast(s, 0, e);
  }

  lemma CodeAfterNal(nal: seq<Byte>, k: nat, rest: seq<Byte>)
    requires NoCode(nal) && k >= 2
    ensures FirstEnd(nal + Zeros(k) + [1] + rest, 0) == Some(|nal| + k + 1)
  {
    var s := nal + Zeros(k) + [1] + rest;
    var end := |nal| + k + 1;
    assert s[end - 1] == 1 && s[end - 2] == 0 && s[end - 3] == 0;
    forall e | 0 <= e < end ensures !CodeEndsAt(s, e) {
      if e <= |nal| {
        assert !CodeEndsAt(nal, e);
      } else {
        assert s[e - 1] == 0;
      }
    }
    FirstEndIs(s, end);
  }

  lemma {:induction false} TrimPadded(nal: seq<Byte>, n: nat)
    requires nal != [] && nal[|nal| - 1] != 0
    ensures Trim(nal + Zeros(n)) == nal
  {
    if n == 0 {
      assert nal + Zeros(n) == nal;
    } else {
      assert (nal + Zeros(n))[..|nal| + n - 1] == nal + Zeros(n - 1);
      TrimPadded(nal, n - 1);
    }
  }

  lemma NalsStep(nal: seq<Byte>, k: nat, rest: seq<Byte>)
    requires WholeNal(nal) && k >= 2
    ensures Nals(nal + Zeros(k) + [1] + rest) == [nal] + Nals(rest)
  {
    var s := nal + Zeros(k) + [1] + rest;
    var e := |nal| + k + 1;
    CodeAfterNal(nal, k, rest);
    assert s[..e - 3] == nal + Zeros(k - 2);
    assert s[e..] == rest;
    TrimPadded(nal, k - 2);
    NalsCut(s, e, nal, rest);
  }

  lemma NalsCut(s: seq<Byte>, e: nat, nal: seq<Byte>, rest: seq<Byte>)
    requires s != [] && nal != [] && FirstEnd(s, 0) == Some(e)
    requires Trim(s[..e - 3]) == nal && s[e..] == rest
    ensures Nals(s) == [nal] + Nals(rest)
  {
  }

  lemma LastNal(nal: seq<Byte>)
    requires WholeNal(nal)
    ensures Nals(nal) == [nal]
  {
    if FirstEnd(nal, 0).Some? {
      assert false;
    }
  }

  lemma {:induction false} NalsOfJoin(nal: seq<Byte>, zeros: seq<nat>, nals: seq<seq<Byte>>)
    requires WholeNal(nal) && |zeros| == |nals|
    requires forall i :: 0 <= i < |nals| ==> WholeNal(nals[i]) && zeros[i] >= 2
    ensures Nals(nal + Join(zeros, nals)) == [nal] + nals
    decreases |nals|
  {
    if nals == [] {
      assert nal + Join(zeros, nals) == nal;
      LastNal(nal);
    } else {
      var rest := nals[0] + Join(zeros[1..], nals[1..]);
      assert nal + Join(zeros, nals) == nal + Zeros(zeros[0]) + [1] + rest;
      NalsStep(nal, zeros[0], rest);
      NalsOfJoin(nals[0], zeros[1..], nals[1..]);
      assert [nals[0]] + nals[1..] == nals;
    }
  }

  /** Splitting gives back exactly the units that were joined, whatever start codes and padding separate them. */
  lemma SplitJoin(zeros: seq<nat>, nals: seq<seq<Byte>>)
    requires |zeros| == |nals| > 0
    requires forall i :: 0 <= i < |nals| ==> WholeNal(nals[i]) && zeros[i] >= 2
    ensures Split(Join(zeros, nals)) == Some(nals)
  {
    var rest := nals[0] + Join(zeros[1..], nals[1..]);
    var data := Join(zeros, nals);
    assert data == [] + Zeros(zeros[0]) + [1] + rest;
    CodeAfterNal([], zeros[0], rest);
    assert data[zeros[0] + 1..] == rest;
    NalsOfJoin(nals[0], zeros[1..], nals[1..]);
    assert [nals[0]] + nals[1..] == nals;
  }

  lemma NotEarlier(s: seq<Byte>, e: nat, x: nat)
    requires FirstEnd(s, 0) == Some(e) && x < e
    ensures !CodeEndsAt(s, x)
  {
    if CodeEndsAt(s, x) {
      FirstEndLeast(s, 0, x);
    }
  }

  lemma CutIsWhole(s: seq<Byte>, e: nat)
    requires FirstEnd(s, 0) == Some(e)
    ensures var nal := Trim(s[..e - 3]); nal == [] || WholeNal(nal)
  {
    var nal := Trim(s[..e - 3]);
    forall x | 0 <= x < |nal| + 1 ensures !CodeEndsAt(nal, x) {
      NotEarlier(s, e, x);
      assert x >= 3 ==> nal[x - 3] == s[x - 3] && nal[x - 2] == s[x - 2] && nal[x - 1] == s[x - 1];
    }
  }

  predicate AllWhole(nals: seq<seq<Byte>>) {
    forall i :: 0 <= i < |nals| ==>
      nals[i] != [] && NoCode(nals[i]) && (i + 1 < |nals| ==> WholeNal(nals[i]))
  }

  lemma WithoutCode(s: seq<Byte>)
    requires s != [] && FirstEnd(s, 0).None?
    ensures NoCode(s)
  {
    forall e | 0 <= e < |s| + 1 ensures !CodeEndsAt(s, e) {
      if CodeEndsAt(s, e) {
        FirstEndLeast(s, 0, e);
      }
    }
  }

  lemma UnitAndRest(nal: seq<Byte>, rest: seq<seq<Byte>>)
    requires (nal == [] || WholeNal(nal)) && AllWhole(rest)
    ensures AllWhole(Unit(nal) + rest)
  {
    var all := Unit(nal) + rest;
    forall i | 0 <= i < |all| ensures all[i] != [] && NoCode(all[i]) && (i + 1 < |all| ==> WholeNal(all[i])) {
      if nal == [] {
        assert all == rest;
      } else if i > 0 {
        assert all[i] == rest[i - 1];
      }
    }
  }

  /** What the splitter yields on any input: non-empty units free of start codes, and only the last may end in zeros. */
  lemma {:induction false} NalsAreWhole(s: seq<Byte>)
    ensures AllWhole(Nals(s))
    decreases |s|
  {
    if s != [] {
      match FirstEnd(s, 0) {
        case None =>
          WithoutCode(s);
          assert Nals(s) == [s];
        case Some(e) =>
          CutIsWhole(s, e);
          NalsAreWhole(s[e..]);
          UnitAndRest(Trim(s[..e - 3]), Nals(s[e..]));
      }
    }
  }

  /** Splitting, re-joining with any start codes and splitting again changes nothing. */
  lemma ResplitIsStable(data: seq<Byte>, zeros: seq<nat>)
    requires Split(data).Some? && Split(data).value != []
    requires |zeros| == |Split(data).value| && forall i :: 0 <= i < |zeros| ==> zeros[i] >= 2
    requires var last := Split(data).value[|zeros| - 1]; last != [] ==> last[|last| - 1] != 0
    ensures Split(Join(zeros, Split(data).value)) == Split(data)
  {
    var s := data[FirstEnd(data, 0).value..];
    NalsAreWhole(s);
    SplitJoin(zeros, Split(data).value);
  }

  // ---- Length-prefixed output -------------------------------------------------------------

  function NalType(nal: seq<Byte>): nat
    requires nal != []
  {
    nal[0] % 32
  }

  /** Parameter sets and access unit delimiters travel separately. */
  predicate Kept(nal: seq<Byte>) {
    nal != [] && NalType(nal) != 7 && NalType(nal) != 8 && NalType(nal) != 9
  }

  function KeptNals(nals: seq<seq<Byte>>): (r: seq<seq<Byte>>)
    ensures forall n :: n in r ==> n in nals && Kept(n)
  {
    if nals == [] then []
    else KeptNals(nals[..|nals| - 1]) + (if Kept(nals[|nals| - 1]) then [nals[|nals| - 1]] else [])
  }

  /** The length as four big-endian bytes; longer lengths lose their high bits, as a uint32 would. */
  function BigEndian(n: nat): (r: seq<Byte>)
    ensures |r| == 4
  {
    [n / 0x100_0000 % 256, n / 0x1_0000 % 256, n / 0x100 % 256, n % 256]
  }

  function Avcc(nals: seq<seq<Byte>>): seq<Byte> {
    if nals == [] then []
    else
      var last := nals[|nals| - 1];
      Avcc(nals[..|nals| - 1]) + (if Kept(last) then BigEndian(|last|) + last else [])
  }

  function LengthOf(b: seq<Byte>): nat
    requires |b| >= 4
  {
    (b[0] as int) * 0x100_0000 + (b[1] as int) * 0x1_0000 + (b[2] as int) * 0x100 + (b[3] as int)
  }

  /** How a decoder reads length-prefixed units. */
  function Parse(s: seq<Byte>): Option<seq<seq<Byte>>>
    decreases |s|
  {
    if s == [] then Some([])
    else if |s| < 4 then None
    else
      var n := LengthOf(s);
      if |s| < 4 + n then None
      else match Parse(s[4 + n..])
        case None => None
        case Some(rest) => Some([s[4..4 + n]] + rest)
  }

  lemma BigEndianValue(n: nat)
    requires n <= UINT32_MAX
    ensures LengthOf(BigEndian(n)) == n
  {
    var q1 := n / 0x100;
    var q2 := q1 / 0x100;
    assert n / 0x1_0000 == q2 && n / 0x100_0000 == q2 / 0x100;
  }

  lemma ParseOne(nal: seq<Byte>, rest: seq<Byte>)
    requires |nal| <= UINT32_MAX
    ensures Parse(BigEndian(|nal|) + nal + rest) ==
            (match Parse(rest) case None => None case Some(r) => Some([nal] + r))
  {
    var b := BigEndian(|nal|);
    var s := b + nal + rest;
    BigEndianValue(|nal|);
    assert s[0] == b[0] && s[1] == b[1] && s[2] == b[2] && s[3] == b[3];
    assert s[4..4 + |nal|] == nal && s[4 + |nal|..] == rest;
  }

  lemma Reassociate<T>(a: seq<T>, b: seq<T>, c: seq<T>)
    ensures (a + b) + c == a + (b + c)
  {
  }

  lemma {:induction false} ParseAvccThen(nals: seq<seq<Byte>>, tail: seq<Byte>, parsed: seq<seq<Byte>>)
    requires Representable(nals)
    requires Parse(tail) == Some(parsed)
    ensures Parse(Avcc(nals) + tail) == Some(KeptNals(nals) + parsed)
    decreases |nals|
  {
    if nals == [] {
      assert Avcc(nals) + tail == tail && KeptNals(nals) + parsed == parsed;
    } else {
      var init, last := nals[..|nals| - 1], nals[|nals| - 1];
      if Kept(last) {
        ParseOne(last, tail);
        ParseAvccThen(init, BigEndian(|last|) + last + tail, [last] + parsed);
        Reassociate(Avcc(init), BigEndian(|last|) + last, tail);
        Reassociate(KeptNals(init), [last], parsed);
      } else {
        ParseAvccThen(init, tail, parsed);
        assert Avcc(init) + [] == Avcc(init) && KeptNals(init) + [] == KeptNals(init);
      }
    }
  }

  /** The length-prefixed output parses back to the units without parameter sets and delimiters. */
  lemma ParseAvcc(nals: seq<seq<Byte>>)
    requires Representable(nals)
    ensures Parse(Avcc(nals)) == Some(KeptNals(nals))
  {
    ParseAvccThen(nals, [], []);
    assert Avcc(nals) + [] == Avcc(nals) && KeptNals(nals) + [] == KeptNals(nals);
  }

  // ---- The loops ---------------------------------------------------------------------------

  /** The next start code at or after `position` ends at `nalStart`. */
  predicate NextCode(bytes: seq<Byte>, position: nat, found: bool, nalStart: nat)
    requires position <= |bytes|
  {
    && (found <==> FirstEnd(bytes[position..], 0).Some?)
    && (found ==> nalStart == position + FirstEnd(bytes[position..], 0).value)
  }

  method NextStartCode(bytes: seq<Byte>, position: nat) returns (found: bool, at: nat, nalStart: nat)
    requires position <= |bytes|
    ensures NextCode(bytes, position, found, nalStart)
    ensures found ==> position <= at <= nalStart - 3 && nalStart <= |bytes| && (at < nalStart - 3 ==> at == nalStart - 4 && bytes[at] == 0)
    ensures !found ==> nalStart == 0
  {
    ghost var s := bytes[position..];
    var index := position;
    while index + 3 <= |bytes|
      invariant position <= index
      invariant forall e :: 0 <= e < index - position + 3 ==> !CodeEndsAt(s, e)
    {
      if bytes[index] == 0 && bytes[index + 1] == 0 {
        if bytes[index + 2] == 1 {
          FirstEndIs(s, index - position + 3);
          return true, index, index + 3;
        }
        if bytes[index + 2] == 0 && index + 4 <= |bytes| && bytes[index + 3] == 1 {
          assert !CodeEndsAt(s, index - position + 3);
          FirstEndIs(s, index - position + 4);
          return true, index, index + 4;
        }
      }
      index := index + 1;
    }
    return false, 0, 0;
  }

  lemma {:induction false} TrimShorter(s: seq<Byte>, n: nat)
    requires n <= |s| && forall i :: n <= i < |s| ==> s[i] == 0
    ensures Trim(s) == Trim(s[..n])
  {
    if n < |s| {
      TrimShorter(s[..|s| - 1], n);
      assert s[..|s| - 1][..n] == s[..n];
    } else {
      assert s[..n] == s;
    }
  }

  lemma TrimmedSlice(data: seq<Byte>, start: nat, end: nat, cut: nat)
    requires start <= end <= cut <= |data|
    requires forall i :: end <= i < cut ==> data[i] == 0
    requires end == start || data[end - 1] != 0
    ensures Trim(data[start..][..cut - start]) == data[start..end]
  {
    var before := data[start..][..cut - start];
    assert forall i :: end - start <= i < |before| ==> before[i] == data[start + i];
    TrimShorter(before, end - start);
    assert before[..end - start] == data[start..end];
  }

  /** The inner loop of surf_for_each_nal, for a start code found at `at` and ending at `nextStart`. */
  method TrimEnd(data: seq<Byte>, start: nat, at: nat, nextStart: nat) returns (end: nat)
    requires start <= at <= nextStart - 3 && nextStart <= |data|
    requires at < nextStart - 3 ==> at == nextStart - 4 && data[at] == 0
    ensures start <= end <= at
    ensures data[start..end] == Trim(data[start..][..nextStart - 3 - start])
  {
    end := at;
    while end > start && data[end - 1] == 0
      invariant start <= end <= at
      invariant forall i :: end <= i < at ==> data[i] == 0
    {
      end := end - 1;
    }
    TrimmedSlice(data, start, end, nextStart - 3);
  }

  /** What the callback is given for one unit: nothing when the unit is empty. */
  function Unit(nal: seq<Byte>): seq<seq<Byte>> {
    if nal == [] then [] else [nal]
  }

  /** One round of surf_for_each_nal: the unit that starts at `start` and where the next one starts, 0 at the end. */
  method NextNal(data: seq<Byte>, start: nat) returns (nal: seq<Byte>, nextStart: nat)
    requires start < |data|
    ensures nextStart == 0 ==> Nals(data[start..]) == Unit(nal)
    ensures nextStart != 0 ==> start < nextStart <= |data| && Nals(data[start..]) == Unit(nal) + Nals(data[nextStart..])
  {
    var more, nextPosition;
    more, nextPosition, nextStart := NextStartCode(data, start);
    var end := |data|;
    if more {
      end := TrimEnd(data, start, nextPosition, nextStart);
      NalsUnfold(data, start, nextStart);
    } else {
      RoundAtEnd(data, start);
    }
    nal := data[start..end];
  }

  lemma RoundAtEnd(data: seq<Byte>, start: nat)
    requires start < |data| && NextCode(data, start, false, 0)
    ensures Nals(data[start..]) == Unit(data[start..|data|])
  {
    NalsAtEnd(data[start..]);
    assert data[start..|data|] == data[start..];
  }

  lemma NalsAtEnd(s: seq<Byte>)
    requires s != [] && FirstEnd(s, 0).None?
    ensures Nals(s) == [s] == Unit(s)
  {
  }

  lemma NalsUnfold(data: seq<Byte>, start: nat, nextStart: nat)
    requires start < |data| && NextCode(data, start, true, nextStart)
    ensures start + 3 <= nextStart <= |data|
    ensures Nals(data[start..]) == Unit(Trim(data[start..][..nextStart - 3 - start])) + Nals(data[nextStart..])
  {
    NalsFirst(data[start..], nextStart - start);
    assert data[start..][nextStart - start..] == data[nextStart..];
  }

  lemma NalsFirst(s: seq<Byte>, e: nat)
    requires s != [] && FirstEnd(s, 0) == Some(e)
    ensures Nals(s) == Unit(Trim(s[..e - 3])) + Nals(s[e..])
  {
  }

  lemma FirstCode(data: seq<Byte>, found: bool, start: nat)
    requires NextCode(data, 0, found, start)
    ensures found <==> Split(data).Some?
    ensures found ==> start <= |data| && Split(data).value == Nals(data[start..])
  {
    assert data[0..] == data;
  }

  /** surf_for_each_nal, collecting the units its callback is given, in order. */
  method ForEachNal(data: seq<Byte>) returns (ok: bool, nals: seq<seq<Byte>>)
    ensures ok <==> Split(data).Some?
    ensures ok ==> nals == Split(data).value
  {
    nals := [];
    var found, position, start := NextStartCode(data, 0);
    FirstCode(data, found, start);
    if !found {
      return false, [];
    }
    ok := true;
    while start < |data|
      invariant start <= |data|
      invariant nals + Nals(data[start..]) == Split(data).value
      decreases |data| - start
    {
      var nal, nextStart := NextNal(data, start);
      Reassociate(nals, Unit(nal), if nextStart == 0 then [] else Nals(data[nextStart..]));
      nals := nals + Unit(nal);
      if nextStart == 0 {
        return;
      }
      start := nextStart;
    }
  }

  datatype Info = Info(sps: seq<Byte>, pps: seq<Byte>, hasIdr: bool, hasSlice: bool, avccLength: nat)

  predicate SomeOfType(nals: seq<seq<Byte>>, kind: nat) {
    exists n :: n in nals && n != [] && NalType(n) == kind
  }

  /** The last unit of a type, or nothing. */
  function LastOfType(nals: seq<seq<Byte>>, kind: nat): seq<Byte> {
    if nals == [] then []
    else if nals[|nals| - 1] != [] && NalType(nals[|nals| - 1]) == kind then nals[|nals| - 1]
    else LastOfType(nals[..|nals| - 1], kind)
  }

  /** What surf_scan_nal has noted after a list of units. */
  predicate Scanned(nals: seq<seq<Byte>>, info: Info) {
    && info.sps == LastOfType(nals, 7) && info.pps == LastOfType(nals, 8)
    && (info.hasIdr <==> SomeOfType(nals, 5))
    && (info.hasSlice <==> SomeOfType(nals, 5) || SomeOfType(nals, 1))
    && info.avccLength == |Avcc(nals)|
  }

  predicate OfType(nal: seq<Byte>, kind: nat) {
    nal != [] && nal[0] % 32 == kind
  }

  /** `r` is the last unit of the type, or empty when there is none. */
  predicate Latest(nals: seq<seq<Byte>>, kind: nat, r: seq<Byte>) {
    || (r == [] && forall i :: 0 <= i < |nals| ==> !OfType(nals[i], kind))
    || exists i :: 0 <= i < |nals| && OfType(nals[i], kind) && r == nals[i] && forall j :: i < j < |nals| ==> !OfType(nals[j], kind)
  }

  lemma LatestStays(front: seq<seq<Byte>>, last: seq<Byte>, kind: nat, r: seq<Byte>)
    requires Latest(front, kind, r) && !OfType(last, kind)
    ensures Latest(front + [last], kind, r)
  {
    var nals := front + [last];
    if !(r == [] && forall i :: 0 <= i < |front| ==> !OfType(front[i], kind)) {
      var i :| 0 <= i < |front| && OfType(front[i], kind) && r == front[i] && forall j :: i < j < |front| ==> !OfType(front[j], kind);
      assert nals[i] == r && OfType(nals[i], kind);
      forall j | i < j < |nals| ensures !OfType(nals[j], kind) {
        assert nals[j] == if j < |front| then front[j] else last;
      }
    }
  }

  lemma LatestIsLast(front: seq<seq<Byte>>, last: seq<Byte>, kind: nat)
    requires OfType(last, kind)
    ensures Latest(front + [last], kind, last)
  {
    assert (front + [last])[|front|] == last;
  }

  /** The parameter sets are the last ones of the access unit. */
  lemma {:induction false} LastOfTypeIsLatest(nals: seq<seq<Byte>>, kind: nat)
    ensures Latest(nals, kind, LastOfType(nals, kind))
    decreases |nals|
  {
    if nals != [] {
      var front, last := nals[..|nals| - 1], nals[|nals| - 1];
      assert front + [last] == nals;
      if OfType(last, kind) {
        LatestIsLast(front, last, kind);
      } else {
        LastOfTypeIsLatest(front, kind);
        LatestStays(front, last, kind, LastOfType(front, kind));
      }
    }
  }

  /** Where the kept units stand in the list. */
  predicate PlacesOf(places: seq<nat>, nals: seq<seq<Byte>>, kept: seq<seq<Byte>>) {
    && |places| == |kept|
    && (forall i, j :: 0 <= i < j < |places| ==> places[i] < places[j])
    && (forall i :: 0 <= i < |places| ==> places[i] < |nals| && kept[i] == nals[places[i]])
    && (forall p :: 0 <= p < |nals| ==> (p in places <==> Keeps(nals[p])))
  }

  predicate Keeps(nal: seq<Byte>) {
    nal != [] && !OfType(nal, 7) && !OfType(nal, 8) && !OfType(nal, 9)
  }

  lemma PlaceAdded(places: seq<nat>, front: seq<seq<Byte>>, last: seq<Byte>, kept: seq<seq<Byte>>)
    requires PlacesOf(places, front, kept) && Keeps(last)
    ensures PlacesOf(places + [|front|], front + [last], kept + [last])
  {
    var all, nals := places + [|front|], front + [last];
    forall p | 0 <= p < |nals| ensures p in all <==> Keeps(nals[p]) {
      assert p in all <==> p in places || p == |front|;
      if p < |front| {
        assert nals[p] == front[p];
      }
    }
    assert forall i :: 0 <= i < |places| ==> nals[places[i]] == front[places[i]];
  }

  lemma PlacesStay(places: seq<nat>, front: seq<seq<Byte>>, last: seq<Byte>, kept: seq<seq<Byte>>)
    requires PlacesOf(places, front, kept) && !Keeps(last)
    ensures PlacesOf(places, front + [last], kept)
  {
    var nals := front + [last];
    assert |front| !in places;
    forall p | 0 <= p < |nals| ensures p in places <==> Keeps(nals[p]) {
      assert nals[p] == if p < |front| then front[p] else last;
    }
    assert forall i :: 0 <= i < |places| ==> nals[places[i]] == front[places[i]];
  }

  /** Of the units, all but empty ones, parameter sets and delimiters are kept, in their order. */
  lemma {:induction false} KeptInOrder(nals: seq<seq<Byte>>) returns (places: seq<nat>)
    ensures PlacesOf(places, nals, KeptNals(nals))
    decreases |nals|
  {
    places := [];
    if nals != [] {
      var front, last := nals[..|nals| - 1], nals[|nals| - 1];
      assert front + [last] == nals;
      places := KeptInOrder(front);
      if Kept(last) {
        PlaceAdded(places, front, last, KeptNals(front));
        places := places + [|front|];
      } else {
        PlacesStay(places, front, last, KeptNals(front));
        assert KeptNals(front) + [] == KeptNals(front);
      }
    }
  }

  method ScanNal(info: Info, ghost before: seq<seq<Byte>>, nal: seq<Byte>) returns (next: Info)
    requires Scanned(before, info)
    ensures Scanned(before + [nal], next)
  {
    next := info;
    ghost var nals := before + [nal];
    assert nals[..|before|] == before;
    assert forall kind: nat {:trigger SomeOfType(nals, kind)} ::
        SomeOfType(nals, kind) <==> SomeOfType(before, kind) || (nal != [] && NalType(nal) == kind) by {
      assert nal in nals && forall n :: n in before ==> n in nals;
    }
    if nal == [] {
      return;
    }
    var kind := NalType(nal);
    if kind == 7 {
      next := next.(sps := nal);
    } else if kind == 8 {
      next := next.(pps := nal);
    } else if kind == 5 {
      next := next.(hasIdr := true, hasSlice := true);
    } else if kind == 1 {
      next := next.(hasSlice := true);
    }
    if kind != 9 && kind != 7 && kind != 8 {
      next := next.(avccLength := next.avccLength + 4 + |nal|);
    }
  }

  method ScanAnnexB(data: seq<Byte>) returns (ok: bool, info: Info)
    ensures ok <==> |data| >= 4 && Split(data).Some?
    ensures ok ==> Scanned(Split(data).value, info)
    ensures ok ==> Latest(Split(data).value, 7, info.sps) && Latest(Split(data).value, 8, info.pps)
    ensures !ok ==> info == Info([], [], false, false, 0)
  {
    info := Info([], [], false, false, 0);
    if |data| < 4 {
      return false, info;
    }
    var nals;
    ok, nals := ForEachNal(data);
    if !ok {
      return;
    }
    for i := 0 to |nals|
      invariant Scanned(nals[..i], info)
    {
      info := ScanNal(info, nals[..i], nals[i]);
      assert nals[..i + 1] == nals[..i] + [nals[i]];
    }
    assert nals[..|nals|] == nals;
    LastOfTypeIsLatest(nals, 7);
    LastOfTypeIsLatest(nals, 8);
  }

  /** Every unit's length has a uint32 representation. */
  predicate Representable(nals: seq<seq<Byte>>) {
    forall n :: n in nals && Kept(n) ==> |n| <= UINT32_MAX
  }

  predicate Fits(nals: seq<seq<Byte>>, capacity: nat) {
    |Avcc(nals)| <= capacity && Representable(nals)
  }

  /** surf_write_avcc_nal over all units; `used` is 0 on overflow. */
  method WriteUnits(nals: seq<seq<Byte>>, output: array<Byte>) returns (overflow: bool, used: nat)
    modifies output
    ensures !overflow <==> Fits(nals, output.Length)
    ensures !overflow ==> used == |Avcc(nals)| <= output.Length
    ensures !overflow ==> output[..used] == Avcc(nals)
    ensures !overflow ==> forall k :: used <= k < output.Length ==> output[k] == old(output[k])
  {
    used := 0;
    for i := 0 to |nals|
      invariant used == |Avcc(nals[..i])| <= output.Length
      invariant output[..used] == Avcc(nals[..i])
      invariant forall k :: used <= k < output.Length ==> output[k] == old(output[k])
      invariant Representable(nals[..i])
    {
      var nal := nals[i];
      AvccSnoc(nals, i);
      if Kept(nal) {
        if |nal| > UINT32_MAX || 4 + |nal| > output.Length - used {
          AvccGrows(nals, i + 1);
          return true, used;
        }
        WriteUnit(output, used, nal);
        used := used + 4 + |nal|;
      }
    }
    assert nals[..|nals|] == nals;
    return false, used;
  }

  lemma AvccSnoc(nals: seq<seq<Byte>>, i: nat)
    requires i < |nals|
    ensures Avcc(nals[..i + 1]) == Avcc(nals[..i]) + (if Kept(nals[i]) then BigEndian(|nals[i]|) + nals[i] else [])
    ensures Representable(nals[..i + 1]) <==> Representable(nals[..i]) && (Kept(nals[i]) ==> |nals[i]| <= UINT32_MAX)
    ensures Representable(nals) ==> Representable(nals[..i + 1])
  {
    assert nals[..i + 1][..i] == nals[..i] && nals[..i + 1] == nals[..i] + [nals[i]];
  }

  /**
    * Writes the kept units behind their lengths. The result is the scan's
    * avccLength when everything fits and 0 otherwise.
    */
  method AnnexBToAvcc(data: seq<Byte>, output: array<Byte>) returns (used: nat)
    modifies output
    ensures |data| >= 4 && Split(data).Some? && Fits(Split(data).value, output.Length) ==>
              && used == |Avcc(Split(data).value)| <= output.Length
              && output[..used] == Avcc(Split(data).value)
              && forall k :: used <= k < output.Length ==> output[k] == old(output[k])
    ensures !(|data| >= 4 && Split(data).Some? && Fits(Split(data).value, output.Length)) ==> used == 0
  {
    if |data| < 4 {
      return 0;
    }
    var ok, nals := ForEachNal(data);
    if !ok {
      return 0;
    }
    var overflow;
    overflow, used := WriteUnits(nals, output);
    if overflow {
      return 0;
    }
  }

  lemma {:induction false} AvccGrows(nals: seq<seq<Byte>>, i: nat)
    requires i <= |nals|
    ensures |Avcc(nals[..i])| <= |Avcc(nals)|
    decreases |nals|
  {
    if i < |nals| {
      AvccGrows(nals[..|nals| - 1], i);
      assert nals[..|nals| - 1][..i] == nals[..i];
    } else {
      assert nals[..i] == nals;
    }
  }

  method WriteUnit(output: array<Byte>, used: nat, nal: seq<Byte>)
    requires used + 4 + |nal| <= output.Length
    modifies output
    ensures output[..used + 4 + |nal|] == old(output[..used]) + (BigEndian(|nal|) + nal)
    ensures forall k :: used + 4 + |nal| <= k < output.Length ==> output[k] == old(output[k])
  {
    var b := BigEndian(|nal|);
    output[used] := b[0];
    output[used + 1] := b[1];
    output[used + 2] := b[2];
    output[used + 3] := b[3];
    forall i | 0 <= i < |nal| {
      output[used + 4 + i] := nal[i];
    }
  }
}
