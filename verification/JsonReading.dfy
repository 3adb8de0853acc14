/**
  * What a string body says, as section 7 of RFC 8259 and section 3 of RFC 3629 have it:
  * a relation between the bytes of the body and the characters they spell, and that the
  * unescaper reads exactly that.
  */
module JsonReadings {
  import opened Options
  import opened Bytes
  import opened JsonGrammar
  import opened JsonParsers
  import opened Utf8
  import opened JsonStrings
  import opened JsonArenas
  import opened JsonTokenisers

  // ---- Characters and their bytes ---------------------------------------------------------------------

  predicate Two(a: int, b: int, code: int) {
    0xC0 <= a < 0xE0 && 0x80 <= b < 0xC0 && code == (a - 0xC0) * 64 + (b - 0x80)
  }

  predicate Three(a: int, b: int, c: int, code: int) {
    0xE0 <= a < 0xF0 && 0x80 <= b < 0xC0 && 0x80 <= c < 0xC0 && code == (a - 0xE0) * 4096 + (b - 0x80) * 64 + (c - 0x80)
  }

  predicate Four(a: int, b: int, c: int, d: int, code: int) {
    && 0xF0 <= a < 0xF8 && 0x80 <= b < 0xC0 && 0x80 <= c < 0xC0 && 0x80 <= d < 0xC0
    && code == (a - 0xF0) * 262144 + (b - 0x80) * 4096 + (c - 0x80) * 64 + (d - 0x80)
  }

  /** The table of section 3 of RFC 3629: these bytes are the character's encoding. */
  predicate Represents(bytes: seq<Byte>, code: nat) {
    && Scalar(code)
    && match |bytes|
       case 1 => code < 0x80 && bytes[0] == code
       case 2 => 0x80 <= code < 0x800 && Two(bytes[0], bytes[1], code)
       case 3 => 0x800 <= code < 0x10000 && Three(bytes[0], bytes[1], bytes[2], code)
       case 4 => 0x10000 <= code && Four(bytes[0], bytes[1], bytes[2], bytes[3], code)
       case _ => false
  }

  // ---- The ways to spell a character ------------------------------------------------------------------

  /** The eight short escapes: " \ / b f n r t. */
  predicate ShortFor(c: Byte, code: nat) {
    || (c == 0x22 && code == 0x22) || (c == 0x5C && code == 0x5C) || (c == 0x2F && code == 0x2F)
    || (c == 0x62 && code == 0x08) || (c == 0x66 && code == 0x0C) || (c == 0x6E && code == 0x0A)
    || (c == 0x72 && code == 0x0D) || (c == 0x74 && code == 0x09)
  }

  /** A hexadecimal digit, of either case. */
  predicate DigitFor(c: Byte, v: int) {
    (0 <= v <= 9 && c == 0x30 + v) || (10 <= v <= 15 && (c == 0x41 + (v - 10) || c == 0x61 + (v - 10)))
  }

  predicate DigitsFor(json: seq<Byte>, p: nat, a: int, b: int, c: int, d: int) {
    p + 6 <= |json| && DigitFor(json[p + 2], a) && DigitFor(json[p + 3], b) && DigitFor(json[p + 4], c) && DigitFor(json[p + 5], d)
  }

  /** A backslash, a u and four digits that make `u`. */
  ghost predicate UnitAt(json: seq<Byte>, p: nat, u: nat) {
    && p + 6 <= |json| && json[p] == 0x5C && json[p + 1] == 0x75
    && exists a, b, c, d :: DigitsFor(json, p, a, b, c, d) && u == a * 4096 + b * 256 + c * 16 + d
  }

  predicate SurrogatesFor(high: nat, low: nat, code: nat) {
    && 0xD800 <= high < 0xDC00 && 0xDC00 <= low < 0xE000
    && code == 0x10000 + (high - 0xD800) * 0x400 + (low - 0xDC00)
  }

  /** The `n` bytes at `p` are an escape for the character. */
  ghost predicate EscapeFor(json: seq<Byte>, p: nat, n: nat, code: nat) {
    && Scalar(code)
    && ((n == 2 && p + 2 <= |json| && json[p] == 0x5C && ShortFor(json[p + 1], code))
        || (n == 6 && UnitAt(json, p, code))
        || (n == 12 && exists high, low :: UnitAt(json, p, high) && UnitAt(json, p + 6, low) && SurrogatesFor(high, low, code)))
  }

  /** A character that may stand for itself. */
  predicate RawFor(json: seq<Byte>, p: nat, n: nat, code: nat) {
    p + n <= |json| && Represents(json[p..p + n], code) && code >= 0x20 && code != 0x22 && code != 0x5C
  }

  ghost predicate Spells(json: seq<Byte>, p: nat, n: nat, code: nat) {
    RawFor(json, p, n, code) || EscapeFor(json, p, n, code)
  }

  datatype Char = Char(width: nat, code: nat)

  /** The bytes from `p` to `end` spell these characters, one after the other. */
  ghost predicate Spelled(json: seq<Byte>, p: nat, end: nat, chars: seq<Char>)
    decreases |chars|
  {
    if chars == [] then p == end
    else
      && chars[0].width > 0 && p + chars[0].width <= end
      && Spells(json, p, chars[0].width, chars[0].code) && Spelled(json, p + chars[0].width, end, chars[1..])
  }

  /** The text is the encoding of these characters, one after the other. */
  ghost predicate Encodes(text: seq<Byte>, chars: seq<Char>)
    decreases |chars|
  {
    if chars == [] then text == []
    else exists k :: 1 <= k <= 4 && k <= |text| && Represents(text[..k], chars[0].code) && Encodes(text[k..], chars[1..])
  }

  // ---- What the code computes with -----------------------------------------------------------------

  lemma TwoExact(a: int, b: int, code: nat)
    requires 0x80 <= code < 0x800
    ensures Two(a, b, code) <==> a == 0xC0 + code / 64 && b == 0x80 + code % 64
  {
  }

  lemma ThreeExact(a: int, b: int, c: int, code: nat)
    requires 0x800 <= code < 0x10000
    ensures Three(a, b, c, code) <==> a == 0xE0 + code / 4096 && b == 0x80 + code / 64 % 64 && c == 0x80 + code % 64
  {
    assert code == (code / 4096) * 4096 + (code / 64 % 64) * 64 + code % 64;
  }

  lemma FourExact(a: int, b: int, c: int, d: int, code: nat)
    requires 0x10000 <= code <= 0x10FFFF
    ensures Four(a, b, c, d, code) <==>
              a == 0xF0 + code / 262144 && b == 0x80 + code / 4096 % 64 && c == 0x80 + code / 64 % 64 && d == 0x80 + code % 64
  {
    assert code == (code / 262144) * 262144 + (code / 4096 % 64) * 4096 + (code / 64 % 64) * 64 + code % 64;
  }

  lemma EncodeRepresents(code: nat, bytes: seq<Byte>)
    requires Scalar(code)
    ensures bytes == Encode(code) <==> Represents(bytes, code)
  {
    if |bytes| == 2 && 0x80 <= code < 0x800 {
      TwoExact(bytes[0], bytes[1], code);
    } else if |bytes| == 3 && 0x800 <= code < 0x10000 {
      ThreeExact(bytes[0], bytes[1], bytes[2], code);
    } else if |bytes| == 4 && 0x10000 <= code {
      FourExact(bytes[0], bytes[1], bytes[2], bytes[3], code);
    }
  }

  lemma HexExact(c: Byte, v: int)
    ensures DigitFor(c, v) <==> IsHex(c) && HexValue(c) == v
  {
  }

  lemma UnitExact(json: seq<Byte>, p: nat, u: nat)
    requires p + 6 <= |json| && json[p] == BACKSLASH && json[p + 1] == 117
    ensures UnitAt(json, p, u) <==> FourHexAt(json, p + 2) && Hex4(json, p + 2) == u
  {
    if UnitAt(json, p, u) {
      var a, b, c, d :| DigitsFor(json, p, a, b, c, d) && u == a * 4096 + b * 256 + c * 16 + d;
      HexExact(json[p + 2], a);
      HexExact(json[p + 3], b);
      HexExact(json[p + 4], c);
      HexExact(json[p + 5], d);
    }
    if FourHexAt(json, p + 2) {
      HexExact(json[p + 2], HexValue(json[p + 2]));
      HexExact(json[p + 3], HexValue(json[p + 3]));
      HexExact(json[p + 4], HexValue(json[p + 4]));
      HexExact(json[p + 5], HexValue(json[p + 5]));
      assert DigitsFor(json, p, HexValue(json[p + 2]), HexValue(json[p + 3]), HexValue(json[p + 4]), HexValue(json[p + 5]));
    }
  }

  /** An escape in an accepted body is read as the one character it is for, or refused when it is for none. */
  lemma UnicodeEscapeExact(json: seq<Byte>, p: nat, end: nat, n: nat, code: nat)
    requires p < end && Accepted(json, p, end) && json[p] == BACKSLASH && json[p + 1] == 117 && n <= end - p
    ensures EscapeFor(json, p, n, code) <==> Scalar(code) && NextPiece(json, p, end) == Piece(Encode(code), p + n)
  {
    var u := Hex4(json, p + 2);
    UnitExact(json, p, u);
    if EscapeFor(json, p, n, code) {
      if n == 6 {
        UnitExact(json, p, code);
      } else if n == 12 {
        var high, low :| UnitAt(json, p, high) && UnitAt(json, p + 6, low) && SurrogatesFor(high, low, code);
        UnitExact(json, p, high);
        UnitExact(json, p + 6, low);
      }
    } else if Scalar(code) && NextPiece(json, p, end) == Piece(Encode(code), p + n) {
      if n == 6 {
        EncodeIsInjective(u, code);
      } else {
        var low := Hex4(json, p + 8);
        UnitExact(json, p + 6, low);
        EncodeIsInjective(Paired(u, low), code);
        assert SurrogatesFor(u, low, code);
      }
    }
  }

  lemma EncodeIsInjective(a: nat, b: nat)
    requires Scalar(a) && Scalar(b) && Encode(a) == Encode(b)
    ensures a == b
  {
    EncodeRepresents(a, Encode(a));
    EncodeRepresents(b, Encode(b));
  }

  lemma ShortEscapeExact(json: seq<Byte>, p: nat, end: nat, n: nat, code: nat)
    requires p < end && Accepted(json, p, end) && json[p] == BACKSLASH && json[p + 1] != 117
    ensures EscapeFor(json, p, n, code) <==> Scalar(code) && NextPiece(json, p, end) == Piece(Encode(code), p + n)
  {
    if Scalar(code) && NextPiece(json, p, end) == Piece(Encode(code), p + n) {
      EncodeIsInjective(code, SimpleEscape(json[p + 1]).value);
    }
  }

  lemma EscapeExact(json: seq<Byte>, p: nat, end: nat, n: nat, code: nat)
    requires p < end && Accepted(json, p, end) && json[p] == BACKSLASH && n <= end - p
    ensures EscapeFor(json, p, n, code) <==> Scalar(code) && NextPiece(json, p, end) == Piece(Encode(code), p + n)
  {
    if json[p + 1] == 117 {
      UnicodeEscapeExact(json, p, end, n, code);
    } else {
      ShortEscapeExact(json, p, end, n, code);
    }
  }

  /** What an escape is read as is always a character. */
  lemma EscapeIsOfChar(json: seq<Byte>, p: nat, end: nat) returns (n: nat, code: nat)
    requires p < end && Accepted(json, p, end) && json[p] == BACKSLASH && NextPiece(json, p, end).Piece?
    ensures n <= end - p && Scalar(code) && NextPiece(json, p, end) == Piece(Encode(code), p + n) && EscapeFor(json, p, n, code)
  {
    NextPieceAccepted(json, p, end);
    n := NextPiece(json, p, end).next - p;
    if json[p + 1] != 117 {
      code := SimpleEscape(json[p + 1]).value;
    } else {
      code := Hex4(json, p + 2);
      if HighSurrogate(code) {
        code := Paired(code, Hex4(json, p + 8));
      }
    }
    EscapeExact(json, p, end, n, code);
  }

  // ---- Well-formed texts ----------------------------------------------------------------------------

  lemma {:induction false} WellFormedShift(s: seq<Byte>, a: nat, p: nat)
    requires a + p <= |s|
    ensures WellFormedFrom(s, a + p) <==> WellFormedFrom(s[a..], p)
    decreases |s| - (a + p)
  {
    forall w | 1 <= w <= 4 && a + p + w <= |s|
      ensures CharAt(s, a + p, w) == CharAt(s[a..], p, w)
      ensures WellFormedFrom(s, a + p + w) <==> WellFormedFrom(s[a..], p + w)
    {
      WellFormedShift(s, a, p + w);
    }
    if WellFormedFrom(s, a + p) && a + p < |s| {
      var w :| 1 <= w <= 4 && CharAt(s, a + p, w) && WellFormedFrom(s, a + p + w);
      assert CharAt(s[a..], p, w) && WellFormedFrom(s[a..], p + w);
    }
    if WellFormedFrom(s[a..], p) && a + p < |s| {
      var w :| 1 <= w <= 4 && CharAt(s[a..], p, w) && WellFormedFrom(s[a..], p + w);
      assert CharAt(s, a + p, w) && WellFormedFrom(s, a + p + w);
    }
  }

  lemma WellFormedHead(bytes: seq<Byte>, code: nat, rest: seq<Byte>)
    requires Represents(bytes, code)
    ensures WellFormed(bytes + rest) <==> WellFormed(rest)
  {
    var s := bytes + rest;
    EncodeRepresents(code, bytes);
    EncodeIsOneChar(code);
    assert s[..|bytes|] == bytes;
    assert CharAt(s, 0, |bytes|);
    WellFormedStep(s, 0, |bytes|);
    WellFormedShift(s, |bytes|, 0);
    assert s[|bytes|..] == rest;
  }

  /** Every character of the syntax is a scalar value's encoding. */
  lemma CharIsOfCode(s: seq<Byte>, w: nat) returns (code: nat)
    requires CharAt(s, 0, w)
    ensures Represents(s[..w], code) && (w > 1 ==> code >= 0x80)
  {
    if w == 1 {
      code := s[0];
    } else if w == 2 {
      code := (s[0] as int - 0xC0) * 64 + (s[1] as int - 0x80);
    } else if w == 3 {
      code := (s[0] as int - 0xE0) * 4096 + (s[1] as int - 0x80) * 64 + (s[2] as int - 0x80);
    } else {
      code := (s[0] as int - 0xF0) * 262144 + (s[1] as int - 0x80) * 4096 + (s[2] as int - 0x80) * 64 + (s[3] as int - 0x80);
    }
  }

  // ---- From the code's reading to characters ----------------------------------------------------

  lemma RawStep(json: seq<Byte>, p: nat, end: nat, text: seq<Byte>)
    requires p < end && Accepted(json, p, end) && json[p] != BACKSLASH && Unescape(json, p, end) == Some(text)
    ensures Accepted(json, p + 1, end) && text != [] && text[0] == json[p] >= 0x20 && json[p] != QUOTE
    ensures Unescape(json, p + 1, end) == Some(text[1..])
  {
    assert NextPiece(json, p, end) == Piece([json[p]], p + 1);
    assert text == [json[p]] + Unescape(json, p + 1, end).value;
  }

  lemma LeadIsNoTail(code: nat)
    requires Scalar(code)
    ensures !Tail(Encode(code)[0])
  {
  }

  /** A byte inside a character did not come from an escape. */
  lemma TailIsRaw(json: seq<Byte>, p: nat, end: nat, text: seq<Byte>)
    requires p <= end && Accepted(json, p, end) && Unescape(json, p, end) == Some(text) && text != [] && Tail(text[0])
    ensures p < end && json[p] != BACKSLASH
  {
    if json[p] == BACKSLASH {
      var n, code := EscapeIsOfChar(json, p, end);
      LeadIsNoTail(code);
    }
  }

  lemma {:induction false} RawRun(json: seq<Byte>, p: nat, end: nat, text: seq<Byte>, w: nat)
    requires p < end && Accepted(json, p, end) && json[p] != BACKSLASH && Unescape(json, p, end) == Some(text)
    requires 1 <= w <= |text| && forall i :: 1 <= i < w ==> Tail(text[i])
    ensures p + w <= end && json[p..p + w] == text[..w]
    ensures Accepted(json, p + w, end) && Unescape(json, p + w, end) == Some(text[w..])
    decreases w
  {
    RawStep(json, p, end, text);
    if w > 1 {
      TailIsRaw(json, p + 1, end, text[1..]);
      RawRun(json, p + 1, end, text[1..], w - 1);
      assert text[1..][w - 1..] == text[w..];
      assert json[p..p + w] == [json[p]] + json[p + 1..p + w] == [text[0]] + text[1..][..w - 1] == text[..w];
    }
  }

  lemma TailsOf(s: seq<Byte>, w: nat)
    requires CharAt(s, 0, w)
    ensures forall i :: 1 <= i < w ==> Tail(s[i])
  {
  }

  lemma EncodesFirst(bytes: seq<Byte>, rest: seq<Byte>, c: Char, chars: seq<Char>)
    requires Represents(bytes, c.code) && Encodes(rest, chars)
    ensures Encodes(bytes + rest, [c] + chars)
  {
    var text := bytes + rest;
    assert text[..|bytes|] == bytes && text[|bytes|..] == rest;
    assert ([c] + chars)[1..] == chars;
  }

  lemma SpelledFirst(json: seq<Byte>, p: nat, end: nat, c: Char, chars: seq<Char>)
    requires c.width > 0 && p + c.width <= end && Spells(json, p, c.width, c.code) && Spelled(json, p + c.width, end, chars)
    ensures Spelled(json, p, end, [c] + chars)
  {
    assert ([c] + chars)[1..] == chars;
  }

  lemma FirstEscape(json: seq<Byte>, p: nat, end: nat, text: seq<Byte>) returns (c: Char, k: nat)
    requires p < end && Accepted(json, p, end) && Unescape(json, p, end) == Some(text) && WellFormed(text) && json[p] == BACKSLASH
    ensures c.width > 0 && p + c.width <= end && Spells(json, p, c.width, c.code) && Accepted(json, p + c.width, end)
    ensures k <= |text| && Represents(text[..k], c.code) && Unescape(json, p + c.width, end) == Some(text[k..]) && WellFormed(text[k..])
  {
    var n, code := EscapeIsOfChar(json, p, end);
    c, k := Char(n, code), |Encode(code)|;
    NextPieceAccepted(json, p, end);
    var rest := Unescape(json, p + n, end).value;
    assert text == Encode(code) + rest && text[..k] == Encode(code) && text[k..] == rest;
    EncodeRepresents(code, Encode(code));
    WellFormedHead(Encode(code), code, rest);
  }

  lemma FirstRaw(json: seq<Byte>, p: nat, end: nat, text: seq<Byte>) returns (c: Char, k: nat)
    requires p < end && Accepted(json, p, end) && Unescape(json, p, end) == Some(text) && WellFormed(text) && json[p] != BACKSLASH
    ensures c.width > 0 && p + c.width <= end && Spells(json, p, c.width, c.code) && Accepted(json, p + c.width, end)
    ensures k <= |text| && Represents(text[..k], c.code) && Unescape(json, p + c.width, end) == Some(text[k..]) && WellFormed(text[k..])
  {
    RawStep(json, p, end, text);
    var w :| 1 <= w <= 4 && CharAt(text, 0, w) && WellFormedFrom(text, w);
    TailsOf(text, w);
    RawRun(json, p, end, text, w);
    var code := CharIsOfCode(text, w);
    WellFormedShift(text, w, 0);
    c, k := Char(w, code), w;
  }

  lemma FirstChar(json: seq<Byte>, p: nat, end: nat, text: seq<Byte>) returns (c: Char, k: nat)
    requires p < end && Accepted(json, p, end) && Unescape(json, p, end) == Some(text) && WellFormed(text)
    ensures c.width > 0 && p + c.width <= end && Spells(json, p, c.width, c.code) && Accepted(json, p + c.width, end)
    ensures k <= |text| && Represents(text[..k], c.code) && Unescape(json, p + c.width, end) == Some(text[k..]) && WellFormed(text[k..])
  {
    if json[p] == BACKSLASH {
      c, k := FirstEscape(json, p, end, text);
    } else {
      c, k := FirstRaw(json, p, end, text);
    }
  }

  lemma FirstAndRest(json: seq<Byte>, p: nat, end: nat, text: seq<Byte>, k: nat, c: Char, rest: seq<Char>)
    requires c.width > 0 && p + c.width <= end && Spells(json, p, c.width, c.code) && Spelled(json, p + c.width, end, rest)
    requires k <= |text| && Represents(text[..k], c.code) && Encodes(text[k..], rest)
    ensures Spelled(json, p, end, [c] + rest) && Encodes(text, [c] + rest)
  {
    EncodesFirst(text[..k], text[k..], c, rest);
    assert text == text[..k] + text[k..];
    SpelledFirst(json, p, end, c, rest);
  }

  lemma {:induction false} ReadsChars(json: seq<Byte>, p: nat, end: nat, text: seq<Byte>) returns (chars: seq<Char>)
    requires p <= end && Accepted(json, p, end) && Unescape(json, p, end) == Some(text) && WellFormed(text)
    ensures Spelled(json, p, end, chars) && Encodes(text, chars)
    decreases end - p
  {
    if p == end {
      chars := [];
    } else {
      var c, k := FirstChar(json, p, end, text);
      var rest := ReadsChars(json, p + c.width, end, text[k..]);
      FirstAndRest(json, p, end, text, k, c, rest);
      chars := [c] + rest;
    }
  }

  // ---- And back ----------------------------------------------------------------------------------------

  predicate Plain(c: Byte) {
    c >= 0x20 && c != QUOTE && c != BACKSLASH
  }

  lemma {:induction false} RawReads(json: seq<Byte>, p: nat, end: nat, n: nat, rest: seq<Byte>)
    requires p + n <= end && Accepted(json, p + n, end) && Unescape(json, p + n, end) == Some(rest)
    requires forall i :: p <= i < p + n ==> Plain(json[i])
    ensures Accepted(json, p, end) && Unescape(json, p, end) == Some(json[p..p + n] + rest)
    decreases n
  {
    if n == 0 {
      assert json[p..p + n] + rest == rest;
    } else {
      RawReads(json, p + 1, end, n - 1, rest);
      assert Plain(json[p]);
      assert NextPiece(json, p, end) == Piece([json[p]], p + 1);
      assert [json[p]] + (json[p + 1..p + n] + rest) == json[p..p + n] + rest;
    }
  }

  lemma RepresentsHigh(bytes: seq<Byte>, code: nat)
    requires Represents(bytes, code) && |bytes| > 1
    ensures forall i :: 0 <= i < |bytes| ==> bytes[i] >= 0x80
  {
  }

  lemma EscapeAccepted(json: seq<Byte>, p: nat, end: nat, n: nat, code: nat)
    requires EscapeFor(json, p, n, code) && Accepted(json, p + n, end) && p + n <= end
    ensures Accepted(json, p, end) && json[p] == BACKSLASH
  {
    if n == 6 {
      UnitExact(json, p, code);
    } else if n == 12 {
      var high, low :| UnitAt(json, p, high) && UnitAt(json, p + 6, low) && SurrogatesFor(high, low, code);
      UnitExact(json, p, high);
      UnitExact(json, p + 6, low);
      assert BodyEnd(json, p + 6) == Some(end);
    }
  }

  lemma CharReads(json: seq<Byte>, p: nat, end: nat, c: Char, rest: seq<Byte>) returns (bytes: seq<Byte>)
    requires c.width > 0 && p + c.width <= end && Spells(json, p, c.width, c.code)
    requires Accepted(json, p + c.width, end) && Unescape(json, p + c.width, end) == Some(rest)
    ensures Represents(bytes, c.code) && Accepted(json, p, end) && Unescape(json, p, end) == Some(bytes + rest)
  {
    if RawFor(json, p, c.width, c.code) {
      bytes := json[p..p + c.width];
      if c.width > 1 {
        RepresentsHigh(bytes, c.code);
      }
      forall i | p <= i < p + c.width ensures Plain(json[i]) {
        assert json[i] == bytes[i - p];
      }
      RawReads(json, p, end, c.width, rest);
    } else {
      EscapeAccepted(json, p, end, c.width, c.code);
      EscapeExact(json, p, end, c.width, c.code);
      bytes := Encode(c.code);
      EncodeRepresents(c.code, bytes);
    }
  }

  /** A body that spells characters is accepted and read as their encoding. */
  lemma {:induction false} SpelledReads(json: seq<Byte>, p: nat, end: nat, chars: seq<Char>) returns (text: seq<Byte>)
    requires Spelled(json, p, end, chars) && ByteAt(json, end, QUOTE)
    ensures p <= end && Accepted(json, p, end) && Unescape(json, p, end) == Some(text) && Encodes(text, chars) && WellFormed(text)
    decreases |chars|
  {
    if chars == [] {
      text := [];
    } else {
      var c := chars[0];
      var rest := SpelledReads(json, p + c.width, end, chars[1..]);
      var bytes := CharReads(json, p, end, c, rest);
      text := bytes + rest;
      EncodesFirst(bytes, rest, c, chars[1..]);
      assert [c] + chars[1..] == chars;
      WellFormedHead(bytes, c.code, rest);
    }
  }

  // ---- The theorems --------------------------------------------------------------------------------

  ghost predicate Readable(json: seq<Byte>, p: nat, end: nat) {
    exists chars :: Spelled(json, p, end, chars)
  }

  /**
    * A body that the tokeniser accepted is unescaped to a well-formed text exactly when it spells
    * characters.
    */
  lemma ReadingExact(json: seq<Byte>, p: nat, end: nat)
    requires p <= end && Accepted(json, p, end)
    ensures Readable(json, p, end) <==> Unescape(json, p, end).Some? && WellFormed(Unescape(json, p, end).value)
  {
    if Unescape(json, p, end).Some? && WellFormed(Unescape(json, p, end).value) {
      var chars := ReadsChars(json, p, end, Unescape(json, p, end).value);
    }
    if Readable(json, p, end) {
      var chars :| Spelled(json, p, end, chars);
      BodyEndsAtQuote(json, p, end);
      var text := SpelledReads(json, p, end, chars);
    }
  }

  lemma {:induction false} BodyEndsAtQuote(json: seq<Byte>, p: nat, end: nat)
    requires Accepted(json, p, end)
    ensures ByteAt(json, end, QUOTE)
    decreases |json| - p
  {
    if json[p] == QUOTE {
    } else if json[p] != BACKSLASH {
      BodyEndsAtQuote(json, p + 1, end);
    } else if json[p + 1] == 117 {
      BodyEndsAtQuote(json, p + 6, end);
    } else {
      BodyEndsAtQuote(json, p + 2, end);
    }
  }

  /**
    * In an arena of at least four bytes: the string is taken exactly when its body spells characters
    * and their encoding fits, and then that encoding is what the arena gets.
    */
  lemma TakenIffReadable(json: seq<Byte>, p: nat, end: nat, used: nat, capacity: nat)
    requires p <= end && Accepted(json, p, end) && 4 <= capacity < SIZE_MODULUS && used <= capacity
    ensures var f := Fill(json, p, end, used, capacity);
            && (f.status == Okay && WellFormed(f.bytes) <==> ReadableWithin(json, p, end, capacity - used))
            && forall chars, text :: Spelled(json, p, end, chars) && Encodes(text, chars) && |text| <= capacity - used ==> f.bytes == text
  {
    var f := Fill(json, p, end, used, capacity);
    ArenaExact(json, p, end, used, capacity);
    FillUnescapes(json, p, end, used, capacity);
    if f.status == Okay && WellFormed(f.bytes) {
      var chars := ReadsChars(json, p, end, f.bytes);
    }
    forall chars, text | Spelled(json, p, end, chars) && Encodes(text, chars) && |text| <= capacity - used
      ensures f.status == Okay && WellFormed(f.bytes) && f.bytes == text
    {
      BodyEndsAtQuote(json, p, end);
      var read := SpelledReads(json, p, end, chars);
      EncodingUnique(read, text, chars);
    }
  }

  ghost predicate ReadableWithin(json: seq<Byte>, p: nat, end: nat, room: nat) {
    exists chars, text :: Spelled(json, p, end, chars) && Encodes(text, chars) && |text| <= room
  }

  lemma SameEncoding(code: nat, a: seq<Byte>, b: seq<Byte>)
    requires Represents(a, code) && Represents(b, code)
    ensures a == b
  {
    EncodeRepresents(code, a);
    EncodeRepresents(code, b);
  }

  lemma EncodesSplit(text: seq<Byte>, chars: seq<Char>) returns (k: nat)
    requires chars != [] && Encodes(text, chars)
    ensures 1 <= k <= |text| && Represents(text[..k], chars[0].code) && Encodes(text[k..], chars[1..]) && text == text[..k] + text[k..]
  {
    k :| 1 <= k <= 4 && k <= |text| && Represents(text[..k], chars[0].code) && Encodes(text[k..], chars[1..]);
  }

  lemma {:induction false} EncodingUnique(a: seq<Byte>, b: seq<Byte>, chars: seq<Char>)
    requires Encodes(a, chars) && Encodes(b, chars)
    ensures a == b
    decreases |chars|
  {
    if chars != [] {
      var k := EncodesSplit(a, chars);
      var l := EncodesSplit(b, chars);
      SameEncoding(chars[0].code, a[..k], b[..l]);
      EncodingUnique(a[k..], b[l..], chars[1..]);
    }
  }
}
