/** The string unescaper and the escaping writer, as functions, and that one undoes the other. */
module JsonStrings {
  import opened Options
  import opened Bytes
  import opened JsonGrammar
  import opened JsonParsers
  import opened Utf8

  // ---- Unescaping -------------------------------------------------------------------------

  /** surf_json_hex on a hexadecimal digit. */
  function HexValue(c: Byte): (v: nat)
    requires IsHex(c)
    ensures v < 16
  {
    if IsDigit(c) then c - 48 else if c >= 97 then c - 87 else c - 55
  }

  function Hex4(json: seq<Byte>, p: nat): (v: nat)
    requires FourHexAt(json, p)
    ensures v < 0x10000
  {
    HexValue(json[p]) * 4096 + HexValue(json[p + 1]) * 256 + HexValue(json[p + 2]) * 16 + HexValue(json[p + 3])
  }

  predicate HighSurrogate(u: nat) {
    0xD800 <= u <= 0xDBFF
  }

  predicate LowSurrogate(u: nat) {
    0xDC00 <= u <= 0xDFFF
  }

  /** Section 7 of RFC 8259: a character outside the Basic Multilingual Plane is written as a surrogate pair. */
  function Paired(high: nat, low: nat): (code: nat)
    requires HighSurrogate(high) && LowSurrogate(low)
    ensures 0x10000 <= code <= 0x10FFFF
  {
    0x10000 + (high - 0xD800) * 0x400 + (low - 0xDC00)
  }

  function SimpleEscape(c: Byte): Option<Byte> {
    if c == QUOTE || c == BACKSLASH || c == SLASH then Some(c)
    else if c == 98 then Some(8)
    else if c == 102 then Some(12)
    else if c == 110 then Some(10)
    else if c == 114 then Some(13)
    else if c == 116 then Some(9)
    else None
  }

  /** One turn of the loop: the bytes it appends and where it goes on. */
  datatype Piece = Piece(bytes: seq<Byte>, next: nat) | Malformed

  function UnicodeEscape(json: seq<Byte>, p: nat, end: nat): (r: Piece)
    requires end <= |json| && FourHexAt(json, p + 2) && p + 6 <= end
    ensures r.Piece? ==> p < r.next && 1 <= |r.bytes| <= 4
  {
    var code := Hex4(json, p + 2);
    if HighSurrogate(code) then
      if p + 12 <= end && json[p + 6] == BACKSLASH && json[p + 7] == 117 && FourHexAt(json, p + 8)
         && LowSurrogate(Hex4(json, p + 8))
      then Piece(Encode(Paired(code, Hex4(json, p + 8))), p + 12)
      else Malformed
    else if LowSurrogate(code) then Malformed
    else Piece(Encode(code), p + 6)
  }

  /** The text from `p` to `end` is a string body the tokeniser has accepted. */
  predicate Accepted(json: seq<Byte>, p: nat, end: nat) {
    p <= |json| && BodyEnd(json, p) == Some(end)
  }

  function NextPiece(json: seq<Byte>, p: nat, end: nat): (r: Piece)
    requires p < end && Accepted(json, p, end)
    ensures r.Piece? ==> p < r.next && 1 <= |r.bytes| <= 4
  {
    if json[p] != BACKSLASH then Piece([json[p]], p + 1)
    else if json[p + 1] == 117 then UnicodeEscape(json, p, end)
    else
      var c := SimpleEscape(json[p + 1]);
      if c.Some? then Piece([c.value], p + 2) else Malformed
  }

  /** After a piece the rest is again accepted, up to the same quote. */
  lemma NextPieceAccepted(json: seq<Byte>, p: nat, end: nat)
    requires p < end && Accepted(json, p, end)
    ensures var r := NextPiece(json, p, end); r.Piece? ==> r.next <= end && Accepted(json, r.next, end)
  {
    if json[p] == BACKSLASH && json[p + 1] == 117 {
      assert BodyEnd(json, p + 6) == Some(end);
      if HighSurrogate(Hex4(json, p + 2)) && p + 12 <= end && json[p + 6] == BACKSLASH && json[p + 7] == 117 {
        assert FourHexAt(json, p + 8);
      }
    }
  }

  function Unescape(json: seq<Byte>, p: nat, end: nat): (r: Option<seq<Byte>>)
    requires Accepted(json, p, end)
    decreases end - p
  {
    if p >= end then Some([])
    else
      NextPieceAccepted(json, p, end);
      var piece := NextPiece(json, p, end);
      if piece == Malformed then None
      else
        var rest := Unescape(json, piece.next, end);
        if rest.None? then None else Some(piece.bytes + rest.value)
  }

  // ---- Escaping -----------------------------------------------------------------------------

  function HexDigit(n: nat): (c: Byte)
    requires n < 16
    ensures IsHex(c) && HexValue(c) == n
  {
    if n < 10 then 48 + n else 87 + n
  }

  /** surf_write_string: what it writes for one byte. */
  function EscapeByte(c: Byte): (r: seq<Byte>)
    ensures r != []
  {
    if c == QUOTE then [BACKSLASH, QUOTE]
    else if c == BACKSLASH then [BACKSLASH, BACKSLASH]
    else if c == 8 then [BACKSLASH, 98]
    else if c == 12 then [BACKSLASH, 102]
    else if c == 10 then [BACKSLASH, 110]
    else if c == 13 then [BACKSLASH, 114]
    else if c == 9 then [BACKSLASH, 116]
    else if c < 32 then [BACKSLASH, 117, 48, 48, HexDigit(c / 16), HexDigit(c % 16)]
    else [c]
  }

  function EscapeFrom(s: seq<Byte>, i: nat): seq<Byte>
    requires i <= |s|
    decreases |s| - i
  {
    if i == |s| then [] else EscapeByte(s[i]) + EscapeFrom(s, i + 1)
  }

  /** The string as the writer puts it, quotes included. */
  function Quoted(s: seq<Byte>): seq<Byte> {
    [QUOTE] + EscapeFrom(s, 0) + [QUOTE]
  }

  // ---- The round trip -----------------------------------------------------------------------

  predicate TextAt(json: seq<Byte>, p: nat, t: seq<Byte>) {
    p + |t| <= |json| && forall k :: 0 <= k < |t| ==> json[p + k] == t[k]
  }

  lemma TextAtSplit(json: seq<Byte>, p: nat, a: seq<Byte>, b: seq<Byte>)
    requires TextAt(json, p, a + b)
    ensures TextAt(json, p, a) && TextAt(json, p + |a|, b)
  {
    forall k | 0 <= k < |a| ensures json[p + k] == a[k] {
      assert (a + b)[k] == a[k];
    }
    forall k | 0 <= k < |b| ensures json[p + |a| + k] == b[k] {
      assert json[p + (|a| + k)] == (a + b)[|a| + k];
    }
  }

  /** The tokeniser steps over an escaped byte, and the unescaper gives the byte back. */
  lemma EscapedByteRead(json: seq<Byte>, p: nat, c: Byte, end: nat)
    requires TextAt(json, p, EscapeByte(c)) && Accepted(json, p + |EscapeByte(c)|, end)
    ensures p < end && Accepted(json, p, end) && NextPiece(json, p, end) == Piece([c], p + |EscapeByte(c)|)
  {
    var t := EscapeByte(c);
    assert json[p + 0] == t[0];
    if |t| > 1 {
      assert json[p + 1] == t[1];
    }
    if |t| > 2 {
      assert json[p + 2] == t[2] && json[p + 3] == t[3] && json[p + 4] == t[4] && json[p + 5] == t[5];
    }
  }

  lemma UnescapeStep(json: seq<Byte>, p: nat, end: nat, c: Byte, next: nat, rest: seq<Byte>)
    requires p < end && Accepted(json, p, end) && NextPiece(json, p, end) == Piece([c], next)
    requires Accepted(json, next, end) && Unescape(json, next, end) == Some(rest)
    ensures Unescape(json, p, end) == Some([c] + rest)
  {
  }

  lemma EscapedHeadRead(json: seq<Byte>, p: nat, c: Byte, next: nat, end: nat, rest: seq<Byte>)
    requires TextAt(json, p, EscapeByte(c)) && next == p + |EscapeByte(c)|
    requires Accepted(json, next, end) && Unescape(json, next, end) == Some(rest)
    ensures Accepted(json, p, end) && Unescape(json, p, end) == Some([c] + rest)
  {
    EscapedByteRead(json, p, c, end);
    UnescapeStep(json, p, end, c, next, rest);
  }

  lemma EscapeFromStep(json: seq<Byte>, p: nat, s: seq<Byte>, i: nat) returns (next: nat)
    requires i < |s| && TextAt(json, p, EscapeFrom(s, i))
    ensures next == p + |EscapeByte(s[i])| && next + |EscapeFrom(s, i + 1)| == p + |EscapeFrom(s, i)|
    ensures TextAt(json, p, EscapeByte(s[i])) && TextAt(json, next, EscapeFrom(s, i + 1))
  {
    next := p + |EscapeByte(s[i])|;
    TextAtSplit(json, p, EscapeByte(s[i]), EscapeFrom(s, i + 1));
  }

  lemma FirstThenRest(s: seq<Byte>, i: nat)
    requires i < |s|
    ensures [s[i]] + s[i + 1..] == s[i..]
  {
  }

  lemma {:induction false} EscapedRead(json: seq<Byte>, p: nat, s: seq<Byte>, i: nat, end: nat)
    requires i <= |s| && TextAt(json, p, EscapeFrom(s, i)) && end == p + |EscapeFrom(s, i)| && ByteAt(json, end, QUOTE)
    ensures Accepted(json, p, end) && Unescape(json, p, end) == Some(s[i..])
    decreases |s| - i
  {
    if i < |s| {
      var next := EscapeFromStep(json, p, s, i);
      EscapedRead(json, next, s, i + 1, end);
      EscapedHeadRead(json, p, s[i], next, end, s[i + 1..]);
      FirstThenRest(s, i);
    } else {
      assert s[i..] == [];
    }
  }

  /**
    * A written string, wherever it stands in a text, is tokenised as one string,
    * and its body unescapes to the bytes that were written.
    */
  lemma WriteThenRead(json: seq<Byte>, p: nat, s: seq<Byte>, count: nat, cap: nat)
    requires TextAt(json, p, Quoted(s)) && count < cap
    ensures var end := p + |Quoted(s)|;
            && ParseString(json, p, count, cap) == Ok(Str(p, end), end, count + 1)
            && Accepted(json, p + 1, end - 1) && Unescape(json, p + 1, end - 1) == Some(s)
  {
    var body := EscapeFrom(s, 0);
    var quote := [QUOTE];
    TextAtSplit(json, p, quote + body, quote);
    TextAtSplit(json, p, quote, body);
    assert json[p + 0] == quote[0];
    assert json[p + |quote + body| + 0] == quote[0];
    EscapedRead(json, p + 1, s, 0, p + 1 + |body|);
    assert s[0..] == s;
  }

  /** The escape of a character outside the Basic Multilingual Plane gives that character's encoding. */
  lemma PairRead(json: seq<Byte>, p: nat, end: nat, code: nat)
    requires 0x10000 <= code <= 0x10FFFF && Accepted(json, p, end) && p + 12 <= end
    requires json[p] == BACKSLASH && json[p + 1] == 117 && json[p + 6] == BACKSLASH && json[p + 7] == 117
    requires FourHexAt(json, p + 2) && Hex4(json, p + 2) == 0xD800 + (code - 0x10000) / 0x400
    requires FourHexAt(json, p + 8) && Hex4(json, p + 8) == 0xDC00 + (code - 0x10000) % 0x400
    ensures NextPiece(json, p, end) == Piece(Encode(code), p + 12)
  {
  }
}
