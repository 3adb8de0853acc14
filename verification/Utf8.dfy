/** UTF-8: the syntax of section 4 of RFC 3629, and the encoder and the check the client uses. */
module Utf8 {
  import opened Bytes

  // ---- The syntax, as the RFC lists it --------------------------------------------------

  predicate In(b: Byte, lo: int, hi: int) {
    lo <= b <= hi
  }

  predicate Tail(b: Byte) {
    In(b, 0x80, 0xBF)
  }

  predicate Char1(a: Byte) {
    In(a, 0x00, 0x7F)
  }

  predicate Char2(a: Byte, b: Byte) {
    In(a, 0xC2, 0xDF) && Tail(b)
  }

  predicate Char3(a: Byte, b: Byte, c: Byte) {
    || (a == 0xE0 && In(b, 0xA0, 0xBF) && Tail(c))
    || (In(a, 0xE1, 0xEC) && Tail(b) && Tail(c))
    || (a == 0xED && In(b, 0x80, 0x9F) && Tail(c))
    || (In(a, 0xEE, 0xEF) && Tail(b) && Tail(c))
  }

  predicate Char4(a: Byte, b: Byte, c: Byte, d: Byte) {
    || (a == 0xF0 && In(b, 0x90, 0xBF) && Tail(c) && Tail(d))
    || (In(a, 0xF1, 0xF3) && Tail(b) && Tail(c) && Tail(d))
    || (a == 0xF4 && In(b, 0x80, 0x8F) && Tail(c) && Tail(d))
  }

  /** The `w` bytes at `p` are one character. */
  predicate CharAt(s: seq<Byte>, p: nat, w: nat) {
    && p + w <= |s|
    && match w
       case 1 => Char1(s[p])
       case 2 => Char2(s[p], s[p + 1])
       case 3 => Char3(s[p], s[p + 1], s[p + 2])
       case 4 => Char4(s[p], s[p + 1], s[p + 2], s[p + 3])
       case _ => false
  }

  /** From `p` on the text is a sequence of characters. */
  predicate WellFormedFrom(s: seq<Byte>, p: nat)
    requires p <= |s|
    decreases |s| - p
  {
    p == |s| || exists w :: 1 <= w <= 4 && CharAt(s, p, w) && WellFormedFrom(s, p + w)
  }

  predicate WellFormed(s: seq<Byte>) {
    WellFormedFrom(s, 0)
  }

  lemma CharWidthUnique(s: seq<Byte>, p: nat, w: nat, w': nat)
    requires CharAt(s, p, w) && CharAt(s, p, w')
    ensures w == w'
  {
  }

  lemma WellFormedStep(s: seq<Byte>, p: nat, w: nat)
    requires CharAt(s, p, w)
    ensures WellFormedFrom(s, p) <==> WellFormedFrom(s, p + w)
  {
    if WellFormedFrom(s, p) {
      var w' :| 1 <= w' <= 4 && CharAt(s, p, w') && WellFormedFrom(s, p + w');
      CharWidthUnique(s, p, w, w');
    }
  }

  // ---- The encoder ------------------------------------------------------------------------

  /** Unicode scalar values: every code point but the surrogates. */
  predicate Scalar(code: nat) {
    code <= 0x10FFFF && !(0xD800 <= code <= 0xDFFF)
  }

  /** surf_string_append_utf8: what it appends; shifts and masks as division and remainder. */
  function Encode(code: nat): (s: seq<Byte>)
    requires code < 0x200000
    ensures 1 <= |s| <= 4
  {
    if code <= 0x7F then [code]
    else if code <= 0x7FF then [0xC0 + code / 64, 0x80 + code % 64]
    else if code <= 0xFFFF then [0xE0 + code / 4096, 0x80 + code / 64 % 64, 0x80 + code % 64]
    else [0xF0 + code / 262144, 0x80 + code / 4096 % 64, 0x80 + code / 64 % 64, 0x80 + code % 64]
  }

  /** Every scalar value is encoded as exactly one character of the syntax, and a surrogate as none. */
  lemma EncodeIsOneChar(code: nat)
    requires code < 0x200000
    ensures CharAt(Encode(code), 0, |Encode(code)|) <==> Scalar(code)
  {
  }

  // ---- The check --------------------------------------------------------------------------

  datatype Lead = Bad | Lead(width: nat, bits: nat)

  /** What the first byte of a character announces; masks as division and remainder. */
  function LeadOf(b: Byte): Lead {
    if b < 0x80 then Lead(1, b)
    else if b / 32 == 6 then (if b % 32 < 2 then Bad else Lead(2, b % 32))
    else if b / 16 == 14 then Lead(3, b % 16)
    else if b / 8 == 30 then Lead(4, b % 8)
    else Bad
  }

  predicate Overlong(width: nat, code: nat) {
    (width == 3 && code < 0x800) || (width == 4 && code < 0x10000)
  }

  /** One turn of the loop: how far the cursor moves, or 0 when the text is refused. */
  method CheckChar(s: seq<Byte>, p: nat) returns (width: nat)
    requires p < |s|
    ensures width > 0 ==> CharAt(s, p, width)
    ensures width == 0 ==> forall w :: 1 <= w <= 4 ==> !CharAt(s, p, w)
  {
    var lead := LeadOf(s[p]);
    if lead == Bad || lead.width > |s| - p {
      return 0;
    }
    if lead.width == 1 {
      return 1;
    }
    var code: nat := lead.bits;
    for offset := 1 to lead.width
      invariant forall k :: p + 1 <= k < p + offset ==> Tail(s[k])
      invariant code == Bits(s, p, lead.bits, offset)
    {
      if s[p + offset] / 64 != 2 {
        assert !Tail(s[p + offset]);
        return 0;
      }
      code := code * 64 + s[p + offset] % 64;
    }
    CodeRange(s, p, lead.width);
    if Overlong(lead.width, code) || !Scalar(code) {
      return 0;
    }
    return lead.width;
  }

  /** The bits of a character's first `n` bytes, six from each after the first. */
  function Bits(s: seq<Byte>, p: nat, first: nat, n: nat): nat
    requires 1 <= n && p + n <= |s|
  {
    if n == 1 then first else Bits(s, p, first, n - 1) * 64 + s[p + n - 1] % 64
  }

  /** The range checks on the assembled code say what the syntax says of the bytes. */
  lemma CodeRange(s: seq<Byte>, p: nat, width: nat)
    requires 2 <= width <= 4 && p + width <= |s| && LeadOf(s[p]).Lead? && LeadOf(s[p]).width == width
    requires forall k :: p + 1 <= k < p + width ==> Tail(s[k])
    ensures var code := Bits(s, p, LeadOf(s[p]).bits, width);
            CharAt(s, p, width) <==> !Overlong(width, code) && Scalar(code)
  {
    var bits := LeadOf(s[p]).bits;
    assert Tail(s[p + 1]);
    if width == 2 {
      assert Bits(s, p, bits, 2) == bits * 64 + s[p + 1] % 64;
    } else if width == 3 {
      assert Tail(s[p + 2]);
      assert Bits(s, p, bits, 3) == (bits * 64 + s[p + 1] % 64) * 64 + s[p + 2] % 64;
    } else {
      assert Tail(s[p + 2]) && Tail(s[p + 3]);
      assert Bits(s, p, bits, 4) == ((bits * 64 + s[p + 1] % 64) * 64 + s[p + 2] % 64) * 64 + s[p + 3] % 64;
    }
  }

  /** The check at the end of surf_token_string accepts exactly the syntax. */
  method CheckUtf8(s: seq<Byte>) returns (ok: bool)
    ensures ok <==> WellFormed(s)
  {
    var cursor := 0;
    while cursor < |s|
      invariant cursor <= |s|
      invariant WellFormed(s) <==> WellFormedFrom(s, cursor)
    {
      var width := CheckChar(s, cursor);
      if width == 0 {
        return false;
      }
      WellFormedStep(s, cursor, width);
      cursor := cursor + width;
    }
    return true;
  }
}
