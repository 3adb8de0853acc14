/**
  * The arena strings are unescaped into. Its room is checked in size_t arithmetic,
  * which wraps: `written` is what has been put there from its first byte on, and may
  * run past its end.
  */
module JsonArenas {
  import opened Options
  import opened Bytes
  import opened JsonGrammar
  import opened JsonParsers
  import opened JsonTokenisers
  import opened JsonStrings
  import opened Utf8

  const SIZE_MODULUS: nat := 0x1_0000_0000_0000_0000

  /** Subtraction of size_t values. */
  function Minus(a: nat, b: nat): nat {
    (a - b) % SIZE_MODULUS
  }

  predicate IsUnicode(json: seq<Byte>, p: nat) {
    ByteAt(json, p, BACKSLASH) && ByteAt(json, p + 1, 117)
  }

  /** The check before `n` bytes are written: surf_string_append_utf8 for a \u escape, a comparison for any other piece. */
  predicate LetsWrite(unicode: bool, n: nat, used: nat, capacity: nat) {
    if unicode then !(used > Minus(capacity, n)) else used < capacity
  }

  /** What has been written when the loop ends, and why it ended. */
  datatype Filled = Filled(bytes: seq<Byte>, status: Status)

  /** The loop of surf_token_string from position `p` on. */
  function Fill(json: seq<Byte>, p: nat, end: nat, used: nat, capacity: nat): Filled
    requires Accepted(json, p, end)
    decreases end - p
  {
    if p >= end then Filled([], Okay)
    else
      NextPieceAccepted(json, p, end);
      var piece := NextPiece(json, p, end);
      if piece == Malformed then Filled([], ErrorJson)
      else if !LetsWrite(IsUnicode(json, p), |piece.bytes|, used, capacity) then Filled([], ErrorLimit)
      else
        var rest := Fill(json, piece.next, end, used + |piece.bytes|, capacity);
        Filled(piece.bytes + rest.bytes, rest.status)
  }

  /** Every write is inside the arena. */
  predicate Inside(json: seq<Byte>, p: nat, end: nat, used: nat, capacity: nat)
    requires Accepted(json, p, end)
  {
    used + |Fill(json, p, end, used, capacity).bytes| <= capacity
  }

  // ---- The loop ---------------------------------------------------------------------------------

  class StringArena {
    const capacity: nat
    var written: seq<Byte>

    constructor (capacity: nat)
      ensures this.capacity == capacity && written == []
    {
      this.capacity := capacity;
      written := [];
    }

    /** One turn of the loop: the bytes of the next piece, if they are let in. */
    method WritePiece(json: seq<Byte>, position: nat, end: nat) returns (status: Status, bytes: seq<Byte>, next: nat)
      requires position < end && Accepted(json, position, end)
      modifies this
      ensures written == old(written) + bytes
      ensures status == Okay ==> position < next <= end && Accepted(json, next, end)
      ensures Fill(json, position, end, |old(written)|, capacity) ==
              if status == Okay then Prepended(bytes, Fill(json, next, end, |written|, capacity)) else Filled(bytes, status)
    {
      NextPieceAccepted(json, position, end);
      var piece := NextPiece(json, position, end);
      if piece == Malformed {
        return ErrorJson, [], position;
      }
      if !LetsWrite(IsUnicode(json, position), |piece.bytes|, |written|, capacity) {
        return ErrorLimit, [], position;
      }
      written := written + piece.bytes;
      return Okay, piece.bytes, piece.next;
    }

    /** surf_token_string on a string token. */
    method TokenString(json: seq<Byte>, start: nat, end: nat) returns (status: Status, text: seq<Byte>)
      requires Accepted(json, start, end)
      modifies this
      ensures var f := Fill(json, start, end, |old(written)|, capacity);
              && written == old(written) + f.bytes && text == f.bytes
              && status == if f.status != Okay then f.status else if WellFormed(f.bytes) then Okay else ErrorJson
    {
      text := [];
      var position := start;
      ghost var before, all := written, Fill(json, start, end, |written|, capacity);
      ghost var rest := all;
      while position < end
        invariant Accepted(json, position, end) && start <= position <= end
        invariant written == before + text
        invariant rest == Fill(json, position, end, |written|, capacity) && all == Prepended(text, rest)
        decreases end - position
      {
        var bytes, next;
        status, bytes, next := WritePiece(json, position, end);
        Appended(before, text, bytes);
        if status != Okay {
          text := text + bytes;
          return;
        }
        position := next;
        rest := Fill(json, position, end, |written|, capacity);
        PrependedTwice(text, bytes, rest);
        text := text + bytes;
      }
      var ok := CheckUtf8(text);
      status := if ok then Okay else ErrorJson;
    }
  }

  function Prepended(done: seq<Byte>, f: Filled): Filled {
    f.(bytes := done + f.bytes)
  }

  lemma Appended(a: seq<Byte>, b: seq<Byte>, c: seq<Byte>)
    ensures a + b + c == a + (b + c)
  {
  }

  lemma PrependedTwice(a: seq<Byte>, b: seq<Byte>, f: Filled)
    ensures Prepended(a, Prepended(b, f)) == Prepended(a + b, f)
  {
    assert a + (b + f.bytes) == a + b + f.bytes;
  }

  // ---- What the loop gives -------------------------------------------------------------------------

  /** A piece that is no \u escape is one byte. */
  lemma PlainPieceIsOneByte(json: seq<Byte>, p: nat, end: nat)
    requires p < end && Accepted(json, p, end) && NextPiece(json, p, end).Piece? && !IsUnicode(json, p)
    ensures |NextPiece(json, p, end).bytes| == 1
  {
  }

  /** For a piece no longer than the arena the check says what it should. */
  lemma CheckIsExact(unicode: bool, n: nat, used: nat, capacity: nat)
    requires 1 <= n <= capacity < SIZE_MODULUS && used <= capacity && (unicode || n == 1)
    ensures LetsWrite(unicode, n, used, capacity) <==> used + n <= capacity
  {
  }

  /** For a longer one it always passes. */
  lemma CheckWraps(n: nat, used: nat, capacity: nat)
    requires capacity < n <= 4 && used <= capacity
    ensures LetsWrite(true, n, used, capacity)
  {
  }

  /** A loop that comes to its end has unescaped the whole body; a malformed escape stops both. */
  lemma {:induction false} FillUnescapes(json: seq<Byte>, p: nat, end: nat, used: nat, capacity: nat)
    requires Accepted(json, p, end)
    ensures var f := Fill(json, p, end, used, capacity);
            && (f.status == Okay ==> Unescape(json, p, end) == Some(f.bytes))
            && (f.status == ErrorJson ==> Unescape(json, p, end).None?)
    decreases end - p
  {
    if p < end {
      NextPieceAccepted(json, p, end);
      var piece := NextPiece(json, p, end);
      if piece.Piece? {
        FillUnescapes(json, piece.next, end, used + |piece.bytes|, capacity);
      }
    }
  }

  /** Before it stops, the loop comes to a \u escape longer than the whole arena. */
  predicate MeetsLongEscape(json: seq<Byte>, p: nat, end: nat, used: nat, capacity: nat)
    requires Accepted(json, p, end)
    decreases end - p
  {
    p < end &&
    (NextPieceAccepted(json, p, end);
     var piece := NextPiece(json, p, end);
     && piece.Piece?
     && ((IsUnicode(json, p) && |piece.bytes| > capacity)
         || (LetsWrite(IsUnicode(json, p), |piece.bytes|, used, capacity)
             && MeetsLongEscape(json, piece.next, end, used + |piece.bytes|, capacity))))
  }

  lemma {:induction false} WritesOnlyForward(json: seq<Byte>, p: nat, end: nat, used: nat, capacity: nat)
    requires Accepted(json, p, end) && p < end && capacity < SIZE_MODULUS && 0 < capacity && used <= capacity
    requires var piece := NextPiece(json, p, end); piece.Piece? && (IsUnicode(json, p) ==> |piece.bytes| <= capacity)
    ensures var n := |NextPiece(json, p, end).bytes|;
            LetsWrite(IsUnicode(json, p), n, used, capacity) <==> used + n <= capacity
  {
    if !IsUnicode(json, p) {
      PlainPieceIsOneByte(json, p, end);
    }
    CheckIsExact(IsUnicode(json, p), |NextPiece(json, p, end).bytes|, used, capacity);
  }

  /** A write goes past the end of the arena exactly when the loop meets such an escape. */
  lemma {:induction false} InsideIffNoLongEscape(json: seq<Byte>, p: nat, end: nat, used: nat, capacity: nat)
    requires Accepted(json, p, end) && 0 < capacity < SIZE_MODULUS && used <= capacity
    ensures Inside(json, p, end, used, capacity) <==> !MeetsLongEscape(json, p, end, used, capacity)
    decreases end - p
  {
    if p < end {
      NextPieceAccepted(json, p, end);
      var piece := NextPiece(json, p, end);
      if piece.Piece? {
        var n := |piece.bytes|;
        if IsUnicode(json, p) && n > capacity {
          CheckWraps(n, used, capacity);
        } else {
          WritesOnlyForward(json, p, end, used, capacity);
          if used + n <= capacity {
            InsideIffNoLongEscape(json, piece.next, end, used + n, capacity);
          }
        }
      }
    }
  }

  /** With room for four bytes at all, everything is written inside, and the loop ends well exactly when there is room for the text. */
  lemma {:induction false} ArenaExact(json: seq<Byte>, p: nat, end: nat, used: nat, capacity: nat)
    requires Accepted(json, p, end) && 4 <= capacity < SIZE_MODULUS && used <= capacity
    ensures var f := Fill(json, p, end, used, capacity);
            var r := Unescape(json, p, end);
            && Inside(json, p, end, used, capacity)
            && (f.status == Okay <==> r.Some? && used + |r.value| <= capacity)
            && (f.status == ErrorLimit ==> r.None? || used + |r.value| > capacity)
    decreases end - p
  {
    if p < end {
      NextPieceAccepted(json, p, end);
      var piece := NextPiece(json, p, end);
      if piece.Piece? {
        var n := |piece.bytes|;
        WritesOnlyForward(json, p, end, used, capacity);
        if used + n <= capacity {
          ArenaExact(json, piece.next, end, used + n, capacity);
        }
      }
    }
  }

  /** An empty arena with room for the text, and for four bytes at all, takes it whole. */
  lemma FillsWhole(json: seq<Byte>, p: nat, end: nat, capacity: nat, text: seq<Byte>)
    requires Accepted(json, p, end) && Unescape(json, p, end) == Some(text) && 4 <= capacity < SIZE_MODULUS && |text| <= capacity
    ensures Fill(json, p, end, 0, capacity) == Filled(text, Okay)
  {
    ArenaExact(json, p, end, 0, capacity);
    FillUnescapes(json, p, end, 0, capacity);
  }

  // ---- Which arenas are large enough -----------------------------------------------------------------

  predicate InsideIfAccepted(json: seq<Byte>, p: nat, end: nat, used: nat, capacity: nat) {
    Accepted(json, p, end) && used <= capacity ==> Inside(json, p, end, used, capacity)
  }

  /** Whatever is unescaped into it, no write leaves the arena. */
  ghost predicate LargeEnough(capacity: nat) {
    forall json: seq<Byte>, p: nat, end: nat, used: nat :: InsideIfAccepted(json, p, end, used, capacity)
  }

  /** The escape of U+1F600, and its closing quote. */
  const FACE: seq<Byte> := [92, 117, 100, 56, 51, 100, 92, 117, 100, 101, 48, 48, 34]

  lemma FaceIsAccepted()
    ensures Accepted(FACE, 0, 12) && NextPiece(FACE, 0, 12) == Piece([0xF0, 0x9F, 0x98, 0x80], 12)
  {
    assert BodyEnd(FACE, 12) == Some(12);
    assert FourHexAt(FACE, 8) && BodyEnd(FACE, 6) == Some(12);
    assert FourHexAt(FACE, 2) && BodyEnd(FACE, 0) == Some(12);
    assert Hex4(FACE, 2) == 0xD83D && Hex4(FACE, 8) == 0xDE00;
    assert Paired(0xD83D, 0xDE00) == 0x1F600;
  }

  /** In an arena of fewer than four bytes that escape is written past the end, and accepted. */
  lemma SmallArenaOverruns(capacity: nat)
    requires capacity < 4
    ensures Accepted(FACE, 0, 12)
    ensures Fill(FACE, 0, 12, 0, capacity) == Filled([0xF0, 0x9F, 0x98, 0x80], Okay) && !Inside(FACE, 0, 12, 0, capacity)
  {
    FaceIsAccepted();
    CheckWraps(4, 0, capacity);
    assert Fill(FACE, 12, 12, 4, capacity) == Filled([], Okay);
    assert [0xF0, 0x9F, 0x98, 0x80] + [] == [0xF0, 0x9F, 0x98, 0x80];
  }

  /** Four bytes are enough, and needed. */
  lemma LargeEnoughIff(capacity: nat)
    requires capacity < SIZE_MODULUS
    ensures LargeEnough(capacity) <==> capacity >= 4
  {
    if capacity >= 4 {
      forall json: seq<Byte>, p: nat, end: nat, used: nat ensures InsideIfAccepted(json, p, end, used, capacity) {
        if Accepted(json, p, end) && used <= capacity {
          ArenaExact(json, p, end, used, capacity);
        }
      }
    } else {
      SmallArenaOverruns(capacity);
      assert !InsideIfAccepted(FACE, 0, 12, 0, capacity);
    }
  }
}
