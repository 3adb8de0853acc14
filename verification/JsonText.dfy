/** The writer, and the way of a string out and back in. */
module JsonText {
  import opened Options
  import opened Bytes
  import opened JsonGrammar
  import opened JsonParsers
  import opened JsonTokenisers
  import opened JsonStrings
  import opened JsonArenas
  import opened Utf8

  lemma QuotedParts(before: seq<Byte>, value: seq<Byte>)
    ensures before + [QUOTE] + EscapeFrom(value, 0) + [QUOTE] == before + Quoted(value)
  {
  }

  lemma EscapeStep(text: seq<Byte>, value: seq<Byte>, index: nat)
    requires index < |value|
    ensures text + EscapeByte(value[index]) + EscapeFrom(value, index + 1) == text + EscapeFrom(value, index)
  {
    assert text + EscapeByte(value[index]) + EscapeFrom(value, index + 1) == text + (EscapeByte(value[index]) + EscapeFrom(value, index + 1));
  }

  class Writer {
    const buffer: array<Byte>
    var length: nat
    var failed: bool
    ghost var text: seq<Byte>

    /** What was asked for is counted in full; it is in the buffer, whole, unless the writer failed. */
    ghost predicate Valid()
      reads this, buffer
    {
      && length == |text|
      && (failed <==> |text| > buffer.Length)
      && (!failed ==> buffer[..length] == text)
    }

    constructor (capacity: nat)
      ensures Valid() && fresh(buffer) && buffer.Length == capacity && text == []
    {
      buffer := new Byte[capacity];
      length, failed, text := 0, false, [];
    }

    /** surf_write_bytes. */
    method WriteBytes(data: seq<Byte>)
      requires Valid()
      modifies this, buffer
      ensures Valid() && text == old(text) + data
    {
      if length <= buffer.Length && |data| <= buffer.Length - length {
        forall i | 0 <= i < |data| {
          buffer[length + i] := data[i];
        }
      } else if |data| != 0 {
        failed := true;
      }
      length := length + |data|;
      text := text + data;
    }

    /** surf_write_string. */
    method WriteString(value: seq<Byte>)
      requires Valid()
      modifies this, buffer
      ensures Valid() && text == old(text) + Quoted(value)
    {
      WriteBytes([QUOTE]);
      ghost var goal := text + EscapeFrom(value, 0);
      for index := 0 to |value|
        invariant Valid() && text + EscapeFrom(value, index) == goal
      {
        EscapeStep(text, value, index);
        WriteBytes(EscapeByte(value[index]));
      }
      assert text == goal;
      WriteBytes([QUOTE]);
      QuotedParts(old(text), value);
    }
  }

  /**
    * Writing a string and reading it back, wherever it stands: the tokeniser takes it
    * for one string, whose body unescapes to the same bytes; and with room for them the
    * final check lets it through exactly when the bytes were well-formed UTF-8.
    */
  method RoundTrip(before: seq<Byte>, value: seq<Byte>, after: seq<Byte>) returns (status: Status, text: seq<Byte>)
    requires |value| < SIZE_MODULUS
    ensures status == if WellFormed(value) then Okay else ErrorJson
    ensures text == value
  {
    var json := before + Quoted(value) + after;
    var start := |before|;
    WriteThenRead(json, start, value, 0, 1);
    var r := ParseString(json, start, 0, 1);
    var arena := new StringArena(if |value| < 4 then 4 else |value|);
    FillsWhole(json, start + 1, r.end - 1, arena.capacity, value);
    status, text := arena.TokenString(json, start + 1, r.end - 1);
  }
}
