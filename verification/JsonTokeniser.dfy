/**
  * The tokeniser as it runs: a position that moves over the text, and tokens
  * appended to a bounded workspace and completed in place. Every method is tied to
  * the recursive descent of `JsonParsers`, and the tokens it leaves to `TokensOf`.
  */
module JsonTokenisers {
  import opened Options
  import opened Bytes
  import opened JsonGrammar
  import opened JsonNumbers
  import opened JsonParsers
  import opened JsonTokens

  datatype Status = Okay | ErrorJson | ErrorLimit

  function StatusOf<T>(r: Parsed<T>): Status {
    match r
    case Ok(_, _, _) => Okay
    case Bad => ErrorJson
    case Limit => ErrorLimit
  }

  // ---- The number cursor -----------------------------------------------------------------

  method SkipDigits(s: seq<Byte>, from: nat) returns (cursor: nat)
    requires from <= |s|
    ensures cursor == from + DigitRun(s[from..])
  {
    cursor := from;
    while cursor < |s| && IsDigit(s[cursor])
      invariant from <= cursor <= |s|
      invariant from + DigitRun(s[from..]) == cursor + DigitRun(s[cursor..])
    {
      assert s[cursor..][1..] == s[cursor + 1..];
      cursor := cursor + 1;
    }
  }

  method WalkExponent(s: seq<Byte>, from: nat) returns (ok: bool)
    requires from <= |s|
    ensures ok == (AfterExponent(s[from..]) == Some([]))
  {
    var cursor := from;
    if cursor < |s| && (s[cursor] == 101 || s[cursor] == 69) {
      cursor := cursor + 1;
      if cursor < |s| && (s[cursor] == 43 || s[cursor] == 45) {
        cursor := cursor + 1;
      }
      assert ExponentDigits(s[from..]) == s[cursor..];
      if cursor >= |s| || !IsDigit(s[cursor]) {
        return false;
      }
      ghost var digits := s[cursor..];
      cursor := SkipDigits(s, cursor);
      assert digits[DigitRun(digits)..] == s[cursor..];
    }
    assert AfterExponent(s[from..]) == Some(s[cursor..]);
    ok := cursor == |s|;
  }

  method WalkWhole(s: seq<Byte>, from: nat) returns (r: Option<nat>)
    requires from <= |s|
    ensures r.Some? ==> r.value <= |s|
    ensures AfterWhole(s[from..]) == if r.Some? then Some(s[r.value..]) else None
  {
    if from >= |s| {
      return None;
    }
    if s[from] == 48 {
      return if from + 1 < |s| && IsDigit(s[from + 1]) then None else Some(from + 1);
    }
    if !IsDigit(s[from]) {
      return None;
    }
    var cursor := SkipDigits(s, from);
    return Some(cursor);
  }

  method WalkFraction(s: seq<Byte>, from: nat) returns (r: Option<nat>)
    requires from <= |s|
    ensures r.Some? ==> r.value <= |s|
    ensures AfterFraction(s[from..]) == if r.Some? then Some(s[r.value..]) else None
  {
    if from >= |s| || s[from] != 46 {
      return Some(from);
    }
    assert s[from..][1..] == s[from + 1..];
    if from + 1 >= |s| || !IsDigit(s[from + 1]) {
      return None;
    }
    var cursor := SkipDigits(s, from + 1);
    return Some(cursor);
  }

  method WalkNumber(s: seq<Byte>) returns (ok: bool)
    ensures ok == CheckNumber(s)
  {
    var cursor := if |s| > 0 && s[0] == 45 then 1 else 0;
    assert AfterMinus(s) == s[cursor..];
    var whole := WalkWhole(s, cursor);
    if whole.None? {
      return false;
    }
    var fraction := WalkFraction(s, whole.value);
    if fraction.None? {
      return false;
    }
    ok := WalkExponent(s, fraction.value);
  }

  // ---- What the loops over items and members have left to do ---------------------------------

  /** From the items parsed so far (`made`, `size` of them) and those still to come (`rest`) the whole list results. */
  ghost predicate ItemsResume(all: Parsed<Items>, rest: Parsed<Items>, index: nat, made: seq<Token>, size: nat) {
    && StatusOf(all) == StatusOf(rest)
    && (all.Ok? ==>
          && all.end == rest.end && all.count == rest.count
          && ItemsSize(all.value) == size + ItemsSize(rest.value)
          && ItemTokens(all.value, index + 1, index) == made + ItemTokens(rest.value, index + 1 + |made|, index))
  }

  lemma ItemsResumeStep(all: Parsed<Items>, now: Parsed<Items>, v: Value, comma: nat, rest: Parsed<Items>, index: nat, made: seq<Token>, size: nat)
    requires ItemsResume(all, now, index, made, size) && now == AfterItem(v, comma, rest)
    ensures ItemsResume(all, rest, index, made + TokensOf(v, index + 1 + |made|, index), size + 1)
  {
    TokensOfCount(v, index + 1 + |made|, index);
    if all.Ok? {
      var head := TokensOf(v, index + 1 + |made|, index);
      var tail := ItemTokens(rest.value, index + 1 + |made| + |head|, index);
      assert made + (head + tail) == (made + head) + tail;
    }
  }

  lemma ItemsResumeEnd(all: Parsed<Items>, now: Parsed<Items>, v: Value, end: nat, count: nat, index: nat, made: seq<Token>, size: nat)
    requires ItemsResume(all, now, index, made, size) && now == Ok(LastItem(v), end, count)
    ensures all.Ok? && all.end == end && all.count == count && ItemsSize(all.value) == size + 1
    ensures ItemTokens(all.value, index + 1, index) == made + TokensOf(v, index + 1 + |made|, index)
  {
  }

  lemma ItemsUnfold(json: seq<Byte>, p: nat, depth: nat, count: nat, cap: nat, v: Parsed<Value>)
    requires p <= |json| && v == ParseValue(json, p, depth + 1, count, cap)
    ensures var r := ParseItems(json, p, depth, count, cap);
            if !v.Ok? then StatusOf(r) == StatusOf(v)
            else
              var next := SkipSpace(json, v.end);
              if ByteAt(json, next, CLOSE_ARRAY) then r == Ok(LastItem(v.value), next + 1, v.count)
              else if ByteAt(json, next, COMMA) then
                r == AfterItem(v.value, next, ParseItems(json, SkipSpace(json, next + 1), depth, v.count, cap))
              else r == Bad
  {
  }

  lemma ArrayUnfold(json: seq<Byte>, p: nat, depth: nat, count: nat, cap: nat)
    requires ByteAt(json, p, OPEN_ARRAY) && depth <= MAX_DEPTH
    ensures var r := ParseValue(json, p, depth, count, cap);
            var inner := SkipSpace(json, p + 1);
            if count >= cap then r == Limit
            else if ByteAt(json, inner, CLOSE_ARRAY) then r == Ok(EmptyArr(p, inner + 1), inner + 1, count + 1)
            else r == AsArray(p, ParseItems(json, inner, depth, count + 1, cap))
  {
  }

  ghost predicate MembersResume(all: Parsed<Members>, rest: Parsed<Members>, index: nat, made: seq<Token>, size: nat) {
    && StatusOf(all) == StatusOf(rest)
    && (all.Ok? ==>
          && all.end == rest.end && all.count == rest.count
          && MembersSize(all.value) == size + MembersSize(rest.value)
          && MemberTokens(all.value, index + 1, index) == made + MemberTokens(rest.value, index + 1 + |made|, index))
  }

  function PairTokens(k: Key, v: Value, at: nat, index: nat): seq<Token> {
    [HeadToken(k.name, index)] + TokensOf(v, at + 1, index)
  }

  lemma MembersResumeStep(all: Parsed<Members>, now: Parsed<Members>, k: Key, v: Value, comma: nat, rest: Parsed<Members>, index: nat, made: seq<Token>, size: nat)
    requires MembersResume(all, now, index, made, size) && now == AfterMember(k, v, comma, rest)
    ensures MembersResume(all, rest, index, made + PairTokens(k, v, index + 1 + |made|, index), size + 1)
  {
    TokensOfCount(v, index + 2 + |made|, index);
    if all.Ok? {
      var head := PairTokens(k, v, index + 1 + |made|, index);
      var tail := MemberTokens(rest.value, index + 1 + |made| + |head|, index);
      assert made + (head + tail) == (made + head) + tail;
    }
  }

  lemma MembersResumeEnd(all: Parsed<Members>, now: Parsed<Members>, k: Key, v: Value, end: nat, count: nat,
                         index: nat, made: seq<Token>, size: nat)
    requires MembersResume(all, now, index, made, size) && now == Ok(LastMember(k.name, k.colon, v), end, count)
    ensures all.Ok? && all.end == end && all.count == count && MembersSize(all.value) == size + 1
    ensures MemberTokens(all.value, index + 1, index) == made + PairTokens(k, v, index + 1 + |made|, index)
  {
  }

  lemma MemberValueUnfold(json: seq<Byte>, k: Key, p: nat, depth: nat, count: nat, cap: nat, v: Parsed<Value>)
    requires p <= |json| && v == ParseValue(json, p, depth + 1, count, cap)
    ensures var r := ParseMemberValue(json, k, p, depth, count, cap);
            if !v.Ok? then StatusOf(r) == StatusOf(v)
            else
              var next := SkipSpace(json, v.end);
              if ByteAt(json, next, CLOSE_OBJECT) then r == Ok(LastMember(k.name, k.colon, v.value), next + 1, v.count)
              else if ByteAt(json, next, COMMA) then
                r == AfterMember(k, v.value, next, ParseMembers(json, SkipSpace(json, next + 1), depth, v.count, cap))
              else r == Bad
  {
  }

  lemma ObjectUnfold(json: seq<Byte>, p: nat, depth: nat, count: nat, cap: nat)
    requires ByteAt(json, p, OPEN_OBJECT) && depth <= MAX_DEPTH
    ensures var r := ParseValue(json, p, depth, count, cap);
            var inner := SkipSpace(json, p + 1);
            if count >= cap then r == Limit
            else if ByteAt(json, inner, CLOSE_OBJECT) then r == Ok(EmptyObj(p, inner + 1), inner + 1, count + 1)
            else r == AsObject(p, ParseMembers(json, inner, depth, count + 1, cap))
  {
  }

  lemma {:induction false} GrownPair(ts: seq<Token>, index: nat, k: Key, v: Value, end: nat)
    requires index < |ts|
    ensures Grown(ts + [HeadToken(k.name, index)], index) + TokensOf(v, |ts| + 1, index)
            == Grown(ts, index) + PairTokens(k, v, |ts|, index)
    ensures Closed(ts + [HeadToken(k.name, index)], index, 1, end) + TokensOf(v, |ts| + 1, index)
            == Closed(ts, index, 1, end) + PairTokens(k, v, |ts|, index)
  {
  }

  // ---- Tokens completed in place ---------------------------------------------------------------

  lemma LeafTokens(v: Value, at: nat, parent: int)
    requires !v.Arr? && !v.Obj?
    ensures TokensOf(v, at, parent) == [HeadToken(v, parent)]
  {
  }

  function Sized(ts: seq<Token>, index: nat, more: nat): seq<Token>
    requires index < |ts|
  {
    ts[index := ts[index].(size := ts[index].size + more)]
  }

  function Grown(ts: seq<Token>, index: nat): seq<Token>
    requires index < |ts|
  {
    Sized(ts, index, 1)
  }

  function Closed(ts: seq<Token>, index: nat, more: nat, end: nat): seq<Token>
    requires index < |ts|
  {
    ts[index := ts[index].(size := ts[index].size + more, end := end)]
  }

  lemma SizedGrows(ts: seq<Token>, index: nat, size: nat, made: seq<Token>, child: seq<Token>)
    requires index < |ts|
    ensures Grown(Sized(ts, index, size) + made, index) + child == Sized(ts, index, size + 1) + (made + child)
  {
  }

  lemma GrownCloses(ts: seq<Token>, index: nat, child: seq<Token>, end: nat)
    requires index < |ts|
    ensures var all := Grown(ts, index) + child;
            all[index := all[index].(end := end)] == Closed(ts, index, 1, end) + child
  {
  }

  lemma SizedCloses(ts: seq<Token>, index: nat, size: nat, made: seq<Token>, child: seq<Token>, end: nat)
    requires index < |ts|
    ensures Closed(Sized(ts, index, size) + made, index, 1, end) + child == Closed(ts, index, size + 1, end) + (made + child)
  {
  }

  lemma ClosedHead(before: seq<Token>, head: Token, size: nat, end: nat, made: seq<Token>)
    ensures Closed(before + [head], |before|, size, end) + made
            == before + ([head.(size := head.size + size, end := end)] + made)
  {
  }

  lemma {:induction false} ArrayTokens(before: seq<Token>, start: nat, parent: int, items: Items, end: nat)
    ensures Closed(before + [Token(Array, start, 0, 0, parent)], |before|, ItemsSize(items), end) + ItemTokens(items, |before| + 1, |before|)
            == before + TokensOf(Arr(start, end, items), |before|, parent)
  {
    ClosedHead(before, Token(Array, start, 0, 0, parent), ItemsSize(items), end, ItemTokens(items, |before| + 1, |before|));
  }

  lemma {:induction false} ObjectTokens(before: seq<Token>, start: nat, parent: int, members: Members, end: nat)
    ensures Closed(before + [Token(Object, start, 0, 0, parent)], |before|, MembersSize(members), end) + MemberTokens(members, |before| + 1, |before|)
            == before + TokensOf(Obj(start, end, members), |before|, parent)
  {
    ClosedHead(before, Token(Object, start, 0, 0, parent), MembersSize(members), end, MemberTokens(members, |before| + 1, |before|));
  }

  /** What an opened array comes to, in tokens. */
  lemma {:induction false} ArrayOutcome(json: seq<Byte>, p: nat, depth: nat, before: seq<Token>, parent: int, cap: nat)
    requires ByteAt(json, p, OPEN_ARRAY) && depth <= MAX_DEPTH && |before| < cap
    ensures var n := |before|;
            var r := ParseValue(json, p, depth, n, cap);
            var inner := SkipSpace(json, p + 1);
            var begun := before + [Token(Array, p, 0, 0, parent)];
            if ByteAt(json, inner, CLOSE_ARRAY) then
              && r.Ok? && r.end == inner + 1 && r.count == n + 1
              && Closed(begun, n, 0, inner + 1) == before + TokensOf(r.value, n, parent)
            else
              var m := ParseItems(json, inner, depth, n + 1, cap);
              && StatusOf(r) == StatusOf(m)
              && (m.Ok? ==>
                    && r.end == m.end && r.count == m.count
                    && Closed(begun, n, ItemsSize(m.value), m.end) + ItemTokens(m.value, n + 1, n) == before + TokensOf(r.value, n, parent))
  {
    ArrayUnfold(json, p, depth, |before|, cap);
    var inner := SkipSpace(json, p + 1);
    var m := ParseItems(json, inner, depth, |before| + 1, cap);
    if ByteAt(json, inner, CLOSE_ARRAY) {
      LeafTokens(EmptyArr(p, inner + 1), |before|, parent);
    } else if m.Ok? {
      ArrayTokens(before, p, parent, m.value, m.end);
    }
  }

  /** What an opened object comes to, in tokens. */
  lemma {:induction false} ObjectOutcome(json: seq<Byte>, p: nat, depth: nat, before: seq<Token>, parent: int, cap: nat)
    requires ByteAt(json, p, OPEN_OBJECT) && depth <= MAX_DEPTH && |before| < cap
    ensures var n := |before|;
            var r := ParseValue(json, p, depth, n, cap);
            var inner := SkipSpace(json, p + 1);
            var begun := before + [Token(Object, p, 0, 0, parent)];
            if ByteAt(json, inner, CLOSE_OBJECT) then
              && r.Ok? && r.end == inner + 1 && r.count == n + 1
              && Closed(begun, n, 0, inner + 1) == before + TokensOf(r.value, n, parent)
            else
              var m := ParseMembers(json, inner, depth, n + 1, cap);
              && StatusOf(r) == StatusOf(m)
              && (m.Ok? ==>
                    && r.end == m.end && r.count == m.count
                    && Closed(begun, n, MembersSize(m.value), m.end) + MemberTokens(m.value, n + 1, n) == before + TokensOf(r.value, n, parent))
  {
    ObjectUnfold(json, p, depth, |before|, cap);
    var inner := SkipSpace(json, p + 1);
    var m := ParseMembers(json, inner, depth, |before| + 1, cap);
    if ByteAt(json, inner, CLOSE_OBJECT) {
      LeafTokens(EmptyObj(p, inner + 1), |before|, parent);
    } else if m.Ok? {
      ObjectTokens(before, p, parent, m.value, m.end);
    }
  }

  lemma ItemsFinish(before: seq<Token>, all: Parsed<Items>, now: Parsed<Items>, v: Value, end: nat, count: nat,
                    index: nat, made: seq<Token>, size: nat)
    requires index < |before| && ItemsResume(all, now, index, made, size) && now == Ok(LastItem(v), end, count)
    ensures all.Ok? && all.end == end && all.count == count
    ensures Closed(Sized(before, index, size) + made, index, 1, end) + TokensOf(v, index + 1 + |made|, index)
            == Closed(before, index, ItemsSize(all.value), end) + ItemTokens(all.value, index + 1, index)
  {
    ItemsResumeEnd(all, now, v, end, count, index, made, size);
    SizedCloses(before, index, size, made, TokensOf(v, index + 1 + |made|, index), end);
  }

  lemma ItemsGrow(before: seq<Token>, all: Parsed<Items>, now: Parsed<Items>, v: Value, comma: nat, rest: Parsed<Items>,
                  index: nat, made: seq<Token>, size: nat)
    requires index < |before| && ItemsResume(all, now, index, made, size) && now == AfterItem(v, comma, rest)
    ensures var child := TokensOf(v, index + 1 + |made|, index);
            && ItemsResume(all, rest, index, made + child, size + 1)
            && Grown(Sized(before, index, size) + made, index) + child == Sized(before, index, size + 1) + (made + child)
  {
    SizedGrows(before, index, size, made, TokensOf(v, index + 1 + |made|, index));
    ItemsResumeStep(all, now, v, comma, rest, index, made, size);
  }

  lemma MembersFinish(before: seq<Token>, all: Parsed<Members>, now: Parsed<Members>, k: Key, v: Value, end: nat, count: nat,
                      index: nat, made: seq<Token>, size: nat)
    requires index < |before| && MembersResume(all, now, index, made, size) && now == Ok(LastMember(k.name, k.colon, v), end, count)
    ensures all.Ok? && all.end == end && all.count == count
    ensures Closed(Sized(before, index, size) + made, index, 1, end) + PairTokens(k, v, index + 1 + |made|, index)
            == Closed(before, index, MembersSize(all.value), end) + MemberTokens(all.value, index + 1, index)
  {
    MembersResumeEnd(all, now, k, v, end, count, index, made, size);
    SizedCloses(before, index, size, made, PairTokens(k, v, index + 1 + |made|, index), end);
  }

  class JsonTokeniser {
    const json: seq<Byte>
    const capacity: nat
    var position: nat
    var tokens: seq<Token>

    predicate Valid()
      reads this
    {
      position <= |json| && |tokens| <= capacity
    }

    constructor (json: seq<Byte>, capacity: nat)
      ensures Valid() && this.json == json && this.capacity == capacity && position == 0 && tokens == []
    {
      this.json := json;
      this.capacity := capacity;
      position := 0;
      tokens := [];
    }

    method SkipSpaces()
      requires Valid()
      modifies this`position
      ensures Valid() && position == SkipSpace(json, old(position))
    {
      while position < |json| && IsSpace(json[position])
        invariant position <= |json| && SkipSpace(json, position) == SkipSpace(json, old(position))
      {
        position := position + 1;
      }
    }

    /** surf_json_token: claims the next token of the workspace. */
    method NewToken(kind: Kind, parent: int) returns (ok: bool)
      requires Valid()
      modifies this`tokens
      ensures Valid() && ok == (old(|tokens|) < capacity)
      ensures tokens == if ok then old(tokens) + [Token(kind, position, 0, 0, parent)] else old(tokens)
    {
      ok := |tokens| < capacity;
      if ok {
        tokens := tokens + [Token(kind, position, 0, 0, parent)];
      }
    }

    /** A result that is Ok has moved the position to its end and appended its tokens; an error is the same error. */
    ghost predicate Agrees<T>(status: Status, r: Parsed<T>, expected: seq<Token>)
      reads this
    {
      && status == StatusOf(r)
      && (r.Ok? ==> position == r.end && |tokens| == r.count && tokens == expected)
    }

    /** surf_json_parse_string. */
    method StringValue(parent: int) returns (status: Status)
      requires Valid()
      modifies this
      ensures Valid()
      ensures var r := ParseString(json, old(position), old(|tokens|), capacity);
              Agrees(status, r, old(tokens) + if r.Ok? then [HeadToken(r.value, parent)] else [])
    {
      if position >= |json| || json[position] != QUOTE {
        return ErrorJson;
      }
      position := position + 1;
      ghost var first, before := position, tokens;
      var index := |tokens|;
      var ok := NewToken(String, parent);
      if !ok {
        return ErrorLimit;
      }
      while position < |json|
        invariant first <= position <= |json|
        invariant tokens == before + [Token(String, first, 0, 0, parent)]
        invariant BodyEnd(json, first) == BodyEnd(json, position)
      {
        var value := json[position];
        position := position + 1;
        if value == QUOTE {
          tokens := tokens[index := tokens[index].(end := position - 1)];
          return Okay;
        }
        if value < 32 {
          return ErrorJson;
        }
        if value == BACKSLASH {
          if position >= |json| {
            return ErrorJson;
          }
          var escaped := json[position];
          position := position + 1;
          if escaped == 117 {
            ghost var digits := position;
            for count := 0 to 4
              invariant position == digits + count <= |json|
              invariant tokens == before + [Token(String, first, 0, 0, parent)]
              invariant forall k :: digits <= k < position ==> HexAt(json, k)
            {
              if position >= |json| || !IsHex(json[position]) {
                assert !HexAt(json, position);
                return ErrorJson;
              }
              position := position + 1;
            }
          } else if !AcceptedEscape(escaped) {
            return ErrorJson;
          }
        }
      }
      return ErrorJson;
    }

    /** surf_json_parse_primitive. */
    method PrimitiveValue(parent: int) returns (status: Status)
      requires Valid()
      modifies this
      ensures Valid()
      ensures var r := ParsePrimitive(json, old(position), old(|tokens|), capacity);
              Agrees(status, r, old(tokens) + if r.Ok? then [HeadToken(r.value, parent)] else [])
    {
      var start, index := position, |tokens|;
      var ok := NewToken(Primitive, parent);
      if !ok {
        return ErrorLimit;
      }
      while position < |json| && !EndsPrimitive(json[position])
        invariant start <= position <= |json|
        invariant tokens == old(tokens) + [Token(Primitive, start, 0, 0, parent)]
        invariant PrimitiveEnd(json, start) == PrimitiveEnd(json, position)
      {
        if BreaksPrimitive(json[position]) {
          return ErrorJson;
        }
        position := position + 1;
      }
      if position == start {
        return ErrorJson;
      }
      tokens := tokens[index := tokens[index].(start := start, end := position)];
      var text := json[start..position];
      if !IsLiteral(text) {
        var number := WalkNumber(text);
        if !number {
          return ErrorJson;
        }
      }
      return Okay;
    }

    ghost function ValueTokens(r: Parsed<Value>, before: seq<Token>, parent: int): seq<Token> {
      before + if r.Ok? then TokensOf(r.value, |before|, parent) else []
    }

    /** One more child of the token at `index`, and the whitespace behind it. */
    method Child(index: nat, depth: nat) returns (status: Status)
      requires Valid() && index < |tokens|
      modifies this
      ensures Valid()
      ensures var v := ParseValue(json, old(position), depth + 1, old(|tokens|), capacity);
              && status == StatusOf(v)
              && (v.Ok? ==>
                    && position == SkipSpace(json, v.end) && |tokens| == v.count
                    && tokens == Grown(old(tokens), index) + TokensOf(v.value, old(|tokens|), index))
      decreases |json| - position, 2
    {
      ghost var before := tokens;
      status := AnyValue(index, depth + 1);
      if status == Okay {
        tokens := Grown(tokens, index);
        SkipSpaces();
      }
    }

    /** The byte behind a child: the closing bracket, a comma with whitespace, or an error. */
    method Delimiter(index: nat, close: Byte) returns (status: Status, more: bool)
      requires Valid() && index < |tokens| && close != COMMA
      modifies this
      ensures Valid() && more == ByteAt(json, old(position), COMMA)
      ensures more ==> position == SkipSpace(json, old(position) + 1) && tokens == old(tokens) && status == Okay
      ensures !more ==> status == if ByteAt(json, old(position), close) then Okay else ErrorJson
      ensures ByteAt(json, old(position), close) ==>
                position == old(position) + 1 && tokens == old(tokens)[index := old(tokens)[index].(end := position)]
    {
      if position >= |json| {
        return ErrorJson, false;
      }
      if json[position] == close {
        position := position + 1;
        tokens := tokens[index := tokens[index].(end := position)];
        return Okay, false;
      }
      if json[position] != COMMA {
        return ErrorJson, false;
      }
      position := position + 1;
      SkipSpaces();
      return Okay, true;
    }

    /** One item and what comes behind it: `more` when that is a comma, and then `v` and `comma` say what was read. */
    method ArrayItem(index: nat, depth: nat) returns (status: Status, more: bool, ghost v: Value, ghost comma: nat)
      requires Valid() && index < |tokens|
      modifies this
      ensures Valid() && (more ==> old(position) < position)
      ensures var now := ParseItems(json, old(position), depth, old(|tokens|), capacity);
              if more then
                && now == AfterItem(v, comma, ParseItems(json, position, depth, |tokens|, capacity))
                && tokens == Grown(old(tokens), index) + TokensOf(v, old(|tokens|), index)
              else if status == Okay then
                && now == Ok(LastItem(v), position, |tokens|)
                && tokens == Closed(old(tokens), index, 1, position) + TokensOf(v, old(|tokens|), index)
              else status == StatusOf(now)
      decreases |json| - position, 3
    {
      ghost var r, before := ParseValue(json, position, depth + 1, |tokens|, capacity), tokens;
      ItemsUnfold(json, position, depth, |tokens|, capacity, r);
      status := Child(index, depth);
      more, v, comma := false, Str(0, 0), position;
      if status != Okay {
        return;
      }
      v := r.value;
      GrownCloses(before, index, TokensOf(v, |before|, index), position + 1);
      status, more := Delimiter(index, CLOSE_ARRAY);
    }

    /** The loop of surf_json_parse_array. */
    method ArrayItems(index: nat, depth: nat) returns (status: Status)
      requires Valid() && index + 1 == |tokens|
      modifies this
      ensures Valid()
      ensures var r := ParseItems(json, old(position), depth, old(|tokens|), capacity);
              Agrees(status, r, if r.Ok? then Closed(old(tokens), index, ItemsSize(r.value), r.end) + ItemTokens(r.value, index + 1, index) else [])
      decreases |json| - position, 4
    {
      ghost var all, now := ParseItems(json, position, depth, |tokens|, capacity), ParseItems(json, position, depth, |tokens|, capacity);
      ghost var made, size: nat, before := [], 0, tokens;
      while true
        invariant Valid() && old(position) <= position
        invariant tokens == Sized(before, index, size) + made
        invariant now == ParseItems(json, position, depth, |tokens|, capacity) && ItemsResume(all, now, index, made, size)
        decreases |json| - position
      {
        ghost var v: Value, comma: nat;
        var more: bool;
        status, more, v, comma := ArrayItem(index, depth);
        ghost var child := TokensOf(v, index + 1 + |made|, index);
        if !more {
          if status == Okay {
            ItemsFinish(before, all, now, v, position, |tokens|, index, made, size);
          }
          return;
        }
        ghost var next := ParseItems(json, position, depth, |tokens|, capacity);
        ItemsGrow(before, all, now, v, comma, next, index, made, size);
        made, size, now := made + child, size + 1, next;
      }
    }

    /** The token of an array or object, at its opening bracket. */
    method OpenToken(kind: Kind, parent: int) returns (ok: bool)
      requires Valid() && position < |json|
      modifies this
      ensures Valid() && position == old(position) + 1 && ok == (old(|tokens|) < capacity)
      ensures ok ==> tokens == old(tokens) + [Token(kind, old(position), 0, 0, parent)]
    {
      position := position + 1;
      var index := |tokens|;
      ok := NewToken(kind, parent);
      if ok {
        tokens := tokens[index := tokens[index].(start := position - 1)];
      }
    }

    /** What follows the opening bracket. */
    method ArrayBody(index: nat, depth: nat) returns (status: Status)
      requires Valid() && index + 1 == |tokens|
      modifies this
      ensures Valid()
      ensures var inner := SkipSpace(json, old(position));
              var r := ParseItems(json, inner, depth, old(|tokens|), capacity);
              if ByteAt(json, inner, CLOSE_ARRAY) then
                status == Okay && position == inner + 1 && tokens == Closed(old(tokens), index, 0, position)
              else
                Agrees(status, r, if r.Ok? then Closed(old(tokens), index, ItemsSize(r.value), r.end) + ItemTokens(r.value, index + 1, index) else [])
      decreases |json| - position, 5
    {
      SkipSpaces();
      if position < |json| && json[position] == CLOSE_ARRAY {
        position := position + 1;
        tokens := tokens[index := tokens[index].(end := position)];
        return Okay;
      }
      status := ArrayItems(index, depth);
    }

    /** surf_json_parse_array, at an opening bracket. */
    method ArrayValue(parent: int, depth: nat) returns (status: Status)
      requires Valid() && ByteAt(json, position, OPEN_ARRAY) && depth <= MAX_DEPTH
      modifies this
      ensures Valid()
      ensures var r := ParseValue(json, old(position), depth, old(|tokens|), capacity);
              Agrees(status, r, ValueTokens(r, old(tokens), parent))
      decreases |json| - position, 0
    {
      ghost var start, before := position, tokens;
      var index := |tokens|;
      var ok := OpenToken(Array, parent);
      if !ok {
        ArrayUnfold(json, start, depth, index, capacity);
        return ErrorLimit;
      }
      ArrayOutcome(json, start, depth, before, parent, capacity);
      status := ArrayBody(index, depth);
    }

    /** A member's name and its colon, up to the value. */
    method MemberName(index: nat) returns (status: Status)
      requires Valid()
      modifies this
      ensures Valid()
      ensures var k := ParseKey(json, old(position), old(|tokens|), capacity);
              Agrees(status, k, if k.Ok? then old(tokens) + [HeadToken(k.value.name, index)] else [])
    {
      status := StringValue(index);
      if status != Okay {
        return;
      }
      SkipSpaces();
      if position >= |json| || json[position] != COLON {
        return ErrorJson;
      }
      position := position + 1;
      SkipSpaces();
    }

    /** A member's value and what comes behind it. */
    method MemberValue(index: nat, depth: nat, ghost k: Key) returns (status: Status, more: bool, ghost v: Value, ghost comma: nat)
      requires Valid() && index < |tokens|
      modifies this
      ensures Valid() && (more ==> old(position) < position)
      ensures var now := ParseMemberValue(json, k, old(position), depth, old(|tokens|), capacity);
              if more then
                && now == AfterMember(k, v, comma, ParseMembers(json, position, depth, |tokens|, capacity))
                && tokens == Grown(old(tokens), index) + TokensOf(v, old(|tokens|), index)
              else if status == Okay then
                && now == Ok(LastMember(k.name, k.colon, v), position, |tokens|)
                && tokens == Closed(old(tokens), index, 1, position) + TokensOf(v, old(|tokens|), index)
              else status == StatusOf(now)
      decreases |json| - position, 3
    {
      ghost var r, before := ParseValue(json, position, depth + 1, |tokens|, capacity), tokens;
      MemberValueUnfold(json, k, position, depth, |tokens|, capacity, r);
      status := Child(index, depth);
      more, v, comma := false, Str(0, 0), position;
      if status != Okay {
        return;
      }
      v := r.value;
      GrownCloses(before, index, TokensOf(v, |before|, index), position + 1);
      status, more := Delimiter(index, CLOSE_OBJECT);
    }

    /** One member and what comes behind it. */
    method ObjectMember(index: nat, depth: nat) returns (status: Status, more: bool, ghost k: Key, ghost v: Value, ghost comma: nat)
      requires Valid() && index < |tokens|
      modifies this
      ensures Valid() && (more ==> old(position) < position)
      ensures var now := ParseMembers(json, old(position), depth, old(|tokens|), capacity);
              if more then
                && now == AfterMember(k, v, comma, ParseMembers(json, position, depth, |tokens|, capacity))
                && tokens == Grown(old(tokens), index) + PairTokens(k, v, old(|tokens|), index)
              else if status == Okay then
                && now == Ok(LastMember(k.name, k.colon, v), position, |tokens|)
                && tokens == Closed(old(tokens), index, 1, position) + PairTokens(k, v, old(|tokens|), index)
              else status == StatusOf(now)
      decreases |json| - position, 4
    {
      ghost var name, before := ParseKey(json, position, |tokens|, capacity), tokens;
      status := MemberName(index);
      more, k, v, comma := false, Key(Str(0, 0), 0), Str(0, 0), position;
      if status != Okay {
        return;
      }
      k := name.value;
      status, more, v, comma := MemberValue(index, depth, k);
      GrownPair(before, index, k, v, position);
    }

    /** The loop of surf_json_parse_object. */
    method ObjectMembers(index: nat, depth: nat) returns (status: Status)
      requires Valid() && index + 1 == |tokens|
      modifies this
      ensures Valid()
      ensures var r := ParseMembers(json, old(position), depth, old(|tokens|), capacity);
              Agrees(status, r, if r.Ok? then Closed(old(tokens), index, MembersSize(r.value), r.end) + MemberTokens(r.value, index + 1, index) else [])
      decreases |json| - position, 5
    {
      ghost var all, now := ParseMembers(json, position, depth, |tokens|, capacity), ParseMembers(json, position, depth, |tokens|, capacity);
      ghost var made, size: nat, before := [], 0, tokens;
      while true
        invariant Valid() && old(position) <= position
        invariant tokens == Sized(before, index, size) + made
        invariant now == ParseMembers(json, position, depth, |tokens|, capacity) && MembersResume(all, now, index, made, size)
        decreases |json| - position
      {
        ghost var k: Key, v: Value, comma: nat;
        var more: bool;
        status, more, k, v, comma := ObjectMember(index, depth);
        ghost var pair := PairTokens(k, v, index + 1 + |made|, index);
        if !more {
          if status == Okay {
            MembersFinish(before, all, now, k, v, position, |tokens|, index, made, size);
          }
          return;
        }
        SizedGrows(before, index, size, made, pair);
        ghost var next := ParseMembers(json, position, depth, |tokens|, capacity);
        MembersResumeStep(all, now, k, v, comma, next, index, made, size);
        made, size, now := made + pair, size + 1, next;
      }
    }

    /** What follows the opening brace. */
    method ObjectBody(index: nat, depth: nat) returns (status: Status)
      requires Valid() && index + 1 == |tokens|
      modifies this
      ensures Valid()
      ensures var inner := SkipSpace(json, old(position));
              var r := ParseMembers(json, inner, depth, old(|tokens|), capacity);
              if ByteAt(json, inner, CLOSE_OBJECT) then
                status == Okay && position == inner + 1 && tokens == Closed(old(tokens), index, 0, position)
              else
                Agrees(status, r, if r.Ok? then Closed(old(tokens), index, MembersSize(r.value), r.end) + MemberTokens(r.value, index + 1, index) else [])
      decreases |json| - position, 6
    {
      SkipSpaces();
      if position < |json| && json[position] == CLOSE_OBJECT {
        position := position + 1;
        tokens := tokens[index := tokens[index].(end := position)];
        return Okay;
      }
      status := ObjectMembers(index, depth);
    }

    /** surf_json_parse_object, at an opening brace. */
    method ObjectValue(parent: int, depth: nat) returns (status: Status)
      requires Valid() && ByteAt(json, position, OPEN_OBJECT) && depth <= MAX_DEPTH
      modifies this
      ensures Valid()
      ensures var r := ParseValue(json, old(position), depth, old(|tokens|), capacity);
              Agrees(status, r, ValueTokens(r, old(tokens), parent))
      decreases |json| - position, 0
    {
      ghost var start, before := position, tokens;
      var index := |tokens|;
      var ok := OpenToken(Object, parent);
      if !ok {
        ObjectUnfold(json, start, depth, index, capacity);
        return ErrorLimit;
      }
      ObjectOutcome(json, start, depth, before, parent, capacity);
      status := ObjectBody(index, depth);
    }

    /** surf_json_parse_value. */
    method AnyValue(parent: int, depth: nat) returns (status: Status)
      requires Valid()
      modifies this
      ensures Valid()
      ensures var r := ParseValue(json, old(position), depth, old(|tokens|), capacity);
              Agrees(status, r, ValueTokens(r, old(tokens), parent))
      decreases |json| - position, 1
    {
      if depth > MAX_DEPTH {
        return ErrorLimit;
      }
      if position >= |json| {
        return ErrorJson;
      }
      ghost var r, before := ParseValue(json, position, depth, |tokens|, capacity), |tokens|;
      if json[position] == OPEN_OBJECT {
        status := ObjectValue(parent, depth);
      } else if json[position] == OPEN_ARRAY {
        status := ArrayValue(parent, depth);
      } else if json[position] == QUOTE {
        status := StringValue(parent);
      } else {
        status := PrimitiveValue(parent);
      }
      if status == Okay && (r.value.Str? || r.value.Prim?) {
        LeafTokens(r.value, before, parent);
      }
    }

    /**
      * surf_json_parse: the root's tokens and nothing behind the root.
      */
    method Run() returns (status: Status)
      modifies this
      ensures Valid()
      ensures var r := ParseText(json, capacity);
              Agrees(status, r, if r.Ok? then TokensOf(r.value, 0, NO_PARENT) else [])
    {
      position, tokens := 0, [];
      SkipSpaces();
      status := AnyValue(NO_PARENT, 0);
      if status != Okay {
        return;
      }
      SkipSpaces();
      if position != |json| {
        return ErrorJson;
      }
    }
  }
}
