/**
  * What the tokeniser accepts, as a recursive descent over positions.
  *
  * `count` is the number of tokens made so far and `cap` the room for them. The
  * tokeniser's own state lives in `JsonTokenisers`.
  */
module JsonParsers {
  import opened Options
  import opened Bytes
  import opened JsonGrammar
  import opened JsonNumbers

  const MAX_DEPTH: nat := 32

  datatype Parsed<+T> =
    | Ok(value: T, end: nat, count: nat)
    | Bad
    | Limit

  function SkipSpace(json: seq<Byte>, p: nat): (r: nat)
    requires p <= |json|
    ensures p <= r <= |json|
    decreases |json| - p
  {
    if p < |json| && IsSpace(json[p]) then SkipSpace(json, p + 1) else p
  }

  /** strchr finds the terminating NUL of the list of escapes too. */
  predicate AcceptedEscape(c: Byte) {
    IsSimpleEscape(c) || c == 0
  }

  predicate FourHexAt(json: seq<Byte>, p: nat) {
    HexAt(json, p) && HexAt(json, p + 1) && HexAt(json, p + 2) && HexAt(json, p + 3)
  }

  /** Where the closing quote is, for a body that starts at `p`. */
  function BodyEnd(json: seq<Byte>, p: nat): (r: Option<nat>)
    requires p <= |json|
    ensures r.Some? ==> p <= r.value < |json|
    decreases |json| - p
  {
    if p >= |json| then None
    else if json[p] == QUOTE then Some(p)
    else if json[p] < 32 then None
    else if json[p] == BACKSLASH then
      if p + 1 >= |json| then None
      else if json[p + 1] == 117 then
        if FourHexAt(json, p + 2) then BodyEnd(json, p + 6) else None
      else if AcceptedEscape(json[p + 1]) then BodyEnd(json, p + 2)
      else None
    else BodyEnd(json, p + 1)
  }

  predicate EndsPrimitive(c: Byte) {
    IsSpace(c) || c == COMMA || c == CLOSE_ARRAY || c == CLOSE_OBJECT
  }

  predicate BreaksPrimitive(c: Byte) {
    c < 32 || c == COLON || c == OPEN_ARRAY || c == OPEN_OBJECT || c == QUOTE
  }

  /** Where the run a primitive is read from ends; None when a byte that cannot be in one comes first. */
  function PrimitiveEnd(json: seq<Byte>, p: nat): (r: Option<nat>)
    requires p <= |json|
    ensures r.Some? ==> p <= r.value <= |json|
    decreases |json| - p
  {
    if p >= |json| || EndsPrimitive(json[p]) then Some(p)
    else if BreaksPrimitive(json[p]) then None
    else PrimitiveEnd(json, p + 1)
  }

  function ParseString(json: seq<Byte>, p: nat, count: nat, cap: nat): (r: Parsed<Value>)
    requires p <= |json|
    ensures r.Ok? ==> p < r.end <= |json| && r.value == Str(p, r.end)
  {
    if !ByteAt(json, p, QUOTE) then Bad
    else if count >= cap then Limit
    else
      var e := BodyEnd(json, p + 1);
      if e.None? then Bad else Ok(Str(p, e.value + 1), e.value + 1, count + 1)
  }

  function ParsePrimitive(json: seq<Byte>, p: nat, count: nat, cap: nat): (r: Parsed<Value>)
    requires p <= |json|
    ensures r.Ok? ==> p < r.end <= |json| && r.value == Prim(p, r.end)
  {
    if count >= cap then Limit
    else
      var e := PrimitiveEnd(json, p);
      if e.None? || e.value == p || !CheckPrimitive(json[p..e.value]) then Bad else Ok(Prim(p, e.value), e.value, count + 1)
  }

  // How a result is passed on to the value around it. None of these read the text.

  function Failure<T, U>(r: Parsed<T>): Parsed<U> {
    if r.Limit? then Limit else Bad
  }

  function AsArray(p: nat, r: Parsed<Items>): Parsed<Value> {
    if r.Ok? then Ok(Arr(p, r.end, r.value), r.end, r.count) else Failure(r)
  }

  function AsObject(p: nat, r: Parsed<Members>): Parsed<Value> {
    if r.Ok? then Ok(Obj(p, r.end, r.value), r.end, r.count) else Failure(r)
  }

  function AfterItem(v: Value, comma: nat, r: Parsed<Items>): Parsed<Items> {
    if r.Ok? then Ok(MoreItems(v, comma, r.value), r.end, r.count) else Failure(r)
  }

  function AfterMember(k: Key, v: Value, comma: nat, r: Parsed<Members>): Parsed<Members> {
    if r.Ok? then Ok(MoreMembers(k.name, k.colon, v, comma, r.value), r.end, r.count) else Failure(r)
  }

  function ParseLeaf(json: seq<Byte>, p: nat, count: nat, cap: nat): (r: Parsed<Value>)
    requires p <= |json|
    ensures r.Ok? ==> p < r.end <= |json|
  {
    if ByteAt(json, p, QUOTE) then ParseString(json, p, count, cap) else ParsePrimitive(json, p, count, cap)
  }

  function ParseValue(json: seq<Byte>, p: nat, depth: nat, count: nat, cap: nat): (r: Parsed<Value>)
    requires p <= |json|
    ensures r.Ok? ==> p < r.end <= |json|
    decreases |json| - p, 1
  {
    if depth > MAX_DEPTH then Limit
    else if p >= |json| then Bad
    else if json[p] == OPEN_OBJECT then
      if count >= cap then Limit
      else
        var inner := SkipSpace(json, p + 1);
        if ByteAt(json, inner, CLOSE_OBJECT) then Ok(EmptyObj(p, inner + 1), inner + 1, count + 1)
        else AsObject(p, ParseMembers(json, inner, depth, count + 1, cap))
    else if json[p] == OPEN_ARRAY then
      if count >= cap then Limit
      else
        var inner := SkipSpace(json, p + 1);
        if ByteAt(json, inner, CLOSE_ARRAY) then Ok(EmptyArr(p, inner + 1), inner + 1, count + 1)
        else AsArray(p, ParseItems(json, inner, depth, count + 1, cap))
    else ParseLeaf(json, p, count, cap)
  }

  /** From the first byte of an item to behind the closing bracket. */
  function ParseItems(json: seq<Byte>, p: nat, depth: nat, count: nat, cap: nat): (r: Parsed<Items>)
    requires p <= |json|
    ensures r.Ok? ==> p < r.end <= |json|
    decreases |json| - p, 2
  {
    var v := ParseValue(json, p, depth + 1, count, cap);
    if !v.Ok? then Failure(v)
    else
      var next := SkipSpace(json, v.end);
      if ByteAt(json, next, CLOSE_ARRAY) then Ok(LastItem(v.value), next + 1, v.count)
      else if !ByteAt(json, next, COMMA) then Bad
      else AfterItem(v.value, next, ParseItems(json, SkipSpace(json, next + 1), depth, v.count, cap))
  }

  /** A member's name and where its colon is. */
  datatype Key = Key(name: Value, colon: nat)

  /** From the opening quote of a name to the first byte of its value. */
  function ParseKey(json: seq<Byte>, p: nat, count: nat, cap: nat): (r: Parsed<Key>)
    requires p <= |json|
    ensures r.Ok? ==> p < r.end <= |json|
  {
    var name := ParseString(json, p, count, cap);
    if !name.Ok? then Failure(name)
    else
      var colon := SkipSpace(json, name.end);
      if !ByteAt(json, colon, COLON) then Bad
      else Ok(Key(name.value, colon), SkipSpace(json, colon + 1), name.count)
  }

  /** From the first byte of a member to behind the closing brace. */
  function ParseMembers(json: seq<Byte>, p: nat, depth: nat, count: nat, cap: nat): (r: Parsed<Members>)
    requires p <= |json|
    ensures r.Ok? ==> p < r.end <= |json|
    decreases |json| - p, 3
  {
    var k := ParseKey(json, p, count, cap);
    if !k.Ok? then Failure(k) else ParseMemberValue(json, k.value, k.end, depth, k.count, cap)
  }

  /** From the first byte of a member's value to behind the closing brace. */
  function ParseMemberValue(json: seq<Byte>, k: Key, p: nat, depth: nat, count: nat, cap: nat): (r: Parsed<Members>)
    requires p <= |json|
    ensures r.Ok? ==> p < r.end <= |json|
    decreases |json| - p, 2
  {
    var v := ParseValue(json, p, depth + 1, count, cap);
    if !v.Ok? then Failure(v)
    else
      var next := SkipSpace(json, v.end);
      if ByteAt(json, next, CLOSE_OBJECT) then Ok(LastMember(k.name, k.colon, v.value), next + 1, v.count)
      else if !ByteAt(json, next, COMMA) then Bad
      else AfterMember(k, v.value, next, ParseMembers(json, SkipSpace(json, next + 1), depth, v.count, cap))
  }

  /** surf_json_parse: one value, whitespace around it, nothing else. */
  function ParseText(json: seq<Byte>, cap: nat): Parsed<Value> {
    var v := ParseValue(json, SkipSpace(json, 0), 0, 0, cap);
    if !v.Ok? then v
    else if SkipSpace(json, v.end) != |json| then Bad
    else Ok(v.value, |json|, v.count)
  }
}
