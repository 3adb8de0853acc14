/**
  * The grammar of JSON texts, sections 2 to 7 of RFC 8259. A derivation is a tree
  * of positions in the text; `Derives` says, production by production, that the
  * text between those positions is what the grammar asks for. String bytes above
  * 0x1F are unrestricted, as the tokeniser leaves UTF-8 to a later step.
  */
module JsonGrammar {
  import opened Bytes

  const QUOTE: Byte := 34
  const COMMA: Byte := 44
  const SLASH: Byte := 47
  const COLON: Byte := 58
  const OPEN_ARRAY: Byte := 91
  const BACKSLASH: Byte := 92
  const CLOSE_ARRAY: Byte := 93
  const OPEN_OBJECT: Byte := 123
  const CLOSE_OBJECT: Byte := 125

  predicate IsSpace(c: Byte) {
    c == 32 || c == 9 || c == 13 || c == 10
  }

  predicate IsDigit(c: Byte) {
    48 <= c <= 57
  }

  predicate IsHex(c: Byte) {
    IsDigit(c) || 97 <= c <= 102 || 65 <= c <= 70
  }

  /** The characters after a backslash other than u: " \ / b f n r t. */
  predicate IsSimpleEscape(c: Byte) {
    c == QUOTE || c == BACKSLASH || c == SLASH || c == 98 || c == 102 || c == 110 || c == 114 || c == 116
  }

  predicate Digits(s: seq<Byte>) {
    forall i :: 0 <= i < |s| ==> IsDigit(s[i])
  }

  // ---- Strings (section 7) ----------------------------------------------------------

  predicate HexAt(json: seq<Byte>, p: nat) {
    p < |json| && IsHex(json[p])
  }

  /** The bytes from `p` to `q` may stand between quotes. */
  predicate BodyAt(json: seq<Byte>, p: nat, q: nat)
    requires q <= |json|
    decreases q - p
  {
    p == q || (p < q &&
      if json[p] == BACKSLASH then
        && p + 2 <= q
        && if json[p + 1] == 117 then
             p + 6 <= q && HexAt(json, p + 2) && HexAt(json, p + 3) && HexAt(json, p + 4) && HexAt(json, p + 5)
             && BodyAt(json, p + 6, q)
           else IsSimpleEscape(json[p + 1]) && BodyAt(json, p + 2, q)
      else json[p] >= 32 && json[p] != QUOTE && BodyAt(json, p + 1, q))
  }

  // ---- Numbers (section 6) and literals (section 3) -----------------------------------

  /** An empty `fraction` or `exponent` stands for a missing part. */
  datatype Number = Number(minus: bool, whole: seq<Byte>, fraction: seq<Byte>, marker: Byte, sign: seq<Byte>, exponent: seq<Byte>)

  predicate ValidNumber(n: Number) {
    && n.whole != [] && Digits(n.whole) && (n.whole[0] == 48 ==> |n.whole| == 1)
    && Digits(n.fraction)
    && Digits(n.exponent)
    && (n.marker == 101 || n.marker == 69)
    && (n.sign == [] || n.sign == [43] || n.sign == [45])
  }

  function FractionText(n: Number): seq<Byte> {
    if n.fraction == [] then [] else [46] + n.fraction
  }

  function ExponentText(n: Number): seq<Byte> {
    if n.exponent == [] then [] else [n.marker] + n.sign + n.exponent
  }

  function NumberText(n: Number): seq<Byte> {
    (if n.minus then [45] else []) + n.whole + FractionText(n) + ExponentText(n)
  }

  const TRUE: seq<Byte> := [116, 114, 117, 101]
  const FALSE: seq<Byte> := [102, 97, 108, 115, 101]
  const NULL: seq<Byte> := [110, 117, 108, 108]

  predicate IsLiteral(s: seq<Byte>) {
    s == TRUE || s == FALSE || s == NULL
  }

  ghost predicate ValidPrimitive(s: seq<Byte>) {
    IsLiteral(s) || exists n: Number :: ValidNumber(n) && s == NumberText(n)
  }

  // ---- Values (sections 2 to 5) ---------------------------------------------------------

  /** The bytes from `p` to `q` are whitespace. */
  predicate SpacesAt(json: seq<Byte>, p: nat, q: nat) {
    p <= q <= |json| && forall i :: p <= i < q ==> IsSpace(json[i])
  }

  predicate ByteAt(json: seq<Byte>, p: nat, c: Byte) {
    p < |json| && json[p] == c
  }

  /** A derivation: which part of the text each value is. `start` and `end` include quotes and brackets. */
  datatype Value =
    | Str(start: nat, end: nat)
    | Prim(start: nat, end: nat)
    | EmptyArr(start: nat, end: nat)
    | Arr(start: nat, end: nat, items: Items)
    | EmptyObj(start: nat, end: nat)
    | Obj(start: nat, end: nat, members: Members)

  datatype Items =
    | LastItem(value: Value)
    | MoreItems(value: Value, comma: nat, rest: Items)

  datatype Members =
    | LastMember(key: Value, colon: nat, value: Value)
    | MoreMembers(key: Value, colon: nat, value: Value, comma: nat, rest: Members)

  predicate StringAt(json: seq<Byte>, start: nat, end: nat) {
    && start + 2 <= end <= |json|
    && ByteAt(json, start, QUOTE) && ByteAt(json, end - 1, QUOTE) && BodyAt(json, start + 1, end - 1)
  }

  ghost predicate PrimitiveAt(json: seq<Byte>, start: nat, end: nat) {
    start < end <= |json| && ValidPrimitive(json[start..end])
  }

  predicate BracketsAt(json: seq<Byte>, start: nat, end: nat, open: Byte, close: Byte) {
    start + 2 <= end <= |json| && ByteAt(json, start, open) && ByteAt(json, end - 1, close)
  }

  /** The value's part of the text is what the grammar says it is. */
  ghost predicate Derives(json: seq<Byte>, v: Value)
    decreases v, 0
  {
    match v
    case Str(start, end) => StringAt(json, start, end)
    case Prim(start, end) => PrimitiveAt(json, start, end)
    case EmptyArr(start, end) =>
      BracketsAt(json, start, end, OPEN_ARRAY, CLOSE_ARRAY) && SpacesAt(json, start + 1, end - 1)
    case Arr(start, end, items) =>
      BracketsAt(json, start, end, OPEN_ARRAY, CLOSE_ARRAY) && DerivesItems(json, items, start + 1, end - 1)
    case EmptyObj(start, end) =>
      BracketsAt(json, start, end, OPEN_OBJECT, CLOSE_OBJECT) && SpacesAt(json, start + 1, end - 1)
    case Obj(start, end, members) =>
      BracketsAt(json, start, end, OPEN_OBJECT, CLOSE_OBJECT) && DerivesMembers(json, members, start + 1, end - 1)
  }

  /** The items, with their commas and whitespace, fill the text from `from` to `to`. */
  ghost predicate DerivesItems(json: seq<Byte>, items: Items, from: nat, to: nat)
    decreases items, 0
  {
    match items
    case LastItem(v) => SpacesAt(json, from, v.start) && Derives(json, v) && SpacesAt(json, v.end, to)
    case MoreItems(v, comma, rest) =>
      && SpacesAt(json, from, v.start) && Derives(json, v) && SpacesAt(json, v.end, comma)
      && ByteAt(json, comma, COMMA) && DerivesItems(json, rest, comma + 1, to)
  }

  /** A member's name, its colon and the whitespace around both, from `from` to `to`. */
  predicate KeyAt(json: seq<Byte>, key: Value, colon: nat, from: nat, to: nat) {
    && SpacesAt(json, from, key.start) && key.Str? && StringAt(json, key.start, key.end) && SpacesAt(json, key.end, colon)
    && ByteAt(json, colon, COLON) && SpacesAt(json, colon + 1, to)
  }

  ghost predicate DerivesMembers(json: seq<Byte>, members: Members, from: nat, to: nat)
    decreases members, 1
  {
    && KeyAt(json, members.key, members.colon, from, members.value.start)
    && DerivesMemberValue(json, members, to)
  }

  /** The members without the first one's name and colon. */
  ghost predicate DerivesMemberValue(json: seq<Byte>, members: Members, to: nat)
    decreases members, 0
  {
    match members
    case LastMember(_, _, v) => Derives(json, v) && SpacesAt(json, v.end, to)
    case MoreMembers(_, _, v, comma, rest) =>
      && Derives(json, v) && SpacesAt(json, v.end, comma)
      && ByteAt(json, comma, COMMA) && DerivesMembers(json, rest, comma + 1, to)
  }

  /** A JSON text is one value with whitespace around it. */
  ghost predicate DerivesText(json: seq<Byte>, v: Value) {
    SpacesAt(json, 0, v.start) && Derives(json, v) && SpacesAt(json, v.end, |json|)
  }

  // ---- What the tokeniser limits ----------------------------------------------------------

  function Max(a: nat, b: nat): nat {
    if a < b then b else a
  }

  /** How deep values are nested inside this one. */
  function Height(v: Value): nat {
    match v
    case Arr(_, _, items) => ItemsHeight(items)
    case Obj(_, _, members) => MembersHeight(members)
    case _ => 0
  }

  function ItemsHeight(items: Items): nat {
    match items
    case LastItem(v) => Height(v) + 1
    case MoreItems(v, _, rest) => Max(Height(v) + 1, ItemsHeight(rest))
  }

  function MembersHeight(members: Members): nat {
    match members
    case LastMember(_, _, v) => Height(v) + 1
    case MoreMembers(_, _, v, _, rest) => Max(Height(v) + 1, MembersHeight(rest))
  }

  /** One token per value and one per member name. */
  function TokenCount(v: Value): nat {
    match v
    case Arr(_, _, items) => 1 + ItemsTokenCount(items)
    case Obj(_, _, members) => 1 + MembersTokenCount(members)
    case _ => 1
  }

  function ItemsTokenCount(items: Items): nat {
    match items
    case LastItem(v) => TokenCount(v)
    case MoreItems(v, _, rest) => TokenCount(v) + ItemsTokenCount(rest)
  }

  function MembersTokenCount(members: Members): nat {
    match members
    case LastMember(_, _, v) => 1 + TokenCount(v)
    case MoreMembers(_, _, v, _, rest) => 1 + TokenCount(v) + MembersTokenCount(rest)
  }
}
