/** The grammar is unambiguous: a text has one derivation at most, however deep and however long. */
module JsonUniqueness {
  import opened Options
  import opened Bytes
  import opened JsonGrammar
  import opened JsonParsers
  import opened JsonExactness

  lemma LeafUnique(json: seq<Byte>, v: Value, w: Value)
    requires (v.Str? && w.Str?) || (v.Prim? && w.Prim?)
    requires Derives(json, v) && Derives(json, w) && v.start == w.start && Delimited(json, v.end) && Delimited(json, w.end)
    ensures v == w
  {
    if v.Str? {
      BodyComplete(json, v.start + 1, v.end - 1);
      BodyComplete(json, v.start + 1, w.end - 1);
    } else {
      PrimitiveComplete(json, v.start, v.end, 0, 1);
      PrimitiveComplete(json, v.start, w.end, 0, 1);
    }
  }

  /** Which production a value is. */
  datatype Production = AString | APrimitive | AnEmptyArray | AnArray | AnEmptyObject | AnObject

  function ProductionOf(v: Value): Production {
    match v
    case Str(_, _) => AString
    case Prim(_, _) => APrimitive
    case EmptyArr(_, _) => AnEmptyArray
    case Arr(_, _, _) => AnArray
    case EmptyObj(_, _) => AnEmptyObject
    case Obj(_, _, _) => AnObject
  }

  /** The first byte and the first one behind it that is not whitespace tell. */
  function ProductionAt(json: seq<Byte>, p: nat): Production
    requires p < |json|
  {
    var inner := SkipSpace(json, p + 1);
    if json[p] == QUOTE then AString
    else if json[p] == OPEN_ARRAY then (if ByteAt(json, inner, CLOSE_ARRAY) then AnEmptyArray else AnArray)
    else if json[p] == OPEN_OBJECT then (if ByteAt(json, inner, CLOSE_OBJECT) then AnEmptyObject else AnObject)
    else APrimitive
  }

  lemma PlainProduction(json: seq<Byte>, v: Value)
    requires Derives(json, v) && (v.Str? || v.Prim?)
    ensures v.start < |json| && ProductionAt(json, v.start) == ProductionOf(v)
  {
    if v.Prim? {
      PrimitiveStart(json, v.start, v.end);
    }
  }

  lemma EmptyProduction(json: seq<Byte>, v: Value)
    requires Derives(json, v) && (v.EmptyArr? || v.EmptyObj?)
    ensures v.start < |json| && ProductionAt(json, v.start) == ProductionOf(v)
  {
    SpacesDelimit(json, v.start + 1, v.end - 1);
  }

  lemma ArrayProduction(json: seq<Byte>, v: Value)
    requires Derives(json, v) && v.Arr?
    ensures v.start < |json| && ProductionAt(json, v.start) == AnArray
  {
    ItemsStart(json, v.items, v.start + 1, v.end - 1);
  }

  lemma ObjectProduction(json: seq<Byte>, v: Value)
    requires Derives(json, v) && v.Obj?
    ensures v.start < |json| && ProductionAt(json, v.start) == AnObject
  {
    MembersStart(json, v.members, v.start + 1, v.end - 1);
  }

  lemma {:induction false} ProductionIs(json: seq<Byte>, v: Value)
    requires Derives(json, v)
    ensures v.start < |json| && ProductionAt(json, v.start) == ProductionOf(v)
  {
    match v
    case Str(_, _) => PlainProduction(json, v);
    case Prim(_, _) => PlainProduction(json, v);
    case EmptyArr(_, _) => EmptyProduction(json, v);
    case EmptyObj(_, _) => EmptyProduction(json, v);
    case Arr(_, _, _) => ArrayProduction(json, v);
    case Obj(_, _, _) => ObjectProduction(json, v);
  }

  lemma SameProduction(json: seq<Byte>, v: Value, w: Value)
    requires Derives(json, v) && Derives(json, w) && v.start == w.start
    ensures ProductionOf(v) == ProductionOf(w)
  {
    ProductionIs(json, v);
    ProductionIs(json, w);
  }

  ghost predicate ArrayAt(json: seq<Byte>, v: Value) {
    v.Arr? && v.start + 2 <= v.end && ByteAt(json, v.end - 1, CLOSE_ARRAY) && DerivesItems(json, v.items, v.start + 1, v.end - 1)
  }

  ghost predicate ObjectAt(json: seq<Byte>, v: Value) {
    v.Obj? && v.start + 2 <= v.end && ByteAt(json, v.end - 1, CLOSE_OBJECT) && DerivesMembers(json, v.members, v.start + 1, v.end - 1)
  }

  lemma ListOf(json: seq<Byte>, v: Value)
    requires Derives(json, v)
    ensures (v.Arr? ==> ArrayAt(json, v)) && (v.Obj? ==> ObjectAt(json, v))
  {
  }

  lemma EmptyUnique(json: seq<Byte>, v: Value, w: Value)
    requires (v.EmptyArr? && w.EmptyArr?) || (v.EmptyObj? && w.EmptyObj?)
    requires Derives(json, v) && Derives(json, w) && v.start == w.start
    ensures v == w
  {
    SpacesDelimit(json, v.start + 1, v.end - 1);
    SpacesDelimit(json, w.start + 1, w.end - 1);
  }

  lemma {:induction false} ArrayUnique(json: seq<Byte>, v: Value, w: Value)
    requires ArrayAt(json, v) && ArrayAt(json, w) && v.start == w.start
    ensures v == w
    decreases v, 0
  {
    ItemsUnique(json, v.items, w.items, v.start + 1, v.end - 1, w.end - 1);
  }

  lemma {:induction false} ObjectUnique(json: seq<Byte>, v: Value, w: Value)
    requires ObjectAt(json, v) && ObjectAt(json, w) && v.start == w.start
    ensures v == w
    decreases v, 0
  {
    MembersUnique(json, v.members, w.members, v.start + 1, v.end - 1, w.end - 1);
  }

  /** Two values that start at the same byte and are delimited are the same. */
  lemma {:induction false} ValueUnique(json: seq<Byte>, v: Value, w: Value)
    requires Derives(json, v) && Derives(json, w) && v.start == w.start && Delimited(json, v.end) && Delimited(json, w.end)
    ensures v == w
    decreases v, 1
  {
    SameProduction(json, v, w);
    match ProductionOf(v)
    case AnArray =>
      ListOf(json, v);
      ListOf(json, w);
      ArrayUnique(json, v, w);
    case AnObject =>
      ListOf(json, v);
      ListOf(json, w);
      ObjectUnique(json, v, w);
    case AnEmptyArray => EmptyUnique(json, v, w);
    case AnEmptyObject => EmptyUnique(json, v, w);
    case _ => LeafUnique(json, v, w);
  }

  /** Where the first item ends, what follows it, and that the rest is a list again. */
  lemma ItemsParts(json: seq<Byte>, items: Items, from: nat, to: nat)
    requires DerivesItems(json, items, from, to) && ByteAt(json, to, CLOSE_ARRAY)
    ensures Derives(json, items.value) && SkipSpace(json, from) == items.value.start && items.value.end <= |json|
    ensures Delimited(json, items.value.end)
    ensures SkipSpace(json, items.value.end) == if items.LastItem? then to else items.comma
    ensures items.MoreItems? ==> ByteAt(json, items.comma, COMMA) && DerivesItems(json, items.rest, items.comma + 1, to)
  {
    ValueFollows(json, from, items.value);
    ValueStart(json, items.value);
    SpacesDelimit(json, items.value.end, if items.LastItem? then to else items.comma);
  }

  lemma {:induction false} ItemsUnique(json: seq<Byte>, a: Items, b: Items, from: nat, to: nat, to': nat)
    requires DerivesItems(json, a, from, to) && ByteAt(json, to, CLOSE_ARRAY)
    requires DerivesItems(json, b, from, to') && ByteAt(json, to', CLOSE_ARRAY)
    ensures a == b && to == to'
    decreases a, 0
  {
    ItemsParts(json, a, from, to);
    ItemsParts(json, b, from, to');
    ValueUnique(json, a.value, b.value);
    if a.MoreItems? && b.MoreItems? {
      ItemsUnique(json, a.rest, b.rest, a.comma + 1, to, to');
    }
  }

  /** Where a name, its colon and its value are, given where the name may start. */
  predicate PlacedFrom(json: seq<Byte>, key: Value, colon: nat, value: nat, from: nat) {
    && key.Str? && key.start + 2 <= key.end <= |json| && from <= |json| && colon < |json|
    && key.start == SkipSpace(json, from) && BodyEnd(json, key.start + 1) == Some(key.end - 1)
    && colon == SkipSpace(json, key.end) && value == SkipSpace(json, colon + 1)
  }

  lemma KeyPlaced(json: seq<Byte>, key: Value, colon: nat, v: Value, from: nat)
    requires KeyAt(json, key, colon, from, v.start) && Derives(json, v)
    ensures PlacedFrom(json, key, colon, v.start, from)
  {
    SkipSpaceComplete(json, from, key.start);
    BodyComplete(json, key.start + 1, key.end - 1);
    SkipSpaceComplete(json, key.end, colon);
    ValueFollows(json, colon + 1, v);
  }

  lemma KeyUnique(json: seq<Byte>, key: Value, colon: nat, value: nat, key': Value, colon': nat, value': nat, from: nat)
    requires PlacedFrom(json, key, colon, value, from) && PlacedFrom(json, key', colon', value', from)
    ensures key == key' && colon == colon' && value == value'
  {
  }

  lemma MembersPlaced(json: seq<Byte>, members: Members, from: nat, to: nat)
    requires DerivesMembers(json, members, from, to)
    ensures PlacedFrom(json, members.key, members.colon, members.value.start, from) && DerivesMemberValue(json, members, to)
  {
    assert DerivesMemberValue(json, members, to);
    KeyPlaced(json, members.key, members.colon, members.value, from);
  }

  lemma MembersParts(json: seq<Byte>, members: Members, to: nat)
    requires DerivesMemberValue(json, members, to) && ByteAt(json, to, CLOSE_OBJECT)
    ensures Derives(json, members.value) && members.value.end <= |json| && Delimited(json, members.value.end)
    ensures SkipSpace(json, members.value.end) == if members.LastMember? then to else members.comma
    ensures members.MoreMembers? ==> ByteAt(json, members.comma, COMMA) && DerivesMembers(json, members.rest, members.comma + 1, to)
  {
    ValueStart(json, members.value);
    SpacesDelimit(json, members.value.end, if members.LastMember? then to else members.comma);
  }

  lemma {:induction false} MembersUnique(json: seq<Byte>, a: Members, b: Members, from: nat, to: nat, to': nat)
    requires DerivesMembers(json, a, from, to) && ByteAt(json, to, CLOSE_OBJECT)
    requires DerivesMembers(json, b, from, to') && ByteAt(json, to', CLOSE_OBJECT)
    ensures a == b && to == to'
    decreases a, 0
  {
    MembersPlaced(json, a, from, to);
    MembersPlaced(json, b, from, to');
    MembersParts(json, a, to);
    MembersParts(json, b, to');
    KeyUnique(json, a.key, a.colon, a.value.start, b.key, b.colon, b.value.start, from);
    ValueUnique(json, a.value, b.value);
    if a.MoreMembers? && b.MoreMembers? {
      MembersUnique(json, a.rest, b.rest, a.comma + 1, to, to');
    }
  }

  /** No bound on depth or size: one text, one derivation. */
  lemma Unambiguous(json: seq<Byte>, v: Value, w: Value)
    requires DerivesText(json, v) && DerivesText(json, w)
    ensures v == w
  {
    ValueFollows(json, 0, v);
    ValueFollows(json, 0, w);
    ValueStart(json, v);
    ValueStart(json, w);
    SpacesDelimit(json, v.end, |json|);
    SpacesDelimit(json, w.end, |json|);
    ValueUnique(json, v, w);
  }
}
