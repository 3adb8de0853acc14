/** The tokeniser's recursive descent accepts exactly the grammar, within its limits. */
module JsonExactness {
  import opened Options
  import opened Bytes
  import opened JsonGrammar
  import opened JsonNumbers
  import opened JsonParsers

  predicate NoNul(json: seq<Byte>) {
    forall i :: 0 <= i < |json| ==> json[i] != 0
  }

  // ---- Whitespace, strings and primitives ---------------------------------------------------

  lemma {:induction false} SkipSpaceSound(json: seq<Byte>, p: nat)
    requires p <= |json|
    ensures SpacesAt(json, p, SkipSpace(json, p))
    ensures SkipSpace(json, p) < |json| ==> !IsSpace(json[SkipSpace(json, p)])
    decreases |json| - p
  {
    if p < |json| && IsSpace(json[p]) {
      SkipSpaceSound(json, p + 1);
    }
  }

  lemma {:induction false} SkipSpaceComplete(json: seq<Byte>, p: nat, q: nat)
    requires SpacesAt(json, p, q) && (q < |json| ==> !IsSpace(json[q]))
    ensures SkipSpace(json, p) == q
    decreases q - p
  {
    if p < q {
      SkipSpaceComplete(json, p + 1, q);
    }
  }

  lemma {:induction false} BodySound(json: seq<Byte>, p: nat)
    requires NoNul(json) && p <= |json| && BodyEnd(json, p).Some?
    ensures BodyAt(json, p, BodyEnd(json, p).value) && json[BodyEnd(json, p).value] == QUOTE
    decreases |json| - p
  {
    if json[p] != QUOTE {
      var k := if json[p] != BACKSLASH then 1 else if json[p + 1] == 117 then 6 else 2;
      BodySound(json, p + k);
    }
  }

  lemma {:induction false} BodyComplete(json: seq<Byte>, p: nat, q: nat)
    requires q < |json| && json[q] == QUOTE && BodyAt(json, p, q)
    ensures p <= q && BodyEnd(json, p) == Some(q)
    decreases q - p
  {
    if p < q {
      var k := if json[p] != BACKSLASH then 1 else if json[p + 1] == 117 then 6 else 2;
      BodyComplete(json, p + k, q);
    }
  }

  lemma StringSound(json: seq<Byte>, p: nat, count: nat, cap: nat)
    requires NoNul(json) && p <= |json| && ParseString(json, p, count, cap).Ok?
    ensures var r := ParseString(json, p, count, cap); StringAt(json, p, r.end) && r.count == count + 1 <= cap
  {
    BodySound(json, p + 1);
  }

  lemma StringComplete(json: seq<Byte>, start: nat, end: nat, count: nat, cap: nat)
    requires StringAt(json, start, end) && count < cap
    ensures ParseString(json, start, count, cap) == Ok(Str(start, end), end, count + 1)
  {
    BodyComplete(json, start + 1, end - 1);
  }

  /** What may follow a value. */
  predicate Delimited(json: seq<Byte>, p: nat) {
    p < |json| ==> EndsPrimitive(json[p])
  }

  predicate Plain(c: Byte) {
    !EndsPrimitive(c) && !BreaksPrimitive(c)
  }

  predicate AllPlain(s: seq<Byte>) {
    forall i :: 0 <= i < |s| ==> Plain(s[i])
  }

  lemma {:induction false} PrimitiveEndComplete(json: seq<Byte>, p: nat, q: nat)
    requires p <= q <= |json| && Delimited(json, q) && forall i :: p <= i < q ==> Plain(json[i])
    ensures PrimitiveEnd(json, p) == Some(q)
    decreases q - p
  {
    if p < q {
      PrimitiveEndComplete(json, p + 1, q);
    }
  }

  lemma NumberIsPlain(n: Number)
    requires ValidNumber(n)
    ensures NumberText(n) != [] && AllPlain(NumberText(n))
  {
    assert AllPlain(n.whole) && AllPlain(n.fraction) && AllPlain(n.exponent) && AllPlain(n.sign);
    assert AllPlain(FractionText(n));
    assert AllPlain(ExponentText(n));
  }

  lemma PrimitiveIsPlain(s: seq<Byte>)
    requires ValidPrimitive(s)
    ensures s != [] && AllPlain(s)
  {
    if !IsLiteral(s) {
      var n: Number :| ValidNumber(n) && s == NumberText(n);
      NumberIsPlain(n);
    }
  }

  lemma PrimitiveComplete(json: seq<Byte>, start: nat, end: nat, count: nat, cap: nat)
    requires PrimitiveAt(json, start, end) && Delimited(json, end) && count < cap
    ensures ParsePrimitive(json, start, count, cap) == Ok(Prim(start, end), end, count + 1)
    ensures Plain(json[start])
  {
    var s := json[start..end];
    PrimitiveIsPlain(s);
    forall i | start <= i < end ensures Plain(json[i]) {
      assert json[i] == s[i - start];
    }
    PrimitiveEndComplete(json, start, end);
    CheckPrimitiveExact(s);
  }

  // ---- Soundness: what is accepted is in the grammar ----------------------------------------

  ghost predicate SoundValue(json: seq<Byte>, p: nat, depth: nat, count: nat, cap: nat, r: Parsed<Value>) {
    r.Ok? ==>
      && Derives(json, r.value) && r.value.start == p && r.value.end == r.end
      && depth + Height(r.value) <= MAX_DEPTH
      && r.count == count + TokenCount(r.value) <= cap
  }

  ghost predicate SoundItems(json: seq<Byte>, p: nat, depth: nat, count: nat, cap: nat, r: Parsed<Items>) {
    r.Ok? ==>
      && p < r.end && ByteAt(json, r.end - 1, CLOSE_ARRAY) && DerivesItems(json, r.value, p, r.end - 1)
      && depth + ItemsHeight(r.value) <= MAX_DEPTH
      && r.count == count + ItemsTokenCount(r.value) <= cap
  }

  ghost predicate SoundMembers(json: seq<Byte>, p: nat, depth: nat, count: nat, cap: nat, r: Parsed<Members>) {
    r.Ok? ==>
      && p < r.end && ByteAt(json, r.end - 1, CLOSE_OBJECT) && DerivesMembers(json, r.value, p, r.end - 1)
      && depth + MembersHeight(r.value) <= MAX_DEPTH
      && r.count == count + MembersTokenCount(r.value) <= cap
  }

  /** The whitespace before the first one belongs to the list. */
  lemma ItemsPadded(json: seq<Byte>, p: nat, depth: nat, count: nat, cap: nat, r: Parsed<Items>)
    requires p <= |json| && SoundItems(json, SkipSpace(json, p), depth, count, cap, r)
    ensures SoundItems(json, p, depth, count, cap, r)
  {
    SkipSpaceSound(json, p);
  }

  /** The whitespace before the first one belongs to the list. */
  lemma MembersPadded(json: seq<Byte>, p: nat, depth: nat, count: nat, cap: nat, r: Parsed<Members>)
    requires p <= |json| && SoundMembers(json, SkipSpace(json, p), depth, count, cap, r)
    ensures SoundMembers(json, p, depth, count, cap, r)
  {
    SkipSpaceSound(json, p);
  }

  lemma LeafSound(json: seq<Byte>, p: nat, depth: nat, count: nat, cap: nat)
    requires NoNul(json) && p < |json| && depth <= MAX_DEPTH
    ensures SoundValue(json, p, depth, count, cap, ParseLeaf(json, p, count, cap))
  {
    if count < cap {
      if json[p] == QUOTE {
        if ParseString(json, p, count, cap).Ok? {
          StringSound(json, p, count, cap);
        }
      } else if PrimitiveEnd(json, p).Some? {
        CheckPrimitiveExact(json[p..PrimitiveEnd(json, p).value]);
      }
    }
  }

  lemma EmptySound(json: seq<Byte>, p: nat, depth: nat, count: nat, cap: nat)
    requires p < |json| && depth <= MAX_DEPTH && count < cap
    ensures var inner := SkipSpace(json, p + 1);
            && (ByteAt(json, p, OPEN_ARRAY) && ByteAt(json, inner, CLOSE_ARRAY) ==>
                  SoundValue(json, p, depth, count, cap, Ok(EmptyArr(p, inner + 1), inner + 1, count + 1)))
            && (ByteAt(json, p, OPEN_OBJECT) && ByteAt(json, inner, CLOSE_OBJECT) ==>
                  SoundValue(json, p, depth, count, cap, Ok(EmptyObj(p, inner + 1), inner + 1, count + 1)))
  {
    SkipSpaceSound(json, p + 1);
  }

  lemma ArraySound(json: seq<Byte>, p: nat, depth: nat, count: nat, cap: nat, r: Parsed<Items>)
    requires ByteAt(json, p, OPEN_ARRAY) && SoundItems(json, p + 1, depth, count + 1, cap, r)
    ensures SoundValue(json, p, depth, count, cap, AsArray(p, r))
  {
  }

  lemma ObjectSound(json: seq<Byte>, p: nat, depth: nat, count: nat, cap: nat, r: Parsed<Members>)
    requires ByteAt(json, p, OPEN_OBJECT) && SoundMembers(json, p + 1, depth, count + 1, cap, r)
    ensures SoundValue(json, p, depth, count, cap, AsObject(p, r))
  {
  }

  lemma {:induction false} ValueSound(json: seq<Byte>, p: nat, depth: nat, count: nat, cap: nat)
    requires NoNul(json) && p <= |json|
    ensures SoundValue(json, p, depth, count, cap, ParseValue(json, p, depth, count, cap))
    decreases |json| - p, 1
  {
    if depth <= MAX_DEPTH && p < |json| {
      var inner := SkipSpace(json, p + 1);
      if json[p] == OPEN_OBJECT {
        if count < cap {
          EmptySound(json, p, depth, count, cap);
          MembersSound(json, inner, depth, count + 1, cap);
          MembersPadded(json, p + 1, depth, count + 1, cap, ParseMembers(json, inner, depth, count + 1, cap));
          ObjectSound(json, p, depth, count, cap, ParseMembers(json, inner, depth, count + 1, cap));
        }
      } else if json[p] == OPEN_ARRAY {
        if count < cap {
          EmptySound(json, p, depth, count, cap);
          ItemsSound(json, inner, depth, count + 1, cap);
          ItemsPadded(json, p + 1, depth, count + 1, cap, ParseItems(json, inner, depth, count + 1, cap));
          ArraySound(json, p, depth, count, cap, ParseItems(json, inner, depth, count + 1, cap));
        }
      } else {
        LeafSound(json, p, depth, count, cap);
      }
    }
  }

  lemma LastItemSound(json: seq<Byte>, p: nat, depth: nat, count: nat, cap: nat, v: Parsed<Value>)
    requires SoundValue(json, p, depth + 1, count, cap, v) && v.Ok? && p < v.end <= |json|
    requires ByteAt(json, SkipSpace(json, v.end), CLOSE_ARRAY)
    ensures SoundItems(json, p, depth, count, cap, Ok(LastItem(v.value), SkipSpace(json, v.end) + 1, v.count))
  {
    SkipSpaceSound(json, v.end);
  }

  lemma MoreItemsSound(json: seq<Byte>, p: nat, depth: nat, count: nat, cap: nat, v: Parsed<Value>, next: nat, r: Parsed<Items>)
    requires SoundValue(json, p, depth + 1, count, cap, v) && v.Ok? && p < v.end <= |json| && p <= |json|
    requires next == SkipSpace(json, v.end) && ByteAt(json, next, COMMA)
    requires SoundItems(json, SkipSpace(json, next + 1), depth, v.count, cap, r)
    ensures SoundItems(json, p, depth, count, cap, AfterItem(v.value, next, r))
  {
    ItemsPadded(json, next + 1, depth, v.count, cap, r);
    SkipSpaceSound(json, v.end);
  }

  lemma {:induction false} ItemsSound(json: seq<Byte>, p: nat, depth: nat, count: nat, cap: nat)
    requires NoNul(json) && p <= |json|
    ensures SoundItems(json, p, depth, count, cap, ParseItems(json, p, depth, count, cap))
    decreases |json| - p, 2
  {
    var v := ParseValue(json, p, depth + 1, count, cap);
    ValueSound(json, p, depth + 1, count, cap);
    if v.Ok? {
      var next := SkipSpace(json, v.end);
      if ByteAt(json, next, CLOSE_ARRAY) {
        LastItemSound(json, p, depth, count, cap, v);
      } else if ByteAt(json, next, COMMA) {
        var at := SkipSpace(json, next + 1);
        ItemsSound(json, at, depth, v.count, cap);
        MoreItemsSound(json, p, depth, count, cap, v, next, ParseItems(json, at, depth, v.count, cap));
      }
    }
  }

  lemma KeySound(json: seq<Byte>, p: nat, count: nat, cap: nat)
    requires NoNul(json) && p <= |json| && ParseKey(json, p, count, cap).Ok?
    ensures var r := ParseKey(json, p, count, cap);
            KeyAt(json, r.value.name, r.value.colon, p, r.end) && r.count == count + 1 <= cap
  {
    StringSound(json, p, count, cap);
    var k := ParseString(json, p, count, cap);
    SkipSpaceSound(json, k.end);
    SkipSpaceSound(json, SkipSpace(json, k.end) + 1);
  }

  /** `p` is where the first value starts and `count` counts the first name. */
  ghost predicate SoundMemberValue(json: seq<Byte>, k: Key, p: nat, depth: nat, count: nat, cap: nat, r: Parsed<Members>) {
    r.Ok? ==>
      && p < r.end && ByteAt(json, r.end - 1, CLOSE_OBJECT)
      && r.value.key == k.name && r.value.colon == k.colon && r.value.value.start == p
      && DerivesMemberValue(json, r.value, r.end - 1)
      && depth + MembersHeight(r.value) <= MAX_DEPTH
      && r.count + 1 == count + MembersTokenCount(r.value) && r.count <= cap
  }

  lemma LastMemberSound(json: seq<Byte>, k: Key, p: nat, depth: nat, count: nat, cap: nat, v: Parsed<Value>)
    requires SoundValue(json, p, depth + 1, count, cap, v) && v.Ok? && p < v.end <= |json|
    requires ByteAt(json, SkipSpace(json, v.end), CLOSE_OBJECT)
    ensures SoundMemberValue(json, k, p, depth, count, cap, Ok(LastMember(k.name, k.colon, v.value), SkipSpace(json, v.end) + 1, v.count))
  {
    var last := LastMember(k.name, k.colon, v.value);
    SkipSpaceSound(json, v.end);
    assert DerivesMemberValue(json, last, SkipSpace(json, v.end));
    assert MembersHeight(last) == Height(v.value) + 1 && MembersTokenCount(last) == 1 + TokenCount(v.value);
  }

  lemma MoreMembersSound(json: seq<Byte>, k: Key, p: nat, depth: nat, count: nat, cap: nat, v: Parsed<Value>,
                         next: nat, r: Parsed<Members>)
    requires SoundValue(json, p, depth + 1, count, cap, v) && v.Ok? && p < v.end <= |json|
    requires next == SkipSpace(json, v.end) && ByteAt(json, next, COMMA)
    requires SoundMembers(json, SkipSpace(json, next + 1), depth, v.count, cap, r)
    ensures SoundMemberValue(json, k, p, depth, count, cap, AfterMember(k, v.value, next, r))
  {
    MembersPadded(json, next + 1, depth, v.count, cap, r);
    SkipSpaceSound(json, v.end);
  }

  lemma {:induction false} MemberValueSound(json: seq<Byte>, k: Key, p: nat, depth: nat, count: nat, cap: nat)
    requires NoNul(json) && p <= |json|
    ensures SoundMemberValue(json, k, p, depth, count, cap, ParseMemberValue(json, k, p, depth, count, cap))
    decreases |json| - p, 2
  {
    var v := ParseValue(json, p, depth + 1, count, cap);
    ValueSound(json, p, depth + 1, count, cap);
    if v.Ok? {
      var next := SkipSpace(json, v.end);
      if ByteAt(json, next, CLOSE_OBJECT) {
        LastMemberSound(json, k, p, depth, count, cap, v);
      } else if ByteAt(json, next, COMMA) {
        var from := SkipSpace(json, next + 1);
        MembersSound(json, from, depth, v.count, cap);
        MoreMembersSound(json, k, p, depth, count, cap, v, next, ParseMembers(json, from, depth, v.count, cap));
      }
    }
  }

  lemma KeyThenValueSound(json: seq<Byte>, k: Key, p: nat, at: nat, depth: nat, count: nat, cap: nat, r: Parsed<Members>)
    requires p < at && KeyAt(json, k.name, k.colon, p, at) && SoundMemberValue(json, k, at, depth, count + 1, cap, r)
    ensures SoundMembers(json, p, depth, count, cap, r)
  {
  }

  lemma {:induction false} MembersSound(json: seq<Byte>, p: nat, depth: nat, count: nat, cap: nat)
    requires NoNul(json) && p <= |json|
    ensures SoundMembers(json, p, depth, count, cap, ParseMembers(json, p, depth, count, cap))
    decreases |json| - p, 3
  {
    var k := ParseKey(json, p, count, cap);
    if k.Ok? {
      KeySound(json, p, count, cap);
      MemberValueSound(json, k.value, k.end, depth, k.count, cap);
      KeyThenValueSound(json, k.value, p, k.end, depth, count, cap, ParseMemberValue(json, k.value, k.end, depth, k.count, cap));
    }
  }

  // ---- Completeness: the grammar's texts are accepted, with the derivation they have -----------

  /** What a value can start with. */
  predicate StartsValue(json: seq<Byte>, p: nat) {
    p < |json| && !IsSpace(json[p]) && json[p] != CLOSE_ARRAY && json[p] != CLOSE_OBJECT
  }

  lemma PrimitiveStart(json: seq<Byte>, start: nat, end: nat)
    requires PrimitiveAt(json, start, end)
    ensures Plain(json[start])
  {
    PrimitiveIsPlain(json[start..end]);
    assert json[start] == json[start..end][0];
  }

  lemma ValueStart(json: seq<Byte>, v: Value)
    requires Derives(json, v)
    ensures v.start < v.end <= |json| && StartsValue(json, v.start)
  {
    if v.Prim? {
      PrimitiveStart(json, v.start, v.end);
    }
  }

  lemma ValueFollows(json: seq<Byte>, from: nat, v: Value)
    requires SpacesAt(json, from, v.start) && Derives(json, v)
    ensures SkipSpace(json, from) == v.start
  {
    ValueStart(json, v);
    SkipSpaceComplete(json, from, v.start);
  }

  /** Whitespace and a comma, a closing bracket or the end of the text delimit a value. */
  lemma SpacesDelimit(json: seq<Byte>, p: nat, q: nat)
    requires SpacesAt(json, p, q) && (q < |json| ==> json[q] == COMMA || json[q] == CLOSE_ARRAY || json[q] == CLOSE_OBJECT)
    ensures Delimited(json, p) && SkipSpace(json, p) == q
  {
    SkipSpaceComplete(json, p, q);
  }

  ghost predicate ReadyValue(json: seq<Byte>, v: Value, depth: nat, count: nat, cap: nat) {
    && Derives(json, v) && v.end <= |json| && Delimited(json, v.end)
    && depth + Height(v) <= MAX_DEPTH && count + TokenCount(v) <= cap
  }

  ghost predicate ReadyItems(json: seq<Byte>, items: Items, from: nat, to: nat, depth: nat, count: nat, cap: nat) {
    && DerivesItems(json, items, from, to) && ByteAt(json, to, CLOSE_ARRAY)
    && depth + ItemsHeight(items) <= MAX_DEPTH && count + ItemsTokenCount(items) <= cap
  }

  ghost predicate ReadyMembers(json: seq<Byte>, members: Members, from: nat, to: nat, depth: nat, count: nat, cap: nat) {
    && DerivesMembers(json, members, from, to) && ByteAt(json, to, CLOSE_OBJECT)
    && depth + MembersHeight(members) <= MAX_DEPTH && count + MembersTokenCount(members) <= cap
  }

  predicate Completes(json: seq<Byte>, v: Value, depth: nat, count: nat, cap: nat) {
    && v.start <= |json|
    && ParseValue(json, v.start, depth, count, cap) == Ok(v, v.end, count + TokenCount(v))
  }

  function FirstItem(items: Items): nat {
    items.value.start
  }

  function FirstMember(members: Members): nat {
    members.key.start
  }

  predicate CompletesItems(json: seq<Byte>, items: Items, to: nat, depth: nat, count: nat, cap: nat) {
    && FirstItem(items) <= |json|
    && ParseItems(json, FirstItem(items), depth, count, cap) == Ok(items, to + 1, count + ItemsTokenCount(items))
  }

  predicate CompletesMembers(json: seq<Byte>, members: Members, to: nat, depth: nat, count: nat, cap: nat) {
    && FirstMember(members) <= |json|
    && ParseMembers(json, FirstMember(members), depth, count, cap) == Ok(members, to + 1, count + MembersTokenCount(members))
  }

  lemma LeafComplete(json: seq<Byte>, v: Value, depth: nat, count: nat, cap: nat)
    requires (v.Str? || v.Prim?) && Derives(json, v) && Delimited(json, v.end) && depth <= MAX_DEPTH && count < cap
    ensures Completes(json, v, depth, count, cap)
  {
    ValueStart(json, v);
    if v.Str? {
      StringComplete(json, v.start, v.end, count, cap);
    } else {
      PrimitiveComplete(json, v.start, v.end, count, cap);
    }
  }

  lemma EmptyComplete(json: seq<Byte>, v: Value, depth: nat, count: nat, cap: nat)
    requires (v.EmptyArr? || v.EmptyObj?) && Derives(json, v) && depth <= MAX_DEPTH && count < cap
    ensures Completes(json, v, depth, count, cap)
  {
    SpacesDelimit(json, v.start + 1, v.end - 1);
  }

  lemma ItemsStart(json: seq<Byte>, items: Items, from: nat, to: nat)
    requires DerivesItems(json, items, from, to)
    ensures SkipSpace(json, from) == FirstItem(items) && StartsValue(json, FirstItem(items))
  {
    ValueFollows(json, from, items.value);
    ValueStart(json, items.value);
  }

  lemma MembersStart(json: seq<Byte>, members: Members, from: nat, to: nat)
    requires DerivesMembers(json, members, from, to)
    ensures SkipSpace(json, from) == FirstMember(members) && StartsValue(json, FirstMember(members))
  {
    SkipSpaceComplete(json, from, members.key.start);
  }

  lemma ArrayComplete(json: seq<Byte>, v: Value, depth: nat, count: nat, cap: nat)
    requires v.Arr? && Derives(json, v) && depth <= MAX_DEPTH && count < cap
    requires CompletesItems(json, v.items, v.end - 1, depth, count + 1, cap)
    ensures Completes(json, v, depth, count, cap)
  {
    ItemsStart(json, v.items, v.start + 1, v.end - 1);
  }

  lemma ObjectComplete(json: seq<Byte>, v: Value, depth: nat, count: nat, cap: nat)
    requires v.Obj? && Derives(json, v) && depth <= MAX_DEPTH && count < cap
    requires CompletesMembers(json, v.members, v.end - 1, depth, count + 1, cap)
    ensures Completes(json, v, depth, count, cap)
  {
    MembersStart(json, v.members, v.start + 1, v.end - 1);
  }

  lemma {:induction false} ValueComplete(json: seq<Byte>, v: Value, depth: nat, count: nat, cap: nat)
    requires ReadyValue(json, v, depth, count, cap)
    ensures Completes(json, v, depth, count, cap)
    decreases v
  {
    match v
    case Arr(start, end, items) =>
      ItemsComplete(json, items, start + 1, end - 1, depth, count + 1, cap);
      ArrayComplete(json, v, depth, count, cap);
    case Obj(start, end, members) =>
      MembersComplete(json, members, start + 1, end - 1, depth, count + 1, cap);
      ObjectComplete(json, v, depth, count, cap);
    case EmptyArr(_, _) => EmptyComplete(json, v, depth, count, cap);
    case EmptyObj(_, _) => EmptyComplete(json, v, depth, count, cap);
    case Str(_, _) => LeafComplete(json, v, depth, count, cap);
    case Prim(_, _) => LeafComplete(json, v, depth, count, cap);
  }

  lemma LastItemComplete(json: seq<Byte>, v: Value, to: nat, depth: nat, count: nat, cap: nat)
    requires Completes(json, v, depth + 1, count, cap) && v.end <= |json|
    requires SkipSpace(json, v.end) == to && ByteAt(json, to, CLOSE_ARRAY)
    ensures CompletesItems(json, LastItem(v), to, depth, count, cap)
  {
  }

  lemma ItemThenRest(json: seq<Byte>, v: Value, comma: nat, rest: Items, end: nat, depth: nat, c1: nat, c2: nat, c3: nat, cap: nat)
    requires v.start <= |json| && ParseValue(json, v.start, depth + 1, c1, cap) == Ok(v, v.end, c2)
    requires SkipSpace(json, v.end) == comma && ByteAt(json, comma, COMMA) && SkipSpace(json, comma + 1) == FirstItem(rest)
    requires ParseItems(json, FirstItem(rest), depth, c2, cap) == Ok(rest, end, c3)
    ensures ParseItems(json, v.start, depth, c1, cap) == Ok(MoreItems(v, comma, rest), end, c3)
  {
  }

  lemma MoreItemsComplete(json: seq<Byte>, v: Value, comma: nat, rest: Items, to: nat, depth: nat, count: nat, cap: nat)
    requires Completes(json, v, depth + 1, count, cap) && v.end <= |json|
    requires SkipSpace(json, v.end) == comma && ByteAt(json, comma, COMMA)
    requires SkipSpace(json, comma + 1) == FirstItem(rest)
    requires CompletesItems(json, rest, to, depth, count + TokenCount(v), cap)
    ensures CompletesItems(json, MoreItems(v, comma, rest), to, depth, count, cap)
  {
    var c := count + TokenCount(v);
    ItemThenRest(json, v, comma, rest, to + 1, depth, count, c, c + ItemsTokenCount(rest), cap);
  }

  /** What the grammar and the limits say of a list, split into its first item and the rest. */
  lemma ItemsSplit(json: seq<Byte>, items: Items, from: nat, to: nat, depth: nat, count: nat, cap: nat)
    requires ReadyItems(json, items, from, to, depth, count, cap)
    ensures ReadyValue(json, items.value, depth + 1, count, cap)
    ensures SkipSpace(json, items.value.end) == if items.LastItem? then to else items.comma
    ensures items.MoreItems? ==>
              && ReadyItems(json, items.rest, items.comma + 1, to, depth, count + TokenCount(items.value), cap)
              && ByteAt(json, items.comma, COMMA) && SkipSpace(json, items.comma + 1) == FirstItem(items.rest)
  {
    ValueStart(json, items.value);
    SpacesDelimit(json, items.value.end, if items.LastItem? then to else items.comma);
    if items.MoreItems? {
      ItemsStart(json, items.rest, items.comma + 1, to);
    }
  }

  lemma {:induction false} ItemsComplete(json: seq<Byte>, items: Items, from: nat, to: nat, depth: nat, count: nat, cap: nat)
    requires ReadyItems(json, items, from, to, depth, count, cap)
    ensures CompletesItems(json, items, to, depth, count, cap)
    decreases items
  {
    ItemsSplit(json, items, from, to, depth, count, cap);
    ValueComplete(json, items.value, depth + 1, count, cap);
    match items
    case LastItem(v) => LastItemComplete(json, v, to, depth, count, cap);
    case MoreItems(v, comma, rest) =>
      ItemsComplete(json, rest, comma + 1, to, depth, count + TokenCount(v), cap);
      MoreItemsComplete(json, v, comma, rest, to, depth, count, cap);
  }

  lemma KeyComplete(json: seq<Byte>, key: Value, colon: nat, from: nat, v: Value, count: nat, cap: nat)
    requires KeyAt(json, key, colon, from, v.start) && Derives(json, v) && count < cap
    ensures ParseKey(json, key.start, count, cap) == Ok(Key(key, colon), v.start, count + 1)
  {
    StringComplete(json, key.start, key.end, count, cap);
    SkipSpaceComplete(json, key.end, colon);
    ValueFollows(json, colon + 1, v);
  }

  predicate ReadsKey(json: seq<Byte>, key: Value, colon: nat, v: Value, count: nat, cap: nat) {
    key.start <= |json| && ParseKey(json, key.start, count, cap) == Ok(Key(key, colon), v.start, count + 1)
  }

  predicate CompletesMemberValue(json: seq<Byte>, members: Members, to: nat, depth: nat, count: nat, cap: nat) {
    && members.value.start <= |json|
    && ParseMemberValue(json, Key(members.key, members.colon), members.value.start, depth, count + 1, cap)
       == Ok(members, to + 1, count + MembersTokenCount(members))
  }

  lemma LastMemberComplete(json: seq<Byte>, key: Value, colon: nat, v: Value, to: nat, depth: nat, count: nat, cap: nat)
    requires Completes(json, v, depth + 1, count + 1, cap) && v.end <= |json|
    requires SkipSpace(json, v.end) == to && ByteAt(json, to, CLOSE_OBJECT)
    ensures CompletesMemberValue(json, LastMember(key, colon, v), to, depth, count, cap)
  {
  }

  lemma MemberValueUnfold(json: seq<Byte>, k: Key, p: nat, depth: nat, count: nat, cap: nat, v: Parsed<Value>, next: nat, at: nat)
    requires p <= |json| && v == ParseValue(json, p, depth + 1, count, cap) && v.Ok?
    requires next == SkipSpace(json, v.end) && ByteAt(json, next, COMMA) && at == SkipSpace(json, next + 1)
    ensures ParseMemberValue(json, k, p, depth, count, cap)
            == AfterMember(k, v.value, next, ParseMembers(json, at, depth, v.count, cap))
  {
  }

  lemma MemberThenRest(json: seq<Byte>, k: Key, v: Value, comma: nat, rest: Members, end: nat,
                            depth: nat, c1: nat, c2: nat, c3: nat, cap: nat)
    requires v.start <= |json| && ParseValue(json, v.start, depth + 1, c1, cap) == Ok(v, v.end, c2)
    requires SkipSpace(json, v.end) == comma && ByteAt(json, comma, COMMA) && SkipSpace(json, comma + 1) == FirstMember(rest)
    requires ParseMembers(json, FirstMember(rest), depth, c2, cap) == Ok(rest, end, c3)
    ensures ParseMemberValue(json, k, v.start, depth, c1, cap) == Ok(MoreMembers(k.name, k.colon, v, comma, rest), end, c3)
  {
    MemberValueUnfold(json, k, v.start, depth, c1, cap, Ok(v, v.end, c2), comma, FirstMember(rest));
  }

  lemma MoreMembersComplete(json: seq<Byte>, key: Value, colon: nat, v: Value, comma: nat, rest: Members, to: nat,
                            depth: nat, count: nat, cap: nat)
    requires Completes(json, v, depth + 1, count + 1, cap) && v.end <= |json|
    requires SkipSpace(json, v.end) == comma && ByteAt(json, comma, COMMA)
    requires SkipSpace(json, comma + 1) == FirstMember(rest)
    requires CompletesMembers(json, rest, to, depth, count + 1 + TokenCount(v), cap)
    ensures CompletesMemberValue(json, MoreMembers(key, colon, v, comma, rest), to, depth, count, cap)
  {
    var c := count + 1 + TokenCount(v);
    MemberThenRest(json, Key(key, colon), v, comma, rest, to + 1, depth, count + 1, c, c + MembersTokenCount(rest), cap);
  }

  lemma MemberComplete(json: seq<Byte>, members: Members, to: nat, depth: nat, count: nat, cap: nat)
    requires ReadsKey(json, members.key, members.colon, members.value, count, cap)
    requires CompletesMemberValue(json, members, to, depth, count, cap)
    ensures CompletesMembers(json, members, to, depth, count, cap)
  {
  }

  ghost predicate ReadyMemberValue(json: seq<Byte>, members: Members, to: nat, depth: nat, count: nat, cap: nat) {
    && DerivesMemberValue(json, members, to) && ByteAt(json, to, CLOSE_OBJECT)
    && depth + MembersHeight(members) <= MAX_DEPTH && count + MembersTokenCount(members) <= cap
  }

  lemma MembersSplit(json: seq<Byte>, members: Members, to: nat, depth: nat, count: nat, cap: nat)
    requires ReadyMemberValue(json, members, to, depth, count, cap)
    ensures ReadyValue(json, members.value, depth + 1, count + 1, cap)
    ensures SkipSpace(json, members.value.end) == if members.LastMember? then to else members.comma
    ensures members.MoreMembers? ==>
              && ReadyMembers(json, members.rest, members.comma + 1, to, depth, count + 1 + TokenCount(members.value), cap)
              && ByteAt(json, members.comma, COMMA) && SkipSpace(json, members.comma + 1) == FirstMember(members.rest)
  {
    ValueStart(json, members.value);
    SpacesDelimit(json, members.value.end, if members.LastMember? then to else members.comma);
    if members.MoreMembers? {
      MembersStart(json, members.rest, members.comma + 1, to);
    }
  }

  lemma {:induction false} MemberValueComplete(json: seq<Byte>, members: Members, to: nat, depth: nat, count: nat, cap: nat)
    requires ReadyMemberValue(json, members, to, depth, count, cap)
    ensures CompletesMemberValue(json, members, to, depth, count, cap)
    decreases members, 0
  {
    MembersSplit(json, members, to, depth, count, cap);
    ValueComplete(json, members.value, depth + 1, count + 1, cap);
    match members
    case LastMember(key, colon, v) => LastMemberComplete(json, key, colon, v, to, depth, count, cap);
    case MoreMembers(key, colon, v, comma, rest) =>
      MembersComplete(json, rest, comma + 1, to, depth, count + 1 + TokenCount(v), cap);
      MoreMembersComplete(json, key, colon, v, comma, rest, to, depth, count, cap);
  }

  lemma {:induction false} MembersComplete(json: seq<Byte>, members: Members, from: nat, to: nat, depth: nat, count: nat, cap: nat)
    requires ReadyMembers(json, members, from, to, depth, count, cap)
    ensures CompletesMembers(json, members, to, depth, count, cap)
    decreases members, 1
  {
    assert DerivesMemberValue(json, members, to);
    KeyComplete(json, members.key, members.colon, from, members.value, count, cap);
    MemberValueComplete(json, members, to, depth, count, cap);
    MemberComplete(json, members, to, depth, count, cap);
  }

  // ---- The whole text ----------------------------------------------------------------------------

  /** The text is a JSON text that fits the tokeniser's limits, and `v` is a derivation of it. */
  ghost predicate Accepts(json: seq<Byte>, cap: nat, v: Value) {
    DerivesText(json, v) && Height(v) <= MAX_DEPTH && TokenCount(v) <= cap
  }

  lemma TextSound(json: seq<Byte>, cap: nat)
    requires NoNul(json) && ParseText(json, cap).Ok?
    ensures Accepts(json, cap, ParseText(json, cap).value)
    ensures ParseText(json, cap).count == TokenCount(ParseText(json, cap).value)
  {
    var p := SkipSpace(json, 0);
    SkipSpaceSound(json, 0);
    ValueSound(json, p, 0, 0, cap);
    SkipSpaceSound(json, ParseValue(json, p, 0, 0, cap).end);
  }

  /** A derivation within the limits is what the tokeniser finds, and it finds it in all of the text. */
  lemma TextComplete(json: seq<Byte>, cap: nat, v: Value)
    requires Accepts(json, cap, v)
    ensures ParseText(json, cap) == Ok(v, |json|, TokenCount(v))
  {
    ValueFollows(json, 0, v);
    ValueStart(json, v);
    SpacesDelimit(json, v.end, |json|);
    ValueComplete(json, v, 0, 0, cap);
  }

  // No JSON text holds a NUL byte, so a text with one is not in the grammar even if the tokeniser takes it.

  predicate NoNulAt(json: seq<Byte>, p: nat, q: nat) {
    q <= |json| && forall i :: p <= i < q ==> json[i] != 0
  }

  lemma {:induction false} BodyHasNoNul(json: seq<Byte>, p: nat, q: nat)
    requires q <= |json| && BodyAt(json, p, q)
    ensures NoNulAt(json, p, q)
    decreases q - p
  {
    if p < q {
      var k := if json[p] != BACKSLASH then 1 else if json[p + 1] == 117 then 6 else 2;
      BodyHasNoNul(json, p + k, q);
    }
  }

  lemma PrimitiveHasNoNul(json: seq<Byte>, start: nat, end: nat)
    requires PrimitiveAt(json, start, end)
    ensures NoNulAt(json, start, end)
  {
    var s := json[start..end];
    PrimitiveIsPlain(s);
    forall i | start <= i < end ensures json[i] != 0 {
      assert json[i] == s[i - start] && Plain(s[i - start]);
    }
  }

  lemma {:induction false} ValueHasNoNul(json: seq<Byte>, v: Value)
    requires Derives(json, v)
    ensures v.start < v.end && NoNulAt(json, v.start, v.end)
    decreases v, 0
  {
    match v
    case Str(start, end) => BodyHasNoNul(json, start + 1, end - 1);
    case Prim(start, end) => PrimitiveHasNoNul(json, start, end);
    case Arr(start, end, items) => ItemsHaveNoNul(json, items, start + 1, end - 1);
    case Obj(start, end, members) => MembersHaveNoNul(json, members, start + 1, end - 1);
    case _ =>
  }

  lemma {:induction false} ItemsHaveNoNul(json: seq<Byte>, items: Items, from: nat, to: nat)
    requires DerivesItems(json, items, from, to)
    ensures from <= to && NoNulAt(json, from, to)
    decreases items, 0
  {
    ValueHasNoNul(json, items.value);
    if items.MoreItems? {
      ItemsHaveNoNul(json, items.rest, items.comma + 1, to);
    }
  }

  lemma KeyHasNoNul(json: seq<Byte>, key: Value, colon: nat, from: nat, to: nat)
    requires KeyAt(json, key, colon, from, to)
    ensures from <= to && NoNulAt(json, from, to)
  {
    BodyHasNoNul(json, key.start + 1, key.end - 1);
  }

  lemma {:induction false} MembersHaveNoNul(json: seq<Byte>, members: Members, from: nat, to: nat)
    requires DerivesMembers(json, members, from, to)
    ensures from <= to && NoNulAt(json, from, to)
    decreases members, 1
  {
    KeyHasNoNul(json, members.key, members.colon, from, members.value.start);
    MemberValueHasNoNul(json, members, to);
  }

  lemma {:induction false} MemberValueHasNoNul(json: seq<Byte>, members: Members, to: nat)
    requires DerivesMemberValue(json, members, to)
    ensures members.value.start <= to && NoNulAt(json, members.value.start, to)
    decreases members, 0
  {
    ValueHasNoNul(json, members.value);
    if members.MoreMembers? {
      MembersHaveNoNul(json, members.rest, members.comma + 1, to);
    }
  }

  /** The grammar's texts are those the tokeniser accepts, save those with a NUL byte. */
  lemma TokeniserExact(json: seq<Byte>, cap: nat)
    ensures (exists v: Value :: Accepts(json, cap, v)) <==> ParseText(json, cap).Ok? && NoNul(json)
  {
    if ParseText(json, cap).Ok? && NoNul(json) {
      TextSound(json, cap);
    }
    forall v: Value | Accepts(json, cap, v) ensures ParseText(json, cap).Ok? && NoNul(json) {
      TextComplete(json, cap, v);
      ValueHasNoNul(json, v);
    }
  }

  /** A backslash and a NUL byte between quotes: accepted, although no JSON text. */
  lemma EscapedNulAccepted()
    ensures var json: seq<Byte> := [QUOTE, BACKSLASH, 0, QUOTE];
            ParseText(json, 1).Ok? && !exists v: Value :: Accepts(json, 1, v)
  {
    var json: seq<Byte> := [QUOTE, BACKSLASH, 0, QUOTE];
    assert BodyEnd(json, 3) == Some(3);
    assert BodyEnd(json, 1) == Some(3);
    assert ParseText(json, 1) == Ok(Str(0, 4), 4, 1);
    TokeniserExact(json, 1);
    assert json[2] == 0;
  }
}
