/**
  * The flat token list a derivation leaves in the workspace, and its shape as a
  * tree: parents before children, spans nested and ordered, an object's children
  * alternating between a name and a value.
  */
module JsonTokens {
  import opened Bytes
  import opened JsonGrammar

  datatype Kind = Object | Array | String | Primitive

  /** `parent` is an index in the same list; NO_PARENT stands for SIZE_MAX. */
  datatype Token = Token(kind: Kind, start: nat, end: nat, size: nat, parent: int)

  const NO_PARENT := -1

  function StringToken(start: nat, end: nat, parent: int): Token
    requires start + 2 <= end
  {
    Token(String, start + 1, end - 1, 0, parent)
  }

  function ItemsSize(items: Items): nat {
    match items
    case LastItem(_) => 1
    case MoreItems(_, _, rest) => 1 + ItemsSize(rest)
  }

  function MembersSize(members: Members): nat {
    match members
    case LastMember(_, _, _) => 1
    case MoreMembers(_, _, _, _, rest) => 1 + MembersSize(rest)
  }

  /** The token of the value itself. A string's span leaves its quotes out. */
  function HeadToken(v: Value, parent: int): Token {
    match v
    case Str(start, end) => if start + 2 <= end then StringToken(start, end, parent) else Token(String, start, end, 0, parent)
    case Prim(start, end) => Token(Primitive, start, end, 0, parent)
    case EmptyArr(start, end) => Token(Array, start, end, 0, parent)
    case Arr(start, end, items) => Token(Array, start, end, ItemsSize(items), parent)
    case EmptyObj(start, end) => Token(Object, start, end, 0, parent)
    case Obj(start, end, members) => Token(Object, start, end, MembersSize(members), parent)
  }

  /** The tokens of a value whose own token goes to index `at`. */
  function TokensOf(v: Value, at: nat, parent: int): seq<Token>
    decreases v, 1
  {
    [HeadToken(v, parent)] + ChildTokens(v, at)
  }

  function ChildTokens(v: Value, at: nat): seq<Token>
    decreases v, 0
  {
    match v
    case Arr(_, _, items) => ItemTokens(items, at + 1, at)
    case Obj(_, _, members) => MemberTokens(members, at + 1, at)
    case _ => []
  }

  function ItemTokens(items: Items, at: nat, parent: int): seq<Token>
    decreases items, 0
  {
    match items
    case LastItem(v) => TokensOf(v, at, parent)
    case MoreItems(v, _, rest) => TokensOf(v, at, parent) + ItemTokens(rest, at + TokenCount(v), parent)
  }

  function MemberTokens(members: Members, at: nat, parent: int): seq<Token>
    decreases members, 0
  {
    match members
    case LastMember(key, _, v) => [HeadToken(key, parent)] + TokensOf(v, at + 1, parent)
    case MoreMembers(key, _, v, _, rest) =>
      [HeadToken(key, parent)] + TokensOf(v, at + 1, parent) + MemberTokens(rest, at + 1 + TokenCount(v), parent)
  }

  lemma {:induction false} TokensOfCount(v: Value, at: nat, parent: int)
    ensures |TokensOf(v, at, parent)| == TokenCount(v)
    decreases v, 1
  {
    match v
    case Arr(_, _, items) => ItemTokensCount(items, at + 1, at);
    case Obj(_, _, members) => MemberTokensCount(members, at + 1, at);
    case _ =>
  }

  lemma {:induction false} ItemTokensCount(items: Items, at: nat, parent: int)
    ensures |ItemTokens(items, at, parent)| == ItemsTokenCount(items)
    decreases items, 0
  {
    TokensOfCount(items.value, at, parent);
    if items.MoreItems? {
      ItemTokensCount(items.rest, at + TokenCount(items.value), parent);
    }
  }

  lemma {:induction false} MemberTokensCount(members: Members, at: nat, parent: int)
    ensures |MemberTokens(members, at, parent)| == MembersTokenCount(members)
    decreases members, 0
  {
    TokensOfCount(members.value, at + 1, parent);
    if members.MoreMembers? {
      MemberTokensCount(members.rest, at + 1 + TokenCount(members.value), parent);
    }
  }

  // ---- The shape of a token list -----------------------------------------------------------

  predicate Within(t: Token, from: nat, to: nat) {
    from <= t.start <= t.end <= to
  }

  /** The parent is either outside the list (`parent`) or an earlier token of it, whose span holds this one. */
  predicate NodeOk(ts: seq<Token>, at: nat, parent: int, from: nat, to: nat, i: nat)
    requires i < |ts|
  {
    && Within(ts[i], from, to)
    && (ts[i].parent == parent ||
        (at <= ts[i].parent < at + i && Within(ts[i], ts[ts[i].parent - at].start, ts[ts[i].parent - at].end)))
  }

  predicate Ordered(ts: seq<Token>, i: nat, j: nat)
    requires i < j < |ts|
  {
    ts[i].parent == ts[j].parent ==> ts[i].end <= ts[j].start
  }

  /** `ts`, at indices `at` on, holds whole subtrees side by side under `parent`, within the span from `from` to `to`. */
  predicate Forest(ts: seq<Token>, at: nat, parent: int, from: nat, to: nat) {
    && parent < at
    && (forall i :: 0 <= i < |ts| ==> NodeOk(ts, at, parent, from, to, i))
    && (forall i, j :: 0 <= i < j < |ts| ==> Ordered(ts, i, j))
  }

  lemma ForestJoin(a: seq<Token>, b: seq<Token>, at: nat, parent: int, from: nat, mid: nat, mid': nat, to: nat)
    requires Forest(a, at, parent, from, mid) && Forest(b, at + |a|, parent, mid', to) && from <= mid <= mid' <= to
    ensures Forest(a + b, at, parent, from, to)
  {
    var ts := a + b;
    forall i | 0 <= i < |ts| ensures NodeOk(ts, at, parent, from, to, i) {
      if i < |a| {
        assert NodeOk(a, at, parent, from, mid, i);
      } else {
        assert NodeOk(b, at + |a|, parent, mid', to, i - |a|);
      }
    }
    forall i, j | 0 <= i < j < |ts| ensures Ordered(ts, i, j) {
      if j < |a| {
        assert Ordered(a, i, j);
      } else {
        assert NodeOk(b, at + |a|, parent, mid', to, j - |a|);
        if i < |a| {
          assert NodeOk(a, at, parent, from, mid, i);
        } else {
          assert Ordered(b, i - |a|, j - |a|);
        }
      }
    }
  }

  lemma ForestRoot(root: Token, ts: seq<Token>, at: nat, parent: int, from: nat, to: nat)
    requires root.parent == parent < at && from <= to && Within(root, from, to) && Forest(ts, at + 1, at, root.start, root.end)
    ensures Forest([root] + ts, at, parent, from, to)
  {
    var all := [root] + ts;
    forall i | 0 <= i < |all| ensures NodeOk(all, at, parent, from, to, i) {
      if i > 0 {
        assert NodeOk(ts, at + 1, at, root.start, root.end, i - 1);
      }
    }
    forall i, j | 0 <= i < j < |all| ensures Ordered(all, i, j) {
      assert NodeOk(ts, at + 1, at, root.start, root.end, j - 1);
      if i > 0 {
        assert Ordered(ts, i - 1, j - 1);
      }
    }
  }

  lemma ForestOne(t: Token, at: nat, parent: int, from: nat, to: nat)
    requires t.parent == parent < at && Within(t, from, to)
    ensures Forest([t], at, parent, from, to)
  {
  }

  lemma ForestWiden(ts: seq<Token>, at: nat, parent: int, from: nat, to: nat, from': nat, to': nat)
    requires Forest(ts, at, parent, from, to) && from' <= from && to <= to'
    ensures Forest(ts, at, parent, from', to')
  {
    forall i | 0 <= i < |ts| ensures NodeOk(ts, at, parent, from', to', i) {
      assert NodeOk(ts, at, parent, from, to, i);
    }
  }

  lemma {:induction false} ValueForest(json: seq<Byte>, v: Value, at: nat, parent: int)
    requires Derives(json, v) && parent < at
    ensures v.start <= v.end && Forest(TokensOf(v, at, parent), at, parent, v.start, v.end)
    decreases v, 1
  {
    var head := HeadToken(v, parent);
    match v
    case Arr(start, end, items) =>
      ItemsForest(json, items, start + 1, end - 1, at + 1, at);
      ForestWiden(ItemTokens(items, at + 1, at), at + 1, at, start + 1, end - 1, start, end);
      ForestRoot(head, ItemTokens(items, at + 1, at), at, parent, start, end);
    case Obj(start, end, members) =>
      MembersForest(json, members, start + 1, end - 1, at + 1, at);
      ForestWiden(MemberTokens(members, at + 1, at), at + 1, at, start + 1, end - 1, start, end);
      ForestRoot(head, MemberTokens(members, at + 1, at), at, parent, start, end);
    case _ =>
      ForestOne(head, at, parent, v.start, v.end);
      assert TokensOf(v, at, parent) == [head];
  }

  lemma ForestThen(a: seq<Token>, b: seq<Token>, at: nat, parent: int, from: nat, start: nat, end: nat, next: nat, to: nat)
    requires Forest(a, at, parent, start, end) && Forest(b, at + |a|, parent, next, to)
    requires from <= start <= end <= next <= to
    ensures Forest(a + b, at, parent, from, to)
  {
    ForestWiden(a, at, parent, start, end, from, end);
    ForestJoin(a, b, at, parent, from, end, next, to);
  }

  /** An item and the items after it. */
  lemma ItemsJoin(items: Items, first: seq<Token>, rest: seq<Token>, from: nat, next: nat, to: nat, at: nat, parent: int)
    requires items.MoreItems? && first == TokensOf(items.value, at, parent) && |first| == TokenCount(items.value)
    requires rest == ItemTokens(items.rest, at + TokenCount(items.value), parent)
    requires Forest(first, at, parent, items.value.start, items.value.end) && Forest(rest, at + |first|, parent, next, to)
    requires from <= items.value.start <= items.value.end <= next <= to
    ensures Forest(ItemTokens(items, at, parent), at, parent, from, to)
  {
    ForestThen(first, rest, at, parent, from, items.value.start, items.value.end, next, to);
    assert ItemTokens(items, at, parent) == first + rest;
  }

  lemma {:induction false} ItemsForest(json: seq<Byte>, items: Items, from: nat, to: nat, at: nat, parent: int)
    requires DerivesItems(json, items, from, to) && parent < at
    ensures from <= to && Forest(ItemTokens(items, at, parent), at, parent, from, to)
    decreases items, 0
  {
    var v := items.value;
    var head := TokensOf(v, at, parent);
    ValueForest(json, v, at, parent);
    match items
    case LastItem(_) => ForestWiden(head, at, parent, v.start, v.end, from, to);
    case MoreItems(_, comma, rest) =>
      TokensOfCount(v, at, parent);
      ItemsForest(json, rest, comma + 1, to, at + TokenCount(v), parent);
      ItemsJoin(items, head, ItemTokens(rest, at + TokenCount(v), parent), from, comma + 1, to, at, parent);
  }

  /** A member's name and value side by side. */
  lemma MemberForest(json: seq<Byte>, key: Value, colon: nat, v: Value, from: nat, at: nat, parent: int, ts: seq<Token>)
    requires KeyAt(json, key, colon, from, v.start) && parent < at && v.start <= v.end
    requires Forest(ts, at + 1, parent, v.start, v.end)
    ensures from <= v.end && Forest([HeadToken(key, parent)] + ts, at, parent, from, v.end)
  {
    ForestOne(HeadToken(key, parent), at, parent, from, key.end);
    ForestJoin([HeadToken(key, parent)], ts, at, parent, from, key.end, v.start, v.end);
  }

  /** A member and the members after it. */
  lemma MembersJoin(members: Members, first: seq<Token>, rest: seq<Token>, from: nat, mid: nat, mid': nat, to: nat, at: nat, parent: int)
    requires members.MoreMembers? && first == [HeadToken(members.key, parent)] + TokensOf(members.value, at + 1, parent)
    requires rest == MemberTokens(members.rest, at + 1 + TokenCount(members.value), parent)
    requires |first| == 1 + TokenCount(members.value)
    requires Forest(first, at, parent, from, mid) && Forest(rest, at + |first|, parent, mid', to) && from <= mid <= mid' <= to
    ensures Forest(MemberTokens(members, at, parent), at, parent, from, to)
  {
    ForestJoin(first, rest, at, parent, from, mid, mid', to);
    assert MemberTokens(members, at, parent) == first + rest;
  }

  lemma {:induction false} MembersForest(json: seq<Byte>, members: Members, from: nat, to: nat, at: nat, parent: int)
    requires DerivesMembers(json, members, from, to) && parent < at
    ensures from <= to && Forest(MemberTokens(members, at, parent), at, parent, from, to)
    decreases members, 0
  {
    var v := members.value;
    var tokens := TokensOf(v, at + 1, parent);
    var first := [HeadToken(members.key, parent)] + tokens;
    assert DerivesMemberValue(json, members, to);
    ValueForest(json, v, at + 1, parent);
    MemberForest(json, members.key, members.colon, v, from, at, parent, tokens);
    match members
    case LastMember(_, _, _) => ForestWiden(first, at, parent, from, v.end, from, to);
    case MoreMembers(_, _, _, comma, rest) =>
      TokensOfCount(v, at + 1, parent);
      MembersForest(json, rest, comma + 1, to, at + 1 + TokenCount(v), parent);
      MembersJoin(members, first, MemberTokens(rest, at + 1 + TokenCount(v), parent), from, v.end, comma + 1, to, at, parent);
  }
}
