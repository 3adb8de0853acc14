/** Looking a member up by name in the flat token list. */
module JsonFields {
  import opened Options
  import opened Bytes
  import opened JsonGrammar
  import opened JsonTokens

  datatype Field =
    | Found(token: nat)
    | Absent
    | FieldError
    | JsonError
    | TypeError

  /** surf_token_raw_equal: the name as it stands in the text, escapes and all. */
  predicate RawEqual(json: seq<Byte>, t: Token, name: seq<Byte>) {
    t.kind == String && t.start <= t.end <= |json| && json[t.start..t.end] == name
  }

  datatype Want = Name | OtherValue | NamedValue

  /** What the rest of the loop gives, from token `i` on. */
  function Scan(json: seq<Byte>, ts: seq<Token>, obj: nat, name: seq<Byte>, i: nat, want: Want, found: Option<nat>): Field
    requires i <= |ts|
    decreases |ts| - i
  {
    if i == |ts| then
      if want != Name then JsonError else if found.Some? then Found(found.value) else Absent
    else if ts[i].parent != obj then Scan(json, ts, obj, name, i + 1, want, found)
    else match want
      case Name =>
        if ts[i].kind != String then JsonError
        else Scan(json, ts, obj, name, i + 1, if RawEqual(json, ts[i], name) then NamedValue else OtherValue, found)
      case OtherValue => Scan(json, ts, obj, name, i + 1, Name, found)
      case NamedValue =>
        if found.Some? then FieldError else Scan(json, ts, obj, name, i + 1, Name, Some(i))
  }

  function FieldOf(json: seq<Byte>, ts: seq<Token>, obj: nat, name: seq<Byte>, required: bool): Field
    requires obj < |ts|
  {
    if ts[obj].kind != Object then TypeError
    else
      var r := Scan(json, ts, obj, name, obj + 1, Name, None);
      if r == Absent && required then FieldError else r
  }

  /** surf_object_field. */
  method ObjectField(json: seq<Byte>, ts: seq<Token>, obj: nat, name: seq<Byte>, required: bool) returns (r: Field)
    requires obj < |ts|
    ensures r == FieldOf(json, ts, obj, name, required)
  {
    if ts[obj].kind != Object {
      return TypeError;
    }
    var want := Name;
    var found: Option<nat> := None;
    var i := obj + 1;
    while i < |ts|
      invariant obj < i <= |ts|
      invariant Scan(json, ts, obj, name, obj + 1, Name, None) == Scan(json, ts, obj, name, i, want, found)
    {
      if ts[i].parent == obj {
        if want == Name {
          if ts[i].kind != String {
            return JsonError;
          }
          want := if RawEqual(json, ts[i], name) then NamedValue else OtherValue;
        } else {
          if want == NamedValue {
            if found.Some? {
              return FieldError;
            }
            found := Some(i);
          }
          want := Name;
        }
      }
      i := i + 1;
    }
    if want != Name {
      return JsonError;
    }
    if found.None? {
      return if required then FieldError else Absent;
    }
    return Found(found.value);
  }

  // ---- What the lookup means for the text ------------------------------------------------------

  /** The member's name, as it stands between the quotes. */
  predicate Named(json: seq<Byte>, key: Value, name: seq<Byte>) {
    key.start + 2 <= key.end <= |json| && json[key.start + 1..key.end - 1] == name
  }

  /** The token indices of the values of the members with that name. The first name's token is at `at`. */
  function Matches(json: seq<Byte>, members: Members, at: nat, name: seq<Byte>): seq<nat> {
    var here := if Named(json, members.key, name) then [at + 1] else [];
    match members
    case LastMember(_, _, _) => here
    case MoreMembers(_, _, v, _, rest) => here + Matches(json, rest, at + 1 + TokenCount(v), name)
  }

  function ValueMatches(json: seq<Byte>, v: Value, at: nat, name: seq<Byte>): seq<nat> {
    if v.Obj? then Matches(json, v.members, at + 1, name) else []
  }

  /** `v` is the node of the tree under `root` whose token is at index `o`, when the root's is at `at`. */
  predicate Occurs(root: Value, at: nat, v: Value, o: nat)
    decreases root, 1
  {
    || (root == v && o == at)
    || (root.Arr? && OccursItems(root.items, at + 1, v, o))
    || (root.Obj? && OccursMembers(root.members, at + 1, v, o))
  }

  predicate OccursItems(items: Items, at: nat, v: Value, o: nat)
    decreases items, 0
  {
    || Occurs(items.value, at, v, o)
    || (items.MoreItems? && OccursItems(items.rest, at + TokenCount(items.value), v, o))
  }

  predicate OccursMembers(members: Members, at: nat, v: Value, o: nat)
    decreases members, 0
  {
    || Occurs(members.value, at + 1, v, o)
    || (members.MoreMembers? && OccursMembers(members.rest, at + 1 + TokenCount(members.value), v, o))
  }

  predicate NotUnder(t: Token, obj: int) {
    t.parent != obj
  }

  // ---- Where an object's tokens are ------------------------------------------------------------

  /** The parent is outside the part of the list from `lo` to `hi`, or in it. */
  predicate Beneath(t: Token, parent: int, lo: nat, hi: nat) {
    t.parent == parent || lo <= t.parent < hi
  }

  /** `ts` stands at index `at` and holds whole subtrees of `parent`. */
  predicate AllBeneath(ts: seq<Token>, parent: int, at: nat) {
    forall k :: 0 <= k < |ts| ==> Beneath(ts[k], parent, at, at + |ts|)
  }

  lemma BeneathJoin(a: seq<Token>, b: seq<Token>, parent: int, at: nat)
    requires AllBeneath(a, parent, at) && AllBeneath(b, parent, at + |a|)
    ensures AllBeneath(a + b, parent, at)
  {
    forall k | 0 <= k < |a + b| ensures Beneath((a + b)[k], parent, at, at + |a + b|) {
      assert k < |a| ==> Beneath(a[k], parent, at, at + |a|);
      assert k >= |a| ==> Beneath(b[k - |a|], parent, at + |a|, at + |a| + |b|);
    }
  }

  lemma BeneathRoot(root: Token, ts: seq<Token>, parent: int, at: nat)
    requires root.parent == parent && AllBeneath(ts, at, at + 1)
    ensures AllBeneath([root] + ts, parent, at)
  {
    forall k | 0 <= k < |[root] + ts| ensures Beneath(([root] + ts)[k], parent, at, at + 1 + |ts|) {
      assert k > 0 ==> Beneath(ts[k - 1], at, at + 1, at + 1 + |ts|);
    }
  }

  lemma {:induction false} ChildTokensBeneath(v: Value, at: nat)
    ensures AllBeneath(ChildTokens(v, at), at, at + 1)
    decreases v, 0
  {
    match v
    case Arr(_, _, items) => ItemTokensBeneath(items, at + 1, at);
    case Obj(_, _, members) => MemberTokensBeneath(members, at + 1, at);
    case _ =>
  }

  lemma {:induction false} TokensOfBeneath(v: Value, at: nat, parent: int)
    ensures AllBeneath(TokensOf(v, at, parent), parent, at)
    decreases v, 1
  {
    ChildTokensBeneath(v, at);
    BeneathRoot(HeadToken(v, parent), ChildTokens(v, at), parent, at);
  }

  lemma {:induction false} ItemTokensBeneath(items: Items, at: nat, parent: int)
    ensures AllBeneath(ItemTokens(items, at, parent), parent, at)
    decreases items, 0
  {
    var v := items.value;
    TokensOfBeneath(v, at, parent);
    TokensOfCount(v, at, parent);
    if items.MoreItems? {
      ItemTokensBeneath(items.rest, at + TokenCount(v), parent);
      BeneathJoin(TokensOf(v, at, parent), ItemTokens(items.rest, at + TokenCount(v), parent), parent, at);
    }
  }

  function MemberHead(members: Members, at: nat, parent: int): seq<Token> {
    [HeadToken(members.key, parent)] + TokensOf(members.value, at + 1, parent)
  }

  lemma {:induction false} MemberHeadBeneath(members: Members, at: nat, parent: int)
    ensures AllBeneath(MemberHead(members, at, parent), parent, at)
    ensures |MemberHead(members, at, parent)| == 1 + TokenCount(members.value)
    decreases members, 0
  {
    TokensOfBeneath(members.value, at + 1, parent);
    TokensOfCount(members.value, at + 1, parent);
    BeneathJoin([HeadToken(members.key, parent)], TokensOf(members.value, at + 1, parent), parent, at);
  }

  lemma {:induction false} MemberTokensBeneath(members: Members, at: nat, parent: int)
    ensures AllBeneath(MemberTokens(members, at, parent), parent, at)
    decreases members, 1
  {
    MemberHeadBeneath(members, at, parent);
    if members.MoreMembers? {
      var next := at + 1 + TokenCount(members.value);
      MemberTokensBeneath(members.rest, next, parent);
      BeneathJoin(MemberHead(members, at, parent), MemberTokens(members.rest, next, parent), parent, at);
    }
  }

  /** Below the value's own token, every parent is one of the value's tokens. */
  lemma ValueTokensUnder(v: Value, at: nat, parent: nat)
    requires parent < at
    ensures var ts := TokensOf(v, at, parent);
            ts[0].parent == parent && forall k :: 1 <= k < |ts| ==> NotUnder(ts[k], parent)
  {
    var ts, cs := TokensOf(v, at, parent), ChildTokens(v, at);
    ChildTokensBeneath(v, at);
    forall k | 1 <= k < |ts| ensures NotUnder(ts[k], parent) {
      assert Beneath(cs[k - 1], at, at + 1, at + 1 + |cs|);
    }
  }

  /** In `ts`, whose first index is `at`, the tokens of `v` stand at `o`, and no other token has `o` as its parent. */
  ghost predicate InPlace(ts: seq<Token>, at: nat, v: Value, o: nat) {
    && at <= o && o + TokenCount(v) <= at + |ts|
    && (exists p: int :: ts[o - at..o - at + TokenCount(v)] == TokensOf(v, o, p))
    && forall i :: 0 <= i < |ts| && !(o <= at + i < o + TokenCount(v)) ==> NotUnder(ts[i], o)
  }

  lemma InPlaceLeft(a: seq<Token>, b: seq<Token>, at: nat, parent: int, v: Value, o: nat)
    requires InPlace(a, at, v, o) && AllBeneath(b, parent, at + |a|) && parent < at
    ensures InPlace(a + b, at, v, o)
  {
    var n := TokenCount(v);
    assert (a + b)[o - at..o - at + n] == a[o - at..o - at + n];
    forall i | 0 <= i < |a + b| && !(o <= at + i < o + n) ensures NotUnder((a + b)[i], o) {
      assert i < |a| ==> NotUnder(a[i], o);
      assert i >= |a| ==> Beneath(b[i - |a|], parent, at + |a|, at + |a| + |b|);
    }
  }

  lemma InPlaceRight(a: seq<Token>, b: seq<Token>, at: nat, parent: int, v: Value, o: nat)
    requires InPlace(b, at + |a|, v, o) && AllBeneath(a, parent, at) && parent < at
    ensures InPlace(a + b, at, v, o)
  {
    var n := TokenCount(v);
    var ts := a + b;
    assert ts[o - at..o - at + n] == b[o - at - |a|..o - at - |a| + n];
    forall i | 0 <= i < |ts| && !(o <= at + i < o + n) ensures NotUnder(ts[i], o) {
      assert i < |a| ==> Beneath(a[i], parent, at, at + |a|);
      assert i >= |a| ==> NotUnder(b[i - |a|], o);
    }
  }

  lemma RootInPlace(v: Value, at: nat, parent: int)
    ensures InPlace(TokensOf(v, at, parent), at, v, at)
  {
    var ts := TokensOf(v, at, parent);
    TokensOfCount(v, at, parent);
    assert ts[0..TokenCount(v)] == ts;
  }

  lemma {:induction false} OccursInPlace(root: Value, at: nat, parent: int, v: Value, o: nat)
    requires parent < at && Occurs(root, at, v, o)
    ensures InPlace(TokensOf(root, at, parent), at, v, o)
    decreases root, 1
  {
    if root == v && o == at {
      RootInPlace(v, at, parent);
    } else {
      if root.Arr? {
        ItemsInPlace(root.items, at + 1, at, v, o);
      } else {
        MembersInPlace(root.members, at + 1, at, v, o);
      }
      InPlaceRight([HeadToken(root, parent)], ChildTokens(root, at), at, parent, v, o);
    }
  }

  lemma {:induction false} ItemsInPlace(items: Items, at: nat, parent: int, v: Value, o: nat)
    requires parent < at && OccursItems(items, at, v, o)
    ensures InPlace(ItemTokens(items, at, parent), at, v, o)
    decreases items, 0
  {
    var w := items.value;
    var head, next := TokensOf(w, at, parent), at + TokenCount(w);
    TokensOfCount(w, at, parent);
    if Occurs(w, at, v, o) {
      OccursInPlace(w, at, parent, v, o);
      if items.MoreItems? {
        ItemTokensBeneath(items.rest, next, parent);
        InPlaceLeft(head, ItemTokens(items.rest, next, parent), at, parent, v, o);
      }
    } else {
      ItemsInPlace(items.rest, next, parent, v, o);
      TokensOfBeneath(w, at, parent);
      InPlaceRight(head, ItemTokens(items.rest, next, parent), at, parent, v, o);
    }
  }

  lemma {:induction false} MembersInPlace(members: Members, at: nat, parent: int, v: Value, o: nat)
    requires parent < at && OccursMembers(members, at, v, o)
    ensures InPlace(MemberTokens(members, at, parent), at, v, o)
    decreases members, 0
  {
    var w := members.value;
    var head, next := MemberHead(members, at, parent), at + 1 + TokenCount(w);
    MemberHeadBeneath(members, at, parent);
    if Occurs(w, at + 1, v, o) {
      OccursInPlace(w, at + 1, parent, v, o);
      InPlaceRight([HeadToken(members.key, parent)], TokensOf(w, at + 1, parent), at, parent, v, o);
      if members.MoreMembers? {
        MemberTokensBeneath(members.rest, next, parent);
        InPlaceLeft(head, MemberTokens(members.rest, next, parent), at, parent, v, o);
      }
    } else {
      MembersInPlace(members.rest, next, parent, v, o);
      InPlaceRight(head, MemberTokens(members.rest, next, parent), at, parent, v, o);
    }
  }

  // A node of a derived tree is derived.

  lemma {:induction false} OccursDerives(json: seq<Byte>, root: Value, at: nat, v: Value, o: nat)
    requires Derives(json, root) && Occurs(root, at, v, o)
    ensures Derives(json, v)
    decreases root, 1
  {
    if root != v || o != at {
      if root.Arr? {
        OccursItemsDerives(json, root.items, root.start + 1, root.end - 1, at + 1, v, o);
      } else {
        OccursMembersDerives(json, root.members, root.start + 1, root.end - 1, at + 1, v, o);
      }
    }
  }

  lemma {:induction false} OccursItemsDerives(json: seq<Byte>, items: Items, from: nat, to: nat, at: nat, v: Value, o: nat)
    requires DerivesItems(json, items, from, to) && OccursItems(items, at, v, o)
    ensures Derives(json, v)
    decreases items, 0
  {
    if Occurs(items.value, at, v, o) {
      OccursDerives(json, items.value, at, v, o);
    } else {
      OccursItemsDerives(json, items.rest, items.comma + 1, to, at + TokenCount(items.value), v, o);
    }
  }

  lemma {:induction false} OccursMembersDerives(json: seq<Byte>, members: Members, from: nat, to: nat, at: nat, v: Value, o: nat)
    requires DerivesMembers(json, members, from, to) && OccursMembers(members, at, v, o)
    ensures Derives(json, v)
    decreases members, 0
  {
    assert DerivesMemberValue(json, members, to);
    if Occurs(members.value, at + 1, v, o) {
      OccursDerives(json, members.value, at + 1, v, o);
    } else {
      OccursMembersDerives(json, members.rest, members.comma + 1, to, at + 1 + TokenCount(members.value), v, o);
    }
  }

  // ---- The scan over an object's tokens --------------------------------------------------------

  lemma {:induction false} ScanSkips(json: seq<Byte>, ts: seq<Token>, obj: nat, name: seq<Byte>, i: nat, j: nat, want: Want, found: Option<nat>)
    requires i <= j <= |ts| && forall k :: i <= k < j ==> NotUnder(ts[k], obj)
    ensures Scan(json, ts, obj, name, i, want, found) == Scan(json, ts, obj, name, j, want, found)
    decreases j - i
  {
    if i < j {
      assert NotUnder(ts[i], obj);
      ScanSkips(json, ts, obj, name, i + 1, j, want, found);
    }
  }

  /** `part` stands in `ts` from index `i` on. */
  predicate StandsAt(ts: seq<Token>, i: nat, part: seq<Token>) {
    i + |part| <= |ts| && forall k :: 0 <= k < |part| ==> ts[i + k] == part[k]
  }

  /** Past one value of the object the scan has noted it, or has found the name a second time. */
  lemma ScanValue(json: seq<Byte>, ts: seq<Token>, obj: nat, name: seq<Byte>, v: Value, i: nat, want: Want, found: Option<nat>)
    requires obj < i && StandsAt(ts, i, TokensOf(v, i, obj)) && want != Name
    ensures i + TokenCount(v) <= |ts|
    ensures Scan(json, ts, obj, name, i, want, found) ==
            if want == NamedValue && found.Some? then FieldError
            else Scan(json, ts, obj, name, i + TokenCount(v), Name, if want == NamedValue then Some(i) else found)
  {
    var vs := TokensOf(v, i, obj);
    TokensOfCount(v, i, obj);
    ValueTokensUnder(v, i, obj);
    assert ts[i] == vs[0];
    if want == OtherValue || found.None? {
      var found' := if want == NamedValue then Some(i) else found;
      forall k | i + 1 <= k < i + |vs| ensures NotUnder(ts[k], obj) {
        assert ts[i + (k - i)] == vs[k - i] && NotUnder(vs[k - i], obj);
      }
      ScanSkips(json, ts, obj, name, i + 1, i + |vs|, Name, found');
    }
  }

  /** What the scan gives when it has come past members that match at `ms`. */
  function ScanAfter(json: seq<Byte>, ts: seq<Token>, obj: nat, name: seq<Byte>, i: nat, found: Option<nat>, ms: seq<nat>): Field
    requires i <= |ts|
  {
    if |ms| == 0 then Scan(json, ts, obj, name, i, Name, found)
    else if |ms| == 1 && found.None? then Scan(json, ts, obj, name, i, Name, Some(ms[0]))
    else FieldError
  }

  predicate NameOk(json: seq<Byte>, key: Value) {
    key.Str? && key.start + 2 <= key.end <= |json|
  }

  predicate NamesOk(json: seq<Byte>, members: Members) {
    NameOk(json, members.key) && (members.MoreMembers? ==> NamesOk(json, members.rest))
  }

  lemma {:induction false} DerivedNamesOk(json: seq<Byte>, members: Members, from: nat, to: nat)
    requires DerivesMembers(json, members, from, to)
    ensures NamesOk(json, members)
    decreases members
  {
    assert DerivesMemberValue(json, members, to);
    if members.MoreMembers? {
      DerivedNamesOk(json, members.rest, members.comma + 1, to);
    }
  }

  lemma ScanMember(json: seq<Byte>, ts: seq<Token>, obj: nat, name: seq<Byte>, key: Value, v: Value, i: nat, found: Option<nat>)
    requires NameOk(json, key) && obj < i
    requires i < |ts| && ts[i] == HeadToken(key, obj) && StandsAt(ts, i + 1, TokensOf(v, i + 1, obj))
    ensures i + 1 + TokenCount(v) <= |ts|
    ensures Scan(json, ts, obj, name, i, Name, found) ==
            ScanAfter(json, ts, obj, name, i + 1 + TokenCount(v), found, if Named(json, key, name) then [i + 1] else [])
  {
    ScanValue(json, ts, obj, name, v, i + 1, if Named(json, key, name) then NamedValue else OtherValue, found);
  }

  lemma ScanAfterJoin(json: seq<Byte>, ts: seq<Token>, obj: nat, name: seq<Byte>, i: nat, found: Option<nat>, a: seq<nat>, b: seq<nat>)
    requires i <= |ts| && |a| <= 1
    ensures ScanAfter(json, ts, obj, name, i, found, a + b) ==
            if a == [] then ScanAfter(json, ts, obj, name, i, found, b)
            else if found.Some? then FieldError
            else ScanAfter(json, ts, obj, name, i, Some(a[0]), b)
  {
    if a == [] {
      assert a + b == b;
    } else if b == [] {
      assert a + b == a;
    }
  }

  /** The tokens of the first member and of the rest stand where the whole list says. */
  lemma MemberTokensStand(ts: seq<Token>, members: Members, i: nat, obj: nat)
    requires StandsAt(ts, i, MemberTokens(members, i, obj))
    ensures i < |ts| && ts[i] == HeadToken(members.key, obj) && StandsAt(ts, i + 1, TokensOf(members.value, i + 1, obj))
    ensures members.MoreMembers? ==>
              var next := i + 1 + TokenCount(members.value); StandsAt(ts, next, MemberTokens(members.rest, next, obj))
  {
    var all, vs := MemberTokens(members, i, obj), TokensOf(members.value, i + 1, obj);
    TokensOfCount(members.value, i + 1, obj);
    assert ts[i + 0] == all[0];
    forall k | 0 <= k < |vs| ensures ts[i + 1 + k] == vs[k] {
      assert ts[i + (1 + k)] == all[1 + k];
    }
    if members.MoreMembers? {
      var next := i + 1 + |vs|;
      var rest := MemberTokens(members.rest, next, obj);
      forall k | 0 <= k < |rest| ensures ts[next + k] == rest[k] {
        assert ts[i + (1 + |vs| + k)] == all[1 + |vs| + k];
      }
    }
  }

  function Here(json: seq<Byte>, members: Members, i: nat, name: seq<Byte>): seq<nat> {
    if Named(json, members.key, name) then [i + 1] else []
  }

  lemma ScanFirst(json: seq<Byte>, ts: seq<Token>, obj: nat, name: seq<Byte>, members: Members, i: nat, found: Option<nat>)
    requires NameOk(json, members.key) && obj < i && StandsAt(ts, i, MemberTokens(members, i, obj))
    ensures i + 1 + TokenCount(members.value) <= |ts|
    ensures Scan(json, ts, obj, name, i, Name, found) ==
            ScanAfter(json, ts, obj, name, i + 1 + TokenCount(members.value), found, Here(json, members, i, name))
  {
    MemberTokensStand(ts, members, i, obj);
    ScanMember(json, ts, obj, name, members.key, members.value, i, found);
  }

  /** From the first member on to what the rest was found to give. */
  lemma ScanRest(json: seq<Byte>, ts: seq<Token>, obj: nat, name: seq<Byte>, members: Members, i: nat, found: Option<nat>,
                 end: nat, rest: seq<nat>)
    requires members.MoreMembers? && i + 1 + TokenCount(members.value) <= end <= |ts|
    requires Scan(json, ts, obj, name, i, Name, found) ==
             ScanAfter(json, ts, obj, name, i + 1 + TokenCount(members.value), found, Here(json, members, i, name))
    requires var found' := if Named(json, members.key, name) then Some(i + 1) else found;
             Scan(json, ts, obj, name, i + 1 + TokenCount(members.value), Name, found') == ScanAfter(json, ts, obj, name, end, found', rest)
    ensures Scan(json, ts, obj, name, i, Name, found) == ScanAfter(json, ts, obj, name, end, found, Here(json, members, i, name) + rest)
  {
    ScanAfterJoin(json, ts, obj, name, end, found, Here(json, members, i, name), rest);
  }

  lemma {:induction false} ScanMembers(json: seq<Byte>, ts: seq<Token>, obj: nat, name: seq<Byte>, members: Members, i: nat, found: Option<nat>)
    requires NamesOk(json, members) && obj < i && StandsAt(ts, i, MemberTokens(members, i, obj))
    ensures i + MembersTokenCount(members) <= |ts|
    ensures Scan(json, ts, obj, name, i, Name, found) ==
            ScanAfter(json, ts, obj, name, i + MembersTokenCount(members), found, Matches(json, members, i, name))
    decreases members
  {
    ScanFirst(json, ts, obj, name, members, i, found);
    if members.MoreMembers? {
      var next := i + 1 + TokenCount(members.value);
      MemberTokensStand(ts, members, i, obj);
      ScanMembers(json, ts, obj, name, members.rest, next, if Named(json, members.key, name) then Some(i + 1) else found);
      ScanRest(json, ts, obj, name, members, i, found, next + MembersTokenCount(members.rest), Matches(json, members.rest, next, name));
    }
  }

  // ---- The lookup ------------------------------------------------------------------------------

  lemma MembersStand(ts: seq<Token>, v: Value, obj: nat, p: int)
    requires v.Obj? && obj + TokenCount(v) <= |ts| && ts[obj..obj + TokenCount(v)] == TokensOf(v, obj, p)
    ensures StandsAt(ts, obj + 1, MemberTokens(v.members, obj + 1, obj))
  {
    var slice, ms := ts[obj..obj + TokenCount(v)], MemberTokens(v.members, obj + 1, obj);
    assert slice == [HeadToken(v, p)] + ms;
    forall k | 0 <= k < |ms| ensures ts[obj + 1 + k] == ms[k] {
      assert slice[1 + k] == ms[k];
    }
  }

  lemma PlacedMembersStand(ts: seq<Token>, v: Value, obj: nat)
    requires InPlace(ts, 0, v, obj)
    ensures v.Obj? ==> StandsAt(ts, obj + 1, MemberTokens(v.members, obj + 1, obj))
    ensures obj + TokenCount(v) <= |ts| && forall k :: obj + TokenCount(v) <= k < |ts| ==> NotUnder(ts[k], obj)
  {
    if v.Obj? {
      var p: int :| ts[obj..obj + TokenCount(v)] == TokensOf(v, obj, p);
      MembersStand(ts, v, obj, p);
    }
  }

  /** Tokens that are not the object's own change nothing. */
  lemma ScanAfterSkips(json: seq<Byte>, ts: seq<Token>, obj: nat, name: seq<Byte>, i: nat, ms: seq<nat>)
    requires i <= |ts| && forall k :: i <= k < |ts| ==> NotUnder(ts[k], obj)
    ensures ScanAfter(json, ts, obj, name, i, None, ms) == ScanAfter(json, ts, obj, name, |ts|, None, ms)
  {
    ScanSkips(json, ts, obj, name, i, |ts|, Name, if |ms| == 1 then Some(ms[0]) else None);
  }

  lemma {:induction false} ScanOwn(json: seq<Byte>, ts: seq<Token>, obj: nat, name: seq<Byte>, v: Value)
    requires obj + TokenCount(v) <= |ts|
    requires v.EmptyObj? || (v.Obj? && NamesOk(json, v.members) && StandsAt(ts, obj + 1, MemberTokens(v.members, obj + 1, obj)))
    ensures Scan(json, ts, obj, name, obj + 1, Name, None) ==
            ScanAfter(json, ts, obj, name, obj + TokenCount(v), None, ValueMatches(json, v, obj, name))
  {
    if v.Obj? {
      ScanMembers(json, ts, obj, name, v.members, obj + 1, None);
    }
  }

  lemma ScanObject(json: seq<Byte>, ts: seq<Token>, obj: nat, name: seq<Byte>, v: Value)
    requires InPlace(ts, 0, v, obj) && (v.EmptyObj? || (v.Obj? && NamesOk(json, v.members)))
    ensures Scan(json, ts, obj, name, obj + 1, Name, None) ==
            ScanAfter(json, ts, obj, name, |ts|, None, ValueMatches(json, v, obj, name))
  {
    PlacedMembersStand(ts, v, obj);
    ScanOwn(json, ts, obj, name, v);
    ScanAfterSkips(json, ts, obj, name, obj + TokenCount(v), ValueMatches(json, v, obj, name));
  }

  /**
    * In the token list of an accepted text the lookup gives the value of the one
    * member with that name. A name that occurs twice is a field error, and so is a
    * required one that is missing. The list never looks malformed to it.
    */
  lemma LookupExact(json: seq<Byte>, root: Value, v: Value, obj: nat, name: seq<Byte>, required: bool)
    requires Derives(json, root) && Occurs(root, 0, v, obj)
    ensures var ts := TokensOf(root, 0, NO_PARENT);
            obj < |ts| && FieldOf(json, ts, obj, name, required) ==
              var matches := ValueMatches(json, v, obj, name);
              if !v.Obj? && !v.EmptyObj? then TypeError
              else if |matches| == 1 then Found(matches[0])
              else if |matches| == 0 && !required then Absent
              else FieldError
  {
    var ts := TokensOf(root, 0, NO_PARENT);
    OccursInPlace(root, 0, NO_PARENT, v, obj);
    OccursDerives(json, root, 0, v, obj);
    var n := TokenCount(v);
    var p: int :| ts[obj..obj + n] == TokensOf(v, obj, p);
    assert ts[obj] == ts[obj..obj + n][0] == HeadToken(v, p);
    if v.Obj? {
      DerivedNamesOk(json, v.members, v.start + 1, v.end - 1);
    }
    if v.Obj? || v.EmptyObj? {
      ScanObject(json, ts, obj, name, v);
    }
  }
}
