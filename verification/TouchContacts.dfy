/**
  * The touch lane's contacts: which client contact is which browser contact, and
  * what the browser has been told. One `Process` call is one step; a queued
  * cancellation is the other. What the controller, the client and the browser answer
  * during a step is its `Surroundings`.
  */
module TouchContacts {
  import opened Options

  const MAX_CONTACTS: nat := 5

  datatype Phase = Start | Move | End | Cancel | Unknown

  /** Coordinates, radii and force have to be in the unit interval. */
  datatype Point = Point(id: int, x: real, y: real, radiusX: real, radiusY: real, force: real)

  datatype Command = Command(phase: Phase, sequence: nat, surface: nat, timestamp: nat, points: seq<Point>)

  /** `session` 0 stands for no active tab. The last three say whether calls into the browser succeed. */
  datatype Surroundings = Surroundings(suspended: bool, closed: bool, session: nat, surface: nat,
                                       firstViewport: bool, viewport: bool, dispatch: bool)

  /** What is dispatched, with the browser's contact numbers. A release of every contact names none. */
  datatype Event = TouchStart(ids: seq<int>) | TouchMove(ids: seq<int>) | TouchEnd(ids: seq<int>) | TouchCancel

  datatype Contacts = Contacts(owner: Option<nat>, session: nat, surface: nat, lastSeq: nat, lastClientNS: nat,
                               active: map<int, Point>, ids: map<int, int>)

  /** A step's new state and the events that reached the browser. */
  datatype Outcome = Outcome(contacts: Contacts, sent: seq<Event>)

  const Idle := Contacts(None, 0, 0, 0, 0, map[], map[])

  const MAX_INT64: nat := 0x7FFF_FFFF_FFFF_FFFF

  predicate Unit(x: real) {
    0.0 <= x <= 1.0
  }

  predicate UnitPoint(p: Point) {
    Unit(p.x) && Unit(p.y) && Unit(p.radiusX) && Unit(p.radiusY) && Unit(p.force)
  }

  predicate ValidCommand(c: Command) {
    && c.sequence != 0 && c.surface != 0 && c.timestamp != 0 && c.timestamp <= MAX_INT64
    && match c.phase
       case Cancel => |c.points| == 0
       case Unknown => false
       case _ => 0 < |c.points| <= MAX_CONTACTS
  }

  // ---- The steps ------------------------------------------------------------------------

  /** The lowest number below `n` that is free from `k` on. */
  function LowestFree(used: set<int>, k: nat): (r: Option<int>)
    requires k <= MAX_CONTACTS
    ensures r.Some? ==> k <= r.value < MAX_CONTACTS && r.value !in used
    ensures r.None? ==> forall j :: k <= j < MAX_CONTACTS ==> j in used
    decreases MAX_CONTACTS - k
  {
    if k == MAX_CONTACTS then None
    else if k !in used then Some(k)
    else LowestFree(used, k + 1)
  }

  function AddId(ids: map<int, int>, id: int): Option<map<int, int>> {
    if id in ids then Some(ids)
    else
      var free := LowestFree(ids.Values, 0);
      if free.None? then None else Some(ids[id := free.value])
  }

  /** The first loop over a command's points: no repeats, known where they have to be, numbered when new. */
  function Admit(phase: Phase, active: set<int>, points: seq<Point>, seen: set<int>, ids: map<int, int>): Option<map<int, int>>
    decreases |points|
  {
    if points == [] then Some(ids)
    else
      var id := points[0].id;
      if id in seen || (phase == Start) == (id in active) then None
      else
        var more := if phase == Start then AddId(ids, id) else Some(ids);
        if more.None? then None else Admit(phase, active, points[1..], seen + {id}, more.value)
  }

  function IdsOf(points: seq<Point>): set<int> {
    set i | 0 <= i < |points| :: points[i].id
  }

  /** The second loop: every point has a number and usable coordinates. */
  predicate Mappable(points: seq<Point>, ids: map<int, int>) {
    forall i :: 0 <= i < |points| ==> points[i].id in ids && UnitPoint(points[i])
  }

  function BrowserIds(points: seq<Point>, ids: map<int, int>): (r: seq<int>)
    requires Mappable(points, ids)
    ensures |r| == |points| && forall i :: 0 <= i < |points| ==> r[i] == ids[points[i].id]
  {
    seq(|points|, i requires 0 <= i < |points| => ids[points[i].id])
  }

  function Store(active: map<int, Point>, points: seq<Point>): map<int, Point>
    decreases |points|
  {
    if points == [] then active else Store(active[points[0].id := points[0]], points[1..])
  }

  /** cancelActive: tells the browser when there is something to tell. */
  function CancelActive(c: Contacts, delivered: bool): Outcome {
    Outcome(Idle, if c.owner.Some? && c.session != 0 && c.active != map[] && delivered then [TouchCancel] else [])
  }

  function PhaseEvent(phase: Phase, ids: seq<int>): Event {
    match phase
    case Start => TouchStart(ids)
    case Move => TouchMove(ids)
    case End => TouchEnd(ids)
    case _ => TouchCancel
  }

  function EventOf(c: Contacts, command: Command, ids: map<int, int>): Event
    requires Mappable(command.points, ids)
  {
    PhaseEvent(command.phase, if command.phase == End && |command.points| == |c.active| then [] else BrowserIds(command.points, ids))
  }

  /** What a dispatched command leaves behind. */
  function Accepted(c: Contacts, command: Command, ids: map<int, int>): Contacts {
    var active := match command.phase
                  case End => c.active - IdsOf(command.points)
                  case Cancel => c.active
                  case _ => Store(c.active, command.points);
    var ids' := if command.phase == End then ids - IdsOf(command.points) else ids;
    if command.phase == Cancel || active == map[] then Idle
    else c.(lastSeq := command.sequence, lastClientNS := command.timestamp, active := active, ids := ids')
  }

  /** The part of process behind the ownership checks. */
  function Deliver(c: Contacts, command: Command, env: Surroundings): Outcome {
    var ids := Admit(command.phase, c.active.Keys, command.points, {}, c.ids);
    if ids.None? || (command.phase == Move && |command.points| != |c.active|) || !Mappable(command.points, ids.value) then
      CancelActive(c, env.dispatch)
    else if !env.dispatch then Outcome(Idle, [])
    else Outcome(Accepted(c, command, ids.value), [EventOf(c, command, ids.value)])
  }

  /** process, for a command of `client`. */
  function Process(c: Contacts, client: nat, command: Command, env: Surroundings): Outcome {
    if env.suspended then Outcome(c, [])
    else if !ValidCommand(command) || env.closed || env.session == 0 || env.surface != command.surface then
      CancelActive(c, env.dispatch)
    else if c.owner.None? && (command.phase != Start || !env.firstViewport) then Outcome(c, [])
    else
      var c' := if c.owner.None? then c.(owner := Some(client), session := env.session, surface := env.surface,
                                         active := map[], ids := map[], lastSeq := 0)
                else c;
      if || c'.owner != Some(client) || c'.session != env.session || c'.surface != env.surface
         || command.sequence <= c'.lastSeq
         || (c'.lastClientNS != 0 && command.timestamp < c'.lastClientNS)
         || ((|c'.active| > 1 || (command.phase == Start && |c'.active| + |command.points| > 1)) && !env.viewport)
      then CancelActive(c', env.dispatch)
      else Deliver(c', command, env)
  }

  // ---- What every step keeps -----------------------------------------------------------------

  predicate Injective(ids: map<int, int>) {
    forall a, b :: a in ids && b in ids && ids[a] == ids[b] ==> a == b
  }

  predicate InRange(ids: map<int, int>) {
    forall a :: a in ids ==> 0 <= ids[a] < MAX_CONTACTS
  }

  predicate Numbered(active: set<int>, ids: map<int, int>) {
    Injective(ids) && InRange(ids) && ids.Keys == active
  }

  /** Contacts are numbered apart, and there is an owner exactly while there are contacts. */
  predicate Sound(c: Contacts) {
    && Numbered(c.active.Keys, c.ids)
    && (c.owner.None? <==> c.active == map[])
    && (c.owner.None? ==> c == Idle)
    && (c.owner.Some? ==> c.session != 0)
  }

  /** The browser's own record of its contacts. */
  function Apply(contacts: set<int>, e: Event): set<int> {
    match e
    case TouchStart(ids) => contacts + SetOf(ids)
    case TouchMove(_) => contacts
    case TouchEnd(ids) => if ids == [] then {} else contacts - SetOf(ids)
    case TouchCancel => {}
  }

  function Replay(contacts: set<int>, events: seq<Event>): set<int> {
    if events == [] then contacts
    else Apply(Replay(contacts, events[..|events| - 1]), events[|events| - 1])
  }

  function SetOf(ids: seq<int>): set<int> {
    set i | 0 <= i < |ids| :: ids[i]
  }

  lemma AddIdKeeps(ids: map<int, int>, id: int)
    requires Injective(ids) && InRange(ids) && id !in ids && AddId(ids, id).Some?
    ensures var ids' := AddId(ids, id).value;
            && Injective(ids') && InRange(ids') && ids'.Keys == ids.Keys + {id} && ids'[id] !in ids.Values
            && forall a :: a in ids ==> ids'[a] == ids[a]
  {
  }

  predicate Extends(ids: map<int, int>, ids': map<int, int>) {
    forall a :: a in ids ==> a in ids' && ids'[a] == ids[a]
  }

  lemma {:induction false} AdmitStart(active: set<int>, points: seq<Point>, seen: set<int>, ids: map<int, int>)
    requires Injective(ids) && InRange(ids) && ids.Keys == active + seen && Admit(Start, active, points, seen, ids).Some?
    ensures var ids' := Admit(Start, active, points, seen, ids).value;
            Injective(ids') && InRange(ids') && ids'.Keys == active + seen + IdsOf(points) && Extends(ids, ids')
    ensures IdsOf(points) !! active
    decreases |points|
  {
    if points != [] {
      var id, rest := points[0].id, points[1..];
      IdsOfCons(points);
      AddIdKeeps(ids, id);
      AdmitStart(active, rest, seen + {id}, AddId(ids, id).value);
    } else {
      assert IdsOf(points) == {};
    }
  }

  lemma IdsOfCons(points: seq<Point>)
    requires points != []
    ensures IdsOf(points) == {points[0].id} + IdsOf(points[1..])
  {
    var rest := points[1..];
    forall x | x in IdsOf(points) ensures x in {points[0].id} + IdsOf(rest) {
      var i :| 0 <= i < |points| && points[i].id == x;
      assert i > 0 ==> rest[i - 1].id == x;
    }
    forall x | x in IdsOf(rest) ensures x in IdsOf(points) {
      var i :| 0 <= i < |rest| && rest[i].id == x;
      assert points[i + 1].id == x;
    }
  }

  lemma {:induction false} AdmitOther(phase: Phase, active: set<int>, points: seq<Point>, seen: set<int>, ids: map<int, int>)
    requires phase != Start && Admit(phase, active, points, seen, ids).Some?
    ensures Admit(phase, active, points, seen, ids) == Some(ids)
    ensures IdsOf(points) <= active && IdsOf(points) !! seen && |IdsOf(points)| == |points|
    decreases |points|
  {
    if points != [] {
      var id, rest := points[0].id, points[1..];
      IdsOfCons(points);
      AdmitOther(phase, active, rest, seen + {id}, ids);
      assert id !in IdsOf(rest);
    } else {
      assert IdsOf(points) == {};
    }
  }

  lemma {:induction false} StoreKeys(active: map<int, Point>, points: seq<Point>)
    ensures Store(active, points).Keys == active.Keys + IdsOf(points)
    decreases |points|
  {
    if points != [] {
      IdsOfCons(points);
      StoreKeys(active[points[0].id := points[0]], points[1..]);
    }
  }

  /** The numbers of some contacts. */
  function Image(ids: map<int, int>, contacts: set<int>): set<int> {
    set x | x in contacts && x in ids :: ids[x]
  }

  lemma ImageOf(points: seq<Point>, ids: map<int, int>)
    requires Mappable(points, ids)
    ensures SetOf(BrowserIds(points, ids)) == Image(ids, IdsOf(points))
  {
    var r := BrowserIds(points, ids);
    forall b | b in SetOf(r) ensures b in Image(ids, IdsOf(points)) {
      var i :| 0 <= i < |r| && r[i] == b;
      assert points[i].id in IdsOf(points);
    }
    forall x | x in IdsOf(points) && x in ids ensures ids[x] in SetOf(r) {
      var i :| 0 <= i < |points| && points[i].id == x;
      assert r[i] == ids[x];
    }
  }

  lemma ReplayOne(contacts: set<int>, e: Event)
    ensures Replay(contacts, [e]) == Apply(contacts, e)
  {
    assert [e][..0] == [];
  }

  predicate InSync(browser: set<int>, c: Contacts) {
    browser == c.ids.Values
  }

  /** A contact that was live before and is live now has kept its number. */
  predicate Steady(c: Contacts, c': Contacts) {
    forall id :: id in c.ids && id in c'.ids ==> c'.ids[id] == c.ids[id]
  }

  ghost predicate StepOk(c: Contacts, browser: set<int>, o: Outcome, delivered: bool) {
    && Sound(o.contacts) && Steady(c, o.contacts)
    && (InSync(browser, c) && delivered ==> InSync(Replay(browser, o.sent), o.contacts))
  }

  lemma CancelKeeps(c: Contacts, browser: set<int>, delivered: bool)
    requires Numbered(c.active.Keys, c.ids) && (c.active != map[] ==> c.owner.Some? && c.session != 0)
    ensures StepOk(c, browser, CancelActive(c, delivered), delivered)
  {
    ReplayOne(browser, TouchCancel);
    if c.active == map[] {
      assert c.ids.Keys == {};
      assert c.ids == map[];
    }
  }

  lemma Preimage<K, V>(m: map<K, V>, v: V) returns (x: K)
    requires v in m.Values
    ensures x in m && m[x] == v
  {
    x :| x in m && m[x] == v;
  }

  lemma ExtendedValues(ids: map<int, int>, ids': map<int, int>, added: set<int>)
    requires Extends(ids, ids') && ids'.Keys == ids.Keys + added
    ensures ids'.Values == ids.Values + Image(ids', added)
  {
    var images := Image(ids', added);
    forall v | v in ids'.Values ensures v in ids.Values + images {
      var x := Preimage(ids', v);
      assert x in ids ==> ids[x] == v;
    }
    forall v | v in ids.Values ensures v in ids'.Values {
      var x := Preimage(ids, v);
      assert x in ids' && ids'[x] == v;
    }
  }

  lemma StoreNonEmpty(active: map<int, Point>, points: seq<Point>)
    requires points != []
    ensures Store(active, points) != map[]
  {
    StoreKeys(active, points);
    assert points[0].id in IdsOf(points);
    assert points[0].id in Store(active, points).Keys;
  }

  lemma AcceptedKeeps(c: Contacts, command: Command, ids: map<int, int>)
    requires c.owner.Some? && c.session != 0 && command.points != [] && (command.phase == Start || command.phase == Move)
    requires Numbered(c.active.Keys + IdsOf(command.points), ids) && Extends(c.ids, ids)
    ensures var c' := Accepted(c, command, ids); Sound(c') && Steady(c, c') && c'.ids == ids
  {
    StoreKeys(c.active, command.points);
    StoreNonEmpty(c.active, command.points);
  }

  lemma StartSync(c: Contacts, browser: set<int>, points: seq<Point>, ids: map<int, int>)
    requires Extends(c.ids, ids) && ids.Keys == c.ids.Keys + IdsOf(points) && Mappable(points, ids) && InSync(browser, c)
    ensures Replay(browser, [TouchStart(BrowserIds(points, ids))]) == ids.Values
  {
    ReplayOne(browser, TouchStart(BrowserIds(points, ids)));
    ImageOf(points, ids);
    ExtendedValues(c.ids, ids, IdsOf(points));
  }

  lemma StartKeeps(c: Contacts, browser: set<int>, command: Command, ids: map<int, int>)
    requires Numbered(c.active.Keys, c.ids) && c.owner.Some? && c.session != 0
    requires command.phase == Start && command.points != [] && Mappable(command.points, ids)
    requires Admit(Start, c.active.Keys, command.points, {}, c.ids) == Some(ids)
    ensures StepOk(c, browser, Outcome(Accepted(c, command, ids), [EventOf(c, command, ids)]), true)
  {
    AdmitStart(c.active.Keys, command.points, {}, c.ids);
    assert c.active.Keys + {} == c.active.Keys;
    AcceptedKeeps(c, command, ids);
    if InSync(browser, c) {
      StartSync(c, browser, command.points, ids);
    }
  }

  lemma MoveKeeps(c: Contacts, browser: set<int>, command: Command, ids: map<int, int>)
    requires Numbered(c.active.Keys, c.ids) && c.owner.Some? && c.session != 0
    requires command.phase == Move && command.points != [] && Mappable(command.points, ids)
    requires Admit(Move, c.active.Keys, command.points, {}, c.ids) == Some(ids)
    ensures StepOk(c, browser, Outcome(Accepted(c, command, ids), [EventOf(c, command, ids)]), true)
  {
    AdmitOther(Move, c.active.Keys, command.points, {}, c.ids);
    assert c.active.Keys + IdsOf(command.points) == c.active.Keys;
    AcceptedKeeps(c, command, ids);
    ReplayOne(browser, EventOf(c, command, ids));
  }

  /** Lifting some contacts: the numbers left are those of the contacts left, because no two share one. */
  lemma RemainingIds(ids: map<int, int>, gone: set<int>)
    requires Injective(ids) && gone <= ids.Keys
    ensures (ids - gone).Values == ids.Values - Image(ids, gone)
    ensures Injective(ids - gone)
  {
    var images := Image(ids, gone);
    forall v | v in ids.Values - images ensures v in (ids - gone).Values {
      var x := Preimage(ids, v);
      assert x !in gone;
      assert x in ids - gone && (ids - gone)[x] == v;
    }
    forall v | v in (ids - gone).Values ensures v in ids.Values - images {
      var x := Preimage(ids - gone, v);
      assert x in ids && ids[x] == v;
    }
  }

  /** The release of every contact names none; so does only that one. */
  lemma FullLift(active: map<int, Point>, points: seq<Point>)
    requires IdsOf(points) <= active.Keys && |IdsOf(points)| == |points|
    ensures |points| == |active| <==> active - IdsOf(points) == map[]
  {
    assert |active| == |active.Keys|;
    assert (active - IdsOf(points)).Keys == active.Keys - IdsOf(points);
    assert |active.Keys - IdsOf(points)| == |active.Keys| - |IdsOf(points)|;
    if |points| == |active| {
      assert active.Keys - IdsOf(points) == {};
    }
  }

  lemma EndKeeps(c: Contacts, browser: set<int>, command: Command, ids: map<int, int>)
    requires Numbered(c.active.Keys, c.ids) && c.owner.Some? && c.session != 0
    requires command.phase == End && command.points != [] && Mappable(command.points, ids)
    requires Admit(End, c.active.Keys, command.points, {}, c.ids) == Some(ids)
    ensures StepOk(c, browser, Outcome(Accepted(c, command, ids), [EventOf(c, command, ids)]), true)
  {
    var gone := IdsOf(command.points);
    AdmitOther(End, c.active.Keys, command.points, {}, c.ids);
    FullLift(c.active, command.points);
    ReplayOne(browser, EventOf(c, command, ids));
    ImageOf(command.points, ids);
    RemainingIds(ids, gone);
    assert (ids - gone).Keys == (c.active - gone).Keys;
  }

  lemma DeliverKeeps(c: Contacts, browser: set<int>, command: Command, env: Surroundings)
    requires Numbered(c.active.Keys, c.ids) && c.owner.Some? && c.session != 0 && ValidCommand(command)
    ensures StepOk(c, browser, Deliver(c, command, env), env.dispatch)
  {
    var ids := Admit(command.phase, c.active.Keys, command.points, {}, c.ids);
    if ids.None? || (command.phase == Move && |command.points| != |c.active|) || !Mappable(command.points, ids.value) {
      CancelKeeps(c, browser, env.dispatch);
    } else if env.dispatch {
      match command.phase
      case Start => StartKeeps(c, browser, command, ids.value);
      case Move => MoveKeeps(c, browser, command, ids.value);
      case End => EndKeeps(c, browser, command, ids.value);
      case Cancel => ReplayOne(browser, TouchCancel);
    }
  }

  /** One command, whatever it is and whatever happens around it. */
  lemma ProcessKeeps(c: Contacts, browser: set<int>, client: nat, command: Command, env: Surroundings)
    requires Sound(c)
    ensures StepOk(c, browser, Process(c, client, command, env), env.dispatch)
  {
    assert Replay(browser, []) == browser;
    if !env.suspended {
      if !ValidCommand(command) || env.closed || env.session == 0 || env.surface != command.surface {
        CancelKeeps(c, browser, env.dispatch);
      } else if c.owner.Some? || (command.phase == Start && env.firstViewport) {
        var c' := if c.owner.None? then c.(owner := Some(client), session := env.session, surface := env.surface,
                                           active := map[], ids := map[], lastSeq := 0)
                  else c;
        CancelKeeps(c', browser, env.dispatch);
        DeliverKeeps(c', browser, command, env);
      }
    }
  }

  // ---- Whole runs ------------------------------------------------------------------------------

  /** What the worker takes from its queue. */
  datatype Input =
    | Handle(client: nat, command: Command, env: Surroundings)
    | CancelAll(delivered: bool)

  function StepOf(c: Contacts, input: Input): Outcome {
    match input
    case Handle(client, command, env) => Process(c, client, command, env)
    case CancelAll(delivered) => CancelActive(c, delivered)
  }

  predicate Delivered(input: Input) {
    match input
    case Handle(_, _, env) => env.dispatch
    case CancelAll(delivered) => delivered
  }

  function Run(inputs: seq<Input>): Outcome {
    if inputs == [] then Outcome(Idle, [])
    else
      var before := Run(inputs[..|inputs| - 1]);
      var last := StepOf(before.contacts, inputs[|inputs| - 1]);
      Outcome(last.contacts, before.sent + last.sent)
  }

  lemma {:induction false} ReplayConcat(browser: set<int>, a: seq<Event>, b: seq<Event>)
    ensures Replay(browser, a + b) == Replay(Replay(browser, a), b)
    decreases |b|
  {
    if b == [] {
      assert a + b == a;
    } else {
      assert (a + b)[..|a + b| - 1] == a + b[..|b| - 1];
      ReplayConcat(browser, a, b[..|b| - 1]);
    }
  }

  /**
    * After any run: contacts are numbered apart from 0 to 4, there is an owner
    * exactly while there is a contact, and, when every dispatch got through, the
    * events replayed give the numbers of the active contacts.
    */
  lemma {:induction false} RunKeeps(inputs: seq<Input>)
    ensures Sound(Run(inputs).contacts)
    ensures (forall i :: 0 <= i < |inputs| ==> Delivered(inputs[i])) ==> InSync(Replay({}, Run(inputs).sent), Run(inputs).contacts)
    decreases |inputs|
  {
    if inputs != [] {
      var front, last := inputs[..|inputs| - 1], inputs[|inputs| - 1];
      var before := Run(front);
      var browser := Replay({}, before.sent);
      RunKeeps(front);
      match last {
        case Handle(client, command, env) => ProcessKeeps(before.contacts, browser, client, command, env);
        case CancelAll(delivered) => CancelKeeps(before.contacts, browser, delivered);
      }
      ReplayConcat({}, before.sent, StepOf(before.contacts, last).sent);
    }
  }

  lemma SomeElement<T>(s: set<T>) returns (x: T)
    requires |s| > 0
    ensures x in s
  {
    x :| x in s;
  }

  lemma {:induction false} InjectiveCount(ids: map<int, int>)
    requires Injective(ids)
    ensures |ids.Values| == |ids|
    decreases |ids|
  {
    if |ids| > 0 {
      assert |ids.Keys| == |ids|;
      var a := SomeElement(ids.Keys);
      var rest := ids - {a};
      RemainingIds(ids, {a});
      assert rest.Values == ids.Values - {ids[a]};
      assert rest.Keys == ids.Keys - {a};
      InjectiveCount(rest);
    }
  }

  lemma BelowFive(values: set<int>)
    requires forall v :: v in values ==> 0 <= v < MAX_CONTACTS
    ensures |values| <= MAX_CONTACTS
    ensures |values| == MAX_CONTACTS <==> forall j :: 0 <= j < MAX_CONTACTS ==> j in values
  {
    var all := {0, 1, 2, 3, 4};
    forall v | v in values ensures v in all {
      assert 0 <= v < MAX_CONTACTS;
    }
    assert values <= all;
    assert |all| == MAX_CONTACTS;
    assert |all - values| == |all| - |values|;
    if |values| == MAX_CONTACTS {
      assert all - values == {};
      forall j | 0 <= j < MAX_CONTACTS ensures j in values {
        assert j in all && j !in all - values;
      }
    }
    if forall j :: 0 <= j < MAX_CONTACTS ==> j in values {
      assert all <= values;
    }
  }

  /** A new contact is refused a number exactly when five are live. */
  lemma RefusedIffFull(c: Contacts, id: int)
    requires Sound(c) && id !in c.ids
    ensures |c.active| <= MAX_CONTACTS
    ensures AddId(c.ids, id).None? <==> |c.active| == MAX_CONTACTS
  {
    InjectiveCount(c.ids);
    forall v | v in c.ids.Values ensures 0 <= v < MAX_CONTACTS {
      var a := Preimage(c.ids, v);
    }
    BelowFive(c.ids.Values);
    assert |c.ids| == |c.ids.Keys| && |c.active| == |c.active.Keys|;
  }
}
