/**
  * When a touch command reaches the browser: the exact condition, in terms of the gesture
  * that is under way, and that a gesture is one client's ordered stream.
  */
module TouchGestures {
  import opened Options
  import opened TouchContacts

  // ---- The commands that fit ---------------------------------------------------------------------------

  /** The gesture under way: whose it is, where, how far it has come and which contacts are down. */
  datatype Gesture = Gesture(client: nat, session: nat, surface: nat, sequence: nat, timestamp: nat, fingers: set<int>)

  /** What every command has to be like: 64-bit, and with one to five points, or none to cancel. */
  predicate Proper(c: Command) {
    && c.sequence > 0 && c.surface > 0 && 0 < c.timestamp < 0x8000_0000_0000_0000 && c.phase != Unknown
    && if c.phase == Cancel then c.points == [] else 1 <= |c.points| <= 5
  }

  /** Coordinates, radii and force are shares of the screen and of full force. */
  predicate OnScreen(p: Point) {
    0.0 <= p.x <= 1.0 && 0.0 <= p.y <= 1.0 && 0.0 <= p.radiusX <= 1.0 && 0.0 <= p.radiusY <= 1.0 && 0.0 <= p.force <= 1.0
  }

  predicate Apart(points: seq<Point>) {
    forall i, j :: 0 <= i < j < |points| ==> points[i].id != points[j].id
  }

  function Fingers(g: Option<Gesture>): set<int> {
    if g.Some? then g.value.fingers else {}
  }

  /** A gesture begins with a start; then it goes on with its own client's commands, in order. */
  predicate InOrder(g: Option<Gesture>, client: nat, command: Command, env: Surroundings) {
    if g.None? then command.phase == Start && env.firstViewport
    else
      && client == g.value.client && env.session == g.value.session && env.surface == g.value.surface
      && g.value.sequence < command.sequence && g.value.timestamp <= command.timestamp
  }

  /** New contacts are new and there is a number for each, a move names every contact, a lift some. */
  predicate Touches(fingers: set<int>, command: Command) {
    && Apart(command.points) && (forall i :: 0 <= i < |command.points| ==> OnScreen(command.points[i]))
    && match command.phase
       case Start => IdsOf(command.points) !! fingers && |fingers| + |command.points| <= 5
       case Move => IdsOf(command.points) == fingers
       case End => IdsOf(command.points) <= fingers
       case _ => true
  }

  predicate Fits(g: Option<Gesture>, client: nat, command: Command, env: Surroundings) {
    && Proper(command) && !env.closed && env.session != 0 && env.surface == command.surface
    && InOrder(g, client, command, env) && Touches(Fingers(g), command)
    && (|Fingers(g)| > 1 || (command.phase == Start && |Fingers(g)| + |command.points| > 1) ==> env.viewport)
  }

  /** The gesture the contacts record. */
  function GestureOf(c: Contacts): Option<Gesture> {
    if c.owner.None? then None else Some(Gesture(c.owner.value, c.session, c.surface, c.lastSeq, c.lastClientNS, c.active.Keys))
  }

  /** What a command that fits makes of the gesture. */
  function Advanced(fingers: set<int>, client: nat, command: Command, session: nat): Option<Gesture> {
    var left := match command.phase
                case Start => fingers + IdsOf(command.points)
                case Move => fingers
                case End => fingers - IdsOf(command.points)
                case _ => {};
    if left == {} then None else Some(Gesture(client, session, command.surface, command.sequence, command.timestamp, left))
  }

  /** The event for a command that fits: its phase and its contacts' numbers, of which a lift of all names none. */
  predicate Announces(e: Event, fingers: set<int>, command: Command, ids: map<int, int>) {
    match command.phase
    case Start => e.TouchStart? && Names(e.ids, command.points, ids)
    case Move => e.TouchMove? && Names(e.ids, command.points, ids)
    case End => e.TouchEnd? && if IdsOf(command.points) == fingers then e.ids == [] else Names(e.ids, command.points, ids)
    case _ => e == TouchCancel
  }

  predicate Names(numbers: seq<int>, points: seq<Point>, ids: map<int, int>) {
    |numbers| == |points| && forall i :: 0 <= i < |points| ==> points[i].id in ids && numbers[i] == ids[points[i].id]
  }

  // ---- The first loop accepts what touches -----------------------------------------------------------

  predicate NoneOf(points: seq<Point>, s: set<int>) {
    forall i :: 0 <= i < |points| ==> points[i].id !in s
  }

  predicate AllOf(points: seq<Point>, s: set<int>) {
    forall i :: 0 <= i < |points| ==> points[i].id in s
  }

  lemma FirstApart(points: seq<Point>)
    requires points != []
    ensures Apart(points) <==> Apart(points[1..]) && NoneOf(points[1..], {points[0].id})
  {
    var rest := points[1..];
    if Apart(points) {
      forall i, j | 0 <= i < j < |rest| ensures rest[i].id != rest[j].id {
        assert points[i + 1].id != points[j + 1].id;
      }
      forall i | 0 <= i < |rest| ensures rest[i].id !in {points[0].id} {
        assert points[0].id != points[i + 1].id;
      }
    }
    if Apart(rest) && NoneOf(rest, {points[0].id}) {
      forall i, j | 0 <= i < j < |points| ensures points[i].id != points[j].id {
        assert points[j] == rest[j - 1];
        assert i > 0 ==> points[i] == rest[i - 1];
      }
    }
  }

  lemma FirstNone(points: seq<Point>, s: set<int>)
    requires points != []
    ensures NoneOf(points, s) <==> points[0].id !in s && NoneOf(points[1..], s)
    ensures AllOf(points, s) <==> points[0].id in s && AllOf(points[1..], s)
  {
    var rest := points[1..];
    assert forall i :: 0 <= i < |rest| ==> rest[i] == points[i + 1];
    forall i | 0 <= i < |points| ensures i > 0 ==> points[i] == rest[i - 1] {
    }
  }

  lemma NoneOfSum(points: seq<Point>, s: set<int>, t: set<int>)
    ensures NoneOf(points, s + t) <==> NoneOf(points, s) && NoneOf(points, t)
  {
  }

  lemma RoomIffFree(ids: map<int, int>, id: int)
    requires Injective(ids) && InRange(ids) && id !in ids
    ensures AddId(ids, id).Some? <==> |ids| < MAX_CONTACTS
  {
    InjectiveCount(ids);
    forall v | v in ids.Values ensures 0 <= v < MAX_CONTACTS {
      var a := Preimage(ids, v);
    }
    BelowFive(ids.Values);
  }

  lemma {:induction false} AdmitStartIff(active: set<int>, points: seq<Point>, seen: set<int>, ids: map<int, int>)
    requires Injective(ids) && InRange(ids) && ids.Keys == active + seen
    ensures Admit(Start, active, points, seen, ids).Some? <==>
              Apart(points) && NoneOf(points, seen) && NoneOf(points, active) && (points == [] || |ids| + |points| <= MAX_CONTACTS)
    decreases |points|
  {
    if points != [] {
      var id, rest := points[0].id, points[1..];
      FirstApart(points);
      FirstNone(points, seen);
      FirstNone(points, active);
      NoneOfSum(rest, seen, {id});
      if id !in seen && id !in active {
        RoomIffFree(ids, id);
        if AddId(ids, id).Some? {
          OneMore(active, seen, ids, id);
          AdmitStartIff(active, rest, seen + {id}, AddId(ids, id).value);
        }
      }
    }
  }

  lemma OneMore(active: set<int>, seen: set<int>, ids: map<int, int>, id: int)
    requires Injective(ids) && InRange(ids) && ids.Keys == active + seen && id !in ids && AddId(ids, id).Some?
    ensures var more := AddId(ids, id).value;
            Injective(more) && InRange(more) && more.Keys == active + (seen + {id}) && |more| == |ids| + 1
  {
    AddIdKeeps(ids, id);
    var more := AddId(ids, id).value;
    assert |more| == |more.Keys| && |ids| == |ids.Keys|;
  }

  lemma {:induction false} AdmitOtherIff(phase: Phase, active: set<int>, points: seq<Point>, seen: set<int>, ids: map<int, int>)
    requires phase != Start
    ensures Admit(phase, active, points, seen, ids).Some? <==> Apart(points) && NoneOf(points, seen) && AllOf(points, active)
    decreases |points|
  {
    if points != [] {
      var id, rest := points[0].id, points[1..];
      FirstApart(points);
      FirstNone(points, seen);
      FirstNone(points, active);
      NoneOfSum(rest, seen, {id});
      AdmitOtherIff(phase, active, rest, seen + {id}, ids);
    }
  }

  lemma IdsAre(points: seq<Point>, s: set<int>)
    ensures AllOf(points, s) <==> IdsOf(points) <= s
    ensures NoneOf(points, s) <==> IdsOf(points) !! s
  {
    if NoneOf(points, s) {
      forall x | x in IdsOf(points) ensures x !in s {
        var i :| 0 <= i < |points| && points[i].id == x;
      }
    }
    forall i | 0 <= i < |points| ensures points[i].id in IdsOf(points) {
    }
  }

  /** A set named without repeats has as many elements as names, so naming as many as there are names all. */
  lemma AllNamed(points: seq<Point>, s: set<int>)
    requires |IdsOf(points)| == |points| && IdsOf(points) <= s
    ensures |points| == |s| <==> IdsOf(points) == s
  {
    assert |s - IdsOf(points)| == |s| - |IdsOf(points)|;
    if |points| == |s| {
      assert s - IdsOf(points) == {};
    }
  }

  // ---- The condition -----------------------------------------------------------------------------------

  predicate Ready(c: Contacts) {
    Numbered(c.active.Keys, c.ids) && c.owner.Some? && c.session != 0
  }

  function Admitted(c: Contacts, command: Command): Option<map<int, int>> {
    Admit(command.phase, c.active.Keys, command.points, {}, c.ids)
  }

  predicate Goes(c: Contacts, command: Command) {
    var ids := Admitted(c, command);
    ids.Some? && (command.phase == Move ==> |command.points| == |c.active|) && Mappable(command.points, ids.value)
  }

  lemma StartGoesIff(c: Contacts, command: Command)
    requires Ready(c) && command.phase == Start && command.points != []
    ensures Goes(c, command) <==> Touches(c.active.Keys, command)
  {
    var points := command.points;
    StartAdmittedIff(c, points);
    if Admitted(c, command).Some? {
      StartNumbers(c, points, Admitted(c, command).value);
    }
  }

  lemma StartAdmittedIff(c: Contacts, points: seq<Point>)
    requires Ready(c) && points != []
    ensures Admit(Start, c.active.Keys, points, {}, c.ids).Some? <==>
              Apart(points) && IdsOf(points) !! c.active.Keys && |c.active.Keys| + |points| <= MAX_CONTACTS
  {
    assert c.active.Keys + {} == c.active.Keys;
    assert |c.ids| == |c.ids.Keys|;
    AdmitStartIff(c.active.Keys, points, {}, c.ids);
    IdsAre(points, c.active.Keys);
  }

  lemma StartNumbers(c: Contacts, points: seq<Point>, ids: map<int, int>)
    requires Ready(c) && Admit(Start, c.active.Keys, points, {}, c.ids) == Some(ids)
    ensures AllOf(points, ids.Keys)
  {
    assert c.active.Keys + {} == c.active.Keys;
    AdmitStart(c.active.Keys, points, {}, c.ids);
    IdsAre(points, ids.Keys);
  }

  lemma OtherAdmittedIff(c: Contacts, phase: Phase, points: seq<Point>)
    requires Ready(c) && phase != Start
    ensures var ids := Admit(phase, c.active.Keys, points, {}, c.ids);
            && (ids.Some? <==> Apart(points) && IdsOf(points) <= c.active.Keys)
            && (ids.Some? ==> ids.value == c.ids && |IdsOf(points)| == |points| && AllOf(points, c.ids.Keys))
            && (ids.Some? ==> (|points| == |c.active| <==> IdsOf(points) == c.active.Keys))
  {
    AdmitOtherIff(phase, c.active.Keys, points, {}, c.ids);
    IdsAre(points, c.active.Keys);
    assert |c.active| == |c.active.Keys|;
    if Admit(phase, c.active.Keys, points, {}, c.ids).Some? {
      AdmitOther(phase, c.active.Keys, points, {}, c.ids);
      AllNamed(points, c.active.Keys);
    }
  }

  lemma OtherGoesIff(c: Contacts, command: Command)
    requires Ready(c) && command.phase != Start && ValidCommand(command)
    ensures Goes(c, command) <==> Touches(c.active.Keys, command)
    ensures Goes(c, command) ==> Admitted(c, command) == Some(c.ids) && |IdsOf(command.points)| == |command.points|
    ensures Goes(c, command) ==> IdsOf(command.points) <= c.active.Keys
  {
    OtherAdmittedIff(c, command.phase, command.points);
  }

  /** Behind the ownership checks: delivered exactly when the points touch what is there. */
  lemma DeliverIff(c: Contacts, command: Command, env: Surroundings)
    requires Ready(c) && ValidCommand(command) && env.dispatch
    ensures !Touches(c.active.Keys, command) ==> Deliver(c, command, env) == CancelActive(c, true)
    ensures Touches(c.active.Keys, command) ==>
              Goes(c, command) && Deliver(c, command, env) ==
                var ids := Admitted(c, command).value; Outcome(Accepted(c, command, ids), [EventOf(c, command, ids)])
  {
    if command.phase == Start {
      StartGoesIff(c, command);
    } else {
      OtherGoesIff(c, command);
    }
  }

  lemma EventAnnounces(c: Contacts, command: Command)
    requires Ready(c) && ValidCommand(command) && Goes(c, command)
    ensures var ids := Admitted(c, command).value;
            Announces(EventOf(c, command, ids), c.active.Keys, command, ids)
  {
    if command.phase == End {
      OtherGoesIff(c, command);
      AllNamed(command.points, c.active.Keys);
      assert |c.active| == |c.active.Keys|;
    }
  }

  lemma FingersAfter(c: Contacts, command: Command)
    requires Ready(c) && ValidCommand(command) && Goes(c, command) && c.surface == command.surface
    ensures GestureOf(Accepted(c, command, Admitted(c, command).value)) == Advanced(c.active.Keys, c.owner.value, command, c.session)
  {
    if command.phase == Start {
      StoreKeys(c.active, command.points);
      StoreNonEmpty(c.active, command.points);
    } else if command.phase == Move {
      MoveKeepsFingers(c, command);
    } else if command.phase == End {
      assert (c.active - IdsOf(command.points)).Keys == c.active.Keys - IdsOf(command.points);
      assert c.active - IdsOf(command.points) == map[] <==> c.active.Keys - IdsOf(command.points) == {};
    }
  }

  lemma MoveKeepsFingers(c: Contacts, command: Command)
    requires Ready(c) && ValidCommand(command) && Goes(c, command) && command.phase == Move
    ensures Store(c.active, command.points).Keys == c.active.Keys && Store(c.active, command.points) != map[] && c.active != map[]
  {
    OtherGoesIff(c, command);
    StoreNonEmpty(c.active, command.points);
    StoreWithin(c.active, command.points);
  }

  lemma StoreWithin(active: map<int, Point>, points: seq<Point>)
    requires IdsOf(points) <= active.Keys && points != []
    ensures Store(active, points).Keys == active.Keys && active != map[]
  {
    StoreKeys(active, points);
    assert points[0].id in IdsOf(points);
    assert points[0].id in active.Keys;
    assert active.Keys + IdsOf(points) == active.Keys;
  }

  /** What one step comes to, when the command can be delivered. */
  lemma DeliveredExactly(c: Contacts, command: Command, env: Surroundings)
    requires Ready(c) && ValidCommand(command) && env.dispatch && Touches(c.active.Keys, command) && c.surface == command.surface
    ensures var o := Deliver(c, command, env);
            && |o.sent| == 1
            && Announces(o.sent[0], c.active.Keys, command, if command.phase == Start then o.contacts.ids else c.ids)
            && GestureOf(o.contacts) == Advanced(c.active.Keys, c.owner.value, command, c.session)
  {
    DeliverIff(c, command, env);
    EventAnnounces(c, command);
    FingersAfter(c, command);
    if command.phase == Start {
      StoreNonEmpty(c.active, command.points);
    } else {
      OtherGoesIff(c, command);
    }
  }

  /** The contacts the ownership checks look at: with no owner, those of a gesture that begins. */
  function Owned(c: Contacts, client: nat, env: Surroundings): Contacts {
    if c.owner.None? then c.(owner := Some(client), session := env.session, surface := env.surface, active := map[], ids := map[], lastSeq := 0)
    else c
  }

  lemma ProcessIs(c: Contacts, client: nat, command: Command, env: Surroundings)
    requires Sound(c) && !env.suspended && ValidCommand(command) && !env.closed && env.session != 0 && env.surface == command.surface
    requires InOrder(GestureOf(c), client, command, env)
    requires var fingers := c.active.Keys; |fingers| > 1 || (command.phase == Start && |fingers| + |command.points| > 1) ==> env.viewport
    ensures Process(c, client, command, env) == Deliver(Owned(c, client, env), command, env)
    ensures Ready(Owned(c, client, env)) && Owned(c, client, env).active.Keys == c.active.Keys
  {
    assert |c.active| == |c.active.Keys|;
  }

  lemma ProcessCancels(c: Contacts, client: nat, command: Command, env: Surroundings)
    requires Sound(c) && !env.suspended && !Fits(GestureOf(c), client, command, env)
    ensures Process(c, client, command, env) == Outcome(Idle, if c.owner.Some? && env.dispatch then [TouchCancel] else [])
  {
    assert |c.active| == |c.active.Keys|;
    var c' := Owned(c, client, env);
    if && ValidCommand(command) && !env.closed && env.session != 0 && env.surface == command.surface && InOrder(GestureOf(c), client, command, env)
       && (|c.active| > 1 || (command.phase == Start && |c.active| + |command.points| > 1) ==> env.viewport) {
      ProcessIs(c, client, command, env);
      DeliverIff(c', command, env.(dispatch := true));
    }
  }

  /**
    * One command, whatever it is and whatever happens around it. While input is suspended nothing
    * happens. Otherwise a command that fits the gesture under way is dispatched, as one event that
    * says what it says, and the gesture advances by exactly that command; when the dispatch fails,
    * the gesture is over. A command that does not fit ends the gesture: the browser is told, if there was one.
    */
  lemma ProcessExactly(c: Contacts, client: nat, command: Command, env: Surroundings)
    requires Sound(c)
    ensures var o, g := Process(c, client, command, env), GestureOf(c);
            if env.suspended then o == Outcome(c, [])
            else if !Fits(g, client, command, env) then o == Outcome(Idle, if g.Some? && env.dispatch then [TouchCancel] else [])
            else if !env.dispatch then o == Outcome(Idle, [])
            else
              && |o.sent| == 1 && Announces(o.sent[0], Fingers(g), command, if command.phase == Start then o.contacts.ids else c.ids)
              && GestureOf(o.contacts) == Advanced(Fingers(g), client, command, env.session)
  {
    if !env.suspended {
      if !Fits(GestureOf(c), client, command, env) {
        ProcessCancels(c, client, command, env);
      } else {
        ProcessIs(c, client, command, env);
        DeliverIff(Owned(c, client, env), command, env.(dispatch := true));
        if env.dispatch {
          DeliveredExactly(Owned(c, client, env), command, env);
        }
      }
    }
  }

  // ---- Whole runs ------------------------------------------------------------------------------------

  /** The step sends a start, a move or a lift. */
  predicate Sends(c: Contacts, input: Input) {
    var o := StepOf(c, input); input.Handle? && o.sent != [] && o.sent[0] != TouchCancel
  }

  function Final(c: Contacts, inputs: seq<Input>): Contacts
    decreases |inputs|
  {
    if inputs == [] then c else Final(StepOf(c, inputs[0]).contacts, inputs[1..])
  }

  /** Some contact stays down in every state of the run. */
  predicate Held(c: Contacts, inputs: seq<Input>)
    decreases |inputs|
  {
    c.active != map[] && (inputs != [] ==> Held(StepOf(c, inputs[0]).contacts, inputs[1..]))
  }

  /** The gesture has come at least as far as this command, which is of it. */
  predicate Past(g: Option<Gesture>, input: Input) {
    && g.Some? && input.Handle? && g.value.client == input.client && g.value.session == input.env.session
    && g.value.surface == input.command.surface
    && input.command.sequence <= g.value.sequence && input.command.timestamp <= g.value.timestamp
  }

  lemma StepStaysPast(c: Contacts, input: Input, first: Input)
    requires Sound(c) && Past(GestureOf(c), first) && StepOf(c, input).contacts.active != map[]
    ensures Past(GestureOf(StepOf(c, input).contacts), first)
  {
    if input.Handle? {
      ProcessExactly(c, input.client, input.command, input.env);
      ProcessKeeps(c, {}, input.client, input.command, input.env);
    }
  }

  lemma SentFits(c: Contacts, input: Input)
    requires Sound(c) && Sends(c, input)
    ensures Fits(GestureOf(c), input.client, input.command, input.env) && !input.env.suspended && input.env.dispatch
    ensures GestureOf(StepOf(c, input).contacts) == Advanced(Fingers(GestureOf(c)), input.client, input.command, input.env.session)
  {
    ProcessExactly(c, input.client, input.command, input.env);
  }

  lemma StepSound(c: Contacts, input: Input)
    requires Sound(c)
    ensures Sound(StepOf(c, input).contacts)
  {
    if input.Handle? {
      ProcessKeeps(c, {}, input.client, input.command, input.env);
    } else {
      CancelKeeps(c, {}, input.delivered);
    }
  }

  lemma {:induction false} RunStaysPast(c: Contacts, inputs: seq<Input>, first: Input)
    requires Sound(c) && Past(GestureOf(c), first) && Held(c, inputs)
    ensures Sound(Final(c, inputs)) && Past(GestureOf(Final(c, inputs)), first)
    decreases |inputs|
  {
    if inputs != [] {
      StepSound(c, inputs[0]);
      StepStaysPast(c, inputs[0], first);
      RunStaysPast(StepOf(c, inputs[0]).contacts, inputs[1..], first);
    }
  }

  /**
    * In every run, as long as a contact stays down, all the starts, moves and lifts the browser gets
    * are one client's, for one session and surface, in strictly growing sequence and at times that
    * do not go back.
    */
  lemma OneStream(before: seq<Input>, first: Input, between: seq<Input>, last: Input)
    requires Sends(Run(before).contacts, first) && Held(StepOf(Run(before).contacts, first).contacts, between)
    requires Sends(Final(StepOf(Run(before).contacts, first).contacts, between), last)
    ensures first.client == last.client && first.env.session == last.env.session && first.command.surface == last.command.surface
    ensures first.command.sequence < last.command.sequence && first.command.timestamp <= last.command.timestamp
  {
    var c := Run(before).contacts;
    RunKeeps(before);
    SentFits(c, first);
    StepSound(c, first);
    RunStaysPast(StepOf(c, first).contacts, between, first);
    SentFits(Final(StepOf(c, first).contacts, between), last);
  }
}
