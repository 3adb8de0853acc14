/**
  * What a keyframe request promises the subscribers, over all runs of the video
  * machine: which IDR they accept, and when the promise does not hold.
  */
module KeyframeRequests {
  import opened AccessUnits
  import opened Options
  import opened VideoSubscriptions
  import opened VideoPipelines
  import opened VideoMachines

  // ---- Runs in which the generation and the subscriber stay ---------------------------------

  predicate Kept(s: State, id: nat, gen: nat) {
    s.c.gen == gen && id in s.c.attached
  }

  /** In every state of the run. */
  predicate Steady(s: State, steps: seq<Step>, id: nat, gen: nat)
    requires Possible(s, steps)
    decreases |steps|
  {
    Kept(s, id, gen) && (steps != [] ==> Steady(Do(s, steps[0]), steps[1..], id, gen))
  }

  /** The step numbers an IDR and begins to offer it. */
  predicate BroadcastsIdr(s: State, step: Step) {
    step == Broadcast(true) && s.pusher.Captured? && s.pusher.gen == s.c.gen && s.c.running
  }

  predicate NoIdrBroadcast(s: State, steps: seq<Step>)
    requires Possible(s, steps)
    decreases |steps|
  {
    steps != [] ==> !BroadcastsIdr(s, steps[0]) && NoIdrBroadcast(Do(s, steps[0]), steps[1..])
  }

  /** An IDR of the generation is being offered and has not been offered to this subscriber yet. */
  predicate IdrPending(s: State, id: nat, gen: nat) {
    Pending(s, id) && s.pusher.au.idr && s.pusher.au.generation == gen
  }

  // ---- The first IDR offered after the reset ----------------------------------------------------

  /** The subscriber is about to be reset, is being reset, or waits with an empty queue for an IDR. */
  predicate ResetUnderWay(s: State, id: nat, gen: nat) {
    id in s.all && (id in s.resetting || (s.all[id].draining && s.all[id].gen == gen && !s.all[id].closed) || Waiting(s.all[id], gen))
  }

  /** No IDR of the generation is offered to the subscriber once its reset is over. */
  predicate NoIdrOffered(s: State, steps: seq<Step>, id: nat, gen: nat)
    requires Possible(s, steps)
    decreases |steps|
  {
    steps != [] ==>
      && !(steps[0] == OfferUnit(id) && IdrPending(s, id, gen) && id !in s.resetting)
      && NoIdrOffered(Do(s, steps[0]), steps[1..], id, gen)
  }

  lemma ResetStaysUnderWay(s: State, step: Step, id: nat, gen: nat)
    requires Inv(s) && Enabled(s, step) && Kept(s, id, gen) && Kept(Do(s, step), id, gen) && ResetUnderWay(s, id, gen)
    requires !(step == OfferUnit(id) && IdrPending(s, id, gen) && id !in s.resetting)
    ensures ResetUnderWay(Do(s, step), id, gen)
  {
    assert SubInv(s, id);
    if step.Critical? {
      OthersInCriticalSection(s, step.op, id);
    }
  }

  lemma {:induction false} ResetStaysUnderWayInRuns(s: State, steps: seq<Step>, id: nat, gen: nat)
    requires Inv(s) && Possible(s, steps) && Steady(s, steps, id, gen) && ResetUnderWay(s, id, gen) && NoIdrOffered(s, steps, id, gen)
    ensures ResetUnderWay(Run(s, steps), id, gen) && Inv(Run(s, steps)) && Kept(Run(s, steps), id, gen)
    decreases |steps|
  {
    if steps != [] {
      StepKeeps(s, steps[0]);
      ResetStaysUnderWay(s, steps[0], id, gen);
      ResetStaysUnderWayInRuns(Do(s, steps[0]), steps[1..], id, gen);
    }
  }

  /**
    * After a critical section that resets everyone, whatever happens next while the
    * generation and the subscriber stay, the first IDR offered to the subscriber once
    * its reset is over is alone in its queue.
    */
  lemma FirstIdrOfferedIsTaken(s: State, op: Op, steps: seq<Step>, id: nat)
    requires Inv(s) && Enabled(s, Critical(op)) && Perform(s.c, op).1 == ResetAll
    requires var t := Do(s, Critical(op));
             && id in s.all && id in t.c.attached
             && Possible(t, steps) && Steady(t, steps, id, t.c.gen) && NoIdrOffered(t, steps, id, t.c.gen)
             && var e := Run(t, steps);
                Enabled(e, OfferUnit(id)) && IdrPending(e, id, t.c.gen) && id !in e.resetting
    ensures var e := Run(Do(s, Critical(op)), steps);
            var after := Do(e, OfferUnit(id)).all[id];
            after.queue == [e.pusher.au] && !after.dropped
  {
    var t := Do(s, Critical(op));
    StepKeeps(s, Critical(op));
    ResetStaysUnderWayInRuns(t, steps, id, t.c.gen);
  }

  // ---- The first IDR broadcast after the request --------------------------------------------------

  /** The subscription takes an IDR of the generation. */
  predicate Receptive(sub: Subscription, gen: nat) {
    !sub.closed && sub.gen == gen && sub.dropped && |sub.queue| < QUEUE_CAPACITY
  }

  predicate NotOffered(steps: seq<Step>, id: nat) {
    forall i :: 0 <= i < |steps| ==> steps[i] != OfferUnit(id)
  }

  /** The first IDR broadcast from `s` on comes after `before` and is offered to the subscriber after `between`. */
  predicate FirstIdrReaches(s: State, before: seq<Step>, between: seq<Step>, id: nat, gen: nat) {
    && Possible(s, before) && Steady(s, before, id, gen) && NoIdrBroadcast(s, before)
    && var m := Run(s, before);
       && Enabled(m, Broadcast(true)) && BroadcastsIdr(m, Broadcast(true))
       && var b := Do(m, Broadcast(true));
          && Possible(b, between) && Steady(b, between, id, gen) && NotOffered(between, id)
          && Enabled(Run(b, between), OfferUnit(id))
  }

  /** It enters the subscriber's queue. */
  predicate FirstIdrEnters(s: State, before: seq<Step>, between: seq<Step>, id: nat, gen: nat)
    requires FirstIdrReaches(s, before, between, id, gen)
  {
    var e := Run(Do(Run(s, before), Broadcast(true)), between);
    Do(e, OfferUnit(id)).all[id].queue == e.all[id].queue + [e.pusher.au]
  }

  predicate TakesFirstIdr(s: State, before: seq<Step>, between: seq<Step>, id: nat, gen: nat) {
    FirstIdrReaches(s, before, between, id, gen) ==> FirstIdrEnters(s, before, between, id, gen)
  }

  /** Whatever happens from `s` on, the first IDR broadcast enters the subscriber's queue when it is offered. */
  ghost predicate AlwaysTakesFirstIdr(s: State, id: nat, gen: nat) {
    forall before, between :: TakesFirstIdr(s, before, between, id, gen)
  }

  /** What can be seen before the request: everyone is reset at once, or the subscriber waits with room already; and no IDR is on its way. */
  predicate Answerable(s: State, now: int, id: nat)
    requires id in s.all
  {
    && !IdrPending(s, id, s.c.gen)
    && (Perform(s.c, RequestKeyframe(now)).1 == ResetAll || Receptive(s.all[id], s.c.gen))
  }

  /** Before the broadcast: a reset is under way or the subscriber is receptive, and no IDR is on its way. */
  predicate Prepared(s: State, id: nat, gen: nat) {
    && id in s.all && !IdrPending(s, id, gen)
    && (id in s.resetting || (s.all[id].draining && s.all[id].gen == gen && !s.all[id].closed) || Receptive(s.all[id], gen))
  }

  lemma StaysPrepared(s: State, step: Step, id: nat, gen: nat)
    requires Inv(s) && Enabled(s, step) && Kept(s, id, gen) && Kept(Do(s, step), id, gen) && Prepared(s, id, gen)
    requires !BroadcastsIdr(s, step)
    ensures Prepared(Do(s, step), id, gen)
  {
    assert SubInv(s, id);
    if step.Critical? {
      OthersInCriticalSection(s, step.op, id);
    }
  }

  lemma {:induction false} StaysPreparedInRuns(s: State, steps: seq<Step>, id: nat, gen: nat)
    requires Inv(s) && Possible(s, steps) && Steady(s, steps, id, gen) && Prepared(s, id, gen) && NoIdrBroadcast(s, steps)
    ensures Prepared(Run(s, steps), id, gen) && Inv(Run(s, steps)) && Kept(Run(s, steps), id, gen)
    decreases |steps|
  {
    if steps != [] {
      StepKeeps(s, steps[0]);
      StaysPrepared(s, steps[0], id, gen);
      StaysPreparedInRuns(Do(s, steps[0]), steps[1..], id, gen);
    }
  }

  /** Between the broadcast and the offer: the unit is on its way to a receptive subscriber. */
  predicate OnItsWay(s: State, id: nat, gen: nat) {
    id in s.all && Receptive(s.all[id], gen) && IdrPending(s, id, gen)
  }

  lemma StaysOnItsWay(s: State, step: Step, id: nat, gen: nat)
    requires Inv(s) && Enabled(s, step) && Kept(s, id, gen) && Kept(Do(s, step), id, gen) && OnItsWay(s, id, gen)
    requires step != OfferUnit(id)
    ensures OnItsWay(Do(s, step), id, gen)
  {
    if step.Critical? {
      OthersInCriticalSection(s, step.op, id);
    }
  }

  lemma {:induction false} StaysOnItsWayInRuns(s: State, steps: seq<Step>, id: nat, gen: nat)
    requires Inv(s) && Possible(s, steps) && Steady(s, steps, id, gen) && OnItsWay(s, id, gen) && NotOffered(steps, id)
    ensures OnItsWay(Run(s, steps), id, gen)
    decreases |steps|
  {
    if steps != [] {
      StepKeeps(s, steps[0]);
      assert steps[0] != OfferUnit(id);
      StaysOnItsWay(s, steps[0], id, gen);
      StaysOnItsWayInRuns(Do(s, steps[0]), steps[1..], id, gen);
    }
  }

  lemma PreparedTakes(s: State, before: seq<Step>, between: seq<Step>, id: nat, gen: nat)
    requires Inv(s) && Prepared(s, id, gen) && FirstIdrReaches(s, before, between, id, gen)
    ensures FirstIdrEnters(s, before, between, id, gen)
  {
    StaysPreparedInRuns(s, before, id, gen);
    var m := Run(s, before);
    StepKeeps(m, Broadcast(true));
    StaysOnItsWayInRuns(Do(m, Broadcast(true)), between, id, gen);
  }

  // ---- Runs that defeat the request ---------------------------------------------------------------

  /** Steps that leave the pipeline alone and broadcast no IDR. */
  predicate Plain(steps: seq<Step>) {
    forall i :: 0 <= i < |steps| ==> !steps[i].Critical? && steps[i] != Broadcast(true)
  }

  lemma {:induction false} PlainIsSteady(s: State, steps: seq<Step>, id: nat, gen: nat)
    requires Possible(s, steps) && Plain(steps) && Kept(s, id, gen)
    ensures Steady(s, steps, id, gen) && NoIdrBroadcast(s, steps) && Run(s, steps).c == s.c
    decreases |steps|
  {
    if steps != [] {
      PlainIsSteady(Do(s, steps[0]), steps[1..], id, gen);
    }
  }

  /** The mutex is free and the offers under way can be made. */
  predicate Quiet(s: State) {
    LockFree(s) && (s.pusher.Offering? ==> s.pusher.targets <= s.all.Keys) && s.c.attached <= s.all.Keys
  }

  function Offered(sub: Subscription, pusher: Pusher, id: nat): Subscription {
    if pusher.Offering? && id in pusher.targets then Offer(sub, pusher.au, pusher.au.generation) else sub
  }

  /** The pusher makes the offers it has under way. */
  lemma {:induction false} FinishOffers(s: State, id: nat) returns (steps: seq<Step>)
    requires Quiet(s) && s.pusher.Offering? && id in s.all
    ensures Plain(steps) && Possible(s, steps)
    ensures var r := Run(s, steps);
            && r.c == s.c && r.pusher == Idle && Quiet(r) && id in r.all && r.all[id] == Offered(s.all[id], s.pusher, id)
    decreases |s.pusher.targets|
  {
    if s.pusher.targets == {} {
      steps := [FinishBroadcast];
      assert Possible(Do(s, FinishBroadcast), steps[1..]);
    } else {
      var x :| x in s.pusher.targets;
      var next := Do(s, OfferUnit(x));
      var rest := FinishOffers(next, id);
      steps := [OfferUnit(x)] + rest;
      assert steps[1..] == rest;
    }
  }

  /** Not receptive: stranded, full, or following. */
  predicate Blocked(sub: Subscription, gen: nat) {
    !sub.closed && |sub.queue| <= QUEUE_CAPACITY && (sub.gen != gen || |sub.queue| == QUEUE_CAPACITY || !sub.dropped)
  }

  /** Such a subscription stays so when it is offered anything, and every live one becomes so by an IDR of the generation. */
  lemma OfferBlocks(sub: Subscription, au: AccessUnit, gen: nat)
    requires !sub.closed && |sub.queue| <= QUEUE_CAPACITY
    requires Blocked(sub, gen) || (au.idr && au.generation == gen)
    ensures Blocked(Offer(sub, au, au.generation), gen)
  {
  }

  /** The pusher comes to rest and the subscriber is not receptive. */
  lemma ComeToRest(s: State, id: nat) returns (steps: seq<Step>)
    requires Quiet(s) && s.c.running && id in s.c.attached && !s.all[id].closed && |s.all[id].queue| <= QUEUE_CAPACITY
    requires Blocked(s.all[id], s.c.gen) || IdrPending(s, id, s.c.gen)
    ensures Plain(steps) && Possible(s, steps)
    ensures var r := Run(s, steps);
            r.c == s.c && r.pusher == Idle && Quiet(r) && id in r.all && Blocked(r.all[id], s.c.gen)
  {
    match s.pusher
    case Idle =>
      steps := [];
    case Captured(gen) =>
      var next := Do(s, Broadcast(false));
      steps := [Broadcast(false)];
      assert steps[1..] == [];
      if next.pusher.Offering? {
        OfferBlocks(next.all[id], next.pusher.au, s.c.gen);
        var rest := FinishOffers(next, id);
        steps := [Broadcast(false)] + rest;
        assert steps[1..] == rest;
      }
    case Offering(au, targets) =>
      if id in targets {
        OfferBlocks(s.all[id], au, s.c.gen);
      }
      steps := FinishOffers(s, id);
  }

  /** One dependent unit more in the queue of a subscriber that follows. */
  lemma PushDependent(s: State, id: nat) returns (steps: seq<Step>)
    requires Quiet(s) && s.c.running && s.pusher == Idle && id in s.c.attached
    requires Blocked(s.all[id], s.c.gen) && s.all[id].gen == s.c.gen && |s.all[id].queue| < QUEUE_CAPACITY
    ensures Plain(steps) && Possible(s, steps)
    ensures var r := Run(s, steps);
            && r.c == s.c && r.pusher == Idle && Quiet(r) && id in r.all && Blocked(r.all[id], s.c.gen)
            && r.all[id].gen == s.c.gen && |r.all[id].queue| == |s.all[id].queue| + 1
  {
    var s1 := Do(s, CaptureGeneration);
    var s2 := Do(s1, Broadcast(false));
    var rest := FinishOffers(s2, id);
    var tail := [Broadcast(false)] + rest;
    assert tail[1..] == rest;
    steps := [CaptureGeneration] + tail;
    assert steps[1..] == tail;
  }

  /** No IDR of the generation can enter. */
  predicate Refusing(sub: Subscription, gen: nat) {
    sub.gen != gen || |sub.queue| == QUEUE_CAPACITY
  }

  lemma {:induction false} FillUp(s: State, id: nat) returns (steps: seq<Step>)
    requires Quiet(s) && s.c.running && s.pusher == Idle && id in s.c.attached && Blocked(s.all[id], s.c.gen)
    ensures Plain(steps) && Possible(s, steps)
    ensures var r := Run(s, steps);
            r.c == s.c && r.pusher == Idle && Quiet(r) && id in r.all && Refusing(r.all[id], s.c.gen)
    decreases QUEUE_CAPACITY - |s.all[id].queue|
  {
    if Refusing(s.all[id], s.c.gen) {
      steps := [];
    } else {
      var one := PushDependent(s, id);
      var rest := FillUp(Run(s, one), id);
      RunConcat(s, one, rest);
      steps := one + rest;
    }
  }

  /** From a quiet state with a subscriber that is not receptive, or will not be, the next IDR is broadcast in vain. */
  lemma Defeated(s: State, id: nat) returns (before: seq<Step>)
    requires Quiet(s) && s.c.running && id in s.c.attached && !s.all[id].closed && |s.all[id].queue| <= QUEUE_CAPACITY
    requires Blocked(s.all[id], s.c.gen) || IdrPending(s, id, s.c.gen)
    ensures Plain(before) && Possible(s, before)
    ensures var m := Run(s, before);
            && m.c == s.c && LockFree(m) && m.pusher == Captured(s.c.gen) && s.c.attached <= m.all.Keys
            && Refusing(m.all[id], s.c.gen)
  {
    var rest := ComeToRest(s, id);
    var s1 := Run(s, rest);
    var fill := FillUp(s1, id);
    var s2 := Run(s1, fill);
    RunConcat(s, rest, fill);
    var capture := [CaptureGeneration];
    assert capture[1..] == [] && Possible(Do(s2, CaptureGeneration), capture[1..]);
    RunConcat(s, rest + fill, capture);
    before := rest + fill + capture;
  }

  lemma RefusedInVain(s: State, before: seq<Step>, id: nat, gen: nat)
    requires Possible(s, before) && Plain(before) && Kept(s, id, gen) && s.c.running
    requires var m := Run(s, before);
             m.c == s.c && LockFree(m) && m.pusher == Captured(gen) && s.c.attached <= m.all.Keys && Refusing(m.all[id], gen)
    ensures !TakesFirstIdr(s, before, [], id, gen)
  {
    PlainIsSteady(s, before, id, gen);
    var m := Run(s, before);
    var b := Do(m, Broadcast(true));
    var e := Run(b, []);
    assert FirstIdrReaches(s, before, [], id, gen);
    assert |Do(e, OfferUnit(id)).all[id].queue| == |e.all[id].queue|;
  }

  lemma OnlyResetsIsPlain(steps: seq<Step>)
    requires OnlyResets(steps)
    ensures Plain(steps)
  {
  }

  /** The state in which every reset of `t` has been carried out. */
  function Carried(t: State): State {
    t.(all := ResetAttached(t.all, t.resetting, t.c.gen), resetting := {})
  }

  lemma CarriedOne(t: State, id: nat)
    requires id in t.all && !t.all[id].draining && |t.all[id].queue| <= QUEUE_CAPACITY
    ensures var sub := Carried(t).all[id];
            !sub.draining && sub.closed == t.all[id].closed && |sub.queue| <= QUEUE_CAPACITY && (id !in t.resetting ==> sub == t.all[id])
  {
    DrainAllEffect(BeginReset(t.all[id], t.c.gen));
  }

  lemma CarriedIsQuiet(t: State)
    requires Inv(t) && NoDrain(t)
    ensures Quiet(Carried(t))
  {
    forall id | id in Carried(t).all ensures !Carried(t).all[id].draining {
      assert SubInv(t, id);
      CarriedOne(t, id);
    }
  }

  /** What a request does to the machine. */
  predicate Requested(s: State, now: int, id: nat, t: State) {
    && t.c.running && t.c.gen == s.c.gen && id in t.c.attached && t.pusher == s.pusher
    && id in s.all && id in t.all && t.all[id] == s.all[id]
    && (Perform(s.c, RequestKeyframe(now)).1 != ResetAll ==> id !in t.resetting)
  }

  lemma RequestSteps(s: State, now: int, id: nat)
    requires Enabled(s, Critical(RequestKeyframe(now))) && s.c.running && id in s.c.attached && id in s.all
    ensures Requested(s, now, id, Do(s, Critical(RequestKeyframe(now))))
  {
    OthersInCriticalSection(s, RequestKeyframe(now), id);
  }

  /** Once the request's resets are carried out, the pusher goes on where it was. */
  lemma RequestCarried(s: State, now: int, id: nat, t: State)
    requires Inv(t) && NoDrain(t) && Requested(s, now, id, t) && !Answerable(s, now, id)
    ensures var q := Carried(t);
            && Quiet(q) && id in q.all && !q.all[id].closed && |q.all[id].queue| <= QUEUE_CAPACITY
            && (Blocked(q.all[id], s.c.gen) || IdrPending(q, id, s.c.gen))
  {
    assert SubInv(t, id);
    CarriedIsQuiet(t);
    CarriedOne(t, id);
  }

  /** The run that defeats a request that is not answerable. */
  lemma Unanswered(s: State, now: int, id: nat) returns (before: seq<Step>)
    requires Inv(s) && Enabled(s, Critical(RequestKeyframe(now))) && s.c.running && id in s.c.attached && !Answerable(s, now, id)
    ensures !TakesFirstIdr(Do(s, Critical(RequestKeyframe(now))), before, [], id, s.c.gen)
  {
    var t := Do(s, Critical(RequestKeyframe(now)));
    RequestSteps(s, now, id);
    StepKeeps(s, Critical(RequestKeyframe(now)));
    JoinedIsQuiet(s, RequestKeyframe(now));
    RequestCarried(s, now, id, t);
    before := DefeatedFrom(t, id);
  }

  lemma DefeatedFrom(t: State, id: nat) returns (before: seq<Step>)
    requires Inv(t) && NoDrain(t) && t.c.running && id in t.c.attached
    requires var q := Carried(t);
             && Quiet(q) && id in q.all && !q.all[id].closed && |q.all[id].queue| <= QUEUE_CAPACITY
             && (Blocked(q.all[id], t.c.gen) || IdrPending(q, id, t.c.gen))
    ensures !TakesFirstIdr(t, before, [], id, t.c.gen)
  {
    var resets := FinishResets(t);
    OnlyResetsIsPlain(resets);
    var rest := Defeated(Carried(t), id);
    RunConcat(t, resets, rest);
    before := resets + rest;
    RefusedInVain(t, before, id, t.c.gen);
  }

  /**
    * A request made while the encoder runs, in any state the machine can be in: the
    * subscriber takes the first IDR broadcast afterwards in the generation, whatever
    * happens meanwhile, if and only if the request resets everyone at once or the
    * subscriber already waits with room, and no IDR of the generation is on its way
    * to it at that moment.
    */
  lemma FirstIdrBroadcastIsTakenIff(s: State, now: int, id: nat)
    requires Inv(s) && Enabled(s, Critical(RequestKeyframe(now))) && s.c.running && id in s.c.attached
    ensures AlwaysTakesFirstIdr(Do(s, Critical(RequestKeyframe(now))), id, s.c.gen) <==> Answerable(s, now, id)
  {
    var op := RequestKeyframe(now);
    var t := Do(s, Critical(op));
    if Answerable(s, now, id) {
      assert SubInv(s, id);
      StepKeeps(s, Critical(op));
      OthersInCriticalSection(s, op, id);
      forall before, between ensures TakesFirstIdr(t, before, between, id, s.c.gen) {
        if FirstIdrReaches(t, before, between, id, s.c.gen) {
          PreparedTakes(t, before, between, id, s.c.gen);
        }
      }
    } else {
      var before := Unanswered(s, now, id);
      assert !TakesFirstIdr(t, before, [], id, s.c.gen);
    }
  }

  // ---- So the promise fails in some runs ------------------------------------------------------------

  /** An IDR is numbered, a keyframe is asked for, and only then is that IDR offered: the next one finds the queue full. */
  lemma PendingIdrDefeatsRequest() returns (steps: seq<Step>, before: seq<Step>)
    ensures Possible(Initial, steps)
    ensures var s := Run(Initial, steps);
            && Enabled(s, Critical(RequestKeyframe(0))) && s.c.running && 0 in s.c.attached
            && Perform(s.c, RequestKeyframe(0)).1 == ResetAll
            && !TakesFirstIdr(Do(s, Critical(RequestKeyframe(0))), before, [], 0, s.c.gen)
  {
    var join := Critical(Subscribe(0, 0, Started, 1));
    DrainAllEffect(BeginReset(Created, 1));
    var s1 := Do(Initial, join);
    assert s1.all == map[0 := Created.(gen := 1)];
    var s2 := Do(s1, CaptureGeneration);
    Extend(s2, Broadcast(true), []);
    Extend(s1, CaptureGeneration, [Broadcast(true)]);
    steps := [CaptureGeneration] + [Broadcast(true)];
    Extend(Initial, join, steps);
    steps := [join] + steps;
    RunKeeps(Initial, steps);
    before := Unanswered(Run(Initial, steps), 0, 0);
  }

  /** A first request has been answered. */
  lemma AnsweredOnce() returns (steps: seq<Step>)
    ensures Possible(Initial, steps)
    ensures var s := Run(Initial, steps);
            && LockFree(s) && s.c == Do(Do(Initial, Critical(Subscribe(0, 0, Started, 1))), Critical(RequestKeyframe(0))).c
            && s.pusher == Idle && s.all == map[0 := Created.(gen := 1)]
  {
    var join := Critical(Subscribe(0, 0, Started, 1));
    var ask := Critical(RequestKeyframe(0));
    DrainAllEffect(BeginReset(Created, 1));
    var s1 := Do(Initial, join);
    assert s1.all == map[0 := Created.(gen := 1)];
    OthersInCriticalSection(s1, RequestKeyframe(0), 0);
    var s2 := Do(s1, ask);
    var s3 := Do(s2, StartReset(0));
    var s4 := Do(s3, FinishReset(0));
    assert s4.all == map[0 := Created.(gen := 1)];
    Extend(s3, FinishReset(0), []);
    Extend(s2, StartReset(0), [FinishReset(0)]);
    steps := [StartReset(0)] + [FinishReset(0)];
    Extend(s1, ask, steps);
    steps := [ask] + steps;
    Extend(Initial, join, steps);
    steps := [join] + steps;
  }

  /** One IDR is broadcast and offered to the only subscriber. */
  lemma IdrGoesOut(s: State) returns (steps: seq<Step>)
    requires LockFree(s) && s.c == Do(Do(Initial, Critical(Subscribe(0, 0, Started, 1))), Critical(RequestKeyframe(0))).c
    requires s.pusher == Idle && s.all == map[0 := Created.(gen := 1)]
    ensures Possible(s, steps)
    ensures var t := Run(s, steps); LockFree(t) && t.c == s.c && !IdrPending(t, 0, s.c.gen) && 0 in t.all && !Receptive(t.all[0], s.c.gen)
  {
    var s5 := Do(s, CaptureGeneration);
    var s6 := Do(s5, Broadcast(true));
    Extend(s6, OfferUnit(0), []);
    Extend(s5, Broadcast(true), [OfferUnit(0)]);
    steps := [Broadcast(true)] + [OfferUnit(0)];
    Extend(s, CaptureGeneration, steps);
    steps := [CaptureGeneration] + steps;
  }

  /** Within the cooldown a request resets nobody, and a subscriber that follows may fill up before the IDR comes. */
  lemma CooldownDefeatsRequest() returns (steps: seq<Step>, before: seq<Step>)
    ensures Possible(Initial, steps)
    ensures var s := Run(Initial, steps);
            && Enabled(s, Critical(RequestKeyframe(1))) && s.c.running && 0 in s.c.attached
            && !IdrPending(s, 0, s.c.gen) && Perform(s.c, RequestKeyframe(1)).1 != ResetAll
            && !TakesFirstIdr(Do(s, Critical(RequestKeyframe(1))), before, [], 0, s.c.gen)
  {
    var answered := AnsweredOnce();
    var tail := IdrGoesOut(Run(Initial, answered));
    RunConcat(Initial, answered, tail);
    steps := answered + tail;
    RunKeeps(Initial, steps);
    before := Unanswered(Run(Initial, steps), 1, 0);
  }
}
