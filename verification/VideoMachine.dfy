/**
  * Every interleaving of one pusher, the pipeline's critical sections, the
  * timers, the subscribers' resyncs and their pumps.
  *
  * Broadcasting is split into numbering the unit and one offer per target.
  * Resetting the subscribers happens inside a critical section, subscriber by
  * subscriber and unit by unit, while pumps keep receiving.
  */
module VideoMachines {
  import opened Options
  import opened AccessUnits
  import opened VideoSubscriptions
  import opened VideoPipelines

  datatype Pusher =
    | Idle
    | Captured(gen: nat)
    | Offering(au: AccessUnit, targets: set<nat>)

  datatype State = State(
    c: Control,
    all: map<nat, Subscription>,
    pushed: nat,
    resetting: set<nat>,
    pusher: Pusher)

  const Initial := State(Dormant, map[], 0, {}, Idle)

  datatype Step =
    | Critical(op: Op)
    | StartReset(id: nat)
    | DrainUnit(id: nat)
    | FinishReset(id: nat)
    | CaptureGeneration
    | Broadcast(idr: bool)
    | OfferUnit(id: nat)
    | FinishBroadcast
    | Resync(id: nat)
    | PumpReceives(id: nat)

  predicate NoDrain(s: State) {
    forall id :: id in s.all ==> !s.all[id].draining
  }

  /** The pipeline's mutex is free. */
  predicate LockFree(s: State) {
    s.resetting == {} && NoDrain(s)
  }

  predicate Enabled(s: State, step: Step) {
    match step
    case Critical(op) => LockFree(s) && (op.Subscribe? ==> op.id !in s.all)
    case StartReset(id) => id in s.resetting && id in s.all && NoDrain(s)
    case DrainUnit(id) => id in s.all && s.all[id].draining && s.all[id].queue != []
    case FinishReset(id) => id in s.all && s.all[id].draining && s.all[id].queue == []
    case CaptureGeneration => LockFree(s) && s.pusher.Idle? && s.c.running
    case Broadcast(_) => LockFree(s) && s.pusher.Captured?
    case OfferUnit(id) => s.pusher.Offering? && id in s.pusher.targets && id in s.all && !s.all[id].draining
    case FinishBroadcast => s.pusher.Offering? && s.pusher.targets == {}
    case Resync(id) => id in s.all && !s.all[id].draining
    case PumpReceives(id) => id in s.all && s.all[id].queue != []
  }

  function Do(s: State, step: Step): State
    requires Enabled(s, step)
  {
    match step
    case Critical(op) =>
      var (after, e) := Perform(s.c, op);
      s.(c := after, all := Joined(s.all, s.c, op), resetting := if e == ResetAll then after.attached else {})
    case StartReset(id) =>
      s.(all := s.all[id := BeginReset(s.all[id], s.c.gen)], resetting := s.resetting - {id})
    case DrainUnit(id) => s.(all := s.all[id := DrainOne(s.all[id])])
    case FinishReset(id) => s.(all := s.all[id := EndReset(s.all[id])])
    case CaptureGeneration => s.(pusher := Captured(s.c.gen))
    case Broadcast(idr) =>
      if s.pusher.gen != s.c.gen || !s.c.running then s.(pusher := Idle)
      else s.(pushed := s.pushed + 1,
              pusher := Offering(AccessUnit(s.pushed + 1, s.c.gen, idr), s.c.attached))
    case OfferUnit(id) =>
      s.(all := s.all[id := Offer(s.all[id], s.pusher.au, s.pusher.au.generation)],
         pusher := s.pusher.(targets := s.pusher.targets - {id}))
    case FinishBroadcast => s.(pusher := Idle)
    case Resync(id) => s.(all := s.all[id := ForceResync(s.all[id])])
    case PumpReceives(id) => s.(all := s.all[id := Receive(s.all[id])])
  }

  /** The run takes only enabled steps. */
  predicate Possible(s: State, steps: seq<Step>)
    decreases |steps|
  {
    steps != [] ==> Enabled(s, steps[0]) && Possible(Do(s, steps[0]), steps[1..])
  }

  function Run(s: State, steps: seq<Step>): State
    requires Possible(s, steps)
    decreases |steps|
  {
    if steps == [] then s else Run(Do(s, steps[0]), steps[1..])
  }

  // ---- The invariant ------------------------------------------------------------

  predicate Pending(s: State, id: nat) {
    s.pusher.Offering? && id in s.pusher.targets
  }

  /** Left on an old generation by a Subscribe that started the encoder: it gets nothing until the next reset. */
  predicate Stranded(s: State, sub: Subscription) {
    s.c.running && sub.gen != s.c.gen
  }

  /** How the newest unit in a subscription's channel relates to what the pusher has numbered. */
  predicate InStep(s: State, id: nat, sub: Subscription) {
    var newest := Newest(sub);
    && (newest.Some? ==> newest.value.index <= s.pushed)
    && (Pending(s, id) ==>
          && MayOffer(sub, s.pusher.au)
          && (!sub.dropped && !sub.closed && !Stranded(s, sub) && id !in s.resetting ==> sub.gen == s.pusher.au.generation))
    && (!Pending(s, id) && !sub.dropped && !sub.closed && !Stranded(s, sub) && id !in s.resetting ==>
          newest.Some? && newest.value.index == s.pushed)
  }

  predicate SubInv(s: State, id: nat)
    requires id in s.all
  {
    var sub := s.all[id];
    && WellFormed(sub)
    && InStep(s, id, sub)
    && (!sub.closed <==> id in s.c.attached)
  }

  predicate Inv(s: State) {
    && s.c.attached <= s.all.Keys
    && s.resetting <= s.c.attached
    && (s.pusher.Offering? ==> s.pusher.targets <= s.all.Keys && s.pusher.au.index == s.pushed)
    && (forall id :: id in s.all ==> SubInv(s, id))
  }

  lemma NewSubscriber(gen: nat)
    ensures var sub := ResetForGen(Created, gen);
            sub == Created.(gen := gen) && WellFormed(sub) && WellFormed(Created)
  {
    DrainAllEffect(BeginReset(Created, gen));
  }

  lemma CriticalKeeps(s: State, op: Op)
    requires Inv(s) && Enabled(s, Critical(op))
    ensures Inv(Do(s, Critical(op)))
  {
    var t := Do(s, Critical(op));
    LeavingAGenerationResets(s.c, op);
    NewSubscriber(t.c.gen);
    forall id | id in t.all ensures SubInv(t, id) {
      if op.Subscribe? && id == op.id {
        assert t.all[id] == Created.(gen := t.c.gen) || t.all[id] == Close(Created);
      } else {
        assert SubInv(s, id);
        CriticalKeepsOther(s, op, id);
      }
    }
  }

  lemma CriticalKeepsOther(s: State, op: Op, id: nat)
    requires Inv(s) && Enabled(s, Critical(op)) && id in s.all
    requires op.Subscribe? ==> id != op.id
    ensures id in Do(s, Critical(op)).all && SubInv(Do(s, Critical(op)), id)
  {
    var t := Do(s, Critical(op));
    LeavingAGenerationResets(s.c, op);
    OthersInCriticalSection(s, op, id);
    SectionKeeps(s, t, id);
  }

  lemma OthersInCriticalSection(s: State, op: Op, id: nat)
    requires Enabled(s, Critical(op)) && id in s.all
    requires op.Subscribe? ==> id != op.id
    ensures var t := Do(s, Critical(op));
            && id in t.all
            && (id in t.c.attached ==> id in s.c.attached)
            && t.all[id] == if id in s.c.attached - t.c.attached then Close(s.all[id]) else s.all[id]
  {
    LeavingAGenerationResets(s.c, op);
  }

  lemma SectionKeeps(s: State, t: State, id: nat)
    requires Inv(s) && id in s.all && id in t.all && s.resetting == {}
    requires t.pushed == s.pushed && t.pusher == s.pusher
    requires id in t.c.attached ==> id in s.c.attached
    requires t.all[id] == if id in s.c.attached - t.c.attached then Close(s.all[id]) else s.all[id]
    requires s.c.running && (!t.c.running || t.c.gen != s.c.gen) ==> id in t.resetting || id !in t.c.attached
    ensures SubInv(t, id)
  {
    assert SubInv(s, id);
    var sub, next := s.all[id], t.all[id];
    assert forall j :: 0 <= j < |sub.queue| ==> Before(next, j) == Before(sub, j);
    assert WellFormed(next);
  }

  lemma OneSubscriptionKeeps(s: State, t: State, id: nat)
    requires Inv(s) && id in s.all && id in t.all
    requires t == s.(all := s.all[id := t.all[id]], resetting := t.resetting, pusher := t.pusher)
    requires t.resetting == s.resetting - {id} || t.resetting == s.resetting
    requires t.pusher == s.pusher || (Pending(s, id) && t.pusher == s.pusher.(targets := s.pusher.targets - {id}))
    requires SubInv(t, id)
    ensures Inv(t)
  {
    forall other | other in t.all ensures SubInv(t, other) {
      if other != id {
        assert SubInv(s, other);
      }
    }
  }

  lemma StartResetKeeps(s: State, id: nat)
    requires Inv(s) && Enabled(s, StartReset(id))
    ensures Inv(Do(s, StartReset(id)))
  {
    assert SubInv(s, id);
    BeginResetKeeps(s.all[id], s.c.gen);
    OneSubscriptionKeeps(s, Do(s, StartReset(id)), id);
  }

  lemma DrainUnitKeeps(s: State, id: nat)
    requires Inv(s) && Enabled(s, DrainUnit(id))
    ensures Inv(Do(s, DrainUnit(id)))
  {
    assert SubInv(s, id);
    DrainOneKeeps(s.all[id]);
    NewestStays(s.all[id]);
    OneSubscriptionKeeps(s, Do(s, DrainUnit(id)), id);
  }

  lemma FinishResetKeeps(s: State, id: nat)
    requires Inv(s) && Enabled(s, FinishReset(id))
    ensures Inv(Do(s, FinishReset(id)))
  {
    assert SubInv(s, id);
    EndResetKeeps(s.all[id]);
    OneSubscriptionKeeps(s, Do(s, FinishReset(id)), id);
  }

  lemma PushingKeeps(s: State, step: Step)
    requires Inv(s) && Enabled(s, step) && (step.CaptureGeneration? || step.Broadcast? || step.FinishBroadcast?)
    ensures Inv(Do(s, step))
  {
    var t := Do(s, step);
    forall id | id in t.all ensures SubInv(t, id) {
      assert SubInv(s, id);
    }
  }

  lemma OfferingKeeps(s: State, id: nat)
    requires Inv(s) && Enabled(s, OfferUnit(id))
    ensures Inv(Do(s, OfferUnit(id)))
  {
    OfferedInStep(s, id);
    OneSubscriptionKeeps(s, Do(s, OfferUnit(id)), id);
  }

  lemma OfferedInStep(s: State, id: nat)
    requires Inv(s) && Enabled(s, OfferUnit(id))
    ensures SubInv(Do(s, OfferUnit(id)), id)
  {
    assert SubInv(s, id);
    var sub, au, t := s.all[id], s.pusher.au, Do(s, OfferUnit(id));
    var next := Offer(sub, au, au.generation);
    assert t.all[id] == next && !Pending(t, id);
    OfferKeeps(sub, au);
    if sub.closed || au.generation != sub.gen {
      assert next == sub;
    } else {
      OfferNewest(sub, au);
    }
  }

  lemma ResyncKeeps(s: State, id: nat)
    requires Inv(s) && Enabled(s, Resync(id))
    ensures Inv(Do(s, Resync(id)))
  {
    assert SubInv(s, id);
    ForceResyncKeeps(s.all[id]);
    OneSubscriptionKeeps(s, Do(s, Resync(id)), id);
  }

  lemma PumpKeeps(s: State, id: nat)
    requires Inv(s) && Enabled(s, PumpReceives(id))
    ensures Inv(Do(s, PumpReceives(id)))
  {
    assert SubInv(s, id);
    ReceiveKeeps(s.all[id]);
    NewestStays(s.all[id]);
    OneSubscriptionKeeps(s, Do(s, PumpReceives(id)), id);
  }

  lemma StepKeeps(s: State, step: Step)
    requires Inv(s) && Enabled(s, step)
    ensures Inv(Do(s, step))
  {
    match step {
      case Critical(op) => CriticalKeeps(s, op);
      case StartReset(id) => StartResetKeeps(s, id);
      case DrainUnit(id) => DrainUnitKeeps(s, id);
      case FinishReset(id) => FinishResetKeeps(s, id);
      case CaptureGeneration => PushingKeeps(s, step);
      case Broadcast(_) => PushingKeeps(s, step);
      case OfferUnit(id) => OfferingKeeps(s, id);
      case FinishBroadcast => PushingKeeps(s, step);
      case Resync(id) => ResyncKeeps(s, id);
      case PumpReceives(id) => PumpKeeps(s, id);
    }
  }

  lemma {:induction false} RunKeeps(s: State, steps: seq<Step>)
    requires Inv(s) && Possible(s, steps)
    ensures Inv(Run(s, steps))
    decreases |steps|
  {
    if steps != [] {
      StepKeeps(s, steps[0]);
      RunKeeps(Do(s, steps[0]), steps[1..]);
    }
  }

  // ---- The theorem ------------------------------------------------------------------

  /**
    * In every run, each dependent access unit a subscriber's pump receives comes
    * directly after the unit numbered one less, of the same generation, exactly
    * when it was not torn away from it by a receive that fell between two
    * removals of a drain. Numbers never go back.
    */
  lemma ReceivedUnitsChain(steps: seq<Step>, id: nat, k: nat)
    requires Possible(Initial, steps)
    requires id in Run(Initial, steps).all && k < |Run(Initial, steps).all[id].received|
    ensures var received := Run(Initial, steps).all[id].received;
            && (k > 0 ==> received[k - 1].au.index < received[k].au.index)
            && (received[k].torn <==>
                  !received[k].au.idr && !(k > 0 && Follows(received[k - 1].au, received[k].au)))
  {
    RunKeeps(Initial, steps);
    var end := Run(Initial, steps);
    assert SubInv(end, id);
    assert ReceptionExact(LastReceived(end.all[id].received[..k]), end.all[id].received[k]);
  }

  /** Tearing needs a receive inside a running drain; at every other moment a receive is whole. */
  lemma TearingNeedsADrain(steps: seq<Step>, id: nat)
    requires Possible(Initial, steps)
    requires id in Run(Initial, steps).all && Run(Initial, steps).all[id].queue != []
    requires TearsHead(Run(Initial, steps).all[id])
    ensures Run(Initial, steps).all[id].draining
  {
    RunKeeps(Initial, steps);
    assert SubInv(Run(Initial, steps), id);
  }

  // ---- Runs in which nothing interferes: the object's methods ---------------------------

  lemma {:induction false} RunConcat(s: State, first: seq<Step>, second: seq<Step>)
    requires Possible(s, first) && Possible(Run(s, first), second)
    ensures Possible(s, first + second) && Run(s, first + second) == Run(Run(s, first), second)
    decreases |first|
  {
    if first == [] {
      assert first + second == second;
    } else {
      RunConcat(Do(s, first[0]), first[1..], second);
      assert (first + second)[1..] == first[1..] + second;
    }
  }

  predicate OnlyResets(steps: seq<Step>) {
    forall i :: 0 <= i < |steps| ==> steps[i].StartReset? || steps[i].DrainUnit? || steps[i].FinishReset?
  }

  lemma {:induction false} FinishDrain(s: State, id: nat) returns (steps: seq<Step>)
    requires id in s.all && s.all[id].draining
    ensures OnlyResets(steps)
    ensures Possible(s, steps) && Run(s, steps) == s.(all := s.all[id := EndReset(DrainAll(s.all[id]))])
    decreases |s.all[id].queue|
  {
    if s.all[id].queue == [] {
      steps := [FinishReset(id)];
      assert Possible(Do(s, steps[0]), steps[1..]);
    } else {
      var next := Do(s, DrainUnit(id));
      var rest := FinishDrain(next, id);
      steps := [DrainUnit(id)] + rest;
      assert steps[1..] == rest;
      assert s.all[id := EndReset(DrainAll(s.all[id]))] == next.all[id := EndReset(DrainAll(next.all[id]))];
    }
  }

  lemma ResetOneThenRest(all: map<nat, Subscription>, ids: set<nat>, id: nat, gen: nat)
    requires id in ids && ids <= all.Keys
    ensures ResetAttached(all[id := ResetForGen(all[id], gen)], ids - {id}, gen) == ResetAttached(all, ids, gen)
  {
  }

  lemma {:induction false} FinishResets(s: State) returns (steps: seq<Step>)
    requires NoDrain(s) && s.resetting <= s.all.Keys
    ensures OnlyResets(steps)
    ensures Possible(s, steps)
    ensures Run(s, steps) == s.(all := ResetAttached(s.all, s.resetting, s.c.gen), resetting := {})
    decreases |s.resetting|
  {
    if s.resetting == {} {
      steps := [];
      assert ResetAttached(s.all, {}, s.c.gen) == s.all;
    } else {
      var id :| id in s.resetting;
      var begun := Do(s, StartReset(id));
      var drain := FinishDrain(begun, id);
      var one := [StartReset(id)] + drain;
      assert one[1..] == drain;
      var mid := s.(all := s.all[id := ResetForGen(s.all[id], s.c.gen)], resetting := s.resetting - {id});
      DrainAllEffect(BeginReset(s.all[id], s.c.gen));
      assert Run(s, one) == mid by {
        assert begun.all[id := EndReset(DrainAll(begun.all[id]))] == mid.all;
      }
      var rest := FinishResets(mid);
      RunConcat(s, one, rest);
      steps := one + rest;
      ResetOneThenRest(s.all, s.resetting, id, s.c.gen);
    }
  }

  /** Each critical section of the object is a run of the machine. */
  lemma CriticalSectionIsARun(s: State, op: Op) returns (steps: seq<Step>)
    requires Inv(s) && Enabled(s, Critical(op))
    ensures Possible(s, steps)
    ensures Run(s, steps) == s.(c := Perform(s.c, op).0, all := Settled(s.all, s.c, op), resetting := {})
  {
    var begun := Do(s, Critical(op));
    CriticalKeeps(s, op);
    JoinedIsQuiet(s, op);
    var rest := FinishResets(begun);
    steps := [Critical(op)] + rest;
    assert steps[1..] == rest;
    assert Perform(s.c, op).1 != ResetAll ==> ResetAttached(begun.all, {}, begun.c.gen) == begun.all;
  }

  lemma JoinedIsQuiet(s: State, op: Op)
    requires Enabled(s, Critical(op))
    ensures NoDrain(Do(s, Critical(op)))
  {
    DrainAllEffect(BeginReset(Created, Perform(s.c, op).0.gen));
  }

  // ---- A torn unit really happens -------------------------------------------------------

  lemma Extend(s: State, step: Step, rest: seq<Step>)
    requires Enabled(s, step) && Possible(Do(s, step), rest)
    ensures Possible(s, [step] + rest) && Run(s, [step] + rest) == Run(Do(s, step), rest)
  {
    assert ([step] + rest)[1..] == rest;
  }

  /** Nothing but an IDR and the unit after it, both waiting. */
  const FirstUnit := AccessUnit(1, 1, true)
  const SecondUnit := AccessUnit(2, 1, false)

  lemma TwoUnitsQueued() returns (steps: seq<Step>)
    ensures Possible(Initial, steps)
    ensures var s := Run(Initial, steps);
            && LockFree(s) && s.c.running && s.c.gen == 1 && s.c.attached == {0} && s.c.lastKeyframe.None? && s.c.keyframeTimer.None? && 0 in s.all
            && s.all == map[0 := Created.(gen := 1, dropped := false, isFresh := false, queue := [FirstUnit, SecondUnit])]
  {
    var join := Critical(Subscribe(0, 0, Started, 1));
    DrainAllEffect(BeginReset(Created, 1));
    var s1 := Do(Initial, join);
    assert s1.all == map[0 := Created.(gen := 1)];
    var s2 := Do(s1, CaptureGeneration);
    var s3 := Do(s2, Broadcast(true));
    var s4 := Do(s3, OfferUnit(0));
    assert s4.all[0].queue == [FirstUnit];
    var s5 := Do(s4, FinishBroadcast);
    var s6 := Do(s5, CaptureGeneration);
    var s7 := Do(s6, Broadcast(false));
    var s8 := Do(s7, OfferUnit(0));
    assert s8.all[0].queue == [FirstUnit, SecondUnit];
    assert s8.all == map[0 := s8.all[0]];
    Extend(s7, OfferUnit(0), []);
    Extend(s6, Broadcast(false), [OfferUnit(0)]);
    steps := [Broadcast(false)] + [OfferUnit(0)];
    Extend(s5, CaptureGeneration, steps);
    steps := [CaptureGeneration] + steps;
    Extend(s4, FinishBroadcast, steps);
    steps := [FinishBroadcast] + steps;
    Extend(s3, OfferUnit(0), steps);
    steps := [OfferUnit(0)] + steps;
    Extend(s2, Broadcast(true), steps);
    steps := [Broadcast(true)] + steps;
    Extend(s1, CaptureGeneration, steps);
    steps := [CaptureGeneration] + steps;
    Extend(Initial, join, steps);
    steps := [join] + steps;
  }

  /** Two units are queued; a keyframe request drains the first while the pump takes the second. */
  lemma TornUnitExists() returns (steps: seq<Step>)
    ensures Possible(Initial, steps)
    ensures var end := Run(Initial, steps);
            0 in end.all && end.all[0].received == [Reception(SecondUnit, true)]
  {
    var ask := Critical(RequestKeyframe(0));
    var queued := TwoUnitsQueued();
    var s8 := Run(Initial, queued);
    var s9 := Do(s8, ask);
    assert s9.all[0] == s8.all[0];
    var s10 := Do(s9, StartReset(0));
    var s11 := Do(s10, DrainUnit(0));
    assert s11.all[0].queue == [SecondUnit];
    Extend(s11, PumpReceives(0), []);
    Extend(s10, DrainUnit(0), [PumpReceives(0)]);
    steps := [DrainUnit(0)] + [PumpReceives(0)];
    Extend(s9, StartReset(0), steps);
    steps := [StartReset(0)] + steps;
    Extend(s8, ask, steps);
    steps := [ask] + steps;
    RunConcat(Initial, queued, steps);
    steps := queued + steps;
  }
}
