/**
  * One subscriber's bounded queue of access units. The value type
  * `Subscription` and the functions on it are the specification; the class
  * `VideoSubscription` updates the fields in place and is proved against them.
  *
  * The pump receives from the channel without taking the subscription's lock,
  * so a drain is a sequence of single removals (`DrainOne`) between which a
  * receive can fall. `removed` and `byDrain` remember the last unit taken out
  * of the channel and who took it; `received` is what the pump has seen.
  */
module VideoSubscriptions {
  import opened Options
  import opened AccessUnits

  const QUEUE_CAPACITY: nat := 4

  /** `torn`: a drain took the unit queued directly before this dependent one. */
  datatype Reception = Reception(au: AccessUnit, torn: bool)

  datatype Subscription = Subscription(
    closed: bool,
    dropped: bool,
    isFresh: bool,
    gen: nat,
    queue: seq<AccessUnit>,
    draining: bool,
    removed: Option<AccessUnit>,
    byDrain: bool,
    received: seq<Reception>)

  const Created := Subscription(false, true, true, 0, [], false, None, false, [])

  function Offer(sub: Subscription, au: AccessUnit, gen: nat): Subscription {
    if sub.closed || gen != sub.gen then sub
    else if sub.dropped && !au.idr then sub
    else if |sub.queue| < QUEUE_CAPACITY then
      sub.(queue := sub.queue + [au], dropped := false, isFresh := false)
    else sub.(dropped := true)
  }

  function ForceResync(sub: Subscription): Subscription {
    sub.(dropped := true)
  }

  function Close(sub: Subscription): Subscription {
    sub.(closed := true)
  }

  function BeginReset(sub: Subscription, gen: nat): Subscription {
    sub.(gen := gen, dropped := true, isFresh := true, draining := true)
  }

  function DrainOne(sub: Subscription): Subscription
    requires sub.queue != []
  {
    sub.(queue := sub.queue[1..], removed := Some(sub.queue[0]), byDrain := true)
  }

  function DrainAll(sub: Subscription): Subscription
    decreases |sub.queue|
  {
    if sub.queue == [] then sub else DrainAll(DrainOne(sub))
  }

  function EndReset(sub: Subscription): Subscription {
    sub.(draining := false)
  }

  /** resetForGen with no receive in between. */
  function ResetForGen(sub: Subscription, gen: nat): Subscription {
    EndReset(DrainAll(BeginReset(sub, gen)))
  }

  /** Guard of the receive that hands out a dependent unit whose predecessor a drain took. */
  predicate TearsHead(sub: Subscription)
    requires sub.queue != []
  {
    sub.byDrain && !sub.queue[0].idr
  }

  function Receive(sub: Subscription): Subscription
    requires sub.queue != []
  {
    sub.(queue := sub.queue[1..], removed := Some(sub.queue[0]), byDrain := false,
         received := sub.received + [Reception(sub.queue[0], TearsHead(sub))])
  }

  // ---- What the queue keeps --------------------------------------------------

  /** The newest unit that entered the channel, as far as it still matters. */
  function Newest(sub: Subscription): Option<AccessUnit> {
    if sub.queue != [] then Some(sub.queue[|sub.queue| - 1]) else sub.removed
  }

  predicate Linked(previous: Option<AccessUnit>, au: AccessUnit) {
    && (previous.Some? ==> previous.value.index < au.index)
    && (au.idr || (previous.Some? && Follows(previous.value, au)))
  }

  /** The unit that left the channel, or still waits in it, directly before position `j`. */
  function Before(sub: Subscription, j: nat): Option<AccessUnit>
    requires j < |sub.queue|
  {
    if j == 0 then sub.removed else Some(sub.queue[j - 1])
  }

  predicate QueueLinked(sub: Subscription) {
    forall j :: 0 <= j < |sub.queue| ==> Linked(Before(sub, j), sub.queue[j])
  }

  function LastReceived(received: seq<Reception>): Option<AccessUnit> {
    if received == [] then None else Some(received[|received| - 1].au)
  }

  /** A reception is torn exactly when it is dependent and its predecessor was not received just before it. */
  predicate ReceptionExact(previous: Option<AccessUnit>, r: Reception) {
    && (previous.Some? ==> previous.value.index < r.au.index)
    && (r.torn <==> !r.au.idr && !(previous.Some? && Follows(previous.value, r.au)))
  }

  predicate ReceivedExact(received: seq<Reception>) {
    forall k :: 0 <= k < |received| ==> ReceptionExact(LastReceived(received[..k]), received[k])
  }

  predicate WellFormed(sub: Subscription) {
    && |sub.queue| <= QUEUE_CAPACITY
    && QueueLinked(sub)
    && ReceivedExact(sub.received)
    && (!sub.byDrain ==> sub.removed == LastReceived(sub.received))
    && (sub.byDrain ==>
          && sub.removed.Some?
          && (sub.received != [] ==> LastReceived(sub.received).value.index < sub.removed.value.index))
    && (!sub.dropped ==> Newest(sub).Some? && Newest(sub).value.generation == sub.gen)
    // A drain leaves a dependent unit at the head only while it is still running.
    && (sub.byDrain && !sub.draining ==> if sub.queue == [] then sub.dropped else sub.queue[0].idr)
    && (sub.draining ==> sub.dropped)
  }

  /** A unit the subscription may be offered: newer than all before, and next in line if dependent units are accepted. */
  predicate MayOffer(sub: Subscription, au: AccessUnit) {
    && (Newest(sub).Some? ==> Newest(sub).value.index < au.index)
    && (!sub.dropped && !sub.closed && au.generation == sub.gen ==> Newest(sub).Some? && Newest(sub).value.index + 1 == au.index)
  }

  lemma OfferKeeps(sub: Subscription, au: AccessUnit)
    requires WellFormed(sub) && MayOffer(sub, au) && !sub.draining
    ensures WellFormed(Offer(sub, au, au.generation))
  {
    var next := Offer(sub, au, au.generation);
    if next.queue != sub.queue {
      assert next.queue[..|sub.queue|] == sub.queue;
      forall j | 0 <= j < |next.queue|
        ensures Linked(Before(next, j), next.queue[j])
      {
        if j < |sub.queue| {
          assert Linked(Before(sub, j), sub.queue[j]) && Before(next, j) == Before(sub, j);
        }
      }
    }
  }

  lemma DrainOneKeeps(sub: Subscription)
    requires WellFormed(sub) && sub.draining && sub.queue != []
    ensures WellFormed(DrainOne(sub))
  {
    var next := DrainOne(sub);
    forall j | 0 <= j < |next.queue|
      ensures Linked(Before(next, j), next.queue[j])
    {
      assert Linked(Before(sub, j + 1), sub.queue[j + 1]);
    }
    assert Linked(Before(sub, 0), sub.queue[0]);
  }

  lemma ReceiveKeeps(sub: Subscription)
    requires WellFormed(sub) && sub.queue != []
    ensures WellFormed(Receive(sub))
  {
    var next := Receive(sub);
    forall j | 0 <= j < |next.queue|
      ensures Linked(Before(next, j), next.queue[j])
    {
      assert Linked(Before(sub, j + 1), sub.queue[j + 1]);
    }
    var n := |sub.received|;
    assert Linked(Before(sub, 0), sub.queue[0]);
    assert next.received[..n] == sub.received;
    forall k | 0 <= k < |next.received|
      ensures ReceptionExact(LastReceived(next.received[..k]), next.received[k])
    {
      if k < n {
        assert next.received[..k] == sub.received[..k];
      }
    }
    if |next.queue| > 0 {
      assert Newest(next) == Newest(sub);
    }
  }

  /** Taking a unit out, by the drain or by the pump, leaves the newest one what it was. */
  lemma NewestStays(sub: Subscription)
    requires sub.queue != []
    ensures Newest(DrainOne(sub)) == Newest(sub) && Newest(Receive(sub)) == Newest(sub)
  {
  }

  /** An accepted unit becomes the newest; a live subscription that still follows has accepted it. */
  lemma OfferNewest(sub: Subscription, au: AccessUnit)
    requires au.generation == sub.gen || sub.closed || Newest(sub).Some?
    ensures var next := Offer(sub, au, au.generation);
            && next.closed == sub.closed && next.gen == sub.gen && next.draining == sub.draining
            && (Newest(next) == Some(au) || Newest(next) == Newest(sub))
            && (!next.dropped && !next.closed && sub.gen == au.generation ==> Newest(next) == Some(au))
  {
  }

  lemma ForceResyncKeeps(sub: Subscription)
    requires WellFormed(sub)
    ensures WellFormed(ForceResync(sub)) && Newest(ForceResync(sub)) == Newest(sub)
  {
    var next := ForceResync(sub);
    forall j | 0 <= j < |next.queue| ensures Linked(Before(next, j), next.queue[j]) {
      assert Linked(Before(sub, j), sub.queue[j]) && Before(next, j) == Before(sub, j);
    }
  }

  lemma EndResetKeeps(sub: Subscription)
    requires WellFormed(sub) && sub.draining && sub.queue == []
    ensures WellFormed(EndReset(sub)) && Newest(EndReset(sub)) == Newest(sub)
  {
  }

  lemma BeginResetKeeps(sub: Subscription, gen: nat)
    requires WellFormed(sub)
    ensures WellFormed(BeginReset(sub, gen)) && Newest(BeginReset(sub, gen)) == Newest(sub)
  {
    var next := BeginReset(sub, gen);
    forall j | 0 <= j < |next.queue| ensures Linked(Before(next, j), next.queue[j]) {
      assert Linked(Before(sub, j), sub.queue[j]) && Before(next, j) == Before(sub, j);
    }
  }

  /** Receiving and draining never disturb what a subscriber is waiting for. */
  lemma DrainAllEffect(sub: Subscription)
    ensures var d := DrainAll(sub);
            && d.queue == []
            && d == sub.(queue := [], removed := d.removed, byDrain := d.byDrain)
            && d.removed == (if sub.queue == [] then sub.removed else Some(sub.queue[|sub.queue| - 1]))
            && d.byDrain == (sub.byDrain || sub.queue != [])
    decreases |sub.queue|
  {
    if sub.queue != [] {
      DrainAllEffect(DrainOne(sub));
    }
  }

  /** Nothing but an IDR of the generation is accepted next, and there is room for it. */
  predicate Waiting(sub: Subscription, gen: nat) {
    !sub.closed && sub.gen == gen && sub.dropped && sub.queue == []
  }

  // ---- The object ---------------------------------------------------------------

  class VideoSubscription {
    var channel: seq<AccessUnit>
    var closed: bool
    var dropped: bool
    var isFresh: bool
    var gen: nat
    ghost var draining: bool
    ghost var removed: Option<AccessUnit>
    ghost var byDrain: bool
    ghost var received: seq<Reception>

    ghost function State(): Subscription
      reads this
    {
      Subscription(closed, dropped, isFresh, gen, channel, draining, removed, byDrain, received)
    }

    constructor ()
      ensures State() == Created
    {
      channel, closed, dropped, isFresh, gen := [], false, true, true, 0;
      draining, removed, byDrain, received := false, None, false, [];
    }

    method OfferUnit(au: AccessUnit, unitGen: nat)
      modifies this
      ensures State() == Offer(old(State()), au, unitGen)
    {
      if closed || unitGen != gen {
        return;
      }
      if dropped && !au.idr {
        return;
      }
      if |channel| < QUEUE_CAPACITY {
        channel := channel + [au];
        dropped := false;
        isFresh := false;
      } else {
        dropped := true;
      }
    }

    method Resync()
      modifies this
      ensures State() == ForceResync(old(State()))
    {
      dropped := true;
    }

    method Reset(newGen: nat)
      modifies this
      ensures State() == ResetForGen(old(State()), newGen)
    {
      gen := newGen;
      dropped := true;
      isFresh := true;
      draining := true;
      ghost var begun := State();
      while channel != []
        invariant DrainAll(State()) == DrainAll(begun)
        decreases |channel|
      {
        removed, byDrain := Some(channel[0]), true;
        channel := channel[1..];
      }
      draining := false;
    }

    method Take() returns (au: AccessUnit)
      requires channel != []
      modifies this
      ensures State() == Receive(old(State()))
      ensures au == old(channel)[0]
    {
      au := channel[0];
      received := received + [Reception(au, TearsHead(State()))];
      removed, byDrain := Some(au), false;
      channel := channel[1..];
    }
  }
}
