/**
  * What the pipeline owes its subscribers, over all runs: an encoder that is stopped
  * under them is being retried, one that nobody watches is about to be stopped, and a unit
  * that is offered to a subscriber that can take it is received.
  */
module VideoDuties {
  import opened Options
  import opened AccessUnits
  import opened VideoSubscriptions
  import opened VideoPipelines
  import opened VideoMachines

  // ---- The timers ---------------------------------------------------------------------------------------

  /** Subscribers of a stopped encoder have a retry coming, an encoder without subscribers its end. */
  predicate Armed(c: Control) {
    && (c.attached != {} && !c.running ==> c.retryTimer.Some?)
    && (c.running ==> c.retryTimer.None?)
    && (c.running && c.attached == {} ==> c.idleTimer)
    && (c.keyframeTimer.Some? ==> c.running)
    && (c.running ==> c.startFailures == 0)
    && (c.attached == {} ==> c.retryTimer.None?)
    && (c.retryTimer.Some? ==> c.retryTimer.value < c.timers) && (c.keyframeTimer.Some? ==> c.keyframeTimer.value < c.timers)
  }

  lemma PerformKeepsArmed(c: Control, op: Op)
    requires Armed(c)
    ensures Armed(Perform(c, op).0)
  {
  }

  lemma {:induction false} RunKeepsArmed(c: Control, ops: seq<Op>)
    requires Armed(c)
    ensures Armed(RunOps(c, ops))
    decreases |ops|
  {
    if ops != [] {
      PerformKeepsArmed(c, ops[0]);
      RunKeepsArmed(Perform(c, ops[0]).0, ops[1..]);
    }
  }

  /**
    * After every sequence of critical sections: subscribers attached to an encoder that does not run
    * have a retry timer armed, and when it fires, a start that succeeds runs the encoder in the new
    * generation and resets all of them for it, and one that fails arms the next.
    */
  lemma RetriedUntilStarted(ops: seq<Op>, start: StartOutcome, gen: nat)
    requires var c := RunOps(Dormant, ops); c.attached != {} && !c.running
    ensures var c := RunOps(Dormant, ops);
            && c.retryTimer.Some?
            && var (after, e) := Perform(c, RetryTimerFires(c.retryTimer.value, start, gen));
               && (start == Started ==> after.running && after.gen == gen && after.attached == c.attached && e == ResetAll)
               && (start == StartError ==>
                     && !after.running && after.gen == gen && after.attached == c.attached && e == ResetAll && after.startFailures == c.startFailures + 1
                     && after.retryTimer.Some?)
               && (start == Unavailable ==> after.attached == {} && e == CloseAll)
  {
    RunKeepsArmed(Dormant, ops);
  }

  /** A subscriber finds the encoder running, or starts it, or has a retry coming, or is closed at once. */
  lemma SubscribeServes(c: Control, id: nat, now: int, start: StartOutcome, gen: nat)
    ensures var after := Perform(c, Subscribe(id, now, start, gen)).0;
            if c.running then after.running && after.gen == c.gen && after.attached == c.attached + {id}
            else match start
              case Started => after.running && after.gen == gen && after.attached == c.attached + {id}
              case StartError => !after.running && after.gen == gen && after.retryTimer.Some? && after.attached == c.attached + {id}
              case Unavailable => !after.running && after.attached == {}
  {
  }

  /** An encoder that nobody watches is stopped when the idle timer fires, and only then. */
  lemma IdleStops(ops: seq<Op>, gen: nat)
    ensures var c := RunOps(Dormant, ops);
            var after := Perform(c, IdleTimerFires(gen)).0;
            && (c.running && c.attached == {} ==> c.idleTimer && !after.running && after.gen == gen && after.keyframeTimer.None?)
            && (!(c.running && c.attached == {}) ==> after == c)
  {
    RunKeepsArmed(Dormant, ops);
  }

  /**
    * A keyframe request while the encoder runs resets everyone at once exactly when there was no
    * such reset in the last two seconds, and otherwise leaves a timer armed; when that fires,
    * everyone is reset. Without a running encoder nothing happens.
    */
  lemma RequestAnswered(c: Control, now: int, later: int)
    ensures var (after, e) := Perform(c, RequestKeyframe(now));
            if !c.running then after == c && e == Nothing
            else if c.lastKeyframe.None? || now - c.lastKeyframe.value >= 2_000_000_000 then
              e == ResetAll && after == c.(lastKeyframe := Some(now))
            else
              && e == Nothing && after.keyframeTimer.Some? && after.running && after.lastKeyframe == c.lastKeyframe
              && var (fired, e') := Perform(after, KeyframeTimerFires(after.keyframeTimer.value, later));
                 e' == ResetAll && fired.keyframeTimer.None? && fired.lastKeyframe == Some(later) && fired.attached == c.attached
  {
  }

  /** Stopping and starting over: everyone stays attached and is reset for the new generation, or is closed when there is no encoder. */
  lemma RestartServes(c: Control, stopGen: nat, start: StartOutcome, gen: nat)
    ensures var (after, e) := Perform(c, Restart(stopGen, start, gen));
            && after.keyframeTimer.None?
            && (c.attached == {} ==> !after.running && after.attached == {} && after.gen == if c.running then stopGen else c.gen)
            && (c.attached != {} && start == StartError ==> after.startFailures == 1 && after.gen == gen)
            && (c.attached != {} && start == Started ==> after.running && after.gen == gen && after.attached == c.attached && e == ResetAll)
            && (c.attached != {} && start == StartError ==> !after.running && after.retryTimer.Some? && after.attached == c.attached && e == ResetAll)
            && (c.attached != {} && start == Unavailable ==> !after.running && after.attached == {} && e == CloseAll)
  {
  }

  /** A change of size or profile restarts the encoder if it runs, whoever is attached. */
  lemma ReconfigureServes(c: Control, stopGen: nat, start: StartOutcome, gen: nat)
    ensures var (after, e) := Perform(c, Reconfigure(stopGen, start, gen));
            && (!c.running ==> after == c && e == ResetAll)
            && (c.running && start == Started ==> after.running && after.gen == gen && after.attached == c.attached && e == ResetAll)
            && (c.running && start == StartError ==>
                  !after.running && (c.attached != {} ==> after.retryTimer.Some?) && after.attached == c.attached && e == ResetAll)
            && (c.running && start == Unavailable ==> !after.running && after.attached == {} && e == CloseAll)
  {
  }

  /** A subscriber that leaves is no longer attached; with the last one the retry goes, and a running encoder's end is set. */
  lemma UnsubscribeLeaves(c: Control, id: nat)
    ensures var (after, e) := Perform(c, Unsubscribe(id));
            && e == Nothing && after.attached == c.attached - {id} && after.running == c.running && after.gen == c.gen
            && (id in c.attached && after.attached == {} ==> after.retryTimer.None? && (c.running ==> after.idleTimer))
            && (id !in c.attached || after.attached != {} ==> after.retryTimer == c.retryTimer && after.idleTimer == c.idleTimer)
            && after.keyframeTimer == c.keyframeTimer
  {
  }

  /** A shutdown leaves nothing armed and nobody attached. */
  lemma ShutdownLeaves(c: Control, gen: nat)
    ensures var (after, e) := Perform(c, Shutdown(gen));
            && e == CloseAll && after.attached == {} && !after.running && after.gen == (if c.running then gen else c.gen)
            && after.retryTimer.None? && after.keyframeTimer.None? && !after.idleTimer && after.startFailures == 0
  {
  }

  /** The timer is not armed, and its token has been given out. */
  predicate Over(c: Control, token: nat) {
    token < c.timers && c.retryTimer != Some(token) && c.keyframeTimer != Some(token)
  }

  lemma StepStaysOver(c: Control, op: Op, token: nat)
    requires Over(c, token)
    ensures Over(Perform(c, op).0, token)
  {
  }

  lemma {:induction false} StaysOver(c: Control, ops: seq<Op>, token: nat)
    requires Over(c, token)
    ensures Over(RunOps(c, ops), token)
    decreases |ops|
  {
    if ops != [] {
      StepStaysOver(c, ops[0], token);
      StaysOver(Perform(c, ops[0]).0, ops[1..], token);
    }
  }

  /** A timer that is armed and then, in one critical section, no longer armed as what it was, is over. */
  lemma CancelledIsOver(ops: seq<Op>, op: Op)
    ensures var c := RunOps(Dormant, ops);
            var after := Perform(c, op).0;
            && (c.retryTimer.Some? && after.retryTimer != c.retryTimer && after.keyframeTimer != c.retryTimer ==> Over(after, c.retryTimer.value))
            && (c.keyframeTimer.Some? && after.keyframeTimer != c.keyframeTimer && after.retryTimer != c.keyframeTimer ==>
                  Over(after, c.keyframeTimer.value))
  {
    RunKeepsArmed(Dormant, ops);
  }

  /** A timer that was cancelled, or armed anew since, does nothing however late it fires: no other timer ever gets its token. */
  lemma StaleTimersDoNothing(c: Control, ops: seq<Op>, token: nat, now: int, start: StartOutcome, gen: nat)
    requires Over(c, token)
    ensures var later := RunOps(c, ops);
            && Perform(later, KeyframeTimerFires(token, now)) == (later, Nothing)
            && Perform(later, RetryTimerFires(token, start, gen)) == (later, Nothing)
  {
    StaysOver(c, ops, token);
  }

  // ---- Units ----------------------------------------------------------------------------------------------

  /**
    * What an offer comes to. A closed subscription and one of another generation take nothing, and
    * one that waits takes only an IDR. Otherwise the unit is queued and the subscription
    * follows, or, with a full queue, it is lost and the subscription waits.
    */
  lemma OfferOutcome(sub: Subscription, au: AccessUnit, gen: nat)
    ensures var t := Offer(sub, au, gen);
            var takes := !sub.closed && gen == sub.gen && (au.idr || !sub.dropped);
            var room := |sub.queue| < QUEUE_CAPACITY;
            && (!takes ==> t == sub)
            && (takes && room ==> t == sub.(queue := sub.queue + [au], dropped := false, isFresh := false))
            && (takes && !room ==> t == sub.(dropped := true))
  {
  }

  predicate HasReceived(s: State, id: nat, au: AccessUnit) {
    id in s.all && exists k :: 0 <= k < |s.all[id].received| && s.all[id].received[k].au == au
  }

  /** The subscriber has the unit, or will have it after at most `n` more receives. */
  predicate Within(s: State, id: nat, au: AccessUnit, n: nat) {
    && id in s.all
    && (HasReceived(s, id, au) || exists j :: 0 <= j < |s.all[id].queue| && s.all[id].queue[j] == au && j + 1 <= n)
  }

  function Receives(steps: seq<Step>, id: nat): nat {
    if steps == [] then 0 else (if steps[0] == PumpReceives(id) then 1 else 0) + Receives(steps[1..], id)
  }

  lemma StepNearer(s: State, step: Step, id: nat, au: AccessUnit, n: nat)
    requires Enabled(s, step) && step != DrainUnit(id) && Within(s, id, au, n)
    ensures n == 0 ==> HasReceived(s, id, au)
    ensures Within(Do(s, step), id, au, if step == PumpReceives(id) && n > 0 then n - 1 else n)
  {
    var t := Do(s, step);
    if HasReceived(s, id, au) {
      var k :| 0 <= k < |s.all[id].received| && s.all[id].received[k].au == au;
      assert t.all[id].received[k].au == au;
    } else {
      var j :| 0 <= j < |s.all[id].queue| && s.all[id].queue[j] == au && j + 1 <= n;
      if step == PumpReceives(id) {
        if j == 0 {
          assert t.all[id].received[|s.all[id].received|].au == au;
        } else {
          assert t.all[id].queue[j - 1] == au;
        }
      } else {
        assert t.all[id].queue[j] == au;
      }
    }
  }

  lemma {:induction false} RunNearer(s: State, steps: seq<Step>, id: nat, au: AccessUnit, n: nat)
    requires Possible(s, steps) && Within(s, id, au, n) && n <= Receives(steps, id)
    requires forall i :: 0 <= i < |steps| ==> steps[i] != DrainUnit(id)
    ensures HasReceived(Run(s, steps), id, au)
    decreases |steps|
  {
    if steps != [] {
      StepNearer(s, steps[0], id, au, n);
      RunNearer(Do(s, steps[0]), steps[1..], id, au, if steps[0] == PumpReceives(id) && n > 0 then n - 1 else n);
    }
  }

  /**
    * In every run, a unit offered to an open subscriber of its generation that follows, or waits for
    * just such an IDR, and has room, is received once the pump has received as often as units were
    * queued, unless a drain takes a unit first.
    */
  lemma OfferedIsReceived(s: State, id: nat, steps: seq<Step>)
    requires Enabled(s, OfferUnit(id))
    requires var sub, au := s.all[id], s.pusher.au;
             && !sub.closed && sub.gen == au.generation && (au.idr || !sub.dropped) && |sub.queue| < QUEUE_CAPACITY
             && Possible(Do(s, OfferUnit(id)), steps) && Receives(steps, id) > |sub.queue|
    requires forall i :: 0 <= i < |steps| ==> steps[i] != DrainUnit(id)
    ensures HasReceived(Run(Do(s, OfferUnit(id)), steps), id, s.pusher.au)
  {
    var t := Do(s, OfferUnit(id));
    assert t.all[id].queue[|s.all[id].queue|] == s.pusher.au;
    RunNearer(t, steps, id, s.pusher.au, |s.all[id].queue| + 1);
  }

  /** The run goes on until the broadcast under way is finished. */
  predicate UntilFinished(s: State, steps: seq<Step>)
    requires Possible(s, steps)
    decreases |steps|
  {
    steps != [] && (steps == [FinishBroadcast] || (steps[0] != FinishBroadcast && UntilFinished(Do(s, steps[0]), steps[1..])))
  }

  function Offers(steps: seq<Step>, id: nat): nat {
    if steps == [] then 0 else (if steps[0] == OfferUnit(id) then 1 else 0) + Offers(steps[1..], id)
  }

  lemma {:induction false} OfferedOnce(s: State, steps: seq<Step>, id: nat)
    requires s.pusher.Offering? && Possible(s, steps) && UntilFinished(s, steps)
    ensures Offers(steps, id) == if id in s.pusher.targets then 1 else 0
    decreases |steps|
  {
    if steps != [FinishBroadcast] {
      OfferedOnce(Do(s, steps[0]), steps[1..], id);
    }
  }

  /**
    * In every run: a unit pushed while the captured generation is still the running one gets the next
    * number and is offered exactly once to everyone then attached, and to nobody else, before the next
    * can be pushed. A unit of another generation is dropped.
    */
  lemma PushedIsOffered(s: State, idr: bool, steps: seq<Step>, id: nat)
    requires Enabled(s, Broadcast(idr))
    ensures var t := Do(s, Broadcast(idr));
            if s.c.running && s.pusher.gen == s.c.gen then
              && t.pushed == s.pushed + 1 && t.pusher.Offering? && t.pusher.au == AccessUnit(t.pushed, s.c.gen, idr)
              && (Possible(t, steps) && UntilFinished(t, steps) ==> Offers(steps, id) == if id in s.c.attached then 1 else 0)
            else t == s.(pusher := Idle)
  {
    var t := Do(s, Broadcast(idr));
    if t.pusher.Offering? && Possible(t, steps) && UntilFinished(t, steps) {
      OfferedOnce(t, steps, id);
    }
  }
}
