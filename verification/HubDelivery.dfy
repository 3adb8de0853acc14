/**
  * What a client's video lane does deliver: which submission gets into the queue, what an
  * overflow leaves behind, and that what is in the queue reaches the socket.
  */
module HubDeliveries {
  import opened Options
  import opened AccessUnits
  import opened HubLanes

  // ---- What a submission comes to -------------------------------------------------------------

  /** Somebody holds the lane's lock in every state of the run but the last. */
  predicate LockHeld(s: Lane, steps: seq<Step>)
    requires Possible(s, steps)
    decreases |steps|
  {
    steps != [] ==> !s.holder.Free? && LockHeld(Do(s, steps[0]), steps[1..])
  }

  /** Between the overflow and the release of the lock. */
  predicate Overflowing(s: Lane, m: Message, dropping: bool) {
    && (s.holder.Draining? || s.holder.Sending?) && s.holder.m == m && (s.holder.Sending? ==> s.video == [] && m.au.idr && !s.dropping)
    && (s.holder.Draining? ==> s.dropping == dropping)
  }

  /** What an overflow leaves: the IDR alone, or nothing and the lane refuses what depends on what was lost. */
  predicate Overflowed(s: Lane, m: Message) {
    s.holder.Free? && (if m.au.idr then s.video == [m] && !s.dropping else s.video == [] && s.dropping)
  }

  lemma {:induction false} OverflowEnds(s: Lane, m: Message, steps: seq<Step>)
    requires Overflowing(s, m, false) && Possible(s, steps) && LockHeld(s, steps) && Run(s, steps).holder.Free?
    ensures Overflowed(Run(s, steps), m)
    decreases |steps|
  {
    var t := Do(s, steps[0]);
    if t.holder.Free? {
      assert steps[1..] == [];
    } else {
      OverflowEnds(t, m, steps[1..]);
    }
  }

  /**
    * In every run, whatever the writer does meanwhile, a submission has come to this when
    * its lock is released. While the lane is paused nothing happens. An IDR is queued, behind
    * what was there if there was room and alone if not, and the lane takes dependent frames
    * again. A dependent frame is refused by a lane that drops, queued by one that does
    * not and has room, and lost by one without, which is empty then and drops.
    */
  lemma SubmitOutcome(before: seq<Step>, au: AccessUnit, rest: seq<Step>)
    requires Possible(Connected, before) && Enabled(Run(Connected, before), Submit(au))
    requires var t := Do(Run(Connected, before), Submit(au)); Possible(t, rest) && LockHeld(t, rest) && Run(t, rest).holder.Free?
    ensures var s := Run(Connected, before);
            var t := Run(Do(s, Submit(au)), rest);
            var m := Message(au, s.epoch, |s.submitted|);
            var room := |s.video| < LANE_CAPACITY;
            && (s.paused ==> t.video == s.video && t.dropping == s.dropping)
            && (!s.paused && au.idr ==> t.video == (if room then s.video else []) + [m] && !t.dropping)
            && (!s.paused && !au.idr && s.dropping ==> t.video == s.video && t.dropping)
            && (!s.paused && !au.idr && !s.dropping && room ==> t.video == s.video + [m] && !t.dropping)
            && (!s.paused && !au.idr && !s.dropping && !room ==> t.video == [] && t.dropping)
  {
    var s := Run(Connected, before);
    var t := Do(s, Submit(au));
    if t.holder.Free? {
      assert rest == [];
    } else {
      OverflowEnds(t, Message(au, s.epoch, |s.submitted|), rest);
    }
  }

  // ---- What is queued reaches the socket ------------------------------------------------------

  predicate OnTheSocket(s: Lane, m: Message) {
    exists k :: 0 <= k < |s.written| && s.written[k].m == m
  }

  predicate WithWriter(s: Lane, m: Message) {
    (s.writer.Selected? || s.writer.PausePassed? || s.writer.Writing?) && s.writer.w.m == m
  }

  /** No pause and no removal by a drain; the socket does not fail. */
  predicate Undisturbed(steps: seq<Step>) {
    forall i :: 0 <= i < |steps| ==> !steps[i].SetPaused? && !steps[i].TakeForDrain? && steps[i] != SocketWrite(false)
  }

  predicate Open(s: Lane) {
    !s.paused && !s.holder.Swapped? && !s.holder.PauseDraining?
  }

  /** How many steps the writer has left with the frame in its hands. */
  function InHand(s: Lane): nat {
    match s.writer
    case Selected(_) => 3
    case PausePassed(_) => 2
    case Writing(_) => 1
    case _ => 0
  }

  /** The frame is on the socket after at most `n` steps of the writer, four for each frame up to it. */
  predicate Within(s: Lane, m: Message, n: nat) {
    || OnTheSocket(s, m)
    || (WithWriter(s, m) && InHand(s) <= n)
    || exists j :: 0 <= j < |s.video| && s.video[j] == m && InHand(s) + 4 * (j + 1) <= n
  }

  predicate OfWriter(step: Step) {
    step.WriterSelects? || step.WriterChecksPause? || step.WriterChecksEpoch? || step.SocketWrite?
  }

  function WriterSteps(steps: seq<Step>): nat {
    if steps == [] then 0 else (if OfWriter(steps[0]) then 1 else 0) + WriterSteps(steps[1..])
  }

  lemma StepNearer(s: Lane, step: Step, m: Message, n: nat)
    requires Enabled(s, step) && Undisturbed([step]) && Open(s) && m.epoch == s.epoch && Within(s, m, n)
    ensures n == 0 ==> OnTheSocket(s, m)
    ensures Open(Do(s, step)) && Do(s, step).epoch == s.epoch
    ensures Within(Do(s, step), m, if OfWriter(step) && n > 0 then n - 1 else n)
  {
    assert [step][0] == step;
    var t := Do(s, step);
    if OnTheSocket(s, m) {
      var k :| 0 <= k < |s.written| && s.written[k].m == m;
      assert t.written[k].m == m;
    } else if WithWriter(s, m) && InHand(s) <= n {
      if step.SocketWrite? {
        assert t.written[|s.written|].m == m;
      }
    } else {
      var j :| 0 <= j < |s.video| && s.video[j] == m && InHand(s) + 4 * (j + 1) <= n;
      if step.WriterSelects? {
        assert j > 0 ==> t.video[j - 1] == m;
      } else {
        assert t.video[j] == m;
      }
    }
  }

  lemma {:induction false} RunNearer(s: Lane, steps: seq<Step>, m: Message, n: nat)
    requires Possible(s, steps) && Undisturbed(steps) && Open(s) && m.epoch == s.epoch && Within(s, m, n) && n <= WriterSteps(steps)
    ensures OnTheSocket(Run(s, steps), m)
    decreases |steps|
  {
    if steps == [] {
      assert OnTheSocket(s, m);
    } else {
      assert steps[0] == [steps[0]][0];
      StepNearer(s, steps[0], m, n);
      RunNearer(Do(s, steps[0]), steps[1..], m, if OfWriter(steps[0]) && n > 0 then n - 1 else n);
    }
  }

  /**
    * In every run from a state in which a frame of the current epoch is queued: unless the
    * lane is paused, a drain takes a frame, or the socket fails, the frame is on the socket
    * as soon as the writer has taken four steps for every frame up to it and three for the
    * one it had.
    */
  lemma QueuedIsWritten(before: seq<Step>, j: nat, steps: seq<Step>)
    requires Possible(Connected, before)
    requires var s := Run(Connected, before);
             && Open(s) && j < |s.video| && s.video[j].epoch == s.epoch
             && Possible(s, steps) && Undisturbed(steps) && WriterSteps(steps) >= 4 * (j + 1) + 3
    ensures var s := Run(Connected, before); OnTheSocket(Run(s, steps), s.video[j])
  {
    var s := Run(Connected, before);
    RunNearer(s, steps, s.video[j], 4 * (j + 1) + 3);
  }

  /** After a write that fails nothing more is written, whatever happens. */
  lemma {:induction false} FailureIsFinal(s: Lane, steps: seq<Step>)
    requires s.writer.Dead? && Possible(s, steps)
    ensures Run(s, steps).written == s.written && Run(s, steps).writer.Dead?
    decreases |steps|
  {
    if steps != [] {
      FailureIsFinal(Do(s, steps[0]), steps[1..]);
    }
  }

  lemma NothingAfterFailure(s: Lane, steps: seq<Step>)
    requires s.writer.Writing? && Possible(Do(s, SocketWrite(false)), steps)
    ensures Run(Do(s, SocketWrite(false)), steps).written == s.written
  {
    FailureIsFinal(Do(s, SocketWrite(false)), steps);
  }
}
