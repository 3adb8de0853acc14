/**
  * What the manager answers its callers, over whole runs: which requests it accepts, and
  * what the work it then does comes to.
  */
module HandoffRequests {
  import opened Options
  import opened Handoffs

  // ---- What the log says ------------------------------------------------------------------------

  predicate Takes(e: Entry) {
    e.Watched? || (e.Asked? && (e.reply == Accepted || (e.reply == Nothing && e.action == Open)))
  }

  /** The operation lock is held: the last entry that takes or gives it back takes it. */
  predicate LockTaken(log: seq<Entry>) {
    if log == [] then false
    else
      var e := log[|log| - 1];
      Takes(e) || (!e.Worked? && LockTaken(log[..|log| - 1]))
  }

  /** What the holder of the lock is to do. */
  function Duty(log: seq<Entry>): Option<Job> {
    if log == [] then None
    else
      var e := log[|log| - 1];
      if e.Worked? then None
      else if e.Watched? then Some(ResumeJob(false))
      else if Takes(e) then Some(if e.action == ResumeAction then ResumeJob(e.force) else if e.reply == Accepted then OpenJob else FocusJob)
      else Duty(log[..|log| - 1])
  }

  predicate StopBegun(log: seq<Entry>) {
    exists i :: 0 <= i < |log| && log[i] == Stopping
  }

  predicate AcceptedAt(log: seq<Entry>, i: int) {
    0 <= i < |log| && log[i].Asked? && log[i].reply == Accepted
  }

  predicate Agrees(t: Trace) {
    && (t.manager.job.Some? <==> LockTaken(t.log))
    && t.manager.job == Duty(t.log)
    && (t.manager.stopping <==> StopBegun(t.log))
    && !t.manager.standalone
    && (t.manager.mode == Starting ==> t.log == [])
  }

  /** An accepted caller named the revision in force, and no later caller is accepted with it. */
  predicate Confirmed(t: Trace) {
    && (forall i :: 0 <= i < |t.log| && AcceptedAt(t.log, i) ==> t.log[i].named == t.log[i].current < t.manager.revision)
    && (forall i, j :: 0 <= i < j < |t.log| && AcceptedAt(t.log, i) && AcceptedAt(t.log, j) ==> t.log[i].named < t.log[j].named)
  }

  lemma LogGrows(log: seq<Entry>, e: Entry)
    ensures (log + [e])[..|log|] == log
    ensures LockTaken(log + [e]) <==> Takes(e) || (!e.Worked? && LockTaken(log))
    ensures StopBegun(log + [e]) <==> StopBegun(log) || e == Stopping
  {
    assert (log + [e])[..|log|] == log;
    if StopBegun(log) {
      var i :| 0 <= i < |log| && log[i] == Stopping;
      assert (log + [e])[i] == Stopping;
    }
    assert (log + [e])[|log|] == e;
  }

  lemma DutyGrows(log: seq<Entry>, e: Entry)
    ensures Duty(log + [e]) ==
            if e.Worked? then None
            else if e.Watched? then Some(ResumeJob(false))
            else if Takes(e) then Some(if e.action == ResumeAction then ResumeJob(e.force) else if e.reply == Accepted then OpenJob else FocusJob)
            else Duty(log)
  {
    assert (log + [e])[..|log|] == log;
  }

  /** One more entry of the log. */
  lemma EntryAgrees(t: Trace, e: Entry, u: Trace)
    requires Agrees(t) && u.log == t.log + [e] && !u.manager.standalone && u.manager.mode != Starting
    requires u.manager.stopping == (t.manager.stopping || e == Stopping)
    requires u.manager.job ==
             if e.Worked? then None
             else if e.Watched? then Some(ResumeJob(false))
             else if Takes(e) then Some(if e.action == ResumeAction then ResumeJob(e.force) else if e.reply == Accepted then OpenJob else FocusJob)
             else t.manager.job
    ensures Agrees(u)
  {
    LogGrows(t.log, e);
    DutyGrows(t.log, e);
  }

  lemma AskAgrees(t: Trace, step: Step)
    requires Agrees(t) && step.Ask?
    ensures Agrees(Next(t, step))
  {
    if t.manager.mode != Starting {
      var a := Request(t.manager, step.action, step.revision, step.force);
      EntryAgrees(t, Asked(step.action, step.revision, t.manager.revision, step.force, a.reply), Next(t, step));
    }
  }

  predicate SameTerms(m: Manager, m': Manager) {
    m'.stopping == m.stopping && m'.standalone == m.standalone && m'.mode != Starting
  }

  lemma OpenKeepsTerms(m: Manager, luck: Luck)
    ensures SameTerms(m, OpenSetup(m, luck).manager)
  {
  }

  lemma ResumeKeepsTerms(m: Manager, luck: Luck)
    ensures SameTerms(m, Resume(m, luck).manager)
  {
  }

  lemma RunJobLeaves(m: Manager, luck: Luck)
    requires Sound(m) && m.job.Some?
    ensures RunJob(m, luck).manager.job.None? && SameTerms(m, RunJob(m, luck).manager)
  {
    OpenKeepsTerms(m, luck);
    ResumeKeepsTerms(m, luck);
  }

  lemma WorkAgrees(t: Trace, step: Step)
    requires Agrees(t) && Sound(t.manager) && step.Work?
    ensures Agrees(Next(t, step))
  {
    if t.manager.job.Some? {
      RunJobLeaves(t.manager, step.luck);
      EntryAgrees(t, Worked, Next(t, step));
    }
  }

  lemma NextAgrees(t: Trace, step: Step)
    requires Agrees(t) && Sound(t.manager)
    ensures Agrees(Next(t, step))
  {
    var u := Next(t, step);
    match step
    case Ask(_, _, _) => AskAgrees(t, step);
    case Work(_) => WorkAgrees(t, step);
    case Monitor =>
      if u != t {
        EntryAgrees(t, Watched, u);
      }
    case Prepare(_) =>
      if u != t {
        EntryAgrees(t, Stopping, u);
      }
    case Start(_) =>
  }

  lemma NextConfirmed(t: Trace, step: Step)
    requires Confirmed(t) && Sound(t.manager)
    ensures Confirmed(Next(t, step))
  {
    var u := Next(t, step);
    if step.Work? && t.manager.job.Some? {
      RunJobKeeps(t.manager, step.luck);
    }
    if u.log != t.log {
      assert forall i :: 0 <= i < |t.log| ==> u.log[i] == t.log[i];
      assert forall i :: AcceptedAt(u.log, i) && i < |t.log| ==> AcceptedAt(t.log, i);
    }
  }

  lemma {:induction false} RunAgrees(steps: seq<Step>)
    ensures Agrees(Run(steps)) && Confirmed(Run(steps))
    decreases |steps|
  {
    if steps != [] {
      var front := steps[..|steps| - 1];
      RunAgrees(front);
      RunKeeps(front);
      assert Run(steps) == Next(Run(front), steps[|steps| - 1]);
      NextAgrees(Run(front), steps[|steps| - 1]);
      NextConfirmed(Run(front), steps[|steps| - 1]);
    }
  }

  // ---- The theorems -----------------------------------------------------------------------------

  /**
    * In every run the revisions that accepted callers named strictly increase, and each
    * is the revision that was in force: a confirmation that has gone stale starts nothing,
    * and none starts two transitions.
    */
  lemma AcceptedRevisionsIncrease(steps: seq<Step>, i: nat, j: nat)
    requires i < j && AcceptedAt(Run(steps).log, i) && AcceptedAt(Run(steps).log, j)
    ensures var log := Run(steps).log;
            log[i].named == log[i].current < log[j].named == log[j].current < Run(steps).manager.revision
  {
    RunAgrees(steps);
  }

  /**
    * After every run: a request is refused exactly when its action is unknown, the lock is
    * held, shutdown has begun, it names another revision than the one in force, or the mode
    * forbids it. It is answered without a transition exactly when it asks for the mode there is.
    * Otherwise the transition it asked for begins, at the next revision.
    */
  lemma AskedExactly(steps: seq<Step>, action: Action, named: nat, force: bool)
    requires Run(steps).manager.mode != Starting
    ensures var t := Run(steps);
            var m := t.manager;
            var u := Next(t, Ask(action, named, force));
            && |u.log| == |t.log| + 1
            && var e := u.log[|t.log|];
               var forbidden := (force && !(action == ResumeAction && m.canForce)) || (action == Open && (m.mode == Failed || m.canForce));
               && e == Asked(action, named, m.revision, force, e.reply)
               && (e.reply == Refused <==> action == Unknown || LockTaken(t.log) || StopBegun(t.log) || named != m.revision || forbidden)
               && (e.reply == Nothing ==> m.mode == (if action == Open then Setup else Streaming))
               && (e.reply == Accepted ==> m.mode != if action == Open then Setup else Streaming)
               && (e.reply == Refused ==> u.manager == m)
               && (e.reply == Nothing ==> u.manager.mode == m.mode && u.manager.revision == m.revision)
               && (e.reply == Accepted ==>
                     && u.manager.mode == (if action == Open then Opening else Resuming) && u.manager.revision == m.revision + 1
                     && Duty(u.log) == Some(if action == Open then OpenJob else ResumeJob(force)))
  {
    RunAgrees(steps);
    RunKeeps(steps);
  }

  /** When the setup windows are found closed, a resume begins unless the lock is held or shutdown has begun. */
  lemma WatchedExactly(steps: seq<Step>)
    ensures var t := Run(steps);
            var u := Next(t, Monitor);
            if t.manager.setup && !LockTaken(t.log) && !StopBegun(t.log) then
              u.log == t.log + [Watched] && u.manager.mode == Resuming && u.manager.revision == t.manager.revision + 1
            else u == t
  {
    RunAgrees(steps);
  }

  /** Shutdown begins exactly when the caller names the revision in force and the lock is free. */
  lemma StoppedExactly(steps: seq<Step>, named: nat)
    requires Run(steps).manager.mode != Starting
    ensures var t := Run(steps);
            StopBegun(Next(t, Prepare(named)).log) <==> StopBegun(t.log) || (!LockTaken(t.log) && named == t.manager.revision)
  {
    var t := Run(steps);
    RunAgrees(steps);
    NextAgrees(t, Prepare(named)) by {
      RunKeeps(steps);
    }
  }

  /** How the browsers' fortunes decide where a handoff to local setup ends. */
  function OpenEnds(luck: Luck): (Mode, bool) {
    if !luck.flushed then (Streaming, false)
    else if !luck.closed then (Failed, true)
    else if luck.setupStart != NotStarted then (Setup, luck.setupStart == Lingering)
    else (if luck.streaming then Streaming else Failed, false)
  }

  function ResumeEnds(setup: bool, controller: bool, luck: Luck): (Mode, bool) {
    if setup && !luck.setupClosed then (Setup, true)
    else if controller && !luck.closed then (Failed, true)
    else (if luck.streaming then Streaming else Failed, false)
  }

  /**
    * In every run, when the holder of the lock has done its work the lock is free, and the
    * mode is the one its calls have led to: local setup if everything went well, or resumed
    * streaming, or the step at which it stopped, with force offered exactly when a browser
    * could not be closed.
    */
  lemma WorkEnds(steps: seq<Step>, luck: Luck)
    requires Duty(Run(steps).log).Some?
    ensures var t := Run(steps);
            var m := t.manager;
            var u := Next(t, Work(luck));
            && !LockTaken(u.log)
            && (u.manager.mode, u.manager.canForce) ==
                 match Duty(t.log).value
                 case OpenJob => OpenEnds(luck)
                 case ResumeJob(_) => ResumeEnds(m.setup, m.controller, luck)
                 case FocusJob => (Setup, m.canForce)
  {
    var t := Run(steps);
    RunAgrees(steps);
    RunKeeps(steps);
    LogGrows(t.log, Worked);
  }
}
