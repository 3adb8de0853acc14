/**
  * The browser handoff between streaming and local setup. The operation lock
  * serializes handoffs: a request that starts one keeps the lock until its job is
  * done. What launching, saving and closing browsers come to is a parameter of the job.
  */
module Handoffs {
  import opened Options

  datatype Mode = Starting | Streaming | Opening | Setup | Resuming | Failed

  datatype Kind = ForStreaming | ForSetup

  /** What holds the operation lock. */
  datatype Job = OpenJob | ResumeJob(force: bool) | FocusJob

  /** `controller` and `setup`: whether the manager holds a browser of that kind. */
  datatype Manager = Manager(mode: Mode, revision: nat, canForce: bool, controller: bool, setup: bool, job: Option<Job>, stopping: bool, standalone: bool)

  /** What happens to browsers, in order. A launch that fails leaves none behind unless it says so. */
  datatype Event = Launch(kind: Kind, live: bool) | Close(kind: Kind, closed: bool)

  datatype Outcome = Outcome(manager: Manager, events: seq<Event>)

  /** Not a standalone setup session. */
  const Fresh := Manager(Starting, 1, false, false, false, None, false, false)

  // ---- The pieces ---------------------------------------------------------------------------

  function SetState(m: Manager, mode: Mode, canForce: bool): Manager {
    m.(mode := mode, canForce := canForce, revision := m.revision + 1)
  }

  /** startStreaming: state and revision change only when the launch succeeds. */
  function StartStreaming(m: Manager, ok: bool): Outcome {
    Outcome(if ok then SetState(m.(controller := true), Streaming, false) else m, [Launch(ForStreaming, ok)])
  }

  datatype SetupStart = Started | Lingering | NotStarted

  /** How the calls of a job come out. */
  datatype Luck = Luck(flushed: bool, closed: bool, setupStart: SetupStart, setupClosed: bool, streaming: bool)

  /** openSetup behind the closing of the streaming browser. */
  function LaunchSetup(m: Manager, luck: Luck): Outcome {
    match luck.setupStart
    case Started => Outcome(SetState(m.(setup := true), Setup, false), [Launch(ForSetup, true)])
    case Lingering => Outcome(SetState(m.(setup := true), Setup, true), [Launch(ForSetup, true)])
    case NotStarted =>
      var s := StartStreaming(m, luck.streaming);
      Outcome(if luck.streaming then SetState(s.manager, Streaming, false) else SetState(s.manager, Failed, false),
              [Launch(ForSetup, false)] + s.events)
  }

  /** openSetup. */
  function OpenSetup(m: Manager, luck: Luck): Outcome {
    if !m.controller then LaunchSetup(m, luck)
    else if !luck.flushed then Outcome(SetState(m, Streaming, false), [])
    else if !luck.closed then Outcome(SetState(m, Failed, true), [Close(ForStreaming, false)])
    else
      var o := LaunchSetup(m.(controller := false), luck);
      Outcome(o.manager, [Close(ForStreaming, true)] + o.events)
  }

  /** resume behind the closing of the setup browser. */
  function ResumeStreaming(m: Manager, luck: Luck): Outcome {
    if m.controller && !luck.closed then Outcome(SetState(m, Failed, true), [Close(ForStreaming, false)])
    else
      var s := StartStreaming(m.(controller := false), luck.streaming);
      Outcome(if luck.streaming then s.manager else SetState(s.manager, Failed, false),
              (if m.controller then [Close(ForStreaming, true)] else []) + s.events)
  }

  /** resume. */
  function Resume(m: Manager, luck: Luck): Outcome {
    if m.setup && !luck.setupClosed then Outcome(SetState(m, Setup, true), [Close(ForSetup, false)])
    else
      var o := ResumeStreaming(m.(setup := false), luck);
      Outcome(o.manager, (if m.setup then [Close(ForSetup, true)] else []) + o.events)
  }

  datatype Action = Open | ResumeAction | Unknown

  datatype Reply = Accepted | Refused | Nothing

  datatype Answer = Answer(manager: Manager, reply: Reply)

  /** Request. */
  function Request(m: Manager, action: Action, revision: nat, force: bool): Answer {
    if action == Unknown || m.job.Some? || m.stopping || revision != m.revision then Answer(m, Refused)
    else if action == ResumeAction && m.standalone then Answer(m, Refused)
    else if force && (action != ResumeAction || !m.canForce) then Answer(m, Refused)
    else if action == Open && (m.mode == Failed || m.canForce) then Answer(m, Refused)
    else if action == ResumeAction && m.mode == Streaming then Answer(m, Nothing)
    else if action == Open && m.mode == Setup then Answer(m.(job := Some(FocusJob)), Nothing)
    else if action == Open then Answer(SetState(m, Opening, false).(job := Some(OpenJob)), Accepted)
    else Answer(SetState(m, Resuming, false).(job := Some(ResumeJob(force))), Accepted)
  }

  /** The goroutine that holds the lock does its work and gives the lock back. */
  function RunJob(m: Manager, luck: Luck): Outcome
    requires m.job.Some?
  {
    var o := match m.job.value
             case OpenJob => OpenSetup(m, luck)
             case ResumeJob(_) => Resume(m, luck)
             case FocusJob => Outcome(m, []);
    Outcome(o.manager.(job := None), o.events)
  }

  /** The monitor finds every setup window closed. */
  function SetupGone(m: Manager): Manager {
    if m.job.None? && !m.stopping && m.setup then SetState(m, Resuming, false).(job := Some(ResumeJob(false))) else m
  }

  function PrepareShutdown(m: Manager, revision: nat): Manager {
    if m.job.None? && !m.standalone && revision == m.revision then m.(stopping := true) else m
  }

  // ---- Runs -------------------------------------------------------------------------------------

  datatype Step =
    | Start(ok: bool)
    | Ask(action: Action, revision: nat, force: bool)
    | Work(luck: Luck)
    | Monitor
    | Prepare(revision: nat)

  /** What the callers and the lock have seen: a request with the revision it named and the one then in force. */
  datatype Entry =
    | Asked(action: Action, named: nat, current: nat, force: bool, reply: Reply)
    | Watched
    | Stopping
    | Worked

  /** A run's manager, everything that happened to browsers, the revision at which each transition began, and the log. */
  datatype Trace = Trace(manager: Manager, events: seq<Event>, begun: seq<nat>, log: seq<Entry>)

  function Next(t: Trace, step: Step): Trace {
    var m := t.manager;
    match step
    case Start(ok) =>
      if m.mode != Starting then t
      else var s := StartStreaming(m, ok); t.(manager := s.manager, events := t.events + s.events)
    case Ask(action, revision, force) =>
      var a := Request(m, action, revision, force);
      if m.mode == Starting then t
      else t.(manager := a.manager, begun := if a.reply == Accepted then t.begun + [m.revision] else t.begun,
              log := t.log + [Asked(action, revision, m.revision, force, a.reply)])
    case Work(luck) =>
      if m.job.None? then t
      else var o := RunJob(m, luck); t.(manager := o.manager, events := t.events + o.events, log := t.log + [Worked])
    case Monitor =>
      var m' := SetupGone(m);
      if m' == m then t else t.(manager := m', begun := t.begun + [m.revision], log := t.log + [Watched])
    case Prepare(revision) =>
      var m' := PrepareShutdown(m, revision);
      if m.mode == Starting || m' == m then t else t.(manager := m', log := t.log + [Stopping])
  }

  function Run(steps: seq<Step>): Trace {
    if steps == [] then Trace(Fresh, [], [], []) else Next(Run(steps[..|steps| - 1]), steps[|steps| - 1])
  }

  // ---- What every step keeps ------------------------------------------------------------------------

  /** With the lock free, the mode says which browsers the manager holds. */
  predicate Settled(m: Manager) {
    match m.mode
    case Starting => !m.controller && !m.setup
    case Streaming => m.controller && !m.setup && !m.canForce
    case Setup => m.setup && !m.controller
    case Failed => !m.setup && (m.canForce <==> m.controller)
    case _ => false
  }

  /** While a job runs, nothing is known but that the manager does not hold two browsers. */
  predicate Busy(m: Manager)
    requires m.job.Some?
  {
    match m.job.value
    case OpenJob => m.mode == Opening && m.controller && !m.setup
    case ResumeJob(_) => m.mode == Resuming && !(m.controller && m.setup)
    case FocusJob => m.mode == Setup && Settled(m)
  }

  predicate Sound(m: Manager) {
    if m.job.None? then Settled(m) else Busy(m)
  }

  /** Which browsers are alive. */
  datatype Live = Live(streaming: bool, setup: bool)

  const Neither := Live(false, false)

  function Held(m: Manager): Live {
    Live(m.controller, m.setup)
  }

  /** The browsers alive after an event, or None when one was launched beside another. */
  function Happen(live: Option<Live>, e: Event): Option<Live> {
    if live.None? then None
    else match e
      case Launch(kind, ok) =>
        if live.value != Neither then None else Some(Live(ok && kind == ForStreaming, ok && kind == ForSetup))
      case Close(kind, closed) =>
        Some(Live(live.value.streaming && !(closed && kind == ForStreaming), live.value.setup && !(closed && kind == ForSetup)))
  }

  function Alive(live: Option<Live>, events: seq<Event>): Option<Live> {
    if events == [] then live else Happen(Alive(live, events[..|events| - 1]), events[|events| - 1])
  }

  lemma {:induction false} AliveJoin(live: Option<Live>, a: seq<Event>, b: seq<Event>)
    ensures Alive(live, a + b) == Alive(Alive(live, a), b)
    decreases |b|
  {
    if b == [] {
      assert a + b == a;
    } else {
      assert (a + b)[..|a + b| - 1] == a + b[..|b| - 1];
      AliveJoin(live, a, b[..|b| - 1]);
    }
  }

  lemma AliveOne(live: Option<Live>, e: Event)
    ensures Alive(live, [e]) == Happen(live, e)
  {
    assert [e][..0] == [];
  }

  /** From the browsers held before to those held after, never two at a time, and at a later revision. */
  predicate Lawful(before: Manager, o: Outcome) {
    Alive(Some(Held(before)), o.events) == Some(Held(o.manager)) && before.revision < o.manager.revision
  }

  lemma StartLawful(m: Manager, ok: bool)
    requires !m.controller && !m.setup
    ensures var s := StartStreaming(m, ok);
            Alive(Some(Neither), s.events) == Some(Held(s.manager)) && (ok ==> Settled(s.manager)) && (!ok ==> s.manager == m)
  {
    AliveOne(Some(Neither), Launch(ForStreaming, ok));
  }

  lemma LaunchSetupLawful(m: Manager, luck: Luck)
    requires !m.controller && !m.setup
    ensures var o := LaunchSetup(m, luck); Lawful(m, o) && Settled(o.manager)
  {
    var none := Some(Neither);
    if luck.setupStart == NotStarted {
      StartLawful(m, luck.streaming);
      AliveOne(none, Launch(ForSetup, false));
      AliveJoin(none, [Launch(ForSetup, false)], StartStreaming(m, luck.streaming).events);
    } else {
      AliveOne(none, Launch(ForSetup, true));
    }
  }

  lemma OpenSetupLawful(m: Manager, luck: Luck)
    requires m.controller && !m.setup
    ensures var o := OpenSetup(m, luck); Lawful(m, o) && Settled(o.manager)
  {
    var live := Some(Live(true, false));
    AliveOne(live, Close(ForStreaming, luck.closed));
    if luck.flushed && luck.closed {
      var m' := m.(controller := false);
      LaunchSetupLawful(m', luck);
      AliveJoin(live, [Close(ForStreaming, true)], LaunchSetup(m', luck).events);
    }
  }

  lemma ResumeStreamingLawful(m: Manager, luck: Luck)
    requires !m.setup
    ensures var o := ResumeStreaming(m, luck); Lawful(m, o) && Settled(o.manager)
  {
    var live := Some(Held(m));
    var m' := m.(controller := false);
    StartLawful(m', luck.streaming);
    if m.controller {
      AliveOne(live, Close(ForStreaming, luck.closed));
      AliveJoin(live, [Close(ForStreaming, true)], StartStreaming(m', luck.streaming).events);
    } else {
      assert [] + StartStreaming(m', luck.streaming).events == StartStreaming(m', luck.streaming).events;
    }
  }

  lemma ResumeLawful(m: Manager, luck: Luck)
    requires !(m.controller && m.setup)
    ensures var o := Resume(m, luck); Lawful(m, o) && Settled(o.manager)
  {
    var live := Some(Held(m));
    var m' := m.(setup := false);
    ResumeStreamingLawful(m', luck);
    if m.setup {
      AliveOne(live, Close(ForSetup, luck.setupClosed));
      AliveJoin(live, [Close(ForSetup, true)], ResumeStreaming(m', luck).events);
    } else {
      assert [] + ResumeStreaming(m', luck).events == ResumeStreaming(m', luck).events;
    }
  }

  lemma RunJobKeeps(m: Manager, luck: Luck)
    requires Sound(m) && m.job.Some?
    ensures var o := RunJob(m, luck);
            Sound(o.manager) && Alive(Some(Held(m)), o.events) == Some(Held(o.manager)) && m.revision <= o.manager.revision
  {
    match m.job.value
    case OpenJob => OpenSetupLawful(m, luck);
    case ResumeJob(_) => ResumeLawful(m, luck);
    case FocusJob =>
  }

  predicate Increasing(s: seq<nat>, bound: nat) {
    (forall i, j :: 0 <= i < j < |s| ==> s[i] < s[j]) && forall i :: 0 <= i < |s| ==> s[i] < bound
  }

  /** The whole picture of a run. */
  predicate Good(t: Trace) {
    && Sound(t.manager)
    && Alive(Some(Neither), t.events) == Some(Held(t.manager))
    && Increasing(t.begun, t.manager.revision)
  }

  lemma NextKeeps(t: Trace, step: Step)
    requires Good(t)
    ensures Good(Next(t, step)) && t.manager.revision <= Next(t, step).manager.revision
  {
    var m := t.manager;
    match step
    case Start(ok) =>
      if m.mode == Starting {
        StartLawful(m, ok);
        AliveJoin(Some(Neither), t.events, StartStreaming(m, ok).events);
      }
    case Work(luck) =>
      if m.job.Some? {
        RunJobKeeps(m, luck);
        AliveJoin(Some(Neither), t.events, RunJob(m, luck).events);
      }
    case _ =>
  }

  /**
    * In every run from a non-standalone start: whenever the lock is free, the mode
    * says which browser the manager holds, and a failure can be forced exactly when
    * the controller was kept; no browser is launched beside one that is alive; and the
    * revisions at which transitions began grow, so none began two.
    */
  lemma {:induction false} RunKeeps(steps: seq<Step>)
    ensures Good(Run(steps))
    decreases |steps|
  {
    if steps != [] {
      RunKeeps(steps[..|steps| - 1]);
      NextKeeps(Run(steps[..|steps| - 1]), steps[|steps| - 1]);
    }
  }

  lemma {:induction false} RevisionsGrow(steps: seq<Step>, n: nat)
    requires n <= |steps|
    ensures Run(steps[..n]).manager.revision <= Run(steps).manager.revision
    decreases |steps|
  {
    if n < |steps| {
      var front := steps[..|steps| - 1];
      assert front[..n] == steps[..n];
      RevisionsGrow(front, n);
      RunKeeps(front);
      NextKeeps(Run(front), steps[|steps| - 1]);
    } else {
      assert steps[..n] == steps;
    }
  }

  // ---- The manager ----------------------------------------------------------------------------------

  class HandoffManager {
    var mode: Mode
    var revision: nat
    var canForce: bool
    var controller: bool
    var setup: bool
    var job: Option<Job>
    var stopping: bool
    const standalone: bool
    ghost var events: seq<Event>

    ghost function State(): Manager
      reads this
    {
      Manager(mode, revision, canForce, controller, setup, job, stopping, standalone)
    }

    constructor (standalone: bool)
      ensures State() == Fresh.(standalone := standalone) && events == []
    {
      this.standalone := standalone;
      mode, revision, canForce, controller, setup, job, stopping := Starting, 1, false, false, false, None, false;
      events := [];
    }

    method Announce(mode: Mode, canForce: bool)
      modifies this`mode, this`canForce, this`revision
      ensures State() == SetState(old(State()), mode, canForce)
    {
      this.mode, this.canForce, revision := mode, canForce, revision + 1;
    }

    method Stream(ok: bool) returns (started: bool)
      modifies this
      ensures var s := StartStreaming(old(State()), ok); State() == s.manager && events == old(events) + s.events && started == ok
    {
      events := events + [Launch(ForStreaming, ok)];
      if !ok {
        return false;
      }
      controller := true;
      Announce(Streaming, false);
      return true;
    }

    method OpenLocal(luck: Luck)
      modifies this
      ensures var o := OpenSetup(old(State()), luck); State() == o.manager && events == old(events) + o.events
    {
      var kept := controller;
      controller := false;
      if kept {
        if !luck.flushed {
          controller := true;
          Announce(Streaming, false);
          return;
        }
        events := events + [Close(ForStreaming, luck.closed)];
        if !luck.closed {
          controller := true;
          Announce(Failed, true);
          return;
        }
      }
      ghost var o := LaunchSetup(State(), luck);
      events := events + [Launch(ForSetup, luck.setupStart != NotStarted)];
      if luck.setupStart == NotStarted {
        var resumed := Stream(luck.streaming);
        Announce(if resumed then Streaming else Failed, false);
      } else {
        setup := true;
        Announce(Setup, luck.setupStart == Lingering);
      }
      assert State() == o.manager;
      assert events == old(events) + ((if kept then [Close(ForStreaming, true)] else []) + o.events);
    }

    method ResumeRemote(luck: Luck)
      modifies this
      ensures var o := Resume(old(State()), luck); State() == o.manager && events == old(events) + o.events
    {
      var had := setup;
      if setup {
        events := events + [Close(ForSetup, luck.setupClosed)];
        if !luck.setupClosed {
          Announce(Setup, true);
          return;
        }
        setup := false;
      }
      var kept := controller;
      controller := false;
      if kept {
        events := events + [Close(ForStreaming, luck.closed)];
        if !luck.closed {
          controller := true;
          Announce(Failed, true);
          return;
        }
      }
      var resumed := Stream(luck.streaming);
      if !resumed {
        Announce(Failed, false);
      }
    }

    method RequestChange(action: Action, asked: nat, force: bool) returns (reply: Reply)
      modifies this
      ensures Answer(State(), reply) == Request(old(State()), action, asked, force) && events == old(events)
      ensures reply == Refused <==>
                || old(job).Some? || old(stopping) || asked != old(revision) || action == Unknown
                || (action == ResumeAction && standalone) || (force && !(action == ResumeAction && old(canForce)))
                || (action == Open && (old(mode) == Failed || old(canForce)))
      ensures reply == Refused ==> State() == old(State())
      ensures reply == Nothing ==> mode == old(mode) == (if action == Open then Setup else Streaming) && revision == old(revision)
      ensures reply == Accepted ==> mode == (if action == Open then Opening else Resuming) && revision == old(revision) + 1 && job.Some?
    {
      if action == Unknown || job.Some? || stopping || asked != revision {
        return Refused;
      }
      if action == ResumeAction && standalone {
        return Refused;
      }
      if force && (action != ResumeAction || !canForce) {
        return Refused;
      }
      if action == Open && (mode == Failed || canForce) {
        return Refused;
      }
      if action == ResumeAction && mode == Streaming {
        return Nothing;
      }
      if action == Open && mode == Setup {
        job := Some(FocusJob);
        return Nothing;
      }
      if action == Open {
        Announce(Opening, false);
        job := Some(OpenJob);
      } else {
        Announce(Resuming, false);
        job := Some(ResumeJob(force));
      }
      return Accepted;
    }

    method Work(luck: Luck)
      requires job.Some?
      modifies this
      ensures var o := RunJob(old(State()), luck); State() == o.manager && events == old(events) + o.events
    {
      match job.value {
        case OpenJob => OpenLocal(luck);
        case ResumeJob(_) => ResumeRemote(luck);
        case FocusJob =>
      }
      job := None;
    }
  }
}
