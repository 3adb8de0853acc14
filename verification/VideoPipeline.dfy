/**
  * The encoder pipeline that numbers access units and fans them out.
  *
  * `Control` is everything its mutex protects except the subscriptions
  * themselves, `Perform` is one critical section, and the class `VideoPipeline`
  * is the source's object, proved against both. The generation counter is
  * shared by all pipelines of a process, so the value a critical section draws
  * from it is a parameter and nothing here relies on such values being distinct.
  */
module VideoPipelines {
  import opened Options
  import opened AccessUnits
  import opened VideoSubscriptions
  import opened VideoSettings

  const KEYFRAME_COOLDOWN_NS: int := 2_000_000_000

  /** What the encoder's start callback did; `Unavailable` is a missing callback. */
  datatype StartOutcome = Started | StartError | Unavailable

  /** Timers are named by tokens: a fired callback compares itself with the field it finds. */
  datatype Control = Control(
    running: bool,
    gen: nat,
    attached: set<nat>,
    idleTimer: bool,
    retryTimer: Option<nat>,
    keyframeTimer: Option<nat>,
    timers: nat,
    startFailures: nat,
    lastKeyframe: Option<int>)

  const Dormant := Control(false, 0, {}, false, None, None, 0, 0, None)

  datatype Op =
    | Subscribe(id: nat, now: int, start: StartOutcome, startGen: nat)
    | Unsubscribe(id: nat)
    | Restart(stopGen: nat, start: StartOutcome, startGen: nat)
    | Reconfigure(stopGen: nat, start: StartOutcome, startGen: nat)
    | RequestKeyframe(now: int)
    | KeyframeTimerFires(token: nat, now: int)
    | RetryTimerFires(token: nat, start: StartOutcome, startGen: nat)
    | IdleTimerFires(stopGen: nat)
    | Shutdown(stopGen: nat)

  /** What a critical section does to the subscriptions attached when it ends (or, for CloseAll, began). */
  datatype Effect = Nothing | ResetAll | CloseAll

  function StopLocked(c: Control, gen: nat): Control {
    var quiet := c.(retryTimer := None, keyframeTimer := None, startFailures := 0);
    if c.running then quiet.(running := false, gen := gen) else quiet
  }

  function ScheduleRetry(c: Control): Control {
    if c.retryTimer.Some? || c.attached == {} then c
    else c.(retryTimer := Some(c.timers), timers := c.timers + 1)
  }

  function StartLocked(c: Control, outcome: StartOutcome, gen: nat): (Control, Effect) {
    var quiet := c.(retryTimer := None);
    match outcome
    case Unavailable => (quiet.(attached := {}), CloseAll)
    case Started => (quiet.(gen := gen, running := true, startFailures := 0), Nothing)
    case StartError =>
      (ScheduleRetry(quiet.(gen := gen, running := false, startFailures := c.startFailures + 1)), Nothing)
  }

  function RequestNow(c: Control, now: int): (Control, Effect) {
    if c.running then (c.(lastKeyframe := Some(now)), ResetAll) else (c, Nothing)
  }

  function EnsureKeyframe(c: Control, now: int): (Control, Effect) {
    if !c.running then (c, Nothing)
    else if c.lastKeyframe.Some? && now - c.lastKeyframe.value < KEYFRAME_COOLDOWN_NS then
      if c.keyframeTimer.Some? then (c, Nothing)
      else (c.(keyframeTimer := Some(c.timers), timers := c.timers + 1), Nothing)
    else RequestNow(c, now)
  }

  function Perform(c: Control, op: Op): (Control, Effect) {
    match op
    case Subscribe(id, now, start, gen) =>
      var joined := c.(attached := c.attached + {id}, idleTimer := false);
      if !c.running then StartLocked(joined, start, gen) else EnsureKeyframe(joined, now)
    case Unsubscribe(id) =>
      if id !in c.attached then (c, Nothing)
      else
        var left := c.(attached := c.attached - {id});
        if left.attached != {} then (left, Nothing)
        else (left.(retryTimer := None, idleTimer := c.running || c.idleTimer), Nothing)
    case Restart(stopGen, start, startGen) =>
      var stopped := StopLocked(c.(idleTimer := false), stopGen);
      if stopped.attached == {} then (stopped, ResetAll)
      else
        var (started, e) := StartLocked(stopped, start, startGen);
        (started, if e == CloseAll then CloseAll else ResetAll)
    case Reconfigure(stopGen, start, startGen) =>
      if !c.running then (c, ResetAll)
      else
        var (started, e) := StartLocked(StopLocked(c, stopGen), start, startGen);
        (started, if e == CloseAll then CloseAll else ResetAll)
    case RequestKeyframe(now) => EnsureKeyframe(c, now)
    case KeyframeTimerFires(token, now) =>
      if c.keyframeTimer != Some(token) then (c, Nothing)
      else RequestNow(c.(keyframeTimer := None), now)
    case RetryTimerFires(token, start, gen) =>
      if c.retryTimer != Some(token) then (c, Nothing)
      else
        var fired := c.(retryTimer := None);
        if fired.attached == {} || fired.running then (fired, Nothing)
        else
          var (started, e) := StartLocked(fired, start, gen);
          (started, if e == CloseAll then CloseAll else ResetAll)
    case IdleTimerFires(gen) =>
      if c.attached == {} && c.running then (StopLocked(c, gen), Nothing) else (c, Nothing)
    case Shutdown(gen) =>
      (StopLocked(c.(idleTimer := false), gen).(attached := {}), CloseAll)
  }

  // ---- What every critical section keeps -----------------------------------------

  /**
    * Leaving a running generation always resets (or closes) everyone still
    * attached. The one critical section that changes the generation and leaves
    * other subscribers alone is a Subscribe that starts a stopped encoder.
    */
  lemma LeavingAGenerationResets(c: Control, op: Op)
    ensures var (after, e) := Perform(c, op);
            && (c.running && (!after.running || after.gen != c.gen) ==> e == ResetAll || after.attached == {})
            && (!c.running && after.gen != c.gen && e == Nothing && after.attached != {} ==> op.Subscribe?)
            && after.attached <= c.attached + (if op.Subscribe? then {op.id} else {})
            && (after.attached != c.attached ==> op.Subscribe? || op.Unsubscribe? || e == CloseAll)
            && (e == CloseAll ==> after.attached == {})
  {
  }

  /** A critical section that stops the running encoder. */
  predicate Stops(c: Control, op: Op) {
    match op
    case Restart(_, _, _) => true
    case Reconfigure(_, _, _) => c.running
    case IdleTimerFires(_) => c.attached == {} && c.running
    case Shutdown(_) => true
    case _ => false
  }

  function RunOps(c: Control, ops: seq<Op>): Control
    decreases |ops|
  {
    if ops == [] then c else RunOps(Perform(c, ops[0]).0, ops[1..])
  }

  /** Somewhere in the run the encoder was stopped, or every subscriber was reset for a keyframe. */
  predicate StoppedOrReset(c: Control, ops: seq<Op>)
    decreases |ops|
  {
    ops != [] && (
      || Stops(c, ops[0])
      || Perform(c, ops[0]).1 == ResetAll
      || StoppedOrReset(Perform(c, ops[0]).0, ops[1..]))
  }

  /**
    * A keyframe asked for while the encoder runs is never forgotten: every
    * subscriber is reset for it at once, or a timer is left armed that stays
    * armed, through every later run, until the encoder is stopped or every
    * subscriber has been reset.
    */
  lemma KeyframeNeverForgotten(c: Control, now: int, ops: seq<Op>)
    requires c.running
    ensures var (asked, e) := Perform(c, RequestKeyframe(now));
            || e == ResetAll
            || StoppedOrReset(asked, ops)
            || (asked.keyframeTimer.Some? && RunOps(asked, ops).keyframeTimer == asked.keyframeTimer)
  {
    var (asked, e) := Perform(c, RequestKeyframe(now));
    if e != ResetAll {
      ArmedTimerStays(asked, ops);
    }
  }

  lemma {:induction false} ArmedTimerStays(c: Control, ops: seq<Op>)
    requires c.running && c.keyframeTimer.Some?
    ensures StoppedOrReset(c, ops) || RunOps(c, ops).keyframeTimer == c.keyframeTimer
    decreases |ops|
  {
    if ops != [] && !Stops(c, ops[0]) && Perform(c, ops[0]).1 != ResetAll {
      ArmedTimerStays(Perform(c, ops[0]).0, ops[1..]);
    }
  }

  // ---- Effects on the subscriptions ------------------------------------------------

  function ResetAttached(all: map<nat, Subscription>, ids: set<nat>, gen: nat): (r: map<nat, Subscription>)
    ensures r.Keys == all.Keys
  {
    map id | id in all :: if id in ids then ResetForGen(all[id], gen) else all[id]
  }

  function CloseIds(all: map<nat, Subscription>, ids: set<nat>): (r: map<nat, Subscription>)
    ensures r.Keys == all.Keys
  {
    map id | id in all :: if id in ids then Close(all[id]) else all[id]
  }

  function OfferAll(all: map<nat, Subscription>, targets: set<nat>, au: AccessUnit): (r: map<nat, Subscription>)
    ensures r.Keys == all.Keys
  {
    map id | id in all :: if id in targets then Offer(all[id], au, au.generation) else all[id]
  }

  /** Subscriptions after `op`, before any ResetAll has been carried out. */
  function Joined(all: map<nat, Subscription>, c: Control, op: Op): map<nat, Subscription> {
    var (after, _) := Perform(c, op);
    var created := if op.Subscribe? then all[op.id := Created] else all;
    var before := if op.Subscribe? then c.attached + {op.id} else c.attached;
    var closed := CloseIds(created, before - after.attached);
    if op.Subscribe? && op.id in after.attached then closed[op.id := ResetForGen(closed[op.id], after.gen)] else closed
  }

  /** Subscriptions after the whole critical section, with no receive in between. */
  function Settled(all: map<nat, Subscription>, c: Control, op: Op): map<nat, Subscription> {
    var (after, e) := Perform(c, op);
    if e == ResetAll then ResetAttached(Joined(all, c, op), after.attached, after.gen) else Joined(all, c, op)
  }

  /** What a Subscribe comes to, in the order in which it does it. */
  lemma JoinEffect(all: map<nat, Subscription>, c: Control, id: nat, now: int, start: StartOutcome, startGen: nat)
    requires id !in all && c.attached <= all.Keys
    ensures var op := Subscribe(id, now, start, startGen);
            var (after, e) := Perform(c, op);
            var created := all[id := Created];
            var base := if !c.running && start == Unavailable then CloseIds(created, c.attached + {id})
                        else if e == ResetAll then ResetAttached(created, after.attached, after.gen)
                        else created;
            Settled(all, c, op) == if id in after.attached then base[id := ResetForGen(base[id], after.gen)] else base
  {
  }

  lemma RestartEffect(all: map<nat, Subscription>, c: Control, stopGen: nat, start: StartOutcome, startGen: nat)
    requires c.attached <= all.Keys
    ensures var op := Restart(stopGen, start, startGen);
            var after := Perform(c, op).0;
            Settled(all, c, op) ==
              if c.attached != {} && start == Unavailable then CloseIds(all, c.attached) else ResetAttached(all, after.attached, after.gen)
  {
  }

  // ---- The object ------------------------------------------------------------------

  class VideoPipeline {
    var all: map<nat, Subscription>
    var running: bool
    var gen: nat
    var pushed: nat
    var attached: set<nat>
    var idleTimer: bool
    var retryTimer: Option<nat>
    var keyframeTimer: Option<nat>
    var timers: nat
    var startFailures: nat
    var lastKeyframe: Option<int>
    var settings: Settings

    ghost function Ctl(): Control
      reads this
    {
      Control(running, gen, attached, idleTimer, retryTimer, keyframeTimer, timers, startFailures, lastKeyframe)
    }

    ghost predicate Valid()
      reads this
    {
      attached <= all.Keys && Consistent(settings)
    }

    /** NewVideoPipeline. No captured size means the given size, no frame rate means sixty. */
    constructor (given: Settings)
      ensures Valid() && Ctl() == Dormant && all == map[] && pushed == 0
      ensures var sized := given.captureW != 0 && given.captureH != 0;
              && settings.captureW == (if sized then given.captureW else given.w)
              && settings.captureH == (if sized then given.captureH else given.h)
              && settings.frameRate == (if given.frameRate > 0 then given.frameRate else DEFAULT_FRAME_RATE)
              && settings.maxW == given.maxW && settings.maxH == given.maxH
              && settings.bitrateK == given.bitrateK && settings.quantizer == given.quantizer
    {
      var captureW, captureH, frameRate := given.captureW, given.captureH, given.frameRate;
      if captureW == 0 || captureH == 0 {
        captureW, captureH := given.w, given.h;
      }
      if frameRate <= 0 {
        frameRate := DEFAULT_FRAME_RATE;
      }
      var coded := CodedSize(given.maxW, given.maxH, captureW, captureH);
      settings := given.(captureW := captureW, captureH := captureH, frameRate := frameRate, w := coded.0, h := coded.1);
      all, running, gen, pushed, attached := map[], false, 0, 0, {};
      idleTimer, retryTimer, keyframeTimer, timers, startFailures, lastKeyframe := false, None, None, 0, 0, None;
    }

    method ResetSubs()
      requires Valid()
      modifies this`all
      ensures Valid() && all == ResetAttached(old(all), attached, gen)
    {
      var todo := attached;
      while todo != {}
        invariant todo <= attached
        invariant all == ResetAttached(old(all), attached - todo, gen)
      {
        var id :| id in todo;
        all := all[id := ResetForGen(all[id], gen)];
        todo := todo - {id};
      }
    }

    method FailAll()
      requires Valid()
      modifies this`all, this`attached, this`retryTimer
      ensures Valid() && attached == {} && retryTimer == None
      ensures all == CloseIds(old(all), old(attached))
    {
      retryTimer := None;
      while attached != {}
        invariant Valid() && attached <= old(attached) && retryTimer == None
        invariant all == CloseIds(old(all), old(attached) - attached)
      {
        var id :| id in attached;
        attached := attached - {id};
        all := all[id := Close(all[id])];
      }
    }

    method Stop(stopGen: nat)
      requires Valid()
      modifies this
      ensures Valid() && Ctl() == StopLocked(old(Ctl()), stopGen) && all == old(all) && pushed == old(pushed) && settings == old(settings)
    {
      retryTimer, keyframeTimer, startFailures := None, None, 0;
      if running {
        running, gen := false, stopGen;
      }
    }

    method Start(outcome: StartOutcome, startGen: nat)
      requires Valid()
      modifies this
      ensures Valid() && Ctl() == StartLocked(old(Ctl()), outcome, startGen).0 && pushed == old(pushed) && settings == old(settings)
      ensures all == if outcome == Unavailable then CloseIds(old(all), old(attached)) else old(all)
    {
      if outcome == Unavailable {
        FailAll();
        return;
      }
      retryTimer := None;
      gen, running := startGen, true;
      if outcome == StartError {
        running := false;
        startFailures := startFailures + 1;
        if attached != {} {
          retryTimer, timers := Some(timers), timers + 1;
        }
        return;
      }
      startFailures := 0;
    }

    method RequestKeyframeNow(now: int)
      requires Valid()
      modifies this
      ensures Valid() && Ctl() == RequestNow(old(Ctl()), now).0 && pushed == old(pushed) && settings == old(settings)
      ensures all == if old(running) then ResetAttached(old(all), attached, gen) else old(all)
    {
      if running {
        lastKeyframe := Some(now);
        ResetSubs();
      }
    }

    method Ensure(now: int)
      requires Valid()
      modifies this
      ensures Valid() && Ctl() == EnsureKeyframe(old(Ctl()), now).0 && pushed == old(pushed) && settings == old(settings)
      ensures all == if EnsureKeyframe(old(Ctl()), now).1 == ResetAll then ResetAttached(old(all), attached, gen) else old(all)
    {
      if !running {
        return;
      }
      if lastKeyframe.Some? && now - lastKeyframe.value < KEYFRAME_COOLDOWN_NS {
        if keyframeTimer == None {
          keyframeTimer, timers := Some(timers), timers + 1;
        }
        return;
      }
      RequestKeyframeNow(now);
    }

    method Attach(id: nat)
      requires Valid() && id !in all
      modifies this`all, this`attached, this`idleTimer
      ensures Valid() && Ctl() == old(Ctl()).(attached := old(attached) + {id}, idleTimer := false)
      ensures all == old(all)[id := Created]
    {
      all := all[id := Created];
      attached := attached + {id};
      idleTimer := false;
    }

    method Join(id: nat, now: int, start: StartOutcome, startGen: nat)
      requires Valid() && id !in all
      modifies this
      ensures Valid() && Ctl() == Perform(old(Ctl()), Subscribe(id, now, start, startGen)).0 && pushed == old(pushed) && settings == old(settings)
      ensures all == Settled(old(all), old(Ctl()), Subscribe(id, now, start, startGen))
    {
      JoinEffect(all, Ctl(), id, now, start, startGen);
      Attach(id);
      if !running {
        Start(start, startGen);
      } else {
        Ensure(now);
      }
      if id in attached {
        all := all[id := ResetForGen(all[id], gen)];
      }
    }

    method Leave(id: nat)
      requires Valid()
      modifies this
      ensures Valid() && Ctl() == Perform(old(Ctl()), Unsubscribe(id)).0 && pushed == old(pushed) && settings == old(settings)
      ensures all == Settled(old(all), old(Ctl()), Unsubscribe(id))
    {
      if id !in attached {
        return;
      }
      attached := attached - {id};
      all := all[id := Close(all[id])];
      if attached == {} {
        retryTimer := None;
        if running {
          idleTimer := true;
        }
      }
    }

    method RestartEncoder(stopGen: nat, start: StartOutcome, startGen: nat)
      requires Valid()
      modifies this
      ensures Valid() && Ctl() == Perform(old(Ctl()), Restart(stopGen, start, startGen)).0 && pushed == old(pushed) && settings == old(settings)
      ensures all == Settled(old(all), old(Ctl()), Restart(stopGen, start, startGen))
    {
      RestartEffect(all, Ctl(), stopGen, start, startGen);
      idleTimer := false;
      Stop(stopGen);
      if attached != {} {
        Start(start, startGen);
      }
      ResetSubs();
    }

    /** SetSize, SetViewport and SetProfile once they have found that a value changes. */
    method Change(stopGen: nat, start: StartOutcome, startGen: nat)
      requires Valid()
      modifies this
      ensures Valid() && Ctl() == Perform(old(Ctl()), Reconfigure(stopGen, start, startGen)).0
      ensures pushed == old(pushed) && settings == old(settings)
      ensures all == Settled(old(all), old(Ctl()), Reconfigure(stopGen, start, startGen))
    {
      if running {
        Stop(stopGen);
        Start(start, startGen);
      }
      ResetSubs();
    }

    /** The encoder is restarted and everyone reset exactly when the values in force change. */
    method SetSize(width: int, height: int, stopGen: nat, start: StartOutcome, startGen: nat)
      requires Valid()
      modifies this
      ensures Valid() && pushed == old(pushed) && settings == After(old(settings), Size(width, height))
      ensures settings == old(settings) ==> Ctl() == old(Ctl()) && all == old(all)
      ensures settings != old(settings) ==>
                && Ctl() == Perform(old(Ctl()), Reconfigure(stopGen, start, startGen)).0
                && all == Settled(old(all), old(Ctl()), Reconfigure(stopGen, start, startGen))
    {
      if width < SMALLEST || height < SMALLEST {
        return;
      }
      var coded := CodedSize(settings.maxW, settings.maxH, width, height);
      if width == settings.captureW && height == settings.captureH && coded.0 == settings.w && coded.1 == settings.h {
        return;
      }
      settings := settings.(captureW := width, captureH := height, w := coded.0, h := coded.1);
      Change(stopGen, start, startGen);
    }

    /** As SetSize, for the captured size and the scale limit at once. */
    method SetViewport(width: int, height: int, maxW: int, maxH: int, stopGen: nat, start: StartOutcome, startGen: nat)
      requires Valid()
      modifies this
      ensures Valid() && pushed == old(pushed) && settings == After(old(settings), Viewport(width, height, maxW, maxH))
      ensures settings == old(settings) ==> Ctl() == old(Ctl()) && all == old(all)
      ensures settings != old(settings) ==>
                && Ctl() == Perform(old(Ctl()), Reconfigure(stopGen, start, startGen)).0
                && all == Settled(old(all), old(Ctl()), Reconfigure(stopGen, start, startGen))
    {
      if width < SMALLEST || height < SMALLEST {
        return;
      }
      var coded := CodedSize(maxW, maxH, width, height);
      if width == settings.captureW && height == settings.captureH && maxW == settings.maxW && maxH == settings.maxH
        && coded.0 == settings.w && coded.1 == settings.h {
        return;
      }
      settings := settings.(captureW := width, captureH := height, maxW := maxW, maxH := maxH, w := coded.0, h := coded.1);
      Change(stopGen, start, startGen);
    }

    /** As SetSize, for the whole profile. The size it compares is the one under the old limit. */
    method SetProfile(maxW: int, maxH: int, bitrateK: int, quantizer: int, frameRate: int,
                      stopGen: nat, start: StartOutcome, startGen: nat)
      requires Valid()
      modifies this
      ensures Valid() && pushed == old(pushed)
      ensures settings == After(old(settings), Profile(maxW, maxH, bitrateK, quantizer, frameRate))
      ensures settings == old(settings) ==> Ctl() == old(Ctl()) && all == old(all)
      ensures settings != old(settings) ==>
                && Ctl() == Perform(old(Ctl()), Reconfigure(stopGen, start, startGen)).0
                && all == Settled(old(all), old(Ctl()), Reconfigure(stopGen, start, startGen))
    {
      if bitrateK <= 0 || frameRate <= 0 {
        return;
      }
      var coded := CodedSize(settings.maxW, settings.maxH, settings.captureW, settings.captureH);
      if settings.maxW == maxW && settings.maxH == maxH && settings.bitrateK == bitrateK && settings.quantizer == quantizer
        && settings.frameRate == frameRate && coded.0 == settings.w && coded.1 == settings.h {
        return;
      }
      settings := settings.(maxW := maxW, maxH := maxH, bitrateK := bitrateK, quantizer := quantizer, frameRate := frameRate);
      coded := CodedSize(maxW, maxH, settings.captureW, settings.captureH);
      settings := settings.(w := coded.0, h := coded.1);
      Change(stopGen, start, startGen);
    }

    /** Push and broadcast of one unit, with no other goroutine in between. */
    method Push(idr: bool) returns (accepted: bool)
      requires Valid()
      modifies this`all, this`pushed
      ensures Valid() && Ctl() == old(Ctl())
      ensures accepted == running
      ensures accepted ==> pushed == old(pushed) + 1 && all == OfferAll(old(all), attached, AccessUnit(pushed, gen, idr))
      ensures !accepted ==> pushed == old(pushed) && all == old(all)
    {
      accepted := running;
      if !running {
        return;
      }
      pushed := pushed + 1;
      var au := AccessUnit(pushed, gen, idr);
      var targets := attached;
      while targets != {}
        invariant targets <= attached && Valid() && pushed == old(pushed) + 1
        invariant all == OfferAll(old(all), attached - targets, au)
      {
        var id :| id in targets;
        all := all[id := Offer(all[id], au, au.generation)];
        targets := targets - {id};
      }
    }
  }
}
