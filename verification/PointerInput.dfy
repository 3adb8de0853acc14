/**
  * The pointer lane's worker and its ordering check: a sample whose sequence number
  * or timestamp goes back cancels the gesture. Samples of the client's sampler never do.
  */
module PointerInputs {
  import opened Options
  import opened InputQueues
  import InputSamplers

  /** `session` 0 stands for none. */
  datatype Worker = Worker(owner: Option<nat>, session: nat, surface: nat, lastSeq: nat, lastNS: nat, buttons: nat)

  const Idle := Worker(None, 0, 0, 0, 0, 0)

  /** What the controller, the client and the browser answer during a step. */
  datatype Surroundings = Surroundings(suspended: bool, closed: bool, session: nat, surface: nat, viewport: bool, dispatch: bool)

  /** `tripped`: the ordering check failed. */
  datatype Handled = Handled(worker: Worker, tripped: bool)

  predicate IsSample(w: Work) {
    w.Pointer? || w.Wheel?
  }

  predicate ValidSample(w: Work)
    requires IsSample(w)
  {
    && w.valid && w.sequence != 0 && w.surface != 0 && w.timestamp != 0
    && (w.Wheel? ==> InRange(w.dx) && InRange(w.dy))
  }

  predicate OutOfOrder(worker: Worker, w: Work)
    requires IsSample(w)
  {
    w.sequence <= worker.lastSeq || (worker.lastNS != 0 && w.timestamp < worker.lastNS)
  }

  /** Ownership taken over for a sample, or None when the viewport cannot be read. */
  function Owned(worker: Worker, w: Work, env: Surroundings): Option<Worker>
    requires IsSample(w)
  {
    if worker.owner == Some(w.client) && worker.session == env.session && worker.surface == env.surface then Some(worker)
    else if !env.viewport then None
    else Some(Idle.(owner := Some(w.client), session := env.session, surface := env.surface))
  }

  /** process, for one queue entry. */
  function Process(worker: Worker, w: Work, env: Surroundings): Handled {
    if w == Cancellation then Handled(Idle, false)
    else if env.suspended || w.Touch? then Handled(worker, false)
    else if w.PageCommand? then
      if env.closed then Handled(Idle, false)
      else if env.session == 0 then Handled(worker, false)
      else if (worker.owner.Some? && worker.owner != Some(w.client)) || (worker.session != 0 && worker.session != env.session)
      then Handled(Idle, false)
      else Handled(worker, false)
    else if !ValidSample(w) || env.closed || env.session == 0 || w.surface != env.surface then Handled(Idle, false)
    else
      var owned := Owned(worker, w, env);
      if owned.None? then Handled(Idle, false)
      else if OutOfOrder(owned.value, w) then Handled(Idle, true)
      else
        var sent := if !env.dispatch then Idle
                    else if w.Pointer? then owned.value.(buttons := w.buttons)
                    else owned.value;
        Handled(sent.(lastSeq := w.sequence, lastNS := w.timestamp), false)
  }

  /** The worker's gesture is this client's, in this session and on this surface. */
  predicate Continues(worker: Worker, client: nat, env: Surroundings) {
    worker.owner == Some(client) && worker.session == env.session && worker.surface == env.surface
  }

  /** The wheel's range, and everything a sample has to carry. */
  predicate Usable(w: Work) {
    && (w.Pointer? || w.Wheel?) && w.valid && w.sequence > 0 && w.surface > 0 && w.timestamp > 0
    && (w.Wheel? ==> -4.0 <= w.dx <= 4.0 && -4.0 <= w.dy <= 4.0)
  }

  /**
    * What a sample comes to. It is handled exactly when it is usable and for the active surface, its
    * client is connected, and it either continues the gesture in order or can begin one; then it is what
    * the worker remembers. Anything else cancels the gesture, and only going back trips the check.
    */
  lemma SampleOutcome(worker: Worker, w: Work, env: Surroundings)
    requires w.Pointer? || w.Wheel?
    ensures var h := Process(worker, w, env);
            var mine := Continues(worker, w.client, env);
            var back := mine && (w.sequence <= worker.lastSeq || (worker.lastNS != 0 && w.timestamp < worker.lastNS));
            if env.suspended then h == Handled(worker, false)
            else if !Usable(w) || env.closed || env.session == 0 || w.surface != env.surface || (!mine && !env.viewport) then h == Handled(Idle, false)
            else if back then h == Handled(Idle, true)
            else
              && !h.tripped && h.worker.lastSeq == w.sequence && h.worker.lastNS == w.timestamp
              && (env.dispatch ==> Continues(h.worker, w.client, env))
              && (env.dispatch ==> h.worker.buttons == if w.Pointer? then w.buttons else if mine then worker.buttons else 0)
              && (!env.dispatch ==> h.worker == Worker(None, 0, 0, w.sequence, w.timestamp, 0))
  {
  }

  /** A page command cancels another client's gesture, or one of another session, and nothing else. */
  lemma CommandOutcome(worker: Worker, client: nat, env: Surroundings)
    ensures var h := Process(worker, PageCommand(client), env);
            var foreign := (worker.owner.Some? && worker.owner.value != client) || (worker.session != 0 && worker.session != env.session);
            h == if !env.suspended && (env.closed || (env.session != 0 && foreign)) then Handled(Idle, false) else Handled(worker, false)
  {
  }

  class PointerInput {
    var owner: Option<nat>
    var session: nat
    var surface: nat
    var lastSeq: nat
    var lastClientNS: nat
    var buttons: nat

    function State(): Worker
      reads this
    {
      Worker(owner, session, surface, lastSeq, lastClientNS, buttons)
    }

    constructor ()
      ensures State() == Idle
    {
      owner, session, surface, lastSeq, lastClientNS, buttons := None, 0, 0, 0, 0, 0;
    }

    method CancelActive()
      modifies this
      ensures State() == Idle
    {
      owner, session, surface, lastSeq, lastClientNS, buttons := None, 0, 0, 0, 0, 0;
    }

    method ProcessCommand(client: nat, env: Surroundings)
      modifies this
      ensures State() == if env.suspended then old(State()) else Process(old(State()), PageCommand(client), env).worker
    {
      if env.suspended {
        return;
      }
      if env.closed {
        CancelActive();
        return;
      }
      if env.session == 0 {
        return;
      }
      if (owner.Some? && owner != Some(client)) || (session != 0 && session != env.session) {
        CancelActive();
      }
    }

    method ProcessSample(w: Work, env: Surroundings) returns (tripped: bool)
      requires IsSample(w)
      modifies this
      ensures Handled(State(), tripped) == Process(old(State()), w, env)
    {
      tripped := false;
      if env.suspended {
        return;
      }
      if !ValidSample(w) || env.closed || env.session == 0 || w.surface != env.surface {
        CancelActive();
        return;
      }
      if owner != Some(w.client) || session != env.session || surface != env.surface {
        CancelActive();
        if !env.viewport {
          return;
        }
        owner, session, surface := Some(w.client), env.session, env.surface;
      }
      if w.sequence <= lastSeq || (lastClientNS != 0 && w.timestamp < lastClientNS) {
        CancelActive();
        return true;
      }
      if !env.dispatch {
        CancelActive();
      } else if w.Pointer? {
        buttons := w.buttons;
      }
      lastSeq, lastClientNS := w.sequence, w.timestamp;
    }
  }

  // ---- Runs of the lane ------------------------------------------------------------------------

  /** `tripped` remembers whether the check has ever failed. */
  datatype Machine = Machine(lane: Lane, worker: Worker, tripped: bool)

  datatype Action = Arrival(work: Work) | Serve(env: Surroundings)

  predicate Moves(m: Machine, a: Action, m': Machine) {
    match a
    case Arrival(work) => Next(m.lane, Arrive(work), m'.lane) && m'.worker == m.worker && m'.tripped == m.tripped
    case Serve(env) =>
      && m.lane.queue != [] && Next(m.lane, Take, m'.lane)
      && var h := Process(m.worker, m.lane.queue[0].work, env);
         m'.worker == h.worker && m'.tripped == (m.tripped || h.tripped)
  }

  ghost predicate Runs(states: seq<Machine>, actions: seq<Action>) {
    && |states| == |actions| + 1 && states[0] == Machine(Empty, Idle, false)
    && forall i :: 0 <= i < |actions| ==> Moves(states[i], actions[i], states[i + 1])
  }

  // ---- Samples that grow -------------------------------------------------------------------------

  predicate Grows(a: Work, b: Work) {
    IsSample(a) && IsSample(b) && a.client == b.client && a.surface == b.surface ==>
      a.sequence < b.sequence && a.timestamp < b.timestamp
  }

  /** On each client's every surface, what arrives later is later. */
  predicate SamplesGrow(history: seq<Work>) {
    forall i, j :: 0 <= i < j < |history| ==> Grows(history[i], history[j])
  }

  predicate Last(worker: Worker, e: Entry) {
    && IsSample(e.work) && worker.owner == Some(e.work.client) && worker.surface == e.work.surface
    && worker.lastSeq == e.work.sequence && worker.lastNS == e.work.timestamp
  }

  /** What the worker remembers is a sample it has handled, of the owner and the surface it has now. */
  ghost predicate Linked(worker: Worker, taken: seq<Entry>) {
    worker.owner.Some? && (worker.lastSeq != 0 || worker.lastNS != 0) ==> exists i :: 0 <= i < |taken| && Last(worker, taken[i])
  }

  ghost predicate Good(m: Machine) {
    Inv(m.lane) && Linked(m.worker, m.lane.taken) && (SamplesGrow(m.lane.history) ==> !m.tripped)
  }

  /** The head of the queue is later than anything handled on its surface. */
  lemma HeadIsLater(lane: Lane, i: nat)
    requires Inv(lane) && lane.queue != [] && i < |lane.taken| && SamplesGrow(lane.history)
    ensures Grows(lane.taken[i].work, lane.queue[0].work)
  {
    var line, n := Line(lane), |lane.taken|;
    assert line[i] == lane.taken[i] && line[n] == lane.queue[0];
    assert Before(line, i, n) && StemsFrom(line[i], lane.history, lane.refused) && StemsFrom(line[n], lane.history, lane.refused);
    assert Grows(lane.history[line[i].stamp], lane.history[line[n].stamp]);
  }

  lemma NoTrip(m: Machine, env: Surroundings)
    requires Good(m) && m.lane.queue != [] && SamplesGrow(m.lane.history)
    ensures !Process(m.worker, m.lane.queue[0].work, env).tripped
  {
    var w := m.lane.queue[0].work;
    if IsSample(w) && Owned(m.worker, w, env) == Some(m.worker) && (m.worker.lastSeq != 0 || m.worker.lastNS != 0)
       && m.worker.owner == Some(w.client) && m.worker.surface == w.surface {
      var i :| 0 <= i < |m.lane.taken| && Last(m.worker, m.lane.taken[i]);
      HeadIsLater(m.lane, i);
    }
  }

  lemma StaysLinked(worker: Worker, taken: seq<Entry>, e: Entry, env: Surroundings)
    requires Linked(worker, taken)
    ensures Linked(Process(worker, e.work, env).worker, taken + [e])
  {
    var worker', taken' := Process(worker, e.work, env).worker, taken + [e];
    if worker'.owner.Some? && (worker'.lastSeq != 0 || worker'.lastNS != 0) {
      if worker' == worker {
        var i :| 0 <= i < |taken| && Last(worker, taken[i]);
        assert Last(worker', taken'[i]);
      } else {
        assert Last(worker', taken'[|taken|]);
      }
    }
  }

  lemma HistoryGrows(history: seq<Work>, work: Work)
    requires SamplesGrow(history + [work])
    ensures SamplesGrow(history)
  {
    var longer := history + [work];
    forall i, j | 0 <= i < j < |history| ensures Grows(history[i], history[j]) {
      assert Grows(longer[i], longer[j]);
    }
  }

  lemma MoveKeeps(m: Machine, a: Action, m': Machine)
    requires Good(m) && Moves(m, a, m')
    ensures Good(m')
  {
    match a
    case Arrival(work) =>
      InputQueues.StepKeeps(m.lane, Arrive(work), m'.lane);
      if SamplesGrow(m'.lane.history) {
        HistoryGrows(m.lane.history, work);
      }
    case Serve(env) =>
      InputQueues.StepKeeps(m.lane, Take, m'.lane);
      StaysLinked(m.worker, m.lane.taken, m.lane.queue[0], env);
      if SamplesGrow(m'.lane.history) {
        NoTrip(m, env);
      }
  }

  lemma {:induction false} RunKeeps(states: seq<Machine>, actions: seq<Action>, n: nat)
    requires Runs(states, actions) && n < |states|
    ensures Good(states[n])
    decreases n
  {
    if n > 0 {
      RunKeeps(states, actions, n - 1);
      MoveKeeps(states[n - 1], actions[n - 1], states[n]);
    }
  }

  // ---- From the client's sampler to the check ------------------------------------------------------

  /** `calls[c]` is what client `c` asked of its sampler; `which[i]` says which of its samples arrival `i` is. */
  ghost predicate FromSamplers(history: seq<Work>, calls: map<nat, seq<InputSamplers.Call>>, which: seq<nat>) {
    && |which| == |history|
    && (forall i :: 0 <= i < |history| && IsSample(history[i]) ==> FromSampler(history[i], calls, which[i]))
    && (forall i, j :: 0 <= i < j < |history| && IsSample(history[i]) && IsSample(history[j]) && history[i].client == history[j].client
          ==> which[i] < which[j])
    && (forall c :: c in calls ==> InputSamplers.NeverReturns(calls[c]))
  }

  predicate FromSampler(w: Work, calls: map<nat, seq<InputSamplers.Call>>, k: nat)
    requires IsSample(w)
  {
    && w.client in calls && k < |InputSamplers.Stamps(calls[w.client])|
    && InputSamplers.Stamps(calls[w.client])[k] == InputSamplers.Stamp(w.surface, w.sequence, w.timestamp)
  }

  lemma SamplersGrow(history: seq<Work>, calls: map<nat, seq<InputSamplers.Call>>, which: seq<nat>)
    requires FromSamplers(history, calls, which)
    ensures SamplesGrow(history)
  {
    forall i, j | 0 <= i < j < |history| ensures Grows(history[i], history[j]) {
      var a, b := history[i], history[j];
      if IsSample(a) && IsSample(b) && a.client == b.client && a.surface == b.surface {
        assert FromSampler(a, calls, which[i]) && FromSampler(b, calls, which[j]);
        InputSamplers.StampsIncrease(calls[a.client]);
        var stamps := InputSamplers.Stamps(calls[a.client]);
        assert InputSamplers.Precedes(stamps[which[i]], stamps[which[j]]);
      }
    }
  }

  /**
    * Pointer and wheel samples that the clients' samplers made and sent in order never
    * trip the ordering check, however they were merged, dropped and interleaved with
    * other work on the way.
    */
  lemma SamplesNeverTrip(states: seq<Machine>, actions: seq<Action>, n: nat, calls: map<nat, seq<InputSamplers.Call>>, which: seq<nat>)
    requires Runs(states, actions) && n < |states| && FromSamplers(states[n].lane.history, calls, which)
    ensures !states[n].tripped
  {
    RunKeeps(states, actions, n);
    SamplersGrow(states[n].lane.history, calls, which);
  }
}
