/** The client's input sampler: sequence numbers and timestamps it stamps on what it sends. */
module InputSamplers {
  const UINT64_MAX: nat := 0xFFFF_FFFF_FFFF_FFFF

  datatype Result = Okay | ErrorArgument | ErrorOverflow

  datatype Sampler = Sampler(sequence: nat, interaction: nat, last: nat, surface: nat)

  /** What a pointer or wheel sample carries for ordering. */
  datatype Stamp = Stamp(surface: nat, sequence: nat, timestamp: nat)

  const Fresh := Sampler(0, 0, 0, 0)

  predicate WithinUint64(s: Sampler) {
    s.sequence <= UINT64_MAX && s.interaction <= UINT64_MAX && s.last <= UINT64_MAX
  }

  /** A time that is not later than the last one becomes the last one plus one. */
  function Later(s: Sampler, timestamp: nat): nat {
    if timestamp <= s.last then s.last + 1 else timestamp
  }

  predicate ClockFull(s: Sampler, timestamp: nat) {
    timestamp <= s.last && s.last == UINT64_MAX
  }

  function CanSample(s: Sampler, timestamp: nat): Result {
    if timestamp == 0 || s.surface == 0 then ErrorArgument
    else if s.sequence == UINT64_MAX || s.interaction == UINT64_MAX || ClockFull(s, timestamp) then ErrorOverflow
    else Okay
  }

  function Sampled(s: Sampler, timestamp: nat): Sampler {
    s.(sequence := s.sequence + 1, interaction := s.interaction + 1, last := Later(s, timestamp))
  }

  function CanNote(s: Sampler, timestamp: nat): Result {
    if timestamp == 0 then ErrorArgument
    else if s.interaction == UINT64_MAX || ClockFull(s, timestamp) then ErrorOverflow
    else Okay
  }

  function Noted(s: Sampler, timestamp: nat): Sampler {
    s.(interaction := s.interaction + 1, last := Later(s, timestamp))
  }

  function OnSurface(s: Sampler, generation: nat): Sampler {
    if s.surface == generation then s else s.(surface := generation, sequence := 0)
  }

  class InputState {
    var sequence: nat
    var interaction: nat
    var lastTimestamp: nat
    var surface: nat

    function State(): Sampler
      reads this
    {
      Sampler(sequence, interaction, lastTimestamp, surface)
    }

    constructor ()
      ensures State() == Fresh
    {
      sequence, interaction, lastTimestamp, surface := 0, 0, 0, 0;
    }

    /** The ordering part of surf_input_pointer_sample and surf_input_wheel_sample. */
    method Sample(timestamp: nat) returns (result: Result, stamp: Stamp)
      requires WithinUint64(State()) && timestamp <= UINT64_MAX
      modifies this
      ensures WithinUint64(State()) && result == CanSample(old(State()), timestamp)
      ensures result != Okay ==> State() == old(State())
      ensures State() == After(old(State()), Call.Sample(timestamp))
      ensures result == Okay ==> State() == Sampled(old(State()), timestamp)
                                 && stamp == Stamp(surface, sequence, lastTimestamp)
      ensures result == ErrorArgument <==> timestamp == 0 || old(surface) == 0
      ensures result == Okay <==>
                && timestamp != 0 && old(surface) != 0 && old(sequence) < UINT64_MAX && old(interaction) < UINT64_MAX
                && (timestamp > old(lastTimestamp) || old(lastTimestamp) < UINT64_MAX)
      ensures result == Okay ==> stamp.surface == old(surface) && stamp.sequence == old(sequence) + 1 && interaction == old(interaction) + 1
      ensures result == Okay ==> stamp.timestamp == if timestamp > old(lastTimestamp) then timestamp else old(lastTimestamp) + 1
    {
      stamp := Stamp(0, 0, 0);
      if timestamp == 0 || surface == 0 {
        return ErrorArgument, stamp;
      }
      if sequence == UINT64_MAX || interaction == UINT64_MAX {
        return ErrorOverflow, stamp;
      }
      var normalized := timestamp;
      if normalized <= lastTimestamp {
        if lastTimestamp == UINT64_MAX {
          return ErrorOverflow, stamp;
        }
        normalized := lastTimestamp + 1;
      }
      sequence, interaction, lastTimestamp := sequence + 1, interaction + 1, normalized;
      return Okay, Stamp(surface, sequence, lastTimestamp);
    }

    /** surf_input_next_causal. */
    method NextCausal(timestamp: nat) returns (result: Result)
      requires WithinUint64(State()) && timestamp <= UINT64_MAX
      modifies this
      ensures WithinUint64(State()) && result == CanNote(old(State()), timestamp)
      ensures State() == if result == Okay then Noted(old(State()), timestamp) else old(State())
      ensures State() == After(old(State()), Causal(timestamp))
      ensures result == ErrorArgument <==> timestamp == 0
      ensures result == Okay <==>
                && timestamp != 0 && old(interaction) < UINT64_MAX && (timestamp > old(lastTimestamp) || old(lastTimestamp) < UINT64_MAX)
      ensures result == Okay ==> lastTimestamp == (if timestamp > old(lastTimestamp) then timestamp else old(lastTimestamp) + 1)
      ensures result == Okay ==> interaction == old(interaction) + 1 && sequence == old(sequence) && surface == old(surface)
    {
      if timestamp == 0 {
        return ErrorArgument;
      }
      if interaction == UINT64_MAX {
        return ErrorOverflow;
      }
      var normalized := timestamp;
      if normalized <= lastTimestamp {
        if lastTimestamp == UINT64_MAX {
          return ErrorOverflow;
        }
        normalized := lastTimestamp + 1;
      }
      interaction, lastTimestamp := interaction + 1, normalized;
      return Okay;
    }

    /** surf_input_set_surface. */
    method SetSurface(generation: nat)
      modifies this
      ensures State() == OnSurface(old(State()), generation)
      ensures surface == generation && interaction == old(interaction) && lastTimestamp == old(lastTimestamp)
      ensures sequence == if generation == old(surface) then old(sequence) else 0
    {
      if surface != generation {
        surface, sequence := generation, 0;
      }
    }
  }

  // ---- Runs -----------------------------------------------------------------------------------

  datatype Call = Sample(timestamp: nat) | Causal(timestamp: nat) | Surface(generation: nat)

  function After(s: Sampler, call: Call): Sampler {
    match call
    case Sample(t) => if CanSample(s, t) == Okay then Sampled(s, t) else s
    case Causal(t) => if CanNote(s, t) == Okay then Noted(s, t) else s
    case Surface(g) => OnSurface(s, g)
  }

  function State(calls: seq<Call>): Sampler {
    if calls == [] then Fresh else After(State(calls[..|calls| - 1]), calls[|calls| - 1])
  }

  /** The samples the calls give, oldest first. */
  function Stamps(calls: seq<Call>): seq<Stamp> {
    if calls == [] then []
    else
      var front, last := calls[..|calls| - 1], calls[|calls| - 1];
      var s := State(front);
      Stamps(front) +
      if last.Sample? && CanSample(s, last.timestamp) == Okay then
        var s' := Sampled(s, last.timestamp); [Stamp(s'.surface, s'.sequence, s'.last)]
      else []
  }

  /** No surface comes back once it has been left. */
  predicate NeverReturns(calls: seq<Call>) {
    if calls == [] then true
    else
      var front, last := calls[..|calls| - 1], calls[|calls| - 1];
      && NeverReturns(front)
      && (last.Surface? && last.generation != State(front).surface ==> last.generation !in Visited(front))
  }

  function Visited(calls: seq<Call>): set<nat> {
    if calls == [] then {0} else Visited(calls[..|calls| - 1]) + {State(calls).surface}
  }

  predicate Precedes(a: Stamp, b: Stamp) {
    a.surface == b.surface ==> a.sequence < b.sequence && a.timestamp < b.timestamp
  }

  predicate Increasing(stamps: seq<Stamp>) {
    forall i, j :: 0 <= i < j < |stamps| ==> Precedes(stamps[i], stamps[j])
  }

  /** Every sample so far is older than whatever the state gives next on its surface. */
  predicate Behind(s: Sampler, visited: set<nat>, stamp: Stamp) {
    && stamp.surface in visited && stamp.timestamp <= s.last
    && (stamp.surface == s.surface ==> stamp.sequence <= s.sequence)
  }

  predicate AllBehind(s: Sampler, visited: set<nat>, stamps: seq<Stamp>) {
    forall i :: 0 <= i < |stamps| ==> Behind(s, visited, stamps[i])
  }

  /** On one surface, sequence numbers and timestamps only grow. */
  lemma {:induction false} StampsIncrease(calls: seq<Call>)
    requires NeverReturns(calls)
    ensures Increasing(Stamps(calls)) && State(calls).surface in Visited(calls)
    ensures AllBehind(State(calls), Visited(calls), Stamps(calls))
    decreases |calls|
  {
    if calls != [] {
      var front, last := calls[..|calls| - 1], calls[|calls| - 1];
      var s, s', stamps, stamps' := State(front), State(calls), Stamps(front), Stamps(calls);
      StampsIncrease(front);
      forall i | 0 <= i < |stamps'| ensures Behind(s', Visited(calls), stamps'[i]) {
        if i < |stamps| {
          assert Behind(s, Visited(front), stamps[i]);
        }
      }
      forall i, j | 0 <= i < j < |stamps'| ensures Precedes(stamps'[i], stamps'[j]) {
        if j < |stamps| {
          assert Precedes(stamps[i], stamps[j]);
        } else {
          assert Behind(s, Visited(front), stamps[i]);
        }
      }
    }
  }
}
