/**
  * The client's admission policy: the last hop before the decoder. It sees only
  * generations, uint32 sequence numbers and the IDR flag.
  */
module MediaPolicies {
  import opened AccessUnits

  datatype Policy = Policy(
    hasGeneration: bool,
    generation: nat,
    hasSequence: bool,
    lastSequence: nat,
    waitingForIdr: bool,
    resetPending: bool)

  const Reset := Policy(false, 0, false, 0, true, true)

  datatype Action = DropRequestKeyframe | Decode | ResetAndDecode

  datatype Admission = Admission(action: Action, generationChanged: bool, sequenceGap: bool)

  function Admit(p: Policy, au: AccessUnit): (Policy, Admission) {
    var changed := p.hasGeneration && p.generation != au.generation;
    var gap := p.hasSequence && WireSequence(au) != (p.lastSequence + 1) % SEQUENCE_MODULUS;
    var waiting := p.waitingForIdr || changed || gap;
    var pending := p.resetPending || changed || gap;
    if waiting && !au.idr then
      (Policy(true, au.generation, true, WireSequence(au), waiting, pending), Admission(DropRequestKeyframe, changed, gap))
    else if pending then
      (Policy(true, au.generation, true, WireSequence(au), false, false), Admission(ResetAndDecode, changed, gap))
    else
      (Policy(true, au.generation, true, WireSequence(au), waiting, false), Admission(Decode, changed, gap))
  }

  function After(frames: seq<AccessUnit>): Policy {
    if frames == [] then Reset else Admit(After(frames[..|frames| - 1]), frames[|frames| - 1]).0
  }

  /** What the policy answers for the frame at position `k` of everything it has been shown. */
  function ActionAt(frames: seq<AccessUnit>, k: nat): Action
    requires k < |frames|
  {
    Admit(After(frames[..k]), frames[k]).1.action
  }

  /** An IDR, or a frame that visibly follows a decodable one. */
  predicate Decodable(frames: seq<AccessUnit>, k: nat)
    requires k < |frames|
  {
    frames[k].idr || (k > 0 && Decodable(frames, k - 1) && WireFollows(frames[k - 1], frames[k]))
  }

  /** The policy's memory after a non-empty history, in terms of that history alone. */
  lemma {:induction false} AfterFrames(frames: seq<AccessUnit>, k: nat)
    requires 0 < k <= |frames|
    ensures var p := After(frames[..k]);
            && p.hasGeneration && p.generation == frames[k - 1].generation
            && p.hasSequence && p.lastSequence == WireSequence(frames[k - 1])
            && p.waitingForIdr == p.resetPending == !Decodable(frames, k - 1)
    decreases k
  {
    var shown := frames[..k];
    assert shown[..k - 1] == frames[..k - 1] && shown[k - 1] == frames[k - 1];
    if k > 1 {
      AfterFrames(frames, k - 1);
    } else {
      assert frames[..0] == [];
    }
  }

  /**
    * For every history: the policy decodes exactly the decodable frames, asks for
    * a keyframe on every other one, and resets the decoder exactly at those
    * IDRs that do not visibly continue a decodable frame.
    */
  lemma AdmissionExact(frames: seq<AccessUnit>, k: nat)
    requires k < |frames|
    ensures ActionAt(frames, k) == DropRequestKeyframe <==> !Decodable(frames, k)
    ensures ActionAt(frames, k) == Decode <==>
              k > 0 && Decodable(frames, k - 1) && WireFollows(frames[k - 1], frames[k])
  {
    if k > 0 {
      AfterFrames(frames, k);
    } else {
      assert frames[..0] == [];
    }
  }

  class MediaPolicy {
    var hasGeneration: bool
    var generation: nat
    var hasSequence: bool
    var lastSequence: nat
    var waitingForIdr: bool
    var resetPending: bool

    ghost function State(): Policy
      reads this
    {
      Policy(hasGeneration, generation, hasSequence, lastSequence, waitingForIdr, resetPending)
    }

    constructor ()
      ensures State() == Reset
    {
      hasGeneration, generation, hasSequence, lastSequence := false, 0, false, 0;
      waitingForIdr, resetPending := true, true;
    }

    method AdmitFrame(au: AccessUnit) returns (admission: Admission)
      modifies this
      ensures State() == Admit(old(State()), au).0
      ensures admission == Admit(old(State()), au).1
    {
      var changed := hasGeneration && generation != au.generation;
      var gap := hasSequence && WireSequence(au) != (lastSequence + 1) % SEQUENCE_MODULUS;
      if changed || gap {
        waitingForIdr, resetPending := true, true;
      }
      generation, lastSequence := au.generation, WireSequence(au);
      hasGeneration, hasSequence := true, true;
      if waitingForIdr && !au.idr {
        return Admission(DropRequestKeyframe, changed, gap);
      }
      if resetPending {
        waitingForIdr, resetPending := false, false;
        return Admission(ResetAndDecode, changed, gap);
      }
      return Admission(Decode, changed, gap);
    }
  }
}
