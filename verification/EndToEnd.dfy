/**
  * The whole lane, from the encoder's pipeline to the client's decoder.
  *
  * A run of the pipeline gives one subscriber's receptions; deliverAU submits
  * them, in order, to the hub lane; a run of the lane gives the frames on the
  * socket; the client's policy judges those. The hub answers back only through
  * ForceResync and RequestKeyframe, which the pipeline's machine allows at any
  * moment, so the hops compose through their histories.
  */
module EndToEnd {
  import opened AccessUnits
  import VideoSubscriptions
  import VideoMachines
  import HubLanes
  import opened MediaPolicies

  /** The lane was fed, since its last epoch began, with what subscriber `id` received. */
  predicate Delivers(s: VideoMachines.State, id: nat, lane: HubLanes.Lane) {
    && id in s.all
    && |lane.submitted| <= |s.all[id].received|
    && forall i :: 0 <= i < |lane.submitted| ==> lane.submitted[i] == s.all[id].received[i].au
  }

  /** The part of a write history that belongs to `epoch`, when nothing newer follows it. */
  function OfEpoch(written: seq<HubLanes.Written>, epoch: nat): seq<HubLanes.Written> {
    if written == [] || written[|written| - 1].m.epoch != epoch then []
    else OfEpoch(written[..|written| - 1], epoch) + [written[|written| - 1]]
  }

  function Units(written: seq<HubLanes.Written>): (r: seq<AccessUnit>)
    ensures |r| == |written|
    ensures forall k :: 0 <= k < |r| ==> r[k] == written[k].m.au
  {
    if written == [] then [] else Units(written[..|written| - 1]) + [written[|written| - 1].m.au]
  }

  /** The frame was separated from its predecessor in the subscriber's queue or in the lane. */
  predicate Torn(received: seq<VideoSubscriptions.Reception>, w: HubLanes.Written)
    requires w.m.position < |received|
  {
    w.torn || received[w.m.position].torn
  }

  lemma SuffixSnoc(written: seq<HubLanes.Written>, n: nat)
    requires written != [] && n < |written|
    ensures written[..|written| - 1][|written| - 1 - n..] + [written[|written| - 1]] == written[|written| - 1 - n..]
  {
  }

  lemma {:induction false} OfEpochIsSuffix(written: seq<HubLanes.Written>, epoch: nat)
    ensures var w := OfEpoch(written, epoch);
            && |w| <= |written|
            && w == written[|written| - |w|..]
            && (|w| < |written| ==> written[|written| - |w| - 1].m.epoch != epoch)
            && (forall k :: 0 <= k < |w| ==> w[k].m.epoch == epoch)
    decreases |written|
  {
    if written != [] && written[|written| - 1].m.epoch == epoch {
      var init := written[..|written| - 1];
      OfEpochIsSuffix(init, epoch);
      SuffixSnoc(written, |OfEpoch(init, epoch)|);
    } else {
      assert written[|written|..] == [];
    }
  }

  // ---- What the two machines say about their histories ----------------------------------

  predicate ReceptionChains(received: seq<VideoSubscriptions.Reception>, k: nat)
    requires k < |received|
  {
    && (k > 0 ==> received[k - 1].au.index < received[k].au.index)
    && (received[k].torn <==> !received[k].au.idr && !(k > 0 && Follows(received[k - 1].au, received[k].au)))
  }

  predicate ReceptionsChain(received: seq<VideoSubscriptions.Reception>) {
    forall k :: 0 <= k < |received| ==> ReceptionChains(received, k)
  }

  predicate FrameChains(received: seq<VideoSubscriptions.Reception>, wire: seq<HubLanes.Written>, k: nat)
    requires k < |wire|
  {
    var m := wire[k].m;
    && m.position < |received|
    && m.au == received[m.position].au
    && (k > 0 ==> wire[k - 1].m.position < m.position)
    && (wire[k].torn <==>
          !m.au.idr && m.position > 0 && !(k > 0 && wire[k - 1].m.position + 1 == m.position))
  }

  predicate FramesChain(received: seq<VideoSubscriptions.Reception>, wire: seq<HubLanes.Written>) {
    forall k :: 0 <= k < |wire| ==> FrameChains(received, wire, k)
  }

  lemma VideoHistory(video: seq<VideoMachines.Step>, id: nat)
    requires VideoMachines.Possible(VideoMachines.Initial, video)
    requires id in VideoMachines.Run(VideoMachines.Initial, video).all
    ensures ReceptionsChain(VideoMachines.Run(VideoMachines.Initial, video).all[id].received)
  {
    var received := VideoMachines.Run(VideoMachines.Initial, video).all[id].received;
    forall k | 0 <= k < |received| ensures ReceptionChains(received, k) {
      VideoMachines.ReceivedUnitsChain(video, id, k);
    }
  }

  predicate WritesChain(lane: HubLanes.Lane) {
    forall k :: 0 <= k < |lane.written| ==> WriteChains(lane, k)
  }

  predicate WriteChains(lane: HubLanes.Lane, k: nat)
    requires k < |lane.written|
  {
    var m := lane.written[k].m;
    && (k > 0 ==> HubLanes.Earlier(lane.written[k - 1].m, m))
    && (lane.written[k].torn <==>
          && !m.au.idr && m.position > 0
          && !(k > 0 && lane.written[k - 1].m.epoch == m.epoch && lane.written[k - 1].m.position + 1 == m.position))
    && (m.epoch == lane.epoch ==> m.position < |lane.submitted| && lane.submitted[m.position] == m.au)
  }

  lemma HubHistory(hub: seq<HubLanes.Step>)
    requires HubLanes.Possible(HubLanes.Connected, hub)
    ensures WritesChain(HubLanes.Run(HubLanes.Connected, hub))
  {
    var lane := HubLanes.Run(HubLanes.Connected, hub);
    forall k | 0 <= k < |lane.written| ensures WriteChains(lane, k) {
      HubLanes.WrittenFramesChain(hub, k);
    }
  }

  lemma EpochHistory(lane: HubLanes.Lane, received: seq<VideoSubscriptions.Reception>)
    requires WritesChain(lane)
    requires |lane.submitted| <= |received|
    requires forall i :: 0 <= i < |lane.submitted| ==> lane.submitted[i] == received[i].au
    ensures FramesChain(received, OfEpoch(lane.written, lane.epoch))
  {
    OfEpochIsSuffix(lane.written, lane.epoch);
    var wire := OfEpoch(lane.written, lane.epoch);
    var base := |lane.written| - |wire|;
    forall k | 0 <= k < |wire| ensures FrameChains(received, wire, k) {
      assert WriteChains(lane, base + k) && wire[k] == lane.written[base + k] && wire[k].m.epoch == lane.epoch;
      if k > 0 {
        assert wire[k - 1] == lane.written[base + k - 1] && wire[k - 1].m.epoch == lane.epoch;
      }
    }
  }

  // ---- From histories to the decoder ---------------------------------------------------------

  lemma {:induction false} IndicesIncrease(received: seq<VideoSubscriptions.Reception>, i: nat, j: nat)
    requires ReceptionsChain(received) && i < j < |received|
    ensures received[i].au.index < received[j].au.index
    decreases j
  {
    assert ReceptionChains(received, j);
    if i < j - 1 {
      IndicesIncrease(received, i, j - 1);
    }
  }

  /**
    * Numbers on the socket never go back, and a dependent frame comes directly
    * after its predecessor exactly when it was not torn on either hop.
    */
  lemma SocketOrder(received: seq<VideoSubscriptions.Reception>, wire: seq<HubLanes.Written>, k: nat)
    requires ReceptionsChain(received) && FramesChain(received, wire) && k < |wire|
    ensures FrameChains(received, wire, k)
    ensures k > 0 ==> wire[k - 1].m.au.index < wire[k].m.au.index
    ensures Torn(received, wire[k]) <==>
              !wire[k].m.au.idr && !(k > 0 && Follows(wire[k - 1].m.au, wire[k].m.au))
  {
    var p := wire[k].m.position;
    assert FrameChains(received, wire, k) && ReceptionChains(received, p);
    if k > 0 {
      assert FrameChains(received, wire, k - 1);
      var q := wire[k - 1].m.position;
      IndicesIncrease(received, q, p);
      if q < p - 1 {
        IndicesIncrease(received, q, p - 1);
        IndicesIncrease(received, p - 1, p);
      }
    }
  }

  /** No single loss on the socket spans 2^32 units, so sequence numbers cannot alias. */
  predicate NoAliasing(wire: seq<HubLanes.Written>) {
    forall k :: 0 < k < |wire| ==> wire[k].m.au.index <= wire[k - 1].m.au.index + SEQUENCE_MODULUS
  }

  lemma FollowsVisibly(received: seq<VideoSubscriptions.Reception>, wire: seq<HubLanes.Written>, k: nat)
    requires ReceptionsChain(received) && FramesChain(received, wire) && NoAliasing(wire) && 0 < k < |wire|
    ensures WireFollows(wire[k - 1].m.au, wire[k].m.au) <==> Follows(wire[k - 1].m.au, wire[k].m.au)
  {
    SocketOrder(received, wire, k);
    WireFollowsIsFollows(wire[k - 1].m.au, wire[k].m.au);
  }

  lemma {:induction false} WholeFramesDecodable(received: seq<VideoSubscriptions.Reception>, wire: seq<HubLanes.Written>, k: nat)
    requires ReceptionsChain(received) && FramesChain(received, wire) && NoAliasing(wire) && k < |wire|
    requires !SomeTorn(received, wire)
    ensures Decodable(Units(wire), k)
    decreases k
  {
    SocketOrder(received, wire, k);
    if k > 0 {
      WholeFramesDecodable(received, wire, k - 1);
      FollowsVisibly(received, wire, k);
    }
  }

  predicate SomeTorn(received: seq<VideoSubscriptions.Reception>, wire: seq<HubLanes.Written>) {
    exists k :: 0 <= k < |wire| && wire[k].m.position < |received| && Torn(received, wire[k])
  }

  predicate AsksForKeyframe(frames: seq<AccessUnit>) {
    exists k :: 0 <= k < |frames| && ActionAt(frames, k) == DropRequestKeyframe
  }

  lemma AsksIffTorn(received: seq<VideoSubscriptions.Reception>, wire: seq<HubLanes.Written>)
    requires ReceptionsChain(received) && FramesChain(received, wire) && NoAliasing(wire)
    ensures AsksForKeyframe(Units(wire)) <==> SomeTorn(received, wire)
  {
    var frames := Units(wire);
    if SomeTorn(received, wire) {
      var k :| 0 <= k < |wire| && wire[k].m.position < |received| && Torn(received, wire[k]);
      SocketOrder(received, wire, k);
      if k > 0 {
        FollowsVisibly(received, wire, k);
      }
      AdmissionExact(frames, k);
      assert ActionAt(frames, k) == DropRequestKeyframe;
    } else {
      forall k | 0 <= k < |frames| ensures ActionAt(frames, k) != DropRequestKeyframe {
        WholeFramesDecodable(received, wire, k);
        AdmissionExact(frames, k);
      }
    }
  }

  // ---- The theorems, over all runs ---------------------------------------------------------------

  /**
    * The client asks for a keyframe at some frame of the current epoch if and only
    * if some frame of it was torn on the way, in the subscriber's queue or in the
    * lane. Otherwise every gap and every generation change it sees starts at an IDR.
    */
  lemma KeyframeRequestedIffTorn(video: seq<VideoMachines.Step>, id: nat, hub: seq<HubLanes.Step>)
    requires VideoMachines.Possible(VideoMachines.Initial, video) && HubLanes.Possible(HubLanes.Connected, hub)
    requires Delivers(VideoMachines.Run(VideoMachines.Initial, video), id, HubLanes.Run(HubLanes.Connected, hub))
    requires var lane := HubLanes.Run(HubLanes.Connected, hub); NoAliasing(OfEpoch(lane.written, lane.epoch))
    ensures var received := VideoMachines.Run(VideoMachines.Initial, video).all[id].received;
            var lane := HubLanes.Run(HubLanes.Connected, hub);
            var wire := OfEpoch(lane.written, lane.epoch);
            AsksForKeyframe(Units(wire)) <==> SomeTorn(received, wire)
  {
    var received := VideoMachines.Run(VideoMachines.Initial, video).all[id].received;
    var lane := HubLanes.Run(HubLanes.Connected, hub);
    VideoHistory(video, id);
    HubHistory(hub);
    EpochHistory(lane, received);
    AsksIffTorn(received, OfEpoch(lane.written, lane.epoch));
  }

  /**
    * Decoder safety, in every run, torn or not: a dependent frame is decoded only
    * directly after its own predecessor, which was decoded too.
    */
  lemma DecoderNeverMissesAReference(video: seq<VideoMachines.Step>, id: nat, hub: seq<HubLanes.Step>, k: nat)
    requires VideoMachines.Possible(VideoMachines.Initial, video) && HubLanes.Possible(HubLanes.Connected, hub)
    requires Delivers(VideoMachines.Run(VideoMachines.Initial, video), id, HubLanes.Run(HubLanes.Connected, hub))
    requires var lane := HubLanes.Run(HubLanes.Connected, hub);
             var wire := OfEpoch(lane.written, lane.epoch); k < |wire| && NoAliasing(wire)
    ensures var lane := HubLanes.Run(HubLanes.Connected, hub);
            var frames := Units(OfEpoch(lane.written, lane.epoch));
            ActionAt(frames, k) != DropRequestKeyframe && !frames[k].idr ==>
              k > 0 && Follows(frames[k - 1], frames[k]) && ActionAt(frames, k - 1) != DropRequestKeyframe
  {
    var received := VideoMachines.Run(VideoMachines.Initial, video).all[id].received;
    var lane := HubLanes.Run(HubLanes.Connected, hub);
    var wire := OfEpoch(lane.written, lane.epoch);
    VideoHistory(video, id);
    HubHistory(hub);
    EpochHistory(lane, received);
    AdmissionExact(Units(wire), k);
    if k > 0 {
      AdmissionExact(Units(wire), k - 1);
      FollowsVisibly(received, wire, k);
    }
  }

  // ---- Whatever is submitted --------------------------------------------------------------------------

  /** Neighbours are less than 2^32 units apart, in either direction. */
  predicate Unaliased(frames: seq<AccessUnit>) {
    forall k :: 0 < k < |frames| ==> Near(frames[k - 1], frames[k])
  }

  predicate Near(a: AccessUnit, b: AccessUnit) {
    a.index + 1 < b.index + SEQUENCE_MODULUS && b.index < a.index + 1 + SEQUENCE_MODULUS
  }

  lemma NearWireFollows(a: AccessUnit, b: AccessUnit)
    requires Near(a, b)
    ensures WireFollows(a, b) <==> Follows(a, b)
  {
    var d := b.index - (a.index + 1);
    if WireFollows(a, b) {
      assert d % SEQUENCE_MODULUS == 0;
    }
  }

  /**
    * Decoder safety does not depend on where the submissions come from. Whatever
    * units reach the lane and in whatever order, such as those of two pumps of which
    * one still empties the channel of a closed subscription, a dependent frame is
    * decoded only directly after its own predecessor, which was decoded too.
    */
  lemma DecoderSafeOnAnyDelivery(hub: seq<HubLanes.Step>, k: nat)
    requires HubLanes.Possible(HubLanes.Connected, hub)
    requires var lane := HubLanes.Run(HubLanes.Connected, hub);
             var frames := Units(OfEpoch(lane.written, lane.epoch)); k < |frames| && Unaliased(frames)
    ensures var lane := HubLanes.Run(HubLanes.Connected, hub);
            var frames := Units(OfEpoch(lane.written, lane.epoch));
            ActionAt(frames, k) != DropRequestKeyframe && !frames[k].idr ==>
              k > 0 && Follows(frames[k - 1], frames[k]) && ActionAt(frames, k - 1) != DropRequestKeyframe
  {
    var lane := HubLanes.Run(HubLanes.Connected, hub);
    SafeFrames(Units(OfEpoch(lane.written, lane.epoch)), k);
  }

  lemma SafeFrames(frames: seq<AccessUnit>, k: nat)
    requires k < |frames| && Unaliased(frames)
    ensures ActionAt(frames, k) != DropRequestKeyframe && !frames[k].idr ==>
              k > 0 && Follows(frames[k - 1], frames[k]) && ActionAt(frames, k - 1) != DropRequestKeyframe
  {
    AdmissionExact(frames, k);
    if k > 0 {
      AdmissionExact(frames, k - 1);
      NearWireFollows(frames[k - 1], frames[k]);
    }
  }

  /** A lane that is given one frame and lets it through. */
  lemma OneFrameRun(au: AccessUnit) returns (hub: seq<HubLanes.Step>)
    ensures HubLanes.Possible(HubLanes.Connected, hub)
    ensures var lane := HubLanes.Run(HubLanes.Connected, hub);
            && lane.epoch == 0 && lane.submitted == [au]
            && lane.written == [HubLanes.Written(HubLanes.Message(au, 0, 0), false)]
  {
    var submit := HubLanes.WriteIsARun(HubLanes.Connected, au);
    var send := HubLanes.WriteNextIsARun(HubLanes.AfterWrite(HubLanes.Connected, au));
    HubLanes.RunConcat(HubLanes.Connected, submit, send);
    hub := submit + send;
  }

  lemma FirstDependentFrameRefused(w: HubLanes.Written)
    requires !w.m.au.idr
    ensures AsksForKeyframe(Units(OfEpoch([w], w.m.epoch)))
  {
    var written := [w];
    assert written[..0] == [] && OfEpoch(written[..0], w.m.epoch) == [];
    var wire := OfEpoch(written, w.m.epoch);
    assert wire == OfEpoch(written[..0], w.m.epoch) + [w];
    AdmissionExact(Units(wire), 0);
    assert ActionAt(Units(wire), 0) == DropRequestKeyframe;
  }

  /** So "the client never has to ask" is false of some run: one receive inside one drain is enough. */
  lemma KeyframeRequestHappens() returns (video: seq<VideoMachines.Step>, hub: seq<HubLanes.Step>)
    ensures VideoMachines.Possible(VideoMachines.Initial, video) && HubLanes.Possible(HubLanes.Connected, hub)
    ensures Delivers(VideoMachines.Run(VideoMachines.Initial, video), 0, HubLanes.Run(HubLanes.Connected, hub))
    ensures var lane := HubLanes.Run(HubLanes.Connected, hub); AsksForKeyframe(Units(OfEpoch(lane.written, lane.epoch)))
  {
    var au := AccessUnit(2, 1, false);
    video := VideoMachines.TornUnitExists();
    hub := OneFrameRun(au);
    FirstDependentFrameRefused(HubLanes.Written(HubLanes.Message(au, 0, 0), false));
  }
}
