/** Encoded access units and what it means for one to depend on another. */
module AccessUnits {

  /** Sequence numbers travel as uint32 values. */
  const SEQUENCE_MODULUS: nat := 0x1_0000_0000

  /**
    * `index` counts the units an encoder pipeline has numbered since it was
    * created. Only its low 32 bits reach the wire (`WireSequence`).
    */
  datatype AccessUnit = AccessUnit(index: nat, generation: nat, idr: bool)

  function WireSequence(au: AccessUnit): (s: nat)
    ensures s < SEQUENCE_MODULUS
  {
    au.index % SEQUENCE_MODULUS
  }

  /** `later` is the unit encoded directly after `earlier` in the same encoder generation. */
  predicate Follows(earlier: AccessUnit, later: AccessUnit) {
    && later.index == earlier.index + 1
    && later.generation == earlier.generation
  }

  /** What a receiver can see of `Follows`: uint32 addition wraps. */
  predicate WireFollows(earlier: AccessUnit, later: AccessUnit) {
    && WireSequence(later) == (WireSequence(earlier) + 1) % SEQUENCE_MODULUS
    && later.generation == earlier.generation
  }

  /** Until 2^32 units are lost in one gap, the wire tells the whole truth. */
  lemma WireFollowsIsFollows(earlier: AccessUnit, later: AccessUnit)
    requires earlier.index < later.index <= earlier.index + SEQUENCE_MODULUS
    ensures WireFollows(earlier, later) <==> Follows(earlier, later)
  {
    var d := later.index - earlier.index;
    ModuloStep(earlier.index, d);
  }

  lemma ModuloStep(base: nat, d: nat)
    requires 0 < d <= SEQUENCE_MODULUS
    ensures (base + d) % SEQUENCE_MODULUS == (base % SEQUENCE_MODULUS + 1) % SEQUENCE_MODULUS <==> d == 1
  {
  }
}
