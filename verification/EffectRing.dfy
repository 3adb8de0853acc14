/** The client core's queue of effects: a ring of sixteen slots that never fills. */
module EffectRings {
  datatype Effect = RequestLibrary | ShowKeyboard | HideKeyboard | ClearPagePresentation

  const CAPACITY: nat := 16

  predicate IsKeyboard(e: Effect) {
    e == ShowKeyboard || e == HideKeyboard
  }

  function WithoutKeyboard(es: seq<Effect>): seq<Effect> {
    if es == [] then []
    else WithoutKeyboard(es[..|es| - 1]) + if IsKeyboard(es[|es| - 1]) then [] else [es[|es| - 1]]
  }

  /** What queueing an effect comes to: a keyboard effect replaces one that waits, any other waits once. */
  function Queued(es: seq<Effect>, e: Effect): seq<Effect> {
    if IsKeyboard(e) then WithoutKeyboard(es) + [e] else if e in es then es else es + [e]
  }

  predicate Apart(a: Effect, b: Effect) {
    a != b && !(IsKeyboard(a) && IsKeyboard(b))
  }

  /** No kind waits twice, and at most one keyboard effect waits. */
  predicate Distinct(es: seq<Effect>) {
    forall i, j :: 0 <= i < j < |es| ==> Apart(es[i], es[j])
  }

  lemma {:induction false} WithoutKeyboardIs(es: seq<Effect>)
    ensures forall e :: e in WithoutKeyboard(es) <==> e in es && !IsKeyboard(e)
    ensures |WithoutKeyboard(es)| <= |es|
    ensures Distinct(es) ==> Distinct(WithoutKeyboard(es))
    decreases |es|
  {
    if es != [] {
      var front, last := es[..|es| - 1], es[|es| - 1];
      WithoutKeyboardIs(front);
      assert es == front + [last];
      if Distinct(es) {
        assert forall i, j :: 0 <= i < j < |front| ==> Apart(front[i], front[j]) by {
          forall i, j | 0 <= i < j < |front| ensures Apart(front[i], front[j]) {
            assert Apart(es[i], es[j]);
          }
        }
        var kept := WithoutKeyboard(front);
        forall i | 0 <= i < |kept| ensures Apart(kept[i], last) {
          assert kept[i] in front;
          var k :| 0 <= k < |front| && front[k] == kept[i];
          assert Apart(es[k], es[|front|]);
        }
      }
    }
  }

  lemma QueuedDistinct(es: seq<Effect>, e: Effect)
    requires Distinct(es)
    ensures Distinct(Queued(es, e))
  {
    WithoutKeyboardIs(es);
    var base := if IsKeyboard(e) then WithoutKeyboard(es) else es;
    if IsKeyboard(e) || e !in es {
      forall i | 0 <= i < |base| ensures Apart(base[i], e) {
        assert base[i] in base;
      }
    }
  }

  lemma FourNotApart(a: Effect, b: Effect, c: Effect, d: Effect)
    ensures !(Apart(a, b) && Apart(a, c) && Apart(a, d) && Apart(b, c) && Apart(b, d) && Apart(c, d))
  {
  }

  /** Four kinds, two of them keyboard effects: no more than three wait. */
  lemma DistinctIsShort(es: seq<Effect>)
    requires Distinct(es)
    ensures |es| <= 3
  {
    if |es| > 3 {
      FourNotApart(es[0], es[1], es[2], es[3]);
    }
  }

  class EffectRing {
    const slots: array<Effect>
    var head: nat
    var count: nat

    ghost predicate Shaped()
      reads this
    {
      slots.Length == CAPACITY && head < CAPACITY && count <= CAPACITY
    }

    /** The waiting effects, oldest first. */
    ghost function Effects(): (es: seq<Effect>)
      requires Shaped()
      reads this, slots
      ensures |es| == count && forall i :: 0 <= i < count ==> es[i] == slots[(head + i) % CAPACITY]
    {
      seq(count, i requires 0 <= i < count reads this, slots => slots[(head + i) % CAPACITY])
    }

    ghost predicate Valid()
      reads this, slots
    {
      Shaped() && Distinct(Effects())
    }

    constructor ()
      ensures Valid() && fresh(slots) && Effects() == []
    {
      slots := new Effect[CAPACITY](_ => RequestLibrary);
      head, count := 0, 0;
    }

    method Clear()
      requires Shaped()
      modifies this
      ensures Valid() && Effects() == []
    {
      head, count := 0, 0;
    }

    /** The loop of surf_queue_effect: what stays, or that nothing has to change. */
    method Retain(e: Effect) returns (present: bool, retained: seq<Effect>)
      requires Valid()
      ensures present <==> !IsKeyboard(e) && e in Effects()
      ensures !present ==> retained == if IsKeyboard(e) then WithoutKeyboard(Effects()) else Effects()
    {
      retained := [];
      ghost var es := Effects();
      assert es[..0] == [];
      for offset := 0 to count
        invariant Shaped() && es == Effects()
        invariant retained == if IsKeyboard(e) then WithoutKeyboard(es[..offset]) else es[..offset]
        invariant !IsKeyboard(e) ==> e !in es[..offset]
      {
        var existing := slots[(head + offset) % CAPACITY];
        assert es[..offset + 1] == es[..offset] + [existing];
        if IsKeyboard(e) && IsKeyboard(existing) {
          continue;
        }
        if existing == e {
          assert es[offset] in es;
          return true, retained;
        }
        retained := retained + [existing];
      }
      assert es[..count] == es;
      return false, retained;
    }

    method Refill(retained: seq<Effect>)
      requires Shaped() && |retained| <= CAPACITY
      modifies this, slots
      ensures Shaped() && head == 0 && Effects() == retained
    {
      forall i | 0 <= i < |retained| {
        slots[i] := retained[i];
      }
      head, count := 0, |retained|;
    }

    method Append(e: Effect)
      requires Shaped() && head == 0 && count < CAPACITY
      modifies this, slots
      ensures Shaped() && Effects() == old(Effects()) + [e]
    {
      slots[(head + count) % CAPACITY] := e;
      count := count + 1;
    }

    /** surf_queue_effect; its limit error cannot happen. */
    method Queue(e: Effect) returns (ok: bool)
      requires Valid()
      modifies this, slots
      ensures Valid() && ok && Effects() == Queued(old(Effects()), e)
    {
      ghost var es := Effects();
      QueuedDistinct(es, e);
      DistinctIsShort(Queued(es, e));
      WithoutKeyboardIs(es);
      var present, retained := Retain(e);
      ok := true;
      if !present {
        Refill(retained);
        ok := count < CAPACITY;
        if ok {
          Append(e);
        }
      }
    }

    /** surf_core_next_effect. */
    method Next() returns (some: bool, e: Effect)
      requires Valid()
      modifies this
      ensures Valid() && (some <==> old(count) > 0)
      ensures if some then [e] + Effects() == old(Effects()) else Effects() == old(Effects())
    {
      if count == 0 {
        return false, RequestLibrary;
      }
      ghost var es := Effects();
      e := slots[head];
      head, count := (head + 1) % CAPACITY, count - 1;
      assert Effects() == es[1..] by {
        forall i | 0 <= i < count ensures Effects()[i] == es[1..][i] {
          RingStep(old(head), i);
        }
      }
      forall i, j | 0 <= i < j < |Effects()| ensures Apart(Effects()[i], Effects()[j]) {
        assert Apart(es[i + 1], es[j + 1]);
      }
      return true, e;
    }
  }

  lemma RingStep(head: nat, i: nat)
    requires head < CAPACITY && i < CAPACITY
    ensures ((head + 1) % CAPACITY + i) % CAPACITY == (head + (i + 1)) % CAPACITY
  {
  }
}
