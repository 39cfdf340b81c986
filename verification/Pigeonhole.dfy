/** Counting slots: enough bound slots mean that nobody is left out. */
module Pigeonhole {
  import opened Identity
  import opened SlotBoard

  lemma {:induction false} SubsetSize<T>(a: set<T>, b: set<T>)
    requires a <= b
    ensures |a| <= |b| && (|a| == |b| ==> a == b)
    decreases |a|
  {
    if a != {} {
      var x :| x in a;
      SubsetSize(a - {x}, b - {x});
      assert a == (a - {x}) + {x} && b == (b - {x}) + {x};
    }
  }

  function Shown(slots: seq<Slot>, held: set<nat>): set<PeerId>
    requires forall i :: i in held ==> i < |slots| && slots[i].publisher.Some?
  {
    set i | i in held :: slots[i].publisher.value
  }

  lemma {:induction false} ShownSize(slots: seq<Slot>, held: set<nat>)
    requires forall i :: i in held ==> i < |slots| && slots[i].publisher.Some?
    requires DistinctPublishers(slots)
    ensures |Shown(slots, held)| == |held|
    decreases |held|
  {
    if held != {} {
      var i :| i in held;
      var rest := held - {i};
      ShownSize(slots, rest);
      assert Shown(slots, held) == Shown(slots, rest) + {slots[i].publisher.value};
      assert slots[i].publisher.value !in Shown(slots, rest) by {
        forall j | j in rest ensures slots[j].publisher != slots[i].publisher {
          assert j < i || i < j;
        }
      }
    }
  }

  /** When as many slots are bound, each to a different one of `others`, as there are
      others, every one of them has a slot. */
  lemma EveryoneIsShown(slots: seq<Slot>, held: set<nat>, others: set<PeerId>)
    requires forall i :: i in held ==> i < |slots| && slots[i].publisher.Some?
    requires DistinctPublishers(slots) && Assigned(slots) <= others && |others| <= |held|
    ensures others <= Assigned(slots)
  {
    ShownSize(slots, held);
    forall p | p in Shown(slots, held) ensures p in Assigned(slots) {
      var i :| i in held && slots[i].publisher.value == p;
      assert slots[i].publisher.Some?;
    }
    SubsetSize(Shown(slots, held), others);
  }
}
