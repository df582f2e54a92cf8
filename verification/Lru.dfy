/** The least-recently-used policy of the scratch-page pool. */
module Lru {
  import opened Types

  // ----- Recency, from the history of uses -----

  /** One past the position of the last use; 0 for a slot never used. */
  function LastUse(uses: seq<nat>, slot: nat): nat {
    if uses == [] then 0
    else if uses[|uses| - 1] == slot then |uses|
    else LastUse(uses[..|uses| - 1], slot)
  }

  lemma {:induction false} LastUseBounds(uses: seq<nat>, slot: nat)
    ensures LastUse(uses, slot) <= |uses|
    ensures LastUse(uses, slot) > 0 <==> slot in uses
    ensures LastUse(uses, slot) > 0 ==> uses[LastUse(uses, slot) - 1] == slot
    decreases |uses|
  {
    if uses != [] {
      LastUseBounds(uses[..|uses| - 1], slot);
      assert uses == uses[..|uses| - 1] + [uses[|uses| - 1]];
    }
  }

  lemma LastUseAfter(uses: seq<nat>, slot: nat, other: nat)
    ensures LastUse(uses + [slot], other) == if other == slot then |uses| + 1 else LastUse(uses, other)
  {
    assert (uses + [slot])[..|uses|] == uses;
  }

  /** Different slots were last used at different times. */
  lemma LastUseInjective(uses: seq<nat>, a: nat, b: nat)
    requires a in uses && b in uses && a != b
    ensures LastUse(uses, a) != LastUse(uses, b)
  {
    LastUseBounds(uses, a);
    LastUseBounds(uses, b);
  }

  /** Duplicate-free, exactly the slots used, least recently used first. */
  ghost predicate ByRecency(order: seq<nat>, uses: seq<nat>) {
    && (forall i, j | 0 <= i < j < |order| :: LastUse(uses, order[i]) < LastUse(uses, order[j]))
    && (forall i | 0 <= i < |order| :: order[i] in uses)
  }

  lemma ByRecencyDistinct(order: seq<nat>, uses: seq<nat>)
    requires ByRecency(order, uses)
    ensures forall i, j | 0 <= i < j < |order| :: order[i] != order[j]
  {
  }

  function Position(order: seq<nat>, slot: nat): (pos: Option<nat>)
    ensures pos.Some? ==> pos.value < |order| && order[pos.value] == slot
    ensures pos.None? ==> slot !in order
  {
    if order == [] then None
    else if order[0] == slot then Some(0)
    else
      var rest := Position(order[1..], slot);
      if rest.Some? then Some(rest.value + 1) else None
  }

  function WithoutSlot(order: seq<nat>, slot: nat): seq<nat> {
    var pos := Position(order, slot);
    if pos.Some? then order[..pos.value] + order[pos.value + 1..] else order
  }

  /** Leaving one position out keeps the relative order. */
  lemma WithoutAt(order: seq<nat>, slot: nat, i: nat)
    requires i < |WithoutSlot(order, slot)|
    ensures var p := Position(order, slot);
            var j := if p.Some? && p.value <= i then i + 1 else i;
            j < |order| && WithoutSlot(order, slot)[i] == order[j] && (p.Some? ==> j != p.value)
  {
  }

  lemma WithoutMembers(order: seq<nat>, slot: nat)
    requires forall i, j | 0 <= i < j < |order| :: order[i] != order[j]
    ensures forall x :: x in WithoutSlot(order, slot) <==> x in order && x != slot
  {
    var p := Position(order, slot);
    if p.Some? {
      var rest := WithoutSlot(order, slot);
      forall x | x in order && x != slot
        ensures x in rest
      {
        var i :| 0 <= i < |order| && order[i] == x;
        assert rest[if i < p.value then i else i - 1] == x;
      }
      forall i | 0 <= i < |rest|
        ensures rest[i] in order && rest[i] != slot
      {
        WithoutAt(order, slot, i);
      }
    }
  }

  lemma WithoutKeeps(order: seq<nat>, uses: seq<nat>, slot: nat)
    requires ByRecency(order, uses)
    ensures ByRecency(WithoutSlot(order, slot), uses)
    ensures forall x :: x in WithoutSlot(order, slot) <==> x in order && x != slot
  {
    hide WithoutSlot, LastUse;
    ByRecencyDistinct(order, uses);
    WithoutMembers(order, slot);
    var rest := WithoutSlot(order, slot);
    forall i, j | 0 <= i < j < |rest|
      ensures LastUse(uses, rest[i]) < LastUse(uses, rest[j])
    {
      WithoutAt(order, slot, i);
      WithoutAt(order, slot, j);
    }
    forall i | 0 <= i < |rest|
      ensures rest[i] in uses
    {
      WithoutAt(order, slot, i);
    }
  }

  lemma MruKeeps(order: seq<nat>, uses: seq<nat>, slot: nat)
    requires ByRecency(order, uses)
    ensures ByRecency(WithoutSlot(order, slot) + [slot], uses + [slot])
  {
    WithoutKeeps(order, uses, slot);
    var rest := WithoutSlot(order, slot);
    forall x
      ensures LastUse(uses + [slot], x) == if x == slot then |uses| + 1 else LastUse(uses, x)
    {
      LastUseAfter(uses, slot, x);
    }
    forall i | 0 <= i < |rest|
      ensures rest[i] != slot && LastUse(uses, rest[i]) <= |uses|
    {
      assert rest[i] in rest;
      LastUseBounds(uses, rest[i]);
    }
  }

  class LruPolicy {
    var order: seq<nat>

    /** Every use so far, oldest first. */
    ghost var uses: seq<nat>

    ghost predicate Valid()
      reads this
    {
      ByRecency(order, uses)
    }

    constructor ()
      ensures Valid() && order == [] && uses == []
    {
      order, uses := [], [];
    }

    /** `make_mru`, behind both `touch` and `insert`. */
    method Touch(slot: nat)
      requires Valid()
      modifies this
      ensures Valid() && uses == old(uses) + [slot]
      ensures forall x :: x in order <==> x in old(order) || x == slot
    {
      MruKeeps(order, uses, slot);
      WithoutKeeps(order, uses, slot);
      var pos := Position(order, slot);
      if pos.Some? {
        order := order[..pos.value] + order[pos.value + 1..];
      }
      order := order + [slot];
      uses := uses + [slot];
    }

    method Remove(slot: nat)
      requires Valid()
      modifies this`order
      ensures Valid()
      ensures forall x :: x in order <==> x in old(order) && x != slot
    {
      WithoutKeeps(order, uses, slot);
      var pos := Position(order, slot);
      if pos.Some? {
        order := order[..pos.value] + order[pos.value + 1..];
      }
    }

    /** The least recently used of the occupied slots, as long as every occupied slot has been
        used; there is none exactly when no slot is occupied. Slots no longer occupied drop off
        the front of the order. */
    method Victim(occupied: array<bool>) returns (r: Option<nat>)
      requires Valid()
      modifies this`order
      ensures Valid()
      ensures forall s | 0 <= s < occupied.Length && occupied[s] && s in old(order) :: s in order
      ensures forall x | x in order :: x in old(order)
      ensures r.Some? ==> r.value < occupied.Length && occupied[r.value]
      ensures r.Some? && (forall s | 0 <= s < occupied.Length && occupied[s] :: s in old(order)) ==>
                forall s | 0 <= s < occupied.Length && occupied[s] :: LastUse(uses, r.value) <= LastUse(uses, s)
      ensures r.None? <==> forall s | 0 <= s < occupied.Length :: !occupied[s]
    {
      while |order| > 0
        invariant Valid()
        invariant forall s | 0 <= s < occupied.Length && occupied[s] && s in old(order) :: s in order
        invariant forall x | x in order :: x in old(order)
        decreases |order|
      {
        var slot := order[0];
        if slot < occupied.Length && occupied[slot] {
          FirstIsOldest(order, uses);
          return Some(slot);
        }
        assert order == [slot] + order[1..];
        order := order[1..];
      }
      for s := 0 to occupied.Length
        invariant Valid() && order == []
        invariant forall x | 0 <= x < s :: !occupied[x]
      {
        if occupied[s] {
          return Some(s);
        }
      }
      r := None;
    }
  }

  lemma FirstIsOldest(order: seq<nat>, uses: seq<nat>)
    requires ByRecency(order, uses) && |order| > 0
    ensures forall s | s in order :: LastUse(uses, order[0]) <= LastUse(uses, s)
  {
  }
}
