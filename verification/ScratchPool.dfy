/** The pool of scratch windows a user copy works through. */
module ScratchPool {
  import opened Types
  import opened Machine
  import opened Lru

  const POOL_SLOTS: nat := 16

  /** A window of the manager's own address space onto the first pages of a frame. */
  datatype Window = Window(slot: Slot, pages: nat, perms: Perms)

  class ScratchSpace {
    var windows: map<nat, Window>

    constructor ()
      ensures windows == map[]
    {
      windows := map[];
    }

    method MapScratch(frames: Frames, slot: Slot, perms: Perms, pages: nat) returns (r: Result<nat>)
      modifies this
      ensures r.Ok? ==>
                && slot in frames && pages <= |frames[slot]|
                && r.value !in old(windows) && windows == old(windows)[r.value := Window(slot, pages, perms)]
      ensures r.Err? ==> windows == old(windows) && r.error == ResourceFailed
    {
      var fails: bool := *;
      if fails || slot !in frames || |frames[slot]| < pages {
        return Err(ResourceFailed);
      }
      assert Above(windows.Keys) !in windows;
      var vaddr: nat :| vaddr !in windows;
      windows := windows[vaddr := Window(slot, pages, perms)];
      r := Ok(vaddr);
    }

    method Unmap(vaddr: nat)
      modifies this
      ensures windows == Remove(old(windows), vaddr)
    {
      windows := Remove(windows, vaddr);
    }
  }

  datatype PoolEntry = PoolEntry(mapVaddr: nat, scratch: nat, pages: nat, frameCap: Slot, perms: Perms) {
    function AsWindow(): Window { Window(frameCap, pages, perms) }
  }

  /** The windows are those of the base and one for each entry, all at different addresses. */
  ghost predicate Covers(windows: map<nat, Window>, base: map<nat, Window>, entries: seq<Option<PoolEntry>>) {
    && (forall v | v in base :: v in windows && windows[v] == base[v])
    && (forall i | 0 <= i < |entries| && entries[i].Some? ::
          var e := entries[i].value;
          e.scratch in windows && e.scratch !in base && windows[e.scratch] == e.AsWindow())
    && (forall i, j | 0 <= i < j < |entries| && entries[i].Some? && entries[j].Some? ::
          entries[i].value.scratch != entries[j].value.scratch)
    && (forall v | v in windows :: v in base || exists i ::
          0 <= i < |entries| && entries[i].Some? && entries[i].value.scratch == v)
  }

  lemma CoversNothing(windows: map<nat, Window>, base: map<nat, Window>, entries: seq<Option<PoolEntry>>)
    requires Covers(windows, base, entries) && forall i | 0 <= i < |entries| :: entries[i].None?
    ensures windows == base
  {
  }

  lemma CoversHas(windows: map<nat, Window>, base: map<nat, Window>, entries: seq<Option<PoolEntry>>, i: nat)
    requires Covers(windows, base, entries) && i < |entries| && entries[i].Some?
    ensures entries[i].value.scratch in windows && windows[entries[i].value.scratch] == entries[i].value.AsWindow()
  {
  }

  lemma CoversAdd(windows: map<nat, Window>, base: map<nat, Window>, entries: seq<Option<PoolEntry>>, i: nat,
                  e: PoolEntry)
    requires Covers(windows, base, entries) && i < |entries| && entries[i].None? && e.scratch !in windows
    ensures Covers(windows[e.scratch := e.AsWindow()], base, entries[i := Some(e)])
  {
    var windows', entries' := windows[e.scratch := e.AsWindow()], entries[i := Some(e)];
    forall v | v in windows' && v !in base
      ensures exists j :: 0 <= j < |entries'| && entries'[j].Some? && entries'[j].value.scratch == v
    {
      if v == e.scratch {
        assert entries'[i].value.scratch == v;
      } else {
        var j :| 0 <= j < |entries| && entries[j].Some? && entries[j].value.scratch == v;
        assert entries'[j].Some? && entries'[j].value.scratch == v;
      }
    }
  }

  lemma CoversDrop(windows: map<nat, Window>, base: map<nat, Window>, entries: seq<Option<PoolEntry>>, i: nat)
    requires Covers(windows, base, entries) && i < |entries| && entries[i].Some?
    ensures Covers(Remove(windows, entries[i].value.scratch), base, entries[i := None])
  {
    var windows', entries' := Remove(windows, entries[i].value.scratch), entries[i := None];
    forall j | 0 <= j < |entries'| && entries'[j].Some?
      ensures entries'[j].value.scratch in windows' && entries'[j] == entries[j]
    {
      assert j != i;
    }
    forall v | v in windows' && v !in base
      ensures exists j :: 0 <= j < |entries'| && entries'[j].Some? && entries'[j].value.scratch == v
    {
      var j :| 0 <= j < |entries| && entries[j].Some? && entries[j].value.scratch == v;
      assert entries'[j].Some? && entries'[j].value.scratch == v;
    }
  }

  class SharedPagePool {
    const scratch: ScratchSpace
    const entries: array<Option<PoolEntry>>
    const occupied: array<bool>
    const policy: LruPolicy

    /** The windows that were there before the pool. */
    ghost const base: map<nat, Window>

    ghost function Repr(): set<object>
    {
      {this, scratch, entries, occupied, policy}
    }

    ghost predicate Valid()
      reads Repr()
    {
      && entries.Length == POOL_SLOTS && occupied.Length == POOL_SLOTS
      && policy.Valid()
      && (forall i | 0 <= i < POOL_SLOTS :: occupied[i] <==> entries[i].Some?)
      && (forall i | 0 <= i < POOL_SLOTS && occupied[i] :: i in policy.order)
      && Covers(scratch.windows, base, entries[..])
    }

    /** Each window shows the whole of its frame. */
    ghost predicate Sized(frames: Frames)
      reads entries
    {
      forall i | 0 <= i < entries.Length && entries[i].Some? ::
        entries[i].value.frameCap in frames && |frames[entries[i].value.frameCap]| == entries[i].value.pages
    }

    constructor (space: ScratchSpace)
      ensures Valid() && scratch == space && base == space.windows && fresh(Repr() - {space})
      ensures space.windows == old(space.windows) && policy.uses == []
      ensures forall i | 0 <= i < POOL_SLOTS :: entries[i].None?
    {
      scratch := space;
      entries := new Option<PoolEntry>[POOL_SLOTS](i => None);
      occupied := new bool[POOL_SLOTS](i => false);
      policy := new LruPolicy();
      base := space.windows;
    }

    /** A window onto the frame that allows at least `perms`. */
    method FindHit(frameCap: Slot, perms: Perms) returns (r: Option<nat>)
      requires Valid()
      ensures r.Some? ==>
                && r.value < POOL_SLOTS && occupied[r.value]
                && entries[r.value].value.frameCap == frameCap && entries[r.value].value.perms.Contains(perms)
      ensures r.None? ==> forall i | 0 <= i < POOL_SLOTS && occupied[i] ::
                            !(entries[i].value.frameCap == frameCap && entries[i].value.perms.Contains(perms))
    {
      for i := 0 to POOL_SLOTS
        invariant forall j | 0 <= j < i && occupied[j] ::
                    !(entries[j].value.frameCap == frameCap && entries[j].value.perms.Contains(perms))
      {
        if occupied[i] && entries[i].value.frameCap == frameCap && entries[i].value.perms.Contains(perms) {
          return Some(i);
        }
      }
      r := None;
    }

    /** A free slot if there is one, else the least recently used. */
    method PickSlot() returns (slot: nat)
      requires Valid()
      modifies policy`order
      ensures Valid() && slot < POOL_SLOTS
      ensures (exists i :: 0 <= i < POOL_SLOTS && !occupied[i]) ==> !occupied[slot]
      ensures occupied[slot] ==>
                forall i | 0 <= i < POOL_SLOTS :: occupied[i] && LastUse(policy.uses, slot) <= LastUse(policy.uses, i)
    {
      for i := 0 to POOL_SLOTS
        invariant forall j | 0 <= j < i :: occupied[j]
        invariant Valid() && policy.order == old(policy.order)
      {
        if !occupied[i] {
          return i;
        }
      }
      var victim := policy.Victim(occupied);
      assert victim.Some? by {
        assert occupied[0];
      }
      slot := victim.value;
    }

    method UnmapSlot(slot: nat)
      requires Valid() && slot < POOL_SLOTS
      modifies entries, occupied, scratch
      ensures Valid() && !occupied[slot]
      ensures forall i | 0 <= i < POOL_SLOTS && i != slot ::
                entries[i] == old(entries[i]) && occupied[i] == old(occupied[i])
    {
      if entries[slot].Some? {
        ghost var before := entries[..];
        CoversDrop(scratch.windows, base, before, slot);
        var e := entries[slot].value;
        entries[slot] := None;
        scratch.Unmap(e.scratch);
        occupied[slot] := false;
        assert entries[..] == before[slot := None];
      }
    }

    /** A window onto the map's frame that allows `perms`: a hit, or a new one in a free slot or in
        the place of the least recently used. No other entry changes. */
    method Acquire(frames: Frames, m: MemoryMap, perms: Perms) returns (r: Result<nat>, ghost slot: nat)
      requires Valid() && Sized(frames)
      requires m.frameCap in frames && |frames[m.frameCap]| == m.Pages()
      modifies entries, occupied, policy, scratch
      ensures Valid() && Sized(frames) && slot < POOL_SLOTS
      ensures r.Err? ==> r.error == ResourceFailed
      ensures entries[slot].Some? && entries[slot] != old(entries[slot]) ==>
                entries[slot].value.frameCap == m.frameCap && entries[slot].value.pages == m.Pages()
      ensures r.Ok? ==>
                && r.value in scratch.windows && scratch.windows[r.value].slot == m.frameCap
                && scratch.windows[r.value].pages == m.Pages() && scratch.windows[r.value].perms.Contains(perms)
                && occupied[slot] && entries[slot].value.scratch == r.value && policy.uses == old(policy.uses) + [slot]
      ensures forall i | 0 <= i < POOL_SLOTS && i != slot :: entries[i] == old(entries[i])
      ensures old(occupied[slot]) && entries[slot] != old(entries[slot]) ==>
                forall i | 0 <= i < POOL_SLOTS ::
                  old(occupied[i]) && LastUse(old(policy.uses), slot) <= LastUse(old(policy.uses), i)
    {
      hide Covers, LastUse, MemoryMap.Pages;
      var hit := FindHit(m.frameCap, perms);
      if hit.Some? {
        slot := hit.value;
        CoversHas(scratch.windows, base, entries[..], slot);
        policy.Touch(hit.value);
        return Ok(entries[hit.value].value.scratch), slot;
      }
      var free := PickSlot();
      slot := free;
      if occupied[free] {
        UnmapSlot(free);
      }
      r := FillSlot(frames, m, perms, free);
    }

    /** Maps a new window into an empty slot. */
    method FillSlot(frames: Frames, m: MemoryMap, perms: Perms, free: nat) returns (r: Result<nat>)
      requires Valid() && Sized(frames) && free < POOL_SLOTS && !occupied[free]
      requires m.frameCap in frames && |frames[m.frameCap]| == m.Pages()
      modifies entries, occupied, policy, scratch
      ensures Valid() && Sized(frames)
      ensures r.Ok? ==>
                && r.value in scratch.windows && scratch.windows[r.value] == Window(m.frameCap, m.Pages(), perms)
                && occupied[free] && entries[free].value.scratch == r.value && policy.uses == old(policy.uses) + [free]
      ensures forall i | 0 <= i < POOL_SLOTS && i != free :: entries[i] == old(entries[i])
      ensures r.Err? ==> entries[free].None? && r.error == ResourceFailed
      ensures r.Ok? ==> entries[free].value.frameCap == m.frameCap && entries[free].value.pages == m.Pages()
    {
      hide Covers, LastUse, MemoryMap.Pages;
      ghost var windows0, before := scratch.windows, entries[..];
      var window := scratch.MapScratch(frames, m.frameCap, perms, m.Pages());
      if window.Err? {
        return Err(window.error);
      }
      var e := PoolEntry(m.vaddr, window.value, m.Pages(), m.frameCap, perms);
      CoversAdd(windows0, base, before, free, e);
      CoversHas(windows0[e.scratch := e.AsWindow()], base, before[free := Some(e)], free);
      entries[free] := Some(e);
      occupied[free] := true;
      assert entries[..] == before[free := Some(e)];
      policy.Touch(free);
      r := Ok(window.value);
    }

    /** `finish`: no window of the pool is left. */
    method ReleaseAll()
      requires Valid()
      modifies entries, occupied, scratch
      ensures Valid() && scratch.windows == base
    {
      for i := 0 to POOL_SLOTS
        invariant Valid() && forall j | 0 <= j < i :: !occupied[j]
      {
        if occupied[i] {
          UnmapSlot(i);
        }
      }
      CoversNothing(scratch.windows, base, entries[..]);
    }
  }
}
