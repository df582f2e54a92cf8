/** Clearing a page range: what munmap and MAP_FIXED take away, page by page. */
module Ranges {
  import opened Types
  import opened AddressSpace
  import opened Machine
  import opened Views
  import opened World

  predicate Goes(m: MemoryMap, k: nat, lo: nat, hi: nat) {
    lo <= k < hi && IsRemappable(m.memType)
  }

  /** The resident table without the remappable maps that start in `[lo, hi)`. */
  function Without(maps: Maps, lo: nat, hi: nat): Maps {
    map k | k in maps && !Goes(maps[k], k, lo, hi) :: maps[k]
  }

  function WithoutLazy(lazy: Maps, lo: nat, hi: nat): Maps {
    map l | l in lazy && !(lo <= l < hi) :: lazy[l]
  }

  function ClearedSpace(mm: MmState, lo: nat, hi: nat): MmState {
    mm.(maps := Without(mm.maps, lo, hi), lazy := WithoutLazy(mm.lazy, lo, hi))
  }

  lemma ClearedNothing(mm: MmState, lo: nat)
    ensures ClearedSpace(mm, lo, lo) == mm
  {
    assert Without(mm.maps, lo, lo) == mm.maps;
    assert WithoutLazy(mm.lazy, lo, lo) == mm.lazy;
  }

  lemma OneMorePage(k: nat, lo: nat, page: nat)
    requires k % PGSIZE == 0 && page % PGSIZE == 0 && lo <= page
    ensures lo <= k < page + PGSIZE <==> lo <= k < page || k == page
  {
  }

  lemma WithoutNext(maps: Maps, lo: nat, page: nat)
    requires MapsOk(maps) && lo <= page && page % PGSIZE == 0
    ensures page in Without(maps, lo, page) <==> page in maps
    ensures Without(maps, lo, page + PGSIZE) ==
              if page in maps && IsRemappable(maps[page].memType)
              then Remove(Without(maps, lo, page), page) else Without(maps, lo, page)
  {
    forall k | k in maps
      ensures lo <= k < page + PGSIZE <==> lo <= k < page || k == page
    {
      OneMorePage(k, lo, page);
    }
  }

  lemma WithoutLazyNext(lazy: Maps, lo: nat, page: nat)
    requires LazyOk(lazy) && lo <= page && page % PGSIZE == 0
    ensures WithoutLazy(lazy, lo, page + PGSIZE) == Remove(WithoutLazy(lazy, lo, page), page)
  {
    forall l | l in lazy
      ensures lo <= l < page + PGSIZE <==> lo <= l < page || l == page
    {
      OneMorePage(l, lo, page);
    }
  }

  /** One more page: its lazy entry and a remappable map starting there go too. */
  lemma ClearedNext(mm: MmState, lo: nat, page: nat)
    requires SpaceOk(mm) && lo <= page && page % PGSIZE == 0
    ensures ClearedSpace(mm, lo, page + PGSIZE) == PageCleared(ClearedSpace(mm, lo, page), page)
  {
    WithoutNext(mm.maps, lo, page);
    WithoutLazyNext(mm.lazy, lo, page);
    hide MapsOk, LazyOk, SpaceOk, Remove;
    assert page in mm.maps ==> Without(mm.maps, lo, page)[page] == mm.maps[page];
  }

  function PageCleared(mm: MmState, page: nat): MmState {
    mm.(lazy := Remove(mm.lazy, page),
        maps := if page in mm.maps && IsRemappable(mm.maps[page].memType)
                then Remove(mm.maps, page) else mm.maps)
  }

  /** No remappable map crosses an end of `[lo, hi)`: what splitting establishes. */
  ghost predicate NoStraddle(maps: Maps, lo: nat, hi: nat) {
    forall k | k in maps && IsRemappable(maps[k].memType) && HasOverlap(lo, hi, k, maps[k].size) ::
      lo <= k && maps[k].End() <= hi
  }

  /** The page `v` is one that munmap removes. */
  predicate Removable(v: Option<PageView>) {
    v.Some? && (v.value.OnDemand? || IsRemappable(v.value.memType))
  }

  /** Every removable page of `[lo, hi)` is gone and every other page is what it was. */
  ghost predicate Cleared(w: World, w': World, pid: Pid, lo: nat, hi: nat) {
    && pid in w.procs && pid in w'.procs
    && forall a: nat | a % PGSIZE == 0 ::
         PageAt(w'.frames, w'.procs[pid], a) ==
           if lo <= a < hi && Removable(PageAt(w.frames, w.procs[pid], a))
           then None else PageAt(w.frames, w.procs[pid], a)
  }

  lemma SubMapsOk(maps: Maps, maps': Maps)
    requires MapsOk(maps)
    requires forall k | k in maps' :: k in maps && maps'[k] == maps[k]
    ensures MapsOk(maps')
  {
  }

  lemma WithoutLookup(maps: Maps, lo: nat, hi: nat, a: nat)
    requires MapsOk(maps) && NoStraddle(maps, lo, hi)
    ensures MapsOk(Without(maps, lo, hi))
    ensures var m := Lookup(maps, a);
            Lookup(Without(maps, lo, hi), a) ==
              if lo <= a < hi && m.Some? && IsRemappable(m.value.memType) then None else m
  {
    var maps' := Without(maps, lo, hi);
    SubMapsOk(maps, maps');
    LookupExact(maps, a);
    LookupExact(maps', a);
    var m := Lookup(maps, a);
    if m.Some? {
      var k := m.value.vaddr;
      assert k in maps' <==> !Goes(m.value, k, lo, hi);
      assert k in maps' ==> maps'[k].Covers(a);
    }
  }

  lemma ClearedView(w: World, w': World, pid: Pid, lo: nat, hi: nat)
    requires pid in w.procs && pid in w'.procs
    requires SpaceOk(w.procs[pid]) && NoStraddle(w.procs[pid].maps, lo, hi)
    requires w'.procs[pid] == ClearedSpace(w.procs[pid], lo, hi)
    requires AgreeOn(w.frames, w'.frames, w'.procs[pid].maps)
    ensures Cleared(w, w', pid, lo, hi)
  {
    var mm := w.procs[pid];
    forall a: nat | a % PGSIZE == 0
      ensures PageAt(w'.frames, w'.procs[pid], a) ==
                if lo <= a < hi && Removable(PageAt(w.frames, mm, a)) then None else PageAt(w.frames, mm, a)
    {
      ClearedPage(w, w', pid, lo, hi, a);
    }
  }

  lemma ClearedPage(w: World, w': World, pid: Pid, lo: nat, hi: nat, a: nat)
    requires pid in w.procs && pid in w'.procs
    requires SpaceOk(w.procs[pid]) && NoStraddle(w.procs[pid].maps, lo, hi)
    requires w'.procs[pid] == ClearedSpace(w.procs[pid], lo, hi)
    requires AgreeOn(w.frames, w'.frames, w'.procs[pid].maps)
    requires a % PGSIZE == 0
    ensures PageAt(w'.frames, w'.procs[pid], a) ==
              if lo <= a < hi && Removable(PageAt(w.frames, w.procs[pid], a))
              then None else PageAt(w.frames, w.procs[pid], a)
  {
    hide SpaceOk, MapsOk, LazyOk, Apart, StackOk, NoStraddle, Lookup, Without;
    var mm := w.procs[pid];
    SpaceParts(mm);
    LookupExact(mm.maps, a);
    WithoutLookup(mm.maps, lo, hi, a);
    LookupExact(Without(mm.maps, lo, hi), a);
    CoveredIsNotLazy(mm, a);
    LazyIsRemappable(mm, a);
  }

  lemma LazyIsRemappable(mm: MmState, a: nat)
    requires LazyOk(mm.lazy)
    ensures a in mm.lazy ==> IsRemappable(mm.lazy[a].memType)
  {
  }

  lemma CoveredIsNotLazy(mm: MmState, a: nat)
    requires SpaceOk(mm)
    ensures Lookup(mm.maps, a).Some? ==> a !in mm.lazy
  {
    LookupExact(mm.maps, a);
  }

  lemma AgreeOnTransitive(frames: Frames, frames1: Frames, frames2: Frames, maps1: Maps, maps2: Maps)
    requires AgreeOn(frames, frames1, maps1) && AgreeOn(frames1, frames2, maps2)
    requires forall k | k in maps2 :: k in maps1 && maps2[k] == maps1[k]
    ensures AgreeOn(frames, frames2, maps2)
  {
  }

  lemma SameThenCleared(w: World, w1: World, w2: World, pid: Pid, lo: nat, hi: nat)
    requires pid in w.procs && pid in w1.procs && SameView(w.frames, w.procs[pid], w1.frames, w1.procs[pid])
    requires Cleared(w1, w2, pid, lo, hi)
    ensures Cleared(w, w2, pid, lo, hi)
  {
    hide PageAt;
  }
}
