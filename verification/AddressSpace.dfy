/** The bookkeeping of one process's address space: the resident and lazy tables, the
    stack window, the heap and the mmap area. */
module AddressSpace {
  import opened Types

  datatype MmState = MmState(
    maps: Maps,
    lazy: Maps,
    stackBottom: nat,
    stackSize: nat,
    maxStackSize: nat,
    heapStart: nat,
    heapBrk: nat,
    heapLimit: nat,
    mmapBase: nat,
    mmapNext: nat,
    mmapLimit: nat)
  {
    function StackLow(): nat { SatSub(stackBottom, maxStackSize) }

    function StackBoundary(): nat { SatSub(stackBottom, stackSize) }
  }

  // ----- Invariants -----

  ghost predicate MapsOk(maps: Maps) {
    && (forall k | k in maps ::
          && maps[k].vaddr == k && k % PGSIZE == 0
          && maps[k].size > 0 && maps[k].size % PGSIZE == 0
          && maps[k].frameCap != 0
          && (maps[k].size > PGSIZE ==> IsRemappable(maps[k].memType)))
    && (forall j, k | j in maps && k in maps && j < k :: maps[j].End() <= k)
    && (forall j, k | j in maps && k in maps && j != k :: maps[j].frameCap != maps[k].frameCap)
  }

  ghost predicate LazyOk(lazy: Maps) {
    forall l | l in lazy ::
      && lazy[l].vaddr == l && l % PGSIZE == 0
      && lazy[l].size == PGSIZE && lazy[l].frameCap == 0
      && IsRemappable(lazy[l].memType) && lazy[l].offset <= USIZE_MAX
  }

  ghost predicate Apart(maps: Maps, lazy: Maps) {
    forall k, l | k in maps && l in lazy :: l + PGSIZE <= k || maps[k].End() <= l
  }

  /** The Stack maps are exactly the pages of `[boundary, stackBottom)`, and nothing else
      lies in the window the stack may grow into. */
  ghost predicate StackOk(mm: MmState) {
    && mm.stackBottom % PGSIZE == 0 && mm.stackSize % PGSIZE == 0 && mm.maxStackSize % PGSIZE == 0
    && mm.StackLow() < mm.stackBottom
    && mm.stackSize <= mm.stackBottom - mm.StackLow()
    && (forall a | mm.StackBoundary() <= a < mm.stackBottom && a % PGSIZE == 0 ::
          a in mm.maps && mm.maps[a].memType == Stack)
    && (forall k | k in mm.maps ::
          if mm.maps[k].memType == Stack
          then mm.StackBoundary() <= k < mm.stackBottom
          else mm.maps[k].End() <= mm.StackLow() || mm.stackBottom <= k)
    && (forall l | l in mm.lazy :: l + PGSIZE <= mm.StackLow() || mm.stackBottom <= l)
  }

  ghost predicate SpaceOk(mm: MmState) {
    && MapsOk(mm.maps)
    && LazyOk(mm.lazy)
    && Apart(mm.maps, mm.lazy)
    && StackOk(mm)
    && mm.mmapBase % PGSIZE == 0 && mm.mmapNext % PGSIZE == 0
    && mm.mmapLimit <= USIZE_MAX
  }

  // ----- Lookup -----

  /** The greatest key at or below `a`: what `range(..=a).next_back()` yields. */
  function Predecessor(keys: set<nat>, a: nat): (r: Option<nat>)
    ensures r.Some? ==> r.value in keys && r.value <= a
    ensures r.Some? ==> forall k | k in keys && k <= a :: k <= r.value
    ensures r.None? ==> forall k | k in keys :: a < k
  {
    if a in keys then Some(a) else if a == 0 then None else Predecessor(keys, a - 1)
  }

  function Lookup(maps: Maps, a: nat): Option<MemoryMap> {
    var k := Predecessor(maps.Keys, a);
    if k.Some? && a < maps[k.value].vaddr + maps[k.value].size then Some(maps[k.value]) else None
  }

  /** The predecessor lookup is exact: it finds a map precisely when one covers the address. */
  lemma LookupExact(maps: Maps, a: nat)
    requires MapsOk(maps)
    ensures Lookup(maps, a).None? <==> forall k | k in maps :: !maps[k].Covers(a)
    ensures forall k | k in maps && maps[k].Covers(a) :: Lookup(maps, a) == Some(maps[k])
    ensures Lookup(maps, a).Some? ==>
              var m := Lookup(maps, a).value;
              m.vaddr in maps && maps[m.vaddr] == m && m.Covers(a)
  {
    var p := Predecessor(maps.Keys, a);
    forall k | k in maps && maps[k].Covers(a)
      ensures Lookup(maps, a) == Some(maps[k])
    {
      assert p.Some? && k <= p.value;
    }
  }

  // ----- Changing the tables -----

  ghost predicate MapShape(m: MemoryMap) {
    && m.vaddr % PGSIZE == 0
    && m.size > 0 && m.size % PGSIZE == 0
    && m.frameCap != 0
    && (m.size > PGSIZE ==> IsRemappable(m.memType))
  }

  /** No resident map meets `[start, end)`. */
  ghost predicate FreeOfMaps(maps: Maps, start: nat, end: nat) {
    forall k | k in maps :: maps[k].End() <= start || end <= k
  }

  ghost predicate FreeOfLazy(lazy: Maps, start: nat, end: nat) {
    forall l | l in lazy :: l + PGSIZE <= start || end <= l
  }

  ghost predicate OutsideStack(mm: MmState, start: nat, end: nat) {
    end <= mm.StackLow() || mm.stackBottom <= start
  }

  ghost predicate FrameUnheld(maps: Maps, slot: Slot) {
    forall k | k in maps :: maps[k].frameCap != slot
  }

  lemma SpaceParts(mm: MmState)
    requires SpaceOk(mm)
    ensures MapsOk(mm.maps) && LazyOk(mm.lazy) && Apart(mm.maps, mm.lazy) && StackOk(mm)
  {
  }

  lemma AddMapShapes(maps: Maps, m: MemoryMap)
    requires MapsOk(maps)
    requires MapShape(m) && FreeOfMaps(maps, m.vaddr, m.End()) && FrameUnheld(maps, m.frameCap)
    ensures m.vaddr !in maps
    ensures MapsOk(maps[m.vaddr := m])
  {
  }

  lemma AddMapLookup(maps: Maps, m: MemoryMap, a: nat)
    requires MapsOk(maps) && MapsOk(maps[m.vaddr := m]) && m.vaddr !in maps
    ensures Lookup(maps[m.vaddr := m], a) == if m.Covers(a) then Some(m) else Lookup(maps, a)
  {
    var maps' := maps[m.vaddr := m];
    LookupExact(maps, a);
    LookupExact(maps', a);
    assert maps'[m.vaddr] == m;
    if Lookup(maps, a).Some? {
      var k := Lookup(maps, a).value.vaddr;
      assert maps'[k] == maps[k];
    }
  }

  lemma AddMapOk(maps: Maps, m: MemoryMap)
    requires MapsOk(maps)
    requires MapShape(m) && FreeOfMaps(maps, m.vaddr, m.End()) && FrameUnheld(maps, m.frameCap)
    ensures m.vaddr !in maps
    ensures MapsOk(maps[m.vaddr := m])
    ensures forall a :: Lookup(maps[m.vaddr := m], a) == if m.Covers(a) then Some(m) else Lookup(maps, a)
  {
    AddMapShapes(maps, m);
    forall a
      ensures Lookup(maps[m.vaddr := m], a) == if m.Covers(a) then Some(m) else Lookup(maps, a)
    {
      AddMapLookup(maps, m, a);
    }
  }

  lemma DropMapOk(maps: Maps, k: nat)
    requires MapsOk(maps) && k in maps
    ensures MapsOk(Remove(maps, k))
    ensures FreeOfMaps(Remove(maps, k), k, maps[k].End())
    ensures FrameUnheld(Remove(maps, k), maps[k].frameCap)
    ensures forall a :: Lookup(Remove(maps, k), a) == if maps[k].Covers(a) then None else Lookup(maps, a)
  {
    var maps' := Remove(maps, k);
    forall a
      ensures Lookup(maps', a) == if maps[k].Covers(a) then None else Lookup(maps, a)
    {
      LookupExact(maps, a);
      LookupExact(maps', a);
      if Lookup(maps, a).Some? {
        var j := Lookup(maps, a).value.vaddr;
        assert j != k ==> maps'[j] == maps[j];
      }
    }
  }

  /** Replaces the entry at `k` by one over the same pages, as `get_mut` does. */
  lemma ReplaceMapOk(maps: Maps, k: nat, m: MemoryMap)
    requires MapsOk(maps) && k in maps
    requires m.vaddr == k && m.size == maps[k].size && m.memType == maps[k].memType
    requires m.frameCap != 0 && FrameUnheld(Remove(maps, k), m.frameCap)
    ensures MapsOk(maps[k := m])
    ensures forall a :: Lookup(maps[k := m], a) == if maps[k].Covers(a) then Some(m) else Lookup(maps, a)
  {
    DropMapOk(maps, k);
    AddMapOk(Remove(maps, k), m);
    assert Remove(maps, k)[k := m] == maps[k := m];
  }

  lemma SpaceAddMap(mm: MmState, m: MemoryMap)
    requires SpaceOk(mm)
    requires MapShape(m) && m.memType != Stack
    requires FreeOfMaps(mm.maps, m.vaddr, m.End()) && FrameUnheld(mm.maps, m.frameCap)
    requires FreeOfLazy(mm.lazy, m.vaddr, m.End()) && OutsideStack(mm, m.vaddr, m.End())
    ensures SpaceOk(mm.(maps := mm.maps[m.vaddr := m]))
  {
    hide MapsOk, LazyOk, Apart, FreeOfMaps, FreeOfLazy, FrameUnheld;
    AddMapShapes(mm.maps, m);
    AddMapApart(mm.maps, mm.lazy, m);
  }

  lemma SpaceDropMap(mm: MmState, k: nat)
    requires SpaceOk(mm)
    requires k in mm.maps && mm.maps[k].memType != Stack
    ensures SpaceOk(mm.(maps := Remove(mm.maps, k)))
  {
    DropMapOk(mm.maps, k);
  }

  lemma SpaceReplaceMap(mm: MmState, k: nat, m: MemoryMap)
    requires SpaceOk(mm) && k in mm.maps
    requires m.vaddr == k && m.size == mm.maps[k].size && m.memType == mm.maps[k].memType
    requires m.frameCap != 0 && FrameUnheld(Remove(mm.maps, k), m.frameCap)
    ensures SpaceOk(mm.(maps := mm.maps[k := m]))
  {
    ReplaceMapOk(mm.maps, k, m);
    StackReplaceMap(mm, k, m);
    assert Apart(mm.maps[k := m], mm.lazy);
  }

  lemma StackReplaceMap(mm: MmState, k: nat, m: MemoryMap)
    requires StackOk(mm) && k in mm.maps
    requires m.vaddr == mm.maps[k].vaddr && m.size == mm.maps[k].size && m.memType == mm.maps[k].memType
    ensures StackOk(mm.(maps := mm.maps[k := m]))
  {
    var mm' := mm.(maps := mm.maps[k := m]);
    assert forall j | j in mm'.maps ::
             mm'.maps[j].End() == mm.maps[j].End() && mm'.maps[j].memType == mm.maps[j].memType;
  }

  lemma GrowthRoom(mm: MmState, m: MemoryMap)
    requires SpaceOk(mm)
    requires MapShape(m) && m.memType == Stack
    requires mm.stackSize + PGSIZE <= mm.stackBottom - mm.StackLow()
    requires m.vaddr == mm.StackBoundary() - PGSIZE
    ensures m.size == PGSIZE && m.vaddr == mm.stackBottom - mm.stackSize - PGSIZE && mm.StackLow() <= m.vaddr
    ensures FreeOfMaps(mm.maps, m.vaddr, m.End()) && FreeOfLazy(mm.lazy, m.vaddr, m.End())
  {
    hide LazyOk, Apart;
    assert forall k | k in mm.maps && mm.maps[k].memType == Stack :: m.End() <= k;
  }

  lemma GrownStackOk(mm: MmState, m: MemoryMap)
    requires StackOk(mm) && m.memType == Stack && m.size == PGSIZE && m.vaddr % PGSIZE == 0
    requires m.vaddr == mm.stackBottom - mm.stackSize - PGSIZE && mm.StackLow() <= m.vaddr
    ensures StackOk(mm.(maps := mm.maps[m.vaddr := m], stackSize := mm.stackSize + PGSIZE))
  {
    forall a | m.vaddr <= a < mm.stackBottom && a % PGSIZE == 0
      ensures a == m.vaddr || mm.StackBoundary() <= a
    {
    }
  }

  lemma AddMapApart(maps: Maps, lazy: Maps, m: MemoryMap)
    requires Apart(maps, lazy) && FreeOfLazy(lazy, m.vaddr, m.End())
    ensures Apart(maps[m.vaddr := m], lazy)
  {
  }

  /** One page of stack growth: the page just below the boundary. */
  lemma SpaceGrowStack(mm: MmState, m: MemoryMap)
    requires SpaceOk(mm)
    requires MapShape(m) && m.memType == Stack
    requires mm.stackSize + PGSIZE <= mm.stackBottom - mm.StackLow()
    requires m.vaddr == mm.StackBoundary() - PGSIZE
    requires FrameUnheld(mm.maps, m.frameCap)
    ensures FreeOfMaps(mm.maps, m.vaddr, m.End())
    ensures SpaceOk(mm.(maps := mm.maps[m.vaddr := m], stackSize := mm.stackSize + PGSIZE))
  {
    hide MapsOk, LazyOk, Apart, StackOk, FreeOfMaps, FreeOfLazy, FrameUnheld;
    GrowthRoom(mm, m);
    AddMapShapes(mm.maps, m);
    AddMapApart(mm.maps, mm.lazy, m);
    GrownStackOk(mm, m);
  }

  lemma SpaceAddLazy(mm: MmState, m: MemoryMap)
    requires SpaceOk(mm)
    requires m.vaddr % PGSIZE == 0 && m.size == PGSIZE && m.frameCap == 0 && IsRemappable(m.memType)
    requires m.offset <= USIZE_MAX
    requires FreeOfMaps(mm.maps, m.vaddr, m.End()) && OutsideStack(mm, m.vaddr, m.End())
    ensures SpaceOk(mm.(lazy := mm.lazy[m.vaddr := m]))
  {
  }

  lemma SpaceDropLazy(mm: MmState, l: nat)
    requires SpaceOk(mm)
    ensures SpaceOk(mm.(lazy := Remove(mm.lazy, l)))
  {
  }
}
