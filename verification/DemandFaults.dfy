/** Demand faults: a page of stack, heap or lazy memory becomes resident, zero-filled. */
module DemandFaults {
  import opened Types
  import opened AddressSpace
  import opened Machine
  import opened Views
  import opened World
  import opened FreshMaps

  datatype FaultAction =
    | StackGrowth(currentLow: nat, pages: nat)
    | HeapLazy
    | LazyMmap(lazyMap: MemoryMap)
    | Unmanaged

  function ClassifyFault(mm: MmState, addr: nat, pageAddr: nat): FaultAction
    requires pageAddr <= addr
  {
    var lazyMap := Lookup(mm.lazy, addr);
    if lazyMap.Some? then LazyMmap(lazyMap.value)
    else if mm.StackLow() <= addr < mm.StackBoundary() then
      StackGrowth(mm.StackBoundary(), (mm.StackBoundary() - pageAddr) / PGSIZE)
    else if mm.heapStart <= addr < mm.heapBrk then HeapLazy
    else Unmanaged
  }

  function FaultMap(pageAddr: nat, perms: Perms, memType: MemoryType, slot: Slot): MemoryMap {
    MemoryMap(pageAddr, PGSIZE, perms, memType, false, slot, None, 0)
  }

  function ZeroView(perms: Perms, memType: MemoryType): PageView {
    Resident(ZeroPage(), perms, memType, None, 0)
  }

  /** `[lo, hi)` now shows `v`, and every other page what it showed before. */
  ghost predicate Filled(w: World, w': World, pid: Pid, lo: nat, hi: nat, v: PageView) {
    && pid in w.procs && pid in w'.procs
    && forall a: nat | a % PGSIZE == 0 ::
         PageAt(w'.frames, w'.procs[pid], a) ==
           if lo <= a < hi then Some(v) else PageAt(w.frames, w.procs[pid], a)
  }

  lemma FilledNothing(w: World, pid: Pid, lo: nat, v: PageView)
    requires pid in w.procs
    ensures Filled(w, w, pid, lo, lo, v)
  {
  }

  lemma FilledJoin(w: World, w1: World, w2: World, pid: Pid, lo: nat, mid: nat, hi: nat, v: PageView)
    requires lo <= mid <= hi
    requires
      || (Filled(w, w1, pid, mid, hi, v) && Filled(w1, w2, pid, lo, mid, v))
      || (Filled(w, w1, pid, lo, mid, v) && Filled(w1, w2, pid, mid, hi, v))
    ensures Filled(w, w2, pid, lo, hi, v)
  {
    hide PageAt;
  }

  lemma FilledThenSame(w: World, w1: World, w2: World, pid: Pid, lo: nat, hi: nat, v: PageView)
    requires Filled(w, w1, pid, lo, hi, v) && pid in w2.procs
    requires SameView(w1.frames, w1.procs[pid], w2.frames, w2.procs[pid])
    ensures Filled(w, w2, pid, lo, hi, v)
  {
    hide PageAt;
  }

  /** A page that no map covers lies apart from every map. */
  lemma UncoveredPageIsFree(maps: Maps, a: nat)
    requires MapsOk(maps) && Lookup(maps, a).None? && a % PGSIZE == 0
    ensures FreeOfMaps(maps, a, a + PGSIZE)
  {
    LookupExact(maps, a);
  }

  lemma DemandPageView(w: World, pid: Pid, m: MemoryMap, mm: MmState)
    requires CanAddFresh(w, pid, m, [ZeroPage()])
    requires m == FaultMap(m.vaddr, m.flags, m.memType, m.frameCap)
    requires mm.maps == w.procs[pid].maps[m.vaddr := m]
    requires mm.lazy == w.procs[pid].lazy || mm.lazy == Remove(w.procs[pid].lazy, m.vaddr)
    ensures Filled(w, WithSpace(WithFreshMap(w, pid, m, [ZeroPage()]), pid, mm), pid,
                   m.vaddr, m.vaddr + PGSIZE, ZeroView(m.flags, m.memType))
  {
    var w' := WithSpace(WithFreshMap(w, pid, m, [ZeroPage()]), pid, mm);
    hide PageAt;
    forall a: nat | a % PGSIZE == 0
      ensures PageAt(w'.frames, w'.procs[pid], a) ==
                if m.vaddr <= a < m.vaddr + PGSIZE then Some(ZeroView(m.flags, m.memType))
                else PageAt(w.frames, w.procs[pid], a)
    {
      OnePage(m.vaddr, a);
      FreshMapSpaceView(w, pid, m, [ZeroPage()], mm, a);
    }
  }

  lemma OnePage(addr: nat, a: nat)
    requires addr % PGSIZE == 0 && a % PGSIZE == 0
    ensures addr <= a < addr + PGSIZE ==> a == addr
  {
  }

  lemma CanAddDemand(w: World, owed: multiset<Slot>, pid: Pid, addr: nat, perms: Perms, memType: MemoryType, slot: Slot)
    requires Books(w, owed) && pid in w.procs && pid in w.running
    requires addr % PGSIZE == 0 && slot != 0 && slot !in w.frames
    requires FreeOfMaps(w.procs[pid].maps, addr, addr + PGSIZE)
    ensures CanAddFresh(w, pid, FaultMap(addr, perms, memType, slot), [ZeroPage()])
    ensures FrameUnheld(w.procs[pid].maps, slot) && SpaceOk(w.procs[pid]) && pid in w.hw
  {
    BooksParts(w, owed, pid);
    FreshUnheld(w.procs, w.frames, pid, slot);
  }

  // ----- The three kinds of demand page -----

  function GrownStack(mm: MmState, m: MemoryMap): MmState {
    mm.(maps := mm.maps[m.vaddr := m], stackSize := mm.stackSize + PGSIZE)
  }

  /** The page just below the boundary, when the window still has room. */
  lemma StackPageFree(mm: MmState)
    requires SpaceOk(mm) && mm.StackBoundary() >= mm.StackLow() + PGSIZE
    ensures FreeOfMaps(mm.maps, mm.StackBoundary() - PGSIZE, mm.StackBoundary())
    ensures (mm.StackBoundary() - PGSIZE) % PGSIZE == 0
    ensures mm.StackBoundary() == mm.stackBottom - mm.stackSize
  {
    hide MapsOk, LazyOk, Apart;
    assert mm.StackBoundary() == mm.stackBottom - mm.stackSize;
    forall k | k in mm.maps
      ensures mm.maps[k].End() <= mm.StackBoundary() - PGSIZE || mm.StackBoundary() <= k
    {
    }
  }

  lemma StackPageSpace(mm: MmState, m: MemoryMap)
    requires SpaceOk(mm) && mm.StackBoundary() >= mm.StackLow() + PGSIZE
    requires MapShape(m) && m.memType == Stack && m.vaddr == mm.StackBoundary() - PGSIZE
    requires FrameUnheld(mm.maps, m.frameCap)
    ensures SpaceOk(GrownStack(mm, m))
    ensures GrownStack(mm, m).StackBoundary() == mm.StackBoundary() - PGSIZE
    ensures GrownStack(mm, m).StackLow() == mm.StackLow()
  {
    SpaceGrowStack(mm, m);
  }

  /** A fault outside every map, lazy page and the stack window: the page is free. */
  lemma HeapPageSpace(mm: MmState, m: MemoryMap)
    requires SpaceOk(mm)
    requires MapShape(m) && m.size == PGSIZE && m.memType == Heap
    requires FreeOfMaps(mm.maps, m.vaddr, m.End()) && FrameUnheld(mm.maps, m.frameCap)
    requires Lookup(mm.lazy, m.vaddr).None? && OutsideStack(mm, m.vaddr, m.End())
    ensures SpaceOk(mm.(maps := mm.maps[m.vaddr := m]))
  {
    LazyLookup(mm, m.vaddr);
    SpaceAddMap(mm, m);
  }

  function Faulted(mm: MmState, m: MemoryMap): MmState {
    mm.(maps := mm.maps[m.vaddr := m], lazy := Remove(mm.lazy, m.vaddr))
  }

  lemma LazyPageFree(mm: MmState, addr: nat)
    requires SpaceOk(mm) && addr in mm.lazy
    ensures FreeOfMaps(mm.maps, addr, addr + PGSIZE) && addr % PGSIZE == 0 && OutsideStack(mm, addr, addr + PGSIZE)
  {
  }

  lemma LazyPageSpace(mm: MmState, m: MemoryMap)
    requires SpaceOk(mm) && m.vaddr in mm.lazy
    requires MapShape(m) && m.size == PGSIZE && m.memType == mm.lazy[m.vaddr].memType
    requires FrameUnheld(mm.maps, m.frameCap)
    ensures SpaceOk(Faulted(mm, m))
  {
    LazyPageFree(mm, m.vaddr);
    SpaceDropLazy(mm, m.vaddr);
    RestOfLazyFree(mm.lazy, m.vaddr);
    assert IsRemappable(m.memType);
    hide SpaceOk, LazyOk, MapShape, FreeOfMaps, FreeOfLazy, FrameUnheld;
    SpaceAddMap(mm.(lazy := Remove(mm.lazy, m.vaddr)), m);
  }

  lemma RestOfLazyFree(lazy: Maps, l: nat)
    requires LazyOk(lazy) && l in lazy
    ensures FreeOfLazy(Remove(lazy, l), l, l + PGSIZE)
  {
  }

  lemma LazyEntry(lazy: Maps, l: nat)
    requires LazyOk(lazy) && l in lazy
    ensures lazy[l].vaddr == l && l % PGSIZE == 0 && lazy[l].size == PGSIZE
  {
  }

  lemma SamePage(p: nat, addr: nat)
    requires p % PGSIZE == 0
    ensures AlignDown(addr) <= addr < AlignDown(addr) + PGSIZE
    ensures p <= addr < p + PGSIZE <==> p == AlignDown(addr)
  {
  }

  /** The lazy lookup of an address finds the page it lies in. */
  lemma LazyLookup(mm: MmState, addr: nat)
    requires SpaceOk(mm)
    ensures Lookup(mm.lazy, addr).Some? <==> AlignDown(addr) in mm.lazy
    ensures Lookup(mm.lazy, addr).Some? ==> Lookup(mm.lazy, addr).value == mm.lazy[AlignDown(addr)]
  {
    hide MapsOk, Apart, StackOk;
    var p := Predecessor(mm.lazy.Keys, addr);
    if p.Some? {
      LazyEntry(mm.lazy, p.value);
      SamePage(p.value, addr);
    }
    if AlignDown(addr) in mm.lazy {
      LazyEntry(mm.lazy, AlignDown(addr));
    }
  }

  lemma AddressFree(maps: Maps, a: nat)
    requires MapsOk(maps) && FreeOfMaps(maps, a, a + PGSIZE)
    ensures a !in maps
  {
  }

  // ----- Stack growth -----

  /** The stack now reaches down to `low`, its new pages zero-filled; nothing else changed. */
  ghost predicate GrewBy(w: World, w': World, pid: Pid, low: nat) {
    && pid in w.procs && pid in w'.procs
    && low <= w.procs[pid].StackBoundary()
    && w'.procs[pid].StackBoundary() == low
    && w'.procs[pid].StackLow() == w.procs[pid].StackLow()
    && w'.procs[pid].stackBottom == w.procs[pid].stackBottom
    && Filled(w, w', pid, low, w.procs[pid].StackBoundary(), ZeroView(READ_WRITE, Stack))
  }

  lemma GrewNothing(w: World, w': World, pid: Pid)
    requires pid in w.procs && w'.procs == w.procs
    requires SameView(w.frames, w.procs[pid], w'.frames, w'.procs[pid])
    ensures GrewBy(w, w', pid, w.procs[pid].StackBoundary())
  {
    hide PageAt;
  }

  lemma GrewParts(w: World, w': World, pid: Pid, low: nat)
    requires GrewBy(w, w', pid, low)
    ensures pid in w.procs && pid in w'.procs
    ensures w'.procs[pid].StackBoundary() == low
    ensures w'.procs[pid].StackLow() == w.procs[pid].StackLow() && w'.procs[pid].stackBottom == w.procs[pid].stackBottom
  {
  }

  lemma GrewJoin(w: World, w1: World, w2: World, pid: Pid, mid: nat, low: nat)
    requires GrewBy(w, w1, pid, mid) && GrewBy(w1, w2, pid, low)
    ensures GrewBy(w, w2, pid, low)
  {
    FilledJoin(w, w1, w2, pid, low, mid, w.procs[pid].StackBoundary(), ZeroView(READ_WRITE, Stack));
  }

  lemma GrownStackStep(w: World, owed: multiset<Slot>, pid: Pid, m: MemoryMap)
    requires Books(w, owed) && pid in w.procs && pid in w.hw
    requires CanAddFresh(w, pid, m, [ZeroPage()])
    requires var w1 := WithFreshMap(w, pid, m, [ZeroPage()]); RefsOk(w1.procs, w1.frames, w1.refs, owed)
    requires m == FaultMap(m.vaddr, READ_WRITE, Stack, m.frameCap)
    requires FrameUnheld(w.procs[pid].maps, m.frameCap)
    requires w.procs[pid].StackBoundary() >= w.procs[pid].StackLow() + PGSIZE
    requires m.vaddr == w.procs[pid].StackBoundary() - PGSIZE
    ensures var w1 := WithFreshMap(w, pid, m, [ZeroPage()]);
            var mm := w1.procs[pid].(stackSize := w1.procs[pid].stackSize + PGSIZE);
            StepOk(w, owed, WithSpace(w1, pid, mm), owed, pid) && GrewBy(w, WithSpace(w1, pid, mm), pid, m.vaddr)
  {
    hide Books, SpaceOk, StepOk, CanAddFresh, RefsOk, MapShape, MapsOk, FreeOfMaps, FrameUnheld, FramesExist, Filled,
         OthersKept;
    var mm := w.procs[pid];
    BooksParts(w, owed, pid);
    CanAddParts(w, pid, m, [ZeroPage()]);
    StackPageSpace(mm, m);
    FreshMapStep(w, owed, pid, m, [ZeroPage()], GrownStack(mm, m));
    DemandPageView(w, pid, m, GrownStack(mm, m));
  }

  // ----- Heap and lazy pages -----

  lemma HeapStep(w: World, owed: multiset<Slot>, pid: Pid, m: MemoryMap)
    requires Books(w, owed) && pid in w.procs && pid in w.hw
    requires CanAddFresh(w, pid, m, [ZeroPage()])
    requires var w1 := WithFreshMap(w, pid, m, [ZeroPage()]); RefsOk(w1.procs, w1.frames, w1.refs, owed)
    requires m == FaultMap(m.vaddr, m.flags, Heap, m.frameCap)
    requires FrameUnheld(w.procs[pid].maps, m.frameCap)
    requires Lookup(w.procs[pid].lazy, m.vaddr).None? && OutsideStack(w.procs[pid], m.vaddr, m.End())
    ensures var w1 := WithFreshMap(w, pid, m, [ZeroPage()]);
            StepOk(w, owed, w1, owed, pid)
            && Filled(w, w1, pid, m.vaddr, m.vaddr + PGSIZE, ZeroView(m.flags, Heap))
  {
    hide Books, SpaceOk, StepOk, CanAddFresh, RefsOk, MapShape, MapsOk, FreeOfMaps, FrameUnheld, FramesExist, Filled,
         OthersKept, OutsideStack;
    BooksParts(w, owed, pid);
    CanAddParts(w, pid, m, [ZeroPage()]);
    HeapPageSpace(w.procs[pid], m);
    var mm := w.procs[pid].(maps := w.procs[pid].maps[m.vaddr := m]);
    SameSpace(WithFreshMap(w, pid, m, [ZeroPage()]), pid);
    FreshMapStep(w, owed, pid, m, [ZeroPage()], mm);
    DemandPageView(w, pid, m, mm);
  }

  lemma SameSpace(w: World, pid: Pid)
    requires pid in w.procs
    ensures WithSpace(w, pid, w.procs[pid]) == w
  {
    UpdateTwice(w.procs, pid, w.procs[pid], w.procs[pid]);
  }

  lemma WithSpaceTwice(w: World, pid: Pid, mm: MmState, mm': MmState)
    requires pid in w.procs
    ensures WithSpace(WithSpace(w, pid, mm), pid, mm') == WithSpace(w, pid, mm')
  {
    UpdateTwice(w.procs, pid, mm, mm');
  }

  /** `w0` is the world before, `w` the one with the lazy entry already removed. */
  lemma LazyStep(w0: World, owed: multiset<Slot>, pid: Pid, w: World, m: MemoryMap)
    requires Books(w0, owed) && pid in w0.procs && pid in w0.hw && m.vaddr in w0.procs[pid].lazy
    requires w == WithSpace(w0, pid, w0.procs[pid].(lazy := Remove(w0.procs[pid].lazy, m.vaddr)))
    requires CanAddFresh(w0, pid, m, [ZeroPage()])
    requires var w1 := WithFreshMap(w, pid, m, [ZeroPage()]); RefsOk(w1.procs, w1.frames, w1.refs, owed)
    requires var l := w0.procs[pid].lazy[m.vaddr]; m == FaultMap(m.vaddr, l.flags, l.memType, m.frameCap)
    requires FrameUnheld(w0.procs[pid].maps, m.frameCap)
    ensures var w1 := WithFreshMap(w, pid, m, [ZeroPage()]);
            StepOk(w0, owed, w1, owed, pid)
            && Filled(w0, w1, pid, m.vaddr, m.vaddr + PGSIZE, ZeroView(m.flags, m.memType))
  {
    hide Books, SpaceOk, StepOk, CanAddFresh, RefsOk, MapShape, MapsOk, FreeOfMaps, FrameUnheld, FramesExist, Filled,
         OthersKept, Mapped;
    BooksParts(w0, owed, pid);
    CanAddParts(w0, pid, m, [ZeroPage()]);
    LazyPageSpace(w0.procs[pid], m);
    var mm := Faulted(w0.procs[pid], m);
    var w1 := WithFreshMap(w, pid, m, [ZeroPage()]);
    LazyWorlds(w0, pid, m);
    RefsWithSpace(w1, owed, pid, WithFreshMap(w0, pid, m, [ZeroPage()]).procs[pid]);
    FreshMapStep(w0, owed, pid, m, [ZeroPage()], mm);
    DemandPageView(w0, pid, m, mm);
  }

  lemma LazyWorlds(w0: World, pid: Pid, m: MemoryMap)
    requires pid in w0.procs && pid in w0.hw
    ensures var w := WithSpace(w0, pid, w0.procs[pid].(lazy := Remove(w0.procs[pid].lazy, m.vaddr)));
            var w1 := WithFreshMap(w, pid, m, [ZeroPage()]);
            var v1 := WithFreshMap(w0, pid, m, [ZeroPage()]);
            && w1 == WithSpace(v1, pid, Faulted(w0.procs[pid], m))
            && v1 == WithSpace(w1, pid, v1.procs[pid])
  {
  }
}
