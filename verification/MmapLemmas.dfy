/** Filling a free range with zeroed pages or with lazy entries. */
module MmapLemmas {
  import opened Types
  import opened AddressSpace
  import opened Machine
  import opened Views
  import opened World
  import opened FreshMaps
  import opened DemandFaults
  import opened DropMaps
  import opened Ranges
  import opened Splitting
  import opened SplitCalls

  /** Nothing lies in the range: no map, no lazy page, no part of the stack window. */
  ghost predicate Vacant(mm: MmState, lo: nat, hi: nat) {
    FreeOfMaps(mm.maps, lo, hi) && FreeOfLazy(mm.lazy, lo, hi) && OutsideStack(mm, lo, hi)
  }

  lemma VacantShows(frames: Frames, mm: MmState, lo: nat, hi: nat, a: nat)
    requires SpaceOk(mm) && Vacant(mm, lo, hi) && lo <= a < hi
    ensures PageAt(frames, mm, a).None?
  {
    LookupExact(mm.maps, a);
  }

  // ----- Zeroed anonymous pages, one by one -----

  lemma AnonStep(w: World, owed: multiset<Slot>, pid: Pid, m: MemoryMap)
    requires Live(w, owed, pid)
    requires CanAddFresh(w, pid, m, [ZeroPage()])
    requires var w1 := WithFreshMap(w, pid, m, [ZeroPage()]); RefsOk(w1.procs, w1.frames, w1.refs, owed)
    requires m == FaultMap(m.vaddr, m.flags, Anonymous, m.frameCap)
    requires FrameUnheld(w.procs[pid].maps, m.frameCap) && Vacant(w.procs[pid], m.vaddr, m.End())
    ensures var w1 := WithFreshMap(w, pid, m, [ZeroPage()]);
            && StepOk(w, owed, w1, owed, pid)
            && w1.procs[pid] == w.procs[pid].(maps := w.procs[pid].maps[m.vaddr := m])
            && Filled(w, w1, pid, m.vaddr, m.vaddr + PGSIZE, ZeroView(m.flags, Anonymous))
  {
    hide Books, SpaceOk, StepOk, CanAddFresh, RefsOk, MapShape, MapsOk, FreeOfMaps, FrameUnheld, FramesExist, Filled,
         OthersKept, OutsideStack, FreeOfLazy;
    BooksParts(w, owed, pid);
    CanAddParts(w, pid, m, [ZeroPage()]);
    SpaceAddMap(w.procs[pid], m);
    var mm := w.procs[pid].(maps := w.procs[pid].maps[m.vaddr := m]);
    SameSpace(WithFreshMap(w, pid, m, [ZeroPage()]), pid);
    FreshMapStep(w, owed, pid, m, [ZeroPage()], mm);
    DemandPageView(w, pid, m, mm);
  }

  /** `[lo, page)` of the vacant range `[lo, hi)` holds zeroed anonymous pages by now. */
  ghost predicate Eager(w: World, o: multiset<Slot>, s: World, pid: Pid, lo: nat, page: nat, hi: nat, perms: Perms) {
    && Live(w, o, pid) && Live(s, o, pid) && StepOk(w, o, s, o, pid)
    && lo <= page <= hi && lo % PGSIZE == 0 && page % PGSIZE == 0 && hi % PGSIZE == 0
    && Filled(w, s, pid, lo, page, ZeroView(perms, Anonymous))
    && s.procs[pid] == w.procs[pid].(maps := s.procs[pid].maps)
    && Vacant(w.procs[pid], lo, hi) && Vacant(s.procs[pid], page, hi)
    && EagerMaps(s.procs[pid].maps, lo, page)
  }

  ghost predicate EagerMaps(maps: Maps, lo: nat, page: nat) {
    forall a | lo <= a < page && a % PGSIZE == 0 :: a in maps && maps[a].memType == Anonymous && maps[a].size == PGSIZE
  }

  lemma EagerStart(w: World, o: multiset<Slot>, pid: Pid, lo: nat, hi: nat, perms: Perms)
    requires Live(w, o, pid) && lo <= hi && lo % PGSIZE == 0 && hi % PGSIZE == 0 && Vacant(w.procs[pid], lo, hi)
    ensures Eager(w, o, w, pid, lo, lo, hi, perms)
  {
    hide Live, StepOk, Vacant, PageAt, Books;
    LiveParts(w, o, pid);
    StepOkReflexive(w, o, pid);
    FilledNothing(w, pid, lo, ZeroView(perms, Anonymous));
  }

  lemma EagerParts(w: World, o: multiset<Slot>, s: World, pid: Pid, lo: nat, page: nat, hi: nat, perms: Perms)
    requires Eager(w, o, s, pid, lo, page, hi, perms)
    ensures Live(s, o, pid) && pid in w.procs && pid in s.procs && StepOk(w, o, s, o, pid)
    ensures Filled(w, s, pid, lo, page, ZeroView(perms, Anonymous))
    ensures s.procs[pid] == w.procs[pid].(maps := s.procs[pid].maps)
    ensures Vacant(s.procs[pid], page, hi)
  {
  }

  lemma VacantPage(mm: MmState, page: nat, hi: nat)
    requires SpaceOk(mm) && Vacant(mm, page, hi) && page % PGSIZE == 0 && hi % PGSIZE == 0 && page < hi
    ensures page !in mm.maps && FreeOfMaps(mm.maps, page, page + PGSIZE) && Vacant(mm, page, page + PGSIZE)
  {
    assert page + PGSIZE <= hi;
    AddressFree(mm.maps, page);
  }

  lemma VacantRest(mm: MmState, m: MemoryMap, page: nat, hi: nat)
    requires Vacant(mm, page, hi) && m.vaddr == page && m.size == PGSIZE
    ensures Vacant(mm.(maps := mm.maps[page := m]), page + PGSIZE, hi)
  {
  }

  lemma EagerNext(w: World, o: multiset<Slot>, s: World, pid: Pid, lo: nat, page: nat, hi: nat, perms: Perms,
                  slot: Slot)
    requires Eager(w, o, s, pid, lo, page, hi, perms) && page < hi
    requires slot !in s.frames && slot != 0 && pid in s.procs && pid in s.hw
    requires var s1 := WithFreshMap(s, pid, FaultMap(page, perms, Anonymous, slot), [ZeroPage()]);
             RefsOk(s1.procs, s1.frames, s1.refs, o)
    ensures Eager(w, o, WithFreshMap(s, pid, FaultMap(page, perms, Anonymous, slot), [ZeroPage()]), pid, lo,
                  page + PGSIZE, hi, perms)
  {
    hide Live, Books, SpaceOk, StepOk, CanAddFresh, RefsOk, MapShape, MapsOk, FreeOfMaps, FrameUnheld, FramesExist,
         Filled, OthersKept, Vacant, EagerMaps, Mapped;
    var m := FaultMap(page, perms, Anonymous, slot);
    var s1 := WithFreshMap(s, pid, m, [ZeroPage()]);
    LiveParts(s, o, pid);
    VacantPage(s.procs[pid], page, hi);
    CanAddDemand(s, o, pid, page, perms, Anonymous, slot);
    AnonStep(s, o, pid, m);
    StepOkParts(s, o, s1, o, pid);
    MakeLive(s1, o, pid);
    StepOkTransitive(w, o, s, o, s1, o, pid);
    FilledJoin(w, s, s1, pid, lo, page, page + PGSIZE, ZeroView(perms, Anonymous));
    VacantRest(s.procs[pid], m, page, hi);
    EagerMapsNext(s.procs[pid].maps, m, lo, page);
    PageStep(page, hi);
  }

  lemma PageStep(page: nat, hi: nat)
    requires page < hi && page % PGSIZE == 0 && hi % PGSIZE == 0
    ensures page + PGSIZE <= hi && (page + PGSIZE) % PGSIZE == 0
  {
  }

  lemma EagerMapsNext(maps: Maps, m: MemoryMap, lo: nat, page: nat)
    requires EagerMaps(maps, lo, page) && m.memType == Anonymous && m.size == PGSIZE && page % PGSIZE == 0
    ensures EagerMaps(maps[page := m], lo, page + PGSIZE)
  {
    forall a | lo <= a < page + PGSIZE && a % PGSIZE == 0
      ensures a in maps[page := m] && maps[page := m][a].memType == Anonymous && maps[page := m][a].size == PGSIZE
    {
      OneMorePage(a, a, page);
      if a != page {
        assert a < page;
      }
    }
  }

  // ----- Rolling back -----

  lemma DroppedView(w: World, o: multiset<Slot>, pid: Pid, k: nat, a: nat)
    requires Live(w, o, pid) && k in w.procs[pid].maps && a % PGSIZE == 0
    ensures var w' := Dropped(w, pid, k);
            pid in w'.procs &&
            PageAt(w'.frames, w'.procs[pid], a) ==
              if w.procs[pid].maps[k].Covers(a) then None else PageAt(w.frames, w.procs[pid], a)
  {
    hide RefsOk, SpaceOk, PageAt, Books, Released, FramesAfterRelease, Unmapped;
    LiveParts(w, o, pid);
    DroppedPage(w, o, pid, k, a);
  }

  lemma DroppedPage(w: World, o: multiset<Slot>, pid: Pid, k: nat, a: nat)
    requires Books(w, o) && pid in w.procs && pid in w.hw && k in w.procs[pid].maps && a % PGSIZE == 0
    ensures var w' := Dropped(w, pid, k);
            pid in w'.procs &&
            PageAt(w'.frames, w'.procs[pid], a) ==
              if w.procs[pid].maps[k].Covers(a) then None else PageAt(w.frames, w.procs[pid], a)
  {
    hide RefsOk, Books, Released, FramesAfterRelease, Unmapped, Lookup, StackOk, LazyOk;
    var w' := Dropped(w, pid, k);
    var mm := w.procs[pid];
    BooksParts(w, o, pid);
    DropOthers(w, o, pid, k);
    PageAtDropMap(w'.frames, mm, k, a);
    LookupExact(mm.maps, a);
    CoveredIsNotLazy(mm, a);
    if Lookup(mm.maps, a).Some? && !mm.maps[k].Covers(a) {
      var j := Lookup(mm.maps, a).value.vaddr;
      assert j in Remove(mm.maps, k);
    }
  }

  lemma EagerBack(w: World, o: multiset<Slot>, s: World, pid: Pid, lo: nat, page: nat, hi: nat, perms: Perms)
    requires Eager(w, o, s, pid, lo, page + PGSIZE, hi, perms) && lo <= page && pid in s.procs && pid in s.hw
    ensures page in s.procs[pid].maps && s.procs[pid].maps[page].memType == Anonymous
    ensures Eager(w, o, Dropped(s, pid, page), pid, lo, page, hi, perms)
  {
    hide Live, Books, SpaceOk, StepOk, RefsOk, MapsOk, FramesExist, Filled, OthersKept, Dropped, Vacant, AgreeOn;
    assert (page + PGSIZE) % PGSIZE == 0 && page % PGSIZE == 0;
    var s1 := Dropped(s, pid, page);
    LiveParts(s, o, pid);
    LiveParts(w, o, pid);
    SpaceMapsOk(s.procs[pid]);
    MapParts(s.procs[pid].maps, page);
    DropStep(s, o, pid, page);
    StepOkParts(s, o, s1, o, pid);
    MakeLive(s1, o, pid);
    StepOkTransitive(w, o, s, o, s1, o, pid);
    VacantStack(w.procs[pid], s.procs[pid], lo, page, hi);
    VacantBack(s.procs[pid], page, hi);
    EagerBackView(w, o, s, pid, lo, page, hi, perms);
  }

  lemma VacantStack(mm: MmState, mm': MmState, lo: nat, page: nat, hi: nat)
    requires Vacant(mm, lo, hi) && lo <= page && mm' == mm.(maps := mm'.maps)
    ensures OutsideStack(mm', page, hi)
  {
  }

  lemma VacantBack(mm: MmState, page: nat, hi: nat)
    requires SpaceOk(mm) && page in mm.maps && mm.maps[page].size == PGSIZE && mm.maps[page].memType == Anonymous
    requires Vacant(mm, page + PGSIZE, hi) && OutsideStack(mm, page, hi)
    ensures Vacant(mm.(maps := Remove(mm.maps, page)), page, hi)
  {
  }

  lemma EagerBackView(w: World, o: multiset<Slot>, s: World, pid: Pid, lo: nat, page: nat, hi: nat, perms: Perms)
    requires Eager(w, o, s, pid, lo, page + PGSIZE, hi, perms) && lo <= page && page % PGSIZE == 0
    requires pid in s.hw && page in s.procs[pid].maps
    ensures Filled(w, Dropped(s, pid, page), pid, lo, page, ZeroView(perms, Anonymous))
  {
    hide Live, Books, SpaceOk, StepOk, RefsOk, MapsOk, FramesExist, OthersKept, Dropped, Vacant, AgreeOn, PageAt;
    var s1 := Dropped(s, pid, page);
    LiveParts(s, o, pid);
    LiveParts(w, o, pid);
    SpaceMapsOk(s.procs[pid]);
    MapParts(s.procs[pid].maps, page);
    DropStep0(s, o, pid, page);
    forall a: nat | a % PGSIZE == 0
      ensures PageAt(s1.frames, s1.procs[pid], a) ==
                if lo <= a < page then Some(ZeroView(perms, Anonymous)) else PageAt(w.frames, w.procs[pid], a)
    {
      DroppedView(s, o, pid, page, a);
      OnePage(page, a);
      if a == page {
        VacantShows(w.frames, w.procs[pid], lo, hi, a);
      }
    }
  }

  lemma DropStep0(w: World, o: multiset<Slot>, pid: Pid, k: nat)
    requires Live(w, o, pid) && k in w.procs[pid].maps
    ensures pid in Dropped(w, pid, k).procs
  {
  }

  // ----- Lazy pages -----

  /** What a range of lazy pages stands for: zeroed memory, or a file from an offset on. */
  datatype LazyKind = AnonLazy(flags: Perms) | FileLazy(flags: Perms, fd: nat, start: nat, offset: nat)

  function LazyMapAt(kind: LazyKind, a: nat): MemoryMap {
    match kind
    case AnonLazy(flags) => MemoryMap(a, PGSIZE, flags, Anonymous, false, 0, None, 0)
    case FileLazy(flags, fd, start, offset) =>
      MemoryMap(a, PGSIZE, flags, FileBacked, false, 0, Some(fd), offset + SatSub(a, start))
  }

  /** `[lo, hi)` now waits for its first touch; every other page is what it was. */
  ghost predicate FilledLazy(w: World, w': World, pid: Pid, lo: nat, hi: nat, kind: LazyKind) {
    && pid in w.procs && pid in w'.procs
    && forall a: nat | a % PGSIZE == 0 ::
         PageAt(w'.frames, w'.procs[pid], a) ==
           if lo <= a < hi then Some(LazyPage(LazyMapAt(kind, a))) else PageAt(w.frames, w.procs[pid], a)
  }

  ghost predicate Waiting(w: World, o: multiset<Slot>, s: World, pid: Pid, lo: nat, page: nat, hi: nat,
                          kind: LazyKind) {
    && Live(w, o, pid) && Live(s, o, pid) && StepOk(w, o, s, o, pid)
    && lo <= page <= hi && lo % PGSIZE == 0 && page % PGSIZE == 0 && hi % PGSIZE == 0
    && FilledLazy(w, s, pid, lo, page, kind)
    && s.procs[pid] == w.procs[pid].(lazy := s.procs[pid].lazy)
    && s.frames == w.frames
    && FreeOfMaps(w.procs[pid].maps, lo, hi) && OutsideStack(w.procs[pid], lo, hi)
  }

  lemma WaitingStart(w: World, o: multiset<Slot>, pid: Pid, lo: nat, hi: nat, kind: LazyKind)
    requires Live(w, o, pid) && lo <= hi && lo % PGSIZE == 0 && hi % PGSIZE == 0
    requires FreeOfMaps(w.procs[pid].maps, lo, hi) && OutsideStack(w.procs[pid], lo, hi)
    ensures Waiting(w, o, w, pid, lo, lo, hi, kind)
  {
    hide Live, StepOk, PageAt, Books, FreeOfMaps, OutsideStack;
    LiveParts(w, o, pid);
    StepOkReflexive(w, o, pid);
  }

  lemma WaitingParts(w: World, o: multiset<Slot>, s: World, pid: Pid, lo: nat, page: nat, hi: nat, kind: LazyKind)
    requires Waiting(w, o, s, pid, lo, page, hi, kind)
    ensures Live(s, o, pid) && pid in w.procs && pid in s.procs && StepOk(w, o, s, o, pid)
    ensures FilledLazy(w, s, pid, lo, page, kind) && s.procs[pid] == w.procs[pid].(lazy := s.procs[pid].lazy)
    ensures page % PGSIZE == 0
  {
  }

  lemma WaitingNext(w: World, o: multiset<Slot>, s: World, pid: Pid, lo: nat, page: nat, hi: nat, kind: LazyKind)
    requires Waiting(w, o, s, pid, lo, page, hi, kind) && page < hi && pid in s.procs
    requires LazyMapAt(kind, page).offset <= USIZE_MAX
    ensures var mm := s.procs[pid];
            Waiting(w, o, WithSpace(s, pid, mm.(lazy := mm.lazy[page := LazyMapAt(kind, page)])), pid, lo,
                    page + PGSIZE, hi, kind)
  {
    hide Live, Books, SpaceOk, StepOk, RefsOk, MapsOk, OthersKept, FilledLazy;
    var m := LazyMapAt(kind, page);
    var mm := s.procs[pid].(lazy := s.procs[pid].lazy[page := m]);
    var s1 := WithSpace(s, pid, mm);
    PageStep(page, hi);
    LiveParts(s, o, pid);
    SpaceAddLazy(s.procs[pid], m);
    SameMapsStep(s, o, pid, mm);
    StepOkParts(s, o, s1, o, pid);
    MakeLive(s1, o, pid);
    StepOkTransitive(w, o, s, o, s1, o, pid);
    WaitingView(w, s, pid, lo, page, kind);
  }

  lemma WaitingView(w: World, s: World, pid: Pid, lo: nat, page: nat, kind: LazyKind)
    requires FilledLazy(w, s, pid, lo, page, kind) && SpaceOk(s.procs[pid]) && page % PGSIZE == 0 && lo <= page
    requires FreeOfMaps(s.procs[pid].maps, page, page + PGSIZE)
    ensures var mm := s.procs[pid];
            FilledLazy(w, WithSpace(s, pid, mm.(lazy := mm.lazy[page := LazyMapAt(kind, page)])), pid, lo,
                       page + PGSIZE, kind)
  {
    hide PageAt, FreeOfMaps;
    var mm := s.procs[pid];
    var m := LazyMapAt(kind, page);
    SpaceMapsOk(mm);
    forall a: nat | a % PGSIZE == 0
      ensures PageAt(s.frames, mm.(lazy := mm.lazy[page := m]), a) ==
                if lo <= a < page + PGSIZE then Some(LazyPage(LazyMapAt(kind, a)))
                else PageAt(w.frames, w.procs[pid], a)
    {
      PageAtAddLazy(s.frames, mm, m, a);
      OnePage(page, a);
    }
  }
}
