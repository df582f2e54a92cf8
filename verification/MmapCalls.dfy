/** mmap: fixed and first-fit placement, eager anonymous pages and lazy file pages. */
module MmapCalls {
  import opened Types
  import opened AddressSpace
  import opened Machine
  import opened Views
  import opened World
  import opened FreshMaps
  import opened DemandFaults
  import opened DropMaps
  import opened Ranges
  import opened Splitting
  import opened Manager
  import opened SplitCalls
  import opened ExposedPages
  import opened MemoryCalls
  import opened FreeRanges
  import opened MmapLemmas

  /** One zeroed page entered at `page`; nothing is lost when that fails. */
  method MapEagerPage(mgr: ApeManager, pid: Pid, page: nat, perms: Perms) returns (r: Result<()>, ghost slot: Slot)
    requires mgr.Counted() && mgr.s.hw.Keys == mgr.s.procs.Keys && pid in mgr.s.procs && page !in mgr.s.procs[pid].maps
    modifies mgr
    ensures mgr.Counted() && mgr.owed == old(mgr.owed)
    ensures r.Ok? ==>
              && slot !in old(mgr.s).frames && slot != 0
              && mgr.s == WithFreshMap(old(mgr.s), pid, FaultMap(page, perms, Anonymous, slot), [ZeroPage()])
    ensures r.Err? ==> Quiet(old(mgr.s), mgr.s, pid)
  {
    hide RefsOk, FramesExist, Quiet, Mapped, Unmapped, Plus, Minus, InHand, Released, FramesAfterRelease, Holds;
    ghost var w, o := mgr.s, mgr.owed;
    slot := 0;
    CountedFrames(w, o);
    var alloc := mgr.AllocFrame();
    if alloc.Err? {
      QuietFailure(w, pid, Above(w.frames.Keys), [], 0, 0);
      return Err(alloc.error), 0;
    }
    slot := alloc.value;
    PlusMinus(o, slot);
    QuietFailure(w, pid, slot, [ZeroPage()], page, 1);
    r := mgr.MapProcessFrame(pid, alloc.value, page, perms, 1);
    if r.Err? {
      GiveBack(mgr, pid, alloc.value, w, o);
    } else {
      FreshUnheld(w.procs, w.frames, pid, slot);
      mgr.AddMemoryMap(pid, FaultMap(page, perms, Anonymous, alloc.value));
    }
  }

  lemma EagerRefused(w: World, o: multiset<Slot>, s: World, s2: World, pid: Pid, lo: nat, page: nat, hi: nat,
                     perms: Perms)
    requires Eager(w, o, s, pid, lo, page, hi, perms) && Quiet(s, s2, pid)
    requires RefsOk(s2.procs, s2.frames, s2.refs, o)
    ensures Eager(w, o, s2, pid, lo, page, hi, perms)
  {
    hide Books, Live, StepOk, Filled, Vacant, EagerMaps, RefsOk, SpaceOk, SameView, Quiet;
    LiveParts(s, o, pid);
    LostPlus(o, 0);
    QuietStep(s, o, s2, o, pid);
    StepOkParts(s, o, s2, o, pid);
    MakeLive(s2, o, pid);
    StepOkTransitive(w, o, s, o, s2, o, pid);
    FilledThenSame(w, s, s2, pid, lo, page, ZeroView(perms, Anonymous));
  }

  /** Takes the pages back, last one first. */
  method RollBack(mgr: ApeManager, pid: Pid, start: nat, page: nat, ghost end: nat, perms: Perms, ghost w: World,
                  ghost o: multiset<Slot>)
    requires mgr.owed == o && Eager(w, o, mgr.s, pid, start, page, end, perms)
    modifies mgr
    ensures mgr.owed == o && Eager(w, o, mgr.s, pid, start, start, end, perms)
  {
    hide Eager, Books, Live, RefsOk, SpaceOk, MapsOk, Dropped, StepOk, Filled, Vacant;
    EagerAligned(w, o, mgr.s, pid, start, page, end, perms);
    var back := page;
    while back > start
      invariant start <= back && back % PGSIZE == 0
      invariant mgr.owed == o && Eager(w, o, mgr.s, pid, start, back, end, perms)
    {
      EagerParts(w, o, mgr.s, pid, start, back, end, perms);
      LiveParts(mgr.s, o, pid);
      SpaceMapsOk(mgr.s.procs[pid]);
      PageBefore(start, back);
      EagerBack(w, o, mgr.s, pid, start, back - PGSIZE, end, perms);
      back := back - PGSIZE;
      DropMap(mgr, pid, back);
    }
  }

  lemma PageBefore(lo: nat, page: nat)
    requires lo % PGSIZE == 0 && page % PGSIZE == 0 && lo < page
    ensures lo <= page - PGSIZE && (page - PGSIZE) % PGSIZE == 0
  {
  }

  lemma EagerAligned(w: World, o: multiset<Slot>, s: World, pid: Pid, lo: nat, page: nat, hi: nat, perms: Perms)
    requires Eager(w, o, s, pid, lo, page, hi, perms)
    ensures lo <= page <= hi && lo % PGSIZE == 0 && page % PGSIZE == 0 && hi % PGSIZE == 0
  {
  }

  /** `map_anonymous_range_eager`. A failure takes every page back, except when no capability
      slot is left: then the pages up to `stop` stay. */
  method MapAnonymousEager(mgr: ApeManager, pid: Pid, start: nat, end: nat, perms: Perms)
    returns (r: Result<()>, ghost stop: nat, ghost slotFailed: bool)
    requires Live(mgr.s, mgr.owed, pid) && start <= end && start % PGSIZE == 0 && end % PGSIZE == 0
    requires Vacant(mgr.s.procs[pid], start, end)
    modifies mgr
    ensures mgr.owed == old(mgr.owed) && start <= stop <= end
    ensures Eager(old(mgr.s), old(mgr.owed), mgr.s, pid, start, stop, end, perms)
    ensures r.Ok? ==> stop == end && KeepsExposed(old(mgr.s), mgr.s, pid, 0, 0)
    ensures r.Err? && !slotFailed ==> stop == start
  {
    hide KeepsExposed, Live, Books, Eager, Vacant, SpaceOk, RefsOk, MapsOk, Quiet, CanAddFresh, FreeOfMaps, StepOk,
         Filled, FramesExist, WithFreshMap;
    ghost var w, o := mgr.s, mgr.owed;
    slotFailed := false;
    EagerStart(w, o, pid, start, end, perms);
    KeepsExposedSelf(w, pid, 0, 0);
    var page := start;
    while page < end
      invariant start <= page <= end && page % PGSIZE == 0
      invariant mgr.owed == o && Eager(w, o, mgr.s, pid, start, page, end, perms) && KeepsExposed(w, mgr.s, pid, 0, 0)
    {
      ghost var s1 := mgr.s;
      ghost var slot;
      EagerParts(w, o, s1, pid, start, page, end, perms);
      LiveParts(s1, o, pid);
      VacantPage(s1.procs[pid], page, end);
      BooksParts(s1, o, pid);
      var noSlot: bool := *;
      if noSlot {
        return Err(OutOfMemory), page, true;
      }
      r, slot := MapEagerPage(mgr, pid, page, perms);
      if r.Err? {
        EagerRefused(w, o, s1, mgr.s, pid, start, page, end, perms);
        RollBack(mgr, pid, start, page, end, perms, w, o);
        return r, start, false;
      }
      EagerNext(w, o, s1, pid, start, page, end, perms, slot);
      FreshKeepsExposed(s1, pid, FaultMap(page, perms, Anonymous, slot), ZeroPage());
      KeepsExposedThen(w, s1, mgr.s, pid, 0, 0, 0, 0);
      PageStep(page, end);
      page := page + PGSIZE;
    }
    r, stop := Ok(()), end;
  }

  /** Enters lazy pages; a file offset past the end of the offset range stops it. */
  method AddLazyRange(mgr: ApeManager, pid: Pid, start: nat, end: nat, kind: LazyKind)
    returns (r: Result<()>, ghost stop: nat)
    requires Live(mgr.s, mgr.owed, pid) && start <= end && start % PGSIZE == 0 && end % PGSIZE == 0
    requires FreeOfMaps(mgr.s.procs[pid].maps, start, end) && OutsideStack(mgr.s.procs[pid], start, end)
    modifies mgr`s
    ensures Waiting(old(mgr.s), mgr.owed, mgr.s, pid, start, stop, end, kind)
    ensures r.Ok? ==> stop == end && KeepsExposed(old(mgr.s), mgr.s, pid, 0, 0)
    ensures r.Err? <==> stop < end && kind.FileLazy? && kind.offset + SatSub(stop, kind.start) > USIZE_MAX
  {
    hide KeepsExposed, Live, Books, Waiting, SpaceOk, RefsOk, MapsOk, FreeOfMaps, OutsideStack, StepOk, FilledLazy;
    ghost var w, o := mgr.s, mgr.owed;
    WaitingStart(w, o, pid, start, end, kind);
    KeepsExposedSelf(w, pid, 0, 0);
    var page := start;
    while page < end
      invariant start <= page <= end && page % PGSIZE == 0
      invariant Waiting(w, o, mgr.s, pid, start, page, end, kind) && KeepsExposed(w, mgr.s, pid, 0, 0)
    {
      WaitingParts(w, o, mgr.s, pid, start, page, end, kind);
      LiveParts(mgr.s, o, pid);
      if kind.FileLazy? && CheckedAdd(kind.offset, SatSub(page, kind.start)).None? {
        return Err(OutOfMemory), page;
      }
      WaitingNext(w, o, mgr.s, pid, start, page, end, kind);
      var mm := mgr.s.procs[pid];
      ghost var s1 := mgr.s;
      SpaceKeepsExposed(s1, pid, mm.(lazy := mm.lazy[page := LazyMapAt(kind, page)]));
      mgr.s := WithSpace(mgr.s, pid, mm.(lazy := mm.lazy[page := LazyMapAt(kind, page)]));
      KeepsExposedThen(w, s1, mgr.s, pid, 0, 0, 0, 0);
      PageStep(page, end);
      page := page + PGSIZE;
    }
    r, stop := Ok(()), end;
  }

  // ----- mmap -----

  datatype Backing = Backing(fd: nat, offset: nat)

  /** The new mapping: zeroed anonymous pages, or lazy pages of the file from its offset on. */
  ghost predicate Placed(w: World, w': World, pid: Pid, lo: nat, hi: nat, perms: Perms, backing: Option<Backing>) {
    match backing
    case None => Filled(w, w', pid, lo, hi, ZeroView(perms, Anonymous))
    case Some(b) => FilledLazy(w, w', pid, lo, hi, FileLazy(perms, b.fd, lo, b.offset))
  }

  /** Nothing outside `[lo, hi)` changed. */
  ghost predicate OutsideKept(w: World, w': World, pid: Pid, lo: nat, hi: nat) {
    && pid in w.procs && pid in w'.procs
    && forall a: nat | a % PGSIZE == 0 && !(lo <= a < hi) ::
         PageAt(w'.frames, w'.procs[pid], a) == PageAt(w.frames, w.procs[pid], a)
  }

  lemma PlacedOutside(w: World, w': World, pid: Pid, lo: nat, stop: nat, hi: nat, perms: Perms,
                      backing: Option<Backing>)
    requires Placed(w, w', pid, lo, stop, perms, backing) && stop <= hi
    ensures OutsideKept(w, w', pid, lo, hi)
  {
    hide PageAt;
  }

  lemma PlacedSame(w: World, w1: World, w2: World, pid: Pid, lo: nat, hi: nat, perms: Perms, backing: Option<Backing>)
    requires Placed(w, w1, pid, lo, hi, perms, backing) && pid in w2.procs
    requires SameView(w1.frames, w1.procs[pid], w2.frames, w2.procs[pid])
    ensures Placed(w, w2, pid, lo, hi, perms, backing)
  {
    hide PageAt;
  }

  /** What filling a range has done when it ends, at `stop`. */
  ghost predicate FillDone(w: World, o: multiset<Slot>, s: World, pid: Pid, lo: nat, stop: nat, perms: Perms,
                           backing: Option<Backing>)
  {
    && Live(s, o, pid) && StepOk(w, o, s, o, pid) && pid in w.procs && pid in s.procs
    && Placed(w, s, pid, lo, stop, perms, backing)
    && s.procs[pid] == w.procs[pid].(maps := s.procs[pid].maps, lazy := s.procs[pid].lazy)
  }

  lemma EagerDone(w: World, o: multiset<Slot>, s: World, pid: Pid, lo: nat, stop: nat, hi: nat, perms: Perms)
    requires Eager(w, o, s, pid, lo, stop, hi, perms)
    ensures FillDone(w, o, s, pid, lo, stop, perms, None)
  {
    hide Books, StepOk, Filled, Vacant, EagerMaps;
  }

  lemma WaitingDone(w: World, o: multiset<Slot>, s: World, pid: Pid, lo: nat, stop: nat, hi: nat, perms: Perms,
                    b: Backing)
    requires Waiting(w, o, s, pid, lo, stop, hi, FileLazy(perms, b.fd, lo, b.offset))
    ensures FillDone(w, o, s, pid, lo, stop, perms, Some(b))
  {
    hide Books, StepOk, FilledLazy, FreeOfMaps, OutsideStack;
  }

  /** Fills a vacant range and moves the search hint past it. */
  method Place(mgr: ApeManager, pid: Pid, start: nat, end: nat, perms: Perms, backing: Option<Backing>)
    returns (r: Result<nat>, ghost stop: nat)
    requires Live(mgr.s, mgr.owed, pid) && start <= end && start % PGSIZE == 0 && end % PGSIZE == 0
    requires Vacant(mgr.s.procs[pid], start, end)
    modifies mgr
    ensures mgr.owed == old(mgr.owed) && start <= stop <= end
    ensures Live(mgr.s, mgr.owed, pid) && StepOk(old(mgr.s), old(mgr.owed), mgr.s, mgr.owed, pid)
    ensures Placed(old(mgr.s), mgr.s, pid, start, stop, perms, backing)
    ensures mgr.s.procs[pid].mmapNext ==
              if r.Ok? then Max(old(mgr.s).procs[pid].mmapNext, end) else old(mgr.s).procs[pid].mmapNext
    ensures r.Ok? ==> r.value == start && stop == end && KeepsExposed(old(mgr.s), mgr.s, pid, 0, 0)
  {
    hide KeepsExposed, Live, Books, Eager, Waiting, Vacant, SpaceOk, RefsOk, StepOk, FilledLazy, Filled, Placed,
         FillDone, FreeOfMaps, OutsideStack;
    ghost var w, o := mgr.s, mgr.owed;
    var done: Result<()>;
    LiveParts(w, o, pid);
    if backing.Some? {
      VacantParts(w.procs[pid], start, end);
      done, stop := AddLazyRange(mgr, pid, start, end, FileLazy(perms, backing.value.fd, start, backing.value.offset));
      WaitingBounds(w, o, mgr.s, pid, start, stop, end, FileLazy(perms, backing.value.fd, start, backing.value.offset));
      WaitingDone(w, o, mgr.s, pid, start, stop, end, perms, backing.value);
    } else {
      ghost var slotFailed;
      done, stop, slotFailed := MapAnonymousEager(mgr, pid, start, end, perms);
      EagerDone(w, o, mgr.s, pid, start, stop, end, perms);
    }
    FillDoneParts(w, o, mgr.s, pid, start, stop, end, perms, backing);
    if done.Err? {
      return Err(done.error), stop;
    }
    ghost var s1 := mgr.s;
    SetHint(mgr, pid, end, w, o, start, perms, backing);
    KeepsExposedThen(w, s1, mgr.s, pid, 0, 0, 0, 0);
    r := Ok(start);
  }

  lemma VacantParts(mm: MmState, lo: nat, hi: nat)
    requires Vacant(mm, lo, hi)
    ensures FreeOfMaps(mm.maps, lo, hi) && OutsideStack(mm, lo, hi)
  {
  }

  lemma WaitingBounds(w: World, o: multiset<Slot>, s: World, pid: Pid, lo: nat, page: nat, hi: nat, kind: LazyKind)
    requires Waiting(w, o, s, pid, lo, page, hi, kind)
    ensures lo <= page <= hi
  {
  }

  lemma FillDoneParts(w: World, o: multiset<Slot>, s: World, pid: Pid, lo: nat, stop: nat, hi: nat, perms: Perms,
                      backing: Option<Backing>)
    requires FillDone(w, o, s, pid, lo, stop, perms, backing)
    ensures Live(s, o, pid) && StepOk(w, o, s, o, pid) && pid in w.procs && pid in s.procs
    ensures Placed(w, s, pid, lo, stop, perms, backing) && s.procs[pid].mmapNext == w.procs[pid].mmapNext
  {
  }

  /** `mmap_next = max(mmap_next, end)`. */
  method SetHint(mgr: ApeManager, pid: Pid, end: nat, ghost w: World, ghost o: multiset<Slot>, ghost lo: nat,
                 ghost perms: Perms, ghost backing: Option<Backing>)
    requires mgr.owed == o && FillDone(w, o, mgr.s, pid, lo, end, perms, backing) && end % PGSIZE == 0
    modifies mgr`s
    ensures Live(mgr.s, o, pid) && StepOk(w, o, mgr.s, o, pid) && pid in w.procs && pid in mgr.s.procs
    ensures Placed(w, mgr.s, pid, lo, end, perms, backing)
    ensures mgr.s.procs[pid].mmapNext == Max(w.procs[pid].mmapNext, end)
    ensures KeepsExposed(old(mgr.s), mgr.s, pid, 0, 0)
  {
    hide KeepsExposed, Live, Books, SpaceOk, RefsOk, StepOk, Placed, SameView;
    ghost var s1 := mgr.s;
    var mm := mgr.s.procs[pid];
    var mm' := mm.(mmapNext := Max(mm.mmapNext, end));
    LiveParts(s1, o, pid);
    SpaceHint(mm, mm'.mmapNext);
    SpaceKeepsExposed(s1, pid, mm');
    SameMapsStep(s1, o, pid, mm');
    mgr.s := WithSpace(mgr.s, pid, mm');
    StepOkParts(s1, o, mgr.s, o, pid);
    MakeLive(mgr.s, o, pid);
    StepOkTransitive(w, o, s1, o, mgr.s, o, pid);
    SameTablesSameView(s1.frames, mm, mm');
    PlacedSame(w, s1, mgr.s, pid, lo, end, perms, backing);
  }

  lemma SpaceHint(mm: MmState, next: nat)
    requires SpaceOk(mm) && next % PGSIZE == 0
    ensures SpaceOk(mm.(mmapNext := next))
    ensures mm.mmapNext % PGSIZE == 0
  {
  }

  lemma SameTablesSameView(frames: Frames, mm: MmState, mm': MmState)
    requires mm'.maps == mm.maps && mm'.lazy == mm.lazy
    ensures SameView(frames, mm, frames, mm')
  {
  }

  // ----- MAP_FIXED -----

  /** A page that MAP_FIXED may not replace: image, heap or stack. */
  ghost predicate Blocked(w: World, pid: Pid, lo: nat, hi: nat)
    requires pid in w.procs
  {
    exists a: nat :: lo <= a < hi && a % PGSIZE == 0 &&
      PageAt(w.frames, w.procs[pid], a).Some? && !Removable(PageAt(w.frames, w.procs[pid], a))
  }

  predicate OutOfBounds(mm: MmState, lo: nat, hi: nat) {
    hi > mm.mmapLimit || HeapOverlap(mm, lo, hi) || StackOverlap(mm, lo, hi)
  }

  predicate MapBlocks(m: MemoryMap, lo: nat, hi: nat) {
    HasOverlap(lo, hi, m.vaddr, m.size) && !IsRemappable(m.memType)
  }

  lemma BlockedPage(frames: Frames, mm: MmState, a: nat)
    requires SpaceOk(mm)
    ensures PageAt(frames, mm, a).Some? && !Removable(PageAt(frames, mm, a))
            <==> Lookup(mm.maps, a).Some? && !IsRemappable(Lookup(mm.maps, a).value.memType)
  {
    hide SpaceOk, MapsOk, LazyOk, Apart, StackOk, Lookup;
    SpaceParts(mm);
    LookupExact(mm.maps, a);
  }

  lemma BlockingPage(mm: MmState, k: nat, lo: nat, hi: nat) returns (a: nat)
    requires SpaceOk(mm) && lo % PGSIZE == 0 && hi % PGSIZE == 0
    requires k in mm.maps && MapBlocks(mm.maps[k], lo, hi)
    ensures lo <= a < hi && a % PGSIZE == 0 && Lookup(mm.maps, a) == Some(mm.maps[k])
  {
    hide SpaceOk, MapsOk, LazyOk, Apart, StackOk, Lookup;
    SpaceParts(mm);
    EntryOf(mm.maps, k);
    a := Max(lo, k);
    LookupExact(mm.maps, a);
    assert mm.maps[k].Covers(a);
  }

  /** The table check finds a blocking map exactly when some page of the range may not go. */
  lemma BlockedExact(w: World, pid: Pid, lo: nat, hi: nat)
    requires pid in w.procs && SpaceOk(w.procs[pid]) && lo % PGSIZE == 0 && hi % PGSIZE == 0
    ensures Blocked(w, pid, lo, hi) <==> exists k :: k in w.procs[pid].maps && MapBlocks(w.procs[pid].maps[k], lo, hi)
  {
    hide PageAt, Removable, Lookup, SpaceOk;
    var mm := w.procs[pid];
    if Blocked(w, pid, lo, hi) {
      var a: nat :| lo <= a < hi && a % PGSIZE == 0 &&
        PageAt(w.frames, mm, a).Some? && !Removable(PageAt(w.frames, mm, a));
      BlockedPage(w.frames, mm, a);
      BlockingMap(mm, a, lo, hi);
    }
    if k :| k in mm.maps && MapBlocks(mm.maps[k], lo, hi) {
      var a := BlockingPage(mm, k, lo, hi);
      BlockedPage(w.frames, mm, a);
    }
  }

  lemma BlockingMap(mm: MmState, a: nat, lo: nat, hi: nat)
    requires SpaceOk(mm) && lo <= a < hi
    requires Lookup(mm.maps, a).Some? && !IsRemappable(Lookup(mm.maps, a).value.memType)
    ensures exists k :: k in mm.maps && MapBlocks(mm.maps[k], lo, hi)
  {
    LookupExact(mm.maps, a);
    var m := Lookup(mm.maps, a).value;
    assert m.vaddr in mm.maps && MapBlocks(mm.maps[m.vaddr], lo, hi);
  }

  lemma BlockedSame(w: World, w1: World, pid: Pid, lo: nat, hi: nat)
    requires pid in w.procs && pid in w1.procs
    requires SameView(w.frames, w.procs[pid], w1.frames, w1.procs[pid])
    ensures Blocked(w1, pid, lo, hi) <==> Blocked(w, pid, lo, hi)
  {
    hide PageAt;
    var mm, mm1 := w.procs[pid], w1.procs[pid];
    assert forall a: nat | a % PGSIZE == 0 :: PageAt(w1.frames, mm1, a) == PageAt(w.frames, mm, a);
  }

  lemma ClearedVacant(mm: MmState, lo: nat, hi: nat)
    requires SpaceOk(mm) && NoStraddle(mm.maps, lo, hi) && lo % PGSIZE == 0 && hi % PGSIZE == 0 && lo < hi
    requires !StackOverlap(mm, lo, hi)
    requires forall k | k in mm.maps :: !MapBlocks(mm.maps[k], lo, hi)
    ensures Vacant(ClearedSpace(mm, lo, hi), lo, hi)
  {
    var mm' := ClearedSpace(mm, lo, hi);
    forall k | k in mm'.maps
      ensures mm'.maps[k].End() <= lo || hi <= k
    {
      assert k in mm.maps && mm.maps[k].vaddr == k;
      assert !MapBlocks(mm.maps[k], lo, hi);
    }
    forall l | l in mm'.lazy
      ensures l + PGSIZE <= lo || hi <= l
    {
      if l < hi && lo < l + PGSIZE {
        AlignedInside(lo, l);
      }
    }
  }

  lemma ClearedThenPlaced(w: World, w1: World, w2: World, pid: Pid, lo: nat, hi: nat, stop: nat, perms: Perms,
                          backing: Option<Backing>)
    requires Cleared(w, w1, pid, lo, hi) && Placed(w1, w2, pid, lo, stop, perms, backing) && lo <= stop <= hi
    ensures OutsideKept(w, w2, pid, lo, hi)
    ensures stop == hi ==> Placed(w, w2, pid, lo, hi, perms, backing)
  {
    hide PageAt;
  }

  /** MAP_FIXED. When it succeeds every page of the range is freshly placed and every page outside
      is what it was; when a limit, the heap, the stack window or an image page forbids the range
      it fails and no page changes. Once it succeeds copy-on-write is sound exactly when no writable
      copy-on-write map crossed an end of the range. */
  method MmapFixed(mgr: ApeManager, pid: Pid, addr: nat, len: nat, perms: Perms, backing: Option<Backing>)
    returns (r: Result<nat>, ghost cleared: Option<World>, ghost stop: nat)
    requires Live(mgr.s, mgr.owed, pid) && len > 0
    modifies mgr
    ensures mgr.owed == old(mgr.owed) && Live(mgr.s, mgr.owed, pid) && OthersKept(old(mgr.s), mgr.s, pid)
    ensures cleared.None? ==>
              r.Err? && SameView(old(mgr.s).frames, old(mgr.s).procs[pid], mgr.s.frames, mgr.s.procs[pid])
    ensures cleared.Some? ==>
              && Live(cleared.value, mgr.owed, pid) && OthersKept(old(mgr.s), cleared.value, pid)
              && OthersKept(cleared.value, mgr.s, pid)
              && Cleared(old(mgr.s), cleared.value, pid, addr, addr + AlignUp(len))
              && Placed(cleared.value, mgr.s, pid, addr, stop, perms, backing) && addr <= stop <= addr + AlignUp(len)
    ensures r.Ok? ==>
              && r.value == addr && addr % PGSIZE == 0
              && !OutOfBounds(old(mgr.s).procs[pid], addr, addr + AlignUp(len))
              && !Blocked(old(mgr.s), pid, addr, addr + AlignUp(len))
              && Placed(old(mgr.s), mgr.s, pid, addr, addr + AlignUp(len), perms, backing)
    ensures r.Ok? ==> cleared.Some? && stop == addr + AlignUp(len)
    ensures r.Err? ==> OutsideKept(old(mgr.s), mgr.s, pid, addr, addr + AlignUp(len))
    ensures addr % PGSIZE != 0 || addr + AlignUp(len) > USIZE_MAX
            || OutOfBounds(old(mgr.s).procs[pid], addr, addr + AlignUp(len))
            || Blocked(old(mgr.s), pid, addr, addr + AlignUp(len)) ==>
              r.Err? && SameView(old(mgr.s).frames, old(mgr.s).procs[pid], mgr.s.frames, mgr.s.procs[pid])
    ensures PrivateTargets(old(mgr.s).procs[pid].maps, addr, addr + AlignUp(len)) ==>
              StepOk(old(mgr.s), old(mgr.owed), mgr.s, mgr.owed, pid)
    ensures Translated(old(mgr.s)) ==> Translated(mgr.s)
    ensures r.Ok? && Translated(old(mgr.s)) && Isolated(old(mgr.s)) ==>
              (Isolated(mgr.s) <==> PrivateTargets(old(mgr.s).procs[pid].maps, addr, addr + AlignUp(len)))
  {
    hide FromMaps, ExposedOutside, KeepsExposed, Isolated, Live, Books, OthersKept, StepOk, SameView, Translated,
         PrivateTargets, NoStraddle, Cleared, SpaceOk, RefsOk, Vacant, AlignUp, Lost, Placed, OutsideKept, Blocked,
         HeapOverlap, StackOverlap;
    ghost var w, o := mgr.s, mgr.owed;
    cleared, stop := None, addr;
    LiveParts(w, o, pid);
    SplitNothing(w, o, pid);
    LenAligned(len);
    SameOutside(w, w, pid, addr, addr + AlignUp(len));
    if addr % PGSIZE != 0 {
      return Err(InvalidArgs), None, addr;
    }
    var end := CheckedAdd(addr, AlignUp(len));
    if end.None? {
      return Err(OutOfMemory), None, addr;
    }
    var split := EnsureSplit(mgr, pid, addr, end.value);
    ghost var w1 := mgr.s;
    SameOutside(w, w1, pid, addr, end.value);
    BlockedSame(w, w1, pid, addr, end.value);
    SplitBounds(w.procs[pid], w1.procs[pid], addr, end.value);
    if split.Err? {
      return Err(split.error), None, addr;
    }
    LiveParts(w1, o, pid);
    var mm := mgr.s.procs[pid];
    if end.value > mm.mmapLimit {
      return Err(OutOfMemory), None, addr;
    }
    if HeapOverlap(mm, addr, end.value) || StackOverlap(mm, addr, end.value) {
      return Err(InvalidArgs), None, addr;
    }
    BlockedExact(w1, pid, addr, end.value);
    if exists k :: k in mm.maps && MapBlocks(mm.maps[k], addr, end.value) {
      return Err(InvalidArgs), None, addr;
    }
    ClearedVacant(mm, addr, end.value);
    ClearRange(mgr, pid, addr, end.value);
    ghost var w2 := mgr.s;
    cleared := Some(w2);
    MunmapDone(w, o, w1, w2, pid, addr, end.value);
    r, stop := Place(mgr, pid, addr, end.value, perms, backing);
    StepOkParts(w2, o, mgr.s, o, pid);
    ClearedThenPlaced(w, w2, mgr.s, pid, addr, end.value, stop, perms, backing);
    PlaceJoin(w, o, w2, mgr.s, pid);
    if r.Ok? {
      ExposedPlaced(w, o, w1, w2, mgr.s, pid, addr, end.value);
    }
  }

  lemma ExposedPlaced(w: World, o: multiset<Slot>, w1: World, w2: World, s: World, pid: Pid, lo: nat, hi: nat)
    requires Live(w, o, pid) && Live(s, o, pid) && KeepsExposed(w1, w2, pid, lo, hi) && KeepsExposed(w2, s, pid, 0, 0)
    requires !PrivateTargets(w.procs[pid].maps, lo, hi) ==> ExposedOutside(w1, pid, lo, hi)
    requires PrivateTargets(w.procs[pid].maps, lo, hi) ==> StepOk(w, o, s, o, pid)
    ensures Translated(w) && Isolated(w) ==> (Isolated(s) <==> PrivateTargets(w.procs[pid].maps, lo, hi))
  {
    hide Live, Books, StepOk, Translated, Isolated, ExposedOutside, KeepsExposed, PrivateTargets;
    KeepsExposedThen(w1, w2, s, pid, lo, hi, 0, 0);
    ExposedStays(w, o, w1, s, pid, lo, hi);
  }

  lemma LenAligned(len: nat)
    ensures AlignUp(len) % PGSIZE == 0 && AlignUp(len) >= len && AlignUp(len) < len + PGSIZE
  {
  }

  lemma SameOutside(w: World, w1: World, pid: Pid, lo: nat, hi: nat)
    requires pid in w.procs && pid in w1.procs
    requires SameView(w.frames, w.procs[pid], w1.frames, w1.procs[pid])
    ensures OutsideKept(w, w1, pid, lo, hi)
  {
    hide PageAt;
  }

  lemma SplitBounds(mm: MmState, mm1: MmState, lo: nat, hi: nat)
    requires mm1 == mm.(maps := mm1.maps)
    ensures OutOfBounds(mm1, lo, hi) <==> OutOfBounds(mm, lo, hi)
  {
  }

  lemma PlaceJoin(w: World, o: multiset<Slot>, w1: World, w2: World, pid: Pid)
    requires OthersKept(w, w1, pid) && StepOk(w1, o, w2, o, pid)
    ensures OthersKept(w, w2, pid)
    ensures (Translated(w) ==> Translated(w1)) ==> (Translated(w) ==> Translated(w2))
    ensures StepOk(w, o, w1, o, pid) ==> StepOk(w, o, w2, o, pid)
  {
    hide Books, OthersKept, StepOk, Translated, Isolated;
    StepOkParts(w1, o, w2, o, pid);
    OthersKeptTransitive(w, w1, w2, pid);
    if StepOk(w, o, w1, o, pid) {
      StepOkTransitive(w, o, w1, o, w2, o, pid);
    }
  }

  // ----- mmap without MAP_FIXED -----

  function SearchFrom(mm: MmState, hint: nat): nat {
    Max(if hint != 0 then AlignDown(hint) else mm.mmapNext, mm.mmapBase)
  }

  /** mmap at a place of the manager's choice: the first free candidate, freshly placed; nothing
      else changes. A failure leaves at most the pages below `stop` placed there. It reports
      OutOfMemory when no candidate below the limit is free. */
  method MmapAnywhere(mgr: ApeManager, pid: Pid, hint: nat, len: nat, perms: Perms, backing: Option<Backing>)
    returns (r: Result<nat>, ghost start: nat, ghost stop: nat)
    requires Live(mgr.s, mgr.owed, pid) && len > 0
    modifies mgr
    ensures mgr.owed == old(mgr.owed) && Live(mgr.s, mgr.owed, pid)
            && StepOk(old(mgr.s), old(mgr.owed), mgr.s, mgr.owed, pid)
    ensures !NothingFits(old(mgr.s).procs[pid], SearchFrom(old(mgr.s).procs[pid], hint), AlignUp(len)) ==>
              && FirstFree(old(mgr.s).procs[pid], SearchFrom(old(mgr.s).procs[pid], hint), AlignUp(len), start)
              && start % PGSIZE == 0
              && start <= stop <= start + AlignUp(len) && Placed(old(mgr.s), mgr.s, pid, start, stop, perms, backing)
    ensures r.Ok? ==>
              && !NothingFits(old(mgr.s).procs[pid], SearchFrom(old(mgr.s).procs[pid], hint), AlignUp(len))
              && r.value == start && stop == start + AlignUp(len)
    ensures mgr.s.procs[pid].mmapNext ==
              if r.Ok? then Max(old(mgr.s).procs[pid].mmapNext, stop) else old(mgr.s).procs[pid].mmapNext
    ensures NothingFits(old(mgr.s).procs[pid], SearchFrom(old(mgr.s).procs[pid], hint), AlignUp(len)) ==>
              r == Err(OutOfMemory) && mgr.s == old(mgr.s)
  {
    hide Live, Books, StepOk, RangeIsFree, SpaceOk, RefsOk, Vacant, Placed, OthersKept, FirstFree, NothingFits,
         SearchFrom, AlignUp;
    ghost var w, o := mgr.s, mgr.owed;
    start, stop := 0, 0;
    LiveParts(w, o, pid);
    SplitNothing(w, o, pid);
    LenAligned(len);
    var mm := mgr.s.procs[pid];
    var from := SearchFrom(mm, hint);
    SearchAligned(mm, hint);
    var chosen := FirstFit(mm, from, AlignUp(len));
    if chosen.None? {
      return Err(OutOfMemory), 0, 0;
    }
    start := chosen.value;
    FirstFreeFits(mm, from, AlignUp(len), start);
    FreeVacant(mm, from, AlignUp(len), start);
    EndAligned(start, AlignUp(len));
    r, stop := Place(mgr, pid, chosen.value, chosen.value + AlignUp(len), perms, backing);
  }

  lemma EndAligned(start: nat, len: nat)
    requires start % PGSIZE == 0 && len % PGSIZE == 0
    ensures (start + len) % PGSIZE == 0
  {
  }

  lemma SearchAligned(mm: MmState, hint: nat)
    requires SpaceOk(mm)
    ensures SearchFrom(mm, hint) % PGSIZE == 0 && mm.mmapLimit <= USIZE_MAX
  {
  }

  lemma FreeVacant(mm: MmState, from: nat, len: nat, start: nat)
    requires SpaceOk(mm) && FirstFree(mm, from, len, start)
    ensures Vacant(mm, start, start + len)
  {
    FreeRangeParts(mm, start, start + len);
  }

  // ----- mmap -----

  /** Where the pages of a mapping come from; a file descriptor must be open. */
  function BackingOf(anonymous: bool, fd: nat, offset: nat, openFds: set<nat>): Result<Option<Backing>> {
    if anonymous then Ok(None)
    else if fd !in openFds then Err(InvalidSlot)
    else Ok(Some(Backing(fd, offset)))
  }

  /** `do_mmap`: only private mappings of some length; when it succeeds the range returned, which is
      the fixed one or the first one free, is freshly placed and every page outside it is what it was.
      A failed call changes pages of that range only, and none when nothing fits. */
  method Mmap(mgr: ApeManager, pid: Pid, addr: nat, len: nat, perms: Perms, private: bool, fixed: bool,
              anonymous: bool, fd: nat, offset: nat, openFds: set<nat>)
    returns (r: Result<nat>, ghost start: nat)
    requires Live(mgr.s, mgr.owed, pid)
    modifies mgr
    ensures mgr.owed == old(mgr.owed) && Live(mgr.s, mgr.owed, pid) && OthersKept(old(mgr.s), mgr.s, pid)
    ensures len == 0 || !private ==> r == Err(InvalidArgs)
    ensures len > 0 && private && BackingOf(anonymous, fd, offset, openFds).Err? ==> r == Err(InvalidSlot)
    ensures len == 0 || !private || BackingOf(anonymous, fd, offset, openFds).Err? ==> mgr.s == old(mgr.s)
    ensures r.Ok? ==>
              && BackingOf(anonymous, fd, offset, openFds).Ok?
              && r.value == start && r.value % PGSIZE == 0
              && Placed(old(mgr.s), mgr.s, pid, start, start + AlignUp(len), perms,
                        BackingOf(anonymous, fd, offset, openFds).value)
    ensures OutsideKept(old(mgr.s), mgr.s, pid, start, start + AlignUp(len))
    ensures len > 0 && private && BackingOf(anonymous, fd, offset, openFds).Ok? && fixed ==> start == addr
    ensures len > 0 && private && BackingOf(anonymous, fd, offset, openFds).Ok? && !fixed ==>
              var from := SearchFrom(old(mgr.s).procs[pid], addr);
              if NothingFits(old(mgr.s).procs[pid], from, AlignUp(len))
              then r == Err(OutOfMemory) && mgr.s == old(mgr.s)
              else FirstFree(old(mgr.s).procs[pid], from, AlignUp(len), start)
    ensures Translated(old(mgr.s)) ==> Translated(mgr.s)
    ensures !fixed || PrivateTargets(old(mgr.s).procs[pid].maps, addr, addr + AlignUp(len)) ==>
              StepOk(old(mgr.s), old(mgr.owed), mgr.s, mgr.owed, pid)
    ensures r.Ok? && fixed && Translated(old(mgr.s)) && Isolated(old(mgr.s)) ==>
              (Isolated(mgr.s) <==> PrivateTargets(old(mgr.s).procs[pid].maps, addr, addr + AlignUp(len)))
  {
    hide Isolated, Live, Books, OthersKept, StepOk, SameView, Translated, PrivateTargets, Cleared, SpaceOk, RefsOk,
         Placed, OutsideKept, Blocked, OutOfBounds, FirstFree, NothingFits, SearchFrom, AlignUp;
    ghost var w, o := mgr.s, mgr.owed;
    start := addr;
    LiveParts(w, o, pid);
    SplitNothing(w, o, pid);
    SameOutside(w, w, pid, addr, addr + AlignUp(len));
    if len == 0 || !private {
      return Err(InvalidArgs), addr;
    }
    var backing := BackingOf(anonymous, fd, offset, openFds);
    if backing.Err? {
      return Err(backing.error), addr;
    }
    ghost var stop;
    if fixed {
      ghost var cleared;
      r, cleared, stop := MmapFixed(mgr, pid, addr, len, perms, backing.value);
      if r.Ok? {
        PlacedOutside(w, mgr.s, pid, addr, addr + AlignUp(len), addr + AlignUp(len), perms, backing.value);
      }
    } else {
      r, start, stop := MmapAnywhere(mgr, pid, addr, len, perms, backing.value);
      StepOkParts(w, o, mgr.s, mgr.owed, pid);
      if NothingFits(w.procs[pid], SearchFrom(w.procs[pid], addr), AlignUp(len)) {
        SameOutside(w, w, pid, start, start + AlignUp(len));
      } else {
        PlacedOutside(w, mgr.s, pid, start, stop, start + AlignUp(len), perms, backing.value);
      }
    }
  }
}
