/** A fault on a file-backed lazy page: the longest compatible run becomes one resident map. */
module FileFault {
  import opened Types
  import opened AddressSpace
  import opened Machine
  import opened Views
  import opened World
  import opened FreshMaps
  import opened DemandFaults
  import opened Ranges
  import opened Manager

  /** File contents by descriptor and offset, zero-filled past the end. */
  type Files = (nat, nat) -> Page

  function FilePages(files: Files, fd: nat, offset: nat, n: nat): (pages: seq<Page>)
    ensures |pages| == n
    ensures forall i | 0 <= i < n :: pages[i] == files(fd, SatAdd(offset, i * PGSIZE))
  {
    seq<Page>(n, i requires 0 <= i < n => files(fd, SatAdd(offset, i * PGSIZE)))
  }

  /** The page `idx` past `page` continues the file mapping that `l` starts. */
  predicate Continues(lazy: Maps, page: nat, l: MemoryMap, idx: nat) {
    var va := SatAdd(page, idx * PGSIZE);
    && va in lazy
    && lazy[va].memType == FileBacked && lazy[va].fd == l.fd && lazy[va].flags == l.flags
    && lazy[va].offset == SatAdd(l.offset, idx * PGSIZE)
  }

  /** The longest run of pages, within the request, that continue one file mapping. */
  method FindSpan(lazy: Maps, page: nat, l: MemoryMap, request: nat) returns (span: nat)
    ensures 1 <= span <= Max(request, 1)
    ensures forall i | 1 <= i < span :: Continues(lazy, page, l, i)
    ensures span < request ==> !Continues(lazy, page, l, span)
  {
    span := Max(request, 1);
    var idx := 1;
    while idx < span
      invariant 1 <= idx <= span <= Max(request, 1)
      invariant forall i | 1 <= i < idx :: Continues(lazy, page, l, i)
      invariant idx < span ==> span == Max(request, 1)
      invariant idx == span < request ==> !Continues(lazy, page, l, span)
    {
      if !Continues(lazy, page, l, idx) {
        span := idx;
      } else {
        idx := idx + 1;
      }
    }
  }

  /** `n` lazy pages in a row that continue the one at `page`. */
  ghost predicate Run(lazy: Maps, page: nat, l: MemoryMap, n: nat) {
    && page in lazy && lazy[page] == l && l.memType == FileBacked && l.fd.Some? && n >= 1
    && forall i | 1 <= i < n :: Continues(lazy, page, l, i)
  }

  lemma RunPage(lazy: Maps, page: nat, l: MemoryMap, n: nat, i: nat)
    requires LazyOk(lazy) && Run(lazy, page, l, n) && i < n
    ensures page + i * PGSIZE in lazy
    ensures var m := lazy[page + i * PGSIZE];
            m.memType == FileBacked && m.fd == l.fd && m.flags == l.flags && m.offset == SatAdd(l.offset, i * PGSIZE)
  {
    if i > 0 {
      assert Continues(lazy, page, l, i);
      assert SatAdd(page, i * PGSIZE) % PGSIZE == 0;
      assert USIZE_MAX % PGSIZE != 0;
    }
  }

  lemma RunFree(mm: MmState, page: nat, l: MemoryMap, n: nat)
    requires SpaceOk(mm) && Run(mm.lazy, page, l, n)
    ensures FreeOfMaps(mm.maps, page, page + n * PGSIZE) && OutsideStack(mm, page, page + n * PGSIZE)
  {
    forall k | k in mm.maps
      ensures mm.maps[k].End() <= page || page + n * PGSIZE <= k
    {
      if page < mm.maps[k].End() && k < page + n * PGSIZE {
        RunMeets(mm, page, l, n, k);
      }
    }
    RunOutside(mm, page, l, n);
  }

  /** A map cannot share a page with the run. */
  lemma RunMeets(mm: MmState, page: nat, l: MemoryMap, n: nat, k: nat)
    requires SpaceOk(mm) && Run(mm.lazy, page, l, n) && k in mm.maps
    ensures mm.maps[k].End() <= page || page + n * PGSIZE <= k
  {
    assert k % PGSIZE == 0 && page % PGSIZE == 0;
    var i := SatSub(k, page) / PGSIZE;
    if i < n {
      RunPage(mm.lazy, page, l, n, i);
    }
  }

  lemma {:induction false} RunOutside(mm: MmState, page: nat, l: MemoryMap, n: nat)
    requires SpaceOk(mm) && Run(mm.lazy, page, l, n)
    ensures OutsideStack(mm, page, page + n * PGSIZE)
    decreases n
  {
    RunPage(mm.lazy, page, l, n, n - 1);
    if n > 1 {
      RunOutside(mm, page, l, n - 1);
    }
  }

  // ----- The step -----

  /** Every page of `[lo, hi)` waited for a file page and now holds it, with the same
      permissions, descriptor and offset; every other page is what it was. */
  ghost predicate Populated(w: World, w': World, pid: Pid, lo: nat, hi: nat, files: Files) {
    && pid in w.procs && pid in w'.procs
    && forall a: nat | a % PGSIZE == 0 ::
         if lo <= a < hi then PopulatedPage(PageAt(w.frames, w.procs[pid], a), PageAt(w'.frames, w'.procs[pid], a),
                                            files)
         else PageAt(w'.frames, w'.procs[pid], a) == PageAt(w.frames, w.procs[pid], a)
  }

  predicate PopulatedPage(v: Option<PageView>, v': Option<PageView>, files: Files) {
    && v.Some? && v.value.OnDemand? && v.value.fd.Some?
    && v' == Some(Resident(files(v.value.fd.value, v.value.offset), v.value.flags, v.value.memType, v.value.fd,
                           v.value.offset))
  }

  function SpanMap(page: nat, l: MemoryMap, n: nat, slot: Slot): MemoryMap {
    MemoryMap(page, n * PGSIZE, l.flags, FileBacked, false, slot, l.fd, l.offset)
  }

  function SpanSpace(mm: MmState, m: MemoryMap): MmState {
    mm.(maps := mm.maps[m.vaddr := m], lazy := WithoutLazy(mm.lazy, m.vaddr, m.End()))
  }

  lemma SpanSpaceOk(mm: MmState, page: nat, l: MemoryMap, n: nat, slot: Slot)
    requires SpaceOk(mm) && Run(mm.lazy, page, l, n) && slot != 0 && FrameUnheld(mm.maps, slot)
    ensures MapShape(SpanMap(page, l, n, slot)) && page !in mm.maps
    ensures FreeOfMaps(mm.maps, page, page + n * PGSIZE)
    ensures SpaceOk(SpanSpace(mm, SpanMap(page, l, n, slot)))
  {
    hide SpaceOk, LazyOk, MapsOk, StackOk, Apart, Run, FreeOfMaps, FreeOfLazy, FrameUnheld, WithoutLazy;
    var m := SpanMap(page, l, n, slot);
    SpaceParts(mm);
    RunFree(mm, page, l, n);
    RunAligned(mm, page, l, n);
    SpanShape(page, l, n, slot);
    SubLazySpace(mm, page, m.End());
    LazyRangeFree(mm.lazy, page, m.End());
    SpaceAddMap(mm.(lazy := WithoutLazy(mm.lazy, page, m.End())), m);
    AddMapShapes(mm.maps, m);
  }

  lemma SpanShape(page: nat, l: MemoryMap, n: nat, slot: Slot)
    requires n >= 1
    ensures var m := SpanMap(page, l, n, slot);
            m.size > 0 && m.size % PGSIZE == 0 && m.End() == page + n * PGSIZE
            && (page % PGSIZE == 0 ==> m.End() % PGSIZE == 0)
  {
  }

  lemma SubLazySpace(mm: MmState, lo: nat, hi: nat)
    requires SpaceOk(mm)
    ensures SpaceOk(mm.(lazy := WithoutLazy(mm.lazy, lo, hi)))
  {
    hide MapsOk;
  }

  lemma LazyRangeFree(lazy: Maps, lo: nat, hi: nat)
    requires LazyOk(lazy) && lo % PGSIZE == 0
    ensures hi % PGSIZE == 0 ==> FreeOfLazy(WithoutLazy(lazy, lo, hi), lo, hi)
  {
  }

  lemma SpanView(w: World, pid: Pid, page: nat, l: MemoryMap, n: nat, a: nat)
    requires pid in w.procs && SpaceOk(w.procs[pid]) && Run(w.procs[pid].lazy, page, l, n)
    requires page <= a < page + n * PGSIZE && a % PGSIZE == 0
    ensures var i := (a - page) / PGSIZE;
            && 0 <= i < n
            && PageAt(w.frames, w.procs[pid], a) ==
                 Some(OnDemand(l.flags, FileBacked, l.fd, SatAdd(l.offset, a - page)))
  {
    var mm := w.procs[pid];
    var i := (a - page) / PGSIZE;
    assert page % PGSIZE == 0;
    assert a == page + i * PGSIZE;
    RunPage(mm.lazy, page, l, n, i);
    CoveredIsNotLazy(mm, a);
  }

  lemma CanAddSpan(w: World, o: multiset<Slot>, pid: Pid, page: nat, l: MemoryMap, n: nat, slot: Slot, pages: seq<Page>)
    requires Live(w, o, pid) && Run(w.procs[pid].lazy, page, l, n)
    requires slot !in w.frames && slot != 0 && |pages| == n
    ensures CanAddFresh(w, pid, SpanMap(page, l, n, slot), pages) && page !in w.procs[pid].maps
    ensures FrameUnheld(w.procs[pid].maps, slot) && !Holds(w.procs[pid].maps, slot)
    ensures SpaceOk(SpanSpace(w.procs[pid], SpanMap(page, l, n, slot)))
  {
    hide SpaceOk, Run, RefsOk, MapsOk, FreeOfMaps, MapShape;
    BooksParts(w, o, pid);
    FreshUnheld(w.procs, w.frames, pid, slot);
    SpanSpaceOk(w.procs[pid], page, l, n, slot);
  }

  ghost function SpanWorld(w: World, pid: Pid, page: nat, l: MemoryMap, n: nat, slot: Slot, pages: seq<Page>): World
    requires pid in w.procs && pid in w.hw
  {
    var m := SpanMap(page, l, n, slot);
    WithSpace(WithFreshMap(w, pid, m, pages), pid, SpanSpace(w.procs[pid], m))
  }

  lemma SpanStep(w: World, o: multiset<Slot>, pid: Pid, page: nat, l: MemoryMap, n: nat, slot: Slot, files: Files)
    requires Live(w, o, pid) && Run(w.procs[pid].lazy, page, l, n) && slot !in w.frames && slot != 0
    requires var w' := SpanWorld(w, pid, page, l, n, slot, FilePages(files, l.fd.value, l.offset, n));
             RefsOk(w'.procs, w'.frames, w'.refs, o)
    ensures var w' := SpanWorld(w, pid, page, l, n, slot, FilePages(files, l.fd.value, l.offset, n));
            StepOk(w, o, w', o, pid) && Populated(w, w', pid, page, page + n * PGSIZE, files)
  {
    hide SpaceOk, Run, RefsOk, MapsOk, FreeOfMaps, MapShape, CanAddFresh, FrameUnheld, Holds, Books, StepOk, Mapped,
         PageAt, WithoutLazy;
    LiveParts(w, o, pid);
    RunAligned(w.procs[pid], page, l, n);
    var pages := FilePages(files, l.fd.value, l.offset, n);
    var m := SpanMap(page, l, n, slot);
    var mm := SpanSpace(w.procs[pid], m);
    var w1 := WithFreshMap(w, pid, m, pages);
    var w' := WithSpace(w1, pid, mm);
    CanAddSpan(w, o, pid, page, l, n, slot, pages);
    RefsWithSpace(w', o, pid, w1.procs[pid]);
    WithSpaceTwice(w1, pid, mm, w1.procs[pid]);
    SameSpace(w1, pid);
    FreshMapStep(w, o, pid, m, pages, mm);
    forall a: nat | a % PGSIZE == 0
      ensures if page <= a < page + n * PGSIZE
              then PopulatedPage(PageAt(w.frames, w.procs[pid], a), PageAt(w'.frames, w'.procs[pid], a), files)
              else PageAt(w'.frames, w'.procs[pid], a) == PageAt(w.frames, w.procs[pid], a)
    {
      SpanPage(w, o, pid, page, l, n, slot, files, a);
    }
  }

  lemma SpanPage(w: World, o: multiset<Slot>, pid: Pid, page: nat, l: MemoryMap, n: nat, slot: Slot, files: Files,
                 a: nat)
    requires Live(w, o, pid) && Run(w.procs[pid].lazy, page, l, n) && slot !in w.frames && slot != 0 && a % PGSIZE == 0
    ensures var w' := SpanWorld(w, pid, page, l, n, slot, FilePages(files, l.fd.value, l.offset, n));
            if page <= a < page + n * PGSIZE
            then PopulatedPage(PageAt(w.frames, w.procs[pid], a), PageAt(w'.frames, w'.procs[pid], a), files)
            else PageAt(w'.frames, w'.procs[pid], a) == PageAt(w.frames, w.procs[pid], a)
  {
    hide SpaceOk, RefsOk, MapsOk, FreeOfMaps, MapShape, CanAddFresh, FrameUnheld, Holds, Books, Mapped, PageAt;
    var pages := FilePages(files, l.fd.value, l.offset, n);
    var m := SpanMap(page, l, n, slot);
    var mm := SpanSpace(w.procs[pid], m);
    LiveParts(w, o, pid);
    CanAddSpan(w, o, pid, page, l, n, slot, pages);
    FreshMapSpaceView(w, pid, m, pages, mm, a);
    if page <= a < page + n * PGSIZE {
      RunAligned(w.procs[pid], page, l, n);
      SpanView(w, pid, page, l, n, a);
      WholePages(a - page, page, a);
    }
  }

  lemma WholePages(d: nat, page: nat, a: nat)
    requires a == page + d
    ensures a % PGSIZE == 0 && page % PGSIZE == 0 ==> d / PGSIZE * PGSIZE == d
  {
  }

  // ----- The fault -----

  /** `map_pages`: the file's pages in a fresh frame, in hand. Not every file supports it. */
  method MapPages(mgr: ApeManager, fd: nat, offset: nat, pages: nat, files: Files) returns (r: Result<Slot>)
    requires mgr.Counted()
    modifies mgr
    ensures mgr.Counted()
    ensures r.Err? ==> mgr.s == old(mgr.s) && mgr.owed == old(mgr.owed)
    ensures r.Ok? ==>
              && r.value !in old(mgr.s).frames && r.value != 0
              && mgr.s == old(mgr.s).(frames := old(mgr.s).frames[r.value := FilePages(files, fd, offset, pages)])
              && mgr.owed == Plus(old(mgr.owed), r.value)
  {
    hide RefsOk, Plus, FilePages;
    var supported: bool := *;
    if !supported {
      return Err(NotSupported);
    }
    ghost var w := mgr.s;
    r := mgr.AllocFrame();
    if r.Ok? {
      SetContents(mgr.s.procs, mgr.s.frames, mgr.s.refs, mgr.owed, r.value, FilePages(files, fd, offset, pages));
      mgr.s := mgr.s.(frames := mgr.s.frames[r.value := FilePages(files, fd, offset, pages)]);
      UpdateTwice(w.frames, r.value, [ZeroPage()], FilePages(files, fd, offset, pages));
    }
  }

  /** Reads one page of the file into a frame through a scratch window. */
  method ReadPage(mgr: ApeManager, slot: Slot, fd: nat, offset: nat, files: Files) returns (r: Result<()>)
    requires mgr.Counted() && slot in mgr.s.frames && offset <= USIZE_MAX
    modifies mgr`s
    ensures mgr.Counted()
    ensures r.Ok? ==> mgr.s == old(mgr.s).(frames := old(mgr.s).frames[slot := FilePages(files, fd, offset, 1)])
    ensures r.Err? ==> mgr.s == old(mgr.s)
  {
    hide RefsOk, FilePages;
    r := mgr.MapScratch(slot, 1);
    var fails: bool := *;
    if r.Ok? && fails {
      return Err(IoError);
    }
    if r.Ok? {
      SetContents(mgr.s.procs, mgr.s.frames, mgr.s.refs, mgr.owed, slot, FilePages(files, fd, offset, 1));
      mgr.s := mgr.s.(frames := mgr.s.frames[slot := FilePages(files, fd, offset, 1)]);
    }
  }

  /** The run leaves the lazy table and enters the resident one as a single map. */
  method EnterSpan(mgr: ApeManager, pid: Pid, page: nat, l: MemoryMap, n: nat, slot: Slot, ghost pages: seq<Page>,
                   ghost w: World, ghost o: multiset<Slot>)
    requires Live(w, o, pid) && Run(w.procs[pid].lazy, page, l, n) && |pages| == n
    requires slot !in w.frames && slot != 0 && mgr.Counted() && mgr.owed == Plus(o, slot)
    requires mgr.s == w.(frames := w.frames[slot := pages],
                         hw := w.hw[pid := Mapped(w.hw[pid], slot, page, l.flags, n)])
    modifies mgr
    ensures mgr.Counted() && mgr.owed == o && mgr.s == SpanWorld(w, pid, page, l, n, slot, pages)
  {
    hide Live, SpaceOk, Run, RefsOk, MapsOk, FreeOfMaps, MapShape, CanAddFresh, FrameUnheld, Holds, Books, Mapped,
         WithoutLazy, Plus, Minus, InHand;
    LiveParts(w, o, pid);
    RunAligned(w.procs[pid], page, l, n);
    CanAddSpan(w, o, pid, page, l, n, slot, pages);
    PlusMinus(o, slot);
    var lazy := mgr.s.procs[pid].lazy;
    ghost var lazy0 := lazy;
    ghost var s0, o0 := mgr.s, mgr.owed;
    WithoutNothing(lazy0, page);
    for idx := 0 to n
      invariant lazy == WithoutLazy(lazy0, page, page + idx * PGSIZE)
      invariant (page + idx * PGSIZE) % PGSIZE == 0
      invariant mgr.s == s0 && mgr.owed == o0
    {
      LazyNext(w.procs[pid], page, page + idx * PGSIZE);
      lazy := Remove(lazy, page + idx * PGSIZE);
    }
    ghost var mm1 := w.procs[pid].(lazy := lazy);
    RefsWithSpace(mgr.s, mgr.owed, pid, mm1);
    mgr.s := WithSpace(mgr.s, pid, mgr.s.procs[pid].(lazy := lazy));
    mgr.AddMemoryMap(pid, SpanMap(page, l, n, slot));
    SpanWorlds(w, pid, page, l, n, slot, pages, mm1);
  }

  lemma RunAligned(mm: MmState, page: nat, l: MemoryMap, n: nat)
    requires SpaceOk(mm) && Run(mm.lazy, page, l, n)
    ensures page % PGSIZE == 0 && l.fd.Some? && n >= 1
  {
  }

  lemma WithoutNothing(lazy: Maps, lo: nat)
    ensures WithoutLazy(lazy, lo, lo) == lazy
  {
    assert WithoutLazy(lazy, lo, lo) == lazy;
  }

  lemma LazyNext(mm: MmState, lo: nat, page: nat)
    requires SpaceOk(mm) && lo <= page && page % PGSIZE == 0
    ensures WithoutLazy(mm.lazy, lo, page + PGSIZE) == Remove(WithoutLazy(mm.lazy, lo, page), page)
  {
    WithoutLazyNext(mm.lazy, lo, page);
  }

  lemma SpanWorlds(w: World, pid: Pid, page: nat, l: MemoryMap, n: nat, slot: Slot, pages: seq<Page>, mm1: MmState)
    requires pid in w.procs && pid in w.hw && |pages| == n
    requires mm1 == w.procs[pid].(lazy := WithoutLazy(w.procs[pid].lazy, page, page + n * PGSIZE))
    ensures var m := SpanMap(page, l, n, slot);
            var s1 := WithSpace(w.(frames := w.frames[slot := pages],
                                   hw := w.hw[pid := Mapped(w.hw[pid], slot, page, l.flags, n)]), pid, mm1);
            s1.(procs := WithMaps(s1.procs, pid, mm1.maps[page := m])) == SpanWorld(w, pid, page, l, n, slot, pages)
  {
    hide Mapped, WithoutLazy;
  }
}
