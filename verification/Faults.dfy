/** Page faults: what each kind of fault does to the page, and to nothing else. */
module Faults {
  import opened Types
  import opened AddressSpace
  import opened Machine
  import opened Views
  import opened World
  import opened FreshMaps
  import opened DemandFaults
  import opened Splitting
  import opened Manager
  import opened SplitCalls
  import opened MemoryCalls
  import opened FileFault
  import opened Reflag

  // ----- File pages -----

  /** A failed attempt: nothing the process sees has moved and nothing is lost. */
  lemma QuietFault(w: World, o: multiset<Slot>, s: World, pid: Pid)
    requires Live(w, o, pid) && Quiet(w, s, pid) && RefsOk(s.procs, s.frames, s.refs, o)
    ensures StepOk(w, o, s, o, pid) && pid in s.procs
    ensures SameView(w.frames, w.procs[pid], s.frames, s.procs[pid])
  {
    hide RefsOk, Books, StepOk, SameView, Quiet;
    LostPlus(o, 0);
    QuietStep(w, o, s, o, pid);
  }

  method ReadFilePage(mgr: ApeManager, pid: Pid, page: nat, files: Files) returns (r: Result<nat>)
    requires Live(mgr.s, mgr.owed, pid) && page in mgr.s.procs[pid].lazy
    requires Run(mgr.s.procs[pid].lazy, page, mgr.s.procs[pid].lazy[page], 1)
    modifies mgr
    ensures mgr.owed == old(mgr.owed) && StepOk(old(mgr.s), old(mgr.owed), mgr.s, mgr.owed, pid) && pid in mgr.s.procs
    ensures r.Ok? ==> r.value == 1 && Populated(old(mgr.s), mgr.s, pid, page, page + PGSIZE, files)
    ensures r.Ok? ==> Reaches(mgr.s, pid, page, old(mgr.s).procs[pid].lazy[page].flags)
    ensures r.Err? ==> SameView(old(mgr.s).frames, old(mgr.s).procs[pid], mgr.s.frames, mgr.s.procs[pid])
  {
    hide Live, SpaceOk, Run, RefsOk, Books, StepOk, SameView, Populated, Quiet, Plus, Mapped, Unmapped, FilePages,
         FramesExist, SpanWorld, Reaches;
    ghost var w, o := mgr.s, mgr.owed;
    LiveParts(w, o, pid);
    BooksParts(w, o, pid);
    RunFd(w.procs[pid], page, 1);
    var l := mgr.s.procs[pid].lazy[page];
    var alloc := mgr.AllocFrame();
    if alloc.Err? {
      QuietFailure(w, pid, Above(w.frames.Keys), [], 0, 0);
      QuietFault(w, o, mgr.s, pid);
      return Err(alloc.error);
    }
    var slot := alloc.value;
    QuietFailure(w, pid, slot, [ZeroPage()], page, 1);
    var mapped := mgr.MapProcessFrame(pid, slot, page, l.flags, 1);
    if mapped.Err? {
      GiveBack(mgr, pid, slot, w, o);
      QuietFault(w, o, mgr.s, pid);
      return Err(mapped.error);
    }
    var filled := ReadPage(mgr, slot, l.fd.value, l.offset, files);
    if filled.Err? {
      UnmapUndoes(w, pid, slot, page, l.flags);
      mgr.UnmapProcessPages(pid, page, 1);
      GiveBack(mgr, pid, slot, w, o);
      QuietFault(w, o, mgr.s, pid);
      return Err(filled.error);
    }
    UpdateTwice(w.frames, slot, [ZeroPage()], FilePages(files, l.fd.value, l.offset, 1));
    EnterSpan(mgr, pid, page, l, 1, slot, FilePages(files, l.fd.value, l.offset, 1), w, o);
    SpanStep(w, o, pid, page, l, 1, slot, files);
    SpanReaches(w, pid, page, l, 1, slot, FilePages(files, l.fd.value, l.offset, 1));
    StepOkParts(w, o, mgr.s, o, pid);
    r := Ok(1);
  }

  lemma SpanReaches(w: World, pid: Pid, page: nat, l: MemoryMap, n: nat, slot: Slot, pages: seq<Page>)
    requires pid in w.procs && pid in w.hw && |pages| == n && n >= 1
    ensures Reaches(SpanWorld(w, pid, page, l, n, slot, pages), pid, page, l.flags)
  {
    FreshReaches(w, pid, SpanMap(page, l, n, slot), pages, page, SpanSpace(w.procs[pid], SpanMap(page, l, n, slot)));
  }

  lemma RunFd(mm: MmState, page: nat, n: nat)
    requires SpaceOk(mm) && page in mm.lazy && Run(mm.lazy, page, mm.lazy[page], n)
    ensures mm.lazy[page].fd.Some? && mm.lazy[page].offset <= USIZE_MAX && page % PGSIZE == 0 && n >= 1
  {
  }

  lemma UnmapUndoes(w: World, pid: Pid, slot: Slot, page: nat, perms: Perms)
    requires pid in w.hw
    ensures w.hw[pid := Mapped(w.hw[pid], slot, page, perms, 1)]
              [pid := Unmapped(Mapped(w.hw[pid], slot, page, perms, 1), page, 1)] ==
            w.hw[pid := Unmapped(w.hw[pid], page, 1)]
  {
    var pt := Mapped(w.hw[pid], slot, page, perms, 1);
    assert Unmapped(pt, page, 1) == Unmapped(w.hw[pid], page, 1);
    UpdateTwice(w.hw, pid, pt, Unmapped(pt, page, 1));
  }

  /** `map_file_backed_fault_page`: the run found is populated page by page from the file at
      each page's own offset; a file that cannot be mapped gives one page. */
  method FaultFilePage(mgr: ApeManager, pid: Pid, page: nat, request: nat, fdOpen: bool, files: Files)
    returns (r: Result<nat>)
    requires Live(mgr.s, mgr.owed, pid) && page in mgr.s.procs[pid].lazy
             && mgr.s.procs[pid].lazy[page].memType == FileBacked
    modifies mgr
    ensures mgr.owed == old(mgr.owed) && StepOk(old(mgr.s), old(mgr.owed), mgr.s, mgr.owed, pid) && pid in mgr.s.procs
    ensures r.Ok? ==> r.value >= 1 && Populated(old(mgr.s), mgr.s, pid, page, page + r.value * PGSIZE, files)
    ensures r.Ok? ==> Reaches(mgr.s, pid, page, old(mgr.s).procs[pid].lazy[page].flags)
    ensures r.Ok? ==> r.value <= Max(request, 1)
    ensures r.Ok? && 1 < r.value < request ==>
              !Continues(old(mgr.s).procs[pid].lazy, page, old(mgr.s).procs[pid].lazy[page], r.value)
    ensures r.Err? ==> SameView(old(mgr.s).frames, old(mgr.s).procs[pid], mgr.s.frames, mgr.s.procs[pid])
  {
    hide Live, SpaceOk, Run, RefsOk, Books, StepOk, SameView, Populated, Quiet, Plus, Mapped, Unmapped, FilePages,
         FramesExist, SpanWorld, Reaches, Continues;
    ghost var w, o := mgr.s, mgr.owed;
    LiveParts(w, o, pid);
    BooksParts(w, o, pid);
    SplitNothing(w, o, pid);
    var l := mgr.s.procs[pid].lazy[page];
    if l.fd.None? {
      return Err(InvalidArgs);
    }
    var span := FindSpan(mgr.s.procs[pid].lazy, page, l, request);
    if !fdOpen {
      return Err(InvalidSlot);
    }
    RunFrom(w.procs[pid].lazy, page, span);
    RunFd(w.procs[pid], page, span);
    r := MapFileSpan(mgr, pid, page, span, files);
    if r == Err(NotSupported) {
      r := ReadFilePage(mgr, pid, page, files);
    }
  }

  /** The zero-copy path; NotSupported changes nothing at all. */
  method MapFileSpan(mgr: ApeManager, pid: Pid, page: nat, span: nat, files: Files) returns (r: Result<nat>)
    requires Live(mgr.s, mgr.owed, pid) && page in mgr.s.procs[pid].lazy
    requires Run(mgr.s.procs[pid].lazy, page, mgr.s.procs[pid].lazy[page], span)
    modifies mgr
    ensures mgr.owed == old(mgr.owed) && StepOk(old(mgr.s), old(mgr.owed), mgr.s, mgr.owed, pid) && pid in mgr.s.procs
    ensures r.Ok? ==> r.value == span && Populated(old(mgr.s), mgr.s, pid, page, page + span * PGSIZE, files)
    ensures r.Ok? ==> Reaches(mgr.s, pid, page, old(mgr.s).procs[pid].lazy[page].flags)
    ensures r.Err? ==> SameView(old(mgr.s).frames, old(mgr.s).procs[pid], mgr.s.frames, mgr.s.procs[pid])
    ensures r == Err(NotSupported) ==> mgr.s == old(mgr.s)
  {
    hide Live, SpaceOk, Run, RefsOk, Books, StepOk, SameView, Populated, Quiet, Plus, Mapped, Unmapped, FilePages,
         FramesExist, SpanWorld, Reaches;
    ghost var w, o := mgr.s, mgr.owed;
    LiveParts(w, o, pid);
    BooksParts(w, o, pid);
    SplitNothing(w, o, pid);
    RunFd(w.procs[pid], page, span);
    var l := mgr.s.procs[pid].lazy[page];
    var got := MapPages(mgr, l.fd.value, l.offset, span, files);
    if got.Err? {
      return Err(got.error);
    }
    var slot := got.value;
    QuietFailure(w, pid, slot, FilePages(files, l.fd.value, l.offset, span), page, span);
    var mapped := mgr.MapProcessFrame(pid, slot, page, l.flags, span);
    if mapped.Err? {
      GiveBack(mgr, pid, slot, w, o);
      QuietFault(w, o, mgr.s, pid);
      return Err(mapped.error);
    }
    EnterSpan(mgr, pid, page, l, span, slot, FilePages(files, l.fd.value, l.offset, span), w, o);
    SpanStep(w, o, pid, page, l, span, slot, files);
    SpanReaches(w, pid, page, l, span, slot, FilePages(files, l.fd.value, l.offset, span));
    StepOkParts(w, o, mgr.s, o, pid);
    r := Ok(span);
  }

  lemma RunFrom(lazy: Maps, page: nat, n: nat)
    requires page in lazy && lazy[page].memType == FileBacked && lazy[page].fd.Some? && n >= 1
    requires forall i | 1 <= i < n :: Continues(lazy, page, lazy[page], i)
    ensures Run(lazy, page, lazy[page], n) && Run(lazy, page, lazy[page], 1)
  {
  }

  // ----- Anonymous lazy pages -----

  /** The page is gone; every other page is what it was. */
  ghost predicate PageLost(w: World, w': World, pid: Pid, page: nat) {
    && pid in w.procs && pid in w'.procs
    && forall a: nat | a % PGSIZE == 0 ::
         PageAt(w'.frames, w'.procs[pid], a) == if a == page then None else PageAt(w.frames, w.procs[pid], a)
  }

  lemma LazyRemovedView(w: World, w1: World, w2: World, pid: Pid, page: nat)
    requires pid in w.procs && SpaceOk(w.procs[pid]) && page in w.procs[pid].lazy
    requires w1 == WithSpace(w, pid, w.procs[pid].(lazy := Remove(w.procs[pid].lazy, page)))
    requires pid in w2.procs && SameView(w1.frames, w1.procs[pid], w2.frames, w2.procs[pid])
    ensures PageLost(w, w2, pid, page)
  {
    forall a: nat | a % PGSIZE == 0
      ensures PageAt(w2.frames, w2.procs[pid], a) == if a == page then None else PageAt(w.frames, w.procs[pid], a)
    {
      assert PageAt(w2.frames, w2.procs[pid], a) == PageAt(w1.frames, w1.procs[pid], a);
      LookupExact(w.procs[pid].maps, a);
    }
  }

  lemma PageLostIsNotSame(w: World, w': World, pid: Pid, page: nat)
    requires PageLost(w, w', pid, page) && page % PGSIZE == 0
    requires PageAt(w.frames, w.procs[pid], page).Some?
    ensures !SameView(w.frames, w.procs[pid], w'.frames, w'.procs[pid])
  {
    hide PageAt;
  }

  lemma LazyFailed(w: World, o: multiset<Slot>, w1: World, s: World, owed: multiset<Slot>, pid: Pid, page: nat)
    requires Live(w, o, pid) && page in w.procs[pid].lazy && StepOk(w, o, w1, o, pid) && Books(w1, o)
    requires w1 == WithSpace(w, pid, w.procs[pid].(lazy := Remove(w.procs[pid].lazy, page)))
    requires Quiet(w1, s, pid) && LostOne(w1.frames.Keys, o, owed) && RefsOk(s.procs, s.frames, s.refs, owed)
    ensures StepOk(w, o, s, owed, pid) && pid in s.procs && PageLost(w, s, pid, page)
    ensures !SameView(w.frames, w.procs[pid], s.frames, s.procs[pid])
    ensures LostOne(w.frames.Keys, o, owed)
  {
    hide Books, StepOk, Quiet, Lost, LostOne, SpaceOk, RefsOk, SameView, PageLost;
    LiveParts(w, o, pid);
    LostOneIsLost(w1.frames.Keys, o, owed);
    QuietStep(w1, o, s, owed, pid);
    StepOkTransitive(w, o, w1, o, s, owed, pid);
    LazyRemovedView(w, w1, s, pid, page);
    LazyPageShows(w.frames, w.procs[pid], page);
    PageLostIsNotSame(w, s, pid, page);
  }

  lemma LazyPageShows(frames: Frames, mm: MmState, page: nat)
    requires SpaceOk(mm) && page in mm.lazy
    ensures page % PGSIZE == 0 && PageAt(frames, mm, page).Some?
  {
    LookupExact(mm.maps, page);
  }

  /** The lazy entry is removed first and the page mapped after: when mapping fails the page is
      lost, and with it perhaps a frame. */
  method FaultLazyPage(mgr: ApeManager, pid: Pid, page: nat) returns (r: Result<()>)
    requires Live(mgr.s, mgr.owed, pid) && page in mgr.s.procs[pid].lazy
    modifies mgr
    ensures StepOk(old(mgr.s), old(mgr.owed), mgr.s, mgr.owed, pid) && pid in mgr.s.procs
    ensures r.Ok? ==>
              var l := old(mgr.s).procs[pid].lazy[page];
              && mgr.owed == old(mgr.owed)
              && Filled(old(mgr.s), mgr.s, pid, page, page + PGSIZE, ZeroView(l.flags, l.memType))
              && Reaches(mgr.s, pid, page, l.flags)
    ensures r.Err? ==> !SameView(old(mgr.s).frames, old(mgr.s).procs[pid], mgr.s.frames, mgr.s.procs[pid])
    ensures r.Err? ==>
              PageLost(old(mgr.s), mgr.s, pid, page) && LostOne(old(mgr.s).frames.Keys, old(mgr.owed), mgr.owed)
  {
    hide Live, Books, StepOk, Quiet, Lost, LostOne, SpaceOk, RefsOk, MapsOk, SameView, CanAddFresh, Filled, FreeOfMaps,
         FramesExist, FrameUnheld, OutsideStack, PageLost, WithFreshMap, AgreeOn, Reaches;
    ghost var w, o := mgr.s, mgr.owed;
    LiveParts(w, o, pid);
    LazyPageFree(w.procs[pid], page);
    SpaceMapsOk(w.procs[pid]);
    AddressFree(w.procs[pid].maps, page);
    var l := mgr.s.procs[pid].lazy[page];
    RemoveLazy(mgr, pid, page);
    ghost var w1 := mgr.s;
    LiveParts(w1, o, pid);
    BooksParts(w1, o, pid);
    ghost var slot;
    r, slot := mgr.MapFaultPage(pid, page, l.flags, l.memType);
    if r.Ok? {
      CanAddDemand(w, o, pid, page, l.flags, l.memType, slot);
      LazyStep(w, o, pid, w1, FaultMap(page, l.flags, l.memType, slot));
      FreshReaches(w1, pid, FaultMap(page, l.flags, l.memType, slot), [ZeroPage()], page, w1.procs[pid]);
    } else {
      LazyFailed(w, o, w1, mgr.s, mgr.owed, pid, page);
    }
    StepOkParts(w, o, mgr.s, mgr.owed, pid);
  }

  // ----- Resident pages -----

  /** `remap_existing_page`: the map at `k` is mapped again with `perms`, which its entry then
      records. A failure can only take translations away. */
  method RemapExistingPage(mgr: ApeManager, pid: Pid, k: nat, perms: Perms) returns (r: Result<()>)
    requires Live(mgr.s, mgr.owed, pid) && k in mgr.s.procs[pid].maps && pid in mgr.s.hw
    modifies mgr
    ensures mgr.owed == old(mgr.owed) && pid in mgr.s.procs
    ensures r.Ok? ==> mgr.s == Reflagged(old(mgr.s), pid, k, perms)
    ensures r.Err? ==>
              && StepOk(old(mgr.s), old(mgr.owed), mgr.s, mgr.owed, pid)
              && SameView(old(mgr.s).frames, old(mgr.s).procs[pid], mgr.s.frames, mgr.s.procs[pid])
  {
    hide Live, Books, StepOk, Quiet, SpaceOk, RefsOk, MapsOk, SameView, FramesExist, Mapped, Unmapped, MemoryMap.Pages;
    ghost var w, o := mgr.s, mgr.owed;
    LiveParts(w, o, pid);
    BooksParts(w, o, pid);
    var m := mgr.s.procs[pid].maps[k];
    r := mgr.ReplaceMapping(pid, m.frameCap, k, perms, m.Pages());
    if r.Err? {
      UnmapQuiet(w, pid, k, m.Pages());
      QuietFault(w, o, mgr.s, pid);
    } else {
      SameHolders(mgr.s.procs, pid, k, perms);
      FramesExistReflagged(mgr.s.procs, mgr.s.frames, pid, k, perms);
      mgr.s := mgr.s.(procs := WithMaps(mgr.s.procs, pid, mgr.s.procs[pid].maps[k := m.(flags := perms)]));
    }
  }

  lemma UnmapQuiet(w: World, pid: Pid, k: nat, n: nat)
    requires w.hw.Keys == w.procs.Keys && pid in w.procs && FramesExist(w.procs, w.frames)
    ensures Quiet(w, w.(hw := w.hw[pid := Unmapped(w.hw[pid], k, n)]), pid)
  {
    SubTables(w.hw[pid], k, n);
    QuietAfter(w, pid, w.frames, Unmapped(w.hw[pid], k, n));
  }

  lemma FramesExistReflagged(procs: Procs, frames: Frames, pid: Pid, k: nat, perms: Perms)
    requires FramesExist(procs, frames) && pid in procs && k in procs[pid].maps
    ensures FramesExist(WithMaps(procs, pid, procs[pid].maps[k := procs[pid].maps[k].(flags := perms)]), frames)
  {
  }

  /** What the handler maps a resident page with: a copy-on-write map without write permission. */
  function RemapPerms(m: MemoryMap): Perms {
    if m.cow then m.flags.WithoutWrite() else m.flags
  }

  /** The remap of a resident fault keeps every invariant. Since the entry records the mapped
      permissions, the pages keep their view exactly when the map was not a writable
      copy-on-write one; such a map loses its write permission for good. */
  lemma ResidentFault(w: World, o: multiset<Slot>, pid: Pid, k: nat)
    requires Live(w, o, pid) && k in w.procs[pid].maps && Isolated(w) && Backed(w.frames, w.procs[pid].maps)
    ensures var w' := Reflagged(w, pid, k, RemapPerms(w.procs[pid].maps[k]));
            && StepOk(w, o, w', o, pid)
            && (SameView(w.frames, w.procs[pid], w'.frames, w'.procs[pid])
                <==> !(w.procs[pid].maps[k].cow && w.procs[pid].maps[k].flags.w))
  {
    hide Books, StepOk, SpaceOk, RefsOk, SameView, Mapped, FlagsSet, Isolated;
    var m := w.procs[pid].maps[k];
    LiveParts(w, o, pid);
    if m.flags.w && !m.cow {
      PrivateWritable(w, pid, k);
    }
    ReflagStep(w, o, pid, k, RemapPerms(m));
    ResidentFaultView(w, Reflagged(w, pid, k, RemapPerms(m)), pid, k);
  }

  lemma PrivateWritable(w: World, pid: Pid, k: nat)
    requires Isolated(w) && pid in w.procs && k in w.procs[pid].maps
    requires w.procs[pid].maps[k].flags.w && !w.procs[pid].maps[k].cow
    ensures Unshared(w.procs, pid, w.procs[pid].maps[k].frameCap)
  {
    forall q | q in w.procs && q != pid
      ensures !Holds(w.procs[q].maps, w.procs[pid].maps[k].frameCap)
    {
      assert Guarded(w.procs[pid].maps, w.procs[q].maps);
    }
  }

  lemma ResidentFaultView(w: World, w': World, pid: Pid, k: nat)
    requires pid in w.procs && k in w.procs[pid].maps && SpaceOk(w.procs[pid]) && Backed(w.frames, w.procs[pid].maps)
    requires FlagsSet(w, w', pid, k, w.procs[pid].maps[k].End(), RemapPerms(w.procs[pid].maps[k]))
    ensures SameView(w.frames, w.procs[pid], w'.frames, w'.procs[pid])
            <==> !(w.procs[pid].maps[k].cow && w.procs[pid].maps[k].flags.w)
  {
    hide PageAt, SpaceOk, Backed;
    var mm := w.procs[pid];
    var m := mm.maps[k];
    forall a: nat | a % PGSIZE == 0
      ensures k <= a < m.End() ==>
                PageAt(w.frames, mm, a).Some? && PageAt(w.frames, mm, a).value.Resident?
                && PageAt(w.frames, mm, a).value.flags == m.flags
      ensures k % PGSIZE == 0 && k < m.End()
    {
      ResidentPage(w.frames, mm, k, a);
    }
    assert k <= k < m.End() && k % PGSIZE == 0 by {
      ResidentPage(w.frames, mm, k, 0);
    }
  }

  lemma ResidentPage(frames: Frames, mm: MmState, k: nat, a: nat)
    requires SpaceOk(mm) && k in mm.maps && Backed(frames, mm.maps)
    ensures k <= a < mm.maps[k].End() ==>
              PageAt(frames, mm, a).Some? && PageAt(frames, mm, a).value.Resident?
              && PageAt(frames, mm, a).value.flags == mm.maps[k].flags
    ensures k % PGSIZE == 0 && k < mm.maps[k].End()
  {
    LookupExact(mm.maps, a);
    MapParts(mm.maps, k);
  }
}
