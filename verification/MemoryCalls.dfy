/** munmap: splitting, then clearing, a range. */
module MemoryCalls {
  import opened Types
  import opened AddressSpace
  import opened Machine
  import opened Views
  import opened World
  import opened DropMaps
  import opened Ranges
  import opened Splitting
  import opened Manager
  import opened SplitCalls
  import opened ExposedPages

  /** Removes the map at `k`: table entry, translations, reference. */
  method DropMap(mgr: ApeManager, pid: Pid, k: nat)
    requires mgr.Counted() && pid in mgr.s.procs && pid in mgr.s.hw
    requires k in mgr.s.procs[pid].maps && MapsOk(mgr.s.procs[pid].maps)
    modifies mgr
    ensures mgr.s == Dropped(old(mgr.s), pid, k) && mgr.owed == old(mgr.owed)
  {
    hide RefsOk, MapsOk, Plus, Minus, InHand, Unmapped, Released, FramesAfterRelease, Holds;
    var m := mgr.s.procs[pid].maps[k];
    ghost var o := mgr.owed;
    RefsDropMap(mgr.s.procs, mgr.s.frames, mgr.s.refs, o, pid, k);
    PlusMinus(o, m.frameCap);
    mgr.UnmapProcessPages(pid, k, m.Pages());
    mgr.s := mgr.s.(procs := WithMaps(mgr.s.procs, pid, Remove(mgr.s.procs[pid].maps, k)));
    mgr.owed := Plus(o, m.frameCap);
    mgr.ReleaseFrameSlot(m.frameCap);
  }

  // ----- munmap -----

  /** `[lo, page)` is cleared so far. */
  ghost predicate Clearing(w: World, o: multiset<Slot>, s: World, owed: multiset<Slot>, pid: Pid, lo: nat, page: nat) {
    && StepOk(w, o, s, owed, pid) && owed == o
    && pid in w.procs && pid in s.procs && Live(s, owed, pid)
    && s.procs[pid] == ClearedSpace(w.procs[pid], lo, page)
    && AgreeOn(w.frames, s.frames, s.procs[pid].maps)
  }

  lemma ClearingStart(w: World, o: multiset<Slot>, pid: Pid, lo: nat)
    requires Live(w, o, pid)
    ensures Clearing(w, o, w, o, pid, lo, lo)
  {
    ClearedNothing(w.procs[pid], lo);
    HeldFramesExist(w, o, pid);
    hide Books, OthersKept, AgreeOn, ClearedSpace, StepOk;
    StepOkReflexive(w, o, pid);
  }

  lemma ClearingNext(w: World, o: multiset<Slot>, s1: World, s2: World, pid: Pid, lo: nat, page: nat)
    requires Live(w, o, pid) && Clearing(w, o, s1, o, pid, lo, page)
    requires lo <= page && page % PGSIZE == 0
    requires StepOk(s1, o, s2, o, pid)
    requires pid in s1.procs && pid in s2.procs && s2.procs[pid] == PageCleared(s1.procs[pid], page)
    requires AgreeOn(s1.frames, s2.frames, s2.procs[pid].maps)
    ensures Clearing(w, o, s2, o, pid, lo, page + PGSIZE)
  {
    hide Books, SpaceOk, StepOk, AgreeOn, OthersKept, Lost, Without, WithoutLazy;
    StepOkParts(s1, o, s2, o, pid);
    StepOkTransitive(w, o, s1, o, s2, o, pid);
    BooksParts(w, o, pid);
    ClearedNext(w.procs[pid], lo, page);
    AgreeOnTransitive(w.frames, s1.frames, s2.frames, s1.procs[pid].maps, s2.procs[pid].maps);
  }

  /** `remove_lazy_memory_map`, of a page that may have none. */
  method RemoveLazy(mgr: ApeManager, pid: Pid, page: nat)
    requires Live(mgr.s, mgr.owed, pid)
    modifies mgr`s
    ensures StepOk(old(mgr.s), mgr.owed, mgr.s, mgr.owed, pid) && Live(mgr.s, mgr.owed, pid)
    ensures mgr.s == WithSpace(old(mgr.s), pid,
                               old(mgr.s).procs[pid].(lazy := Remove(old(mgr.s).procs[pid].lazy, page)))
    ensures AgreeOn(old(mgr.s).frames, mgr.s.frames, mgr.s.procs[pid].maps)
  {
    hide Live, RefsOk, Books, MapsOk, SpaceOk, StepOk, AgreeOn, OthersKept, Lost;
    ghost var w, o := mgr.s, mgr.owed;
    LiveParts(w, o, pid);
    var mm := mgr.s.procs[pid];
    SpaceDropLazy(mm, page);
    SameMapsStep(w, o, pid, mm.(lazy := Remove(mm.lazy, page)));
    HeldFramesExist(w, o, pid);
    mgr.s := WithSpace(mgr.s, pid, mm.(lazy := Remove(mm.lazy, page)));
    StepOkParts(w, o, mgr.s, o, pid);
    MakeLive(mgr.s, o, pid);
  }

  /** One page of munmap: its lazy entry goes, and so does a remappable map starting there. */
  method ClearPage(mgr: ApeManager, pid: Pid, page: nat)
    requires Live(mgr.s, mgr.owed, pid)
    modifies mgr
    ensures StepOk(old(mgr.s), old(mgr.owed), mgr.s, mgr.owed, pid) && mgr.owed == old(mgr.owed)
    ensures pid in mgr.s.procs && mgr.s.procs[pid] == PageCleared(old(mgr.s).procs[pid], page)
    ensures AgreeOn(old(mgr.s).frames, mgr.s.frames, mgr.s.procs[pid].maps)
    ensures KeepsExposed(old(mgr.s), mgr.s, pid, page, page + 1)
  {
    hide RefsOk, Live, Books, MapsOk, SpaceOk, StepOk, AgreeOn, Dropped, OthersKept, Lost, KeepsExposed;
    ghost var w, o := mgr.s, mgr.owed;
    LiveParts(w, o, pid);
    SpaceKeepsExposed(w, pid, w.procs[pid].(lazy := Remove(w.procs[pid].lazy, page)));
    RemoveLazy(mgr, pid, page);
    ghost var w1 := mgr.s;
    LiveParts(w1, o, pid);
    SpaceMapsOk(w1.procs[pid]);
    KeepsExposedMore(w, w1, pid, page, page + 1);
    var mm := mgr.s.procs[pid];
    assert mm == w.procs[pid].(lazy := Remove(w.procs[pid].lazy, page));
    if page in mm.maps && IsRemappable(mm.maps[page].memType) {
      DropStep(w1, o, pid, page);
      DropKeepsExposed(w1, pid, page);
      KeepsExposedThen(w, w1, Dropped(w1, pid, page), pid, page, page + 1, page, page + 1);
      DropMap(mgr, pid, page);
      StepOkTransitive(w, o, w1, o, mgr.s, o, pid);
    }
  }

  /** The page loop of munmap and MAP_FIXED. */
  method ClearRange(mgr: ApeManager, pid: Pid, start: nat, end: nat)
    requires Live(mgr.s, mgr.owed, pid)
    requires start % PGSIZE == 0 && end % PGSIZE == 0 && start <= end
    requires NoStraddle(mgr.s.procs[pid].maps, start, end)
    modifies mgr
    ensures StepOk(old(mgr.s), old(mgr.owed), mgr.s, mgr.owed, pid) && mgr.owed == old(mgr.owed)
    ensures pid in mgr.s.procs && mgr.s.procs[pid] == ClearedSpace(old(mgr.s).procs[pid], start, end)
    ensures Cleared(old(mgr.s), mgr.s, pid, start, end) && KeepsExposed(old(mgr.s), mgr.s, pid, start, end)
  {
    hide Live, Clearing, StepOk, Cleared, NoStraddle, SpaceOk, Books, ClearedSpace, AgreeOn, RefsOk, KeepsExposed;
    ghost var w, o := mgr.s, mgr.owed;
    LiveParts(w, o, pid);
    ClearingStart(w, o, pid, start);
    KeepsExposedSelf(w, pid, start, end);
    var page := start;
    while page < end
      invariant start <= page <= end && page % PGSIZE == 0
      invariant mgr.owed == o && Clearing(w, o, mgr.s, o, pid, start, page) && KeepsExposed(w, mgr.s, pid, start, end)
    {
      ghost var w1 := mgr.s;
      ClearingParts(w, o, w1, pid, start, page);
      ClearPage(mgr, pid, page);
      KeepsExposedThen(w, w1, mgr.s, pid, start, end, page, page + 1);
      ClearingNext(w, o, w1, mgr.s, pid, start, page);
      page := page + PGSIZE;
    }
    ClearingParts(w, o, mgr.s, pid, start, page);
    ClearedView(w, mgr.s, pid, start, end);
  }

  lemma ClearingParts(w: World, o: multiset<Slot>, s: World, pid: Pid, lo: nat, page: nat)
    requires Clearing(w, o, s, o, pid, lo, page)
    ensures Live(s, o, pid) && pid in s.procs && pid in w.procs && StepOk(w, o, s, o, pid)
    ensures s.procs[pid] == ClearedSpace(w.procs[pid], lo, page)
    ensures AgreeOn(w.frames, s.frames, s.procs[pid].maps)
  {
  }

  /** munmap is exact: on success every anonymous, file-backed and lazy page of the rounded range
      is gone and every other page, of a straddling map too, is what it was. A refused or failed
      call changes no page. Copy-on-write stays sound exactly when no writable copy-on-write map
      crosses an end of the range. */
  method Munmap(mgr: ApeManager, pid: Pid, addr: nat, len: nat) returns (r: Result<()>)
    requires Live(mgr.s, mgr.owed, pid)
    modifies mgr
    ensures r.Ok? ==> len > 0 && addr % PGSIZE == 0 && addr + AlignUp(len) <= USIZE_MAX
    ensures r.Ok? ==> Cleared(old(mgr.s), mgr.s, pid, addr, addr + AlignUp(len))
    ensures r.Err? ==> pid in mgr.s.procs
                       && SameView(old(mgr.s).frames, old(mgr.s).procs[pid], mgr.s.frames, mgr.s.procs[pid])
    ensures mgr.owed == old(mgr.owed) && Live(mgr.s, mgr.owed, pid) && OthersKept(old(mgr.s), mgr.s, pid)
    ensures Translated(old(mgr.s)) ==> Translated(mgr.s)
    ensures PrivateTargets(old(mgr.s).procs[pid].maps, addr, addr + AlignUp(len)) ==>
              StepOk(old(mgr.s), old(mgr.owed), mgr.s, mgr.owed, pid)
    ensures r.Ok? && Translated(old(mgr.s)) && Isolated(old(mgr.s)) ==>
              (Isolated(mgr.s) <==> PrivateTargets(old(mgr.s).procs[pid].maps, addr, addr + AlignUp(len)))
  {
    hide FromMaps, ExposedOutside, KeepsExposed, Isolated, Live, Books, OthersKept, StepOk, SameView, Translated,
         PrivateTargets, NoStraddle, Cleared, SpaceOk, RefsOk;
    ghost var w, o := mgr.s, mgr.owed;
    LiveParts(w, o, pid);
    SplitNothing(w, o, pid);
    if len == 0 || addr % PGSIZE != 0 {
      return Err(InvalidArgs);
    }
    var end := CheckedAdd(addr, AlignUp(len));
    if end.None? {
      return Err(OutOfMemory);
    }
    r := EnsureSplit(mgr, pid, addr, end.value);
    if r.Err? {
      return;
    }
    ghost var w1 := mgr.s;
    ClearRange(mgr, pid, addr, end.value);
    MunmapDone(w, o, w1, mgr.s, pid, addr, end.value);
    ExposedStays(w, o, w1, mgr.s, pid, addr, end.value);
  }

  /** What a split has exposed the clearing leaves exposed. */
  lemma ExposedStays(w: World, o: multiset<Slot>, w1: World, w2: World, pid: Pid, lo: nat, hi: nat)
    requires Live(w, o, pid) && Live(w2, o, pid) && KeepsExposed(w1, w2, pid, lo, hi)
    requires !PrivateTargets(w.procs[pid].maps, lo, hi) ==> ExposedOutside(w1, pid, lo, hi)
    requires PrivateTargets(w.procs[pid].maps, lo, hi) ==> StepOk(w, o, w2, o, pid)
    ensures Translated(w) && Isolated(w) ==> (Isolated(w2) <==> PrivateTargets(w.procs[pid].maps, lo, hi))
    ensures !PrivateTargets(w.procs[pid].maps, lo, hi) ==> ExposedOutside(w2, pid, lo, hi)
  {
    hide Live, Books, StepOk, Translated, Isolated, ExposedOutside, KeepsExposed, PrivateTargets;
    LiveParts(w, o, pid);
    LiveParts(w2, o, pid);
    if PrivateTargets(w.procs[pid].maps, lo, hi) {
      StepOkParts(w, o, w2, o, pid);
    } else {
      StillExposed(w1, w2, pid, lo, hi);
      ExposedNotIsolated(w2, pid, lo, hi);
    }
  }

  lemma MunmapDone(w: World, o: multiset<Slot>, w1: World, w2: World, pid: Pid, lo: nat, hi: nat)
    requires Live(w, o, pid) && OthersKept(w, w1, pid) && pid in w1.procs
    requires SameView(w.frames, w.procs[pid], w1.frames, w1.procs[pid])
    requires StepOk(w1, o, w2, o, pid) && Cleared(w1, w2, pid, lo, hi)
    requires Translated(w) ==> Translated(w1)
    ensures Translated(w) ==> Translated(w2)
    ensures Cleared(w, w2, pid, lo, hi) && Live(w2, o, pid) && OthersKept(w, w2, pid)
    ensures StepOk(w, o, w1, o, pid) ==> StepOk(w, o, w2, o, pid)
  {
    hide Books, OthersKept, StepOk, SameView, Translated, Isolated, Cleared;
    LiveParts(w, o, pid);
    SameThenCleared(w, w1, w2, pid, lo, hi);
    StepOkParts(w1, o, w2, o, pid);
    OthersKeptParts(w, w1, pid);
    MakeLive(w2, o, pid);
    OthersKeptTransitive(w, w1, w2, pid);
    if StepOk(w, o, w1, o, pid) {
      StepOkTransitive(w, o, w1, o, w2, o, pid);
    }
  }
}
