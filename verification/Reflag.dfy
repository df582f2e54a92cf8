/** Changing a map's permissions: a resident fault, the Image permission flip and mprotect. */
module Reflag {
  import opened Types
  import opened AddressSpace
  import opened Machine
  import opened Views
  import opened World
  import opened DropMaps
  import opened Remaps
  import opened Splitting

  /** The map at `k` mapped and recorded with `perms`. */
  ghost function Reflagged(w: World, pid: Pid, k: nat, perms: Perms): World
    requires pid in w.procs && pid in w.hw && k in w.procs[pid].maps
  {
    var m := w.procs[pid].maps[k];
    w.(procs := WithMaps(w.procs, pid, w.procs[pid].maps[k := m.(flags := perms)]),
       hw := w.hw[pid := Mapped(w.hw[pid], m.frameCap, k, perms, m.Pages())])
  }

  /** No other process holds the frame. */
  predicate Unshared(procs: Procs, pid: Pid, slot: Slot) {
    forall q | q in procs && q != pid :: !Holds(procs[q].maps, slot)
  }

  /** A page writable in hardware has a frame that no other process holds. */
  ghost predicate Exclusive(w: World) {
    forall p, a | p in w.hw && p in w.running && a in w.hw[p] && w.hw[p][a].perms.w ::
             Unshared(w.procs, p, w.hw[p][a].slot)
  }

  lemma IsolatedIsExclusive(w: World)
    requires w.hw.Keys == w.procs.Keys && Translated(w) && Isolated(w)
    ensures Exclusive(w)
  {
    forall p, a | p in w.hw && p in w.running && a in w.hw[p] && w.hw[p][a].perms.w
      ensures Unshared(w.procs, p, w.hw[p][a].slot)
    {
      assert TableOk(w.hw[p], w.procs[p].maps) && WritesOk(w.hw[p], w.procs[p].maps);
      forall q | q in w.procs && q != p
        ensures !Holds(w.procs[q].maps, w.hw[p][a].slot)
      {
        assert Guarded(w.procs[p].maps, w.procs[q].maps);
        WritableUnheld(w.hw[p], w.procs[p].maps, w.procs[q].maps, a);
      }
    }
  }

  lemma WritableUnheld(pt: PageTable, maps: Maps, others: Maps, a: nat)
    requires TableOk(pt, maps) && WritesOk(pt, maps) && Guarded(maps, others)
    requires a in pt && pt[a].perms.w
    ensures !Holds(others, pt[a].slot)
  {
    assert PteOk(pt[a], a, maps);
  }

  // ----- The view -----

  function WithFlags(v: Option<PageView>, perms: Perms): Option<PageView> {
    match v
    case Some(Resident(data, _, memType, fd, offset)) => Some(Resident(data, perms, memType, fd, offset))
    case _ => v
  }

  /** The resident pages of `[lo, hi)` have permissions `perms` now; nothing else changed. */
  ghost predicate FlagsSet(w: World, w': World, pid: Pid, lo: nat, hi: nat, perms: Perms) {
    && pid in w.procs && pid in w'.procs
    && forall a: nat | a % PGSIZE == 0 ::
         PageAt(w'.frames, w'.procs[pid], a) ==
           if lo <= a < hi then WithFlags(PageAt(w.frames, w.procs[pid], a), perms)
           else PageAt(w.frames, w.procs[pid], a)
  }

  lemma ReflagSpace(mm: MmState, k: nat, perms: Perms)
    requires SpaceOk(mm) && k in mm.maps
    ensures SpaceOk(mm.(maps := mm.maps[k := mm.maps[k].(flags := perms)]))
    ensures MapsOk(mm.maps[k := mm.maps[k].(flags := perms)])
  {
    MapParts(mm.maps, k);
    OneHolder(mm.maps, k);
    assert mm.maps[k].frameCap != 0;
    hide StackOk, LazyOk, Apart, MapsOk;
    SpaceReplaceMap(mm, k, mm.maps[k].(flags := perms));
    SpaceMapsOk(mm.(maps := mm.maps[k := mm.maps[k].(flags := perms)]));
  }

  lemma OneHolder(maps: Maps, k: nat)
    requires MapsOk(maps) && k in maps
    ensures FrameUnheld(Remove(maps, k), maps[k].frameCap)
  {
  }

  lemma ReflagView(w: World, owed: multiset<Slot>, pid: Pid, k: nat, perms: Perms)
    requires Live(w, owed, pid) && k in w.procs[pid].maps
    ensures FlagsSet(w, Reflagged(w, pid, k, perms), pid, k, w.procs[pid].maps[k].End(), perms)
  {
    hide RefsOk, Books, PageAt, Mapped;
    LiveParts(w, owed, pid);
    forall a: nat | a % PGSIZE == 0
      ensures PageAt(w.frames, Reflagged(w, pid, k, perms).procs[pid], a) ==
                if k <= a < w.procs[pid].maps[k].End() then WithFlags(PageAt(w.frames, w.procs[pid], a), perms)
                else PageAt(w.frames, w.procs[pid], a)
    {
      ReflagPage(w.frames, w.procs[pid], k, perms, a);
    }
  }

  lemma ReflagPage(frames: Frames, mm: MmState, k: nat, perms: Perms, a: nat)
    requires SpaceOk(mm) && k in mm.maps
    ensures var mm' := mm.(maps := mm.maps[k := mm.maps[k].(flags := perms)]);
            PageAt(frames, mm', a) ==
              if k <= a < mm.maps[k].End() then WithFlags(PageAt(frames, mm, a), perms) else PageAt(frames, mm, a)
  {
    MapParts(mm.maps, k);
    OneHolder(mm.maps, k);
    assert mm.maps[k].frameCap != 0;
    PageAtReplaceMap(frames, mm, k, mm.maps[k].(flags := perms), a);
    LookupExact(mm.maps, a);
  }

  // ----- The invariants -----

  lemma RefsSameHolders(procs: Procs, procs': Procs, frames: Frames, refs: map<Slot, nat>, owed: multiset<Slot>)
    requires RefsOk(procs, frames, refs, owed)
    requires FramesExist(procs', frames)
    requires forall slot :: Holders(procs', slot) == Holders(procs, slot)
    ensures RefsOk(procs', frames, refs, owed)
  {
    forall slot | slot in frames
      ensures Balanced(procs', refs, owed, slot)
    {
      assert Balanced(procs, refs, owed, slot);
    }
  }

  lemma ReflagRefs(w: World, owed: multiset<Slot>, pid: Pid, k: nat, perms: Perms)
    requires Live(w, owed, pid) && k in w.procs[pid].maps
    ensures RefsOk(Reflagged(w, pid, k, perms).procs, w.frames, w.refs, owed)
    ensures OthersKept(w, Reflagged(w, pid, k, perms), pid)
  {
    hide Books, SpaceOk, Mapped, RefsOk, Holders, FramesExist, FramesKept, Live, OthersKept, MapsOk;
    LiveParts(w, owed, pid);
    BooksParts(w, owed, pid);
    var m := w.procs[pid].maps[k];
    var maps' := w.procs[pid].maps[k := m.(flags := perms)];
    var w' := Reflagged(w, pid, k, perms);
    SameHolders(w.procs, pid, k, perms);
    FramesOf(w, owed, pid);
    FramesExistWithMaps(w.procs, w.frames, pid, maps');
    RefsSameHolders(w.procs, w'.procs, w.frames, w.refs, owed);
    HeldKept(w.procs, w.frames);
    OthersFrom(w, pid, w.procs[pid].(maps := maps'), Mapped(w.hw[pid], m.frameCap, k, perms, m.Pages()), w.frames,
               w.refs);
  }

  lemma SameHolders(procs: Procs, pid: Pid, k: nat, perms: Perms)
    requires pid in procs && k in procs[pid].maps
    ensures var maps' := procs[pid].maps[k := procs[pid].maps[k].(flags := perms)];
            && (forall slot :: Holds(maps', slot) <==> Holds(procs[pid].maps, slot))
            && (forall slot :: Holders(WithMaps(procs, pid, maps'), slot) == Holders(procs, slot))
  {
    var maps := procs[pid].maps;
    var maps' := maps[k := maps[k].(flags := perms)];
    forall slot
      ensures Holds(maps', slot) <==> Holds(maps, slot)
    {
      if Holds(maps, slot) {
        var j :| j in maps && maps[j].frameCap == slot;
        assert j in maps' && maps'[j].frameCap == slot;
      }
      if Holds(maps', slot) {
        var j :| j in maps' && maps'[j].frameCap == slot;
        assert j in maps && maps[j].frameCap == slot;
      }
    }
    forall slot
      ensures Holders(WithMaps(procs, pid, maps'), slot) == Holders(procs, slot)
    {
      assert Holders(WithMaps(procs, pid, maps'), slot) == Holders(procs, slot);
    }
  }

  lemma ReflagTable(pt: PageTable, maps: Maps, k: nat, perms: Perms)
    requires MapsOk(maps) && k in maps && TableOk(pt, maps)
    ensures var pt' := Mapped(pt, maps[k].frameCap, k, perms, maps[k].Pages());
            var maps' := maps[k := maps[k].(flags := perms)];
            && TableOk(pt', maps')
            && (WritesOk(pt, maps) && (perms.w ==> !maps[k].cow) ==> WritesOk(pt', maps'))
  {
    hide Mapped, MapsOk, SubTable;
    var pt' := Mapped(pt, maps[k].frameCap, k, perms, maps[k].Pages());
    var maps' := maps[k := maps[k].(flags := perms)];
    SubTableSelf(pt');
    RemapEntries(pt, pt', maps, k, perms);
    RangeRemapped(pt, maps, k, perms);
  }

  lemma SubTableSelf(pt: PageTable)
    ensures SubTable(pt, pt)
  {
  }

  /** Every translation of the map at `k` is a new one. */
  lemma RangeRemapped(pt: PageTable, maps: Maps, k: nat, perms: Perms)
    requires MapsOk(maps) && k in maps && TableOk(pt, maps)
    ensures var pt' := Mapped(pt, maps[k].frameCap, k, perms, maps[k].Pages());
            forall a | a in pt' && a - pt'[a].idx * PGSIZE == k :: pt'[a].perms == perms
  {
    var pt' := Mapped(pt, maps[k].frameCap, k, perms, maps[k].Pages());
    forall a | a in pt' && a - pt'[a].idx * PGSIZE == k
      ensures pt'[a].perms == perms
    {
      if a !in PageSet(k, maps[k].Pages()) {
        PteInRange(pt[a], a, maps, k);
      }
    }
  }

  lemma ReflagTranslated(w: World, owed: multiset<Slot>, pid: Pid, k: nat, perms: Perms)
    requires Live(w, owed, pid) && k in w.procs[pid].maps && Translated(w)
    ensures Translated(Reflagged(w, pid, k, perms))
  {
    hide Books, Mapped, MapsOk, RefsOk, SpaceOk, OthersKept, TableOk, Translated;
    var w' := Reflagged(w, pid, k, perms);
    LiveParts(w, owed, pid);
    BooksParts(w, owed, pid);
    TranslatedParts(w, pid);
    ReflagRefs(w, owed, pid, k, perms);
    ReflagTable(w.hw[pid], w.procs[pid].maps, k, perms);
    TranslatedByPid(w, w', pid);
  }

  lemma ReflagIsolated(w: World, owed: multiset<Slot>, pid: Pid, k: nat, perms: Perms)
    requires Live(w, owed, pid) && k in w.procs[pid].maps && Translated(w) && Isolated(w)
    requires perms.w ==> !w.procs[pid].maps[k].cow && Unshared(w.procs, pid, w.procs[pid].maps[k].frameCap)
    ensures Isolated(Reflagged(w, pid, k, perms))
  {
    hide Books, Mapped, MapsOk, RefsOk, SpaceOk, OthersKept, TableOk, WritesOk;
    var maps := w.procs[pid].maps;
    var w' := Reflagged(w, pid, k, perms);
    LiveParts(w, owed, pid);
    BooksParts(w, owed, pid);
    TranslatedParts(w, pid);
    ReflagRefs(w, owed, pid, k, perms);
    ReflagTable(w.hw[pid], maps, k, perms);
    forall q | q in w.procs && q != pid
      ensures Guarded(w'.procs[pid].maps, w.procs[q].maps) && Guarded(w.procs[q].maps, w'.procs[pid].maps)
    {
      assert Guarded(maps, w.procs[q].maps) && Guarded(w.procs[q].maps, maps);
      ReflagGuarded(maps, w.procs[q].maps, k, perms);
    }
    IsolatedByPid(w, w', pid);
  }

  lemma ReflagGuarded(maps: Maps, others: Maps, k: nat, perms: Perms)
    requires k in maps && Guarded(maps, others) && Guarded(others, maps)
    requires perms.w ==> !Holds(others, maps[k].frameCap)
    ensures Guarded(maps[k := maps[k].(flags := perms)], others)
    ensures Guarded(others, maps[k := maps[k].(flags := perms)])
  {
  }

  /** Changing permissions keeps the books and the translation always, and isolation when no
      write permission is given to a copy-on-write or shared map. */
  lemma ReflagStep(w: World, owed: multiset<Slot>, pid: Pid, k: nat, perms: Perms)
    requires Live(w, owed, pid) && k in w.procs[pid].maps
    ensures var w' := Reflagged(w, pid, k, perms);
            var m := w.procs[pid].maps[k];
            && Live(w', owed, pid) && OthersKept(w, w', pid)
            && (Translated(w) ==> Translated(w'))
            && FlagsSet(w, w', pid, k, m.End(), perms)
            && ((perms.w ==> !m.cow && Unshared(w.procs, pid, m.frameCap)) ==> StepOk(w, owed, w', owed, pid))
  {
    hide Books, Mapped, MapsOk, RefsOk, SpaceOk, OthersKept, Translated, Isolated, FlagsSet, Lost, StepOk, Unshared;
    var w' := Reflagged(w, pid, k, perms);
    var m := w.procs[pid].maps[k];
    LiveParts(w, owed, pid);
    ReflagSpace(w.procs[pid], k, perms);
    ReflagRefs(w, owed, pid, k, perms);
    BooksByPid(w, owed, w', owed, pid);
    ReflagView(w, owed, pid, k, perms);
    if Translated(w) {
      ReflagTranslated(w, owed, pid, k, perms);
    }
    if perms.w ==> !m.cow && Unshared(w.procs, pid, m.frameCap) {
      if Translated(w) && Isolated(w) {
        ReflagIsolated(w, owed, pid, k, perms);
      }
      LostPlus(owed, 0);
      StepFrom(w, owed, w', owed, pid);
    }
  }

  /** At that moment every writable page is private exactly when no other process holds the frame.
      That is not enough for what comes after: see ReflagIsolatedIff. */
  lemma ReflagExclusiveIff(w: World, owed: multiset<Slot>, pid: Pid, k: nat, perms: Perms)
    requires Live(w, owed, pid) && k in w.procs[pid].maps && Translated(w) && Isolated(w)
    ensures Exclusive(Reflagged(w, pid, k, perms)) <==>
              (perms.w ==> Unshared(w.procs, pid, w.procs[pid].maps[k].frameCap))
  {
    hide Books, RefsOk, SpaceOk, Translated, Isolated, PageSet, Unshared;
    var w' := Reflagged(w, pid, k, perms);
    var m := w.procs[pid].maps[k];
    LiveParts(w, owed, pid);
    BooksParts(w, owed, pid);
    IsolatedIsExclusive(w);
    SameHolders(w.procs, pid, k, perms);
    UnsharedSame(w.procs, pid, k, perms);
    FirstPage(w.procs[pid].maps, k);
    assert w'.hw[pid][k] == Pte(m.frameCap, 0, perms);
  }

  /** New permissions keep copy-on-write sound exactly when write permission goes to no map that is
      marked copy-on-write or shared. */
  lemma ReflagIsolatedIff(w: World, owed: multiset<Slot>, pid: Pid, k: nat, perms: Perms)
    requires Live(w, owed, pid) && k in w.procs[pid].maps && Translated(w) && Isolated(w)
    ensures Isolated(Reflagged(w, pid, k, perms)) <==>
              (perms.w ==> !w.procs[pid].maps[k].cow && Unshared(w.procs, pid, w.procs[pid].maps[k].frameCap))
  {
    hide Books, RefsOk, SpaceOk, Translated, Isolated, Exclusive, PageSet, Unshared, Mapped;
    var w' := Reflagged(w, pid, k, perms);
    if perms.w ==> !w.procs[pid].maps[k].cow && Unshared(w.procs, pid, w.procs[pid].maps[k].frameCap) {
      ReflagIsolated(w, owed, pid, k, perms);
    }
    if Isolated(w') && perms.w {
      LiveParts(w, owed, pid);
      BooksParts(w, owed, pid);
      ReflagTranslated(w, owed, pid, k, perms);
      IsolatedIsExclusive(w');
      ReflagExclusiveIff(w, owed, pid, k, perms);
      ReflaggedNotCow(w, owed, pid, k, perms);
    }
  }

  lemma ReflaggedNotCow(w: World, owed: multiset<Slot>, pid: Pid, k: nat, perms: Perms)
    requires Live(w, owed, pid) && k in w.procs[pid].maps && perms.w && Isolated(Reflagged(w, pid, k, perms))
    ensures !w.procs[pid].maps[k].cow
  {
    hide Books, RefsOk, SpaceOk, Sharing, PageSet;
    var w' := Reflagged(w, pid, k, perms);
    LiveParts(w, owed, pid);
    SpaceMapsOk(w.procs[pid]);
    FirstPage(w.procs[pid].maps, k);
    assert w'.hw[pid][k] == Pte(w.procs[pid].maps[k].frameCap, 0, perms);
    assert WritesOk(w'.hw[pid], w'.procs[pid].maps);
  }

  /** A map left marked by a fork whose child is gone: its page is private now, but it is writable
      while still marked, so the next fork will not write-protect it. */
  lemma MarkedPrivateNotIsolated(w: World, owed: multiset<Slot>, pid: Pid, k: nat, perms: Perms)
    requires Live(w, owed, pid) && k in w.procs[pid].maps && Translated(w) && Isolated(w) && perms.w
    requires w.procs[pid].maps[k].cow && Unshared(w.procs, pid, w.procs[pid].maps[k].frameCap)
    ensures Exclusive(Reflagged(w, pid, k, perms)) && !Isolated(Reflagged(w, pid, k, perms))
  {
    hide Live, Translated, Isolated, Exclusive, Unshared, Reflagged;
    ReflagExclusiveIff(w, owed, pid, k, perms);
    ReflagIsolatedIff(w, owed, pid, k, perms);
  }

  lemma FirstPage(maps: Maps, k: nat)
    requires MapsOk(maps) && k in maps
    ensures k in PageSet(k, maps[k].Pages())
  {
    assert maps[k].size > 0 && maps[k].size == maps[k].Pages() * PGSIZE;
    assert IsPageOf(k, k, maps[k].Pages());
  }

  lemma UnsharedSame(procs: Procs, pid: Pid, k: nat, perms: Perms)
    requires pid in procs && k in procs[pid].maps
    ensures var procs' := WithMaps(procs, pid, procs[pid].maps[k := procs[pid].maps[k].(flags := perms)]);
            forall p, slot :: Unshared(procs', p, slot) <==> Unshared(procs, p, slot)
  {
    SameHolders(procs, pid, k, perms);
    var procs' := WithMaps(procs, pid, procs[pid].maps[k := procs[pid].maps[k].(flags := perms)]);
    forall p, slot
      ensures Unshared(procs', p, slot) <==> Unshared(procs, p, slot)
    {
      assert forall q | q in procs :: Holds(procs'[q].maps, slot) <==> Holds(procs[q].maps, slot);
    }
  }
}
