/** mprotect and brk. */
module ProtectCalls {
  import opened Types
  import opened AddressSpace
  import opened Machine
  import opened Views
  import opened World
  import opened CowFault
  import opened DropMaps
  import opened Ranges
  import opened Splitting
  import opened Manager
  import opened SplitCalls
  import opened Reflag

  // ----- mprotect -----

  /** The maps at `done` have been given `perms`: `v` is the world with tables and translations
      both changed. */
  ghost predicate Protecting(w: World, o: multiset<Slot>, v: World, pid: Pid, done: set<nat>, perms: Perms) {
    && Live(w, o, pid) && Live(v, o, pid) && OthersKept(w, v, pid)
    && v.frames == w.frames && v.refs == w.refs && v.running == w.running
    && v.procs == w.procs[pid := w.procs[pid].(maps := v.procs[pid].maps)]
    && done <= w.procs[pid].maps.Keys && v.procs[pid].maps.Keys == w.procs[pid].maps.Keys
    && (forall k | k in w.procs[pid].maps ::
          v.procs[pid].maps[k] == if k in done then w.procs[pid].maps[k].(flags := perms) else w.procs[pid].maps[k])
    && PagesProtected(w.hw[pid], v.hw[pid], w.procs[pid].maps, done, perms)
    && (Translated(w) ==> Translated(v))
    && (MayProtect(w, pid, done, perms) ==> StepOk(w, o, v, o, pid))
  }

  /** A translation is an old one or a new one of a map in `done`, whose first page has a new one. */
  ghost predicate PagesProtected(pt: PageTable, pt': PageTable, maps: Maps, done: set<nat>, perms: Perms) {
    && (forall a | a in pt' ::
          || (a in pt && pt'[a] == pt[a])
          || (pt'[a].perms == perms && pt'[a].idx * PGSIZE <= a && a - pt'[a].idx * PGSIZE in done))
    && (forall j | j in done && j in maps :: j in pt' && pt'[j] == Pte(maps[j].frameCap, 0, perms))
  }

  lemma PagesProtectedNext(pt: PageTable, pt1: PageTable, maps: Maps, done: set<nat>, perms: Perms, k: nat)
    requires PagesProtected(pt, pt1, maps, done, perms) && MapsOk(maps) && k in maps && k !in done
    ensures PagesProtected(pt, Mapped(pt1, maps[k].frameCap, k, perms, maps[k].Pages()), maps, done + {k}, perms)
  {
    hide MapsOk, MemoryMap.Pages, Mapped;
    var pt' := Mapped(pt1, maps[k].frameCap, k, perms, maps[k].Pages());
    forall a | a in pt'
      ensures || (a in pt && pt'[a] == pt[a])
              || (pt'[a].perms == perms && pt'[a].idx * PGSIZE <= a && a - pt'[a].idx * PGSIZE in done + {k})
    {
      NewEntry(pt1, maps[k].frameCap, k, perms, maps[k].Pages(), a);
    }
    FirstPage(maps, k);
    NewEntry(pt1, maps[k].frameCap, k, perms, maps[k].Pages(), k);
    forall j | j in done && j in maps
      ensures j in pt' && pt'[j] == Pte(maps[j].frameCap, 0, perms)
    {
      StartApart(maps, k, j);
      NewEntry(pt1, maps[k].frameCap, k, perms, maps[k].Pages(), j);
    }
  }

  lemma NewEntry(pt: PageTable, slot: Slot, k: nat, perms: Perms, n: nat, a: nat)
    ensures var pt' := Mapped(pt, slot, k, perms, n);
            && (a in PageSet(k, n) ==>
                  a in pt' && pt'[a].slot == slot && pt'[a].perms == perms && pt'[a].idx * PGSIZE == a - k)
            && (a !in PageSet(k, n) ==> (a in pt' <==> a in pt) && (a in pt ==> pt'[a] == pt[a]))
  {
  }

  /** Write permission goes only to private maps. */
  predicate MayProtect(w: World, pid: Pid, keys: set<nat>, perms: Perms)
    requires pid in w.procs
  {
    perms.w ==> forall k | k in keys && k in w.procs[pid].maps ::
                  !w.procs[pid].maps[k].cow && Unshared(w.procs, pid, w.procs[pid].maps[k].frameCap)
  }

  lemma ProtectingStart(w: World, o: multiset<Slot>, pid: Pid, perms: Perms)
    requires Live(w, o, pid)
    ensures Protecting(w, o, w, pid, {}, perms)
  {
    hide Books, StepOk, OthersKept;
    SplitNothing(w, o, pid);
    UpdateTwice(w.procs, pid, w.procs[pid], w.procs[pid]);
  }

  lemma ProtectingNext(w: World, o: multiset<Slot>, v: World, pid: Pid, done: set<nat>, perms: Perms, k: nat)
    requires Protecting(w, o, v, pid, done, perms) && k in w.procs[pid].maps && k !in done
    ensures pid in v.procs && pid in v.hw && k in v.procs[pid].maps
    ensures Protecting(w, o, Reflagged(v, pid, k, perms), pid, done + {k}, perms)
  {
    hide Protecting, Books, StepOk, OthersKept, Translated, FlagsSet, Mapped, SpaceOk, RefsOk, Unshared, Live,
         PagesProtected, MapsOk, MayProtect, Reflagged, MemoryMap.Pages;
    ProtectingParts(w, o, v, pid, done, perms);
    LiveParts(v, o, pid);
    LiveParts(w, o, pid);
    var v' := Reflagged(v, pid, k, perms);
    SpaceMapsOk(w.procs[pid]);
    PagesProtectedNext(w.hw[pid], v.hw[pid], w.procs[pid].maps, done, perms, k);
    ReflagStep(v, o, pid, k, perms);
    OthersKeptTransitive(w, v, v', pid);
    MayProtectParts(w, pid, done, perms, k);
    if MayProtect(w, pid, done + {k}, perms) {
      if perms.w {
        assert v.procs == w.procs[pid := v.procs[pid]];
        UnsharedAgain(w, v, pid, w.procs[pid].maps[k].frameCap);
      }
      StepOkTransitive(w, o, v, o, v', o, pid);
    }
    ReflaggedTables(w, v, pid, done, perms, k);
    MakeProtecting(w, o, v', pid, done + {k}, perms);
  }

  lemma ReflaggedTables(w: World, v: World, pid: Pid, done: set<nat>, perms: Perms, k: nat)
    requires pid in w.procs && pid in v.procs && pid in v.hw && k in w.procs[pid].maps && k !in done
    requires v == w.(procs := w.procs[pid := w.procs[pid].(maps := v.procs[pid].maps)], hw := v.hw)
    requires v.procs[pid].maps.Keys == w.procs[pid].maps.Keys
    requires forall j | j in w.procs[pid].maps ::
               v.procs[pid].maps[j] == if j in done then w.procs[pid].maps[j].(flags := perms) else w.procs[pid].maps[j]
    ensures var v' := Reflagged(v, pid, k, perms);
            && pid in v'.procs && v' == w.(procs := w.procs[pid := w.procs[pid].(maps := v'.procs[pid].maps)],
                                           hw := v'.hw)
            && v'.procs[pid].maps.Keys == w.procs[pid].maps.Keys
            && (forall j | j in w.procs[pid].maps ::
                  v'.procs[pid].maps[j] ==
                    if j in done + {k} then w.procs[pid].maps[j].(flags := perms) else w.procs[pid].maps[j])
            && v'.hw == v.hw[pid := Mapped(v.hw[pid], w.procs[pid].maps[k].frameCap, k, perms,
                                           w.procs[pid].maps[k].Pages())]
  {
    hide Mapped, MemoryMap.Pages;
    UpdateTwice(w.procs, pid, v.procs[pid], Reflagged(v, pid, k, perms).procs[pid]);
  }

  lemma MakeProtecting(w: World, o: multiset<Slot>, v: World, pid: Pid, done: set<nat>, perms: Perms)
    requires Live(w, o, pid) && Live(v, o, pid) && OthersKept(w, v, pid) && pid in w.procs && pid in v.procs
             && pid in w.hw && pid in v.hw
    requires v == w.(procs := w.procs[pid := w.procs[pid].(maps := v.procs[pid].maps)], hw := v.hw)
    requires done <= w.procs[pid].maps.Keys && v.procs[pid].maps.Keys == w.procs[pid].maps.Keys
    requires forall k | k in w.procs[pid].maps ::
               v.procs[pid].maps[k] == if k in done then w.procs[pid].maps[k].(flags := perms) else w.procs[pid].maps[k]
    requires PagesProtected(w.hw[pid], v.hw[pid], w.procs[pid].maps, done, perms)
    requires Translated(w) ==> Translated(v)
    requires MayProtect(w, pid, done, perms) ==> StepOk(w, o, v, o, pid)
    ensures Protecting(w, o, v, pid, done, perms)
  {
    hide Books, StepOk, OthersKept, Translated, PagesProtected, MayProtect;
  }

  lemma MayProtectParts(w: World, pid: Pid, done: set<nat>, perms: Perms, k: nat)
    requires pid in w.procs && k in w.procs[pid].maps
    ensures MayProtect(w, pid, done + {k}, perms) ==>
              && MayProtect(w, pid, done, perms)
              && (perms.w ==> !w.procs[pid].maps[k].cow && Unshared(w.procs, pid, w.procs[pid].maps[k].frameCap))
  {
    hide Unshared;
  }

  lemma UnsharedAgain(w: World, v: World, pid: Pid, slot: Slot)
    requires pid in w.procs && pid in v.procs && v.procs == w.procs[pid := v.procs[pid]]
    requires Unshared(w.procs, pid, slot)
    ensures Unshared(v.procs, pid, slot)
  {
  }

  lemma ProtectingParts(w: World, o: multiset<Slot>, v: World, pid: Pid, done: set<nat>, perms: Perms)
    requires Protecting(w, o, v, pid, done, perms)
    ensures Live(w, o, pid) && Live(v, o, pid) && OthersKept(w, v, pid) && pid in w.procs && pid in v.procs
            && pid in v.hw
    ensures v == w.(procs := w.procs[pid := w.procs[pid].(maps := v.procs[pid].maps)], hw := v.hw)
    ensures done <= w.procs[pid].maps.Keys && v.procs[pid].maps.Keys == w.procs[pid].maps.Keys
    ensures forall k | k in w.procs[pid].maps ::
              v.procs[pid].maps[k] == if k in done then w.procs[pid].maps[k].(flags := perms) else w.procs[pid].maps[k]
    ensures pid in w.hw && PagesProtected(w.hw[pid], v.hw[pid], w.procs[pid].maps, done, perms)
    ensures Translated(w) ==> Translated(v)
    ensures MayProtect(w, pid, done, perms) ==> StepOk(w, o, v, o, pid)
  {
    hide Books, PagesProtected;
  }

  /** A finished change of permissions keeps copy-on-write sound exactly when write permission goes
      to no map that is marked copy-on-write or shared. */
  lemma ProtectedIsolatedIff(w: World, o: multiset<Slot>, v: World, pid: Pid, done: set<nat>, perms: Perms)
    requires Protecting(w, o, v, pid, done, perms) && Translated(w) && Isolated(w) && pid in w.procs
    ensures Isolated(v) <==> MayProtect(w, pid, done, perms)
  {
    hide Protecting, Live, Books, StepOk, OthersKept, Translated, Isolated, MayProtect, PagesProtected, Unshared,
         SpaceOk, RefsOk, Exclusive;
    ProtectingParts(w, o, v, pid, done, perms);
    if MayProtect(w, pid, done, perms) {
      StepOkParts(w, o, v, o, pid);
    }
    if Isolated(v) && perms.w {
      LiveParts(v, o, pid);
      BooksParts(v, o, pid);
      IsolatedIsExclusive(v);
      forall k | k in done && k in w.procs[pid].maps
        ensures !w.procs[pid].maps[k].cow && Unshared(w.procs, pid, w.procs[pid].maps[k].frameCap)
      {
        ProtectedPrivate(w, o, v, pid, done, perms, k);
      }
      AllMayProtect(w, pid, done, perms);
    } else if !perms.w {
      AllMayProtect(w, pid, done, perms);
    }
  }

  lemma AllMayProtect(w: World, pid: Pid, done: set<nat>, perms: Perms)
    requires pid in w.procs
    requires perms.w ==> forall k | k in done && k in w.procs[pid].maps ::
                           !w.procs[pid].maps[k].cow && Unshared(w.procs, pid, w.procs[pid].maps[k].frameCap)
    ensures MayProtect(w, pid, done, perms)
  {
  }

  lemma ProtectedPrivate(w: World, o: multiset<Slot>, v: World, pid: Pid, done: set<nat>, perms: Perms, k: nat)
    requires Protecting(w, o, v, pid, done, perms) && Isolated(v) && Exclusive(v) && perms.w
    requires pid in w.procs && k in done && k in w.procs[pid].maps
    ensures !w.procs[pid].maps[k].cow && Unshared(w.procs, pid, w.procs[pid].maps[k].frameCap)
  {
    hide Protecting, Live, Books, StepOk, OthersKept, Translated, MayProtect, Unshared, PagesProtected, Isolated,
         Exclusive, WritesOk, SpaceOk, RefsOk;
    ProtectingParts(w, o, v, pid, done, perms);
    LiveParts(v, o, pid);
    ProtectedFirst(w.hw[pid], v.hw[pid], w.procs[pid].maps, done, perms, k);
    WritableAlone(v, pid, k);
    WrittenFirst(v.hw[pid], v.procs[pid].maps, k);
    UnsharedAgain(v, w, pid, w.procs[pid].maps[k].frameCap);
  }

  lemma WritableAlone(v: World, pid: Pid, a: nat)
    requires Isolated(v) && Exclusive(v) && pid in v.procs && pid in v.hw && pid in v.running
    ensures WritesOk(v.hw[pid], v.procs[pid].maps)
    ensures a in v.hw[pid] && v.hw[pid][a].perms.w ==> Unshared(v.procs, pid, v.hw[pid][a].slot)
  {
    hide WritesOk, Unshared, Sharing;
  }

  // ----- A change that stops half way -----

  /** The maps at `done` are mapped with `perms`, the one at `k` could not be, and no permission was
      recorded. */
  ghost predicate Halted(w: World, o: multiset<Slot>, s: World, pid: Pid, done: set<nat>, perms: Perms, k: nat) {
    && pid in w.procs && k in w.procs[pid].maps && k !in done
    && exists v ::
         && Protecting(w, o, v, pid, done, perms) && pid in v.hw
         && s == w.(hw := v.hw[pid := Unmapped(v.hw[pid], k, w.procs[pid].maps[k].Pages())])
  }

  /** The recorded permissions of the maps at `keys` already allow the stores. */
  predicate MayHalt(w: World, pid: Pid, keys: set<nat>, perms: Perms)
    requires pid in w.procs
  {
    perms.w ==>
      forall k | k in keys && k in w.procs[pid].maps :: w.procs[pid].maps[k].flags.w && !w.procs[pid].maps[k].cow
  }

  /** A change that stops half way keeps the books and the translation, and keeps copy-on-write
      sound exactly when it gave no write permission to a map recorded as read-only or marked:
      the next fork would share such a page and leave it writable. */
  lemma HaltedIsolatedIff(w: World, o: multiset<Slot>, s: World, pid: Pid, done: set<nat>, perms: Perms, k: nat)
    requires Halted(w, o, s, pid, done, perms, k)
    ensures Live(w, o, pid) && Live(s, o, pid) && OthersKept(w, s, pid) && s.procs == w.procs && s.frames == w.frames
    ensures Translated(w) ==> Translated(s)
    ensures Translated(w) && Isolated(w) ==> (Isolated(s) <==> MayHalt(w, pid, done, perms))
  {
    hide Protecting, Live, Books, StepOk, OthersKept, Translated, Isolated, MayHalt, PagesProtected, Unmapped, SpaceOk,
         RefsOk, MemoryMap.Pages;
    var v :| Protecting(w, o, v, pid, done, perms) && pid in v.hw
             && s == w.(hw := v.hw[pid := Unmapped(v.hw[pid], k, w.procs[pid].maps[k].Pages())]);
    ProtectingParts(w, o, v, pid, done, perms);
    ProtectFailed(w, o, v, pid, done, perms, k, w.procs[pid].maps[k].Pages());
    LiveParts(w, o, pid);
    MakeLive(s, o, pid);
    if Translated(w) {
      HaltedTranslated(w, o, v, s, pid, done, perms, k);
      if Isolated(w) {
        HaltedWrites(w, o, v, s, pid, done, perms, k);
        HaltedIsolated(w, o, s, pid);
      }
    }
  }

  /** A failing instance: two private read-only pages, the second of which cannot be mapped anew. */
  lemma HaltedWitness()
    ensures exists w: World, s: World ::
              && Live(w, multiset{}, 1) && Translated(w) && Isolated(w)
              && Halted(w, multiset{}, s, 1, {PGSIZE}, READ_WRITE, 2 * PGSIZE) && !Isolated(s)
  {
    hide Live, Translated, Isolated, Protecting, Halted, OthersKept, PagesProtected, StepOk, Books, SpaceOk, RefsOk,
         Mapped, Unmapped, MayHalt, MemoryMap.Pages, Reflagged;
    var w := TwoPages();
    TwoPagesSound();
    LiveParts(w, multiset{}, 1);
    ProtectingStart(w, multiset{}, 1, READ_WRITE);
    ProtectingNext(w, multiset{}, w, 1, {}, READ_WRITE, PGSIZE);
    var v := Reflagged(w, 1, PGSIZE, READ_WRITE);
    assert {} + {PGSIZE} == {PGSIZE};
    ProtectingParts(w, multiset{}, v, 1, {PGSIZE}, READ_WRITE);
    var s := w.(hw := v.hw[1 := Unmapped(v.hw[1], 2 * PGSIZE, w.procs[1].maps[2 * PGSIZE].Pages())]);
    IsHalted(w, multiset{}, v, s, 1, {PGSIZE}, READ_WRITE, 2 * PGSIZE);
    HaltedIsolatedIff(w, multiset{}, s, 1, {PGSIZE}, READ_WRITE, 2 * PGSIZE);
    ReadOnlyMayNotHalt(w, 1, {PGSIZE}, READ_WRITE, PGSIZE);
  }

  lemma IsHalted(w: World, o: multiset<Slot>, v: World, s: World, pid: Pid, done: set<nat>, perms: Perms, k: nat)
    requires Protecting(w, o, v, pid, done, perms) && pid in w.procs && pid in v.hw && k in w.procs[pid].maps
             && k !in done
    requires s == w.(hw := v.hw[pid := Unmapped(v.hw[pid], k, w.procs[pid].maps[k].Pages())])
    ensures Halted(w, o, s, pid, done, perms, k)
  {
    hide Protecting, Unmapped, MemoryMap.Pages;
  }

  lemma ReadOnlyMayNotHalt(w: World, pid: Pid, keys: set<nat>, perms: Perms, k: nat)
    requires pid in w.procs && k in w.procs[pid].maps && k in keys && perms.w && !w.procs[pid].maps[k].flags.w
    ensures !MayHalt(w, pid, keys, perms)
  {
  }

  const READ_ONLY := Perms(true, false, false)

  ghost function TwoPages(): World {
    var maps: Maps := map[PGSIZE := MemoryMap(PGSIZE, PGSIZE, READ_ONLY, Anonymous, false, 1, None, 0),
                          2 * PGSIZE := MemoryMap(2 * PGSIZE, PGSIZE, READ_ONLY, Anonymous, false, 2, None, 0)];
    var mm := MmState(maps, map[], 16 * PGSIZE, 0, PGSIZE, 0, 0, 0, 0, 0, 0);
    World(map[1 := mm], map[1 := map[]], map[1 := [ZeroPage()], 2 := [ZeroPage()]], map[], {1})
  }

  lemma TwoPagesSound()
    ensures Live(TwoPages(), multiset{}, 1) && Translated(TwoPages()) && Isolated(TwoPages())
    ensures var w := TwoPages();
            && 1 in w.procs && w.procs[1].maps.Keys == {PGSIZE, 2 * PGSIZE} && !w.procs[1].maps[PGSIZE].flags.w
  {
    hide SpaceOk, RefsOk, ZeroPage;
    TwoPagesSpace();
    TwoPagesRefs();
  }

  lemma TwoPagesSpace()
    ensures SpaceOk(TwoPages().procs[1])
  {
    hide ZeroPage;
  }

  lemma TwoPagesRefs()
    ensures var w := TwoPages(); RefsOk(w.procs, w.frames, w.refs, multiset{})
  {
    hide ZeroPage, Holds;
    var w := TwoPages();
    forall slot | slot in w.frames
      ensures Balanced(w.procs, w.refs, multiset{}, slot)
    {
      TwoPagesHold(slot);
      assert Holders(w.procs, slot) == {1};
    }
  }

  lemma TwoPagesHold(slot: Slot)
    requires slot in TwoPages().frames
    ensures Holds(TwoPages().procs[1].maps, slot)
  {
    hide ZeroPage;
    assert TwoPages().procs[1].maps[if slot == 1 then PGSIZE else 2 * PGSIZE].frameCap == slot;
  }

  lemma HaltedTranslated(w: World, o: multiset<Slot>, v: World, s: World, pid: Pid, done: set<nat>, perms: Perms,
                         k: nat)
    requires Protecting(w, o, v, pid, done, perms) && pid in w.procs && k in w.procs[pid].maps && pid in v.hw
             && Translated(w)
    requires s == w.(hw := v.hw[pid := Unmapped(v.hw[pid], k, w.procs[pid].maps[k].Pages())]) && OthersKept(w, s, pid)
    ensures Translated(s)
  {
    hide Protecting, Live, Books, StepOk, OthersKept, Translated, MayProtect, PagesProtected, SpaceOk, RefsOk, Backed,
         Unmapped, MemoryMap.Pages, TableOk;
    ProtectingParts(w, o, v, pid, done, perms);
    LiveParts(w, o, pid);
    BooksParts(w, o, pid);
    LiveParts(v, o, pid);
    TranslatedParts(w, pid);
    TranslatedParts(v, pid);
    UnmappedTable(v.hw[pid], v.procs[pid].maps, w.procs[pid].maps, k, w.procs[pid].maps[k].Pages());
    TranslatedByPid(w, s, pid);
  }

  lemma UnmappedTable(pt: PageTable, maps: Maps, maps': Maps, k: nat, n: nat)
    requires TableOk(pt, maps) && maps'.Keys == maps.Keys
    requires forall j | j in maps :: maps'[j].frameCap == maps[j].frameCap && maps'[j].size == maps[j].size
    ensures TableOk(Unmapped(pt, k, n), maps')
  {
    hide PageSet;
    forall a | a in Unmapped(pt, k, n)
      ensures PteOk(Unmapped(pt, k, n)[a], a, maps')
    {
      assert PteOk(pt[a], a, maps);
    }
  }

  /** The writable pages of the process, half way. */
  lemma HaltedWrites(w: World, o: multiset<Slot>, v: World, s: World, pid: Pid, done: set<nat>, perms: Perms, k: nat)
    requires Protecting(w, o, v, pid, done, perms) && pid in w.procs && k in w.procs[pid].maps && k !in done
             && pid in v.hw && Isolated(w)
    requires s == w.(hw := v.hw[pid := Unmapped(v.hw[pid], k, w.procs[pid].maps[k].Pages())]) && pid in w.running
             && pid in w.hw
    ensures WritesOk(s.hw[pid], w.procs[pid].maps) <==> MayHalt(w, pid, done, perms)
  {
    hide Protecting, Live, Books, StepOk, OthersKept, Translated, MayProtect, SpaceOk, RefsOk, Sharing, Unmapped,
         MemoryMap.Pages, MapsOk, PagesProtected, WritesOk;
    ProtectingParts(w, o, v, pid, done, perms);
    LiveParts(w, o, pid);
    SpaceMapsOk(w.procs[pid]);
    HaltedTable(w.hw[pid], v.hw[pid], w.procs[pid].maps, done, perms, k);
  }

  lemma HaltedTable(pt: PageTable, pt': PageTable, maps: Maps, done: set<nat>, perms: Perms, k: nat)
    requires PagesProtected(pt, pt', maps, done, perms) && WritesOk(pt, maps) && MapsOk(maps) && k in maps
             && k !in done && done <= maps.Keys
    ensures WritesOk(Unmapped(pt', k, maps[k].Pages()), maps) <==>
              (perms.w ==> forall j | j in done && j in maps :: maps[j].flags.w && !maps[j].cow)
  {
    hide MapsOk, MemoryMap.Pages, Unmapped, PagesProtected, WritesOk;
    var pt2 := Unmapped(pt', k, maps[k].Pages());
    SubTables(pt', k, maps[k].Pages());
    if perms.w && WritesOk(pt2, maps) {
      forall j | j in done && j in maps
        ensures maps[j].flags.w && !maps[j].cow
      {
        ProtectedFirst(pt, pt', maps, done, perms, j);
        HaltedStays(pt', maps, k, j);
        WrittenFirst(pt2, maps, j);
      }
    }
    if perms.w ==> forall j | j in done && j in maps :: maps[j].flags.w && !maps[j].cow {
      HaltedAllows(pt, pt', pt2, maps, done, perms);
    }
  }

  lemma ProtectedFirst(pt: PageTable, pt': PageTable, maps: Maps, done: set<nat>, perms: Perms, j: nat)
    requires PagesProtected(pt, pt', maps, done, perms) && j in done && j in maps
    ensures j in pt' && pt'[j] == Pte(maps[j].frameCap, 0, perms)
  {
  }

  lemma WrittenFirst(pt: PageTable, maps: Maps, j: nat)
    requires WritesOk(pt, maps) && j in pt && pt[j].idx == 0 && pt[j].perms.w
    ensures j in maps && maps[j].flags.w && !maps[j].cow
  {
  }

  lemma HaltedAllows(pt: PageTable, pt': PageTable, pt2: PageTable, maps: Maps, done: set<nat>, perms: Perms)
    requires PagesProtected(pt, pt', maps, done, perms) && WritesOk(pt, maps) && SubTable(pt2, pt') && done <= maps.Keys
    requires perms.w ==> forall j | j in done && j in maps :: maps[j].flags.w && !maps[j].cow
    ensures WritesOk(pt2, maps)
  {
    hide PagesProtected, WritesOk, SubTable;
    forall a | a in pt2 && pt2[a].perms.w
      ensures pt2[a].idx * PGSIZE <= a
      ensures var j := a - pt2[a].idx * PGSIZE; j in maps && maps[j].flags.w && !maps[j].cow
    {
      HaltedEntry(pt, pt', pt2, maps, done, perms, a);
    }
    AllWritesOk(pt2, maps);
  }

  lemma HaltedEntry(pt: PageTable, pt': PageTable, pt2: PageTable, maps: Maps, done: set<nat>, perms: Perms, a: nat)
    requires PagesProtected(pt, pt', maps, done, perms) && WritesOk(pt, maps) && SubTable(pt2, pt') && done <= maps.Keys
    requires perms.w ==> forall j | j in done && j in maps :: maps[j].flags.w && !maps[j].cow
    requires a in pt2 && pt2[a].perms.w
    ensures pt2[a].idx * PGSIZE <= a
    ensures var j := a - pt2[a].idx * PGSIZE; j in maps && maps[j].flags.w && !maps[j].cow
  {
    assert a in pt' && pt'[a] == pt2[a];
  }

  lemma AllWritesOk(pt: PageTable, maps: Maps)
    requires forall a | a in pt && pt[a].perms.w :: pt[a].idx * PGSIZE <= a
    requires forall a | a in pt && pt[a].perms.w ::
               var j := a - pt[a].idx * PGSIZE; j in maps && maps[j].flags.w && !maps[j].cow
    ensures WritesOk(pt, maps)
  {
  }

  lemma HaltedStays(pt: PageTable, maps: Maps, k: nat, j: nat)
    requires MapsOk(maps) && k in maps && j in maps && j != k && j in pt
    ensures j in Unmapped(pt, k, maps[k].Pages()) && Unmapped(pt, k, maps[k].Pages())[j] == pt[j]
  {
    hide MapsOk, MemoryMap.Pages, PageSet;
    StartApart(maps, k, j);
  }

  lemma HaltedIsolated(w: World, o: multiset<Slot>, s: World, pid: Pid)
    requires Live(w, o, pid) && Isolated(w) && OthersKept(w, s, pid) && s.procs == w.procs && pid in s.hw
    ensures Isolated(s) <==> WritesOk(s.hw[pid], w.procs[pid].maps)
  {
    hide Books, WritesOk, Guarded, AgreeOn;
  }

  /** The resident pages of `[lo, hi)` all carry `perms` afterwards; nothing else changed. */
  lemma ProtectedView(w: World, o: multiset<Slot>, v: World, pid: Pid, keys: set<nat>, perms: Perms, lo: nat, hi: nat)
    requires Protecting(w, o, v, pid, keys, perms)
    requires forall k | k in keys :: k in w.procs[pid].maps && lo <= k && w.procs[pid].maps[k].End() <= hi
    requires forall k | k in w.procs[pid].maps && k !in keys :: w.procs[pid].maps[k].End() <= lo || hi <= k
    requires forall l | l in w.procs[pid].lazy :: !(lo <= l < hi)
    ensures FlagsSet(w, v, pid, lo, hi, perms)
  {
    hide Books, StepOk, OthersKept, Translated, SpaceOk, RefsOk, PageAt, Lookup;
    LiveParts(w, o, pid);
    LiveParts(v, o, pid);
    SpaceMapsOk(w.procs[pid]);
    SpaceMapsOk(v.procs[pid]);
    forall a: nat | a % PGSIZE == 0
      ensures PageAt(v.frames, v.procs[pid], a) ==
                if lo <= a < hi then WithFlags(PageAt(w.frames, w.procs[pid], a), perms)
                else PageAt(w.frames, w.procs[pid], a)
    {
      ProtectedPage(w.frames, w.procs[pid], v.procs[pid], keys, perms, lo, hi, a);
    }
  }

  lemma ProtectedPage(frames: Frames, mm: MmState, mm': MmState, keys: set<nat>, perms: Perms, lo: nat, hi: nat, a: nat)
    requires MapsOk(mm.maps) && MapsOk(mm'.maps) && mm' == mm.(maps := mm'.maps) && mm'.maps.Keys == mm.maps.Keys
    requires forall k | k in mm.maps :: mm'.maps[k] == if k in keys then mm.maps[k].(flags := perms) else mm.maps[k]
    requires forall k | k in keys :: k in mm.maps && lo <= k && mm.maps[k].End() <= hi
    requires forall k | k in mm.maps && k !in keys :: mm.maps[k].End() <= lo || hi <= k
    requires forall l | l in mm.lazy :: !(lo <= l < hi)
    ensures PageAt(frames, mm', a) ==
              if lo <= a < hi then WithFlags(PageAt(frames, mm, a), perms) else PageAt(frames, mm, a)
  {
    hide MapsOk, Lookup, MemoryMap.Covers, PageOf;
    LookupExact(mm.maps, a);
    LookupExact(mm'.maps, a);
    forall k | k in mm.maps
      ensures mm'.maps[k].Covers(a) <==> mm.maps[k].Covers(a)
      ensures mm.maps[k].Covers(a) ==> (k in keys <==> lo <= a < hi)
      ensures mm.maps[k].Covers(a) ==>
                Some(PageOf(frames, mm'.maps[k], a)) ==
                  if k in keys then WithFlags(Some(PageOf(frames, mm.maps[k], a)), perms)
                  else Some(PageOf(frames, mm.maps[k], a))
    {
      EntryOf(mm.maps, k);
      ProtectedPageOf(frames, mm.maps[k], mm'.maps[k], perms, a);
    }
  }

  lemma ProtectedPageOf(frames: Frames, m: MemoryMap, m': MemoryMap, perms: Perms, a: nat)
    requires m' == m || m' == m.(flags := perms)
    ensures m'.Covers(a) <==> m.Covers(a)
    ensures m.Covers(a) <==> m.vaddr <= a < m.End()
    ensures m.Covers(a) && m' == m.(flags := perms) ==>
              Some(PageOf(frames, m', a)) == WithFlags(Some(PageOf(frames, m, a)), perms)
  {
  }

  predicate Resident(mm: MmState, start: nat, end: nat) {
    forall a: nat | start <= a < end && a % PGSIZE == 0 :: Lookup(mm.maps, a).Some?
  }

  function Meeting(maps: Maps, lo: nat, hi: nat): set<nat> {
    set k | k in maps && HasOverlap(lo, hi, k, maps[k].size)
  }

  lemma MeetingKeys(maps: Maps, lo: nat, hi: nat)
    ensures Meeting(maps, lo, hi) <= maps.Keys
  {
  }

  /** The keys of the maps that cover a range, or the first page that none covers. */
  method CollectRanges(mm: MmState, start: nat, end: nat) returns (r: Result<set<nat>>)
    requires MapsOk(mm.maps) && start % PGSIZE == 0 && end % PGSIZE == 0 && start < end
    ensures r.Ok? ==> r.value == Meeting(mm.maps, start, end)
    ensures r.Ok? <==> Resident(mm, start, end)
  {
    hide MapsOk, Lookup;
    var keys: set<nat> := {};
    var page := start;
    while page < end
      invariant start <= page <= end && page % PGSIZE == 0
      invariant forall k :: k in keys <==> k in mm.maps && start < page && HasOverlap(start, page, k, mm.maps[k].size)
      invariant forall a: nat | start <= a < page && a % PGSIZE == 0 :: Lookup(mm.maps, a).Some?
    {
      var m := Lookup(mm.maps, page);
      if m.None? {
        return Err(InvalidAddress);
      }
      LookupExact(mm.maps, page);
      OverlapNext(mm.maps, start, page, m.value);
      keys := keys + {m.value.vaddr};
      NextAligned(page, end);
      page := page + PGSIZE;
    }
    r := Ok(keys);
  }

  lemma NextAligned(page: nat, end: nat)
    requires page % PGSIZE == 0 && end % PGSIZE == 0 && page < end
    ensures page + PGSIZE <= end && (page + PGSIZE) % PGSIZE == 0
    ensures forall a: nat | a % PGSIZE == 0 && page < a :: page + PGSIZE <= a
  {
  }

  lemma OverlapNext(maps: Maps, start: nat, page: nat, m: MemoryMap)
    requires MapsOk(maps) && m.vaddr in maps && maps[m.vaddr] == m && m.Covers(page)
    requires start <= page && page % PGSIZE == 0
    ensures forall k | k in maps ::
              HasOverlap(start, page + PGSIZE, k, maps[k].size)
              <==> (start < page && HasOverlap(start, page, k, maps[k].size)) || k == m.vaddr
  {
    forall k | k in maps
      ensures HasOverlap(start, page + PGSIZE, k, maps[k].size)
              <==> (start < page && HasOverlap(start, page, k, maps[k].size)) || k == m.vaddr
    {
      OneOverlap(maps, start, page, m, k);
    }
  }

  lemma OneOverlap(maps: Maps, start: nat, page: nat, m: MemoryMap, k: nat)
    requires MapsOk(maps) && m.vaddr in maps && maps[m.vaddr] == m && m.Covers(page) && k in maps
    requires start <= page && page % PGSIZE == 0
    ensures HasOverlap(start, page + PGSIZE, k, maps[k].size)
            <==> (start < page && HasOverlap(start, page, k, maps[k].size)) || k == m.vaddr
  {
    hide MapsOk;
    EntryOf(maps, k);
    EntryOf(maps, m.vaddr);
    WholePageInside(m.vaddr, m.size, page);
    if k != m.vaddr {
      OtherApart(maps, k, m.vaddr);
      OtherApart(maps, m.vaddr, k);
    }
  }

  lemma WholePageInside(k: nat, size: nat, page: nat)
    requires k % PGSIZE == 0 && size % PGSIZE == 0 && page % PGSIZE == 0 && k <= page < k + size
    ensures page + PGSIZE <= k + size
  {
  }

  // ----- mprotect itself -----

  /** The keys of `keys` below all the others. */
  predicate FirstOf(done: set<nat>, keys: set<nat>) {
    done <= keys && forall i, j | i in done && j in keys && j !in done :: i < j
  }

  lemma LeastKey(keys: set<nat>)
    requires keys != {}
    ensures exists k :: k in keys && forall j | j in keys :: k <= j
  {
    var k :| k in keys;
    if keys == {k} {
      assert forall j | j in keys :: k <= j;
    } else {
      LeastKey(keys - {k});
      var l :| l in keys - {k} && forall j | j in keys - {k} :: l <= j;
      var n := Min(k, l);
      assert n in keys;
      forall j | j in keys
        ensures n <= j
      {
        if j != k {
          assert j in keys - {k};
        }
      }
    }
  }

  method LeastOf(keys: set<nat>) returns (k: nat)
    requires keys != {}
    ensures k in keys && forall j | j in keys :: k <= j
  {
    LeastKey(keys);
    k :| k in keys && forall j | j in keys :: k <= j;
  }

  lemma NoneFirst(keys: set<nat>)
    ensures FirstOf({}, keys)
  {
  }

  lemma FirstNext(done: set<nat>, keys: set<nat>, left: set<nat>, k: nat)
    requires FirstOf(done, keys) && done == keys - left && left <= keys
    requires k in left && forall j | j in left :: k <= j
    ensures FirstOf(done + {k}, keys) && done + {k} == keys - (left - {k}) && k !in done && k in keys
  {
  }

  /** Maps every collected map with the new permissions, in the order of their addresses, then
      records them. On a mapping failure the translations changed so far stay and no permission is
      recorded. */
  method ProtectMaps(mgr: ApeManager, pid: Pid, keys: set<nat>, perms: Perms)
    returns (r: Result<()>, ghost done: set<nat>, ghost failed: nat)
    requires Live(mgr.s, mgr.owed, pid) && keys <= mgr.s.procs[pid].maps.Keys
    modifies mgr`s
    ensures FirstOf(done, keys)
    ensures r.Ok? ==> done == keys && Protecting(old(mgr.s), mgr.owed, mgr.s, pid, keys, perms)
    ensures r.Err? ==> failed in keys && Halted(old(mgr.s), mgr.owed, mgr.s, pid, done, perms, failed)
  {
    hide Live, Books, StepOk, OthersKept, Protecting, MayProtect, Translated, Reflagged, Mapped, Unmapped,
         MemoryMap.Pages, SpaceOk, RefsOk, Halted, FirstOf;
    ghost var w, o := mgr.s, mgr.owed;
    ghost var v := w;
    LiveParts(w, o, pid);
    ProtectingStart(w, o, pid, perms);
    var left := keys;
    done, failed := {}, 0;
    NoneFirst(keys);
    while left != {}
      invariant left <= keys && done == keys - left && FirstOf(done, keys)
      invariant Protecting(w, o, v, pid, done, perms)
      invariant mgr.s == w.(hw := v.hw) && mgr.owed == o
    {
      var k := LeastOf(left);
      ghost var v1;
      FirstNext(done, keys, left, k);
      r, v1 := ProtectMap(mgr, pid, k, perms, w, o, v, done);
      if r.Err? {
        failed := k;
        return;
      }
      v, left, done := v1, left - {k}, done + {k};
    }
    assert done == keys;
    RecordFlags(mgr, pid, keys, perms, w, o, v);
    r := Ok(());
  }

  method ProtectMap(mgr: ApeManager, pid: Pid, k: nat, perms: Perms, ghost w: World, ghost o: multiset<Slot>,
                    ghost v: World, ghost done: set<nat>)
    returns (r: Result<()>, ghost v': World)
    requires Protecting(w, o, v, pid, done, perms) && mgr.s == w.(hw := v.hw) && mgr.owed == o
    requires pid in w.procs && k in w.procs[pid].maps && k !in done
    modifies mgr`s
    ensures r.Ok? ==> Protecting(w, o, v', pid, done + {k}, perms) && mgr.s == w.(hw := v'.hw)
    ensures r.Err? ==> Halted(w, o, mgr.s, pid, done, perms, k)
  {
    hide Live, Books, StepOk, OthersKept, Protecting, MayProtect, Translated, Reflagged, Mapped, Unmapped,
         MemoryMap.Pages, SpaceOk, RefsOk;
    var m := mgr.s.procs[pid].maps[k];
    v' := v;
    ProtectingAt(w, o, v, pid, done, perms, k);
    ProtectingNext(w, o, v, pid, done, perms, k);
    ReflaggedHw(v, pid, k, perms);
    r := mgr.ReplaceMapping(pid, m.frameCap, k, perms, m.Pages());
    if r.Ok? {
      v' := Reflagged(v, pid, k, perms);
    } else {
      assert mgr.s == w.(hw := v.hw[pid := Unmapped(v.hw[pid], k, w.procs[pid].maps[k].Pages())]);
    }
  }

  lemma ProtectingAt(w: World, o: multiset<Slot>, v: World, pid: Pid, done: set<nat>, perms: Perms, k: nat)
    requires Protecting(w, o, v, pid, done, perms) && pid in w.procs && k in w.procs[pid].maps && k !in done
    ensures pid in v.procs && pid in v.hw && k in v.procs[pid].maps && v.procs[pid].maps[k] == w.procs[pid].maps[k]
  {
  }

  lemma ReflaggedHw(v: World, pid: Pid, k: nat, perms: Perms)
    requires pid in v.procs && pid in v.hw && k in v.procs[pid].maps
    ensures var m := v.procs[pid].maps[k];
            Reflagged(v, pid, k, perms).hw == v.hw[pid := Mapped(v.hw[pid], m.frameCap, k, perms, m.Pages())]
  {
  }

  lemma ProtectFailed(w: World, o: multiset<Slot>, v: World, pid: Pid, done: set<nat>, perms: Perms, k: nat, n: nat)
    requires Protecting(w, o, v, pid, done, perms)
    ensures pid in w.procs && pid in v.hw
    ensures var s := w.(hw := v.hw[pid := Unmapped(v.hw[pid], k, n)]);
            OthersKept(w, s, pid) && Books(s, o)
  {
    hide Live, Books, StepOk, Translated, SpaceOk, RefsOk, Unmapped, AgreeOn, MayProtect, OthersKept, FramesExist;
    LiveParts(w, o, pid);
    BooksParts(w, o, pid);
    LiveParts(v, o, pid);
    HeldKept(w.procs, w.frames);
    var pt := Unmapped(v.hw[pid], k, n);
    var s := w.(hw := v.hw[pid := pt]);
    OtherTables(w, v, pid, pt);
    UpdateTwice(w.procs, pid, w.procs[pid], w.procs[pid]);
    OthersFrom(w, pid, w.procs[pid], pt, w.frames, w.refs);
    BooksByPid(w, o, s, o, pid);
  }

  lemma OtherTables(w: World, v: World, pid: Pid, pt: PageTable)
    requires OthersKept(w, v, pid) && pid in w.hw && pid in v.hw
    ensures v.hw[pid := pt] == w.hw[pid := pt]
  {
  }

  method RecordFlags(mgr: ApeManager, pid: Pid, keys: set<nat>, perms: Perms, ghost w: World, ghost o: multiset<Slot>,
                     ghost v: World)
    requires Protecting(w, o, v, pid, keys, perms) && mgr.s == w.(hw := v.hw) && pid in mgr.s.procs
    requires keys <= mgr.s.procs[pid].maps.Keys
    modifies mgr`s
    ensures mgr.s == v
  {
    hide Live, Books, StepOk, OthersKept, Protecting, MayProtect, Translated;
    ghost var maps0 := mgr.s.procs[pid].maps;
    var maps := mgr.s.procs[pid].maps;
    var left := keys;
    ProtectingParts(w, o, v, pid, keys, perms);
    while left != {}
      invariant left <= keys && maps.Keys == maps0.Keys && mgr.s == w.(hw := v.hw)
      invariant forall k | k in maps0 :: maps[k] ==
                  if k in keys && k !in left then maps0[k].(flags := perms) else maps0[k]
    {
      var k :| k in left;
      maps := maps[k := maps[k].(flags := perms)];
      left := left - {k};
    }
    assert maps == v.procs[pid].maps;
    mgr.s := mgr.s.(procs := WithMaps(mgr.s.procs, pid, maps));
  }

  /** Splitting changes neither the marks of a range nor who shares its frames for the worse. */
  lemma MayProtectSplit(w: World, w1: World, pid: Pid, lo: nat, hi: nat, perms: Perms)
    requires pid in w.procs && pid in w1.procs && OthersKept(w, w1, pid) && FromMaps(w.procs, pid, w1.procs[pid].maps)
    requires MapsOk(w.procs[pid].maps) && MapsOk(w1.procs[pid].maps)
    ensures MayProtect(w, pid, Meeting(w.procs[pid].maps, lo, hi), perms) ==>
              MayProtect(w1, pid, Meeting(w1.procs[pid].maps, lo, hi), perms)
    ensures MayHalt(w, pid, Meeting(w.procs[pid].maps, lo, hi), perms) ==>
              MayHalt(w1, pid, Meeting(w1.procs[pid].maps, lo, hi), perms)
  {
    hide OthersKept, MapsOk, Unshared, AlignDown;
    forall k | k in w1.procs[pid].maps && k in Meeting(w1.procs[pid].maps, lo, hi)
      ensures exists j ::
                j in Meeting(w.procs[pid].maps, lo, hi)
                && PartOf(w.procs, pid, w.procs[pid].maps[j], w1.procs[pid].maps[k])
    {
      var j :| j in w.procs[pid].maps && PartOf(w.procs, pid, w.procs[pid].maps[j], w1.procs[pid].maps[k]);
      EntryOf(w.procs[pid].maps, j);
      EntryOf(w1.procs[pid].maps, k);
      assert j in Meeting(w.procs[pid].maps, lo, hi);
    }
    forall slot
      ensures Unshared(w.procs, pid, slot) ==> Unshared(w1.procs, pid, slot)
    {
      UnsharedKept(w, w1, pid, slot);
    }
  }

  lemma UnsharedKept(w: World, w1: World, pid: Pid, slot: Slot)
    requires OthersKept(w, w1, pid)
    ensures Unshared(w.procs, pid, slot) ==> Unshared(w1.procs, pid, slot)
  {
    hide AgreeOn;
  }

  /** Where a mprotect has got to: `mid` is the world once the ends of the range are split, `done`
      are the maps mapped with the new permissions since. */
  ghost predicate Protected(mid: World, o: multiset<Slot>, s: World, pid: Pid, keys: set<nat>, done: set<nat>,
                            perms: Perms, r: Result<()>)
  {
    && FirstOf(done, keys) && (if r.Ok? then done == keys else done == {} || done != keys)
    && Live(s, o, pid) && OthersKept(mid, s, pid) && pid in mid.procs && pid in s.procs
    && (r.Err? ==> s.procs == mid.procs && s.frames == mid.frames)
    && (Translated(mid) ==> Translated(s))
    && (Translated(mid) && Isolated(mid) ==>
          (Isolated(s) <==> if r.Ok? then MayProtect(mid, pid, done, perms) else MayHalt(mid, pid, done, perms)))
  }

  lemma ProtectedFrom(mid: World, o: multiset<Slot>, s: World, pid: Pid, keys: set<nat>, done: set<nat>, perms: Perms,
                      r: Result<()>, failed: nat)
    requires FirstOf(done, keys) && (r.Ok? ==> done == keys && Protecting(mid, o, s, pid, keys, perms))
    requires r.Err? ==> failed in keys && Halted(mid, o, s, pid, done, perms, failed)
    ensures Protected(mid, o, s, pid, keys, done, perms, r)
  {
    hide Protecting, Live, Books, StepOk, OthersKept, Translated, Isolated, MayProtect, MayHalt, FirstOf, Halted,
         PagesProtected;
    if r.Ok? {
      ProtectingParts(mid, o, s, pid, keys, perms);
      if Translated(mid) && Isolated(mid) {
        ProtectedIsolatedIff(mid, o, s, pid, keys, perms);
      }
    } else {
      HaltedIsolatedIff(mid, o, s, pid, done, perms, failed);
      HaltedPid(mid, o, s, pid, done, perms, failed);
    }
  }

  lemma HaltedPid(w: World, o: multiset<Slot>, s: World, pid: Pid, done: set<nat>, perms: Perms, k: nat)
    requires Halted(w, o, s, pid, done, perms, k)
    ensures pid in w.procs && k !in done
  {
    hide Protecting, MemoryMap.Pages, Unmapped;
  }

  lemma NothingProtected(w: World, o: multiset<Slot>, pid: Pid, keys: set<nat>, perms: Perms)
    requires Live(w, o, pid)
    ensures Protected(w, o, w, pid, keys, {}, perms, Err(OutOfMemory))
    ensures forall e: Error :: Protected(w, o, w, pid, keys, {}, perms, Err(e))
  {
    hide Books, OthersKept, Translated, Isolated;
    SplitNothing(w, o, pid);
  }

  /** When write permission goes to private unmarked maps only, or none is given, copy-on-write
      stays sound; when the maps already had it, even if the call fails half way. */
  lemma ProtectedStep(w: World, o: multiset<Slot>, mid: World, s: World, pid: Pid, lo: nat, hi: nat, done: set<nat>,
                      perms: Perms, r: Result<()>)
    requires Live(w, o, pid) && pid in mid.procs && StepOk(w, o, mid, o, pid)
             && FromMaps(w.procs, pid, mid.procs[pid].maps)
    requires Protected(mid, o, s, pid, Meeting(mid.procs[pid].maps, lo, hi), done, perms, r)
    ensures (if r.Ok? then MayProtect(w, pid, Meeting(w.procs[pid].maps, lo, hi), perms)
             else MayHalt(w, pid, Meeting(w.procs[pid].maps, lo, hi), perms)) ==>
              StepOk(w, o, s, o, pid)
  {
    hide Live, Books, StepOk, OthersKept, Translated, Isolated, Meeting, FromMaps, SpaceOk, RefsOk, Unshared;
    LiveParts(w, o, pid);
    LiveParts(s, o, pid);
    StepOkParts(w, o, mid, o, pid);
    SpaceMapsOk(w.procs[pid]);
    BooksParts(mid, o, pid);
    MayProtectSplit(w, mid, pid, lo, hi, perms);
    OthersKeptTransitive(w, mid, s, pid);
    LostPlus(o, 0);
    if if r.Ok? then MayProtect(w, pid, Meeting(w.procs[pid].maps, lo, hi), perms)
       else MayHalt(w, pid, Meeting(w.procs[pid].maps, lo, hi), perms) {
      StepFrom(w, o, s, o, pid);
    }
  }

  /** mprotect: on success every page of the rounded range, all of them resident before, has the
      new permissions and keeps its contents, and nothing else changes; it fails when some page
      is not resident, and then no page changes. `mid` is the world after the split of the ends
      and `done` the maps mapped anew: a success keeps copy-on-write sound exactly when write
      permission goes to no marked or shared map, a failure exactly when the maps mapped anew
      were recorded as writable and unmarked already. */
  method Mprotect(mgr: ApeManager, pid: Pid, addr: nat, len: nat, perms: Perms)
    returns (r: Result<()>, ghost mid: World, ghost done: set<nat>)
    requires Live(mgr.s, mgr.owed, pid)
    modifies mgr
    ensures mgr.owed == old(mgr.owed) && Live(mgr.s, mgr.owed, pid) && OthersKept(old(mgr.s), mgr.s, pid)
            && pid in mgr.s.procs
    ensures Translated(old(mgr.s)) ==> Translated(mgr.s)
    ensures len == 0 ==> r.Ok? && mgr.s == old(mgr.s)
    ensures var lo, hi := AlignDown(addr), AlignUp(addr + len);
            len > 0 ==>
              && (r.Ok? ==> Resident(old(mgr.s).procs[pid], lo, hi) && FlagsSet(old(mgr.s), mgr.s, pid, lo, hi, perms))
              && (r.Err? ==> SameView(old(mgr.s).frames, old(mgr.s).procs[pid], mgr.s.frames, mgr.s.procs[pid]))
              && (!Resident(old(mgr.s).procs[pid], lo, hi) ==> r.Err?)
    ensures var lo, hi := AlignDown(addr), AlignUp(addr + len);
            len > 0 ==>
              && Live(mid, mgr.owed, pid) && pid in mid.procs && OthersKept(old(mgr.s), mid, pid)
              && SameView(old(mgr.s).frames, old(mgr.s).procs[pid], mid.frames, mid.procs[pid])
              && FromMaps(old(mgr.s).procs, pid, mid.procs[pid].maps)
              && (PrivateTargets(old(mgr.s).procs[pid].maps, lo, hi) ==>
                    StepOk(old(mgr.s), old(mgr.owed), mid, mgr.owed, pid))
              && Protected(mid, mgr.owed, mgr.s, pid, Meeting(mid.procs[pid].maps, lo, hi), done, perms, r)
              && (Targets(old(mgr.s).procs[pid].maps, lo, hi) == {} ==> mid == old(mgr.s))
    ensures var lo, hi := AlignDown(addr), AlignUp(addr + len);
            len > 0 && PrivateTargets(old(mgr.s).procs[pid].maps, lo, hi)
            && (if r.Ok? then MayProtect(old(mgr.s), pid, Meeting(old(mgr.s).procs[pid].maps, lo, hi), perms)
                else MayHalt(old(mgr.s), pid, Meeting(old(mgr.s).procs[pid].maps, lo, hi), perms)) ==>
              StepOk(old(mgr.s), old(mgr.owed), mgr.s, mgr.owed, pid)
  {
    hide Live, Books, StepOk, OthersKept, Protecting, MayProtect, MayHalt, Translated, SameView, SpaceOk, RefsOk,
         NoStraddle, PrivateTargets, FlagsSet, Resident, AlignUp, AlignDown, Targets, Meeting, Protected, FromMaps,
         Halted, FirstOf, MapsOk;
    ghost var w, o := mgr.s, mgr.owed;
    mid, done := w, {};
    LiveParts(w, o, pid);
    SplitNothing(w, o, pid);
    if len == 0 {
      return Ok(()), w, {};
    }
    var lo, hi := AlignDown(addr), AlignUp(addr + len);
    NothingProtected(w, o, pid, Meeting(w.procs[pid].maps, lo, hi), perms);
    FromMapsSelf(w.procs, pid);
    var end := CheckedAdd(addr, len);
    if end.None? {
      return Err(OutOfMemory), w, {};
    }
    RoundedRange(addr, len);
    r := EnsureSplit(mgr, pid, lo, hi);
    mid := mgr.s;
    LiveParts(mid, o, pid);
    NothingProtected(mid, o, pid, Meeting(mid.procs[pid].maps, lo, hi), perms);
    if r.Err? {
      return;
    }
    SpaceMapsOk(mid.procs[pid]);
    var keys := CollectRanges(mgr.s.procs[pid], lo, hi);
    SameResident(w, o, mid, pid, lo, hi);
    if keys.Err? {
      return Err(keys.error), mid, {};
    }
    MeetingKeys(mgr.s.procs[pid].maps, lo, hi);
    ghost var failed;
    r, done, failed := ProtectMaps(mgr, pid, keys.value, perms);
    ProtectedFrom(mid, o, mgr.s, pid, keys.value, done, perms, r, failed);
    ProtectedParts(mid, o, mgr.s, pid, keys.value, done, perms, r);
    OthersKeptTransitive(w, mid, mgr.s, pid);
    if r.Err? {
      SameTablesAgain(w, mid, mgr.s, pid);
    } else {
      MprotectDone(w, o, mid, mgr.s, pid, keys.value, perms, lo, hi);
    }
    if PrivateTargets(w.procs[pid].maps, lo, hi) {
      ProtectedStep(w, o, mid, mgr.s, pid, lo, hi, done, perms, r);
    }
  }

  lemma ProtectedParts(mid: World, o: multiset<Slot>, s: World, pid: Pid, keys: set<nat>, done: set<nat>, perms: Perms,
                       r: Result<()>)
    requires Protected(mid, o, s, pid, keys, done, perms, r)
    ensures Live(s, o, pid) && OthersKept(mid, s, pid) && pid in mid.procs && pid in s.procs
    ensures (r.Err? ==> s.procs == mid.procs && s.frames == mid.frames) && (Translated(mid) ==> Translated(s))
  {
    hide Live, OthersKept, Translated, Isolated;
  }

  lemma RoundedRange(addr: nat, len: nat)
    requires len > 0
    ensures AlignDown(addr) < AlignUp(addr + len)
    ensures AlignDown(addr) % PGSIZE == 0 && AlignUp(addr + len) % PGSIZE == 0
  {
  }

  lemma ResidentPageSame(frames: Frames, mm: MmState, frames': Frames, mm': MmState, a: nat)
    requires PageAt(frames', mm', a) == PageAt(frames, mm, a) && MapsOk(mm.maps) && MapsOk(mm'.maps)
    ensures Lookup(mm'.maps, a).Some? <==> Lookup(mm.maps, a).Some?
  {
    hide MapsOk, Lookup;
    LookupExact(mm.maps, a);
    LookupExact(mm'.maps, a);
  }

  lemma SameResident(w: World, o: multiset<Slot>, w1: World, pid: Pid, lo: nat, hi: nat)
    requires Live(w, o, pid) && Live(w1, o, pid) && SameView(w.frames, w.procs[pid], w1.frames, w1.procs[pid])
    ensures Resident(w1.procs[pid], lo, hi) <==> Resident(w.procs[pid], lo, hi)
  {
    hide Books, SpaceOk, RefsOk, MapsOk, Lookup, PageAt, SameView;
    LiveParts(w, o, pid);
    LiveParts(w1, o, pid);
    SpaceMapsOk(w.procs[pid]);
    SpaceMapsOk(w1.procs[pid]);
    forall a: nat | a % PGSIZE == 0
      ensures Lookup(w1.procs[pid].maps, a).Some? <==> Lookup(w.procs[pid].maps, a).Some?
    {
      LookupAtMost(w.frames, w.procs[pid], w1.frames, w1.procs[pid], a);
      ResidentPageSame(w.frames, w.procs[pid], w1.frames, w1.procs[pid], a);
    }
  }

  lemma SameTablesAgain(w: World, w1: World, s: World, pid: Pid)
    requires pid in w.procs && pid in w1.procs && SameView(w.frames, w.procs[pid], w1.frames, w1.procs[pid])
    requires s.procs == w1.procs && s.frames == w1.frames
    ensures SameView(w.frames, w.procs[pid], s.frames, s.procs[pid])
  {
  }

  /** Once split, every map that meets the range lies in it, and no page of it is lazy. */
  lemma RangeIsWhole(mm: MmState, keys: set<nat>, lo: nat, hi: nat)
    requires SpaceOk(mm) && NoStraddle(mm.maps, lo, hi) && Resident(mm, lo, hi) && lo % PGSIZE == 0 && hi % PGSIZE == 0
    requires keys == Meeting(mm.maps, lo, hi)
    ensures forall k | k in keys :: k in mm.maps && lo <= k && mm.maps[k].End() <= hi
    ensures forall k | k in mm.maps && k !in keys :: mm.maps[k].End() <= lo || hi <= k
    ensures forall l | l in mm.lazy :: !(lo <= l < hi)
  {
    hide SpaceOk, MapsOk, LazyOk, Apart, StackOk, Lookup;
    SpaceParts(mm);
    forall k | k in mm.maps
      ensures k in keys ==> lo <= k && mm.maps[k].End() <= hi
      ensures k !in keys ==> mm.maps[k].End() <= lo || hi <= k
    {
      EntryOf(mm.maps, k);
      SmallInside(mm.maps[k], lo, hi);
    }
    forall l | l in mm.lazy
      ensures !(lo <= l < hi)
    {
      LazyNotResident(mm, l);
    }
  }

  lemma SmallInside(m: MemoryMap, lo: nat, hi: nat)
    requires m.vaddr % PGSIZE == 0 && lo % PGSIZE == 0 && hi % PGSIZE == 0
    ensures m.size == PGSIZE && HasOverlap(lo, hi, m.vaddr, m.size) ==> lo <= m.vaddr && m.End() <= hi
    ensures m.size > 0 && m.size % PGSIZE == 0 && !(m.size > PGSIZE) ==> m.size == PGSIZE
  {
  }

  lemma LazyNotResident(mm: MmState, l: nat)
    requires SpaceOk(mm) && l in mm.lazy
    ensures Lookup(mm.maps, l).None? && l % PGSIZE == 0
  {
    LookupExact(mm.maps, l);
  }

  lemma MprotectDone(w: World, o: multiset<Slot>, w1: World, v: World, pid: Pid, keys: set<nat>, perms: Perms, lo: nat,
                     hi: nat)
    requires Live(w, o, pid) && Live(w1, o, pid) && OthersKept(w, w1, pid)
    requires SameView(w.frames, w.procs[pid], w1.frames, w1.procs[pid])
    requires Protecting(w1, o, v, pid, keys, perms) && lo % PGSIZE == 0 && hi % PGSIZE == 0
    requires NoStraddle(w1.procs[pid].maps, lo, hi) && Resident(w1.procs[pid], lo, hi)
    requires keys == Meeting(w1.procs[pid].maps, lo, hi)
    ensures OthersKept(w, v, pid) && Books(v, o) && pid in v.procs
    ensures FlagsSet(w, v, pid, lo, hi, perms)
    ensures MayProtect(w1, pid, keys, perms) ==> StepOk(w1, o, v, o, pid)
  {
    hide Live, Books, StepOk, OthersKept, Protecting, MayProtect, Translated, SameView, SpaceOk, RefsOk, NoStraddle,
         Resident, Meeting;
    LiveParts(w1, o, pid);
    ProtectingParts(w1, o, v, pid, keys, perms);
    LiveParts(v, o, pid);
    OthersKeptTransitive(w, w1, v, pid);
    RangeIsWhole(w1.procs[pid], keys, lo, hi);
    ProtectedView(w1, o, v, pid, keys, perms, lo, hi);
    SameThenProtected(w, w1, v, pid, lo, hi, perms);
  }

  lemma SameThenProtected(w: World, w1: World, v: World, pid: Pid, lo: nat, hi: nat, perms: Perms)
    requires pid in w.procs && pid in w1.procs && SameView(w.frames, w.procs[pid], w1.frames, w1.procs[pid])
    requires FlagsSet(w1, v, pid, lo, hi, perms)
    ensures FlagsSet(w, v, pid, lo, hi, perms)
  {
    hide PageAt;
  }

  // ----- brk -----

  /** brk: 0 or a break outside the heap's bounds reports the break in force; any other becomes
      it. No page changes either way. */
  method Brk(mgr: ApeManager, pid: Pid, addr: nat) returns (r: nat)
    requires Live(mgr.s, mgr.owed, pid)
    modifies mgr`s
    ensures StepOk(old(mgr.s), mgr.owed, mgr.s, mgr.owed, pid) && pid in mgr.s.procs
    ensures SameView(old(mgr.s).frames, old(mgr.s).procs[pid], mgr.s.frames, mgr.s.procs[pid])
    ensures var mm := old(mgr.s).procs[pid];
            && r == mgr.s.procs[pid].heapBrk
            && r == if addr != 0 && mm.heapStart <= addr <= mm.heapLimit then addr else mm.heapBrk
  {
    hide Live, Books, StepOk, SpaceOk, RefsOk, SameView;
    ghost var w, o := mgr.s, mgr.owed;
    LiveParts(w, o, pid);
    SplitNothing(w, o, pid);
    var mm := mgr.s.procs[pid];
    if addr == 0 || addr < mm.heapStart || addr > mm.heapLimit {
      return mm.heapBrk;
    }
    SpaceBrk(mm, addr);
    SameMapsStep(w, o, pid, mm.(heapBrk := addr));
    BrkView(w.frames, mm, addr);
    mgr.s := WithSpace(mgr.s, pid, mm.(heapBrk := addr));
    r := addr;
  }

  lemma SpaceBrk(mm: MmState, addr: nat)
    requires SpaceOk(mm)
    ensures SpaceOk(mm.(heapBrk := addr))
  {
  }

  lemma BrkView(frames: Frames, mm: MmState, addr: nat)
    ensures SameView(frames, mm, frames, mm.(heapBrk := addr))
  {
  }
}
