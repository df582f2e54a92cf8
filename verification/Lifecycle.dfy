/** fork and exit as the memory manager sees them. */
module Lifecycle {
  import opened Types
  import opened AddressSpace
  import opened Machine
  import opened Views
  import opened World
  import opened CowFault
  import opened DropMaps
  import opened Splitting
  import opened Manager
  import opened SplitCalls
  import opened MemoryCalls
  import opened Reflag
  import opened Faults
  import opened ForkLemmas

  // ----- fork -----

  lemma ForkingQuiet(w: World, o: multiset<Slot>, s: World, owed: multiset<Slot>, pt: PageTable, pt': PageTable,
                     pid: Pid, todo: set<nat>, retained: set<Slot>, s': World)
    requires Forking(w, o, s, owed, pt, pid, todo, retained)
    requires Quiet(s, s', pid) && s'.frames == s.frames && s'.refs == s.refs
    requires TableOk(pt, s.procs[pid].maps) && ReadOnly(pt) ==> TableOk(pt', s.procs[pid].maps) && ReadOnly(pt')
    ensures Forking(w, o, s', owed, pt', pid, todo, retained)
  {
    hide Live, Books, SpaceOk, RefsOk, MapsOk, StepOk, TableOk, ReadOnly, Lost, PlusSet, OthersKept, SameView, AgreeOn;
    LiveParts(s, owed, pid);
    LostPlus(owed, 0);
    QuietStep(s, owed, s', owed, pid);
    StepOkParts(s, owed, s', owed, pid);
    MakeLive(s', owed, pid);
    StepOkTransitive(w, o, s, owed, s', owed, pid);
  }

  lemma HwCommute(w: World, pid: Pid, child: Pid, a: PageTable, b: PageTable)
    requires pid != child
    ensures w.hw[pid := a][child := b] == w.hw[child := b][pid := a]
    ensures w.hw[child := a][child := b] == w.hw[child := b]
  {
  }

  lemma ChildTables(w: World, o: multiset<Slot>, s: World, owed: multiset<Slot>, pt: PageTable, pid: Pid,
                    todo: set<nat>, retained: set<Slot>, k: nat)
    requires Forking(w, o, s, owed, pt, pid, todo, retained) && k in s.procs[pid].maps
    ensures var m := s.procs[pid].maps[k];
            var pt1 := Mapped(pt, m.frameCap, k, m.flags.WithoutWrite(), m.Pages());
            && TableOk(pt1, s.procs[pid].maps) && ReadOnly(pt1)
            && TableOk(Unmapped(pt, k, m.Pages()), s.procs[pid].maps) && ReadOnly(Unmapped(pt, k, m.Pages()))
            && TableOk(Unmapped(pt1, k, m.Pages()), s.procs[pid].maps) && ReadOnly(Unmapped(pt1, k, m.Pages()))
    ensures s.hw.Keys == s.procs.Keys && FramesExist(s.procs, s.frames)
    ensures TableOk(pt, s.procs[pid].maps) && ReadOnly(pt)
  {
    hide TableOk, ReadOnly, Mapped, Unmapped, MapsOk, RefsOk, SpaceOk, StepOk, FramesExist;
    BooksParts(s, owed, pid);
    ChildMapped(pt, s.procs[pid].maps, k);
    var m := s.procs[pid].maps[k];
    ChildMapped(Mapped(pt, m.frameCap, k, m.flags.WithoutWrite(), m.Pages()), s.procs[pid].maps, k);
  }

  /** Maps the parent's map at `k` into the child, and read-only into the parent when it is
      writable and not yet copy-on-write. A failure leaves the tables as they were. */
  method ShareMap(mgr: ApeManager, pid: Pid, child: Pid, k: nat, ghost w: World, ghost o: multiset<Slot>,
                  ghost s: World, ghost pt: PageTable, ghost todo: set<nat>, ghost retained: set<Slot>)
    returns (r: Result<()>, ghost s': World, ghost pt': PageTable)
    requires Forking(w, o, s, mgr.owed, pt, pid, todo, retained) && k in todo && k in s.procs[pid].maps
    requires child != pid && mgr.s == WithTable(s, child, pt)
    modifies mgr`s
    ensures mgr.s == WithTable(s', child, pt') && Forking(w, o, s', mgr.owed, pt', pid, todo, retained)
    ensures s'.procs == s.procs && s'.frames == s.frames
    ensures r.Ok? ==>
              && pid in s'.procs && pid in s'.hw && k in s'.procs[pid].maps
              && ((Translated(s') ==> NoneWritable(s'.hw[pid], k))
                  || Marked(s'.procs[pid].maps[k]) == s'.procs[pid].maps[k])
  {
    hide Forking, Live, Books, Mapped, Unmapped, Translated, NoneWritable, StepOk, TableOk, ReadOnly, Quiet,
         FramesExist;
    ghost var owed := mgr.owed;
    ForkingParts(w, o, s, owed, pt, pid, todo, retained);
    ChildTables(w, o, s, owed, pt, pid, todo, retained, k);
    s', pt' := s, pt;
    var m := mgr.s.procs[pid].maps[k];
    UnmapQuiet(s, pid, k, m.Pages());
    QuietFailure(s, pid, Above(s.frames.Keys), [], 0, 0);
    ghost var pt1 := Mapped(pt, m.frameCap, k, m.flags.WithoutWrite(), m.Pages());
    r := mgr.MapProcessFrame(child, m.frameCap, k, m.flags.WithoutWrite(), m.Pages());
    HwCommute(s, pid, child, pt, mgr.s.hw[child]);
    pt' := mgr.s.hw[child];
    ForkingQuiet(w, o, s, owed, pt, pt', pid, todo, retained, s);
    if r.Err? || !m.flags.w || m.cow {
      return;
    }
    ProtectParent(s, owed, pid, k);
    r := mgr.ReplaceMapping(pid, m.frameCap, k, m.flags.WithoutWrite(), m.Pages());
    s' := s.(hw := s.hw[pid := mgr.s.hw[pid]]);
    HwCommute(s, pid, child, mgr.s.hw[pid], pt1);
    if r.Err? {
      mgr.UnmapProcessPages(child, k, m.Pages());
      pt' := Unmapped(pt1, k, m.Pages());
      HwCommute(s', pid, child, pt1, pt');
      ForkingQuiet(w, o, s, owed, pt, pt', pid, todo, retained, s');
    } else {
      ForkingStep(w, o, s, owed, pt, pt1, pid, todo, retained, s');
    }
  }

  lemma ForkingStep(w: World, o: multiset<Slot>, s: World, owed: multiset<Slot>, pt: PageTable, pt': PageTable,
                    pid: Pid, todo: set<nat>, retained: set<Slot>, s': World)
    requires Forking(w, o, s, owed, pt, pid, todo, retained)
    requires StepOk(s, owed, s', owed, pid) && Live(s', owed, pid)
    requires s'.procs == s.procs && s'.frames == s.frames && pid in s.procs
    requires TableOk(pt', s.procs[pid].maps) && ReadOnly(pt')
    ensures Forking(w, o, s', owed, pt', pid, todo, retained)
  {
    hide Books, SpaceOk, RefsOk, MapsOk, StepOk, TableOk, ReadOnly, PlusSet;
    StepOkTransitive(w, o, s, owed, s', owed, pid);
  }

  /** The sharing loop: `s0` is the world without the child's translations `pt`. */
  method ShareMaps(mgr: ApeManager, pid: Pid, child: Pid, ghost w: World, ghost o: multiset<Slot>)
    returns (r: Result<()>, childMaps: Maps, ghost s0: World, ghost pt: PageTable, ghost todo: set<nat>,
             ghost retained: set<Slot>)
    requires Live(w, o, pid) && mgr.s == w && mgr.owed == o
    requires child != pid && child in w.hw && w.hw[child] == map[]
    modifies mgr
    ensures mgr.s == WithTable(s0, child, pt) && Forking(w, o, s0, mgr.owed, pt, pid, todo, retained)
    ensures r.Ok? ==> todo == {} && pid in s0.procs && childMaps == s0.procs[pid].maps
  {
    hide Forking, Live, Books, Mapped, Unmapped, Translated, NoneWritable, StepOk, TableOk, ReadOnly, Quiet,
         FramesExist, Retained, Plus, PlusSet, PartlyMarked;
    s0, pt := w, map[];
    retained := {};
    UpdateTwice(w.hw, child, map[], map[]);
    LiveParts(w, o, pid);
    ForkingStart(w, o, pid);
    childMaps := mgr.s.procs[pid].maps;
    var left := mgr.s.procs[pid].maps.Keys;
    var kept: set<Slot> := {};
    todo := left;
    while left != {}
      invariant mgr.s == WithTable(s0, child, pt) && Forking(w, o, s0, mgr.owed, pt, pid, left, retained)
      invariant pid in s0.procs && childMaps == s0.procs[pid].maps && kept == retained && todo == left
    {
      var k :| k in left;
      ForkingParts(w, o, s0, mgr.owed, pt, pid, left, retained);
      ghost var s1, pt1;
      ghost var owed1 := mgr.owed;
      r, s1, pt1 := ShareMap(mgr, pid, child, k, w, o, s0, pt, left, retained);
      if r.Err? {
        s0, pt := s1, pt1;
        return;
      }
      var m := mgr.s.procs[pid].maps[k];
      ForkingParts(w, o, s1, owed1, pt1, pid, left, retained);
      StepOkSelf(s1, owed1, pid);
      ForkingNext(w, o, s1, owed1, pt1, pid, left, retained, s1, k);
      if m.frameCap !in kept {
        kept := kept + {m.frameCap};
        mgr.s := mgr.s.(refs := Retained(mgr.s.refs, m.frameCap));
        mgr.owed := Plus(mgr.owed, m.frameCap);
      }
      mgr.s := mgr.s.(procs := WithMaps(mgr.s.procs, pid, mgr.s.procs[pid].maps[k := Marked(m)]));
      childMaps := childMaps[k := Marked(childMaps[k])];
      s0 := MarkedWorld(s1.(refs := Retained(s1.refs, m.frameCap)), pid, k);
      pt, retained := pt1, retained + {m.frameCap};
      left := left - {k};
      todo := left;
    }
    r := Ok(());
  }

  lemma StepOkSelf(w: World, owed: multiset<Slot>, pid: Pid)
    requires Live(w, owed, pid)
    ensures StepOk(w, owed, w, owed, pid)
  {
    StepOkReflexive(w, owed, pid);
  }

  /** The child sees what the parent sees, and nobody sees anything else than before. */
  ghost predicate Cloned(w: World, w': World, pid: Pid, child: Pid) {
    && AllSame(w, w') && pid in w.procs && child in w'.procs
    && SameView(w.frames, w.procs[pid], w'.frames, w'.procs[child])
  }

  ghost predicate AllSame(w: World, w': World) {
    forall q | q in w.procs :: q in w'.procs && SameView(w.frames, w.procs[q], w'.frames, w'.procs[q])
  }

  /** A copy-on-write mark is not part of what a process sees. */
  lemma MarkedView(frames: Frames, mm: MmState, mm': MmState, todo: set<nat>)
    requires SpaceOk(mm) && SpaceOk(mm') && mm' == mm.(maps := mm'.maps) && PartlyMarked(mm.maps, mm'.maps, todo)
    ensures SameView(frames, mm, frames, mm')
  {
    hide PageAt, SpaceOk, PartlyMarked;
    SpaceMapsOk(mm);
    SpaceMapsOk(mm');
    forall a: nat | a % PGSIZE == 0
      ensures PageAt(frames, mm', a) == PageAt(frames, mm, a)
    {
      MarkedPage(frames, mm, mm', todo, a);
    }
  }

  lemma MarkedPage(frames: Frames, mm: MmState, mm': MmState, todo: set<nat>, a: nat)
    requires MapsOk(mm.maps) && MapsOk(mm'.maps) && mm' == mm.(maps := mm'.maps)
             && PartlyMarked(mm.maps, mm'.maps, todo)
    ensures PageAt(frames, mm', a) == PageAt(frames, mm, a)
  {
    hide MapsOk, Lookup;
    LookupExact(mm.maps, a);
    LookupExact(mm'.maps, a);
    assert forall k | k in mm.maps :: mm'.maps[k].Covers(a) <==> mm.maps[k].Covers(a);
  }

  lemma ForkingViews(w: World, o: multiset<Slot>, s: World, owed: multiset<Slot>, pt: PageTable, pid: Pid,
                     todo: set<nat>, retained: set<Slot>)
    requires Live(w, o, pid) && Forking(w, o, s, owed, pt, pid, todo, retained)
    ensures AllSame(w, s) && s.procs.Keys == w.procs.Keys && s.running == w.running && s.hw.Keys == w.hw.Keys
    ensures Books(s, owed) && (Translated(w) ==> Translated(s)) && (Translated(w) && Isolated(w) ==> Isolated(s))
    ensures forall q | q in w.procs && q != pid :: s.procs[q] == w.procs[q] && s.hw[q] == w.hw[q]
    ensures s.frames == w.frames
  {
    hide Books, SpaceOk, RefsOk, MapsOk, StepOk, TableOk, ReadOnly, PlusSet, PageAt, Translated, Isolated, Lost;
    LiveParts(w, o, pid);
    LiveParts(s, owed, pid);
    StepOkParts(w, o, s, owed, pid);
    MarkedView(w.frames, w.procs[pid], s.procs[pid], todo);
    forall q | q in w.procs
      ensures SameView(w.frames, w.procs[q], s.frames, s.procs[q])
    {
      assert q != pid ==> s.procs[q] == w.procs[q];
    }
  }

  lemma ForkingEnd(w: World, o: multiset<Slot>, s: World, owed: multiset<Slot>, pt: PageTable, pid: Pid,
                   retained: set<Slot>)
    requires Forking(w, o, s, owed, pt, pid, {}, retained)
    ensures owed == PlusSet(o, CapsOf(s.procs[pid].maps)) && AllMarked(s.procs[pid].maps) && MapsOk(s.procs[pid].maps)
    ensures TableOk(pt, s.procs[pid].maps) && ReadOnly(pt)
    ensures s.procs[pid] == w.procs[pid].(maps := s.procs[pid].maps)
  {
    hide Books, RefsOk, StepOk, TableOk, ReadOnly, PlusSet, MapsOk;
    LiveParts(s, owed, pid);
    SpaceMapsOk(s.procs[pid]);
    SameCaps(w.procs[pid].maps, s.procs[pid].maps);
  }

  lemma SameCaps(maps: Maps, maps': Maps)
    requires PartlyMarked(maps, maps', {})
    ensures SharedCaps(maps, {}) == CapsOf(maps')
  {
    forall slot
      ensures slot in SharedCaps(maps, {}) <==> slot in CapsOf(maps')
    {
      if slot in SharedCaps(maps, {}) {
        var k :| k in maps && maps[k].frameCap == slot;
        assert k in maps' && maps'[k].frameCap == slot;
      }
      if slot in CapsOf(maps') {
        var k :| k in maps' && maps'[k].frameCap == slot;
        assert k in maps && maps[k].frameCap == slot;
      }
    }
  }

  /** The child has taken the tables; `started` says whether it runs. */
  lemma ForkDone(w: World, o: multiset<Slot>, s: World, owed: multiset<Slot>, pt: PageTable, pid: Pid, child: Pid,
                 retained: set<Slot>, w': World, started: bool)
    requires Live(w, o, pid) && Forking(w, o, s, owed, pt, pid, {}, retained)
    requires pid != child && child in w.procs && child in w.hw && child !in w.running && w.procs[child].maps == map[]
    requires w' == WithTable(Adopted(s, pid, child), child, pt).(running :=
                     if started then w.running + {child} else w.running)
    ensures Books(w', o) && (Translated(w) ==> Translated(w')) && (Translated(w) && Isolated(w) ==> Isolated(w'))
    ensures w'.procs.Keys == w.procs.Keys && pid in s.procs && w'.frames == w.frames
    ensures SameView(w.frames, w.procs[pid], w'.frames, w'.procs[child])
    ensures forall q | q in w.procs && q != child :: SameView(w.frames, w.procs[q], w'.frames, w'.procs[q])
    ensures forall q | q in w.procs && q != child && q != pid :: w'.procs[q] == w.procs[q] && w'.hw[q] == w.hw[q]
  {
    hide Live, Books, SpaceOk, RefsOk, StepOk, TableOk, ReadOnly, PlusSet, MapsOk, Translated, Isolated, PageAt,
         AllMarked, CapsOf, PartlyMarked, Forking, SharedCaps;
    LiveParts(w, o, pid);
    ForkingParts(w, o, s, owed, pt, pid, {}, retained);
    ForkingViews(w, o, s, owed, pt, pid, {}, retained);
    ForkingEnd(w, o, s, owed, pt, pid, retained);
    var s1 := Adopted(s, pid, child);
    var s2 := WithTable(s1, child, pt);
    AdoptBooks(s, o, pid, child);
    WithTableKeeps(s1, o, child, pt);
    if Translated(w) {
      AdoptTranslated(s, pid, child);
    }
    if Translated(w) && Isolated(w) {
      BooksParts(s, owed, pid);
      AdoptIsolated(s, pid, child);
    }
    StartStep(s2, o, child);
  }

  /** References to some of the frames of `maps` were lost, one each, and nothing else. */
  ghost predicate LostSome(maps: Maps, owed: multiset<Slot>, owed': multiset<Slot>) {
    exists taken: set<Slot> :: taken <= CapsOf(maps) && owed' == PlusSet(owed, taken)
  }

  lemma LostNone(maps: Maps, owed: multiset<Slot>)
    ensures LostSome(maps, owed, owed)
  {
    PlusSetOne(owed, {}, 0);
    assert {} <= CapsOf(maps) && owed == PlusSet(owed, {});
  }

  lemma ForkingLost(w: World, o: multiset<Slot>, s: World, owed: multiset<Slot>, pt: PageTable, pid: Pid,
                    todo: set<nat>, retained: set<Slot>)
    requires Forking(w, o, s, owed, pt, pid, todo, retained)
    ensures LostSome(w.procs[pid].maps, o, owed)
  {
    hide Live, StepOk, TableOk, ReadOnly, PartlyMarked, PlusSet;
    assert retained <= CapsOf(w.procs[pid].maps);
  }

  /** fork: on success the child shows every page the parent showed, contents, permissions and
      backing alike, nobody's own pages change, and no reference is lost. A failure changes nobody's
      pages, but a record of the child may remain that never runs: an empty one, and then the
      references taken so far are lost, at most one to each frame of the parent; or, when it could
      not be started, one with the parent's tables, which holds all of the parent's frames. */
  method Fork(mgr: ApeManager, pid: Pid, child: Pid, blank: MmState) returns (r: Result<Pid>)
    requires Live(mgr.s, mgr.owed, pid) && child !in mgr.s.procs && BlankSpace(blank)
    modifies mgr
    ensures Books(mgr.s, mgr.owed) && (Translated(old(mgr.s)) ==> Translated(mgr.s))
    ensures Translated(old(mgr.s)) && Isolated(old(mgr.s)) ==> Isolated(mgr.s)
    ensures AllSame(old(mgr.s), mgr.s)
    ensures r.Ok? ==>
              && r.value == child && mgr.owed == old(mgr.owed) && Cloned(old(mgr.s), mgr.s, pid, child)
              && mgr.s.running == old(mgr.s).running + {child} && mgr.s.procs.Keys == old(mgr.s).procs.Keys + {child}
    ensures r.Err? ==>
              && mgr.s.running == old(mgr.s).running && LostSome(old(mgr.s).procs[pid].maps, old(mgr.owed), mgr.owed)
              && old(mgr.s).procs.Keys <= mgr.s.procs.Keys <= old(mgr.s).procs.Keys + {child}
    ensures r.Err? && mgr.owed != old(mgr.owed) ==> child in mgr.s.procs && mgr.s.procs[child] == blank
    ensures r.Err? && child in mgr.s.procs && mgr.s.procs[child] != blank ==>
              pid in mgr.s.procs && mgr.s.procs[child] == mgr.s.procs[pid]
  {
    hide Live, Books, SpaceOk, RefsOk, StepOk, TableOk, ReadOnly, PlusSet, MapsOk, Translated, Isolated, PageAt,
         AllMarked, CapsOf, PartlyMarked, Forking, SharedCaps, LostSome, SameView;
    ghost var w0, o := mgr.s, mgr.owed;
    LiveParts(w0, o, pid);
    LostNone(w0.procs[pid].maps, o);
    AllSameReflexive(w0);
    var created: bool := *;
    if !created {
      return Err(ResourceFailed);
    }
    mgr.s := mgr.s.(procs := mgr.s.procs[child := blank], hw := mgr.s.hw[child := map[]]);
    ghost var w := mgr.s;
    RegisterStep(w0, o, child, blank);
    RegisteredParts(w0, o, w, pid, child, blank);
    r := ShareAndStart(mgr, pid, child, w, o);
    AllSameTransitive(w0, w, mgr.s);
    if r.Ok? {
      ClonedFrom(w0, w, mgr.s, pid, child);
    }
  }

  /** Shares the maps, hands the tables to the registered child and starts it. */
  method ShareAndStart(mgr: ApeManager, pid: Pid, child: Pid, ghost w: World, ghost o: multiset<Slot>)
    returns (r: Result<Pid>)
    requires Live(w, o, pid) && mgr.s == w && mgr.owed == o
    requires child != pid && child in w.hw && w.hw[child] == map[] && child !in w.running
    requires child in w.procs && w.procs[child].maps == map[] && w.procs[child].lazy == map[]
    modifies mgr
    ensures Books(mgr.s, mgr.owed) && (Translated(w) ==> Translated(mgr.s))
            && (Translated(w) && Isolated(w) ==> Isolated(mgr.s))
    ensures mgr.s.procs.Keys == w.procs.Keys && SameBut(w, mgr.s, child)
    ensures r.Ok? ==>
              && r.value == child && mgr.owed == o && mgr.s.running == w.running + {child}
              && SameView(w.frames, w.procs[pid], mgr.s.frames, mgr.s.procs[child])
    ensures r.Err? ==> mgr.s.running == w.running && LostSome(w.procs[pid].maps, o, mgr.owed)
    ensures r.Err? ==>
              && child in mgr.s.procs && pid in mgr.s.procs
              && (mgr.s.procs[child] == w.procs[child] || (mgr.s.procs[child] == mgr.s.procs[pid] && mgr.owed == o))
  {
    hide Live, Books, SpaceOk, RefsOk, StepOk, TableOk, ReadOnly, PlusSet, MapsOk, Translated, Isolated, PageAt,
         AllMarked, CapsOf, PartlyMarked, Forking, SharedCaps, LostSome, SameView;
    LiveParts(w, o, pid);
    LostNone(w.procs[pid].maps, o);
    var shared, childMaps;
    ghost var s0, pt, todo, retained;
    shared, childMaps, s0, pt, todo, retained := ShareMaps(mgr, pid, child, w, o);
    ForkingParts(w, o, s0, mgr.owed, pt, pid, todo, retained);
    ForkingViews(w, o, s0, mgr.owed, pt, pid, todo, retained);
    if shared.Err? {
      WithTableKeeps(s0, mgr.owed, child, pt);
      ForkingLost(w, o, s0, mgr.owed, pt, pid, todo, retained);
      return Err(shared.error);
    }
    ForkingEnd(w, o, s0, mgr.owed, pt, pid, retained);
    var p := mgr.s.procs[pid];
    var mm := MmState(childMaps, p.lazy, p.stackBottom, p.stackSize, p.maxStackSize, p.heapStart, p.heapBrk,
                      p.heapLimit, p.mmapBase, p.mmapNext, p.mmapLimit);
    var started: bool := *;
    mgr.s := mgr.s.(procs := mgr.s.procs[child := mm],
                    running := if started then mgr.s.running + {child} else mgr.s.running);
    ForkDone(w, o, s0, mgr.owed, pt, pid, child, retained, mgr.s, started);
    mgr.owed := o;
    r := if started then Ok(child) else Err(ResourceFailed);
  }

  /** No process but perhaps `child` sees anything else than before. */
  ghost predicate SameBut(w: World, w': World, child: Pid) {
    forall q | q in w.procs && q != child :: q in w'.procs && SameView(w.frames, w.procs[q], w'.frames, w'.procs[q])
  }

  lemma AllSameTransitive(w0: World, w: World, w': World)
    requires AllSame(w0, w)
    requires forall q | q in w0.procs ::
               q in w.procs && q in w'.procs && SameView(w.frames, w.procs[q], w'.frames, w'.procs[q])
    ensures AllSame(w0, w')
  {
    hide SameView;
    forall q | q in w0.procs
      ensures q in w'.procs && SameView(w0.frames, w0.procs[q], w'.frames, w'.procs[q])
    {
      SameViewTransitive(w0.frames, w0.procs[q], w.frames, w.procs[q], w'.frames, w'.procs[q]);
    }
  }

  lemma ClonedFrom(w0: World, w: World, w': World, pid: Pid, child: Pid)
    requires AllSame(w0, w) && AllSame(w0, w') && pid in w0.procs && pid in w.procs && child in w'.procs
    requires SameView(w.frames, w.procs[pid], w'.frames, w'.procs[child])
    ensures Cloned(w0, w', pid, child)
  {
    hide SameView;
    SameViewTransitive(w0.frames, w0.procs[pid], w.frames, w.procs[pid], w'.frames, w'.procs[child]);
  }

  lemma AllSameReflexive(w: World)
    ensures AllSame(w, w)
  {
    hide PageAt;
  }

  lemma RegisteredParts(w0: World, o: multiset<Slot>, w: World, pid: Pid, child: Pid, blank: MmState)
    requires Live(w0, o, pid) && child !in w0.procs && w == Registered(w0, child, blank) && Books(w, o)
             && BlankSpace(blank)
    ensures Live(w, o, pid) && child != pid && child in w.hw && w.hw[child] == map[] && child !in w.running
    ensures child in w.procs && w.procs[child].maps == map[] && AllSame(w0, w)
  {
    hide Books, PageAt, SpaceOk;
    BooksParts(w0, o, pid);
    BooksRunning(w0, o);
    forall q | q in w0.procs
      ensures q in w.procs && SameView(w0.frames, w0.procs[q], w.frames, w.procs[q])
    {
    }
  }

  lemma BooksRunning(w: World, o: multiset<Slot>)
    requires Books(w, o)
    ensures w.running <= w.procs.Keys
  {
  }

  // ----- exit -----

  /** The memory of `pid` is being given back: `left` maps remain in its table. */
  ghost predicate Exiting(w: World, o: multiset<Slot>, s: World, pid: Pid) {
    && pid in w.procs && pid in s.procs && pid in s.hw && OthersKept(w, s, pid)
    && RefsOk(s.procs, s.frames, s.refs, o)
    && MapsOk(s.procs[pid].maps)
  }

  lemma ExitingStart(w: World, o: multiset<Slot>, pid: Pid)
    requires Live(w, o, pid)
    ensures Exiting(w, o, w, pid)
  {
    hide Books, SpaceOk, RefsOk, MapsOk, OthersKept, StepOk, Lost;
    LiveParts(w, o, pid);
    SpaceMapsOk(w.procs[pid]);
    SplitNothing(w, o, pid);
  }

  lemma ExitingNext(w: World, o: multiset<Slot>, s: World, pid: Pid, k: nat)
    requires Exiting(w, o, s, pid) && k in s.procs[pid].maps
    ensures Exiting(w, o, Dropped(s, pid, k), pid)
    ensures Dropped(s, pid, k).procs[pid].maps == Remove(s.procs[pid].maps, k)
  {
    hide RefsOk, MapsOk, OthersKept, Unmapped, Released, FramesAfterRelease, Plus, Minus, InHand, FramesExist;
    var m := s.procs[pid].maps[k];
    var s1 := WithoutMap(s, pid, k);
    OthersKeptParts(w, s, pid);
    RefsDropMap(s.procs, s.frames, s.refs, o, pid, k);
    PlusMinus(o, m.frameCap);
    RefsRelease(s1.procs, s1.frames, s1.refs, Plus(o, m.frameCap), m.frameCap);
    DropMapOk(s.procs[pid].maps, k);
    CountedFrames(s, o);
    CountedFrames(Dropped(s, pid, k), o);
    HeldKept(s.procs, s.frames);
    OthersKeys(w, s, pid);
    OthersFrom(s, pid, s.procs[pid].(maps := Remove(s.procs[pid].maps, k)), Unmapped(s.hw[pid], k, m.Pages()), s.frames,
               s.refs);
    ReleaseOthers(s, s1, pid, m.frameCap);
    OthersKeptTransitive(w, s, Dropped(s, pid, k), pid);
  }

  lemma OthersKeys(w: World, s: World, pid: Pid)
    requires OthersKept(w, s, pid)
    ensures s.hw.Keys == s.procs.Keys
  {
  }

  ghost function Gone(s: World, pid: Pid): World {
    s.(procs := s.procs - {pid}, hw := s.hw - {pid}, running := s.running - {pid})
  }

  lemma GoneBooks(w: World, o: multiset<Slot>, s: World, pid: Pid)
    requires Books(w, o) && Exiting(w, o, s, pid) && s.procs[pid].maps == map[]
    ensures Books(Gone(s, pid), o)
  {
    hide SpaceOk, Holders, RefsOk;
    RefsParts(s.procs, s.frames, s.refs, o);
    forall slot
      ensures Holders(s.procs - {pid}, slot) == Holders(s.procs, slot)
    {
      GoneHolders(s.procs, pid, slot);
    }
    assert FramesExist(s.procs - {pid}, s.frames);
    RefsSameHolders(s.procs, s.procs - {pid}, s.frames, s.refs, o);
    GoneSpaces(w, o, s, pid);
  }

  lemma GoneSpaces(w: World, o: multiset<Slot>, s: World, pid: Pid)
    requires Books(w, o) && OthersKept(w, s, pid)
    ensures forall q | q in Gone(s, pid).procs :: SpaceOk(Gone(s, pid).procs[q])
    ensures Gone(s, pid).hw.Keys == Gone(s, pid).procs.Keys && Gone(s, pid).running <= Gone(s, pid).procs.Keys
  {
    hide SpaceOk, RefsOk;
  }

  lemma GoneHolders(procs: Procs, pid: Pid, slot: Slot)
    requires pid in procs && procs[pid].maps == map[]
    ensures Holders(procs - {pid}, slot) == Holders(procs, slot)
  {
  }

  lemma GoneKeeps(w: World, s: World, pid: Pid)
    requires w.hw.Keys == w.procs.Keys && OthersKept(w, s, pid)
    ensures Translated(w) ==> Translated(Gone(s, pid))
    ensures Isolated(w) ==> Isolated(Gone(s, pid))
  {
    if Translated(w) {
      GoneTranslated(w, s, pid);
    }
    if Isolated(w) {
      GoneIsolated(w, s, pid);
    }
  }

  lemma GoneTranslated(w: World, s: World, pid: Pid)
    requires w.hw.Keys == w.procs.Keys && OthersKept(w, s, pid) && Translated(w)
    ensures Translated(Gone(s, pid))
  {
    hide TableOk, ReadOnly, Backed, AgreeOn;
    forall q | q in Gone(s, pid).procs
      ensures Backed(s.frames, s.procs[q].maps)
    {
      assert AgreeOn(w.frames, s.frames, w.procs[q].maps);
      BackedAgain(w.frames, s.frames, w.procs[q].maps, w.procs[q].maps);
    }
  }

  lemma GoneIsolated(w: World, s: World, pid: Pid)
    requires w.hw.Keys == w.procs.Keys && OthersKept(w, s, pid) && Isolated(w)
    ensures Isolated(Gone(s, pid))
  {
    hide WritesOk, Guarded, AgreeOn;
  }

  /** No process but the one gone sees anything else than before. */
  ghost predicate Survive(w: World, w': World, pid: Pid) {
    && w'.procs.Keys == w.procs.Keys - {pid}
    && forall q | q in w.procs && q != pid :: q in w'.procs && SameView(w.frames, w.procs[q], w'.frames, w'.procs[q])
  }

  lemma GoneSurvive(w: World, o: multiset<Slot>, s: World, pid: Pid)
    requires Books(w, o) && OthersKept(w, s, pid) && pid in w.procs
    ensures Survive(w, Gone(s, pid), pid)
  {
    hide SpaceOk, RefsOk, AgreeOn;
    forall q | q in w.procs && q != pid
      ensures q in Gone(s, pid).procs && SameView(w.frames, w.procs[q], s.frames, s.procs[q])
    {
      SpaceMapsOk(w.procs[q]);
      SameFramesSameView(w.frames, s.frames, w.procs[q]);
    }
  }

  /** Every map is unmapped and its reference given back. */
  method ReleaseMemory(mgr: ApeManager, pid: Pid)
    requires Live(mgr.s, mgr.owed, pid)
    modifies mgr
    ensures mgr.owed == old(mgr.owed) && Exiting(old(mgr.s), old(mgr.owed), mgr.s, pid)
    ensures pid in mgr.s.procs && mgr.s.procs[pid].maps == map[] && Emptied(old(mgr.s), mgr.s, pid)
  {
    hide Live, Books, Exiting, Dropped, OthersKept, Translated, Isolated, MapsOk, RefsOk, SpaceOk, Emptied;
    ghost var w, o := mgr.s, mgr.owed;
    LiveParts(w, o, pid);
    BooksParts(w, o, pid);
    ExitingStart(w, o, pid);
    EmptyingStart(w, pid);
    while mgr.s.procs[pid].maps != map[]
      invariant pid in mgr.s.procs && mgr.owed == o && Exiting(w, o, mgr.s, pid) && Emptied(w, mgr.s, pid)
      decreases |mgr.s.procs[pid].maps|
    {
      ExitingParts(w, o, mgr.s, pid);
      var k :| k in mgr.s.procs[pid].maps;
      ExitingNext(w, o, mgr.s, pid, k);
      EmptyingNext(w, mgr.s, pid, k);
      ExitingParts(w, o, Dropped(mgr.s, pid, k), pid);
      RemoveSmaller(mgr.s.procs[pid].maps, k);
      DropMap(mgr, pid, k);
    }
  }

  /** Only the maps of the process have changed, and what is left of its translations is theirs. */
  ghost predicate Emptied(w: World, s: World, pid: Pid) {
    && pid in w.procs && pid in s.procs && pid in s.hw
    && s.procs[pid] == w.procs[pid].(maps := s.procs[pid].maps)
    && (Translated(w) && pid in w.running ==> TableOk(s.hw[pid], s.procs[pid].maps))
  }

  lemma EmptyingStart(w: World, pid: Pid)
    requires pid in w.procs && pid in w.hw
    ensures Emptied(w, w, pid)
  {
    hide TableOk, Backed, ReadOnly;
  }

  lemma EmptyingNext(w: World, s: World, pid: Pid, k: nat)
    requires Emptied(w, s, pid) && MapsOk(s.procs[pid].maps) && k in s.procs[pid].maps
    ensures Emptied(w, Dropped(s, pid, k), pid)
  {
    hide MapsOk, TableOk, Translated, Unmapped, Released, FramesAfterRelease, StandsElsewhere;
    if Translated(w) && pid in w.running {
      DropLeaves(s.hw[pid], s.procs[pid].maps, k);
      DropTable(s.hw[pid], Unmapped(s.hw[pid], k, s.procs[pid].maps[k].Pages()), s.procs[pid].maps, k);
    }
  }

  // ----- exec: the old image goes -----

  function Blank(mm: MmState): MmState { mm.(maps := map[], lazy := map[], stackSize := 0) }

  /** `do_execve` up to the loading of the new image: no page is left, the references are given
      back, and nothing else changes for any process. */
  method ReplaceImage(mgr: ApeManager, pid: Pid)
    requires Live(mgr.s, mgr.owed, pid)
    modifies mgr
    ensures mgr.owed == old(mgr.owed) && Live(mgr.s, mgr.owed, pid)
            && StepOk(old(mgr.s), old(mgr.owed), mgr.s, mgr.owed, pid)
    ensures mgr.s.procs[pid] == Blank(old(mgr.s).procs[pid])
    ensures forall a: nat :: PageAt(mgr.s.frames, mgr.s.procs[pid], a).None?
    ensures Translated(old(mgr.s)) ==> mgr.s.hw[pid] == map[]
  {
    hide Live, Books, Exiting, StepOk, Translated, RefsOk, SpaceOk, Emptied, MapsOk;
    ghost var w, o := mgr.s, mgr.owed;
    LiveParts(w, o, pid);
    ReleaseMemory(mgr, pid);
    ghost var s := mgr.s;
    mgr.s := WithSpace(mgr.s, pid, Blank(mgr.s.procs[pid]));
    BlankStep(w, o, s, pid);
    MakeLive(mgr.s, o, pid);
  }

  lemma BlankStep(w: World, o: multiset<Slot>, s: World, pid: Pid)
    requires Live(w, o, pid) && Exiting(w, o, s, pid) && Emptied(w, s, pid) && s.procs[pid].maps == map[]
    ensures var s' := WithSpace(s, pid, Blank(s.procs[pid]));
            && StepOk(w, o, s', o, pid) && Books(s', o) && pid in s'.hw && pid in s'.running
            && s'.procs[pid] == Blank(w.procs[pid])
            && (Translated(w) ==> s'.hw[pid] == map[])
  {
    hide Books, StepOk, RefsOk, SpaceOk, MapsOk, OthersKept, Translated, Isolated, TableOk, AgreeOn, Lost;
    var s' := WithSpace(s, pid, Blank(s.procs[pid]));
    LiveParts(w, o, pid);
    BlankSpaceOk(w.procs[pid]);
    OthersKeptSpace(w, s, pid, Blank(s.procs[pid]));
    RefsWithSpace(s, o, pid, Blank(s.procs[pid]));
    BooksByPid(w, o, s', o, pid);
    OthersKeptRunning(w, s', pid);
    LostPlus(o, 0);
    if Translated(w) {
      NoTranslations(s.hw[pid]);
      BlankKeeps(w, o, s', pid);
    }
    StepFrom(w, o, s', o, pid);
  }

  lemma OthersKeptRunning(w: World, s: World, pid: Pid)
    requires OthersKept(w, s, pid) && pid in w.running && pid in w.procs
    ensures pid in s.running && pid in s.hw && s.hw.Keys == s.procs.Keys && w.hw.Keys == w.procs.Keys
  {
  }

  lemma NoTranslations(pt: PageTable)
    requires TableOk(pt, map[])
    ensures pt == map[]
  {
    assert forall a | a in pt :: PteOk(pt[a], a, map[]);
  }

  lemma BlankSpaceOk(mm: MmState)
    requires SpaceOk(mm)
    ensures SpaceOk(Blank(mm))
  {
  }

  lemma BlankKeeps(w: World, o: multiset<Slot>, s: World, pid: Pid)
    requires Books(w, o) && Translated(w) && OthersKept(w, s, pid) && pid in w.procs && pid in w.running
             && w.hw.Keys == w.procs.Keys
    requires pid in s.procs && pid in s.hw && s.procs[pid].maps == map[] && s.hw[pid] == map[]
    ensures Translated(s) && (Isolated(w) ==> Isolated(s))
  {
    hide Books, OthersKept, Translated, Isolated;
    TranslatedByPid(w, s, pid);
    if Isolated(w) {
      IsolatedByPid(w, s, pid);
    }
  }

  /** `terminate_process`, memory side: every map is unmapped and its reference given back, then
      the record goes. The other processes keep their pages and every frame still there is one
      they hold, or one lost before. */
  method Terminate(mgr: ApeManager, pid: Pid)
    requires Live(mgr.s, mgr.owed, pid)
    modifies mgr
    ensures mgr.owed == old(mgr.owed) && Books(mgr.s, mgr.owed)
    ensures Translated(old(mgr.s)) ==> Translated(mgr.s)
    ensures Isolated(old(mgr.s)) ==> Isolated(mgr.s)
    ensures Survive(old(mgr.s), mgr.s, pid) && mgr.s.running == old(mgr.s).running - {pid}
  {
    hide Live, Books, Exiting, OthersKept, Translated, Isolated, Survive, MapsOk, RefsOk, SpaceOk, Emptied;
    ghost var w, o := mgr.s, mgr.owed;
    LiveParts(w, o, pid);
    BooksParts(w, o, pid);
    ReleaseMemory(mgr, pid);
    ExitingParts(w, o, mgr.s, pid);
    GoneBooks(w, o, mgr.s, pid);
    GoneKeeps(w, mgr.s, pid);
    GoneSurvive(w, o, mgr.s, pid);
    OthersKeptParts(w, mgr.s, pid);
    mgr.s := mgr.s.(procs := mgr.s.procs - {pid}, hw := mgr.s.hw - {pid}, running := mgr.s.running - {pid});
  }

  lemma RemoveSmaller(maps: Maps, k: nat)
    requires k in maps
    ensures |Remove(maps, k)| < |maps|
  {
    assert Remove(maps, k).Keys == maps.Keys - {k};
    assert |maps.Keys - {k}| == |maps.Keys| - 1;
  }

  lemma ExitingParts(w: World, o: multiset<Slot>, s: World, pid: Pid)
    requires Exiting(w, o, s, pid)
    ensures pid in w.procs && pid in s.procs && pid in s.hw && OthersKept(w, s, pid)
    ensures RefsOk(s.procs, s.frames, s.refs, o) && MapsOk(s.procs[pid].maps)
  {
  }

  /** With no reference lost, every frame is held by a process: none leaks, and since each holder
      is counted, none is freed while a process holds it. */
  lemma NoFrameLeaks(w: World)
    requires Books(w, multiset{})
    ensures forall slot | slot in w.frames :: exists p, k ::
              p in w.procs && k in w.procs[p].maps && w.procs[p].maps[k].frameCap == slot
    ensures forall slot | slot in w.frames :: Count(w.refs, slot) == |Holders(w.procs, slot)|
    ensures forall p, k | p in w.procs && k in w.procs[p].maps :: w.procs[p].maps[k].frameCap in w.frames
  {
    forall slot | slot in w.frames
      ensures exists p, k :: p in w.procs && k in w.procs[p].maps && w.procs[p].maps[k].frameCap == slot
    {
      assert Balanced(w.procs, w.refs, multiset{}, slot);
      assert |Holders(w.procs, slot)| > 0;
      var p :| p in Holders(w.procs, slot);
    }
  }

  /** The form the run theorem uses. */
  ghost predicate AllHeld(w: World) {
    forall slot | slot in w.frames :: Holders(w.procs, slot) != {} && Count(w.refs, slot) == |Holders(w.procs, slot)|
  }

  lemma BooksAllHeld(w: World)
    requires Books(w, multiset{})
    ensures AllHeld(w)
  {
    forall slot | slot in w.frames
      ensures Holders(w.procs, slot) != {} && Count(w.refs, slot) == |Holders(w.procs, slot)|
    {
      assert Balanced(w.procs, w.refs, multiset{}, slot);
    }
  }
}
