/** A store fault on a copy-on-write map: one page is copied into a fresh frame, which takes
    the shared frame's place in the table. */
module CowFault {
  import opened Types
  import opened AddressSpace
  import opened Machine
  import opened Views
  import opened World

  function CopiedMap(m: MemoryMap, slot: Slot): MemoryMap {
    m.(frameCap := slot, cow := false)
  }

  /** After the copy, before the old frame's reference is given back. */
  ghost function WithCopy(w: World, pid: Pid, k: nat, slot: Slot, data: Page): World
    requires pid in w.procs && pid in w.hw && k in w.procs[pid].maps
  {
    var m := w.procs[pid].maps[k];
    w.(procs := WithMaps(w.procs, pid, w.procs[pid].maps[k := CopiedMap(m, slot)]),
       frames := w.frames[slot := [data]],
       hw := w.hw[pid := Mapped(w.hw[pid], slot, k, m.flags, 1)])
  }

  function AfterRelease(w: World, slot: Slot): World {
    w.(refs := Released(w.refs, slot), frames := FramesAfterRelease(w.frames, w.refs, slot))
  }

  ghost predicate CanCopy(w: World, owed: multiset<Slot>, pid: Pid, k: nat, slot: Slot) {
    && Books(w, owed)
    && pid in w.procs && pid in w.running && k in w.procs[pid].maps
    && slot !in w.frames && slot != 0
  }

  lemma CopyRefs(w: World, owed: multiset<Slot>, pid: Pid, k: nat, slot: Slot, data: Page)
    requires CanCopy(w, owed, pid, k, slot)
    ensures var w1 := WithCopy(w, pid, k, slot, data);
            RefsOk(w1.procs, w1.frames, w1.refs, Plus(owed, w.procs[pid].maps[k].frameCap))
  {
    hide Books, RefsOk, FramesExist, Holds, MapsOk;
    BooksParts(w, owed, pid);
    RefsNewFrame(w.procs, w.frames, w.refs, owed, slot, [data]);
    FreshUnheld(w.procs, w.frames, pid, slot);
    RefsSwapFrame(w.procs, w.frames[slot := [data]], w.refs, owed, pid, k, slot);
  }

  lemma KeyIsVaddr(maps: Maps, k: nat)
    requires MapsOk(maps) && k in maps
    ensures maps[k].vaddr == k && k % PGSIZE == 0 && maps[k].size > 0 && maps[k].frameCap != 0
  {
  }

  /** A fresh frame in hand takes the place of the one the table held. */
  lemma RefsSwapFrame(procs: Procs, frames: Frames, refs: map<Slot, nat>, owed: multiset<Slot>, pid: Pid, k: nat,
                      slot: Slot)
    requires RefsOk(procs, frames, refs, Plus(owed, slot))
    requires pid in procs && k in procs[pid].maps && MapsOk(procs[pid].maps)
    requires !Holds(procs[pid].maps, slot)
    ensures RefsOk(WithMaps(procs, pid, procs[pid].maps[k := CopiedMap(procs[pid].maps[k], slot)]), frames, refs,
                   Plus(owed, procs[pid].maps[k].frameCap))
  {
    hide RefsOk, MapsOk, Holds, Plus, Minus, InHand;
    var maps := procs[pid].maps;
    var m := CopiedMap(maps[k], slot);
    var cap := maps[k].frameCap;
    KeyIsVaddr(maps, k);
    UpdateAfterRemove(maps, k, m);
    WithMapsTwice(procs, pid, Remove(maps, k), maps[k := m]);
    RefsDropMap(procs, frames, refs, Plus(owed, slot), pid, k);
    HoldsAfterDrop(maps, k, slot);
    var procs1 := WithMaps(procs, pid, Remove(maps, k));
    PlusCommutes(owed, slot, cap);
    PlusMinus(Plus(owed, cap), slot);
    RefsAddMap(procs1, frames, refs, Plus(Plus(owed, cap), slot), pid, m);
  }

  lemma ReleaseKeepsHeld(procs: Procs, frames: Frames, refs: map<Slot, nat>, slot: Slot)
    requires FramesExist(procs, FramesAfterRelease(frames, refs, slot))
    ensures FramesKept(procs, frames, FramesAfterRelease(frames, refs, slot))
  {
  }

  lemma CopyOthers(w: World, owed: multiset<Slot>, pid: Pid, k: nat, slot: Slot, data: Page)
    requires CanCopy(w, owed, pid, k, slot)
    ensures OthersKept(w, WithCopy(w, pid, k, slot, data), pid)
  {
    BooksParts(w, owed, pid);
    FreshFramesKept(w.procs, w.frames, slot, [data]);
    var m := w.procs[pid].maps[k];
    OthersFrom(w, pid, w.procs[pid].(maps := w.procs[pid].maps[k := CopiedMap(m, slot)]),
               Mapped(w.hw[pid], slot, k, m.flags, 1), w.frames[slot := [data]], w.refs);
  }

  lemma ReleaseOthers(w: World, w1: World, pid: Pid, slot: Slot)
    requires OthersKept(w, w1, pid)
    requires FramesExist(w1.procs, AfterRelease(w1, slot).frames)
    ensures OthersKept(w, AfterRelease(w1, slot), pid)
  {
    ReleaseKeepsHeld(w1.procs, w1.frames, w1.refs, slot);
    forall q | q in w.procs && q != pid
      ensures AgreeOn(w.frames, AfterRelease(w1, slot).frames, w.procs[q].maps)
    {
      assert AgreeOn(w.frames, w1.frames, w.procs[q].maps);
      assert AgreeOn(w1.frames, AfterRelease(w1, slot).frames, w1.procs[q].maps);
    }
  }

  lemma CopySpace(w: World, owed: multiset<Slot>, pid: Pid, k: nat, slot: Slot, data: Page)
    requires CanCopy(w, owed, pid, k, slot)
    ensures SpaceOk(WithCopy(w, pid, k, slot, data).procs[pid])
    ensures FrameUnheld(w.procs[pid].maps, slot)
  {
    FreshUnheld(w.procs, w.frames, pid, slot);
    SpaceReplaceMap(w.procs[pid], k, CopiedMap(w.procs[pid].maps[k], slot));
  }

  /** Translation survives the copy of a one-page map. */
  lemma CopyTable(pt: PageTable, maps: Maps, k: nat, slot: Slot)
    requires TableOk(pt, maps) && MapsOk(maps) && k in maps && maps[k].size == PGSIZE
    ensures TableOk(Mapped(pt, slot, k, maps[k].flags, 1), maps[k := CopiedMap(maps[k], slot)])
  {
    var maps' := maps[k := CopiedMap(maps[k], slot)];
    var pt' := Mapped(pt, slot, k, maps[k].flags, 1);
    forall a | a in pt'
      ensures PteOk(pt'[a], a, maps')
    {
      if a in PageSet(k, 1) {
        assert IsPageOf(a, k, 1);
      } else {
        CopyKeepsPte(pt[a], a, maps, k, slot);
      }
    }
  }

  lemma CopyKeepsPte(pte: Pte, a: nat, maps: Maps, k: nat, slot: Slot)
    requires PteOk(pte, a, maps) && MapsOk(maps) && k in maps && maps[k].size == PGSIZE
    requires a !in PageSet(k, 1)
    ensures PteOk(pte, a, maps[k := CopiedMap(maps[k], slot)])
  {
    assert k in PageSet(k, 1) by {
      assert IsPageOf(k, k, 1);
    }
  }

  lemma CopyWrites(pt: PageTable, maps: Maps, k: nat, slot: Slot)
    requires WritesOk(pt, maps) && k in maps
    ensures WritesOk(Mapped(pt, slot, k, maps[k].flags, 1), maps[k := CopiedMap(maps[k], slot)])
  {
    var pt' := Mapped(pt, slot, k, maps[k].flags, 1);
    var maps' := maps[k := CopiedMap(maps[k], slot)];
    forall a | a in pt' && pt'[a].perms.w
      ensures pt'[a].idx * PGSIZE <= a
      ensures var b := a - pt'[a].idx * PGSIZE; b in maps' && maps'[b].flags.w && !maps'[b].cow
    {
      if a in PageSet(k, 1) {
        assert IsPageOf(a, k, 1);
      } else {
        assert a in pt && pt[a].perms.w;
      }
    }
  }

  lemma CopyGuarded(maps: Maps, others: Maps, k: nat, slot: Slot)
    requires k in maps && FrameUnheld(others, slot)
    ensures Guarded(maps, others) ==> Guarded(maps[k := CopiedMap(maps[k], slot)], others)
    ensures Guarded(others, maps) ==> Guarded(others, maps[k := CopiedMap(maps[k], slot)])
  {
  }

  lemma CopyIsolated(w: World, owed: multiset<Slot>, pid: Pid, k: nat, slot: Slot, w': World)
    requires CanCopy(w, owed, pid, k, slot) && OthersKept(w, w', pid)
    requires w'.procs[pid].maps == w.procs[pid].maps[k := CopiedMap(w.procs[pid].maps[k], slot)]
    requires w'.hw[pid] == Mapped(w.hw[pid], slot, k, w.procs[pid].maps[k].flags, 1)
    ensures Isolated(w) ==> Isolated(w')
  {
    if Isolated(w) {
      CopyWrites(w.hw[pid], w.procs[pid].maps, k, slot);
      forall q | q in w.procs && q != pid
        ensures Guarded(w'.procs[pid].maps, w.procs[q].maps) && Guarded(w.procs[q].maps, w'.procs[pid].maps)
      {
        FreshUnheld(w.procs, w.frames, q, slot);
        assert Guarded(w.procs[pid].maps, w.procs[q].maps) && Guarded(w.procs[q].maps, w.procs[pid].maps);
        CopyGuarded(w.procs[pid].maps, w.procs[q].maps, k, slot);
      }
      IsolatedByPid(w, w', pid);
    }
  }

  lemma CopyBacked(frames: Frames, frames': Frames, maps: Maps, k: nat, slot: Slot)
    requires Backed(frames, maps) && k in maps && maps[k].size == PGSIZE
    requires AgreeOn(frames, frames', Remove(maps, k))
    requires slot in frames' && |frames'[slot]| == 1
    ensures Backed(frames', maps[k := CopiedMap(maps[k], slot)])
  {
    forall j | j in maps && j != k
      ensures maps[j].frameCap in frames' && |frames'[maps[j].frameCap]| * PGSIZE == maps[j].size
    {
      assert j in Remove(maps, k);
    }
  }

  lemma CopyTranslated(w: World, owed: multiset<Slot>, pid: Pid, k: nat, slot: Slot, w': World)
    requires CanCopy(w, owed, pid, k, slot) && OthersKept(w, w', pid)
    requires w.procs[pid].maps[k].size == PGSIZE
    requires w'.procs[pid].maps == w.procs[pid].maps[k := CopiedMap(w.procs[pid].maps[k], slot)]
    requires w'.hw[pid] == Mapped(w.hw[pid], slot, k, w.procs[pid].maps[k].flags, 1)
    requires AgreeOn(w.frames, w'.frames, Remove(w.procs[pid].maps, k))
    requires slot in w'.frames && |w'.frames[slot]| == 1
    ensures Translated(w) ==> Translated(w')
  {
    if Translated(w) {
      BooksParts(w, owed, pid);
      CopyBacked(w.frames, w'.frames, w.procs[pid].maps, k, slot);
      CopyTable(w.hw[pid], w.procs[pid].maps, k, slot);
      hide Books, MapsOk, OthersKept, Backed, TableOk, Mapped;
      TranslatedByPid(w, w', pid);
    }
  }

  /** The copy shows the process the same pages exactly when the map is one page long: only
      the first page of a longer map is copied, and the table then points past the end of a
      one-page frame. */
  lemma CowFaultViewIff(w: World, owed: multiset<Slot>, pid: Pid, k: nat, slot: Slot, w': World)
    requires CanCopy(w, owed, pid, k, slot)
    requires Backed(w.frames, w.procs[pid].maps)
    requires pid in w'.procs
    requires w'.procs[pid] ==
             w.procs[pid].(maps := w.procs[pid].maps[k := CopiedMap(w.procs[pid].maps[k], slot)])
    requires AgreeOn(w.frames, w'.frames, Remove(w.procs[pid].maps, k))
    requires slot in w'.frames && w'.frames[slot] == [w.frames[w.procs[pid].maps[k].frameCap][0]]
    ensures SameView(w.frames, w.procs[pid], w'.frames, w'.procs[pid]) <==> w.procs[pid].maps[k].size == PGSIZE
  {
    BooksParts(w, owed, pid);
    FreshUnheld(w.procs, w.frames, pid, slot);
    hide Books, MapsOk, SameView;
    if w.procs[pid].maps[k].size == PGSIZE {
      SamePagesCopied(w, pid, k, slot, w');
    } else {
      LostSecondPage(w, pid, k, slot, w');
    }
  }

  lemma SamePagesCopied(w: World, pid: Pid, k: nat, slot: Slot, w': World)
    requires pid in w.procs && k in w.procs[pid].maps && MapsOk(w.procs[pid].maps)
    requires FrameUnheld(w.procs[pid].maps, slot) && slot != 0
    requires Backed(w.frames, w.procs[pid].maps) && w.procs[pid].maps[k].size == PGSIZE
    requires pid in w'.procs
    requires w'.procs[pid] ==
             w.procs[pid].(maps := w.procs[pid].maps[k := CopiedMap(w.procs[pid].maps[k], slot)])
    requires AgreeOn(w.frames, w'.frames, Remove(w.procs[pid].maps, k))
    requires slot in w'.frames && w'.frames[slot] == [w.frames[w.procs[pid].maps[k].frameCap][0]]
    ensures SameView(w.frames, w.procs[pid], w'.frames, w'.procs[pid])
  {
    hide MapsOk, PageAt, AgreeOn, Backed, FrameUnheld;
    forall a: nat | a % PGSIZE == 0
      ensures PageAt(w'.frames, w'.procs[pid], a) == PageAt(w.frames, w.procs[pid], a)
    {
      SamePageCopied(w, pid, k, slot, w', a);
    }
  }

  lemma SamePageCopied(w: World, pid: Pid, k: nat, slot: Slot, w': World, a: nat)
    requires pid in w.procs && k in w.procs[pid].maps && MapsOk(w.procs[pid].maps)
    requires FrameUnheld(w.procs[pid].maps, slot) && slot != 0
    requires Backed(w.frames, w.procs[pid].maps) && w.procs[pid].maps[k].size == PGSIZE
    requires pid in w'.procs
    requires w'.procs[pid] ==
             w.procs[pid].(maps := w.procs[pid].maps[k := CopiedMap(w.procs[pid].maps[k], slot)])
    requires AgreeOn(w.frames, w'.frames, Remove(w.procs[pid].maps, k))
    requires slot in w'.frames && w'.frames[slot] == [w.frames[w.procs[pid].maps[k].frameCap][0]]
    ensures PageAt(w'.frames, w'.procs[pid], a) == PageAt(w.frames, w.procs[pid], a)
  {
    CopiedPageAt(w, pid, k, slot, w', a);
    OldPageAt(w.frames, w.procs[pid], k, a);
  }

  lemma OldPageAt(frames: Frames, mm: MmState, k: nat, a: nat)
    requires MapsOk(mm.maps) && k in mm.maps
    ensures mm.maps[k].Covers(a) ==> PageAt(frames, mm, a) == Some(PageOf(frames, mm.maps[k], a))
  {
    LookupExact(mm.maps, a);
  }

  lemma SecondPage(maps: Maps, k: nat)
    requires MapsOk(maps) && k in maps && maps[k].size != PGSIZE
    ensures maps[k].vaddr == k && k % PGSIZE == 0 && maps[k].Covers(k + PGSIZE) && (k + PGSIZE) % PGSIZE == 0
    ensures (k + PGSIZE - k) / PGSIZE == 1 && maps[k].size >= 2 * PGSIZE
  {
  }

  lemma LookupAtMost(frames: Frames, mm: MmState, frames': Frames, mm': MmState, a: nat)
    requires SameView(frames, mm, frames', mm') && a % PGSIZE == 0
    ensures PageAt(frames', mm', a) == PageAt(frames, mm, a)
  {
  }

  lemma LostSecondPage(w: World, pid: Pid, k: nat, slot: Slot, w': World)
    requires pid in w.procs && k in w.procs[pid].maps && MapsOk(w.procs[pid].maps)
    requires FrameUnheld(w.procs[pid].maps, slot) && slot != 0
    requires Backed(w.frames, w.procs[pid].maps) && w.procs[pid].maps[k].size != PGSIZE
    requires pid in w'.procs
    requires w'.procs[pid] ==
             w.procs[pid].(maps := w.procs[pid].maps[k := CopiedMap(w.procs[pid].maps[k], slot)])
    requires AgreeOn(w.frames, w'.frames, Remove(w.procs[pid].maps, k))
    requires slot in w'.frames && |w'.frames[slot]| == 1
    ensures !SameView(w.frames, w.procs[pid], w'.frames, w'.procs[pid])
  {
    hide MapsOk, Lookup, AgreeOn, FrameUnheld, PageAt;
    var m := w.procs[pid].maps[k];
    var a := k + PGSIZE;
    SecondPage(w.procs[pid].maps, k);
    CopiedPageAt(w, pid, k, slot, w', a);
    OldPageAt(w.frames, w.procs[pid], k, a);
    if SameView(w.frames, w.procs[pid], w'.frames, w'.procs[pid]) {
      LookupAtMost(w.frames, w.procs[pid], w'.frames, w'.procs[pid], a);
    }
  }

  lemma UnheldAfter(maps: Maps, k: nat, slot: Slot)
    requires FrameUnheld(maps, slot)
    ensures FrameUnheld(Remove(maps, k), slot)
  {
  }

  lemma OtherPageSame(frames: Frames, frames': Frames, maps: Maps, k: nat, j: nat, a: nat)
    requires AgreeOn(frames, frames', Remove(maps, k)) && j in maps && j != k && maps[j].Covers(a)
    ensures PageOf(frames', maps[j], a) == PageOf(frames, maps[j], a)
  {
    assert j in Remove(maps, k) && Remove(maps, k)[j] == maps[j];
  }

  lemma CopiedPageAt(w: World, pid: Pid, k: nat, slot: Slot, w': World, a: nat)
    requires pid in w.procs && k in w.procs[pid].maps && MapsOk(w.procs[pid].maps)
    requires FrameUnheld(w.procs[pid].maps, slot) && slot != 0
    requires pid in w'.procs
    requires w'.procs[pid] ==
             w.procs[pid].(maps := w.procs[pid].maps[k := CopiedMap(w.procs[pid].maps[k], slot)])
    requires AgreeOn(w.frames, w'.frames, Remove(w.procs[pid].maps, k))
    ensures var m' := CopiedMap(w.procs[pid].maps[k], slot);
            PageAt(w'.frames, w'.procs[pid], a) ==
              if m'.Covers(a) then Some(PageOf(w'.frames, m', a)) else PageAt(w.frames, w.procs[pid], a)
  {
    hide MapsOk, Lookup, PageOf;
    var maps := w.procs[pid].maps;
    var m' := CopiedMap(maps[k], slot);
    KeyIsVaddr(maps, k);
    UnheldAfter(maps, k, slot);
    ReplaceMapOk(maps, k, m');
    LookupExact(maps, a);
    if !m'.Covers(a) && Lookup(maps, a).Some? {
      OtherPageSame(w.frames, w'.frames, maps, k, Lookup(maps, a).value.vaddr, a);
    }
  }

  // ----- The whole fault -----

  ghost function Resolved(w: World, pid: Pid, k: nat, slot: Slot): World
    requires pid in w.procs && pid in w.hw && k in w.procs[pid].maps
    requires w.procs[pid].maps[k].frameCap in w.frames && |w.frames[w.procs[pid].maps[k].frameCap]| > 0
  {
    var cap := w.procs[pid].maps[k].frameCap;
    AfterRelease(WithCopy(w, pid, k, slot, w.frames[cap][0]), cap)
  }

  ghost predicate CanResolve(w: World, owed: multiset<Slot>, pid: Pid, k: nat, slot: Slot) {
    && CanCopy(w, owed, pid, k, slot)
    && w.procs[pid].maps[k].frameCap in w.frames && |w.frames[w.procs[pid].maps[k].frameCap]| > 0
  }

  lemma ResolvedRefs(w: World, owed: multiset<Slot>, pid: Pid, k: nat, slot: Slot)
    requires CanResolve(w, owed, pid, k, slot) && pid in w.hw
    ensures RefsOk(Resolved(w, pid, k, slot).procs, Resolved(w, pid, k, slot).frames,
                   Resolved(w, pid, k, slot).refs, owed)
  {
    var cap := w.procs[pid].maps[k].frameCap;
    var w1 := WithCopy(w, pid, k, slot, w.frames[cap][0]);
    hide RefsOk, CanCopy;
    CopyRefs(w, owed, pid, k, slot, w.frames[cap][0]);
    PlusMinus(owed, cap);
    RefsRelease(w1.procs, w1.frames, w1.refs, Plus(owed, cap), cap);
  }

  lemma ResolvedFrames(w: World, owed: multiset<Slot>, pid: Pid, k: nat, slot: Slot)
    requires CanResolve(w, owed, pid, k, slot) && pid in w.hw
    requires FramesExist(Resolved(w, pid, k, slot).procs, Resolved(w, pid, k, slot).frames)
    ensures var w' := Resolved(w, pid, k, slot);
            && AgreeOn(w.frames, w'.frames, Remove(w.procs[pid].maps, k))
            && slot in w'.frames && w'.frames[slot] == [w.frames[w.procs[pid].maps[k].frameCap][0]]
  {
    BooksParts(w, owed, pid);
    var w' := Resolved(w, pid, k, slot);
    HeldExist(w'.procs, w'.frames, pid);
    HeldExist(w.procs, w.frames, pid);
    hide Books, FramesExist, MapsOk, CanCopy, Mapped;
    KeptFrames(w.procs[pid].maps, w.frames, w.refs, k, slot, w.frames[w.procs[pid].maps[k].frameCap][0]);
  }

  lemma HeldExist(procs: Procs, frames: Frames, pid: Pid)
    requires FramesExist(procs, frames) && pid in procs
    ensures forall j | j in procs[pid].maps :: procs[pid].maps[j].frameCap in frames
  {
  }

  lemma KeptFrames(maps: Maps, frames: Frames, refs: map<Slot, nat>, k: nat, slot: Slot, data: Page)
    requires k in maps && slot !in frames
    requires forall j | j in maps :: maps[j].frameCap in frames
    requires var frames' := FramesAfterRelease(frames[slot := [data]], refs, maps[k].frameCap);
             var maps' := maps[k := CopiedMap(maps[k], slot)];
             forall j | j in maps' :: maps'[j].frameCap in frames'
    ensures var frames' := FramesAfterRelease(frames[slot := [data]], refs, maps[k].frameCap);
            AgreeOn(frames, frames', Remove(maps, k)) && slot in frames' && frames'[slot] == [data]
  {
    var frames' := FramesAfterRelease(frames[slot := [data]], refs, maps[k].frameCap);
    var maps' := maps[k := CopiedMap(maps[k], slot)];
    assert maps'[k].frameCap == slot;
    forall j | j in Remove(maps, k)
      ensures maps[j].frameCap in frames'
    {
      assert maps'[j] == maps[j];
    }
  }

  /** What a resolved store fault keeps: the books of every process always, and for a
      one-page map translation, isolation and every page of the process's view. */
  lemma CowFaultStep(w: World, owed: multiset<Slot>, pid: Pid, k: nat, slot: Slot)
    requires CanResolve(w, owed, pid, k, slot) && pid in w.hw
    ensures var w' := Resolved(w, pid, k, slot);
            && OthersKept(w, w', pid) && Books(w', owed)
            && (w.procs[pid].maps[k].size == PGSIZE ==> StepOk(w, owed, w', owed, pid))
            && (Backed(w.frames, w.procs[pid].maps) ==>
                  (SameView(w.frames, w.procs[pid], w'.frames, w'.procs[pid])
                   <==> w.procs[pid].maps[k].size == PGSIZE))
  {
    var cap := w.procs[pid].maps[k].frameCap;
    var w1 := WithCopy(w, pid, k, slot, w.frames[cap][0]);
    var w' := Resolved(w, pid, k, slot);
    assert Lost(owed, owed);
    ResolvedRefs(w, owed, pid, k, slot);
    assert FramesExist(w'.procs, w'.frames);
    hide RefsOk, Books, SpaceOk, OthersKept, Translated, Isolated, SameView, AgreeOn, Backed, FramesExist, Mapped, Lost;
    BooksParts(w, owed, pid);
    CopyOthers(w, owed, pid, k, slot, w.frames[cap][0]);
    ReleaseOthers(w, w1, pid, cap);
    CopySpace(w, owed, pid, k, slot, w.frames[cap][0]);
    BooksByPid(w, owed, w', owed, pid);
    ResolvedFrames(w, owed, pid, k, slot);
    if w.procs[pid].maps[k].size == PGSIZE {
      CopyTranslated(w, owed, pid, k, slot, w');
      CopyIsolated(w, owed, pid, k, slot, w');
      StepFrom(w, owed, w', owed, pid);
    }
    if Backed(w.frames, w.procs[pid].maps) {
      CowFaultViewIff(w, owed, pid, k, slot, w');
    }
  }
}
