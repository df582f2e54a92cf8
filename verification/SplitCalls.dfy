/** Splitting a large mapping into base pages, with its rollback. */
module SplitCalls {
  import opened Types
  import opened AddressSpace
  import opened Machine
  import opened Views
  import opened World
  import opened CowFault
  import opened Remaps
  import opened Ranges
  import opened Splitting
  import opened Manager
  import opened Reflag
  import opened ExposedPages

  /** Tables and translations as they were; the frames they use too. */
  ghost predicate SameTables(w: World, s: World) {
    && s.procs == w.procs && s.hw == w.hw && s.running == w.running
    && FramesKept(w.procs, w.frames, s.frames)
  }

  lemma SameTablesReflexive(w: World)
    requires FramesExist(w.procs, w.frames)
    ensures SameTables(w, w)
  {
  }

  lemma SameTablesReleased(w: World, s: World, slot: Slot)
    requires SameTables(w, s) && FramesExist(s.procs, AfterRelease(s, slot).frames)
    ensures SameTables(w, AfterRelease(s, slot))
  {
    ReleaseKeepsHeld(s.procs, s.frames, s.refs, slot);
    forall p | p in w.procs
      ensures AgreeOn(w.frames, AfterRelease(s, slot).frames, w.procs[p].maps)
    {
      assert AgreeOn(w.frames, s.frames, w.procs[p].maps);
      assert AgreeOn(s.frames, AfterRelease(s, slot).frames, s.procs[p].maps);
    }
  }

  lemma QuietReleased(w: World, s: World, pid: Pid, slot: Slot)
    requires Quiet(w, s, pid) && FramesExist(s.procs, AfterRelease(s, slot).frames)
    ensures Quiet(w, AfterRelease(s, slot), pid)
  {
    hide AgreeOn, Released, FramesAfterRelease, SubTable;
    ReleaseKeepsHeld(s.procs, s.frames, s.refs, slot);
    FramesKeptTransitive(w.procs, w.frames, s.frames, AfterRelease(s, slot).frames);
  }

  /** Releases a new frame that reached no table, after a failure. */
  method GiveBack(mgr: ApeManager, pid: Pid, slot: Slot, ghost w: World, ghost o: multiset<Slot>)
    requires mgr.Counted() && mgr.owed == Plus(o, slot) && Quiet(w, mgr.s, pid)
    modifies mgr
    ensures mgr.Counted() && mgr.owed == o && Quiet(w, mgr.s, pid)
  {
    hide RefsOk, Quiet, Plus, Minus, InHand, FramesExist, Released, FramesAfterRelease;
    ghost var s1 := mgr.s;
    PlusMinus(o, slot);
    mgr.ReleaseFrameSlot(slot);
    CountedFrames(mgr.s, mgr.owed);
    QuietReleased(w, s1, pid, slot);
  }

  /** `release_temp_frame_slots`: gives back frames that never reached a table. */
  method ReleaseTemp(mgr: ApeManager, slots: seq<Slot>, ghost w: World, ghost o: multiset<Slot>)
    requires mgr.Counted() && mgr.owed == PlusAll(o, slots) && SameTables(w, mgr.s)
    modifies mgr
    ensures mgr.Counted() && mgr.owed == o && SameTables(w, mgr.s)
  {
    hide RefsOk, SameTables, PlusAll, InHand, Plus, Minus, FramesExist, Released, FramesAfterRelease;
    assert slots[0..] == slots;
    for i := 0 to |slots|
      invariant mgr.Counted() && mgr.owed == PlusAll(o, slots[i..]) && SameTables(w, mgr.s)
    {
      ghost var s1 := mgr.s;
      assert slots[i..] == [slots[i]] + slots[i + 1..];
      PlusAllOne(o, slots[i + 1..], slots[i]);
      PlusMinus(PlusAll(o, slots[i + 1..]), slots[i]);
      mgr.ReleaseFrameSlot(slots[i]);
      CountedFrames(mgr.s, mgr.owed);
      SameTablesReleased(w, s1, slots[i]);
    }
    assert slots[|slots|..] == [];
    PlusAllOne(o, [], 0);
  }

  /** The copies made so far: fresh frames only, all of them in hand. */
  ghost predicate Copying(w: World, o: multiset<Slot>, s: World, owed: multiset<Slot>, src: Slot, slots: seq<Slot>) {
    && s == w.(frames := s.frames)
    && owed == PlusAll(o, slots)
    && Copies(w.frames, s.frames, src, slots)
    && (forall t | t in w.frames :: t in s.frames && s.frames[t] == w.frames[t])
  }

  lemma CopyingStart(w: World, o: multiset<Slot>, src: Slot)
    requires src in w.frames
    ensures Copying(w, o, w, o, src, [])
  {
    PlusAllOne(o, [], 0);
  }

  lemma CopyingKept(w: World, o: multiset<Slot>, s: World, owed: multiset<Slot>, src: Slot, slots: seq<Slot>)
    requires Copying(w, o, s, owed, src, slots) && FramesExist(w.procs, w.frames)
    ensures SameTables(w, s) && src in s.frames && s.frames[src] == w.frames[src]
    ensures forall t: Slot :: t !in s.frames ==> SameTables(w, s.(frames := s.frames[t := [ZeroPage()]]))
  {
  }

  lemma CopyingNext(w: World, o: multiset<Slot>, s: World, owed: multiset<Slot>, src: Slot, slots: seq<Slot>,
                    slot: Slot)
    requires Copying(w, o, s, owed, src, slots) && |slots| < |w.frames[src]|
    requires slot !in s.frames && slot != 0
    ensures Copying(w, o, s.(frames := s.frames[slot := [w.frames[src][|slots|]]]), Plus(owed, slot), src,
                    slots + [slot])
  {
    PlusAllOne(o, slots, slot);
    var slots' := slots + [slot];
    assert forall i | 0 <= i < |slots| :: slots'[i] == slots[i];
    assert forall i | 0 <= i < |slots| :: slots[i] in s.frames;
  }

  /** A fresh copy of each page of `src`. A failure gives every copy back. */
  method CopyPieces(mgr: ApeManager, src: Slot, pages: nat) returns (r: Result<seq<Slot>>)
    requires mgr.Counted() && src in mgr.s.frames && pages <= |mgr.s.frames[src]|
    modifies mgr
    ensures mgr.Counted() && SameTables(old(mgr.s), mgr.s)
    ensures r.Err? ==> mgr.owed == old(mgr.owed)
    ensures r.Ok? ==> |r.value| == pages && Copying(old(mgr.s), old(mgr.owed), mgr.s, mgr.owed, src, r.value)
  {
    hide RefsOk, SameTables, PlusAll, Plus, FramesExist, Copying, Copies;
    ghost var w, o := mgr.s, mgr.owed;
    CountedFrames(w, o);
    CopyingStart(w, o, src);
    CopyingKept(w, o, w, o, src, []);
    var slots: seq<Slot> := [];
    while |slots| < pages
      invariant |slots| <= pages && mgr.Counted()
      invariant Copying(w, o, mgr.s, mgr.owed, src, slots)
      invariant SameTables(w, mgr.s)
    {
      var slot := CopyPiece(mgr, src, slots, w, o);
      if slot.Err? {
        return Err(slot.error);
      }
      slots := slots + [slot.value];
      CopyingKept(w, o, mgr.s, mgr.owed, src, slots);
    }
    r := Ok(slots);
  }

  /** The copy of page `|slots|`; on failure this frame and the earlier ones are released. */
  method CopyPiece(mgr: ApeManager, src: Slot, slots: seq<Slot>, ghost w: World, ghost o: multiset<Slot>)
    returns (r: Result<Slot>)
    requires mgr.Counted() && FramesExist(w.procs, w.frames)
    requires Copying(w, o, mgr.s, mgr.owed, src, slots) && src in w.frames && |slots| < |w.frames[src]|
    modifies mgr
    ensures mgr.Counted()
    ensures r.Err? ==> mgr.owed == o && SameTables(w, mgr.s)
    ensures r.Ok? ==> Copying(w, o, mgr.s, mgr.owed, src, slots + [r.value])
  {
    hide RefsOk, SameTables, PlusAll, Plus, Minus, FramesExist, Copying, Copies, Released, FramesAfterRelease, InHand;
    ghost var s1, o1 := mgr.s, mgr.owed;
    CopyingKept(w, o, s1, o1, src, slots);
    CopyingOwed(w, o, s1, o1, src, slots);
    r := mgr.AllocFrame();
    if r.Err? {
      ReleaseTemp(mgr, slots, w, o);
      return;
    }
    var slot := r.value;
    CopyingNext(w, o, s1, o1, src, slots, slot);
    var copied := mgr.CopyInto(src, |slots|, slot);
    if copied.Err? {
      ghost var s2 := mgr.s;
      PlusMinus(o1, slot);
      mgr.ReleaseFrameSlot(slot);
      CountedFrames(mgr.s, mgr.owed);
      SameTablesReleased(w, s2, slot);
      ReleaseTemp(mgr, slots, w, o);
      r := Err(copied.error);
    } else {
      UpdateTwice(s1.frames, slot, [ZeroPage()], [w.frames[src][|slots|]]);
    }
  }

  lemma CopyingOwed(w: World, o: multiset<Slot>, s: World, owed: multiset<Slot>, src: Slot, slots: seq<Slot>)
    requires Copying(w, o, s, owed, src, slots)
    ensures owed == PlusAll(o, slots)
  {
  }

  // ----- The new translations -----

  /** Inside the range of `m` only `[lo, hi)` is mapped; outside it nothing changed. */
  ghost predicate OnlyInside(pt: PageTable, cur: PageTable, m: MemoryMap, lo: nat, hi: nat) {
    forall a | a in cur ::
      || (m.vaddr <= lo <= a < hi <= m.vaddr + m.Pages() * PGSIZE && a % PGSIZE == 0)
      || (a in pt && cur[a] == pt[a] && a !in PageSet(m.vaddr, m.Pages()))
  }

  lemma MappedEachNext(pt: PageTable, m: MemoryMap, slots: seq<Slot>, slot: Slot)
    ensures MappedEach(pt, m, []) == pt
    ensures MappedEach(pt, m, slots + [slot]) ==
              Mapped(MappedEach(pt, m, slots), slot, m.vaddr + |slots| * PGSIZE, m.flags, 1)
  {
    hide PageSet;
    PageSetNext(m.vaddr, |slots|);
    OnePageSet(m.vaddr + |slots| * PGSIZE);
    assert MappedEach(pt, m, []) == pt;
    var pt1 := MappedEach(pt, m, slots + [slot]);
    var pt2 := Mapped(MappedEach(pt, m, slots), slot, m.vaddr + |slots| * PGSIZE, m.flags, 1);
    assert pt1.Keys == pt2.Keys;
    forall a | a in pt1
      ensures pt1[a] == pt2[a]
    {
      if a in PageSet(m.vaddr, |slots|) {
        assert IdxOf(a, m.vaddr, |slots| + 1) == IdxOf(a, m.vaddr, |slots|);
      }
    }
  }

  /** Mapping every page over an unmapped range is mapping it over the old one. */
  lemma MappedEachAll(pt: PageTable, m: MemoryMap, slots: seq<Slot>)
    requires |slots| == m.Pages()
    ensures MappedEach(Unmapped(pt, m.vaddr, m.Pages()), m, slots) == MappedEach(pt, m, slots)
  {
  }

  lemma PartlyMapped(pt: PageTable, m: MemoryMap, slots: seq<Slot>)
    requires |slots| < m.Pages() && m.vaddr % PGSIZE == 0
    ensures var cur := MappedEach(Unmapped(pt, m.vaddr, m.Pages()), m, slots);
            var hi := m.vaddr + |slots| * PGSIZE;
            OnlyInside(pt, cur, m, m.vaddr, hi) && OnlyInside(pt, Unmapped(cur, hi, 1), m, m.vaddr, hi)
  {
    var cur := MappedEach(Unmapped(pt, m.vaddr, m.Pages()), m, slots);
    var hi := m.vaddr + |slots| * PGSIZE;
    assert hi <= m.vaddr + m.Pages() * PGSIZE;
    forall a | a in cur
      ensures (m.vaddr <= a < hi && a % PGSIZE == 0)
              || (a in pt && cur[a] == pt[a] && a !in PageSet(m.vaddr, m.Pages()))
    {
      if a in PageSet(m.vaddr, |slots|) {
        assert a == m.vaddr + IdxOf(a, m.vaddr, |slots|) * PGSIZE;
      }
    }
  }

  lemma OneUnmapped(pt: PageTable, cur: PageTable, m: MemoryMap, lo: nat, hi: nat)
    requires OnlyInside(pt, cur, m, lo, hi) && lo < hi && lo % PGSIZE == 0
    ensures OnlyInside(pt, Unmapped(cur, lo, 1), m, lo + PGSIZE, hi)
  {
    hide PageSet;
    OnePageSet(lo);
    forall a | a in cur && a != lo
      ensures lo <= a < hi && a % PGSIZE == 0 ==> lo + PGSIZE <= a
    {
      NextPage(lo, a);
    }
  }

  lemma NextPage(lo: nat, a: nat)
    requires lo % PGSIZE == 0 && a != lo
    ensures lo <= a && a % PGSIZE == 0 ==> lo + PGSIZE <= a
  {
  }

  lemma RemapAfterRollback(pt: PageTable, cur: PageTable, m: MemoryMap, hi: nat)
    requires OnlyInside(pt, cur, m, hi, hi)
    ensures SubTable(cur, Mapped(pt, m.frameCap, m.vaddr, m.flags, m.Pages()))
    ensures SubTable(Unmapped(cur, m.vaddr, m.Pages()), Mapped(pt, m.frameCap, m.vaddr, m.flags, m.Pages()))
    ensures SubTable(Mapped(cur, m.frameCap, m.vaddr, m.flags, m.Pages()),
                     Mapped(pt, m.frameCap, m.vaddr, m.flags, m.Pages()))
  {
  }

  /** Maps the copies over the old range. On failure the ones mapped are unmapped and the old
      frame is mapped again with the map's own permissions. */
  method MapPieces(mgr: ApeManager, pid: Pid, m: MemoryMap, slots: seq<Slot>) returns (r: Result<()>)
    requires pid in mgr.s.hw && |slots| == m.Pages() && m.vaddr % PGSIZE == 0
    modifies mgr`s
    ensures pid in mgr.s.hw
    ensures mgr.s == old(mgr.s).(hw := old(mgr.s).hw[pid := mgr.s.hw[pid]])
    ensures r.Ok? ==> mgr.s.hw[pid] == MappedEach(old(mgr.s).hw[pid], m, slots)
    ensures r.Err? ==>
              SubTable(mgr.s.hw[pid], Mapped(old(mgr.s).hw[pid], m.frameCap, m.vaddr, m.flags, m.Pages()))
  {
    hide Mapped, Unmapped, MappedEach, OnlyInside, SubTable, MemoryMap.Pages, ApeManager.Counted, PageSet, AlignUp;
    ghost var w := mgr.s;
    ghost var pt := mgr.s.hw[pid];
    mgr.UnmapProcessPages(pid, m.vaddr, m.Pages());
    ghost var pt0 := mgr.s.hw[pid];
    MappedEachNext(pt0, m, [], 0);
    assert slots[..0] == [];
    for idx := 0 to |slots|
      invariant pid in mgr.s.hw && mgr.s == w.(hw := w.hw[pid := mgr.s.hw[pid]])
      invariant mgr.s.hw[pid] == MappedEach(pt0, m, slots[..idx])
    {
      assert slots[..idx + 1] == slots[..idx] + [slots[idx]];
      MappedEachNext(pt0, m, slots[..idx], slots[idx]);
      PartlyMapped(pt, m, slots[..idx]);
      r := mgr.MapProcessFrame(pid, slots[idx], m.vaddr + idx * PGSIZE, m.flags, 1);
      if r.Err? {
        UndoPieces(mgr, pid, m, idx, pt);
        return;
      }
    }
    assert slots[..|slots|] == slots;
    MappedEachAll(pt, m, slots);
    r := Ok(());
  }

  /** Unmaps the first `n` pages one by one, then maps the old frame again if it can. */
  method UndoPieces(mgr: ApeManager, pid: Pid, m: MemoryMap, n: nat, ghost pt: PageTable)
    requires pid in mgr.s.hw && m.vaddr % PGSIZE == 0
    requires OnlyInside(pt, mgr.s.hw[pid], m, m.vaddr, m.vaddr + n * PGSIZE)
    modifies mgr`s
    ensures pid in mgr.s.hw
    ensures mgr.s == old(mgr.s).(hw := old(mgr.s).hw[pid := mgr.s.hw[pid]])
    ensures SubTable(mgr.s.hw[pid], Mapped(pt, m.frameCap, m.vaddr, m.flags, m.Pages()))
  {
    hide Mapped, Unmapped, OnlyInside, SubTable, MemoryMap.Pages;
    ghost var w := mgr.s;
    for back := 0 to n
      invariant pid in mgr.s.hw && mgr.s == w.(hw := w.hw[pid := mgr.s.hw[pid]])
      invariant OnlyInside(pt, mgr.s.hw[pid], m, m.vaddr + back * PGSIZE, m.vaddr + n * PGSIZE)
    {
      OneUnmapped(pt, mgr.s.hw[pid], m, m.vaddr + back * PGSIZE, m.vaddr + n * PGSIZE);
      mgr.UnmapProcessPages(pid, m.vaddr + back * PGSIZE, 1);
    }
    RemapAfterRollback(pt, mgr.s.hw[pid], m, m.vaddr + n * PGSIZE);
    var again := mgr.MapProcessFrame(pid, m.frameCap, m.vaddr, m.flags, m.Pages());
  }

  // ----- The whole split -----

  /** Copies made and mapped, the table not yet changed. */
  ghost predicate SplitMapped(w: World, o: multiset<Slot>, s: World, owed: multiset<Slot>, pid: Pid, k: nat,
                              slots: seq<Slot>)
  {
    && pid in w.procs && pid in w.hw && k in w.procs[pid].maps
    && var m := w.procs[pid].maps[k];
       && |slots| == m.Pages()
       && s == w.(frames := s.frames, hw := w.hw[pid := MappedEach(w.hw[pid], m, slots)])
       && owed == PlusAll(o, slots)
       && Copies(w.frames, s.frames, m.frameCap, slots)
       && (forall t | t in w.frames :: t in s.frames && s.frames[t] == w.frames[t])
  }

  ghost function SplitEntered(s: World, pid: Pid, k: nat, slots: seq<Slot>): World
    requires pid in s.procs && k in s.procs[pid].maps
  {
    s.(procs := WithMaps(s.procs, pid, Pieces(Remove(s.procs[pid].maps, k), s.procs[pid].maps[k], slots)))
  }

  lemma SplitEnteredRefs(w: World, o: multiset<Slot>, s: World, owed: multiset<Slot>, pid: Pid, k: nat,
                         slots: seq<Slot>)
    requires Live(w, o, pid) && SplitMapped(w, o, s, owed, pid, k, slots)
    requires RefsOk(s.procs, s.frames, s.refs, owed)
    ensures RefsOk(SplitEntered(s, pid, k, slots).procs, s.frames, s.refs, Plus(o, w.procs[pid].maps[k].frameCap))
    ensures InHand(Plus(o, w.procs[pid].maps[k].frameCap), w.procs[pid].maps[k].frameCap)
    ensures Minus(Plus(o, w.procs[pid].maps[k].frameCap), w.procs[pid].maps[k].frameCap) == o
  {
    hide RefsOk, Books, SpaceOk, MapsOk, Pieces, Plus, Minus, InHand, PlusAll, Copies, MappedEach;
    var maps := w.procs[pid].maps;
    var m := maps[k];
    LiveParts(w, o, pid);
    SpaceMapsOk(w.procs[pid]);
    RefsDropMap(s.procs, s.frames, s.refs, owed, pid, k);
    PlusAllOne(o, slots, m.frameCap);
    PlusMinus(o, m.frameCap);
    FramesOf(w, o, pid);
    RestOfRange(maps, k, slots, w.frames, s.frames);
    PiecesRefs(s.procs, s.frames, s.refs, Plus(o, m.frameCap), pid, Remove(maps, k), m, slots);
  }

  lemma RestOfRange(maps: Maps, k: nat, slots: seq<Slot>, frames: Frames, frames': Frames)
    requires MapsOk(maps) && k in maps && |slots| == maps[k].Pages()
    requires Copies(frames, frames', maps[k].frameCap, slots)
    requires forall j | j in maps :: maps[j].frameCap in frames
    ensures NewSlots(Remove(maps, k), slots)
    ensures forall a | maps[k].vaddr <= a < maps[k].vaddr + |slots| * PGSIZE :: a !in Remove(maps, k)
  {
    MapParts(maps, k);
    CopiesAreNew(frames, frames', Remove(maps, k), maps[k].frameCap, slots);
    forall a | maps[k].vaddr <= a < maps[k].vaddr + |slots| * PGSIZE
      ensures a !in Remove(maps, k)
    {
      if a in maps && a != k {
        OtherApart(maps, k, a);
        assert maps[a].size > 0;
      }
    }
  }

  lemma GrownFrames(frames: Frames, frames': Frames, procs: Procs)
    requires forall t | t in frames :: t in frames' && frames'[t] == frames[t]
    requires FramesExist(procs, frames)
    ensures FramesKept(procs, frames, frames')
  {
  }

  lemma SplitEnteredOthers(w: World, o: multiset<Slot>, s: World, owed: multiset<Slot>, pid: Pid, k: nat,
                           slots: seq<Slot>)
    requires Live(w, o, pid) && SplitMapped(w, o, s, owed, pid, k, slots)
    ensures OthersKept(w, SplitEntered(s, pid, k, slots), pid)
    ensures AgreeOn(w.frames, s.frames, Remove(w.procs[pid].maps, k))
  {
    hide Live, Books, Pieces, MappedEach, Copies, PlusAll, RefsOk, SpaceOk, AgreeOn, FramesExist;
    LiveParts(w, o, pid);
    BooksParts(w, o, pid);
    GrownFrames(w.frames, s.frames, w.procs);
    var m := w.procs[pid].maps[k];
    OthersFrom(w, pid, w.procs[pid].(maps := Pieces(Remove(w.procs[pid].maps, k), m, slots)),
               MappedEach(w.hw[pid], m, slots), s.frames, w.refs);
    AgreeOnRest(w.frames, s.frames, w.procs[pid].maps, k);
  }

  lemma AgreeOnRest(frames: Frames, frames': Frames, maps: Maps, k: nat)
    requires AgreeOn(frames, frames', maps)
    ensures AgreeOn(frames, frames', Remove(maps, k))
  {
  }

  /** After the release of the old frame every piece still has its copy. */
  lemma SplitReleased(w: World, o: multiset<Slot>, s: World, owed: multiset<Slot>, pid: Pid, k: nat, slots: seq<Slot>)
    requires Live(w, o, pid) && SplitMapped(w, o, s, owed, pid, k, slots)
    requires IsRemappable(w.procs[pid].maps[k].memType)
    requires var w' := AfterRelease(SplitEntered(s, pid, k, slots), w.procs[pid].maps[k].frameCap);
             FramesExist(w'.procs, w'.frames)
    ensures SplitDone(w, AfterRelease(SplitEntered(s, pid, k, slots), w.procs[pid].maps[k].frameCap), pid, k, slots)
  {
    hide Books, Pieces, MappedEach, PlusAll, RefsOk, SpaceOk, Copies, FramesExist, Released, FramesAfterRelease,
         OthersKept, AgreeOn;
    var cap := w.procs[pid].maps[k].frameCap;
    var s1 := SplitEntered(s, pid, k, slots);
    var w' := AfterRelease(s1, cap);
    LiveParts(w, o, pid);
    SplitEnteredOthers(w, o, s, owed, pid, k, slots);
    ReleaseOthers(w, s1, pid, cap);
    SplitCopiesKept(w, o, s, owed, pid, k, slots);
  }

  lemma SplitCopiesKept(w: World, o: multiset<Slot>, s: World, owed: multiset<Slot>, pid: Pid, k: nat, slots: seq<Slot>)
    requires Live(w, o, pid) && SplitMapped(w, o, s, owed, pid, k, slots)
    requires var w' := AfterRelease(SplitEntered(s, pid, k, slots), w.procs[pid].maps[k].frameCap);
             FramesExist(w'.procs, w'.frames)
    ensures var w' := AfterRelease(SplitEntered(s, pid, k, slots), w.procs[pid].maps[k].frameCap);
            && Copies(w.frames, w'.frames, w.procs[pid].maps[k].frameCap, slots)
            && AgreeOn(w.frames, w'.frames, Remove(w.procs[pid].maps, k))
  {
    hide Books, Pieces, MappedEach, PlusAll, RefsOk, SpaceOk, MapsOk, FramesExist, OthersKept;
    var maps := w.procs[pid].maps;
    var cap := maps[k].frameCap;
    var s1 := SplitEntered(s, pid, k, slots);
    LiveParts(w, o, pid);
    SpaceMapsOk(w.procs[pid]);
    SplitEnteredOthers(w, o, s, owed, pid, k, slots);
    RestHoldsOther(maps, k);
    assert cap in w.frames;
  }

  lemma RestHoldsOther(maps: Maps, k: nat)
    requires MapsOk(maps) && k in maps
    ensures FrameUnheld(Remove(maps, k), maps[k].frameCap)
  {
  }

  /** The table changes: the map is replaced by its pieces and the old frame released. */
  method EnterPieces(mgr: ApeManager, pid: Pid, k: nat, slots: seq<Slot>, ghost w: World, ghost o: multiset<Slot>)
    requires Live(w, o, pid) && SplitMapped(w, o, mgr.s, mgr.owed, pid, k, slots) && mgr.Counted()
    requires pid in mgr.s.procs && k in mgr.s.procs[pid].maps
    requires IsRemappable(w.procs[pid].maps[k].memType)
    modifies mgr
    ensures mgr.Counted() && mgr.owed == o
    ensures SplitDone(w, mgr.s, pid, k, slots)
  {
    hide Live, RefsOk, Pieces, Plus, Minus, InHand, PlusAll, Copies, MappedEach, Remove, SplitDone, FramesExist,
         Released, FramesAfterRelease;
    ghost var s1, o1 := mgr.s, mgr.owed;
    var m := mgr.s.procs[pid].maps[k];
    SplitEnteredRefs(w, o, s1, o1, pid, k, slots);
    var maps := Remove(mgr.s.procs[pid].maps, k);
    ghost var rest := maps;
    PiecesNext(rest, m, [], 0);
    assert slots[..0] == [];
    for idx := 0 to |slots|
      invariant maps == Pieces(rest, m, slots[..idx])
      invariant mgr.s == s1 && mgr.owed == o1
    {
      assert slots[..idx + 1] == slots[..idx] + [slots[idx]];
      PiecesNext(rest, m, slots[..idx], slots[idx]);
      maps := maps[m.vaddr + idx * PGSIZE := PieceOf(m, idx, slots[idx])];
    }
    assert slots[..|slots|] == slots;
    mgr.s := mgr.s.(procs := WithMaps(mgr.s.procs, pid, maps));
    mgr.owed := Plus(o, m.frameCap);
    mgr.ReleaseFrameSlot(m.frameCap);
    CountedFrames(mgr.s, mgr.owed);
    SplitReleased(w, o, s1, o1, pid, k, slots);
  }

  predicate LargeTarget(m: MemoryMap) { IsRemappable(m.memType) && m.Pages() > 1 }

  lemma SplitNothing(w: World, o: multiset<Slot>, pid: Pid)
    requires Live(w, o, pid)
    ensures StepOk(w, o, w, o, pid) && OthersKept(w, w, pid) && Books(w, o)
    ensures SameView(w.frames, w.procs[pid], w.frames, w.procs[pid])
  {
    hide Books, StepOk, PageAt;
    StepOkReflexive(w, o, pid);
    StepOkParts(w, o, w, o, pid);
  }

  /** Every copy was given back before anything was mapped. */
  lemma SplitRolledBack(w: World, o: multiset<Slot>, s: World, pid: Pid)
    requires Live(w, o, pid) && SameTables(w, s) && RefsOk(s.procs, s.frames, s.refs, o)
    ensures StepOk(w, o, s, o, pid) && OthersKept(w, s, pid) && Books(s, o)
    ensures s.procs == w.procs && SameView(w.frames, w.procs[pid], s.frames, s.procs[pid])
    ensures Translated(w) ==> Translated(s)
  {
    hide Books, StepOk, PageAt, RefsOk, Translated, Isolated, AgreeOn, SameView, Lost;
    LiveParts(w, o, pid);
    BooksParts(w, o, pid);
    LostPlus(o, 0);
    QuietStep(w, o, s, o, pid);
    QuietKeeps(w, s, pid);
    StepOkParts(w, o, s, o, pid);
  }

  lemma CopyingParts(w: World, o: multiset<Slot>, s: World, owed: multiset<Slot>, src: Slot, slots: seq<Slot>)
    requires Copying(w, o, s, owed, src, slots)
    ensures s == w.(frames := s.frames) && owed == PlusAll(o, slots)
  {
  }

  lemma CopiesMapped(w: World, o: multiset<Slot>, s1: World, s2: World, owed: multiset<Slot>, pid: Pid, k: nat,
                     slots: seq<Slot>)
    requires pid in w.procs && pid in w.hw && k in w.procs[pid].maps
    requires var m := w.procs[pid].maps[k];
             && Copying(w, o, s1, owed, m.frameCap, slots) && |slots| == m.Pages() && pid in s1.hw && pid in s2.hw
             && s2 == s1.(hw := s1.hw[pid := s2.hw[pid]]) && s2.hw[pid] == MappedEach(s1.hw[pid], m, slots)
    ensures SplitMapped(w, o, s2, owed, pid, k, slots)
  {
    hide MappedEach, Copies, PlusAll;
  }

  /** The copies could not all be mapped: they are given back, and the old frame may be mapped again. */
  lemma SplitUndone(w: World, o: multiset<Slot>, s1: World, s2: World, s3: World, owed: multiset<Slot>, pid: Pid,
                    k: nat, slots: seq<Slot>)
    requires Live(w, o, pid) && k in w.procs[pid].maps
    requires var m := w.procs[pid].maps[k];
             && Copying(w, o, s1, owed, m.frameCap, slots) && pid in s1.hw && pid in s2.hw
             && s2 == s1.(hw := s1.hw[pid := s2.hw[pid]])
             && SubTable(s2.hw[pid], Mapped(s1.hw[pid], m.frameCap, k, m.flags, m.Pages()))
    requires SameTables(s2, s3) && RefsOk(s3.procs, s3.frames, s3.refs, o)
    ensures OthersKept(w, s3, pid) && Books(s3, o)
    ensures s3.procs == w.procs && SameView(w.frames, w.procs[pid], s3.frames, s3.procs[pid])
    ensures Translated(w) ==> Translated(s3)
    ensures !(w.procs[pid].maps[k].cow && w.procs[pid].maps[k].flags.w) ==> StepOk(w, o, s3, o, pid)
  {
    hide Live, Books, RefsOk, SpaceOk, MapsOk, PlusAll, Copies, FramesExist, OthersKept, StepOk, Mapped, MappedEach,
         SubTable, SameView, Translated, Isolated, Lost, AgreeOn;
    LiveParts(w, o, pid);
    BooksParts(w, o, pid);
    GrownFrames(w.frames, s1.frames, w.procs);
    FramesKeptTransitive(w.procs, w.frames, s2.frames, s3.frames);
    LostPlus(o, 0);
    RemapStep(w, o, s3, o, pid, k, w.procs[pid].maps[k].flags);
  }

  lemma FramesKeptTransitive(procs: Procs, frames: Frames, frames1: Frames, frames2: Frames)
    requires FramesKept(procs, frames, frames1) && FramesKept(procs, frames1, frames2)
    ensures FramesKept(procs, frames, frames2)
  {
    forall p | p in procs
      ensures AgreeOn(frames, frames2, procs[p].maps)
    {
      assert AgreeOn(frames, frames1, procs[p].maps) && AgreeOn(frames1, frames2, procs[p].maps);
    }
  }

  /** Splits the map at `k` into base pages. Whatever happens every page shows what it showed,
      nothing is lost, and no other process is touched; the copy-on-write invariants survive
      when the map is not a writable copy-on-write one. */
  method SplitLargeMapping(mgr: ApeManager, pid: Pid, k: nat) returns (r: Result<()>, ghost slots: seq<Slot>)
    requires Live(mgr.s, mgr.owed, pid)
    modifies mgr
    ensures mgr.owed == old(mgr.owed) && Books(mgr.s, mgr.owed) && OthersKept(old(mgr.s), mgr.s, pid)
    ensures pid in mgr.s.procs && SameView(old(mgr.s).frames, old(mgr.s).procs[pid], mgr.s.frames, mgr.s.procs[pid])
    ensures Translated(old(mgr.s)) ==> Translated(mgr.s)
    ensures r.Err? ==> mgr.s.procs == old(mgr.s).procs
    ensures r.Ok? ==>
              && k in old(mgr.s).procs[pid].maps
              && (if LargeTarget(old(mgr.s).procs[pid].maps[k])
                  then SplitDone(old(mgr.s), mgr.s, pid, k, slots) else mgr.s == old(mgr.s))
    ensures (k in old(mgr.s).procs[pid].maps ==>
               !(old(mgr.s).procs[pid].maps[k].cow && old(mgr.s).procs[pid].maps[k].flags.w)) ==>
              StepOk(old(mgr.s), old(mgr.owed), mgr.s, mgr.owed, pid)
  {
    hide Live, Books, RefsOk, SpaceOk, MapsOk, Plus, PlusAll, Copies, Copying, SplitDone, SplitMapped, FramesExist,
         SameTables, OthersKept, StepOk, Mapped, MappedEach, SubTable, Remapped, SameView, Translated, Isolated, Lost;
    ghost var w, o := mgr.s, mgr.owed;
    slots := [];
    LiveParts(w, o, pid);
    SpaceMapsOk(w.procs[pid]);
    CountedFrames(w, o);
    SplitNothing(w, o, pid);
    if k !in mgr.s.procs[pid].maps {
      return Err(NotFound), [];
    }
    var m := mgr.s.procs[pid].maps[k];
    MapParts(w.procs[pid].maps, k);
    if !LargeTarget(m) {
      return Ok(()), [];
    }
    r := mgr.MapScratch(m.frameCap, m.Pages());
    if r.Err? {
      return;
    }
    var copies := CopyPieces(mgr, m.frameCap, m.Pages());
    if copies.Err? {
      r := Err(copies.error);
      SplitRolledBack(w, o, mgr.s, pid);
      return;
    }
    slots := copies.value;
    ghost var s1 := mgr.s;
    CopyingParts(w, o, s1, mgr.owed, m.frameCap, slots);
    r := MapPieces(mgr, pid, m, copies.value);
    ghost var s2, o2 := mgr.s, mgr.owed;
    if r.Err? {
      CountedFrames(s2, o2);
      SameTablesReflexive(s2);
      ReleaseTemp(mgr, copies.value, s2, o);
      SplitUndone(w, o, s1, s2, mgr.s, o2, pid, k, slots);
    } else {
      CopiesMapped(w, o, s1, s2, o2, pid, k, slots);
      EnterPieces(mgr, pid, k, copies.value, w, o);
      SplitStep(w, o, mgr.s, pid, k, slots);
      SplitDoneParts(w, mgr.s, pid, k, slots);
    }
  }

  lemma SplitDoneParts(w: World, w': World, pid: Pid, k: nat, slots: seq<Slot>)
    requires SplitDone(w, w', pid, k, slots)
    ensures pid in w'.procs
  {
  }

  // ----- Splitting whatever crosses an end of a range -----

  predicate Straddles(m: MemoryMap, lo: nat, hi: nat) {
    && LargeTarget(m)
    && HasOverlap(lo, hi, m.vaddr, m.Pages() * PGSIZE)
    && (m.vaddr < lo || hi < m.vaddr + m.Pages() * PGSIZE)
  }

  function Targets(maps: Maps, lo: nat, hi: nat): set<nat> {
    set k | k in maps && Straddles(maps[k], lo, hi)
  }

  /** No map to be split is a writable copy-on-write one. */
  predicate PrivateTargets(maps: Maps, lo: nat, hi: nat) {
    forall k | k in maps && Straddles(maps[k], lo, hi) :: !(maps[k].cow && maps[k].flags.w)
  }

  /** `m` is the map `m0` of `pid`, or a piece of it with a frame of its own. */
  predicate PartOf(procs: Procs, pid: Pid, m0: MemoryMap, m: MemoryMap) {
    && m.flags == m0.flags && m.cow == m0.cow && m0.vaddr <= m.vaddr && m.End() <= m0.End()
    && (m.frameCap == m0.frameCap || Unshared(procs, pid, m.frameCap))
  }

  ghost predicate FromMaps(procs: Procs, pid: Pid, maps: Maps)
    requires pid in procs
  {
    forall k | k in maps :: exists j :: j in procs[pid].maps && PartOf(procs, pid, procs[pid].maps[j], maps[k])
  }

  lemma FromMapsSelf(procs: Procs, pid: Pid)
    requires pid in procs
    ensures FromMaps(procs, pid, procs[pid].maps)
  {
    hide Unshared;
    forall k | k in procs[pid].maps
      ensures exists j :: j in procs[pid].maps && PartOf(procs, pid, procs[pid].maps[j], procs[pid].maps[k])
    {
      assert PartOf(procs, pid, procs[pid].maps[k], procs[pid].maps[k]);
    }
  }

  lemma FromMapsSplit(w: World, s: World, s2: World, pid: Pid, k: nat, slots: seq<Slot>)
    requires pid in w.procs && pid in s.procs && MapsOk(s.procs[pid].maps) && FromMaps(w.procs, pid, s.procs[pid].maps)
    requires OthersKept(w, s, pid) && FramesExist(s.procs, s.frames)
    requires k in s.procs[pid].maps && SplitDone(s, s2, pid, k, slots)
    ensures pid in s2.procs && FromMaps(w.procs, pid, s2.procs[pid].maps)
  {
    hide MapsOk, Pieces, PageSet, MappedEach, AgreeOn, FramesExist, Unshared, PieceOf, IdxOf, PartOf, OthersKept;
    var maps := s.procs[pid].maps;
    forall j | j in s2.procs[pid].maps
      ensures exists i :: i in w.procs[pid].maps && PartOf(w.procs, pid, w.procs[pid].maps[i], s2.procs[pid].maps[j])
    {
      PieceEntry(maps, k, slots, j);
      if j in PageSet(k, |slots|) {
        var n := IdxOf(j, k, |slots|);
        FreshUnshared(w, s, pid, slots[n]);
        var i :| i in w.procs[pid].maps && PartOf(w.procs, pid, w.procs[pid].maps[i], maps[k]);
        EntryOf(maps, k);
        PieceOfPart(w.procs, pid, w.procs[pid].maps[i], maps[k], n, slots[n]);
      }
    }
  }

  lemma PieceOfPart(procs: Procs, pid: Pid, m0: MemoryMap, m: MemoryMap, n: nat, slot: Slot)
    requires PartOf(procs, pid, m0, m) && Unshared(procs, pid, slot)
    ensures PieceOf(m, n, slot).End() <= m.End() ==> PartOf(procs, pid, m0, PieceOf(m, n, slot))
  {
    hide Unshared;
  }

  lemma FreshUnshared(w: World, s: World, pid: Pid, slot: Slot)
    requires OthersKept(w, s, pid) && FramesExist(s.procs, s.frames) && slot !in s.frames
    ensures Unshared(w.procs, pid, slot)
  {
    hide AgreeOn;
    forall q | q in w.procs && q != pid
      ensures !Holds(w.procs[q].maps, slot)
    {
      assert s.procs[q] == w.procs[q];
    }
  }

  /** The split of a range has `targets` left to do. */
  ghost predicate SplitSoFar(w: World, o: multiset<Slot>, s: World, pid: Pid, lo: nat, hi: nat, targets: set<nat>) {
    && Live(s, o, pid) && OthersKept(w, s, pid) && pid in w.procs && (Translated(w) ==> Translated(s))
    && SameView(w.frames, w.procs[pid], s.frames, s.procs[pid])
    && s.procs[pid] == w.procs[pid].(maps := s.procs[pid].maps)
    && (PrivateTargets(w.procs[pid].maps, lo, hi) ==> StepOk(w, o, s, o, pid))
    && (forall k | k in targets :: k in w.procs[pid].maps && Straddles(w.procs[pid].maps[k], lo, hi))
    && TargetsLeft(w.procs[pid].maps, s.procs[pid].maps, lo, hi, targets)
    && FromMaps(w.procs, pid, s.procs[pid].maps)
    && (LeftExposed(w.procs[pid].maps, targets, lo, hi) ==> ExposedOutside(s, pid, lo, hi))
  }

  /** A map already split was a writable copy-on-write one. */
  ghost predicate LeftExposed(maps: Maps, targets: set<nat>, lo: nat, hi: nat) {
    exists k :: k in maps && k !in targets && Straddles(maps[k], lo, hi) && maps[k].cow && maps[k].flags.w
  }

  ghost predicate TargetsLeft(maps: Maps, maps': Maps, lo: nat, hi: nat, targets: set<nat>) {
    && (forall k | k in targets :: k in maps && k in maps' && maps'[k] == maps[k])
    && (forall k | k in maps' && Straddles(maps'[k], lo, hi) :: k in targets)
  }

  lemma SplitSoFarParts(w: World, o: multiset<Slot>, s: World, pid: Pid, lo: nat, hi: nat, targets: set<nat>)
    requires SplitSoFar(w, o, s, pid, lo, hi, targets)
    ensures Live(s, o, pid) && OthersKept(w, s, pid) && pid in w.procs && pid in s.procs
            && (Translated(w) ==> Translated(s))
    ensures SameView(w.frames, w.procs[pid], s.frames, s.procs[pid])
    ensures s.procs[pid] == w.procs[pid].(maps := s.procs[pid].maps)
    ensures PrivateTargets(w.procs[pid].maps, lo, hi) ==> StepOk(w, o, s, o, pid)
    ensures forall k | k in targets ::
              && k in w.procs[pid].maps && k in s.procs[pid].maps && s.procs[pid].maps[k] == w.procs[pid].maps[k]
              && Straddles(w.procs[pid].maps[k], lo, hi)
    ensures FromMaps(w.procs, pid, s.procs[pid].maps)
    ensures LeftExposed(w.procs[pid].maps, targets, lo, hi) ==> ExposedOutside(s, pid, lo, hi)
  {
    hide PartOf, LeftExposed, ExposedOutside;
  }

  lemma SplitSoFarStart(w: World, o: multiset<Slot>, pid: Pid, lo: nat, hi: nat)
    requires Live(w, o, pid)
    ensures SplitSoFar(w, o, w, pid, lo, hi, Targets(w.procs[pid].maps, lo, hi))
  {
    hide Live, Books, StepOk, SameView, OthersKept, Translated, Straddles, FromMaps, ExposedOutside, Targets,
         TargetsLeft, LeftExposed, PrivateTargets;
    LiveParts(w, o, pid);
    SplitNothing(w, o, pid);
    FromMapsSelf(w.procs, pid);
    AllTargets(w.procs[pid].maps, lo, hi);
  }

  lemma AllTargets(maps: Maps, lo: nat, hi: nat)
    ensures TargetsLeft(maps, maps, lo, hi, Targets(maps, lo, hi)) && !LeftExposed(maps, Targets(maps, lo, hi), lo, hi)
    ensures forall k | k in Targets(maps, lo, hi) :: k in maps && Straddles(maps[k], lo, hi)
  {
    hide Straddles;
  }

  lemma TargetSplit(maps: Maps, maps1: Maps, lo: nat, hi: nat, targets: set<nat>, k: nat, slots: seq<Slot>)
    requires MapsOk(maps1) && TargetsLeft(maps, maps1, lo, hi, targets) && k in targets
    requires |slots| == maps1[k].Pages() && lo % PGSIZE == 0 && hi % PGSIZE == 0
    ensures TargetsLeft(maps, Pieces(Remove(maps1, k), maps1[k], slots), lo, hi, targets - {k})
  {
    hide MapsOk, Pieces, PageSet, Straddles;
    var maps2 := Pieces(Remove(maps1, k), maps1[k], slots);
    forall j | j in targets - {k}
      ensures j in maps2 && maps2[j] == maps1[j]
    {
      KeptIn(maps1, k, slots, j);
    }
    forall j | j in maps2 && Straddles(maps2[j], lo, hi)
      ensures j in targets - {k}
    {
      PieceEntry(maps1, k, slots, j);
      OnePageInside(maps2[j], lo, hi);
    }
  }

  lemma OnePageInside(m: MemoryMap, lo: nat, hi: nat)
    ensures m.size == PGSIZE ==> !Straddles(m, lo, hi)
  {
  }

  lemma SplitSoFarNext(w: World, o: multiset<Slot>, s: World, s2: World, pid: Pid, lo: nat, hi: nat, targets: set<nat>,
                       k: nat, slots: seq<Slot>)
    requires SplitSoFar(w, o, s, pid, lo, hi, targets) && k in targets && lo % PGSIZE == 0 && hi % PGSIZE == 0
    requires k in s.procs[pid].maps && SplitDone(s, s2, pid, k, slots)
    requires Books(s2, o) && OthersKept(s, s2, pid) && pid in s2.procs
    requires SameView(s.frames, s.procs[pid], s2.frames, s2.procs[pid])
    requires Translated(s) ==> Translated(s2)
    requires !(s.procs[pid].maps[k].cow && s.procs[pid].maps[k].flags.w) ==> StepOk(s, o, s2, o, pid)
    ensures SplitSoFar(w, o, s2, pid, lo, hi, targets - {k})
  {
    hide Live, Books, StepOk, SameView, OthersKept, Translated, Straddles, Copies, MappedEach, AgreeOn, Pieces, MapsOk,
         FromMaps, SplitDone, TargetsLeft, FramesExist, SpaceOk, RefsOk, Remove, LeftExposed, ExposedOutside;
    SplitSoFarParts(w, o, s, pid, lo, hi, targets);
    LiveParts(s, o, pid);
    SpaceMapsOk(s.procs[pid]);
    BooksParts(s, o, pid);
    FromMapsSplit(w, s, s2, pid, k, slots);
    SplitDoneTables(s, s2, pid, k, slots);
    ExposedNext(w.procs[pid].maps, s, s2, pid, lo, hi, targets, k, slots);
    TargetSplit(w.procs[pid].maps, s.procs[pid].maps, lo, hi, targets, k, slots);
    SameViewTransitive(w.frames, w.procs[pid], s.frames, s.procs[pid], s2.frames, s2.procs[pid]);
    OthersKeptTransitive(w, s, s2, pid);
    OthersKeptParts(s, s2, pid);
    MakeLive(s2, o, pid);
    if PrivateTargets(w.procs[pid].maps, lo, hi) {
      StepOkTransitive(w, o, s, o, s2, o, pid);
    }
  }

  /** A page of a straddling map that lies outside the range. */
  lemma StraddleOutside(m: MemoryMap, lo: nat, hi: nat) returns (a: nat)
    requires Straddles(m, lo, hi) && m.vaddr % PGSIZE == 0 && lo % PGSIZE == 0 && hi % PGSIZE == 0
    ensures a in PageSet(m.vaddr, m.Pages()) && !(lo <= a < hi)
  {
    hide AlignUp;
    a := if m.vaddr < lo then m.vaddr else m.vaddr + (m.Pages() - 1) * PGSIZE;
    LastPage(m.vaddr, m.Pages(), hi);
  }

  lemma LastPage(k: nat, n: nat, hi: nat)
    requires n > 0 && k % PGSIZE == 0 && hi % PGSIZE == 0
    ensures k in PageSet(k, n) && k + (n - 1) * PGSIZE in PageSet(k, n)
    ensures hi < k + n * PGSIZE ==> hi <= k + (n - 1) * PGSIZE
  {
  }

  lemma ExposedNext(maps0: Maps, s: World, s2: World, pid: Pid, lo: nat, hi: nat, targets: set<nat>, k: nat,
                    slots: seq<Slot>)
    requires SplitDone(s, s2, pid, k, slots) && MapsOk(s.procs[pid].maps) && lo % PGSIZE == 0 && hi % PGSIZE == 0
    requires k in maps0 && s.procs[pid].maps[k] == maps0[k] && Straddles(maps0[k], lo, hi)
    requires LeftExposed(maps0, targets, lo, hi) ==> ExposedOutside(s, pid, lo, hi)
    ensures LeftExposed(maps0, targets - {k}, lo, hi) ==> ExposedOutside(s2, pid, lo, hi)
  {
    hide SplitDone, MapsOk, Straddles, ExposedOutside, KeepsExposed, PageSet;
    SplitDoneTables(s, s2, pid, k, slots);
    MapParts(s.procs[pid].maps, k);
    StraddlesLarge(maps0[k], lo, hi);
    if LeftExposed(maps0, targets, lo, hi) {
      SplitKeepsExposed(s, s2, pid, k, slots);
      KeepsExposedMore(s, s2, pid, lo, hi);
      StillExposed(s, s2, pid, lo, hi);
    } else if maps0[k].cow && maps0[k].flags.w {
      var a := StraddleOutside(maps0[k], lo, hi);
      SplitExposes(s, s2, pid, k, slots, a, lo, hi);
    }
  }

  lemma SplitDoneTables(s: World, s2: World, pid: Pid, k: nat, slots: seq<Slot>)
    requires SplitDone(s, s2, pid, k, slots)
    ensures pid in s.procs && k in s.procs[pid].maps && |slots| == s.procs[pid].maps[k].Pages()
    ensures pid in s2.procs && s2.procs[pid] == SplitSpace(s.procs[pid], k, slots) && pid in s.running
  {
  }

  lemma OthersKeptParts(w: World, w': World, pid: Pid)
    requires OthersKept(w, w', pid)
    ensures w'.procs.Keys == w.procs.Keys && w'.running == w.running && w'.hw.Keys == w.hw.Keys
  {
  }

  lemma MakeLive(w: World, owed: multiset<Slot>, pid: Pid)
    requires Books(w, owed) && pid in w.procs && pid in w.running
    ensures Live(w, owed, pid)
  {
  }

  lemma SameViewTransitive(frames: Frames, mm: MmState, frames1: Frames, mm1: MmState, frames2: Frames, mm2: MmState)
    requires SameView(frames, mm, frames1, mm1) && SameView(frames1, mm1, frames2, mm2)
    ensures SameView(frames, mm, frames2, mm2)
  {
    hide PageAt;
  }

  lemma SplitSoFarDone(w: World, o: multiset<Slot>, s: World, pid: Pid, lo: nat, hi: nat)
    requires SplitSoFar(w, o, s, pid, lo, hi, {}) && lo % PGSIZE == 0 && hi % PGSIZE == 0
    ensures NoStraddle(s.procs[pid].maps, lo, hi)
  {
    LiveParts(s, o, pid);
    NoTargetsNoStraddle(s.procs[pid].maps, lo, hi);
  }

  lemma NoTargetsNoStraddle(maps: Maps, lo: nat, hi: nat)
    requires MapsOk(maps) && lo % PGSIZE == 0 && hi % PGSIZE == 0
    requires forall k | k in maps :: !Straddles(maps[k], lo, hi)
    ensures NoStraddle(maps, lo, hi)
  {
    hide MapsOk, Straddles;
    forall k | k in maps && IsRemappable(maps[k].memType) && HasOverlap(lo, hi, k, maps[k].size)
      ensures lo <= k && maps[k].End() <= hi
    {
      MapParts(maps, k);
      NotStraddling(maps[k], lo, hi);
    }
  }

  lemma NotStraddling(m: MemoryMap, lo: nat, hi: nat)
    requires m.vaddr % PGSIZE == 0 && m.size == m.Pages() * PGSIZE && lo % PGSIZE == 0 && hi % PGSIZE == 0
    requires IsRemappable(m.memType) && HasOverlap(lo, hi, m.vaddr, m.size) && !Straddles(m, lo, hi)
    ensures lo <= m.vaddr && m.End() <= hi
  {
    if m.Pages() <= 1 {
      assert m.size <= PGSIZE;
    }
  }

  /** `ensure_partial_multi_page_ranges_split`: every page keeps its view, and on success no
      remappable map crosses an end of the range. If some map split was a writable copy-on-write one,
      a page of it outside the range is left writable and marked. */
  method EnsureSplit(mgr: ApeManager, pid: Pid, start: nat, end: nat) returns (r: Result<()>)
    requires Live(mgr.s, mgr.owed, pid) && start % PGSIZE == 0 && end % PGSIZE == 0
    modifies mgr
    ensures mgr.owed == old(mgr.owed) && Live(mgr.s, mgr.owed, pid) && OthersKept(old(mgr.s), mgr.s, pid)
    ensures pid in mgr.s.procs && mgr.s.procs[pid] == old(mgr.s).procs[pid].(maps := mgr.s.procs[pid].maps)
    ensures SameView(old(mgr.s).frames, old(mgr.s).procs[pid], mgr.s.frames, mgr.s.procs[pid])
    ensures Translated(old(mgr.s)) ==> Translated(mgr.s)
    ensures FromMaps(old(mgr.s).procs, pid, mgr.s.procs[pid].maps)
    ensures r.Ok? ==> NoStraddle(mgr.s.procs[pid].maps, start, end)
    ensures r.Ok? && !PrivateTargets(old(mgr.s).procs[pid].maps, start, end) ==> ExposedOutside(mgr.s, pid, start, end)
    ensures Targets(old(mgr.s).procs[pid].maps, start, end) == {} ==> r.Ok? && mgr.s == old(mgr.s)
    ensures PrivateTargets(old(mgr.s).procs[pid].maps, start, end) ==>
              StepOk(old(mgr.s), old(mgr.owed), mgr.s, mgr.owed, pid)
  {
    hide Live, Books, SplitSoFar, SplitDone, OthersKept, StepOk, SameView, Translated, Straddles, PrivateTargets,
         NoStraddle, SpaceOk, RefsOk, LargeTarget, FromMaps, LeftExposed, ExposedOutside;
    ghost var w, o := mgr.s, mgr.owed;
    LiveParts(w, o, pid);
    SplitSoFarStart(w, o, pid, start, end);
    var targets := Targets(mgr.s.procs[pid].maps, start, end);
    ghost var all := targets;
    while targets != {}
      invariant mgr.owed == o && SplitSoFar(w, o, mgr.s, pid, start, end, targets)
      invariant all == {} ==> targets == {} && mgr.s == w
    {
      var k :| k in targets;
      ghost var s1 := mgr.s;
      ghost var slots;
      SplitSoFarParts(w, o, s1, pid, start, end, targets);
      StraddlesLarge(s1.procs[pid].maps[k], start, end);
      r, slots := SplitLargeMapping(mgr, pid, k);
      if r.Err? {
        SplitStopped(w, o, s1, mgr.s, pid, start, end, targets, k);
        return;
      }
      SplitSoFarNext(w, o, s1, mgr.s, pid, start, end, targets, k, slots);
      targets := targets - {k};
    }
    SplitSoFarParts(w, o, mgr.s, pid, start, end, {});
    SplitSoFarDone(w, o, mgr.s, pid, start, end);
    NotPrivateLeft(w.procs[pid].maps, start, end);
    r := Ok(());
  }

  lemma NotPrivateLeft(maps: Maps, lo: nat, hi: nat)
    ensures !PrivateTargets(maps, lo, hi) ==> LeftExposed(maps, {}, lo, hi)
  {
    hide Straddles;
  }

  lemma StraddlesLarge(m: MemoryMap, lo: nat, hi: nat)
    requires Straddles(m, lo, hi)
    ensures LargeTarget(m)
  {
  }

  lemma SplitStopped(w: World, o: multiset<Slot>, s: World, s2: World, pid: Pid, lo: nat, hi: nat, targets: set<nat>,
                     k: nat)
    requires SplitSoFar(w, o, s, pid, lo, hi, targets) && k in targets
    requires pid in s.procs && k in s.procs[pid].maps && s2.procs == s.procs
    requires Books(s2, o) && OthersKept(s, s2, pid)
    requires SameView(s.frames, s.procs[pid], s2.frames, s2.procs[pid])
    requires Translated(s) ==> Translated(s2)
    requires !(s.procs[pid].maps[k].cow && s.procs[pid].maps[k].flags.w) ==> StepOk(s, o, s2, o, pid)
    ensures Live(s2, o, pid) && OthersKept(w, s2, pid) && (Translated(w) ==> Translated(s2))
    ensures SameView(w.frames, w.procs[pid], s2.frames, s2.procs[pid])
    ensures s2.procs[pid] == w.procs[pid].(maps := s2.procs[pid].maps)
    ensures FromMaps(w.procs, pid, s2.procs[pid].maps)
    ensures PrivateTargets(w.procs[pid].maps, lo, hi) ==> StepOk(w, o, s2, o, pid)
  {
    hide Live, Books, StepOk, SameView, OthersKept, Translated, Straddles, FromMaps;
    LiveParts(s, o, pid);
    SameViewTransitive(w.frames, w.procs[pid], s.frames, s.procs[pid], s2.frames, s2.procs[pid]);
    OthersKeptTransitive(w, s, s2, pid);
    OthersKeptParts(s, s2, pid);
    MakeLive(s2, o, pid);
    if PrivateTargets(w.procs[pid].maps, lo, hi) {
      StepOkTransitive(w, o, s, o, s2, o, pid);
    }
  }
}
