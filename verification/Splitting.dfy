/** Breaking a multi-page map into one map a page, each over a fresh copy of its page. */
module Splitting {
  import opened Types
  import opened AddressSpace
  import opened Machine
  import opened Views
  import opened World
  import opened DropMaps

  function PieceOf(m: MemoryMap, idx: nat, slot: Slot): MemoryMap {
    m.(vaddr := m.vaddr + idx * PGSIZE, size := PGSIZE, frameCap := slot, offset := SatAdd(m.offset, idx * PGSIZE))
  }

  function IdxOf(a: nat, vaddr: nat, n: nat): (idx: nat)
    requires a in PageSet(vaddr, n)
    ensures idx < n && a == vaddr + idx * PGSIZE
  {
    (a - vaddr) / PGSIZE
  }

  /** `maps` with one map for each slot, from the start of `m` on. */
  function Pieces(maps: Maps, m: MemoryMap, slots: seq<Slot>): Maps {
    map a | a in maps.Keys + PageSet(m.vaddr, |slots|) ::
      if a in PageSet(m.vaddr, |slots|) then PieceOf(m, IdxOf(a, m.vaddr, |slots|), slots[IdxOf(a, m.vaddr, |slots|)])
      else maps[a]
  }

  function MappedEach(pt: PageTable, m: MemoryMap, slots: seq<Slot>): PageTable {
    map a | a in pt.Keys + PageSet(m.vaddr, |slots|) ::
      if a in PageSet(m.vaddr, |slots|) then Pte(slots[IdxOf(a, m.vaddr, |slots|)], 0, m.flags) else pt[a]
  }

  ghost predicate Distinct(slots: seq<Slot>) {
    forall i, j | 0 <= i < j < |slots| :: slots[i] != slots[j]
  }

  /** Fresh frames, one a page, holding the pages of `src` in order. */
  ghost predicate Copies(frames: Frames, frames': Frames, src: Slot, slots: seq<Slot>) {
    && src in frames && |slots| <= |frames[src]|
    && Distinct(slots)
    && forall i | 0 <= i < |slots| ::
         && slots[i] !in frames && slots[i] != 0
         && slots[i] in frames' && frames'[slots[i]] == [frames[src][i]]
  }

  ghost predicate NewSlots(maps: Maps, slots: seq<Slot>) {
    Distinct(slots) && forall i | 0 <= i < |slots| :: slots[i] != 0 && FrameUnheld(maps, slots[i])
  }

  lemma CopiesAreNew(frames: Frames, frames': Frames, maps: Maps, src: Slot, slots: seq<Slot>)
    requires Copies(frames, frames', src, slots)
    requires forall k | k in maps :: maps[k].frameCap in frames
    ensures NewSlots(maps, slots)
  {
  }

  // ----- The table -----

  /** An entry of the split table is an old one apart from `m`, or a piece of `m`. */
  lemma PieceEntry(maps: Maps, k: nat, slots: seq<Slot>, j: nat)
    requires MapsOk(maps) && k in maps && |slots| == maps[k].Pages()
    requires j in Pieces(Remove(maps, k), maps[k], slots)
    ensures var e := Pieces(Remove(maps, k), maps[k], slots)[j];
            if j in PageSet(k, |slots|)
            then && e == PieceOf(maps[k], IdxOf(j, k, |slots|), slots[IdxOf(j, k, |slots|)])
                 && k <= j && e.vaddr == j && e.End() <= maps[k].End()
            else && j in maps && j != k && e == maps[j]
                 && (e.End() <= k || maps[k].End() <= j)
  {
    MapParts(maps, k);
    hide MapsOk, PageSet, MemoryMap.Pages;
    if j in PageSet(k, |slots|) {
      PieceFits(IdxOf(j, k, |slots|), |slots|);
    } else {
      OtherApart(maps, k, j);
    }
  }

  lemma PieceFits(idx: nat, n: nat)
    requires idx < n
    ensures idx * PGSIZE + PGSIZE <= n * PGSIZE
  {
  }

  lemma MapParts(maps: Maps, k: nat)
    requires MapsOk(maps) && k in maps
    ensures maps[k].vaddr == k && maps[k].size == maps[k].Pages() * PGSIZE && k % PGSIZE == 0
  {
  }

  lemma OtherApart(maps: Maps, k: nat, j: nat)
    requires MapsOk(maps) && k in maps && j in maps && j != k
    ensures maps[j].End() <= k || maps[k].End() <= j
  {
  }

  lemma PiecesEntriesApart(maps: Maps, k: nat, slots: seq<Slot>, i: nat, j: nat)
    requires MapsOk(maps) && k in maps && |slots| == maps[k].Pages() && NewSlots(Remove(maps, k), slots)
    requires i in Pieces(Remove(maps, k), maps[k], slots) && j in Pieces(Remove(maps, k), maps[k], slots)
    ensures var maps' := Pieces(Remove(maps, k), maps[k], slots);
            && (i < j ==> maps'[i].End() <= j)
            && (i != j ==> maps'[i].frameCap != maps'[j].frameCap)
  {
    hide Pieces, NewSlots;
    PieceEntry(maps, k, slots, i);
    PieceEntry(maps, k, slots, j);
    PieceFrames(maps, k, slots, i, j);
  }

  lemma PieceFrames(maps: Maps, k: nat, slots: seq<Slot>, i: nat, j: nat)
    requires MapsOk(maps) && k in maps && |slots| == maps[k].Pages() && NewSlots(Remove(maps, k), slots)
    requires i in Pieces(Remove(maps, k), maps[k], slots) && j in Pieces(Remove(maps, k), maps[k], slots)
    ensures var maps' := Pieces(Remove(maps, k), maps[k], slots);
            i != j ==> maps'[i].frameCap != maps'[j].frameCap
  {
    hide Pieces;
    PieceEntry(maps, k, slots, i);
    PieceEntry(maps, k, slots, j);
    if i in PageSet(k, |slots|) && j !in PageSet(k, |slots|) {
      assert j in Remove(maps, k) && Remove(maps, k)[j] == maps[j];
    } else if j in PageSet(k, |slots|) && i !in PageSet(k, |slots|) {
      assert i in Remove(maps, k) && Remove(maps, k)[i] == maps[i];
    }
  }

  /** One entry of a resident table. */
  ghost predicate EntryOk(m: MemoryMap, k: nat) {
    && m.vaddr == k && k % PGSIZE == 0
    && m.size > 0 && m.size % PGSIZE == 0 && m.frameCap != 0
    && (m.size > PGSIZE ==> IsRemappable(m.memType))
  }

  lemma EntriesMakeMaps(maps: Maps)
    requires forall j | j in maps :: EntryOk(maps[j], j)
    requires forall i, j | i in maps && j in maps && i < j :: maps[i].End() <= j
    requires forall i, j | i in maps && j in maps && i != j :: maps[i].frameCap != maps[j].frameCap
    ensures MapsOk(maps)
  {
  }

  lemma EntryOf(maps: Maps, k: nat)
    requires MapsOk(maps) && k in maps
    ensures EntryOk(maps[k], k)
  {
  }

  lemma PieceEntryOk(maps: Maps, k: nat, slots: seq<Slot>, j: nat)
    requires MapsOk(maps) && k in maps && |slots| == maps[k].Pages() && NewSlots(Remove(maps, k), slots)
    requires j in Pieces(Remove(maps, k), maps[k], slots)
    ensures EntryOk(Pieces(Remove(maps, k), maps[k], slots)[j], j)
  {
    hide MapsOk, Pieces, PageSet;
    PieceEntry(maps, k, slots, j);
    EntryOf(maps, k);
    if j in PageSet(k, |slots|) {
      assert j == k + IdxOf(j, k, |slots|) * PGSIZE;
    } else {
      EntryOf(maps, j);
    }
  }

  lemma PiecesMapsOk(maps: Maps, k: nat, slots: seq<Slot>)
    requires MapsOk(maps) && k in maps && |slots| == maps[k].Pages() && NewSlots(Remove(maps, k), slots)
    ensures MapsOk(Pieces(Remove(maps, k), maps[k], slots))
  {
    hide MapsOk, Pieces, PageSet, NewSlots, EntryOk;
    var maps' := Pieces(Remove(maps, k), maps[k], slots);
    forall j | j in maps'
      ensures EntryOk(maps'[j], j)
    {
      PieceEntryOk(maps, k, slots, j);
    }
    forall i, j | i in maps' && j in maps'
      ensures i < j ==> maps'[i].End() <= j
      ensures i != j ==> maps'[i].frameCap != maps'[j].frameCap
    {
      PiecesEntriesApart(maps, k, slots, i, j);
    }
    EntriesMakeMaps(maps');
  }

  ghost function SplitSpace(mm: MmState, k: nat, slots: seq<Slot>): MmState
    requires k in mm.maps
  {
    mm.(maps := Pieces(Remove(mm.maps, k), mm.maps[k], slots))
  }

  lemma SplitSpaceOk(mm: MmState, k: nat, slots: seq<Slot>)
    requires SpaceOk(mm) && k in mm.maps && |slots| == mm.maps[k].Pages()
    requires NewSlots(Remove(mm.maps, k), slots) && mm.maps[k].memType != Stack
    ensures SpaceOk(SplitSpace(mm, k, slots))
  {
    PiecesMapsOk(mm.maps, k, slots);
    SplitApart(mm, k, slots);
    SplitStack(mm, k, slots);
  }

  lemma SplitApart(mm: MmState, k: nat, slots: seq<Slot>)
    requires MapsOk(mm.maps) && Apart(mm.maps, mm.lazy) && k in mm.maps && |slots| == mm.maps[k].Pages()
    ensures Apart(SplitSpace(mm, k, slots).maps, mm.lazy)
  {
    var maps' := SplitSpace(mm, k, slots).maps;
    hide Pieces, PageSet;
    forall j, l | j in maps' && l in mm.lazy
      ensures l + PGSIZE <= j || maps'[j].End() <= l
    {
      PieceEntry(mm.maps, k, slots, j);
    }
  }

  lemma SplitStack(mm: MmState, k: nat, slots: seq<Slot>)
    requires SpaceOk(mm) && k in mm.maps && |slots| == mm.maps[k].Pages() && mm.maps[k].memType != Stack
    ensures StackOk(SplitSpace(mm, k, slots))
  {
    hide SpaceOk, MapsOk, LazyOk, Apart, Pieces, PageSet;
    SpaceParts(mm);
    var mm' := SplitSpace(mm, k, slots);
    forall a | mm.StackBoundary() <= a < mm.stackBottom && a % PGSIZE == 0
      ensures a in mm'.maps && mm'.maps[a].memType == Stack
    {
      KeptIn(mm.maps, k, slots, a);
    }
    forall j | j in mm'.maps
      ensures if mm'.maps[j].memType == Stack
              then mm.StackBoundary() <= j < mm.stackBottom
              else mm'.maps[j].End() <= mm.StackLow() || mm.stackBottom <= j
    {
      PieceEntry(mm.maps, k, slots, j);
    }
  }

  // ----- The page table -----

  /** A translation stands for a writable map that is not copy-on-write. */
  ghost predicate StandsForWritable(pte: Pte, a: nat, maps: Maps) {
    pte.idx * PGSIZE <= a &&
    var b := a - pte.idx * PGSIZE;
    b in maps && maps[b].flags.w && !maps[b].cow
  }

  lemma WritesOkByPte(pt: PageTable, maps: Maps)
    ensures WritesOk(pt, maps) <==> forall a | a in pt && pt[a].perms.w :: StandsForWritable(pt[a], a, maps)
  {
  }

  lemma SplitTable(pt: PageTable, maps: Maps, k: nat, slots: seq<Slot>)
    requires MapsOk(maps) && k in maps && |slots| == maps[k].Pages()
    requires TableOk(pt, maps)
    ensures TableOk(MappedEach(pt, maps[k], slots), Pieces(Remove(maps, k), maps[k], slots))
  {
    hide MapsOk, Pieces, PageSet, MappedEach, PteOk;
    var pt' := MappedEach(pt, maps[k], slots);
    forall a | a in pt'
      ensures PteOk(pt'[a], a, Pieces(Remove(maps, k), maps[k], slots))
    {
      if a in PageSet(k, |slots|) {
        SplitPtePiece(pt, maps, k, slots, a);
      } else {
        SplitPteKept(pt, maps, k, slots, a);
      }
    }
  }

  lemma SplitWrites(pt: PageTable, maps: Maps, k: nat, slots: seq<Slot>)
    requires MapsOk(maps) && k in maps && |slots| == maps[k].Pages()
    requires TableOk(pt, maps) && WritesOk(pt, maps) && !(maps[k].cow && maps[k].flags.w)
    ensures WritesOk(MappedEach(pt, maps[k], slots), Pieces(Remove(maps, k), maps[k], slots))
  {
    hide MapsOk, Pieces, PageSet, MappedEach, PteOk, WritesOk, StandsForWritable;
    var pt' := MappedEach(pt, maps[k], slots);
    WritesOkByPte(pt, maps);
    forall a | a in pt' && pt'[a].perms.w
      ensures StandsForWritable(pt'[a], a, Pieces(Remove(maps, k), maps[k], slots))
    {
      if a in PageSet(k, |slots|) {
        SplitPtePiece(pt, maps, k, slots, a);
      } else {
        SplitPteKept(pt, maps, k, slots, a);
      }
    }
    WritesOkByPte(pt', Pieces(Remove(maps, k), maps[k], slots));
  }

  lemma SplitPtePiece(pt: PageTable, maps: Maps, k: nat, slots: seq<Slot>, a: nat)
    requires MapsOk(maps) && k in maps && |slots| == maps[k].Pages()
    requires a in PageSet(k, |slots|)
    ensures a in MappedEach(pt, maps[k], slots)
    ensures var pte := MappedEach(pt, maps[k], slots)[a];
            && PteOk(pte, a, Pieces(Remove(maps, k), maps[k], slots))
            && (pte.perms.w && !(maps[k].cow && maps[k].flags.w) ==>
                  StandsForWritable(pte, a, Pieces(Remove(maps, k), maps[k], slots)))
  {
    hide MapsOk, PageSet, MemoryMap.Pages, Pieces;
    MapParts(maps, k);
    PieceIn(maps, k, slots, a);
  }

  lemma SplitPteKept(pt: PageTable, maps: Maps, k: nat, slots: seq<Slot>, a: nat)
    requires MapsOk(maps) && k in maps && |slots| == maps[k].Pages()
    requires TableOk(pt, maps)
    requires a in MappedEach(pt, maps[k], slots) && a !in PageSet(k, |slots|)
    ensures a in pt && MappedEach(pt, maps[k], slots)[a] == pt[a]
    ensures PteOk(pt[a], a, Pieces(Remove(maps, k), maps[k], slots))
    ensures StandsForWritable(pt[a], a, maps) ==> StandsForWritable(pt[a], a, Pieces(Remove(maps, k), maps[k], slots))
  {
    hide MapsOk, Pieces, PageSet;
    MapParts(maps, k);
    assert a in pt && PteOk(pt[a], a, maps);
    PteInRange(pt[a], a, maps, k);
    var b := a - pt[a].idx * PGSIZE;
    assert b in maps && b != k;
    KeptIn(maps, k, slots, b);
  }

  lemma PieceIn(maps: Maps, k: nat, slots: seq<Slot>, a: nat)
    requires MapsOk(maps) && k in maps && |slots| == maps[k].Pages() && a in PageSet(k, |slots|)
    ensures a in Pieces(Remove(maps, k), maps[k], slots)
    ensures Pieces(Remove(maps, k), maps[k], slots)[a] ==
              PieceOf(maps[k], IdxOf(a, k, |slots|), slots[IdxOf(a, k, |slots|)])
    ensures a % PGSIZE == 0
  {
    hide MapsOk, PageSet, MemoryMap.Pages;
    MapParts(maps, k);
    assert a == k + IdxOf(a, k, |slots|) * PGSIZE;
  }

  lemma KeptIn(maps: Maps, k: nat, slots: seq<Slot>, j: nat)
    requires MapsOk(maps) && k in maps && |slots| == maps[k].Pages() && j in maps && j != k
    ensures j in Pieces(Remove(maps, k), maps[k], slots) && j !in PageSet(k, |slots|)
    ensures Pieces(Remove(maps, k), maps[k], slots)[j] == maps[j]
  {
    MapParts(maps, k);
    OtherApart(maps, k, j);
    assert maps[j].size > 0;
    PageSetBounds(j, k, |slots|);
  }

  /** No other map starts inside the map at `k`. */
  lemma StartApart(maps: Maps, k: nat, j: nat)
    requires MapsOk(maps) && k in maps && j in maps && j != k
    ensures j !in PageSet(k, maps[k].Pages())
  {
    hide MapsOk, MemoryMap.Pages, PageSet;
    MapParts(maps, k);
    EntryOf(maps, j);
    OtherApart(maps, k, j);
    PageSetBounds(j, k, maps[k].Pages());
  }

  lemma OnePageSet(a: nat)
    ensures PageSet(a, 1) == {a}
  {
  }

  lemma PageSetBounds(a: nat, vaddr: nat, n: nat)
    ensures a in PageSet(vaddr, n) ==> vaddr <= a < vaddr + n * PGSIZE
  {
  }

  // ----- The view -----

  /** A page of the split map: its contents, permissions, descriptor and file offset. */
  lemma SplitPageOf(frames: Frames, frames': Frames, maps: Maps, k: nat, slots: seq<Slot>, a: nat)
    requires MapsOk(maps) && k in maps && |slots| == maps[k].Pages()
    requires Copies(frames, frames', maps[k].frameCap, slots)
    requires a % PGSIZE == 0 && maps[k].Covers(a)
    ensures var maps' := Pieces(Remove(maps, k), maps[k], slots);
            && a in maps' && maps'[a].Covers(a)
            && PageOf(frames', maps'[a], a) == PageOf(frames, maps[k], a)
  {
    MapParts(maps, k);
    PageInMap(k, |slots|, a);
    PieceIn(maps, k, slots, a);
  }

  lemma SplitPageAt(frames: Frames, frames': Frames, mm: MmState, k: nat, slots: seq<Slot>, a: nat)
    requires k in mm.maps
    requires SpaceOk(mm) && MapsOk(SplitSpace(mm, k, slots).maps) && |slots| == mm.maps[k].Pages()
    requires Copies(frames, frames', mm.maps[k].frameCap, slots)
    requires AgreeOn(frames, frames', Remove(mm.maps, k))
    requires a % PGSIZE == 0
    ensures PageAt(frames', SplitSpace(mm, k, slots), a) == PageAt(frames, mm, a)
  {
    hide SpaceOk, MapsOk, LazyOk, StackOk, Pieces, Lookup, Copies, PageSet;
    assert MapsOk(mm.maps) by {
      SpaceMapsOk(mm);
    }
    var maps' := SplitSpace(mm, k, slots).maps;
    LookupExact(mm.maps, a);
    LookupExact(maps', a);
    if mm.maps[k].Covers(a) {
      SplitPageOf(frames, frames', mm.maps, k, slots, a);
    } else if Lookup(mm.maps, a).Some? {
      var j := Lookup(mm.maps, a).value.vaddr;
      KeptIn(mm.maps, k, slots, j);
      assert j in Remove(mm.maps, k) && Remove(mm.maps, k)[j] == mm.maps[j];
    } else if Lookup(maps', a).Some? {
      PieceEntry(mm.maps, k, slots, Lookup(maps', a).value.vaddr);
    }
  }

  lemma SpaceMapsOk(mm: MmState)
    requires SpaceOk(mm)
    ensures MapsOk(mm.maps)
  {
  }

  lemma PageInMap(k: nat, n: nat, a: nat)
    requires k % PGSIZE == 0 && a % PGSIZE == 0 && k <= a < k + n * PGSIZE
    ensures a in PageSet(k, n) && IdxOf(a, k, n) == (a - k) / PGSIZE
  {
  }

  lemma SplitView(frames: Frames, frames': Frames, mm: MmState, k: nat, slots: seq<Slot>)
    requires SpaceOk(mm) && k in mm.maps && |slots| == mm.maps[k].Pages() && mm.maps[k].memType != Stack
    requires Copies(frames, frames', mm.maps[k].frameCap, slots)
    requires forall j | j in mm.maps :: mm.maps[j].frameCap in frames
    requires AgreeOn(frames, frames', Remove(mm.maps, k))
    ensures SameView(frames, mm, frames', SplitSpace(mm, k, slots))
    ensures SpaceOk(SplitSpace(mm, k, slots))
  {
    CopiesAreNew(frames, frames', Remove(mm.maps, k), mm.maps[k].frameCap, slots);
    SplitSpaceOk(mm, k, slots);
    hide PageAt;
    forall a: nat | a % PGSIZE == 0
      ensures PageAt(frames', SplitSpace(mm, k, slots), a) == PageAt(frames, mm, a)
    {
      SplitPageAt(frames, frames', mm, k, slots, a);
    }
  }

  // ----- References -----

  ghost function PlusAll(owed: multiset<Slot>, slots: seq<Slot>): multiset<Slot> { owed + multiset(slots) }

  lemma PlusAllOne(owed: multiset<Slot>, slots: seq<Slot>, slot: Slot)
    ensures PlusAll(owed, []) == owed
    ensures PlusAll(owed, slots + [slot]) == Plus(PlusAll(owed, slots), slot)
    ensures PlusAll(owed, [slot] + slots) == Plus(PlusAll(owed, slots), slot)
    ensures PlusAll(Plus(owed, slot), slots) == Plus(PlusAll(owed, slots), slot)
  {
  }

  lemma PiecesNext(maps: Maps, m: MemoryMap, slots: seq<Slot>, slot: Slot)
    ensures Pieces(maps, m, []) == maps
    ensures Pieces(maps, m, slots + [slot]) ==
              Pieces(maps, m, slots)[m.vaddr + |slots| * PGSIZE := PieceOf(m, |slots|, slot)]
    ensures m.vaddr + |slots| * PGSIZE in Pieces(maps, m, slots) ==> m.vaddr + |slots| * PGSIZE in maps
  {
    hide PageSet;
    var end := m.vaddr + |slots| * PGSIZE;
    PageSetNext(m.vaddr, |slots|);
    assert Pieces(maps, m, []) == maps;
    var maps1 := Pieces(maps, m, slots + [slot]);
    var maps2 := Pieces(maps, m, slots)[end := PieceOf(m, |slots|, slot)];
    assert maps1.Keys == maps2.Keys;
    forall a | a in maps1
      ensures maps1[a] == maps2[a]
    {
      if a in PageSet(m.vaddr, |slots|) {
        assert IdxOf(a, m.vaddr, |slots| + 1) == IdxOf(a, m.vaddr, |slots|);
      }
    }
  }

  lemma PageSetNext(vaddr: nat, n: nat)
    ensures PageSet(vaddr, 0) == {}
    ensures PageSet(vaddr, n + 1) == PageSet(vaddr, n) + {vaddr + n * PGSIZE}
    ensures vaddr + n * PGSIZE !in PageSet(vaddr, n)
  {
    forall a
      ensures a in PageSet(vaddr, n + 1) <==> a in PageSet(vaddr, n) || a == vaddr + n * PGSIZE
    {
      if a in PageSet(vaddr, n + 1) {
        assert a == vaddr + (a - vaddr) / PGSIZE * PGSIZE;
      }
    }
  }

  /** The references of the fresh frames pass to the table one by one. */
  lemma {:induction false} PiecesRefs(procs: Procs, frames: Frames, refs: map<Slot, nat>, owed: multiset<Slot>,
                                      pid: Pid, maps: Maps, m: MemoryMap, slots: seq<Slot>)
    requires pid in procs && NewSlots(maps, slots)
    requires forall a | m.vaddr <= a < m.vaddr + |slots| * PGSIZE :: a !in maps
    requires RefsOk(WithMaps(procs, pid, maps), frames, refs, PlusAll(owed, slots))
    ensures RefsOk(WithMaps(procs, pid, Pieces(maps, m, slots)), frames, refs, owed)
    decreases |slots|
  {
    hide RefsOk, Pieces, PlusAll, Plus, FrameUnheld;
    if slots == [] {
      PiecesNext(maps, m, [], 0);
      PlusAllOne(owed, [], 0);
    } else {
      var n := |slots| - 1;
      var init := slots[..n];
      assert slots == init + [slots[n]];
      PlusAllOne(owed, init, slots[n]);
      PiecesRefs(procs, frames, refs, Plus(owed, slots[n]), pid, maps, m, init);
      PiecesRefsNext(procs, frames, refs, owed, pid, maps, m, init, slots[n]);
    }
  }

  lemma PiecesRefsNext(procs: Procs, frames: Frames, refs: map<Slot, nat>, owed: multiset<Slot>, pid: Pid,
                       maps: Maps, m: MemoryMap, slots: seq<Slot>, slot: Slot)
    requires pid in procs && NewSlots(maps, slots + [slot])
    requires m.vaddr + |slots| * PGSIZE !in maps
    requires RefsOk(WithMaps(procs, pid, Pieces(maps, m, slots)), frames, refs, Plus(owed, slot))
    ensures RefsOk(WithMaps(procs, pid, Pieces(maps, m, slots + [slot])), frames, refs, owed)
  {
    hide RefsOk, Pieces, NewSlots, Plus, Minus, InHand, Holds;
    PiecesNext(maps, m, slots, slot);
    PieceUnheld(maps, m, slots, slot);
    PlusMinus(owed, slot);
    var maps1 := Pieces(maps, m, slots);
    WithMapsTwice(procs, pid, maps1, Pieces(maps, m, slots + [slot]));
    RefsAddMap(WithMaps(procs, pid, maps1), frames, refs, Plus(owed, slot), pid, PieceOf(m, |slots|, slot));
  }

  lemma PieceUnheld(maps: Maps, m: MemoryMap, slots: seq<Slot>, slot: Slot)
    requires NewSlots(maps, slots + [slot])
    ensures !Holds(Pieces(maps, m, slots), slot)
  {
    var all := slots + [slot];
    assert all[|slots|] == slot;
    forall a | a in Pieces(maps, m, slots)
      ensures Pieces(maps, m, slots)[a].frameCap != slot
    {
      if a in PageSet(m.vaddr, |slots|) {
        assert all[IdxOf(a, m.vaddr, |slots|)] == slots[IdxOf(a, m.vaddr, |slots|)];
      }
    }
  }

  // ----- The whole step -----

  /** The world once the split is done and the old frame's reference given back. */
  ghost predicate SplitDone(w: World, w': World, pid: Pid, k: nat, slots: seq<Slot>) {
    && pid in w.procs && pid in w.running && pid in w.hw && k in w.procs[pid].maps
    && pid in w'.procs && pid in w'.hw
    && IsRemappable(w.procs[pid].maps[k].memType) && |slots| == w.procs[pid].maps[k].Pages()
    && OthersKept(w, w', pid)
    && w'.procs[pid] == SplitSpace(w.procs[pid], k, slots)
    && w'.hw[pid] == MappedEach(w.hw[pid], w.procs[pid].maps[k], slots)
    && Copies(w.frames, w'.frames, w.procs[pid].maps[k].frameCap, slots)
    && AgreeOn(w.frames, w'.frames, Remove(w.procs[pid].maps, k))
  }

  lemma SplitBacked(frames: Frames, frames': Frames, maps: Maps, k: nat, slots: seq<Slot>)
    requires MapsOk(maps) && k in maps && |slots| == maps[k].Pages()
    requires Backed(frames, maps) && Copies(frames, frames', maps[k].frameCap, slots)
    requires AgreeOn(frames, frames', Remove(maps, k))
    ensures Backed(frames', Pieces(Remove(maps, k), maps[k], slots))
  {
    hide MapsOk, Pieces, PageSet;
    var maps' := Pieces(Remove(maps, k), maps[k], slots);
    forall j | j in maps'
      ensures maps'[j].frameCap in frames' && |frames'[maps'[j].frameCap]| * PGSIZE == maps'[j].size
    {
      PieceEntry(maps, k, slots, j);
      if j !in PageSet(k, |slots|) {
        assert j in Remove(maps, k) && Remove(maps, k)[j] == maps[j];
      }
    }
  }

  lemma SplitGuarded(frames: Frames, frames': Frames, maps: Maps, others: Maps, k: nat, slots: seq<Slot>)
    requires MapsOk(maps) && k in maps && |slots| == maps[k].Pages()
    requires Copies(frames, frames', maps[k].frameCap, slots)
    requires forall j | j in others :: others[j].frameCap in frames
    requires Guarded(maps, others) && Guarded(others, maps)
    ensures Guarded(Pieces(Remove(maps, k), maps[k], slots), others)
    ensures Guarded(others, Pieces(Remove(maps, k), maps[k], slots))
  {
    hide MapsOk, Pieces, PageSet;
    var maps' := Pieces(Remove(maps, k), maps[k], slots);
    forall i, j | i in maps' && j in others && maps'[i].frameCap == others[j].frameCap
      ensures i in maps && maps'[i] == maps[i]
    {
      PieceEntry(maps, k, slots, i);
    }
  }

  lemma SplitTranslated(w: World, owed: multiset<Slot>, w': World, pid: Pid, k: nat, slots: seq<Slot>)
    requires Books(w, owed) && SplitDone(w, w', pid, k, slots) && Translated(w)
    ensures Translated(w')
  {
    hide Books, MapsOk, Pieces, MappedEach, Copies, OthersKept, AgreeOn, Backed, TableOk;
    BooksParts(w, owed, pid);
    TranslatedParts(w, pid);
    SplitBacked(w.frames, w'.frames, w.procs[pid].maps, k, slots);
    SplitTable(w.hw[pid], w.procs[pid].maps, k, slots);
    TranslatedByPid(w, w', pid);
  }

  lemma TranslatedParts(w: World, pid: Pid)
    requires Translated(w) && pid in w.procs && pid in w.hw && pid in w.running
    ensures Backed(w.frames, w.procs[pid].maps) && TableOk(w.hw[pid], w.procs[pid].maps)
  {
  }

  lemma SplitIsolated(w: World, owed: multiset<Slot>, w': World, pid: Pid, k: nat, slots: seq<Slot>)
    requires Books(w, owed) && SplitDone(w, w', pid, k, slots) && Translated(w) && Isolated(w)
    requires !(w.procs[pid].maps[k].cow && w.procs[pid].maps[k].flags.w)
    ensures Isolated(w')
  {
    hide Books, MapsOk, Pieces, MappedEach, Copies, OthersKept, AgreeOn, Backed, TableOk, WritesOk, Guarded;
    BooksParts(w, owed, pid);
    TranslatedParts(w, pid);
    SplitWrites(w.hw[pid], w.procs[pid].maps, k, slots);
    forall q | q in w.procs && q != pid
      ensures Guarded(w'.procs[pid].maps, w.procs[q].maps) && Guarded(w.procs[q].maps, w'.procs[pid].maps)
    {
      FramesOf(w, owed, q);
      SplitGuarded(w.frames, w'.frames, w.procs[pid].maps, w.procs[q].maps, k, slots);
    }
    IsolatedByPid(w, w', pid);
  }

  lemma FramesOf(w: World, owed: multiset<Slot>, q: Pid)
    requires Books(w, owed) && q in w.procs
    ensures forall j | j in w.procs[q].maps :: w.procs[q].maps[j].frameCap in w.frames
  {
  }

  /** A split copy-on-write map stays marked copy-on-write while its pages become writable. */
  lemma SplitCowNotIsolated(w: World, owed: multiset<Slot>, w': World, pid: Pid, k: nat, slots: seq<Slot>)
    requires Books(w, owed) && SplitDone(w, w', pid, k, slots)
    requires w.procs[pid].maps[k].cow && w.procs[pid].maps[k].flags.w
    ensures !Isolated(w')
  {
    var maps := w.procs[pid].maps;
    BooksParts(w, owed, pid);
    MapParts(maps, k);
    assert maps[k].size > 0;
    hide MapsOk, Books;
    PageInMap(k, |slots|, k);
    PieceIn(maps, k, slots, k);
    assert w'.hw[pid][k] == Pte(slots[0], 0, maps[k].flags);
    assert pid in w'.running && !WritesOk(w'.hw[pid], w'.procs[pid].maps);
  }

  /** A split leaves every page as it was. It also leaves the invariants as they were, precisely
      when the map was not a writable copy-on-write one. */
  lemma SplitStep(w: World, owed: multiset<Slot>, w': World, pid: Pid, k: nat, slots: seq<Slot>)
    requires Books(w, owed) && SplitDone(w, w', pid, k, slots)
    requires RefsOk(w'.procs, w'.frames, w'.refs, owed)
    ensures SameView(w.frames, w.procs[pid], w'.frames, w'.procs[pid])
    ensures Books(w', owed) && OthersKept(w, w', pid)
    ensures Translated(w) ==> Translated(w')
    ensures Translated(w) && Isolated(w) ==>
              (Isolated(w') <==> !(w.procs[pid].maps[k].cow && w.procs[pid].maps[k].flags.w))
    ensures !(w.procs[pid].maps[k].cow && w.procs[pid].maps[k].flags.w) ==> StepOk(w, owed, w', owed, pid)
  {
    hide Books, SpaceOk, RefsOk, Pieces, MappedEach, Copies, OthersKept, AgreeOn, Translated, Isolated, SameView, Lost;
    var m := w.procs[pid].maps[k];
    FramesOf(w, owed, pid);
    BooksParts(w, owed, pid);
    SplitView(w.frames, w'.frames, w.procs[pid], k, slots);
    BooksByPid(w, owed, w', owed, pid);
    if Translated(w) {
      SplitTranslated(w, owed, w', pid, k, slots);
    }
    if m.cow && m.flags.w {
      SplitCowNotIsolated(w, owed, w', pid, k, slots);
    } else {
      if Translated(w) && Isolated(w) {
        SplitIsolated(w, owed, w', pid, k, slots);
      }
      LostPlus(owed, 0);
      StepFrom(w, owed, w', owed, pid);
    }
  }
}
