/** What each step of a copy to or from a process keeps, and who sees what is written. */
module CopySteps {
  import opened Types
  import opened AddressSpace
  import opened Machine
  import opened Views
  import opened World
  import opened DemandFaults
  import opened Splitting
  import opened SplitCalls
  import opened Reflag
  import opened Faults
  import opened UserBytes
  import opened ScratchPool

  /** Every window of the pool shows the whole of a frame the process holds. */
  ghost predicate PoolFits(entries: seq<Option<PoolEntry>>, frames: Frames, maps: Maps) {
    forall i | 0 <= i < |entries| && entries[i].Some? ::
      var cap := entries[i].value.frameCap;
      Holds(maps, cap) && cap in frames && |frames[cap]| == entries[i].value.pages
  }

  lemma FitsExtended(entries: seq<Option<PoolEntry>>, w: World, w': World, pid: Pid)
    requires StackOnly(w, w', pid) && PoolFits(entries, w.frames, w.procs[pid].maps)
    ensures PoolFits(entries, w'.frames, w'.procs[pid].maps)
  {
    forall i | 0 <= i < |entries| && entries[i].Some?
      ensures var cap := entries[i].value.frameCap;
              Holds(w'.procs[pid].maps, cap) && cap in w'.frames && |w'.frames[cap]| == entries[i].value.pages
    {
      var k :| k in w.procs[pid].maps && w.procs[pid].maps[k].frameCap == entries[i].value.frameCap;
      assert w'.procs[pid].maps[k] == w.procs[pid].maps[k];
    }
  }

  lemma FitsAdded(entries: seq<Option<PoolEntry>>, entries': seq<Option<PoolEntry>>, frames: Frames, maps: Maps,
                  slot: nat)
    requires PoolFits(entries, frames, maps) && |entries'| == |entries| && slot < |entries|
    requires forall i | 0 <= i < |entries| && i != slot :: entries'[i] == entries[i]
    requires entries'[slot].Some? && entries'[slot] != entries[slot] ==>
               var cap := entries'[slot].value.frameCap;
               Holds(maps, cap) && cap in frames && |frames[cap]| == entries'[slot].value.pages
    ensures PoolFits(entries', frames, maps)
  {
  }

  /** Only the stack may have grown, by zeroed pages. */
  ghost predicate Grew(w: World, o: multiset<Slot>, s: World, owed: multiset<Slot>, pid: Pid) {
    && StepOk(w, o, s, owed, pid) && StackOnly(w, s, pid) && Live(s, owed, pid)
    && pid in w.procs && pid in s.procs && GrewBy(w, s, pid, s.procs[pid].StackBoundary())
  }

  /** A copy that succeeds loses no reference; one that fails loses at most one, to a frame that did
      not exist before. */
  ghost predicate CopyLoss(w: World, o: multiset<Slot>, s: World, owed: multiset<Slot>, ok: bool) {
    LostOne(w.frames.Keys, o, owed) && (ok ==> owed == o && w.frames.Keys <= s.frames.Keys)
  }

  lemma NoCopyLoss(w: World, o: multiset<Slot>, ok: bool)
    ensures CopyLoss(w, o, w, o, ok)
  {
    LostOneFrom(w.frames.Keys, o, 0);
  }

  lemma CopyLossThen(w: World, o: multiset<Slot>, s1: World, o1: multiset<Slot>, s2: World, o2: multiset<Slot>,
                     ok: bool)
    requires CopyLoss(w, o, s1, o1, true) && CopyLoss(s1, o1, s2, o2, ok)
    ensures CopyLoss(w, o, s2, o2, ok)
  {
    hide LostOne;
    LostOneLess(s1.frames.Keys, w.frames.Keys, o1, o2);
  }

  lemma CopyLossFailed(w: World, o: multiset<Slot>, s: World, owed: multiset<Slot>, ok: bool)
    requires CopyLoss(w, o, s, owed, ok)
    ensures CopyLoss(w, o, s, owed, false) && LostOne(w.frames.Keys, o, owed) && (ok ==> owed == o)
  {
  }

  lemma StackLoss(w: World, o: multiset<Slot>, s: World, owed: multiset<Slot>, ok: bool)
    requires if ok then owed == o && w.frames.Keys <= s.frames.Keys else LostOne(w.frames.Keys, o, owed)
    ensures CopyLoss(w, o, s, owed, ok)
  {
    LostOneFrom(w.frames.Keys, o, 0);
  }

  lemma WrittenLoss(w: World, o: multiset<Slot>, s: World, owed: multiset<Slot>, slot: Slot, off: nat, data: seq<byte>)
    requires CopyLoss(w, o, s, owed, true) && slot in s.frames
    ensures CopyLoss(w, o, Written(s, slot, off, data), owed, true)
  {
    hide Patched, LostOne;
  }

  lemma GrewNothingYet(w: World, o: multiset<Slot>, pid: Pid)
    requires Live(w, o, pid)
    ensures Grew(w, o, w, o, pid)
  {
    hide Books, StepOk, StackOnly, GrewBy, SameView;
    ExtendsItself(w, o, pid);
    SplitNothing(w, o, pid);
    GrewNothing(w, w, pid);
  }

  /** What an access may need: a resident map that allows it. */
  predicate Accessible(mm: MmState, addr: nat, required: Perms) {
    Lookup(mm.maps, addr).Some? && Lookup(mm.maps, addr).value.flags.Contains(required)
  }

  /** Addresses are machine words: no map and no stack reaches past them. */
  predicate AddressesFit(mm: MmState) {
    mm.stackBottom <= USIZE_MAX && forall k | k in mm.maps :: mm.maps[k].End() <= USIZE_MAX
  }

  const READ := Perms(true, false, false)

  /** The process sees `data` from `addr` on. */
  ghost predicate BytesAt(w: World, pid: Pid, addr: nat, data: seq<byte>) {
    pid in w.procs && forall i | 0 <= i < |data| :: ByteAt(w.frames, w.procs[pid], addr + i) == Some(data[i])
  }

  lemma FrameBytesAre(w: World, o: multiset<Slot>, pid: Pid, k: nat, start: nat, data: seq<byte>)
    requires Live(w, o, pid) && Translated(w) && k in w.procs[pid].maps && w.procs[pid].maps[k].vaddr == k
    requires w.procs[pid].maps[k].frameCap in w.frames
    requires start + |data| <= w.procs[pid].maps[k].size
             && |w.frames[w.procs[pid].maps[k].frameCap]| * PGSIZE == w.procs[pid].maps[k].size
    requires data == FrameBytes(w.frames[w.procs[pid].maps[k].frameCap], start, |data|)
    ensures BytesAt(w, pid, k + start, data)
  {
    hide Live, Books, SpaceOk, RefsOk, MapsOk, ByteAt, FrameByte, Translated;
    LiveParts(w, o, pid);
    SpaceMapsOk(w.procs[pid]);
    forall i | 0 <= i < |data|
      ensures ByteAt(w.frames, w.procs[pid], k + start + i) == Some(data[i])
    {
      MapByte(w.frames, w.procs[pid], k, k + start + i);
    }
  }

  lemma EndFits(w: World, o: multiset<Slot>, s: World, owed: multiset<Slot>, pid: Pid, m: MemoryMap)
    requires Live(w, o, pid) && Grew(w, o, s, owed, pid) && m.vaddr in s.procs[pid].maps
             && s.procs[pid].maps[m.vaddr] == m
    ensures AddressesFit(w.procs[pid]) ==> m.End() <= USIZE_MAX && AddressesFit(s.procs[pid])
  {
    hide Books, StepOk, RefsOk;
    LiveParts(s, owed, pid);
    var mm := s.procs[pid];
    GrewParts(w, s, pid, mm.StackBoundary());
    forall k | k in mm.maps && AddressesFit(w.procs[pid])
      ensures mm.maps[k].End() <= USIZE_MAX
    {
      StackEnd(mm, k);
    }
  }

  lemma StackEnd(mm: MmState, k: nat)
    requires SpaceOk(mm) && k in mm.maps
    ensures mm.maps[k].memType == Stack ==> mm.maps[k].End() <= mm.stackBottom
  {
  }

  lemma MapBacked(w: World, o: multiset<Slot>, pid: Pid, m: MemoryMap)
    requires Live(w, o, pid) && Translated(w) && m.vaddr in w.procs[pid].maps && w.procs[pid].maps[m.vaddr] == m
    ensures m.frameCap in w.frames && |w.frames[m.frameCap]| * PGSIZE == m.size && m.Pages() == |w.frames[m.frameCap]|
  {
    TranslatedParts(w, pid);
    LiveParts(w, o, pid);
    MapParts(w.procs[pid].maps, m.vaddr);
  }

  lemma FitsSized(entries: seq<Option<PoolEntry>>, frames: Frames, maps: Maps)
    requires PoolFits(entries, frames, maps)
    ensures forall i | 0 <= i < |entries| && entries[i].Some? ::
              entries[i].value.frameCap in frames && |frames[entries[i].value.frameCap]| == entries[i].value.pages
  {
  }

  lemma HeldMap(maps: Maps, m: MemoryMap)
    requires m.vaddr in maps && maps[m.vaddr] == m
    ensures Holds(maps, m.frameCap)
  {
  }

  // ----- The copy, one chunk at a time -----

  lemma GrewTransitive(w: World, o: multiset<Slot>, w1: World, o1: multiset<Slot>, w2: World, o2: multiset<Slot>,
                       pid: Pid)
    requires Grew(w, o, w1, o1, pid) && Grew(w1, o1, w2, o2, pid)
    ensures Grew(w, o, w2, o2, pid)
  {
    hide StepOk, StackOnly, Live, GrewBy;
    StepOkTransitive(w, o, w1, o1, w2, o2, pid);
    StackOnlyTransitive(w, w1, w2, pid);
    GrewParts(w, w1, pid, w1.procs[pid].StackBoundary());
    GrewParts(w1, w2, pid, w2.procs[pid].StackBoundary());
    GrewJoin(w, w1, w2, pid, w1.procs[pid].StackBoundary(), w2.procs[pid].StackBoundary());
  }

  /** Bytes that were there stay there when the stack grows. */
  lemma GrewKeepsBytes(w: World, o: multiset<Slot>, s: World, owed: multiset<Slot>, pid: Pid, addr: nat,
                       data: seq<byte>)
    requires Live(w, o, pid) && Translated(w) && Translated(s)
    requires Grew(w, o, s, owed, pid) && BytesAt(w, pid, addr, data)
    ensures BytesAt(s, pid, addr, data)
  {
    hide Live, Books, StepOk, GrewBy, Translated, SpaceOk, RefsOk, MapsOk, ByteAt, AgreeOn;
    LiveParts(w, o, pid);
    LiveParts(s, owed, pid);
    SpaceMapsOk(w.procs[pid]);
    SpaceMapsOk(s.procs[pid]);
    forall i | 0 <= i < |data|
      ensures ByteAt(s.frames, s.procs[pid], addr + i) == Some(data[i])
    {
      assert ByteAt(w.frames, w.procs[pid], addr + i) == Some(data[i]);
      var k := ByteHasMap(w.frames, w.procs[pid], addr + i);
      EntryOf(w.procs[pid].maps, k);
      EntryOf(s.procs[pid].maps, k);
      MapBacked(w, o, pid, w.procs[pid].maps[k]);
      MapBacked(s, owed, pid, s.procs[pid].maps[k]);
      SameContents(w.frames, s.frames, w.procs[pid].maps, k);
      MapByte(w.frames, w.procs[pid], k, addr + i);
      MapByte(s.frames, s.procs[pid], k, addr + i);
    }
  }

  lemma SameContents(frames: Frames, frames': Frames, maps: Maps, k: nat)
    requires AgreeOn(frames, frames', maps) && k in maps && maps[k].frameCap in frames && maps[k].frameCap in frames'
    ensures frames'[maps[k].frameCap] == frames[maps[k].frameCap]
  {
  }

  lemma BytesJoin(w: World, pid: Pid, addr: nat, data: seq<byte>, more: seq<byte>)
    requires BytesAt(w, pid, addr, data) && BytesAt(w, pid, addr + |data|, more)
    ensures BytesAt(w, pid, addr, data + more)
  {
    hide ByteAt;
    forall i | 0 <= i < |data + more|
      ensures ByteAt(w.frames, w.procs[pid], addr + i) == Some((data + more)[i])
    {
      if i >= |data| {
        assert addr + i == addr + |data| + (i - |data|);
      }
    }
  }

  /** What was accessible stays so. */
  lemma StaysAccessible(mm: MmState, mm': MmState, addr: nat, required: Perms)
    requires MapsOk(mm.maps) && MapsOk(mm'.maps)
    requires forall k | k in mm.maps :: k in mm'.maps && mm'.maps[k] == mm.maps[k]
    ensures Accessible(mm, addr, required) ==> Accessible(mm', addr, required)
  {
    hide MapsOk, Lookup;
    LookupExact(mm.maps, addr);
    LookupExact(mm'.maps, addr);
  }

  lemma GrewAccessible(w: World, o: multiset<Slot>, s: World, owed: multiset<Slot>, pid: Pid, addr: nat,
                       required: Perms)
    requires Live(w, o, pid) && Grew(w, o, s, owed, pid)
    ensures Accessible(w.procs[pid], addr, required) ==> Accessible(s.procs[pid], addr, required)
  {
    hide Live, Books, StepOk, GrewBy, Accessible, SpaceOk, RefsOk, MapsOk, AgreeOn;
    LiveParts(w, o, pid);
    LiveParts(s, owed, pid);
    SpaceMapsOk(w.procs[pid]);
    SpaceMapsOk(s.procs[pid]);
    StaysAccessible(w.procs[pid], s.procs[pid], addr, required);
  }

  lemma WroteAccessible(w: World, o: multiset<Slot>, s: World, owed: multiset<Slot>, pid: Pid, lo: nat, data: seq<byte>,
                        addr: nat, required: Perms)
    requires Live(w, o, pid) && Wrote(w, o, s, owed, pid, lo, data)
    ensures Accessible(w.procs[pid], addr, required) ==> Accessible(s.procs[pid], addr, required)
  {
    hide Live, Books, StepOk, Accessible, SpaceOk, RefsOk, MapsOk, Touched, Translated, Isolated, OthersTables,
         FramesWritten, Lost, OutlinesKept;
    LiveParts(w, o, pid);
    LiveParts(s, owed, pid);
    SpaceMapsOk(w.procs[pid]);
    SpaceMapsOk(s.procs[pid]);
    StaysAccessible(w.procs[pid], s.procs[pid], addr, required);
  }

  lemma FitsPatched(entries: seq<Option<PoolEntry>>, frames: Frames, maps: Maps, slot: Slot, pages: seq<Page>)
    requires PoolFits(entries, frames, maps) && slot in frames && |pages| == |frames[slot]|
    ensures PoolFits(entries, frames[slot := pages], maps)
  {
  }

  /** The frame of the map at `k` with `data` written at address `lo`. */
  ghost predicate WrittenFrom(pages: seq<Page>, pages': seq<Page>, k: nat, lo: nat, data: seq<byte>) {
    && |pages'| == |pages|
    && forall x: nat | x < |pages| * PGSIZE ::
         FrameByte(pages', x) == if lo <= k + x < lo + |data| then data[k + x - lo] else FrameByte(pages, x)
  }

  /** Every frame some process holds is what it was, but for the bytes written through the maps of
      `pid`. */
  ghost predicate FramesWritten(w: World, s: World, pid: Pid, lo: nat, data: seq<byte>) {
    && pid in w.procs && FramesExist(w.procs, w.frames) && FramesExist(w.procs, s.frames)
    && (forall k | k in w.procs[pid].maps ::
          WrittenFrom(w.frames[w.procs[pid].maps[k].frameCap], s.frames[w.procs[pid].maps[k].frameCap], k, lo, data))
    && (forall q, j | q in w.procs && j in w.procs[q].maps
        && FrameUnheld(w.procs[pid].maps, w.procs[q].maps[j].frameCap) ::
          s.frames[w.procs[q].maps[j].frameCap] == w.frames[w.procs[q].maps[j].frameCap])
  }

  /** The tables and translations of every other process are what they were. */
  ghost predicate OthersTables(w: World, s: World, pid: Pid) {
    && w.hw.Keys == w.procs.Keys && s.hw.Keys == s.procs.Keys
    && s.running == w.running && s.procs.Keys == w.procs.Keys
    && forall q | q in w.procs && q != pid :: s.procs[q] == w.procs[q] && s.hw[q] == w.hw[q]
  }

  /** A page without its contents. */
  ghost function Outline(v: Option<PageView>): Option<PageView> {
    if v.Some? && v.value.Resident? then Some(v.value.(data := ZeroPage())) else v
  }

  /** But for its contents every page is what it was, below the old stack a page of the grown one. */
  ghost predicate OutlinesKept(w: World, s: World, pid: Pid) {
    && pid in w.procs && pid in s.procs
    && s.procs[pid].StackBoundary() <= w.procs[pid].StackBoundary()
    && s.procs[pid].stackBottom == w.procs[pid].stackBottom
    && forall a: nat | a % PGSIZE == 0 ::
         Outline(PageAt(s.frames, s.procs[pid], a)) ==
           if s.procs[pid].StackBoundary() <= a < w.procs[pid].StackBoundary() then Some(ZeroView(READ_WRITE, Stack))
           else Outline(PageAt(w.frames, w.procs[pid], a))
  }

  lemma OutlinesThenGrew(w: World, s1: World, s2: World, pid: Pid)
    requires OutlinesKept(w, s1, pid) && pid in s2.procs && GrewBy(s1, s2, pid, s2.procs[pid].StackBoundary())
    ensures OutlinesKept(w, s2, pid)
  {
    hide PageAt;
    var low := s2.procs[pid].StackBoundary();
    forall a: nat | a % PGSIZE == 0
      ensures Outline(PageAt(s2.frames, s2.procs[pid], a)) ==
                if low <= a < w.procs[pid].StackBoundary() then Some(ZeroView(READ_WRITE, Stack))
                else Outline(PageAt(w.frames, w.procs[pid], a))
    {
      assert PageAt(s2.frames, s2.procs[pid], a) ==
               if low <= a < s1.procs[pid].StackBoundary() then Some(ZeroView(READ_WRITE, Stack))
               else PageAt(s1.frames, s1.procs[pid], a);
    }
  }

  lemma OutlinesThenWritten(w: World, s: World, pid: Pid, slot: Slot, off: nat, chunk: seq<byte>)
    requires OutlinesKept(w, s, pid) && slot in s.frames
    ensures OutlinesKept(w, Written(s, slot, off, chunk), pid)
  {
    hide Patched, Lookup;
    var frames' := Written(s, slot, off, chunk).frames;
    forall a: nat | a % PGSIZE == 0
      ensures Outline(PageAt(frames', s.procs[pid], a)) == Outline(PageAt(s.frames, s.procs[pid], a))
    {
    }
  }

  /** `data` has been written at `lo`. */
  ghost predicate Wrote(w: World, o: multiset<Slot>, s: World, owed: multiset<Slot>, pid: Pid, lo: nat,
                        data: seq<byte>) {
    && Live(s, owed, pid) && Translated(s) && (Isolated(w) ==> Isolated(s)) && Lost(o, owed)
    && pid in w.procs && pid in s.procs && Touched(w, s, pid, lo, data)
    && StackAdded(w.procs, s.procs, pid) && OthersTables(w, s, pid)
    && FramesWritten(w, s, pid, lo, data) && OutlinesKept(w, s, pid)
  }

  lemma WroteNothing(w: World, o: multiset<Slot>, pid: Pid, lo: nat)
    requires Live(w, o, pid) && Translated(w)
    ensures Wrote(w, o, w, o, pid, lo, [])
  {
    hide Translated, Touched, Isolated, SpaceOk, RefsOk, FramesExist, FrameUnheld, FrameByte, Outline, PageAt;
    BooksParts(w, o, pid);
    LostPlus(o, 0);
    TouchedNothing(w, pid, lo);
  }

  lemma WroteThenGrew(w: World, o: multiset<Slot>, s1: World, o1: multiset<Slot>, s2: World, o2: multiset<Slot>,
                      pid: Pid, lo: nat, data: seq<byte>)
    requires Translated(w) && Wrote(w, o, s1, o1, pid, lo, data) && Grew(s1, o1, s2, o2, pid)
    ensures Wrote(w, o, s2, o2, pid, lo, data)
  {
    hide Books, Translated, Touched, Isolated, StepOk, Live, GrewBy, AgreeOn, Lost, StackAdded, OthersTables,
         FramesWritten, OthersKept, OutlinesKept;
    StepOkParts(s1, o1, s2, o2, pid);
    OutlinesThenGrew(w, s1, s2, pid);
    LostTransitive(o, o1, o2);
    WroteTouched(w, o, s1, o1, s2, o2, pid, lo, data);
    StackAddedTransitive(w.procs, s1.procs, s2.procs, pid);
    TablesThenGrew(w, s1, s2, pid);
    FramesThenGrew(w, s1, s2, pid, lo, data);
  }

  lemma TablesThenGrew(w: World, s1: World, s2: World, pid: Pid)
    requires OthersTables(w, s1, pid) && OthersKept(s1, s2, pid)
    ensures OthersTables(w, s2, pid)
  {
    hide AgreeOn;
  }

  lemma FramesThenGrew(w: World, s1: World, s2: World, pid: Pid, lo: nat, data: seq<byte>)
    requires FramesWritten(w, s1, pid, lo, data) && StackAdded(w.procs, s1.procs, pid) && OthersTables(w, s1, pid)
    requires OthersKept(s1, s2, pid) && Extends(s1, s2, pid)
    ensures FramesWritten(w, s2, pid, lo, data)
  {
    hide WrittenFrom, FrameUnheld;
    forall q, j | q in w.procs && j in w.procs[q].maps
      ensures w.procs[q].maps[j].frameCap in s2.frames
              && s2.frames[w.procs[q].maps[j].frameCap] == s1.frames[w.procs[q].maps[j].frameCap]
    {
      assert j in s1.procs[q].maps && s1.procs[q].maps[j] == w.procs[q].maps[j];
      assert AgreeOn(s1.frames, s2.frames, s1.procs[q].maps);
    }
  }

  lemma GrewTranslated(s1: World, o1: multiset<Slot>, s2: World, o2: multiset<Slot>, pid: Pid)
    requires Translated(s1) && Grew(s1, o1, s2, o2, pid)
    ensures Translated(s2)
  {
    hide Books, Translated, Isolated, Live, GrewBy;
  }

  lemma WroteTouched(w: World, o: multiset<Slot>, s1: World, o1: multiset<Slot>, s2: World, o2: multiset<Slot>,
                     pid: Pid, lo: nat, data: seq<byte>)
    requires Wrote(w, o, s1, o1, pid, lo, data) && Grew(s1, o1, s2, o2, pid)
    ensures Touched(w, s2, pid, lo, data)
  {
    hide Books, Translated, Isolated, StepOk, OthersTables, FramesWritten, StackAdded, Lost, Live, GrewBy, AgreeOn,
         ByteAt, SpaceOk, RefsOk, OutlinesKept;
    LiveParts(s1, o1, pid);
    LiveParts(s2, o2, pid);
    BoundaryAligned(s1.procs[pid]);
    BoundaryAligned(s2.procs[pid]);
    GrewParts(s1, s2, pid, s2.procs[pid].StackBoundary());
    GrewTouches(s1, s2, pid, s2.procs[pid].StackBoundary(), lo);
    forall addr: nat
      ensures ByteAt(s2.frames, s2.procs[pid], addr) ==
                if lo <= addr < lo + |data| then Some(data[addr - lo])
                else if s2.procs[pid].StackBoundary() <= addr < w.procs[pid].StackBoundary() then Some(0 as byte)
                else ByteAt(w.frames, w.procs[pid], addr)
    {
      if lo <= addr < lo + |data| {
        NotYetGrown(s1, o1, pid, addr, s2.procs[pid].StackBoundary());
      }
    }
  }

  lemma BoundaryAligned(mm: MmState)
    requires SpaceOk(mm)
    ensures mm.StackBoundary() % PGSIZE == 0 && mm.StackLow() <= mm.StackBoundary()
  {
    hide MapsOk, LazyOk, Apart;
  }

  /** A byte that is there does not lie where the stack is to grow. */
  lemma NotYetGrown(w: World, o: multiset<Slot>, pid: Pid, addr: nat, low: nat)
    requires Live(w, o, pid) && ByteAt(w.frames, w.procs[pid], addr).Some?
    requires w.procs[pid].StackLow() <= low
    ensures !(low <= addr < w.procs[pid].StackBoundary())
  {
    hide Live, Books, RefsOk, ByteAt, LazyOk, Apart;
    LiveParts(w, o, pid);
    var k := ByteHasMap(w.frames, w.procs[pid], addr);
  }

  /** One chunk, through a window onto the frame of a map. */
  lemma WroteThenWritten(w: World, o: multiset<Slot>, s: World, owed: multiset<Slot>, pid: Pid, k: nat,
                         lo: nat, data: seq<byte>, chunk: seq<byte>)
    requires Translated(w) && Wrote(w, o, s, owed, pid, lo, data)
    requires k in s.procs[pid].maps && s.procs[pid].maps[k].frameCap in s.frames
    requires k <= lo + |data| && lo + |data| - k + |chunk| <= s.procs[pid].maps[k].size
    ensures Wrote(w, o, Written(s, s.procs[pid].maps[k].frameCap, lo + |data| - k, chunk), owed, pid, lo, data + chunk)
  {
    hide Books, Translated, Touched, Isolated, StepOk, Live, MapsOk, SpaceOk, RefsOk, Unshared, StackAdded, Patched,
         FramesWritten, Lost, OthersTables, Backed, OutlinesKept;
    var slot, off := s.procs[pid].maps[k].frameCap, lo + |data| - k;
    OutlinesThenWritten(w, s, pid, slot, off, chunk);
    WrittenStep(s, owed, pid, slot, off, chunk);
    WrittenTouched(w, s, owed, pid, k, lo, data, chunk);
    LiveParts(s, owed, pid);
    SpaceMapsOk(s.procs[pid]);
    TranslatedParts(s, pid);
    FramesThenWritten(w, s, pid, k, lo, data, chunk);
    TablesThenWritten(w, s, pid, slot, off, chunk);
  }

  lemma TablesThenWritten(w: World, s: World, pid: Pid, slot: Slot, off: nat, chunk: seq<byte>)
    requires OthersTables(w, s, pid) && slot in s.frames
    ensures OthersTables(w, Written(s, slot, off, chunk), pid)
  {
    hide Patched;
  }

  lemma FramesThenWritten(w: World, s: World, pid: Pid, k: nat, lo: nat, data: seq<byte>, chunk: seq<byte>)
    requires FramesWritten(w, s, pid, lo, data) && StackAdded(w.procs, s.procs, pid) && MapsOk(s.procs[pid].maps)
    requires Backed(s.frames, s.procs[pid].maps) && k in s.procs[pid].maps
    requires k <= lo + |data| && lo + |data| - k + |chunk| <= s.procs[pid].maps[k].size
    ensures FramesWritten(w, Written(s, s.procs[pid].maps[k].frameCap, lo + |data| - k, chunk), pid, lo, data + chunk)
  {
    hide MapsOk, WrittenFrom, Patched;
    var slot, off := s.procs[pid].maps[k].frameCap, lo + |data| - k;
    var frames' := Written(s, slot, off, chunk).frames;
    forall j | j in w.procs[pid].maps
      ensures var cap := w.procs[pid].maps[j].frameCap; WrittenFrom(w.frames[cap], frames'[cap], j, lo, data + chunk)
    {
      var cap := w.procs[pid].maps[j].frameCap;
      assert WrittenFrom(w.frames[cap], s.frames[cap], j, lo, data);
      if j == k {
        ChunkFrom(w.frames[cap], s.frames[cap], k, lo, data, chunk);
      } else {
        FramesApart(s.procs[pid].maps, j, k);
        MapsApart(s.procs[pid].maps, j, k);
        SizeKept(w.frames[cap], s.frames[cap], j, lo, data);
        NoChunk(w.frames[cap], s.frames[cap], j, lo, data, chunk);
      }
    }
    forall q, j | q in w.procs && j in w.procs[q].maps && FrameUnheld(w.procs[pid].maps, w.procs[q].maps[j].frameCap)
      ensures w.procs[q].maps[j].frameCap != slot
    {
    }
  }

  lemma MapsApart(maps: Maps, j: nat, k: nat)
    requires MapsOk(maps) && j in maps && k in maps && j != k
    ensures maps[j].End() <= k || maps[k].End() <= j
    ensures maps[j].vaddr == j && maps[k].vaddr == k
  {
  }

  lemma SizeKept(pages: seq<Page>, pages1: seq<Page>, k: nat, lo: nat, data: seq<byte>)
    requires WrittenFrom(pages, pages1, k, lo, data)
    ensures |pages1| == |pages|
  {
  }

  lemma ChunkFrom(pages: seq<Page>, pages1: seq<Page>, k: nat, lo: nat, data: seq<byte>, chunk: seq<byte>)
    requires WrittenFrom(pages, pages1, k, lo, data) && k <= lo + |data|
    ensures WrittenFrom(pages, Patched(pages1, lo + |data| - k, chunk), k, lo, data + chunk)
  {
    hide Patched, FrameByte;
    var pages2 := Patched(pages1, lo + |data| - k, chunk);
    forall x: nat | x < |pages| * PGSIZE
      ensures FrameByte(pages2, x) ==
                if lo <= k + x < lo + |data + chunk| then (data + chunk)[k + x - lo] else FrameByte(pages, x)
    {
      PatchedByte(pages1, lo + |data| - k, chunk, x);
    }
  }

  lemma NoChunk(pages: seq<Page>, pages1: seq<Page>, j: nat, lo: nat, data: seq<byte>, chunk: seq<byte>)
    requires WrittenFrom(pages, pages1, j, lo, data)
    requires j + |pages| * PGSIZE <= lo + |data| || lo + |data| + |chunk| <= j
    ensures WrittenFrom(pages, pages1, j, lo, data + chunk)
  {
    hide FrameByte;
  }

  lemma WrittenTouched(w: World, s: World, owed: multiset<Slot>, pid: Pid, k: nat, lo: nat, data: seq<byte>,
                       chunk: seq<byte>)
    requires Live(s, owed, pid) && Translated(s) && Touched(w, s, pid, lo, data)
    requires k in s.procs[pid].maps && s.procs[pid].maps[k].frameCap in s.frames
    requires k <= lo + |data| && lo + |data| - k + |chunk| <= s.procs[pid].maps[k].size
    ensures Touched(w, Written(s, s.procs[pid].maps[k].frameCap, lo + |data| - k, chunk), pid, lo, data + chunk)
  {
    hide Live, Books, Translated, ByteAt, MapsOk, SpaceOk, RefsOk, Patched, Backed;
    var slot, off := s.procs[pid].maps[k].frameCap, lo + |data| - k;
    var s' := Written(s, slot, off, chunk);
    LiveParts(s, owed, pid);
    SpaceOfProc(s, owed, pid, pid);
    forall addr: nat
      ensures ByteAt(s'.frames, s'.procs[pid], addr) ==
                if lo <= addr < lo + |data + chunk| then Some((data + chunk)[addr - lo])
                else if s.procs[pid].StackBoundary() <= addr < w.procs[pid].StackBoundary() then Some(0 as byte)
                else ByteAt(w.frames, w.procs[pid], addr)
    {
      WrittenByte(s.frames, s.procs[pid], k, off, chunk, addr);
    }
  }

  // ----- Who else sees the write -----

  /** The address lies in a map over a frame that another process holds too. */
  predicate SharedAt(w: World, pid: Pid, addr: nat)
    requires pid in w.procs
  {
    exists k ::
      k in w.procs[pid].maps && w.procs[pid].maps[k].Covers(addr)
      && !Unshared(w.procs, pid, w.procs[pid].maps[k].frameCap)
  }

  /** Some byte of the data differs from what stands at a shared address. */
  predicate Leaks(w: World, pid: Pid, lo: nat, data: seq<byte>)
    requires pid in w.procs
  {
    exists i :: 0 <= i < |data| && SharedAt(w, pid, lo + i) && ByteAt(w.frames, w.procs[pid], lo + i) != Some(data[i])
  }

  /** A copy leaves the other processes alone exactly when it changes no byte of a shared frame;
      whether the map is marked copy-on-write makes no difference. */
  lemma WroteOthersIff(w: World, o: multiset<Slot>, s: World, owed: multiset<Slot>, pid: Pid, lo: nat, data: seq<byte>)
    requires Live(w, o, pid) && Translated(w) && Wrote(w, o, s, owed, pid, lo, data)
    ensures OthersKept(w, s, pid) <==> !Leaks(w, pid, lo, data)
    ensures StepOk(w, o, s, owed, pid) <==> !Leaks(w, pid, lo, data)
  {
    hide Live, Books, Translated, Isolated, Touched, StackAdded, Lost, FramesWritten, SpaceOk, RefsOk, Leaks,
         OthersKept, OthersTables, StepOk, OutlinesKept;
    LiveParts(w, o, pid);
    LiveParts(s, owed, pid);
    if OthersKept(w, s, pid) {
      KeptNoLeak(w, o, s, pid, lo, data);
      StepFrom(w, o, s, owed, pid);
    }
    if !Leaks(w, pid, lo, data) {
      NoLeakKept(w, o, s, pid, lo, data);
    }
    if StepOk(w, o, s, owed, pid) {
      StepOkParts(w, o, s, owed, pid);
    }
  }

  lemma KeptNoLeak(w: World, o: multiset<Slot>, s: World, pid: Pid, lo: nat, data: seq<byte>)
    requires Live(w, o, pid) && Translated(w) && FramesWritten(w, s, pid, lo, data) && OthersKept(w, s, pid)
    ensures !Leaks(w, pid, lo, data)
  {
    hide Live, Books, Translated, SpaceOk, RefsOk, MapsOk, ByteAt, FrameByte, FrameUnheld, OthersKept, AgreeOn,
         WrittenFrom, Unshared;
    LiveParts(w, o, pid);
    SpaceMapsOk(w.procs[pid]);
    TranslatedParts(w, pid);
    forall i | 0 <= i < |data| && SharedAt(w, pid, lo + i)
      ensures ByteAt(w.frames, w.procs[pid], lo + i) == Some(data[i])
    {
      var k :| k in w.procs[pid].maps && w.procs[pid].maps[k].Covers(lo + i)
          && !Unshared(w.procs, pid, w.procs[pid].maps[k].frameCap);
      var cap := w.procs[pid].maps[k].frameCap;
      EntryOf(w.procs[pid].maps, k);
      MapByte(w.frames, w.procs[pid], k, lo + i);
      SharedFrameKept(w, s, pid, cap);
      assert WrittenFrom(w.frames[cap], s.frames[cap], k, lo, data);
      WrittenAt(w.frames[cap], s.frames[cap], k, lo, data, i);
    }
  }

  lemma WrittenAt(pages: seq<Page>, pages': seq<Page>, k: nat, lo: nat, data: seq<byte>, i: nat)
    requires WrittenFrom(pages, pages', k, lo, data) && i < |data| && k <= lo + i && lo + i - k < |pages| * PGSIZE
    ensures lo + i - k < |pages'| * PGSIZE && FrameByte(pages', lo + i - k) == data[i]
  {
    hide FrameByte;
  }

  lemma SharedFrameKept(w: World, s: World, pid: Pid, slot: Slot)
    requires OthersKept(w, s, pid) && !Unshared(w.procs, pid, slot) && slot in w.frames && slot in s.frames
    ensures s.frames[slot] == w.frames[slot]
  {
    var q :| q in w.procs && q != pid && Holds(w.procs[q].maps, slot);
    assert AgreeOn(w.frames, s.frames, w.procs[q].maps);
  }

  lemma NoLeakKept(w: World, o: multiset<Slot>, s: World, pid: Pid, lo: nat, data: seq<byte>)
    requires Live(w, o, pid) && Translated(w) && FramesWritten(w, s, pid, lo, data) && OthersTables(w, s, pid)
    requires !Leaks(w, pid, lo, data)
    ensures OthersKept(w, s, pid)
  {
    hide Live, Books, Translated, SpaceOk, RefsOk, MapsOk, WrittenFrom, Leaks, FrameUnheld;
    LiveParts(w, o, pid);
    forall q | q in w.procs && q != pid
      ensures AgreeOn(w.frames, s.frames, w.procs[q].maps)
    {
      forall j | j in w.procs[q].maps
        ensures s.frames[w.procs[q].maps[j].frameCap] == w.frames[w.procs[q].maps[j].frameCap]
      {
        if !FrameUnheld(w.procs[pid].maps, w.procs[q].maps[j].frameCap) {
          var k := HolderKey(w.procs[pid].maps, w.procs[q].maps[j].frameCap);
          assert Holds(w.procs[q].maps, w.procs[q].maps[j].frameCap);
          SharedUnchanged(w, o, s, pid, k, lo, data);
        }
      }
    }
  }

  lemma HolderKey(maps: Maps, slot: Slot) returns (k: nat)
    requires !FrameUnheld(maps, slot)
    ensures k in maps && maps[k].frameCap == slot
  {
    k :| k in maps && maps[k].frameCap == slot;
  }

  lemma NoLeakAt(w: World, pid: Pid, k: nat, lo: nat, data: seq<byte>, i: nat)
    requires pid in w.procs && !Leaks(w, pid, lo, data) && i < |data|
    requires k in w.procs[pid].maps && w.procs[pid].maps[k].Covers(lo + i)
             && !Unshared(w.procs, pid, w.procs[pid].maps[k].frameCap)
    ensures ByteAt(w.frames, w.procs[pid], lo + i) == Some(data[i])
  {
    hide ByteAt, Unshared, MemoryMap.Covers;
    assert SharedAt(w, pid, lo + i);
  }

  lemma WrittenParts(pages: seq<Page>, pages': seq<Page>, k: nat, lo: nat, data: seq<byte>, x: nat)
    requires WrittenFrom(pages, pages', k, lo, data) && x < |pages| * PGSIZE
    ensures |pages'| == |pages|
    ensures FrameByte(pages', x) == if lo <= k + x < lo + |data| then data[k + x - lo] else FrameByte(pages, x)
  {
    hide FrameByte;
  }

  lemma SharedByte(w: World, o: multiset<Slot>, s: World, pid: Pid, k: nat, lo: nat, data: seq<byte>, x: nat)
    requires Live(w, o, pid) && !Leaks(w, pid, lo, data) && k in w.procs[pid].maps
             && !Unshared(w.procs, pid, w.procs[pid].maps[k].frameCap)
    requires var cap := w.procs[pid].maps[k].frameCap;
             && cap in w.frames && cap in s.frames && WrittenFrom(w.frames[cap], s.frames[cap], k, lo, data)
             && |w.frames[cap]| * PGSIZE == w.procs[pid].maps[k].size && |s.frames[cap]| == |w.frames[cap]|
             && x < |w.frames[cap]| * PGSIZE
    ensures FrameByte(s.frames[w.procs[pid].maps[k].frameCap], x) ==
              FrameByte(w.frames[w.procs[pid].maps[k].frameCap], x)
  {
    hide Live, Books, SpaceOk, RefsOk, MapsOk, ByteAt, FrameByte, Unshared, Leaks, WrittenFrom;
    LiveParts(w, o, pid);
    var cap := w.procs[pid].maps[k].frameCap;
    SpaceMapsOk(w.procs[pid]);
    EntryOf(w.procs[pid].maps, k);
    WrittenParts(w.frames[cap], s.frames[cap], k, lo, data, x);
    if lo <= k + x < lo + |data| {
      MapByte(w.frames, w.procs[pid], k, k + x);
      NoLeakAt(w, pid, k, lo, data, k + x - lo);
    }
  }

  lemma SharedUnchanged(w: World, o: multiset<Slot>, s: World, pid: Pid, k: nat, lo: nat, data: seq<byte>)
    requires Live(w, o, pid) && Translated(w) && FramesWritten(w, s, pid, lo, data) && !Leaks(w, pid, lo, data)
    requires k in w.procs[pid].maps && !Unshared(w.procs, pid, w.procs[pid].maps[k].frameCap)
    ensures w.procs[pid].maps[k].frameCap in w.frames && w.procs[pid].maps[k].frameCap in s.frames
    ensures s.frames[w.procs[pid].maps[k].frameCap] == w.frames[w.procs[pid].maps[k].frameCap]
  {
    hide Live, Books, Translated, SpaceOk, RefsOk, MapsOk, ByteAt, FrameByte, FrameUnheld, Unshared, Leaks;
    LiveParts(w, o, pid);
    TranslatedParts(w, pid);
    var cap := w.procs[pid].maps[k].frameCap;
    assert WrittenFrom(w.frames[cap], s.frames[cap], k, lo, data);
    forall x: nat | x < |w.frames[cap]| * PGSIZE
      ensures FrameByte(s.frames[cap], x) == FrameByte(w.frames[cap], x)
    {
      SharedByte(w, o, s, pid, k, lo, data, x);
    }
    SamePages(w.frames[cap], s.frames[cap]);
  }

  lemma SamePages(pages: seq<Page>, pages': seq<Page>)
    requires |pages'| == |pages| && forall x: nat | x < |pages| * PGSIZE :: FrameByte(pages', x) == FrameByte(pages, x)
    ensures pages' == pages
  {
    forall i | 0 <= i < |pages|
      ensures pages'[i] == pages[i]
    {
      forall j | 0 <= j < PGSIZE
        ensures pages'[i][j] == pages[i][j]
      {
        assert FrameByte(pages', i * PGSIZE + j) == FrameByte(pages, i * PGSIZE + j);
      }
    }
  }

  /** Writable maps that are not copy-on-write never leak. */
  lemma PrivateRangeKeeps(w: World, pid: Pid, lo: nat, data: seq<byte>)
    requires Isolated(w) && pid in w.procs
    requires forall k | k in w.procs[pid].maps && w.procs[pid].maps[k].vaddr < lo + |data|
             && lo < w.procs[pid].maps[k].End() ::
               w.procs[pid].maps[k].flags.w && !w.procs[pid].maps[k].cow
    ensures !Leaks(w, pid, lo, data)
  {
    hide Isolated, Unshared, ByteAt;
    if Leaks(w, pid, lo, data) {
      var i :| 0 <= i < |data| && SharedAt(w, pid, lo + i) && ByteAt(w.frames, w.procs[pid], lo + i) != Some(data[i]);
      var k :| k in w.procs[pid].maps && w.procs[pid].maps[k].Covers(lo + i)
          && !Unshared(w.procs, pid, w.procs[pid].maps[k].frameCap);
      PrivateWritable(w, pid, k);
    }
  }

  /** What was written is what a later read returns. */
  lemma WriteThenRead(w: World, s: World, owed: multiset<Slot>, s': World, owed': multiset<Slot>, pid: Pid, lo: nat,
                      data: seq<byte>, read: seq<byte>)
    requires Live(s, owed, pid) && Translated(s) && Touched(w, s, pid, lo, data)
    requires Grew(s, owed, s', owed', pid) && BytesAt(s', pid, lo, read) && |read| == |data|
    ensures read == data
  {
    hide Live, Books, Translated, ByteAt, StepOk, StackOnly, GrewBy;
    assert BytesAt(s, pid, lo, data) by {
      forall i | 0 <= i < |data|
        ensures ByteAt(s.frames, s.procs[pid], lo + i) == Some(data[i])
      {
        assert (lo + i) - lo == i;
      }
    }
    GrewTranslated(s, owed, s', owed', pid);
    GrewKeepsBytes(s, owed, s', owed', pid, lo, data);
    forall i | 0 <= i < |data|
      ensures read[i] == data[i]
    {
      assert ByteAt(s'.frames, s'.procs[pid], lo + i) == Some(read[i]);
      assert ByteAt(s'.frames, s'.procs[pid], lo + i) == Some(data[i]);
    }
  }

  const WRITE := Perms(false, true, false)

  lemma NoBytes(w: World, pid: Pid, addr: nat)
    requires pid in w.procs
    ensures BytesAt(w, pid, addr, [])
  {
  }

  lemma BytesPrefix(w: World, pid: Pid, addr: nat, data: seq<byte>, n: nat)
    requires BytesAt(w, pid, addr, data) && n <= |data|
    ensures BytesAt(w, pid, addr, data[..n])
  {
    hide ByteAt;
  }
}
