/** The bytes of a process, and what writing through a frame does to them. */
module UserBytes {
  import opened Types
  import opened AddressSpace
  import opened Machine
  import opened Views
  import opened World
  import opened DemandFaults
  import opened Splitting
  import opened Reflag

  /** The byte a process sees at an address. */
  function ByteAt(frames: Frames, mm: MmState, addr: nat): Option<byte> {
    match PageAt(frames, mm, AlignDown(addr))
    case Some(Resident(data, _, _, _, _)) => Some(data[addr % PGSIZE])
    case _ => None
  }

  function FrameByte(pages: seq<Page>, off: nat): byte
    requires off < |pages| * PGSIZE
  {
    pages[off / PGSIZE][off % PGSIZE]
  }

  function FrameBytes(pages: seq<Page>, off: nat, len: nat): (data: seq<byte>)
    requires off + len <= |pages| * PGSIZE
    ensures |data| == len && forall i | 0 <= i < len :: data[i] == FrameByte(pages, off + i)
  {
    seq(len, i requires 0 <= i < len => FrameByte(pages, off + i))
  }

  function PatchedPage(page: Page, base: nat, off: nat, data: seq<byte>): (p: Page)
    ensures forall j | 0 <= j < PGSIZE :: p[j] ==
              if off <= base + j < off + |data| then data[base + j - off] else page[j]
  {
    seq(PGSIZE, j requires 0 <= j < PGSIZE => if off <= base + j < off + |data| then data[base + j - off] else page[j])
  }

  /** The frame with `data` written at byte `off`. */
  function Patched(pages: seq<Page>, off: nat, data: seq<byte>): (r: seq<Page>)
    ensures |r| == |pages|
  {
    seq<Page>(|pages|, i requires 0 <= i < |pages| => PatchedPage(pages[i], i * PGSIZE, off, data))
  }

  lemma PatchedByte(pages: seq<Page>, off: nat, data: seq<byte>, x: nat)
    requires x < |pages| * PGSIZE
    ensures FrameByte(Patched(pages, off, data), x) ==
              if off <= x < off + |data| then data[x - off] else FrameByte(pages, x)
  {
    assert x == x / PGSIZE * PGSIZE + x % PGSIZE;
  }

  /** A byte under a resident map is a byte of its frame. */
  lemma MapByte(frames: Frames, mm: MmState, k: nat, addr: nat)
    requires MapsOk(mm.maps) && k in mm.maps && mm.maps[k].Covers(addr)
    requires mm.maps[k].frameCap in frames && |frames[mm.maps[k].frameCap]| * PGSIZE == mm.maps[k].size
    ensures addr - k < |frames[mm.maps[k].frameCap]| * PGSIZE
    ensures ByteAt(frames, mm, addr) == Some(FrameByte(frames[mm.maps[k].frameCap], addr - k))
  {
    hide MapsOk, Lookup;
    MapParts(mm.maps, k);
    var page := AlignDown(addr);
    SamePageOffset(k, |frames[mm.maps[k].frameCap]|, addr);
    LookupExact(mm.maps, page);
    assert mm.maps[k].Covers(page);
  }

  lemma SamePageOffset(k: nat, n: nat, addr: nat)
    requires k % PGSIZE == 0 && k <= addr < k + n * PGSIZE
    ensures k <= AlignDown(addr) < k + n * PGSIZE
    ensures (AlignDown(addr) - k) / PGSIZE == (addr - k) / PGSIZE && (addr - k) / PGSIZE < n
            && addr % PGSIZE == (addr - k) % PGSIZE
  {
  }

  /** Only resident maps have bytes. */
  lemma ByteHasMap(frames: Frames, mm: MmState, addr: nat) returns (k: nat)
    requires MapsOk(mm.maps) && ByteAt(frames, mm, addr).Some?
    ensures k in mm.maps && mm.maps[k].Covers(addr)
  {
    hide MapsOk, Lookup;
    var page := AlignDown(addr);
    LookupExact(mm.maps, page);
    k := Lookup(mm.maps, page).value.vaddr;
    EntryOf(mm.maps, k);
    PageReaches(k, mm.maps[k].size, addr);
  }

  lemma PageReaches(k: nat, size: nat, addr: nat)
    requires k % PGSIZE == 0 && size % PGSIZE == 0 && k <= AlignDown(addr) < k + size
    ensures k <= addr < k + size
  {
  }

  // ----- Writing through the frame of a map -----

  ghost function Written(w: World, slot: Slot, off: nat, data: seq<byte>): World
    requires slot in w.frames
  {
    w.(frames := w.frames[slot := Patched(w.frames[slot], off, data)])
  }

  lemma WrittenByte(frames: Frames, mm: MmState, k: nat, off: nat, data: seq<byte>, addr: nat)
    requires MapsOk(mm.maps) && Backed(frames, mm.maps) && k in mm.maps && off + |data| <= mm.maps[k].size
    requires mm.maps[k].frameCap in frames
    ensures var frames' := frames[mm.maps[k].frameCap := Patched(frames[mm.maps[k].frameCap], off, data)];
            ByteAt(frames', mm, addr) ==
              if k + off <= addr < k + off + |data| then Some(data[addr - k - off]) else ByteAt(frames, mm, addr)
  {
    hide MapsOk, ByteAt, FrameByte, Patched;
    var slot := mm.maps[k].frameCap;
    var frames' := frames[slot := Patched(frames[slot], off, data)];
    EntryOf(mm.maps, k);
    if mm.maps[k].Covers(addr) {
      MapByte(frames, mm, k, addr);
      MapByte(frames', mm, k, addr);
      PatchedByte(frames[slot], off, data, addr - k);
    } else {
      ElsewhereByte(frames, mm, k, Patched(frames[slot], off, data), addr);
    }
  }

  lemma ElsewhereByte(frames: Frames, mm: MmState, k: nat, pages: seq<Page>, addr: nat)
    requires MapsOk(mm.maps) && Backed(frames, mm.maps) && k in mm.maps && !mm.maps[k].Covers(addr)
    ensures ByteAt(frames[mm.maps[k].frameCap := pages], mm, addr) == ByteAt(frames, mm, addr)
  {
    hide MapsOk, Lookup;
    var page := AlignDown(addr);
    LookupExact(mm.maps, page);
    if Lookup(mm.maps, page).Some? {
      var j := Lookup(mm.maps, page).value.vaddr;
      EntryOf(mm.maps, j);
      PageReaches(j, mm.maps[j].size, addr);
      FramesApart(mm.maps, j, k);
    }
  }

  lemma FramesApart(maps: Maps, i: nat, j: nat)
    requires MapsOk(maps) && i in maps && j in maps
    ensures i != j ==> maps[i].frameCap != maps[j].frameCap
  {
  }

  /** Writing keeps the books and the translation; isolation too. It leaves the other processes
      alone when none of them holds the frame. */
  lemma WrittenStep(w: World, o: multiset<Slot>, pid: Pid, slot: Slot, off: nat, data: seq<byte>)
    requires Live(w, o, pid) && slot in w.frames
    ensures Live(Written(w, slot, off, data), o, pid)
    ensures Translated(w) ==> Translated(Written(w, slot, off, data))
    ensures Isolated(w) ==> Isolated(Written(w, slot, off, data))
    ensures Unshared(w.procs, pid, slot) ==> StepOk(w, o, Written(w, slot, off, data), o, pid)
  {
    hide Live, Books, SpaceOk, RefsOk, Translated, Isolated, StepOk, Unshared, Patched, OthersKept, Lost;
    var w' := Written(w, slot, off, data);
    LiveParts(w, o, pid);
    SetContents(w.procs, w.frames, w.refs, o, slot, w'.frames[slot]);
    WrittenBooks(w, o, w', pid);
    WrittenKeeps(w, w', slot);
    if Unshared(w.procs, pid, slot) {
      WrittenOthers(w, o, pid, slot, w'.frames[slot]);
      LostPlus(o, 0);
      LiveBooks(w', o, pid);
      StepFrom(w, o, w', o, pid);
    }
  }

  lemma LiveBooks(w: World, o: multiset<Slot>, pid: Pid)
    requires Live(w, o, pid)
    ensures Books(w, o)
  {
  }

  lemma WrittenBooks(w: World, o: multiset<Slot>, w': World, pid: Pid)
    requires Live(w, o, pid) && w' == w.(frames := w'.frames) && RefsOk(w'.procs, w'.frames, w'.refs, o)
    ensures Live(w', o, pid)
  {
    hide SpaceOk, RefsOk;
  }

  lemma WrittenKeeps(w: World, w': World, slot: Slot)
    requires slot in w.frames && slot in w'.frames && |w'.frames[slot]| == |w.frames[slot]|
    requires w' == w.(frames := w.frames[slot := w'.frames[slot]])
    ensures Translated(w) ==> Translated(w')
    ensures Isolated(w) ==> Isolated(w')
  {
    hide TableOk, WritesOk, Sharing;
  }

  lemma WrittenOthers(w: World, o: multiset<Slot>, pid: Pid, slot: Slot, pages: seq<Page>)
    requires Live(w, o, pid) && slot in w.frames && Unshared(w.procs, pid, slot)
    ensures OthersKept(w, w.(frames := w.frames[slot := pages]), pid)
  {
    hide Live, Books, SpaceOk, RefsOk, AgreeOn, Unshared, FramesExist;
    LiveParts(w, o, pid);
    BooksParts(w, o, pid);
    forall q | q in w.procs && q != pid
      ensures AgreeOn(w.frames, w.frames[slot := pages], w.procs[q].maps)
    {
      FramesOf(w, o, q);
      NotHeldBy(w.procs, pid, slot, q);
      KeptElsewhere(w.frames, slot, pages, w.procs[q].maps);
    }
  }

  lemma NotHeldBy(procs: Procs, pid: Pid, slot: Slot, q: Pid)
    requires Unshared(procs, pid, slot) && q in procs && q != pid
    ensures FrameUnheld(procs[q].maps, slot)
  {
    forall k | k in procs[q].maps
      ensures procs[q].maps[k].frameCap != slot
    {
      assert !Holds(procs[q].maps, slot);
    }
  }

  lemma KeptElsewhere(frames: Frames, slot: Slot, pages: seq<Page>, maps: Maps)
    requires FrameUnheld(maps, slot) && forall k | k in maps :: maps[k].frameCap in frames
    ensures AgreeOn(frames, frames[slot := pages], maps)
  {
  }

  /** A process that shares the frame sees the bytes written: copy-on-write is not consulted. */
  lemma WriteSeenBySharer(w: World, o: multiset<Slot>, pid: Pid, q: Pid, j: nat, off: nat, data: seq<byte>, i: nat)
    requires Live(w, o, pid) && Translated(w) && q in w.procs && j in w.procs[q].maps
    requires off + |data| <= w.procs[q].maps[j].size && i < |data|
    requires w.procs[q].maps[j].frameCap in w.frames
    ensures ByteAt(Written(w, w.procs[q].maps[j].frameCap, off, data).frames, w.procs[q], j + off + i) == Some(data[i])
  {
    hide MapsOk, SpaceOk, RefsOk, ByteAt;
    SpaceOfProc(w, o, pid, q);
    WrittenByte(w.frames, w.procs[q], j, off, data, j + off + i);
  }

  lemma SpaceOfProc(w: World, o: multiset<Slot>, pid: Pid, q: Pid)
    requires Live(w, o, pid) && Translated(w) && q in w.procs
    ensures MapsOk(w.procs[q].maps) && Backed(w.frames, w.procs[q].maps)
  {
  }

  // ----- What a copy leaves behind -----

  /** Bytes `[lo, lo + |data|)` are `data`; stack pages grown on the way are zero elsewhere; every
      other byte is what it was. */
  ghost predicate Touched(w: World, w': World, pid: Pid, lo: nat, data: seq<byte>) {
    && pid in w.procs && pid in w'.procs
    && w'.procs[pid].StackBoundary() <= w.procs[pid].StackBoundary()
    && forall addr: nat ::
         ByteAt(w'.frames, w'.procs[pid], addr) ==
           if lo <= addr < lo + |data| then Some(data[addr - lo])
           else if w'.procs[pid].StackBoundary() <= addr < w.procs[pid].StackBoundary() then Some(0)
           else ByteAt(w.frames, w.procs[pid], addr)
  }

  lemma TouchedNothing(w: World, pid: Pid, lo: nat)
    requires pid in w.procs
    ensures Touched(w, w, pid, lo, [])
  {
    hide ByteAt;
  }

  lemma GrewTouches(w: World, w': World, pid: Pid, low: nat, lo: nat)
    requires GrewBy(w, w', pid, low) && low % PGSIZE == 0 && w.procs[pid].StackBoundary() % PGSIZE == 0
    ensures Touched(w, w', pid, lo, [])
  {
    hide PageAt;
    forall addr: nat
      ensures ByteAt(w'.frames, w'.procs[pid], addr) ==
                if low <= addr < w.procs[pid].StackBoundary() then Some(0 as byte)
                else ByteAt(w.frames, w.procs[pid], addr)
    {
      DownBetween(low, w.procs[pid].StackBoundary(), addr);
      assert AlignDown(addr) % PGSIZE == 0;
    }
  }

  lemma DownBetween(low: nat, high: nat, addr: nat)
    requires low % PGSIZE == 0 && high % PGSIZE == 0
    ensures low <= addr < high <==> low <= AlignDown(addr) < high
    ensures AlignDown(addr) % PGSIZE == 0
  {
  }
}
