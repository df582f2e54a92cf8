/** Loads and stores of a running process through its page table. */
module UserAccess {
  import opened Types
  import opened AddressSpace
  import opened Machine
  import opened Views
  import opened World
  import opened Splitting
  import opened Manager
  import opened Reflag
  import opened EagerCopy
  import opened UserBytes

  datatype Cause = LoadFault | StoreFault | FetchFault

  /** The hardware reads a byte, or faults when there is no readable translation. */
  method Load(mgr: ApeManager, pid: Pid, addr: nat) returns (r: Option<byte>)
    requires Live(mgr.s, mgr.owed, pid) && Translated(mgr.s)
    ensures r.Some? <==> AlignDown(addr) in mgr.s.hw[pid] && mgr.s.hw[pid][AlignDown(addr)].perms.r
    ensures r.Some? ==>
              var v := PageAt(mgr.s.frames, mgr.s.procs[pid], AlignDown(addr));
              v.Some? && v.value.Resident? && r.value == v.value.data[addr % PGSIZE]
  {
    hide PageAt, SpaceOk, RefsOk, Books;
    var page := AlignDown(addr);
    if page !in mgr.s.hw[pid] || !mgr.s.hw[pid][page].perms.r {
      return None;
    }
    var pte := mgr.s.hw[pid][page];
    TranslationShows(mgr.s, mgr.owed, pid, page);
    r := Some(mgr.s.frames[pte.slot][pte.idx][addr % PGSIZE]);
  }

  /** A translation leads to the very page the tables show. */
  lemma TranslationShows(w: World, o: multiset<Slot>, pid: Pid, a: nat)
    requires Live(w, o, pid) && Translated(w) && a in w.hw[pid]
    ensures var pte := w.hw[pid][a];
            && pte.slot in w.frames && pte.idx < |w.frames[pte.slot]| && a % PGSIZE == 0
            && PageAt(w.frames, w.procs[pid], a).Some? && PageAt(w.frames, w.procs[pid], a).value.Resident?
            && PageAt(w.frames, w.procs[pid], a).value.data == w.frames[pte.slot][pte.idx]
  {
    hide SpaceOk, RefsOk, Lookup, MapsOk, Books, Live;
    LiveParts(w, o, pid);
    SpaceMapsOk(w.procs[pid]);
    TranslatedParts(w, pid);
    LookupExact(w.procs[pid].maps, a);
    var pte := w.hw[pid][a];
    assert PteOk(pte, a, w.procs[pid].maps);
    var k := a - pte.idx * PGSIZE;
    MapParts(w.procs[pid].maps, k);
    PageIndex(k, pte.idx, a, w.procs[pid].maps[k].size);
  }

  lemma PageIndex(k: nat, idx: nat, a: nat, size: nat)
    requires a == k + idx * PGSIZE && a < k + size
    ensures (a - k) / PGSIZE == idx && (forall n: nat :: n * PGSIZE == size ==> idx < n)
  {
  }

  ghost function Stored(w: World, slot: Slot, idx: nat, off: nat, b: byte): World
    requires slot in w.frames && idx < |w.frames[slot]| && off < PGSIZE
  {
    w.(frames := w.frames[slot := w.frames[slot][idx := w.frames[slot][idx][off := b]]])
  }

  /** The hardware writes a byte, or faults when there is no writable translation. */
  method Store(mgr: ApeManager, pid: Pid, addr: nat, b: byte) returns (ok: bool)
    requires Live(mgr.s, mgr.owed, pid) && Translated(mgr.s) && Isolated(mgr.s)
    modifies mgr`s
    ensures StepOk(old(mgr.s), mgr.owed, mgr.s, mgr.owed, pid)
    ensures ok <==> AlignDown(addr) in old(mgr.s).hw[pid] && old(mgr.s).hw[pid][AlignDown(addr)].perms.w
    ensures !ok ==> mgr.s == old(mgr.s)
    ensures ok ==> Refines(old(mgr.s), mgr.s, [Write(pid, AlignDown(addr), addr % PGSIZE, b)])
  {
    hide PageAt, SpaceOk, RefsOk, Books, StepOk, Refines, Translated, Isolated;
    ghost var w := mgr.s;
    var page := AlignDown(addr);
    StepOkReflexive(w, mgr.owed, pid);
    if page !in mgr.s.hw[pid] || !mgr.s.hw[pid][page].perms.w {
      return false;
    }
    TranslationShows(w, mgr.owed, pid, page);
    StoreStep(w, mgr.owed, pid, page, addr % PGSIZE, b);
    var pte := mgr.s.hw[pid][page];
    var pages := mgr.s.frames[pte.slot];
    mgr.s := mgr.s.(frames := mgr.s.frames[pte.slot := pages[pte.idx := pages[pte.idx][addr % PGSIZE := b]]]);
    ok := true;
  }

  lemma StoreStep(w: World, o: multiset<Slot>, pid: Pid, a: nat, off: nat, b: byte)
    requires Live(w, o, pid) && Translated(w) && Isolated(w) && a in w.hw[pid] && w.hw[pid][a].perms.w && off < PGSIZE
    requires w.hw[pid][a].slot in w.frames && w.hw[pid][a].idx < |w.frames[w.hw[pid][a].slot]|
    ensures var w' := Stored(w, w.hw[pid][a].slot, w.hw[pid][a].idx, off, b);
            StepOk(w, o, w', o, pid) && Refines(w, w', [Write(pid, a, off, b)])
  {
    hide PageAt, SpaceOk, RefsOk, Books, StepOk, Refines, Translated, Isolated, OthersKept, MemoryOf, Lost, Unshared;
    var pte := w.hw[pid][a];
    var w' := Stored(w, pte.slot, pte.idx, off, b);
    LiveParts(w, o, pid);
    BooksParts(w, o, pid);
    IsolatedIsExclusive(w);
    assert Unshared(w.procs, pid, pte.slot);
    WrittenOthers(w, o, pid, pte.slot, w'.frames[pte.slot]);
    SetContents(w.procs, w.frames, w.refs, o, pte.slot, w'.frames[pte.slot]);
    BooksByPid(w, o, w', o, pid);
    WrittenKeeps(w, w', pte.slot);
    LostPlus(o, 0);
    StepFrom(w, o, w', o, pid);
    StoreView(w, o, pid, a, off, b);
    StepRefines(w, o, w', o, pid, Write(pid, a, off, b));
  }

  lemma StoreView(w: World, o: multiset<Slot>, pid: Pid, a: nat, off: nat, b: byte)
    requires Live(w, o, pid) && Translated(w) && a in w.hw[pid] && off < PGSIZE
    requires w.hw[pid][a].slot in w.frames && w.hw[pid][a].idx < |w.frames[w.hw[pid][a].slot]|
    ensures var w' := Stored(w, w.hw[pid][a].slot, w.hw[pid][a].idx, off, b);
            MemoryOf(w'.frames, w'.procs[pid]) == Change(MemoryOf(w.frames, w.procs[pid]), Write(pid, a, off, b))
  {
    hide PageAt, SpaceOk, RefsOk, Books, Translated;
    var w' := Stored(w, w.hw[pid][a].slot, w.hw[pid][a].idx, off, b);
    TranslationShows(w, o, pid, a);
    forall c: nat | c % PGSIZE == 0
      ensures PageAt(w'.frames, w.procs[pid], c) ==
                if c == a then Some(WriteByte(PageAt(w.frames, w.procs[pid], a).value, off, b))
                else PageAt(w.frames, w.procs[pid], c)
    {
      StorePage(w, o, pid, a, off, b, c);
    }
  }

  /** The byte lands in one page: no other page of the process lies over that page of that frame. */
  lemma StorePage(w: World, o: multiset<Slot>, pid: Pid, a: nat, off: nat, b: byte, c: nat)
    requires Live(w, o, pid) && Translated(w) && a in w.hw[pid] && off < PGSIZE && c % PGSIZE == 0
    requires w.hw[pid][a].slot in w.frames && w.hw[pid][a].idx < |w.frames[w.hw[pid][a].slot]|
    ensures var w' := Stored(w, w.hw[pid][a].slot, w.hw[pid][a].idx, off, b);
            PageAt(w'.frames, w.procs[pid], c) ==
              if c == a && PageAt(w.frames, w.procs[pid], a).Some?
              then Some(WriteByte(PageAt(w.frames, w.procs[pid], a).value, off, b))
              else PageAt(w.frames, w.procs[pid], c)
  {
    hide SpaceOk, RefsOk, Lookup, MapsOk, Books;
    LiveParts(w, o, pid);
    SpaceMapsOk(w.procs[pid]);
    TranslatedParts(w, pid);
    var maps := w.procs[pid].maps;
    var pte := w.hw[pid][a];
    assert PteOk(pte, a, maps);
    var k := a - pte.idx * PGSIZE;
    MapParts(maps, k);
    LookupExact(maps, c);
    LookupExact(maps, a);
    assert maps[k].Covers(a);
    PageIndex(k, pte.idx, a, maps[k].size);
    if Lookup(maps, c).Some? {
      StorePageOf(w.frames, maps, k, pte.idx, off, b, Lookup(maps, c).value.vaddr, c);
    }
  }

  lemma StorePageOf(frames: Frames, maps: Maps, k: nat, idx: nat, off: nat, b: byte, j: nat, c: nat)
    requires MapsOk(maps) && k in maps && j in maps && maps[j].Covers(c) && c % PGSIZE == 0 && off < PGSIZE
    requires maps[k].frameCap in frames && idx < |frames[maps[k].frameCap]|
    ensures var page := frames[maps[k].frameCap][idx];
            var frames' := frames[maps[k].frameCap := frames[maps[k].frameCap][idx := page[off := b]]];
            PageOf(frames', maps[j], c) ==
              if c == k + idx * PGSIZE && j == k then WriteByte(PageOf(frames, maps[j], c), off, b)
              else PageOf(frames, maps[j], c)
  {
    MapParts(maps, j);
    WholePage(j, c);
    assert j != k ==> maps[j].frameCap != maps[k].frameCap;
  }

  lemma WholePage(j: nat, c: nat)
    requires c % PGSIZE == 0 && j <= c
    ensures j % PGSIZE == 0 ==> c == j + (c - j) / PGSIZE * PGSIZE
  {
  }
}
