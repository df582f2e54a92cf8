/** Adding a map over a frame nobody else holds: the effect of every demand fault, anonymous
    mmap, stack growth, image page and file span. */
module FreshMaps {
  import opened Types
  import opened AddressSpace
  import opened Machine
  import opened Views
  import opened World

  ghost function WithFreshMap(w: World, pid: Pid, m: MemoryMap, pages: seq<Page>): World
    requires pid in w.procs && pid in w.hw
  {
    w.(procs := WithMaps(w.procs, pid, w.procs[pid].maps[m.vaddr := m]),
       frames := w.frames[m.frameCap := pages],
       hw := w.hw[pid := Mapped(w.hw[pid], m.frameCap, m.vaddr, m.flags, |pages|)])
  }

  ghost predicate CanAddFresh(w: World, pid: Pid, m: MemoryMap, pages: seq<Page>) {
    && w.hw.Keys == w.procs.Keys
    && pid in w.procs && pid in w.running
    && FramesExist(w.procs, w.frames)
    && MapsOk(w.procs[pid].maps)
    && MapShape(m) && m.frameCap !in w.frames && !m.cow
    && |pages| * PGSIZE == m.size
    && FreeOfMaps(w.procs[pid].maps, m.vaddr, m.End())
  }

  lemma CanAddParts(w: World, pid: Pid, m: MemoryMap, pages: seq<Page>)
    requires CanAddFresh(w, pid, m, pages)
    ensures MapShape(m) && FreeOfMaps(w.procs[pid].maps, m.vaddr, m.End())
  {
  }

  lemma FreshMapOthers(w: World, pid: Pid, m: MemoryMap, pages: seq<Page>)
    requires CanAddFresh(w, pid, m, pages)
    ensures OthersKept(w, WithFreshMap(w, pid, m, pages), pid)
    ensures FrameUnheld(w.procs[pid].maps, m.frameCap)
    ensures AgreeOn(w.frames, w.frames[m.frameCap := pages], w.procs[pid].maps)
  {
  }

  lemma FreshMapTable(pt: PageTable, maps: Maps, m: MemoryMap, n: nat)
    requires TableOk(pt, maps)
    requires MapsOk(maps) && MapShape(m) && n * PGSIZE == m.size
    requires FreeOfMaps(maps, m.vaddr, m.End())
    ensures TableOk(Mapped(pt, m.frameCap, m.vaddr, m.flags, n), maps[m.vaddr := m])
  {
    var pt' := Mapped(pt, m.frameCap, m.vaddr, m.flags, n);
    assert m.vaddr !in maps;
    forall a | a in pt'
      ensures PteOk(pt'[a], a, maps[m.vaddr := m])
    {
      if a in PageSet(m.vaddr, n) {
        FreshPte(maps, m, n, a);
      } else {
        KeptPte(pt[a], a, maps, m);
      }
    }
  }

  lemma FreshPte(maps: Maps, m: MemoryMap, n: nat, a: nat)
    requires MapShape(m) && n * PGSIZE == m.size && IsPageOf(a, m.vaddr, n)
    ensures PteOk(Pte(m.frameCap, (a - m.vaddr) / PGSIZE, m.flags), a, maps[m.vaddr := m])
  {
    assert (a - m.vaddr) / PGSIZE * PGSIZE == a - m.vaddr;
  }

  lemma KeptPte(pte: Pte, a: nat, maps: Maps, m: MemoryMap)
    requires PteOk(pte, a, maps) && m.vaddr !in maps
    ensures PteOk(pte, a, maps[m.vaddr := m])
  {
  }

  lemma FreshMapTranslated(w: World, pid: Pid, m: MemoryMap, pages: seq<Page>)
    requires CanAddFresh(w, pid, m, pages)
    ensures Translated(w) ==> Translated(WithFreshMap(w, pid, m, pages))
  {
    if Translated(w) {
      FreshMapOthers(w, pid, m, pages);
      FreshMapTable(w.hw[pid], w.procs[pid].maps, m, |pages|);
      TranslatedByPid(w, WithFreshMap(w, pid, m, pages), pid);
    }
  }

  lemma FreshMapWrites(pt: PageTable, maps: Maps, m: MemoryMap, n: nat)
    requires WritesOk(pt, maps) && m.vaddr !in maps && !m.cow
    ensures WritesOk(Mapped(pt, m.frameCap, m.vaddr, m.flags, n), maps[m.vaddr := m])
  {
    var pt' := Mapped(pt, m.frameCap, m.vaddr, m.flags, n);
    forall a | a in pt' && pt'[a].perms.w
      ensures pt'[a].idx * PGSIZE <= a
      ensures var k := a - pt'[a].idx * PGSIZE;
              k in maps[m.vaddr := m] && maps[m.vaddr := m][k].flags.w && !maps[m.vaddr := m][k].cow
    {
      if a in PageSet(m.vaddr, n) {
        assert IsPageOf(a, m.vaddr, n);
      } else {
        assert a in pt && pt[a].perms.w;
      }
    }
  }

  lemma FreshMapIsolated(w: World, pid: Pid, m: MemoryMap, pages: seq<Page>)
    requires CanAddFresh(w, pid, m, pages)
    ensures Isolated(w) ==> Isolated(WithFreshMap(w, pid, m, pages))
  {
    if !Isolated(w) {
      return;
    }
    FreshMapOthers(w, pid, m, pages);
    var maps := w.procs[pid].maps;
    assert m.vaddr !in maps;
    FreshMapWrites(w.hw[pid], maps, m, |pages|);
    forall q | q in w.procs && q != pid
      ensures Guarded(maps[m.vaddr := m], w.procs[q].maps) && Guarded(w.procs[q].maps, maps[m.vaddr := m])
    {
      assert Guarded(maps, w.procs[q].maps) && Guarded(w.procs[q].maps, maps);
    }
    IsolatedByPid(w, WithFreshMap(w, pid, m, pages), pid);
  }

  lemma FreshMapView(w: World, pid: Pid, m: MemoryMap, pages: seq<Page>, a: nat)
    requires CanAddFresh(w, pid, m, pages) && a % PGSIZE == 0
    ensures PageAt(w.frames[m.frameCap := pages], w.procs[pid].(maps := w.procs[pid].maps[m.vaddr := m]), a) ==
              if m.Covers(a)
              then Some(Resident(pages[(a - m.vaddr) / PGSIZE], m.flags, m.memType, m.fd,
                                 SatAdd(m.offset, a - m.vaddr)))
              else PageAt(w.frames, w.procs[pid], a)
  {
    FreshMapOthers(w, pid, m, pages);
    var frames' := w.frames[m.frameCap := pages];
    PageAtAddMap(frames', w.procs[pid], m, a);
    if a % PGSIZE == 0 {
      SameFramesSameView(w.frames, frames', w.procs[pid]);
    }
  }

  /** The whole step: `mm` is the space after it, with the new map in its resident table. */
  lemma FreshMapStep(w: World, owed: multiset<Slot>, pid: Pid, m: MemoryMap, pages: seq<Page>, mm: MmState)
    requires Books(w, owed) && CanAddFresh(w, pid, m, pages)
    requires var w1 := WithFreshMap(w, pid, m, pages); RefsOk(w1.procs, w1.frames, w1.refs, owed)
    requires mm.maps == w.procs[pid].maps[m.vaddr := m] && SpaceOk(mm)
    ensures StepOk(w, owed, WithSpace(WithFreshMap(w, pid, m, pages), pid, mm), owed, pid)
  {
    var w1 := WithFreshMap(w, pid, m, pages);
    var w2 := WithSpace(w1, pid, mm);
    assert pid in w.procs && w.hw.Keys == w.procs.Keys && Lost(owed, owed);
    hide Lost, RefsOk, SpaceOk, Translated, Isolated, CanAddFresh, OthersKept, Books, StepOk, Mapped;
    FreshMapOthers(w, pid, m, pages);
    OthersKeptSpace(w, w1, pid, mm);
    FreshMapTranslated(w, pid, m, pages);
    FreshMapIsolated(w, pid, m, pages);
    SameMapsKeeps(w1, pid, mm);
    RefsWithSpace(w1, owed, pid, mm);
    BooksByPid(w, owed, w2, owed, pid);
    StepFrom(w, owed, w2, owed, pid);
  }

  /** The page of a new map, whatever became of the lazy entries it covers. */
  lemma FreshMapSpaceView(w: World, pid: Pid, m: MemoryMap, pages: seq<Page>, mm: MmState, a: nat)
    requires CanAddFresh(w, pid, m, pages) && a % PGSIZE == 0
    requires mm.maps == w.procs[pid].maps[m.vaddr := m]
    requires !m.Covers(a) ==> (a in mm.lazy <==> a in w.procs[pid].lazy)
    requires !m.Covers(a) && a in mm.lazy ==> mm.lazy[a] == w.procs[pid].lazy[a]
    ensures PageAt(w.frames[m.frameCap := pages], mm, a) ==
              if m.Covers(a)
              then Some(Resident(pages[(a - m.vaddr) / PGSIZE], m.flags, m.memType, m.fd,
                                 SatAdd(m.offset, a - m.vaddr)))
              else PageAt(w.frames, w.procs[pid], a)
  {
    FreshMapView(w, pid, m, pages, a);
  }

  /** An access to the page now goes through, with these permissions. */
  ghost predicate Reaches(w: World, pid: Pid, page: nat, perms: Perms) {
    pid in w.hw && page in w.hw[pid] && w.hw[pid][page].perms == perms
  }

  lemma FreshReaches(w: World, pid: Pid, m: MemoryMap, pages: seq<Page>, page: nat, mm: MmState)
    requires pid in w.procs && pid in w.hw && IsPageOf(page, m.vaddr, |pages|)
    ensures Reaches(WithFreshMap(w, pid, m, pages), pid, page, m.flags)
    ensures Reaches(WithSpace(WithFreshMap(w, pid, m, pages), pid, mm), pid, page, m.flags)
  {
  }

  lemma FreshExtends(w: World, pid: Pid, m: MemoryMap, pages: seq<Page>, mm: MmState)
    requires CanAddFresh(w, pid, m, pages) && pid in w.hw && mm.maps == w.procs[pid].maps[m.vaddr := m]
    ensures Extends(w, WithSpace(WithFreshMap(w, pid, m, pages), pid, mm), pid)
    ensures m.memType == Stack && !m.cow ==> StackOnly(w, WithSpace(WithFreshMap(w, pid, m, pages), pid, mm), pid)
  {
    hide AgreeOn, OthersKept, MapsOk, StackAdded, CanAddFresh, Mapped;
    FreshMapOthers(w, pid, m, pages);
    FreshKey(w, pid, m, pages);
    if m.memType == Stack && !m.cow {
      FreshAdded(w.procs, w.frames, pid, m, mm);
      UpdateTwice(w.procs, pid, w.procs[pid].(maps := mm.maps), mm);
    }
  }

  lemma FreshAdded(procs: Procs, frames: Frames, pid: Pid, m: MemoryMap, mm: MmState)
    requires pid in procs && FramesExist(procs, frames) && m.frameCap !in frames
    requires m.vaddr !in procs[pid].maps && mm.maps == procs[pid].maps[m.vaddr := m] && m.memType == Stack && !m.cow
    ensures StackAdded(procs, procs[pid := mm], pid)
  {
    hide FramesExist, FrameUnheld;
    forall q | q in procs
      ensures FrameUnheld(procs[q].maps, m.frameCap)
    {
      FreshUnheld(procs, frames, q, m.frameCap);
    }
  }

  lemma FreshKey(w: World, pid: Pid, m: MemoryMap, pages: seq<Page>)
    requires CanAddFresh(w, pid, m, pages)
    ensures m.vaddr !in w.procs[pid].maps && FramesExist(w.procs, w.frames) && m.frameCap !in w.frames
  {
  }
}
