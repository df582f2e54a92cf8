/** Pages that are writable in hardware while their map is marked copy-on-write: what a split of
    such a map leaves, and what stays of it through a call. */
module ExposedPages {
  import opened Types
  import opened AddressSpace
  import opened Machine
  import opened World
  import opened FreshMaps
  import opened DropMaps
  import opened Splitting

  /** The one-page map at `a` is marked and its page is writable. */
  ghost predicate ExposedAt(w: World, pid: Pid, a: nat) {
    && pid in w.procs && pid in w.hw
    && a in w.procs[pid].maps && w.procs[pid].maps[a].cow && w.procs[pid].maps[a].size == PGSIZE
    && a in w.hw[pid] && w.hw[pid][a].idx == 0 && w.hw[pid][a].perms.w
  }

  ghost predicate ExposedOutside(w: World, pid: Pid, lo: nat, hi: nat) {
    exists a: nat :: !(lo <= a < hi) && ExposedAt(w, pid, a)
  }

  lemma ExposedNotIsolated(w: World, pid: Pid, lo: nat, hi: nat)
    requires ExposedOutside(w, pid, lo, hi) && pid in w.running
    ensures !Isolated(w)
  {
    hide Sharing;
    var a: nat :| !(lo <= a < hi) && ExposedAt(w, pid, a);
    assert !WritesOk(w.hw[pid], w.procs[pid].maps);
  }

  /** Every such page outside `[lo, hi)` is still one. */
  ghost predicate KeepsExposed(w: World, s: World, pid: Pid, lo: nat, hi: nat) {
    forall a: nat | !(lo <= a < hi) && ExposedAt(w, pid, a) :: ExposedAt(s, pid, a)
  }

  lemma KeepsExposedSelf(w: World, pid: Pid, lo: nat, hi: nat)
    ensures KeepsExposed(w, w, pid, lo, hi)
  {
  }

  lemma KeepsExposedThen(w: World, s1: World, s2: World, pid: Pid, lo: nat, hi: nat, lo1: nat, hi1: nat)
    requires KeepsExposed(w, s1, pid, lo, hi) && KeepsExposed(s1, s2, pid, lo1, hi1)
             && (lo1 < hi1 ==> lo <= lo1 && hi1 <= hi)
    ensures KeepsExposed(w, s2, pid, lo, hi)
  {
    hide ExposedAt;
  }

  lemma KeepsExposedMore(w: World, s: World, pid: Pid, lo: nat, hi: nat)
    requires KeepsExposed(w, s, pid, 0, 0)
    ensures KeepsExposed(w, s, pid, lo, hi)
  {
    hide ExposedAt;
  }

  lemma StillExposed(w: World, s: World, pid: Pid, lo: nat, hi: nat)
    requires ExposedOutside(w, pid, lo, hi) && KeepsExposed(w, s, pid, lo, hi)
    ensures ExposedOutside(s, pid, lo, hi)
  {
    hide ExposedAt;
  }

  /** Splitting a writable marked map marks each of its pages. */
  lemma SplitExposes(w: World, w': World, pid: Pid, k: nat, slots: seq<Slot>, a: nat, lo: nat, hi: nat)
    requires SplitDone(w, w', pid, k, slots) && MapsOk(w.procs[pid].maps)
    requires w.procs[pid].maps[k].cow && w.procs[pid].maps[k].flags.w && a in PageSet(k, |slots|) && !(lo <= a < hi)
    ensures ExposedOutside(w', pid, lo, hi)
  {
    hide MapsOk, OthersKept, Copies;
    MapParts(w.procs[pid].maps, k);
    assert ExposedAt(w', pid, a);
  }

  lemma SplitKeepsExposed(w: World, w': World, pid: Pid, k: nat, slots: seq<Slot>)
    requires SplitDone(w, w', pid, k, slots) && MapsOk(w.procs[pid].maps) && w.procs[pid].maps[k].size > PGSIZE
    ensures KeepsExposed(w, w', pid, 0, 0)
  {
    hide MapsOk, OthersKept, Copies, PageSet, Pieces, MappedEach, MemoryMap.Pages;
    var maps := w.procs[pid].maps;
    MapParts(maps, k);
    forall a | ExposedAt(w, pid, a)
      ensures ExposedAt(w', pid, a)
    {
      KeptIn(maps, k, slots, a);
      MappedElsewhere(w.hw[pid], maps[k], slots, a);
    }
  }

  lemma MappedElsewhere(pt: PageTable, m: MemoryMap, slots: seq<Slot>, a: nat)
    requires a in pt && a !in PageSet(m.vaddr, |slots|)
    ensures a in MappedEach(pt, m, slots) && MappedEach(pt, m, slots)[a] == pt[a]
  {
  }

  lemma DropKeepsExposed(w: World, pid: Pid, k: nat)
    requires pid in w.procs && pid in w.hw && k in w.procs[pid].maps && MapsOk(w.procs[pid].maps)
    ensures KeepsExposed(w, Dropped(w, pid, k), pid, k, k + 1)
  {
    hide MapsOk, MemoryMap.Pages, PageSet, Released, FramesAfterRelease;
    forall a | a != k && ExposedAt(w, pid, a)
      ensures ExposedAt(Dropped(w, pid, k), pid, a)
    {
      StartApart(w.procs[pid].maps, k, a);
    }
  }

  lemma FreshKeepsExposed(w: World, pid: Pid, m: MemoryMap, data: Page)
    requires pid in w.procs && pid in w.hw && m.vaddr !in w.procs[pid].maps
    ensures KeepsExposed(w, WithFreshMap(w, pid, m, [data]), pid, 0, 0)
  {
    hide PageSet;
    OnePageSet(m.vaddr);
  }

  lemma SpaceKeepsExposed(w: World, pid: Pid, mm: MmState)
    requires pid in w.procs && mm.maps == w.procs[pid].maps
    ensures KeepsExposed(w, WithSpace(w, pid, mm), pid, 0, 0)
  {
  }
}
