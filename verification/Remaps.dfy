/** Mapping the frame of an existing map again: what a resident fault, a failed split, mprotect
    and the Image permission flip do to the page table. */
module Remaps {
  import opened Types
  import opened AddressSpace
  import opened Machine
  import opened Views
  import opened World
  import opened DropMaps

  /** Only translations of `pid` moved: old ones may be gone, and new ones map the frame of the
      map at `k` in its range with `perms`. */
  ghost predicate Remapped(w: World, w': World, pid: Pid, k: nat, perms: Perms) {
    && w.hw.Keys == w.procs.Keys && pid in w.procs && k in w.procs[pid].maps
    && w'.hw.Keys == w.hw.Keys
    && w'.procs == w.procs && w'.running == w.running
    && FramesKept(w.procs, w.frames, w'.frames)
    && (forall q | q in w.procs && q != pid :: w'.hw[q] == w.hw[q])
    && var m := w.procs[pid].maps[k];
       SubTable(w'.hw[pid], Mapped(w.hw[pid], m.frameCap, k, perms, m.Pages()))
  }

  /** Each translation is an old one or stands for the map at `k`. */
  ghost predicate OldOrRemapped(pt: PageTable, pt': PageTable, maps: Maps, k: nat, perms: Perms) {
    forall a | a in pt' ::
      || (a in pt && pt'[a] == pt[a])
      || (pt'[a].perms == perms && PteOk(pt'[a], a, maps) && a - pt'[a].idx * PGSIZE == k)
  }

  lemma RemapEntries(pt: PageTable, pt': PageTable, maps: Maps, k: nat, perms: Perms)
    requires MapsOk(maps) && k in maps
    requires SubTable(pt', Mapped(pt, maps[k].frameCap, k, perms, maps[k].Pages()))
    ensures OldOrRemapped(pt, pt', maps, k, perms)
  {
    hide MapsOk, PteOk, PageSet, IsPageOf;
    forall a | a in pt'
      ensures || (a in pt && pt'[a] == pt[a])
              || (pt'[a].perms == perms && PteOk(pt'[a], a, maps) && a - pt'[a].idx * PGSIZE == k)
    {
      if a in PageSet(k, maps[k].Pages()) {
        InPageSet(a, k, maps[k].Pages());
        RemappedPte(maps, k, perms, a);
      }
    }
  }

  lemma InPageSet(a: nat, vaddr: nat, pages: nat)
    ensures a in PageSet(vaddr, pages) <==> IsPageOf(a, vaddr, pages)
  {
  }

  lemma RemapTable(pt: PageTable, pt': PageTable, maps: Maps, k: nat, perms: Perms)
    requires MapsOk(maps) && k in maps
    requires SubTable(pt', Mapped(pt, maps[k].frameCap, k, perms, maps[k].Pages()))
    ensures TableOk(pt, maps) ==> TableOk(pt', maps)
    ensures WritesOk(pt, maps) && (perms.w ==> maps[k].flags.w && !maps[k].cow) ==> WritesOk(pt', maps)
  {
    hide MapsOk, Mapped, SubTable;
    RemapEntries(pt, pt', maps, k, perms);
  }

  lemma RemappedPte(maps: Maps, k: nat, perms: Perms, a: nat)
    requires MapsOk(maps) && k in maps && IsPageOf(a, k, maps[k].Pages())
    ensures PteOk(Pte(maps[k].frameCap, (a - k) / PGSIZE, perms), a, maps)
    ensures a - (a - k) / PGSIZE * PGSIZE == k && (a - k) / PGSIZE * PGSIZE <= a
  {
    assert (a - k) / PGSIZE * PGSIZE == a - k;
  }

  lemma RemapOthers(w: World, owed: multiset<Slot>, w': World, pid: Pid, k: nat, perms: Perms)
    requires Books(w, owed) && Remapped(w, w', pid, k, perms) && pid in w.running
    ensures OthersKept(w, w', pid)
    ensures Translated(w) ==> Translated(w')
    ensures forall p | p in w.procs :: SameView(w.frames, w.procs[p], w'.frames, w'.procs[p])
  {
    forall p | p in w.procs
      ensures SameView(w.frames, w.procs[p], w'.frames, w'.procs[p])
    {
      BooksParts(w, owed, p);
      SameFramesSameView(w.frames, w'.frames, w.procs[p]);
    }
    BooksParts(w, owed, pid);
    if Translated(w) {
      RemapTable(w.hw[pid], w'.hw[pid], w.procs[pid].maps, k, perms);
      RemapBacked(w, w', pid);
      hide Mapped, MapsOk, Books, Backed, TableOk, AgreeOn;
      TranslatedByPid(w, w', pid);
    }
  }

  lemma RemapBacked(w: World, w': World, pid: Pid)
    requires Translated(w) && pid in w.procs && w'.procs == w.procs
    requires FramesKept(w.procs, w.frames, w'.frames)
    ensures Backed(w'.frames, w'.procs[pid].maps)
  {
    BackedAgain(w.frames, w'.frames, w.procs[pid].maps, w.procs[pid].maps);
  }

  lemma RemapIsolated(w: World, owed: multiset<Slot>, w': World, pid: Pid, k: nat, perms: Perms)
    requires Books(w, owed) && Remapped(w, w', pid, k, perms) && OthersKept(w, w', pid)
    requires perms.w ==> w.procs[pid].maps[k].flags.w && !w.procs[pid].maps[k].cow
    requires Isolated(w) && pid in w.running
    ensures Isolated(w')
  {
    BooksParts(w, owed, pid);
    RemapTable(w.hw[pid], w'.hw[pid], w.procs[pid].maps, k, perms);
    hide Mapped, MapsOk, Books, WritesOk, Guarded;
    IsolatedByPid(w, w', pid);
  }

  /** Mapping a map's frame again keeps every invariant, unless it makes writable a page whose
      map is read-only or copy-on-write. */
  lemma RemapStep(w: World, owed: multiset<Slot>, w': World, owed': multiset<Slot>, pid: Pid, k: nat, perms: Perms)
    requires Books(w, owed) && Remapped(w, w', pid, k, perms) && pid in w.running
    requires RefsOk(w'.procs, w'.frames, w'.refs, owed') && Lost(owed, owed')
    ensures OthersKept(w, w', pid) && Books(w', owed')
    ensures Translated(w) ==> Translated(w')
    ensures (perms.w ==> w.procs[pid].maps[k].flags.w && !w.procs[pid].maps[k].cow) ==>
              StepOk(w, owed, w', owed', pid)
    ensures forall p | p in w.procs :: SameView(w.frames, w.procs[p], w'.frames, w'.procs[p])
  {
    BooksParts(w, owed, pid);
    RemapOthers(w, owed, w', pid, k, perms);
    if Isolated(w) && (perms.w ==> w.procs[pid].maps[k].flags.w && !w.procs[pid].maps[k].cow) {
      RemapIsolated(w, owed, w', pid, k, perms);
    }
    RemapBooks(w, owed, w', owed', pid, k, perms);
  }

  lemma RemapBooks(w: World, owed: multiset<Slot>, w': World, owed': multiset<Slot>, pid: Pid, k: nat, perms: Perms)
    requires Books(w, owed) && Remapped(w, w', pid, k, perms) && OthersKept(w, w', pid)
    requires RefsOk(w'.procs, w'.frames, w'.refs, owed')
    ensures Books(w', owed')
  {
    BooksParts(w, owed, pid);
    hide Mapped, SpaceOk, RefsOk, Books, AgreeOn;
    BooksByPid(w, owed, w', owed', pid);
  }
}
