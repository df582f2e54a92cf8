/** Taking maps out of the resident table: one map at a time, and every map or lazy page that
    starts in a range. */
module DropMaps {
  import opened Types
  import opened AddressSpace
  import opened Machine
  import opened Views
  import opened World
  import opened CowFault

  ghost function Dropped(w: World, pid: Pid, k: nat): World
    requires pid in w.procs && pid in w.hw && k in w.procs[pid].maps
  {
    var m := w.procs[pid].maps[k];
    AfterRelease(WithoutMap(w, pid, k), m.frameCap)
  }

  /** The map is out of the table and of the page table, its reference still in hand. */
  ghost function WithoutMap(w: World, pid: Pid, k: nat): World
    requires pid in w.procs && pid in w.hw && k in w.procs[pid].maps
  {
    w.(procs := WithMaps(w.procs, pid, Remove(w.procs[pid].maps, k)),
       hw := w.hw[pid := Unmapped(w.hw[pid], k, w.procs[pid].maps[k].Pages())])
  }

  /** Every translation of a map lies in its range. */
  lemma PteInRange(pte: Pte, a: nat, maps: Maps, k: nat)
    requires MapsOk(maps) && k in maps && PteOk(pte, a, maps)
    ensures a - pte.idx * PGSIZE == k ==> a in PageSet(k, maps[k].Pages())
  {
    if a - pte.idx * PGSIZE == k {
      assert IsPageOf(a, k, maps[k].Pages());
    }
  }

  /** A translation left after the unmap stands for another map. */
  ghost predicate StandsElsewhere(pt: PageTable, pt': PageTable, k: nat) {
    forall a | a in pt' ::
      a in pt && pt'[a] == pt[a] && pt[a].idx * PGSIZE <= a && a - pt[a].idx * PGSIZE != k
  }

  lemma DropLeaves(pt: PageTable, maps: Maps, k: nat)
    requires MapsOk(maps) && k in maps
    requires TableOk(pt, maps)
    ensures StandsElsewhere(pt, Unmapped(pt, k, maps[k].Pages()), k)
  {
    hide MapsOk, PageSet;
    forall a | a in Unmapped(pt, k, maps[k].Pages())
      ensures pt[a].idx * PGSIZE <= a && a - pt[a].idx * PGSIZE != k
    {
      PteInRange(pt[a], a, maps, k);
    }
  }

  lemma DropTable(pt: PageTable, pt': PageTable, maps: Maps, k: nat)
    requires TableOk(pt, maps) && StandsElsewhere(pt, pt', k)
    ensures TableOk(pt', Remove(maps, k))
    ensures WritesOk(pt, maps) ==> WritesOk(pt', Remove(maps, k))
  {
  }

  lemma DropRefs(w: World, owed: multiset<Slot>, pid: Pid, k: nat)
    requires Books(w, owed) && pid in w.procs && pid in w.hw && k in w.procs[pid].maps
    ensures var w1 := WithoutMap(w, pid, k);
            RefsOk(w1.procs, w1.frames, w1.refs, Plus(owed, w.procs[pid].maps[k].frameCap))
    ensures RefsOk(Dropped(w, pid, k).procs, Dropped(w, pid, k).frames, Dropped(w, pid, k).refs, owed)
  {
    var cap := w.procs[pid].maps[k].frameCap;
    var w1 := WithoutMap(w, pid, k);
    BooksParts(w, owed, pid);
    hide RefsOk, Books, MapsOk, SpaceOk, Plus, Minus, InHand;
    RefsDropMap(w.procs, w.frames, w.refs, owed, pid, k);
    PlusMinus(owed, cap);
    RefsRelease(w1.procs, w1.frames, w1.refs, Plus(owed, cap), cap);
  }

  lemma DropOthers(w: World, owed: multiset<Slot>, pid: Pid, k: nat)
    requires Books(w, owed) && pid in w.procs && pid in w.hw && k in w.procs[pid].maps
    ensures OthersKept(w, Dropped(w, pid, k), pid)
    ensures AgreeOn(w.frames, Dropped(w, pid, k).frames, Remove(w.procs[pid].maps, k))
  {
    var w1 := WithoutMap(w, pid, k);
    var cap := w.procs[pid].maps[k].frameCap;
    BooksParts(w, owed, pid);
    HeldKept(w.procs, w.frames);
    DropRefs(w, owed, pid, k);
    var w2 := Dropped(w, pid, k);
    assert FramesExist(w2.procs, w2.frames);
    hide RefsOk, Books, MapsOk, SpaceOk, FramesExist, Plus;
    OthersFrom(w, pid, w.procs[pid].(maps := Remove(w.procs[pid].maps, k)),
               Unmapped(w.hw[pid], k, w.procs[pid].maps[k].Pages()), w.frames, w.refs);
    ReleaseOthers(w, w1, pid, cap);
    ReleaseKeepsHeld(w1.procs, w1.frames, w1.refs, cap);
    assert AgreeOn(w1.frames, w2.frames, w1.procs[pid].maps);
  }

  lemma HeldKept(procs: Procs, frames: Frames)
    requires FramesExist(procs, frames)
    ensures FramesKept(procs, frames, frames)
  {
  }

  lemma BackedAgain(frames: Frames, frames': Frames, maps: Maps, maps': Maps)
    requires Backed(frames, maps) && AgreeOn(frames, frames', maps')
    requires forall k | k in maps' :: k in maps && maps'[k] == maps[k]
    ensures Backed(frames', maps')
  {
  }

  lemma DropTranslated(w: World, owed: multiset<Slot>, pid: Pid, k: nat)
    requires Books(w, owed) && pid in w.procs && pid in w.hw && pid in w.running && k in w.procs[pid].maps
    requires Translated(w)
    ensures Translated(Dropped(w, pid, k))
    ensures Isolated(w) ==> Isolated(Dropped(w, pid, k))
  {
    var w' := Dropped(w, pid, k);
    var maps := w.procs[pid].maps;
    BooksParts(w, owed, pid);
    DropOthers(w, owed, pid, k);
    DropLeaves(w.hw[pid], maps, k);
    DropTable(w.hw[pid], w'.hw[pid], maps, k);
    BackedAgain(w.frames, w'.frames, maps, Remove(maps, k));
    if Isolated(w) {
      forall q | q in w.procs && q != pid
        ensures Guarded(Remove(maps, k), w.procs[q].maps) && Guarded(w.procs[q].maps, Remove(maps, k))
      {
        assert Guarded(maps, w.procs[q].maps) && Guarded(w.procs[q].maps, maps);
      }
    }
    DropWorld(w, w', pid);
  }

  lemma DropWorld(w: World, w': World, pid: Pid)
    requires w.hw.Keys == w.procs.Keys && OthersKept(w, w', pid)
    requires Translated(w) && pid in w.procs && pid in w.running
    requires Backed(w'.frames, w'.procs[pid].maps) && TableOk(w'.hw[pid], w'.procs[pid].maps)
    requires WritesOk(w.hw[pid], w.procs[pid].maps) ==> WritesOk(w'.hw[pid], w'.procs[pid].maps)
    requires Isolated(w) ==> forall q | q in w.procs && q != pid ::
               && Guarded(w'.procs[pid].maps, w.procs[q].maps)
               && Guarded(w.procs[q].maps, w'.procs[pid].maps)
    ensures Translated(w')
    ensures Isolated(w) ==> Isolated(w')
  {
    hide TableOk, Backed, WritesOk, Guarded;
    TranslatedByPid(w, w', pid);
    if Isolated(w) {
      IsolatedByPid(w, w', pid);
    }
  }

  lemma DropStep(w: World, owed: multiset<Slot>, pid: Pid, k: nat)
    requires Books(w, owed) && pid in w.procs && pid in w.hw && pid in w.running && k in w.procs[pid].maps
    requires w.procs[pid].maps[k].memType != Stack
    ensures StepOk(w, owed, Dropped(w, pid, k), owed, pid)
    ensures AgreeOn(w.frames, Dropped(w, pid, k).frames, Remove(w.procs[pid].maps, k))
    ensures pid in Dropped(w, pid, k).procs
    ensures Dropped(w, pid, k).procs[pid] == w.procs[pid].(maps := Remove(w.procs[pid].maps, k))
  {
    var w' := Dropped(w, pid, k);
    BooksParts(w, owed, pid);
    assert Lost(owed, owed);
    hide RefsOk, Books, MapsOk, SpaceOk, Translated, Isolated, Lost, OthersKept, AgreeOn, StepOk, Unmapped, Released,
         FramesAfterRelease;
    SpaceDropMap(w.procs[pid], k);
    DropRefs(w, owed, pid, k);
    DropOthers(w, owed, pid, k);
    if Translated(w) {
      DropTranslated(w, owed, pid, k);
    }
    BooksByPid(w, owed, w', owed, pid);
    StepFrom(w, owed, w', owed, pid);
  }
}
