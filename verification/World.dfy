/** The whole state of the memory manager as a value, its invariants, and the frame
    conditions its operations keep. */
module World {
  import opened Types
  import opened AddressSpace
  import opened Machine
  import opened Views

  datatype World = World(
    procs: Procs,
    hw: map<Pid, PageTable>,
    frames: Frames,
    refs: map<Slot, nat>,
    running: set<Pid>)

  // ----- Bookkeeping: kept by every operation, successful or not -----

  ghost predicate Books(w: World, owed: multiset<Slot>) {
    && w.hw.Keys == w.procs.Keys
    && w.running <= w.procs.Keys
    && (forall p | p in w.procs :: SpaceOk(w.procs[p]))
    && RefsOk(w.procs, w.frames, w.refs, owed)
  }

  // ----- Translation: page tables and frames agree with the resident table -----

  /** A translation names the map it stands for: the frame's page `idx` is mapped `idx`
      pages above the start of the map. */
  ghost predicate PteOk(pte: Pte, a: nat, maps: Maps) {
    && a % PGSIZE == 0
    && pte.idx * PGSIZE <= a
    && var k := a - pte.idx * PGSIZE;
       k in maps && maps[k].frameCap == pte.slot && a < k + maps[k].size
  }

  ghost predicate TableOk(pt: PageTable, maps: Maps) {
    forall a | a in pt :: PteOk(pt[a], a, maps)
  }

  ghost predicate Backed(frames: Frames, maps: Maps) {
    forall k | k in maps ::
      maps[k].frameCap in frames && |frames[maps[k].frameCap]| * PGSIZE == maps[k].size
  }

  ghost predicate ReadOnly(pt: PageTable) {
    forall a | a in pt :: !pt[a].perms.w
  }

  ghost predicate Translated(w: World) {
    && (forall p | p in w.procs :: Backed(w.frames, w.procs[p].maps))
    && (forall p | p in w.procs && p in w.hw && p in w.running :: TableOk(w.hw[p], w.procs[p].maps))
    && (forall p | p in w.hw && p !in w.running :: ReadOnly(w.hw[p]))
  }

  // ----- Isolation: what copy-on-write relies on -----

  /** A writable map whose frame another process holds is marked copy-on-write. */
  ghost predicate Guarded(maps: Maps, others: Maps) {
    forall j, k | j in maps && k in others && maps[j].frameCap == others[k].frameCap ::
      maps[j].flags.w ==> maps[j].cow
  }

  ghost predicate Sharing(procs: Procs) {
    forall p, q | p in procs && q in procs && p != q :: Guarded(procs[p].maps, procs[q].maps)
  }

  /** A page writable in hardware belongs to a writable map that is not copy-on-write. */
  ghost predicate WritesOk(pt: PageTable, maps: Maps) {
    forall a | a in pt && pt[a].perms.w ::
      pt[a].idx * PGSIZE <= a &&
      var k := a - pt[a].idx * PGSIZE;
      k in maps && maps[k].flags.w && !maps[k].cow
  }

  ghost predicate Isolated(w: World) {
    && Sharing(w.procs)
    && (forall p | p in w.procs && p in w.hw && p in w.running :: WritesOk(w.hw[p], w.procs[p].maps))
  }

  lemma CountedFrames(w: World, owed: multiset<Slot>)
    requires RefsOk(w.procs, w.frames, w.refs, owed)
    ensures FramesExist(w.procs, w.frames)
  {
  }

  lemma BooksParts(w: World, owed: multiset<Slot>, pid: Pid)
    requires Books(w, owed) && pid in w.procs
    ensures w.hw.Keys == w.procs.Keys && pid in w.hw
    ensures SpaceOk(w.procs[pid]) && MapsOk(w.procs[pid].maps)
    ensures RefsOk(w.procs, w.frames, w.refs, owed) && FramesExist(w.procs, w.frames)
  {
  }

  /** What every call on a running process needs. */
  ghost predicate Live(w: World, owed: multiset<Slot>, pid: Pid) {
    Books(w, owed) && pid in w.procs && pid in w.hw && pid in w.running
  }

  lemma LiveParts(w: World, owed: multiset<Slot>, pid: Pid)
    requires Live(w, owed, pid)
    ensures Books(w, owed) && pid in w.procs && pid in w.hw && pid in w.running
    ensures SpaceOk(w.procs[pid]) && RefsOk(w.procs, w.frames, w.refs, owed)
  {
    BooksParts(w, owed, pid);
  }

  // ----- Frame conditions -----

  /** References may only have been lost, never forgotten. */
  ghost predicate Lost(owed: multiset<Slot>, owed': multiset<Slot>) { owed <= owed' }

  lemma LostPlus(owed: multiset<Slot>, slot: Slot)
    ensures Lost(owed, owed) && Lost(owed, Plus(owed, slot))
  {
  }

  /** Nothing was lost, or one reference to a frame outside `known`. */
  ghost predicate LostOne(known: set<Slot>, owed: multiset<Slot>, owed': multiset<Slot>) {
    owed' == owed || exists slot :: slot !in known && owed' == Plus(owed, slot)
  }

  lemma LostOneFrom(known: set<Slot>, owed: multiset<Slot>, slot: Slot)
    ensures LostOne(known, owed, owed)
    ensures slot !in known ==> LostOne(known, owed, Plus(owed, slot))
  {
    hide Plus;
  }

  lemma LostOneIsLost(known: set<Slot>, owed: multiset<Slot>, owed': multiset<Slot>)
    requires LostOne(known, owed, owed')
    ensures Lost(owed, owed') && LostOne({}, owed, owed')
  {
    if owed' != owed {
      var slot :| slot !in known && owed' == Plus(owed, slot);
      assert slot !in {};
    }
  }

  lemma LostOneLess(known: set<Slot>, known': set<Slot>, owed: multiset<Slot>, owed': multiset<Slot>)
    requires LostOne(known, owed, owed') && known' <= known
    ensures LostOne(known', owed, owed')
  {
    hide Plus;
  }

  lemma LostTransitive(o: multiset<Slot>, o1: multiset<Slot>, o2: multiset<Slot>)
    requires Lost(o, o1) && Lost(o1, o2)
    ensures Lost(o, o2)
  {
  }

  /** The maps of `pid` are still there, over the same frames; there may be more. */
  ghost predicate Extends(w: World, w': World, pid: Pid) {
    && pid in w.procs && pid in w'.procs
    && (forall k | k in w.procs[pid].maps :: k in w'.procs[pid].maps && w'.procs[pid].maps[k] == w.procs[pid].maps[k])
    && AgreeOn(w.frames, w'.frames, w.procs[pid].maps)
  }

  /** Only maps of `pid` are new: stack pages that are not copy-on-write, over frames no other
      process holds. */
  ghost predicate StackAdded(procs: Procs, procs': Procs, pid: Pid) {
    && pid in procs && pid in procs'
    && (forall q | q in procs && q != pid :: q in procs' && procs'[q] == procs[q])
    && (forall k | k in procs[pid].maps :: k in procs'[pid].maps && procs'[pid].maps[k] == procs[pid].maps[k])
    && (forall k | k in procs'[pid].maps && k !in procs[pid].maps ::
          procs'[pid].maps[k].memType == Stack && !procs'[pid].maps[k].cow)
    && (forall k, q | k in procs'[pid].maps && k !in procs[pid].maps && q in procs && q != pid ::
          FrameUnheld(procs[q].maps, procs'[pid].maps[k].frameCap))
  }

  ghost predicate StackOnly(w: World, w': World, pid: Pid) {
    Extends(w, w', pid) && StackAdded(w.procs, w'.procs, pid)
  }

  lemma StackAddedTransitive(procs: Procs, procs1: Procs, procs2: Procs, pid: Pid)
    requires StackAdded(procs, procs1, pid) && StackAdded(procs1, procs2, pid)
    ensures StackAdded(procs, procs2, pid)
  {
    hide FrameUnheld;
  }

  lemma StackOnlyTransitive(w: World, w1: World, w2: World, pid: Pid)
    requires StackOnly(w, w1, pid) && StackOnly(w1, w2, pid)
    ensures StackOnly(w, w2, pid)
  {
    hide StackAdded;
    StackAddedTransitive(w.procs, w1.procs, w2.procs, pid);
  }

  lemma QuietExtends(w: World, w': World, pid: Pid)
    requires Quiet(w, w', pid)
    ensures StackOnly(w, w', pid)
  {
    hide AgreeOn;
  }

  lemma ExtendsItself(w: World, owed: multiset<Slot>, pid: Pid)
    requires Books(w, owed) && pid in w.procs
    ensures StackOnly(w, w, pid)
  {
    HeldFramesExist(w, owed, pid);
    hide AgreeOn;
  }

  ghost predicate FramesKept(procs: Procs, frames: Frames, frames': Frames) {
    forall p | p in procs :: AgreeOn(frames, frames', procs[p].maps)
  }

  ghost predicate SubTable(pt': PageTable, pt: PageTable) {
    forall a | a in pt' :: a in pt && pt'[a] == pt[a]
  }

  /** No process but `pid` is touched: same tables, same translations, same frame contents. */
  ghost predicate OthersKept(w: World, w': World, pid: Pid) {
    && w.hw.Keys == w.procs.Keys && w'.hw.Keys == w'.procs.Keys
    && w'.running == w.running
    && w'.procs.Keys == w.procs.Keys
    && (forall q | q in w.procs && q != pid ::
          && w'.procs[q] == w.procs[q] && w'.hw[q] == w.hw[q]
          && AgreeOn(w.frames, w'.frames, w.procs[q].maps))
  }

  lemma OthersKeptTransitive(w: World, w1: World, w2: World, pid: Pid)
    requires OthersKept(w, w1, pid) && OthersKept(w1, w2, pid)
    ensures OthersKept(w, w2, pid)
  {
    forall q | q in w.procs && q != pid
      ensures AgreeOn(w.frames, w2.frames, w.procs[q].maps)
    {
      assert AgreeOn(w.frames, w1.frames, w.procs[q].maps);
      assert AgreeOn(w1.frames, w2.frames, w1.procs[q].maps);
    }
  }

  /** Translation and isolation of the whole world follow from those of the one process
      an operation changed. */
  lemma TranslatedByPid(w: World, w': World, pid: Pid)
    requires w.hw.Keys == w.procs.Keys && OthersKept(w, w', pid)
    requires Translated(w)
    requires pid in w.procs && pid in w.running
    requires Backed(w'.frames, w'.procs[pid].maps)
    requires TableOk(w'.hw[pid], w'.procs[pid].maps)
    ensures Translated(w')
  {
    forall p | p in w'.procs
      ensures Backed(w'.frames, w'.procs[p].maps)
    {
      if p != pid {
        assert AgreeOn(w.frames, w'.frames, w.procs[p].maps);
        assert Backed(w.frames, w.procs[p].maps);
      }
    }
  }

  lemma IsolatedByPid(w: World, w': World, pid: Pid)
    requires w.hw.Keys == w.procs.Keys && OthersKept(w, w', pid)
    requires Isolated(w)
    requires pid in w.procs
    requires WritesOk(w'.hw[pid], w'.procs[pid].maps)
    requires forall q | q in w.procs && q != pid ::
               && Guarded(w'.procs[pid].maps, w.procs[q].maps)
               && Guarded(w.procs[q].maps, w'.procs[pid].maps)
    ensures Isolated(w')
  {
  }

  /** A step that moved no table entry: only translations of `pid` may be gone and frames
      nobody holds may have come. */
  ghost predicate Quiet(w: World, w': World, pid: Pid) {
    && w.hw.Keys == w.procs.Keys && pid in w.procs
    && w'.hw.Keys == w.hw.Keys
    && w'.procs == w.procs && w'.running == w.running
    && FramesKept(w.procs, w.frames, w'.frames)
    && (forall q | q in w.procs && q != pid :: w'.hw[q] == w.hw[q])
    && SubTable(w'.hw[pid], w.hw[pid])
  }

  lemma QuietAfter(w: World, pid: Pid, frames': Frames, pt': PageTable)
    requires w.hw.Keys == w.procs.Keys && pid in w.procs
    requires FramesExist(w.procs, w.frames)
    requires forall s | s in w.frames :: s in frames' && frames'[s] == w.frames[s]
    requires SubTable(pt', w.hw[pid])
    ensures Quiet(w, w.(frames := frames', hw := w.hw[pid := pt']), pid)
  {
  }

  /** A failed call has moved nothing, or left a new frame behind, or unmapped a range too. */
  lemma QuietFailure(w: World, pid: Pid, slot: Slot, pages: seq<Page>, vaddr: nat, n: nat)
    requires w.hw.Keys == w.procs.Keys && pid in w.procs
    requires FramesExist(w.procs, w.frames) && slot !in w.frames
    ensures Quiet(w, w, pid)
    ensures Quiet(w, w.(frames := w.frames[slot := pages]), pid)
    ensures Quiet(w, w.(frames := w.frames[slot := pages], hw := w.hw[pid := Unmapped(w.hw[pid], vaddr, n)]), pid)
  {
    SubTables(w.hw[pid], vaddr, n);
    hide Unmapped, SubTable;
    assert w.hw[pid := w.hw[pid]] == w.hw;
    QuietAfter(w, pid, w.frames, w.hw[pid]);
    QuietAfter(w, pid, w.frames[slot := pages], w.hw[pid]);
    QuietAfter(w, pid, w.frames[slot := pages], Unmapped(w.hw[pid], vaddr, n));
  }

  lemma FreshFramesKept(procs: Procs, frames: Frames, slot: Slot, pages: seq<Page>)
    requires FramesExist(procs, frames) && slot !in frames
    ensures FramesKept(procs, frames, frames[slot := pages])
  {
  }

  lemma SubTables(pt: PageTable, vaddr: nat, pages: nat)
    ensures SubTable(pt, pt) && SubTable(Unmapped(pt, vaddr, pages), pt)
  {
  }

  lemma FreshUnheld(procs: Procs, frames: Frames, pid: Pid, slot: Slot)
    requires FramesExist(procs, frames) && pid in procs && slot !in frames
    ensures !Holds(procs[pid].maps, slot) && FrameUnheld(procs[pid].maps, slot)
  {
  }

  lemma QuietKeeps(w: World, w': World, pid: Pid)
    requires Quiet(w, w', pid)
    ensures OthersKept(w, w', pid)
    ensures Translated(w) ==> Translated(w')
    ensures Isolated(w) ==> Isolated(w')
  {
    if Translated(w) {
      forall p | p in w.procs
        ensures Backed(w'.frames, w'.procs[p].maps)
      {
        assert AgreeOn(w.frames, w'.frames, w.procs[p].maps);
        assert Backed(w.frames, w.procs[p].maps);
      }
    }
  }

  lemma QuietView(w: World, w': World, pid: Pid, p: Pid)
    requires Quiet(w, w', pid) && p in w.procs && MapsOk(w.procs[p].maps)
    ensures SameView(w.frames, w.procs[p], w'.frames, w'.procs[p])
  {
    assert AgreeOn(w.frames, w'.frames, w.procs[p].maps);
    SameFramesSameView(w.frames, w'.frames, w.procs[p]);
  }

  lemma BooksByPid(w: World, owed: multiset<Slot>, w': World, owed': multiset<Slot>, pid: Pid)
    requires Books(w, owed) && OthersKept(w, w', pid)
    requires pid in w.procs && SpaceOk(w'.procs[pid])
    requires RefsOk(w'.procs, w'.frames, w'.refs, owed')
    ensures Books(w', owed')
  {
    hide RefsOk, SpaceOk;
    forall p | p in w'.procs
      ensures SpaceOk(w'.procs[p])
    {
      assert p in w.procs && SpaceOk(w.procs[p]);
    }
  }

  lemma OthersFrom(w: World, pid: Pid, mm: MmState, pt: PageTable, frames': Frames, refs': map<Slot, nat>)
    requires w.hw.Keys == w.procs.Keys && pid in w.procs
    requires FramesKept(w.procs, w.frames, frames')
    ensures OthersKept(w, World(w.procs[pid := mm], w.hw[pid := pt], frames', refs', w.running), pid)
  {
    hide AgreeOn;
  }

  lemma OthersKeptSpace(w: World, w': World, pid: Pid, mm: MmState)
    requires OthersKept(w, w', pid) && pid in w.procs
    ensures OthersKept(w, WithSpace(w', pid, mm), pid)
  {
    hide AgreeOn;
  }

  // ----- What every in-scope operation on one process keeps -----

  ghost predicate StepOk(w: World, owed: multiset<Slot>, w': World, owed': multiset<Slot>, pid: Pid) {
    && OthersKept(w, w', pid)
    && Books(w', owed')
    && Lost(owed, owed')
    && (Translated(w) ==> Translated(w'))
    && (Translated(w) && Isolated(w) ==> Isolated(w'))
  }

  lemma StepFrom(w: World, owed: multiset<Slot>, w': World, owed': multiset<Slot>, pid: Pid)
    requires OthersKept(w, w', pid) && Books(w', owed') && Lost(owed, owed')
    requires Translated(w) ==> Translated(w')
    requires Translated(w) && Isolated(w) ==> Isolated(w')
    ensures StepOk(w, owed, w', owed', pid)
  {
  }

  lemma StepOkParts(w: World, owed: multiset<Slot>, w': World, owed': multiset<Slot>, pid: Pid)
    requires StepOk(w, owed, w', owed', pid)
    ensures Books(w', owed') && OthersKept(w, w', pid) && Lost(owed, owed')
    ensures (Translated(w) ==> Translated(w')) && (Translated(w) && Isolated(w) ==> Isolated(w'))
    ensures w'.procs.Keys == w.procs.Keys && w'.running == w.running && w'.hw.Keys == w.hw.Keys
  {
  }

  lemma StepOkTransitive(w: World, o: multiset<Slot>, w1: World, o1: multiset<Slot>, w2: World, o2: multiset<Slot>,
                         pid: Pid)
    requires StepOk(w, o, w1, o1, pid) && StepOk(w1, o1, w2, o2, pid)
    ensures StepOk(w, o, w2, o2, pid)
  {
    hide Translated, Isolated, Books;
    OthersKeptTransitive(w, w1, w2, pid);
  }

  lemma StepOkReflexive(w: World, owed: multiset<Slot>, pid: Pid)
    requires Books(w, owed)
    ensures StepOk(w, owed, w, owed, pid)
  {
    hide Translated, Isolated;
  }

  lemma QuietStep(w: World, owed: multiset<Slot>, w': World, owed': multiset<Slot>, pid: Pid)
    requires Books(w, owed) && Quiet(w, w', pid) && Lost(owed, owed')
    requires RefsOk(w'.procs, w'.frames, w'.refs, owed')
    ensures StepOk(w, owed, w', owed', pid) && w'.procs == w.procs
    ensures forall p | p in w.procs :: SameView(w.frames, w.procs[p], w'.frames, w'.procs[p])
  {
    QuietKeeps(w, w', pid);
    forall p | p in w.procs
      ensures SameView(w.frames, w.procs[p], w'.frames, w'.procs[p])
    {
      QuietView(w, w', pid, p);
    }
    hide Translated, Isolated, Quiet, RefsOk;
  }

  function WithSpace(w: World, pid: Pid, mm: MmState): World {
    w.(procs := w.procs[pid := mm])
  }

  /** A change of limits or of the lazy table only. */
  lemma SameMapsStep(w: World, owed: multiset<Slot>, pid: Pid, mm: MmState)
    requires Books(w, owed) && pid in w.procs
    requires mm.maps == w.procs[pid].maps && SpaceOk(mm)
    ensures StepOk(w, owed, WithSpace(w, pid, mm), owed, pid)
  {
    hide RefsOk, SpaceOk, Translated, Isolated;
    var w' := WithSpace(w, pid, mm);
    RefsWithSpace(w, owed, pid, mm);
    forall q | q in w.procs && q != pid
      ensures AgreeOn(w.frames, w.frames, w.procs[q].maps)
    {
      HeldFramesExist(w, owed, q);
    }
    SameMapsKeeps(w, pid, mm);
  }

  lemma RefsWithSpace(w: World, owed: multiset<Slot>, pid: Pid, mm: MmState)
    requires RefsOk(w.procs, w.frames, w.refs, owed)
    requires pid in w.procs && mm.maps == w.procs[pid].maps
    ensures RefsOk(WithSpace(w, pid, mm).procs, w.frames, w.refs, owed)
  {
    hide RefsOk;
    RefsSameMaps(w.procs, WithSpace(w, pid, mm).procs, w.frames, w.refs, owed);
  }

  lemma HeldFramesExist(w: World, owed: multiset<Slot>, q: Pid)
    requires Books(w, owed) && q in w.procs
    ensures AgreeOn(w.frames, w.frames, w.procs[q].maps)
  {
  }

  lemma SameMapsKeeps(w: World, pid: Pid, mm: MmState)
    requires w.hw.Keys == w.procs.Keys && pid in w.procs
    requires mm.maps == w.procs[pid].maps
    ensures Translated(w) ==> Translated(WithSpace(w, pid, mm))
    ensures Isolated(w) ==> Isolated(WithSpace(w, pid, mm))
  {
  }
}
