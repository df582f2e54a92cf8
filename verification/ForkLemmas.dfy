/** Sharing every frame of a process with a new one: the steps of fork, and the child they build. */
module ForkLemmas {
  import opened Types
  import opened AddressSpace
  import opened Machine
  import opened Views
  import opened World
  import opened DropMaps
  import opened Remaps
  import opened Splitting
  import opened SplitCalls
  import opened Reflag

  /** The record of a process just registered: no memory at all. */
  ghost predicate BlankSpace(mm: MmState) {
    mm.maps == map[] && mm.lazy == map[] && SpaceOk(mm)
  }

  ghost function Registered(w: World, child: Pid, blank: MmState): World {
    w.(procs := w.procs[child := blank], hw := w.hw[child := map[]])
  }

  lemma RegisterStep(w: World, o: multiset<Slot>, child: Pid, blank: MmState)
    requires Books(w, o) && child !in w.procs && BlankSpace(blank)
    ensures Books(Registered(w, child, blank), o)
    ensures Translated(w) ==> Translated(Registered(w, child, blank))
    ensures Isolated(w) ==> Isolated(Registered(w, child, blank))
  {
    hide SpaceOk, RefsOk, Translated, Isolated;
    RegisterRefs(w, o, child, blank);
    RegisterTables(w, child, blank);
  }

  lemma RegisterRefs(w: World, o: multiset<Slot>, child: Pid, blank: MmState)
    requires RefsOk(w.procs, w.frames, w.refs, o) && child !in w.procs && blank.maps == map[]
    ensures RefsOk(w.procs[child := blank], w.frames, w.refs, o)
  {
    hide Holders, Balanced;
    forall slot
      ensures Holders(w.procs[child := blank], slot) == Holders(w.procs, slot)
    {
      RegisterHolders(w.procs, child, blank, slot);
    }
    assert FramesExist(w.procs[child := blank], w.frames);
    RefsSameHolders(w.procs, w.procs[child := blank], w.frames, w.refs, o);
  }

  lemma RegisterTables(w: World, child: Pid, blank: MmState)
    requires w.hw.Keys == w.procs.Keys && child !in w.procs && blank.maps == map[] && child !in w.running
    ensures Translated(w) ==> Translated(Registered(w, child, blank))
    ensures Isolated(w) ==> Isolated(Registered(w, child, blank))
  {
    hide TableOk, WritesOk;
  }

  lemma RegisterHolders(procs: Procs, child: Pid, blank: MmState, slot: Slot)
    requires child !in procs && blank.maps == map[]
    ensures Holders(procs[child := blank], slot) == Holders(procs, slot)
  {
  }

  // ----- The child's page table: a side table over a process that does not run -----

  ghost function WithTable(w: World, child: Pid, pt: PageTable): World { w.(hw := w.hw[child := pt]) }

  lemma WithTableKeeps(w: World, o: multiset<Slot>, child: Pid, pt: PageTable)
    requires child in w.hw && child !in w.running && ReadOnly(pt)
    ensures Books(w, o) ==> Books(WithTable(w, child, pt), o)
    ensures Translated(w) ==> Translated(WithTable(w, child, pt))
    ensures Isolated(w) ==> Isolated(WithTable(w, child, pt))
  {
    hide SpaceOk, RefsOk, TableOk, WritesOk, Backed, Sharing;
    assert WithTable(w, child, pt).hw.Keys == w.hw.Keys;
  }

  lemma ChildMapped(pt: PageTable, maps: Maps, k: nat)
    requires TableOk(pt, maps) && ReadOnly(pt) && MapsOk(maps) && k in maps
    ensures var pt' := Mapped(pt, maps[k].frameCap, k, maps[k].flags.WithoutWrite(), maps[k].Pages());
            TableOk(pt', maps) && ReadOnly(pt')
    ensures TableOk(Unmapped(pt, k, maps[k].Pages()), maps) && ReadOnly(Unmapped(pt, k, maps[k].Pages()))
  {
    hide MapsOk, PteOk, PageSet;
    var pt' := Mapped(pt, maps[k].frameCap, k, maps[k].flags.WithoutWrite(), maps[k].Pages());
    SubTableSelf(pt');
    RemapEntries(pt, pt', maps, k, maps[k].flags.WithoutWrite());
  }

  // ----- Marking a map copy-on-write -----

  function Marked(m: MemoryMap): MemoryMap { if m.flags.w then m.(cow := true) else m }

  ghost function MarkedWorld(w: World, pid: Pid, k: nat): World
    requires pid in w.procs && k in w.procs[pid].maps
  {
    w.(procs := WithMaps(w.procs, pid, w.procs[pid].maps[k := Marked(w.procs[pid].maps[k])]))
  }

  /** No page of the map at `k` is writable in hardware. */
  ghost predicate NoneWritable(pt: PageTable, k: nat) {
    forall a | a in pt && pt[a].perms.w :: a - pt[a].idx * PGSIZE != k
  }

  lemma MarkedSpace(mm: MmState, k: nat)
    requires SpaceOk(mm) && k in mm.maps
    ensures SpaceOk(mm.(maps := mm.maps[k := Marked(mm.maps[k])]))
  {
    MapParts(mm.maps, k);
    OneHolder(mm.maps, k);
    assert mm.maps[k].frameCap != 0;
    hide StackOk, LazyOk, Apart, MapsOk;
    SpaceReplaceMap(mm, k, Marked(mm.maps[k]));
  }

  lemma MarkedHolders(procs: Procs, pid: Pid, k: nat, slot: Slot)
    requires pid in procs && k in procs[pid].maps
    ensures Holders(WithMaps(procs, pid, procs[pid].maps[k := Marked(procs[pid].maps[k])]), slot) ==
              Holders(procs, slot)
  {
    var maps := procs[pid].maps;
    var maps' := maps[k := Marked(maps[k])];
    assert Holds(maps', slot) <==> Holds(maps, slot) by {
      if Holds(maps, slot) {
        var j :| j in maps && maps[j].frameCap == slot;
        assert maps'[j].frameCap == slot;
      }
      if Holds(maps', slot) {
        var j :| j in maps' && maps'[j].frameCap == slot;
        assert maps[j].frameCap == slot;
      }
    }
  }

  lemma MarkedRefs(w: World, o: multiset<Slot>, pid: Pid, k: nat)
    requires Live(w, o, pid) && k in w.procs[pid].maps
    ensures RefsOk(MarkedWorld(w, pid, k).procs, w.frames, w.refs, o)
    ensures OthersKept(w, MarkedWorld(w, pid, k), pid)
  {
    hide Books, SpaceOk, RefsOk, Holders, FramesExist, FramesKept, Live, OthersKept, MapsOk;
    LiveParts(w, o, pid);
    BooksParts(w, o, pid);
    var maps' := w.procs[pid].maps[k := Marked(w.procs[pid].maps[k])];
    var w' := MarkedWorld(w, pid, k);
    forall slot
      ensures Holders(w'.procs, slot) == Holders(w.procs, slot)
    {
      MarkedHolders(w.procs, pid, k, slot);
    }
    FramesOf(w, o, pid);
    FramesExistWithMaps(w.procs, w.frames, pid, maps');
    RefsSameHolders(w.procs, w'.procs, w.frames, w.refs, o);
    HeldKept(w.procs, w.frames);
    UpdateTwice(w.hw, pid, w.hw[pid], w.hw[pid]);
    OthersFrom(w, pid, w.procs[pid].(maps := maps'), w.hw[pid], w.frames, w.refs);
  }

  lemma MarkedTable(pt: PageTable, maps: Maps, k: nat)
    requires k in maps
    ensures TableOk(pt, maps) ==> TableOk(pt, maps[k := Marked(maps[k])])
    ensures WritesOk(pt, maps) && (NoneWritable(pt, k) || Marked(maps[k]) == maps[k]) ==>
              WritesOk(pt, maps[k := Marked(maps[k])])
    ensures forall frames :: Backed(frames, maps) ==> Backed(frames, maps[k := Marked(maps[k])])
  {
  }

  lemma MarkedGuarded(maps: Maps, others: Maps, k: nat)
    requires k in maps && Guarded(maps, others) && Guarded(others, maps)
    ensures Guarded(maps[k := Marked(maps[k])], others) && Guarded(others, maps[k := Marked(maps[k])])
  {
  }

  lemma MarkStep(w: World, o: multiset<Slot>, pid: Pid, k: nat)
    requires Live(w, o, pid) && k in w.procs[pid].maps
    requires Translated(w) ==> NoneWritable(w.hw[pid], k) || Marked(w.procs[pid].maps[k]) == w.procs[pid].maps[k]
    ensures StepOk(w, o, MarkedWorld(w, pid, k), o, pid)
  {
    hide Books, MapsOk, RefsOk, SpaceOk, OthersKept, Translated, Isolated, Lost, TableOk, WritesOk, Backed, Guarded,
         Sharing, NoneWritable;
    var w' := MarkedWorld(w, pid, k);
    LiveParts(w, o, pid);
    BooksParts(w, o, pid);
    MarkedSpace(w.procs[pid], k);
    MarkedRefs(w, o, pid, k);
    BooksByPid(w, o, w', o, pid);
    if Translated(w) {
      MarkKeeps(w, o, pid, k);
    }
    LostPlus(o, 0);
    StepFrom(w, o, w', o, pid);
  }

  lemma MarkKeeps(w: World, o: multiset<Slot>, pid: Pid, k: nat)
    requires Live(w, o, pid) && k in w.procs[pid].maps && Translated(w)
    requires NoneWritable(w.hw[pid], k) || Marked(w.procs[pid].maps[k]) == w.procs[pid].maps[k]
    ensures Translated(MarkedWorld(w, pid, k))
    ensures Isolated(w) ==> Isolated(MarkedWorld(w, pid, k))
  {
    hide Books, MapsOk, RefsOk, SpaceOk, OthersKept, Translated, Lost, TableOk, WritesOk, Backed, NoneWritable, Guarded;
    var w' := MarkedWorld(w, pid, k);
    LiveParts(w, o, pid);
    BooksParts(w, o, pid);
    TranslatedParts(w, pid);
    MarkedRefs(w, o, pid, k);
    MarkedTable(w.hw[pid], w.procs[pid].maps, k);
    TranslatedByPid(w, w', pid);
    if Isolated(w) {
      forall q | q in w.procs && q != pid
        ensures Guarded(w'.procs[pid].maps, w.procs[q].maps) && Guarded(w.procs[q].maps, w'.procs[pid].maps)
      {
        MarkedGuarded(w.procs[pid].maps, w.procs[q].maps, k);
      }
      IsolatedByPid(w, w', pid);
    }
  }

  // ----- The child takes the parent's tables -----

  ghost function PlusSet(owed: multiset<Slot>, slots: set<Slot>): multiset<Slot> { owed + multiset(slots) }

  lemma PlusSetOne(owed: multiset<Slot>, slots: set<Slot>, slot: Slot)
    ensures PlusSet(owed, {}) == owed
    ensures slot !in slots ==> PlusSet(owed, slots + {slot}) == Plus(PlusSet(owed, slots), slot)
  {
  }

  lemma PlusSetLost(o: multiset<Slot>, slots: set<Slot>)
    ensures Lost(o, PlusSet(o, slots))
  {
  }

  function CapsOf(maps: Maps): set<Slot> { set k | k in maps :: maps[k].frameCap }

  /** The references taken for the child become its own. */
  lemma AdoptRefs(procs: Procs, frames: Frames, refs: map<Slot, nat>, o: multiset<Slot>, child: Pid, mm: MmState)
    requires child in procs && procs[child].maps == map[]
    requires RefsOk(procs, frames, refs, PlusSet(o, CapsOf(mm.maps)))
    ensures RefsOk(procs[child := mm], frames, refs, o)
  {
    hide Holders, RefsOk;
    RefsParts(procs, frames, refs, PlusSet(o, CapsOf(mm.maps)));
    forall slot | slot in frames
      ensures Balanced(procs[child := mm], refs, o, slot)
    {
      AdoptHolders(procs, child, mm, slot);
    }
    forall k | k in mm.maps
      ensures mm.maps[k].frameCap in frames
    {
      assert mm.maps[k].frameCap in CapsOf(mm.maps);
      assert mm.maps[k].frameCap in PlusSet(o, CapsOf(mm.maps));
    }
    MakeRefs(procs[child := mm], frames, refs, o, PlusSet(o, CapsOf(mm.maps)));
  }

  lemma RefsParts(procs: Procs, frames: Frames, refs: map<Slot, nat>, owed: multiset<Slot>)
    requires RefsOk(procs, frames, refs, owed)
    ensures FramesExist(procs, frames)
    ensures forall slot | slot in owed :: slot in frames
    ensures forall slot | slot in refs :: slot in frames && refs[slot] >= 1
    ensures forall slot | slot in frames :: Balanced(procs, refs, owed, slot)
  {
  }

  lemma MakeRefs(procs: Procs, frames: Frames, refs: map<Slot, nat>, o: multiset<Slot>, o': multiset<Slot>)
    requires FramesExist(procs, frames) && o <= o'
    requires forall slot | slot in o' :: slot in frames
    requires forall slot | slot in refs :: slot in frames && refs[slot] >= 1
    requires forall slot | slot in frames :: Balanced(procs, refs, o, slot)
    ensures RefsOk(procs, frames, refs, o)
  {
  }

  lemma AdoptHolders(procs: Procs, child: Pid, mm: MmState, slot: Slot)
    requires child in procs && procs[child].maps == map[]
    ensures Holders(procs[child := mm], slot) ==
              if slot in CapsOf(mm.maps) then Holders(procs, slot) + {child} else Holders(procs, slot)
    ensures child !in Holders(procs, slot)
  {
    assert Holds(mm.maps, slot) <==> slot in CapsOf(mm.maps);
  }

  ghost function Adopted(w: World, pid: Pid, child: Pid): World
    requires pid in w.procs
  {
    w.(procs := w.procs[child := w.procs[pid]])
  }

  /** Every writable map of the parent is marked. */
  ghost predicate AllMarked(maps: Maps) {
    forall k | k in maps :: maps[k].flags.w ==> maps[k].cow
  }

  lemma AdoptBooks(w: World, o: multiset<Slot>, pid: Pid, child: Pid)
    requires pid in w.procs && Books(w, PlusSet(o, CapsOf(w.procs[pid].maps)))
    requires child in w.procs && pid != child && w.procs[child].maps == map[]
    ensures Books(Adopted(w, pid, child), o)
  {
    hide SpaceOk, RefsOk, PlusSet;
    AdoptRefs(w.procs, w.frames, w.refs, o, child, w.procs[pid]);
  }

  lemma AdoptTranslated(w: World, pid: Pid, child: Pid)
    requires Translated(w) && pid in w.procs && child in w.procs && child !in w.running
    ensures Translated(Adopted(w, pid, child))
  {
    hide Backed, TableOk;
  }

  lemma AdoptIsolated(w: World, pid: Pid, child: Pid)
    requires Isolated(w) && w.hw.Keys == w.procs.Keys
    requires pid in w.procs && child in w.procs && child !in w.running && pid != child
    requires MapsOk(w.procs[pid].maps) && AllMarked(w.procs[pid].maps)
    ensures Isolated(Adopted(w, pid, child))
  {
    hide WritesOk, MapsOk;
    var w' := Adopted(w, pid, child);
    forall p, q | p in w'.procs && q in w'.procs && p != q
      ensures Guarded(w'.procs[p].maps, w'.procs[q].maps)
    {
      var p0 := if p == child then pid else p;
      var q0 := if q == child then pid else q;
      if p0 != q0 {
        assert Guarded(w.procs[p0].maps, w.procs[q0].maps);
      }
    }
  }

  /** Starting the child: its page table must stand for its table, and it is read-only. */
  lemma StartStep(w: World, o: multiset<Slot>, child: Pid)
    requires Books(w, o) && child in w.procs
    requires TableOk(w.hw[child], w.procs[child].maps) && ReadOnly(w.hw[child])
    ensures Books(w.(running := w.running + {child}), o)
    ensures Translated(w) ==> Translated(w.(running := w.running + {child}))
    ensures Isolated(w) ==> Isolated(w.(running := w.running + {child}))
  {
    hide SpaceOk, RefsOk, Sharing, Backed, TableOk;
  }

  // ----- The loop of fork -----

  /** `todo` are the maps not yet shared; `s` is the world without the child's translations `pt`. */
  ghost predicate Forking(w: World, o: multiset<Slot>, s: World, owed: multiset<Slot>, pt: PageTable, pid: Pid,
                          todo: set<nat>, retained: set<Slot>)
  {
    && pid in w.procs && pid in s.procs && pid in s.hw && Live(s, owed, pid) && StepOk(w, o, s, owed, pid)
    && s.frames == w.frames
    && TableOk(pt, s.procs[pid].maps) && ReadOnly(pt)
    && s.procs[pid] == w.procs[pid].(maps := s.procs[pid].maps)
    && PartlyMarked(w.procs[pid].maps, s.procs[pid].maps, todo)
    && owed == PlusSet(o, retained) && retained == SharedCaps(w.procs[pid].maps, todo)
  }

  ghost predicate PartlyMarked(maps: Maps, maps': Maps, todo: set<nat>) {
    && maps'.Keys == maps.Keys && todo <= maps.Keys
    && forall k | k in maps :: maps'[k] == if k in todo then maps[k] else Marked(maps[k])
  }

  ghost function SharedCaps(maps: Maps, todo: set<nat>): set<Slot> {
    set k | k in maps && k !in todo :: maps[k].frameCap
  }

  lemma ForkingStart(w: World, o: multiset<Slot>, pid: Pid)
    requires Live(w, o, pid)
    ensures Forking(w, o, w, o, map[], pid, w.procs[pid].maps.Keys, {})
  {
    hide Books, StepOk, Live, SpaceOk, RefsOk, PlusSet;
    LiveParts(w, o, pid);
    StepOkReflexive(w, o, pid);
    PlusSetOne(o, {}, 0);
    assert SharedCaps(w.procs[pid].maps, w.procs[pid].maps.Keys) == {};
  }

  lemma ForkingParts(w: World, o: multiset<Slot>, s: World, owed: multiset<Slot>, pt: PageTable, pid: Pid,
                     todo: set<nat>, retained: set<Slot>)
    requires Forking(w, o, s, owed, pt, pid, todo, retained)
    ensures pid in w.procs && pid in s.procs && pid in s.hw && Live(s, owed, pid) && StepOk(w, o, s, owed, pid)
    ensures s.frames == w.frames && owed == PlusSet(o, retained) && ReadOnly(pt)
    ensures forall k | k in todo ::
              k in w.procs[pid].maps && k in s.procs[pid].maps && s.procs[pid].maps[k] == w.procs[pid].maps[k]
  {
  }

  /** The parent's pages lose their write permission. */
  lemma ProtectParent(s: World, owed: multiset<Slot>, pid: Pid, k: nat)
    requires Live(s, owed, pid) && k in s.procs[pid].maps
    ensures var m := s.procs[pid].maps[k];
            var s1 := s.(hw := s.hw[pid := Mapped(s.hw[pid], m.frameCap, k, m.flags.WithoutWrite(), m.Pages())]);
            && StepOk(s, owed, s1, owed, pid) && Live(s1, owed, pid)
            && (Translated(s1) ==> NoneWritable(s1.hw[pid], k))
  {
    hide Books, SpaceOk, RefsOk, MapsOk, StepOk, Mapped, SubTable, AgreeOn, Translated, NoneWritable, OthersKept, Lost,
         Isolated;
    var m := s.procs[pid].maps[k];
    var pt1 := Mapped(s.hw[pid], m.frameCap, k, m.flags.WithoutWrite(), m.Pages());
    var s1 := s.(hw := s.hw[pid := pt1]);
    LiveParts(s, owed, pid);
    BooksParts(s, owed, pid);
    HeldKept(s.procs, s.frames);
    SubTableSelf(pt1);
    LostPlus(owed, 0);
    RemapStep(s, owed, s1, owed, pid, k, m.flags.WithoutWrite());
    if Translated(s1) {
      TranslatedParts(s1, pid);
      ProtectedRange(s.hw[pid], s.procs[pid].maps, k);
    }
  }

  lemma ProtectedRange(pt: PageTable, maps: Maps, k: nat)
    requires MapsOk(maps) && k in maps
    requires TableOk(Mapped(pt, maps[k].frameCap, k, maps[k].flags.WithoutWrite(), maps[k].Pages()), maps)
    ensures NoneWritable(Mapped(pt, maps[k].frameCap, k, maps[k].flags.WithoutWrite(), maps[k].Pages()), k)
  {
    var pt' := Mapped(pt, maps[k].frameCap, k, maps[k].flags.WithoutWrite(), maps[k].Pages());
    forall a | a in pt' && a - pt'[a].idx * PGSIZE == k
      ensures !pt'[a].perms.w
    {
      PteInRange(pt'[a], a, maps, k);
    }
  }

  lemma RetainStep(s: World, owed: multiset<Slot>, pid: Pid, slot: Slot)
    requires Live(s, owed, pid) && slot in s.frames
    ensures StepOk(s, owed, s.(refs := Retained(s.refs, slot)), Plus(owed, slot), pid)
    ensures Live(s.(refs := Retained(s.refs, slot)), Plus(owed, slot), pid)
  {
    hide Books, SpaceOk, RefsOk, StepOk, SubTable, AgreeOn, Lost, Plus, Retained;
    var s1 := s.(refs := Retained(s.refs, slot));
    LiveParts(s, owed, pid);
    BooksParts(s, owed, pid);
    HeldKept(s.procs, s.frames);
    SubTables(s.hw[pid], 0, 0);
    RefsRetain(s.procs, s.frames, s.refs, owed, slot);
    LostPlus(owed, slot);
    QuietStep(s, owed, s1, Plus(owed, slot), pid);
    StepOkParts(s, owed, s1, Plus(owed, slot), pid);
  }

  /** One map shared: `s1` is `s` with the parent's pages protected, or `s` itself when the map
      was read-only or already copy-on-write. */
  lemma ForkingNext(w: World, o: multiset<Slot>, s: World, owed: multiset<Slot>, pt: PageTable, pid: Pid,
                    todo: set<nat>, retained: set<Slot>, s1: World, k: nat)
    requires Live(w, o, pid) && Forking(w, o, s, owed, pt, pid, todo, retained) && k in todo
    requires Live(s1, owed, pid) && StepOk(s, owed, s1, owed, pid) && s1.procs == s.procs && s1.frames == s.frames
    requires k in s.procs[pid].maps
    requires (Translated(s1) ==> NoneWritable(s1.hw[pid], k)) || Marked(s.procs[pid].maps[k]) == s.procs[pid].maps[k]
    ensures var m := s.procs[pid].maps[k];
            var s2 := s1.(refs := Retained(s1.refs, m.frameCap));
            && m.frameCap !in retained && m.frameCap in s1.frames
            && Forking(w, o, MarkedWorld(s2, pid, k), Plus(owed, m.frameCap), pt, pid, todo - {k},
                       retained + {m.frameCap})
  {
    hide Live, Books, SpaceOk, RefsOk, MapsOk, StepOk, TableOk, ReadOnly, Lost, Plus, Retained, Translated,
         NoneWritable, PlusSet, OthersKept;
    var m := s.procs[pid].maps[k];
    var s2 := s1.(refs := Retained(s1.refs, m.frameCap));
    var s3 := MarkedWorld(s2, pid, k);
    var owed' := Plus(owed, m.frameCap);
    LiveParts(w, o, pid);
    LiveParts(s1, owed, pid);
    FramesOf(s1, owed, pid);
    NewCap(w.procs[pid].maps, todo, k);
    PlusSetOne(o, retained, m.frameCap);
    RetainStep(s1, owed, pid, m.frameCap);
    RetainTranslated(s1, s2);
    MarkStep(s2, owed', pid, k);
    StepOkParts(s2, owed', s3, owed', pid);
    MakeLive(s3, owed', pid);
    StepOkTransitive(w, o, s, owed, s1, owed, pid);
    StepOkTransitive(w, o, s1, owed, s2, owed', pid);
    StepOkTransitive(w, o, s2, owed', s3, owed', pid);
    MarkedTable(pt, s.procs[pid].maps, k);
  }

  lemma RetainTranslated(s1: World, s2: World)
    requires s2 == s1.(refs := s2.refs)
    ensures Translated(s2) ==> Translated(s1)
  {
  }

  lemma NewCap(maps: Maps, todo: set<nat>, k: nat)
    requires MapsOk(maps) && k in todo && k in maps
    ensures maps[k].frameCap !in SharedCaps(maps, todo)
    ensures SharedCaps(maps, todo - {k}) == SharedCaps(maps, todo) + {maps[k].frameCap}
  {
  }
}
