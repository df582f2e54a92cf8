/** The state every process shares: page tables, frames and frame reference counts, with the
    invariants the memory manager keeps over them. */
module Machine {
  import opened Types
  import opened AddressSpace

  /** A hardware page-table entry: page `idx` of the frame in `slot`. */
  datatype Pte = Pte(slot: Slot, idx: nat, perms: Perms)

  type PageTable = map<nat, Pte>
  type Procs = map<Pid, MmState>
  type Frames = map<Slot, seq<Page>>

  // ----- Page tables -----

  predicate IsPageOf(a: nat, vaddr: nat, pages: nat) {
    vaddr <= a < vaddr + pages * PGSIZE && (a - vaddr) % PGSIZE == 0
  }

  function PageSet(vaddr: nat, pages: nat): set<nat> {
    set a | 0 <= a < vaddr + pages * PGSIZE && IsPageOf(a, vaddr, pages)
  }

  function Mapped(pt: PageTable, slot: Slot, vaddr: nat, perms: Perms, pages: nat): PageTable {
    map a | a in pt.Keys + PageSet(vaddr, pages) ::
      if a in PageSet(vaddr, pages) then Pte(slot, (a - vaddr) / PGSIZE, perms) else pt[a]
  }

  function Unmapped(pt: PageTable, vaddr: nat, pages: nat): PageTable {
    pt - PageSet(vaddr, pages)
  }

  // ----- Reference counts -----

  ghost function Plus(owed: multiset<Slot>, slot: Slot): multiset<Slot> { owed + multiset{slot} }

  ghost function Minus(owed: multiset<Slot>, slot: Slot): multiset<Slot> { owed - multiset{slot} }

  ghost predicate InHand(owed: multiset<Slot>, slot: Slot) { slot in owed }

  lemma PlusMinus(owed: multiset<Slot>, slot: Slot)
    ensures Minus(Plus(owed, slot), slot) == owed
    ensures InHand(Plus(owed, slot), slot)
  {
  }

  lemma PlusCommutes(owed: multiset<Slot>, a: Slot, b: Slot)
    ensures Plus(Plus(owed, a), b) == Plus(Plus(owed, b), a)
  {
  }

  predicate Holds(maps: Maps, slot: Slot) {
    exists k :: k in maps && maps[k].frameCap == slot
  }

  ghost function Holders(procs: Procs, slot: Slot): set<Pid> {
    set p | p in procs && Holds(procs[p].maps, slot)
  }

  /** An absent entry stands for one reference. */
  function Count(refs: map<Slot, nat>, slot: Slot): nat {
    if slot in refs then refs[slot] else 1
  }

  ghost predicate Balanced(procs: Procs, refs: map<Slot, nat>, owed: multiset<Slot>, slot: Slot) {
    Count(refs, slot) == |Holders(procs, slot)| + owed[slot]
  }

  ghost predicate FramesExist(procs: Procs, frames: Frames) {
    forall p, k | p in procs && k in procs[p].maps :: procs[p].maps[k].frameCap in frames
  }

  /** Every frame is counted once per process whose resident table holds it and once per
      reference in `owed`: references the manager has in hand, or has lost on a failure path. */
  ghost predicate RefsOk(procs: Procs, frames: Frames, refs: map<Slot, nat>, owed: multiset<Slot>) {
    && FramesExist(procs, frames)
    && (forall slot | slot in owed :: slot in frames)
    && (forall slot | slot in refs :: slot in frames && refs[slot] >= 1)
    && (forall slot | slot in frames :: Balanced(procs, refs, owed, slot))
  }

  function WithMaps(procs: Procs, pid: Pid, maps: Maps): Procs
    requires pid in procs
  {
    procs[pid := procs[pid].(maps := maps)]
  }

  lemma UpdateAfterRemove(maps: Maps, k: nat, m: MemoryMap)
    ensures Remove(maps, k)[k := m] == maps[k := m]
    ensures k !in Remove(maps, k)
  {
  }

  lemma WithMapsTwice(procs: Procs, pid: Pid, maps: Maps, maps': Maps)
    requires pid in procs
    ensures WithMaps(WithMaps(procs, pid, maps), pid, maps') == WithMaps(procs, pid, maps')
    ensures WithMaps(procs, pid, maps)[pid].maps == maps
  {
  }

  lemma HoldersWithMaps(procs: Procs, pid: Pid, maps: Maps, slot: Slot)
    requires pid in procs
    ensures Holders(WithMaps(procs, pid, maps), slot) ==
              if Holds(maps, slot) then Holders(procs, slot) + {pid} else Holders(procs, slot) - {pid}
  {
  }

  lemma RefsAddMap(procs: Procs, frames: Frames, refs: map<Slot, nat>, owed: multiset<Slot>, pid: Pid, m: MemoryMap)
    requires RefsOk(procs, frames, refs, owed)
    requires pid in procs && m.vaddr !in procs[pid].maps
    requires !Holds(procs[pid].maps, m.frameCap)
    requires InHand(owed, m.frameCap)
    ensures RefsOk(WithMaps(procs, pid, procs[pid].maps[m.vaddr := m]), frames, refs, Minus(owed, m.frameCap))
  {
    FramesExistWithMaps(procs, frames, pid, procs[pid].maps[m.vaddr := m]);
    forall slot | slot in frames
      ensures Balanced(WithMaps(procs, pid, procs[pid].maps[m.vaddr := m]), refs, Minus(owed, m.frameCap), slot)
    {
      BalancedAddMap(procs, refs, owed, pid, m, slot);
    }
  }

  lemma BalancedAddMap(procs: Procs, refs: map<Slot, nat>, owed: multiset<Slot>, pid: Pid, m: MemoryMap, slot: Slot)
    requires Balanced(procs, refs, owed, slot)
    requires pid in procs && m.vaddr !in procs[pid].maps
    requires !Holds(procs[pid].maps, m.frameCap)
    requires InHand(owed, m.frameCap)
    ensures Balanced(WithMaps(procs, pid, procs[pid].maps[m.vaddr := m]), refs, Minus(owed, m.frameCap), slot)
  {
    HoldersWithMaps(procs, pid, procs[pid].maps[m.vaddr := m], slot);
    HoldsAfterAdd(procs[pid].maps, m, slot);
    assert pid in Holders(procs, slot) <==> Holds(procs[pid].maps, slot);
  }

  lemma FramesExistWithMaps(procs: Procs, frames: Frames, pid: Pid, maps: Maps)
    requires FramesExist(procs, frames)
    requires pid in procs
    requires forall k | k in maps :: maps[k].frameCap in frames
    ensures FramesExist(WithMaps(procs, pid, maps), frames)
  {
  }

  /** Counting looks at resident tables only. */
  lemma RefsSameMaps(procs: Procs, procs': Procs, frames: Frames, refs: map<Slot, nat>, owed: multiset<Slot>)
    requires RefsOk(procs, frames, refs, owed)
    requires procs'.Keys == procs.Keys
    requires forall p | p in procs :: procs'[p].maps == procs[p].maps
    ensures RefsOk(procs', frames, refs, owed)
  {
    forall slot | slot in frames
      ensures Balanced(procs', refs, owed, slot)
    {
      assert Balanced(procs, refs, owed, slot);
      assert Holders(procs', slot) == Holders(procs, slot);
    }
  }

  lemma HoldsAfterAdd(maps: Maps, m: MemoryMap, slot: Slot)
    requires m.vaddr !in maps
    ensures Holds(maps[m.vaddr := m], slot) <==> Holds(maps, slot) || slot == m.frameCap
  {
    var maps' := maps[m.vaddr := m];
    assert maps'[m.vaddr].frameCap == m.frameCap;
    if Holds(maps, slot) {
      var k :| k in maps && maps[k].frameCap == slot;
      assert k in maps' && maps'[k].frameCap == slot;
    }
  }

  lemma RefsDropMap(procs: Procs, frames: Frames, refs: map<Slot, nat>, owed: multiset<Slot>, pid: Pid, k: nat)
    requires RefsOk(procs, frames, refs, owed)
    requires pid in procs && k in procs[pid].maps
    requires MapsOk(procs[pid].maps)
    ensures RefsOk(WithMaps(procs, pid, Remove(procs[pid].maps, k)), frames, refs,
                   Plus(owed, procs[pid].maps[k].frameCap))
  {
    FramesExistWithMaps(procs, frames, pid, Remove(procs[pid].maps, k));
    forall slot | slot in frames
      ensures Balanced(WithMaps(procs, pid, Remove(procs[pid].maps, k)), refs,
                       Plus(owed, procs[pid].maps[k].frameCap), slot)
    {
      BalancedDropMap(procs, refs, owed, pid, k, slot);
    }
  }

  lemma BalancedDropMap(procs: Procs, refs: map<Slot, nat>, owed: multiset<Slot>, pid: Pid, k: nat, slot: Slot)
    requires Balanced(procs, refs, owed, slot)
    requires pid in procs && k in procs[pid].maps
    requires MapsOk(procs[pid].maps)
    ensures Balanced(WithMaps(procs, pid, Remove(procs[pid].maps, k)), refs,
                     Plus(owed, procs[pid].maps[k].frameCap), slot)
  {
    HoldersWithMaps(procs, pid, Remove(procs[pid].maps, k), slot);
    HoldsAfterDrop(procs[pid].maps, k, slot);
    assert pid in Holders(procs, slot) <==> Holds(procs[pid].maps, slot);
  }

  lemma HoldsAfterDrop(maps: Maps, k: nat, slot: Slot)
    requires MapsOk(maps) && k in maps
    ensures Holds(Remove(maps, k), slot) <==> Holds(maps, slot) && slot != maps[k].frameCap
  {
    var maps' := Remove(maps, k);
    if Holds(maps, slot) && slot != maps[k].frameCap {
      var j :| j in maps && maps[j].frameCap == slot;
      assert j in maps' && maps'[j].frameCap == slot;
    }
  }

  /** A new frame starts with one reference, in hand. */
  lemma RefsNewFrame(procs: Procs, frames: Frames, refs: map<Slot, nat>, owed: multiset<Slot>, slot: Slot,
                     pages: seq<Page>)
    requires RefsOk(procs, frames, refs, owed)
    requires slot !in frames
    ensures RefsOk(procs, frames[slot := pages], refs, Plus(owed, slot))
    ensures forall p | p in procs :: !Holds(procs[p].maps, slot)
  {
    assert Holders(procs, slot) == {};
    forall t | t in frames
      ensures Balanced(procs, refs, Plus(owed, slot), t)
    {
      assert Balanced(procs, refs, owed, t);
    }
  }

  /** Counting does not look at contents. */
  lemma SetContents(procs: Procs, frames: Frames, refs: map<Slot, nat>, owed: multiset<Slot>, slot: Slot,
                    pages: seq<Page>)
    requires RefsOk(procs, frames, refs, owed) && slot in frames
    ensures RefsOk(procs, frames[slot := pages], refs, owed)
  {
  }

  // ----- retain_frame_cap, release_frame_cap -----

  function Retained(refs: map<Slot, nat>, slot: Slot): map<Slot, nat> {
    refs[slot := Count(refs, slot) + 1]
  }

  function Released(refs: map<Slot, nat>, slot: Slot): map<Slot, nat> {
    if slot in refs && refs[slot] > 1 then refs[slot := refs[slot] - 1] else Remove(refs, slot)
  }

  /** True when the release was the last one and the frame goes back to the resource service. */
  predicate FreesFrame(refs: map<Slot, nat>, slot: Slot) {
    slot !in refs || refs[slot] <= 1
  }

  function FramesAfterRelease(frames: Frames, refs: map<Slot, nat>, slot: Slot): Frames {
    if FreesFrame(refs, slot) then Remove(frames, slot) else frames
  }

  lemma RefsRetain(procs: Procs, frames: Frames, refs: map<Slot, nat>, owed: multiset<Slot>, slot: Slot)
    requires RefsOk(procs, frames, refs, owed)
    requires slot in frames
    ensures RefsOk(procs, frames, Retained(refs, slot), Plus(owed, slot))
  {
    forall t | t in frames
      ensures Balanced(procs, Retained(refs, slot), Plus(owed, slot), t)
    {
      assert Balanced(procs, refs, owed, t);
    }
  }

  /** Giving back a reference in hand frees the frame exactly when no process and no other
      reference is left. */
  lemma RefsRelease(procs: Procs, frames: Frames, refs: map<Slot, nat>, owed: multiset<Slot>, slot: Slot)
    requires RefsOk(procs, frames, refs, owed)
    requires InHand(owed, slot)
    ensures RefsOk(procs, FramesAfterRelease(frames, refs, slot), Released(refs, slot), Minus(owed, slot))
    ensures FreesFrame(refs, slot) <==> Holders(procs, slot) == {} && owed[slot] == 1
  {
    assert Balanced(procs, refs, owed, slot);
    if FreesFrame(refs, slot) {
      forall p, k | p in procs && k in procs[p].maps
        ensures procs[p].maps[k].frameCap != slot
      {
        assert p !in Holders(procs, slot);
      }
    }
    forall t | t in FramesAfterRelease(frames, refs, slot)
      ensures Balanced(procs, Released(refs, slot), Minus(owed, slot), t)
    {
      assert Balanced(procs, refs, owed, t);
    }
  }
}
