/** What a process sees: the content and attributes of each page of its address space,
    whatever tables, frames and frame slots stand behind it. */
module Views {
  import opened Types
  import opened AddressSpace
  import opened Machine

  datatype PageView =
    | Resident(data: Page, flags: Perms, memType: MemoryType, fd: Option<nat>, offset: nat)
    | Unbacked(memType: MemoryType)
    | OnDemand(flags: Perms, memType: MemoryType, fd: Option<nat>, offset: nat)

  /** The page of `m` at address `a`. */
  function PageOf(frames: Frames, m: MemoryMap, a: nat): PageView
    requires m.Covers(a)
  {
    var idx := (a - m.vaddr) / PGSIZE;
    if m.frameCap in frames && idx < |frames[m.frameCap]|
    then Resident(frames[m.frameCap][idx], m.flags, m.memType, m.fd, SatAdd(m.offset, a - m.vaddr))
    else Unbacked(m.memType)
  }

  function LazyPage(m: MemoryMap): PageView {
    OnDemand(m.flags, m.memType, m.fd, m.offset)
  }

  function PageAt(frames: Frames, mm: MmState, a: nat): Option<PageView> {
    match Lookup(mm.maps, a)
    case Some(m) => if m.Covers(a) then Some(PageOf(frames, m, a)) else None
    case None => if a in mm.lazy then Some(LazyPage(mm.lazy[a])) else None
  }

  /** The two spaces show the same page at every page address. */
  ghost predicate SameView(frames: Frames, mm: MmState, frames': Frames, mm': MmState) {
    forall a: nat | a % PGSIZE == 0 :: PageAt(frames', mm', a) == PageAt(frames, mm, a)
  }

  ghost predicate AgreeOn(frames: Frames, frames': Frames, maps: Maps) {
    forall k | k in maps ::
      && maps[k].frameCap in frames && maps[k].frameCap in frames'
      && frames'[maps[k].frameCap] == frames[maps[k].frameCap]
  }

  lemma SameViewReflexive(frames: Frames, mm: MmState)
    ensures SameView(frames, mm, frames, mm)
  {
  }

  lemma SameFramesSameView(frames: Frames, frames': Frames, mm: MmState)
    requires MapsOk(mm.maps)
    requires AgreeOn(frames, frames', mm.maps)
    ensures SameView(frames, mm, frames', mm)
  {
    forall a: nat | a % PGSIZE == 0
      ensures PageAt(frames', mm, a) == PageAt(frames, mm, a)
    {
      LookupExact(mm.maps, a);
    }
  }

  lemma PageAtAddMap(frames: Frames, mm: MmState, m: MemoryMap, a: nat)
    requires MapsOk(mm.maps) && MapShape(m)
    requires FreeOfMaps(mm.maps, m.vaddr, m.End()) && FrameUnheld(mm.maps, m.frameCap)
    ensures PageAt(frames, mm.(maps := mm.maps[m.vaddr := m]), a) ==
              if m.Covers(a) then Some(PageOf(frames, m, a)) else PageAt(frames, mm, a)
  {
    AddMapOk(mm.maps, m);
  }

  lemma PageAtDropMap(frames: Frames, mm: MmState, k: nat, a: nat)
    requires MapsOk(mm.maps) && Apart(mm.maps, mm.lazy)
    requires k in mm.maps
    ensures PageAt(frames, mm.(maps := Remove(mm.maps, k)), a) ==
              if mm.maps[k].Covers(a) then None else PageAt(frames, mm, a)
  {
    DropMapOk(mm.maps, k);
  }

  lemma PageAtReplaceMap(frames: Frames, mm: MmState, k: nat, m: MemoryMap, a: nat)
    requires MapsOk(mm.maps) && k in mm.maps
    requires m.vaddr == k && m.size == mm.maps[k].size && m.memType == mm.maps[k].memType
    requires m.frameCap != 0 && FrameUnheld(Remove(mm.maps, k), m.frameCap)
    ensures PageAt(frames, mm.(maps := mm.maps[k := m]), a) ==
              if m.Covers(a) then Some(PageOf(frames, m, a)) else PageAt(frames, mm, a)
  {
    ReplaceMapOk(mm.maps, k, m);
    assert mm.maps[k].Covers(a) <==> m.Covers(a);
    assert Lookup(mm.maps[k := m], a) == if m.Covers(a) then Some(m) else Lookup(mm.maps, a);
  }

  lemma PageAtAddLazy(frames: Frames, mm: MmState, m: MemoryMap, a: nat)
    requires MapsOk(mm.maps)
    requires FreeOfMaps(mm.maps, m.vaddr, m.vaddr + PGSIZE)
    ensures PageAt(frames, mm.(lazy := mm.lazy[m.vaddr := m]), a) ==
              if a == m.vaddr then Some(LazyPage(m)) else PageAt(frames, mm, a)
  {
    LookupExact(mm.maps, a);
  }
}
