/** Moving a range of anonymous pages: what the tables, the page table and the view become. */
module Moves {
  import opened Types
  import opened AddressSpace
  import opened Machine
  import opened Views
  import opened World
  import opened Ranges
  import opened Splitting
  import opened SplitCalls
  import opened MmapLemmas

  datatype PageState = MappedPage(frameCap: Slot, flags: Perms) | WaitingPage(flags: Perms)

  /** The page at `a` is one a move can take along. */
  predicate StateAt(mm: MmState, a: nat, st: PageState) {
    match st
    case MappedPage(cap, flags) =>
      a in mm.maps && mm.maps[a].memType == Anonymous && mm.maps[a].size == PGSIZE && mm.maps[a].frameCap == cap
      && mm.maps[a].flags == flags
    case WaitingPage(flags) =>
           a !in mm.maps && a in mm.lazy && mm.lazy[a].memType == Anonymous && mm.lazy[a].flags == flags
  }

  ghost predicate StatesAt(mm: MmState, start: nat, states: seq<PageState>) {
    forall i | 0 <= i < |states| :: StateAt(mm, start + i * PGSIZE, states[i])
  }

  function MovedMap(a: nat, st: PageState): MemoryMap {
    MemoryMap(a, PGSIZE, st.flags, Anonymous, false, if st.MappedPage? then st.frameCap else 0, None, 0)
  }

  predicate PlacedHere(a: nat, target: nat, states: seq<PageState>, mapped: bool) {
    a in PageSet(target, |states|) && (states[IdxOf(a, target, |states|)].MappedPage? <==> mapped)
  }

  /** `table` with the mapped (or the waiting) pages of `states` entered from `target` on. */
  function Entered(table: Maps, target: nat, states: seq<PageState>, mapped: bool): Maps {
    map a | a in table.Keys + PageSet(target, |states|) && (a in table || PlacedHere(a, target, states, mapped)) ::
      if PlacedHere(a, target, states, mapped) then MovedMap(a, states[IdxOf(a, target, |states|)]) else table[a]
  }

  function LeftBehind(table: Maps, start: nat, n: nat): Maps { table - PageSet(start, n) }

  /** The space after the move of `states` pages from `start`; `placed` are the pages at `target`. */
  function MovedSpace(mm: MmState, start: nat, n: nat, target: nat, placed: seq<PageState>): MmState {
    mm.(maps := Entered(LeftBehind(mm.maps, start, n), target, placed, true),
        lazy := Entered(LeftBehind(mm.lazy, start, n), target, placed, false))
  }

  /** The pages that arrive: the first ones that fit, then fresh waiting pages. */
  function Arriving(states: seq<PageState>, n: nat, base: Perms): seq<PageState> {
    if n <= |states| then states[..n] else states + seq(n - |states|, i => WaitingPage(base))
  }

  ghost predicate CanMove(mm: MmState, start: nat, target: nat, states: seq<PageState>, placed: seq<PageState>,
                          base: Perms)
  {
    && SpaceOk(mm) && start % PGSIZE == 0 && target % PGSIZE == 0
    && StatesAt(mm, start, states) && placed == Arriving(states, |placed|, base)
    && Vacant(mm, target, target + |placed| * PGSIZE)
    && (target + |placed| * PGSIZE <= start || start + |states| * PGSIZE <= target)
  }

  // ----- Entries of the moved tables -----

  lemma EnteredAt(table: Maps, target: nat, states: seq<PageState>, mapped: bool, a: nat)
    ensures a in Entered(table, target, states, mapped) <==> a in table || PlacedHere(a, target, states, mapped)
    ensures PlacedHere(a, target, states, mapped) ==>
              Entered(table, target, states, mapped)[a] == MovedMap(a, states[IdxOf(a, target, |states|)])
    ensures a in table && !PlacedHere(a, target, states, mapped) ==>
              Entered(table, target, states, mapped)[a] == table[a]
  {
  }

  lemma ArrivingState(states: seq<PageState>, n: nat, base: Perms, i: nat)
    requires i < n
    ensures |Arriving(states, n, base)| == n
    ensures Arriving(states, n, base)[i] == if i < |states| then states[i] else WaitingPage(base)
  {
  }

  lemma InRange(a: nat, start: nat, n: nat)
    requires start % PGSIZE == 0
    ensures a in PageSet(start, n) <==> start <= a < start + n * PGSIZE && a % PGSIZE == 0
  {
  }

  /** A map placed at the target is one page long, over the frame of a map that left. */
  lemma PlacedEntry(mm: MmState, start: nat, target: nat, states: seq<PageState>, placed: seq<PageState>, base: Perms,
                    a: nat)
    requires CanMove(mm, start, target, states, placed, base) && PlacedHere(a, target, placed, true)
    ensures var i := IdxOf(a, target, |placed|);
            && i < |states| && placed[i] == states[i] && placed[i].MappedPage?
            && start + i * PGSIZE in mm.maps && start + i * PGSIZE in PageSet(start, |states|)
            && mm.maps[start + i * PGSIZE].frameCap == placed[i].frameCap && placed[i].frameCap != 0
            && mm.maps[start + i * PGSIZE].size == PGSIZE
            && a % PGSIZE == 0 && target <= a && a + PGSIZE <= target + |placed| * PGSIZE
  {
    hide SpaceOk, MapsOk, Vacant, PageSet;
    SpaceParts(mm);
    var i := IdxOf(a, target, |placed|);
    ArrivingState(states, |placed|, base, i);
    assert StateAt(mm, start + i * PGSIZE, states[i]);
    EntryOf(mm.maps, start + i * PGSIZE);
    InRange(start + i * PGSIZE, start, |states|);
    PieceFits(i, |placed|);
    if i < |states| {
      PieceFits(i, |states|);
    }
  }

  lemma StayedApart(mm: MmState, start: nat, target: nat, states: seq<PageState>, placed: seq<PageState>, base: Perms,
                    k: nat)
    requires CanMove(mm, start, target, states, placed, base) && k in LeftBehind(mm.maps, start, |states|)
    ensures k in mm.maps && !PlacedHere(k, target, placed, true)
    ensures mm.maps[k].End() <= target || target + |placed| * PGSIZE <= k
  {
    hide SpaceOk, MapsOk;
    SpaceParts(mm);
    EntryOf(mm.maps, k);
    InRange(k, target, |placed|);
  }

  lemma MovedPair(mm: MmState, start: nat, target: nat, states: seq<PageState>, placed: seq<PageState>, base: Perms,
                  i: nat, j: nat)
    requires CanMove(mm, start, target, states, placed, base)
    requires i in MovedSpace(mm, start, |states|, target, placed).maps
             && j in MovedSpace(mm, start, |states|, target, placed).maps
    ensures var maps' := MovedSpace(mm, start, |states|, target, placed).maps;
            && EntryOk(maps'[i], i)
            && (i < j ==> maps'[i].End() <= j)
            && (i != j ==> maps'[i].frameCap != maps'[j].frameCap)
  {
    hide SpaceOk, MapsOk, Entered, LeftBehind, PlacedHere, CanMove, StatesAt;
    CanMoveSpace(mm, start, target, states, placed, base);
    var left := LeftBehind(mm.maps, start, |states|);
    EnteredAt(left, target, placed, true, i);
    EnteredAt(left, target, placed, true, j);
    MovedOne(mm, start, target, states, placed, base, i);
    MovedOne(mm, start, target, states, placed, base, j);
    MovedFrames(mm, start, target, states, placed, base, i, j);
    if i in left && j in left {
      LeftIn(mm.maps, start, |states|, i);
      LeftIn(mm.maps, start, |states|, j);
      if i < j {
        OtherApart(mm.maps, i, j);
        EntryOf(mm.maps, i);
      }
    }
  }

  lemma CanMoveSpace(mm: MmState, start: nat, target: nat, states: seq<PageState>, placed: seq<PageState>, base: Perms)
    requires CanMove(mm, start, target, states, placed, base)
    ensures SpaceOk(mm) && MapsOk(mm.maps) && start % PGSIZE == 0 && target % PGSIZE == 0
  {
  }

  lemma LeftIn(table: Maps, start: nat, n: nat, k: nat)
    ensures k in LeftBehind(table, start, n) <==> k in table && k !in PageSet(start, n)
    ensures k in LeftBehind(table, start, n) ==> LeftBehind(table, start, n)[k] == table[k]
  {
  }

  /** An entry that was placed lies in the target range, one that stayed lies outside it. */
  lemma MovedOne(mm: MmState, start: nat, target: nat, states: seq<PageState>, placed: seq<PageState>, base: Perms,
                 i: nat)
    requires CanMove(mm, start, target, states, placed, base)
    requires i in LeftBehind(mm.maps, start, |states|) || PlacedHere(i, target, placed, true)
    ensures var m := if PlacedHere(i, target, placed, true) then MovedMap(i, placed[IdxOf(i, target, |placed|)])
                     else LeftBehind(mm.maps, start, |states|)[i];
            && EntryOk(m, i)
            && (PlacedHere(i, target, placed, true) ==>
                  target <= i && m.End() <= target + |placed| * PGSIZE && m.size == PGSIZE)
            && (!PlacedHere(i, target, placed, true) ==> m.End() <= target || target + |placed| * PGSIZE <= i)
            && (PlacedHere(i, target, placed, true) ==> i !in LeftBehind(mm.maps, start, |states|))
    ensures PlacedHere(i, target, placed, true) ==>
              forall j | PlacedHere(j, target, placed, true) && i < j :: i + PGSIZE <= j
  {
    hide SpaceOk, MapsOk, LeftBehind, PlacedHere, CanMove, StatesAt;
    CanMoveSpace(mm, start, target, states, placed, base);
    LeftIn(mm.maps, start, |states|, i);
    if i in LeftBehind(mm.maps, start, |states|) {
      StayedApart(mm, start, target, states, placed, base, i);
      EntryOf(mm.maps, i);
    } else {
      PlacedEntry(mm, start, target, states, placed, base, i);
      forall j | PlacedHere(j, target, placed, true) && i < j
        ensures i + PGSIZE <= j
      {
        PlacedEntry(mm, start, target, states, placed, base, j);
        NextPage(i, j);
      }
    }
  }

  lemma MovedFrames(mm: MmState, start: nat, target: nat, states: seq<PageState>, placed: seq<PageState>, base: Perms,
                    i: nat, j: nat)
    requires CanMove(mm, start, target, states, placed, base)
    requires i in MovedSpace(mm, start, |states|, target, placed).maps
             && j in MovedSpace(mm, start, |states|, target, placed).maps
    ensures var maps' := MovedSpace(mm, start, |states|, target, placed).maps;
            i != j ==> maps'[i].frameCap != maps'[j].frameCap
  {
    hide SpaceOk, MapsOk, Entered, LeftBehind, PlacedHere, CanMove, StatesAt;
    CanMoveSpace(mm, start, target, states, placed, base);
    var left := LeftBehind(mm.maps, start, |states|);
    EnteredAt(left, target, placed, true, i);
    EnteredAt(left, target, placed, true, j);
    var i0 := SourceOf(mm, start, target, states, placed, base, i);
    var j0 := SourceOf(mm, start, target, states, placed, base, j);
    SourceIs(mm, start, target, states, placed, base, i);
    SourceIs(mm, start, target, states, placed, base, j);
    if i != j {
      SourceDiffers(mm, start, target, states, placed, base, i, j);
      FramesDiffer(mm.maps, i0, j0);
    }
  }

  lemma FramesDiffer(maps: Maps, i: nat, j: nat)
    requires MapsOk(maps) && i in maps && j in maps
    ensures i != j ==> maps[i].frameCap != maps[j].frameCap
  {
  }

  /** The map of the old table an entry of the new one comes from. */
  function SourceOf(mm: MmState, start: nat, target: nat, states: seq<PageState>, placed: seq<PageState>, base: Perms,
                    i: nat): nat
  {
    if PlacedHere(i, target, placed, true) then start + IdxOf(i, target, |placed|) * PGSIZE else i
  }

  lemma SourceIs(mm: MmState, start: nat, target: nat, states: seq<PageState>, placed: seq<PageState>, base: Perms,
                 i: nat)
    requires CanMove(mm, start, target, states, placed, base)
    requires i in MovedSpace(mm, start, |states|, target, placed).maps
    ensures var maps' := MovedSpace(mm, start, |states|, target, placed).maps;
            var i0 := SourceOf(mm, start, target, states, placed, base, i);
            && i0 in mm.maps && maps'[i].frameCap == mm.maps[i0].frameCap && maps'[i].flags == mm.maps[i0].flags
            && (PlacedHere(i, target, placed, true) ==>
                  maps'[i].size == PGSIZE == mm.maps[i0].size && i0 in PageSet(start, |states|))
            && (!PlacedHere(i, target, placed, true) ==> maps'[i] == mm.maps[i] && i !in PageSet(start, |states|))
  {
    hide SpaceOk, MapsOk, Entered, LeftBehind, PlacedHere, CanMove, StatesAt, PageSet;
    var left := LeftBehind(mm.maps, start, |states|);
    EnteredAt(left, target, placed, true, i);
    LeftIn(mm.maps, start, |states|, i);
    if PlacedHere(i, target, placed, true) {
      PlacedEntry(mm, start, target, states, placed, base, i);
      PlacedState(mm, start, target, states, placed, base, i);
    }
  }

  lemma PlacedState(mm: MmState, start: nat, target: nat, states: seq<PageState>, placed: seq<PageState>, base: Perms,
                    i: nat)
    requires CanMove(mm, start, target, states, placed, base) && PlacedHere(i, target, placed, true)
    ensures var k := start + IdxOf(i, target, |placed|) * PGSIZE;
            var st := placed[IdxOf(i, target, |placed|)];
            st.MappedPage? && StateAt(mm, k, st)
  {
    hide SpaceOk, Vacant, PageSet;
    ArrivingState(states, |placed|, base, IdxOf(i, target, |placed|));
  }

  lemma SourceDiffers(mm: MmState, start: nat, target: nat, states: seq<PageState>, placed: seq<PageState>, base: Perms,
                      i: nat, j: nat)
    requires CanMove(mm, start, target, states, placed, base) && i != j
    requires i in MovedSpace(mm, start, |states|, target, placed).maps
             && j in MovedSpace(mm, start, |states|, target, placed).maps
    ensures SourceOf(mm, start, target, states, placed, base, i) != SourceOf(mm, start, target, states, placed, base, j)
  {
    hide SpaceOk, MapsOk, Entered, LeftBehind, CanMove, StatesAt, PageSet;
    SourceIs(mm, start, target, states, placed, base, i);
    SourceIs(mm, start, target, states, placed, base, j);
  }

  // ----- The space after the move -----

  lemma MovedMapsOk(mm: MmState, start: nat, target: nat, states: seq<PageState>, placed: seq<PageState>, base: Perms)
    requires CanMove(mm, start, target, states, placed, base)
    ensures MapsOk(MovedSpace(mm, start, |states|, target, placed).maps)
  {
    hide SpaceOk, MapsOk, Entered, LeftBehind, PlacedHere, CanMove, StatesAt, EntryOk;
    var maps' := MovedSpace(mm, start, |states|, target, placed).maps;
    forall i, j | i in maps' && j in maps'
      ensures EntryOk(maps'[i], i) && (i < j ==> maps'[i].End() <= j)
              && (i != j ==> maps'[i].frameCap != maps'[j].frameCap)
    {
      MovedPair(mm, start, target, states, placed, base, i, j);
    }
    EntriesMakeMaps(maps');
  }

  lemma MovedLazyEntry(mm: MmState, start: nat, target: nat, states: seq<PageState>, placed: seq<PageState>,
                       base: Perms, l: nat)
    requires CanMove(mm, start, target, states, placed, base)
    requires l in MovedSpace(mm, start, |states|, target, placed).lazy
    ensures var m := MovedSpace(mm, start, |states|, target, placed).lazy[l];
            && m.vaddr == l && l % PGSIZE == 0 && m.size == PGSIZE && m.frameCap == 0 && IsRemappable(m.memType)
            && m.offset <= USIZE_MAX
            && (if PlacedHere(l, target, placed, false)
                then target <= l && l + PGSIZE <= target + |placed| * PGSIZE && !PlacedHere(l, target, placed, true)
                else l in mm.lazy && m == mm.lazy[l] && l !in PageSet(start, |states|))
  {
    hide SpaceOk, MapsOk, Apart, StackOk, Entered, LeftBehind, Vacant, StatesAt, PageSet;
    SpaceParts(mm);
    EnteredAt(LeftBehind(mm.lazy, start, |states|), target, placed, false, l);
    LeftIn(mm.lazy, start, |states|, l);
    InRange(l, target, |placed|);
    if PlacedHere(l, target, placed, false) {
      PieceFits(IdxOf(l, target, |placed|), |placed|);
    }
  }

  lemma MovedSpaceOk(mm: MmState, start: nat, target: nat, states: seq<PageState>, placed: seq<PageState>, base: Perms)
    requires CanMove(mm, start, target, states, placed, base)
    ensures SpaceOk(MovedSpace(mm, start, |states|, target, placed))
  {
    hide SpaceOk, MapsOk, Apart, StackOk, Entered, LeftBehind, Vacant, StatesAt, PageSet, PlacedHere, CanMove;
    CanMoveSpace(mm, start, target, states, placed, base);
    MovedMapsOk(mm, start, target, states, placed, base);
    MovedLazyOk(mm, start, target, states, placed, base);
    MovedApart(mm, start, target, states, placed, base);
    MovedStack(mm, start, target, states, placed, base);
    MakeSpace(mm, MovedSpace(mm, start, |states|, target, placed));
  }

  lemma MakeSpace(mm: MmState, mm': MmState)
    requires SpaceOk(mm) && mm' == mm.(maps := mm'.maps, lazy := mm'.lazy)
    requires MapsOk(mm'.maps) && LazyOk(mm'.lazy) && Apart(mm'.maps, mm'.lazy) && StackOk(mm')
    ensures SpaceOk(mm')
  {
  }

  lemma MovedLazyOk(mm: MmState, start: nat, target: nat, states: seq<PageState>, placed: seq<PageState>, base: Perms)
    requires CanMove(mm, start, target, states, placed, base)
    ensures LazyOk(MovedSpace(mm, start, |states|, target, placed).lazy)
  {
    hide SpaceOk, MapsOk, Apart, StackOk, Entered, LeftBehind, Vacant, StatesAt, PageSet, PlacedHere, CanMove;
    forall l | l in MovedSpace(mm, start, |states|, target, placed).lazy
      ensures var m := MovedSpace(mm, start, |states|, target, placed).lazy[l];
              && m.vaddr == l && l % PGSIZE == 0 && m.size == PGSIZE && m.frameCap == 0 && IsRemappable(m.memType)
              && m.offset <= USIZE_MAX
    {
      MovedLazyEntry(mm, start, target, states, placed, base, l);
    }
  }

  /** What stays of the lazy table lies apart from the target range too. */
  lemma LazyStayed(mm: MmState, start: nat, target: nat, states: seq<PageState>, placed: seq<PageState>, base: Perms,
                   l: nat)
    requires CanMove(mm, start, target, states, placed, base) && l in mm.lazy
    ensures l + PGSIZE <= target || target + |placed| * PGSIZE <= l
    ensures forall k | k in mm.maps :: l + PGSIZE <= k || mm.maps[k].End() <= l
  {
    hide MapsOk, StackOk, LazyOk, StatesAt;
  }

  lemma MovedApart(mm: MmState, start: nat, target: nat, states: seq<PageState>, placed: seq<PageState>, base: Perms)
    requires CanMove(mm, start, target, states, placed, base)
    ensures Apart(MovedSpace(mm, start, |states|, target, placed).maps,
                  MovedSpace(mm, start, |states|, target, placed).lazy)
  {
    hide SpaceOk, MapsOk, StackOk, Entered, LeftBehind, Vacant, StatesAt, PageSet, PlacedHere, CanMove, EntryOk;
    var mm' := MovedSpace(mm, start, |states|, target, placed);
    forall k, l | k in mm'.maps && l in mm'.lazy
      ensures l + PGSIZE <= k || mm'.maps[k].End() <= l
    {
      MovedApartPair(mm, start, target, states, placed, base, k, l);
    }
  }

  lemma MovedApartPair(mm: MmState, start: nat, target: nat, states: seq<PageState>, placed: seq<PageState>,
                       base: Perms, k: nat, l: nat)
    requires CanMove(mm, start, target, states, placed, base)
    requires k in MovedSpace(mm, start, |states|, target, placed).maps
             && l in MovedSpace(mm, start, |states|, target, placed).lazy
    ensures l + PGSIZE <= k || MovedSpace(mm, start, |states|, target, placed).maps[k].End() <= l
  {
    hide SpaceOk, MapsOk, StackOk, Entered, LeftBehind, Vacant, StatesAt, PageSet, PlacedHere, CanMove, EntryOk;
    CanMoveSpace(mm, start, target, states, placed, base);
    var left := LeftBehind(mm.maps, start, |states|);
    EnteredAt(left, target, placed, true, k);
    LeftIn(mm.maps, start, |states|, k);
    MovedOne(mm, start, target, states, placed, base, k);
    MovedLazyEntry(mm, start, target, states, placed, base, l);
    if l in mm.lazy {
      LazyStayed(mm, start, target, states, placed, base, l);
    }
    if PlacedHere(k, target, placed, true) && PlacedHere(l, target, placed, false) {
      PlacedEntry(mm, start, target, states, placed, base, k);
      if k < l {
        NextPage(k, l);
      } else if l < k {
        NextPage(l, k);
      }
    }
  }

  lemma MovedStack(mm: MmState, start: nat, target: nat, states: seq<PageState>, placed: seq<PageState>, base: Perms)
    requires CanMove(mm, start, target, states, placed, base)
    ensures StackOk(MovedSpace(mm, start, |states|, target, placed))
  {
    hide SpaceOk, MapsOk, Apart, LazyOk, Entered, LeftBehind, StatesAt, PageSet, PlacedHere, CanMove, EntryOk, Vacant;
    var mm' := MovedSpace(mm, start, |states|, target, placed);
    CanMoveSpace(mm, start, target, states, placed, base);
    SpaceParts(mm);
    CanMoveOutside(mm, start, target, states, placed, base);
    forall a | mm.StackBoundary() <= a < mm.stackBottom && a % PGSIZE == 0
      ensures a in mm'.maps && mm'.maps[a].memType == Stack
    {
      StackStays(mm, start, target, states, placed, base, a);
    }
    forall k | k in mm'.maps
      ensures if mm'.maps[k].memType == Stack
              then mm.StackBoundary() <= k < mm.stackBottom
              else mm'.maps[k].End() <= mm.StackLow() || mm.stackBottom <= k
    {
      EnteredAt(LeftBehind(mm.maps, start, |states|), target, placed, true, k);
      LeftIn(mm.maps, start, |states|, k);
      MovedOne(mm, start, target, states, placed, base, k);
    }
    forall l | l in mm'.lazy
      ensures l + PGSIZE <= mm.StackLow() || mm.stackBottom <= l
    {
      MovedLazyEntry(mm, start, target, states, placed, base, l);
    }
  }

  lemma CanMoveOutside(mm: MmState, start: nat, target: nat, states: seq<PageState>, placed: seq<PageState>,
                       base: Perms)
    requires CanMove(mm, start, target, states, placed, base)
    ensures target + |placed| * PGSIZE <= mm.StackLow() || mm.stackBottom <= target
  {
  }

  lemma MovingIsAnonymous(mm: MmState, start: nat, states: seq<PageState>, a: nat)
    requires StatesAt(mm, start, states) && a in mm.maps
    ensures a in PageSet(start, |states|) ==> mm.maps[a].memType == Anonymous
  {
    if a in PageSet(start, |states|) {
      var i := IdxOf(a, start, |states|);
      assert StateAt(mm, start + i * PGSIZE, states[i]);
    }
  }

  /** A stack page is not one that can move. */
  lemma StackStays(mm: MmState, start: nat, target: nat, states: seq<PageState>, placed: seq<PageState>, base: Perms,
                   a: nat)
    requires CanMove(mm, start, target, states, placed, base) && a in mm.maps && mm.maps[a].memType == Stack
    ensures a in MovedSpace(mm, start, |states|, target, placed).maps
    ensures MovedSpace(mm, start, |states|, target, placed).maps[a] == mm.maps[a]
  {
    hide SpaceOk, MapsOk, Entered, LeftBehind, Vacant, PlacedHere;
    LeftIn(mm.maps, start, |states|, a);
    MovingIsAnonymous(mm, start, states, a);
    EnteredAt(LeftBehind(mm.maps, start, |states|), target, placed, true, a);
    StayedApart(mm, start, target, states, placed, base, a);
  }

  // ----- The view -----

  /** The page as it arrives: its contents and permissions, now plain anonymous memory. */
  function Arrived(v: Option<PageView>): Option<PageView> {
    match v
    case Some(Resident(data, flags, _, _, _)) => Some(Resident(data, flags, Anonymous, None, 0))
    case Some(OnDemand(flags, _, _, _)) => Some(OnDemand(flags, Anonymous, None, 0))
    case _ => v
  }

  /** Page i of the target shows what page i of the old range showed; the pages past the old
      length wait, zeroed; the old range is gone; every other page is what it was. */
  ghost predicate MovedView(w: World, w': World, pid: Pid, start: nat, oldPages: nat, target: nat, newPages: nat,
                            base: Perms)
  {
    && pid in w.procs && pid in w'.procs
    && forall a: nat | a % PGSIZE == 0 ::
         PageAt(w'.frames, w'.procs[pid], a) == MovedPageAt(w, pid, start, oldPages, target, newPages, base, a)
  }

  lemma PlacedIn(a: nat, target: nat, placed: seq<PageState>)
    ensures PlacedHere(a, target, placed, true) || PlacedHere(a, target, placed, false) ==>
              a in PageSet(target, |placed|)
    ensures !(PlacedHere(a, target, placed, true) && PlacedHere(a, target, placed, false))
  {
  }

  /** A page that shows its own frame's only page. */
  lemma ArrivedPage(frames: Frames, frames': Frames, mm: MmState, start: nat, target: nat, states: seq<PageState>,
                    placed: seq<PageState>, base: Perms, a: nat)
    requires CanMove(mm, start, target, states, placed, base) && PlacedHere(a, target, placed, true)
    requires AgreeOn(frames, frames', MovedSpace(mm, start, |states|, target, placed).maps) && Backed(frames, mm.maps)
    ensures a - target < |states| * PGSIZE
    ensures PageAt(frames', MovedSpace(mm, start, |states|, target, placed), a) ==
              Arrived(PageAt(frames, mm, start + (a - target)))
  {
    hide SpaceOk, MapsOk, LeftBehind, Vacant, Lookup, CanMove, PlacedHere, Entered, PageSet, StatesAt;
    var mm' := MovedSpace(mm, start, |states|, target, placed);
    PlacedIn(a, target, placed);
    var i := IdxOf(a, target, |placed|);
    var k := start + i * PGSIZE;
    CanMoveSpace(mm, start, target, states, placed, base);
    MovedMapsOk(mm, start, target, states, placed, base);
    PlacedEntry(mm, start, target, states, placed, base, a);
    PlacedState(mm, start, target, states, placed, base, a);
    EnteredAt(LeftBehind(mm.maps, start, |states|), target, placed, true, a);
    EntryOf(mm.maps, k);
    LookupExact(mm.maps, k);
    LookupExact(mm'.maps, a);
    assert a - target == i * PGSIZE;
    PieceFits(i, |states|);
    assert mm'.maps[a] == MovedMap(a, placed[i]) && mm'.maps[a].Covers(a) && mm.maps[k].Covers(k);
  }

  lemma WaitingArrives(frames: Frames, frames': Frames, mm: MmState, start: nat, target: nat, states: seq<PageState>,
                       placed: seq<PageState>, base: Perms, a: nat)
    requires CanMove(mm, start, target, states, placed, base) && PlacedHere(a, target, placed, false)
    ensures PageAt(frames', MovedSpace(mm, start, |states|, target, placed), a) ==
              if a - target < |states| * PGSIZE then Arrived(PageAt(frames, mm, start + (a - target)))
              else Some(OnDemand(base, Anonymous, None, 0))
  {
    hide MapsOk, LazyOk, StackOk, LeftBehind, Vacant, Lookup, PlacedHere, Entered, PageSet, StatesAt;
    var mm' := MovedSpace(mm, start, |states|, target, placed);
    PlacedIn(a, target, placed);
    WaitingState(mm, start, target, states, placed, base, a);
    MovedSpaceOk(mm, start, target, states, placed, base);
    EnteredAt(LeftBehind(mm.lazy, start, |states|), target, placed, false, a);
    CoveredIsNotLazy(mm', a);
    LookupExact(mm'.maps, a);
    var i := IdxOf(a, target, |placed|);
    assert a - target == i * PGSIZE;
    if i < |states| {
      CoveredIsNotLazy(mm, start + i * PGSIZE);
      PieceFits(i, |states|);
    }
  }

  lemma WaitingState(mm: MmState, start: nat, target: nat, states: seq<PageState>, placed: seq<PageState>, base: Perms,
                     a: nat)
    requires CanMove(mm, start, target, states, placed, base) && PlacedHere(a, target, placed, false)
    ensures var i := IdxOf(a, target, |placed|);
            && placed[i].WaitingPage?
            && (if i < |states| then placed[i] == states[i] && StateAt(mm, start + i * PGSIZE, states[i])
                else placed[i] == WaitingPage(base))
  {
    hide SpaceOk, Vacant, PageSet;
    ArrivingState(states, |placed|, base, IdxOf(a, target, |placed|));
  }

  /** A page of the old range is gone; one outside both ranges is untouched. */
  lemma OtherPage(frames: Frames, frames': Frames, mm: MmState, start: nat, target: nat, states: seq<PageState>,
                  placed: seq<PageState>, base: Perms, a: nat)
    requires CanMove(mm, start, target, states, placed, base) && a % PGSIZE == 0
    requires AgreeOn(frames, frames', MovedSpace(mm, start, |states|, target, placed).maps)
    requires !(target <= a < target + |placed| * PGSIZE)
    ensures PageAt(frames', MovedSpace(mm, start, |states|, target, placed), a) ==
              if start <= a < start + |states| * PGSIZE then None else PageAt(frames, mm, a)
  {
    hide SpaceOk, MapsOk, LeftBehind, Vacant, Lookup, CanMove, PlacedHere, Entered, PageSet, StatesAt, MemoryMap.Covers,
         PageOf;
    var mm' := MovedSpace(mm, start, |states|, target, placed);
    CanMoveSpace(mm, start, target, states, placed, base);
    MovedMapsOk(mm, start, target, states, placed, base);
    LookupExact(mm.maps, a);
    LookupExact(mm'.maps, a);
    InRange(a, target, |placed|);
    InRange(a, start, |states|);
    NotPlaced(a, target, placed);
    LeftIn(mm.lazy, start, |states|, a);
    EnteredAt(LeftBehind(mm.lazy, start, |states|), target, placed, false, a);
    OtherCover(mm, start, target, states, placed, base, a);
    CoveredIsNotLazy(mm, a);
    if Lookup(mm'.maps, a).Some? {
      SameMovedPage(frames, frames', mm'.maps, Lookup(mm'.maps, a).value.vaddr, a);
    }
  }

  lemma SameMovedPage(frames: Frames, frames': Frames, maps: Maps, k: nat, a: nat)
    requires AgreeOn(frames, frames', maps) && k in maps && maps[k].Covers(a)
    ensures PageOf(frames', maps[k], a) == PageOf(frames, maps[k], a)
  {
  }

  lemma NotPlaced(a: nat, target: nat, placed: seq<PageState>)
    requires a !in PageSet(target, |placed|)
    ensures !PlacedHere(a, target, placed, true) && !PlacedHere(a, target, placed, false)
  {
  }

  /** Which maps cover a page outside the target: the old ones, without those that left. */
  lemma OtherCover(mm: MmState, start: nat, target: nat, states: seq<PageState>, placed: seq<PageState>, base: Perms,
                   a: nat)
    requires CanMove(mm, start, target, states, placed, base) && a % PGSIZE == 0
    requires !(target <= a < target + |placed| * PGSIZE)
    ensures var maps' := MovedSpace(mm, start, |states|, target, placed).maps;
            && (forall k | k in maps' && maps'[k].Covers(a) ::
                  k in mm.maps && maps'[k] == mm.maps[k] && a !in PageSet(start, |states|))
            && (forall k | k in mm.maps && mm.maps[k].Covers(a) && a !in PageSet(start, |states|) ::
                  k in maps' && maps'[k] == mm.maps[k])
            && (a in PageSet(start, |states|) ==>
                  a in mm.maps || (a in mm.lazy && forall k | k in mm.maps :: !mm.maps[k].Covers(a)))
  {
    hide SpaceOk, MapsOk, LeftBehind, Vacant, CanMove, PlacedHere, Entered, PageSet, StatesAt, EntryOk;
    var maps' := MovedSpace(mm, start, |states|, target, placed).maps;
    CanMoveSpace(mm, start, target, states, placed, base);
    forall k | k in maps' && maps'[k].Covers(a)
      ensures k in mm.maps && maps'[k] == mm.maps[k] && a !in PageSet(start, |states|)
    {
      EnteredAt(LeftBehind(mm.maps, start, |states|), target, placed, true, k);
      LeftIn(mm.maps, start, |states|, k);
      MovedOne(mm, start, target, states, placed, base, k);
      StayedCover(mm, start, target, states, placed, base, k, a);
    }
    forall k | k in mm.maps && mm.maps[k].Covers(a) && a !in PageSet(start, |states|)
      ensures k in maps' && maps'[k] == mm.maps[k]
    {
      EnteredAt(LeftBehind(mm.maps, start, |states|), target, placed, true, k);
      LeftIn(mm.maps, start, |states|, k);
      StayedCover(mm, start, target, states, placed, base, k, a);
      if k in LeftBehind(mm.maps, start, |states|) {
        StayedApart(mm, start, target, states, placed, base, k);
      }
    }
    MovingPage(mm, start, target, states, placed, base, a);
  }

  /** A map that covers a page of the old range is that page's own. */
  lemma StayedCover(mm: MmState, start: nat, target: nat, states: seq<PageState>, placed: seq<PageState>, base: Perms,
                    k: nat, a: nat)
    requires CanMove(mm, start, target, states, placed, base) && a % PGSIZE == 0
    ensures k in mm.maps && mm.maps[k].Covers(a) ==> (k in PageSet(start, |states|) <==> a in PageSet(start, |states|))
  {
    hide SpaceOk, MapsOk, Vacant, PageSet, StatesAt;
    SpaceParts(mm);
    if k in mm.maps && mm.maps[k].Covers(a) {
      EntryOf(mm.maps, k);
      if k in PageSet(start, |states|) {
        MovingEntry(mm, start, states, k);
        SoleEntry(k, a);
      }
      if a in PageSet(start, |states|) {
        MovingEntry(mm, start, states, a);
        if a in mm.maps && a != k {
          EntryOf(mm.maps, a);
          OtherApart(mm.maps, k, a);
        }
        CoveredIsNotLazy(mm, a);
        LookupExact(mm.maps, a);
      }
    }
  }

  lemma SoleEntry(k: nat, a: nat)
    requires k % PGSIZE == 0 && a % PGSIZE == 0 && k <= a < k + PGSIZE
    ensures a == k
  {
  }

  lemma MovingEntry(mm: MmState, start: nat, states: seq<PageState>, k: nat)
    requires StatesAt(mm, start, states) && k in PageSet(start, |states|)
    ensures if k in mm.maps then mm.maps[k].size == PGSIZE else k in mm.lazy
  {
    var i := IdxOf(k, start, |states|);
    assert StateAt(mm, start + i * PGSIZE, states[i]);
  }

  lemma MovingPage(mm: MmState, start: nat, target: nat, states: seq<PageState>, placed: seq<PageState>, base: Perms,
                   a: nat)
    requires CanMove(mm, start, target, states, placed, base)
    ensures a in PageSet(start, |states|) ==>
              a in mm.maps || (a in mm.lazy && forall k | k in mm.maps :: !mm.maps[k].Covers(a))
  {
    hide SpaceOk, MapsOk, Vacant, PageSet, StatesAt;
    SpaceParts(mm);
    if a in PageSet(start, |states|) {
      MovingEntry(mm, start, states, a);
      CoveredIsNotLazy(mm, a);
      LookupExact(mm.maps, a);
    }
  }

  ghost function MovedPageAt(w: World, pid: Pid, start: nat, oldPages: nat, target: nat, newPages: nat, base: Perms,
                             a: nat): Option<PageView>
    requires pid in w.procs
  {
    if target <= a < target + newPages * PGSIZE then
      (if a - target < oldPages * PGSIZE then Arrived(PageAt(w.frames, w.procs[pid], start + (a - target)))
       else Some(OnDemand(base, Anonymous, None, 0)))
    else if start <= a < start + oldPages * PGSIZE then None
    else PageAt(w.frames, w.procs[pid], a)
  }

  lemma MoveShowsPage(w: World, w': World, pid: Pid, start: nat, target: nat, states: seq<PageState>,
                      placed: seq<PageState>, base: Perms, a: nat)
    requires pid in w.procs && pid in w'.procs && a % PGSIZE == 0
    requires CanMove(w.procs[pid], start, target, states, placed, base)
    requires w'.procs[pid].maps == MovedSpace(w.procs[pid], start, |states|, target, placed).maps
    requires w'.procs[pid].lazy == MovedSpace(w.procs[pid], start, |states|, target, placed).lazy
    requires AgreeOn(w.frames, w'.frames, w'.procs[pid].maps) && Backed(w.frames, w.procs[pid].maps)
    ensures PageAt(w'.frames, w'.procs[pid], a) == MovedPageAt(w, pid, start, |states|, target, |placed|, base, a)
  {
    hide SpaceOk, MapsOk, LeftBehind, Vacant, CanMove, PlacedHere, Entered, PageSet, StatesAt, PageAt, Backed, AgreeOn,
         Arrived;
    var mm := w.procs[pid];
    SameTablesPages(w'.frames, w'.procs[pid], MovedSpace(mm, start, |states|, target, placed));
    CanMoveSpace(mm, start, target, states, placed, base);
    InRange(a, target, |placed|);
    if target <= a < target + |placed| * PGSIZE {
      PlacedSomehow(a, target, placed);
      if PlacedHere(a, target, placed, true) {
        ArrivedPage(w.frames, w'.frames, mm, start, target, states, placed, base, a);
      } else {
        WaitingArrives(w.frames, w'.frames, mm, start, target, states, placed, base, a);
      }
    } else {
      OtherPage(w.frames, w'.frames, mm, start, target, states, placed, base, a);
    }
  }

  lemma MoveShows(w: World, w': World, pid: Pid, start: nat, target: nat, states: seq<PageState>,
                  placed: seq<PageState>, base: Perms)
    requires pid in w.procs && pid in w'.procs
    requires CanMove(w.procs[pid], start, target, states, placed, base)
    requires w'.procs[pid].maps == MovedSpace(w.procs[pid], start, |states|, target, placed).maps
    requires w'.procs[pid].lazy == MovedSpace(w.procs[pid], start, |states|, target, placed).lazy
    requires AgreeOn(w.frames, w'.frames, w'.procs[pid].maps) && Backed(w.frames, w.procs[pid].maps)
    ensures MovedView(w, w', pid, start, |states|, target, |placed|, base)
  {
    hide SpaceOk, CanMove, PageAt, MovedPageAt, Backed, AgreeOn, MovedSpace;
    forall a: nat | a % PGSIZE == 0
      ensures PageAt(w'.frames, w'.procs[pid], a) == MovedPageAt(w, pid, start, |states|, target, |placed|, base, a)
    {
      MoveShowsPage(w, w', pid, start, target, states, placed, base, a);
    }
  }

  lemma PlacedSomehow(a: nat, target: nat, placed: seq<PageState>)
    requires a in PageSet(target, |placed|)
    ensures PlacedHere(a, target, placed, true) || PlacedHere(a, target, placed, false)
  {
  }

  lemma SameTablesPages(frames: Frames, mm: MmState, mm': MmState)
    requires mm.maps == mm'.maps && mm.lazy == mm'.lazy
    ensures forall a: nat :: PageAt(frames, mm, a) == PageAt(frames, mm', a)
  {
  }
}
