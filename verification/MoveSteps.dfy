/** Moving a range: the references, the page table, and what becomes of copy-on-write. */
module MoveSteps {
  import opened Types
  import opened AddressSpace
  import opened Machine
  import opened Views
  import opened World
  import opened DropMaps
  import opened Splitting
  import opened Reflag
  import opened ForkLemmas
  import opened MmapLemmas
  import opened Moves

  // ----- References -----

  /** The frames of the pages past the new length: no table holds them any more. */
  ghost function TailCaps(states: seq<PageState>, n: nat): set<Slot> {
    set i | n <= i < |states| && states[i].MappedPage? :: states[i].frameCap
  }

  lemma MovedHolds(mm: MmState, start: nat, target: nat, states: seq<PageState>, placed: seq<PageState>, base: Perms,
                   slot: Slot)
    requires CanMove(mm, start, target, states, placed, base)
    ensures Holds(MovedSpace(mm, start, |states|, target, placed).maps, slot) <==>
              Holds(mm.maps, slot) && slot !in TailCaps(states, |placed|)
    ensures slot in TailCaps(states, |placed|) ==> Holds(mm.maps, slot)
  {
    hide SpaceOk, MapsOk, Entered, LeftBehind, PlacedHere, CanMove, StatesAt, PageSet, Holds, TailCaps;
    if slot in TailCaps(states, |placed|) {
      TailHeld(mm, start, target, states, placed, base, slot);
    }
    if Holds(MovedSpace(mm, start, |states|, target, placed).maps, slot) {
      HeldBefore(mm, start, target, states, placed, base, slot);
    }
    if Holds(mm.maps, slot) && slot !in TailCaps(states, |placed|) {
      HeldAfter(mm, start, target, states, placed, base, slot);
    }
  }

  lemma TailHeld(mm: MmState, start: nat, target: nat, states: seq<PageState>, placed: seq<PageState>, base: Perms,
                 slot: Slot)
    requires CanMove(mm, start, target, states, placed, base) && slot in TailCaps(states, |placed|)
    ensures Holds(mm.maps, slot)
  {
    hide SpaceOk, Vacant;
    var i :| |placed| <= i < |states| && states[i].MappedPage? && states[i].frameCap == slot;
    assert StateAt(mm, start + i * PGSIZE, states[i]);
  }

  lemma HeldBefore(mm: MmState, start: nat, target: nat, states: seq<PageState>, placed: seq<PageState>, base: Perms,
                   slot: Slot)
    requires CanMove(mm, start, target, states, placed, base)
    requires Holds(MovedSpace(mm, start, |states|, target, placed).maps, slot)
    ensures Holds(mm.maps, slot) && slot !in TailCaps(states, |placed|)
  {
    hide SpaceOk, MapsOk, Vacant, Entered, LeftBehind, PlacedHere, PageSet, StatesAt;
    var maps' := MovedSpace(mm, start, |states|, target, placed).maps;
    SpaceParts(mm);
    var k :| k in maps' && maps'[k].frameCap == slot;
    SourceIs(mm, start, target, states, placed, base, k);
    var k0 := SourceOf(mm, start, target, states, placed, base, k);
    assert mm.maps[k0].frameCap == slot;
    if slot in TailCaps(states, |placed|) {
      var i :| |placed| <= i < |states| && states[i].MappedPage? && states[i].frameCap == slot;
      TailSource(mm, start, target, states, placed, base, i, k);
    }
  }

  /** The map of a tail page is no source. */
  lemma TailSource(mm: MmState, start: nat, target: nat, states: seq<PageState>, placed: seq<PageState>, base: Perms,
                   i: nat, k: nat)
    requires CanMove(mm, start, target, states, placed, base) && |placed| <= i < |states| && states[i].MappedPage?
    requires k in MovedSpace(mm, start, |states|, target, placed).maps
    ensures MovedSpace(mm, start, |states|, target, placed).maps[k].frameCap != states[i].frameCap
  {
    hide SpaceOk, MapsOk, Vacant, Entered, LeftBehind, PlacedHere, PageSet;
    SpaceParts(mm);
    SourceIs(mm, start, target, states, placed, base, k);
    var k0 := SourceOf(mm, start, target, states, placed, base, k);
    assert StateAt(mm, start + i * PGSIZE, states[i]);
    InRange(start + i * PGSIZE, start, |states|);
    PieceFits(i, |states|);
    PlacedIn(k, target, placed);
    FramesDiffer(mm.maps, k0, start + i * PGSIZE);
  }

  lemma HeldAfter(mm: MmState, start: nat, target: nat, states: seq<PageState>, placed: seq<PageState>, base: Perms,
                  slot: Slot)
    requires CanMove(mm, start, target, states, placed, base)
    requires Holds(mm.maps, slot) && slot !in TailCaps(states, |placed|)
    ensures Holds(MovedSpace(mm, start, |states|, target, placed).maps, slot)
  {
    hide SpaceOk, MapsOk, Vacant, Entered, LeftBehind, PlacedHere, PageSet;
    var maps' := MovedSpace(mm, start, |states|, target, placed).maps;
    var left := LeftBehind(mm.maps, start, |states|);
    SpaceParts(mm);
    var k :| k in mm.maps && mm.maps[k].frameCap == slot;
    LeftIn(mm.maps, start, |states|, k);
    if k in PageSet(start, |states|) {
      var i := IdxOf(k, start, |states|);
      assert StateAt(mm, start + i * PGSIZE, states[i]);
      assert i < |placed|;
      ArrivingState(states, |placed|, base, i);
      var a := target + i * PGSIZE;
      ArrivesAt(target, placed, i);
      EnteredAt(left, target, placed, true, a);
      assert maps'[a].frameCap == slot;
    } else {
      StayedApart(mm, start, target, states, placed, base, k);
      EnteredAt(left, target, placed, true, k);
      assert maps'[k].frameCap == slot;
    }
  }

  lemma ArrivesAt(target: nat, placed: seq<PageState>, i: nat)
    requires i < |placed| && placed[i].MappedPage?
    ensures PlacedHere(target + i * PGSIZE, target, placed, true) && IdxOf(target + i * PGSIZE, target, |placed|) == i
  {
    PieceFits(i, |placed|);
    assert IsPageOf(target + i * PGSIZE, target, |placed|);
  }

  ghost function MovedWorld(w: World, pid: Pid, mm: MmState, pt: PageTable): World {
    w.(procs := w.procs[pid := mm], hw := w.hw[pid := pt])
  }

  lemma MovedRefs(w: World, o: multiset<Slot>, pid: Pid, start: nat, target: nat, states: seq<PageState>,
                  placed: seq<PageState>, base: Perms, mm': MmState)
    requires Live(w, o, pid) && CanMove(w.procs[pid], start, target, states, placed, base)
    requires mm'.maps == MovedSpace(w.procs[pid], start, |states|, target, placed).maps
    ensures RefsOk(w.procs[pid := mm'], w.frames, w.refs, PlusSet(o, TailCaps(states, |placed|)))
  {
    hide Live, Books, SpaceOk, RefsOk, MovedSpace, TailCaps, CanMove, PlusSet, Holders, FramesExist;
    LiveParts(w, o, pid);
    RefsParts(w.procs, w.frames, w.refs, o);
    var tail := TailCaps(states, |placed|);
    forall slot
      ensures Holds(mm'.maps, slot) <==> Holds(w.procs[pid].maps, slot) && slot !in tail
      ensures slot in tail ==> Holds(w.procs[pid].maps, slot)
    {
      MovedHolds(w.procs[pid], start, target, states, placed, base, slot);
    }
    TakenRefs(w.procs, w.frames, w.refs, o, pid, mm', tail);
  }

  /** References that leave a table are counted as lost. */
  lemma TakenRefs(procs: Procs, frames: Frames, refs: map<Slot, nat>, o: multiset<Slot>, pid: Pid, mm': MmState,
                  tail: set<Slot>)
    requires RefsOk(procs, frames, refs, o) && pid in procs
    requires forall slot :: Holds(mm'.maps, slot) <==> Holds(procs[pid].maps, slot) && slot !in tail
    requires forall slot | slot in tail :: Holds(procs[pid].maps, slot)
    ensures RefsOk(procs[pid := mm'], frames, refs, PlusSet(o, tail))
  {
    hide RefsOk, Holders, Holds;
    RefsParts(procs, frames, refs, o);
    HeldSlotsExist(procs, frames, pid);
    NewHeldExist(procs, frames, pid, mm');
    forall slot | slot in frames
      ensures Balanced(procs[pid := mm'], refs, PlusSet(o, tail), slot)
    {
      TakenHolders(procs, pid, mm', tail, slot);
    }
    assert forall slot | slot in PlusSet(o, tail) :: slot in frames;
    MakeRefs(procs[pid := mm'], frames, refs, PlusSet(o, tail), PlusSet(o, tail));
  }

  lemma HeldSlotsExist(procs: Procs, frames: Frames, pid: Pid)
    requires FramesExist(procs, frames) && pid in procs
    ensures forall slot | Holds(procs[pid].maps, slot) :: slot in frames
  {
  }

  lemma NewHeldExist(procs: Procs, frames: Frames, pid: Pid, mm': MmState)
    requires FramesExist(procs, frames) && pid in procs
    requires forall slot | Holds(mm'.maps, slot) :: Holds(procs[pid].maps, slot)
    ensures FramesExist(procs[pid := mm'], frames)
  {
    forall k | k in mm'.maps
      ensures mm'.maps[k].frameCap in frames
    {
      assert Holds(mm'.maps, mm'.maps[k].frameCap);
      assert Holds(procs[pid].maps, mm'.maps[k].frameCap);
    }
  }

  lemma TakenHolders(procs: Procs, pid: Pid, mm': MmState, tail: set<Slot>, slot: Slot)
    requires pid in procs
    requires Holds(mm'.maps, slot) <==> Holds(procs[pid].maps, slot) && slot !in tail
    requires slot in tail ==> Holds(procs[pid].maps, slot)
    ensures Holders(procs[pid := mm'], slot) ==
              if slot in tail then Holders(procs, slot) - {pid} else Holders(procs, slot)
    ensures slot in tail ==> pid in Holders(procs, slot)
  {
  }

  // ----- The page table -----

  /** A translation is a new one at the target or an old one that did not leave. */
  ghost predicate MovedTable(pt: PageTable, pt': PageTable, maps: Maps, start: nat, n: nat, target: nat,
                             placed: seq<PageState>)
  {
    forall a | a in pt' ::
      if PlacedHere(a, target, placed, true)
      then pt'[a] == Pte(placed[IdxOf(a, target, |placed|)].frameCap, 0, placed[IdxOf(a, target, |placed|)].flags)
      else a in pt && pt'[a] == pt[a] && !(a in PageSet(start, n) && a in maps)
  }

  lemma MovedPte(pt: PageTable, pt': PageTable, mm: MmState, start: nat, target: nat, states: seq<PageState>,
                 placed: seq<PageState>, base: Perms, a: nat)
    requires CanMove(mm, start, target, states, placed, base) && TableOk(pt, mm.maps)
    requires MovedTable(pt, pt', mm.maps, start, |states|, target, placed) && a in pt'
    ensures var maps' := MovedSpace(mm, start, |states|, target, placed).maps;
            && PteOk(pt'[a], a, maps')
            && (PlacedHere(a, target, placed, true) || StandsForWritable(pt'[a], a, mm.maps) ==>
                  pt'[a].perms.w ==> StandsForWritable(pt'[a], a, maps'))
            && (!PlacedHere(a, target, placed, true) ==> a in pt && pt'[a] == pt[a])
  {
    hide CanMove, MovedSpace, PlacedHere, PteOk, StandsForWritable, TableOk, PageSet;
    if PlacedHere(a, target, placed, true) {
      PlacedPte(mm, start, target, states, placed, base, a);
    } else {
      StayedPte(pt, mm, start, target, states, placed, base, a);
    }
  }

  lemma PlacedPte(mm: MmState, start: nat, target: nat, states: seq<PageState>, placed: seq<PageState>, base: Perms,
                  a: nat)
    requires CanMove(mm, start, target, states, placed, base) && PlacedHere(a, target, placed, true)
    ensures var pte := Pte(placed[IdxOf(a, target, |placed|)].frameCap, 0, placed[IdxOf(a, target, |placed|)].flags);
            var maps' := MovedSpace(mm, start, |states|, target, placed).maps;
            PteOk(pte, a, maps') && (pte.perms.w ==> StandsForWritable(pte, a, maps'))
  {
    hide SpaceOk, CanMove, LeftBehind, Entered, PageSet, PlacedHere;
    PlacedIn(a, target, placed);
    PlacedEntry(mm, start, target, states, placed, base, a);
    EnteredAt(LeftBehind(mm.maps, start, |states|), target, placed, true, a);
  }

  /** The map an old translation stands for did not leave. */
  lemma StayedPte(pt: PageTable, mm: MmState, start: nat, target: nat, states: seq<PageState>, placed: seq<PageState>,
                  base: Perms, a: nat)
    requires CanMove(mm, start, target, states, placed, base) && TableOk(pt, mm.maps)
    requires a in pt && !(a in PageSet(start, |states|) && a in mm.maps)
    ensures var maps' := MovedSpace(mm, start, |states|, target, placed).maps;
            PteOk(pt[a], a, maps') && (StandsForWritable(pt[a], a, mm.maps) ==> StandsForWritable(pt[a], a, maps'))
  {
    hide SpaceOk, MapsOk, CanMove, LeftBehind, Entered, PageSet, PlacedHere;
    CanMoveSpace(mm, start, target, states, placed, base);
    assert PteOk(pt[a], a, mm.maps);
    var b := a - pt[a].idx * PGSIZE;
    StayedCover(mm, start, target, states, placed, base, b, a);
    LeftIn(mm.maps, start, |states|, b);
    EntryOf(mm.maps, b);
    MovingSelf(mm, start, target, states, placed, base, b, a);
    StayedApart(mm, start, target, states, placed, base, b);
    EnteredAt(LeftBehind(mm.maps, start, |states|), target, placed, true, b);
  }

  lemma MovingSelf(mm: MmState, start: nat, target: nat, states: seq<PageState>, placed: seq<PageState>, base: Perms,
                   b: nat, a: nat)
    requires CanMove(mm, start, target, states, placed, base) && b in mm.maps && mm.maps[b].Covers(a) && a % PGSIZE == 0
    ensures b in PageSet(start, |states|) ==> a == b
  {
    hide SpaceOk, MapsOk, Vacant, StatesAt, PageSet;
    SpaceParts(mm);
    EntryOf(mm.maps, b);
    if b in PageSet(start, |states|) {
      MovingEntry(mm, start, states, b);
      SoleEntry(b, a);
    }
  }

  lemma MovedTableOk(pt: PageTable, pt': PageTable, mm: MmState, start: nat, target: nat, states: seq<PageState>,
                     placed: seq<PageState>, base: Perms)
    requires CanMove(mm, start, target, states, placed, base) && TableOk(pt, mm.maps)
    requires MovedTable(pt, pt', mm.maps, start, |states|, target, placed)
    ensures TableOk(pt', MovedSpace(mm, start, |states|, target, placed).maps)
    ensures WritesOk(pt, mm.maps) ==> WritesOk(pt', MovedSpace(mm, start, |states|, target, placed).maps)
  {
    hide CanMove, MovedTable, MovedSpace, PteOk, StandsForWritable, PlacedHere, WritesOk;
    WritesOkByPte(pt, mm.maps);
    WritesOkByPte(pt', MovedSpace(mm, start, |states|, target, placed).maps);
    forall a | a in pt'
      ensures PteOk(pt'[a], a, MovedSpace(mm, start, |states|, target, placed).maps)
      ensures WritesOk(pt, mm.maps) && pt'[a].perms.w ==>
                StandsForWritable(pt'[a], a, MovedSpace(mm, start, |states|, target, placed).maps)
    {
      MovedPte(pt, pt', mm, start, target, states, placed, base, a);
    }
  }

  // ----- Copy-on-write -----

  /** No page that moves is writable and held by another process. */
  ghost predicate PrivateMove(procs: Procs, pid: Pid, states: seq<PageState>, n: nat) {
    forall i | 0 <= i < |states| && i < n && states[i].MappedPage? && states[i].flags.w ::
             Unshared(procs, pid, states[i].frameCap)
  }

  lemma MovedGuarded(procs: Procs, pid: Pid, q: Pid, start: nat, target: nat, states: seq<PageState>,
                     placed: seq<PageState>, base: Perms)
    requires pid in procs && q in procs && q != pid && CanMove(procs[pid], start, target, states, placed, base)
    requires Guarded(procs[pid].maps, procs[q].maps) && Guarded(procs[q].maps, procs[pid].maps)
    requires PrivateMove(procs, pid, states, |placed|)
    ensures Guarded(MovedSpace(procs[pid], start, |states|, target, placed).maps, procs[q].maps)
    ensures Guarded(procs[q].maps, MovedSpace(procs[pid], start, |states|, target, placed).maps)
  {
    hide CanMove, MovedSpace, PlacedHere, PageSet, Holds;
    var mm := procs[pid];
    var maps' := MovedSpace(mm, start, |states|, target, placed).maps;
    forall i, j | i in maps' && j in procs[q].maps && maps'[i].frameCap == procs[q].maps[j].frameCap
      ensures maps'[i].flags.w ==> maps'[i].cow
      ensures procs[q].maps[j].flags.w ==> procs[q].maps[j].cow
    {
      SourceIs(mm, start, target, states, placed, base, i);
      var i0 := SourceOf(mm, start, target, states, placed, base, i);
      assert mm.maps[i0].frameCap == procs[q].maps[j].frameCap;
      if PlacedHere(i, target, placed, true) {
        PlacedSource(mm, start, target, states, placed, base, i);
        HeldBy(procs[q].maps, j);
      }
    }
  }

  lemma HeldBy(maps: Maps, j: nat)
    requires j in maps
    ensures Holds(maps, maps[j].frameCap)
  {
  }

  lemma PlacedSource(mm: MmState, start: nat, target: nat, states: seq<PageState>, placed: seq<PageState>, base: Perms,
                     a: nat)
    requires CanMove(mm, start, target, states, placed, base) && PlacedHere(a, target, placed, true)
    ensures a in PageSet(target, |placed|)
    ensures var i := IdxOf(a, target, |placed|);
            var maps' := MovedSpace(mm, start, |states|, target, placed).maps;
            && i < |states| && i < |placed| && placed[i] == states[i] && states[i].MappedPage?
            && a in maps' && maps'[a].frameCap == states[i].frameCap && maps'[a].flags == states[i].flags
            && !maps'[a].cow
  {
    hide SpaceOk, CanMove, LeftBehind, Entered;
    PlacedEntry(mm, start, target, states, placed, base, a);
    EnteredAt(LeftBehind(mm.maps, start, |states|), target, placed, true, a);
  }

  lemma MovedBacked(frames: Frames, mm: MmState, start: nat, target: nat, states: seq<PageState>,
                    placed: seq<PageState>, base: Perms)
    requires CanMove(mm, start, target, states, placed, base) && Backed(frames, mm.maps)
    ensures Backed(frames, MovedSpace(mm, start, |states|, target, placed).maps)
  {
    hide CanMove, MovedSpace, PlacedHere, PageSet;
    var maps' := MovedSpace(mm, start, |states|, target, placed).maps;
    forall i | i in maps'
      ensures maps'[i].frameCap in frames && |frames[maps'[i].frameCap]| * PGSIZE == maps'[i].size
    {
      SourceIs(mm, start, target, states, placed, base, i);
    }
  }

  lemma MovedTranslated(w: World, o: multiset<Slot>, w': World, pid: Pid, start: nat, target: nat,
                        states: seq<PageState>, placed: seq<PageState>, base: Perms)
    requires Live(w, o, pid) && OthersKept(w, w', pid) && CanMove(w.procs[pid], start, target, states, placed, base)
    requires pid in w'.procs && pid in w'.hw && w'.frames == w.frames
    requires w'.procs[pid].maps == MovedSpace(w.procs[pid], start, |states|, target, placed).maps
    requires Translated(w) ==> MovedTable(w.hw[pid], w'.hw[pid], w.procs[pid].maps, start, |states|, target, placed)
    ensures Translated(w) ==> Translated(w')
    ensures Translated(w) && Isolated(w) && PrivateMove(w.procs, pid, states, |placed|) ==> Isolated(w')
  {
    hide Books, CanMove, MovedSpace, MovedTable, Backed, TableOk, WritesOk, Guarded, PrivateMove, Translated;
    BooksParts(w, o, pid);
    if Translated(w) {
      TranslatedParts(w, pid);
      MovedBacked(w.frames, w.procs[pid], start, target, states, placed, base);
      MovedTableOk(w.hw[pid], w'.hw[pid], w.procs[pid], start, target, states, placed, base);
      TranslatedByPid(w, w', pid);
      if Isolated(w) && PrivateMove(w.procs, pid, states, |placed|) {
        forall q | q in w.procs && q != pid
          ensures Guarded(w'.procs[pid].maps, w.procs[q].maps) && Guarded(w.procs[q].maps, w'.procs[pid].maps)
        {
          MovedGuarded(w.procs, pid, q, start, target, states, placed, base);
        }
        IsolatedByPid(w, w', pid);
      }
    }
  }

  /** Moving a writable page that another process holds breaks isolation: its new map is not
      marked copy-on-write. */
  lemma SharedMoveNotIsolated(w: World, w': World, pid: Pid, start: nat, target: nat, states: seq<PageState>,
                              placed: seq<PageState>, base: Perms)
    requires pid in w.procs && pid in w'.procs && OthersKept(w, w', pid)
    requires CanMove(w.procs[pid], start, target, states, placed, base)
    requires w'.procs[pid].maps == MovedSpace(w.procs[pid], start, |states|, target, placed).maps
    requires !PrivateMove(w.procs, pid, states, |placed|)
    ensures !Isolated(w')
  {
    hide CanMove, MovedSpace, PlacedHere, AgreeOn;
    var i :| 0 <= i < |states| && i < |placed| && states[i].MappedPage? && states[i].flags.w
        && !Unshared(w.procs, pid, states[i].frameCap);
    var q :| q in w.procs && q != pid && Holds(w.procs[q].maps, states[i].frameCap);
    var j :| j in w.procs[q].maps && w.procs[q].maps[j].frameCap == states[i].frameCap;
    ArrivingIs(w.procs[pid], start, target, states, placed, base, i);
    ArrivesAt(target, placed, i);
    var a := target + i * PGSIZE;
    PlacedSource(w.procs[pid], start, target, states, placed, base, a);
    assert w'.procs[q] == w.procs[q];
    assert !Guarded(w'.procs[pid].maps, w'.procs[q].maps);
  }

  lemma ArrivingIs(mm: MmState, start: nat, target: nat, states: seq<PageState>, placed: seq<PageState>, base: Perms,
                   i: nat)
    requires CanMove(mm, start, target, states, placed, base) && i < |states| && i < |placed|
    ensures placed[i] == states[i]
  {
    ArrivingState(states, |placed|, base, i);
  }

  /** The whole move. Isolation survives exactly when no page that moves is writable and shared. */
  lemma MoveStep(w: World, o: multiset<Slot>, w': World, pid: Pid, start: nat, target: nat, states: seq<PageState>,
                 placed: seq<PageState>, base: Perms)
    requires Live(w, o, pid) && CanMove(w.procs[pid], start, target, states, placed, base)
    requires pid in w'.procs && pid in w'.hw && w' == MovedWorld(w, pid, w'.procs[pid], w'.hw[pid])
    requires w'.procs[pid].maps == MovedSpace(w.procs[pid], start, |states|, target, placed).maps
    requires w'.procs[pid].lazy == MovedSpace(w.procs[pid], start, |states|, target, placed).lazy
    requires SpaceOk(w'.procs[pid])
    requires Translated(w) ==> MovedTable(w.hw[pid], w'.hw[pid], w.procs[pid].maps, start, |states|, target, placed)
    ensures var o' := PlusSet(o, TailCaps(states, |placed|));
            && OthersKept(w, w', pid) && Books(w', o') && Lost(o, o')
            && (Translated(w) ==> Translated(w'))
            && (Translated(w) && Isolated(w) ==> (Isolated(w') <==> PrivateMove(w.procs, pid, states, |placed|)))
            && (PrivateMove(w.procs, pid, states, |placed|) ==> StepOk(w, o, w', o', pid))
            && (Translated(w) ==> MovedView(w, w', pid, start, |states|, target, |placed|, base))
  {
    hide Books, SpaceOk, RefsOk, CanMove, MovedSpace, MovedTable, PrivateMove, Translated, Isolated, OthersKept, Lost,
         TailCaps, PlusSet, MovedView, AgreeOn, Backed, StepOk;
    var o' := PlusSet(o, TailCaps(states, |placed|));
    BooksParts(w, o, pid);
    HeldKept(w.procs, w.frames);
    OthersFrom(w, pid, w'.procs[pid], w'.hw[pid], w.frames, w.refs);
    MovedRefs(w, o, pid, start, target, states, placed, base, w'.procs[pid]);
    BooksByPid(w, o, w', o', pid);
    PlusSetLost(o, TailCaps(states, |placed|));
    MovedTranslated(w, o, w', pid, start, target, states, placed, base);
    if !PrivateMove(w.procs, pid, states, |placed|) {
      SharedMoveNotIsolated(w, w', pid, start, target, states, placed, base);
    } else {
      StepFrom(w, o, w', o', pid);
    }
    if Translated(w) {
      TranslatedParts(w, pid);
      CountedFrames(w', o');
      HeldKept(w'.procs, w'.frames);
      MoveShows(w, w', pid, start, target, states, placed, base);
    }
  }
}
