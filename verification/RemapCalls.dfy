/** mremap: shrinking, growing in place and moving a range of anonymous pages. */
module RemapCalls {
  import opened Types
  import opened AddressSpace
  import opened Machine
  import opened Views
  import opened World
  import opened Ranges
  import opened Splitting
  import opened Manager
  import opened SplitCalls
  import opened MemoryCalls
  import opened FreeRanges
  import opened MmapLemmas
  import opened MmapCalls
  import opened Faults
  import opened ForkLemmas
  import opened Moves
  import opened MoveSteps

  // ----- Collecting the pages -----

  predicate Movable(mm: MmState, a: nat) {
    if a in mm.maps then mm.maps[a].memType == Anonymous && mm.maps[a].size == PGSIZE
    else a in mm.lazy && mm.lazy[a].memType == Anonymous && mm.lazy[a].size == PGSIZE
  }

  /** `collect_remap_states`: every page must be a one-page anonymous map or an anonymous lazy page. */
  method CollectStates(mm: MmState, start: nat, pages: nat) returns (r: Result<seq<PageState>>)
    ensures r.Ok? ==> |r.value| == pages && StatesAt(mm, start, r.value)
    ensures r.Ok? <==> forall i | 0 <= i < pages :: Movable(mm, start + i * PGSIZE)
    ensures r.Err? ==> r.error == InvalidArgs || r.error == InvalidAddress
  {
    var states: seq<PageState> := [];
    for i := 0 to pages
      invariant |states| == i && StatesAt(mm, start, states)
      invariant forall j | 0 <= j < i :: Movable(mm, start + j * PGSIZE)
    {
      var a := start + i * PGSIZE;
      if a in mm.maps {
        if mm.maps[a].memType != Anonymous || mm.maps[a].size != PGSIZE {
          assert !Movable(mm, start + i * PGSIZE);
          return Err(InvalidArgs);
        }
        states := states + [MappedPage(mm.maps[a].frameCap, mm.maps[a].flags)];
      } else if a in mm.lazy {
        if mm.lazy[a].memType != Anonymous || mm.lazy[a].size != PGSIZE {
          assert !Movable(mm, start + i * PGSIZE);
          return Err(InvalidArgs);
        }
        states := states + [WaitingPage(mm.lazy[a].flags)];
      } else {
        assert !Movable(mm, start + i * PGSIZE);
        return Err(InvalidAddress);
      }
    }
    r := Ok(states);
  }

  // ----- The page table of a move -----

  ghost function EnteredTable(pt: PageTable, target: nat, states: seq<PageState>): PageTable {
    map a | a in pt.Keys + PageSet(target, |states|) && (a in pt || PlacedHere(a, target, states, true)) ::
      if PlacedHere(a, target, states, true)
      then Pte(states[IdxOf(a, target, |states|)].frameCap, 0, states[IdxOf(a, target, |states|)].flags) else pt[a]
  }

  lemma PlacedNext(target: nat, states: seq<PageState>, st: PageState, mapped: bool, a: nat)
    ensures PlacedHere(a, target, states + [st], mapped) <==>
              PlacedHere(a, target, states, mapped) || (a == target + |states| * PGSIZE && (st.MappedPage? <==> mapped))
    ensures !PlacedHere(target + |states| * PGSIZE, target, states, mapped)
    ensures PlacedHere(a, target, states, mapped) ==>
              IdxOf(a, target, |states| + 1) == IdxOf(a, target, |states|)
              && (states + [st])[IdxOf(a, target, |states|)] == states[IdxOf(a, target, |states|)]
    ensures target + |states| * PGSIZE in PageSet(target, |states| + 1)
            && IdxOf(target + |states| * PGSIZE, target, |states| + 1) == |states|
  {
    PageSetNext(target, |states|);
    if a in PageSet(target, |states|) {
      assert IdxOf(a, target, |states| + 1) == IdxOf(a, target, |states|);
    }
    assert IdxOf(target + |states| * PGSIZE, target, |states| + 1) == |states|;
  }

  /** The state of the page placed at `a`. */
  ghost function StateOf(a: nat, target: nat, states: seq<PageState>): PageState {
    if a in PageSet(target, |states|) then states[IdxOf(a, target, |states|)] else WaitingPage(READ_WRITE)
  }

  lemma EnteredTableAt(pt: PageTable, target: nat, states: seq<PageState>, a: nat)
    ensures a in EnteredTable(pt, target, states) <==> a in pt || PlacedHere(a, target, states, true)
    ensures PlacedHere(a, target, states, true) ==>
              StateOf(a, target, states).MappedPage?
              && EnteredTable(pt, target, states)[a] ==
                   Pte(StateOf(a, target, states).frameCap, 0, StateOf(a, target, states).flags)
    ensures a in pt && !PlacedHere(a, target, states, true) ==> EnteredTable(pt, target, states)[a] == pt[a]
  {
  }

  lemma StateNext(a: nat, target: nat, states: seq<PageState>, st: PageState, mapped: bool)
    ensures PlacedHere(a, target, states + [st], mapped) <==>
              PlacedHere(a, target, states, mapped) || (a == target + |states| * PGSIZE && (st.MappedPage? <==> mapped))
    ensures PlacedHere(a, target, states, mapped) ==>
              a != target + |states| * PGSIZE && StateOf(a, target, states + [st]) == StateOf(a, target, states)
    ensures StateOf(target + |states| * PGSIZE, target, states + [st]) == st
  {
    hide PageSet;
    PlacedNext(target, states, st, mapped, a);
    PageSetNext(target, |states|);
  }

  lemma MappedOne(pt: PageTable, slot: Slot, end: nat, perms: Perms)
    ensures Mapped(pt, slot, end, perms, 1) == pt[end := Pte(slot, 0, perms)]
  {
    OnePageSet(end);
  }

  lemma EnteredTableNext(pt: PageTable, target: nat, states: seq<PageState>, st: PageState)
    ensures EnteredTable(pt, target, states + [st]) ==
              if st.MappedPage? then Mapped(EnteredTable(pt, target, states), st.frameCap, target + |states| * PGSIZE,
                                            st.flags, 1)
              else EnteredTable(pt, target, states)
  {
    hide EnteredTable, PlacedHere, Mapped, StateOf;
    var end := target + |states| * PGSIZE;
    var pt1 := EnteredTable(pt, target, states + [st]);
    var cur := EnteredTable(pt, target, states);
    var pt2 := if st.MappedPage? then cur[end := Pte(st.frameCap, 0, st.flags)] else cur;
    if st.MappedPage? {
      MappedOne(cur, st.frameCap, end, st.flags);
    }
    forall a
      ensures a in pt1 <==> a in pt2
      ensures a in pt1 ==> pt1[a] == pt2[a]
    {
      EnteredTableAt(pt, target, states + [st], a);
      EnteredTableAt(pt, target, states, a);
      StateNext(a, target, states, st, true);
    }
    assert pt1 == pt2;
  }

  lemma EnteredTableNone(pt: PageTable, target: nat)
    ensures EnteredTable(pt, target, []) == pt
  {
    NothingPlaced(target, true);
    assert EnteredTable(pt, target, []) == pt;
  }

  lemma NothingPlaced(target: nat, mapped: bool)
    ensures forall a :: !PlacedHere(a, target, [], mapped)
    ensures PageSet(target, 0) == {}
  {
    PageSetNext(target, 0);
  }

  // ----- The bookkeeping of a move -----

  lemma EnteredState(table: Maps, target: nat, states: seq<PageState>, mapped: bool, a: nat)
    ensures a in Entered(table, target, states, mapped) <==> a in table || PlacedHere(a, target, states, mapped)
    ensures PlacedHere(a, target, states, mapped) ==>
              Entered(table, target, states, mapped)[a] == MovedMap(a, StateOf(a, target, states))
    ensures a in table && !PlacedHere(a, target, states, mapped) ==>
              Entered(table, target, states, mapped)[a] == table[a]
  {
  }

  lemma EnteredNext(table: Maps, target: nat, states: seq<PageState>, st: PageState, mapped: bool)
    ensures Entered(table, target, states + [st], mapped) ==
              if st.MappedPage? <==> mapped
              then Entered(table, target, states,
                           mapped)[target + |states| * PGSIZE := MovedMap(target + |states| * PGSIZE, st)]
              else Entered(table, target, states, mapped)
  {
    hide Entered, PlacedHere, StateOf;
    var end := target + |states| * PGSIZE;
    var t1 := Entered(table, target, states + [st], mapped);
    var cur := Entered(table, target, states, mapped);
    var t2 := if st.MappedPage? <==> mapped then cur[end := MovedMap(end, st)] else cur;
    forall a
      ensures a in t1 <==> a in t2
      ensures a in t1 ==> t1[a] == t2[a]
    {
      EnteredState(table, target, states + [st], mapped, a);
      EnteredState(table, target, states, mapped, a);
      StateNext(a, target, states, st, mapped);
    }
    assert t1 == t2;
  }

  lemma EnteredNone(table: Maps, target: nat, mapped: bool)
    ensures Entered(table, target, [], mapped) == table
  {
    NothingPlaced(target, mapped);
    assert Entered(table, target, [], mapped) == table;
  }

  lemma LeftNext(table: Maps, start: nat, n: nat)
    ensures LeftBehind(table, start, 0) == table
    ensures LeftBehind(table, start, n + 1) == Remove(LeftBehind(table, start, n), start + n * PGSIZE)
  {
    PageSetNext(start, n);
    assert LeftBehind(table, start, 0) == table;
  }

  /** The old range leaves both tables; the arriving pages enter the one they belong to. */
  method MoveTables(mm: MmState, start: nat, n: nat, target: nat, placed: seq<PageState>) returns (mm': MmState)
    ensures mm' == MovedSpace(mm, start, n, target, placed)
  {
    hide Entered, LeftBehind;
    var maps, lazy := mm.maps, mm.lazy;
    LeftNext(mm.maps, start, 0);
    LeftNext(mm.lazy, start, 0);
    for i := 0 to n
      invariant maps == LeftBehind(mm.maps, start, i) && lazy == LeftBehind(mm.lazy, start, i)
    {
      LeftNext(mm.maps, start, i);
      LeftNext(mm.lazy, start, i);
      maps, lazy := Remove(maps, start + i * PGSIZE), Remove(lazy, start + i * PGSIZE);
    }
    ghost var maps0, lazy0 := maps, lazy;
    EnteredNone(maps0, target, true);
    EnteredNone(lazy0, target, false);
    assert placed[..0] == [];
    for i := 0 to |placed|
      invariant maps == Entered(maps0, target, placed[..i], true) && lazy == Entered(lazy0, target, placed[..i], false)
    {
      var a := target + i * PGSIZE;
      assert placed[..i + 1] == placed[..i] + [placed[i]];
      EnteredNext(maps0, target, placed[..i], placed[i], true);
      EnteredNext(lazy0, target, placed[..i], placed[i], false);
      if placed[i].MappedPage? {
        maps := maps[a := MovedMap(a, placed[i])];
      } else {
        lazy := lazy[a := MovedMap(a, placed[i])];
      }
    }
    assert placed[..|placed|] == placed;
    mm' := mm.(maps := maps, lazy := lazy);
  }

  // ----- The translations of a move -----

  /** Maps the resident pages at their destination. A failure unmaps the ones already mapped. */
  method MapDestinations(mgr: ApeManager, pid: Pid, target: nat, states: seq<PageState>) returns (r: Result<()>)
    requires pid in mgr.s.hw
    modifies mgr`s
    ensures pid in mgr.s.hw && mgr.s == old(mgr.s).(hw := old(mgr.s).hw[pid := mgr.s.hw[pid]])
    ensures r.Ok? ==> mgr.s.hw[pid] == EnteredTable(old(mgr.s).hw[pid], target, states)
    ensures r.Err? ==> SubTable(mgr.s.hw[pid], old(mgr.s).hw[pid])
  {
    hide EnteredTable, Mapped, Unmapped, SubTable;
    ghost var w, pt := mgr.s, mgr.s.hw[pid];
    EnteredTableNone(pt, target);
    assert states[..0] == [];
    for i := 0 to |states|
      invariant pid in mgr.s.hw && mgr.s == w.(hw := w.hw[pid := mgr.s.hw[pid]])
      invariant mgr.s.hw[pid] == EnteredTable(pt, target, states[..i])
    {
      ghost var cur := mgr.s.hw[pid];
      assert states[..i + 1] == states[..i] + [states[i]];
      EnteredTableNext(pt, target, states[..i], states[i]);
      if states[i].MappedPage? {
        r := mgr.MapProcessFrame(pid, states[i].frameCap, target + i * PGSIZE, states[i].flags, 1);
        if r.Err? {
          PartlyEntered(pt, target, states, i);
          UnmapDestinations(mgr, pid, target, states, i, pt);
          return;
        }
      }
    }
    assert states[..|states|] == states;
    r := Ok(());
  }

  /** Only pages placed among the first ones differ from the old table. */
  ghost predicate PartlyNew(pt: PageTable, cur: PageTable, target: nat, states: seq<PageState>, lo: nat, hi: nat) {
    && lo <= hi <= |states|
    && forall a | a in cur ::
         (a in pt && cur[a] == pt[a]) || (exists i :: lo <= i < hi && states[i].MappedPage? && a == target + i * PGSIZE)
  }

  lemma PartlyEntered(pt: PageTable, target: nat, states: seq<PageState>, i: nat)
    requires i < |states|
    ensures var cur := EnteredTable(pt, target, states[..i]);
            PartlyNew(pt, cur, target, states, 0, i)
            && PartlyNew(pt, Unmapped(cur, target + i * PGSIZE, 1), target, states, 0, i)
  {
    hide EnteredTable, PageSet;
    var cur := EnteredTable(pt, target, states[..i]);
    forall a | a in cur
      ensures (a in pt && cur[a] == pt[a])
              || (exists j :: 0 <= j < i && states[j].MappedPage? && a == target + j * PGSIZE)
    {
      EnteredTableAt(pt, target, states[..i], a);
      if PlacedHere(a, target, states[..i], true) {
        var j := IdxOf(a, target, i);
        assert states[..i][j] == states[j];
      }
    }
  }

  lemma UndoneOne(pt: PageTable, cur: PageTable, target: nat, states: seq<PageState>, lo: nat, hi: nat)
    requires PartlyNew(pt, cur, target, states, lo, hi) && lo < hi
    ensures PartlyNew(pt, if states[lo].MappedPage? then Unmapped(cur, target + lo * PGSIZE, 1) else cur, target,
                      states, lo + 1, hi)
  {
    hide PageSet;
    OnePageSet(target + lo * PGSIZE);
    var cur' := if states[lo].MappedPage? then Unmapped(cur, target + lo * PGSIZE, 1) else cur;
    forall a | a in cur'
      ensures (a in pt && cur'[a] == pt[a])
              || (exists i :: lo + 1 <= i < hi && states[i].MappedPage? && a == target + i * PGSIZE)
    {
      assert a in cur && cur'[a] == cur[a];
    }
  }

  method UnmapDestinations(mgr: ApeManager, pid: Pid, target: nat, states: seq<PageState>, n: nat, ghost pt: PageTable)
    requires pid in mgr.s.hw && PartlyNew(pt, mgr.s.hw[pid], target, states, 0, n)
    modifies mgr`s
    ensures pid in mgr.s.hw && mgr.s == old(mgr.s).(hw := old(mgr.s).hw[pid := mgr.s.hw[pid]])
    ensures SubTable(mgr.s.hw[pid], pt)
  {
    hide PartlyNew, Unmapped, SubTable;
    ghost var w := mgr.s;
    PartlyBounds(pt, mgr.s.hw[pid], target, states, 0, n);
    for i := 0 to n
      invariant pid in mgr.s.hw && mgr.s == w.(hw := w.hw[pid := mgr.s.hw[pid]])
      invariant PartlyNew(pt, mgr.s.hw[pid], target, states, i, n)
    {
      UndoneOne(pt, mgr.s.hw[pid], target, states, i, n);
      if states[i].MappedPage? {
        mgr.UnmapProcessPages(pid, target + i * PGSIZE, 1);
      }
    }
    AllUndone(pt, mgr.s.hw[pid], target, states, n);
  }

  lemma PartlyBounds(pt: PageTable, cur: PageTable, target: nat, states: seq<PageState>, lo: nat, hi: nat)
    requires PartlyNew(pt, cur, target, states, lo, hi)
    ensures hi <= |states|
  {
  }

  lemma AllUndone(pt: PageTable, cur: PageTable, target: nat, states: seq<PageState>, n: nat)
    requires PartlyNew(pt, cur, target, states, n, n)
    ensures SubTable(cur, pt)
  {
  }

  /** Unmaps the pages of the old range that were resident. */
  method UnmapOld(mgr: ApeManager, pid: Pid, start: nat, states: seq<PageState>)
    requires pid in mgr.s.hw
    modifies mgr`s
    ensures pid in mgr.s.hw && mgr.s == old(mgr.s).(hw := old(mgr.s).hw[pid := mgr.s.hw[pid]])
    ensures SubTable(mgr.s.hw[pid], old(mgr.s).hw[pid])
    ensures forall i | 0 <= i < |states| && states[i].MappedPage? :: start + i * PGSIZE !in mgr.s.hw[pid]
  {
    hide Unmapped;
    ghost var w, pt := mgr.s, mgr.s.hw[pid];
    for i := 0 to |states|
      invariant pid in mgr.s.hw && mgr.s == w.(hw := w.hw[pid := mgr.s.hw[pid]])
      invariant SubTable(mgr.s.hw[pid], pt)
      invariant forall j | 0 <= j < i && states[j].MappedPage? :: start + j * PGSIZE !in mgr.s.hw[pid]
    {
      if states[i].MappedPage? {
        UnmappedOne(mgr.s.hw[pid], start + i * PGSIZE);
        mgr.UnmapProcessPages(pid, start + i * PGSIZE, 1);
      }
    }
  }

  lemma UnmappedOne(pt: PageTable, a: nat)
    ensures Unmapped(pt, a, 1) == pt - {a}
  {
    OnePageSet(a);
  }

  // ----- The whole move -----

  lemma MovedTableFrom(mm: MmState, pt: PageTable, pt1: PageTable, pt2: PageTable, start: nat, target: nat,
                       states: seq<PageState>, placed: seq<PageState>, base: Perms, copied: seq<PageState>)
    requires CanMove(mm, start, target, states, placed, base)
    requires copied == if |placed| <= |states| then states[..|placed|] else states
    requires pt1 == EnteredTable(pt, target, copied) && SubTable(pt2, pt1)
    requires forall i | 0 <= i < |states| && states[i].MappedPage? :: start + i * PGSIZE !in pt2
    ensures MovedTable(pt, pt2, mm.maps, start, |states|, target, placed)
  {
    hide CanMove, EnteredTable, PlacedHere, PageSet, StateOf;
    forall a | a in pt2
      ensures if PlacedHere(a, target, placed, true)
              then && a in PageSet(target, |placed|) && placed[IdxOf(a, target, |placed|)].MappedPage?
                   && pt2[a] == Pte(placed[IdxOf(a, target, |placed|)].frameCap, 0,
                                    placed[IdxOf(a, target, |placed|)].flags)
              else a in pt && pt2[a] == pt[a] && !(a in PageSet(start, |states|) && a in mm.maps)
    {
      EnteredTableAt(pt, target, copied, a);
      SamePlaced(mm, start, target, states, placed, base, copied, a);
      OldGone(mm, start, target, states, placed, base, a, pt2);
      PlacedIn(a, target, placed);
    }
  }

  lemma SamePlaced(mm: MmState, start: nat, target: nat, states: seq<PageState>, placed: seq<PageState>, base: Perms,
                   copied: seq<PageState>, a: nat)
    requires CanMove(mm, start, target, states, placed, base)
    requires copied == if |placed| <= |states| then states[..|placed|] else states
    ensures PlacedHere(a, target, placed, true) <==> PlacedHere(a, target, copied, true)
    ensures PlacedHere(a, target, placed, true) ==>
              a in PageSet(target, |placed|) && placed[IdxOf(a, target, |placed|)] == StateOf(a, target, copied)
              && placed[IdxOf(a, target, |placed|)].MappedPage?
  {
    hide SpaceOk, Vacant, PageSet;
    PageSetGrows(target, |copied|, |placed|, a);
    if a in PageSet(target, |placed|) {
      var i := IdxOf(a, target, |placed|);
      ArrivingState(states, |placed|, base, i);
    }
  }

  lemma PageSetGrows(target: nat, n: nat, m: nat, a: nat)
    requires n <= m
    ensures a in PageSet(target, n) ==> a in PageSet(target, m)
    ensures a in PageSet(target, n) ==> IdxOf(a, target, n) == IdxOf(a, target, m)
    ensures a in PageSet(target, m) ==> (a in PageSet(target, n) <==> IdxOf(a, target, m) < n)
  {
  }

  lemma OldGone(mm: MmState, start: nat, target: nat, states: seq<PageState>, placed: seq<PageState>, base: Perms,
                a: nat, pt2: PageTable)
    requires CanMove(mm, start, target, states, placed, base) && a in pt2
    requires forall i | 0 <= i < |states| && states[i].MappedPage? :: start + i * PGSIZE !in pt2
    ensures !(a in PageSet(start, |states|) && a in mm.maps)
  {
    hide SpaceOk, Vacant;
    if a in PageSet(start, |states|) && a in mm.maps {
      LeavingState(mm, start, states, a);
    }
  }

  lemma LeavingState(mm: MmState, start: nat, states: seq<PageState>, a: nat)
    requires StatesAt(mm, start, states) && a in PageSet(start, |states|) && a in mm.maps
    ensures states[IdxOf(a, start, |states|)].MappedPage? && a == start + IdxOf(a, start, |states|) * PGSIZE
  {
    var i := IdxOf(a, start, |states|);
    assert StateAt(mm, start + i * PGSIZE, states[i]);
  }

  /** Maps the destination, moves the bookkeeping, unmaps the old pages. The frames of pages past
      a shorter target leave the table and are not given back. */
  method MoveRange(mgr: ApeManager, pid: Pid, start: nat, states: seq<PageState>, target: nat, newPages: nat,
                   base: Perms)
    returns (r: Result<nat>)
    requires Live(mgr.s, mgr.owed, pid)
    requires CanMove(mgr.s.procs[pid], start, target, states, Arriving(states, newPages, base), base)
    modifies mgr
    ensures r.Err? ==>
              && StepOk(old(mgr.s), old(mgr.owed), mgr.s, mgr.owed, pid) && mgr.owed == old(mgr.owed)
              && pid in mgr.s.procs
              && SameView(old(mgr.s).frames, old(mgr.s).procs[pid], mgr.s.frames, mgr.s.procs[pid])
    ensures r.Ok? ==>
              && r.value == target && mgr.owed == PlusSet(old(mgr.owed), TailCaps(states, newPages))
              && OthersKept(old(mgr.s), mgr.s, pid) && Books(mgr.s, mgr.owed)
              && (Translated(old(mgr.s)) ==>
                    Translated(mgr.s) && MovedView(old(mgr.s), mgr.s, pid, start, |states|, target, newPages, base))
              && (Translated(old(mgr.s)) && Isolated(old(mgr.s)) ==>
                    (Isolated(mgr.s) <==> PrivateMove(old(mgr.s).procs, pid, states, newPages)))
              && (PrivateMove(old(mgr.s).procs, pid, states, newPages) ==>
                    StepOk(old(mgr.s), old(mgr.owed), mgr.s, mgr.owed, pid))
  {
    hide Live, Books, CanMove, Arriving, EnteredTable, SubTable, Quiet, StepOk, SameView, MovedTable, MovedSpace,
         OthersKept, Translated, Isolated, PrivateMove, MovedView, PlusSet, TailCaps, SpaceOk, RefsOk, FramesExist;
    ghost var w, o := mgr.s, mgr.owed;
    LiveParts(w, o, pid);
    BooksParts(w, o, pid);
    ghost var pt := w.hw[pid];
    var placed := Arriving(states, newPages, base);
    ArrivingLength(states, newPages, base);
    var copied := if newPages <= |states| then states[..newPages] else states;
    var mapped := MapDestinations(mgr, pid, target, copied);
    if mapped.Err? {
      r := Err(mapped.error);
      QuietAfter(w, pid, w.frames, mgr.s.hw[pid]);
      QuietFault(w, o, mgr.s, pid);
      return;
    }
    ghost var pt1 := mgr.s.hw[pid];
    var mm := MoveTables(mgr.s.procs[pid], start, |states|, target, placed);
    var mm' := mm.(mmapNext := Max(mm.mmapNext, target + newPages * PGSIZE));
    MovedHint(w.procs[pid], start, target, states, placed, base);
    mgr.s := mgr.s.(procs := mgr.s.procs[pid := mm']);
    MovedRefs(w, o, pid, start, target, states, placed, base, mm');
    mgr.owed := PlusSet(o, TailCaps(states, newPages));
    UnmapOld(mgr, pid, start, states);
    MovedTableFrom(w.procs[pid], pt, pt1, mgr.s.hw[pid], start, target, states, placed, base, copied);
    UpdateTwice(w.hw, pid, pt1, mgr.s.hw[pid]);
    MoveStep(w, o, mgr.s, pid, start, target, states, placed, base);
    r := Ok(target);
  }

  lemma ArrivingLength(states: seq<PageState>, n: nat, base: Perms)
    ensures |Arriving(states, n, base)| == n
  {
  }

  lemma MovedHint(mm: MmState, start: nat, target: nat, states: seq<PageState>, placed: seq<PageState>, base: Perms)
    requires CanMove(mm, start, target, states, placed, base)
    ensures var mm1 := MovedSpace(mm, start, |states|, target, placed);
            SpaceOk(mm1.(mmapNext := Max(mm1.mmapNext, target + |placed| * PGSIZE)))
  {
    hide CanMove, MovedSpace, SpaceOk;
    var mm1 := MovedSpace(mm, start, |states|, target, placed);
    MovedSpaceOk(mm, start, target, states, placed, base);
    CanMoveSpace(mm, start, target, states, placed, base);
    SpaceHint(mm1, 0);
    AlignedEnd(target, |placed|);
    SpaceHint(mm1, Max(mm1.mmapNext, target + |placed| * PGSIZE));
  }

  lemma AlignedEnd(target: nat, n: nat)
    requires target % PGSIZE == 0
    ensures (target + n * PGSIZE) % PGSIZE == 0
  {
  }

  // ----- Shrinking and growing in place -----

  /** `mmap_next = max(mmap_next, end)` changes no page. */
  method BumpHint(mgr: ApeManager, pid: Pid, end: nat)
    requires Live(mgr.s, mgr.owed, pid) && end % PGSIZE == 0
    modifies mgr`s
    ensures StepOk(old(mgr.s), mgr.owed, mgr.s, mgr.owed, pid) && pid in mgr.s.procs
            && mgr.s.frames == old(mgr.s).frames
    ensures mgr.s.procs[pid] == old(mgr.s).procs[pid].(mmapNext := Max(old(mgr.s).procs[pid].mmapNext, end))
  {
    hide Live, Books, SpaceOk, RefsOk, StepOk;
    LiveParts(mgr.s, mgr.owed, pid);
    var mm := mgr.s.procs[pid];
    var mm' := mm.(mmapNext := Max(mm.mmapNext, end));
    SpaceHint(mm, 0);
    SpaceHint(mm, mm'.mmapNext);
    SameMapsStep(mgr.s, mgr.owed, pid, mm');
    mgr.s := WithSpace(mgr.s, pid, mm');
  }

  /** Grows the range in place with waiting anonymous pages. */
  method GrowInPlace(mgr: ApeManager, pid: Pid, oldEnd: nat, newEnd: nat, base: Perms)
    requires Live(mgr.s, mgr.owed, pid) && oldEnd <= newEnd && oldEnd % PGSIZE == 0 && newEnd % PGSIZE == 0
    requires FreeOfMaps(mgr.s.procs[pid].maps, oldEnd, newEnd) && OutsideStack(mgr.s.procs[pid], oldEnd, newEnd)
    modifies mgr
    ensures StepOk(old(mgr.s), old(mgr.owed), mgr.s, mgr.owed, pid) && mgr.owed == old(mgr.owed)
    ensures FilledLazy(old(mgr.s), mgr.s, pid, oldEnd, newEnd, AnonLazy(base))
  {
    hide Live, Books, SpaceOk, RefsOk, StepOk, Waiting, FilledLazy, FreeOfMaps, OutsideStack;
    ghost var w, o := mgr.s, mgr.owed;
    var done;
    ghost var stop;
    done, stop := AddLazyRange(mgr, pid, oldEnd, newEnd, AnonLazy(base));
    ghost var w1 := mgr.s;
    WaitingParts(w, o, w1, pid, oldEnd, newEnd, newEnd, AnonLazy(base));
    BumpHint(mgr, pid, newEnd);
    StepOkTransitive(w, o, w1, o, mgr.s, o, pid);
    SameTablesLazy(w, w1, mgr.s, pid, oldEnd, newEnd, AnonLazy(base));
  }

  lemma SameTablesLazy(w: World, w1: World, w2: World, pid: Pid, lo: nat, hi: nat, kind: LazyKind)
    requires FilledLazy(w, w1, pid, lo, hi, kind) && pid in w2.procs && w2.frames == w1.frames
    requires w2.procs[pid].maps == w1.procs[pid].maps && w2.procs[pid].lazy == w1.procs[pid].lazy
    ensures FilledLazy(w, w2, pid, lo, hi, kind)
  {
    hide PageAt;
    SameTablesPages(w1.frames, w1.procs[pid], w2.procs[pid]);
  }

  /** The tail past the old end is free when nothing but the old range itself overlaps. */
  lemma TailIsFree(mm: MmState, start: nat, oldEnd: nat, newEnd: nat)
    requires SpaceOk(mm) && RangeIsFreeExcluding(mm, start, newEnd, start, oldEnd) && start < oldEnd < newEnd
    ensures FreeOfMaps(mm.maps, oldEnd, newEnd) && OutsideStack(mm, oldEnd, newEnd)
  {
    hide LazyOk, Apart;
    forall k | k in mm.maps
      ensures mm.maps[k].End() <= oldEnd || newEnd <= k
    {
      TailMap(mm, start, oldEnd, newEnd, k);
    }
  }

  lemma TailMap(mm: MmState, start: nat, oldEnd: nat, newEnd: nat, k: nat)
    requires MapsOk(mm.maps) && NoMapOverlap(mm.maps, start, newEnd, start, oldEnd) && start < oldEnd < newEnd
             && k in mm.maps
    ensures mm.maps[k].End() <= oldEnd || newEnd <= k
  {
    assert HasOverlap(start, newEnd, mm.maps[k].vaddr, mm.maps[k].size) ==> mm.maps[k].End() <= oldEnd;
  }

  /** No multi-page map reaches into a range of movable pages. */
  lemma NothingToSplit(mm: MmState, start: nat, states: seq<PageState>, lo: nat, hi: nat)
    requires SpaceOk(mm) && StatesAt(mm, start, states) && start % PGSIZE == 0
    requires start <= lo < hi <= start + |states| * PGSIZE && lo % PGSIZE == 0 && hi % PGSIZE == 0
    ensures PrivateTargets(mm.maps, lo, hi)
  {
    hide SpaceOk, MapsOk, StatesAt, Straddles;
    SpaceParts(mm);
    forall k | k in mm.maps
      ensures !Straddles(mm.maps[k], lo, hi)
    {
      LargeAway(mm, start, states, lo, hi, k);
    }
  }

  lemma LargeAway(mm: MmState, start: nat, states: seq<PageState>, lo: nat, hi: nat, k: nat)
    requires SpaceOk(mm) && StatesAt(mm, start, states) && start % PGSIZE == 0 && k in mm.maps
    requires start <= lo < hi <= start + |states| * PGSIZE && lo % PGSIZE == 0 && hi % PGSIZE == 0
    ensures !Straddles(mm.maps[k], lo, hi)
  {
    hide SpaceOk, MapsOk, StatesAt;
    SpaceParts(mm);
    EntryOf(mm.maps, k);
    MapParts(mm.maps, k);
    var m := mm.maps[k];
    var a := Max(lo, k);
    if lo < m.End() && k < hi {
      InRange(a, start, |states|);
      MovingEntry(mm, start, states, a);
      CoveredIsNotLazy(mm, a);
      LookupExact(mm.maps, a);
      if a in mm.maps && a != k {
        EntryOf(mm.maps, a);
        OtherApart(mm.maps, k, a);
      }
      OnePageInside(m, lo, hi);
    }
  }

  lemma AlignedBlocks(len: nat)
    ensures AlignUp(len) == AlignUp(len) / PGSIZE * PGSIZE && AlignUp(len) % PGSIZE == 0
            && (len > 0 ==> AlignUp(len) / PGSIZE > 0)
  {
  }

  // ----- mremap -----

  /** What a successful mremap did. */
  datatype Remapping = Unchanged | Shrunk | Grown | MovedTo(target: nat)

  ghost predicate RemapDone(w: World, w': World, pid: Pid, start: nat, states: seq<PageState>, newPages: nat,
                            kind: Remapping)
  {
    var oldEnd, newEnd := start + |states| * PGSIZE, start + newPages * PGSIZE;
    && |states| > 0
    && match kind
       case Unchanged => newPages == |states| && w' == w
       case Shrunk => newPages < |states| && Cleared(w, w', pid, newEnd, oldEnd)
       case Grown => newPages > |states| && FilledLazy(w, w', pid, oldEnd, newEnd, AnonLazy(states[0].flags))
       case MovedTo(target) =>
         && target != start && (target + newPages * PGSIZE <= start || oldEnd <= target)
         && (Translated(w) ==> MovedView(w, w', pid, start, |states|, target, newPages, states[0].flags))
  }

  /** mremap without MREMAP_FIXED first tries the range in place. */
  method RemapInPlace(mgr: ApeManager, pid: Pid, start: nat, states: seq<PageState>, newPages: nat)
    returns (r: Result<()>, ghost kind: Remapping)
    requires Live(mgr.s, mgr.owed, pid) && StatesAt(mgr.s.procs[pid], start, states) && |states| > 0 && newPages > 0
    requires start % PGSIZE == 0
    modifies mgr
    ensures StepOk(old(mgr.s), old(mgr.owed), mgr.s, mgr.owed, pid) && mgr.owed == old(mgr.owed) && pid in mgr.s.procs
    ensures r.Ok? ==> RemapDone(old(mgr.s), mgr.s, pid, start, states, newPages, kind) && !kind.MovedTo?
    ensures r.Err? ==>
              SameView(old(mgr.s).frames, old(mgr.s).procs[pid], mgr.s.frames, mgr.s.procs[pid])
              && (newPages > |states| ==> mgr.s == old(mgr.s) && r.error == OutOfMemory)
    ensures newPages > |states| ==>
              (r.Ok? <==> RangeIsFreeExcluding(old(mgr.s).procs[pid], start, start + newPages * PGSIZE, start,
                                               start + |states| * PGSIZE))
  {
    hide Live, Books, StepOk, SpaceOk, RefsOk, SameView, StatesAt, Cleared, FilledLazy, RangeIsFreeExcluding,
         FreeOfMaps, OutsideStack, PrivateTargets, OthersKept, AlignUp;
    ghost var w, o := mgr.s, mgr.owed;
    kind := Unchanged;
    LiveParts(w, o, pid);
    SplitNothing(w, o, pid);
    var oldEnd, newEnd := start + |states| * PGSIZE, start + newPages * PGSIZE;
    AlignedEnd(start, |states|);
    AlignedEnd(start, newPages);
    if newPages == |states| {
      return Ok(()), Unchanged;
    }
    if newPages < |states| {
      ExactLength(|states| - newPages);
      NothingToSplit(w.procs[pid], start, states, newEnd, oldEnd);
      r := Munmap(mgr, pid, newEnd, oldEnd - newEnd);
      LiveParts(mgr.s, o, pid);
      return r, Shrunk;
    }
    if !RangeIsFreeExcluding(mgr.s.procs[pid], start, newEnd, start, oldEnd) {
      return Err(OutOfMemory), Unchanged;
    }
    TailIsFree(w.procs[pid], start, oldEnd, newEnd);
    GrowInPlace(mgr, pid, oldEnd, newEnd, states[0].flags);
    StepOkParts(w, o, mgr.s, o, pid);
    LiveKeys(w, o, mgr.s, pid);
    return Ok(()), Grown;
  }

  lemma LiveKeys(w: World, o: multiset<Slot>, w': World, pid: Pid)
    requires Live(w, o, pid) && w'.procs.Keys == w.procs.Keys
    ensures pid in w'.procs
  {
  }

  lemma ExactLength(n: nat)
    ensures AlignUp(n * PGSIZE) == n * PGSIZE
  {
  }

  /** The destination: given, or the first free range from the search hint on. */
  method FindTarget(mm: MmState, fixed: bool, newAddr: nat, len: nat) returns (r: Result<nat>)
    requires SpaceOk(mm) && len > 0
    ensures r.Ok? ==>
              r.value % PGSIZE == 0
              && (if fixed then r.value == newAddr else FirstFree(mm, SearchFrom(mm, 0), len, r.value))
    ensures r.Err? ==>
              if fixed then newAddr % PGSIZE != 0 && r == Err(InvalidArgs)
              else r == Err(OutOfMemory) && NothingFits(mm, SearchFrom(mm, 0), len)
  {
    hide SpaceOk, SearchFrom, FirstFree, NothingFits;
    if fixed {
      return if newAddr % PGSIZE != 0 then Err(InvalidArgs) else Ok(newAddr);
    }
    SearchAligned(mm, 0);
    var found := FirstFit(mm, SearchFrom(mm, 0), len);
    if found.None? {
      return Err(OutOfMemory);
    }
    FirstFreeFits(mm, SearchFrom(mm, 0), len, found.value);
    r := Ok(found.value);
  }

  lemma MoveAllowed(mm: MmState, start: nat, target: nat, states: seq<PageState>, newPages: nat)
    requires SpaceOk(mm) && StatesAt(mm, start, states) && |states| > 0 && start % PGSIZE == 0 && target % PGSIZE == 0
    requires RangeIsFree(mm, target, target + newPages * PGSIZE)
    requires !HasOverlap(target, target + newPages * PGSIZE, start, |states| * PGSIZE)
    ensures CanMove(mm, start, target, states, Arriving(states, newPages, states[0].flags), states[0].flags)
  {
    hide SpaceOk, RangeIsFree, StatesAt, Vacant;
    ArrivingLength(states, newPages, states[0].flags);
    FreeRangeParts(mm, target, target + newPages * PGSIZE);
    MakeVacant(mm, target, target + newPages * PGSIZE);
  }

  lemma MakeVacant(mm: MmState, lo: nat, hi: nat)
    requires FreeOfMaps(mm.maps, lo, hi) && FreeOfLazy(mm.lazy, lo, hi) && OutsideStack(mm, lo, hi)
    ensures Vacant(mm, lo, hi)
  {
  }

  /** The move proper, once a target is chosen. */
  method RemapElsewhere(mgr: ApeManager, pid: Pid, start: nat, states: seq<PageState>, newPages: nat, target: nat)
    returns (r: Result<nat>)
    requires Live(mgr.s, mgr.owed, pid) && StatesAt(mgr.s.procs[pid], start, states) && |states| > 0 && newPages > 0
    requires start % PGSIZE == 0 && target % PGSIZE == 0
    modifies mgr
    ensures Books(mgr.s, mgr.owed) && OthersKept(old(mgr.s), mgr.s, pid) && pid in mgr.s.procs
    ensures r.Err? ==>
              mgr.owed == old(mgr.owed)
              && SameView(old(mgr.s).frames, old(mgr.s).procs[pid], mgr.s.frames, mgr.s.procs[pid])
    ensures r.Err? || PrivateMove(old(mgr.s).procs, pid, states, newPages) ==>
              StepOk(old(mgr.s), old(mgr.owed), mgr.s, mgr.owed, pid)
    ensures r.Ok? ==>
              && r.value == target && RemapDone(old(mgr.s), mgr.s, pid, start, states, newPages, MovedTo(target))
              && mgr.owed == PlusSet(old(mgr.owed), TailCaps(states, newPages))
              && (Translated(old(mgr.s)) ==> Translated(mgr.s))
              && (Translated(old(mgr.s)) && Isolated(old(mgr.s)) ==>
                    (Isolated(mgr.s) <==> PrivateMove(old(mgr.s).procs, pid, states, newPages)))
    ensures HasOverlap(target, target + newPages * PGSIZE, start, |states| * PGSIZE) ==> r == Err(InvalidArgs)
    ensures !RangeIsFree(old(mgr.s).procs[pid], target, target + newPages * PGSIZE) ==> r.Err?
  {
    hide Live, Books, StepOk, SpaceOk, RefsOk, SameView, StatesAt, RangeIsFree, CanMove, OthersKept, PrivateMove,
         Translated, Isolated, MovedView, PlusSet, TailCaps, Arriving;
    ghost var w, o := mgr.s, mgr.owed;
    LiveParts(w, o, pid);
    SplitNothing(w, o, pid);
    if HasOverlap(target, target + newPages * PGSIZE, start, |states| * PGSIZE) {
      return Err(InvalidArgs);
    }
    if !RangeIsFree(mgr.s.procs[pid], target, target + newPages * PGSIZE) {
      return Err(OutOfMemory);
    }
    MoveAllowed(w.procs[pid], start, target, states, newPages);
    r := MoveRange(mgr, pid, start, states, target, newPages, states[0].flags);
    if r.Err? {
      StepOkParts(w, o, mgr.s, o, pid);
    } else {
      OthersKeptParts(w, mgr.s, pid);
    }
  }

  /** What holds however mremap ends: it is sound unless pages moved, and then exactly when no
      moved page is writable and shared. */
  ghost predicate RemapSound(w: World, o: multiset<Slot>, w': World, o': multiset<Slot>, pid: Pid,
                             states: seq<PageState>, newPages: nat, moved: bool)
  {
    && Books(w', o') && OthersKept(w, w', pid) && pid in w.procs && pid in w'.procs
    && o' == (if moved then PlusSet(o, TailCaps(states, newPages)) else o)
    && (Translated(w) ==> Translated(w'))
    && (!moved || PrivateMove(w.procs, pid, states, newPages) ==> StepOk(w, o, w', o', pid))
    && (moved && Translated(w) && Isolated(w) ==> (Isolated(w') <==> PrivateMove(w.procs, pid, states, newPages)))
  }

  lemma StepIsSound(w: World, o: multiset<Slot>, w': World, pid: Pid, states: seq<PageState>, newPages: nat)
    requires StepOk(w, o, w', o, pid) && pid in w.procs && pid in w'.procs
    ensures RemapSound(w, o, w', o, pid, states, newPages, false)
  {
    hide StepOk, Books, OthersKept, Translated, Isolated, PrivateMove;
    StepOkParts(w, o, w', o, pid);
  }

  lemma MoveIsSound(w: World, o: multiset<Slot>, w': World, o': multiset<Slot>, pid: Pid, states: seq<PageState>,
                    newPages: nat)
    requires Books(w', o') && OthersKept(w, w', pid) && pid in w.procs && pid in w'.procs
             && o' == PlusSet(o, TailCaps(states, newPages))
    requires Translated(w) ==> Translated(w')
    requires PrivateMove(w.procs, pid, states, newPages) ==> StepOk(w, o, w', o', pid)
    requires Translated(w) && Isolated(w) ==> (Isolated(w') <==> PrivateMove(w.procs, pid, states, newPages))
    ensures RemapSound(w, o, w', o', pid, states, newPages, true)
  {
  }

  /** The range can have its new length where it is. */
  predicate Stays(mm: MmState, start: nat, oldPages: nat, newPages: nat) {
    newPages <= oldPages || RangeIsFreeExcluding(mm, start, start + newPages * PGSIZE, start, start + oldPages * PGSIZE)
  }

  /** Where the pages of an accepted call end up. */
  ghost predicate RemapPlaced(mm: MmState, start: nat, oldPages: nat, newPages: nat, mayMove: bool, fixed: bool,
                              newAddr: nat, r: Result<nat>, kind: Remapping)
  {
    && (r.Ok? ==> r.value == if kind.MovedTo? then kind.target else start)
    && (fixed ==>
          && (newAddr % PGSIZE != 0 ==> r == Err(InvalidArgs))
          && (r.Ok? ==> if newAddr == start then !kind.MovedTo? && Stays(mm, start, oldPages, newPages)
                        else kind == MovedTo(newAddr) && RangeIsFree(mm, newAddr, newAddr + newPages * PGSIZE)))
    && (!fixed ==>
          && (Stays(mm, start, oldPages, newPages) ==> !kind.MovedTo?)
          && (!Stays(mm, start, oldPages, newPages) ==>
                && (r.Ok? ==> kind.MovedTo? && FirstFree(mm, SearchFrom(mm, 0), newPages * PGSIZE, kind.target))
                && (!mayMove || NothingFits(mm, SearchFrom(mm, 0), newPages * PGSIZE) ==> r == Err(OutOfMemory))))
  }

  /** The choice of a place for pages that have been collected. */
  method RemapPages(mgr: ApeManager, pid: Pid, start: nat, states: seq<PageState>, newPages: nat, mayMove: bool,
                    fixed: bool, newAddr: nat)
    returns (r: Result<nat>, ghost kind: Remapping)
    requires Live(mgr.s, mgr.owed, pid) && StatesAt(mgr.s.procs[pid], start, states) && |states| > 0 && newPages > 0
    requires start % PGSIZE == 0 && (fixed ==> mayMove)
    modifies mgr
    ensures RemapSound(old(mgr.s), old(mgr.owed), mgr.s, mgr.owed, pid, states, newPages, r.Ok? && kind.MovedTo?)
    ensures pid in mgr.s.procs
    ensures r.Err? ==> SameView(old(mgr.s).frames, old(mgr.s).procs[pid], mgr.s.frames, mgr.s.procs[pid])
    ensures r.Ok? ==> RemapDone(old(mgr.s), mgr.s, pid, start, states, newPages, kind)
    ensures RemapPlaced(old(mgr.s).procs[pid], start, |states|, newPages, mayMove, fixed, newAddr, r, kind)
  {
    hide Live, Books, StepOk, SpaceOk, RefsOk, SameView, StatesAt, RangeIsFree, RangeIsFreeExcluding, OthersKept,
         PrivateMove, Translated, Isolated, PlusSet, TailCaps, FirstFree, NothingFits, SearchFrom, RemapDone,
         RemapSound;
    ghost var w, o := mgr.s, mgr.owed;
    kind := Unchanged;
    LiveParts(w, o, pid);
    SplitNothing(w, o, pid);
    StepIsSound(w, o, w, pid, states, newPages);
    if !fixed {
      var inPlace;
      inPlace, kind := RemapInPlace(mgr, pid, start, states, newPages);
      StepIsSound(w, o, mgr.s, pid, states, newPages);
      if inPlace.Ok? {
        return Ok(start), kind;
      }
      if newPages <= |states| || !mayMove {
        return Err(inPlace.error), Unchanged;
      }
    }
    var target := FindTarget(mgr.s.procs[pid], fixed, newAddr, newPages * PGSIZE);
    if target.Err? {
      return Err(target.error), Unchanged;
    }
    if !fixed {
      FirstFreeFits(w.procs[pid], SearchFrom(w.procs[pid], 0), newPages * PGSIZE, target.value);
    }
    if CheckedAdd(target.value, newPages * PGSIZE).None? {
      return Err(OutOfMemory), Unchanged;
    }
    if target.value == start {
      var inPlace;
      inPlace, kind := RemapInPlace(mgr, pid, start, states, newPages);
      StepIsSound(w, o, mgr.s, pid, states, newPages);
      r := if inPlace.Ok? then Ok(start) else Err(inPlace.error);
      return;
    }
    r := RemapElsewhere(mgr, pid, start, states, newPages, target.value);
    kind := MovedTo(target.value);
    if r.Ok? {
      MoveIsSound(w, o, mgr.s, mgr.owed, pid, states, newPages);
    } else {
      StepIsSound(w, o, mgr.s, pid, states, newPages);
    }
  }

  predicate RemapAccepted(mm: MmState, start: nat, oldSize: nat, newSize: nat, mayMove: bool, fixed: bool,
                          otherFlags: bool)
  {
    && oldSize > 0 && newSize > 0 && start % PGSIZE == 0 && !otherFlags && (fixed ==> mayMove)
    && start + AlignUp(oldSize) <= USIZE_MAX && start + AlignUp(newSize) <= USIZE_MAX
    && forall i | 0 <= i < AlignUp(oldSize) / PGSIZE :: Movable(mm, start + i * PGSIZE)
  }

  /** mremap. It refuses bad arguments and ranges that are not plain anonymous pages; in place it
      shrinks or grows; elsewhere, at the address given or the first range free from the search
      hint on, it moves, page i of the target showing what page i of the old range showed. A
      failure changes no page. The translation always survives; copy-on-write stays sound in place,
      and after a move exactly when no moved page is writable and shared. A shorter move loses the
      tail's frames. */
  method Mremap(mgr: ApeManager, pid: Pid, start: nat, oldSize: nat, newSize: nat, mayMove: bool, fixed: bool,
                otherFlags: bool, newAddr: nat)
    returns (r: Result<nat>, ghost states: seq<PageState>, ghost kind: Remapping)
    requires Live(mgr.s, mgr.owed, pid)
    modifies mgr
    ensures RemapSound(old(mgr.s), old(mgr.owed), mgr.s, mgr.owed, pid, states, AlignUp(newSize) / PGSIZE,
                       r.Ok? && kind.MovedTo?)
    ensures pid in mgr.s.procs
    ensures r.Err? ==> SameView(old(mgr.s).frames, old(mgr.s).procs[pid], mgr.s.frames, mgr.s.procs[pid])
    ensures r.Ok? ==>
              && |states| == AlignUp(oldSize) / PGSIZE && StatesAt(old(mgr.s).procs[pid], start, states)
              && RemapDone(old(mgr.s), mgr.s, pid, start, states, AlignUp(newSize) / PGSIZE, kind)
    ensures if RemapAccepted(old(mgr.s).procs[pid], start, oldSize, newSize, mayMove, fixed, otherFlags)
            then RemapPlaced(old(mgr.s).procs[pid], start, AlignUp(oldSize) / PGSIZE, AlignUp(newSize) / PGSIZE,
                             mayMove, fixed, newAddr, r, kind)
            else r.Err? && mgr.s == old(mgr.s)
    ensures oldSize == 0 || newSize == 0 || start % PGSIZE != 0 || otherFlags || (fixed && !mayMove) ==>
              r == Err(InvalidArgs)
  {
    hide Live, Books, StepOk, SpaceOk, RefsOk, SameView, StatesAt, OthersKept, Translated, Isolated, AlignUp, Movable,
         RemapSound, RemapDone, RemapPlaced;
    ghost var w, o := mgr.s, mgr.owed;
    states, kind := [], Unchanged;
    LiveParts(w, o, pid);
    SplitNothing(w, o, pid);
    StepIsSound(w, o, w, pid, [], AlignUp(newSize) / PGSIZE);
    if oldSize == 0 || newSize == 0 || start % PGSIZE != 0 || otherFlags || (fixed && !mayMove) {
      return Err(InvalidArgs), [], Unchanged;
    }
    AlignedBlocks(oldSize);
    AlignedBlocks(newSize);
    var oldPages, newPages := AlignUp(oldSize) / PGSIZE, AlignUp(newSize) / PGSIZE;
    if CheckedAdd(start, AlignUp(oldSize)).None? || CheckedAdd(start, AlignUp(newSize)).None? {
      return Err(OutOfMemory), [], Unchanged;
    }
    var found := CollectStates(mgr.s.procs[pid], start, oldPages);
    if found.Err? {
      return Err(found.error), [], Unchanged;
    }
    states := found.value;
    r, kind := RemapPages(mgr, pid, start, found.value, newPages, mayMove, fixed, newAddr);
  }
}
