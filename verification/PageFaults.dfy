/** The page-fault handler: the decision it takes, and what each decision does. */
module PageFaults {
  import opened Types
  import opened AddressSpace
  import opened Machine
  import opened Views
  import opened World
  import opened FreshMaps
  import opened CowFault
  import opened DemandFaults
  import opened Splitting
  import opened Manager
  import opened SplitCalls
  import opened FileFault
  import opened Reflag
  import opened Faults
  import opened Lifecycle
  import opened EagerCopy
  import opened UserAccess

  const HUGE_PAGES: nat := 512
  const HUGE_SIZE: nat := HUGE_PAGES * PGSIZE

  predicate Allowed(cause: Cause, perms: Perms) {
    match cause
    case FetchFault => perms.x
    case LoadFault => perms.r
    case StoreFault => perms.w
  }

  datatype Plan =
    | Deny
    | CopyPage(k: nat)
    | Remap(k: nat, perms: Perms)
    | StackPages(count: nat)
    | HeapPage
    | FilePage(request: nat)
    | AnonPage

  /** Write and execute exclude each other on an image page: the handler swaps them on demand. */
  function Flipped(m: MemoryMap, cause: Cause): Option<Perms> {
    if m.memType != Image then None
    else if cause == StoreFault && m.flags.x && !m.flags.w then Some(m.flags.(w := true, x := false))
    else if cause == FetchFault && m.flags.w && !m.flags.x then Some(m.flags.(x := true, w := false))
    else None
  }

  function PlanResident(m: MemoryMap, cause: Cause): Plan {
    if cause == StoreFault && m.cow then (if m.flags.w then CopyPage(m.vaddr) else Deny)
    else if Allowed(cause, m.flags) then Remap(m.vaddr, RemapPerms(m))
    else if Flipped(m, cause).Some? then Remap(m.vaddr, Flipped(m, cause).value)
    else Deny
  }

  function PlanFault(mm: MmState, addr: nat, cause: Cause): Plan {
    var m := Lookup(mm.maps, addr);
    if m.Some? then PlanResident(m.value, cause)
    else
      match ClassifyFault(mm, addr, AlignDown(addr))
      case StackGrowth(_, pages) => if Allowed(cause, READ_WRITE) then StackPages(pages) else Deny
      case HeapLazy => if Allowed(cause, READ_WRITE) then HeapPage else Deny
      case LazyMmap(l) =>
        if !Allowed(cause, l.flags) then Deny
        else if l.memType == FileBacked then
          FilePage(if AlignDown(addr) % HUGE_SIZE == 0 && l.offset % HUGE_SIZE == 0 then HUGE_PAGES else 4)
        else AnonPage
      case Unmanaged => Deny
  }

  datatype Outcome = Handled | Failed(error: Error) | Terminated

  /** The permissions a plan gives the page of the fault. */
  function Granted(mm: MmState, addr: nat, plan: Plan): Perms {
    match plan
    case CopyPage(k) => if k in mm.maps then mm.maps[k].flags else READ_WRITE
    case Remap(_, perms) => perms
    case FilePage(_) => if AlignDown(addr) in mm.lazy then mm.lazy[AlignDown(addr)].flags else READ_WRITE
    case AnonPage => if AlignDown(addr) in mm.lazy then mm.lazy[AlignDown(addr)].flags else READ_WRITE
    case _ => READ_WRITE
  }

  /** What carrying out a plan does to the memory of the process, by outcome. */
  ghost predicate FaultEvents(mm: MmState, pid: Pid, addr: nat, plan: Plan, files: Files, r: Outcome, es: seq<Event>) {
    var page := AlignDown(addr);
    match plan
    case Deny => r == Terminated && es == [Exit(pid)]
    case CopyPage(_) => r != Terminated && es == []
    case Remap(k, perms) =>
      r != Terminated && k in mm.maps && es == if r == Handled then [Protect(pid, k, mm.maps[k].End(), perms)] else []
    case StackPages(_) =>
      && r != Terminated && |es| == 1 && es[0].Fill? && es[0].pid == pid
      && page <= es[0].lo <= es[0].hi == mm.StackBoundary() && es[0].v == ZeroView(READ_WRITE, Stack)
      && (r == Handled ==> es[0].lo == page)
    case HeapPage =>
      r != Terminated && es == if r == Handled then [Fill(pid, page, page + PGSIZE, ZeroView(READ_WRITE, Heap))] else []
    case FilePage(request) =>
      && (r == Terminated || (r == Handled && |es| == 1 && es[0].Populate?))
      && (r == Terminated ==> es == [Exit(pid)])
      && (r == Handled ==>
            && es[0].pid == pid && es[0].lo == page && es[0].files == files
            && page + PGSIZE <= es[0].hi <= page + request * PGSIZE)
    case AnonPage =>
      && r != Terminated && page in mm.lazy
      && es ==
           if r == Handled then [Fill(pid, page, page + PGSIZE, ZeroView(mm.lazy[page].flags, mm.lazy[page].memType))]
               else [Lose(pid, page)]
  }

  /** A granted access is one the fault asked for: the retried access goes through. */
  lemma GrantedIsAllowed(mm: MmState, addr: nat, cause: Cause)
    requires SpaceOk(mm)
    ensures var plan := PlanFault(mm, addr, cause);
            plan != Deny ==> Allowed(cause, Granted(mm, addr, plan))
  {
    hide SpaceOk, MapsOk, Lookup;
    SpaceMapsOk(mm);
    LookupExact(mm.maps, addr);
    LazyLookup(mm, addr);
  }

  // ----- Carrying the plans out -----

  /** Books balance, page tables agree with the tables, and writable pages are private. */
  ghost predicate Sound(w: World, owed: multiset<Slot>) {
    Books(w, owed) && Translated(w) && Isolated(w)
  }

  lemma SoundStep(w: World, o: multiset<Slot>, s: World, owed: multiset<Slot>, pid: Pid)
    requires Sound(w, o) && StepOk(w, o, s, owed, pid)
    ensures Sound(s, owed) && OthersKept(w, s, pid) && Lost(o, owed)
    ensures s.procs.Keys == w.procs.Keys && s.running == w.running
    ensures Live(w, o, pid) ==> Live(s, owed, pid) && pid in s.procs
  {
    hide Books, Translated, Isolated, StepOk, OthersKept, Lost;
    StepOkParts(w, o, s, owed, pid);
    if Live(w, o, pid) {
      MakeLive(s, owed, pid);
    }
  }

  lemma ExitRefines(w: World, o: multiset<Slot>, w': World, pid: Pid)
    requires Live(w, o, pid) && Survive(w, w', pid) && w'.running == w.running - {pid}
    ensures Refines(w, w', [Exit(pid)])
  {
    hide MemoryOf, SpaceOk, RefsOk, SameView;
    BooksRunning(w, o);
    forall q | q in w.procs && q != pid
      ensures MemoryOf(w'.frames, w'.procs[q]) == MemoryOf(w.frames, w.procs[q])
    {
      SameMemory(w.frames, w.procs[q], w'.frames, w'.procs[q]);
    }
    assert Shown(w') == Shown(w) - {pid};
    RunOne(Shown(w), Exit(pid));
  }

  /** Exit as an event: the process is gone, nobody else notices. */
  method Kill(mgr: ApeManager, pid: Pid) returns (ghost es: seq<Event>)
    requires Sound(mgr.s, mgr.owed) && Live(mgr.s, mgr.owed, pid)
    modifies mgr
    ensures Sound(mgr.s, mgr.owed) && mgr.owed == old(mgr.owed)
    ensures es == [Exit(pid)] && Refines(old(mgr.s), mgr.s, es)
    ensures mgr.s.running == old(mgr.s).running - {pid}
  {
    hide Live, Books, Translated, Isolated, Refines, Survive;
    ghost var w, o := mgr.s, mgr.owed;
    Terminate(mgr, pid);
    ExitRefines(w, o, mgr.s, pid);
    es := [Exit(pid)];
  }

  method DoCopy(mgr: ApeManager, pid: Pid, k: nat, addr: nat) returns (r: Outcome)
    requires Sound(mgr.s, mgr.owed) && Live(mgr.s, mgr.owed, pid)
    requires k in mgr.s.procs[pid].maps && mgr.s.procs[pid].maps[k].size == PGSIZE
             && mgr.s.procs[pid].maps[k].Covers(addr)
    modifies mgr
    ensures LostOne({}, old(mgr.owed), mgr.owed) && (!r.Failed? ==> mgr.owed == old(mgr.owed))
    ensures StepOk(old(mgr.s), old(mgr.owed), mgr.s, mgr.owed, pid) && r != Terminated
    ensures Refines(old(mgr.s), mgr.s, [])
    ensures r == Handled ==> Reaches(mgr.s, pid, AlignDown(addr), old(mgr.s).procs[pid].maps[k].flags)
  {
    hide Live, Books, Translated, Isolated, Refines, StepOk, SameView, CanResolve, Resolved, Reaches, OthersKept, Lost,
         LostOne, SpaceOk, RefsOk, Backed, MapsOk;
    ghost var w, o := mgr.s, mgr.owed;
    LiveParts(w, o, pid);
    SpaceMapsOk(w.procs[pid]);
    MapParts(w.procs[pid].maps, k);
    var done := mgr.ResolveCowFault(pid, k);
    LostOneFrom({}, o, 0);
    if done.Err? {
      LostOneIsLost(w.frames.Keys, o, mgr.owed);
      SoundStep(w, o, mgr.s, mgr.owed, pid);
      NothingRefines(w, o, mgr.s, pid);
      r := Failed(done.error);
    } else {
      CowFaultStep(w, o, pid, k, done.value);
      SoundStep(w, o, mgr.s, mgr.owed, pid);
      TranslatedParts(w, pid);
      NothingRefines(w, o, mgr.s, pid);
      CopyReaches(w, o, pid, k, done.value, addr);
      r := Handled;
    }
  }

  lemma CopyReaches(w: World, o: multiset<Slot>, pid: Pid, k: nat, slot: Slot, addr: nat)
    requires CanResolve(w, o, pid, k, slot) && pid in w.hw && k in w.procs[pid].maps && k % PGSIZE == 0
             && k <= addr < k + PGSIZE
    ensures Reaches(CowFault.Resolved(w, pid, k, slot), pid, AlignDown(addr), w.procs[pid].maps[k].flags)
  {
    hide CanCopy;
    OnePage(k, AlignDown(addr));
    assert AlignDown(addr) == k;
    assert IsPageOf(k, k, 1);
  }

  method DoRemap(mgr: ApeManager, pid: Pid, k: nat, perms: Perms, addr: nat) returns (r: Outcome, ghost es: seq<Event>)
    requires Sound(mgr.s, mgr.owed) && Live(mgr.s, mgr.owed, pid)
    requires k in mgr.s.procs[pid].maps && mgr.s.procs[pid].maps[k].Covers(addr)
    requires perms.w ==> !mgr.s.procs[pid].maps[k].cow && Unshared(mgr.s.procs, pid, mgr.s.procs[pid].maps[k].frameCap)
    modifies mgr
    ensures mgr.owed == old(mgr.owed)
    ensures StepOk(old(mgr.s), old(mgr.owed), mgr.s, mgr.owed, pid) && r != Terminated
    ensures Refines(old(mgr.s), mgr.s, es)
    ensures es == if r == Handled then [Protect(pid, k, old(mgr.s).procs[pid].maps[k].End(), perms)] else []
    ensures r == Handled ==> Reaches(mgr.s, pid, AlignDown(addr), perms)
  {
    hide Live, Books, Translated, Isolated, Refines, StepOk, SameView, Reaches, OthersKept, Lost, SpaceOk, RefsOk,
         MapsOk, Reflagged, FlagsSet, MemoryOf, Change, Unshared;
    ghost var w, o := mgr.s, mgr.owed;
    LiveParts(w, o, pid);
    SpaceMapsOk(w.procs[pid]);
    MapParts(w.procs[pid].maps, k);
    var done := RemapExistingPage(mgr, pid, k, perms);
    if done.Err? {
      SoundStep(w, o, mgr.s, mgr.owed, pid);
      NothingRefines(w, o, mgr.s, pid);
      r, es := Failed(done.error), [];
    } else {
      ReflagStep(w, o, pid, k, perms);
      SoundStep(w, o, mgr.s, mgr.owed, pid);
      ProtectedMemory(w, mgr.s, pid, k, w.procs[pid].maps[k].End(), perms);
      es := [Protect(pid, k, w.procs[pid].maps[k].End(), perms)];
      StepRefines(w, o, mgr.s, mgr.owed, pid, es[0]);
      RemapReaches(w, pid, k, perms, addr);
      r := Handled;
    }
  }

  lemma RemapReaches(w: World, pid: Pid, k: nat, perms: Perms, addr: nat)
    requires pid in w.procs && pid in w.hw && k in w.procs[pid].maps && MapsOk(w.procs[pid].maps)
             && w.procs[pid].maps[k].Covers(addr)
    ensures Reaches(Reflagged(w, pid, k, perms), pid, AlignDown(addr), perms)
  {
    MapParts(w.procs[pid].maps, k);
    PageInMap(k, w.procs[pid].maps[k].Pages(), AlignDown(addr));
  }

  method DoStack(mgr: ApeManager, pid: Pid, pages: nat, addr: nat) returns (r: Outcome, ghost es: seq<Event>)
    requires Sound(mgr.s, mgr.owed) && Live(mgr.s, mgr.owed, pid)
    requires mgr.s.procs[pid].StackLow() <= addr < mgr.s.procs[pid].StackBoundary()
    requires pages == (mgr.s.procs[pid].StackBoundary() - AlignDown(addr)) / PGSIZE
    modifies mgr
    ensures LostOne({}, old(mgr.owed), mgr.owed) && (!r.Failed? ==> mgr.owed == old(mgr.owed))
    ensures StepOk(old(mgr.s), old(mgr.owed), mgr.s, mgr.owed, pid) && r != Terminated
    ensures Refines(old(mgr.s), mgr.s, es)
    ensures exists low :: AlignDown(addr) <= low <= old(mgr.s).procs[pid].StackBoundary()
                          && (r == Handled ==> low == AlignDown(addr))
                          && es == [Fill(pid, low, old(mgr.s).procs[pid].StackBoundary(), ZeroView(READ_WRITE, Stack))]
    ensures r == Handled ==> Reaches(mgr.s, pid, AlignDown(addr), READ_WRITE)
  {
    hide Live, Books, Translated, Isolated, Refines, StepOk, GrewBy, Reaches, OthersKept, Lost, LostOne, SpaceOk,
         RefsOk, Filled, MemoryOf, Change;
    ghost var w, o := mgr.s, mgr.owed;
    LiveParts(w, o, pid);
    StackPagesFit(w.procs[pid], addr, pages);
    var done := mgr.GrowStack(pid, pages);
    LostOneFrom({}, o, 0);
    if done.Err? {
      LostOneIsLost(w.frames.Keys, o, mgr.owed);
    }
    SoundStep(w, o, mgr.s, mgr.owed, pid);
    ghost var low := mgr.s.procs[pid].StackBoundary();
    GrewFills(w, mgr.s, pid, low);
    FilledMemory(w, mgr.s, pid, low, w.procs[pid].StackBoundary(), ZeroView(READ_WRITE, Stack));
    es := [Fill(pid, low, w.procs[pid].StackBoundary(), ZeroView(READ_WRITE, Stack))];
    StepRefines(w, o, mgr.s, mgr.owed, pid, es[0]);
    r := if done.Ok? then Handled else Failed(done.error);
  }

  lemma GrewFills(w: World, w': World, pid: Pid, low: nat)
    requires GrewBy(w, w', pid, low)
    ensures pid in w.procs && pid in w'.procs && low <= w.procs[pid].StackBoundary()
    ensures Filled(w, w', pid, low, w.procs[pid].StackBoundary(), ZeroView(READ_WRITE, Stack))
  {
  }

  lemma PagesBetween(low: nat, high: nat, addr: nat)
    requires low % PGSIZE == 0 && high % PGSIZE == 0 && low <= addr < high
    ensures low <= AlignDown(addr) < high && (high - AlignDown(addr)) % PGSIZE == 0
    ensures (high - AlignDown(addr)) / PGSIZE > 0
            && (high - AlignDown(addr)) / PGSIZE * PGSIZE == high - AlignDown(addr)
  {
  }

  lemma StackPagesFit(mm: MmState, addr: nat, pages: nat)
    requires SpaceOk(mm) && mm.StackLow() <= addr < mm.StackBoundary()
    requires pages == (mm.StackBoundary() - AlignDown(addr)) / PGSIZE
    ensures pages > 0 && mm.StackLow() + pages * PGSIZE <= mm.StackBoundary()
    ensures mm.StackBoundary() - pages * PGSIZE == AlignDown(addr)
  {
    hide SpaceOk, AlignDown;
    StackBounds(mm);
    PagesBetween(mm.StackLow(), mm.StackBoundary(), addr);
  }

  method DoHeap(mgr: ApeManager, pid: Pid, page: nat) returns (r: Outcome, ghost es: seq<Event>)
    requires Sound(mgr.s, mgr.owed) && Live(mgr.s, mgr.owed, pid) && page % PGSIZE == 0
    requires Lookup(mgr.s.procs[pid].maps, page).None? && Lookup(mgr.s.procs[pid].lazy, page).None?
    requires OutsideStack(mgr.s.procs[pid], page, page + PGSIZE)
    modifies mgr
    ensures LostOne({}, old(mgr.owed), mgr.owed) && (!r.Failed? ==> mgr.owed == old(mgr.owed))
    ensures StepOk(old(mgr.s), old(mgr.owed), mgr.s, mgr.owed, pid) && r != Terminated
    ensures Refines(old(mgr.s), mgr.s, es)
    ensures es == if r == Handled then [Fill(pid, page, page + PGSIZE, ZeroView(READ_WRITE, Heap))] else []
    ensures r == Handled ==> Reaches(mgr.s, pid, page, READ_WRITE)
  {
    hide Live, Books, Translated, Isolated, Refines, StepOk, Reaches, OthersKept, Lost, LostOne, SpaceOk, RefsOk,
         Filled, MemoryOf, Change, SameView, Lookup, OutsideStack;
    ghost var w, o := mgr.s, mgr.owed;
    LiveParts(w, o, pid);
    var done := mgr.FaultHeapPage(pid, page);
    LostOneFrom({}, o, 0);
    SoundStep(w, o, mgr.s, mgr.owed, pid);
    if done.Err? {
      LostOneIsLost(w.frames.Keys, o, mgr.owed);
      NothingRefines(w, o, mgr.s, pid);
      r, es := Failed(done.error), [];
    } else {
      FilledMemory(w, mgr.s, pid, page, page + PGSIZE, ZeroView(READ_WRITE, Heap));
      es := [Fill(pid, page, page + PGSIZE, ZeroView(READ_WRITE, Heap))];
      StepRefines(w, o, mgr.s, mgr.owed, pid, es[0]);
      r := Handled;
    }
  }

  lemma LostMemory(w: World, w': World, pid: Pid, page: nat)
    requires PageLost(w, w', pid, page)
    ensures MemoryOf(w'.frames, w'.procs[pid]) == Change(MemoryOf(w.frames, w.procs[pid]), Lose(pid, page))
  {
    hide PageAt;
  }

  method DoAnon(mgr: ApeManager, pid: Pid, page: nat) returns (r: Outcome, ghost es: seq<Event>)
    requires Sound(mgr.s, mgr.owed) && Live(mgr.s, mgr.owed, pid) && page in mgr.s.procs[pid].lazy
    modifies mgr
    ensures LostOne({}, old(mgr.owed), mgr.owed) && (!r.Failed? ==> mgr.owed == old(mgr.owed))
    ensures StepOk(old(mgr.s), old(mgr.owed), mgr.s, mgr.owed, pid) && r != Terminated
    ensures Refines(old(mgr.s), mgr.s, es)
    ensures var l := old(mgr.s).procs[pid].lazy[page];
            && es == (if r == Handled then [Fill(pid, page, page + PGSIZE, ZeroView(l.flags, l.memType))]
                      else [Lose(pid, page)])
            && (r == Handled ==> Reaches(mgr.s, pid, page, l.flags))
  {
    hide Live, Books, Translated, Isolated, Refines, StepOk, Reaches, OthersKept, Lost, LostOne, SpaceOk, RefsOk,
         Filled, MemoryOf, Change, PageLost;
    ghost var w, o := mgr.s, mgr.owed;
    LiveParts(w, o, pid);
    ghost var l := w.procs[pid].lazy[page];
    var done := FaultLazyPage(mgr, pid, page);
    LostOneFrom({}, o, 0);
    SoundStep(w, o, mgr.s, mgr.owed, pid);
    if done.Err? {
      LostOneIsLost(w.frames.Keys, o, mgr.owed);
      LostMemory(w, mgr.s, pid, page);
      r, es := Failed(done.error), [Lose(pid, page)];
    } else {
      FilledMemory(w, mgr.s, pid, page, page + PGSIZE, ZeroView(l.flags, l.memType));
      r, es := Handled, [Fill(pid, page, page + PGSIZE, ZeroView(l.flags, l.memType))];
    }
    StepRefines(w, o, mgr.s, mgr.owed, pid, es[0]);
  }

  /** A file page that cannot be had kills the process (SIGBUS). */
  method DoFile(mgr: ApeManager, pid: Pid, page: nat, request: nat, fdOpen: bool, files: Files)
    returns (r: Outcome, ghost es: seq<Event>)
    requires Sound(mgr.s, mgr.owed) && Live(mgr.s, mgr.owed, pid) && request >= 1
    requires page in mgr.s.procs[pid].lazy && mgr.s.procs[pid].lazy[page].memType == FileBacked
    modifies mgr
    ensures Sound(mgr.s, mgr.owed) && mgr.owed == old(mgr.owed)
    ensures Refines(old(mgr.s), mgr.s, es) && (r == Handled || r == Terminated)
    ensures r == Terminated ==> es == [Exit(pid)]
    ensures r == Handled ==>
              && Live(mgr.s, mgr.owed, pid) && Reaches(mgr.s, pid, page, old(mgr.s).procs[pid].lazy[page].flags)
              && exists n: nat :: 1 <= n <= request && es == [Populate(pid, page, page + n * PGSIZE, files)]
  {
    hide Live, Sound, Books, Refines, StepOk, Reaches, OthersKept, Lost, SpaceOk, RefsOk, Populated, MemoryOf, Change,
         SameView, Continues;
    ghost var w, o := mgr.s, mgr.owed;
    LiveParts(w, o, pid);
    var done := FaultFilePage(mgr, pid, page, request, fdOpen, files);
    SoundStep(w, o, mgr.s, mgr.owed, pid);
    if done.Err? {
      NothingRefines(w, o, mgr.s, pid);
      ghost var w1 := mgr.s;
      es := Kill(mgr, pid);
      RefinesJoin(w, w1, mgr.s, [], es);
      assert [] + es == es;
      r := Terminated;
    } else {
      PopulatedMemory(w, mgr.s, pid, page, page + done.value * PGSIZE, files);
      r, es := Handled, [Populate(pid, page, page + done.value * PGSIZE, files)];
      StepRefines(w, o, mgr.s, mgr.owed, pid, es[0]);
    }
  }

  // ----- The handler -----

  /** What keeps a fault inside the reach of copy-on-write: a store fault on a copy-on-write map
      copies one page, so the map must be one page long, and an image page may only be made
      writable when nobody shares it. */
  predicate FaultScope(w: World, pid: Pid, plan: Plan)
    requires pid in w.procs
  {
    match plan
    case CopyPage(k) => k in w.procs[pid].maps && w.procs[pid].maps[k].size == PGSIZE
    case Remap(k, perms) =>
      k in w.procs[pid].maps
      && (perms.w ==> !w.procs[pid].maps[k].cow && Unshared(w.procs, pid, w.procs[pid].maps[k].frameCap))
    case _ => true
  }

  /** What a plan other than Deny says about the tables. */
  ghost predicate PlanFits(mm: MmState, addr: nat, plan: Plan) {
    var page := AlignDown(addr);
    match plan
    case Deny => true
    case CopyPage(k) => k in mm.maps && mm.maps[k].Covers(addr)
    case Remap(k, _) => k in mm.maps && mm.maps[k].Covers(addr)
    case StackPages(n) => mm.StackLow() <= addr < mm.StackBoundary() && n == (mm.StackBoundary() - page) / PGSIZE
    case HeapPage => Lookup(mm.maps, page).None? && Lookup(mm.lazy, page).None? && OutsideStack(mm, page, page + PGSIZE)
    case FilePage(request) => request >= 1 && page in mm.lazy && mm.lazy[page].memType == FileBacked
    case AnonPage => page in mm.lazy
  }

  lemma PlanIsSound(mm: MmState, addr: nat, cause: Cause)
    requires SpaceOk(mm)
    ensures PlanFits(mm, addr, PlanFault(mm, addr, cause))
  {
    hide MapsOk, Lookup, LazyOk, Apart;
    SpaceMapsOk(mm);
    LookupExact(mm.maps, addr);
    LazyLookup(mm, addr);
    LazyLookup(mm, AlignDown(addr));
    SamePageLookup(mm, addr);
    assert AlignDown(AlignDown(addr)) == AlignDown(addr);
    if Lookup(mm.maps, addr).None? {
      OutsideGrowth(mm, addr);
    }
  }

  lemma CoversSamePage(maps: Maps, k: nat, addr: nat)
    requires MapsOk(maps) && k in maps
    ensures maps[k].Covers(addr) <==> maps[k].Covers(AlignDown(addr))
  {
    hide MapsOk, MemoryMap.Pages, AlignDown;
    MapParts(maps, k);
    DownInside(k, maps[k].Pages(), addr);
  }

  lemma DownInside(k: nat, n: nat, addr: nat)
    requires k % PGSIZE == 0
    ensures k <= addr < k + n * PGSIZE <==> k <= AlignDown(addr) < k + n * PGSIZE
  {
  }

  lemma SamePageLookup(mm: MmState, addr: nat)
    requires SpaceOk(mm)
    ensures Lookup(mm.maps, addr).None? <==> Lookup(mm.maps, AlignDown(addr)).None?
  {
    hide SpaceOk, MapsOk, Lookup, AlignDown, MemoryMap.Covers;
    SpaceMapsOk(mm);
    LookupExact(mm.maps, addr);
    LookupExact(mm.maps, AlignDown(addr));
    forall k | k in mm.maps
      ensures mm.maps[k].Covers(addr) <==> mm.maps[k].Covers(AlignDown(addr))
    {
      CoversSamePage(mm.maps, k, addr);
    }
  }

  lemma StackBounds(mm: MmState)
    requires SpaceOk(mm)
    ensures mm.StackLow() % PGSIZE == 0 && mm.stackBottom % PGSIZE == 0 && mm.StackBoundary() % PGSIZE == 0
    ensures mm.StackLow() <= mm.StackBoundary() <= mm.stackBottom
  {
  }

  lemma StackPage(mm: MmState, addr: nat)
    requires SpaceOk(mm) && mm.StackBoundary() <= addr < mm.stackBottom
    ensures exists k :: k in mm.maps && mm.maps[k].Covers(addr)
  {
    hide SpaceOk, MapsOk, LazyOk, Apart;
    StackBounds(mm);
    SpaceParts(mm);
    var page := AlignDown(addr);
    assert mm.StackBoundary() <= page;
    EntryOf(mm.maps, page);
    assert mm.maps[page].Covers(addr);
  }

  /** Below the bottom of the stack and above its boundary every address is resident. */
  lemma StackResident(mm: MmState, addr: nat)
    requires SpaceOk(mm) && mm.StackBoundary() <= addr < mm.stackBottom
    ensures Lookup(mm.maps, addr).Some?
  {
    hide SpaceOk, MapsOk, LazyOk, Apart, StackOk, Lookup;
    SpaceParts(mm);
    StackPage(mm, addr);
    LookupExact(mm.maps, addr);
  }

  lemma OutsideGrowth(mm: MmState, addr: nat)
    requires SpaceOk(mm) && Lookup(mm.maps, addr).None?
    ensures mm.StackLow() <= addr < mm.StackBoundary() || OutsideStack(mm, AlignDown(addr), AlignDown(addr) + PGSIZE)
  {
    hide SpaceOk, Lookup;
    StackBounds(mm);
    if mm.StackBoundary() <= addr < mm.stackBottom {
      StackResident(mm, addr);
    }
  }

  /** page_fault. The outcome is the planned one; the eager-copy machine follows the events; on
      success the page is mapped with permissions that let the access through; the invariants
      copy-on-write rests on are kept; and the counts stay exact unless the fault fails, when at
      most one reference is lost. */
  method PageFault(mgr: ApeManager, pid: Pid, addr: nat, cause: Cause, fdOpen: bool, files: Files)
    returns (r: Outcome, ghost es: seq<Event>)
    requires Sound(mgr.s, mgr.owed) && Live(mgr.s, mgr.owed, pid)
    requires FaultScope(mgr.s, pid, PlanFault(mgr.s.procs[pid], addr, cause))
    modifies mgr
    ensures Sound(mgr.s, mgr.owed) && Lost(old(mgr.owed), mgr.owed)
    ensures LostOne({}, old(mgr.owed), mgr.owed) && (!r.Failed? ==> mgr.owed == old(mgr.owed))
    ensures Refines(old(mgr.s), mgr.s, es)
    ensures FaultEvents(old(mgr.s).procs[pid], pid, addr, PlanFault(old(mgr.s).procs[pid], addr, cause), files, r, es)
    ensures r == Handled ==>
              Live(mgr.s, mgr.owed, pid)
              && Reaches(mgr.s, pid, AlignDown(addr),
                         Granted(old(mgr.s).procs[pid], addr, PlanFault(old(mgr.s).procs[pid], addr, cause)))
  {
    hide Live, Sound, Books, Refines, StepOk, Reaches, OthersKept, Lost, LostOne, SpaceOk, RefsOk, MapsOk, Lookup,
         PlanFault, OutsideStack, Unshared;
    ghost var w, o := mgr.s, mgr.owed;
    LiveParts(w, o, pid);
    var mm := mgr.s.procs[pid];
    var plan := PlanFault(mm, addr, cause);
    LostPlus(o, 0);
    LostOneFrom({}, o, 0);
    PlanIsSound(mm, addr, cause);
    if plan.Deny? {
      es := Kill(mgr, pid);
      r := Terminated;
      return;
    }
    if plan.FilePage? {
      r, es := DoFile(mgr, pid, AlignDown(addr), plan.request, fdOpen, files);
      return;
    }
    match plan {
      case CopyPage(k) => r := DoCopy(mgr, pid, k, addr); es := [];
      case Remap(k, perms) => r, es := DoRemap(mgr, pid, k, perms, addr);
      case StackPages(count) => r, es := DoStack(mgr, pid, count, addr);
      case HeapPage => r, es := DoHeap(mgr, pid, AlignDown(addr));
      case AnonPage => r, es := DoAnon(mgr, pid, AlignDown(addr));
    }
    SoundStep(w, o, mgr.s, mgr.owed, pid);
  }
}
