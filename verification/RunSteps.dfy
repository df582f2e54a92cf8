/** mprotect, brk, mremap and copies to a process as steps of the eager machine. */
module RunSteps {
  import opened Types
  import opened AddressSpace
  import opened Machine
  import opened Views
  import opened World
  import opened DemandFaults
  import opened Manager
  import opened SplitCalls
  import opened Ranges
  import opened FreeRanges
  import opened MmapCalls
  import opened MmapLemmas
  import opened Reflag
  import opened ForkLemmas
  import opened EagerCopy
  import opened PageFaults
  import opened ProtectCalls
  import opened Moves
  import opened MoveSteps
  import opened RemapCalls
  import opened UserBytes
  import opened ScratchPool
  import opened CopySteps
  import opened UserCopy

  // ----- mprotect and brk -----

  /** Only the last map to change is perhaps recorded as read-only: no permission is left half
      given, whichever of the maps cannot be mapped anew. */
  predicate HaltsSafely(maps: Maps, keys: set<nat>, perms: Perms) {
    perms.w ==> forall j, k | j in keys && k in keys && j < k && j in maps :: maps[j].flags.w && !maps[j].cow
  }

  predicate ProtectScope(w: World, pid: Pid, lo: nat, hi: nat, perms: Perms)
    requires pid in w.procs
  {
    var maps := w.procs[pid].maps;
    && PrivateTargets(maps, lo, hi) && MayProtect(w, pid, Meeting(maps, lo, hi), perms)
    && (MayHalt(w, pid, Meeting(maps, lo, hi), perms)
        || (Targets(maps, lo, hi) == {} && HaltsSafely(maps, Meeting(maps, lo, hi), perms)))
  }

  lemma HaltsSafelyAnywhere(w: World, pid: Pid, keys: set<nat>, done: set<nat>, perms: Perms)
    requires pid in w.procs && HaltsSafely(w.procs[pid].maps, keys, perms)
    requires FirstOf(done, keys) && (done == {} || done != keys)
    ensures MayHalt(w, pid, done, perms)
  {
    if done != {} {
      assert exists j :: j in keys && j !in done;
    }
  }

  lemma ProtectInScope(w: World, o: multiset<Slot>, mid: World, s: World, pid: Pid, lo: nat, hi: nat, done: set<nat>,
                       perms: Perms, r: Result<()>)
    requires Sound(w, o) && Live(w, o, pid) && Targets(w.procs[pid].maps, lo, hi) == {} && mid == w
    requires HaltsSafely(w.procs[pid].maps, Meeting(w.procs[pid].maps, lo, hi), perms)
    requires Protected(mid, o, s, pid, Meeting(mid.procs[pid].maps, lo, hi), done, perms, r) && r.Err?
    ensures StepOk(w, o, s, o, pid)
  {
    hide Live, Books, Translated, Isolated, OthersKept, StepOk, HaltsSafely, FirstOf, MayHalt, Meeting, Targets, Lost;
    LiveParts(w, o, pid);
    LiveParts(s, o, pid);
    HaltsSafelyAnywhere(w, pid, Meeting(w.procs[pid].maps, lo, hi), done, perms);
    LostPlus(o, 0);
    StepFrom(w, o, s, o, pid);
  }

  method DoProtect(mgr: ApeManager, pid: Pid, addr: nat, len: nat, perms: Perms)
    returns (r: Result<()>, ghost es: seq<Event>)
    requires Sound(mgr.s, mgr.owed) && Live(mgr.s, mgr.owed, pid)
    requires len > 0 ==> ProtectScope(mgr.s, pid, AlignDown(addr), AlignUp(addr + len), perms)
    modifies mgr
    ensures Sound(mgr.s, mgr.owed) && mgr.owed == old(mgr.owed) && Refines(old(mgr.s), mgr.s, es)
    ensures es == if r.Ok? && len > 0 then [Protect(pid, AlignDown(addr), AlignUp(addr + len), perms)] else []
    ensures len > 0 && r.Ok? ==> ProtectCalls.Resident(old(mgr.s).procs[pid], AlignDown(addr), AlignUp(addr + len))
    ensures len == 0 ==> r.Ok?
  {
    hide Live, Sound, Books, Refines, StepOk, OthersKept, Lost, SameView, FlagsSet, Translated, Isolated, Protected,
         FromMaps, Meeting, Targets, PrivateTargets, MayProtect, MayHalt, HaltsSafely, ProtectCalls.Resident, AlignUp,
         AlignDown, MemoryOf, Change;
    ghost var w, o := mgr.s, mgr.owed;
    ghost var mid, done;
    LiveParts(w, o, pid);
    r, mid, done := Mprotect(mgr, pid, addr, len, perms);
    if len == 0 {
      es := [];
      RefinesItself(w);
      return;
    }
    ghost var lo, hi := AlignDown(addr), AlignUp(addr + len);
    if r.Err? && !MayHalt(w, pid, Meeting(w.procs[pid].maps, lo, hi), perms) {
      ProtectInScope(w, o, mid, mgr.s, pid, lo, hi, done, perms, r);
    }
    SoundStep(w, o, mgr.s, o, pid);
    if r.Ok? {
      es := [Protect(pid, lo, hi, perms)];
      ProtectedMemory(w, mgr.s, pid, lo, hi, perms);
      StepRefines(w, o, mgr.s, o, pid, Protect(pid, lo, hi, perms));
    } else {
      es := [];
      NothingRefines(w, o, mgr.s, pid);
    }
  }

  method DoBrk(mgr: ApeManager, pid: Pid, addr: nat) returns (r: nat)
    requires Sound(mgr.s, mgr.owed) && Live(mgr.s, mgr.owed, pid)
    modifies mgr
    ensures Sound(mgr.s, mgr.owed) && mgr.owed == old(mgr.owed) && Refines(old(mgr.s), mgr.s, [])
  {
    hide Live, Sound, Books, Refines, StepOk, OthersKept, SameView;
    ghost var w, o := mgr.s, mgr.owed;
    r := Brk(mgr, pid, addr);
    SoundStep(w, o, mgr.s, o, pid);
    NothingRefines(w, o, mgr.s, pid);
  }

  // ----- mremap -----

  /** No page of the first `n` from `start` on is writable and held by another process. */
  predicate PrivatePages(w: World, pid: Pid, start: nat, n: nat)
    requires pid in w.procs
  {
    var maps := w.procs[pid].maps;
    forall i | 0 <= i < n && start + i * PGSIZE in maps && maps[start + i * PGSIZE].flags.w ::
      Unshared(w.procs, pid, maps[start + i * PGSIZE].frameCap)
  }

  /** The pages stay where they are, or no writable shared one moves. */
  predicate RemapScope(w: World, pid: Pid, start: nat, oldPages: nat, newPages: nat, fixed: bool, newAddr: nat)
    requires pid in w.procs
  {
    || (if fixed then newAddr == start else Stays(w.procs[pid], start, oldPages, newPages))
    || PrivatePages(w, pid, start, Min(oldPages, newPages))
  }

  /** The permissions of a page, resident or waiting. */
  function FlagsAt(mm: MmState, a: nat): Perms {
    if a in mm.maps then mm.maps[a].flags else if a in mm.lazy then mm.lazy[a].flags else READ_WRITE
  }

  /** The frames of the pages past the new length. */
  function TailFrames(mm: MmState, start: nat, oldPages: nat, newPages: nat): set<Slot> {
    set i | newPages <= i < oldPages && start + i * PGSIZE in mm.maps :: mm.maps[start + i * PGSIZE].frameCap
  }

  lemma StatesPrivate(w: World, pid: Pid, start: nat, states: seq<PageState>, n: nat)
    requires pid in w.procs && StatesAt(w.procs[pid], start, states) && PrivatePages(w, pid, start, Min(|states|, n))
    ensures PrivateMove(w.procs, pid, states, n)
  {
    hide Unshared;
    forall i | 0 <= i < |states| && i < n && states[i].MappedPage? && states[i].flags.w
      ensures Unshared(w.procs, pid, states[i].frameCap)
    {
      assert StateAt(w.procs[pid], start + i * PGSIZE, states[i]);
    }
  }

  lemma TailCapsAre(mm: MmState, start: nat, states: seq<PageState>, n: nat)
    requires StatesAt(mm, start, states)
    ensures TailCaps(states, n) == TailFrames(mm, start, |states|, n)
  {
    forall slot
      ensures slot in TailCaps(states, n) <==> slot in TailFrames(mm, start, |states|, n)
    {
      if slot in TailCaps(states, n) {
        var i :| n <= i < |states| && states[i].MappedPage? && slot == states[i].frameCap;
        assert StateAt(mm, start + i * PGSIZE, states[i]);
      }
      if slot in TailFrames(mm, start, |states|, n) {
        var i :| n <= i < |states| && start + i * PGSIZE in mm.maps && slot == mm.maps[start + i * PGSIZE].frameCap;
        assert StateAt(mm, start + i * PGSIZE, states[i]);
      }
    }
  }

  /** The event of a mremap that succeeds, by what it did. */
  ghost function RemapEvents(mm: MmState, pid: Pid, start: nat, oldPages: nat, newPages: nat,
                             kind: Remapping): seq<Event>
  {
    var oldEnd, newEnd := start + oldPages * PGSIZE, start + newPages * PGSIZE;
    match kind
    case Unchanged => []
    case Shrunk => [Clear(pid, newEnd, oldEnd)]
    case Grown => [Await(pid, oldEnd, newEnd, AnonLazy(FlagsAt(mm, start)))]
    case MovedTo(target) => [Move(pid, start, oldPages, target, newPages, FlagsAt(mm, start))]
  }

  lemma RemapRefines(w: World, o: multiset<Slot>, w': World, pid: Pid, start: nat, states: seq<PageState>,
                     newPages: nat, kind: Remapping)
    requires Live(w, o, pid) && OthersKept(w, w', pid) && pid in w'.procs && Translated(w)
             && StatesAt(w.procs[pid], start, states)
    requires RemapDone(w, w', pid, start, states, newPages, kind) && start % PGSIZE == 0
    requires kind.MovedTo? ==> kind.target % PGSIZE == 0
    ensures Refines(w, w', RemapEvents(w.procs[pid], pid, start, |states|, newPages, kind))
  {
    hide MemoryOf, Change, Live, OthersKept, Translated, Cleared, FilledLazy, MovedView, Refines, Books;
    var oldEnd, newEnd := start + |states| * PGSIZE, start + newPages * PGSIZE;
    LiveParts(w, o, pid);
    assert StateAt(w.procs[pid], start + 0 * PGSIZE, states[0]);
    match kind {
      case Unchanged =>
        RefinesItself(w);
      case Shrunk =>
        ClearedMemory(w, w', pid, newEnd, oldEnd);
        StepRefines(w, o, w', o, pid, Clear(pid, newEnd, oldEnd));
      case Grown =>
        AwaitedMemory(w, w', pid, oldEnd, newEnd, AnonLazy(states[0].flags));
        StepRefines(w, o, w', o, pid, Await(pid, oldEnd, newEnd, AnonLazy(states[0].flags)));
      case MovedTo(target) =>
        MovedMemory(w, w', pid, start, |states|, target, newPages, states[0].flags);
        StepRefines(w, o, w', o, pid, Move(pid, start, |states|, target, newPages, states[0].flags));
    }
  }

  lemma TargetAligned(mm: MmState, start: nat, oldPages: nat, newPages: nat, mayMove: bool, fixed: bool, newAddr: nat,
                      r: Result<nat>, kind: Remapping)
    requires SpaceOk(mm) && RemapPlaced(mm, start, oldPages, newPages, mayMove, fixed, newAddr, r, kind) && r.Ok?
             && kind.MovedTo?
    ensures kind.target % PGSIZE == 0
    ensures if fixed then newAddr != start else !Stays(mm, start, oldPages, newPages)
  {
    hide SpaceOk, FirstFree, Stays, NothingFits, SearchFrom, RangeIsFree;
    if !fixed {
      SearchAligned(mm, 0);
      FirstFreeFits(mm, SearchFrom(mm, 0), newPages * PGSIZE, kind.target);
    }
  }

  lemma RemapStays(w: World, o: multiset<Slot>, w': World, o': multiset<Slot>, pid: Pid, start: nat,
                   states: seq<PageState>, newPages: nat, fixed: bool, newAddr: nat, moved: bool)
    requires RemapSound(w, o, w', o', pid, states, newPages, moved) && StatesAt(w.procs[pid], start, states)
    requires moved ==> PrivatePages(w, pid, start, Min(|states|, newPages))
    ensures StepOk(w, o, w', o', pid) && OthersKept(w, w', pid) && pid in w'.procs
    ensures o' == if moved then PlusSet(o, TailFrames(w.procs[pid], start, |states|, newPages)) else o
  {
    hide Books, OthersKept, Translated, Isolated, StepOk, PlusSet, TailCaps, TailFrames, PrivatePages, StatesAt,
         PrivateMove;
    if moved {
      StatesPrivate(w, pid, start, states, newPages);
      TailCapsAre(w.procs[pid], start, states, newPages);
    }
  }

  /** How a mremap ends, and its event. */
  ghost predicate RemapOutcome(mm: MmState, pid: Pid, start: nat, oldSize: nat, newSize: nat, mayMove: bool,
                               fixed: bool, otherFlags: bool, newAddr: nat, r: Result<nat>, kind: Remapping,
                               es: seq<Event>)
  {
    var oldPages, newPages := AlignUp(oldSize) / PGSIZE, AlignUp(newSize) / PGSIZE;
    && (if RemapAccepted(mm, start, oldSize, newSize, mayMove, fixed, otherFlags)
        then RemapPlaced(mm, start, oldPages, newPages, mayMove, fixed, newAddr, r, kind)
        else r.Err?)
    && es == if r.Ok? then RemapEvents(mm, pid, start, oldPages, newPages, kind) else []
  }

  /** Only a move to a fixed address can be to a shorter range. */
  lemma FixedMovesOnly(mm: MmState, start: nat, oldPages: nat, newPages: nat, mayMove: bool, fixed: bool, newAddr: nat,
                       r: Result<nat>, kind: Remapping, o: multiset<Slot>)
    requires RemapPlaced(mm, start, oldPages, newPages, mayMove, fixed, newAddr, r, kind) && r.Ok?
    ensures (if kind.MovedTo? then PlusSet(o, TailFrames(mm, start, oldPages, newPages)) else o) ==
              if fixed && newAddr != start then PlusSet(o, TailFrames(mm, start, oldPages, newPages)) else o
  {
    hide FirstFree, NothingFits, SearchFrom, RangeIsFree, RangeIsFreeExcluding, PlusSet;
    if !fixed && kind.MovedTo? {
      assert TailFrames(mm, start, oldPages, newPages) == {};
      PlusSetOne(o, {}, 0);
    }
  }

  method DoMove(mgr: ApeManager, pid: Pid, start: nat, oldSize: nat, newSize: nat, mayMove: bool, fixed: bool,
                otherFlags: bool, newAddr: nat)
    returns (r: Result<nat>, ghost kind: Remapping, ghost es: seq<Event>)
    requires Sound(mgr.s, mgr.owed) && Live(mgr.s, mgr.owed, pid)
    requires RemapScope(mgr.s, pid, start, AlignUp(oldSize) / PGSIZE, AlignUp(newSize) / PGSIZE, fixed, newAddr)
    modifies mgr
    ensures Sound(mgr.s, mgr.owed) && Refines(old(mgr.s), mgr.s, es)
    ensures RemapOutcome(old(mgr.s).procs[pid], pid, start, oldSize, newSize, mayMove, fixed, otherFlags, newAddr, r,
                         kind, es)
    ensures mgr.owed == if r.Ok? && fixed && newAddr != start
                        then PlusSet(old(mgr.owed),
                                     TailFrames(old(mgr.s).procs[pid], start, AlignUp(oldSize) / PGSIZE,
                                                AlignUp(newSize) / PGSIZE))
                        else old(mgr.owed)
  {
    hide Live, Sound, Books, Refines, StepOk, OthersKept, Lost, SameView, Translated, Isolated, StatesAt, AlignUp,
         RemapDone, RemapPlaced, RemapSound, PrivatePages, Stays, RemapEvents, PlusSet, TailFrames, RemapAccepted;
    ghost var w, o := mgr.s, mgr.owed;
    ghost var states;
    LiveParts(w, o, pid);
    SoundSpace(w, o, pid);
    r, states, kind := Mremap(mgr, pid, start, oldSize, newSize, mayMove, fixed, otherFlags, newAddr);
    ghost var newPages := AlignUp(newSize) / PGSIZE;
    if r.Err? {
      es := [];
      RemapFailed(w, o, mgr.s, mgr.owed, pid, states, newPages);
      SoundStep(w, o, mgr.s, mgr.owed, pid);
      NothingRefines(w, o, mgr.s, pid);
    } else {
      es := RemapEvents(w.procs[pid], pid, start, |states|, newPages, kind);
      RemapAcceptedStart(w.procs[pid], start, oldSize, newSize, mayMove, fixed, otherFlags);
      if kind.MovedTo? {
        TargetAligned(w.procs[pid], start, |states|, newPages, mayMove, fixed, newAddr, r, kind);
      }
      RemapStays(w, o, mgr.s, mgr.owed, pid, start, states, newPages, fixed, newAddr, kind.MovedTo?);
      SoundStep(w, o, mgr.s, mgr.owed, pid);
      RemapRefines(w, o, mgr.s, pid, start, states, newPages, kind);
      FixedMovesOnly(w.procs[pid], start, |states|, newPages, mayMove, fixed, newAddr, r, kind, o);
    }
  }

  lemma SoundSpace(w: World, o: multiset<Slot>, pid: Pid)
    requires Sound(w, o) && Live(w, o, pid)
    ensures Translated(w) && Isolated(w) && SpaceOk(w.procs[pid])
  {
    hide Translated, Isolated;
  }

  lemma RemapAcceptedStart(mm: MmState, start: nat, oldSize: nat, newSize: nat, mayMove: bool, fixed: bool,
                           otherFlags: bool)
    requires RemapAccepted(mm, start, oldSize, newSize, mayMove, fixed, otherFlags)
    ensures start % PGSIZE == 0
  {
  }

  lemma RemapFailed(w: World, o: multiset<Slot>, w': World, o': multiset<Slot>, pid: Pid, states: seq<PageState>,
                    newPages: nat)
    requires RemapSound(w, o, w', o', pid, states, newPages, false)
    ensures StepOk(w, o, w', o', pid) && OthersKept(w, w', pid) && o' == o
  {
    hide Books, OthersKept, Translated, Isolated, StepOk, PrivateMove;
  }

  // ----- Copies to a process -----

  predicate CopyScope(w: World, pid: Pid, dst: nat, src: seq<byte>)
    requires pid in w.procs
  {
    AddressesFit(w.procs[pid]) && !Leaks(w, pid, dst, src)
  }

  /** A page with bytes written has the outline it had, its bytes changed one by one. */
  lemma ReceivedPage(frames: Frames, mm: MmState, frames': Frames, mm': MmState, low: nat, high: nat, lo: nat,
                     data: seq<byte>, a: nat)
    requires a % PGSIZE == 0 && low % PGSIZE == 0 && high % PGSIZE == 0
    requires Outline(PageAt(frames', mm', a)) ==
               if low <= a < high then Some(ZeroView(READ_WRITE, Stack)) else Outline(PageAt(frames, mm, a))
    requires forall addr: nat ::
               ByteAt(frames', mm', addr) ==
                 if lo <= addr < lo + |data| then Some(data[addr - lo]) else if low <= addr < high then Some(0)
                 else ByteAt(frames, mm, addr)
    ensures PageAt(frames', mm', a).Some? <==> (low <= a < high || PageAt(frames, mm, a).Some?)
    ensures PageAt(frames', mm', a).Some? ==>
              PageAt(frames', mm', a).value ==
                PutInto(if low <= a < high then ZeroView(READ_WRITE, Stack) else PageAt(frames, mm, a).value, a, lo,
                        data)
  {
    hide PageAt;
    var v := PageAt(frames', mm', a);
    if v.Some? && v.value.Resident? {
      var v0 := if low <= a < high then ZeroView(READ_WRITE, Stack) else PageAt(frames, mm, a).value;
      assert v0.Resident?;
      forall j | 0 <= j < PGSIZE
        ensures v.value.data[j] == PatchedPage(v0.data, a, lo, data)[j]
      {
        PageBytes(frames', mm', a, j);
        PageBytes(frames, mm, a, j);
        DownBetween(low, high, a + j);
      }
      assert v.value.data == PatchedPage(v0.data, a, lo, data);
    }
  }

  lemma PageBytes(frames: Frames, mm: MmState, a: nat, j: nat)
    requires a % PGSIZE == 0 && j < PGSIZE
    ensures AlignDown(a + j) == a && (a + j) % PGSIZE == j
    ensures PageAt(frames, mm, a).Some? && PageAt(frames, mm, a).value.Resident? ==>
              ByteAt(frames, mm, a + j) == Some(PageAt(frames, mm, a).value.data[j])
  {
    hide PageAt;
  }

  lemma ReceivedMemory(w: World, o: multiset<Slot>, s: World, owed: multiset<Slot>, pid: Pid, lo: nat, data: seq<byte>)
    requires Live(w, o, pid) && Wrote(w, o, s, owed, pid, lo, data)
    ensures s.procs[pid].StackBoundary() <= w.procs[pid].StackBoundary()
    ensures MemoryOf(s.frames, s.procs[pid]) ==
              Change(MemoryOf(w.frames, w.procs[pid]),
                     Receive(pid, s.procs[pid].StackBoundary(), w.procs[pid].StackBoundary(), lo, data))
  {
    hide Books, Live, Translated, Isolated, SpaceOk, PageAt, ByteAt, Lost, OthersTables, FramesWritten, StackAdded,
         Outline, PutInto, ZeroView, MemoryOf, Change;
    var low, high := s.procs[pid].StackBoundary(), w.procs[pid].StackBoundary();
    LiveParts(w, o, pid);
    LiveParts(s, owed, pid);
    BoundaryAligned(w.procs[pid]);
    BoundaryAligned(s.procs[pid]);
    PagesReceived(w.frames, w.procs[pid], s.frames, s.procs[pid], pid, low, high, lo, data);
  }

  lemma PagesReceived(frames: Frames, mm: MmState, frames': Frames, mm': MmState, pid: Pid, low: nat, high: nat,
                      lo: nat, data: seq<byte>)
    requires low % PGSIZE == 0 && high % PGSIZE == 0
    requires forall a: nat | a % PGSIZE == 0 ::
               Outline(PageAt(frames', mm', a)) ==
                 if low <= a < high then Some(ZeroView(READ_WRITE, Stack)) else Outline(PageAt(frames, mm, a))
    requires forall addr: nat ::
               ByteAt(frames', mm', addr) ==
                 if lo <= addr < lo + |data| then Some(data[addr - lo]) else if low <= addr < high then Some(0)
                 else ByteAt(frames, mm, addr)
    ensures MemoryOf(frames', mm') == Change(MemoryOf(frames, mm), Receive(pid, low, high, lo, data))
  {
    hide PageAt, ByteAt, Outline, PutInto, ZeroView;
    forall a: nat | a % PGSIZE == 0
      ensures PageAt(frames', mm', a).Some? <==> (low <= a < high || PageAt(frames, mm, a).Some?)
      ensures PageAt(frames', mm', a).Some? ==>
                PageAt(frames', mm', a).value ==
                  PutInto(if low <= a < high then ZeroView(READ_WRITE, Stack) else PageAt(frames, mm, a).value, a, lo,
                          data)
    {
      ReceivedPage(frames, mm, frames', mm', low, high, lo, data, a);
    }
  }

  lemma FewerLeaks(w: World, pid: Pid, lo: nat, data: seq<byte>, n: nat)
    requires pid in w.procs && n <= |data| && !Leaks(w, pid, lo, data)
    ensures !Leaks(w, pid, lo, data[..n])
  {
    hide SharedAt, ByteAt;
  }

  method DoCopyOut(mgr: ApeManager, pid: Pid, dst: nat, src: seq<byte>)
    returns (r: Result<()>, ghost copied: nat, ghost es: seq<Event>)
    requires Sound(mgr.s, mgr.owed) && Live(mgr.s, mgr.owed, pid) && CopyScope(mgr.s, pid, dst, src)
    modifies mgr
    ensures Sound(mgr.s, mgr.owed) && Refines(old(mgr.s), mgr.s, es)
    ensures LostOne(old(mgr.s).frames.Keys, old(mgr.owed), mgr.owed) && (r.Ok? ==> mgr.owed == old(mgr.owed))
    ensures copied <= |src| && (r.Ok? <==> copied == |src|)
    ensures pid in mgr.s.procs && mgr.s.procs[pid].StackBoundary() <= old(mgr.s).procs[pid].StackBoundary()
    ensures es == [Receive(pid, mgr.s.procs[pid].StackBoundary(), old(mgr.s).procs[pid].StackBoundary(), dst,
                           src[..copied])]
    ensures r == Err(InvalidAddress) ==> dst == 0 || !Accessible(old(mgr.s).procs[pid], dst + copied, WRITE)
  {
    hide Live, Sound, Books, Refines, StepOk, OthersKept, Lost, Translated, Isolated, AddressesFit, Leaks, Accessible,
         MemoryOf, Change, LostOne;
    ghost var w, o := mgr.s, mgr.owed;
    LiveParts(w, o, pid);
    SoundSpace(w, o, pid);
    var space := new ScratchSpace();
    r, copied := CopyTo(mgr, pid, space, dst, src);
    FewerLeaks(w, pid, dst, src, copied);
    CopyLossFailed(w, o, mgr.s, mgr.owed, r.Ok?);
    ReceivedMemory(w, o, mgr.s, mgr.owed, pid, dst, src[..copied]);
    SoundStep(w, o, mgr.s, mgr.owed, pid);
    es := [Receive(pid, mgr.s.procs[pid].StackBoundary(), w.procs[pid].StackBoundary(), dst, src[..copied])];
    StepRefines(w, o, mgr.s, mgr.owed, pid, es[0]);
  }
}
