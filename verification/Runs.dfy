/** Whole runs: any interleaving of loads, stores, faults, mmap, munmap, mprotect, mremap, brk, copies
    to a process, fork, exec and exit shows every process exactly the bytes it would see if fork had
    copied every page. */
module Runs {
  import opened Types
  import opened AddressSpace
  import opened Machine
  import opened Views
  import opened World
  import opened FreshMaps
  import opened DemandFaults
  import opened Ranges
  import opened Manager
  import opened SplitCalls
  import opened MemoryCalls
  import opened FreeRanges
  import opened MmapLemmas
  import opened MmapCalls
  import opened FileFault
  import opened ForkLemmas
  import opened Lifecycle
  import opened EagerCopy
  import opened UserAccess
  import opened PageFaults
  import opened RunSteps

  datatype Op =
    | LoadByte(pid: Pid, addr: nat)
    | StoreByte(pid: Pid, addr: nat, b: byte)
    | Touch(pid: Pid, addr: nat, cause: Cause, fdOpen: bool)
    | MapMemory(pid: Pid, addr: nat, len: nat, perms: Perms, fixed: bool, backing: Option<Backing>)
    | UnmapMemory(pid: Pid, addr: nat, len: nat)
    | ProtectMemory(pid: Pid, addr: nat, len: nat, perms: Perms)
    | RemapMemory(pid: Pid, start: nat, oldSize: nat, newSize: nat, mayMove: bool, fixed: bool, otherFlags: bool,
                  newAddr: nat)
    | MoveBreak(pid: Pid, addr: nat)
    | SendBytes(pid: Pid, addr: nat, src: seq<byte>)
    | ForkProcess(pid: Pid, child: Pid)
    | ExecProcess(pid: Pid)
    | ExitProcess(pid: Pid)

  /** The steps copy-on-write answers for: a store fault never meets a copy-on-write map longer
      than a page, no image page shared with others is made writable, no writable copy-on-write
      map is split, mprotect gives write permission to private maps only and cannot stop half way
      with it, mremap moves no writable shared page, and a copy to a process changes no byte of a
      shared frame. Each is a check on the tables before the call. */
  predicate InScope(w: World, op: Op) {
    && op.pid in w.running && op.pid in w.procs
    && match op
       case Touch(pid, addr, cause, _) => FaultScope(w, pid, PlanFault(w.procs[pid], addr, cause))
       case MapMemory(pid, addr, len, _, fixed, _) => fixed ==>
              PrivateTargets(w.procs[pid].maps, addr, addr + AlignUp(len))
       case UnmapMemory(pid, addr, len) => PrivateTargets(w.procs[pid].maps, addr, addr + AlignUp(len))
       case ProtectMemory(pid, addr, len, perms) => len > 0 ==>
              ProtectScope(w, pid, AlignDown(addr), AlignUp(addr + len), perms)
       case RemapMemory(pid, start, oldSize, newSize, _, fixed, _, newAddr) =>
         RemapScope(w, pid, start, AlignUp(oldSize) / PGSIZE, AlignUp(newSize) / PGSIZE, fixed, newAddr)
       case SendBytes(pid, addr, src) => CopyScope(w, pid, addr, src)
       case ForkProcess(_, child) => child !in w.procs
       case _ => true
  }

  lemma RunningIsLive(w: World, o: multiset<Slot>, pid: Pid)
    requires Sound(w, o) && pid in w.running
    ensures Live(w, o, pid)
  {
    hide Translated, Isolated;
    BooksRunning(w, o);
  }

  /** The byte at `addr` in the eager machine. */
  ghost predicate Reads(ms: Memories, pid: Pid, addr: nat, b: byte) {
    && pid in ms && AlignDown(addr) in ms[pid] && ms[pid][AlignDown(addr)].Resident?
    && ms[pid][AlignDown(addr)].data[addr % PGSIZE] == b
  }

  // ----- Each call as events -----

  lemma CloneRefines(w: World, o: multiset<Slot>, w': World, pid: Pid, child: Pid)
    requires Live(w, o, pid) && Cloned(w, w', pid, child) && child !in w.procs
    requires w'.running == w.running + {child}
    ensures Refines(w, w', [Clone(pid, child)])
  {
    hide MemoryOf, SpaceOk, RefsOk, SameView;
    BooksRunning(w, o);
    forall q | q in w.procs
      ensures q in w'.procs && MemoryOf(w'.frames, w'.procs[q]) == MemoryOf(w.frames, w.procs[q])
    {
      SameMemory(w.frames, w.procs[q], w'.frames, w'.procs[q]);
    }
    SameMemory(w.frames, w.procs[pid], w'.frames, w'.procs[child]);
    assert Shown(w') == Shown(w)[child := Shown(w)[pid]];
    RunOne(Shown(w), Clone(pid, child));
  }

  lemma StillRefines(w: World, o: multiset<Slot>, w': World)
    requires Books(w, o) && AllSame(w, w') && w'.running == w.running
    ensures Refines(w, w', [])
  {
    hide MemoryOf, SpaceOk, RefsOk, SameView;
    BooksRunning(w, o);
    forall q | q in w.procs
      ensures q in w'.procs && MemoryOf(w'.frames, w'.procs[q]) == MemoryOf(w.frames, w.procs[q])
    {
      SameMemory(w.frames, w.procs[q], w'.frames, w'.procs[q]);
    }
    assert Shown(w') == Shown(w);
    RunOne(Shown(w), Exit(0));
  }

  ghost function PlacedEvent(pid: Pid, lo: nat, hi: nat, perms: Perms, backing: Option<Backing>): Event {
    match backing
    case None => Fill(pid, lo, hi, ZeroView(perms, Anonymous))
    case Some(b) => Await(pid, lo, hi, FileLazy(perms, b.fd, lo, b.offset))
  }

  lemma PlacedRefines(w: World, o: multiset<Slot>, w': World, pid: Pid, lo: nat, hi: nat, perms: Perms,
                      backing: Option<Backing>)
    requires Live(w, o, pid) && OthersKept(w, w', pid) && pid in w'.procs
    requires Placed(w, w', pid, lo, hi, perms, backing)
    ensures Refines(w, w', [PlacedEvent(pid, lo, hi, perms, backing)])
  {
    hide MemoryOf, Books, OthersKept, Filled, FilledLazy, Change, Refines;
    if backing.None? {
      FilledMemory(w, w', pid, lo, hi, ZeroView(perms, Anonymous));
    } else {
      AwaitedMemory(w, w', pid, lo, hi, FileLazy(perms, backing.value.fd, lo, backing.value.offset));
    }
    StepRefines(w, o, w', o, pid, PlacedEvent(pid, lo, hi, perms, backing));
  }

  lemma ClearedRefines(w: World, o: multiset<Slot>, w': World, pid: Pid, lo: nat, hi: nat)
    requires Live(w, o, pid) && OthersKept(w, w', pid) && pid in w'.procs && Cleared(w, w', pid, lo, hi)
    ensures Refines(w, w', [Clear(pid, lo, hi)])
  {
    hide MemoryOf, Books, OthersKept, Cleared, Change, Refines;
    ClearedMemory(w, w', pid, lo, hi);
    StepRefines(w, o, w', o, pid, Clear(pid, lo, hi));
  }

  method DoUnmap(mgr: ApeManager, pid: Pid, addr: nat, len: nat) returns (done: Result<()>, ghost es: seq<Event>)
    requires Sound(mgr.s, mgr.owed) && Live(mgr.s, mgr.owed, pid)
             && PrivateTargets(mgr.s.procs[pid].maps, addr, addr + AlignUp(len))
    modifies mgr
    ensures Sound(mgr.s, mgr.owed) && mgr.owed == old(mgr.owed) && Refines(old(mgr.s), mgr.s, es)
    ensures done.Ok? ==> len > 0 && addr % PGSIZE == 0 && addr + AlignUp(len) <= USIZE_MAX
    ensures es == if done.Ok? then [Clear(pid, addr, addr + AlignUp(len))] else []
  {
    hide Live, Sound, Books, Refines, StepOk, OthersKept, Lost, SameView, Cleared, PrivateTargets, Translated;
    ghost var w, o := mgr.s, mgr.owed;
    LiveParts(w, o, pid);
    done := Munmap(mgr, pid, addr, len);
    SoundStep(w, o, mgr.s, mgr.owed, pid);
    if done.Ok? {
      ClearedRefines(w, o, mgr.s, pid, addr, addr + AlignUp(len));
      es := [Clear(pid, addr, addr + AlignUp(len))];
    } else {
      NothingRefines(w, o, mgr.s, pid);
      es := [];
    }
  }

  /** The pages from `lo` on are placed, all of the range or the first ones of it. */
  ghost predicate PlacedFrom(pid: Pid, lo: nat, size: nat, perms: Perms, backing: Option<Backing>, whole: bool,
                             e: Event)
  {
    exists stop ::
      lo <= stop <= lo + size && (whole ==> stop == lo + size) && e == PlacedEvent(pid, lo, stop, perms, backing)
  }

  /** Without MAP_FIXED the first range free is placed, on failure perhaps a part of it; nothing
      happens when none is free. */
  ghost predicate AnywhereEvents(mm: MmState, pid: Pid, hint: nat, len: nat, perms: Perms, backing: Option<Backing>,
                                 r: Result<nat>, es: seq<Event>) {
    if len == 0 || NothingFits(mm, SearchFrom(mm, hint), AlignUp(len)) then r.Err? && es == []
    else exists start ::
      && FirstFree(mm, SearchFrom(mm, hint), AlignUp(len), start) && (r.Ok? ==> r.value == start)
      && |es| == 1 && PlacedFrom(pid, start, AlignUp(len), perms, backing, r.Ok?, es[0])
  }

  /** The range mmap chooses is one where the process has no page: the eager machine loses nothing. */
  lemma ChosenIsVacant(w: World, o: multiset<Slot>, pid: Pid, from: nat, len: nat, start: nat)
    requires Live(w, o, pid) && FirstFree(w.procs[pid], from, len, start) && from % PGSIZE == 0 && len % PGSIZE == 0
    ensures pid in Shown(w) && forall a: nat | start <= a < start + len :: a !in Shown(w)[pid]
  {
    hide PageAt, SpaceOk, RefsOk, RangeIsFree, WithinMmapArea;
    LiveParts(w, o, pid);
    FirstFreeFits(w.procs[pid], from, len, start);
    EndAligned(start, len);
    RangeIsFreeExact(w.frames, w.procs[pid], start, start + len);
  }

  ghost predicate FixedRefused(w: World, pid: Pid, addr: nat, len: nat)
    requires pid in w.procs
  {
    || len == 0 || addr % PGSIZE != 0 || addr + AlignUp(len) > USIZE_MAX
    || OutOfBounds(w.procs[pid], addr, addr + AlignUp(len)) || Blocked(w, pid, addr, addr + AlignUp(len))
  }

  /** With MAP_FIXED the range is cleared, then placed, on failure perhaps a part of it; nothing
      happens when it is refused or cannot be split. */
  ghost predicate FixedEvents(w: World, pid: Pid, addr: nat, len: nat, perms: Perms, backing: Option<Backing>,
                              r: Result<nat>, es: seq<Event>)
    requires pid in w.procs
  {
    || (r.Err? && es == [])
    || (&& !FixedRefused(w, pid, addr, len) && (r.Ok? ==> r.value == addr)
        && |es| == 2 && es[0] == Clear(pid, addr, addr + AlignUp(len))
        && PlacedFrom(pid, addr, AlignUp(len), perms, backing, r.Ok?, es[1]))
  }

  ghost predicate MapEvents(w: World, pid: Pid, addr: nat, len: nat, perms: Perms, fixed: bool,
                            backing: Option<Backing>, r: Result<nat>, es: seq<Event>)
    requires pid in w.procs
  {
    if fixed then FixedEvents(w, pid, addr, len, perms, backing, r, es)
    else AnywhereEvents(w.procs[pid], pid, addr, len, perms, backing, r, es)
  }

  method MapAnywhere(mgr: ApeManager, pid: Pid, hint: nat, len: nat, perms: Perms, backing: Option<Backing>)
    returns (r: Result<nat>, ghost es: seq<Event>)
    requires Sound(mgr.s, mgr.owed) && Live(mgr.s, mgr.owed, pid) && len > 0
    modifies mgr
    ensures Sound(mgr.s, mgr.owed) && mgr.owed == old(mgr.owed) && Refines(old(mgr.s), mgr.s, es)
    ensures AnywhereEvents(old(mgr.s).procs[pid], pid, hint, len, perms, backing, r, es)
  {
    hide Live, Sound, Books, Refines, StepOk, OthersKept, Lost, SameView, Placed, PlacedEvent, Translated, FirstFree,
         NothingFits, AlignUp, SearchFrom;
    ghost var w, o := mgr.s, mgr.owed;
    ghost var start, stop;
    r, start, stop := MmapAnywhere(mgr, pid, hint, len, perms, backing);
    SoundStep(w, o, mgr.s, mgr.owed, pid);
    if NothingFits(w.procs[pid], SearchFrom(w.procs[pid], hint), AlignUp(len)) {
      RefinesItself(w);
      es := [];
    } else {
      PlacedRefines(w, o, mgr.s, pid, start, stop, perms, backing);
      es := [PlacedEvent(pid, start, stop, perms, backing)];
    }
  }

  method MapFixed(mgr: ApeManager, pid: Pid, addr: nat, len: nat, perms: Perms, backing: Option<Backing>)
    returns (r: Result<nat>, ghost es: seq<Event>)
    requires Sound(mgr.s, mgr.owed) && Live(mgr.s, mgr.owed, pid) && len > 0
    requires PrivateTargets(mgr.s.procs[pid].maps, addr, addr + AlignUp(len))
    modifies mgr
    ensures Sound(mgr.s, mgr.owed) && mgr.owed == old(mgr.owed) && Refines(old(mgr.s), mgr.s, es)
    ensures FixedEvents(old(mgr.s), pid, addr, len, perms, backing, r, es)
  {
    hide Live, Sound, Books, Refines, StepOk, OthersKept, Lost, SameView, Cleared, PrivateTargets, Placed, PlacedEvent,
         Blocked, OutOfBounds, OutsideKept, Translated, AlignUp;
    ghost var w, o := mgr.s, mgr.owed;
    ghost var cleared, stop;
    r, cleared, stop := MmapFixed(mgr, pid, addr, len, perms, backing);
    SoundStep(w, o, mgr.s, mgr.owed, pid);
    if cleared.None? || FixedRefused(w, pid, addr, len) {
      NothingRefines(w, o, mgr.s, pid);
      es := [];
    } else {
      LiveParts(cleared.value, o, pid);
      ClearedRefines(w, o, cleared.value, pid, addr, addr + AlignUp(len));
      PlacedRefines(cleared.value, o, mgr.s, pid, addr, stop, perms, backing);
      es := [Clear(pid, addr, addr + AlignUp(len))] + [PlacedEvent(pid, addr, stop, perms, backing)];
      RefinesJoin(w, cleared.value, mgr.s, [Clear(pid, addr, addr + AlignUp(len))],
                  [PlacedEvent(pid, addr, stop, perms, backing)]);
    }
  }

  method DoMap(mgr: ApeManager, pid: Pid, addr: nat, len: nat, perms: Perms, fixed: bool, backing: Option<Backing>)
    returns (r: Result<nat>, ghost es: seq<Event>)
    requires Sound(mgr.s, mgr.owed) && Live(mgr.s, mgr.owed, pid)
    requires fixed ==> PrivateTargets(mgr.s.procs[pid].maps, addr, addr + AlignUp(len))
    modifies mgr
    ensures Sound(mgr.s, mgr.owed) && mgr.owed == old(mgr.owed) && Refines(old(mgr.s), mgr.s, es)
    ensures MapEvents(old(mgr.s), pid, addr, len, perms, fixed, backing, r, es)
  {
    hide Live, Sound, Refines, PrivateTargets, PlacedEvent, NothingFits, FirstFree, PlacedFrom, FixedRefused;
    if len == 0 {
      RefinesItself(mgr.s);
      return Err(InvalidArgs), [];
    }
    if fixed {
      r, es := MapFixed(mgr, pid, addr, len, perms, backing);
    } else {
      r, es := MapAnywhere(mgr, pid, addr, len, perms, backing);
    }
  }

  method DoFork(mgr: ApeManager, pid: Pid, child: Pid, blank: MmState) returns (r: Result<Pid>, ghost es: seq<Event>)
    requires Sound(mgr.s, mgr.owed) && Live(mgr.s, mgr.owed, pid) && child !in mgr.s.procs && BlankSpace(blank)
    modifies mgr
    ensures Sound(mgr.s, mgr.owed) && Refines(old(mgr.s), mgr.s, es)
    ensures if r.Ok? then mgr.owed == old(mgr.owed) else LostSome(old(mgr.s).procs[pid].maps, old(mgr.owed), mgr.owed)
    ensures es == if r.Ok? then [Clone(pid, child)] else []
  {
    hide Live, Books, Refines, LostSome, Translated, Isolated, Cloned, AllSame, BlankSpace;
    ghost var w, o := mgr.s, mgr.owed;
    LiveParts(w, o, pid);
    r := Fork(mgr, pid, child, blank);
    if r.Ok? {
      CloneRefines(w, o, mgr.s, pid, child);
      es := [Clone(pid, child)];
    } else {
      StillRefines(w, o, mgr.s);
      es := [];
    }
  }

  /** exec drops the old image, for this process only. */
  method DoExec(mgr: ApeManager, pid: Pid) returns (ghost es: seq<Event>)
    requires Sound(mgr.s, mgr.owed) && Live(mgr.s, mgr.owed, pid)
    modifies mgr
    ensures Sound(mgr.s, mgr.owed) && mgr.owed == old(mgr.owed) && Refines(old(mgr.s), mgr.s, es)
    ensures es == [Wipe(pid)]
  {
    hide Live, Sound, Books, Refines, StepOk, OthersKept, Lost, PageAt, MemoryOf, Change, Translated;
    ghost var w, o := mgr.s, mgr.owed;
    LiveParts(w, o, pid);
    ReplaceImage(mgr, pid);
    SoundStep(w, o, mgr.s, mgr.owed, pid);
    WipedMemory(mgr.s.frames, mgr.s.procs[pid], pid, MemoryOf(w.frames, w.procs[pid]));
    StepRefines(w, o, mgr.s, mgr.owed, pid, Wipe(pid));
    es := [Wipe(pid)];
  }

  // ----- One operation -----

  predicate ReadableNow(w: World, pid: Pid, addr: nat) {
    pid in w.hw && AlignDown(addr) in w.hw[pid] && w.hw[pid][AlignDown(addr)].perms.r
  }

  predicate WritableNow(w: World, pid: Pid, addr: nat) {
    pid in w.hw && AlignDown(addr) in w.hw[pid] && w.hw[pid][AlignDown(addr)].perms.w
  }

  /** The first bytes are written, all of them if the copy does not fail, and the stack may have grown. */
  ghost predicate Sent(mm: MmState, pid: Pid, addr: nat, src: seq<byte>, done: bool, es: seq<Event>) {
    exists low: nat, n: nat ::
      && low <= mm.StackBoundary() && n <= |src| && (done <==> n == |src|)
      && es == [Receive(pid, low, mm.StackBoundary(), addr, src[..n])]
  }

  /** What an operation in scope may make of the eager machine, what a load sees, and whether it
      is done: it did not fail, and a fault did not leave the process without its page. */
  ghost predicate MayDo(w: World, op: Op, files: Files, seen: Option<byte>, done: bool, es: seq<Event>) {
    && (seen.Some? <==> op.LoadByte? && ReadableNow(w, op.pid, op.addr))
    && (seen.Some? ==> Reads(Shown(w), op.pid, op.addr, seen.value))
    && op.pid in w.procs
    && match op
       case LoadByte(_, _) => done == seen.Some? && es == []
       case StoreByte(pid, addr, b) =>
         && done == WritableNow(w, pid, addr)
         && es == if done then [Write(pid, AlignDown(addr), addr % PGSIZE, b)] else []
       case Touch(pid, addr, cause, _) =>
         exists r: Outcome ::
           done == !r.Failed? && FaultEvents(w.procs[pid], pid, addr, PlanFault(w.procs[pid], addr, cause), files, r,
                                             es)
       case MapMemory(pid, addr, len, perms, fixed, backing) =>
         exists r: Result<nat> :: done == r.Ok? && MapEvents(w, pid, addr, len, perms, fixed, backing, r, es)
       case UnmapMemory(pid, addr, len) =>
         && es == (if done then [Clear(pid, addr, addr + AlignUp(len))] else [])
         && (done ==> len > 0 && addr % PGSIZE == 0 && addr + AlignUp(len) <= USIZE_MAX)
       case ProtectMemory(pid, addr, len, perms) =>
         && (if len == 0 then done else done ==>
               ProtectCalls.Resident(w.procs[pid], AlignDown(addr), AlignUp(addr + len)))
         && es == if done && len > 0 then [Protect(pid, AlignDown(addr), AlignUp(addr + len), perms)] else []
       case RemapMemory(pid, start, oldSize, newSize, mayMove, fixed, otherFlags, newAddr) =>
         exists r: Result<nat>, kind ::
           && done == r.Ok?
           && RemapOutcome(w.procs[pid], pid, start, oldSize, newSize, mayMove, fixed, otherFlags, newAddr, r, kind, es)
       case MoveBreak(_, _) => done && es == []
       case SendBytes(pid, addr, src) => Sent(w.procs[pid], pid, addr, src, done, es)
       case ForkProcess(pid, child) => es == if done then [Clone(pid, child)] else []
       case ExecProcess(pid) => done && es == [Wipe(pid)]
       case ExitProcess(pid) => done && es == [Exit(pid)]
  }

  /** A failed fault or copy may lose one reference, a failed fork one to each frame of the parent,
      and a move to a shorter range those to the frames of its tail; no other operation loses any. */
  ghost predicate Losses(w: World, op: Op, done: bool, owed: multiset<Slot>, owed': multiset<Slot>) {
    if op.Touch? && !done then LostOne({}, owed, owed')
    else if op.SendBytes? && !done then LostOne(w.frames.Keys, owed, owed')
    else if op.RemapMemory? && done && op.fixed && op.newAddr != op.start then
      && op.pid in w.procs
      && owed' == PlusSet(owed,
                          TailFrames(w.procs[op.pid], op.start, AlignUp(op.oldSize) / PGSIZE,
                                     AlignUp(op.newSize) / PGSIZE))
    else if op.ForkProcess? && !done then op.pid in w.procs && LostSome(w.procs[op.pid].maps, owed, owed')
    else owed' == owed
  }

  predicate IsMemoryCall(op: Op) {
    op.MapMemory? || op.UnmapMemory? || op.ProtectMemory? || op.RemapMemory? || op.MoveBreak? || op.SendBytes?
  }

  /** The calls that change the layout or the contents of a process's memory. */
  method CallStep(mgr: ApeManager, op: Op, ghost files: Files) returns (done: bool, ghost es: seq<Event>)
    requires Sound(mgr.s, mgr.owed) && InScope(mgr.s, op) && IsMemoryCall(op)
    modifies mgr
    ensures Sound(mgr.s, mgr.owed) && Refines(old(mgr.s), mgr.s, es)
    ensures MayDo(old(mgr.s), op, files, None, done, es) && Losses(old(mgr.s), op, done, old(mgr.owed), mgr.owed)
  {
    hide Live, Sound, Books, Refines, Lost, Translated, Isolated, StepOk, FaultScope, PlanFault, PrivateTargets, Reads,
         FaultEvents, MapEvents, Reaches, PageAt, Shown, LostOne, LostSome, ProtectScope, RemapScope, CopyScope,
         RemapOutcome, AlignUp, AlignDown, TailFrames, PlusSet, ProtectCalls.Resident;
    RunningIsLive(mgr.s, mgr.owed, op.pid);
    es := [];
    match op
    case MapMemory(pid, addr, len, perms, fixed, backing) =>
      var r;
      r, es := DoMap(mgr, pid, addr, len, perms, fixed, backing);
      done := r.Ok?;
    case UnmapMemory(pid, addr, len) =>
      var r;
      r, es := DoUnmap(mgr, pid, addr, len);
      done := r.Ok?;
    case ProtectMemory(pid, addr, len, perms) =>
      var r;
      r, es := DoProtect(mgr, pid, addr, len, perms);
      done := r.Ok?;
    case RemapMemory(pid, start, oldSize, newSize, mayMove, fixed, otherFlags, newAddr) =>
      var r;
      ghost var kind;
      r, kind, es := DoMove(mgr, pid, start, oldSize, newSize, mayMove, fixed, otherFlags, newAddr);
      done := r.Ok?;
    case MoveBreak(pid, addr) =>
      var brk := DoBrk(mgr, pid, addr);
      done := true;
    case SendBytes(pid, addr, src) =>
      var r;
      ghost var copied;
      r, copied, es := DoCopyOut(mgr, pid, addr, src);
      done := r.Ok?;
  }

  /** One operation in scope: the invariants survive, the eager machine follows the events of the
      operation, and a byte loaded is the eager machine's byte. */
  method Step(mgr: ApeManager, op: Op, blank: MmState, files: Files)
    returns (seen: Option<byte>, done: bool, ghost es: seq<Event>)
    requires Sound(mgr.s, mgr.owed) && InScope(mgr.s, op) && BlankSpace(blank)
    modifies mgr
    ensures Sound(mgr.s, mgr.owed) && Refines(old(mgr.s), mgr.s, es)
    ensures MayDo(old(mgr.s), op, files, seen, done, es) && Losses(old(mgr.s), op, done, old(mgr.owed), mgr.owed)
  {
    hide Live, Sound, Books, Refines, Lost, Translated, Isolated, StepOk, FaultScope, PlanFault, PrivateTargets,
         BlankSpace, Reads, FaultEvents, MapEvents, Reaches, PageAt, Shown, LostOne, LostSome, ProtectScope, RemapScope,
         CopyScope, RemapOutcome, AlignUp, TailFrames, PlusSet, ProtectCalls.Resident, Sent;
    ghost var w, o := mgr.s, mgr.owed;
    seen, es := None, [];
    RunningIsLive(w, o, op.pid);
    SoundParts(w, o, op.pid);
    if IsMemoryCall(op) {
      done, es := CallStep(mgr, op, files);
      return;
    }
    match op
    case LoadByte(pid, addr) =>
      seen := Load(mgr, pid, addr);
      done := seen.Some?;
      if seen.Some? {
        LoadReads(w, o, pid, addr, seen.value);
      }
    case StoreByte(pid, addr, b) =>
      done := Store(mgr, pid, addr, b);
      SoundStep(w, o, mgr.s, o, pid);
      es := if done then [Write(pid, AlignDown(addr), addr % PGSIZE, b)] else [];
    case Touch(pid, addr, cause, fdOpen) =>
      var r;
      r, es := PageFault(mgr, pid, addr, cause, fdOpen, files);
      done := !r.Failed?;
    case ForkProcess(pid, child) =>
      var r;
      r, es := DoFork(mgr, pid, child, blank);
      done := r.Ok?;
    case ExecProcess(pid) =>
      es := DoExec(mgr, pid);
      done := true;
    case ExitProcess(pid) =>
      es := Kill(mgr, pid);
      done := true;
  }

  lemma SoundParts(w: World, o: multiset<Slot>, pid: Pid)
    requires Sound(w, o) && Live(w, o, pid)
    ensures Translated(w) && Isolated(w) && Refines(w, w, [])
    ensures pid in w.procs && pid in w.hw
  {
    RunOne(Shown(w), Exit(0));
  }

  lemma LoadReads(w: World, o: multiset<Slot>, pid: Pid, addr: nat, b: byte)
    requires Live(w, o, pid)
    requires var v := PageAt(w.frames, w.procs[pid], AlignDown(addr));
             v.Some? && v.value.Resident? && b == v.value.data[addr % PGSIZE]
    ensures Reads(Shown(w), pid, addr, b)
  {
    hide PageAt, SpaceOk, RefsOk;
  }

  // ----- Whole runs -----

  /** An operation out of scope at its turn is left out of the run. */
  ghost predicate Ran(w: World, op: Op, files: Files, seen: Option<byte>, done: bool, es: seq<Event>, w': World) {
    if InScope(w, op) then MayDo(w, op, files, seen, done, es) else seen.None? && done && es == [] && w' == w
  }

  ghost function AllEvents(trace: seq<seq<Event>>): seq<Event> {
    if trace == [] then [] else AllEvents(trace[..|trace| - 1]) + trace[|trace| - 1]
  }

  /** What a run leaves behind: the worlds it goes through and what is owed in each, and for each
      operation the byte a load saw, whether it was done, and its events. */
  datatype History = History(
    worlds: seq<World>,
    owes: seq<multiset<Slot>>,
    seen: seq<Option<byte>>,
    done: seq<bool>,
    trace: seq<seq<Event>>)

  ghost predicate IsRun(h: History, ops: seq<Op>, files: Files) {
    && |h.worlds| == |h.owes| == |ops| + 1 && |h.seen| == |h.done| == |h.trace| == |ops|
    && forall i | 0 <= i < |ops| :: Ran(h.worlds[i], ops[i], files, h.seen[i], h.done[i], h.trace[i], h.worlds[i + 1])
  }

  /** At every point of the run the memory of every running process is the eager machine's. */
  ghost predicate RunRefines(h: History) {
    && |h.worlds| == |h.trace| + 1
    && forall i | 0 <= i < |h.worlds| :: Refines(h.worlds[0], h.worlds[i], AllEvents(h.trace[..i]))
  }

  ghost predicate Accounted(w: World, op: Op, done: bool, owed: multiset<Slot>, owed': multiset<Slot>) {
    if InScope(w, op) then Losses(w, op, done, owed, owed') else owed' == owed
  }

  /** At every point the counts are the holders plus what is owed, and only failures owe more. */
  ghost predicate RunCounts(h: History, ops: seq<Op>) {
    && |h.worlds| == |h.owes| == |ops| + 1 && |h.done| == |ops|
    && (forall i | 0 <= i < |h.worlds| :: Sound(h.worlds[i], h.owes[i]))
    && (forall i | 0 <= i < |ops| :: Accounted(h.worlds[i], ops[i], h.done[i], h.owes[i], h.owes[i + 1]))
  }

  ghost function Extended(h: History, w': World, owed': multiset<Slot>, b: Option<byte>, done: bool,
                          es: seq<Event>): History
  {
    History(h.worlds + [w'], h.owes + [owed'], h.seen + [b], h.done + [done], h.trace + [es])
  }

  lemma RunNext(h: History, ops: seq<Op>, files: Files, op: Op, b: Option<byte>, done: bool, es: seq<Event>, w': World,
                owed': multiset<Slot>)
    requires IsRun(h, ops, files) && RunRefines(h)
    requires Ran(h.worlds[|ops|], op, files, b, done, es, w') && Refines(h.worlds[|ops|], w', es)
    ensures IsRun(Extended(h, w', owed', b, done, es), ops + [op], files)
            && RunRefines(Extended(h, w', owed', b, done, es))
  {
    hide Ran, Refines, AllEvents;
    var n := |ops|;
    RefinesJoin(h.worlds[0], h.worlds[n], w', AllEvents(h.trace[..n]), es);
    AllEventsMore(h.trace, es);
    assert h.trace[..n] == h.trace;
    forall i | 0 <= i < n + 2
      ensures Refines(h.worlds[0], (h.worlds + [w'])[i], AllEvents((h.trace + [es])[..i]))
    {
      if i <= n {
        assert (h.trace + [es])[..i] == h.trace[..i];
      } else {
        assert (h.trace + [es])[..i] == h.trace + [es];
      }
    }
  }

  lemma CountsNext(h: History, ops: seq<Op>, op: Op, b: Option<byte>, done: bool, es: seq<Event>, w': World,
                   owed': multiset<Slot>)
    requires RunCounts(h, ops) && Sound(w', owed') && Accounted(h.worlds[|ops|], op, done, h.owes[|ops|], owed')
    ensures RunCounts(Extended(h, w', owed', b, done, es), ops + [op])
  {
    hide Sound, Accounted;
  }

  lemma AllEventsMore(trace: seq<seq<Event>>, es: seq<Event>)
    ensures AllEvents(trace + [es]) == AllEvents(trace) + es
  {
    assert (trace + [es])[..|trace|] == trace;
  }

  /** Every byte a process ever loads is the byte it would load had fork copied every page. */
  lemma LoadsAgree(h: History, ops: seq<Op>, files: Files, i: nat)
    requires IsRun(h, ops, files) && RunRefines(h) && i < |ops| && h.seen[i].Some?
    ensures ops[i].LoadByte? && Reads(RunEvents(Shown(h.worlds[0]), AllEvents(h.trace[..i])), ops[i].pid, ops[i].addr,
                                      h.seen[i].value)
  {
    hide Reads, Shown, RunEvents, InScope, AllEvents;
    assert Ran(h.worlds[i], ops[i], files, h.seen[i], h.done[i], h.trace[i], h.worlds[i + 1]);
    assert Refines(h.worlds[0], h.worlds[i], AllEvents(h.trace[..i]));
  }

  /** No fault, copy or fork that fails, and no move to a shorter range. */
  predicate LossFree(op: Op, done: bool) {
    match op
    case Touch(_, _, _, _) => done
    case SendBytes(_, _, _) => done
    case ForkProcess(_, _) => done
    case RemapMemory(_, start, oldSize, newSize, _, fixed, _, newAddr) =>
      done && fixed && newAddr != start ==> AlignUp(oldSize) <= AlignUp(newSize)
    case _ => true
  }

  ghost predicate NothingLost(ops: seq<Op>, done: seq<bool>, n: nat) {
    n <= |ops| && |done| == |ops| && forall i | 0 <= i < n :: LossFree(ops[i], done[i])
  }

  lemma LossFreeKeeps(w: World, op: Op, done: bool, owed: multiset<Slot>, owed': multiset<Slot>)
    requires Accounted(w, op, done, owed, owed') && LossFree(op, done)
    ensures owed' == owed
  {
    hide LostOne, LostSome, PlusSet, InScope;
    if op.RemapMemory? && done && op.fixed && op.newAddr != op.start && op.pid in w.procs {
      assert TailFrames(w.procs[op.pid], op.start, AlignUp(op.oldSize) / PGSIZE, AlignUp(op.newSize) / PGSIZE) == {};
      PlusSetOne(owed, {}, 0);
    }
  }

  /** As long as no operation loses a reference, at every point of a run that starts
      with nothing owed, each frame is counted once per process that holds it, and is held. */
  lemma {:induction false} CountsExact(h: History, ops: seq<Op>, n: nat)
    requires RunCounts(h, ops) && NothingLost(ops, h.done, n)
    ensures h.owes[n] == h.owes[0]
    ensures h.owes[0] == multiset{} ==> AllHeld(h.worlds[n])
  {
    hide AllHeld, LostOne, LostSome, Books, Translated, Isolated;
    if n > 0 {
      CountsExact(h, ops, n - 1);
      LossFreeKeeps(h.worlds[n - 1], ops[n - 1], h.done[n - 1], h.owes[n - 1], h.owes[n]);
    }
    assert Sound(h.worlds[n], h.owes[n]);
    if h.owes[0] == multiset{} {
      BooksAllHeld(h.worlds[n]);
    }
  }

  /** Copy-on-write refines eager copy: whatever the operations, in whatever order, at every point
      the memory of every running process is the eager machine's after the events so far, and the
      counts are exact until an operation loses a reference.

      The remap of a resident fault is an event of its own, so the eager machine changes the
      permissions of a page when the code does: that a copy-on-write map loses its write permission
      there is stated by ResidentFault, not seen by this refinement. */
  method RunAll(mgr: ApeManager, ops: seq<Op>, blank: MmState, files: Files)
    returns (seen: seq<Option<byte>>, done: seq<bool>, ghost h: History)
    requires Sound(mgr.s, mgr.owed) && BlankSpace(blank)
    modifies mgr
    ensures IsRun(h, ops, files) && RunRefines(h) && RunCounts(h, ops) && h.seen == seen && h.done == done
    ensures h.worlds[0] == old(mgr.s) && h.worlds[|ops|] == mgr.s && h.owes[0] == old(mgr.owed)
            && h.owes[|ops|] == mgr.owed
    ensures forall i | 0 <= i < |ops| && seen[i].Some? ::
              && ops[i].LoadByte?
              && Reads(RunEvents(Shown(old(mgr.s)), AllEvents(h.trace[..i])), ops[i].pid, ops[i].addr, seen[i].value)
    ensures NothingLost(ops, done, |ops|) ==> mgr.owed == old(mgr.owed)
    ensures NothingLost(ops, done, |ops|) && old(mgr.owed) == multiset{} ==> AllHeld(mgr.s)
  {
    hide Sound, InScope, BlankSpace, Reads, Shown, RunEvents, Refines, MayDo, IsRun, RunRefines, RunCounts, Losses,
         NothingLost, AllHeld, Extended;
    ghost var w, o := mgr.s, mgr.owed;
    seen, done, h := [], [], History([w], [o], [], [], []);
    NoRun(w, o, files);
    assert ops[..0] == [];
    for i := 0 to |ops|
      invariant IsRun(h, ops[..i], files) && RunRefines(h) && RunCounts(h, ops[..i])
      invariant |h.worlds| == |h.owes| == i + 1 && h.worlds[0] == w && h.worlds[i] == mgr.s && h.owes[0] == o
                && h.owes[i] == mgr.owed
      invariant Sound(mgr.s, mgr.owed) && h.seen == seen && h.done == done
    {
      ghost var w1, o1 := mgr.s, mgr.owed;
      var b, ok := None, true;
      ghost var es := [];
      RefinesItself(w1);
      if InScope(mgr.s, ops[i]) {
        b, ok, es := Step(mgr, ops[i], blank, files);
      }
      RunNext(h, ops[..i], files, ops[i], b, ok, es, mgr.s, mgr.owed);
      assert Accounted(w1, ops[i], ok, o1, mgr.owed);
      CountsNext(h, ops[..i], ops[i], b, ok, es, mgr.s, mgr.owed);
      ExtendedParts(h, mgr.s, mgr.owed, b, ok, es);
      assert ops[..i] + [ops[i]] == ops[..i + 1];
      seen, done, h := seen + [b], done + [ok], Extended(h, mgr.s, mgr.owed, b, ok, es);
    }
    assert ops[..|ops|] == ops;
    RunLengths(h, ops, files);
    forall i | 0 <= i < |ops| && seen[i].Some?
      ensures ops[i].LoadByte? && Reads(RunEvents(Shown(w), AllEvents(h.trace[..i])), ops[i].pid, ops[i].addr,
                                        seen[i].value)
    {
      LoadsAgree(h, ops, files, i);
    }
    if NothingLost(ops, done, |ops|) {
      CountsExact(h, ops, |ops|);
    }
  }

  lemma ExtendedParts(h: History, w': World, owed': multiset<Slot>, b: Option<byte>, done: bool, es: seq<Event>)
    ensures var h' := Extended(h, w', owed', b, done, es);
            && h'.worlds == h.worlds + [w'] && h'.owes == h.owes + [owed'] && h'.seen == h.seen + [b]
            && h'.done == h.done + [done]
  {
  }

  lemma NoRun(w: World, owed: multiset<Slot>, files: Files)
    requires Sound(w, owed)
    ensures var h := History([w], [owed], [], [], []);
            IsRun(h, [], files) && RunRefines(h) && RunCounts(h, [])
  {
    hide Sound;
    RefinesItself(w);
  }

  lemma RunLengths(h: History, ops: seq<Op>, files: Files)
    requires IsRun(h, ops, files)
    ensures |h.worlds| == |h.owes| == |ops| + 1 && |h.seen| == |h.done| == |h.trace| == |ops|
  {
  }
}
