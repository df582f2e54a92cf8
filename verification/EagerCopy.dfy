/** The machine copy-on-write is measured against: every process owns its pages outright and
    fork copies them all. An event touches the memory of the one process it names. */
module EagerCopy {
  import opened Types
  import opened AddressSpace
  import opened Machine
  import opened Views
  import opened World
  import opened DemandFaults
  import opened Ranges
  import opened FileFault
  import opened Reflag
  import opened MmapLemmas
  import opened Moves
  import opened UserBytes

  /** A process's pages by page address. */
  type Memory = imap<nat, PageView>

  datatype Event =
    | Write(pid: Pid, page: nat, off: nat, b: byte)
    | Fill(pid: Pid, lo: nat, hi: nat, v: PageView)
    | Await(pid: Pid, lo: nat, hi: nat, kind: LazyKind)
    | Clear(pid: Pid, lo: nat, hi: nat)
    | Populate(pid: Pid, lo: nat, hi: nat, files: Files)
    | Lose(pid: Pid, page: nat)
    | Protect(pid: Pid, lo: nat, hi: nat, perms: Perms)
    | Move(pid: Pid, start: nat, oldPages: nat, target: nat, newPages: nat, base: Perms)
    | Receive(pid: Pid, low: nat, high: nat, lo: nat, data: seq<byte>)
    | Wipe(pid: Pid)
    | Clone(pid: Pid, child: Pid)
    | Exit(pid: Pid)

  ghost function WriteByte(v: PageView, off: nat, b: byte): PageView {
    if v.Resident? && off < PGSIZE then v.(data := v.data[off := b]) else v
  }

  ghost function FromFile(v: PageView, files: Files): PageView {
    if v.OnDemand? && v.fd.Some? then Resident(files(v.fd.value, v.offset), v.flags, v.memType, v.fd, v.offset) else v
  }

  ghost function SetFlags(v: PageView, perms: Perms): PageView {
    match v
    case Resident(data, _, memType, fd, offset) => Resident(data, perms, memType, fd, offset)
    case _ => v
  }

  ghost function Seen(m: Memory, a: nat): Option<PageView> { if a in m then Some(m[a]) else None }

  /** The page at `a` once the pages from `start` on are moved to `target`. */
  ghost function AfterMove(m: Memory, start: nat, oldPages: nat, target: nat, newPages: nat, base: Perms,
                           a: nat): Option<PageView>
  {
    if target <= a < target + newPages * PGSIZE then
      (if a - target < oldPages * PGSIZE then Arrived(Seen(m, start + (a - target)))
       else Some(OnDemand(base, Anonymous, None, 0)))
    else if start <= a < start + oldPages * PGSIZE then None
    else Seen(m, a)
  }

  /** The page at `a` with the bytes of `data` from `lo` on that fall into it. */
  ghost function PutInto(v: PageView, a: nat, lo: nat, data: seq<byte>): PageView {
    if v.Resident? then v.(data := PatchedPage(v.data, a, lo, data)) else v
  }

  /** What an event makes of the memory of its process. */
  ghost function Change(m: Memory, e: Event): Memory {
    match e
    case Write(_, page, off, b) => if page in m then m[page := WriteByte(m[page], off, b)] else m
    case Fill(_, lo, hi, v) =>
      imap a: nat | a % PGSIZE == 0 && (lo <= a < hi || a in m) :: if lo <= a < hi then v else m[a]
    case Await(_, lo, hi, kind) =>
      imap a: nat | a % PGSIZE == 0 && (lo <= a < hi || a in m) ::
        if lo <= a < hi then LazyPage(LazyMapAt(kind, a)) else m[a]
    case Clear(_, lo, hi) => imap a: nat | a in m && !(lo <= a < hi && Removable(Some(m[a]))) :: m[a]
    case Populate(_, lo, hi, files) => imap a: nat | a in m :: if lo <= a < hi then FromFile(m[a], files) else m[a]
    case Lose(_, page) => imap a: nat | a in m && a != page :: m[a]
    case Protect(_, lo, hi, perms) =>
      imap a: nat | a in m :: if lo <= a < hi then SetFlags(m[a], perms) else m[a]
    case Move(_, start, oldPages, target, newPages, base) =>
      imap a: nat | a % PGSIZE == 0 && AfterMove(m, start, oldPages, target, newPages, base, a).Some? ::
        AfterMove(m, start, oldPages, target, newPages, base, a).value
    case Receive(_, low, high, lo, data) =>
      imap a: nat | a % PGSIZE == 0 && (low <= a < high || a in m) ::
        PutInto(if low <= a < high then ZeroView(READ_WRITE, Stack) else m[a], a, lo, data)
    case Wipe(_) => imap[]
    case Clone(_, _) => m
    case Exit(_) => m
  }

  type Memories = map<Pid, Memory>

  /** Fork copies the whole memory; exit drops it; any other event changes its own process only. */
  ghost function Next(ms: Memories, e: Event): Memories {
    if e.pid !in ms then ms
    else if e.Clone? then ms[e.child := ms[e.pid]]
    else if e.Exit? then ms - {e.pid}
    else ms[e.pid := Change(ms[e.pid], e)]
  }

  ghost function RunEvents(ms: Memories, es: seq<Event>): Memories {
    if es == [] then ms else Next(RunEvents(ms, es[..|es| - 1]), es[|es| - 1])
  }

  lemma {:induction false} RunAppend(ms: Memories, es: seq<Event>, es': seq<Event>)
    ensures RunEvents(ms, es + es') == RunEvents(RunEvents(ms, es), es')
    decreases |es'|
  {
    if es' == [] {
      assert es + es' == es;
    } else {
      var all := es + es';
      assert all[..|all| - 1] == es + es'[..|es'| - 1];
      RunAppend(ms, es, es'[..|es'| - 1]);
    }
  }

  lemma RunOne(ms: Memories, e: Event)
    ensures RunEvents(ms, [e]) == Next(ms, e)
    ensures RunEvents(ms, []) == ms
  {
    assert [e][..0] == [];
    assert RunEvents(ms, [e][..0]) == ms;
  }

  // ----- What the manager's world shows -----

  ghost function MemoryOf(frames: Frames, mm: MmState): Memory {
    imap a: nat | a % PGSIZE == 0 && PageAt(frames, mm, a).Some? :: PageAt(frames, mm, a).value
  }

  /** The memory of every running process. */
  ghost function Shown(w: World): Memories {
    map p | p in w.running && p in w.procs :: MemoryOf(w.frames, w.procs[p])
  }

  lemma SameMemory(frames: Frames, mm: MmState, frames': Frames, mm': MmState)
    requires SameView(frames, mm, frames', mm')
    ensures MemoryOf(frames', mm') == MemoryOf(frames, mm)
  {
    hide PageAt;
  }

  lemma FilledMemory(w: World, w': World, pid: Pid, lo: nat, hi: nat, v: PageView)
    requires Filled(w, w', pid, lo, hi, v)
    ensures MemoryOf(w'.frames, w'.procs[pid]) == Change(MemoryOf(w.frames, w.procs[pid]), Fill(pid, lo, hi, v))
  {
    hide PageAt;
  }

  lemma AwaitedMemory(w: World, w': World, pid: Pid, lo: nat, hi: nat, kind: LazyKind)
    requires FilledLazy(w, w', pid, lo, hi, kind)
    ensures MemoryOf(w'.frames, w'.procs[pid]) == Change(MemoryOf(w.frames, w.procs[pid]), Await(pid, lo, hi, kind))
  {
    hide PageAt;
  }

  lemma ClearedMemory(w: World, w': World, pid: Pid, lo: nat, hi: nat)
    requires Cleared(w, w', pid, lo, hi)
    ensures MemoryOf(w'.frames, w'.procs[pid]) == Change(MemoryOf(w.frames, w.procs[pid]), Clear(pid, lo, hi))
  {
    hide PageAt;
  }

  lemma PopulatedMemory(w: World, w': World, pid: Pid, lo: nat, hi: nat, files: Files)
    requires Populated(w, w', pid, lo, hi, files)
    ensures MemoryOf(w'.frames, w'.procs[pid]) == Change(MemoryOf(w.frames, w.procs[pid]), Populate(pid, lo, hi, files))
  {
    hide PageAt;
  }

  lemma ProtectedMemory(w: World, w': World, pid: Pid, lo: nat, hi: nat, perms: Perms)
    requires FlagsSet(w, w', pid, lo, hi, perms)
    ensures MemoryOf(w'.frames, w'.procs[pid]) == Change(MemoryOf(w.frames, w.procs[pid]), Protect(pid, lo, hi, perms))
  {
    hide PageAt;
  }

  lemma MovedMemory(w: World, w': World, pid: Pid, start: nat, oldPages: nat, target: nat, newPages: nat, base: Perms)
    requires MovedView(w, w', pid, start, oldPages, target, newPages, base) && start % PGSIZE == 0
             && target % PGSIZE == 0
    ensures MemoryOf(w'.frames, w'.procs[pid]) ==
              Change(MemoryOf(w.frames, w.procs[pid]), Move(pid, start, oldPages, target, newPages, base))
  {
    hide PageAt, Arrived;
    var m := MemoryOf(w.frames, w.procs[pid]);
    forall a: nat | a % PGSIZE == 0
      ensures MovedPageAt(w, pid, start, oldPages, target, newPages, base, a) ==
                AfterMove(m, start, oldPages, target, newPages, base, a)
    {
    }
  }

  lemma WipedMemory(frames: Frames, mm: MmState, pid: Pid, m: Memory)
    requires forall a: nat :: PageAt(frames, mm, a).None?
    ensures MemoryOf(frames, mm) == Change(m, Wipe(pid))
  {
    hide PageAt;
  }

  // ----- One step of one process -----

  /** `w'` shows what the eager machine shows after `es`. */
  ghost predicate Refines(w: World, w': World, es: seq<Event>) {
    Shown(w') == RunEvents(Shown(w), es)
  }

  /** When the other processes are untouched and the memory of `pid` changed as `e` says, the
      eager machine follows. */
  lemma StepRefines(w: World, o: multiset<Slot>, w': World, o': multiset<Slot>, pid: Pid, e: Event)
    requires Live(w, o, pid) && OthersKept(w, w', pid) && pid in w'.procs
    requires e.pid == pid && !e.Clone? && !e.Exit?
    requires MemoryOf(w'.frames, w'.procs[pid]) == Change(MemoryOf(w.frames, w.procs[pid]), e)
    ensures Refines(w, w', [e])
  {
    hide MemoryOf, Change, SpaceOk, RefsOk;
    OthersShown(w, o, w', pid);
    RunOne(Shown(w), e);
  }

  lemma OthersShown(w: World, o: multiset<Slot>, w': World, pid: Pid)
    requires Live(w, o, pid) && OthersKept(w, w', pid) && pid in w'.procs
    ensures Shown(w') == Shown(w)[pid := MemoryOf(w'.frames, w'.procs[pid])]
    ensures Shown(w)[pid] == MemoryOf(w.frames, w.procs[pid])
  {
    hide MemoryOf, SpaceOk, RefsOk, AgreeOn;
    forall q | q in w.procs && q != pid
      ensures MemoryOf(w'.frames, w'.procs[q]) == MemoryOf(w.frames, w.procs[q])
    {
      SpaceOf(w, o, q);
      SameFramesSameView(w.frames, w'.frames, w.procs[q]);
      SameMemory(w.frames, w.procs[q], w'.frames, w'.procs[q]);
    }
  }

  lemma SpaceOf(w: World, o: multiset<Slot>, q: Pid)
    requires Books(w, o) && q in w.procs
    ensures MapsOk(w.procs[q].maps)
  {
  }

  lemma NothingRefines(w: World, o: multiset<Slot>, w': World, pid: Pid)
    requires Live(w, o, pid) && OthersKept(w, w', pid) && pid in w'.procs
    requires SameView(w.frames, w.procs[pid], w'.frames, w'.procs[pid])
    ensures Refines(w, w', [])
  {
    hide MemoryOf, SpaceOk, RefsOk, OthersKept, SameView;
    OthersShown(w, o, w', pid);
    SameMemory(w.frames, w.procs[pid], w'.frames, w'.procs[pid]);
    RunOne(Shown(w), Exit(pid));
    UpdateTwice(Shown(w), pid, Shown(w)[pid], Shown(w)[pid]);
  }

  lemma RefinesItself(w: World)
    ensures Refines(w, w, [])
  {
    RunOne(Shown(w), Exit(0));
  }

  lemma RefinesJoin(w: World, w1: World, w2: World, es: seq<Event>, es': seq<Event>)
    requires Refines(w, w1, es) && Refines(w1, w2, es')
    ensures Refines(w, w2, es + es')
  {
    RunAppend(Shown(w), es, es');
  }
}
