/** The memory manager: demand faults, copy-on-write, fork, exec, exit and the mmap family,
    over services that may fail at any call. */
module Manager {
  import opened Types
  import opened AddressSpace
  import opened Machine
  import opened Views
  import opened World
  import opened FreshMaps
  import opened CowFault
  import opened DemandFaults

  class ApeManager {
    var s: World

    /** References the manager holds in hand, or has lost on a failure path. */
    ghost var owed: multiset<Slot>

    ghost predicate Counted()
      reads this
    {
      RefsOk(s.procs, s.frames, s.refs, owed)
    }

    // ----- Services: each call may fail -----

    /** A fresh capability slot holding one zeroed page. */
    method AllocFrame() returns (r: Result<Slot>)
      requires Counted()
      modifies this
      ensures Counted()
      ensures r.Err? ==> s == old(s) && owed == old(owed)
      ensures r.Ok? ==>
                && r.value !in old(s).frames && r.value != 0
                && s == old(s).(frames := old(s).frames[r.value := [ZeroPage()]])
                && owed == Plus(old(owed), r.value)
    {
      hide RefsOk;
      var fails: bool := *;
      if fails {
        return Err(ResourceFailed);
      }
      assert Above(s.frames.Keys + {0}) !in s.frames;
      var slot: Slot :| slot !in s.frames && slot != 0;
      RefsNewFrame(s.procs, s.frames, s.refs, owed, slot, [ZeroPage()]);
      s := s.(frames := s.frames[slot := [ZeroPage()]]);
      owed := Plus(owed, slot);
      r := Ok(slot);
    }

    /** `vspace.map` with its retry: a failure leaves the range as it was or unmapped. A frame
        smaller than the request cannot be mapped. */
    method MapProcessFrame(pid: Pid, slot: Slot, vaddr: nat, perms: Perms, pages: nat) returns (r: Result<()>)
      requires pid in s.hw
      modifies this`s
      ensures r.Ok? ==>
                && slot in s.frames && pages <= |s.frames[slot]|
                && s == old(s).(hw := old(s).hw[pid := Mapped(old(s).hw[pid], slot, vaddr, perms, pages)])
      ensures r.Err? ==>
                || s == old(s)
                || s == old(s).(hw := old(s).hw[pid := Unmapped(old(s).hw[pid], vaddr, pages)])
      ensures r != Err(NotSupported)
    {
      r := VspaceMap(pid, slot, vaddr, perms, pages);
      if r == Err(MappingFailed) {
        UnmapProcessPages(pid, vaddr, pages);
        r := VspaceMap(pid, slot, vaddr, perms, pages);
        RemapIsMap(old(s).hw[pid], slot, vaddr, perms, pages);
      }
    }

    method VspaceMap(pid: Pid, slot: Slot, vaddr: nat, perms: Perms, pages: nat) returns (r: Result<()>)
      requires pid in s.hw
      modifies this`s
      ensures r.Ok? ==>
                && slot in s.frames && pages <= |s.frames[slot]|
                && s == old(s).(hw := old(s).hw[pid := Mapped(old(s).hw[pid], slot, vaddr, perms, pages)])
      ensures r.Err? ==> s == old(s) && r.error != NotSupported
    {
      var fails: bool := *;
      var retry: bool := *;
      if fails || slot !in s.frames || |s.frames[slot]| < pages {
        return Err(if retry then MappingFailed else ResourceFailed);
      }
      s := s.(hw := s.hw[pid := Mapped(s.hw[pid], slot, vaddr, perms, pages)]);
      r := Ok(());
    }

    method UnmapProcessPages(pid: Pid, vaddr: nat, pages: nat)
      requires pid in s.hw
      modifies this`s
      ensures s == old(s).(hw := old(s).hw[pid := Unmapped(old(s).hw[pid], vaddr, pages)])
    {
      s := s.(hw := s.hw[pid := Unmapped(s.hw[pid], vaddr, pages)]);
    }

    /** Unmaps the range and maps the frame there: a failure leaves the range unmapped. */
    method ReplaceMapping(pid: Pid, slot: Slot, vaddr: nat, perms: Perms, pages: nat) returns (r: Result<()>)
      requires pid in s.hw
      modifies this`s
      ensures r.Ok? ==>
                && slot in s.frames && pages <= |s.frames[slot]|
                && s == old(s).(hw := old(s).hw[pid := Mapped(old(s).hw[pid], slot, vaddr, perms, pages)])
      ensures r.Err? ==> s == old(s).(hw := old(s).hw[pid := Unmapped(old(s).hw[pid], vaddr, pages)])
    {
      hide Mapped, Unmapped;
      ghost var pt := s.hw[pid];
      RemapIsMap(pt, slot, vaddr, perms, pages);
      UpdateTwice(s.hw, pid, Unmapped(pt, vaddr, pages), Mapped(pt, slot, vaddr, perms, pages));
      UpdateTwice(s.hw, pid, Unmapped(pt, vaddr, pages), Unmapped(pt, vaddr, pages));
      UnmapProcessPages(pid, vaddr, pages);
      r := MapProcessFrame(pid, slot, vaddr, perms, pages);
    }

    method ReleaseFrameSlot(slot: Slot)
      requires Counted() && InHand(owed, slot)
      modifies this
      ensures Counted()
      ensures owed == Minus(old(owed), slot)
      ensures s == old(s).(refs := Released(old(s).refs, slot),
                           frames := FramesAfterRelease(old(s).frames, old(s).refs, slot))
    {
      hide RefsOk;
      RefsRelease(s.procs, s.frames, s.refs, owed, slot);
      s := s.(refs := Released(s.refs, slot), frames := FramesAfterRelease(s.frames, s.refs, slot));
      owed := Minus(owed, slot);
    }

    /** `add_memory_map`: the reference in hand passes to the table. */
    method AddMemoryMap(pid: Pid, m: MemoryMap)
      requires Counted()
      requires pid in s.procs && m.vaddr !in s.procs[pid].maps
      requires InHand(owed, m.frameCap) && !Holds(s.procs[pid].maps, m.frameCap)
      modifies this
      ensures Counted()
      ensures s == old(s).(procs := WithMaps(old(s).procs, pid, old(s).procs[pid].maps[m.vaddr := m]))
      ensures owed == Minus(old(owed), m.frameCap)
    {
      hide RefsOk, Holds;
      RefsAddMap(s.procs, s.frames, s.refs, owed, pid, m);
      s := s.(procs := WithMaps(s.procs, pid, s.procs[pid].maps[m.vaddr := m]));
      owed := Minus(owed, m.frameCap);
    }

    // ----- Demand faults -----

    /** A zeroed page mapped at `pageAddr` and not yet in any table. A failure may lose the
        new frame, but moves nothing. */
    method AllocMappedPage(pid: Pid, pageAddr: nat, perms: Perms) returns (r: Result<Slot>)
      requires Counted()
      requires s.hw.Keys == s.procs.Keys && pid in s.procs
      modifies this
      ensures Counted()
      ensures r.Ok? ==>
                && r.value !in old(s).frames && r.value != 0
                && s == old(s).(frames := old(s).frames[r.value := [ZeroPage()]],
                                hw := old(s).hw[pid := Mapped(old(s).hw[pid], r.value, pageAddr, perms, 1)])
                && owed == Plus(old(owed), r.value)
      ensures r.Err? ==> Quiet(old(s), s, pid) && LostOne(old(s).frames.Keys, old(owed), owed)
    {
      hide RefsOk, FramesExist, LostOne, Plus, Mapped, Unmapped, Quiet;
      ghost var w, o := s, owed;
      CountedFrames(w, o);
      LostOneFrom(w.frames.Keys, o, 0);
      r := AllocFrame();
      if r.Err? {
        QuietFailure(w, pid, Above(w.frames.Keys), [], 0, 0);
        return;
      }
      QuietFailure(w, pid, r.value, [ZeroPage()], pageAddr, 1);
      LostOneFrom(w.frames.Keys, o, r.value);
      var mapped := MapProcessFrame(pid, r.value, pageAddr, perms, 1);
      if mapped.Err? {
        r := Err(mapped.error);
      }
    }

    /** Enters a zeroed page at `pageAddr`. */
    method MapFaultPage(pid: Pid, pageAddr: nat, perms: Perms, memType: MemoryType)
      returns (r: Result<()>, ghost slot: Slot)
      requires Counted()
      requires s.hw.Keys == s.procs.Keys && pid in s.procs && pageAddr !in s.procs[pid].maps
      modifies this
      ensures Counted()
      ensures r.Ok? ==>
                && slot !in old(s).frames && slot != 0 && owed == old(owed)
                && s == WithFreshMap(old(s), pid, FaultMap(pageAddr, perms, memType, slot), [ZeroPage()])
      ensures r.Err? ==> Quiet(old(s), s, pid) && LostOne(old(s).frames.Keys, old(owed), owed)
    {
      hide RefsOk, FramesExist, Quiet, LostOne, Holds, Plus, Minus, InHand, Mapped, FrameUnheld;
      ghost var w := s;
      slot := 0;
      CountedFrames(w, owed);
      var alloc := AllocMappedPage(pid, pageAddr, perms);
      if alloc.Err? {
        return Err(alloc.error), 0;
      }
      slot := alloc.value;
      PlusMinus(old(owed), slot);
      FreshUnheld(w.procs, w.frames, pid, slot);
      AddMemoryMap(pid, FaultMap(pageAddr, perms, memType, alloc.value));
      r := Ok(());
    }

    /** One page of stack growth. */
    method GrowStackPage(pid: Pid) returns (r: Result<()>)
      requires Books(s, owed) && pid in s.procs && pid in s.running
      requires s.procs[pid].StackBoundary() >= s.procs[pid].StackLow() + PGSIZE
      modifies this
      ensures StepOk(old(s), old(owed), s, owed, pid) && StackOnly(old(s), s, pid)
      ensures r.Ok? ==>
                && owed == old(owed) && old(s).frames.Keys <= s.frames.Keys
                && GrewBy(old(s), s, pid, old(s).procs[pid].StackBoundary() - PGSIZE)
                && Reaches(s, pid, old(s).procs[pid].StackBoundary() - PGSIZE, READ_WRITE)
      ensures r.Err? ==>
                GrewBy(old(s), s, pid, old(s).procs[pid].StackBoundary())
                && LostOne(old(s).frames.Keys, old(owed), owed)
    {
      hide Books, StepOk, Quiet, Lost, LostOne, SpaceOk, RefsOk, MapsOk, SameView, CanAddFresh, Filled, FreeOfMaps,
           FramesExist, FrameUnheld, GrewBy, Reaches, Extends, StackOnly;
      ghost var w, o := s, owed;
      var low := s.procs[pid].StackBoundary() - PGSIZE;
      ghost var slot;
      BooksParts(s, owed, pid);
      StackPageFree(s.procs[pid]);
      AddressFree(s.procs[pid].maps, low);
      r, slot := MapFaultPage(pid, low, READ_WRITE, Stack);
      if r.Ok? {
        CanAddDemand(w, o, pid, low, READ_WRITE, Stack, slot);
        GrownStackStep(w, o, pid, FaultMap(low, READ_WRITE, Stack, slot));
        FreshReaches(w, pid, FaultMap(low, READ_WRITE, Stack, slot), [ZeroPage()], low,
                     s.procs[pid].(stackSize := s.procs[pid].stackSize + PGSIZE));
        FreshExtends(w, pid, FaultMap(low, READ_WRITE, Stack, slot), [ZeroPage()],
                     s.procs[pid].(stackSize := s.procs[pid].stackSize + PGSIZE));
        s := WithSpace(s, pid, s.procs[pid].(stackSize := s.procs[pid].stackSize + PGSIZE));
      } else {
        LostOneIsLost(w.frames.Keys, o, owed);
        QuietStep(w, o, s, owed, pid);
        QuietExtends(w, s, pid);
        GrewNothing(w, s, pid);
      }
    }

    /** Stack growth down to the page of the fault, one page at a time. */
    method GrowStack(pid: Pid, pages: nat) returns (r: Result<()>)
      requires Books(s, owed) && pid in s.procs && pid in s.running
      requires s.procs[pid].StackLow() + pages * PGSIZE <= s.procs[pid].StackBoundary()
      modifies this
      ensures StepOk(old(s), old(owed), s, owed, pid) && StackOnly(old(s), s, pid)
      ensures pid in s.procs && GrewBy(old(s), s, pid, s.procs[pid].StackBoundary())
      ensures s.procs[pid].StackBoundary() >= old(s).procs[pid].StackBoundary() - pages * PGSIZE
      ensures r.Err? ==> LostOne(old(s).frames.Keys, old(owed), owed)
      ensures r.Ok? ==>
                && owed == old(owed) && old(s).frames.Keys <= s.frames.Keys
                && s.procs[pid].StackBoundary() == old(s).procs[pid].StackBoundary() - pages * PGSIZE
                && (pages > 0 ==> Reaches(s, pid, s.procs[pid].StackBoundary(), READ_WRITE))
    {
      hide Books, StepOk, LostOne, GrewBy, OthersKept, Reaches, StackOnly;
      ghost var w, o := s, owed;
      r := Ok(());
      StepOkReflexive(s, owed, pid);
      GrewNothing(w, s, pid);
      ExtendsItself(w, o, pid);
      for idx := 0 to pages
        invariant StepOk(w, o, s, owed, pid) && Books(s, owed) && StackOnly(w, s, pid)
        invariant pid in s.procs && pid in s.running
        invariant GrewBy(w, s, pid, s.procs[pid].StackBoundary())
        invariant s.procs[pid].StackLow() == w.procs[pid].StackLow()
        invariant s.procs[pid].StackBoundary() == w.procs[pid].StackBoundary() - idx * PGSIZE
        invariant owed == o && r.Ok? && w.frames.Keys <= s.frames.Keys
        invariant idx > 0 ==> Reaches(s, pid, s.procs[pid].StackBoundary(), READ_WRITE)
      {
        ghost var w1, o1 := s, owed;
        r := GrowStackPage(pid);
        StepOkParts(w1, o1, s, owed, pid);
        StepOkTransitive(w, o, w1, o1, s, owed, pid);
        StackOnlyTransitive(w, w1, s, pid);
        ghost var low := w1.procs[pid].StackBoundary() - (if r.Ok? then PGSIZE else 0);
        GrewParts(w1, s, pid, low);
        GrewJoin(w, w1, s, pid, w1.procs[pid].StackBoundary(), low);
        if r.Err? {
          LostOneLess(w1.frames.Keys, w.frames.Keys, o1, owed);
          return;
        }
      }
    }

    /** A heap page touched for the first time. */
    method FaultHeapPage(pid: Pid, pageAddr: nat) returns (r: Result<()>)
      requires Books(s, owed) && pid in s.procs && pid in s.running
      requires pageAddr % PGSIZE == 0
      requires Lookup(s.procs[pid].maps, pageAddr).None? && Lookup(s.procs[pid].lazy, pageAddr).None?
      requires OutsideStack(s.procs[pid], pageAddr, pageAddr + PGSIZE)
      modifies this
      ensures StepOk(old(s), old(owed), s, owed, pid)
      ensures r.Ok? ==>
                && owed == old(owed)
                && Filled(old(s), s, pid, pageAddr, pageAddr + PGSIZE, ZeroView(READ_WRITE, Heap))
                && Reaches(s, pid, pageAddr, READ_WRITE)
      ensures r.Err? ==> LostOne(old(s).frames.Keys, old(owed), owed)
      ensures r.Err? ==> pid in s.procs && SameView(old(s).frames, old(s).procs[pid], s.frames, s.procs[pid])
    {
      hide Books, StepOk, Quiet, Lost, LostOne, SpaceOk, RefsOk, MapsOk, SameView, CanAddFresh, Filled, FreeOfMaps,
           FramesExist, FrameUnheld, OutsideStack, Lookup, Reaches;
      ghost var w, o := s, owed;
      ghost var slot;
      BooksParts(s, owed, pid);
      UncoveredPageIsFree(s.procs[pid].maps, pageAddr);
      AddressFree(s.procs[pid].maps, pageAddr);
      r, slot := MapFaultPage(pid, pageAddr, READ_WRITE, Heap);
      if r.Ok? {
        CanAddDemand(w, o, pid, pageAddr, READ_WRITE, Heap, slot);
        HeapStep(w, o, pid, FaultMap(pageAddr, READ_WRITE, Heap, slot));
        FreshReaches(w, pid, FaultMap(pageAddr, READ_WRITE, Heap, slot), [ZeroPage()], pageAddr, s.procs[pid]);
      } else {
        LostOneIsLost(w.frames.Keys, o, owed);
        QuietStep(w, o, s, owed, pid);
      }
    }

    /** A window of the manager's own space onto a frame. */
    method MapScratch(slot: Slot, pages: nat) returns (r: Result<()>)
      ensures r.Ok? ==> slot in s.frames && pages <= |s.frames[slot]|
    {
      var fails: bool := *;
      if fails || slot !in s.frames || |s.frames[slot]| < pages {
        return Err(ResourceFailed);
      }
      r := Ok(());
    }

    // ----- Faults on resident maps -----

    /** Copies page `idx` of `src`, which a window already shows, over the one page of `dst`. */
    method CopyInto(src: Slot, idx: nat, dst: Slot) returns (r: Result<()>)
      requires Counted() && dst in s.frames
      requires src in s.frames && idx < |s.frames[src]|
      modifies this`s
      ensures Counted()
      ensures r.Ok? ==> s == old(s).(frames := old(s).frames[dst := [old(s).frames[src][idx]]])
      ensures r.Err? ==> s == old(s)
    {
      hide RefsOk;
      r := MapScratch(dst, 1);
      if r.Ok? {
        SetContents(s.procs, s.frames, s.refs, owed, dst, [s.frames[src][idx]]);
        s := s.(frames := s.frames[dst := [s.frames[src][idx]]]);
      }
    }

    /** A private copy of page `idx` of `src`, in hand. */
    method AllocCopy(pid: Pid, src: Slot, idx: nat) returns (r: Result<Slot>)
      requires Counted()
      requires s.hw.Keys == s.procs.Keys && pid in s.procs && src in s.frames
      modifies this
      ensures Counted()
      ensures r.Ok? ==>
                && r.value !in old(s).frames && r.value != 0 && idx < |old(s).frames[src]|
                && s == old(s).(frames := old(s).frames[r.value := [old(s).frames[src][idx]]])
                && owed == Plus(old(owed), r.value)
      ensures r.Err? ==> Quiet(old(s), s, pid) && LostOne(old(s).frames.Keys, old(owed), owed)
    {
      hide RefsOk, FramesExist, LostOne, Plus, Quiet;
      ghost var w, o := s, owed;
      CountedFrames(w, o);
      LostOneFrom(w.frames.Keys, o, 0);
      r := AllocFrame();
      if r.Err? {
        QuietFailure(w, pid, Above(w.frames.Keys), [], 0, 0);
        return;
      }
      LostOneFrom(w.frames.Keys, o, r.value);
      QuietFailure(w, pid, r.value, [ZeroPage()], 0, 0);
      var copied := MapScratch(src, idx + 1);
      if copied.Ok? {
        copied := CopyInto(src, idx, r.value);
      }
      if copied.Err? {
        r := Err(copied.error);
      } else {
        UpdateTwice(w.frames, r.value, [ZeroPage()], [w.frames[src][idx]]);
      }
    }

    /** A private copy of the first page of the map at `k`, mapped in its place. */
    method CopyAndMap(pid: Pid, k: nat) returns (r: Result<Slot>)
      requires Counted()
      requires s.hw.Keys == s.procs.Keys && pid in s.procs && k in s.procs[pid].maps
      modifies this
      ensures Counted()
      ensures r.Ok? ==>
                var m := old(s).procs[pid].maps[k];
                && r.value !in old(s).frames && r.value != 0
                && m.frameCap in old(s).frames && |old(s).frames[m.frameCap]| > 0
                && s == old(s).(frames := old(s).frames[r.value := [old(s).frames[m.frameCap][0]]],
                                hw := old(s).hw[pid := Mapped(old(s).hw[pid], r.value, k, m.flags, 1)])
                && owed == Plus(old(owed), r.value)
      ensures r.Err? ==> Quiet(old(s), s, pid) && LostOne(old(s).frames.Keys, old(owed), owed)
    {
      hide RefsOk, FramesExist, LostOne, Plus, Mapped, Unmapped, Quiet;
      ghost var w, o := s, owed;
      var m := s.procs[pid].maps[k];
      CountedFrames(w, o);
      HeldFrame(w.procs, w.frames, pid, k);
      r := AllocCopy(pid, m.frameCap, 0);
      if r.Err? {
        return;
      }
      LostOneFrom(w.frames.Keys, o, r.value);
      QuietFailure(w, pid, r.value, [w.frames[m.frameCap][0]], k, 1);
      var mapped := ReplaceMapping(pid, r.value, k, m.flags, 1);
      if mapped.Err? {
        r := Err(mapped.error);
      }
    }

    /** The table entry passes to the copy and the old frame's reference is given back. */
    method ReplaceFrame(pid: Pid, k: nat, slot: Slot, ghost o: multiset<Slot>)
      requires Counted() && owed == Plus(o, slot)
      requires pid in s.procs && k in s.procs[pid].maps && MapsOk(s.procs[pid].maps)
      requires !Holds(s.procs[pid].maps, slot)
      modifies this
      ensures Counted() && owed == o
      ensures var m := old(s).procs[pid].maps[k];
              s == AfterRelease(
                     old(s).(procs := WithMaps(old(s).procs, pid, old(s).procs[pid].maps[k := CopiedMap(m, slot)])),
                     m.frameCap)
    {
      hide RefsOk, MapsOk, Holds, Plus, Minus, InHand, Released, FramesAfterRelease;
      var m := s.procs[pid].maps[k];
      RefsSwapFrame(s.procs, s.frames, s.refs, o, pid, k, slot);
      s := s.(procs := WithMaps(s.procs, pid, s.procs[pid].maps[k := CopiedMap(m, slot)]));
      owed := Plus(o, m.frameCap);
      PlusMinus(o, m.frameCap);
      ReleaseFrameSlot(m.frameCap);
    }

    /** A store fault on a copy-on-write map. A failure shows nobody anything new and loses at most
        the copy. */
    method ResolveCowFault(pid: Pid, k: nat) returns (r: Result<Slot>)
      requires Books(s, owed)
      requires pid in s.procs && pid in s.running && k in s.procs[pid].maps
      modifies this
      ensures r.Err? ==> StepOk(old(s), old(owed), s, owed, pid) && LostOne(old(s).frames.Keys, old(owed), owed)
      ensures r.Err? ==> forall p | p in old(s).procs :: SameView(old(s).frames, old(s).procs[p], s.frames, s.procs[p])
      ensures r.Ok? ==>
                && old(s).procs[pid].maps[k].flags.w
                && CanResolve(old(s), old(owed), pid, k, r.value) && pid in old(s).hw
                && s == Resolved(old(s), pid, k, r.value) && owed == old(owed)
    {
      hide Books, RefsOk, FramesExist, SpaceOk, MapsOk, Quiet, StepOk, Lost, LostOne, Holds, FrameUnheld, SameView;
      ghost var w, o := s, owed;
      BooksParts(s, owed, pid);
      LostOneFrom(w.frames.Keys, o, 0);
      if !s.procs[pid].maps[k].flags.w {
        StepOkReflexive(s, owed, pid);
        forall p | p in s.procs
          ensures SameView(s.frames, s.procs[p], s.frames, s.procs[p])
        {
          SameViewReflexive(s.frames, s.procs[p]);
        }
        return Err(PermissionDenied);
      }
      r := CopyAndMap(pid, k);
      if r.Err? {
        LostOneIsLost(w.frames.Keys, o, owed);
        QuietStep(w, o, s, owed, pid);
      } else {
        FreshUnheld(w.procs, w.frames, pid, r.value);
        ReplaceFrame(pid, k, r.value, o);
      }
    }
  }

  lemma HeldFrame(procs: Procs, frames: Frames, pid: Pid, k: nat)
    requires FramesExist(procs, frames) && pid in procs && k in procs[pid].maps
    ensures procs[pid].maps[k].frameCap in frames
  {
  }

  lemma RemapIsMap(pt: PageTable, slot: Slot, vaddr: nat, perms: Perms, pages: nat)
    ensures Mapped(Unmapped(pt, vaddr, pages), slot, vaddr, perms, pages) == Mapped(pt, slot, vaddr, perms, pages)
    ensures Unmapped(Unmapped(pt, vaddr, pages), vaddr, pages) == Unmapped(pt, vaddr, pages)
  {
  }
}
