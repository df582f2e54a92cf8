/** Copying to and from a process through the scratch-page pool agrees with its memory, byte by
    byte. */
module UserCopy {
  import opened Types
  import opened AddressSpace
  import opened Machine
  import opened World
  import opened FreshMaps
  import opened DemandFaults
  import opened Splitting
  import opened Manager
  import opened SplitCalls
  import opened Reflag
  import opened UserBytes
  import opened PageFaults
  import opened Lru
  import opened ScratchPool
  import opened CopySteps

  class UserAccessSession {
    const mgr: ApeManager
    const pid: Pid
    const pool: SharedPagePool

    ghost function Repr(): set<object>
    {
      {this, mgr} + pool.Repr()
    }

    ghost predicate Valid()
      reads Repr()
    {
      && pool.Valid() && Live(mgr.s, mgr.owed, pid) && Translated(mgr.s)
      && PoolFits(pool.entries[..], mgr.s.frames, mgr.s.procs[pid].maps)
    }

    constructor (m: ApeManager, p: Pid, empty: SharedPagePool)
      requires Live(m.s, m.owed, p) && Translated(m.s)
      requires empty.Valid() && forall i | 0 <= i < POOL_SLOTS :: empty.entries[i].None?
      ensures Valid() && mgr == m && pid == p && pool == empty
    {
      hide Live, Books, Translated, Covers, Lookup;
      mgr, pid, pool := m, p, empty;
      LiveParts(m.s, m.owed, p);
    }

    /** `finish`: the manager's own address space is as it was before the session. */
    method Finish()
      requires Valid()
      modifies pool.entries, pool.occupied, pool.scratch
      ensures pool.Valid() && pool.scratch.windows == pool.base
    {
      pool.ReleaseAll();
    }

    /** Grows the stack down to the page of an address in its window. */
    method TryGrow(addr: nat) returns (grown: bool)
      requires Valid()
      modifies mgr
      ensures Valid() && Grew(old(mgr.s), old(mgr.owed), mgr.s, mgr.owed, pid)
      ensures CopyLoss(old(mgr.s), old(mgr.owed), mgr.s, mgr.owed, grown)
      ensures grown ==> Lookup(mgr.s.procs[pid].maps, addr).Some?
    {
      hide CopyLoss, LostOne, Live, Books, StepOk, StackOnly, GrewBy, Translated, PoolFits, Reaches, SpaceOk, RefsOk,
           Lookup;
      ghost var w, o := mgr.s, mgr.owed;
      LiveParts(w, o, pid);
      GrewNothingYet(w, o, pid);
      NoCopyLoss(w, o, false);
      var mm := mgr.s.procs[pid];
      if !(mm.StackLow() <= addr < mm.stackBottom) {
        return false;
      }
      if AlignDown(addr) >= mm.StackBoundary() {
        return false;
      }
      StackBounds(mm);
      DownBetween(mm.StackLow(), mm.StackBoundary(), addr);
      var pages := (mm.StackBoundary() - AlignDown(addr)) / PGSIZE;
      StackPagesFit(mm, addr, pages);
      var done := mgr.GrowStack(pid, pages);
      StackLoss(w, o, mgr.s, mgr.owed, done.Ok?);
      StepOkParts(w, o, mgr.s, mgr.owed, pid);
      MakeLive(mgr.s, mgr.owed, pid);
      FitsExtended(pool.entries[..], w, mgr.s, pid);
      if done.Ok? {
        LiveParts(mgr.s, mgr.owed, pid);
        GrewParts(w, mgr.s, pid, mgr.s.procs[pid].StackBoundary());
        StackResident(mgr.s.procs[pid], addr);
      }
      grown := done.Ok?;
    }

    /** The map under an address, growing the stack for it if need be. */
    method LookupMap(addr: nat, required: Perms) returns (r: Result<MemoryMap>)
      requires Valid()
      modifies mgr
      ensures Valid() && Grew(old(mgr.s), old(mgr.owed), mgr.s, mgr.owed, pid)
      ensures CopyLoss(old(mgr.s), old(mgr.owed), mgr.s, mgr.owed, r.Ok?)
      ensures r.Ok? ==>
                && r.value.Covers(addr) && r.value.flags.Contains(required)
                && r.value.vaddr in mgr.s.procs[pid].maps && mgr.s.procs[pid].maps[r.value.vaddr] == r.value
      ensures r.Err? ==> r.error == InvalidAddress && !Accessible(old(mgr.s).procs[pid], addr, required)
    {
      hide CopyLoss, Live, Books, StepOk, StackOnly, GrewBy, Translated, PoolFits, SpaceOk, RefsOk, Lookup, MapsOk;
      ghost var w, o := mgr.s, mgr.owed;
      LiveParts(w, o, pid);
      GrewNothingYet(w, o, pid);
      NoCopyLoss(w, o, true);
      var found := Lookup(mgr.s.procs[pid].maps, addr);
      if found.None? {
        var grown := TryGrow(addr);
        CopyLossFailed(w, o, mgr.s, mgr.owed, grown);
        if grown {
          LiveParts(mgr.s, mgr.owed, pid);
          found := Lookup(mgr.s.procs[pid].maps, addr);
        }
      }
      if found.Some? {
        CopyLossFailed(w, o, mgr.s, mgr.owed, true);
      }
      if found.None? || !found.value.flags.Contains(required) {
        return Err(InvalidAddress);
      }
      LiveParts(mgr.s, mgr.owed, pid);
      SpaceMapsOk(mgr.s.procs[pid]);
      LookupExact(mgr.s.procs[pid].maps, addr);
      r := Ok(found.value);
    }

    // ----- Reading -----

    /** A window onto the frame of a map of the process. */
    method AcquireWindow(m: MemoryMap, perms: Perms) returns (r: Result<nat>)
      requires Valid() && m.vaddr in mgr.s.procs[pid].maps && mgr.s.procs[pid].maps[m.vaddr] == m
      modifies pool.entries, pool.occupied, pool.policy, pool.scratch
      ensures Valid() && mgr.s == old(mgr.s) && mgr.owed == old(mgr.owed)
      ensures m.frameCap in mgr.s.frames && |mgr.s.frames[m.frameCap]| * PGSIZE == m.size
      ensures r.Ok? ==>
                && r.value in pool.scratch.windows && pool.scratch.windows[r.value].slot == m.frameCap
                && pool.scratch.windows[r.value].perms.Contains(perms)
                && pool.scratch.windows[r.value].pages == |mgr.s.frames[m.frameCap]|
      ensures r.Err? ==> r.error == ResourceFailed
    {
      hide Live, Books, Translated, SpaceOk, RefsOk, Lookup, MapsOk, LastUse, Covers, PoolFits;
      ghost var before := pool.entries[..];
      LiveParts(mgr.s, mgr.owed, pid);
      MapBacked(mgr.s, mgr.owed, pid, m);
      FitsSized(pool.entries[..], mgr.s.frames, mgr.s.procs[pid].maps);
      ghost var slot;
      r, slot := pool.Acquire(mgr.s.frames, m, perms);
      HeldMap(mgr.s.procs[pid].maps, m);
      FitsAdded(before, pool.entries[..], mgr.s.frames, mgr.s.procs[pid].maps, slot);
    }

    /** The bytes a window shows. */
    method ReadWindow(window: nat, start: nat, len: nat) returns (data: seq<byte>)
      requires window in pool.scratch.windows && pool.scratch.windows[window].slot in mgr.s.frames
      requires start + len <= |mgr.s.frames[pool.scratch.windows[window].slot]| * PGSIZE
      ensures data == FrameBytes(mgr.s.frames[pool.scratch.windows[window].slot], start, len)
    {
      data := FrameBytes(mgr.s.frames[pool.scratch.windows[window].slot], start, len);
    }

    /** The bytes from an address to the end of its map, `room` at most. */
    method ReadChunk(addr: nat, room: nat) returns (r: Result<seq<byte>>)
      requires Valid() && room > 0
      modifies mgr, pool.entries, pool.occupied, pool.policy, pool.scratch
      ensures Valid() && Grew(old(mgr.s), old(mgr.owed), mgr.s, mgr.owed, pid)
      ensures CopyLoss(old(mgr.s), old(mgr.owed), mgr.s, mgr.owed, r.Ok?)
      ensures r.Ok? ==>
                && 0 < |r.value| <= room && BytesAt(mgr.s, pid, addr, r.value)
                && (AddressesFit(old(mgr.s).procs[pid]) ==>
                      addr + |r.value| <= USIZE_MAX && AddressesFit(mgr.s.procs[pid]))
      ensures r.Err? ==>
                r.error == ResourceFailed
                || (r.error == InvalidAddress && !Accessible(old(mgr.s).procs[pid], addr, READ))
    {
      hide CopyLoss, Live, Books, StepOk, StackOnly, GrewBy, Translated, PoolFits, SpaceOk, RefsOk, Lookup, MapsOk,
           Covers, BytesAt, AddressesFit, FrameBytes;
      ghost var w, o := mgr.s, mgr.owed;
      LiveParts(w, o, pid);
      var found := LookupMap(addr, READ);
      if found.Err? {
        return Err(found.error);
      }
      var m := found.value;
      LiveParts(mgr.s, mgr.owed, pid);
      SpaceMapsOk(mgr.s.procs[pid]);
      EntryOf(mgr.s.procs[pid].maps, m.vaddr);
      var start := addr - m.vaddr;
      var chunk := Min(m.size - start, room);
      var window := AcquireWindow(m, READ);
      CopyLossFailed(w, o, mgr.s, mgr.owed, true);
      if window.Err? {
        return Err(window.error);
      }
      var data := ReadWindow(window.value, start, chunk);
      FrameBytesAre(mgr.s, mgr.owed, pid, m.vaddr, start, data);
      EndFits(w, o, mgr.s, mgr.owed, pid, m);
      r := Ok(data);
    }

    /** Copies from the process into `dst`: its bytes, or the reason the first missing one has none. */
    method CopyFromUser(src: nat, dst: array<byte>) returns (r: Result<()>, ghost copied: nat)
      requires Valid() && AddressesFit(mgr.s.procs[pid]) && dst !in Repr()
      modifies mgr, pool.entries, pool.occupied, pool.policy, pool.scratch, dst
      ensures Valid() && Grew(old(mgr.s), old(mgr.owed), mgr.s, mgr.owed, pid) && copied <= dst.Length
      ensures CopyLoss(old(mgr.s), old(mgr.owed), mgr.s, mgr.owed, r.Ok?)
      ensures BytesAt(mgr.s, pid, src, dst[..copied]) && dst[copied..] == old(dst[copied..])
      ensures r.Ok? ==> copied == dst.Length
      ensures r.Err? ==> copied < dst.Length && (r.error == ResourceFailed || r.error == InvalidAddress)
      ensures r == Err(InvalidAddress) ==> src == 0 || !Accessible(old(mgr.s).procs[pid], src + copied, READ)
    {
      hide CopyLoss, Live, Books, StepOk, StackOnly, GrewBy, Translated, PoolFits, SpaceOk, RefsOk, Lookup, MapsOk,
           Covers, BytesAt, AddressesFit, Accessible;
      ghost var w, o := mgr.s, mgr.owed;
      LiveParts(w, o, pid);
      GrewNothingYet(w, o, pid);
      NoCopyLoss(w, o, true);
      NoCopyLoss(w, o, false);
      NoBytes(w, pid, src);
      copied := 0;
      assert dst[..0] == [];
      if dst.Length == 0 {
        return Ok(()), 0;
      }
      if src == 0 {
        return Err(InvalidAddress), 0;
      }
      var done, cursor := 0, src;
      while done < dst.Length
        invariant done <= dst.Length && cursor == src + done && copied == done
        invariant Valid() && Grew(w, o, mgr.s, mgr.owed, pid) && AddressesFit(mgr.s.procs[pid])
        invariant CopyLoss(w, o, mgr.s, mgr.owed, true)
        invariant BytesAt(mgr.s, pid, src, dst[..done])
        invariant forall i | done <= i < dst.Length :: dst[i] == old(dst[i])
      {
        ghost var s1, o1, got := mgr.s, mgr.owed, dst[..done];
        var chunk := ReadChunk(cursor, dst.Length - done);
        assert dst[..done] == got;
        GrewKeepsBytes(s1, o1, mgr.s, mgr.owed, pid, src, got);
        CopyLossThen(w, o, s1, o1, mgr.s, mgr.owed, chunk.Ok?);
        GrewTransitive(w, o, s1, o1, mgr.s, mgr.owed, pid);
        if chunk.Err? {
          GrewAccessible(w, o, s1, o1, pid, cursor, READ);
          return Err(chunk.error), done;
        }
        ghost var rest := dst[done + |chunk.value|..];
        CopyChunk(dst, done, chunk.value);
        assert forall i | done + |chunk.value| <= i < dst.Length :: dst[i] == rest[i - done - |chunk.value|];
        BytesJoin(mgr.s, pid, src, got, chunk.value);
        done := done + |chunk.value|;
        cursor := SatAdd(cursor, |chunk.value|);
        copied := done;
      }
      r := Ok(());
    }

    // ----- Writing -----

    method WriteWindow(window: nat, start: nat, data: seq<byte>)
      requires window in pool.scratch.windows && pool.scratch.windows[window].slot in mgr.s.frames
      requires pool.scratch.windows[window].perms.w
      requires start + |data| <= |mgr.s.frames[pool.scratch.windows[window].slot]| * PGSIZE
      modifies mgr
      ensures mgr.s == Written(old(mgr.s), pool.scratch.windows[window].slot, start, data) && mgr.owed == old(mgr.owed)
    {
      var slot := pool.scratch.windows[window].slot;
      mgr.s := mgr.s.(frames := mgr.s.frames[slot := Patched(mgr.s.frames[slot], start, data)]);
    }

    /** Writes the bytes that fit up to the end of the map: `k` of the tables `s1`. */
    method WriteChunk(addr: nat, data: seq<byte>)
      returns (r: Result<nat>, ghost s1: World, ghost o1: multiset<Slot>, ghost k: nat)
      requires Valid() && data != []
      modifies mgr, pool.entries, pool.occupied, pool.policy, pool.scratch
      ensures Valid() && Grew(old(mgr.s), old(mgr.owed), s1, o1, pid)
      ensures CopyLoss(old(mgr.s), old(mgr.owed), s1, o1, r.Ok?)
      ensures r.Err? ==>
                && mgr.s == s1 && mgr.owed == o1
                && (r.error == ResourceFailed
                    || (r.error == InvalidAddress && !Accessible(old(mgr.s).procs[pid], addr, WRITE)))
      ensures r.Ok? ==>
                && k in s1.procs[pid].maps && s1.procs[pid].maps[k].frameCap in s1.frames
                && s1.procs[pid].maps[k].flags.w
                && k <= addr && addr - k + r.value <= s1.procs[pid].maps[k].size && 0 < r.value <= |data|
                && mgr.s == Written(s1, s1.procs[pid].maps[k].frameCap, addr - k, data[..r.value]) && mgr.owed == o1
                && (AddressesFit(old(mgr.s).procs[pid]) ==>
                      addr + r.value <= USIZE_MAX && AddressesFit(mgr.s.procs[pid]))
    {
      hide CopyLoss, Live, Books, StepOk, StackOnly, GrewBy, Translated, PoolFits, SpaceOk, RefsOk, Lookup, MapsOk,
           Covers, AddressesFit, Patched, Unshared;
      ghost var w, o := mgr.s, mgr.owed;
      LiveParts(w, o, pid);
      k := addr;
      var found := LookupMap(addr, WRITE);
      s1, o1 := mgr.s, mgr.owed;
      if found.Err? {
        return Err(found.error), s1, o1, k;
      }
      var m := found.value;
      k := m.vaddr;
      LiveParts(s1, o1, pid);
      SpaceMapsOk(s1.procs[pid]);
      EntryOf(s1.procs[pid].maps, m.vaddr);
      var start := addr - m.vaddr;
      var chunk := Min(m.size - start, |data|);
      var window := AcquireWindow(m, READ_WRITE);
      CopyLossFailed(w, o, s1, o1, true);
      if window.Err? {
        return Err(window.error), s1, o1, k;
      }
      EndFits(w, o, s1, o1, pid, m);
      WrittenStep(s1, o1, pid, m.frameCap, start, data[..chunk]);
      FitsPatched(pool.entries[..], s1.frames, s1.procs[pid].maps, m.frameCap,
                  Patched(s1.frames[m.frameCap], start, data[..chunk]));
      WriteWindow(window.value, start, data[..chunk]);
      r := Ok(chunk);
    }

    /** Copies `src` to the process: exactly that range of its view changes, and the other processes
        are left alone exactly when no byte of a frame they share changes. */
    method CopyToUser(dst: nat, src: seq<byte>) returns (r: Result<()>, ghost copied: nat)
      requires Valid() && AddressesFit(mgr.s.procs[pid])
      modifies mgr, pool.entries, pool.occupied, pool.policy, pool.scratch
      ensures Valid() && copied <= |src|
      ensures Wrote(old(mgr.s), old(mgr.owed), mgr.s, mgr.owed, pid, dst, src[..copied])
      ensures StepOk(old(mgr.s), old(mgr.owed), mgr.s, mgr.owed, pid) <==> !Leaks(old(mgr.s), pid, dst, src[..copied])
      ensures CopyLoss(old(mgr.s), old(mgr.owed), mgr.s, mgr.owed, r.Ok?)
      ensures r.Ok? ==> copied == |src|
      ensures r.Err? ==> copied < |src| && (r.error == ResourceFailed || r.error == InvalidAddress)
      ensures r == Err(InvalidAddress) ==> dst == 0 || !Accessible(old(mgr.s).procs[pid], dst + copied, WRITE)
    {
      hide CopyLoss, Live, Books, StepOk, Translated, PoolFits, SpaceOk, RefsOk, Covers, AddressesFit, Accessible,
           Wrote;
      ghost var w, o := mgr.s, mgr.owed;
      LiveParts(w, o, pid);
      WroteNothing(w, o, pid, dst);
      NoCopyLoss(w, o, true);
      NoCopyLoss(w, o, false);
      copied := 0;
      assert src[..0] == [];
      if |src| == 0 {
        r := Ok(());
      } else if dst == 0 {
        r := Err(InvalidAddress);
      } else {
        r, copied := WriteChunks(dst, src);
      }
      WroteOthersIff(w, o, mgr.s, mgr.owed, pid, dst, src[..copied]);
    }

    /** Map by map, until all is written or an address cannot be. */
    method WriteChunks(dst: nat, src: seq<byte>) returns (r: Result<()>, ghost copied: nat)
      requires Valid() && AddressesFit(mgr.s.procs[pid])
      modifies mgr, pool.entries, pool.occupied, pool.policy, pool.scratch
      ensures Valid() && copied <= |src|
      ensures Wrote(old(mgr.s), old(mgr.owed), mgr.s, mgr.owed, pid, dst, src[..copied])
      ensures CopyLoss(old(mgr.s), old(mgr.owed), mgr.s, mgr.owed, r.Ok?)
      ensures r.Ok? ==> copied == |src|
      ensures r.Err? ==> copied < |src| && (r.error == ResourceFailed || r.error == InvalidAddress)
      ensures r == Err(InvalidAddress) ==> !Accessible(old(mgr.s).procs[pid], dst + copied, WRITE)
    {
      hide CopyLoss, Live, Books, StepOk, StackOnly, GrewBy, Translated, PoolFits, SpaceOk, RefsOk, Lookup, MapsOk,
           Covers, AddressesFit, Accessible, Wrote, Written;
      ghost var w, o := mgr.s, mgr.owed;
      LiveParts(w, o, pid);
      WroteNothing(w, o, pid, dst);
      NoCopyLoss(w, o, true);
      copied := 0;
      assert src[..0] == [];
      var done, cursor := 0, dst;
      while done < |src|
        invariant done <= |src| && cursor == dst + done && copied == done
        invariant Valid() && pid in mgr.s.procs && AddressesFit(mgr.s.procs[pid])
        invariant CopyLoss(w, o, mgr.s, mgr.owed, true)
        invariant Wrote(w, o, mgr.s, mgr.owed, pid, dst, src[..done])
      {
        ghost var s0, o0 := mgr.s, mgr.owed;
        LiveParts(s0, o0, pid);
        var count, s1, o1, k := WriteChunk(cursor, src[done..]);
        CopyLossThen(w, o, s0, o0, s1, o1, count.Ok?);
        WroteThenGrew(w, o, s0, o0, s1, o1, pid, dst, src[..done]);
        if count.Err? {
          WroteAccessible(w, o, s0, o0, pid, dst, src[..done], cursor, WRITE);
          return Err(count.error), done;
        }
        LiveParts(mgr.s, mgr.owed, pid);
        WrittenLoss(w, o, s1, o1, s1.procs[pid].maps[k].frameCap, cursor - k, src[done..][..count.value]);
        WroteThenWritten(w, o, s1, o1, pid, k, dst, src[..done], src[done..][..count.value]);
        assert src[..done] + src[done..][..count.value] == src[..done + count.value];
        done := done + count.value;
        cursor := SatAdd(cursor, count.value);
        copied := done;
      }
      r := Ok(());
    }

    /** The string at `src`: everything before its first NUL, if that comes within `maxLen` bytes. */
    method StrncpyFromUser(src: nat, maxLen: nat) returns (r: Result<seq<byte>>, ghost seen: seq<byte>)
      requires Valid() && AddressesFit(mgr.s.procs[pid])
      modifies mgr, pool.entries, pool.occupied, pool.policy, pool.scratch
      ensures Valid() && Grew(old(mgr.s), old(mgr.owed), mgr.s, mgr.owed, pid)
      ensures CopyLoss(old(mgr.s), old(mgr.owed), mgr.s, mgr.owed, r.Ok? || r == Err(MessageTooLong))
      ensures BytesAt(mgr.s, pid, src, seen) && 0 !in seen && |seen| <= maxLen
      ensures r.Ok? ==> r.value == seen && |seen| < maxLen && BytesAt(mgr.s, pid, src, seen + [0])
      ensures r == Err(MessageTooLong) <==> maxLen > 0 && |seen| == maxLen
      ensures r == Err(InvalidArgs) ==> maxLen == 0
      ensures r == Err(InvalidAddress) ==> src == 0 || !Accessible(old(mgr.s).procs[pid], src + |seen|, READ)
    {
      hide CopyLoss, Live, Books, StepOk, StackOnly, GrewBy, Translated, PoolFits, SpaceOk, RefsOk, Lookup, MapsOk,
           Covers, BytesAt, AddressesFit, Accessible;
      ghost var w, o := mgr.s, mgr.owed;
      LiveParts(w, o, pid);
      GrewNothingYet(w, o, pid);
      NoCopyLoss(w, o, true);
      NoCopyLoss(w, o, false);
      NoBytes(w, pid, src);
      seen := [];
      if src == 0 {
        return Err(InvalidAddress), [];
      }
      if maxLen == 0 {
        return Err(InvalidArgs), [];
      }
      var out, cursor := [], src;
      while |out| < maxLen
        invariant |out| <= maxLen && 0 !in out && cursor == src + |out| && seen == out
        invariant Valid() && Grew(w, o, mgr.s, mgr.owed, pid) && AddressesFit(mgr.s.procs[pid])
        invariant CopyLoss(w, o, mgr.s, mgr.owed, true)
        invariant BytesAt(mgr.s, pid, src, out)
        decreases maxLen - |out|
      {
        ghost var s1, o1 := mgr.s, mgr.owed;
        var chunk := ReadChunk(cursor, maxLen - |out|);
        GrewKeepsBytes(s1, o1, mgr.s, mgr.owed, pid, src, out);
        CopyLossThen(w, o, s1, o1, mgr.s, mgr.owed, chunk.Ok?);
        GrewTransitive(w, o, s1, o1, mgr.s, mgr.owed, pid);
        if chunk.Err? {
          GrewAccessible(w, o, s1, o1, pid, cursor, READ);
          return Err(chunk.error), out;
        }
        BytesJoin(mgr.s, pid, src, out, chunk.value);
        var text, nul := ScanNul(chunk.value);
        BytesPrefix(mgr.s, pid, src, out + chunk.value, |out| + |text|);
        assert (out + chunk.value)[..|out| + |text|] == out + text;
        if nul {
          BytesPrefix(mgr.s, pid, src, out + chunk.value, |out| + |text| + 1);
          assert (out + chunk.value)[..|out| + |text| + 1] == out + text + [0];
          return Ok(out + text), out + text;
        }
        out := out + text;
        cursor := SatAdd(cursor, |text|);
        seen := out;
      }
      r := Err(MessageTooLong);
    }
  }

  method CopyChunk(dst: array<byte>, at: nat, data: seq<byte>)
    requires at + |data| <= dst.Length
    modifies dst
    ensures dst[..at + |data|] == old(dst[..at]) + data
    ensures dst[at + |data|..] == old(dst[at + |data|..])
  {
    forall i | 0 <= i < |data| {
      dst[at + i] := data[i];
    }
  }

  /** The bytes before the first NUL, and whether there is one. */
  method ScanNul(bytes: seq<byte>) returns (text: seq<byte>, nul: bool)
    ensures |text| <= |bytes| && text == bytes[..|text|] && 0 !in text
    ensures nul <==> |text| < |bytes|
    ensures nul ==> bytes[|text|] == 0
  {
    text := [];
    for i := 0 to |bytes|
      invariant text == bytes[..i] && 0 !in text
    {
      if bytes[i] == 0 {
        return text, true;
      }
      text := text + [bytes[i]];
    }
    nul := false;
  }

  // ----- A call: one session, its windows gone at the end -----

  method CopyFrom(mgr: ApeManager, pid: Pid, space: ScratchSpace, src: nat, dst: array<byte>)
    returns (r: Result<()>, ghost copied: nat)
    requires Live(mgr.s, mgr.owed, pid) && Translated(mgr.s) && AddressesFit(mgr.s.procs[pid])
    modifies mgr, space, dst
    ensures Grew(old(mgr.s), old(mgr.owed), mgr.s, mgr.owed, pid) && Translated(mgr.s) && copied <= dst.Length
    ensures CopyLoss(old(mgr.s), old(mgr.owed), mgr.s, mgr.owed, r.Ok?)
    ensures BytesAt(mgr.s, pid, src, dst[..copied]) && dst[copied..] == old(dst[copied..])
    ensures r.Ok? ==> copied == dst.Length
    ensures r == Err(InvalidAddress) ==> src == 0 || !Accessible(old(mgr.s).procs[pid], src + copied, READ)
    ensures space.windows == old(space.windows)
  {
    hide CopyLoss, Live, Books, StepOk, StackOnly, GrewBy, Translated, PoolFits, Covers, BytesAt, AddressesFit,
         Accessible, Lookup;
    var pool := new SharedPagePool(space);
    var session := new UserAccessSession(mgr, pid, pool);
    r, copied := session.CopyFromUser(src, dst);
    session.Finish();
  }

  method CopyTo(mgr: ApeManager, pid: Pid, space: ScratchSpace, dst: nat, src: seq<byte>)
    returns (r: Result<()>, ghost copied: nat)
    requires Live(mgr.s, mgr.owed, pid) && Translated(mgr.s) && AddressesFit(mgr.s.procs[pid])
    modifies mgr, space
    ensures copied <= |src|
    ensures Wrote(old(mgr.s), old(mgr.owed), mgr.s, mgr.owed, pid, dst, src[..copied])
    ensures StepOk(old(mgr.s), old(mgr.owed), mgr.s, mgr.owed, pid) <==> !Leaks(old(mgr.s), pid, dst, src[..copied])
    ensures CopyLoss(old(mgr.s), old(mgr.owed), mgr.s, mgr.owed, r.Ok?)
    ensures r.Ok? <==> copied == |src|
    ensures r == Err(InvalidAddress) ==> dst == 0 || !Accessible(old(mgr.s).procs[pid], dst + copied, WRITE)
    ensures space.windows == old(space.windows)
  {
    hide CopyLoss, Live, Books, StepOk, StackOnly, GrewBy, Translated, PoolFits, Covers, AddressesFit, Accessible,
         Lookup, Wrote;
    var pool := new SharedPagePool(space);
    var session := new UserAccessSession(mgr, pid, pool);
    r, copied := session.CopyToUser(dst, src);
    session.Finish();
  }
}
