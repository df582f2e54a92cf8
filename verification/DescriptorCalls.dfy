/** The descriptor calls, as methods over the tables of all processes. */
module DescriptorCalls {
  import opened Types
  import opened Descriptors

  class FileSystemState {
    var files: FileTables
    /** Slots of the endpoints open at a file system. */
    var endpoints: set<Slot>

    /** Endpoints nothing will ever close: no descriptor refers to them. */
    ghost var leaked: set<Slot>

    ghost predicate Valid()
      reads this
    {
      leaked <= endpoints && EndpointsOk(files, endpoints - leaked) && AllFilesOk(files)
    }

    /** The endpoints `loose` are open for descriptors yet to be entered. */
    ghost predicate ValidBut(loose: set<Slot>)
      reads this
    {
      && leaked <= endpoints
      && (forall slot: Slot :: slot in endpoints - leaked <==> Referenced(files, slot) || slot in loose)
      && AllFilesOk(files)
    }

    constructor ()
      ensures Valid() && files == map[] && endpoints == {} && leaked == {}
    {
      files, endpoints, leaked := map[], {}, {};
    }

    method OpenEndpoint() returns (r: Result<Slot>)
      modifies this`endpoints
      ensures r.Ok? ==> r.value !in old(endpoints) && endpoints == old(endpoints) + {r.value}
      ensures r.Err? ==> r.error == ResourceFailed && endpoints == old(endpoints)
    {
      var fails: bool := *;
      if fails {
        return Err(ResourceFailed);
      }
      var slot := FreshSlot(endpoints);
      endpoints := endpoints + {slot};
      r := Ok(slot);
    }

    /** Whether some descriptor of some process refers to the slot. */
    method StillShared(slot: Slot) returns (shared: bool)
      ensures shared <==> Referenced(files, slot)
    {
      var left := files.Keys;
      while left != {}
        invariant left <= files.Keys
        invariant forall p | p in files && p !in left :: !Refers(files[p].fds, slot)
        decreases |left|
      {
        var p :| p in left;
        if Refers(files[p].fds, slot) {
          return true;
        }
        left := left - {p};
      }
      shared := false;
    }

    /** The endpoint is closed with the last descriptor that refers to it, and not before. */
    method Close(pid: Pid, fd: nat) returns (r: Result<()>)
      requires Valid()
      modifies this`files, this`endpoints
      ensures Valid()
      ensures r.Ok? <==> pid in old(files) && fd in old(files)[pid].fds
      ensures r.Err? ==>
                files == old(files) && endpoints == old(endpoints) && (r.error == NotFound || r.error == InvalidSlot)
      ensures r.Ok? ==>
                && files == old(files)[pid := WithoutFd(old(files)[pid], fd)]
                && endpoints == if Referenced(files, old(files)[pid].fds[fd]) then old(endpoints)
                                else old(endpoints) - {old(files)[pid].fds[fd]}
    {
      hide Refers, Referenced, FilesOk, AllFilesOk;
      if pid !in files {
        return Err(NotFound);
      }
      if fd !in files[pid].fds {
        AbsentFd(files, pid, fd);
        return Err(InvalidSlot);
      }
      var slot := files[pid].fds[fd];
      ReferencedDrop(files, pid, fd);
      DropOk(files, pid, fd);
      files := files[pid := WithoutFd(files[pid], fd)];
      var shared := StillShared(slot);
      if !shared {
        endpoints := endpoints - {slot};
      }
      r := Ok(());
    }

    /** Enters a handle. One that stood there is dropped without closing its endpoint. */
    method Insert(pid: Pid, fd: nat, slot: Slot, path: Option<string>, cloexec: Option<bool>, nextFd: nat,
                  ghost loose: set<Slot>)
      requires ValidBut(loose) && pid in files && slot in endpoints - leaked && fd <= U32_MAX && nextFd <= U32_MAX
      requires forall s | s in loose :: !Referenced(files, s)
      modifies this`files, this`leaked
      ensures ValidBut(loose - {slot})
      ensures files == old(files)[pid := FdEntered(old(files)[pid], fd, slot, path, cloexec, nextFd)]
      ensures leaked == old(leaked) + DroppedEnd(old(files)[pid].fds, fd, files)
      ensures forall s | s in loose - {slot} :: !Referenced(files, s)
    {
      hide Refers, Referenced, FilesOk, AllFilesOk;
      var f := FdEntered(files[pid], fd, slot, path, cloexec, nextFd);
      ReferencedEnter(files, pid, f, fd, slot);
      EnteredOk(files, pid, fd, slot, path, cloexec, nextFd);
      OldReferenced(files, pid, fd);
      ghost var lost := DroppedEnd(files[pid].fds, fd, files[pid := f]);
      InsertedOk(files, pid, f, fd, slot, endpoints, leaked, loose);
      files := files[pid := f];
      leaked := leaked + lost;
    }

    /** A new endpoint under the next descriptor number. When that number is taken, as after a dup3
        to the greatest one, the handle there is dropped, and its endpoint leaks exactly when nothing
        else refers to it. The number after the greatest is 0. */
    method Open(pid: Pid, path: string) returns (r: Result<nat>)
      requires Valid() && pid in files
      modifies this
      ensures Valid()
      ensures r.Ok? ==>
                && r.value == old(files)[pid].nextFd
                && leaked == old(leaked) + DroppedEnd(old(files)[pid].fds, r.value, files)
                && exists slot | slot !in old(endpoints) ::
                     && endpoints == old(endpoints) + {slot}
                     && files == old(files)[pid := FdEntered(old(files)[pid], r.value, slot, Some(path), None,
                                                             (r.value + 1) % (U32_MAX + 1))]
      ensures r.Err? ==> files == old(files) && endpoints == old(endpoints) && leaked == old(leaked)
    {
      hide Refers, Referenced, FilesOk, AllFilesOk;
      NextFdOk(files, pid);
      var slot := OpenEndpoint();
      if slot.Err? {
        return Err(slot.error);
      }
      var fd := files[pid].nextFd;
      Insert(pid, fd, slot.value, Some(path), None, (fd + 1) % (U32_MAX + 1), {slot.value});
      r := Ok(fd);
    }

    /** The first free number from `from` on. */
    method FindFree(fds: map<nat, Slot>, from: nat) returns (r: Option<nat>)
      requires from <= U32_MAX
      ensures r.Some? ==> IsFree(fds, from, r.value)
      ensures r.None? ==> NoneFree(fds, from)
    {
      var fd := from;
      while fd in fds
        invariant from <= fd <= U32_MAX && forall g | from <= g < fd :: g in fds
        decreases U32_MAX - fd
      {
        if fd == U32_MAX {
          return None;
        }
        fd := fd + 1;
      }
      r := Some(fd);
    }

    /** F_DUPFD: the least free descriptor from `minFd` on. */
    method DupFd(pid: Pid, fd: nat, minFd: nat, cloexec: bool) returns (r: Result<nat>)
      requires Valid()
      modifies this`files, this`leaked
      ensures Valid() && leaked == old(leaked)
      ensures r.Ok? ==>
                && pid in old(files) && fd in old(files)[pid].fds && IsFree(old(files)[pid].fds, minFd, r.value)
                && files == old(files)[pid := FdEntered(old(files)[pid], r.value, old(files)[pid].fds[fd],
                                                        PathOf(old(files)[pid], fd), Some(cloexec),
                                                        Max(old(files)[pid].nextFd, SatNext(r.value)))]
      ensures r.Err? ==> files == old(files)
      ensures r.Err? <==>
                pid !in old(files) || fd !in old(files)[pid].fds || minFd > U32_MAX
                || NoneFree(old(files)[pid].fds, minFd)
    {
      hide Refers, Referenced, FilesOk, AllFilesOk;
      if pid !in files {
        return Err(NotFound);
      }
      var f := files[pid];
      if fd !in f.fds {
        return Err(InvalidSlot);
      }
      if minFd > U32_MAX {
        return Err(InvalidArgs);
      }
      var newFd := FindFree(f.fds, minFd);
      if newFd.None? {
        return Err(OutOfMemory);
      }
      SlotOpen(files, endpoints - leaked, pid, fd);
      NextFdOk(files, pid);
      Insert(pid, newFd.value, f.fds[fd], PathOf(f, fd), Some(cloexec),
             if f.nextFd <= newFd.value then SatNext(newFd.value) else f.nextFd, {});
      NothingDropped(f.fds, newFd.value, files);
      r := Ok(newFd.value);
    }

    /** dup3: `newFd` now stands for what `oldFd` stands for, whatever it was before. */
    method Dup3(pid: Pid, oldFd: nat, newFd: nat, cloexec: bool, otherFlags: bool) returns (r: Result<nat>)
      requires Valid()
      modifies this
      ensures Valid() && leaked == old(leaked)
      ensures r.Err? ==> files == old(files) && endpoints == old(endpoints)
      ensures r.Ok? <==>
                && oldFd <= U32_MAX && newFd <= U32_MAX && oldFd != newFd && !otherFlags
                && pid in old(files) && oldFd in old(files)[pid].fds
      ensures r.Ok? ==>
                && r.value == newFd && pid in files
                && (forall g | g != newFd :: (g in files[pid].fds <==> g in old(files)[pid].fds)
                                             && (g in files[pid].fds ==> files[pid].fds[g] == old(files)[pid].fds[g]))
                && newFd in files[pid].fds && files[pid].fds[newFd] == old(files)[pid].fds[oldFd]
                && files[pid].cloexec == old(files)[pid].cloexec[newFd := cloexec]
                && files[pid].nextFd == Max(old(files)[pid].nextFd, SatNext(newFd))
                && files.Keys == old(files).Keys && (forall q | q in files && q != pid :: files[q] == old(files)[q])
    {
      hide Refers, Referenced, FilesOk, AllFilesOk;
      if oldFd > U32_MAX || newFd > U32_MAX {
        return Err(InvalidSlot);
      }
      if oldFd == newFd || otherFlags {
        return Err(InvalidArgs);
      }
      if pid !in files {
        return Err(NotFound);
      }
      if oldFd !in files[pid].fds {
        return Err(InvalidSlot);
      }
      var slot, path := files[pid].fds[oldFd], PathOf(files[pid], oldFd);
      if newFd in files[pid].fds {
        var closed := Close(pid, newFd);
      }
      SlotOpen(files, endpoints - leaked, pid, oldFd);
      NextFdOk(files, pid);
      var next := files[pid].nextFd;
      ghost var fds := files[pid].fds;
      Insert(pid, newFd, slot, path, Some(cloexec), if next <= newFd then SatNext(newFd) else next, {});
      NothingDropped(fds, newFd, files);
      r := Ok(newFd);
    }

    /** pipe2. Once both endpoints are open, a failure leaves descriptors and endpoints as they were
        exactly when there were two free numbers that fit the caller's integers: the conversion of
        the numbers comes after the descriptors are entered, and its failure takes nothing back. */
    method Pipe2(pid: Pid, cloexec: bool) returns (r: Result<(nat, nat)>, ghost ready: bool)
      requires Valid() && pid in files
      modifies this
      ensures Valid() && files.Keys == old(files).Keys
              && (forall q | q in files && q != pid :: files[q] == old(files)[q])
      ensures r.Ok? ==>
                && ready && IsPair(old(files)[pid], r.value) && r.value.1 <= I32_MAX && leaked == old(leaked)
                && exists reader, writer | reader !in old(endpoints) && writer !in old(endpoints) && reader != writer ::
                     && endpoints == old(endpoints) + {reader, writer}
                     && files[pid] == WithPair(old(files)[pid], r.value.0, reader, r.value.1, writer, cloexec)
      ensures r.Err? ==>
                (Unpiped(old(files)[pid], files[pid]) && endpoints == old(endpoints) <==>
                   !ready || HasSmallPair(old(files)[pid]))
      ensures files[pid].fds == old(files)[pid].fds
              || exists pair: (nat, nat) ::
                   IsPair(old(files)[pid], pair) && files[pid].fds.Keys == old(files)[pid].fds.Keys + {pair.0, pair.1}
                                            && files[pid].nextFd == SatNext(pair.1)
      ensures leaked == old(leaked) || (ready && forall pair: (nat, nat) :: !IsPair(old(files)[pid], pair))
      ensures files[pid].nextFd == old(files)[pid].nextFd
              || exists pair: (nat, nat) :: IsPair(old(files)[pid], pair) && files[pid].nextFd == SatNext(pair.1)
    {
      hide Refers, Referenced, FilesOk, AllFilesOk, IsFree, NoneFree;
      ready := false;
      NextFdOk(files, pid);
      ghost var files0, endpoints0 := files, endpoints;
      var reader := OpenEndpoint();
      if reader.Err? {
        return Err(reader.error), false;
      }
      var writer := OpenEndpoint();
      if writer.Err? {
        endpoints := endpoints - {reader.value};
        assert endpoints == endpoints0;
        return Err(writer.error), false;
      }
      ready := true;
      var pair := FindPair(files[pid]);
      if pair.None? {
        NoPairs(files[pid]);
        leaked := leaked + {reader.value, writer.value};
        assert endpoints - leaked == endpoints0 - old(leaked);
        return Err(OutOfMemory), true;
      }
      var (readFd, writeFd) := pair.value;
      PairFree(files[pid], pair.value);
      EnterPair(pid, readFd, reader.value, writeFd, writer.value, cloexec);
      SmallPair(files0[pid], pair.value);
      if readFd > I32_MAX || writeFd > I32_MAX {
        return Err(OutOfMemory), true;
      }
      var copied: bool := *;
      if !copied {
        DropPair(pid, readFd, writeFd, reader.value, writer.value, cloexec, files0, endpoints0);
        return Err(InvalidAddress), true;
      }
      r := Ok((readFd, writeFd));
    }

    method FindPair(f: Files) returns (pair: Option<(nat, nat)>)
      requires f.nextFd <= U32_MAX
      ensures pair.Some? ==> IsPair(f, pair.value)
      ensures pair.None? ==> forall p: (nat, nat) :: !IsPair(f, p)
    {
      var readFd := FindFree(f.fds, f.nextFd);
      if readFd.None? || readFd.value == U32_MAX {
        return None;
      }
      var writeFd := FindFree(f.fds, readFd.value + 1);
      if writeFd.None? {
        return None;
      }
      pair := Some((readFd.value, writeFd.value));
    }

    method EnterPair(pid: Pid, readFd: nat, reader: Slot, writeFd: nat, writer: Slot, cloexec: bool)
      requires ValidBut({reader, writer}) && reader in endpoints - leaked && writer in endpoints - leaked
               && reader != writer
      requires pid in files && readFd != writeFd && readFd !in files[pid].fds && writeFd !in files[pid].fds
      requires readFd <= U32_MAX && writeFd <= U32_MAX && !Referenced(files, reader) && !Referenced(files, writer)
      modifies this`files, this`leaked
      ensures Valid() && leaked == old(leaked)
      ensures files == old(files)[pid := WithPair(old(files)[pid], readFd, reader, writeFd, writer, cloexec)]
    {
      hide Refers, Referenced, FilesOk, AllFilesOk;
      NextFdOk(files, pid);
      ghost var f := files[pid];
      Insert(pid, readFd, reader, None, Some(cloexec), files[pid].nextFd, {reader, writer});
      NothingDropped(f.fds, readFd, files);
      assert {reader, writer} - {reader} == {writer};
      Insert(pid, writeFd, writer, None, Some(cloexec), SatNext(writeFd), {writer});
      NothingDropped(f.fds[readFd := reader], writeFd, files);
    }

    /** Takes both ends out again, and closes their endpoints. */
    method DropPair(pid: Pid, readFd: nat, writeFd: nat, reader: Slot, writer: Slot, cloexec: bool,
                    ghost files0: FileTables, ghost endpoints0: set<Slot>)
      requires leaked <= endpoints0 && EndpointsOk(files0, endpoints0 - leaked) && AllFilesOk(files0) && pid in files0
      requires IsPair(files0[pid], (readFd, writeFd)) && writeFd <= U32_MAX
      requires reader !in endpoints0 && writer !in endpoints0 && endpoints == endpoints0 + {reader, writer}
      requires files == files0[pid := WithPair(files0[pid], readFd, reader, writeFd, writer, cloexec)]
      modifies this`files, this`endpoints
      ensures Valid() && endpoints == endpoints0 && files == files0[pid := files0[pid].(nextFd := SatNext(writeFd))]
    {
      hide Refers, Referenced, FilesOk, AllFilesOk, EndpointsOk;
      PairFree(files0[pid], (readFd, writeFd));
      FreeFds(files0, pid, readFd);
      FreeFds(files0, pid, writeFd);
      var f := files[pid];
      PairGone(files0[pid], readFd, reader, writeFd, writer, cloexec);
      UpdateTwice(files0, pid, f, files0[pid].(nextFd := SatNext(writeFd)));
      RolledBack(files0, endpoints0 - leaked, pid, files0[pid].(nextFd := SatNext(writeFd)));
      files := files[pid := f.(fds := Remove(Remove(f.fds, readFd), writeFd),
                               cloexec := Remove(Remove(f.cloexec, readFd), writeFd))];
      endpoints := endpoints - {reader} - {writer};
      assert endpoints == endpoints0;
    }

    /** The child has the parent's descriptors. */
    method Fork(parent: Pid, child: Pid)
      requires Valid() && parent in files && child !in files
      modifies this`files
      ensures Valid() && files == old(files)[child := old(files)[parent]]
    {
      hide Refers, Referenced, FilesOk;
      ReferencedFork(files, parent, child);
      files := files[child := files[parent]];
    }

    /** A process that starts without descriptors. */
    method AddProcess(pid: Pid, firstFd: nat)
      requires Valid() && pid !in files && firstFd <= U32_MAX
      modifies this`files
      ensures Valid() && files == old(files)[pid := Files(map[], map[], map[], firstFd)]
    {
      hide Refers, Referenced;
      files := files[pid := Files(map[], map[], map[], firstFd)];
      assert Remove(files, pid) == old(files);
      ReferencedGone(files, pid);
    }

    /** On exec, exactly the descriptors marked close-on-exec are closed. */
    method CloseOnExec(pid: Pid)
      requires Valid() && pid in files
      modifies this
      ensures Valid() && leaked == old(leaked) && Others(old(files), files, pid)
      ensures Kept(old(files)[pid], files[pid], set fd | fd in old(files)[pid].cloexec && old(files)[pid].cloexec[fd])
    {
      hide Refers, Referenced, FilesOk, AllFilesOk, EndpointsOk;
      var marked := set fd | fd in files[pid].cloexec && files[pid].cloexec[fd];
      MarkedOpen(files, pid);
      CloseAll(pid, marked);
    }

    /** Exit: every descriptor is closed, and the process is gone. */
    method Exit(pid: Pid)
      requires Valid() && pid in files
      modifies this
      ensures Valid() && leaked == old(leaked) && files == Remove(old(files), pid)
    {
      hide Refers, Referenced, FilesOk, AllFilesOk;
      CloseAll(pid, files[pid].fds.Keys);
      NothingKept(old(files)[pid], files[pid]);
      ReferencedGone(files, pid);
      RestOk(files, pid);
      files := Remove(files, pid);
    }

    method CloseAll(pid: Pid, fds: set<nat>)
      requires Valid() && pid in files && fds <= files[pid].fds.Keys
      modifies this
      ensures Valid() && leaked == old(leaked) && Others(old(files), files, pid)
      ensures Kept(old(files)[pid], files[pid], fds)
    {
      hide Refers, Referenced, FilesOk, AllFilesOk, EndpointsOk, Kept, WithoutFd;
      NothingGone(files[pid]);
      assert fds - fds == {};
      var left := fds;
      while left != {}
        invariant Valid() && leaked == old(leaked) && left <= fds && Others(old(files), files, pid)
        invariant Kept(old(files)[pid], files[pid], fds - left)
        decreases |left|
      {
        var fd :| fd in left;
        KeptMore(old(files)[pid], files[pid], fds, left, fd);
        var closed := Close(pid, fd);
        left := left - {fd};
      }
      assert fds - left == fds;
    }
  }

  /** What is left when the descriptors `gone` are closed. */
  ghost predicate Kept(f: Files, f': Files, gone: set<nat>) {
    f'.fds == f.fds - gone && f'.paths == f.paths - gone && f'.cloexec == f.cloexec - gone && f'.nextFd == f.nextFd
  }

  ghost predicate Others(files: FileTables, files': FileTables, pid: Pid) {
    && pid in files && pid in files' && files'.Keys == files.Keys
    && forall q | q in files && q != pid :: files'[q] == files[q]
  }

  lemma NothingGone(f: Files)
    ensures Kept(f, f, {})
  {
  }

  lemma KeptMore(f: Files, f': Files, fds: set<nat>, left: set<nat>, fd: nat)
    requires Kept(f, f', fds - left) && fds <= f.fds.Keys && left <= fds && fd in left
    ensures fd in f'.fds && Kept(f, WithoutFd(f', fd), fds - (left - {fd}))
  {
    assert fds - (left - {fd}) == (fds - left) + {fd};
  }

  lemma NothingKept(f: Files, f': Files)
    requires Kept(f, f', f.fds.Keys)
    ensures f'.fds == map[]
  {
  }

  lemma MarkedOpen(files: FileTables, pid: Pid)
    requires AllFilesOk(files) && pid in files
    ensures files[pid].cloexec.Keys <= files[pid].fds.Keys
  {
    assert FilesOk(files[pid]);
  }

  lemma RestOk(files: FileTables, pid: Pid)
    requires AllFilesOk(files)
    ensures AllFilesOk(Remove(files, pid))
  {
  }

  lemma RolledBack(files: FileTables, endpoints: set<Slot>, pid: Pid, f: Files)
    requires EndpointsOk(files, endpoints) && AllFilesOk(files) && pid in files
    requires f.fds == files[pid].fds && f.cloexec == files[pid].cloexec && f.paths == files[pid].paths
    requires f.nextFd <= U32_MAX
    ensures EndpointsOk(files[pid := f], endpoints) && AllFilesOk(files[pid := f])
  {
    hide Referenced, Refers;
    SameSlots(files, pid, f);
    assert FilesOk(files[pid]);
    EachOk(files, pid, f);
  }

  function PathOf(f: Files, fd: nat): Option<string> { if fd in f.paths then Some(f.paths[fd]) else None }

  function FdEntered(f: Files, fd: nat, slot: Slot, path: Option<string>, cloexec: Option<bool>, nextFd: nat): Files {
    Files(f.fds[fd := slot],
          if path.Some? then f.paths[fd := path.value] else f.paths,
          if cloexec.Some? then f.cloexec[fd := cloexec.value] else f.cloexec,
          nextFd)
  }

  function WithPair(f: Files, readFd: nat, reader: Slot, writeFd: nat, writer: Slot, cloexec: bool): Files {
    f.(fds := f.fds[readFd := reader][writeFd := writer], cloexec := f.cloexec[readFd := cloexec][writeFd := cloexec],
       nextFd := SatNext(writeFd))
  }

  /** The endpoint of the handle dropped under `fd`, when nothing refers to it any more. */
  ghost function DroppedEnd(fds: map<nat, Slot>, fd: nat, files: FileTables): set<Slot> {
    if fd in fds && !Referenced(files, fds[fd]) then {fds[fd]} else {}
  }

  lemma NothingDropped(fds: map<nat, Slot>, fd: nat, files: FileTables)
    requires fd !in fds
    ensures DroppedEnd(fds, fd, files) == {}
  {
  }

  ghost predicate Unpiped(f: Files, f': Files) {
    f'.fds == f.fds && f'.paths == f.paths && f'.cloexec == f.cloexec
  }

  lemma PairFree(f: Files, pair: (nat, nat))
    requires IsPair(f, pair)
    ensures pair.0 !in f.fds && pair.1 !in f.fds && pair.0 != pair.1 && pair.0 <= U32_MAX && pair.1 <= U32_MAX
            && pair.0 < pair.1
  {
  }

  lemma SmallPair(f: Files, pair: (nat, nat))
    requires IsPair(f, pair)
    ensures HasSmallPair(f) <==> pair.1 <= I32_MAX
    ensures forall p | IsPair(f, p) :: p == pair
  {
    forall p | IsPair(f, p)
      ensures p == pair
    {
      PairUnique(f, p, pair);
    }
  }

  lemma NoPairs(f: Files)
    requires forall p: (nat, nat) :: !IsPair(f, p)
    ensures !HasSmallPair(f)
  {
  }

  lemma PairGone(f0: Files, readFd: nat, reader: Slot, writeFd: nat, writer: Slot, cloexec: bool)
    requires readFd !in f0.fds && writeFd !in f0.fds && readFd !in f0.cloexec && writeFd !in f0.cloexec
    ensures var f := WithPair(f0, readFd, reader, writeFd, writer, cloexec);
            f.(fds := Remove(Remove(f.fds, readFd), writeFd), cloexec := Remove(Remove(f.cloexec, readFd), writeFd))
            == f0.(nextFd := SatNext(writeFd))
  {
  }

  lemma InsertedOk(files: FileTables, pid: Pid, f: Files, fd: nat, slot: Slot, endpoints: set<Slot>, leaked: set<Slot>,
                   loose: set<Slot>)
    requires pid in files && f.fds == files[pid].fds[fd := slot] && leaked <= endpoints && slot in endpoints - leaked
    requires forall s: Slot :: s in endpoints - leaked <==> Referenced(files, s) || s in loose
    requires forall s | s in loose :: !Referenced(files, s)
    ensures var leaked' := leaked + DroppedEnd(files[pid].fds, fd, files[pid := f]);
            && leaked' <= endpoints
            && forall s: Slot :: s in endpoints - leaked' <==> Referenced(files[pid := f], s) || s in loose - {slot}
  {
    hide Refers;
    ReferencedEnter(files, pid, f, fd, slot);
    OldReferenced(files, pid, fd);
    var files' := files[pid := f];
    var leaked' := leaked + DroppedEnd(files[pid].fds, fd, files');
    forall s: Slot
      ensures s in endpoints - leaked' <==> Referenced(files', s) || s in loose - {slot}
    {
      if fd in files[pid].fds && files[pid].fds[fd] == s {
        assert s in endpoints - leaked && s !in loose;
      } else {
        assert Referenced(files', s) <==> Referenced(files, s) || s == slot;
      }
    }
  }

  lemma OldReferenced(files: FileTables, pid: Pid, fd: nat)
    requires pid in files
    ensures fd in files[pid].fds ==> Referenced(files, files[pid].fds[fd])
  {
    if fd in files[pid].fds {
      assert Refers(files[pid].fds, files[pid].fds[fd]);
    }
  }

  lemma EnteredOk(files: FileTables, pid: Pid, fd: nat, slot: Slot, path: Option<string>, cloexec: Option<bool>,
                  nextFd: nat)
    requires pid in files && AllFilesOk(files)
    requires fd <= U32_MAX && nextFd <= U32_MAX
    ensures AllFilesOk(files[pid := FdEntered(files[pid], fd, slot, path, cloexec, nextFd)])
  {
    assert FilesOk(files[pid]);
    EachOk(files, pid, FdEntered(files[pid], fd, slot, path, cloexec, nextFd));
  }

  lemma EachOk(files: FileTables, pid: Pid, f: Files)
    requires AllFilesOk(files) && FilesOk(f)
    ensures AllFilesOk(files[pid := f])
  {
    hide FilesOk;
  }

  lemma AbsentFd(files: FileTables, pid: Pid, fd: nat)
    requires AllFilesOk(files) && pid in files && fd !in files[pid].fds
    ensures WithoutFd(files[pid], fd) == files[pid]
  {
    assert FilesOk(files[pid]);
  }

  lemma DropOk(files: FileTables, pid: Pid, fd: nat)
    requires AllFilesOk(files) && pid in files
    ensures AllFilesOk(files[pid := WithoutFd(files[pid], fd)])
  {
    assert FilesOk(files[pid]);
  }

  lemma SlotOpen(files: FileTables, endpoints: set<Slot>, pid: Pid, fd: nat)
    requires EndpointsOk(files, endpoints) && pid in files && fd in files[pid].fds
    ensures files[pid].fds[fd] in endpoints
  {
    assert Refers(files[pid].fds, files[pid].fds[fd]);
    assert Referenced(files, files[pid].fds[fd]);
  }

  lemma NextFdOk(files: FileTables, pid: Pid)
    requires AllFilesOk(files) && pid in files
    ensures files[pid].nextFd <= U32_MAX
  {
    assert FilesOk(files[pid]);
  }

  lemma FreeFds(files: FileTables, pid: Pid, fd: nat)
    requires AllFilesOk(files) && pid in files && fd !in files[pid].fds
    ensures fd !in files[pid].paths && fd !in files[pid].cloexec
  {
    assert FilesOk(files[pid]);
  }

  // ----- Runs -----

  datatype Call =
    | CallStart(newPid: Pid, firstFd: nat)
    | CallOpen(opener: Pid, path: string)
    | CallClose(closer: Pid, fd: nat)
    | CallDup(duper: Pid, source: nat, min: nat, cloexec: bool)
    | CallDup3(user: Pid, from: nat, to: nat, flag: bool, otherFlags: bool)
    | CallPipe(piper: Pid, both: bool)
    | CallFork(parent: Pid, child: Pid)
    | CallExec(image: Pid)
    | CallExit(gone: Pid)

  /** The descriptor numbers a call names lie below a bound. */
  predicate Names(call: Call, bound: nat) {
    match call
    case CallStart(_, firstFd) => firstFd < bound
    case CallDup(_, _, min, _) => min < bound
    case CallDup3(_, _, to, _, _) => to < bound
    case _ => true
  }

  /** One call. While the numbers stay small nothing leaks. */
  method Step(state: FileSystemState, call: Call, ghost bound: nat)
    requires state.Valid()
    modifies state
    ensures state.Valid()
    ensures AllBelow(old(state.files), bound) && Names(call, bound) && bound + 2 <= I32_MAX ==>
              state.leaked == old(state.leaked) && AllBelow(state.files, bound + 2)
  {
    hide FileSystemState.Valid, FilesOk, IsPair, Referenced, Refers, HasSmallPair;
    ghost var small := AllBelow(state.files, bound) && Names(call, bound) && bound + 2 <= I32_MAX;
    ghost var files0 := state.files;
    match call
    case CallStart(pid, firstFd) =>
      if pid !in state.files && firstFd <= U32_MAX {
        state.AddProcess(pid, firstFd);
      }
    case CallOpen(pid, path) =>
      if pid in state.files {
        var r := state.Open(pid, path);
      }
    case CallClose(pid, fd) =>
      var r := state.Close(pid, fd);
    case CallDup(pid, fd, min, cloexec) =>
      var r := state.DupFd(pid, fd, min, cloexec);
      if small && r.Ok? {
        BelowEntered(files0[pid], bound, min, r.value, files0[pid].fds[fd], PathOf(files0[pid], fd), Some(cloexec));
      }
    case CallDup3(pid, from, to, cloexec, otherFlags) =>
      var r := state.Dup3(pid, from, to, cloexec, otherFlags);
    case CallPipe(pid, cloexec) =>
      if pid in state.files {
        var r;
        ghost var ready;
        r, ready := state.Pipe2(pid, cloexec);
        if small {
          BelowPair(files0[pid], bound);
          SmallPair(files0[pid], (files0[pid].nextFd, files0[pid].nextFd + 1));
        }
      }
    case CallFork(parent, child) =>
      if parent in state.files && child !in state.files {
        state.Fork(parent, child);
      }
    case CallExec(pid) =>
      if pid in state.files {
        state.CloseOnExec(pid);
      }
    case CallExit(pid) =>
      if pid in state.files {
        state.Exit(pid);
      }
  }

  /** Over every run the open endpoints are exactly those some descriptor refers to and those leaked;
      and nothing leaks as long as no number comes near the limit. */
  method RunAll(state: FileSystemState, calls: seq<Call>, ghost bound: nat)
    requires state.Valid()
    modifies state
    ensures state.Valid()
    ensures AllBelow(old(state.files), bound) && (forall i | 0 <= i < |calls| :: Names(calls[i], bound))
            && bound + 2 * |calls| <= I32_MAX
            ==> state.leaked == old(state.leaked)
  {
    hide FileSystemState.Valid, AllBelow, Names;
    ghost var small := AllBelow(state.files, bound) && (forall i | 0 <= i < |calls| :: Names(calls[i], bound))
              && bound + 2 * |calls| <= I32_MAX;
    for i := 0 to |calls|
      invariant state.Valid()
      invariant small ==> state.leaked == old(state.leaked) && AllBelow(state.files, bound + 2 * i)
    {
      if small {
        NamesMore(calls[i], bound, bound + 2 * i);
      }
      Step(state, calls[i], bound + 2 * i);
    }
  }

  /** A descriptor entered at the least free number keeps the numbers small. */
  lemma BelowEntered(f: Files, bound: nat, from: nat, fd: nat, slot: Slot, path: Option<string>, cloexec: Option<bool>)
    requires Below(f, bound) && from <= bound && IsFree(f.fds, from, fd) && bound + 2 <= I32_MAX
    ensures Below(FdEntered(f, fd, slot, path, cloexec, Max(f.nextFd, SatNext(fd))), bound + 2)
  {
    assert Max(from, f.nextFd) !in f.fds;
  }

  lemma NamesMore(call: Call, bound: nat, bound': nat)
    requires Names(call, bound) && bound <= bound'
    ensures Names(call, bound')
  {
  }
}
