/** Descriptors and the backend endpoints they share across dup, fork, close, exec and exit. */
module Descriptors {
  import opened Types

  const U32_MAX: nat := 0xFFFF_FFFF
  const I32_MAX: nat := 0x7FFF_FFFF

  /** The descriptor tables of one process; a descriptor stands for the slot of its endpoint. */
  datatype Files = Files(fds: map<nat, Slot>, paths: map<nat, string>, cloexec: map<nat, bool>, nextFd: nat)

  type FileTables = map<Pid, Files>

  predicate Refers(fds: map<nat, Slot>, slot: Slot) {
    exists fd :: fd in fds && fds[fd] == slot
  }

  predicate Referenced(files: FileTables, slot: Slot) {
    exists p :: p in files && Refers(files[p].fds, slot)
  }

  /** These are exactly the endpoints some descriptor of some process refers to. */
  ghost predicate EndpointsOk(files: FileTables, endpoints: set<Slot>) {
    forall slot: Slot :: slot in endpoints <==> Referenced(files, slot)
  }

  /** Paths and close-on-exec flags are those of open descriptors, and all numbers fit. */
  ghost predicate FilesOk(f: Files) {
    && f.paths.Keys <= f.fds.Keys && f.cloexec.Keys <= f.fds.Keys
    && (forall fd | fd in f.fds :: fd <= U32_MAX)
    && f.nextFd <= U32_MAX
  }

  /** Open descriptors lie below the next one, which is at most `bound`. */
  ghost predicate Below(f: Files, bound: nat) {
    f.nextFd <= bound && forall fd | fd in f.fds :: fd < f.nextFd
  }

  ghost predicate AllBelow(files: FileTables, bound: nat) { forall p | p in files :: Below(files[p], bound) }

  /** The first free number from `from` on. */
  ghost predicate IsFree(fds: map<nat, Slot>, from: nat, fd: nat) {
    from <= fd <= U32_MAX && fd !in fds && forall g | from <= g < fd :: g in fds
  }

  ghost predicate NoneFree(fds: map<nat, Slot>, from: nat) { forall g | from <= g <= U32_MAX :: g in fds }

  /** The two numbers pipe2 takes. */
  ghost predicate IsPair(f: Files, pair: (nat, nat)) {
    IsFree(f.fds, f.nextFd, pair.0) && IsFree(f.fds, pair.0 + 1, pair.1)
  }

  /** There are two numbers for pipe2, and they can be handed to the caller. */
  ghost predicate HasSmallPair(f: Files) { exists pair: (nat, nat) :: IsPair(f, pair) && pair.1 <= I32_MAX }

  lemma PairUnique(f: Files, a: (nat, nat), b: (nat, nat))
    requires IsPair(f, a) && IsPair(f, b)
    ensures a == b
  {
  }

  /** Below the next number nothing is taken. */
  lemma BelowPair(f: Files, bound: nat)
    requires Below(f, bound) && f.nextFd < U32_MAX
    ensures IsPair(f, (f.nextFd, f.nextFd + 1))
  {
  }

  /** One dup3 to the greatest number a caller can be handed, and pipe2 has none left. */
  lemma NoPairAfterGreatest(f: Files)
    requires f.nextFd >= SatNext(I32_MAX)
    ensures !HasSmallPair(f)
  {
  }

  ghost predicate AllFilesOk(files: FileTables) { forall p | p in files :: FilesOk(files[p]) }

  function SatNext(fd: nat): nat { if fd < U32_MAX then fd + 1 else U32_MAX }

  function WithoutFd(f: Files, fd: nat): Files {
    f.(fds := Remove(f.fds, fd), paths := Remove(f.paths, fd), cloexec := Remove(f.cloexec, fd))
  }

  /** A handle entered under `fd`: only the slot that stood there can lose its last reference. */
  lemma ReferencedEnter(files: FileTables, p: Pid, f: Files, fd: nat, slot: Slot)
    requires p in files && f.fds == files[p].fds[fd := slot]
    ensures forall s: Slot :: Referenced(files[p := f], s) ==> Referenced(files, s) || s == slot
    ensures forall s: Slot | !(fd in files[p].fds && files[p].fds[fd] == s) :: Referenced(files, s) ==>
              Referenced(files[p := f], s)
    ensures Referenced(files[p := f], slot)
  {
    var files' := files[p := f];
    assert fd in f.fds && f.fds[fd] == slot;
    assert Refers(files'[p].fds, slot);
    forall s: Slot
      ensures Referenced(files', s) ==> Referenced(files, s) || s == slot
      ensures Referenced(files, s) && !(fd in files[p].fds && files[p].fds[fd] == s) ==> Referenced(files', s)
    {
      if Referenced(files', s) && s != slot {
        var q :| q in files' && Refers(files'[q].fds, s);
        var g :| g in files'[q].fds && files'[q].fds[g] == s;
        assert g in files[q].fds && files[q].fds[g] == s;
        assert Refers(files[q].fds, s);
      }
      if Referenced(files, s) && !(fd in files[p].fds && files[p].fds[fd] == s) {
        var q :| q in files && Refers(files[q].fds, s);
        var g :| g in files[q].fds && files[q].fds[g] == s;
        assert g in files'[q].fds && files'[q].fds[g] == s;
        assert Refers(files'[q].fds, s);
      }
    }
  }

  /** Dropping one costs at most its own slot. */
  lemma ReferencedDrop(files: FileTables, p: Pid, fd: nat)
    requires p in files && fd in files[p].fds
    ensures var files' := files[p := WithoutFd(files[p], fd)];
            forall s: Slot | s != files[p].fds[fd] :: Referenced(files', s) <==> Referenced(files, s)
    ensures Referenced(files, files[p].fds[fd])
  {
    var slot := files[p].fds[fd];
    var files' := files[p := WithoutFd(files[p], fd)];
    assert Refers(files[p].fds, slot);
    forall s: Slot | s != slot
      ensures Referenced(files', s) <==> Referenced(files, s)
    {
      if Referenced(files, s) {
        var q :| q in files && Refers(files[q].fds, s);
        var g :| g in files[q].fds && files[q].fds[g] == s;
        assert g in files'[q].fds && files'[q].fds[g] == s;
        assert Refers(files'[q].fds, s);
      }
      if Referenced(files', s) {
        var q :| q in files' && Refers(files'[q].fds, s);
        var g :| g in files'[q].fds && files'[q].fds[g] == s;
        assert g in files[q].fds && files[q].fds[g] == s;
        assert Refers(files[q].fds, s);
      }
    }
  }

  lemma ReferencedFork(files: FileTables, parent: Pid, child: Pid)
    requires parent in files && child !in files
    ensures forall s: Slot :: Referenced(files[child := files[parent]], s) <==> Referenced(files, s)
  {
    var files' := files[child := files[parent]];
    forall s: Slot
      ensures Referenced(files', s) <==> Referenced(files, s)
    {
      if Referenced(files, s) {
        var q :| q in files && Refers(files[q].fds, s);
        assert q in files' && Refers(files'[q].fds, s);
      }
      if Referenced(files', s) {
        var q :| q in files' && Refers(files'[q].fds, s);
        assert Refers(files[if q == child then parent else q].fds, s);
      }
    }
  }

  /** A process without descriptors refers to nothing. */
  lemma ReferencedGone(files: FileTables, p: Pid)
    requires p in files && files[p].fds == map[]
    ensures forall s: Slot :: Referenced(Remove(files, p), s) <==> Referenced(files, s)
  {
    var files' := Remove(files, p);
    forall s: Slot
      ensures Referenced(files', s) <==> Referenced(files, s)
    {
      if Referenced(files, s) {
        var q :| q in files && Refers(files[q].fds, s);
        assert q in files' && Refers(files'[q].fds, s);
      }
      if Referenced(files', s) {
        var q :| q in files' && Refers(files'[q].fds, s);
        assert q in files && Refers(files[q].fds, s);
      }
    }
  }

  /** Two descriptors of one process at once, as pipe2 makes them. */
  lemma SameSlots(files: FileTables, p: Pid, f: Files)
    requires p in files && f.fds == files[p].fds
    ensures forall s: Slot :: Referenced(files[p := f], s) <==> Referenced(files, s)
  {
    var files' := files[p := f];
    forall s: Slot
      ensures Referenced(files', s) <==> Referenced(files, s)
    {
      if Referenced(files, s) {
        var q :| q in files && Refers(files[q].fds, s);
        assert q in files' && Refers(files'[q].fds, s);
      }
      if Referenced(files', s) {
        var q :| q in files' && Refers(files'[q].fds, s);
        assert q in files && Refers(files[q].fds, s);
      }
    }
  }
}
