/** Values shared by every part of the model: pages, permissions, memory maps, results. */
module Types {

  const PGSIZE: nat := 4096
  const USIZE_MAX: nat := 0xFFFF_FFFF_FFFF_FFFF

  newtype byte = x: int | 0 <= x < 256

  type Pid = nat
  type Slot = nat

  datatype Option<+T> = None | Some(value: T)

  datatype Error =
    | InvalidArgs
    | InvalidAddress
    | InvalidSlot
    | OutOfMemory
    | NotFound
    | PermissionDenied
    | MappingFailed
    | ResourceFailed
    | MessageTooLong
    | IoError
    | WouldBlock
    | NotSupported

  datatype Result<+T> = Ok(value: T) | Err(error: Error)

  /** The contents of one page. */
  type Page = p: seq<byte> | |p| == PGSIZE witness seq(PGSIZE, i => 0 as byte)

  function ZeroPage(): (p: Page)
    ensures forall i | 0 <= i < PGSIZE :: p[i] == 0
  {
    Zeros(PGSIZE)
  }

  function Zeros(n: nat): (z: seq<byte>)
    ensures |z| == n
    ensures forall i | 0 <= i < n :: z[i] == 0
  {
    seq(n, i => 0 as byte)
  }

  datatype Perms = Perms(r: bool, w: bool, x: bool) {
    predicate Contains(other: Perms) {
      && (other.r ==> r)
      && (other.w ==> w)
      && (other.x ==> x)
    }

    function WithoutWrite(): Perms { this.(w := false) }
  }

  const READ_WRITE := Perms(true, true, false)

  datatype MemoryType = Image | Stack | Heap | Anonymous | FileBacked

  /** One entry of the resident or of the lazy table. The source's `paddr` is always 0. */
  datatype MemoryMap = MemoryMap(
    vaddr: nat,
    size: nat,
    flags: Perms,
    memType: MemoryType,
    cow: bool,
    frameCap: Slot,
    fd: Option<nat>,
    offset: nat)
  {
    function Pages(): nat { AlignUp(size) / PGSIZE }

    function End(): nat { vaddr + size }

    predicate Covers(a: nat) { vaddr <= a < End() }
  }

  type Maps = map<nat, MemoryMap>

  function Remove<K, V>(m: map<K, V>, k: K): map<K, V> { m - {k} }

  lemma UpdateTwice<K, V>(m: map<K, V>, k: K, v: V, v': V)
    ensures m[k := v][k := v'] == m[k := v']
    ensures k in m ==> m[k := m[k]] == m
  {
  }

  function AlignDown(a: nat): nat { a - a % PGSIZE }

  function AlignUp(a: nat): nat { (a + PGSIZE - 1) / PGSIZE * PGSIZE }

  function SatSub(a: nat, b: nat): nat { if a < b then 0 else a - b }

  function SatAdd(a: nat, b: nat): nat { if a + b <= USIZE_MAX then a + b else USIZE_MAX }

  function Max(a: nat, b: nat): nat { if a < b then b else a }

  function Min(a: nat, b: nat): nat { if a < b then a else b }

  /** A number that is not in use. */
  ghost function Above(used: set<nat>): (n: nat)
    ensures n !in used && forall u | u in used :: u < n
  {
    if used == {} then 0 else
      var u :| u in used;
      assert forall t | t in used :: t == u || t in used - {u};
      Max(u + 1, Above(used - {u}))
  }

  /** The capability service hands out a slot that is in nobody's hands. */
  method FreshSlot(used: set<Slot>) returns (slot: Slot)
    ensures slot !in used
  {
    assert Above(used) !in used;
    slot :| slot !in used;
  }

  function CheckedAdd(a: nat, b: nat): Option<nat> {
    if a + b <= USIZE_MAX then Some(a + b) else None
  }

  predicate IsRemappable(t: MemoryType) { t == Anonymous || t == FileBacked }

  /** Overlap of two byte ranges. The source saturates `mapStart + mapSize`, which
      changes nothing for a `start` below the top of the address space. */
  predicate HasOverlap(start: nat, end: nat, mapStart: nat, mapSize: nat) {
    start < mapStart + mapSize && mapStart < end
  }
}
