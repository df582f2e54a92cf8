/** Which ranges of an address space are free, and the first-fit search over them. */
module FreeRanges {
  import opened Types
  import opened AddressSpace
  import opened Machine
  import opened Views

  predicate HeapOverlap(mm: MmState, start: nat, end: nat) {
    HasOverlap(start, end, mm.heapStart, SatSub(mm.heapBrk, mm.heapStart))
  }

  predicate StackOverlap(mm: MmState, start: nat, end: nat) {
    HasOverlap(start, end, mm.StackLow(), mm.maxStackSize)
  }

  predicate WithinMmapArea(mm: MmState, start: nat, end: nat) {
    mm.mmapBase <= start < end <= mm.mmapLimit && !HeapOverlap(mm, start, end) && !StackOverlap(mm, start, end)
  }

  /** A table none of whose maps overlaps the range, except those inside `[exceptStart, exceptEnd)`. */
  predicate NoMapOverlap(maps: Maps, start: nat, end: nat, exceptStart: nat, exceptEnd: nat) {
    forall k | k in maps && HasOverlap(start, end, maps[k].vaddr, maps[k].size) ::
      exceptStart <= maps[k].vaddr && maps[k].vaddr + maps[k].size <= exceptEnd
  }

  predicate RangeIsFreeExcluding(mm: MmState, start: nat, end: nat, exceptStart: nat, exceptEnd: nat) {
    && WithinMmapArea(mm, start, end)
    && NoMapOverlap(mm.maps, start, end, exceptStart, exceptEnd)
    && NoMapOverlap(mm.lazy, start, end, exceptStart, exceptEnd)
  }

  predicate RangeIsFree(mm: MmState, start: nat, end: nat) {
    && WithinMmapArea(mm, start, end)
    && (forall k | k in mm.maps :: !HasOverlap(start, end, mm.maps[k].vaddr, mm.maps[k].size))
    && (forall l | l in mm.lazy :: !HasOverlap(start, end, mm.lazy[l].vaddr, mm.lazy[l].size))
  }

  /** A page-aligned range is free exactly when it lies in the mmap area, away from the heap and
      the stack window, and no page of it is resident or lazy. */
  lemma RangeIsFreeExact(frames: Frames, mm: MmState, start: nat, end: nat)
    requires SpaceOk(mm) && start % PGSIZE == 0 && end % PGSIZE == 0
    ensures RangeIsFree(mm, start, end) <==>
              && WithinMmapArea(mm, start, end)
              && forall a: nat | start <= a < end && a % PGSIZE == 0 :: PageAt(frames, mm, a).None?
  {
    hide PageAt, HasOverlap, SpaceOk, Lookup;
    if RangeIsFree(mm, start, end) {
      forall a: nat | start <= a < end && a % PGSIZE == 0
        ensures PageAt(frames, mm, a).None?
      {
        FreePageShowsNothing(frames, mm, start, end, a);
      }
    } else if WithinMmapArea(mm, start, end) {
      if k :| k in mm.maps && HasOverlap(start, end, mm.maps[k].vaddr, mm.maps[k].size) {
        var a := OverlapShows(frames, mm, start, end, k);
      } else {
        var l :| l in mm.lazy && HasOverlap(start, end, mm.lazy[l].vaddr, mm.lazy[l].size);
        LazyOverlapShows(frames, mm, start, end, l);
      }
    }
  }

  lemma FreePageShowsNothing(frames: Frames, mm: MmState, start: nat, end: nat, a: nat)
    requires SpaceOk(mm) && RangeIsFree(mm, start, end) && start <= a < end
    ensures PageAt(frames, mm, a).None?
  {
    LookupExact(mm.maps, a);
  }

  lemma OverlapShows(frames: Frames, mm: MmState, start: nat, end: nat, k: nat) returns (a: nat)
    requires SpaceOk(mm) && start % PGSIZE == 0 && start < end
    requires k in mm.maps && HasOverlap(start, end, mm.maps[k].vaddr, mm.maps[k].size)
    ensures start <= a < end && a % PGSIZE == 0 && PageAt(frames, mm, a).Some?
  {
    a := Max(start, k);
    LookupExact(mm.maps, a);
    assert mm.maps[k].Covers(a);
  }

  lemma LazyOverlapShows(frames: Frames, mm: MmState, start: nat, end: nat, l: nat)
    requires SpaceOk(mm) && start % PGSIZE == 0
    requires l in mm.lazy && HasOverlap(start, end, mm.lazy[l].vaddr, mm.lazy[l].size)
    ensures start <= l < end && l % PGSIZE == 0 && PageAt(frames, mm, l).Some?
  {
    AlignedInside(start, l);
    LookupExact(mm.maps, l);
  }

  lemma AlignedInside(start: nat, l: nat)
    requires start % PGSIZE == 0 && l % PGSIZE == 0 && start < l + PGSIZE
    ensures start <= l
  {
  }

  lemma FreeRangeParts(mm: MmState, start: nat, end: nat)
    requires SpaceOk(mm) && RangeIsFree(mm, start, end)
    ensures FreeOfMaps(mm.maps, start, end) && FreeOfLazy(mm.lazy, start, end) && OutsideStack(mm, start, end)
  {
  }

  /** No candidate a whole number of pages above `from` is free. */
  ghost predicate NothingFits(mm: MmState, from: nat, len: nat) {
    forall n: nat :: !RangeIsFree(mm, from + n * PGSIZE, from + n * PGSIZE + len)
  }

  /** `start` is the least such candidate. */
  ghost predicate FirstFree(mm: MmState, from: nat, len: nat, start: nat) {
    && from <= start && (start - from) % PGSIZE == 0
    && RangeIsFree(mm, start, start + len)
    && forall n: nat | from + n * PGSIZE < start :: !RangeIsFree(mm, from + n * PGSIZE, from + n * PGSIZE + len)
  }

  lemma FirstFreeFits(mm: MmState, from: nat, len: nat, start: nat)
    requires FirstFree(mm, from, len, start)
    ensures !NothingFits(mm, from, len)
    ensures from % PGSIZE == 0 ==> start % PGSIZE == 0
  {
    hide RangeIsFree;
    var n: nat := (start - from) / PGSIZE;
    assert start == from + n * PGSIZE;
    assert RangeIsFree(mm, from + n * PGSIZE, from + n * PGSIZE + len);
  }

  /** The search of mmap and mremap: the least candidate at or above `from`, a whole number of
      pages away, whose range is free; or none when no such range ends below the limit. */
  method FirstFit(mm: MmState, from: nat, len: nat) returns (r: Option<nat>)
    requires len > 0 && mm.mmapLimit <= USIZE_MAX
    ensures r.Some? ==> FirstFree(mm, from, len, r.value)
    ensures r.None? <==> NothingFits(mm, from, len)
  {
    var candidate := from;
    ghost var tried: nat := 0;
    while true
      invariant candidate == from + tried * PGSIZE
      invariant forall n: nat | n < tried :: !RangeIsFree(mm, from + n * PGSIZE, from + n * PGSIZE + len)
      decreases mm.mmapLimit - candidate
    {
      var end := CheckedAdd(candidate, len);
      if end.None? || end.value > mm.mmapLimit {
        return None;
      }
      if RangeIsFree(mm, candidate, end.value) {
        FirstFreeFits(mm, from, len, candidate);
        return Some(candidate);
      }
      candidate := candidate + PGSIZE;
      tried := tried + 1;
    }
  }
}
