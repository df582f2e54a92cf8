/** Loading the segments of an executable page by page, against the image they describe (chapter 5
    of the System V gABI). */
module ElfImage {
  import opened Types

  datatype SegmentKind = Load | ProgramHeaders | OtherSegment

  datatype Segment = Segment(kind: SegmentKind, vaddr: nat, offset: nat, fileSize: nat, memSize: nat, writable: bool,
                             executable: bool) {
    predicate IsLoaded() { kind.Load? && memSize > 0 }

    function Start(bias: nat): nat { bias + vaddr }

    function End(bias: nat): nat { bias + vaddr + memSize }

    function Flags(): Perms { Perms(true, writable, executable) }

    predicate OnPage(bias: nat, page: nat) {
      IsLoaded() && page % PGSIZE == 0 && AlignDown(Start(bias)) <= page < AlignUp(End(bias))
    }
  }

  datatype LoadedPage = LoadedPage(data: Page, flags: Perms)

  type LoadedPages = map<nat, LoadedPage>

  // ----- The image, byte by byte -----

  /** The byte a segment has at an address: from the file while it lasts, zero elsewhere. */
  function ImageByte(seg: Segment, file: seq<byte>, bias: nat, addr: nat): byte {
    if seg.Start(bias) <= addr < seg.Start(bias) + seg.fileSize && seg.offset + (addr - seg.Start(bias)) < |file|
    then file[seg.offset + (addr - seg.Start(bias))]
    else 0
  }

  /** The last segment with a part on the page. */
  function OwnerOf(segs: seq<Segment>, bias: nat, page: nat): (owner: Option<nat>)
    ensures owner.Some? ==>
              && owner.value < |segs| && segs[owner.value].OnPage(bias, page)
              && forall i | owner.value < i < |segs| :: !segs[i].OnPage(bias, page)
    ensures owner.None? ==> forall i | 0 <= i < |segs| :: !segs[i].OnPage(bias, page)
  {
    if segs == [] then None
    else if segs[|segs| - 1].OnPage(bias, page) then Some(|segs| - 1)
    else
      var rest := OwnerOf(segs[..|segs| - 1], bias, page);
      assert forall i | 0 <= i < |segs| - 1 :: segs[i] == segs[..|segs| - 1][i];
      rest
  }

  ghost predicate ShowsSegment(p: LoadedPage, page: nat, seg: Segment, file: seq<byte>, bias: nat) {
    p.flags == seg.Flags() && forall j | 0 <= j < PGSIZE :: p.data[j] == ImageByte(seg, file, bias, page + j)
  }

  /** The pages are exactly those some segment lies on, each as its last segment has it. */
  ghost predicate IsImage(pages: LoadedPages, segs: seq<Segment>, file: seq<byte>, bias: nat) {
    && (forall page | page in pages :: OwnerOf(segs, bias, page).Some?)
    && (forall page: nat | OwnerOf(segs, bias, page).Some? ::
          page in pages && ShowsSegment(pages[page], page, segs[OwnerOf(segs, bias, page).value], file, bias))
  }

  /** The end of the last address any segment reaches. */
  ghost predicate IsLoadEnd(end: nat, segs: seq<Segment>, bias: nat) {
    && (forall i | 0 <= i < |segs| && segs[i].IsLoaded() :: segs[i].End(bias) <= end)
    && (end == 0 || exists i :: 0 <= i < |segs| && segs[i].IsLoaded() && end == segs[i].End(bias))
  }

  /** No two segments share a page. */
  ghost predicate PagesApart(segs: seq<Segment>, bias: nat) {
    forall i, j, page: nat | 0 <= i < j < |segs| && segs[i].OnPage(bias, page) :: !segs[j].OnPage(bias, page)
  }

  /** Segments on pages of their own are loaded whole: what the file has, then zeros. */
  lemma SegmentLoaded(pages: LoadedPages, segs: seq<Segment>, file: seq<byte>, bias: nat, i: nat, k: nat)
    requires IsImage(pages, segs, file, bias) && PagesApart(segs, bias)
    requires i < |segs| && segs[i].IsLoaded() && k < segs[i].memSize
    requires segs[i].fileSize <= segs[i].memSize && segs[i].offset + segs[i].fileSize <= |file|
    ensures var addr := segs[i].Start(bias) + k;
            && AlignDown(addr) in pages && pages[AlignDown(addr)].flags == segs[i].Flags()
            && pages[AlignDown(addr)].data[addr % PGSIZE] ==
                 if k < segs[i].fileSize then file[segs[i].offset + k] else 0
  {
    var addr := segs[i].Start(bias) + k;
    var page := AlignDown(addr);
    PageWithin(segs[i].Start(bias), segs[i].End(bias), addr);
    assert segs[i].OnPage(bias, page);
    var owner := OwnerOf(segs, bias, page);
    assert owner == Some(i);
    assert page + addr % PGSIZE == addr;
  }

  lemma PageWithin(start: nat, end: nat, addr: nat)
    requires start <= addr < end
    ensures AlignDown(start) <= AlignDown(addr) < AlignUp(end) && AlignDown(addr) % PGSIZE == 0
  {
  }

  // ----- Loading -----

  /** One page of a segment: zeroed, then the part of the file that falls on it. */
  method FillPage(seg: Segment, file: seq<byte>, bias: nat, page: nat) returns (data: Page)
    requires page + PGSIZE <= USIZE_MAX
    ensures forall j | 0 <= j < PGSIZE :: data[j] == ImageByte(seg, file, bias, page + j)
  {
    var slice := new byte[PGSIZE](i => 0);
    var start := seg.Start(bias);
    var fileEnd := SatAdd(start, seg.fileSize);
    var copyStart := Max(page, start);
    var copyEnd := Min(page + PGSIZE, fileEnd);
    if copyEnd > copyStart && seg.offset < |file| {
      var srcOff := seg.offset + (copyStart - start);
      var dstOff := copyStart - page;
      var copyLen := copyEnd - copyStart;
      if srcOff < |file| {
        var actual := Min(copyLen, |file| - srcOff);
        forall i | 0 <= i < actual {
          slice[dstOff + i] := file[srcOff + i];
        }
      }
    }
    data := slice[..];
  }

  datatype LoadedElf = LoadedElf(loadEnd: nat, phdrVaddr: nat)

  /** Loads every segment; on success the pages are the image, byte for byte. `taken` frames have
      been allocated, and each of them backs a page of its own exactly when no two segments share
      a page: where two do, the later entry replaces the earlier one, whose frame is lost. */
  method LoadElf(segs: seq<Segment>, file: seq<byte>, bias: nat, phOffset: nat)
    returns (r: Result<LoadedElf>, pages: LoadedPages, ghost taken: nat)
    requires forall i | 0 <= i < |segs| && segs[i].IsLoaded() :: AlignUp(segs[i].End(bias)) <= USIZE_MAX
    ensures r.Err? ==> r.error == ResourceFailed
    ensures r.Ok? ==> IsImage(pages, segs, file, bias) && IsLoadEnd(r.value.loadEnd, segs, bias)
    ensures r.Ok? ==> |pages| <= taken && (|pages| == taken <==> PagesApart(segs, bias))
    ensures r.Ok? ==>
              var i := LastHeader(segs);
              r.value.phdrVaddr == if i.Some? then bias + segs[i.value].vaddr else bias + phOffset
  {
    hide OwnerOf, IsImage, Over, AlignUp, LastHeader, Segment.OnPage, PagesApart;
    pages, taken := map[], 0;
    var loadEnd, phdr := 0, None;
    assert segs[..0] == [];
    NothingLoaded(file, bias);
    assert LastHeader([]).None?;
    for i := 0 to |segs|
      invariant IsImage(pages, segs[..i], file, bias)
      invariant IsLoadEnd(loadEnd, segs[..i], bias)
      invariant |pages| <= taken && (|pages| == taken <==> PagesApart(segs[..i], bias))
      invariant phdr == (if LastHeader(segs[..i]).Some? then Some(bias + segs[LastHeader(segs[..i]).value].vaddr)
                         else None)
    {
      var seg := segs[i];
      assert segs[..i + 1][..i] == segs[..i];
      if seg.kind.ProgramHeaders? {
        phdr := Some(bias + seg.vaddr);
      }
      OneMore(segs, i);
      OneMoreApart(pages, segs[..i + 1], file, bias);
      if !seg.IsLoaded() {
        NotOnPages(pages, segs[..i + 1], file, bias);
      } else {
        loadEnd := Max(loadEnd, seg.End(bias));
        var loaded;
        ghost var before, more := pages, 0;
        loaded, pages, more := LoadSegment(seg, file, bias, pages);
        if loaded.Err? {
          return Err(loaded.error), pages, taken + more;
        }
        taken := taken + more;
        OverOthers(before, pages, segs[..i + 1], file, bias);
      }
    }
    assert segs[..|segs|] == segs;
    r := Ok(LoadedElf(loadEnd, if phdr.Some? then phdr.value else bias + phOffset));
  }

  /** The last header that says where the headers themselves are. */
  function LastHeader(segs: seq<Segment>): (r: Option<nat>)
    ensures r.Some? ==> r.value < |segs| && segs[r.value].kind.ProgramHeaders?
    ensures forall i | 0 <= i < |segs| && segs[i].kind.ProgramHeaders? :: r.Some? && i <= r.value
  {
    if segs == [] then None
    else if segs[|segs| - 1].kind.ProgramHeaders? then Some(|segs| - 1)
    else
      assert forall i | 0 <= i < |segs| - 1 :: segs[i] == segs[..|segs| - 1][i];
      LastHeader(segs[..|segs| - 1])
  }

  /** The pages of one segment, over whatever was there. */
  method LoadSegment(seg: Segment, file: seq<byte>, bias: nat, before: LoadedPages)
    returns (r: Result<()>, pages: LoadedPages, ghost taken: nat)
    requires seg.IsLoaded() && AlignUp(seg.End(bias)) <= USIZE_MAX
    ensures r.Err? ==> r.error == ResourceFailed
    ensures r.Ok? ==> Over(before, pages, seg, file, bias)
    ensures r.Ok? ==>
              |pages| <= |before| + taken
              && (|pages| == |before| + taken <==> forall p | p in before :: !seg.OnPage(bias, p))
  {
    hide ImageByte, AlignDown, AlignUp, Loading, ShowsSegment, Segment.OnPage, Over;
    pages, taken := before, 0;
    var startPage, endPage := AlignDown(seg.Start(bias)), AlignUp(seg.End(bias));
    SegmentPages(seg.Start(bias), seg.End(bias));
    var count := (endPage - startPage) / PGSIZE;
    NoneLoaded(before, seg, file, bias, startPage);
    for n := 0 to count
      invariant taken == n && Loading(before, pages, seg, file, bias, startPage, n)
    {
      var page := startPage + n * PGSIZE;
      var fails: bool := *;
      if fails {
        return Err(ResourceFailed), pages, taken;
      }
      PageBelow(startPage, n, count);
      var data := FillPage(seg, file, bias, page);
      ShowsPage(LoadedPage(data, seg.Flags()), page, seg, file, bias);
      LoadingNext(before, pages, seg, file, bias, startPage, n, LoadedPage(data, seg.Flags()));
      pages, taken := pages[page := LoadedPage(data, seg.Flags())], taken + 1;
    }
    AllLoaded(before, pages, seg, file, bias, startPage, count);
    r := Ok(());
  }

  /** The first `n` pages of the segment are entered; the table has grown by one entry a page, but
      for the pages that had an entry. */
  ghost predicate Loading(before: LoadedPages, pages: LoadedPages, seg: Segment, file: seq<byte>, bias: nat,
                          startPage: nat, n: nat)
  {
    && (forall p | p in pages :: p in before || AmongFirst(p, startPage, n))
    && (forall p | p in before && !AmongFirst(p, startPage, n) :: p in pages && pages[p] == before[p])
    && (forall p: nat | AmongFirst(p, startPage, n) :: p in pages && ShowsSegment(pages[p], p, seg, file, bias))
    && Counted(before, pages, startPage, n)
  }

  ghost predicate Counted(before: LoadedPages, pages: LoadedPages, startPage: nat, n: nat) {
    |pages| <= |before| + n && (|pages| == |before| + n <==> forall p | p in before :: !AmongFirst(p, startPage, n))
  }

  predicate AmongFirst(p: nat, startPage: nat, n: nat) { startPage <= p < startPage + n * PGSIZE && p % PGSIZE == 0 }

  lemma NoneLoaded(before: LoadedPages, seg: Segment, file: seq<byte>, bias: nat, startPage: nat)
    ensures Loading(before, before, seg, file, bias, startPage, 0)
  {
  }

  lemma LoadingNext(before: LoadedPages, pages: LoadedPages, seg: Segment, file: seq<byte>, bias: nat, startPage: nat,
                    n: nat, p: LoadedPage)
    requires startPage % PGSIZE == 0 && Loading(before, pages, seg, file, bias, startPage, n)
    requires ShowsSegment(p, startPage + n * PGSIZE, seg, file, bias)
    ensures Loading(before, pages[startPage + n * PGSIZE := p], seg, file, bias, startPage, n + 1)
  {
    hide AmongFirst, ShowsSegment, Counted;
    var page := startPage + n * PGSIZE;
    PageAfter(startPage, n);
    CountedNext(before, pages, startPage, n, p);
    var pages' := pages[page := p];
    forall a: nat | AmongFirst(a, startPage, n + 1)
      ensures a in pages' && ShowsSegment(pages'[a], a, seg, file, bias)
    {
      if a != page {
        assert AmongFirst(a, startPage, n);
      }
    }
  }

  lemma CountedNext(before: LoadedPages, pages: LoadedPages, startPage: nat, n: nat, p: LoadedPage)
    requires startPage % PGSIZE == 0 && Counted(before, pages, startPage, n)
    requires forall a | a in pages :: a in before || AmongFirst(a, startPage, n)
    requires forall a | a in before && !AmongFirst(a, startPage, n) :: a in pages
    ensures Counted(before, pages[startPage + n * PGSIZE := p], startPage, n + 1)
  {
    hide AmongFirst;
    var page := startPage + n * PGSIZE;
    PageAfter(startPage, n);
    Reentered(pages, page, p);
    assert AmongFirst(page, startPage, n + 1);
  }

  lemma AllLoaded(before: LoadedPages, pages: LoadedPages, seg: Segment, file: seq<byte>, bias: nat, startPage: nat,
                  count: nat)
    requires Loading(before, pages, seg, file, bias, startPage, count) && seg.IsLoaded()
    requires startPage == AlignDown(seg.Start(bias)) && startPage + count * PGSIZE == AlignUp(seg.End(bias))
    ensures Over(before, pages, seg, file, bias)
    ensures |pages| <= |before| + count
            && (|pages| == |before| + count <==> forall p | p in before :: !seg.OnPage(bias, p))
  {
    hide ShowsSegment, AlignDown, AlignUp;
    assert forall p: nat :: AmongFirst(p, startPage, count) <==> seg.OnPage(bias, p);
  }

  lemma PageBelow(startPage: nat, n: nat, count: nat)
    requires n < count
    ensures startPage + n * PGSIZE + PGSIZE <= startPage + count * PGSIZE
  {
  }

  lemma ShowsPage(p: LoadedPage, page: nat, seg: Segment, file: seq<byte>, bias: nat)
    requires p.flags == seg.Flags() && forall j | 0 <= j < PGSIZE :: p.data[j] == ImageByte(seg, file, bias, page + j)
    ensures ShowsSegment(p, page, seg, file, bias)
  {
  }

  lemma Reentered(pages: LoadedPages, page: nat, p: LoadedPage)
    ensures |pages[page := p]| == if page in pages then |pages| else |pages| + 1
  {
    assert pages[page := p].Keys == pages.Keys + {page};
  }

  lemma PageAfter(startPage: nat, n: nat)
    requires startPage % PGSIZE == 0
    ensures forall p: nat :: AmongFirst(p, startPage, n + 1) <==>
              AmongFirst(p, startPage, n) || p == startPage + n * PGSIZE
    ensures !AmongFirst(startPage + n * PGSIZE, startPage, n)
    ensures (startPage + n * PGSIZE) % PGSIZE == 0
  {
  }

  lemma SegmentPages(start: nat, end: nat)
    requires start < end
    ensures AlignDown(start) % PGSIZE == 0 && AlignDown(start) <= AlignUp(end)
    ensures AlignDown(start) + (AlignUp(end) - AlignDown(start)) / PGSIZE * PGSIZE == AlignUp(end)
  {
  }

  ghost predicate Over(before: LoadedPages, pages: LoadedPages, seg: Segment, file: seq<byte>, bias: nat) {
    && (forall p | p in pages :: p in before || seg.OnPage(bias, p))
    && (forall p | p in before && !seg.OnPage(bias, p) :: p in pages && pages[p] == before[p])
    && (forall p: nat | seg.OnPage(bias, p) :: p in pages && ShowsSegment(pages[p], p, seg, file, bias))
  }

  lemma NothingLoaded(file: seq<byte>, bias: nat)
    ensures IsImage(map[], [], file, bias) && IsLoadEnd(0, [], bias) && PagesApart([], bias)
  {
  }

  lemma OneMore(segs: seq<Segment>, i: nat)
    requires i < |segs|
    ensures LastHeader(segs[..i + 1]) == if segs[i].kind.ProgramHeaders? then Some(i) else LastHeader(segs[..i])
    ensures forall j | 0 <= j <= i :: segs[..i + 1][j] == segs[j]
  {
    assert segs[..i + 1][..i] == segs[..i];
  }

  /** One more segment shares no page with the others exactly when it lies on none loaded so far. */
  lemma OneMoreApart(before: LoadedPages, segs: seq<Segment>, file: seq<byte>, bias: nat)
    requires segs != [] && IsImage(before, segs[..|segs| - 1], file, bias)
    ensures PagesApart(segs, bias) <==>
              PagesApart(segs[..|segs| - 1], bias) && forall p | p in before :: !segs[|segs| - 1].OnPage(bias, p)
  {
    hide ShowsSegment, Segment.OnPage;
    var rest, seg := segs[..|segs| - 1], segs[|segs| - 1];
    assert forall i | 0 <= i < |rest| :: rest[i] == segs[i];
    forall p: nat
      ensures p in before <==> exists i :: 0 <= i < |rest| && rest[i].OnPage(bias, p)
    {
      assert OwnerOf(rest, bias, p).Some? <==> p in before;
    }
    if PagesApart(segs, bias) {
      forall p | p in before
        ensures !seg.OnPage(bias, p)
      {
        var i :| 0 <= i < |rest| && rest[i].OnPage(bias, p);
        assert segs[i].OnPage(bias, p);
      }
    }
    if PagesApart(rest, bias) && forall p | p in before :: !seg.OnPage(bias, p) {
      forall i, j, page: nat | 0 <= i < j < |segs| && segs[i].OnPage(bias, page)
        ensures !segs[j].OnPage(bias, page)
      {
        assert rest[i].OnPage(bias, page);
        if j < |rest| {
          assert !rest[j].OnPage(bias, page);
        }
      }
    }
  }

  lemma NotOnPages(pages: LoadedPages, segs: seq<Segment>, file: seq<byte>, bias: nat)
    requires segs != [] && !segs[|segs| - 1].IsLoaded() && IsImage(pages, segs[..|segs| - 1], file, bias)
    ensures IsImage(pages, segs, file, bias) && forall p | p in pages :: !segs[|segs| - 1].OnPage(bias, p)
  {
    hide ShowsSegment;
    forall page: nat
      ensures OwnerOf(segs, bias, page) == OwnerOf(segs[..|segs| - 1], bias, page)
    {
      assert !segs[|segs| - 1].OnPage(bias, page);
    }
  }

  lemma OverOthers(before: LoadedPages, pages: LoadedPages, segs: seq<Segment>, file: seq<byte>, bias: nat)
    requires segs != [] && IsImage(before, segs[..|segs| - 1], file, bias)
             && Over(before, pages, segs[|segs| - 1], file, bias)
    ensures IsImage(pages, segs, file, bias)
  {
    hide ShowsSegment;
    var rest, seg := segs[..|segs| - 1], segs[|segs| - 1];
    forall page: nat
      ensures OwnerOf(segs, bias, page) ==
                if seg.OnPage(bias, page) then Some(|segs| - 1) else OwnerOf(rest, bias, page)
    {
    }
  }
}
