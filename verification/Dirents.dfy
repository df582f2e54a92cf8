/** Directory entries packed for getdents64, and what a reader of the buffer finds. */
module Dirents {
  import opened Types
  import opened Encodings

  const DIRENT64_FIXED_SIZE: nat := 19
  const DIRENT64_MIN_RECLEN: nat := 24
  const U16_MAX: nat := 0xFFFF

  type Word = w: nat | w <= USIZE_MAX

  /** An entry of the file system; its name is as long as its buffer, or ends at a NUL. */
  datatype Entry = Entry(ino: Word, off: Word, kind: byte, name: seq<byte>)

  /** An entry as a reader sees it. */
  function Listed(e: Entry): Entry { e.(name := BeforeNul(e.name)) }

  function AlignUp8(v: nat): (r: nat)
    ensures r % 8 == 0 && v <= r < v + 8
  {
    (v + 7) / 8 * 8
  }

  function RecLen(e: Entry): nat { AlignUp8(DIRENT64_FIXED_SIZE + |BeforeNul(e.name)| + 1) }

  function Header(e: Entry): (b: seq<byte>)
    ensures |b| == DIRENT64_FIXED_SIZE
  {
    WordBytes(e.ino, 8) + WordBytes(e.off, 8) + WordBytes(RecLen(e), 2) + [e.kind]
  }

  function Record(e: Entry): (b: seq<byte>)
    ensures |b| == RecLen(e)
  {
    var text := BeforeNul(e.name);
    Header(e) + text + [0] + Zeros(RecLen(e) - DIRENT64_FIXED_SIZE - |text| - 1)
  }

  // ----- Reading the buffer -----

  function DecodeRecord(b: seq<byte>): Option<Entry>
    requires |b| >= DIRENT64_FIXED_SIZE
  {
    var ino, off, name := WordValue(b[..8]), WordValue(b[8..16]), ReadString(b, DIRENT64_FIXED_SIZE);
    if ino <= USIZE_MAX && off <= USIZE_MAX && name.Some? then Some(Entry(ino, off, b[18], name.value)) else None
  }

  /** Record after record, each as long as it says. */
  function Decode(b: seq<byte>): Option<seq<Entry>>
    decreases |b|
  {
    if b == [] then Some([])
    else if |b| < DIRENT64_FIXED_SIZE then None
    else
      var len := WordValue(b[16..18]);
      if len < DIRENT64_FIXED_SIZE || len > |b| then None
      else
        var first, rest := DecodeRecord(b[..len]), Decode(b[len..]);
        if first.Some? && rest.Some? then Some([first.value] + rest.value) else None
  }

  function AllListed(entries: seq<Entry>): (r: seq<Entry>)
    ensures |r| == |entries| && forall i | 0 <= i < |r| :: r[i] == Listed(entries[i])
  {
    if entries == [] then [] else [Listed(entries[0])] + AllListed(entries[1..])
  }

  lemma HeaderFields(e: Entry, b: seq<byte>)
    requires |b| >= DIRENT64_FIXED_SIZE && b[..DIRENT64_FIXED_SIZE] == Header(e) && RecLen(e) <= U16_MAX
    ensures WordValue(b[..8]) == e.ino && WordValue(b[8..16]) == e.off && WordValue(b[16..18]) == RecLen(e)
            && b[18] == e.kind
  {
    hide WordBytes, WordValue, RecLen;
    var h := Header(e);
    assert b[..8] == h[..8] == WordBytes(e.ino, 8);
    assert b[8..16] == h[8..16] == WordBytes(e.off, 8);
    assert b[16..18] == h[16..18] == WordBytes(RecLen(e), 2);
    assert b[18] == h[18];
    Powers();
    WordRoundTrip(e.ino, 8);
    WordRoundTrip(e.off, 8);
    WordRoundTrip(RecLen(e), 2);
  }

  lemma Powers()
    ensures Pow256(2) == 0x1_0000 && Pow256(8) == USIZE_MAX + 1
  {
    assert Pow256(2) == 256 * (256 * Pow256(0));
    assert Pow256(8) == 256 * 256 * 256 * 256 * Pow256(4);
  }

  lemma RecordDecodes(e: Entry, rest: seq<byte>)
    requires RecLen(e) <= U16_MAX
    ensures Decode(Record(e) + rest) ==
              if Decode(rest).Some? then Some([Listed(e)] + Decode(rest).value) else None
  {
    hide WordBytes, WordValue, Header, Decode, RecLen;
    var b, r := Record(e) + rest, Record(e);
    var text := BeforeNul(e.name);
    assert b[..|r|] == r && b[|r|..] == rest;
    assert r[..DIRENT64_FIXED_SIZE] == Header(e) && b[..DIRENT64_FIXED_SIZE] == Header(e);
    HeaderFields(e, r);
    HeaderFields(e, b);
    assert r[DIRENT64_FIXED_SIZE..DIRENT64_FIXED_SIZE + |text| + 1] == text + [0];
    ReadsPlaced(r, text, DIRENT64_FIXED_SIZE);
    DecodeStep(b, |r|);
  }

  lemma DecodeStep(b: seq<byte>, len: nat)
    requires DIRENT64_FIXED_SIZE <= len <= |b| && WordValue(b[16..18]) == len
    ensures Decode(b) ==
              var first, rest := DecodeRecord(b[..len]), Decode(b[len..]);
              if first.Some? && rest.Some? then Some([first.value] + rest.value) else None
  {
  }

  /** The records of a list of entries. */
  function Records(entries: seq<Entry>): seq<byte> {
    if entries == [] then [] else Record(entries[0]) + Records(entries[1..])
  }

  lemma {:induction false} RecordsMore(entries: seq<Entry>, e: Entry)
    ensures Records(entries + [e]) == Records(entries) + Record(e)
  {
    hide Record;
    if entries == [] {
      assert [e][1..] == [];
      assert Record(e) + [] == [] + Record(e);
    } else {
      RecordsMore(entries[1..], e);
      assert (entries + [e])[1..] == entries[1..] + [e];
      assert Record(entries[0]) + (Records(entries[1..]) + Record(e)) ==
               (Record(entries[0]) + Records(entries[1..])) + Record(e);
    }
  }

  /** Decoding gives the entries back, name by name. */
  lemma {:induction false} DecodesBack(entries: seq<Entry>)
    requires forall i | 0 <= i < |entries| :: RecLen(entries[i]) <= U16_MAX
    ensures Decode(Records(entries)) == Some(AllListed(entries))
  {
    hide Record, RecLen;
    if entries != [] {
      DecodesBack(entries[1..]);
      RecordDecodes(entries[0], Records(entries[1..]));
    }
  }

  /** Packs as many entries as fit: the buffer reads back as exactly those, and is as long as a
      multiple of 8 up to `count`. */
  method PackDirents(entries: seq<Entry>, count: nat) returns (r: Result<seq<byte>>, ghost taken: nat)
    ensures taken <= |entries|
    ensures r.Ok? ==>
              && |r.value| <= count && |r.value| % 8 == 0
              && Decode(r.value) == Some(AllListed(entries[..taken]))
              && (taken == |entries| || |r.value| + RecLen(entries[taken]) > count)
              && (taken > 0 ==> RecLen(entries[0]) <= |r.value|)
    ensures r.Err? ==> r.error == OutOfMemory && taken < |entries| && RecLen(entries[taken]) > U16_MAX
  {
    hide Record, RecLen, Decode, Records;
    var packed: seq<byte> := [];
    taken := 0;
    NoRecords();
    assert entries[..0] == [];
    for i := 0 to |entries|
      invariant taken == i && |packed| <= count && |packed| % 8 == 0
      invariant packed == Records(entries[..i])
      invariant forall j | 0 <= j < i :: RecLen(entries[j]) <= U16_MAX
    {
      var e := entries[i];
      var reclen := RecLen(e);
      if reclen > U16_MAX {
        return Err(OutOfMemory), i;
      }
      if |packed| + reclen > count {
        break;
      }
      RecordsMore(entries[..i], e);
      assert entries[..i + 1] == entries[..i] + [e];
      RecLenAligned(e);
      packed := packed + Record(e);
      taken := i + 1;
    }
    DecodesBack(entries[..taken]);
    FirstFits(entries[..taken]);
    r := Ok(packed);
  }

  /** getdents64 up to the copy to the caller: its argument checks, then the packed listing. An
      empty buffer, which a reader takes for the end of the directory, is returned for no room, for
      an empty listing, and also when the first record does not fit. */
  method Getdents64(dirp: nat, count: nat, fdOpen: bool, listing: Result<seq<Entry>>)
    returns (r: Result<seq<byte>>, ghost taken: nat)
    ensures count == 0 ==> r == Ok([])
    ensures count > 0 && dirp == 0 ==> r == Err(InvalidAddress)
    ensures 0 < count < DIRENT64_MIN_RECLEN && dirp != 0 ==> r == Err(InvalidArgs)
    ensures count >= DIRENT64_MIN_RECLEN && dirp != 0 ==>
              && (!fdOpen ==> r == Err(InvalidSlot))
              && (fdOpen && listing.Err? ==> r == Err(listing.error))
              && (fdOpen && listing.Ok? && r.Ok? ==>
                    && taken <= |listing.value| && Decode(r.value) == Some(AllListed(listing.value[..taken]))
                    && |r.value| <= count
                    && (r.value == [] <==> listing.value == [] || RecLen(listing.value[0]) > count))
  {
    hide Record, RecLen, Decode, AllListed;
    taken := 0;
    if count == 0 {
      return Ok([]), 0;
    }
    if dirp == 0 {
      return Err(InvalidAddress), 0;
    }
    if count < DIRENT64_MIN_RECLEN {
      return Err(InvalidArgs), 0;
    }
    if !fdOpen {
      return Err(InvalidSlot), 0;
    }
    if listing.Err? {
      return Err(listing.error), 0;
    }
    r, taken := PackDirents(listing.value, count);
    if r.Ok? {
      PackedNothing(r.value, listing.value[..taken]);
    }
  }

  /** Only an empty listing packs to nothing. */
  lemma PackedNothing(b: seq<byte>, entries: seq<Entry>)
    requires Decode(b) == Some(AllListed(entries))
    ensures b == [] <==> entries == []
  {
  }

  lemma FirstFits(entries: seq<Entry>)
    ensures entries != [] ==> RecLen(entries[0]) <= |Records(entries)|
  {
    hide RecLen, Record;
  }

  lemma NoRecords()
    ensures Records([]) == []
  {
  }

  lemma RecLenAligned(e: Entry)
    ensures RecLen(e) % 8 == 0
  {
  }
}
