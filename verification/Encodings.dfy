/** Integers and strings as bytes in memory. */
module Encodings {
  import opened Types

  // ----- Words in memory, least significant byte first -----

  function WordBytes(w: nat, n: nat): (b: seq<byte>)
    ensures |b| == n
  {
    if n == 0 then [] else [(w % 256) as byte] + WordBytes(w / 256, n - 1)
  }

  function WordValue(b: seq<byte>): nat {
    if b == [] then 0 else b[0] as nat + 256 * WordValue(b[1..])
  }

  function Pow256(n: nat): nat { if n == 0 then 1 else 256 * Pow256(n - 1) }

  lemma {:induction false} WordRoundTrip(w: nat, n: nat)
    requires w < Pow256(n)
    ensures WordValue(WordBytes(w, n)) == w
  {
    if n > 0 {
      WordRoundTrip(w / 256, n - 1);
      assert WordBytes(w, n)[1..] == WordBytes(w / 256, n - 1);
    }
  }

  // ----- Strings that end with a NUL -----

  /** The bytes up to the first NUL. */
  function ReadString(page: seq<byte>, off: nat): Option<seq<byte>>
    decreases |page| - off
  {
    if off >= |page| then None
    else if page[off] == 0 then Some([])
    else
      var rest := ReadString(page, off + 1);
      if rest.Some? then Some([page[off]] + rest.value) else None
  }

  /** What is left of a string that may hold a NUL itself. */
  function BeforeNul(s: seq<byte>): (r: seq<byte>)
    ensures r <= s && 0 !in r
    ensures r == s <==> 0 !in s
  {
    if s == [] || s[0] == 0 then [] else [s[0]] + BeforeNul(s[1..])
  }

  lemma {:induction false} ReadsPlaced(page: seq<byte>, s: seq<byte>, off: nat)
    requires off + |s| < |page| && page[off..off + |s| + 1] == s + [0]
    ensures ReadString(page, off) == Some(BeforeNul(s))
    decreases |s|
  {
    assert page[off] == page[off..off + |s| + 1][0] == (s + [0])[0];
    if s != [] && s[0] != 0 {
      assert page[off + 1..off + 1 + |s[1..]| + 1] == page[off..off + |s| + 1][1..] == (s + [0])[1..] == s[1..] + [0];
      ReadsPlaced(page, s[1..], off + 1);
    }
  }
}
