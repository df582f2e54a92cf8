/** The first stack page of a new image, and what a program reads back from it: the layout of
    section 3.4.1 of the System V AMD64 psABI. */
module InitialStack {
  import opened Types
  import opened Encodings

  const WORD: nat := 8
  const INITIAL_STACK_ALIGN: nat := 16

  type Word = w: nat | w <= USIZE_MAX

  // ----- Words -----

  lemma WordFits(w: Word)
    ensures WordValue(WordBytes(w, WORD)) == w
  {
    assert Pow256(8) == 256 * 256 * 256 * 256 * Pow256(4);
    WordRoundTrip(w, WORD);
  }

  // ----- Reading: what the start-up code of a program does -----

  function WordAt(page: seq<byte>, off: nat): nat
    requires off + WORD <= |page|
  {
    WordValue(page[off..off + WORD])
  }

  /** Words up to the first zero one. */
  function ReadPointers(page: seq<byte>, off: nat): Option<seq<nat>>
    decreases |page| - off
  {
    if off + WORD > |page| then None
    else if WordAt(page, off) == 0 then Some([])
    else
      var rest := ReadPointers(page, off + WORD);
      if rest.Some? then Some([WordAt(page, off)] + rest.value) else None
  }

  /** Pairs up to the first whose key is AT_NULL. */
  function ReadAux(page: seq<byte>, off: nat): Option<seq<(nat, nat)>>
    decreases |page| - off
  {
    if off + 2 * WORD > |page| then None
    else if WordAt(page, off) == 0 then Some([])
    else
      var rest := ReadAux(page, off + 2 * WORD);
      if rest.Some? then Some([(WordAt(page, off), WordAt(page, off + WORD))] + rest.value) else None
  }

  function ReadStrings(page: seq<byte>, base: nat, ptrs: seq<nat>): Option<seq<seq<byte>>> {
    if ptrs == [] then Some([])
    else if ptrs[0] < base then None
    else
      var first, rest := ReadString(page, ptrs[0] - base), ReadStrings(page, base, ptrs[1..]);
      if first.Some? && rest.Some? then Some([first.value] + rest.value) else None
  }

  /** Offsets of the words, from that of the first. */
  function EnvOff(off: nat, argc: nat): nat { off + WORD * (2 + argc) }

  function AuxOff(off: nat, argc: nat, envc: nat): nat { EnvOff(off, argc) + WORD * (1 + envc) }

  datatype StackImage = StackImage(argc: nat, argv: seq<seq<byte>>, envp: seq<seq<byte>>, auxv: seq<(nat, nat)>)

  function ParseStack(page: seq<byte>, base: nat, sp: nat): Option<StackImage>
    requires base <= sp
  {
    var off := sp - base;
    if off + WORD > |page| then None
    else
      var argv := ReadPointers(page, off + WORD);
      if argv.None? then None
      else
        var envp := ReadPointers(page, EnvOff(off, |argv.value|));
        if envp.None? then None
        else
          var auxv := ReadAux(page, AuxOff(off, |argv.value|, |envp.value|));
          var args, env := ReadStrings(page, base, argv.value), ReadStrings(page, base, envp.value);
          if auxv.Some? && args.Some? && env.Some?
          then Some(StackImage(WordAt(page, off), args.value, env.value, auxv.value))
          else None
  }

  // ----- Where the strings go -----

  /** Room for the strings and their NULs. */
  function StringBytes(strs: seq<seq<byte>>): nat {
    if strs == [] then 0 else |strs[0]| + 1 + StringBytes(strs[1..])
  }

  /** Each string stands, with its NUL, right below the ones after it. */
  ghost predicate StringsAt(page: seq<byte>, strs: seq<seq<byte>>, top: nat) {
    && StringBytes(strs) <= top <= |page|
    && (strs != [] ==>
          var off := top - StringBytes(strs);
          && page[off..off + |strs[0]| + 1] == strs[0] + [0]
          && StringsAt(page, strs[1..], top))
  }

  function PointersTo(base: nat, strs: seq<seq<byte>>, top: nat): (ptrs: seq<nat>)
    requires StringBytes(strs) <= top
    ensures |ptrs| == |strs| && forall i | 0 <= i < |ptrs| :: base <= ptrs[i] <= base + top
  {
    if strs == [] then [] else [base + top - StringBytes(strs)] + PointersTo(base, strs[1..], top)
  }

  function AllBeforeNul(strs: seq<seq<byte>>): (r: seq<seq<byte>>)
    ensures |r| == |strs| && forall i | 0 <= i < |r| :: r[i] == BeforeNul(strs[i])
  {
    if strs == [] then [] else [BeforeNul(strs[0])] + AllBeforeNul(strs[1..])
  }

  lemma {:induction false} ReadsAllPlaced(page: seq<byte>, base: nat, strs: seq<seq<byte>>, top: nat)
    requires StringsAt(page, strs, top)
    ensures ReadStrings(page, base, PointersTo(base, strs, top)) == Some(AllBeforeNul(strs))
  {
    if strs != [] {
      ReadsPlaced(page, strs[0], top - StringBytes(strs));
      ReadsAllPlaced(page, base, strs[1..], top);
      assert PointersTo(base, strs, top)[1..] == PointersTo(base, strs[1..], top);
    }
  }

  lemma {:induction false} StringsSame(page: seq<byte>, page': seq<byte>, strs: seq<seq<byte>>, top: nat)
    requires StringsAt(page, strs, top) && |page'| == |page|
    requires forall i | top - StringBytes(strs) <= i < top :: page'[i] == page[i]
    ensures StringsAt(page', strs, top)
    decreases |strs|
  {
    if strs != [] {
      StringsSame(page, page', strs[1..], top);
      var off := top - StringBytes(strs);
      assert page'[off..off + |strs[0]| + 1] == page[off..off + |strs[0]| + 1];
    }
  }

  // ----- The words -----

  function Flat(auxv: seq<(Word, Word)>): (words: seq<nat>)
    ensures |words| == 2 * |auxv|
  {
    if auxv == [] then [] else [auxv[0].0, auxv[0].1] + Flat(auxv[1..])
  }

  function StackWords(argv: seq<nat>, envp: seq<nat>, auxv: seq<(Word, Word)>): (words: seq<nat>)
    ensures |words| == |argv| + |envp| + 2 * |auxv| + 5
  {
    [|argv|] + argv + [0] + envp + [0] + Flat(auxv) + [0, 0]
  }

  ghost predicate WordsAt(page: seq<byte>, off: nat, words: seq<nat>) {
    && off + WORD * |words| <= |page|
    && forall i | 0 <= i < |words| :: WordAt(page, off + WORD * i) == words[i]
  }

  lemma WordsSplit(page: seq<byte>, off: nat, a: seq<nat>, b: seq<nat>)
    requires WordsAt(page, off, a + b)
    ensures WordsAt(page, off, a) && WordsAt(page, off + WORD * |a|, b)
  {
    hide WordAt;
    forall i | 0 <= i < |a|
      ensures WordAt(page, off + WORD * i) == a[i]
    {
      assert (a + b)[i] == a[i];
    }
    forall i | 0 <= i < |b|
      ensures WordAt(page, off + WORD * |a| + WORD * i) == b[i]
    {
      assert (a + b)[|a| + i] == b[i];
      assert off + WORD * (|a| + i) == off + WORD * |a| + WORD * i;
    }
  }

  lemma {:induction false} ReadsPointers(page: seq<byte>, off: nat, ptrs: seq<nat>)
    requires WordsAt(page, off, ptrs + [0]) && forall i | 0 <= i < |ptrs| :: ptrs[i] != 0
    ensures ReadPointers(page, off) == Some(ptrs)
    decreases |ptrs|
  {
    hide WordAt;
    if ptrs == [] {
      assert (ptrs + [0])[0] == 0;
      assert WordAt(page, off + WORD * 0) == 0;
    } else {
      assert ptrs + [0] == [ptrs[0]] + (ptrs[1..] + [0]);
      WordsSplit(page, off, [ptrs[0]], ptrs[1..] + [0]);
      assert WordAt(page, off + WORD * 0) == [ptrs[0]][0];
      ReadsPointers(page, off + WORD, ptrs[1..]);
      assert ptrs == [ptrs[0]] + ptrs[1..];
    }
  }

  lemma {:induction false} ReadsAux(page: seq<byte>, off: nat, auxv: seq<(Word, Word)>)
    requires WordsAt(page, off, Flat(auxv) + [0, 0]) && forall i | 0 <= i < |auxv| :: auxv[i].0 != 0
    ensures ReadAux(page, off) == Some(auxv)
    decreases |auxv|
  {
    hide WordAt;
    if auxv == [] {
      assert (Flat(auxv) + [0, 0])[0] == 0;
      assert WordAt(page, off + WORD * 0) == 0;
    } else {
      var pair := [auxv[0].0, auxv[0].1];
      assert Flat(auxv) + [0, 0] == pair + (Flat(auxv[1..]) + [0, 0]);
      WordsSplit(page, off, pair, Flat(auxv[1..]) + [0, 0]);
      assert WordAt(page, off + WORD * 0) == pair[0];
      assert WordAt(page, off + WORD * 1) == pair[1];
      ReadsAux(page, off + 2 * WORD, auxv[1..]);
      assert auxv == [auxv[0]] + auxv[1..];
    }
  }

  /** A page that holds the strings and the words reads back as the arguments, the environment and
      the auxiliary vector. */
  lemma ParsesBack(page: seq<byte>, base: nat, off: nat, args: seq<seq<byte>>, envp: seq<seq<byte>>,
                   auxv: seq<(Word, Word)>)
    requires base > 0 && StringsAt(page, args, |page|) && StringsAt(page, envp, |page| - StringBytes(args))
    requires WordsAt(page, off, StackWords(PointersTo(base, args, |page|),
                                           PointersTo(base, envp, |page| - StringBytes(args)), auxv))
    requires forall i | 0 <= i < |auxv| :: auxv[i].0 != 0
    ensures ParseStack(page, base, base + off) == Some(StackImage(|args|, AllBeforeNul(args), AllBeforeNul(envp), auxv))
  {
    hide WordAt, StringsAt, PointersTo, ReadPointers, ReadAux, ReadStrings, WordsAt, StackWords, AllBeforeNul, Flat,
         EnvOff, AuxOff;
    PlacedFits(page, args, |page|);
    var top := |page| - StringBytes(args);
    PlacedFits(page, envp, top);
    WordsParse(page, off, PointersTo(base, args, |page|), PointersTo(base, envp, top), auxv);
    ReadsAllPlaced(page, base, args, |page|);
    ReadsAllPlaced(page, base, envp, top);
  }

  lemma PlacedFits(page: seq<byte>, strs: seq<seq<byte>>, top: nat)
    requires StringsAt(page, strs, top)
    ensures StringBytes(strs) <= top <= |page|
  {
  }

  /** The words, read in order. */
  lemma WordsParse(page: seq<byte>, off: nat, argv: seq<nat>, envp: seq<nat>, auxv: seq<(Word, Word)>)
    requires WordsAt(page, off, StackWords(argv, envp, auxv))
    requires (forall i | 0 <= i < |argv| :: argv[i] != 0) && (forall i | 0 <= i < |envp| :: envp[i] != 0)
    requires forall i | 0 <= i < |auxv| :: auxv[i].0 != 0
    ensures off + WORD <= |page| && WordAt(page, off) == |argv|
    ensures ReadPointers(page, off + WORD) == Some(argv)
    ensures ReadPointers(page, EnvOff(off, |argv|)) == Some(envp)
    ensures ReadAux(page, AuxOff(off, |argv|, |envp|)) == Some(auxv)
  {
    hide WordAt, WordsAt, ReadPointers, ReadAux, Flat, EnvOff, AuxOff;
    var env, aux := envp + [0], Flat(auxv) + [0, 0];
    assert StackWords(argv, envp, auxv) == [|argv|] + ((argv + [0]) + (env + aux));
    WordsSplit(page, off, [|argv|], (argv + [0]) + (env + aux));
    FirstWord(page, off, |argv|);
    var argOff := off + WORD;
    WordsSplit(page, argOff, argv + [0], env + aux);
    var envOff := argOff + WORD * |argv + [0]|;
    WordsSplit(page, envOff, env, aux);
    var auxOff := envOff + WORD * |env|;
    WordOffsets(off, |argv|, |envp|);
    ReadsPointers(page, argOff, argv);
    ReadsPointers(page, envOff, envp);
    ReadsAux(page, auxOff, auxv);
  }

  lemma WordOffsets(off: nat, argc: nat, envc: nat)
    ensures off + WORD + WORD * (argc + 1) == EnvOff(off, argc)
    ensures off + WORD + WORD * (argc + 1) + WORD * (envc + 1) == AuxOff(off, argc, envc)
  {
  }

  lemma FirstWord(page: seq<byte>, off: nat, w: nat)
    requires WordsAt(page, off, [w])
    ensures off + WORD <= |page| && WordAt(page, off) == w
  {
    hide WordAt;
    assert WordAt(page, off + WORD * 0) == [w][0];
  }

  // ----- Writing the page -----

  /** Copies the strings downward from `top`, the last one first. */
  method PushStrings(stack: array<byte>, base: nat, strs: seq<seq<byte>>, top: nat)
    returns (r: Result<nat>, ptrs: seq<nat>)
    requires top <= stack.Length
    modifies stack
    ensures r == if StringBytes(strs) <= top then Ok(top - StringBytes(strs)) else Err(OutOfMemory)
    ensures r.Ok? ==> StringsAt(stack[..], strs, top) && ptrs == PointersTo(base, strs, top)
    ensures forall i | top <= i < stack.Length :: stack[i] == old(stack[i])
  {
    hide StringsAt, PointersTo;
    var sp, i := top, |strs|;
    var pushed: seq<nat> := [];
    assert strs[|strs|..] == [];
    NoStringsAt(stack[..], base, top);
    while i > 0
      invariant 0 <= i <= |strs| && StringBytes(strs[i..]) <= top && sp == top - StringBytes(strs[i..])
      invariant StringsAt(stack[..], strs[i..], top)
      invariant Reversed(pushed) == PointersTo(base, strs[i..], top)
      invariant forall j | top <= j < stack.Length :: stack[j] == old(stack[j])
    {
      i := i - 1;
      var need := |strs[i]| + 1;
      assert strs[i..][1..] == strs[i + 1..];
      if sp < need {
        SuffixSize(strs, i);
        return Err(OutOfMemory), [];
      }
      sp := sp - need;
      ghost var before := stack[..];
      CopyIn(stack, sp, strs[i] + [0]);
      PlacedBelow(before, stack[..], base, strs[i..], top);
      pushed := pushed + [base + sp];
      ReversedPush(pushed[..|pushed| - 1], base + sp);
    }
    assert strs[0..] == strs;
    r, ptrs := Ok(sp), Reversed(pushed);
  }

  method CopyIn(stack: array<byte>, at: nat, data: seq<byte>)
    requires at + |data| <= stack.Length
    modifies stack
    ensures stack[at..at + |data|] == data
    ensures forall i | 0 <= i < at || at + |data| <= i < stack.Length :: stack[i] == old(stack[i])
  {
    forall i | 0 <= i < |data| {
      stack[at + i] := data[i];
    }
  }

  function Reversed(s: seq<nat>): (r: seq<nat>)
    ensures |r| == |s|
  {
    if s == [] then [] else Reversed(s[1..]) + [s[0]]
  }

  lemma {:induction false} ReversedPush(s: seq<nat>, x: nat)
    ensures Reversed(s + [x]) == [x] + Reversed(s)
  {
    if s != [] {
      ReversedPush(s[1..], x);
      assert (s + [x])[1..] == s[1..] + [x];
    }
  }

  lemma NoStringsAt(page: seq<byte>, base: nat, top: nat)
    requires top <= |page|
    ensures StringsAt(page, [], top) && PointersTo(base, [], top) == []
  {
  }

  lemma {:induction false} SuffixSize(strs: seq<seq<byte>>, i: nat)
    requires i <= |strs|
    ensures StringBytes(strs[i..]) <= StringBytes(strs)
  {
    if i > 0 {
      SuffixSize(strs[1..], i - 1);
      assert strs[1..][i - 1..] == strs[i..];
    }
  }

  lemma PlacedBelow(page: seq<byte>, page': seq<byte>, base: nat, strs: seq<seq<byte>>, top: nat)
    requires strs != [] && StringBytes(strs) <= top && StringsAt(page, strs[1..], top) && |page'| == |page|
    requires var off := top - StringBytes(strs); page'[off..off + |strs[0]| + 1] == strs[0] + [0]
    requires forall i | top - StringBytes(strs[1..]) <= i < |page| :: page'[i] == page[i]
    ensures StringsAt(page', strs, top)
    ensures PointersTo(base, strs, top) == [base + top - StringBytes(strs)] + PointersTo(base, strs[1..], top)
  {
    hide StringsAt, PointersTo, StringBytes;
    StringFirst(strs);
    var off := top - StringBytes(strs);
    PointersFirst(base, strs, top);
    PlacedFits(page, strs[1..], top);
    StringsSame(page, page', strs[1..], top);
    PlacedFirst(page', strs, top);
  }

  lemma StringFirst(strs: seq<seq<byte>>)
    requires strs != []
    ensures StringBytes(strs) == |strs[0]| + 1 + StringBytes(strs[1..])
  {
  }

  lemma PointersFirst(base: nat, strs: seq<seq<byte>>, top: nat)
    requires strs != [] && StringBytes(strs) <= top
    ensures PointersTo(base, strs, top) == [base + top - StringBytes(strs)] + PointersTo(base, strs[1..], top)
  {
  }

  lemma PlacedFirst(page: seq<byte>, strs: seq<seq<byte>>, top: nat)
    requires strs != [] && StringBytes(strs) <= top && StringsAt(page, strs[1..], top)
    requires var off := top - StringBytes(strs); page[off..off + |strs[0]| + 1] == strs[0] + [0]
    ensures StringsAt(page, strs, top)
  {
  }

  /** Writes the words upward from `sp`. */
  method PutWords(stack: array<byte>, sp: nat, words: seq<nat>)
    requires sp + WORD * |words| <= stack.Length && forall i | 0 <= i < |words| :: words[i] <= USIZE_MAX
    modifies stack
    ensures WordsAt(stack[..], sp, words)
    ensures forall i | 0 <= i < sp || sp + WORD * |words| <= i < stack.Length :: stack[i] == old(stack[i])
  {
    hide WordBytes, WordValue;
    for idx := 0 to |words|
      invariant forall i | 0 <= i < idx :: stack[sp + WORD * i..sp + WORD * i + WORD] == WordBytes(words[i], WORD)
      invariant forall i | 0 <= i < sp || sp + WORD * idx <= i < stack.Length :: stack[i] == old(stack[i])
    {
      ghost var before := stack[..];
      CopyIn(stack, sp + WORD * idx, WordBytes(words[idx], WORD));
      forall i | 0 <= i < idx
        ensures stack[sp + WORD * i..sp + WORD * i + WORD] == WordBytes(words[i], WORD)
      {
        assert stack[sp + WORD * i..sp + WORD * i + WORD] == before[sp + WORD * i..sp + WORD * i + WORD];
      }
    }
    forall i | 0 <= i < |words|
      ensures WordAt(stack[..], sp + WORD * i) == words[i]
    {
      assert stack[..][sp + WORD * i..sp + WORD * i + WORD] == WordBytes(words[i], WORD);
      WordFits(words[i]);
    }
  }

  /** The words go below `top`, at an aligned offset; no check after that can fail. */
  method PushWords(stack: array<byte>, words: seq<nat>, top: nat) returns (r: Result<nat>)
    requires top <= stack.Length && forall i | 0 <= i < |words| :: words[i] <= USIZE_MAX
    modifies stack
    ensures r.Ok? <==> WORD * |words| <= top
    ensures r.Err? ==> r.error == OutOfMemory
    ensures r.Ok? ==>
              && r.value % INITIAL_STACK_ALIGN == 0 && r.value + WORD * |words| <= top
              && WordsAt(stack[..], r.value, words)
    ensures forall i | top <= i < stack.Length :: stack[i] == old(stack[i])
  {
    hide WordsAt;
    if top < WORD * |words| {
      return Err(OutOfMemory);
    }
    var sp := top - WORD * |words|;
    sp := sp - sp % INITIAL_STACK_ALIGN;
    PutWords(stack, sp, words);
    r := Ok(sp);
  }

  predicate Fits(args: seq<seq<byte>>, envp: seq<seq<byte>>, auxv: seq<(Word, Word)>) {
    StringBytes(args) + StringBytes(envp) + WORD * (|args| + |envp| + 2 * |auxv| + 5) <= PGSIZE
  }

  /** The strings of the arguments, then those of the environment. */
  method PushAll(stack: array<byte>, base: nat, args: seq<seq<byte>>, envp: seq<seq<byte>>)
    returns (r: Result<nat>, argPtrs: seq<nat>, envPtrs: seq<nat>)
    modifies stack
    ensures r.Ok? <==> StringBytes(args) + StringBytes(envp) <= stack.Length
    ensures r.Err? ==> r.error == OutOfMemory
    ensures r.Ok? ==>
              && r.value == stack.Length - StringBytes(args) - StringBytes(envp)
              && StringsAt(stack[..], args, stack.Length)
              && StringsAt(stack[..], envp, stack.Length - StringBytes(args))
              && argPtrs == PointersTo(base, args, stack.Length)
              && envPtrs == PointersTo(base, envp, stack.Length - StringBytes(args))
  {
    hide StringsAt, PointersTo, StringBytes;
    argPtrs, envPtrs := [], [];
    r, argPtrs := PushStrings(stack, base, args, stack.Length);
    if r.Err? {
      return;
    }
    ghost var page := stack[..];
    r, envPtrs := PushStrings(stack, base, envp, r.value);
    if r.Ok? {
      StringsSame(page, stack[..], args, stack.Length);
    }
  }

  /** Words written below the strings leave them readable. */
  lemma ParsesAfter(page: seq<byte>, page': seq<byte>, base: nat, off: nat, args: seq<seq<byte>>, envp: seq<seq<byte>>,
                    auxv: seq<(Word, Word)>)
    requires base > 0 && StringsAt(page, args, |page|) && StringsAt(page, envp, |page| - StringBytes(args))
             && |page'| == |page|
    requires forall i | |page| - StringBytes(args) - StringBytes(envp) <= i < |page| :: page'[i] == page[i]
    requires WordsAt(page', off, StackWords(PointersTo(base, args, |page|),
                                            PointersTo(base, envp, |page| - StringBytes(args)), auxv))
    requires forall i | 0 <= i < |auxv| :: auxv[i].0 != 0
    ensures ParseStack(page', base, base + off) ==
              Some(StackImage(|args|, AllBeforeNul(args), AllBeforeNul(envp), auxv))
  {
    hide StringsAt, PointersTo, StringBytes, WordsAt, StackWords, ParseStack, AllBeforeNul;
    StringsSame(page, page', args, |page|);
    StringsSame(page, page', envp, |page| - StringBytes(args));
    ParsesBack(page', base, off, args, envp, auxv);
  }

  /** Fills the page and returns the stack pointer: aligned, and reading back from it gives the
      arguments, the environment and the auxiliary vector. It fails exactly when they do not fit. */
  method SetupInitialStack(stack: array<byte>, base: nat, fallback: seq<byte>, argv: seq<seq<byte>>,
                           envp: seq<seq<byte>>, auxv: seq<(Word, Word)>)
    returns (r: Result<nat>)
    requires stack.Length == PGSIZE && base > 0 && base % PGSIZE == 0 && base + PGSIZE <= USIZE_MAX
    requires forall i | 0 <= i < |auxv| :: auxv[i].0 != 0
    modifies stack
    ensures var args := if argv == [] then [fallback] else argv;
            && r.Ok? == Fits(args, envp, auxv) && (r.Err? ==> r.error == OutOfMemory)
            && (r.Ok? ==>
                  && r.value % INITIAL_STACK_ALIGN == 0 && base <= r.value < base + PGSIZE
                  && ParseStack(stack[..], base, r.value) ==
                       Some(StackImage(|args|, AllBeforeNul(args), AllBeforeNul(envp), auxv)))
  {
    hide StringsAt, PointersTo, WordsAt, ParseStack, Flat, StringBytes, AllBeforeNul, WordBytes, StackWords;
    forall i | 0 <= i < stack.Length {
      stack[i] := 0;
    }
    var args := if argv == [] then [fallback] else argv;
    var top, argPtrs, envPtrs := PushAll(stack, base, args, envp);
    if top.Err? {
      return Err(OutOfMemory);
    }
    ghost var page := stack[..];
    NulsCount(args);
    WordsFit(argPtrs, envPtrs, auxv);
    var sp := PushWords(stack, StackWords(argPtrs, envPtrs, auxv), top.value);
    if sp.Err? {
      return Err(OutOfMemory);
    }
    ParsesAfter(page, stack[..], base, sp.value, args, envp, auxv);
    AlignedSum(base, sp.value);
    r := Ok(base + sp.value);
  }

  lemma AlignedSum(base: nat, sp: nat)
    requires base % PGSIZE == 0 && sp % INITIAL_STACK_ALIGN == 0
    ensures (base + sp) % INITIAL_STACK_ALIGN == 0
  {
  }

  lemma {:induction false} NulsCount(strs: seq<seq<byte>>)
    ensures |strs| <= StringBytes(strs)
  {
    if strs != [] {
      NulsCount(strs[1..]);
    }
  }

  lemma WordsFit(argv: seq<nat>, envp: seq<nat>, auxv: seq<(Word, Word)>)
    requires |argv| <= PGSIZE
    requires forall i | 0 <= i < |argv| :: argv[i] <= USIZE_MAX
    requires forall i | 0 <= i < |envp| :: envp[i] <= USIZE_MAX
    ensures forall i | 0 <= i < |StackWords(argv, envp, auxv)| :: StackWords(argv, envp, auxv)[i] <= USIZE_MAX
  {
    FlatFits(auxv);
  }

  lemma {:induction false} FlatFits(auxv: seq<(Word, Word)>)
    ensures forall i | 0 <= i < |Flat(auxv)| :: Flat(auxv)[i] <= USIZE_MAX
  {
    if auxv != [] {
      FlatFits(auxv[1..]);
    }
  }
}
