/** The terminal line discipline: canonical editing, echo, and what the reader gets (section 11.1.6
    of POSIX.1-2017 XBD). */
module LineDiscipline {
  import opened Types

  const BS: byte := 8
  const LF: byte := 10
  const CR: byte := 13
  const SPACE: byte := 32
  const TILDE: byte := 126

  datatype Termios = Termios(icanon: bool, echo: bool, igncr: bool, icrnl: bool, inlcr: bool,
                             verase: byte, vkill: byte, veof: byte, vmin: byte)

  datatype Tty = Tty(termios: Termios, line: seq<byte>, readable: seq<byte>, lastWasCr: bool)

  // ----- One byte, many bytes -----

  /** The byte after input translation; none when it is discarded. */
  function InputByte(t: Termios, raw: byte): Option<byte> {
    if raw == CR && t.igncr then None
    else if raw == CR && t.icrnl then Some(LF)
    else if raw == LF && t.inlcr then Some(CR)
    else Some(raw)
  }

  function Rubouts(n: nat): (r: seq<byte>) {
    if n == 0 then [] else [BS, SPACE, BS] + Rubouts(n - 1)
  }

  function Echoed(t: Termios, bytes: seq<byte>): seq<byte> { if t.echo then bytes else [] }

  /** A translated byte: the state after it, and its echo. */
  function TakeByte(s: Tty, b: byte): (Tty, seq<byte>) {
    var t := s.termios;
    if !t.icanon then (s.(readable := s.readable + [b]), Echoed(t, [b]))
    else if b == t.verase then
      if s.line == [] then (s, []) else (s.(line := s.line[..|s.line| - 1]), Echoed(t, Rubouts(1)))
    else if b == t.vkill then (s.(line := []), Echoed(t, Rubouts(|s.line|)))
    else if b == t.veof then (s.(line := [], readable := s.readable + s.line), [])
    else if b == LF then (s.(line := [], readable := s.readable + s.line + [b]), Echoed(t, [b]))
    else (s.(line := s.line + [b]), Echoed(t, [b]))
  }

  function FeedByte(s: Tty, raw: byte): (Tty, seq<byte>) {
    if raw == LF && s.lastWasCr then (s.(lastWasCr := false), [])
    else
      var s1 := s.(lastWasCr := raw == CR);
      match InputByte(s.termios, raw)
      case None => (s1, [])
      case Some(b) => TakeByte(s1, b)
  }

  function Feed(s: Tty, input: seq<byte>): (Tty, seq<byte>)
    decreases |input|
  {
    if input == [] then (s, [])
    else
      var first := FeedByte(s, input[0]);
      var rest := Feed(first.0, input[1..]);
      (rest.0, first.1 + rest.1)
  }

  /** How the input is cut into pieces makes no difference. */
  lemma {:induction false} FeedConcat(s: Tty, a: seq<byte>, b: seq<byte>)
    ensures var first := Feed(s, a); var second := Feed(first.0, b);
            Feed(s, a + b) == (second.0, first.1 + second.1)
    decreases |a|
  {
    if a == [] {
      assert a + b == b;
      assert [] + Feed(s, b).1 == Feed(s, b).1;
    } else {
      var first := FeedByte(s, a[0]);
      FeedConcat(first.0, a[1..], b);
      assert (a + b)[0] == a[0] && (a + b)[1..] == a[1..] + b;
      var rest := Feed(first.0, a[1..]);
      assert first.1 + (rest.1 + Feed(rest.0, b).1) == (first.1 + rest.1) + Feed(rest.0, b).1;
    }
  }

  /** A return and a newline together are one newline. */
  lemma CrLfIsNewline(s: Tty)
    requires s.termios.icrnl && !s.termios.igncr && !s.termios.inlcr && !s.lastWasCr
    ensures Feed(s, [CR, LF]) == Feed(s, [LF])
  {
    assert [CR, LF] == [CR] + [LF];
    FeedConcat(s, [CR], [LF]);
    FeedSingle(s, CR);
    FeedSingle(s, LF);
    FeedSingle(FeedByte(s, CR).0, LF);
  }

  // ----- The echo on a screen of one line -----

  /** Cells and cursor; what is right of the cursor is blank. */
  datatype Screen = Screen(cells: seq<byte>, cursor: nat)

  function SetCell(cells: seq<byte>, at: nat, b: byte): seq<byte>
    requires at <= |cells|
  {
    if at == |cells| then cells + [b] else cells[at := b]
  }

  function Show(s: Screen, b: byte): (r: Screen)
    requires s.cursor <= |s.cells|
    ensures r.cursor <= |r.cells|
  {
    if b == LF then Screen([], 0)
    else if b == BS then s.(cursor := SatSub(s.cursor, 1))
    else Screen(SetCell(s.cells, s.cursor, b), s.cursor + 1)
  }

  function Replay(s: Screen, echo: seq<byte>): (r: Screen)
    requires s.cursor <= |s.cells|
    ensures r.cursor <= |r.cells|
    decreases |echo|
  {
    if echo == [] then s else Replay(Show(s, echo[0]), echo[1..])
  }

  lemma {:induction false} ReplayConcat(s: Screen, a: seq<byte>, b: seq<byte>)
    requires s.cursor <= |s.cells|
    ensures Replay(s, a + b) == Replay(Replay(s, a), b)
    decreases |a|
  {
    if a == [] {
      assert a + b == b;
    } else {
      assert (a + b)[0] == a[0] && (a + b)[1..] == a[1..] + b;
      ReplayConcat(Show(s, a[0]), a[1..], b);
    }
  }

  ghost predicate Displays(s: Screen, text: seq<byte>) {
    && s.cursor == |text| <= |s.cells| && s.cells[..s.cursor] == text
    && forall i | s.cursor <= i < |s.cells| :: s.cells[i] == SPACE
  }

  /** Each rubout blanks one cell, from the right. */
  lemma {:induction false} RuboutsErase(s: Screen, text: seq<byte>, n: nat)
    requires Displays(s, text) && n <= |text|
    ensures Displays(Replay(s, Rubouts(n)), text[..|text| - n])
    decreases n
  {
    if n == 0 {
      assert text[..|text|] == text;
    } else {
      var s1 := Show(Show(Show(s, BS), SPACE), BS);
      assert Displays(s1, text[..|text| - 1]);
      var r := [BS, SPACE, BS];
      ReplayRubout(s);
      ReplayConcat(s, r, Rubouts(n - 1));
      RuboutsErase(s1, text[..|text| - 1], n - 1);
      assert text[..|text| - 1][..|text| - 1 - (n - 1)] == text[..|text| - n];
    }
  }

  lemma ReplayRubout(s: Screen)
    requires s.cursor <= |s.cells|
    ensures Replay(s, [BS, SPACE, BS]) == Show(Show(Show(s, BS), SPACE), BS)
  {
    assert [BS, SPACE, BS][1..] == [SPACE, BS];
    assert [SPACE, BS][1..] == [BS];
    assert [BS][1..] == [];
    var s2 := Show(Show(s, BS), SPACE);
    assert Replay(s2, [BS]) == Show(s2, BS);
  }

  predicate Printable(b: byte) { SPACE <= b <= TILDE }

  /** Editing keys, newlines and printable characters. */
  predicate Plain(t: Termios, raw: byte) {
    match InputByte(t, raw)
    case None => true
    case Some(b) => b == t.verase || b == t.vkill || b == t.veof || b == LF || Printable(b)
  }

  /** What of the current screen line has already been handed to the reader. */
  function Sent(s: Tty, sent: seq<byte>, raw: byte): seq<byte> {
    if raw == LF && s.lastWasCr then sent
    else
      match InputByte(s.termios, raw)
      case None => sent
      case Some(b) =>
        var t := s.termios;
        if b == t.verase || b == t.vkill then sent
        else if b == t.veof then sent + s.line
        else if b == LF then []
        else sent
  }

  function SentAll(s: Tty, sent: seq<byte>, input: seq<byte>): seq<byte>
    decreases |input|
  {
    if input == [] then sent else SentAll(FeedByte(s, input[0]).0, Sent(s, sent, input[0]), input[1..])
  }

  lemma EchoShowsByte(s: Tty, screen: Screen, sent: seq<byte>, raw: byte)
    requires s.termios.icanon && s.termios.echo && Plain(s.termios, raw) && Displays(screen, sent + s.line)
    ensures var next := FeedByte(s, raw);
            next.0.termios == s.termios && Displays(Replay(screen, next.1), Sent(s, sent, raw) + next.0.line)
  {
    var t := s.termios;
    var next := FeedByte(s, raw);
    if next.1 == [] {
      if InputByte(t, raw) == Some(t.veof) && t.veof != t.verase && t.veof != t.vkill
         && next.0 != s.(lastWasCr := false) {
        assert sent + s.line + [] == sent + s.line;
      }
    } else {
      var b := InputByte(t, raw).value;
      if b == t.verase {
        RuboutsErase(screen, sent + s.line, 1);
        assert (sent + s.line)[..|sent + s.line| - 1] == sent + s.line[..|s.line| - 1];
      } else if b == t.vkill {
        RuboutsErase(screen, sent + s.line, |s.line|);
        assert (sent + s.line)[..|sent + s.line| - |s.line|] == sent + [];
      } else {
        assert next.1 == [b] && next.1[1..] == [];
        assert Replay(screen, next.1) == Show(screen, b);
        if b != LF {
          assert sent + (s.line + [b]) == (sent + s.line) + [b];
        }
      }
    }
  }

  /** On a terminal that echoes, the screen line always shows what was sent of it, then what is
      being edited. */
  lemma {:induction false} EchoShowsLine(s: Tty, screen: Screen, sent: seq<byte>, input: seq<byte>)
    requires s.termios.icanon && s.termios.echo && Displays(screen, sent + s.line)
    requires forall i | 0 <= i < |input| :: Plain(s.termios, input[i])
    ensures var (after, echo) := Feed(s, input);
            Displays(Replay(screen, echo), SentAll(s, sent, input) + after.line)
    decreases |input|
  {
    if input != [] {
      var next := FeedByte(s, input[0]);
      EchoShowsByte(s, screen, sent, input[0]);
      var screen1 := Replay(screen, next.1);
      EchoShowsLine(next.0, screen1, Sent(s, sent, input[0]), input[1..]);
      ReplayConcat(screen, next.1, Feed(next.0, input[1..]).1);
    }
  }

  // ----- Raw input -----

  /** A newline right after a return. */
  predicate HasCrLf(afterCr: bool, input: seq<byte>)
    decreases |input|
  {
    input != [] && ((afterCr && input[0] == LF) || HasCrLf(input[0] == CR, input[1..]))
  }

  /** Without translation and editing every byte should reach the reader. They all do exactly when no
      newline follows a return: such a newline is dropped whatever the flags say. */
  lemma {:induction false} RawKeepsAllIff(s: Tty, input: seq<byte>)
    requires !s.termios.icanon && !s.termios.igncr && !s.termios.icrnl && !s.termios.inlcr
    ensures |Feed(s, input).0.readable| <= |s.readable| + |input|
    ensures HasCrLf(s.lastWasCr, input) ==> |Feed(s, input).0.readable| < |s.readable| + |input|
    ensures Feed(s, input).0.readable == s.readable + input <==> !HasCrLf(s.lastWasCr, input)
    decreases |input|
  {
    if input == [] {
      assert s.readable + input == s.readable;
    } else {
      var next := FeedByte(s, input[0]);
      RawKeepsAllIff(next.0, input[1..]);
      if input[0] == LF && s.lastWasCr {
        assert |Feed(s, input).0.readable| <= |s.readable| + |input[1..]|;
      } else {
        assert s.readable + [input[0]] + input[1..] == s.readable + input;
      }
    }
  }

  // ----- The terminal -----

  class TtyCompatState {
    var termios: Termios
    var line: seq<byte>
    var readable: seq<byte>
    var lastWasCr: bool

    function State(): Tty
      reads this
    {
      Tty(termios, line, readable, lastWasCr)
    }

    constructor (t: Termios)
      ensures State() == Tty(t, [], [], false)
    {
      termios, line, readable, lastWasCr := t, [], [], false;
    }

    method CanonicalErase() returns (echo: seq<byte>)
      modifies this`line
      ensures line == (if old(line) == [] then [] else old(line)[..|old(line)| - 1])
      ensures echo == Rubouts(if old(line) == [] then 0 else 1)
    {
      echo := [];
      if line != [] {
        line := line[..|line| - 1];
        echo := [BS, SPACE, BS] + Rubouts(0);
      }
    }

    method CanonicalKill() returns (echo: seq<byte>)
      modifies this`line
      ensures line == [] && echo == Rubouts(|old(line)|)
    {
      echo := [];
      ghost var done := 0;
      while line != []
        invariant |line| + done == |old(line)| && echo == Rubouts(done)
        decreases |line|
      {
        line := line[..|line| - 1];
        RuboutsMore(done);
        echo := echo + [BS, SPACE, BS];
        done := done + 1;
      }
    }

    method FlushCanonical()
      modifies this`line, this`readable
      ensures line == [] && readable == old(readable) + old(line)
    {
      while line != []
        invariant readable + line == old(readable) + old(line)
        decreases |line|
      {
        readable, line := readable + [line[0]], line[1..];
      }
    }

    /** Feeds the bytes, one at a time, and returns their echo. */
    method FeedInput(input: seq<byte>) returns (echo: seq<byte>)
      modifies this
      ensures (State(), echo) == Feed(old(State()), input)
    {
      hide Feed, FeedByte;
      echo := [];
      FeedNothing(State());
      for i := 0 to |input|
        invariant (State(), echo) == Feed(old(State()), input[..i])
      {
        ghost var before, echo0 := State(), echo;
        var more := FeedOne(input[i]);
        echo := echo + more;
        FeedConcat(old(State()), input[..i], [input[i]]);
        FeedSingle(before, input[i]);
        assert input[..i] + [input[i]] == input[..i + 1];
      }
      assert input[..|input|] == input;
    }

    method FeedOne(raw: byte) returns (echo: seq<byte>)
      modifies this
      ensures (State(), echo) == FeedByte(old(State()), raw)
    {
      if raw == LF && lastWasCr {
        lastWasCr := false;
        return [];
      }
      lastWasCr := raw == CR;
      var b := InputByte(termios, raw);
      if b.None? {
        return [];
      }
      echo := TakeOne(b.value);
    }

    method TakeOne(b: byte) returns (echo: seq<byte>)
      modifies this
      ensures (State(), echo) == TakeByte(old(State()), b)
    {
      echo := [];
      if !termios.icanon {
        readable := readable + [b];
        echo := Echoed(termios, [b]);
      } else if b == termios.verase {
        var rubouts := CanonicalErase();
        echo := Echoed(termios, rubouts);
      } else if b == termios.vkill {
        var rubouts := CanonicalKill();
        echo := Echoed(termios, rubouts);
      } else if b == termios.veof {
        FlushCanonical();
      } else if b == LF {
        line := line + [b];
        ghost var line1 := line;
        FlushCanonical();
        assert readable == old(readable) + old(line) + [b];
        echo := Echoed(termios, [b]);
      } else {
        line := line + [b];
        echo := Echoed(termios, [b]);
      }
    }

    function CanReadNow(): bool
      reads this
    {
      readable != [] && (termios.icanon || termios.vmin == 0 || |readable| >= termios.vmin as nat)
    }

    /** Hands out bytes in the order they became readable; none is lost or repeated. */
    method TakeReadable(maxLen: nat) returns (out: seq<byte>)
      modifies this`readable
      ensures out + readable == old(readable)
      ensures |out| == if old(CanReadNow()) then Min(maxLen, |old(readable)|) else 0
    {
      out := [];
      if maxLen == 0 || !CanReadNow() {
        return;
      }
      var n := Min(maxLen, |readable|);
      for i := 0 to n
        invariant |out| == i && out + readable == old(readable)
      {
        out, readable := out + [readable[0]], readable[1..];
      }
    }
  }

  lemma FeedNothing(s: Tty)
    ensures Feed(s, []) == (s, [])
  {
  }

  lemma FeedSingle(s: Tty, b: byte)
    ensures Feed(s, [b]) == FeedByte(s, b)
  {
    assert [b][1..] == [];
    var first := FeedByte(s, b);
    assert first.1 + [] == first.1;
  }

  lemma {:induction false} RuboutsMore(n: nat)
    ensures Rubouts(n) + [BS, SPACE, BS] == Rubouts(n + 1)
  {
    if n > 0 {
      RuboutsMore(n - 1);
      assert Rubouts(n) + [BS, SPACE, BS] == [BS, SPACE, BS] + (Rubouts(n - 1) + [BS, SPACE, BS]);
    }
  }
}
