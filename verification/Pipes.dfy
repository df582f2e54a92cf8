/** Anonymous pipes: bytes in order, reader and writer counts, and no effect on other pipes. */
module Pipes {
  import opened Types

  const PIPE_DEFAULT_CAPACITY: nat := 64 * 1024

  datatype PipeEnd = ReadEnd | WriteEnd

  datatype PipeState = PipeState(buf: seq<byte>, readers: nat, writers: nat)

  /** What was put into a pipe and what was taken out, and the handles that are open. */
  datatype PipeHistory = PipeHistory(accepted: seq<byte>, delivered: seq<byte>, readHandles: nat, writeHandles: nat)

  ghost predicate PipeOk(p: PipeState, h: PipeHistory) {
    && h.accepted == h.delivered + p.buf
    && |p.buf| <= PIPE_DEFAULT_CAPACITY
    && p.readers == h.readHandles && p.writers == h.writeHandles
  }

  type Pipes = map<nat, PipeState>
  type Histories = map<nat, PipeHistory>

  /** Nothing but the pipe `id` has changed. */
  ghost predicate OnlyPipe(pipes: Pipes, pipes': Pipes, id: nat) {
    forall q | q != id :: (q in pipes' <==> q in pipes) && (q in pipes ==> pipes'[q] == pipes[q])
  }

  class PipeRegistry {
    var pipes: Pipes
    var nextPipeId: nat

    ghost var history: Histories

    ghost predicate Valid()
      reads this
    {
      && (forall id | id in pipes :: id in history && id < nextPipeId && PipeOk(pipes[id], history[id]))
      && (forall id | id in history && id !in pipes :: history[id].readHandles == 0 && history[id].writeHandles == 0)
      && (forall id | id in history :: id < nextPipeId && history[id].delivered <= history[id].accepted)
    }

    constructor ()
      ensures Valid() && pipes == map[]
    {
      pipes, nextPipeId, history := map[], 1, map[];
    }

    method CreatePipe() returns (id: nat)
      requires Valid() && nextPipeId < USIZE_MAX
      modifies this
      ensures Valid() && id == old(nextPipeId) && nextPipeId == id + 1 && id !in old(history) && id !in old(pipes)
      ensures pipes == old(pipes)[id := PipeState([], 0, 0)] && history == old(history)[id := PipeHistory([], [], 0, 0)]
    {
      id := nextPipeId;
      nextPipeId := nextPipeId + 1;
      pipes := pipes[id := PipeState([], 0, 0)];
      history := history[id := PipeHistory([], [], 0, 0)];
    }

    method OpenPipe(id: nat, end: PipeEnd) returns (found: bool)
      requires Valid()
      modifies this
      ensures Valid() && OnlyPipe(old(pipes), pipes, id) && nextPipeId == old(nextPipeId)
      ensures found <==> id in old(pipes)
      ensures found ==>
                && id in old(history)
                && history == old(history)[id :=
                     if end.ReadEnd? then old(history)[id].(readHandles := old(history)[id].readHandles + 1)
                     else old(history)[id].(writeHandles := old(history)[id].writeHandles + 1)]
      ensures !found ==> history == old(history)
    {
      if id !in pipes {
        return false;
      }
      var p := pipes[id];
      ghost var h := history[id];
      match end {
        case ReadEnd =>
          pipes := pipes[id := p.(readers := p.readers + 1)];
          history := history[id := h.(readHandles := h.readHandles + 1)];
        case WriteEnd =>
          pipes := pipes[id := p.(writers := p.writers + 1)];
          history := history[id := h.(writeHandles := h.writeHandles + 1)];
      }
      found := true;
    }

    /** The oldest bytes go first; `end` tells a reader that nothing more can come. */
    method Read(id: nat, room: nat) returns (r: Option<(seq<byte>, bool)>)
      requires Valid()
      modifies this
      ensures Valid() && OnlyPipe(old(pipes), pipes, id) && nextPipeId == old(nextPipeId)
      ensures r.Some? <==> id in old(pipes)
      ensures r.Some? ==>
                && id in old(history) && id in pipes && r.value.0 + pipes[id].buf == old(pipes)[id].buf
                && |r.value.0| == Min(room, |old(pipes)[id].buf|)
                && (r.value.1 <==> old(history)[id].writeHandles == 0)
                && history == old(history)[id := old(history)[id].(delivered := old(history)[id].delivered + r.value.0)]
      ensures r.None? ==> history == old(history)
    {
      if id !in pipes {
        return None;
      }
      var buf, out := pipes[id].buf, [];
      while |out| < room && buf != []
        invariant out + buf == pipes[id].buf && |out| <= room
        decreases |buf|
      {
        out, buf := out + [buf[0]], buf[1..];
      }
      ghost var h := history[id];
      assert h.delivered + pipes[id].buf == (h.delivered + out) + buf;
      history := history[id := h.(delivered := h.delivered + out)];
      pipes := pipes[id := pipes[id].(buf := buf)];
      r := Some((out, pipes[id].writers == 0));
    }

    /** As many bytes as there is room for; none, and a broken pipe, without a reader. */
    method Write(id: nat, src: seq<byte>) returns (r: Option<(nat, bool)>)
      requires Valid()
      modifies this
      ensures Valid() && OnlyPipe(old(pipes), pipes, id) && nextPipeId == old(nextPipeId)
      ensures r.Some? <==> id in old(pipes)
      ensures r.Some? ==>
                && id in old(history) && (r.value.1 <==> old(history)[id].readHandles == 0)
                && r.value.0 == (if r.value.1 then 0 else Min(PIPE_DEFAULT_CAPACITY - |old(pipes)[id].buf|, |src|))
                && r.value.0 <= |src|
                && history == old(history)[id :=
                     old(history)[id].(accepted := old(history)[id].accepted + src[..r.value.0])]
      ensures r.None? ==> history == old(history)
    {
      if id !in pipes {
        return None;
      }
      var p := pipes[id];
      ghost var h := history[id];
      if p.readers == 0 {
        assert h.accepted + src[..0] == h.accepted;
        assert history == history[id := h];
        return Some((0, true));
      }
      var n := Min(SatSub(PIPE_DEFAULT_CAPACITY, |p.buf|), |src|);
      assert (h.delivered + p.buf) + src[..n] == h.delivered + (p.buf + src[..n]);
      pipes := pipes[id := p.(buf := p.buf + src[..n])];
      history := history[id := h.(accepted := h.accepted + src[..n])];
      r := Some((n, false));
    }

    /** A handle is closed; the pipe goes when none is left. A close of an end with no handle, or of
        a pipe that is gone, takes nothing off. */
    method CloseEnd(id: nat, end: PipeEnd)
      requires Valid()
      modifies this
      ensures Valid() && OnlyPipe(old(pipes), pipes, id) && nextPipeId == old(nextPipeId)
      ensures id !in old(pipes) ==> pipes == old(pipes) && history == old(history)
      ensures id in old(pipes) ==>
                && id in old(history)
                && history == old(history)[id :=
                     if end.ReadEnd? then old(history)[id].(readHandles := SatSub(old(history)[id].readHandles, 1))
                     else old(history)[id].(writeHandles := SatSub(old(history)[id].writeHandles, 1))]
                && (id in pipes <==> history[id].readHandles > 0 || history[id].writeHandles > 0)
                && (id in pipes ==> pipes[id].buf == old(pipes)[id].buf)
    {
      if id !in pipes {
        return;
      }
      var p := pipes[id];
      ghost var h := history[id];
      var p' := if end.ReadEnd? then p.(readers := SatSub(p.readers, 1)) else p.(writers := SatSub(p.writers, 1));
      history := history[id := if end.ReadEnd? then h.(readHandles := SatSub(h.readHandles, 1))
                               else h.(writeHandles := SatSub(h.writeHandles, 1))];
      if p'.readers == 0 && p'.writers == 0 {
        pipes := Remove(pipes, id);
      } else {
        pipes := pipes[id := p'];
      }
    }
  }

  // ----- Runs -----

  datatype Call =
    | CallCreate
    | CallOpen(id: nat, end: PipeEnd)
    | CallRead(id: nat, room: nat)
    | CallWrite(id: nat, src: seq<byte>)
    | CallClose(id: nat, end: PipeEnd)

  datatype Reply = Done | Opened(found: bool) | Bytes(data: seq<byte>) | Accepted(n: nat)

  /** What a call put into the pipe `id`, and what it took out. */
  ghost function PutBy(id: nat, call: Call, reply: Reply): seq<byte> {
    if call.CallWrite? && call.id == id && reply.Accepted? && reply.n <= |call.src| then call.src[..reply.n] else []
  }

  ghost function TakenBy(id: nat, call: Call, reply: Reply): seq<byte> {
    if call.CallRead? && call.id == id && reply.Bytes? then reply.data else []
  }

  ghost function PutIn(id: nat, calls: seq<Call>, replies: seq<Reply>): seq<byte>
    requires |calls| == |replies|
  {
    var n := |calls| - 1;
    if calls == [] then [] else PutIn(id, calls[..n], replies[..n]) + PutBy(id, calls[n], replies[n])
  }

  ghost function TakenOut(id: nat, calls: seq<Call>, replies: seq<Reply>): seq<byte>
    requires |calls| == |replies|
  {
    var n := |calls| - 1;
    if calls == [] then [] else TakenOut(id, calls[..n], replies[..n]) + TakenBy(id, calls[n], replies[n])
  }

  predicate OpensBy(id: nat, end: PipeEnd, call: Call, reply: Reply) {
    call.CallOpen? && call.id == id && call.end == end && reply == Opened(true)
  }

  predicate ClosesBy(id: nat, end: PipeEnd, call: Call) {
    call.CallClose? && call.id == id && call.end == end
  }

  function HandlesBy(id: nat, end: PipeEnd, call: Call, reply: Reply, n: nat): nat {
    if OpensBy(id, end, call, reply) then n + 1 else if ClosesBy(id, end, call) then SatSub(n, 1) else n
  }

  /** The handles open on one end after the calls, from `n` before them. */
  ghost function Handles(id: nat, end: PipeEnd, calls: seq<Call>, replies: seq<Reply>, n: nat): nat
    requires |calls| == |replies|
  {
    var k := |calls| - 1;
    if calls == [] then n else HandlesBy(id, end, calls[k], replies[k], Handles(id, end, calls[..k], replies[..k], n))
  }

  ghost function Opens(id: nat, end: PipeEnd, calls: seq<Call>, replies: seq<Reply>): nat
    requires |calls| == |replies|
  {
    var k := |calls| - 1;
    if calls == [] then 0
    else Opens(id, end, calls[..k], replies[..k]) + if OpensBy(id, end, calls[k], replies[k]) then 1 else 0
  }

  ghost function Closes(id: nat, end: PipeEnd, calls: seq<Call>): nat {
    var k := |calls| - 1;
    if calls == [] then 0 else Closes(id, end, calls[..k]) + if ClosesBy(id, end, calls[k]) then 1 else 0
  }

  /** As long as nobody closes what is not open, the handles are the opens less the closes. */
  lemma {:induction false} HandlesAreOpensLessCloses(id: nat, end: PipeEnd, calls: seq<Call>, replies: seq<Reply>,
                                                     n: nat)
    requires |calls| == |replies|
    requires forall k | 0 <= k <= |calls| :: Closes(id, end, calls[..k]) <= n + Opens(id, end, calls[..k], replies[..k])
    ensures Closes(id, end, calls) + Handles(id, end, calls, replies, n) == n + Opens(id, end, calls, replies)
  {
    if calls != [] {
      var k := |calls| - 1;
      forall j | 0 <= j <= k
        ensures Closes(id, end, calls[..k][..j]) <= n + Opens(id, end, calls[..k][..j], replies[..k][..j])
      {
        assert calls[..k][..j] == calls[..j] && replies[..k][..j] == replies[..j];
      }
      HandlesAreOpensLessCloses(id, end, calls[..k], replies[..k], n);
      assert calls[..|calls|] == calls && replies[..|calls|] == replies;
      assert Closes(id, end, calls[..|calls|]) <= n + Opens(id, end, calls[..|calls|], replies[..|calls|]);
    }
  }

  ghost function HandlesOf(h: PipeHistory, end: PipeEnd): nat {
    if end.ReadEnd? then h.readHandles else h.writeHandles
  }

  ghost function HistoryOf(history: Histories, id: nat): PipeHistory {
    if id in history then history[id] else PipeHistory([], [], 0, 0)
  }

  /** The history of every pipe, gone or not, has grown by just what the calls put in and took out. */
  ghost predicate Accrued(history: Histories, history': Histories, calls: seq<Call>, replies: seq<Reply>) {
    && |calls| == |replies|
    && forall id: nat ::
         && HistoryOf(history', id).accepted == HistoryOf(history, id).accepted + PutIn(id, calls, replies)
         && HistoryOf(history', id).delivered == HistoryOf(history, id).delivered + TakenOut(id, calls, replies)
         && forall end: PipeEnd ::
              HandlesOf(HistoryOf(history', id), end) ==
                Handles(id, end, calls, replies, HandlesOf(HistoryOf(history, id), end))
  }

  /** One call has changed the histories as it says. */
  ghost predicate AccruedBy(history: Histories, history': Histories, call: Call, reply: Reply) {
    forall id: nat ::
      && HistoryOf(history', id).accepted == HistoryOf(history, id).accepted + PutBy(id, call, reply)
      && HistoryOf(history', id).delivered == HistoryOf(history, id).delivered + TakenBy(id, call, reply)
      && forall end: PipeEnd ::
           HandlesOf(HistoryOf(history', id), end) ==
             HandlesBy(id, end, call, reply, HandlesOf(HistoryOf(history, id), end))
  }

  lemma AccruedNext(h0: Histories, h1: Histories, h2: Histories, calls: seq<Call>, replies: seq<Reply>, call: Call,
                    reply: Reply)
    requires Accrued(h0, h1, calls, replies)
    requires AccruedBy(h1, h2, call, reply)
    ensures Accrued(h0, h2, calls + [call], replies + [reply])
  {
    hide HistoryOf, PutBy, TakenBy, HandlesBy, HandlesOf;
    var calls', replies' := calls + [call], replies + [reply];
    assert calls'[..|calls|] == calls && replies'[..|calls|] == replies;
    forall id: nat
      ensures HistoryOf(h2, id).accepted == HistoryOf(h0, id).accepted + PutIn(id, calls', replies')
      ensures HistoryOf(h2, id).delivered == HistoryOf(h0, id).delivered + TakenOut(id, calls', replies')
      ensures forall end: PipeEnd ::
                HandlesOf(HistoryOf(h2, id), end) ==
                  Handles(id, end, calls', replies', HandlesOf(HistoryOf(h0, id), end))
    {
      assert PutIn(id, calls', replies') == PutIn(id, calls, replies) + PutBy(id, call, reply);
      assert TakenOut(id, calls', replies') == TakenOut(id, calls, replies) + TakenBy(id, call, reply);
    }
  }

  lemma NothingBy(h: Histories, call: Call, reply: Reply)
    requires !call.CallClose? && !reply.Bytes? && !reply.Accepted? && reply != Opened(true)
    ensures AccruedBy(h, h, call, reply)
  {
  }

  lemma CreatedBy(h: Histories, id: nat)
    requires id !in h
    ensures AccruedBy(h, h[id := PipeHistory([], [], 0, 0)], CallCreate, Done)
  {
  }

  lemma OpenedBy(h: Histories, id: nat, end: PipeEnd)
    requires id in h
    ensures AccruedBy(h, h[id := if end.ReadEnd? then h[id].(readHandles := h[id].readHandles + 1)
                                 else h[id].(writeHandles := h[id].writeHandles + 1)], CallOpen(id, end), Opened(true))
  {
  }

  lemma ClosedBy(h: Histories, id: nat, end: PipeEnd)
    ensures id in h ==>
              AccruedBy(h,
                        h[id := if end.ReadEnd? then h[id].(readHandles := SatSub(h[id].readHandles, 1))
                                else h[id].(writeHandles := SatSub(h[id].writeHandles, 1))],
                        CallClose(id, end), Done)
    ensures HandlesOf(HistoryOf(h, id), end) == 0 ==> AccruedBy(h, h, CallClose(id, end), Done)
  {
  }

  lemma ReadBy(h: Histories, id: nat, room: nat, data: seq<byte>)
    requires id in h
    ensures AccruedBy(h, h[id := h[id].(delivered := h[id].delivered + data)], CallRead(id, room), Bytes(data))
  {
  }

  lemma WrittenBy(h: Histories, id: nat, src: seq<byte>, n: nat)
    requires id in h && n <= |src|
    ensures AccruedBy(h, h[id := h[id].(accepted := h[id].accepted + src[..n])], CallWrite(id, src), Accepted(n))
  {
  }

  lemma GoneHasNoHandles(registry: PipeRegistry, id: nat, end: PipeEnd)
    requires registry.Valid() && id !in registry.pipes
    ensures HandlesOf(HistoryOf(registry.history, id), end) == 0
  {
  }

  method Step(registry: PipeRegistry, call: Call) returns (reply: Reply)
    requires registry.Valid() && registry.nextPipeId < USIZE_MAX
    modifies registry
    ensures registry.Valid() && registry.nextPipeId <= old(registry.nextPipeId) + 1
    ensures AccruedBy(old(registry.history), registry.history, call, reply)
  {
    hide PipeRegistry.Valid, OnlyPipe, AccruedBy, HandlesOf, HistoryOf;
    ghost var h := registry.history;
    reply := Done;
    match call
    case CallCreate =>
      var id := registry.CreatePipe();
      CreatedBy(h, id);
    case CallOpen(id, end) =>
      var found := registry.OpenPipe(id, end);
      reply := Opened(found);
      if found {
        OpenedBy(h, id, end);
      } else {
        NothingBy(h, call, reply);
      }
    case CallRead(id, room) =>
      var r := registry.Read(id, room);
      if r.Some? {
        reply := Bytes(r.value.0);
        ReadBy(h, id, room, r.value.0);
      } else {
        NothingBy(h, call, reply);
      }
    case CallWrite(id, src) =>
      var r := registry.Write(id, src);
      if r.Some? {
        reply := Accepted(r.value.0);
        WrittenBy(h, id, src, r.value.0);
      } else {
        NothingBy(h, call, reply);
      }
    case CallClose(id, end) =>
      if id !in registry.pipes {
        GoneHasNoHandles(registry, id, end);
      }
      ClosedBy(h, id, end);
      registry.CloseEnd(id, end);
  }

  /** Over any interleaving on any number of pipes each pipe conserves its bytes: what its readers
      got is, in order, the first part of what its writers had accepted, and the rest is what the
      pipe still holds. */
  method RunAll(registry: PipeRegistry, calls: seq<Call>) returns (replies: seq<Reply>)
    requires registry.Valid() && registry.nextPipeId + |calls| <= USIZE_MAX
    modifies registry
    ensures registry.Valid() && Accrued(old(registry.history), registry.history, calls, replies)
    ensures old(registry.history) == map[] ==>
              forall id: nat ::
                && TakenOut(id, calls, replies) <= PutIn(id, calls, replies)
                && (id in registry.pipes ==>
                      && PutIn(id, calls, replies) == TakenOut(id, calls, replies) + registry.pipes[id].buf
                      && registry.pipes[id].readers == Handles(id, ReadEnd, calls, replies, 0)
                      && registry.pipes[id].writers == Handles(id, WriteEnd, calls, replies, 0))
  {
    hide PipeRegistry.Valid, Accrued, HistoryOf, PutBy, TakenBy, PutIn, TakenOut, HandlesOf, Handles;
    replies := [];
    NothingAccrued(registry.history);
    assert calls[..0] == [];
    for i := 0 to |calls|
      invariant |replies| == i && registry.Valid() && registry.nextPipeId + |calls| - i <= USIZE_MAX
      invariant Accrued(old(registry.history), registry.history, calls[..i], replies)
    {
      ghost var h1 := registry.history;
      var reply := Step(registry, calls[i]);
      AccruedNext(old(registry.history), h1, registry.history, calls[..i], replies, calls[i], reply);
      assert calls[..i] + [calls[i]] == calls[..i + 1];
      replies := replies + [reply];
    }
    assert calls[..|calls|] == calls;
    if old(registry.history) == map[] {
      Conserved(registry, calls, replies);
    }
  }

  lemma NothingAccrued(history: Histories)
    ensures Accrued(history, history, [], [])
  {
  }

  lemma Conserved(registry: PipeRegistry, calls: seq<Call>, replies: seq<Reply>)
    requires registry.Valid() && Accrued(map[], registry.history, calls, replies)
    ensures forall id: nat ::
              && TakenOut(id, calls, replies) <= PutIn(id, calls, replies)
              && (id in registry.pipes ==>
                    && PutIn(id, calls, replies) == TakenOut(id, calls, replies) + registry.pipes[id].buf
                    && registry.pipes[id].readers == Handles(id, ReadEnd, calls, replies, 0)
                    && registry.pipes[id].writers == Handles(id, WriteEnd, calls, replies, 0))
  {
    hide Handles;
    forall id: nat
      ensures TakenOut(id, calls, replies) <= PutIn(id, calls, replies)
      ensures id in registry.pipes ==>
                && PutIn(id, calls, replies) == TakenOut(id, calls, replies) + registry.pipes[id].buf
                && registry.pipes[id].readers == Handles(id, ReadEnd, calls, replies, 0)
                && registry.pipes[id].writers == Handles(id, WriteEnd, calls, replies, 0)
    {
      assert HistoryOf(registry.history, id).accepted == HistoryOf(map[], id).accepted + PutIn(id, calls, replies);
      assert HistoryOf(registry.history, id).accepted == PutIn(id, calls, replies);
      assert HistoryOf(registry.history, id).delivered == TakenOut(id, calls, replies);
      if id in registry.pipes {
        assert PipeOk(registry.pipes[id], registry.history[id]);
        assert HandlesOf(HistoryOf(registry.history, id), ReadEnd) == Handles(id, ReadEnd, calls, replies, 0);
        assert HandlesOf(HistoryOf(registry.history, id), WriteEnd) == Handles(id, WriteEnd, calls, replies, 0);
      }
    }
  }
}
