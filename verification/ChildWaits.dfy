/** wait4 and child events: deferred replies, and the history that shows no exit is lost and none
    is reaped twice. */
module ChildWaits {
  import opened Types

  datatype EventKind = Exited | Stopped | Continued

  datatype ChildEvent = ChildEvent(child: Pid, status: int, pgid: nat, kind: EventKind)

  datatype Options = Options(noHang: bool, untraced: bool, continued: bool)

  datatype Task = Task(parent: Pid, pgid: nat, waitBlock: Option<(int, nat)>)

  datatype PendingWait = PendingWait(replySlot: Slot, target: int, options: Options, callerPgid: nat)

  datatype WaitResult =
    | Reaped(child: Pid, status: int)
    | NoChild
    | NothingYet
    | Deferred
    | Failed(error: Error)

  type Events = map<Pid, seq<ChildEvent>>
  type Tasks = map<Pid, Task>
  type Pendings = map<Pid, PendingWait>

  // ----- Matching -----

  predicate Matches(child: Pid, childPgid: nat, target: int, callerPgid: nat) {
    if target == -1 then true
    else if target > 0 then child == target
    else if target == 0 then childPgid == callerPgid
    else childPgid == -target
  }

  predicate Enabled(kind: EventKind, options: Options) {
    match kind
    case Exited => true
    case Stopped => options.untraced
    case Continued => options.continued
  }

  predicate Wanted(e: ChildEvent, target: int, options: Options, callerPgid: nat) {
    Enabled(e.kind, options) && Matches(e.child, e.pgid, target, callerPgid)
  }

  function QueueOf(events: Events, p: Pid): seq<ChildEvent> {
    if p in events then events[p] else []
  }

  /** The oldest event that is wanted. */
  function FirstWanted(queue: seq<ChildEvent>, target: int, options: Options, callerPgid: nat): (pos: Option<nat>)
    ensures pos.Some? ==>
              && pos.value < |queue| && Wanted(queue[pos.value], target, options, callerPgid)
              && forall i | 0 <= i < pos.value :: !Wanted(queue[i], target, options, callerPgid)
    ensures pos.None? ==> forall i | 0 <= i < |queue| :: !Wanted(queue[i], target, options, callerPgid)
  {
    if queue == [] then None
    else if Wanted(queue[0], target, options, callerPgid) then Some(0)
    else
      var rest := FirstWanted(queue[1..], target, options, callerPgid);
      assert forall i | 1 <= i < |queue| :: queue[i] == queue[1..][i - 1];
      if rest.Some? then Some(rest.value + 1) else None
  }

  predicate HasLiveChild(tasks: Tasks, parent: Pid, target: int, callerPgid: nat) {
    exists c :: c in tasks && tasks[c].parent == parent && Matches(c, tasks[c].pgid, target, callerPgid)
  }

  // ----- History: what became of every event and of every deferred wait -----

  /** All the events recorded for one parent; which of them still wait, oldest first, and which
      were reaped, in the order they were. */
  datatype Ledger = Ledger(recorded: seq<ChildEvent>, waiting: seq<nat>, reaped: seq<nat>)

  function LedgerOf(ledgers: map<Pid, Ledger>, p: Pid): Ledger {
    if p in ledgers then ledgers[p] else Ledger([], [], [])
  }

  /** The queue holds exactly the events not reaped, in the order recorded; none is reaped twice. */
  ghost predicate LedgerOk(l: Ledger, queue: seq<ChildEvent>) {
    && |l.waiting| == |queue|
    && (forall i | 0 <= i < |queue| :: l.waiting[i] < |l.recorded| && queue[i] == l.recorded[l.waiting[i]])
    && (forall i, j | 0 <= i < j < |l.waiting| :: l.waiting[i] < l.waiting[j])
    && (forall i, j | 0 <= i < j < |l.reaped| :: l.reaped[i] != l.reaped[j])
    && (forall n | n in l.reaped :: n < |l.recorded| && n !in l.waiting)
    && (forall n: nat | n < |l.recorded| :: n in l.waiting || n in l.reaped)
  }

  function Noted(l: Ledger, e: ChildEvent): Ledger {
    Ledger(l.recorded + [e], l.waiting + [|l.recorded|], l.reaped)
  }

  function Taken(l: Ledger, pos: nat): Ledger
    requires pos < |l.waiting|
  {
    Ledger(l.recorded, Cut(l.waiting, pos), l.reaped + [l.waiting[pos]])
  }

  function Cut<T>(s: seq<T>, pos: nat): (r: seq<T>)
    requires pos < |s|
    ensures |r| == |s| - 1
    ensures forall i | 0 <= i < |r| :: r[i] == if i < pos then s[i] else s[i + 1]
  {
    s[..pos] + s[pos + 1..]
  }

  lemma NotedOk(l: Ledger, queue: seq<ChildEvent>, e: ChildEvent)
    requires LedgerOk(l, queue)
    ensures LedgerOk(Noted(l, e), queue + [e])
  {
    var l' := Noted(l, e);
    forall n: nat | n < |l'.recorded|
      ensures n in l'.waiting || n in l'.reaped
    {
      if n == |l.recorded| {
        assert l'.waiting[|l.waiting|] == n;
      } else if n in l.waiting {
        assert n in l'.waiting;
      }
    }
    forall n | n in l.waiting
      ensures n < |l.recorded|
    {
      var i :| 0 <= i < |l.waiting| && l.waiting[i] == n;
    }
  }

  lemma TakenOk(l: Ledger, queue: seq<ChildEvent>, pos: nat)
    requires LedgerOk(l, queue) && pos < |queue|
    ensures LedgerOk(Taken(l, pos), Cut(queue, pos))
    ensures l.waiting[pos] !in l.reaped
  {
    var l' := Taken(l, pos);
    assert l.waiting[pos] in l.waiting;
    TakenWaiting(l, queue, pos);
    forall n: nat | n < |l'.recorded|
      ensures n in l'.waiting || n in l'.reaped
    {
      TakenSomewhere(l, queue, pos, n);
    }
    forall n | n in l'.reaped
      ensures n < |l'.recorded| && n !in l'.waiting
    {
      assert n in l.reaped || n == l.waiting[pos];
      TakenGone(l, queue, pos, n);
    }
    forall i, j | 0 <= i < j < |l'.reaped|
      ensures l'.reaped[i] != l'.reaped[j]
    {
      assert l'.reaped[i] == l.reaped[i] && l.reaped[i] in l.reaped;
    }
  }

  /** What is left of the queue is in order, and does not hold the event taken. */
  lemma TakenWaiting(l: Ledger, queue: seq<ChildEvent>, pos: nat)
    requires LedgerOk(l, queue) && pos < |queue|
    ensures var waiting', queue' := Cut(l.waiting, pos), Cut(queue, pos);
            && |waiting'| == |queue'|
            && (forall i | 0 <= i < |queue'| :: waiting'[i] < |l.recorded| && queue'[i] == l.recorded[waiting'[i]])
            && (forall i, j | 0 <= i < j < |waiting'| :: waiting'[i] < waiting'[j])
  {
  }

  lemma TakenGone(l: Ledger, queue: seq<ChildEvent>, pos: nat, n: nat)
    requires LedgerOk(l, queue) && pos < |queue| && (n in l.reaped || n == l.waiting[pos])
    ensures n !in Taken(l, pos).waiting && n < |l.recorded|
  {
    assert forall i | 0 <= i < |Taken(l, pos).waiting| ::
             Taken(l, pos).waiting[i] in l.waiting && Taken(l, pos).waiting[i] != l.waiting[pos];
  }

  lemma TakenSomewhere(l: Ledger, queue: seq<ChildEvent>, pos: nat, n: nat)
    requires LedgerOk(l, queue) && pos < |queue| && n < |l.recorded|
    ensures n in Taken(l, pos).waiting || n in Taken(l, pos).reaped
  {
    var l' := Taken(l, pos);
    if n in l.waiting {
      var i :| 0 <= i < |l.waiting| && l.waiting[i] == n;
      if i < pos {
        assert l'.waiting[i] == n;
      } else if i > pos {
        assert l'.waiting[i - 1] == n;
      } else {
        assert l'.reaped[|l.reaped|] == n;
      }
    } else {
      assert n in l'.reaped;
    }
  }

  datatype Outcome =
    | Waiting
    | Answered(child: Pid, delivered: bool)
    | AnsweredNoChild
    | Dropped

  /** One wait4 call whose reply was deferred. */
  datatype DeferredWait = DeferredWait(pid: Pid, wait: PendingWait, outcome: Outcome)

  /** The pending table holds exactly the deferred waits not yet settled, each with a slot of its
      own. */
  ghost predicate WaitsOk(pending: Pendings, waits: seq<DeferredWait>, open: map<Pid, nat>) {
    && open.Keys == pending.Keys
    && (forall p | p in pending :: open[p] < |waits| && waits[open[p]] == DeferredWait(p, pending[p], Waiting))
    && (forall i | 0 <= i < |waits| && waits[i].outcome.Waiting? :: waits[i].pid in open && open[waits[i].pid] == i)
    && (forall p, q | p in pending && q in pending && p != q :: pending[p].replySlot != pending[q].replySlot)
  }

  /** A settled wait stays as it was settled. */
  ghost predicate Settled(waits: seq<DeferredWait>, waits': seq<DeferredWait>) {
    && |waits| <= |waits'|
    && forall i | 0 <= i < |waits| ::
         waits'[i] == waits[i] || (waits[i].outcome.Waiting? && waits'[i] == waits[i].(outcome := waits'[i].outcome))
  }

  lemma SettledTransitive(a: seq<DeferredWait>, b: seq<DeferredWait>, c: seq<DeferredWait>)
    requires Settled(a, b) && Settled(b, c)
    ensures Settled(a, c)
  {
  }

  predicate IsGroupTarget(target: int) { target == 0 || target < -1 }

  // ----- The invariant -----

  ghost predicate LedgersOk(events: Events, ledgers: map<Pid, Ledger>) {
    && (forall p | p in events :: events[p] != [])
    && forall p: Pid :: LedgerOk(LedgerOf(ledgers, p), QueueOf(events, p))
  }

  /** A process that has exited left one event, and does not come back. */
  ghost predicate ExitsOk(tasks: Tasks, nextPid: Pid, ledgers: map<Pid, Ledger>, exits: map<Pid, (Pid, nat)>) {
    && (forall p | p in tasks :: 0 < p < nextPid && p !in exits)
    && (forall c | c in exits :: c < nextPid)
    && forall p, i | p in ledgers && 0 <= i < |ledgers[p].recorded| && ledgers[p].recorded[i].kind.Exited? ::
         var c := ledgers[p].recorded[i].child; c in exits && exits[c] == (p, i)
  }

  /** No exit is lost: a wait is not pending while an exit it wants is in the queue. */
  ghost predicate NoLostExit(pending: Pendings, events: Events) {
    forall p, i | p in pending && 0 <= i < |QueueOf(events, p)| && QueueOf(events, p)[i].kind.Exited? ::
      var e := QueueOf(events, p)[i]; !Matches(e.child, e.pgid, pending[p].target, pending[p].callerPgid)
  }

  /** A pending wait has a live child to wait for, unless it is excused. */
  ghost predicate Hopeful(tasks: Tasks, pending: Pendings, excused: set<Pid>) {
    forall p | p in pending ::
      p in tasks && (p in excused || HasLiveChild(tasks, p, pending[p].target, pending[p].callerPgid))
  }

  /** The processes whose pending wait is one of the waits `stranded`. */
  ghost function Excused(open: map<Pid, nat>, stranded: set<nat>): set<Pid> {
    set p | p in open && open[p] in stranded
  }

  /** A task armed for a resume has a deferred reply for the same children. */
  ghost predicate BlocksOk(tasks: Tasks, pending: Pendings) {
    forall p | p in tasks && tasks[p].waitBlock.Some? ::
      p in pending && tasks[p].waitBlock.value == (pending[p].target, pending[p].callerPgid)
  }

  /** A deferred wait is told there is no child only when it waits for a group and was stranded:
      a change of group took its last child away. */
  ghost predicate ChildlessOk(waits: seq<DeferredWait>, stranded: set<nat>) {
    && (forall i | i in stranded :: i < |waits| && IsGroupTarget(waits[i].wait.target))
    && (forall i | 0 <= i < |waits| && waits[i].outcome.AnsweredNoChild? :: i in stranded)
  }

  // ----- What each change keeps -----

  lemma RecordKeeps(events: Events, ledgers: map<Pid, Ledger>, p: Pid, e: ChildEvent)
    requires LedgersOk(events, ledgers)
    ensures LedgersOk(events[p := QueueOf(events, p) + [e]], ledgers[p := Noted(LedgerOf(ledgers, p), e)])
  {
    hide LedgerOk;
    var events', ledgers' := events[p := QueueOf(events, p) + [e]], ledgers[p := Noted(LedgerOf(ledgers, p), e)];
    forall q: Pid
      ensures LedgerOk(LedgerOf(ledgers', q), QueueOf(events', q))
    {
      assert LedgerOk(LedgerOf(ledgers, q), QueueOf(events, q));
      if q == p {
        NotedOk(LedgerOf(ledgers, p), QueueOf(events, p), e);
      }
    }
  }

  function WithQueue(events: Events, p: Pid, queue: seq<ChildEvent>): Events {
    if queue == [] then Remove(events, p) else events[p := queue]
  }

  lemma PopKeeps(events: Events, ledgers: map<Pid, Ledger>, p: Pid, pos: nat)
    requires LedgersOk(events, ledgers) && pos < |QueueOf(events, p)|
    ensures pos < |LedgerOf(ledgers, p).waiting| && p in ledgers
    ensures LedgersOk(WithQueue(events, p, Cut(QueueOf(events, p), pos)),
                      ledgers[p := Taken(LedgerOf(ledgers, p), pos)])
  {
    hide LedgerOk, Cut;
    LedgerLengths(events, ledgers, p);
    var events' := WithQueue(events, p, Cut(QueueOf(events, p), pos));
    var ledgers' := ledgers[p := Taken(LedgerOf(ledgers, p), pos)];
    forall q: Pid
      ensures LedgerOk(LedgerOf(ledgers', q), QueueOf(events', q))
    {
      assert LedgerOk(LedgerOf(ledgers, q), QueueOf(events, q));
      if q == p {
        TakenOk(LedgerOf(ledgers, p), QueueOf(events, p), pos);
      }
    }
  }

  lemma LedgerLengths(events: Events, ledgers: map<Pid, Ledger>, p: Pid)
    requires LedgersOk(events, ledgers)
    ensures |LedgerOf(ledgers, p).waiting| == |QueueOf(events, p)|
    ensures QueueOf(events, p) != [] ==> p in ledgers
  {
    assert LedgerOk(LedgerOf(ledgers, p), QueueOf(events, p));
  }

  lemma PopLosesNoExit(pending: Pendings, events: Events, p: Pid, pos: nat)
    requires NoLostExit(pending, events) && pos < |QueueOf(events, p)|
    ensures NoLostExit(pending, WithQueue(events, p, Cut(QueueOf(events, p), pos)))
  {
    var events' := WithQueue(events, p, Cut(QueueOf(events, p), pos));
    forall q, i | q in pending && 0 <= i < |QueueOf(events', q)| && QueueOf(events', q)[i].kind.Exited?
      ensures var e := QueueOf(events', q)[i]; !Matches(e.child, e.pgid, pending[q].target, pending[q].callerPgid)
    {
      var j := if q == p && i >= pos then i + 1 else i;
      assert QueueOf(events, q)[j] == QueueOf(events', q)[i];
    }
  }

  lemma PopExits(tasks: Tasks, nextPid: Pid, ledgers: map<Pid, Ledger>, exits: map<Pid, (Pid, nat)>, p: Pid, pos: nat)
    requires ExitsOk(tasks, nextPid, ledgers, exits) && p in ledgers && pos < |ledgers[p].waiting|
    ensures ExitsOk(tasks, nextPid, ledgers[p := Taken(ledgers[p], pos)], exits)
  {
    var ledgers' := ledgers[p := Taken(ledgers[p], pos)];
    forall q, i | q in ledgers' && 0 <= i < |ledgers'[q].recorded| && ledgers'[q].recorded[i].kind.Exited?
      ensures var c := ledgers'[q].recorded[i].child; c in exits && exits[c] == (q, i)
    {
      assert ledgers'[q].recorded == ledgers[q].recorded;
    }
  }

  lemma RecordExits(tasks: Tasks, nextPid: Pid, ledgers: map<Pid, Ledger>, exits: map<Pid, (Pid, nat)>, p: Pid,
                    e: ChildEvent)
    requires ExitsOk(tasks, nextPid, ledgers, exits) && e.child < nextPid
    requires e.kind.Exited? ==> e.child !in tasks && e.child !in exits
    ensures ExitsOk(tasks, nextPid, ledgers[p := Noted(LedgerOf(ledgers, p), e)],
                    if e.kind.Exited? then exits[e.child := (p, |LedgerOf(ledgers, p).recorded|)] else exits)
  {
    var n := |LedgerOf(ledgers, p).recorded|;
    var ledgers' := ledgers[p := Noted(LedgerOf(ledgers, p), e)];
    var exits' := if e.kind.Exited? then exits[e.child := (p, n)] else exits;
    forall q, i | q in ledgers' && 0 <= i < |ledgers'[q].recorded| && ledgers'[q].recorded[i].kind.Exited?
      ensures var c := ledgers'[q].recorded[i].child; c in exits' && exits'[c] == (q, i)
    {
      if q != p || i < n {
        assert q in ledgers && ledgers'[q].recorded[i] == ledgers[q].recorded[i];
      }
    }
  }

  lemma SettleOk(pending: Pendings, waits: seq<DeferredWait>, open: map<Pid, nat>, p: Pid, outcome: Outcome)
    requires WaitsOk(pending, waits, open) && p in pending && !outcome.Waiting?
    ensures WaitsOk(Remove(pending, p), waits[open[p] := waits[open[p]].(outcome := outcome)], Remove(open, p))
    ensures Settled(waits, waits[open[p] := waits[open[p]].(outcome := outcome)])
  {
  }

  lemma DeferOk(pending: Pendings, waits: seq<DeferredWait>, open: map<Pid, nat>, p: Pid, wait: PendingWait)
    requires WaitsOk(pending, waits, open) && p !in pending && forall q | q in pending ::
               pending[q].replySlot != wait.replySlot
    ensures WaitsOk(pending[p := wait], waits + [DeferredWait(p, wait, Waiting)], open[p := |waits|])
    ensures Settled(waits, waits + [DeferredWait(p, wait, Waiting)])
  {
  }

  lemma LiveChildKept(tasks: Tasks, tasks': Tasks, p: Pid, target: int, callerPgid: nat)
    requires forall c | c in tasks ::
               c in tasks' && tasks'[c].parent == tasks[c].parent && tasks'[c].pgid == tasks[c].pgid
    ensures HasLiveChild(tasks, p, target, callerPgid) ==> HasLiveChild(tasks', p, target, callerPgid)
  {
    if HasLiveChild(tasks, p, target, callerPgid) {
      var c :| c in tasks && tasks[c].parent == p && Matches(c, tasks[c].pgid, target, callerPgid);
      assert c in tasks' && tasks'[c].parent == p;
    }
  }

  lemma HopefulKept(tasks: Tasks, tasks': Tasks, pending: Pendings, excused: set<Pid>)
    requires Hopeful(tasks, pending, excused)
    requires forall c | c in tasks ::
               c in tasks' && tasks'[c].parent == tasks[c].parent && tasks'[c].pgid == tasks[c].pgid
    ensures Hopeful(tasks', pending, excused)
  {
    hide HasLiveChild;
    forall p | p in pending && p !in excused
      ensures HasLiveChild(tasks', p, pending[p].target, pending[p].callerPgid)
    {
      LiveChildKept(tasks, tasks', p, pending[p].target, pending[p].callerPgid);
    }
  }

  lemma HopefulExcused(tasks: Tasks, pending: Pendings, excused: set<Pid>, excused': set<Pid>)
    requires Hopeful(tasks, pending, excused) && forall p | p in pending && p in excused :: p in excused'
    ensures Hopeful(tasks, pending, excused')
  {
    hide HasLiveChild;
  }

  /** The exit of `pid` costs only its parent's wait a child to wait for. */
  lemma HopefulAfterExit(tasks: Tasks, pending: Pendings, excused: set<Pid>, pid: Pid)
    requires Hopeful(tasks, pending, excused) && pid in tasks
    ensures Hopeful(Remove(tasks, pid), Remove(Remove(pending, pid), tasks[pid].parent), excused)
    ensures var p := tasks[pid].parent;
            p in Remove(pending, pid) ==>
              && p in Remove(tasks, pid)
              && (p in excused || HasLiveChild(Remove(tasks, pid), p, pending[p].target, pending[p].callerPgid)
                  || Matches(pid, tasks[pid].pgid, pending[p].target, pending[p].callerPgid))
  {
    var tasks' := Remove(tasks, pid);
    forall p | p in Remove(pending, pid) && p !in excused
      ensures HasLiveChild(tasks', p, pending[p].target, pending[p].callerPgid)
              || (p == tasks[pid].parent && Matches(pid, tasks[pid].pgid, pending[p].target, pending[p].callerPgid))
    {
      var c :| c in tasks && tasks[c].parent == p
          && Matches(c, tasks[c].pgid, pending[p].target, pending[p].callerPgid);
      if c != pid {
        assert c in tasks' && tasks'[c].parent == p;
      }
    }
  }

  // ----- setpgid and setsid -----

  function Regrouped(tasks: Tasks, pid: Pid, pgid: nat): Tasks
    requires pid in tasks
  {
    tasks[pid := tasks[pid].(pgid := pgid)]
  }

  predicate OtherLiveChild(tasks: Tasks, pid: Pid, parent: Pid, target: int, callerPgid: nat) {
    exists c :: c in tasks && c != pid && tasks[c].parent == parent && Matches(c, tasks[c].pgid, target, callerPgid)
  }

  /** When `pid` enters the group `pgid`, a wait with a live child keeps one exactly when it does
      not wait for a group, or another child of its process matches, or `pid` is a child of its
      process and matches in the new group. */
  lemma RegroupKeepsChild(tasks: Tasks, pid: Pid, pgid: nat, p: Pid, target: int, callerPgid: nat)
    requires pid in tasks && HasLiveChild(tasks, p, target, callerPgid)
    ensures HasLiveChild(Regrouped(tasks, pid, pgid), p, target, callerPgid) <==>
              || !IsGroupTarget(target)
              || OtherLiveChild(tasks, pid, p, target, callerPgid)
              || (tasks[pid].parent == p && Matches(pid, pgid, target, callerPgid))
  {
    hide Matches;
    var tasks' := Regrouped(tasks, pid, pgid);
    forall c | c in tasks
      ensures Matches(c, tasks'[c].pgid, target, callerPgid) <==>
                if c != pid || !IsGroupTarget(target) then Matches(c, tasks[c].pgid, target, callerPgid)
                else Matches(pid, pgid, target, callerPgid)
    {
      GroupOnly(c, tasks[c].pgid, tasks'[c].pgid, target, callerPgid);
    }
    if HasLiveChild(tasks', p, target, callerPgid) {
      var c :| c in tasks' && tasks'[c].parent == p && Matches(c, tasks'[c].pgid, target, callerPgid);
      assert c != pid ==> c in tasks && tasks[c].parent == p;
    }
    if OtherLiveChild(tasks, pid, p, target, callerPgid) {
      var c :| c in tasks && c != pid && tasks[c].parent == p && Matches(c, tasks[c].pgid, target, callerPgid);
      assert c in tasks' && tasks'[c].parent == p;
    }
    if tasks[pid].parent == p && Matches(pid, pgid, target, callerPgid) && IsGroupTarget(target) {
      assert pid in tasks' && tasks'[pid].parent == p;
    }
    if !IsGroupTarget(target) {
      var c :| c in tasks && tasks[c].parent == p && Matches(c, tasks[c].pgid, target, callerPgid);
      assert c in tasks' && tasks'[c].parent == p;
    }
  }

  lemma GroupOnly(c: Pid, pgid: nat, pgid': nat, target: int, callerPgid: nat)
    ensures !IsGroupTarget(target) ==> (Matches(c, pgid', target, callerPgid) <==> Matches(c, pgid, target, callerPgid))
  {
  }

  /** The waits that lose their last child when `pid` enters the group `pgid`. */
  ghost function Stranding(tasks: Tasks, pending: Pendings, pid: Pid, pgid: nat): set<Pid>
    requires pid in tasks
  {
    set p | p in pending && HasLiveChild(tasks, p, pending[p].target, pending[p].callerPgid)
        && IsGroupTarget(pending[p].target)
            && !OtherLiveChild(tasks, pid, p, pending[p].target, pending[p].callerPgid)
            && !(tasks[pid].parent == p && Matches(pid, pgid, pending[p].target, pending[p].callerPgid))
  }

  lemma HopefulRegrouped(tasks: Tasks, pending: Pendings, excused: set<Pid>, pid: Pid, pgid: nat)
    requires Hopeful(tasks, pending, excused) && pid in tasks
    ensures Hopeful(Regrouped(tasks, pid, pgid), pending, excused + Stranding(tasks, pending, pid, pgid))
  {
    hide HasLiveChild, OtherLiveChild, Matches, IsGroupTarget;
    forall p | p in pending && p !in excused && p !in Stranding(tasks, pending, pid, pgid)
      ensures HasLiveChild(Regrouped(tasks, pid, pgid), p, pending[p].target, pending[p].callerPgid)
    {
      RegroupKeepsChild(tasks, pid, pgid, p, pending[p].target, pending[p].callerPgid);
    }
  }

  /** One child, one exit, one reaping: two reaped exits of the same child are the same one. */
  lemma NoDoubleReap(events: Events, ledgers: map<Pid, Ledger>, tasks: Tasks, nextPid: Pid, exits: map<Pid, (Pid, nat)>,
                     p: Pid, i: nat, q: Pid, j: nat)
    requires LedgersOk(events, ledgers) && ExitsOk(tasks, nextPid, ledgers, exits)
    requires p in ledgers && q in ledgers && i < |ledgers[p].reaped| && j < |ledgers[q].reaped|
    requires ledgers[p].reaped[i] < |ledgers[p].recorded| && ledgers[q].reaped[j] < |ledgers[q].recorded|
    requires var a := ledgers[p].recorded[ledgers[p].reaped[i]];
             var b := ledgers[q].recorded[ledgers[q].reaped[j]];
             a.kind.Exited? && b.kind.Exited? && a.child == b.child
    ensures p == q && i == j
  {
    assert LedgerOk(LedgerOf(ledgers, p), QueueOf(events, p));
    assert exits[ledgers[p].recorded[ledgers[p].reaped[i]].child] == (p, ledgers[p].reaped[i]);
    assert exits[ledgers[q].recorded[ledgers[q].reaped[j]].child] == (q, ledgers[q].reaped[j]);
  }

  /** A failing instance: an only child leaves its group, and the wait for the group has no child. */
  lemma StrandedByRegroup()
    ensures exists tasks: Tasks, pending: Pendings ::
              && Hopeful(tasks, pending, {}) && 1 in pending && 2 in tasks
              && !HasLiveChild(Regrouped(tasks, 2, 2), 1, pending[1].target, pending[1].callerPgid)
  {
    var tasks: Tasks := map[1 := Task(0, 1, None), 2 := Task(1, 1, None)];
    var pending: Pendings := map[1 := PendingWait(1, 0, Options(false, false, false), 1)];
    assert tasks[2].parent == 1 && Matches(2, tasks[2].pgid, 0, 1);
    assert Hopeful(tasks, pending, {});
  }
}
