/** The calls that make, end and wait for children, as methods of the table of processes. */
module WaitCalls {
  import opened Types
  import opened ChildWaits

  class ApeTaskState {
    var tasks: Tasks
    /** Process snapshots; the wait status once exited. */
    var lifecycle: map<Pid, Option<int>>
    var childEvents: Events
    var pending: Pendings
    var nextPid: Pid

    ghost var ledgers: map<Pid, Ledger>
    ghost var exits: map<Pid, (Pid, nat)>
    ghost var waits: seq<DeferredWait>
    ghost var open: map<Pid, nat>
    /** The waits, by number, that a change of group left without a live child. */
    ghost var stranded: set<nat>

    /** What holds whatever happened to the waits of `who`. */
    ghost predicate ValidBut(who: Pid)
      reads this
    {
      && LedgersOk(childEvents, ledgers)
      && ExitsOk(tasks, nextPid, ledgers, exits)
      && WaitsOk(pending, waits, open)
      && BlocksOk(tasks, pending)
      && ChildlessOk(waits, stranded)
      && NoLostExit(Remove(pending, who), childEvents)
      && Hopeful(tasks, Remove(pending, who), Excused(open, stranded))
    }

    ghost predicate Valid()
      reads this
    {
      && LedgersOk(childEvents, ledgers)
      && ExitsOk(tasks, nextPid, ledgers, exits)
      && WaitsOk(pending, waits, open)
      && BlocksOk(tasks, pending)
      && ChildlessOk(waits, stranded)
      && NoLostExit(pending, childEvents)
      && Hopeful(tasks, pending, Excused(open, stranded))
    }

    constructor (firstPid: Pid)
      requires firstPid > 0
      ensures Valid() && tasks == map[] && waits == [] && nextPid == firstPid
    {
      tasks, lifecycle, childEvents, pending, nextPid := map[], map[], map[], map[], firstPid;
      ledgers, exits, waits, open, stranded := map[], map[], [], map[], {};
    }

    /** A new process: the child of `parent` in a fork, or of nobody. */
    method RegisterProcess(parent: Pid, pgid: nat) returns (pid: Pid)
      requires Valid() && 0 < nextPid < USIZE_MAX
      modifies this
      ensures Valid() && pid == old(nextPid) && pid !in old(tasks) && nextPid == pid + 1
      ensures tasks == old(tasks)[pid := Task(parent, pgid, None)]
      ensures pending == old(pending) && childEvents == old(childEvents) && waits == old(waits)
              && ledgers == old(ledgers)
      ensures stranded == old(stranded)
    {
      hide LedgersOk, WaitsOk, NoLostExit, Hopeful, ChildlessOk, LedgerOf;
      pid := nextPid;
      nextPid := nextPid + 1;
      ghost var before := tasks;
      tasks := tasks[pid := Task(parent, pgid, None)];
      lifecycle := lifecycle[pid := None];
      HopefulKept(before, tasks, pending, Excused(open, stranded));
    }

    /** A stop or a continuation is queued for the parent; no wait is woken. */
    method RecordChildState(pid: Pid, status: int, kind: EventKind)
      requires Valid() && pid in tasks && !kind.Exited?
      modifies this
      ensures Valid() && tasks == old(tasks) && pending == old(pending) && waits == old(waits)
      ensures nextPid == old(nextPid) && stranded == old(stranded)
      ensures ledgers == old(ledgers)[tasks[pid].parent :=
                Noted(LedgerOf(old(ledgers), tasks[pid].parent), ChildEvent(pid, status, tasks[pid].pgid, kind))]
    {
      hide LedgersOk, WaitsOk, Hopeful, ChildlessOk, ExitsOk, Matches;
      ghost var events0 := childEvents;
      KnownPid(tasks, nextPid, ledgers, exits, pid);
      Record(tasks[pid].parent, ChildEvent(pid, status, tasks[pid].pgid, kind));
      NothingExited(pending, events0, tasks[pid].parent, ChildEvent(pid, status, tasks[pid].pgid, kind));
    }

    method Record(parent: Pid, e: ChildEvent)
      requires LedgersOk(childEvents, ledgers) && ExitsOk(tasks, nextPid, ledgers, exits)
      requires e.child < nextPid && (e.kind.Exited? ==> e.child !in tasks && e.child !in exits)
      modifies this`childEvents, this`ledgers, this`exits
      ensures LedgersOk(childEvents, ledgers) && ExitsOk(tasks, nextPid, ledgers, exits)
      ensures childEvents == old(childEvents)[parent := QueueOf(old(childEvents), parent) + [e]]
      ensures ledgers == old(ledgers)[parent := Noted(LedgerOf(old(ledgers), parent), e)]
    {
      hide LedgersOk, ExitsOk;
      RecordKeeps(childEvents, ledgers, parent, e);
      RecordExits(tasks, nextPid, ledgers, exits, parent, e);
      if e.kind.Exited? {
        exits := exits[e.child := (parent, |LedgerOf(ledgers, parent).recorded|)];
      }
      ledgers := ledgers[parent := Noted(LedgerOf(ledgers, parent), e)];
      childEvents := childEvents[parent := QueueOf(childEvents, parent) + [e]];
    }

    /** Takes the oldest wanted event out of the queue. */
    method PopChildEvent(parent: Pid, target: int, options: Options, callerPgid: nat) returns (r: Option<ChildEvent>)
      requires LedgersOk(childEvents, ledgers) && ExitsOk(tasks, nextPid, ledgers, exits)
      modifies this`childEvents, this`ledgers
      ensures LedgersOk(childEvents, ledgers) && ExitsOk(tasks, nextPid, ledgers, exits)
      ensures var queue := QueueOf(old(childEvents), parent);
              var pos := FirstWanted(queue, target, options, callerPgid);
              && r == (if pos.Some? then Some(queue[pos.value]) else None)
              && (pos.None? ==> childEvents == old(childEvents) && ledgers == old(ledgers))
              && (pos.Some? ==>
                    && pos.value < |LedgerOf(old(ledgers), parent).waiting|
                    && childEvents == WithQueue(old(childEvents), parent, Cut(queue, pos.value))
                    && ledgers == old(ledgers)[parent := Taken(LedgerOf(old(ledgers), parent), pos.value)])
    {
      hide LedgersOk, ExitsOk, Wanted;
      if parent !in childEvents {
        return None;
      }
      var queue := childEvents[parent];
      var pos := FirstWanted(queue, target, options, callerPgid);
      if pos.None? {
        return None;
      }
      PopKeeps(childEvents, ledgers, parent, pos.value);
      PopExits(tasks, nextPid, ledgers, exits, parent, pos.value);
      r := Some(queue[pos.value]);
      var rest := Cut(queue, pos.value);
      if rest == [] {
        childEvents := Remove(childEvents, parent);
      } else {
        childEvents := childEvents[parent := rest];
      }
      ledgers := ledgers[parent := Taken(LedgerOf(ledgers, parent), pos.value)];
    }

    /** Settles the deferred wait of `parent`. */
    ghost method Settle(parent: Pid, outcome: Outcome)
      requires WaitsOk(pending, waits, open) && parent in pending && !outcome.Waiting?
      modifies this`waits, this`open
      ensures parent in old(open) && old(open)[parent] < |old(waits)|
              && old(waits)[old(open)[parent]] == DeferredWait(parent, pending[parent], Waiting)
      ensures WaitsOk(Remove(pending, parent), waits, open) && Settled(old(waits), waits)
      ensures Excused(open, stranded) == Excused(old(open), stranded) - {parent}
      ensures waits == old(waits)[old(open)[parent] := DeferredWait(parent, pending[parent], outcome)]
    {
      hide WaitsOk, Settled, Excused;
      OpenWait(pending, waits, open, parent);
      SettleOk(pending, waits, open, parent, outcome);
      ExcusedWithout(open, stranded, parent);
      waits, open := waits[open[parent] := waits[open[parent]].(outcome := outcome)], Remove(open, parent);
    }

    /** Takes the deferred wait of `parent` out, and sends its reply. */
    method TakeWait(parent: Pid, ghost outcome: Outcome)
      requires ValidBut(parent) && parent in pending && !outcome.Waiting?
      requires outcome.AnsweredNoChild? ==> parent in Excused(open, stranded)
      modifies this`pending, this`tasks, this`waits, this`open
      ensures Valid() && SameFamily(old(tasks), tasks) && Settled(old(waits), waits)
      ensures pending == Remove(old(pending), parent)
      ensures parent in old(open) && old(open)[parent] < |old(waits)|
      ensures old(waits)[old(open)[parent]] == DeferredWait(parent, old(pending)[parent], Waiting)
      ensures waits == old(waits)[old(open)[parent] := DeferredWait(parent, old(pending)[parent], outcome)]
    {
      hide LedgersOk, ExitsOk, WaitsOk, NoLostExit, Hopeful, ChildlessOk, Settled, HasLiveChild, IsGroupTarget, Excused;
      ghost var waits0, open0, tasks0 := waits, open, tasks;
      ExcusedIsStranded(open, stranded);
      Settle(parent, outcome);
      ChildlessKept(waits0, open0[parent], outcome, stranded);
      pending := Remove(pending, parent);
      if parent in tasks {
        tasks := tasks[parent := tasks[parent].(waitBlock := None)];
      }
      HopefulKept(tasks0, tasks, pending, Excused(open0, stranded));
      HopefulExcused(tasks, pending, Excused(open0, stranded), Excused(open, stranded));
      UnblockExits(tasks0, tasks, nextPid, ledgers, exits);
    }

    /** Answers the deferred wait of `parent`, if there is now something to tell it. */
    method TryWakePendingWait(parent: Pid) returns (woken: bool)
      requires ValidBut(parent)
      requires parent in pending ==> Promising(tasks, childEvents, pending[parent], parent, Excused(open, stranded))
      modifies this
      ensures Valid() && SameFamily(old(tasks), tasks) && nextPid == old(nextPid) && stranded == old(stranded)
      ensures lifecycle == old(lifecycle) && Settled(old(waits), waits)
      ensures woken <==> parent in old(pending) && parent !in pending
      ensures pending == if woken then Remove(old(pending), parent) else old(pending)
      ensures LedgerOf(ledgers, parent).recorded == LedgerOf(old(ledgers), parent).recorded
      ensures woken ==>
                AnsweredAs(old(pending)[parent], old(waits), waits, old(open), QueueOf(old(childEvents), parent),
                           parent)
      ensures !woken ==>
                childEvents == old(childEvents) && ledgers == old(ledgers) && waits == old(waits) && tasks == old(tasks)
      ensures parent in old(pending) ==>
                var wait := old(pending)[parent];
                woken <==>
                  FirstWanted(QueueOf(old(childEvents), parent), wait.target, wait.options, wait.callerPgid).Some?
                           || !HasLiveChild(old(tasks), parent, wait.target, wait.callerPgid)
    {
      hide LedgersOk, ExitsOk, WaitsOk, NoLostExit, Hopeful, ChildlessOk, Wanted, Settled, HasLiveChild, AnsweredAs,
           IsGroupTarget;
      ghost var pending0, events0, waits0, open0 := pending, childEvents, waits, open;
      if parent !in pending {
        RemoveAbsent(pending, parent);
        NothingSettled(waits);
        return false;
      }
      var wait := pending[parent];
      var popped := PopChildEvent(parent, wait.target, wait.options, wait.callerPgid);
      ghost var outcome := AnsweredNoChild;
      if popped.Some? {
        ghost var pos := FirstWanted(QueueOf(events0, parent), wait.target, wait.options, wait.callerPgid);
        PopLosesNoExit(Remove(pending, parent), events0, parent, pos.value);
        var delivered: bool := *;
        outcome := Answered(popped.value.child, delivered);
      } else if HasWaitable(tasks, childEvents, parent, wait.target, wait.options, wait.callerPgid) {
        StillPending(tasks, childEvents, pending, parent, Excused(open, stranded));
        NothingSettled(waits);
        return false;
      }
      TakeWait(parent, outcome);
      AnsweredNow(wait, waits0, outcome, open0, QueueOf(events0, parent), parent);
      woken := true;
    }

    /** Takes a process out of the table, and its deferred wait with it. */
    method RemoveProcess(pid: Pid)
      requires Valid() && pid in tasks
      modifies this`tasks, this`pending, this`waits, this`open
      ensures ValidBut(old(tasks)[pid].parent) && Settled(old(waits), waits) && 0 !in pending
      ensures tasks == Remove(old(tasks), pid) && pending == Remove(old(pending), pid)
      ensures 0 < pid < nextPid && pid !in exits
      ensures pid in old(pending) ==>
                pid in old(open) && old(open)[pid] < |old(waits)|
                && waits == old(waits)[old(open)[pid] := DeferredWait(pid, old(pending)[pid], Dropped)]
      ensures var p := old(tasks)[pid].parent;
              p in pending ==>
                && p in tasks
                && (p in Excused(open, stranded) || HasLiveChild(tasks, p, pending[p].target, pending[p].callerPgid)
                    || Matches(pid, old(tasks)[pid].pgid, pending[p].target, pending[p].callerPgid))
    {
      hide LedgersOk, WaitsOk, NoLostExit, ChildlessOk, Settled, HasLiveChild, IsGroupTarget, Matches, Excused, Hopeful;
      NothingSettled(waits);
      RemoveAbsent(pending, pid);
      HopefulAfterExit(tasks, pending, Excused(open, stranded), pid);
      UnblockExits(tasks, Remove(tasks, pid), nextPid, ledgers, exits);
      LostExitWithout(pending, childEvents, pid, tasks[pid].parent);
      ghost var waits0, open0 := waits, open;
      if pid in pending {
        Settle(pid, Dropped);
        ChildlessKept(waits0, open0[pid], Dropped, stranded);
        pending := Remove(pending, pid);
      }
      HopefulExcused(Remove(tasks, pid), Remove(pending, tasks[pid].parent), Excused(open0, stranded),
                     Excused(open, stranded));
      tasks := Remove(tasks, pid);
    }

    /** Queues the exit for the parent, and wakes its deferred wait; failing that it resumes a parent
        armed for this child, which never happens, and queues SIGCHLD. */
    method RecordExit(parent: Pid, e: ChildEvent) returns (signalled: bool, resumed: bool)
      requires ValidBut(parent) && e.kind.Exited? && e.child < nextPid && e.child !in tasks && e.child !in exits
      requires parent in pending ==>
                 && parent in tasks
                 && (parent in Excused(open, stranded)
                     || HasLiveChild(tasks, parent, pending[parent].target, pending[parent].callerPgid)
                     || Matches(e.child, e.pgid, pending[parent].target, pending[parent].callerPgid))
      modifies this
      ensures Valid() && Settled(old(waits), waits) && SameFamily(old(tasks), tasks) && !resumed
      ensures nextPid == old(nextPid) && stranded == old(stranded) && lifecycle == old(lifecycle)
      ensures pending == if signalled then old(pending) else Remove(old(pending), parent)
      ensures LedgerOf(ledgers, parent).recorded == LedgerOf(old(ledgers), parent).recorded + [e]
      ensures parent in old(pending)
              && Matches(e.child, e.pgid, old(pending)[parent].target, old(pending)[parent].callerPgid)
              ==> !signalled
      ensures !signalled ==> parent in old(pending)
      ensures parent in old(pending) ==>
                var wait := old(pending)[parent];
                signalled <==>
                  FirstWanted(QueueOf(old(childEvents), parent) + [e], wait.target, wait.options, wait.callerPgid).None?
                               && HasLiveChild(old(tasks), parent, wait.target, wait.callerPgid)
    {
      hide LedgersOk, ExitsOk, WaitsOk, NoLostExit, Hopeful, ChildlessOk, Settled, HasLiveChild, AnsweredAs,
           IsGroupTarget, Matches;
      LostExitElsewhere(pending, childEvents, parent, e);
      Record(parent, e);
      ghost var queue := QueueOf(childEvents, parent);
      if parent in pending {
        LastWanted(queue, e, pending[parent].target, pending[parent].options, pending[parent].callerPgid);
      }
      var woken := TryWakePendingWait(parent);
      signalled := !woken;
      resumed := !woken && parent in tasks && ArmedFor(tasks[parent].waitBlock, e.child, e.pgid);
    }

    /** A process is gone: its own wait is dropped, and its parent is told. */
    method Terminate(pid: Pid, exitCode: nat) returns (r: Result<()>, signalled: bool, resumed: bool)
      requires Valid()
      modifies this
      ensures Valid() && Settled(old(waits), waits) && nextPid == old(nextPid) && stranded == old(stranded)
      ensures r == if pid in old(tasks) then Ok(()) else Err(NotFound)
      ensures r.Err? ==>
                tasks == old(tasks) && childEvents == old(childEvents) && pending == old(pending) && waits == old(waits)
      ensures r.Ok? ==> SameFamily(Remove(old(tasks), pid), tasks) && pid !in pending && !resumed
      ensures r.Ok? && pid in old(pending) ==>
                pid in old(open) && old(open)[pid] < |waits|
                && waits[old(open)[pid]] == DeferredWait(pid, old(pending)[pid], Dropped)
      ensures r.Ok? ==> forall p | p in old(pending) && p != pid && p != old(tasks)[pid].parent :: p in pending
      ensures r.Ok? && old(tasks)[pid].parent != 0 ==>
                var p, e := old(tasks)[pid].parent, ChildEvent(pid, WaitStatus(exitCode), old(tasks)[pid].pgid, Exited);
                && LedgerOf(ledgers, p).recorded == LedgerOf(old(ledgers), p).recorded + [e]
                && lifecycle == old(lifecycle)[pid := Some(WaitStatus(exitCode))]
                && (&& p != pid && p in old(pending)
                    && Matches(pid, e.pgid, old(pending)[p].target, old(pending)[p].callerPgid) ==>
                      p !in pending)
                && (signalled <==> !(p != pid && p in old(pending) && p !in pending))
                && (p != pid && p in old(pending) ==>
                      var wait := old(pending)[p];
                      p in pending <==>
                        FirstWanted(QueueOf(old(childEvents), p) + [e], wait.target, wait.options,
                                    wait.callerPgid).None?
                                        && HasLiveChild(Remove(old(tasks), pid), p, wait.target, wait.callerPgid))
    {
      hide LedgersOk, ExitsOk, WaitsOk, NoLostExit, Hopeful, ChildlessOk, LedgerOf, Settled, HasLiveChild, AnsweredAs,
           IsGroupTarget, Matches, Promising, BlocksOk, QueueOf;
      signalled, resumed := false, false;
      NothingSettled(waits);
      if pid !in tasks {
        return Err(NotFound), false, false;
      }
      r := Ok(());
      var task := tasks[pid];
      ghost var waits0, open0, ledgers0, pending0 := waits, open, ledgers, pending;
      RemoveProcess(pid);
      ghost var waits1 := waits;
      RemoveAbsent(pending, 0);
      if task.parent != 0 {
        var e := ChildEvent(pid, WaitStatus(exitCode), task.pgid, Exited);
        lifecycle := lifecycle[pid := Some(e.status)];
        signalled, resumed := RecordExit(task.parent, e);
        SettledTransitive(waits0, waits1, waits);
        if pid in pending0 {
          SettledStays(waits1, waits, open0[pid]);
        }
      }
    }

    /** wait4: the oldest event wanted, or why there is none, or a deferred reply. */
    method Wait4(pid: Pid, target: int, options: Options, wantStatus: bool) returns (r: WaitResult)
      requires Valid()
      modifies this
      ensures Valid() && Settled(old(waits), waits) && nextPid == old(nextPid) && stranded == old(stranded)
      ensures r == Failed(NotFound) <==> pid !in old(tasks)
      ensures SameFamily(old(tasks), tasks)
      ensures pid in old(tasks) ==>
                var pgid := old(tasks)[pid].pgid;
                var queue := QueueOf(old(childEvents), pid);
                var pos := FirstWanted(queue, target, options, pgid);
                && (pos.Some? ==>
                      && pos.value < |LedgerOf(old(ledgers), pid).waiting|
                      && ledgers == old(ledgers)[pid := Taken(LedgerOf(old(ledgers), pid), pos.value)]
                      && pending == old(pending) && waits == old(waits)
                      && (r == Reaped(queue[pos.value].child, queue[pos.value].status)
                          || (wantStatus && r == Failed(InvalidAddress)))
                      && lifecycle ==
                           if r.Reaped? then Remove(old(lifecycle), queue[pos.value].child) else old(lifecycle))
                && (pos.None? ==>
                      ledgers == old(ledgers) && childEvents == old(childEvents) && lifecycle == old(lifecycle))
                && (r.NoChild? <==> pos.None? && !HasLiveChild(old(tasks), pid, target, pgid))
                && (r.NothingYet? <==> pos.None? && HasLiveChild(old(tasks), pid, target, pgid) && options.noHang)
                && (r.Deferred? ==>
                      && pos.None? && HasLiveChild(old(tasks), pid, target, pgid) && !options.noHang
                      && pid !in old(pending)
                      && pid in pending && Remove(pending, pid) == old(pending)
                      && pending[pid] == PendingWait(pending[pid].replySlot, target, options, pgid)
                      && waits == old(waits) + [DeferredWait(pid, pending[pid], Waiting)])
                && (!r.Deferred? ==> pending == old(pending) && waits == old(waits))
    {
      hide LedgersOk, ExitsOk, WaitsOk, NoLostExit, ChildlessOk, Settled, HasLiveChild, Matches, IsGroupTarget, Wanted,
           Hopeful, QueueOf, LedgerOf, ApeTaskState.Valid, FirstWanted, Cut, WithQueue;
      NothingSettled(waits);
      if pid !in tasks {
        return Failed(NotFound);
      }
      ghost var queue := QueueOf(childEvents, pid);
      ClearWaitBlock(pid);
      var callerPgid := tasks[pid].pgid;
      LiveChildSame(old(tasks), tasks, pid, target, callerPgid);
      var popped := PopForWait(pid, target, options, callerPgid);
      if popped.Some? {
        var copied: bool := *;
        if wantStatus && !copied {
          return Failed(InvalidAddress);
        }
        ForgetSnapshot(popped.value.child);
        return Reaped(popped.value.child, popped.value.status);
      }
      if !HasWaitable(tasks, childEvents, pid, target, options, callerPgid) {
        return NoChild;
      }
      if options.noHang {
        return NothingYet;
      }
      r := QueueWait(pid, target, options, callerPgid);
    }

    method ClearWaitBlock(pid: Pid)
      requires Valid() && pid in tasks
      modifies this`tasks
      ensures Valid() && SameFamily(old(tasks), tasks) && tasks[pid].waitBlock.None?
    {
      hide LedgersOk, WaitsOk, NoLostExit, ChildlessOk, HasLiveChild, Hopeful;
      ghost var tasks0 := tasks;
      tasks := tasks[pid := tasks[pid].(waitBlock := None)];
      HopefulKept(tasks0, tasks, pending, Excused(open, stranded));
      UnblockExits(tasks0, tasks, nextPid, ledgers, exits);
    }

    method PopForWait(pid: Pid, target: int, options: Options, callerPgid: nat) returns (r: Option<ChildEvent>)
      requires Valid()
      modifies this`childEvents, this`ledgers
      ensures Valid()
      ensures var queue := QueueOf(old(childEvents), pid);
              var pos := FirstWanted(queue, target, options, callerPgid);
              && (r.Some? <==> pos.Some?)
              && (r.None? ==> childEvents == old(childEvents) && ledgers == old(ledgers))
              && (r.Some? ==>
                    && r.value == queue[pos.value] && pos.value < |LedgerOf(old(ledgers), pid).waiting|
                    && ledgers == old(ledgers)[pid := Taken(LedgerOf(old(ledgers), pid), pos.value)])
    {
      hide LedgersOk, ExitsOk, WaitsOk, NoLostExit, ChildlessOk, Hopeful, QueueOf, LedgerOf, Wanted, Matches;
      ghost var events0 := childEvents;
      r := PopChildEvent(pid, target, options, callerPgid);
      if r.Some? {
        ghost var pos := FirstWanted(QueueOf(events0, pid), target, options, callerPgid);
        PopLosesNoExit(pending, events0, pid, pos.value);
      }
    }

    method ForgetSnapshot(pid: Pid)
      requires Valid()
      modifies this`lifecycle
      ensures Valid() && lifecycle == Remove(old(lifecycle), pid)
    {
      lifecycle := Remove(lifecycle, pid);
    }

    /** Defers the reply of a wait. */
    method QueueWait(pid: Pid, target: int, options: Options, callerPgid: nat) returns (r: WaitResult)
      requires Valid() && pid in tasks && HasLiveChild(tasks, pid, target, callerPgid)
      requires FirstWanted(QueueOf(childEvents, pid), target, options, callerPgid).None?
      modifies this`pending, this`tasks, this`waits, this`open
      ensures Valid() && SameFamily(old(tasks), tasks) && Settled(old(waits), waits)
      ensures r.Deferred? || (r.Failed? && r.error in {WouldBlock, ResourceFailed})
      ensures r.Deferred? ==>
                && pid !in old(pending) && pid in pending && Remove(pending, pid) == old(pending)
                && pending[pid] == PendingWait(pending[pid].replySlot, target, options, callerPgid)
                && waits == old(waits) + [DeferredWait(pid, pending[pid], Waiting)]
      ensures r.Failed? ==> pending == old(pending) && waits == old(waits)
    {
      hide LedgersOk, ExitsOk, WaitsOk, NoLostExit, ChildlessOk, Settled, HasLiveChild, Matches, IsGroupTarget, Wanted,
           Hopeful, QueueOf, Excused;
      NothingSettled(waits);
      if pid in pending {
        return Failed(WouldBlock);
      }
      var fails: bool := *;
      if fails {
        return Failed(ResourceFailed);
      }
      var used := set q | q in pending :: pending[q].replySlot;
      var slot := FreshSlot(used);
      var wait := PendingWait(slot, target, options, callerPgid);
      DeferOk(pending, waits, open, pid, wait);
      DeferredKeeps(tasks, childEvents, pending, pid, wait, Excused(open, stranded));
      ExcusedWith(pending, waits, open, stranded, pid);
      ghost var tasks0, open0 := tasks, open;
      open := open[pid := |waits|];
      waits := waits + [DeferredWait(pid, wait, Waiting)];
      assert Remove(pending[pid := wait], pid) == pending;
      pending := pending[pid := wait];
      tasks := tasks[pid := tasks[pid].(waitBlock := Some((target, callerPgid)))];
      HopefulKept(tasks0, tasks, pending, Excused(open0, stranded));
      HopefulExcused(tasks, pending, Excused(open0, stranded), Excused(open, stranded));
      UnblockExits(tasks0, tasks, nextPid, ledgers, exits);
      ChildlessAdd(old(waits), DeferredWait(pid, wait, Waiting), stranded);
      r := Deferred;
    }

    /** setpgid or setsid: the store of a new group. It wakes no wait, and strands exactly those
        that lose their last live child by it. */
    method Regroup(pid: Pid, pgid: nat)
      requires Valid() && pid in tasks
      modifies this`tasks, this`stranded
      ensures Valid() && tasks == Regrouped(old(tasks), pid, pgid)
      ensures pending.Keys <= open.Keys
      ensures stranded == old(stranded) + set p | p in Stranding(old(tasks), pending, pid, pgid) && p in open :: open[p]
    {
      hide LedgersOk, WaitsOk, NoLostExit, Settled, HasLiveChild, Matches, IsGroupTarget, Wanted, Hopeful, ChildlessOk,
           OtherLiveChild, Excused;
      ghost var losing := Stranding(tasks, pending, pid, pgid);
      HopefulRegrouped(tasks, pending, Excused(open, stranded), pid, pgid);
      ExcusedMore(open, stranded, losing);
      StrandedWaits(pending, waits, open, stranded, losing);
      HopefulExcused(Regrouped(tasks, pid, pgid), pending, Excused(open, stranded) + losing,
                     Excused(open, stranded + set p | p in losing && p in open :: open[p]));
      tasks := tasks[pid := tasks[pid].(pgid := pgid)];
      stranded := stranded + set p | p in losing && p in open :: open[p];
    }
  }

  lemma ExcusedIsStranded(open: map<Pid, nat>, stranded: set<nat>)
    ensures forall p | p in Excused(open, stranded) :: p in open && open[p] in stranded
  {
  }

  lemma ExcusedWithout(open: map<Pid, nat>, stranded: set<nat>, pid: Pid)
    ensures Excused(Remove(open, pid), stranded) == Excused(open, stranded) - {pid}
  {
  }

  lemma ExcusedWith(pending: Pendings, waits: seq<DeferredWait>, open: map<Pid, nat>, stranded: set<nat>, pid: Pid)
    requires WaitsOk(pending, waits, open) && pid !in pending
    ensures Excused(open, stranded) <= Excused(open[pid := |waits|], stranded)
  {
  }

  lemma ExcusedMore(open: map<Pid, nat>, stranded: set<nat>, losing: set<Pid>)
    ensures forall p | p in open && (p in Excused(open, stranded) || p in losing) ::
              p in Excused(open, stranded + set p | p in losing && p in open :: open[p])
  {
  }

  lemma StrandedWaits(pending: Pendings, waits: seq<DeferredWait>, open: map<Pid, nat>, stranded: set<nat>,
                      losing: set<Pid>)
    requires WaitsOk(pending, waits, open) && ChildlessOk(waits, stranded)
    requires losing <= pending.Keys && forall p | p in losing :: IsGroupTarget(pending[p].target)
    ensures pending.Keys == open.Keys
    ensures ChildlessOk(waits, stranded + set p | p in losing && p in open :: open[p])
  {
  }

  lemma KnownPid(tasks: Tasks, nextPid: Pid, ledgers: map<Pid, Ledger>, exits: map<Pid, (Pid, nat)>, pid: Pid)
    requires ExitsOk(tasks, nextPid, ledgers, exits) && pid in tasks
    ensures pid < nextPid && pid !in exits
  {
  }

  lemma NothingExited(pending: Pendings, events: Events, p: Pid, e: ChildEvent)
    requires NoLostExit(pending, events) && !e.kind.Exited?
    ensures NoLostExit(pending, events[p := QueueOf(events, p) + [e]])
  {
    var events' := events[p := QueueOf(events, p) + [e]];
    forall q, i | q in pending && 0 <= i < |QueueOf(events', q)| && QueueOf(events', q)[i].kind.Exited?
      ensures var f := QueueOf(events', q)[i]; !Matches(f.child, f.pgid, pending[q].target, pending[q].callerPgid)
    {
      assert i < |QueueOf(events, q)| && QueueOf(events, q)[i] == QueueOf(events', q)[i];
    }
  }

  function WaitStatus(exitCode: nat): int { exitCode % 256 * 256 }

  predicate SameFamily(tasks: Tasks, tasks': Tasks) {
    tasks'.Keys == tasks.Keys && forall c | c in tasks ::
      tasks'[c].parent == tasks[c].parent && tasks'[c].pgid == tasks[c].pgid
  }

  predicate HasWaitable(tasks: Tasks, events: Events, parent: Pid, target: int, options: Options, callerPgid: nat) {
    HasLiveChild(tasks, parent, target, callerPgid)
    || FirstWanted(QueueOf(events, parent), target, options, callerPgid).Some?
  }

  /** The wait has something to wait for, or something to be told. */
  ghost predicate Promising(tasks: Tasks, events: Events, wait: PendingWait, p: Pid, excused: set<Pid>) {
    && p in tasks
    && (p in excused || HasWaitable(tasks, events, p, wait.target, wait.options, wait.callerPgid))
  }

  /** The wait got the oldest event it wanted, or the news that it has no child to wait for. */
  ghost predicate AnsweredAs(wait: PendingWait, waits: seq<DeferredWait>, waits': seq<DeferredWait>, open: map<Pid,
                             nat>, queue: seq<ChildEvent>, p: Pid)
  {
    var pos := FirstWanted(queue, wait.target, wait.options, wait.callerPgid);
    && p in open && open[p] < |waits| && waits[open[p]] == DeferredWait(p, wait, Waiting)
    && exists outcome ::
         && waits' == waits[open[p] := DeferredWait(p, wait, outcome)]
         && if pos.Some? then outcome.Answered? && outcome.child == queue[pos.value].child else outcome.AnsweredNoChild?
  }

  lemma AnsweredNow(wait: PendingWait, waits: seq<DeferredWait>, outcome: Outcome, open: map<Pid, nat>,
                    queue: seq<ChildEvent>, p: Pid)
    requires p in open && open[p] < |waits| && waits[open[p]] == DeferredWait(p, wait, Waiting)
    requires var pos := FirstWanted(queue, wait.target, wait.options, wait.callerPgid);
             if pos.Some? then outcome.Answered? && outcome.child == queue[pos.value].child
             else outcome.AnsweredNoChild?
    ensures AnsweredAs(wait, waits, waits[open[p] := DeferredWait(p, wait, outcome)], open, queue, p)
  {
  }

  lemma OpenWait(pending: Pendings, waits: seq<DeferredWait>, open: map<Pid, nat>, p: Pid)
    requires WaitsOk(pending, waits, open) && p in pending
    ensures p in open && open[p] < |waits| && waits[open[p]] == DeferredWait(p, pending[p], Waiting)
  {
  }

  lemma NothingSettled(waits: seq<DeferredWait>)
    ensures Settled(waits, waits)
  {
  }

  lemma RemoveAbsent<K, V>(m: map<K, V>, k: K)
    ensures k !in m ==> Remove(m, k) == m
  {
  }

  /** A wait that is told nothing has a child left, and no exit for it in the queue. */
  lemma StillPending(tasks: Tasks, events: Events, pending: Pendings, p: Pid, excused: set<Pid>)
    requires NoLostExit(Remove(pending, p), events) && Hopeful(tasks, Remove(pending, p), excused)
    requires p in pending && p in tasks
             && HasWaitable(tasks, events, p, pending[p].target, pending[p].options, pending[p].callerPgid)
    requires FirstWanted(QueueOf(events, p), pending[p].target, pending[p].options, pending[p].callerPgid).None?
    ensures NoLostExit(pending, events) && Hopeful(tasks, pending, excused)
  {
    hide HasLiveChild;
    forall q, i | q in pending && 0 <= i < |QueueOf(events, q)| && QueueOf(events, q)[i].kind.Exited?
      ensures var e := QueueOf(events, q)[i]; !Matches(e.child, e.pgid, pending[q].target, pending[q].callerPgid)
    {
      if q == p {
        assert !Wanted(QueueOf(events, p)[i], pending[p].target, pending[p].options, pending[p].callerPgid);
      } else {
        assert q in Remove(pending, p);
      }
    }
    forall q | q in pending && q != p
      ensures q in Remove(pending, p) && Remove(pending, p)[q] == pending[q]
    {
    }
  }

  lemma ChildlessKept(waits: seq<DeferredWait>, n: nat, outcome: Outcome, stranded: set<nat>)
    requires ChildlessOk(waits, stranded) && n < |waits|
    requires outcome.AnsweredNoChild? ==> n in stranded
    ensures ChildlessOk(waits[n := waits[n].(outcome := outcome)], stranded)
  {
  }

  lemma UnblockExits(tasks: Tasks, tasks': Tasks, nextPid: Pid, ledgers: map<Pid, Ledger>, exits: map<Pid, (Pid, nat)>)
    requires ExitsOk(tasks, nextPid, ledgers, exits) && tasks'.Keys <= tasks.Keys
    ensures ExitsOk(tasks', nextPid, ledgers, exits)
  {
  }

  predicate ArmedFor(block: Option<(int, nat)>, child: Pid, childPgid: nat) {
    block.Some? && Matches(child, childPgid, block.value.0, block.value.1)
  }

  lemma LastWanted(queue: seq<ChildEvent>, e: ChildEvent, target: int, options: Options, callerPgid: nat)
    requires queue != [] && queue[|queue| - 1] == e && e.kind.Exited?
    ensures Matches(e.child, e.pgid, target, callerPgid) ==> FirstWanted(queue, target, options, callerPgid).Some?
  {
    hide Matches, FirstWanted;
    assert Wanted(e, target, options, callerPgid) <==> Matches(e.child, e.pgid, target, callerPgid);
  }

  lemma LostExitWithout(pending: Pendings, events: Events, pid: Pid, p: Pid)
    requires NoLostExit(pending, events)
    ensures NoLostExit(Remove(Remove(pending, pid), p), events)
  {
  }

  lemma LostExitElsewhere(pending: Pendings, events: Events, p: Pid, e: ChildEvent)
    requires NoLostExit(Remove(pending, p), events)
    ensures NoLostExit(Remove(pending, p), events[p := QueueOf(events, p) + [e]])
  {
    var events' := events[p := QueueOf(events, p) + [e]];
    forall q, i | q in Remove(pending, p) && 0 <= i < |QueueOf(events', q)| && QueueOf(events', q)[i].kind.Exited?
      ensures var f := QueueOf(events', q)[i]; !Matches(f.child, f.pgid, pending[q].target, pending[q].callerPgid)
    {
      assert QueueOf(events', q) == QueueOf(events, q);
    }
  }

  lemma SettledStays(waits: seq<DeferredWait>, waits': seq<DeferredWait>, n: nat)
    requires Settled(waits, waits') && n < |waits| && !waits[n].outcome.Waiting?
    ensures n < |waits'| && waits'[n] == waits[n]
  {
  }

  lemma DeferredKeeps(tasks: Tasks, events: Events, pending: Pendings, p: Pid, wait: PendingWait, excused: set<Pid>)
    requires NoLostExit(pending, events) && Hopeful(tasks, pending, excused) && p !in pending && p in tasks
    requires HasLiveChild(tasks, p, wait.target, wait.callerPgid)
    requires FirstWanted(QueueOf(events, p), wait.target, wait.options, wait.callerPgid).None?
    ensures NoLostExit(pending[p := wait], events) && Hopeful(tasks, pending[p := wait], excused)
  {
    assert Remove(pending[p := wait], p) == pending;
    StillPending(tasks, events, pending[p := wait], p, excused);
  }

  lemma ChildlessAdd(waits: seq<DeferredWait>, w: DeferredWait, stranded: set<nat>)
    requires ChildlessOk(waits, stranded) && w.outcome.Waiting?
    ensures ChildlessOk(waits + [w], stranded)
  {
  }

  // ----- Runs -----

  datatype Call =
    | CallRegister(parent: Pid, pgid: nat)
    | CallExit(pid: Pid, code: nat)
    | CallWait(pid: Pid, target: int, options: Options, wantStatus: bool)
    | CallChildState(pid: Pid, status: int, kind: EventKind)
    | CallRegroup(pid: Pid, pgid: nat)

  predicate Ends(call: Call, c: Pid) { call.CallExit? && call.pid == c }

  /** A record stays, and stays its parent's child, until its own exit. */
  ghost predicate Remain(tasks: Tasks, tasks': Tasks, calls: seq<Call>) {
    forall c | c in tasks && (forall i | 0 <= i < |calls| :: !Ends(calls[i], c)) ::
      c in tasks' && tasks'[c].parent == tasks[c].parent
  }

  lemma RemainNext(a: Tasks, b: Tasks, c: Tasks, calls: seq<Call>, call: Call)
    requires Remain(a, b, calls) && forall p | p in b && !Ends(call, p) :: p in c && c[p].parent == b[p].parent
    ensures Remain(a, c, calls + [call])
  {
    hide Ends;
    forall p | p in a && (forall i | 0 <= i < |calls + [call]| :: !Ends((calls + [call])[i], p))
      ensures p in c && c[p].parent == a[p].parent
    {
      forall i | 0 <= i < |calls|
        ensures !Ends(calls[i], p)
      {
        assert (calls + [call])[i] == calls[i];
      }
      assert (calls + [call])[|calls|] == call;
    }
  }

  /** A record that never exits, as the one a failed fork leaves, is a live child for ever: wherever
      the run has got to, a wait of its parent for any child is not told that there is none. */
  lemma NeverChildless(tasks: Tasks, tasks': Tasks, calls: seq<Call>, c: Pid, callerPgid: nat)
    requires Remain(tasks, tasks', calls) && c in tasks && forall i | 0 <= i < |calls| :: !Ends(calls[i], c)
    ensures HasLiveChild(tasks', tasks[c].parent, -1, callerPgid)
    ensures c > 0 ==> HasLiveChild(tasks', tasks[c].parent, c, callerPgid)
  {
    assert c in tasks' && tasks'[c].parent == tasks[c].parent;
  }

  method Step(state: ApeTaskState, call: Call)
    requires state.Valid() && 0 < state.nextPid < USIZE_MAX
    modifies state
    ensures state.Valid() && Settled(old(state.waits), state.waits)
    ensures old(state.nextPid) <= state.nextPid <= old(state.nextPid) + 1
    ensures old(state.stranded) <= state.stranded && (call.CallRegroup? || state.stranded == old(state.stranded))
    ensures forall c | c in old(state.tasks) && !Ends(call, c) ::
              c in state.tasks && state.tasks[c].parent == old(state.tasks)[c].parent
  {
    hide ApeTaskState.Valid, Settled, FirstWanted, LedgerOf, QueueOf, HasLiveChild;
    NothingSettled(state.waits);
    match call
    case CallRegister(parent, pgid) =>
      var child := state.RegisterProcess(parent, pgid);
    case CallExit(pid, code) =>
      var r, signalled, resumed := state.Terminate(pid, code);
    case CallWait(pid, target, options, wantStatus) =>
      var r := state.Wait4(pid, target, options, wantStatus);
    case CallChildState(pid, status, kind) =>
      if pid in state.tasks && !kind.Exited? {
        state.RecordChildState(pid, status, kind);
      }
    case CallRegroup(pid, pgid) =>
      if pid in state.tasks {
        state.Regroup(pid, pgid);
      }
  }

  /** Over every run no exit is lost or reaped twice, every deferred wait is settled once, and it is
      told there is no child only if a change of group stranded it; a record stays until its exit. */
  method RunAll(state: ApeTaskState, calls: seq<Call>)
    requires state.Valid() && 0 < state.nextPid && state.nextPid + |calls| <= USIZE_MAX
    modifies state
    ensures state.Valid() && Settled(old(state.waits), state.waits)
    ensures old(state.stranded) == state.stranded || exists i :: 0 <= i < |calls| && calls[i].CallRegroup?
    ensures Remain(old(state.tasks), state.tasks, calls)
  {
    hide ApeTaskState.Valid, Settled, Remain;
    NothingSettled(state.waits);
    AllRemain(state.tasks);
    assert calls[..0] == [];
    for i := 0 to |calls|
      invariant state.Valid() && Settled(old(state.waits), state.waits)
      invariant 0 < state.nextPid && state.nextPid + |calls| - i <= USIZE_MAX
      invariant old(state.stranded) == state.stranded || exists j :: 0 <= j < i && calls[j].CallRegroup?
      invariant Remain(old(state.tasks), state.tasks, calls[..i])
    {
      ghost var waits0, tasks0 := state.waits, state.tasks;
      Step(state, calls[i]);
      RemainNext(old(state.tasks), tasks0, state.tasks, calls[..i], calls[i]);
      assert calls[..i] + [calls[i]] == calls[..i + 1];
      SettledTransitive(old(state.waits), waits0, state.waits);
    }
    assert calls[..|calls|] == calls;
  }

  lemma AllRemain(tasks: Tasks)
    ensures Remain(tasks, tasks, [])
  {
  }

  lemma LiveChildSame(tasks: Tasks, tasks': Tasks, p: Pid, target: int, callerPgid: nat)
    requires SameFamily(tasks, tasks')
    ensures HasLiveChild(tasks', p, target, callerPgid) <==> HasLiveChild(tasks, p, target, callerPgid)
  {
    hide HasLiveChild;
    LiveChildKept(tasks, tasks', p, target, callerPgid);
    LiveChildKept(tasks', tasks, p, target, callerPgid);
  }
}
