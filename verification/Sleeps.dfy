/** nanosleep with deferred replies: completions that may come late, signals that interrupt, and
    the history that shows each sleep ends once. */
module Sleeps {
  import opened Types

  const NSEC_PER_SEC: nat := 1_000_000_000
  const NSEC_PER_MSEC: nat := 1_000_000
  const U64_MAX: nat := 0xFFFF_FFFF_FFFF_FFFF
  const I64_MAX: nat := 0x7FFF_FFFF_FFFF_FFFF

  const SIGNAL_MAX: nat := 64
  const SIGKILL: nat := 9
  const SIGSTOP: nat := 19
  const UNBLOCKABLE: set<nat> := {SIGKILL, SIGSTOP}

  type SignalSet = set<nat>

  /** Masks and pending signals of a process. The source keeps the sets as 64-bit words. */
  datatype Signals = Signals(pending: SignalSet, blocked: SignalSet, saved: Option<SignalSet>) {
    function Deliverable(): SignalSet { pending - blocked }

    function SetBlocked(mask: SignalSet): Signals { this.(blocked := mask - UNBLOCKABLE) }

    /** The mask the process has outside sigsuspend. */
    function OwnMask(): SignalSet { if saved.Some? then saved.value - UNBLOCKABLE else blocked }

    function Restored(): Signals
      requires saved.Some?
    {
      SetBlocked(saved.value).(saved := None)
    }
  }

  predicate IsLeast(n: nat, s: SignalSet) { n in s && forall m | m in s :: n <= m }

  ghost function Least(s: SignalSet): (n: nat)
    requires s != {}
    ensures IsLeast(n, s)
  {
    var x :| x in s;
    assert forall m | m in s :: m == x || m in s - {x};
    if s - {x} == {} then x else Min(x, Least(s - {x}))
  }

  /** The lowest bit set in a mask. */
  method Lowest(s: SignalSet) returns (n: nat)
    requires s != {}
    ensures IsLeast(n, s)
  {
    assert IsLeast(Least(s), s);
    n :| IsLeast(n, s);
  }

  /** A mask never blocks SIGKILL or SIGSTOP, and a process held in sigsuspend has nothing to deliver. */
  ghost predicate SignalsOk(s: Signals) {
    && s.blocked !! UNBLOCKABLE
    && (s.saved.Some? ==> s.Deliverable() == {})
  }

  function SatAdd64(a: nat, b: nat): nat { if a + b <= U64_MAX then a + b else U64_MAX }

  function DivCeil(a: nat, b: nat): nat
    requires b > 0
  {
    (a + b - 1) / b
  }

  function SleepMs(reqNs: nat): nat { Max(1, DivCeil(reqNs, NSEC_PER_MSEC)) }

  /** The worker's sleep, in whole milliseconds, is never shorter than what was asked. */
  lemma SleepsLongEnough(reqNs: nat, now: nat)
    ensures SatAdd64(now, reqNs) <= now + SleepMs(reqNs) * NSEC_PER_MSEC
  {
  }

  datatype Timespec = Timespec(sec: int, nsec: int)

  function ToNs(ts: Timespec): Result<nat> {
    if ts.sec < 0 || !(0 <= ts.nsec < NSEC_PER_SEC) then Err(InvalidArgs)
    else if ts.sec * NSEC_PER_SEC + ts.nsec > U64_MAX then Err(OutOfMemory)
    else Ok(ts.sec * NSEC_PER_SEC + ts.nsec)
  }

  function FromNs(ns: nat): Timespec {
    Timespec(if ns / NSEC_PER_SEC <= I64_MAX then ns / NSEC_PER_SEC else I64_MAX, ns % NSEC_PER_SEC)
  }

  lemma TimespecRoundTrip(ns: nat, ts: Timespec)
    requires ns <= U64_MAX
    ensures ToNs(FromNs(ns)) == Ok(ns)
    ensures ToNs(ts).Ok? ==> FromNs(ToNs(ts).value) == ts
  {
    if ToNs(ts).Ok? {
      SecondsAndRest(ts.sec, ts.nsec);
    }
  }

  lemma SecondsAndRest(sec: nat, nsec: nat)
    requires nsec < NSEC_PER_SEC
    ensures (sec * NSEC_PER_SEC + nsec) / NSEC_PER_SEC == sec && (sec * NSEC_PER_SEC + nsec) % NSEC_PER_SEC == nsec
  {
  }

  // ----- Pending sleeps, workers, history -----

  datatype PendingSleep = PendingSleep(replySlot: Slot, rem: bool, deadline: nat, id: nat)

  /** A worker that will send the completion of a request once it has slept. */
  datatype Worker = Worker(pid: Pid, wakeAt: nat)

  datatype End =
    | Asleep
    | Completed(at: nat)
    | Interrupted(remain: nat)
    | Dropped
    | Overwritten

  datatype Nap = Nap(pid: Pid, deadline: nat, end: End)

  /** The sleep was reported as over before it was. */
  predicate Early(nap: Nap) { nap.end.Completed? && nap.end.at < nap.deadline }

  type Procs = map<Pid, Signals>
  type PendingSleeps = map<Pid, PendingSleep>

  type Naps = map<nat, Nap>

  /** Every request up to the next one has its sleep; the pending table holds exactly those that have
      not ended; a worker wakes no earlier than its sleep is due, unless its sleep call failed: those
      requests are `broken`. */
  ghost predicate NapsOk(pending: PendingSleeps, workers: map<nat, Worker>, naps: Naps, next: nat, broken: set<nat>) {
    && (forall id | id in naps :: 1 <= id < next)
    && (forall p | p in pending ::
          pending[p].id in naps && naps[pending[p].id] == Nap(p, pending[p].deadline, Asleep))
    && (forall id | id in naps && naps[id].end.Asleep? :: naps[id].pid in pending && pending[naps[id].pid].id == id)
    && (forall id | id in workers ::
          id in naps && naps[id].pid == workers[id].pid && (id in broken || naps[id].deadline <= workers[id].wakeAt))
    && (forall id | id in naps && Early(naps[id]) :: id in broken)
    && (forall id | id in broken :: id in naps)
    && (forall p, q | p in pending && q in pending && p != q :: pending[p].replySlot != pending[q].replySlot)
  }

  /** A sleep that has not ended has a worker to end it, unless none could be had for it: such a
      sleep is never completed. */
  ghost predicate Served(workers: map<nat, Worker>, naps: Naps, unserved: set<nat>) {
    && (forall id | id in naps && naps[id].end.Asleep? :: id in workers || id in unserved)
    && (forall id | id in unserved :: id in naps && id !in workers && !naps[id].end.Completed?)
  }

  /** A later sleep of the process has taken the place of its pending one. */
  ghost function Replaced(naps: Naps, pending: PendingSleeps, pid: Pid): Naps {
    if pid in pending && pending[pid].id in naps
    then naps[pending[pid].id := naps[pending[pid].id].(end := Overwritten)] else naps
  }

  /** A sleeping process has no signal to deliver. */
  ghost predicate SleepersQuiet(procs: Procs, pending: PendingSleeps) {
    forall p | p in pending :: p in procs && procs[p].Deliverable() == {}
  }

  ghost predicate AllSignalsOk(procs: Procs) {
    forall p | p in procs :: SignalsOk(procs[p])
  }

  /** A sleep that has ended stays as it ended. */
  ghost predicate Ended(naps: Naps, naps': Naps) {
    forall id | id in naps ::
      && id in naps'
      && (naps'[id] == naps[id] || (naps[id].end.Asleep? && naps'[id] == naps[id].(end := naps'[id].end)))
  }

  lemma EndedTransitive(a: Naps, b: Naps, c: Naps)
    requires Ended(a, b) && Ended(b, c)
    ensures Ended(a, c)
  {
  }

  lemma EndNap(pending: PendingSleeps, workers: map<nat, Worker>, naps: Naps, next: nat, broken: set<nat>, p: Pid,
               end: End)
    requires NapsOk(pending, workers, naps, next, broken) && p in pending && !end.Asleep?
    requires end.Completed? && end.at < pending[p].deadline ==> pending[p].id in broken
    ensures var id := pending[p].id;
            && id in naps && naps[id] == Nap(p, pending[p].deadline, Asleep)
            && NapsOk(Remove(pending, p), workers, naps[id := naps[id].(end := end)], next, broken)
            && Ended(naps, naps[id := naps[id].(end := end)])
  {
  }

  lemma StartNap(pending: PendingSleeps, workers: map<nat, Worker>, naps: Naps, next: nat, broken: set<nat>, p: Pid,
                 sleep: PendingSleep)
    requires NapsOk(pending, workers, naps, next, broken) && p !in pending && sleep.id == next >= 1
    requires forall q | q in pending :: pending[q].replySlot != sleep.replySlot
    ensures NapsOk(pending[p := sleep], workers, naps[next := Nap(p, sleep.deadline, Asleep)], next + 1, broken)
    ensures next !in naps && Ended(naps, naps[next := Nap(p, sleep.deadline, Asleep)])
  {
  }

  lemma AddWorker(pending: PendingSleeps, workers: map<nat, Worker>, naps: Naps, next: nat, broken: set<nat>, id: nat,
                  worker: Worker)
    requires NapsOk(pending, workers, naps, next, broken)
    requires id in naps && naps[id].pid == worker.pid && naps[id].deadline <= worker.wakeAt
    ensures NapsOk(pending, workers[id := worker], naps, next, broken)
  {
  }

  /** The sleep call of a worker fails: it goes on at once. */
  lemma BreakWorker(pending: PendingSleeps, workers: map<nat, Worker>, naps: Naps, next: nat, broken: set<nat>, id: nat,
                    now: nat)
    requires NapsOk(pending, workers, naps, next, broken) && id in workers
    ensures NapsOk(pending, workers[id := workers[id].(wakeAt := now)], naps, next, broken + {id})
  {
  }

  lemma DropWorker(pending: PendingSleeps, workers: map<nat, Worker>, naps: Naps, next: nat, broken: set<nat>, id: nat)
    requires NapsOk(pending, workers, naps, next, broken)
    ensures NapsOk(pending, Remove(workers, id), naps, next, broken)
  {
  }

  /** A completion answers a sleep exactly when it is its own. */
  lemma OwnCompletion(pending: PendingSleeps, workers: map<nat, Worker>, naps: Naps, next: nat, broken: set<nat>,
                      id: nat)
    requires NapsOk(pending, workers, naps, next, broken) && id in workers
    ensures id in naps && naps[id].pid == workers[id].pid
    ensures var p := workers[id].pid;
            && (naps[id].end.Asleep? <==> p in pending && pending[p].id == id)
            && (naps[id].end.Asleep? ==>
                  naps[id].deadline == pending[p].deadline
                  && (id in broken || pending[p].deadline <= workers[id].wakeAt))
  {
  }

  /** The completion of a worker that is through ends its sleep early exactly when the sleep is not
      due yet, which takes a worker whose sleep call failed. */
  lemma CompletionEarlyIff(pending: PendingSleeps, workers: map<nat, Worker>, naps: Naps, next: nat, broken: set<nat>,
                           id: nat, now: nat)
    requires NapsOk(pending, workers, naps, next, broken) && id in workers && workers[id].wakeAt <= now
    requires id in naps && naps[id].end.Asleep?
    ensures Early(naps[id].(end := Completed(now))) <==> now < naps[id].deadline
    ensures now < naps[id].deadline ==> id in broken
    ensures NapsOk(Remove(pending, naps[id].pid), workers, naps[id := naps[id].(end := Completed(now))], next, broken)
  {
    hide NapsOk;
    OwnCompletion(pending, workers, naps, next, broken, id);
    EndNap(pending, workers, naps, next, broken, naps[id].pid, Completed(now));
  }

  /** A failing instance: ten seconds asked for, and over at once. */
  lemma EarlyWitness()
    ensures exists pending: PendingSleeps, workers: map<nat, Worker>, naps: Naps ::
              && NapsOk(pending, workers, naps, 2, {}) && 1 in workers
              && workers[1].wakeAt == SleepMs(10 * NSEC_PER_SEC) * NSEC_PER_MSEC
              && 1 in naps && naps[1] == Nap(7, 10 * NSEC_PER_SEC, Asleep)
              && var broke := workers[1 := workers[1].(wakeAt := 0)];
                 var over := naps[1 := naps[1].(end := Completed(0))];
                 NapsOk(pending, broke, naps, 2, {1}) && NapsOk(Remove(pending, 7), broke, over, 2, {1})
                 && Early(over[1])
  {
    var pending: PendingSleeps := map[7 := PendingSleep(1, false, 10 * NSEC_PER_SEC, 1)];
    var workers: map<nat, Worker> := map[1 := Worker(7, 10 * NSEC_PER_SEC)];
    var naps: Naps := map[1 := Nap(7, 10 * NSEC_PER_SEC, Asleep)];
    assert SleepMs(10 * NSEC_PER_SEC) * NSEC_PER_MSEC == 10 * NSEC_PER_SEC;
    assert NapsOk(pending, workers, naps, 2, {});
    BreakWorker(pending, workers, naps, 2, {}, 1, 0);
    var broke := workers[1 := workers[1].(wakeAt := 0)];
    assert {} + {1} == {1};
    CompletionEarlyIff(pending, broke, naps, 2, {1}, 1, 0);
  }

  /** The pending sleep of the process, if any, ends without an answer. */
  lemma ReplaceNap(pending: PendingSleeps, workers: map<nat, Worker>, naps: Naps, next: nat, broken: set<nat>,
                   unserved: set<nat>, p: Pid)
    requires NapsOk(pending, workers, naps, next, broken) && Served(workers, naps, unserved)
    ensures NapsOk(Remove(pending, p), workers, Replaced(naps, pending, p), next, broken)
    ensures Served(workers, Replaced(naps, pending, p), unserved) && Ended(naps, Replaced(naps, pending, p))
    ensures p in pending ==> pending[p].id in naps
    ensures next !in naps && next !in Replaced(naps, pending, p)
  {
    hide NapsOk, Served, Ended;
    NothingEnded(naps);
    IdsBelow(pending, workers, naps, next, broken);
    if p in pending {
      EndNap(pending, workers, naps, next, broken, p, Overwritten);
      ServedEnd(workers, naps, unserved, pending[p].id, Overwritten);
    } else {
      assert Remove(pending, p) == pending;
    }
  }

  lemma IdsBelow(pending: PendingSleeps, workers: map<nat, Worker>, naps: Naps, next: nat, broken: set<nat>)
    requires NapsOk(pending, workers, naps, next, broken)
    ensures next !in naps
  {
  }

  lemma ServedEnd(workers: map<nat, Worker>, naps: Naps, unserved: set<nat>, id: nat, end: End)
    requires Served(workers, naps, unserved) && id in naps && !end.Asleep? && (end.Completed? ==> id !in unserved)
    ensures Served(workers, naps[id := naps[id].(end := end)], unserved)
  {
  }

  lemma ServedStart(workers: map<nat, Worker>, naps: Naps, unserved: set<nat>, id: nat, nap: Nap, worker: Worker)
    requires Served(workers, naps, unserved) && id !in naps && nap.end.Asleep?
    ensures Served(workers[id := worker], naps[id := nap], unserved)
    ensures id !in workers ==> Served(workers, naps[id := nap], unserved + {id})
  {
  }

  lemma ServedDone(workers: map<nat, Worker>, naps: Naps, unserved: set<nat>, id: nat)
    requires Served(workers, naps, unserved) && (id in naps ==> !naps[id].end.Asleep?)
    ensures Served(Remove(workers, id), naps, unserved)
  {
  }

  lemma NoWorkerYet(pending: PendingSleeps, workers: map<nat, Worker>, naps: Naps, next: nat, broken: set<nat>)
    requires NapsOk(pending, workers, naps, next, broken)
    ensures next !in workers
  {
  }

  lemma ServedWorker(workers: map<nat, Worker>, naps: Naps, unserved: set<nat>, id: nat)
    requires Served(workers, naps, unserved) && id in workers
    ensures id !in unserved
  {
  }

  lemma NothingEnded(naps: Naps)
    ensures Ended(naps, naps)
  {
  }

  // ----- The manager's side -----

  class AsyncRuntime {
    var procs: Procs
    var pending: PendingSleeps
    var workers: map<nat, Worker>
    var nextRequestId: nat
    var clock: nat

    ghost var naps: Naps
    /** The requests no worker could be had for. */
    ghost var unserved: set<nat>
    /** The requests whose worker could not sleep as long as it should. */
    ghost var broken: set<nat>

    ghost predicate Valid()
      reads this
    {
      && NapsOk(pending, workers, naps, nextRequestId, broken)
      && Served(workers, naps, unserved)
      && nextRequestId >= 1
      && SleepersQuiet(procs, pending)
      && AllSignalsOk(procs)
    }

    constructor ()
      ensures Valid() && procs == map[] && naps == map[] && unserved == {} && broken == {}
    {
      procs, pending, workers, nextRequestId, clock, naps, unserved, broken := map[], map[], map[], 1, 0, map[], {}, {};
    }

    method AddProcess(pid: Pid, mask: SignalSet)
      requires Valid() && pid !in procs
      modifies this`procs
      ensures Valid() && procs == old(procs)[pid := Signals({}, mask - UNBLOCKABLE, None)]
    {
      procs := procs[pid := Signals({}, {}, None).SetBlocked(mask)];
    }

    method Tick(ns: nat)
      requires Valid()
      modifies this`clock
      ensures Valid() && clock == old(clock) + ns
    {
      clock := clock + ns;
    }

    /** `Ok(Some(true))`: slept nothing; `Ok(Some(false))`: a signal was there; `Ok(None)`: deferred,
        in place of a sleep of the process that was pending. */
    method Nanosleep(pid: Pid, req: Timespec, rem: bool) returns (r: Result<Option<bool>>)
      requires Valid() && pid in procs && nextRequestId < USIZE_MAX
      modifies this`pending, this`workers, this`nextRequestId, this`naps, this`unserved
      ensures Valid() && Ended(old(naps), naps)
      ensures nextRequestId <= old(nextRequestId) + 1
      ensures ToNs(req).Err? ==> r == Err(InvalidArgs)
      ensures ToNs(req) == Ok(0) ==> r == Ok(Some(true)) || (rem && r == Err(InvalidAddress))
      ensures ToNs(req).Ok? && ToNs(req).value > 0 && procs[pid].Deliverable() != {} ==>
                r == Ok(Some(false)) || (rem && r == Err(InvalidAddress))
      ensures r == Ok(None) ==>
                && ToNs(req).Ok? && ToNs(req).value > 0 && procs[pid].Deliverable() == {}
                && naps == Replaced(old(naps), old(pending),
                                    pid)[old(nextRequestId) := Nap(pid, SatAdd64(clock, ToNs(req).value), Asleep)]
                && old(nextRequestId) !in old(naps)
                && pid in pending && pending == old(pending)[pid := pending[pid]]
                && pending[pid].rem == rem && pending[pid].deadline == SatAdd64(clock, ToNs(req).value)
                && pending[pid].id == old(nextRequestId)
      ensures r == Ok(None) ==>
                if old(nextRequestId) in workers then unserved == old(unserved)
                else unserved == old(unserved) + {old(nextRequestId)}
      ensures r != Ok(None) ==>
                pending == old(pending) && naps == old(naps) && workers == old(workers) && unserved == old(unserved)
    {
      hide NapsOk, Ended, AllSignalsOk, Served, Replaced;
      NothingEnded(naps);
      var reqNs := ToNs(req);
      if reqNs.Err? {
        return Err(InvalidArgs);
      }
      var written: bool := *;
      if reqNs.value == 0 {
        return if rem && !written then Err(InvalidAddress) else Ok(Some(true));
      }
      if procs[pid].Deliverable() != {} {
        return if rem && !written then Err(InvalidAddress) else Ok(Some(false));
      }
      r := ScheduleNanosleep(pid, reqNs.value, rem);
    }

    method ScheduleNanosleep(pid: Pid, reqNs: nat, rem: bool) returns (r: Result<Option<bool>>)
      requires Valid() && pid in procs && procs[pid].Deliverable() == {} && nextRequestId < USIZE_MAX
      modifies this`pending, this`workers, this`nextRequestId, this`naps, this`unserved
      ensures Valid() && Ended(old(naps), naps)
      ensures r == Ok(None) || r == Err(ResourceFailed)
      ensures nextRequestId <= old(nextRequestId) + 1
      ensures r.Ok? ==>
                && naps == Replaced(old(naps), old(pending),
                                    pid)[old(nextRequestId) := Nap(pid, SatAdd64(clock, reqNs), Asleep)]
                && old(nextRequestId) !in old(naps)
                && pid in pending && pending == old(pending)[pid := pending[pid]]
                && pending[pid].rem == rem && pending[pid].deadline == SatAdd64(clock, reqNs)
                && pending[pid].id == old(nextRequestId)
      ensures r.Ok? ==>
                if old(nextRequestId) in workers then unserved == old(unserved)
                else unserved == old(unserved) + {old(nextRequestId)}
      ensures r.Err? ==>
                pending == old(pending) && naps == old(naps) && workers == old(workers) && unserved == old(unserved)
    {
      hide NapsOk, Ended, AllSignalsOk, SatAdd64, SleepMs, Served, Replaced;
      NothingEnded(naps);
      var fails: bool := *;
      if fails {
        return Err(ResourceFailed);
      }
      var deadline := SatAdd64(clock, reqNs);
      var used := set q | q in pending :: pending[q].replySlot;
      var slot := FreshSlot(used);
      var id := nextRequestId;
      var sleep := PendingSleep(slot, rem, deadline, id);
      ghost var naps1 := Replaced(naps, pending, pid);
      ReplaceNap(pending, workers, naps, nextRequestId, broken, unserved, pid);
      NoWorkerYet(pending, workers, naps, nextRequestId, broken);
      StartNap(Remove(pending, pid), workers, naps1, nextRequestId, broken, pid, sleep);
      EndedTransitive(naps, naps1, naps1[id := Nap(pid, deadline, Asleep)]);
      ServedStart(workers, naps1, unserved, id, Nap(pid, deadline, Asleep),
                  Worker(pid, clock + SleepMs(reqNs) * NSEC_PER_MSEC));
      assert Remove(pending, pid)[pid := sleep] == pending[pid := sleep];
      nextRequestId := SatAdd(nextRequestId, 1);
      naps := naps1[id := Nap(pid, deadline, Asleep)];
      pending := pending[pid := sleep];
      var spawned: bool := *;
      if spawned {
        SleepsLongEnough(reqNs, clock);
        AddWorker(pending, workers, naps, nextRequestId, broken, id,
                  Worker(pid, clock + SleepMs(reqNs) * NSEC_PER_MSEC));
        workers := workers[id := Worker(pid, clock + SleepMs(reqNs) * NSEC_PER_MSEC)];
      } else {
        unserved := unserved + {id};
      }
      r := Ok(None);
    }

    /** The sleep call of a worker returns an error, which the worker does not look at. */
    method FailWorker(id: nat)
      requires Valid() && id in workers && clock < workers[id].wakeAt
      modifies this`workers, this`broken
      ensures Valid() && workers == old(workers)[id := old(workers)[id].(wakeAt := clock)]
              && broken == old(broken) + {id}
    {
      hide NapsOk, AllSignalsOk, SleepersQuiet;
      BreakWorker(pending, workers, naps, nextRequestId, broken, id, clock);
      workers := workers[id := workers[id].(wakeAt := clock)];
      broken := broken + {id};
    }

    /** The completion of a request arrives, however late: it ends that very sleep, when it has not
        ended, and never another. It comes before the sleep is due only from a worker whose sleep
        call failed. */
    method CompleteSleep(id: nat)
      requires Valid() && id in workers && workers[id].wakeAt <= clock
      modifies this`pending, this`workers, this`naps
      ensures Valid() && Ended(old(naps), naps) && workers == Remove(old(workers), id)
      ensures id in old(naps)
      ensures old(naps)[id].end.Asleep? ==>
                && naps == old(naps)[id := old(naps)[id].(end := Completed(clock))]
                && pending == Remove(old(pending), old(naps)[id].pid)
                && (Early(naps[id]) <==> clock < old(naps)[id].deadline) && (Early(naps[id]) ==> id in broken)
      ensures !old(naps)[id].end.Asleep? ==> naps == old(naps) && pending == old(pending)
    {
      hide NapsOk, Ended, AllSignalsOk, Served;
      NothingEnded(naps);
      var pid := workers[id].pid;
      OwnCompletion(pending, workers, naps, nextRequestId, broken, id);
      ServedWorker(workers, naps, unserved, id);
      if pid in pending && pending[pid].id == id {
        EndNap(pending, workers, naps, nextRequestId, broken, pid, Completed(clock));
        ServedEnd(workers, naps, unserved, id, Completed(clock));
        naps := naps[id := naps[id].(end := Completed(clock))];
        pending := Remove(pending, pid);
      }
      DropWorker(pending, workers, naps, nextRequestId, broken, id);
      ServedDone(workers, naps, unserved, id);
      workers := Remove(workers, id);
    }

    /** Ends the sleep of a process with EINTR and the time that was left. */
    method InterruptSleep(pid: Pid) returns (interrupted: bool)
      requires NapsOk(pending, workers, naps, nextRequestId, broken) && Served(workers, naps, unserved)
      modifies this`pending, this`naps
      ensures NapsOk(pending, workers, naps, nextRequestId, broken) && Served(workers, naps, unserved)
              && Ended(old(naps), naps)
      ensures interrupted <==> pid in old(pending)
      ensures pending == Remove(old(pending), pid)
      ensures interrupted ==>
                && old(pending)[pid].id in old(naps)
                && exists now | now == clock || now == 0 ::
                     naps == old(naps)[old(pending)[pid].id :=
                               Nap(pid, old(pending)[pid].deadline,
                                   Interrupted(SatSub(old(pending)[pid].deadline, now)))]
      ensures !interrupted ==> naps == old(naps)
    {
      hide NapsOk, Ended, Served;
      NothingEnded(naps);
      if pid !in pending {
        assert Remove(pending, pid) == pending;
        return false;
      }
      var known: bool := *;
      var now := if known then clock else 0;
      var remain := SatSub(pending[pid].deadline, now);
      EndNap(pending, workers, naps, nextRequestId, broken, pid, Interrupted(remain));
      ServedEnd(workers, naps, unserved, pending[pid].id, Interrupted(remain));
      naps := naps[pending[pid].id := naps[pending[pid].id].(end := Interrupted(remain))];
      pending := Remove(pending, pid);
      interrupted := true;
    }

    /** A signal: it ends a sleep, and wakes a process from sigsuspend with its own mask, exactly when
        there is then a signal to deliver. */
    method QueueSignal(pid: Pid, signum: nat) returns (queued: bool, ghost woken: bool)
      requires Valid()
      modifies this`procs, this`pending, this`naps
      ensures Valid() && Ended(old(naps), naps)
      ensures queued <==> pid in old(procs) && 1 <= signum <= SIGNAL_MAX
      ensures pid !in old(pending) ==> naps == old(naps)
      ensures forall id | id in old(naps) && old(naps)[id].pid != pid :: id in naps && naps[id] == old(naps)[id]
      ensures !queued ==> procs == old(procs) && pending == old(pending) && naps == old(naps)
      ensures queued ==>
                var s := old(procs)[pid];
                var deliverable := (s.pending + {signum}) - s.blocked != {};
                && pending == (if deliverable then Remove(old(pending), pid) else old(pending))
                && (woken <==> s.saved.Some? && deliverable)
                && procs == old(procs)[pid := (if woken then s.Restored() else s).(pending := s.pending + {signum})]
                && procs[pid].OwnMask() == s.OwnMask()
    {
      hide NapsOk, Ended, Served;
      NothingEnded(naps);
      woken := false;
      if pid !in procs || !(1 <= signum <= SIGNAL_MAX) {
        return false, false;
      }
      ghost var procs0, pending0 := procs, pending;
      OwnNap(pending, workers, naps, nextRequestId, broken, pid);
      var s := procs[pid].(pending := procs[pid].pending + {signum});
      procs := procs[pid := s];
      var deliverable := s.Deliverable() != {};
      if deliverable {
        var interrupted := InterruptSleep(pid);
      }
      if s.saved.Some? && deliverable {
        procs := procs[pid := s.Restored()];
        woken := true;
      }
      SignalKeeps(procs0, procs, pending0, pending, pid);
      queued := true;
    }

    /** The lowest signal of a mask that is pending, taken off. */
    method PopSignal(pid: Pid, mask: SignalSet) returns (r: Option<nat>)
      requires Valid() && pid in procs
      modifies this`procs
      ensures Valid()
      ensures r.None? ==> procs == old(procs) && old(procs)[pid].pending * mask == {}
      ensures r.Some? ==>
                && IsLeast(r.value, old(procs)[pid].pending * mask)
                && procs == old(procs)[pid := old(procs)[pid].(pending := old(procs)[pid].pending - {r.value})]
    {
      hide NapsOk, Served;
      var ready := procs[pid].pending * mask;
      if ready == {} {
        return None;
      }
      var signum := Lowest(ready);
      ghost var procs0 := procs;
      procs := procs[pid := procs[pid].(pending := procs[pid].pending - {signum})];
      SignalKeeps(procs0, procs, pending, pending, pid);
      r := Some(signum);
    }

    /** A signal is taken for delivery as a system call returns. */
    method ConsumeSignal(pid: Pid) returns (r: Option<nat>)
      requires Valid()
      modifies this`procs
      ensures Valid()
      ensures r.Some? ==> pid in old(procs) && pid !in pending && r.value in old(procs)[pid].Deliverable()
                          && procs ==
                               old(procs)[pid := old(procs)[pid].(pending := old(procs)[pid].pending - {r.value})]
      ensures r.None? ==> procs == old(procs) && (pid in procs ==> procs[pid].Deliverable() == {})
    {
      hide NapsOk, Served;
      if pid !in procs {
        return None;
      }
      r := PopSignal(pid, procs[pid].Deliverable());
    }

    /** A new mask for a process that is neither asleep nor suspended. */
    method SetMask(pid: Pid, mask: SignalSet)
      requires Valid() && pid in procs && pid !in pending && procs[pid].saved.None?
      modifies this`procs
      ensures Valid() && procs == old(procs)[pid := old(procs)[pid].SetBlocked(mask)]
              && procs[pid].OwnMask() == mask - UNBLOCKABLE
    {
      hide NapsOk, Served;
      procs := procs[pid := procs[pid].SetBlocked(mask)];
    }

    /** A signal that is deliverable under the mask is taken at once; otherwise the process is held,
        unless that fails. In every case its own mask is what it was. */
    method Sigsuspend(pid: Pid, mask: SignalSet) returns (observed: Option<nat>)
      requires Valid() && pid in procs && pid !in pending && procs[pid].saved.None?
      modifies this`procs
      ensures Valid() && procs.Keys == old(procs).Keys && procs[pid].OwnMask() == old(procs)[pid].OwnMask()
      ensures observed.Some? <==> old(procs)[pid].SetBlocked(mask).Deliverable() != {}
      ensures observed.Some? ==>
                && observed.value in old(procs)[pid].SetBlocked(mask).Deliverable()
                && procs[pid] == old(procs)[pid].(pending := old(procs)[pid].pending - {observed.value})
      ensures observed.None? ==> procs[pid] == old(procs)[pid] || procs[pid].saved == Some(old(procs)[pid].blocked)
    {
      hide NapsOk, Served;
      var oldMask := procs[pid].blocked;
      SetMask(pid, mask);
      observed := PopSignal(pid, procs[pid].Deliverable());
      if observed.Some? {
        SetMask(pid, oldMask);
        return;
      }
      procs := procs[pid := procs[pid].(saved := Some(oldMask))];
      var held: bool := *;
      if !held {
        procs := procs[pid := procs[pid].Restored()];
      }
    }

    /** The process is gone: its sleep is dropped without a reply. */
    method Exit(pid: Pid)
      requires Valid()
      modifies this`procs, this`pending, this`naps
      ensures Valid() && Ended(old(naps), naps)
      ensures procs == Remove(old(procs), pid) && pending == Remove(old(pending), pid)
      ensures pid in old(pending) ==>
                && old(pending)[pid].id in old(naps)
                && naps == old(naps)[old(pending)[pid].id := old(naps)[old(pending)[pid].id].(end := Dropped)]
      ensures pid !in old(pending) ==> naps == old(naps)
    {
      hide NapsOk, Ended, Served;
      NothingEnded(naps);
      if pid in pending {
        EndNap(pending, workers, naps, nextRequestId, broken, pid, Dropped);
        ServedEnd(workers, naps, unserved, pending[pid].id, Dropped);
        naps := naps[pending[pid].id := naps[pending[pid].id].(end := Dropped)];
        pending := Remove(pending, pid);
      } else {
        assert Remove(pending, pid) == pending;
      }
      procs := Remove(procs, pid);
    }
  }

  lemma OwnNap(pending: PendingSleeps, workers: map<nat, Worker>, naps: Naps, next: nat, broken: set<nat>, p: Pid)
    requires NapsOk(pending, workers, naps, next, broken)
    ensures p in pending ==> pending[p].id in naps && naps[pending[p].id].pid == p
  {
  }

  lemma SignalKeeps(procs: Procs, procs': Procs, pending: PendingSleeps, pending': PendingSleeps, pid: Pid)
    requires SleepersQuiet(procs, pending) && AllSignalsOk(procs) && pid in procs && procs'.Keys == procs.Keys
    requires forall p | p in procs && p != pid :: procs'[p] == procs[p]
    requires pending' == pending || pending' == Remove(pending, pid)
    requires SignalsOk(procs'[pid]) && (pid in pending' ==> procs'[pid].Deliverable() == {})
    ensures SleepersQuiet(procs', pending') && AllSignalsOk(procs')
  {
  }

  // ----- Runs -----

  datatype Event =
    | Start(newPid: Pid, mask: SignalSet)
    | Time(ns: nat)
    | Sleep(sleeper: Pid, req: Timespec, rem: bool)
    | Wake(id: nat)
    | Fail(request: nat)
    | Signal(target: Pid, signum: nat)
    | Consume(caller: Pid)
    | Mask(owner: Pid, blocked: SignalSet)
    | Suspend(suspender: Pid, during: SignalSet)
    | Gone(exited: Pid)

  /** The event can end a sleep of `pid` without its completion: a signal, its exit, or a later
      sleep that takes the place of the pending one. */
  predicate Disturbs(event: Event, pid: Pid) {
    (event.Signal? && event.target == pid) || (event.Gone? && event.exited == pid)
    || (event.Sleep? && event.sleeper == pid)
  }

  /** Only its own completion, or an event that disturbs its process, changes a sleep; and a sleep
      without a worker has no completion. */
  ghost predicate Undisturbed(naps: Naps, naps': Naps, unserved: set<nat>, events: seq<Event>) {
    forall id | id in naps && (forall i | 0 <= i < |events| ::
                                 !Disturbs(events[i], naps[id].pid) && (id in unserved || events[i] != Wake(id))) ::
      id in naps' && naps'[id] == naps[id]
  }

  lemma UndisturbedNext(a: Naps, b: Naps, c: Naps, unserved: set<nat>, unserved1: set<nat>, events: seq<Event>,
                        event: Event)
    requires Undisturbed(a, b, unserved, events) && Undisturbed(b, c, unserved1, [event]) && unserved <= unserved1
    ensures Undisturbed(a, c, unserved, events + [event])
  {
    hide Disturbs;
    forall id | id in a && (forall i | 0 <= i < |events + [event]| ::
                              !Disturbs((events + [event])[i], a[id].pid)
                              && (id in unserved || (events + [event])[i] != Wake(id)))
      ensures id in c && c[id] == a[id]
    {
      forall i | 0 <= i < |events|
        ensures !Disturbs(events[i], a[id].pid) && (id in unserved || events[i] != Wake(id))
      {
        assert (events + [event])[i] == events[i];
      }
      assert (events + [event])[|events|] == event;
    }
  }

  /** Over every interleaving each sleep accepted ends once at most: by its own completion when
      due, by a signal, by exit, or unanswered when a later sleep takes its place; it is reported
      as over too early only if the sleep call of its worker failed; and no sleeping process has a
      signal to deliver. A sleep that has not ended has a worker under way, unless
      none could be had: then nothing but an event of its process ever ends it. Events that a
      process asleep or suspended cannot cause are skipped. */
  method RunAll(state: AsyncRuntime, events: seq<Event>)
    requires state.Valid() && state.nextRequestId + |events| <= USIZE_MAX
    modifies state
    ensures state.Valid() && Ended(old(state.naps), state.naps)
    ensures old(state.unserved) <= state.unserved
            && Undisturbed(old(state.naps), state.naps, old(state.unserved), events)
    ensures forall id | id in state.naps && Early(state.naps[id]) :: id in state.broken
    ensures forall id | id in state.broken :: id in old(state.broken) || Fail(id) in events
  {
    hide AsyncRuntime.Valid, Ended, ToNs, Undisturbed, Early;
    NothingEnded(state.naps);
    NoEvents(state.naps, state.unserved);
    assert events[..0] == [];
    for i := 0 to |events|
      invariant state.Valid() && Ended(old(state.naps), state.naps) && state.nextRequestId + |events| - i <= USIZE_MAX
      invariant old(state.unserved) <= state.unserved
                && Undisturbed(old(state.naps), state.naps, old(state.unserved), events[..i])
      invariant forall id | id in state.broken :: id in old(state.broken) || Fail(id) in events[..i]
    {
      ghost var naps0, unserved0 := state.naps, state.unserved;
      Step(state, events[i]);
      EndedTransitive(old(state.naps), naps0, state.naps);
      UndisturbedNext(old(state.naps), naps0, state.naps, old(state.unserved), unserved0, events[..i], events[i]);
      assert events[..i] + [events[i]] == events[..i + 1];
    }
    assert events[..|events|] == events;
    EarlyIsBroken(state);
  }

  lemma EarlyIsBroken(state: AsyncRuntime)
    requires state.Valid()
    ensures forall id | id in state.naps && Early(state.naps[id]) :: id in state.broken
  {
    hide Served, SleepersQuiet, AllSignalsOk;
  }

  lemma NoEvents(naps: Naps, unserved: set<nat>)
    ensures Undisturbed(naps, naps, unserved, [])
  {
  }

  /** One event. A completion that comes when it is due always ends its sleep, if it is still on. */
  method Step(state: AsyncRuntime, event: Event)
    requires state.Valid() && state.nextRequestId < USIZE_MAX
    modifies state
    ensures state.Valid() && Ended(old(state.naps), state.naps) && state.nextRequestId <= old(state.nextRequestId) + 1
    ensures old(state.unserved) <= state.unserved
            && Undisturbed(old(state.naps), state.naps, old(state.unserved), [event])
    ensures event.Wake? && event.id in old(state.workers) && old(state.workers)[event.id].wakeAt <= old(state.clock) ==>
              event.id in state.naps && !state.naps[event.id].end.Asleep?
    ensures event.Wake? && event.id in old(state.workers) && old(state.workers)[event.id].wakeAt <= old(state.clock)
            && event.id in old(state.naps) && old(state.naps)[event.id].end.Asleep? ==>
              event.id in state.naps
              && (Early(state.naps[event.id]) <==> old(state.clock) < old(state.naps)[event.id].deadline)
    ensures state.broken == old(state.broken) || (event.Fail? && state.broken == old(state.broken) + {event.request})
  {
    hide AsyncRuntime.Valid, Ended, ToNs, SleepersQuiet, AllSignalsOk, NapsOk, Served;
    ghost var naps0, unserved0 := state.naps, state.unserved;
    NothingEnded(state.naps);
    StateNaps(state);
    match event {
      case Start(pid, mask) =>
        if pid !in state.procs {
          state.AddProcess(pid, mask);
        }
      case Time(ns) => state.Tick(ns);
      case Sleep(pid, req, rem) =>
        if pid in state.procs {
          var r := state.Nanosleep(pid, req, rem);
        }
      case Wake(id) =>
        if id in state.workers && state.workers[id].wakeAt <= state.clock {
          state.CompleteSleep(id);
        }
      case Fail(id) =>
        if id in state.workers && state.clock < state.workers[id].wakeAt {
          state.FailWorker(id);
        }
      case Signal(pid, signum) =>
        var queued, woken := state.QueueSignal(pid, signum);
      case Consume(pid) =>
        var taken := state.ConsumeSignal(pid);
      case Mask(pid, mask) =>
        if pid in state.procs && pid !in state.pending && state.procs[pid].saved.None? {
          state.SetMask(pid, mask);
        }
      case Suspend(pid, mask) =>
        if pid in state.procs && pid !in state.pending && state.procs[pid].saved.None? {
          var observed := state.Sigsuspend(pid, mask);
        }
      case Gone(pid) => state.Exit(pid);
    }
    OneUndisturbed(naps0, state.naps, unserved0, event);
  }

  lemma OneUndisturbed(naps: Naps, naps': Naps, unserved: set<nat>, event: Event)
    requires forall id | id in naps && !Disturbs(event, naps[id].pid) && (id in unserved || event != Wake(id)) ::
               id in naps' && naps'[id] == naps[id]
    ensures Undisturbed(naps, naps', unserved, [event])
  {
    forall id | id in naps && (forall i | 0 <= i < 1 ::
                                 !Disturbs([event][i], naps[id].pid) && (id in unserved || [event][i] != Wake(id)))
      ensures id in naps' && naps'[id] == naps[id]
    {
      assert [event][0] == event;
    }
  }

  /** Each pending sleep belongs to its process, and a request without a worker has none. */
  lemma StateNaps(state: AsyncRuntime)
    requires state.Valid()
    ensures forall p | p in state.pending ::
              state.pending[p].id in state.naps && state.naps[state.pending[p].id].pid == p
    ensures forall id | id in state.unserved :: id !in state.workers
  {
    hide Served, SleepersQuiet, AllSignalsOk, NapsOk;
    forall p | p in state.pending
      ensures state.pending[p].id in state.naps && state.naps[state.pending[p].id].pid == p
    {
      OwnNap(state.pending, state.workers, state.naps, state.nextRequestId, state.broken, p);
    }
    forall id | id in state.workers
      ensures id !in state.unserved
    {
      ServedWorker(state.workers, state.naps, state.unserved, id);
    }
  }
}
