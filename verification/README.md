# A verified model of the POSIX personality's process core

The repository is a user-space server that gives programs a POSIX interface on top of a
capability kernel. This project models the parts of it with the most state and proves what they
keep: virtual memory with copy-on-write fork, copying to and from a process through a pool of
scratch windows, deferred replies for `wait4` and `nanosleep`, and the builders of process images
and shared handles.

`dafny verify dfyconfig.toml` checks everything.

## How it is modelled

Code that edits state is modelled by classes whose methods edit the same fields in the same order:
`ApeManager` (memory), `LruPolicy`, `SharedPagePool`, `UserAccessSession`, `ApeTaskState` (wait4),
`AsyncRuntime` (sleeps and signals), `FileSystemState` (descriptors), `TtyCompatState`,
`PipeRegistry`. Loops of the source are loops here. Services the code calls (capability slots, frames,
mapping, file systems, clocks, copying to a caller's buffer) do what they say or fail; each may fail
at any call, by a free choice, but for those named under "Left out".

**Memory.** A `World` holds, per process, the two tables of the source (`maps`, `lazy`) with the
stack window, heap and mmap fields (`MmState`), the hardware page table, and globally the contents
of every frame and the reference counts, where an absent count means one. A frame is a list of
pages, and a translation names a frame slot, a page of it and permissions.

- `SpaceOk`: both tables are page-aligned and disjoint, no frame is in two maps of a process, and
  the stack maps are exactly the pages between the boundary and the bottom of the stack, in a
  window nothing else enters.
- `RefsOk`: the count of every frame is the number of processes whose table holds it plus the
  references in `owed`, a ghost multiset of references in hand or lost on a failure path. So no
  frame is freed while mapped, and with nothing owed every frame is held (`NoFrameLeaks`).
- `Translated`: page tables and frames agree with the tables. `Isolated`: a writable map whose
  frame another process holds is marked copy-on-write, and a page writable in hardware belongs to
  a writable map that is not.
- `StepOk` is what every operation keeps: all of the above, and the other processes' tables,
  translations and frame contents untouched.
- `PageAt` is what a process sees at a page: contents, permissions, kind and file backing,
  whatever tables and frames stand behind it.

**Copy-on-write refines eager copy.** `EagerCopy` is a machine that knows only memories: fork
copies one, a store writes one. `Runs.RunAll` runs any list of loads, stores, faults, `mmap`,
`munmap`, `mprotect`, `mremap`, `brk`, copies to a process, forks, execs and exits and shows that at
every point the memory of each running process is that machine's after the events of the operations
so far, and that every byte a load sees is the byte it would see there. Each operation and its
result are tied to its events (`MayDo`): what `mmap` places is the first range free, or the one
asked for; a copy writes a first part of its bytes, all of them when it succeeds. The counts are
exact at every point until an operation loses references, which only a failed fault or copy (one at
most), a failed fork (one to each frame of the parent at most) and a move to a shorter range (those
to the frames of its tail) can do (`Losses`, `CountsExact`). An operation outside `InScope` is left
out of the run; `InScope` is a check made before the call, and is the condition under which each
operation is proved sound by itself.

**Deferred replies.** Histories are ghost: `ChildWaits.Ledger` says of each recorded child event
whether it still waits or was reaped, and in which order; `DeferredWait` and `Nap` say how each
deferred reply ended. Once ended they never change (`Settled`, `Ended`).

## Where the code does not keep its promise

Each is stated with its exact condition or outcome, the code being modelled as it is.

- A store fault on a copy-on-write map copies one page: right exactly for maps one page long.
- `split_large_mapping_into_base_pages` maps the pieces of a copy-on-write map writable while they
  stay marked: sound exactly when the map was not writable copy-on-write. So a `munmap` or a fixed
  `mmap` that succeeds is sound exactly when no such map crosses an end of its range (`Munmap`,
  `MmapFixed`).
- `mprotect` and the image permission flip ask neither whether a frame is shared nor whether the map
  is marked: sound exactly when write permission goes to no map that is marked or shared
  (`ReflagIsolatedIff`, `ProtectedIsolatedIff`). A map left marked by a fork whose child is gone is
  private, and still the next fork would leave its page writable (`MarkedPrivateNotIsolated`).
- An `mprotect` that fails half way keeps the translations changed so far and records no
  permission: sound exactly when the maps changed were recorded as writable and unmarked already
  (`HaltedIsolatedIff`; `HaltedWitness` is a failing instance).
- `mremap` does not ask whether a frame is shared: a move is sound exactly when no moved page is
  writable and shared (`MoveStep`, `Mremap`).
- `copy_to_user` does not ask either: the others are left alone exactly when no byte of a shared
  frame changes, marked or not (`WroteOthersIff`).
- `remap_existing_page` records the mapped permissions, so a copy-on-write map loses its write
  permission for good (`ResidentFault`).
- An anonymous lazy page whose fault fails is lost (`FaultLazyPage`); an eager `mmap` that runs out
  of capability slots keeps the pages made so far; a file offset that overflows leaves a part of
  the range; a shorter `MREMAP_FIXED` keeps the tail's references; a failed fork keeps those it took.
- A fork that fails leaves a record that never runs: empty, or, when starting the child was what
  failed, full and holding every frame of its parent (`Fork`). It counts as a live child until it
  exits, which nothing makes it do, so its parent's wait is never told that there is none
  (`NeverChildless`).
- A second segment of an executable on a page replaces the entry of the first, whose frame is lost:
  as many frames are taken as there are pages exactly when no two segments share a page (`LoadElf`).
- `setpgid` and `setsid` wake no wait: a deferred wait keeps a live child exactly when it is not for a
  group, another child of its process matches, or the process that moved is its child and matches in
  the new group (`RegroupKeepsChild`; `StrandedByRegroup` is a failing instance). A stranded wait is
  told there is no child only when some child of its process exits (`ChildlessOk`). The resume that
  should follow a missed wake never happens (`RecordExit`).
- `pipe2` checks that its numbers can be handed to the caller after both are entered: a failure with
  both endpoints open rolls back exactly when the two least free numbers exist and are at most the
  greatest signed one (`Pipe2`, `HasSmallPair`); one `dup3` to a great number makes it fail for ever
  after (`NoPairAfterGreatest`).
- An `open` whose next number is taken, as after a `dup3` to the greatest one, drops the handle that
  stood there, and its endpoint leaks exactly when nothing else refers to it (`Open`); while the
  numbers stay small nothing leaks (`DescriptorCalls.RunAll`).
- A `nanosleep` for which no worker can be had is deferred all the same: no completion ever ends it
  (`Served`), only a signal, the exit of the process or a later sleep does (`Sleeps.RunAll`). A second
  sleep of a process takes the place of a pending one, whose caller is never answered (`Nanosleep`).
- The worker of a `nanosleep` does not look at the result of its own sleep: when that fails the caller
  is told at once that its time is over. A completion is early exactly when it comes before the
  deadline (`CompletionEarlyIff`), which takes a worker whose sleep failed, in every run
  (`Sleeps.RunAll`); `EarlyWitness` is a failing instance.
- getdents64 returns an empty buffer, the sign of the end of the directory, also when the first record
  does not fit (`Getdents64`).
- A newline after a return is dropped even on a raw terminal: input is kept whole exactly when no
  such pair occurs (`RawKeepsAllIff`).
- A `nanosleep` interrupted while the clock cannot be read reports the whole deadline as remaining.

## Model

| member | source | states |
|---|---|---|
| AddressSpace.LookupExact | src/ape/mm.rs:72-88 | The predecessor lookup finds a map exactly when one covers the address, and then that one |
| AddressSpace.SpaceGrowStack | src/ape/user.rs:165-199 | A stack page right below the boundary keeps tables disjoint and the stack maps exactly the pages of the window |
| DemandFaults.LazyLookup | src/ape/mm.rs:81-88 | The lazy lookup of an address finds exactly the entry of its page |
| Machine.RefsRetain | src/ape/state.rs:151-156 | Retaining moves the count from absent or n to one more, which is owed: counts stay exact |
| Machine.RefsRelease | src/ape/state.rs:158-171 | Releasing frees the frame exactly when the last reference goes, and counts stay exact |
| Manager.ApeManager.ReleaseFrameSlot | src/ape/mod.rs:337-350 | The count falls by one, or the entry and the frame go |
| CowFault.CowFaultViewIff | src/ape/fault.rs:468-534 | After a copy-on-write fault the process sees what it saw if and only if the map was one page long |
| CowFault.CowFaultStep | src/ape/fault.rs:468-534 | Books balance and others are untouched always; for one-page maps translation, isolation and every page are kept |
| Manager.ApeManager.ResolveCowFault | src/ape/fault.rs:468-534 | The exact world after the fault; a failure at any point changes no page of any process and loses at most one reference, to the new copy |
| Manager.ApeManager.GrowStack | src/ape/fault.rs:623-637 | The stack grows by zeroed pages down to where it stopped, everything else the same, on success to the page asked for; a failure loses at most one reference, to a new frame |
| Manager.ApeManager.FaultHeapPage | src/ape/fault.rs:638-645 | A heap page appears zeroed at its address, or nothing changes |
| Splitting.SplitStep | src/mm/mod.rs:75-203 | Splitting keeps every page's contents, permissions, descriptor and offset, and isolation exactly when the map was not writable copy-on-write |
| Splitting.SplitCowNotIsolated | src/mm/mod.rs:164-199 | The failing family: a split writable copy-on-write map is never isolated afterwards |
| Splitting.PiecesRefs | src/mm/mod.rs:178-199 | The references of any number of fresh frames pass to the table one by one, counts exact |
| SplitCalls.SplitLargeMapping | src/mm/mod.rs:75-203 | With rollback at each failure: every page shows what it showed whatever happens, no reference is lost, no other process is touched |
| SplitCalls.EnsureSplit | src/mm/mod.rs:205-221 | No page changes, and on success no remappable map crosses an end of the range; a writable copy-on-write map that crossed one is left exposed outside the range |
| Ranges.ClearedView | src/mm/mod.rs:644-671 | Removing the entries of a range that nothing straddles clears exactly its anonymous, file-backed and lazy pages |
| MemoryCalls.Munmap | src/mm/mod.rs:627-671 | munmap is exact at page granularity, also where a multi-page map straddles an end; a failed call changes no page; a success keeps isolation exactly when no writable copy-on-write map crossed an end |
| FreeRanges.RangeIsFreeExact | src/mm/mod.rs:223-251 | The overlap checks find a range free exactly when it lies in the mmap area away from heap and stack and no page of it is resident or lazy |
| FreeRanges.FirstFit | src/mm/mod.rs:569-588 | The search ends with the least free candidate, or with none exactly when none ends below the limit |
| MmapCalls.MapAnonymousEager | src/mm/mod.rs:377-431 | All pages zeroed on success; a failure takes every page back, unless no capability slot was left |
| MmapCalls.AddLazyRange | src/mm/mod.rs:593-617 | Lazy file pages carry consecutive offsets; it stops early exactly when an offset overflows |
| MmapCalls.BlockedExact | src/mm/mod.rs:502-508 | The table check of MAP_FIXED finds a blocking map exactly when some page of the range may not be replaced |
| MmapCalls.MmapFixed | src/mm/mod.rs:467-567 | On success every page of the range is fresh and every page outside is what it was, and isolation is kept exactly when no writable copy-on-write map crossed an end; a range forbidden by limit, heap, stack or image fails and changes no page; a failed placement leaves a first part of the cleared range placed |
| MmapCalls.MmapAnywhere | src/mm/mod.rs:569-626 | First fit at or above max(hint or mmap_next, mmap_base); only that range changes, on failure only a first part of it; OutOfMemory and nothing changed when nothing fits; the hint moves on success only |
| MmapCalls.Mmap | src/mm/mod.rs:433-626 | The whole call: argument and descriptor errors change nothing; only the fixed or the first free range changes, and success places all of it |
| FileFault.FindSpan | src/ape/fault.rs:262-283 | The span is the longest run of pages that continue one file mapping, bounded by the request |
| FileFault.SpanStep | src/ape/fault.rs:317-333 | One map over the run shows each page its own file page, permissions, descriptor and offset, and keeps every invariant |
| Faults.FaultFilePage | src/ape/fault.rs:252-446 | A file fault populates a run from the file at each page's own offset, maximal within the request or one page; a failure changes no page |
| Faults.FaultLazyPage | src/ape/fault.rs:667-673 | An anonymous lazy page appears zeroed; on failure exactly that page is lost, and the process does not see what it saw |
| Faults.RemapExistingPage | src/ape/fault.rs:448-466 | The map is mapped again with the permissions, which its entry records; a failure takes away translations only |
| Faults.ResidentFault | src/ape/fault.rs:606-614 | The remap keeps every invariant; the pages keep their view exactly when the map was not writable copy-on-write |
| Reflag.ReflagStep | src/ape/fault.rs:448-466 | Books and translation always survive new permissions, isolation when no write goes to a copy-on-write or shared map |
| Reflag.ReflagExclusiveIff | src/mm/mod.rs:673-730 | Right after the call every writable page is private exactly when no other process holds the frame given write permission |
| Reflag.ReflagIsolatedIff | src/mm/mod.rs:673-730 | Copy-on-write stays sound for what follows exactly when write permission goes to no map that is marked or shared |
| Reflag.MarkedPrivateNotIsolated | src/task/lifecycle.rs:334-385 | The failing family: a marked map that nobody shares any more is private but not sound, since the next fork skips it |
| Reflag.IsolatedIsExclusive | src/task/lifecycle.rs:334-385 | The invariant gives the key fact: a page writable in hardware has a frame held by one process |
| PageFaults.PlanIsSound | src/ape/fault_policy.rs:13-39 | The branch the handler takes meets what that branch needs: alignment, a covering map, a free page, a window with room |
| PageFaults.GrantedIsAllowed | src/ape/fault.rs:215-222 | A plan other than denial grants the access that faulted |
| PageFaults.PageFault | src/ape/fault.rs:538-683 | The fault does what was planned, the eager machine follows, the page is mapped with permissions that let the access through, the invariants are kept, and the counts stay exact unless the fault fails, when at most one reference is lost |
| PageFaults.Kill | src/task/lifecycle.rs:88-158 | The process killed by a fault is gone, no other process sees anything, no reference is lost |
| Lifecycle.Fork | src/task/lifecycle.rs:256-455 | The child shows every page the parent showed, nobody's own pages change, counts stay exact; on failure the references lost are at most one to each frame of the parent and nothing else, and the record left is empty or the parent's |
| Lifecycle.ReleaseMemory | src/task/lifecycle.rs:126-135 | Every map is unmapped and its reference given back, others untouched |
| Lifecycle.Terminate | src/task/lifecycle.rs:88-158 | The others keep their pages; counts and isolation survive the exit |
| Lifecycle.ReplaceImage | src/task/exec.rs:418-457 | exec leaves no page and no translation of the old image, gives every reference back and keeps all invariants |
| Lifecycle.NoFrameLeaks | src/ape/state.rs:151-171 | With no reference lost, every frame is held, its count is the number of its holders, and every held frame exists |
| UserAccess.StoreStep | src/task/lifecycle.rs:334-385 | A store through a writable translation changes that byte of that process and nothing anyone else sees |
| UserAccess.TranslationShows | src/ape/fault.rs:224-250 | A translation leads to the very page the tables show |
| EagerCopy.StepRefines | src/task/lifecycle.rs:256-455 | A step that leaves the others alone and changes one memory as an event says is followed by the eager-copy machine |
| EagerCopy.MovedMemory | src/mm/mod.rs:894-959 | A move of pages is one event of the eager machine: contents and permissions arrive page by page |
| RunSteps.DoProtect | src/mm/mod.rs:673-730 | mprotect in scope keeps every invariant even when it stops half way, and the eager machine changes the permissions of the whole range or of none |
| RunSteps.DoMove | src/mm/mod.rs:732-966 | mremap in scope keeps every invariant, the eager machine clears, waits for or moves exactly its pages, and only a move to a shorter range loses references, those to the frames of its tail |
| RunSteps.ReceivedMemory | src/ape/user.rs:256-286 | After a copy to a process every page is what it was with the bytes put in, permissions and backing the same, and the stack grown by zeroed pages |
| RunSteps.DoCopyOut | src/ape/user.rs:256-286 | A copy that changes no byte of a shared frame keeps every invariant and is one event of the eager machine |
| Runs.ChosenIsVacant | src/mm/mod.rs:569-588 | The range a non-fixed mmap takes holds no page of the process in the eager machine |
| Runs.Step | src/task/lifecycle.rs:326-435 | One operation in scope keeps the invariants; its events are exactly those of the operation and its result, a load sees the eager machine's byte, and references are lost only by a failed fault, copy or fork and a move to a shorter range, so many at most |
| Runs.LoadsAgree | src/task/lifecycle.rs:326-435 | In every run each byte loaded is the eager machine's byte after the events so far |
| Runs.CountsExact | src/ape/state.rs:151-171 | In every run, as long as no operation loses a reference, each frame is held, and its count is the number of its holders |
| Runs.RunAll | src/task/lifecycle.rs:326-435 | Copy-on-write fork refines eager copy over every interleaving, operation by operation, with exact counts at every point until an operation loses a reference |
| ProtectCalls.CollectRanges | src/mm/mod.rs:690-712 | The maps of the range are collected exactly when every page of it is resident |
| ProtectCalls.Mprotect | src/mm/mod.rs:673-730 | On success exactly the pages of the rounded range have the new permissions and keep their contents; otherwise no page changes; translation always survives, and isolation exactly when no write goes to a marked or shared map, or on failure to a map not recorded writable and unmarked |
| ProtectCalls.ProtectedIsolatedIff | src/mm/mod.rs:673-730 | A whole range given new permissions stays isolated exactly when write permission goes to no marked or shared map |
| ProtectCalls.HaltedIsolatedIff | src/mm/mod.rs:704-729 | A change that stops half way keeps books and translation, and isolation exactly when the maps done were recorded writable and unmarked |
| ProtectCalls.HaltedWitness | src/mm/mod.rs:704-729 | Concrete: two private read-only pages, the second not mapped: the first is writable in hardware and recorded read-only |
| ProtectCalls.MayProtectSplit | src/mm/mod.rs:161-199 | Splitting the ends of a range keeps marks and permissions and shares no frame that was not shared |
| ProtectCalls.Brk | src/mm/mod.rs:358-375 | The break moves exactly when the address is within the heap's bounds; no page changes |
| RemapCalls.CollectStates | src/mm/mod.rs:311-338 | The pages are collected exactly when each is a one-page anonymous map or an anonymous lazy page |
| RemapCalls.FindTarget | src/mm/mod.rs:340-356 | The given aligned address, or the first fit from mmap_next |
| Moves.MoveShows | src/mm/mod.rs:894-959 | Target page i shows old page i, further pages wait as lazy anonymous ones, the old range is gone, all else the same |
| MoveSteps.MoveStep | src/mm/mod.rs:872-965 | The move keeps books, translation and view; isolation exactly when no moved page is writable and shared |
| RemapCalls.MapDestinations | src/mm/mod.rs:872-892 | All destinations mapped, or none of those mapped so far left |
| RemapCalls.MoveRange | src/mm/mod.rs:864-966 | The whole move, with its failure path leaving every page as it was; the frames of a cut tail stay counted as lost |
| RemapCalls.RemapInPlace | src/mm/mod.rs:766-805 | Shrinking is an exact munmap of the tail, growing adds lazy pages exactly when the tail is free |
| RemapCalls.Mremap | src/mm/mod.rs:732-966 | The whole call: refused arguments change nothing; in place exactly when the length allows, else at the given address or the first fit from mmap_next; translation always survives, isolation in place, and after a move exactly when no moved page is writable and shared; a failure changes no page |
| Lru.LastUseInjective | src/ape/policy/lru.rs:16-23 | Two slots were never last used at the same time: recency is a strict order |
| Lru.LruPolicy.Touch | src/ape/policy/lru.rs:16-31 | The order stays duplicate-free and sorted by last use, with the slot at its end |
| Lru.LruPolicy.Remove | src/ape/policy/lru.rs:33-37 | The slot leaves the order, the others keep theirs |
| Lru.LruPolicy.Victim | src/ape/policy/lru.rs:39-48 | The victim is the least recently used occupied slot; none exactly when nothing is occupied |
| ScratchPool.SharedPagePool.Acquire | src/ape/user.rs:83-120 | A window onto the whole frame with at least the permissions asked; at most one entry changes, and only the least recently used is evicted, with the pool full |
| ScratchPool.SharedPagePool.PickSlot | src/ape/user.rs:66-73 | A free slot while there is one, else the least recently used |
| ScratchPool.SharedPagePool.ReleaseAll | src/ape/user.rs:122-129 | The scratch windows are those that were there before the pool |
| ScratchPool.CoversDrop | src/ape/user.rs:75-81 | Unmapping an entry leaves exactly the windows of the others |
| UserBytes.WrittenByte | src/ape/user.rs:277-280 | Writing through the frame of a map changes exactly the addressed bytes of the process |
| UserBytes.WrittenStep | src/ape/user.rs:256-286 | Such a write keeps all invariants, and other processes when none holds the frame |
| UserBytes.WriteSeenBySharer | src/ape/user.rs:256-286 | A process that shares the frame sees the bytes: copy-on-write is not consulted |
| CopySteps.WroteOthersIff | src/ape/user.rs:256-286 | A copy keeps the other processes, and with them every invariant, exactly when it changes no byte of a shared frame |
| CopySteps.PrivateRangeKeeps | src/ape/user.rs:256-286 | Writable maps that are not marked never share a byte that changes |
| UserCopy.UserAccessSession.TryGrow | src/ape/user.rs:147-200 | Only zeroed stack pages appear, and on success the address is resident |
| UserCopy.UserAccessSession.LookupMap | src/ape/user.rs:202-223 | A map that covers the address and allows the access, or there was none |
| UserCopy.UserAccessSession.CopyFromUser | src/ape/user.rs:225-254 | The buffer gets exactly the process's bytes over any layout of maps and any evictions; a missing byte is reported only where it is missing; a success loses no reference, a failure at most one, to a new stack frame |
| UserCopy.UserAccessSession.CopyToUser | src/ape/user.rs:256-286 | Exactly the bytes copied change in the process's view; all invariants and the other processes are kept exactly when no byte of a shared frame changes; a success loses no reference, a failure at most one, to a new stack frame |
| UserCopy.UserAccessSession.StrncpyFromUser | src/ape/user.rs:288-335 | The bytes before the first NUL; MessageTooLong exactly when there is none within the limit; references are lost as in a copy |
| CopySteps.GrewKeepsBytes | src/ape/user.rs:147-200 | Bytes read before the stack grew are still the process's bytes after |
| CopySteps.WriteThenRead | src/ape/user.rs:225-286 | What was written is what a later read returns |
| UserCopy.CopyFrom | src/ape/user.rs:384-407 | A whole session: the copy with its bound on lost references, and no scratch window left |
| UserCopy.CopyTo | src/ape/user.rs:384-411 | A whole session: the copy with its bound on lost references, all bytes copied exactly when it succeeds, no scratch window left, and the others kept exactly when no byte of a shared frame changes |
| ChildWaits.FirstWanted | src/ape/state.rs:416-436 | The position popped is the oldest event of an enabled kind that matches the target |
| ChildWaits.NotedOk | src/ape/state.rs:262-277 | Recording appends: the queue stays the unreaped events in order |
| ChildWaits.TakenOk | src/ape/state.rs:437-446 | Popping anywhere in the queue keeps recorded = reaped + queued, in order, nothing reaped twice |
| ChildWaits.NoDoubleReap | src/ape/state.rs:416-446 | Two reaped exits of one child are the same one |
| ChildWaits.HopefulAfterExit | src/task/lifecycle.rs:137-192 | An exit can cost only its parent's wait its child, and then the exit itself answers it |
| ChildWaits.SettleOk | src/ape/mod.rs:431-444 | Taking a deferred wait out settles that one wait, each with its own reply slot |
| ChildWaits.RegroupKeepsChild | src/task/job.rs:45-83 | A wait with a live child keeps one through a change of group exactly when it is not for a group, another child matches, or the mover is a child that matches in its new group |
| ChildWaits.HopefulRegrouped | src/task/job.rs:45-83 | Every pending wait has a live child but those stranded so far and those this change strands |
| ChildWaits.StrandedByRegroup | src/task/job.rs:45-83 | Concrete: setpgid leaves a pending group wait without a live child |
| WaitCalls.ApeTaskState.PopChildEvent | src/ape/state.rs:416-446 | Takes out exactly the oldest wanted event |
| WaitCalls.ApeTaskState.TryWakePendingWait | src/task/lifecycle.rs:31-82 | The deferred wait is answered with the oldest wanted event, or told there is no child, exactly when there is such an event or no live child; otherwise nothing changes |
| WaitCalls.ApeTaskState.RecordExit | src/task/lifecycle.rs:165-192 | A matching pending wait is answered at once; the fallback resume never happens; SIGCHLD exactly when no wait was answered |
| WaitCalls.ApeTaskState.Terminate | src/task/lifecycle.rs:88-192 | The exit is recorded once, the process's own wait is dropped, its parent told, whose wait goes on exactly when it wants nothing queued and has a live child left; no other wait touched |
| WaitCalls.ApeTaskState.Regroup | src/task/job.rs:23-83 | No wait is woken, and those stranded by it are exactly the ones that lose their last live child |
| WaitCalls.ApeTaskState.Wait4 | src/task/lifecycle.rs:488-522 | Which of the five answers a wait gets, and exactly when; a deferred one is not pending together with an exit it wants |
| WaitCalls.NeverChildless | src/task/lifecycle.rs:256-455 | A record that never exits, as a failed fork leaves, keeps its parent's wait from being told that there is no child, in every run |
| WaitCalls.RunAll | src/task/lifecycle.rs:31-192 | Over every run no exit is lost or reaped twice, settled waits stay settled, a wait is told there is no child only if a change of group stranded it, and a record stays until its own exit |
| Sleeps.SleepsLongEnough | src/ape/async_runtime.rs:98-117 | Rounding to milliseconds never makes a sleep shorter than asked |
| Sleeps.TimespecRoundTrip | src/system/time.rs:35-71 | Time to nanoseconds and back, both ways |
| Sleeps.OwnCompletion | src/ape/async_runtime.rs:176-192 | A completion meets a pending sleep with its request id exactly when its own sleep has not ended |
| Sleeps.EndNap | src/ape/async_runtime.rs:124-161 | Taking a sleep out ends that one |
| Sleeps.CompletionEarlyIff | src/ape/async_runtime.rs:113-120 | A completion ends its sleep early exactly when the sleep is not due yet, and then its worker's sleep call failed |
| Sleeps.EarlyWitness | src/ape/async_runtime.rs:113-120 | Concrete: a sleep of ten seconds whose worker's sleep call fails is over at once |
| Sleeps.AsyncRuntime.Nanosleep | src/system/time.rs:205-229 | Zero, interrupted, refused or deferred, and exactly when; a deferred one starts with no signal to deliver, replaces a pending sleep of the process, and may have no worker |
| Sleeps.AsyncRuntime.CompleteSleep | src/ape/async_runtime.rs:176-192 | However late, a completion ends its own sleep when that has not ended, never a later one; before it is due exactly when the clock stands before the deadline, and then only from a worker whose sleep failed |
| Sleeps.AsyncRuntime.InterruptSleep | src/ape/async_runtime.rs:163-174 | The sleep ends once, with the time that was left, or all of the deadline when the clock fails |
| Sleeps.AsyncRuntime.QueueSignal | src/system/signal.rs:216-257 | A signal ends a sleep and wakes from sigsuspend exactly when there is one to deliver; the own mask is as before |
| Sleeps.AsyncRuntime.PopSignal | src/ape/signal.rs:129-143 | The lowest pending signal of the mask is taken, none exactly when there is none |
| Sleeps.AsyncRuntime.Sigsuspend | src/system/signal.rs:494-538 | A deliverable signal is taken at once, otherwise the caller is held with its mask saved; its own mask never changes |
| Sleeps.Step | src/ape/async_runtime.rs:92-211 | A completion that has come always ends its sleep, early exactly when it is not due; otherwise only an event of its process does, and a sleep without a worker has no completion |
| Sleeps.RunAll | src/ape/async_runtime.rs:92-211 | Over every interleaving an ended sleep stays as it ended, none ends before its deadline by a completion unless its worker's sleep failed, no sleeping process has a signal to deliver, and a sleep without a worker goes on until an event of its process ends it |
| InitialStack.WordFits | src/task/exec.rs:213-217 | A word written least significant byte first reads back |
| Encodings.WordRoundTrip | src/task/exec.rs:213-217 | The same for words of any number of bytes |
| Encodings.ReadsPlaced | src/task/exec.rs:165-175 | A string placed with its NUL reads back up to its own first NUL, whole exactly when it holds none |
| InitialStack.ReadsAllPlaced | src/task/exec.rs:161-192 | Any number of strings read back through their pointers, in order |
| InitialStack.ParsesBack | src/task/exec.rs:194-217 | A page with strings and words parses to argc, argv, NULL, envp, NULL, auxv and AT_NULL |
| InitialStack.PushStrings | src/task/exec.rs:161-176 | Strings are placed downward with their pointers, or do not fit exactly when their bytes exceed the room |
| InitialStack.SetupInitialStack | src/task/exec.rs:124-235 | The pointer is 16-byte aligned and the page parses back from it to the arguments, environment and auxiliary vector; it fails exactly when they do not fit |
| ElfImage.FillPage | src/task/exec.rs:362-382 | Each byte of a page is the file's where the segment has file bytes, zero elsewhere |
| ElfImage.SegmentLoaded | src/task/exec.rs:300-385 | With segments on pages of their own, byte k of each is file byte offset + k below filesz and zero up to memsz, with its permissions |
| ElfImage.LoadElf | src/task/exec.rs:287-394 | Page-by-page loading gives the one-shot image, the last segment winning on a shared page; load_end is the greatest segment end; every frame taken backs a page of its own exactly when no two segments share a page |
| Descriptors.ReferencedDrop | src/fs/fd.rs:167-200 | Closing a descriptor can end the references to its own slot only |
| Descriptors.ReferencedFork | src/task/lifecycle.rs:387-393 | Copying the tables to a child refers to no new slot |
| Descriptors.ReferencedEnter | src/fs/fd.rs:129-152 | Entering a handle can end the references to no slot but the one that stood under its number |
| Descriptors.NoPairAfterGreatest | src/fs/fd.rs:437-550 | With the next number past the greatest signed one no pair can be handed to the caller |
| DescriptorCalls.FileSystemState.StillShared | src/fs/fd.rs:181-199 | The scan finds the slot exactly when some descriptor of some process refers to it |
| DescriptorCalls.FileSystemState.Close | src/fs/fd.rs:154-221 | The endpoint is closed with the last descriptor that refers to it, never before; only that descriptor goes |
| DescriptorCalls.FileSystemState.Open | src/fs/fd.rs:129-152 | A new endpoint under the next descriptor; a handle that stood there is dropped, and its endpoint leaks when nothing else refers to it |
| DescriptorCalls.FileSystemState.DupFd | src/fs/fd.rs:267-311 | The least free descriptor from the bound on; it fails exactly when there is none or the arguments are bad |
| DescriptorCalls.FileSystemState.Dup3 | src/fs/fd.rs:317-370 | The target stands for what the source stands for, every other descriptor unchanged; it fails exactly on bad numbers, equal numbers or unknown flags |
| DescriptorCalls.FileSystemState.Pipe2 | src/fs/fd.rs:437-550 | Both ends; with both endpoints open a failure leaves endpoints and descriptors as they were exactly when the two least free numbers exist and fit a signed word |
| DescriptorCalls.FileSystemState.CloseOnExec | src/task/exec.rs:40-56 | Exactly the descriptors marked close-on-exec are closed |
| DescriptorCalls.FileSystemState.Exit | src/task/lifecycle.rs:122-124 | Every descriptor of the process is closed, and endpoints nobody else uses with them |
| DescriptorCalls.RunAll | src/fs/fd.rs:129-550 | Over every run an endpoint is open exactly while some descriptor refers to it, or it leaked; while the numbers stay small none leaks |
| Dirents.RecordDecodes | src/fs/fd.rs:403-429 | A packed record decodes to its inode, offset, type and name, whatever follows it |
| Dirents.DecodesBack | src/fs/fd.rs:403-429 | Any list of packed records decodes to the entries |
| Dirents.PackDirents | src/fs/fd.rs:372-435 | The buffer decodes to exactly the longest prefix of entries that fits in count, in records of a multiple of 8 |
| Dirents.Getdents64 | src/fs/fd.rs:372-435 | The argument checks; the buffer is empty exactly for an empty listing or a first record that does not fit |
| LineDiscipline.FeedConcat | src/ape/tty/ldisc.rs:66-134 | Feeding a then b is feeding a followed by b, echoes concatenated |
| LineDiscipline.CrLfIsNewline | src/ape/tty/ldisc.rs:78-89 | With return translated to newline, the pair is one newline |
| LineDiscipline.RuboutsErase | src/ape/tty/ldisc.rs:48-58 | n rubouts blank the last n cells of the line on the screen |
| LineDiscipline.EchoShowsLine | src/ape/tty/ldisc.rs:48-134 | Replaying the echo always shows what was sent of the line followed by what is being edited |
| LineDiscipline.RawKeepsAllIff | src/ape/tty/ldisc.rs:78-89 | A raw terminal keeps every byte if and only if no newline follows a return |
| LineDiscipline.TtyCompatState.FeedInput | src/ape/tty/ldisc.rs:66-134 | The loop computes the function the lemmas are about, state and echo |
| LineDiscipline.TtyCompatState.TakeReadable | src/ape/tty/ldisc.rs:136-165 | Bytes leave in order, none lost or repeated, as many as asked and there are |
| Pipes.PipeRegistry.Write | src/vfs/pipe.rs:145-157 | What is accepted is a prefix bounded by the free room, nothing without a reader; other pipes untouched |
| Pipes.PipeRegistry.Read | src/vfs/pipe.rs:131-143 | Bytes delivered are the oldest; accepted = delivered + buffered; end of file exactly without writers |
| Pipes.PipeRegistry.CloseEnd | src/vfs/pipe.rs:159-179 | Both counts never fall below none, and the pipe goes exactly when neither end is open any more |
| Pipes.HandlesAreOpensLessCloses | src/vfs/pipe.rs:101-179 | While no end is closed more often than opened, the readers and writers of a pipe are the opens less the closes of the run |
| Pipes.RunAll | src/vfs/pipe.rs:101-189 | Over any interleaving on any number of pipes the bytes read are, in order, a first part of the bytes accepted, and the rest is what the pipe holds; the counts follow the opens and closes of the run |

## Left out

- Services: capability slots, page-table creation, file systems, the clock and replies are an
  environment that succeeds or fails; unmapping a process page or a scratch window, freeing a frame
  or a slot, closing an endpoint and notifying always succeed.
- FileFault.Files: the contents of files are one function of descriptor number and offset for
  all processes of a run; two processes that use one number for different files, and a number closed
  and opened again, are not covered.
- MemoryCalls.Munmap: an entry leaves the table together with its translation and reference, where
  the source first removes all entries and then unmaps them; the same holds of exit. Rounding a
  length up is done on unbounded numbers, without the wrap-around at the top of the address space.
- Manager: the fields of all processes are one value that the methods reassign, so sharing between
  table objects is not modelled.
- Lifecycle.Fork: sessions, terminals, working directories, identities and signal actions of the
  child are not modelled; descriptors are copied in DescriptorCalls.
- ElfImage.LoadElf: headers are given as parsed, and segment ends as machine words that do not
  wrap; the pages are not entered into a World.
- InitialStack.SetupInitialStack: the page is an array; mapping it and the thread-local area are
  not modelled. Words are written least significant byte first.
- UserCopy.UserAccessSession.StrncpyFromUser: returns bytes; whether they are UTF-8 is not modelled,
  nor are the argument arrays of exec.
- WaitCalls.ApeTaskState.RegisterProcess: process numbers do not reach the limit of a word.
- WaitCalls.ApeTaskState.Regroup: the permission checks of setpgid are not modelled.
- Sleeps.AsyncRuntime.Nanosleep: request numbers do not reach the limit of a word; a process that
  sleeps changes no mask and does not suspend; signals are sets of numbers instead of bit masks.
- DescriptorCalls.FileSystemState.Open: the next number wraps at the limit of its word, as it does
  in a build without overflow checks.
- Pipes.PipeRegistry.CreatePipe: pipe numbers and handle counts do not reach the limit of a word.
- Runs.RunAll: a remap changes permissions in the eager machine too, so the refinement does not see
  that a marked map loses its write permission; ResidentFault does. Reads by the server
  (copy_from_user, strncpy_from_user) are not operations of a run.
- WaitCalls.RunAll, Sleeps.RunAll and DescriptorCalls.RunAll state what every run keeps; what each
  call does is in the contract of the call.
- Frame ledgers per process, intermediate page tables, io_uring regions, stop signals' effect on
  threads, terminal windows, path resolution and message dispatch are not part of this model.
