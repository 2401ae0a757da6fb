# Nexo OS in Dafny

A model of the parts of the Nexo OS kernel whose correctness spans many functions and whole runs,
and proofs of what those parts promise. `dafny verify dfyconfig.toml` verifies all of it.

## What is modelled

**Scheduler.** `Sched` is the preemptive SMP scheduler as a transition system over any number of
CPUs: each region under the scheduler lock is one step, and a context switch is three (leaving,
landing on the other stack, finishing), because the lock is carried across it. `Scheduler` is the same
scheduler as an object updated in place, each operation proved equal to its step. `Placement` proves
that every thread is exactly where its state says in every reachable state, `Lifecycle` which state
changes happen, `Dispatch` and `Fairness` who gets the CPU and how soon, `Throttling` what happens to
throttled processes, `Machine` what a switch does to CPU time and to the loaded address space.

**Blocking protocol.** `Blocking` interleaves channel `recv`, interrupt `wait`, process `wait` and `join`
with senders, closers, interrupts and exits, one micro-step per lock operation, on top of every
scheduler step.

**Page tables and address spaces.** `Paging` is the tree of tables in physical memory and the flat map it
stands for, `PageMapper` the mapper's operations, `AddressSpaces` the spaces of processes and the frames
they own, `KernelHalf` the kernel's own map calls and who sees them, `SpaceRuns` any interleaving of
creations, calls and drops of several spaces with calls of the kernel.

**Channels, collector, quota.** `Channels` and `Collector` are IPC ends, their queues and the
mark-and-sweep over handles in queued messages; `Quota` is the CPU budget of jobs, `Enforcement` how
ticks enforce it on several CPUs, and `JobRuns` the same job in the whole machine: every run of the
scheduler and its accounting is a timeline of `Enforcement`.

**Boot.** `Crc`, `BootSlots` and `Loader` are the A/B slot state, its checksum, and the choice of system over
any sequence of boots.

**Algorithms.** `Calendar`, `Grep`, `Timers` and `StackSlots`.

A machine step is a value-level function; runs are sequences of states related by steps, and nothing
about runs assumes the invariants that are proved of them. Objects that the kernel updates in place
are classes whose methods are proved equal to those functions.

## Where the code and its comments part

The model follows the code. These promises turn out not to hold as stated, and each has the exact
condition under which it does:

- `pick_next` says low-priority threads run only when no normal one is ready for the CPU. A normal thread
  whose quantum ends, or that yields, while only low threads are queued is relieved by a low one and then
  waits, ready (`Dispatch.TickGuarantees`, `Dispatch.YieldGuarantees`, `Dispatch.LowOverNormalIsReachable`).
  A thread that yields with nothing else queued leaves its CPU idle although it is ready itself
  (`Dispatch.YieldGuarantees`).
- A slot whose `successful` byte is neither 0 nor 1 and that has attempts left is eligible, but its attempts
  are never consumed, so it is booted without limit (`Loader.BoundedIff`, `Loader.OddSlotUnbounded`).
- A job whose members leave can consume more than one budget a window, because a member's time leaves with
  it (`Quota.BudgetBoundIff`, `Quota.StepMargin`, `Quota.BoundIffLeaversIdle`, `Quota.TurnoverBreaksBound`).
- `estourou` is there so that the throttle acts within about a tick: a job gets no more than one budget a window
  and one tick gap on each CPU. A tick adds only its own CPU's running slice to what the job was credited, and
  checks only a thread that is running at a boundary. So for every job whose budget leaves room in a window the
  promise holds exactly when the job has one CPU and its threads leave only at checks
  (`Enforcement.EnforcedIff`, `Enforcement.ManyCpusOverrun`, `Enforcement.EarlyLeaverOverrun`). A budget of all
  the time in a window is never exceeded (`Enforcement.WholeCapacityEnforced`), and in general the excess is
  bounded by a constant however many windows pass (`Enforcement.QuotaEnforced`, `JobRuns.MachineEnforcesQuota`).
- A page the kernel maps is mapped in every address space exactly when the PML4 entry above it was present
  before; otherwise only the root it was mapped through has it (`KernelHalf.SeenIff`).
- A throttled job that stops running is released one close later than `spent / limit` when counted from the
  moment it is marked (`Quota.ReleasedAfter`, `Quota.ReleasedAfterCharge`).
- A failing `map_range_4k` leaves the pages before the failure mapped (`PageMapper.Mapper.MapRange4k`).
- The calendar is said not to panic for any input. `civil_from_days` overflows on the last 719468 day numbers
  (`Calendar.CivilFitsIff`), `days_from_civil` on the dates outside two fixed ones (`Calendar.DaysFitIff`), and
  `weekday_from_days` on the last three day numbers (`Calendar.WeekdayFitsIff`).
- A failed stack allocation gives back the slot and the pages, but a page table made for it stays
  (`StackSlots.Stacks.Alloc`).

The counter of recycled PML4 frames, which `docs/incidents/2026-09-09-fs-ponteiro-nulo.md` reports as
measured at zero, is proved to stay zero (`Machine.RunnersSpaceLoaded`).

## Model

| member | source | states |
|---|---|---|
| Sched.PickNext | kernel/src/sched.rs:922-926 | the choice is absent exactly when no queued thread is allowed on the CPU; it is low only if no allowed normal thread is queued, and no allowed normal thread is ahead of it |
| Sched.FirstFrom | kernel/src/sched.rs:922-932 | the first position a pass accepts, with everything before it rejected |
| Sched.WakeDueFrame | kernel/src/sched.rs:852-866 | the sleeper scan changes nothing but the states of sleepers, the sleepers and the run queue |
| Scheduler.Scheduler.FindFirst | kernel/src/sched.rs:922-932 | one search of the run queue finds exactly the first acceptable thread |
| Scheduler.Scheduler.PickNext | kernel/src/sched.rs:922-926 | the two passes in place give the specified choice |
| Scheduler.Scheduler.ScheduleLocked | kernel/src/sched.rs:490-585 | the in-place decision is `Leave` on the queues, and CPU time and loaded address space follow the hand-over exactly |
| Scheduler.Scheduler.Credit | kernel/src/sched.rs:510-525 | the switch credits the outgoing thread's process with the time since it took the CPU |
| Scheduler.Scheduler.LoadSpace | kernel/src/sched.rs:536-563 | CR3 is reloaded on a change of space identity, whatever the root frame |
| Scheduler.Scheduler.FinishSwitch | kernel/src/sched.rs:588-622 | burying the outgoing thread and waking its blocked waiters, in order, is `Finish` |
| Scheduler.Scheduler.WakeSleepers | kernel/src/sched.rs:852-866 | the scan with removal in place is `WakeDue` |
| Scheduler.Scheduler.MustLeave | kernel/src/sched.rs:867-916 | the three reasons to preempt, decided by searches of the queue |
| Scheduler.Scheduler.OnTick | kernel/src/sched.rs:836-917 | a whole tick: wake, charge, throttle, preempt; with its accounting and address space |
| Scheduler.Scheduler.OnReschedIpi | kernel/src/sched.rs:935-954 | the IPI handler is `Ipi` |
| Scheduler.Scheduler.Unpark | kernel/src/sched.rs:772-787 | only a registered, blocked thread is made ready |
| Scheduler.Scheduler.SleepNs | kernel/src/sched.rs:642-662 | an idle thread does not sleep; any other leaves as sleeping with its deadline |
| Scheduler.Scheduler.JoinOnce | kernel/src/sched.rs:709-738 | one round of join: found and done as the source reports, the caller registered once and blocked |
| Scheduler.Scheduler.Reap | kernel/src/sched.rs:816-833 | dead threads leave the registry; the caller gets exactly them to free |
| Placement.StepPlaced | kernel/src/sched.rs:490-622 | every step of the scheduler keeps every thread exactly where its state says |
| Placement.RunsArePlaced | kernel/src/sched.rs:436-998 | the placement holds in every state of every run |
| Placement.BootPlaced | kernel/src/sched.rs:325-361 | the state after `init` is placed |
| Placement.BootRunsArePlaced | kernel/src/sched.rs:325-361 | every state reachable from boot is placed |
| Placement.OnePlace | kernel/src/sched.rs:490-622 | a live thread that is not idle occurs once in the one queue, or on the one CPU, of its state and nowhere else |
| Placement.StacksExclusive | kernel/src/sched.rs:588-622 | no two CPUs ever run the same thread or execute on the same stack, and that stack is not freed |
| Placement.FreedAfterTakeover | kernel/src/sched.rs:816-833 | a stack is freed only when its thread is dead and another has taken over its CPU |
| Lifecycle.StepStates | kernel/src/sched.rs:490-787 | every step keeps every thread on the legal life line; it blocks and wakes only where stated |
| Lifecycle.NeverRescheduled | kernel/src/sched.rs:701-706 | a thread that called exit is never dispatched again, in any run |
| Lifecycle.JoinRegisters | kernel/src/sched.rs:709-738 | a join that waits leaves its caller registered with a target still alive |
| Dispatch.WakeDueQueues | kernel/src/sched.rs:852-866 | the scan moves exactly the due sleepers to the run queue, in order |
| Dispatch.LeaveWithWork | kernel/src/sched.rs:495-498 | with allowed work queued a queued thread takes the CPU, low only if no normal one is allowed |
| Dispatch.TickGuarantees | kernel/src/sched.rs:836-917 | after a tick the CPU idles only if no queued thread is allowed; a low thread runs over a ready normal one exactly when a normal thread's quantum ended with only low threads queued |
| Dispatch.YieldGuarantees | kernel/src/sched.rs:624-633 | after a yield the CPU idles with a thread ready for it exactly when nothing was queued and the yielding thread may run there; a low thread runs over a ready normal one exactly when a normal thread yielded to low ones |
| Dispatch.LowOverNormalIsReachable | kernel/src/sched.rs:919-926 | there is a run of scheduler steps from boot that ends with a low thread on the CPU while a normal one is ready, against the comment on `pick_next` |
| Fairness.LeaveAhead | kernel/src/sched.rs:490-531 | a dispatch that leaves a normal thread queued never moves it back, and on its CPU moves it forward |
| Fairness.StepWait | kernel/src/sched.rs:436-954 | no step makes a waiting normal thread wait longer, except that a change of attributes or quota costs eleven ticks for each thread ahead that it admits; each boundary tick on its CPU shortens the wait |
| Fairness.BoundedWaiting | kernel/src/sched.rs:836-917 | in every run a waiting normal thread sees at most eleven boundary ticks for each normal thread ahead, at the start or admitted later by a change of attributes or quota, plus the current quantum |
| Fairness.FixedRules | kernel/src/sched.rs:836-917 | with no change of attributes or quota nothing is admitted later |
| Throttling.StepOrderly | kernel/src/sched.rs:836-963 | in every step: throttles change only at ticks and window closes; a thread that is given a CPU is of no throttled process; a tick takes the CPU from a thread of a throttled process, and only on the CPU that ticks |
| Machine.EveryStepHandsOver | kernel/src/sched.rs:490-585 | every step, those that create or end threads and bring up CPUs included, changes the thread of at most one CPU, the one that starts a switch, and no thread's process |
| Machine.WorldRunsInv | kernel/src/sched.rs:500-563 | accounting and address-space invariants hold in every state of every run |
| Machine.RunnersSpaceLoaded | kernel/src/sched.rs:536-563 | in every run each CPU has loaded the space of the thread it runs, caches no other space's translations, and the recycled-root counter stays zero |
| Machine.BootRunnersSpaceLoaded | kernel/src/sched.rs:325-361 | the same for every run from boot |
| Machine.DroppedSpaceIsOffCpus | kernel/src/process.rs:186-202 | when a space is dropped no CPU has its root in CR3 or its translations cached |
| Machine.CreditConserved | kernel/src/sched.rs:500-535 | each process is credited exactly its threads' completed stays, and all credit together is at most CPUs times elapsed time |
| Machine.BootCreditConserved | kernel/src/sched.rs:500-535 | the same for every run from boot |
| Blocking.NetRunsInv | kernel/src/sched.rs:755-787 | what every thread inside a blocking call relies on holds in every interleaving |
| Blocking.NoLostWakeup | kernel/src/ipc.rs:541-664 | in every interleaving of recv, interrupt wait and process wait with their wakers, a thread blocked although its condition holds has an unpark on its way |
| Blocking.BootNoLostWakeup | kernel/src/ipc.rs:541-664 | no lost wakeup in any run from boot |
| Blocking.QuietMeansAwake | kernel/src/irq.rs:44-117 | once notifiers and unparks are done, no thread sleeps through its condition |
| Blocking.JoinersAreWoken | kernel/src/sched.rs:709-750 | a thread blocked in join is registered with a thread that has not finished |
| Blocking.BootNetInv | kernel/src/process.rs:708-773 | with nobody in a blocking call the protocol invariant holds |
| Paging.PathIsPage | kernel/lib/mm/src/addr.rs:141-144 | two canonical addresses have the same table indices exactly when they are on the same page |
| Paging.PathIsBigPage | kernel/lib/mm/src/addr.rs:141-144 | the first three indices agree exactly on the same 2 MiB page |
| Paging.LeafElsewhere | arch/x86_64/src/paging.rs:434-461 | a lookup that does not pass through the entry written is unaffected |
| Paging.LeafThrough | arch/x86_64/src/paging.rs:317-332 | a lookup along the position of a table gets to that table |
| Paging.OnePosition | arch/x86_64/src/paging.rs:281-314 | no two tables of a tree are reached by the same indices |
| Paging.LeafRemaps | arch/x86_64/src/paging.rs:335-356 | writing a leaf entry remaps exactly the pages below it |
| Paging.HangSameMap | arch/x86_64/src/paging.rs:295-310 | a fresh empty table changes no translation |
| PageMapper.Mapper.WalkCreate | arch/x86_64/src/paging.rs:281-314 | reaches the table of the level, creating missing ones without remapping any page; fails with a big page in the way exactly when there is one |
| PageMapper.Mapper.Walk | arch/x86_64/src/paging.rs:317-332 | reaches the page table, or tells a missing table from a big page |
| PageMapper.Mapper.Map4k | arch/x86_64/src/paging.rs:335-356 | success maps exactly that page; failure remaps nothing; which error, exactly, in terms of what was mapped |
| PageMapper.Mapper.Map2m | arch/x86_64/src/paging.rs:359-380 | success maps exactly the 512 pages below; failure remaps nothing; an unmapped address is refused as mapped exactly when a page table hangs from its directory entry |
| PageMapper.Mapper.MapRange4k | arch/x86_64/src/paging.rs:383-397 | success maps every page of the range in order; a failure leaves exactly the pages before it mapped, all of them different and unmapped before, and says why it stopped; nothing is remapped exactly when no page was done |
| PageMapper.Mapper.Unmap4k | arch/x86_64/src/paging.rs:400-412 | removes exactly that page and returns the frame it mapped; otherwise changes nothing |
| PageMapper.Mapper.UpdateFlags4k | arch/x86_64/src/paging.rs:415-431 | replaces the flags of exactly that page and keeps its frame |
| PageMapper.Mapper.Translate | arch/x86_64/src/paging.rs:434-461 | the descent computes the translation the flat map gives |
| PageMapper.PageTranslates | arch/x86_64/src/paging.rs:335-356 | after a map the page translates to the given address with the given flags, and every other page as before |
| PageMapper.BigTranslates | arch/x86_64/src/paging.rs:359-380 | the same for a 2 MiB page, offset and flags included |
| PageMapper.PageMapsAddresses | arch/x86_64/src/paging.rs:335-461 | in addresses: exactly the 4096 addresses of the page change their translation |
| PageMapper.BigMapsAddresses | arch/x86_64/src/paging.rs:359-461 | in addresses: exactly the 2 MiB of the page change their translation |
| PageMapper.UnmapUndoesMap | arch/x86_64/src/paging.rs:335-412 | unmapping a page just mapped restores the whole map |
| AddressSpaces.NewSpace | kernel/src/process.rs:69-81 | a new space has the kernel's upper half and an empty lower half; it owns one frame |
| AddressSpaces.AddressSpace.MapUserPage | kernel/src/process.rs:99-112 | maps a frame of its own at a user address, or remaps nothing; kernel half and foreign tables untouched |
| AddressSpaces.AddressSpace.MapUserMmio | kernel/src/process.rs:115-123 | maps a device page it does not own, under the same guarantees |
| AddressSpaces.AddressSpace.MapUserShared | kernel/src/process.rs:126-133 | maps a shared page it does not own, under the same guarantees |
| AddressSpaces.AddressSpace.UnmapUserShared | kernel/src/process.rs:139-162 | unmaps exactly the pages of the range, skipping those that are not mapped; which error stops it and at which page; in the user half kernel pages and foreign tables stay |
| AddressSpaces.AddressSpace.RunOps | kernel/src/process.rs:99-133 | any sequence of user map operations, failed or not, leaves every kernel-half translation and every foreign table unchanged |
| AddressSpaces.AddressSpace.Drop | kernel/src/process.rs:186-202 | frees exactly the recorded frames and the root, each while it is not free |
| AddressSpaces.Lifetime | kernel/src/process.rs:54-202 | created, used and dropped, a space leaves the set of free frames and every kernel translation as they were |
| AddressSpaces.Isolation | kernel/src/process.rs:69-133 | what one space does leaves every translation of a space that shares only kernel tables unchanged |
| AddressSpaces.StayApart | kernel/src/process.rs:56-67 | a call of one space never makes it share a frame with another |
| KernelHalf.MapPage | kernel/src/mm/virt.rs:98-105 | through any root: success maps exactly that page, which was unmapped; failure remaps nothing |
| KernelHalf.UnmapPage | kernel/src/mm/virt.rs:108-116 | unmaps exactly that page and returns its frame, or changes nothing and says why |
| KernelHalf.UpdateFlags | kernel/src/mm/virt.rs:119-127 | changes at most that page; the outcome follows from what was mapped |
| KernelHalf.SeenThrough | kernel/src/mm/virt.rs:98-127 | a call on a kernel page whose PML4 entry is present keeps every other root in order with the same kernel half, and changes no other page there |
| KernelHalf.SeenIff | kernel/src/process.rs:69-81 | a page mapped through one root is the same page through another that shares the kernel half exactly when its PML4 entry was present |
| SpaceRuns.RunsKeepInv | kernel/src/process.rs:54-202 | in every interleaving of creations, calls and drops of spaces with the kernel's own map calls every space stays in order, no space owns a table or a frame of another or of the kernel, and all share the kernel half |
| SpaceRuns.KernelHalfSeen | kernel/src/process.rs:69-81 | in every state of every interleaving each space maps every kernel page exactly as the kernel does |
| SpaceRuns.OnlyOwnCallsRemap | kernel/src/process.rs:54-202 | in every interleaving a page of a space changes only through a call on that page, of that space or, in the kernel half, of the kernel |
| SpaceRuns.OnlyKernelCallsRemap | kernel/src/mm/virt.rs:98-127 | in every interleaving a page of the kernel changes only through the kernel's own calls on it |
| SpaceRuns.FramesConserved | kernel/src/process.rs:56-67 | in every interleaving frames only move between the free ones, the spaces and the kernel's tables |
| SpaceRuns.NoFrameLeaks | kernel/src/process.rs:186-202 | once every space is dropped exactly the frames free at the start are free, but for those in tables the kernel made since |
| SpaceRuns.StartInv | kernel/src/process.rs:69-81 | a memory with only the kernel's tables satisfies the invariant of these runs |
| Channels.RunsConserve | kernel/src/ipc.rs:510-645 | in every run, what an open end accepted is what it received followed by what is queued, in order, at most 64 queued; the live count is exact up to closes in progress |
| Channels.LiveEndsExact | kernel/src/ipc.rs:510-556 | between closes LIVE_ENDS is the number of ends not closed |
| Channels.DeliveredBeforePeerClosed | kernel/src/ipc.rs:600-645 | an open end is told the peer closed, or to wait, only after it received everything ever accepted for it |
| Collector.Ipc.CreatePair | kernel/src/ipc.rs:510-533 | both ends open, empty, pinned and counted |
| Collector.Ipc.Send | kernel/src/ipc.rs:559-576 | refused when the peer is closed or 64 are queued; otherwise appended; handles in queues stay known to the registry |
| Collector.Ipc.TryRecv | kernel/src/ipc.rs:635-645 | the oldest message, else peer closed, else would block |
| Collector.Ipc.Close | kernel/src/ipc.rs:541-556 | the first close marks, empties and counts the end out; later ones do nothing |
| Collector.MarkAll | kernel/src/ipc.rs:474-483 | the worklist ends with exactly the reachable ends marked |
| Collector.Ipc.MarkRoots | kernel/src/ipc.rs:445-473 | the roots are the pinned ends and the ends in handle tables |
| Collector.Ipc.Sweep | kernel/src/ipc.rs:489-494 | closes exactly the unmarked open ends and counts them |
| Collector.Ipc.CollectMarked | kernel/src/ipc.rs:435-501 | changes nothing if a window opened; otherwise closes exactly the open ends that cannot be reached |
| Collector.Ipc.CollectUnreachable | kernel/src/ipc.rs:413-433 | the first of eight attempts that no window disturbs closes exactly what cannot be reached, and everything left open can be; if a wait gives up first or all eight are disturbed, nothing changes |
| Collector.NoRootsNoneOpen | kernel/src/ipc.rs:413-501 | with no process and no pinned end, no end stays open |
| Quota.CloseAnchors | kernel/src/process.rs:310-325 | closing a window moves the base to the total, by at most one budget, whatever the members did |
| Quota.BudgetIdentity | kernel/src/process.rs:261-325 | consumption over any run is the budgets less what went unspent, plus the change of debt, plus what leavers took, less what joiners brought |
| Quota.BudgetBoundIff | kernel/src/process.rs:261-325 | the bound of one budget a window plus debt holds exactly when leavers took no more than was brought, unspent or owed |
| Quota.StepMargin | kernel/src/process.rs:261-325 | only a leave lowers the margin to that bound, by the time the leaver was credited: a leave keeps the bound exactly when there is that much room |
| Quota.BoundIffLeaversIdle | kernel/src/process.rs:261-325 | with every budget spent and nobody joining, the bound holds all along exactly when every leaver had no credited time |
| Quota.BudgetBound | kernel/src/process.rs:310-325 | with no member leaving, consumption over n windows is at most n budgets plus the outstanding debt |
| Quota.TurnoverBreaksBound | kernel/src/process.rs:261-272 | two short-lived members exceed the bound in one window |
| Quota.ThrottledAfter | kernel/src/process.rs:310-325 | a job that stopped is throttled after k closes exactly while k budgets do not exceed what it spent |
| Quota.ReleasedAfter | kernel/src/process.rs:310-325 | it is released by close number spent/limit + 1 and not before |
| Quota.ReleasedAfterCharge | kernel/src/process.rs:310-325 | counted after the close that threw it out, by close number spent/limit |
| Quota.JobObject.CpuTotal | kernel/src/process.rs:261-272 | the loop sums the live members' time |
| Quota.JobObject.IsOverdrawn | kernel/src/process.rs:277-287 | the budget is spent, counting the slice in progress |
| Quota.JobObject.CloseWindowNow | kernel/src/process.rs:310-325 | closing a window in place |
| Quota.JobObject.SetCpuLimit | kernel/src/process.rs:295-307 | anchors the window; lifts the throttle only when the limit is removed |
| Quota.JobObject.AttachMember | kernel/src/process.rs:328-336 | dead references are dropped and a process is listed once |
| Quota.JobObject.MemberDies | kernel/src/process.rs:261-272 | a dead process leaves the sum at once, though it stays listed |
| Enforcement.QuotaEnforced | kernel/src/sched.rs:882-908 | over any number of windows a job gets, credited and running, at most one budget a window plus, on each CPU, one budget, one window and two tick gaps |
| Enforcement.OneCpuEnforced | kernel/src/sched.rs:882-908 | on one CPU, with threads that leave by themselves only where they are checked, at most one budget a window and one tick gap |
| Enforcement.ManyCpusOverrun | kernel/src/sched.rs:891-893 | every job with room in a window, on any number of CPUs above one, has a timeline that exceeds that, because a tick sees only its own slice |
| Enforcement.EarlyLeaverOverrun | kernel/src/sched.rs:885-897 | so has every job with room on one CPU whose threads may leave before their tick |
| Enforcement.EnforcedIff | kernel/src/sched.rs:882-908 | for every job with room the throttle acts within a tick, on every timeline, exactly when it has one CPU and its threads leave only at checks |
| Enforcement.WholeCapacityEnforced | kernel/src/sched.rs:882-908 | a budget of all the time in a window on all CPUs is never exceeded |
| JobRuns.RunReaches | kernel/src/sched.rs:500-525 | every run of the machine, with marks decided by `estourou` over the credited CPU time and by `fecha_janela`, is a timeline of `Enforcement`; a process of the job is throttled exactly while the job is |
| JobRuns.MachineEnforcesQuota | kernel/src/sched.rs:836-908 | in every run of the machine the CPU time credited to the processes of a job and in progress is at most one budget a closed window plus, on each CPU, one budget, one window and two tick gaps |
| Crc.Crc32 | abi/boot/src/lib.rs:585-594 | the nested loop computes the register fed with every byte |
| Crc.FeedInjective | abi/boot/src/lib.rs:585-594 | feeding the same bytes never merges two registers |
| Crc.BurstDetected | abi/boot/src/lib.rs:585-594 | strings that differ only inside four consecutive bytes give different registers |
| Crc.CrcSeparates | abi/boot/src/lib.rs:585-594 | strings of equal length that differ in one byte have different CRCs |
| Crc.Residue | abi/boot/src/lib.rs:569-571 | four stored bytes are the CRC of the data exactly when the register ends at one fixed value |
| BootSlots.Choose | abi/boot/src/lib.rs:529-539 | absent exactly when no slot is eligible; otherwise the eligible slot of highest priority, A on a tie |
| BootSlots.RoundTrip | abi/boot/src/lib.rs:542-582 | decoding an encoded state gives it back |
| BootSlots.CorruptionRejected | abi/boot/src/lib.rs:559-582 | any change inside four consecutive bytes of the first 28 of a valid block is rejected |
| BootSlots.ByteFlipRejected | abi/boot/src/lib.rs:542-582 | any change of one of the first 28 bytes of an encoded block is rejected |
| BootSlots.Encode | abi/boot/src/lib.rs:542-557 | the buffer filled field by field is the specified block |
| Loader.PickIsBest | boot/loader/src/main.rs:149-176 | recovery exactly when no eligible slot has a valid kernel; otherwise the best such slot, whose attempts cannot underflow |
| Loader.Loader.LoadSystem | boot/loader/src/main.rs:141-208 | what is booted and what the state file says afterwards, for every combination of readable files and failing writes |
| Loader.AttemptsConserved | boot/loader/src/main.rs:171-183 | attempts left and boots recorded add up to the attempts there were, over any sequence of boots |
| Loader.BootsBounded | boot/loader/src/main.rs:171-183 | a pending slot is booted at most as often as it has attempts, plus one for each failed write, whatever happens to the other slot |
| Loader.OddSlotUnbounded | boot/loader/src/main.rs:171-175 | either slot, if its confirmation byte is neither 0 nor 1 and it has attempts, is booted any number of times |
| Loader.BoundedIff | boot/loader/src/main.rs:171-175 | for either slot the bound holds on every run exactly when an unconfirmed slot is pending or has no attempts |
| Loader.RecoveryIsLast | boot/loader/src/main.rs:151-208 | recovery is never used while a confirmed slot has a valid kernel |
| Calendar.DaysRoundTrip | libraries/cal/src/lib.rs:21-44 | every day number is a valid date and converts back |
| Calendar.DateRoundTrip | libraries/cal/src/lib.rs:21-70 | every valid date is recovered from its day number |
| Calendar.NextDayCounts | libraries/cal/src/lib.rs:21-30 | the day after a date has the next number, across months, leap years and eras |
| Calendar.CivilFollowsCalendar | libraries/cal/src/lib.rs:33-44 | day 0 is 1970-01-01 and consecutive numbers are consecutive dates, in both directions |
| Calendar.WeekdaysFollow | libraries/cal/src/lib.rs:47-49 | the epoch was a Thursday and weekdays follow one another |
| Calendar.CivilFitsIff | libraries/cal/src/lib.rs:33-37 | 64-bit arithmetic overflows exactly on the last 719468 day numbers, against the comment that no input panics |
| Calendar.DaysFitNumbers | libraries/cal/src/lib.rs:21-30 | for any year, month byte and day byte, `days_from_civil` overflows exactly when the number is below the least 64-bit one or among the last 719468 |
| Calendar.DaysFitIff | libraries/cal/src/lib.rs:21-30 | a valid date converts without overflow exactly when it lies between the first and the last date that fit |
| Calendar.WeekdayFitsIff | libraries/cal/src/lib.rs:47-49 | the weekday overflows exactly on the last three day numbers, none of which `civil_from_days` converts |
| Grep.ParseKeepsPattern | examples/c/grep.c:28-38 | reading a pattern as items loses nothing |
| Grep.Unroll | examples/c/grep.c:28-38 | a sequence of items matches when the first takes some prefix and the rest match what is left |
| Grep.MatchStar | examples/c/grep.c:19-25 | true exactly when some number of repetitions is followed by a match |
| Grep.MatchHere | examples/c/grep.c:28-38 | true exactly when the items match consecutive pieces from the start of the text |
| Grep.Match | examples/c/grep.c:41-49 | true exactly when some position matches, only the first under '^' |
| Timers.InsertStable | kernel/src/timer.rs:38-44 | a timer goes behind those of the same deadline; nothing else changes order |
| Timers.TickFires | kernel/src/timer.rs:110-131 | a tick fires exactly the due timers, in deadline order |
| Timers.TickKeepsOrder | kernel/src/timer.rs:110-141 | the list stays sorted; at each deadline those that waited precede those put back |
| Timers.NoDrift | kernel/src/timer.rs:110-141 | in every run a timer's firings are at first, first + period, first + 2 periods and so on, however late ticks come |
| Timers.ScheduleOnGrid | kernel/src/timer.rs:65-80 | a timer with a fresh id starts on its grid |
| Timers.EveryTimerOnGrid | kernel/src/timer.rs:65-142 | in every run from the empty queue every timer ever scheduled has a fresh id and is on its grid from then on |
| Timers.TimerQueue.InsertTimer | kernel/src/timer.rs:38-44 | the search and insertion in place |
| Timers.TimerQueue.PeriodicNs | kernel/src/timer.rs:65-80 | first due one period from now, a period of 0 counting as 1 |
| Timers.TimerQueue.CancelTimer | kernel/src/timer.rs:83-88 | removes the timer and reports whether it was there |
| Timers.TimerQueue.NextDeadlineAfter | kernel/src/timer.rs:91-97 | the least deadline later than now, if any |
| Timers.TimerQueue.OnTick | kernel/src/timer.rs:110-142 | the tick in place: fire, then put back the periodic ones |
| StackSlots.StacksApart | kernel/src/sched.rs:1037-1039 | stacks of different slots are disjoint with 0x8000 bytes between them |
| StackSlots.GuardUnmapped | kernel/src/sched.rs:1011-1039 | the lower half of every slot is unmapped whichever slots are live |
| StackSlots.Stacks.constructor | kernel/src/sched.rs:1035 | an empty bitmap with nothing mapped is in order |
| StackSlots.Stacks.Alloc | kernel/src/sched.rs:1042-1075 | the lowest free slot with its stack mapped; it fails exactly when no slot is free or the frames do not suffice for the pages and a missing page table, and then takes no slot and no page |
| StackSlots.Stacks.Free | kernel/src/sched.rs:1077-1092 | unmaps and frees exactly that slot |
| StackSlots.Stacks.InUse | kernel/src/sched.rs:1105-1107 | the bit count is the number of live slots |

## Left out

Inputs of the model, not part of it: the clock (any non-decreasing sequence), which frame an allocator
returns (any free one), whether a file reads, parses or writes, when interrupts and ticks arrive, and what
processes do.

- Hardware and assembly: APIC, serial, descriptor tables, trap stubs, FXSAVE, the SMP trampoline. A context
  switch is a step, a CR3 write a flush, and global pages are not distinguished.
- Weak memory: atomics are sequentially consistent.
- 64-bit overflow of counters, identities and deadlines.
- The syscall layer: rights checks, `wait_any`, handle duplication, and `register_waiter`, whose callers it has.
- Wakeups caused by killing a job: `killed` is read before the channel lock is taken.
- Marking that races with an in-flight window: an attempt that a window disturbs is discarded, so what it marked
  is not modelled.
- `AddressSpace::write` only copies bytes through translations that `Translate` specifies; `alloc_and_map` and
  `unmap_and_free` are `MapPage` and `UnmapPage` with a frame taken or given back.
- Channel ends that died leave the registry in the source and stay listed, closed, in the model; closing one
  again does nothing.
- Messages dropped by a close may close further ends when the last handle goes; in `Channels` those are further
  closing steps of any end at any time.
- Scheduler statistics, the kick IPI to an idle CPU (an IPI may arrive at any time), the inheritance of priority
  at spawn (any priority may be given), and killing of jobs.
- A failed write of the state file is taken to leave the file as it was.
- `Handle tables`, `Event`, `bounds_containing` and `civil_from_epoch` would only add easy members.
- The packing of an entry's address and flag bits into one 64-bit word: an entry is the pair of both, with the
  bits outside 12..51 dropped from the address and those inside dropped from the flags.
- Quota.JobObject.AttachMember: the `job` field of the process that is attached belongs to the process.
- Collector.Ipc.CollectUnreachable: what others do during the eight attempts is a parameter: whether the windows
  drain in time and how many open while marking.
- StackSlots.Stacks.Alloc: the tables above the page table are taken to exist, since the kernel image is mapped
  through them.
- AddressSpaces.StayApart: one call; `SpaceRuns.RunsKeepInv` has every interleaving of several spaces.
- Enforcement.QuotaEnforced: one job with fixed members; members that leave are in `Quota.StepMargin`.
- Enforcement.EnforcedIff: on n CPUs, budgets of 1 and 2 ns and those between n * (window - gap - n) and n * window
  are not decided; from n * window on `Enforcement.WholeCapacityEnforced` decides.
- JobRuns.MachineEnforcesQuota: the same fixed members; that the timer keeps up (`Punctual`) and that none of the
  job's threads is on a CPU when the limit is set are inputs.
