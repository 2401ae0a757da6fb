/**
 What a context switch does besides moving threads: it credits CPU time to the outgoing thread's
 process and loads the incoming thread's address space.  `CpuTime` and `Mmu` are updated exactly
 when a scheduler step hands a CPU over.
 */
module Machine {
  import opened Seqs
  import opened Sched
  import opened Placement

  type SpaceId = nat
  type Frame = nat

  /** The kernel's address space has identity 0. */
  const KERNEL_SPACE: SpaceId := 0

  /** A completed stay of a thread on a CPU. */
  datatype Slice = Slice(cpu: Cpu, process: Option<Pid>, start: nat, end: nat)

  /** `enteredAt` is each thread's `entrou_em_ns`; `log` records every completed stay, for the statements only. */
  datatype CpuTime = CpuTime(enteredAt: map<Tid, nat>, cpuNs: map<Pid, nat>, log: seq<Slice>)

  /**
   Per CPU: the root in CR3, the identity in `espaco_carregado`, and the spaces whose translations it may
   have cached.  `roots` maps each live space to the frame of its PML4; `recycled` is RECICLAGENS_PML4.
   */
  datatype Mmu = Mmu(
    cr3: map<Cpu, Frame>,
    loaded: map<Cpu, SpaceId>,
    tlb: map<Cpu, set<SpaceId>>,
    roots: map<SpaceId, Frame>,
    spaceOf: map<Pid, SpaceId>,
    kernelRoot: Frame,
    nextId: SpaceId,
    recycled: nat)

  datatype World = World(q: Queues, time: CpuTime, mmu: Mmu, now: nat)

  // ---------------------------------------------------------------- CPU time

  function Credited(time: CpuTime, p: Pid): nat {
    if p in time.cpuNs then time.cpuNs[p] else 0
  }

  /** The accounting half of a switch from `cur` to `next` on CPU `c` at time `now`. */
  function Account(time: CpuTime, c: Cpu, cur: Tid, process: Option<Pid>, next: Tid, now: nat): CpuTime {
    var since := if cur in time.enteredAt then time.enteredAt[cur] else 0;
    var used := if now >= since then now - since else 0;
    CpuTime(
      time.enteredAt[next := now],
      if process.Some? then time.cpuNs[process.value := Credited(time, process.value) + used] else time.cpuNs,
      time.log + [Slice(c, process, since, since + used)])
  }

  // ---------------------------------------------------------------- address spaces

  function SpaceFor(m: Mmu, process: Option<Pid>): SpaceId {
    if process.Some? && process.value in m.spaceOf then m.spaceOf[process.value] else KERNEL_SPACE
  }

  function RootOf(m: Mmu, id: SpaceId): Frame {
    if id in m.roots then m.roots[id] else m.kernelRoot
  }

  /** The address-space half of a switch: CR3 is reloaded, and the TLB flushed, unless this space is loaded. */
  function Load(m: Mmu, c: Cpu, id: SpaceId): Mmu {
    if c in m.loaded && m.loaded[c] == id then m
    else
      m.(cr3 := m.cr3[c := RootOf(m, id)], loaded := m.loaded[c := id], tlb := m.tlb[c := {}],
         recycled := m.recycled + if c in m.cr3 && m.cr3[c] == RootOf(m, id) then 1 else 0)
  }

  // ---------------------------------------------------------------- steps

  datatype Event =
    | Schedule(step: Step, now: nat)
    | CreateSpace(pid: Pid, root: Frame)
    | DropSpace(pid: Pid, cpu: Cpu)
    | CacheTranslations(cpu: Cpu)

  /** Threads still referenced by the scheduler or by a reaper keep their process, and so its space, alive. */
  ghost predicate Holds(q: Queues, p: Pid) {
    exists t :: t in q.threads && (t in q.all || t in q.reaping) && q.threads[t].process == Some(p)
  }

  /** A CPU was handed over by this step. */
  ghost predicate HandsOver(q: Queues, r: Queues) {
    r.lock.Leaving? && !q.lock.Leaving?
  }

  // ---------------------------------------------------------------- what a step does to the CPUs

  /** Threads keep their process. */
  ghost predicate SameProcesses(q: Queues, r: Queues) {
    forall t :: t in q.threads ==> t in r.threads && r.threads[t].process == q.threads[t].process
  }

  /** Nothing that holds a process or a CPU changes. */
  ghost predicate SameHolders(q: Queues, r: Queues) {
    && SameProcesses(q, r) && r.threads.Keys == q.threads.Keys
    && r.running == q.running && r.all == q.all && r.reaping == q.reaping
    && (r.lock.Leaving? ==> q.lock.Leaving?)
  }

  /** CPU `r.lock.cpu` is handed from one thread to another and nothing else changes hands. */
  ghost predicate OneHandOver(q: Queues, r: Queues) {
    && SameProcesses(q, r) && r.threads.Keys == q.threads.Keys
    && r.all == q.all && r.reaping == q.reaping
    && HandsOver(q, r) && r.lock.cpu in q.running && r.lock.cpu in r.running
    && r.running == q.running[r.lock.cpu := r.running[r.lock.cpu]]
  }

  ghost predicate AtMostOneHandOver(q: Queues, r: Queues) {
    SameHolders(q, r) || OneHandOver(q, r)
  }

  lemma LeaveHandsOver(q: Queues, c: Cpu, st: State)
    requires Known(q) && c in q.running && !q.lock.Leaving?
    ensures AtMostOneHandOver(q, Leave(q, c, st))
  {
    hide PickNext, Stay, Swap;
    if Next(q, c) == q.running[c] {
      StayHolds(q, c, Rest(q, c));
    } else {
      SwapHandsOver(q, c, st, Next(q, c), Rest(q, c));
    }
  }

  lemma StayHolds(q: Queues, c: Cpu, rest: seq<Tid>)
    requires c in q.running && q.running[c] in q.threads
    ensures SameHolders(q, Stay(q.(runQueue := rest), c))
  {
  }

  lemma SwapHandsOver(q: Queues, c: Cpu, st: State, next: Tid, rest: seq<Tid>)
    requires c in q.running && q.running[c] in q.threads && next in q.threads && !q.lock.Leaving?
    ensures OneHandOver(q, Swap(q, c, st, next, rest))
  {
  }

  lemma HandOverAfter(p: Queues, q: Queues, r: Queues)
    requires SameHolders(p, q) && AtMostOneHandOver(q, r) && !p.lock.Leaving?
    ensures AtMostOneHandOver(p, r)
  {
  }

  lemma TickHandsOver(q: Queues, c: Cpu, boundary: bool, mark: set<Pid>, now: nat)
    requires Known(q) && c in q.running && q.lock.Free?
    ensures AtMostOneHandOver(q, Tick(q, c, boundary, mark, now))
  {
    hide TickWake, Decide, SameHolders, AtMostOneHandOver;
    var w := TickWake(q, c, boundary, now);
    TickWakeHolds(q, c, boundary, now);
    DecideHandsOver(w, c, mark);
    HandOverAfter(q, w, Tick(q, c, boundary, mark, now));
  }

  lemma TickWakeHolds(q: Queues, c: Cpu, boundary: bool, now: nat)
    requires Known(q) && c in q.running
    ensures SameHolders(q, TickWake(q, c, boundary, now)) && TickWake(q, c, boundary, now).lock == q.lock
  {
    WakeDueKnown(q, 0, now);
    WakeDueHolds(q, now);
    var d := WakeDue(q, 0, now);
    assert c in d.running && d.running[c] in d.threads;
    hide WakeDue, Known, Charge, SameHolders;
    ChargeHolds(d, c, boundary);
    HoldersTrans(q, d, Charge(d, c, boundary));
  }

  lemma HoldersTrans(p: Queues, q: Queues, r: Queues)
    requires SameHolders(p, q) && SameHolders(q, r)
    ensures SameHolders(p, r)
  {
  }

  lemma WakeDueHolds(q: Queues, now: nat)
    requires Known(q)
    ensures SameHolders(q, WakeDue(q, 0, now)) && WakeDue(q, 0, now).lock == q.lock
  {
    WakeDueFrame(q, 0, now);
    hide Known;
  }

  lemma ChargeHolds(q: Queues, c: Cpu, boundary: bool)
    requires c in q.running && q.running[c] in q.threads
    ensures SameHolders(q, Charge(q, c, boundary)) && Charge(q, c, boundary).lock == q.lock
  {
  }

  lemma DecideHandsOver(w: Queues, c: Cpu, mark: set<Pid>)
    requires Known(w) && c in w.running && w.lock.Free?
    ensures AtMostOneHandOver(w, Decide(w, c, mark))
  {
    hide Leave, PickNext, Preempts;
    var m := w.(throttled := w.throttled + mark);
    assert SameHolders(w, m);
    if Preempts(w, c, m.throttled) {
      LeaveHandsOver(m, c, Ready);
      HandOverAfter(w, m, Leave(m, c, Ready));
    }
  }

  lemma SetWakeAtHolds(q: Queues, t: Tid, wakeAt: nat)
    requires t in q.threads
    ensures SameHolders(q, SetWakeAt(q, t, wakeAt))
  {
  }

  lemma AddWaiterHolds(q: Queues, t: Tid, w: Tid)
    requires t in q.threads
    ensures SameHolders(q, AddWaiter(q, t, w))
  {
  }

  lemma AttributesHold(q: Queues, t: Tid, low: bool, affinity: set<nat>)
    requires t in q.threads
    ensures SameHolders(q, SetAttributes(q, t, low, affinity))
  {
  }

  lemma UnparkHolds(q: Queues, t: Tid)
    requires Known(q)
    ensures SameHolders(q, Unpark(q, t))
  {
    hide Known;
    RegisteredKnown(q, t);
  }

  lemma SleepHandsOver(q: Queues, c: Cpu, wakeAt: nat)
    requires Known(q) && c in q.running && q.lock.Free?
    ensures AtMostOneHandOver(q, Sleep(q, c, wakeAt))
  {
    var t := q.running[c];
    if !q.threads[t].isIdle {
      var m := SetWakeAt(q, t, wakeAt);
      SetWakeAtKnown(q, t, wakeAt);
      SetWakeAtHolds(q, t, wakeAt);
      LeaveHandsOver(m, c, Sleeping);
      HandOverAfter(q, m, Sleep(q, c, wakeAt));
    }
  }

  lemma JoinHandsOver(q: Queues, c: Cpu, t: Tid)
    requires Known(q) && c in q.running && q.lock.Free?
    ensures AtMostOneHandOver(q, Join(q, c, t))
  {
    if JoinBlocks(q, c, t) {
      var m := AddWaiter(q, t, q.running[c]);
      AddWaiterKnown(q, t, q.running[c]);
      AddWaiterHolds(q, t, q.running[c]);
      LeaveHandsOver(m, c, Blocked);
      HandOverAfter(q, m, Join(q, c, t));
    }
  }

  lemma IpiHandsOver(q: Queues, c: Cpu)
    requires Known(q) && c in q.running && q.lock.Free?
    ensures AtMostOneHandOver(q, Ipi(q, c))
  {
    hide Known, Leave, PickNext, AtMostOneHandOver;
    LeaveHandsOver(q, c, Ready);
    SelfHolds(q);
  }

  lemma SelfHolds(q: Queues)
    ensures AtMostOneHandOver(q, q)
  {
  }

  lemma FinishHolds(q: Queues, c: Cpu)
    requires Placed(q) && q.lock == Arrived(c)
    ensures c in q.prev && SameHolders(q, Finish(q, c))
  {
    BuryPlaced(q, c);
    BuryHolds(q, c);
    WakeWaitersHold(Bury(q, c), Mourners(q, c));
  }

  lemma BuryHolds(q: Queues, c: Cpu)
    requires Known(q) && c in q.prev
    ensures SameHolders(q, Bury(q, c))
  {
    hide Known;
    PrevKnown(q, c);
  }

  lemma WakeWaitersHold(q: Queues, ws: seq<Tid>)
    requires forall w :: w in ws ==> w in q.threads
    ensures SameHolders(q, WakeWaiters(q, ws))
  {
    WakeWaitersFrame(q, ws);
  }

  /** Every step but bringing up a CPU, creating or unregistering threads hands over at most one CPU. */
  lemma StepHandsOver(q: Queues, s: Step)
    requires Placed(q) && Enabled(q, s)
    requires !s.DoSpawn? && !s.DoOnline? && !s.DoReap? && !s.DoFreeStack?
    ensures AtMostOneHandOver(q, After(q, s))
  {
    hide *;
    match s
    case DoYield(_) => LeaveStepHandsOver(q, s);
    case DoExit(_) => LeaveStepHandsOver(q, s);
    case DoPark(_) => LeaveStepHandsOver(q, s);
    case DoTick(_, _, _, _) => RegionStepHandsOver(q, s);
    case DoSleep(_, _) => RegionStepHandsOver(q, s);
    case DoJoin(_, _) => RegionStepHandsOver(q, s);
    case DoIpi(_) => RegionStepHandsOver(q, s);
    case DoFinish(c) => FinishStepHolds(q, c);
    case DoUnpark(_) => QuietStepHolds(q, s);
    case DoAttributes(_, _, _) => QuietStepHolds(q, s);
    case _ => UntouchedStepHolds(q, s);
  }

  /** No thread changes its process, and at most one CPU, the one that starts a switch, changes its thread. */
  ghost predicate OneCpuAtMost(q: Queues, r: Queues) {
    && SameProcesses(q, r)
    && forall c :: c in q.running ==>
         c in r.running && (r.running[c] == q.running[c] || (HandsOver(q, r) && r.lock.cpu == c))
  }

  /** Every step hands over at most one CPU, and threads and CPUs that come or go change nobody else. */
  lemma EveryStepHandsOver(q: Queues, s: Step)
    requires Placed(q) && Enabled(q, s)
    ensures OneCpuAtMost(q, After(q, s))
  {
    hide Known, QueuesMatch, CpusMatch, IdlesMatch, SwitchMatch, LivesMatch, OneCpuAtMost;
    match s
    case DoSpawn(t, low, mask, process) => SpawnHandsOver(q, t, low, mask, process);
    case DoOnline(c, t) => OnlineHandsOver(q, c, t);
    case DoReap => SameRunnersHandOver(q, Reap(q));
    case DoFreeStack(t) => SameRunnersHandOver(q, FreeStack(q, t));
    case _ =>
      hide Apply, Enabled;
      StepHandsOver(q, s);
      AtMostOneCpu(q, After(q, s));
  }

  lemma AtMostOneCpu(q: Queues, r: Queues)
    requires AtMostOneHandOver(q, r)
    ensures OneCpuAtMost(q, r)
  {
  }

  lemma SameRunnersHandOver(q: Queues, r: Queues)
    requires r.threads == q.threads && r.running == q.running
    ensures OneCpuAtMost(q, r)
  {
  }

  lemma SpawnHandsOver(q: Queues, t: Tid, low: bool, mask: set<nat>, process: Option<Pid>)
    requires t !in q.threads
    ensures OneCpuAtMost(q, Spawn(q, t, low, mask, process))
  {
    hide AllCpus;
  }

  lemma OnlineHandsOver(q: Queues, c: Cpu, t: Tid)
    requires t !in q.threads && c !in q.running
    ensures OneCpuAtMost(q, Online(q, c, t))
  {
    hide AllCpus;
  }

  lemma LeaveStepHandsOver(q: Queues, s: Step)
    requires Placed(q) && Enabled(q, s) && (s.DoYield? || s.DoExit? || s.DoPark?)
    ensures AtMostOneHandOver(q, After(q, s))
  {
    hide Known, QueuesMatch, CpusMatch, IdlesMatch, SwitchMatch, LivesMatch, Leave, AtMostOneHandOver;
    match s
    case DoYield(c) => LeaveHandsOver(q, c, Ready);
    case DoExit(c) => LeaveHandsOver(q, c, Dying);
    case DoPark(c) => LeaveHandsOver(q, c, Blocked);
  }

  lemma RegionStepHandsOver(q: Queues, s: Step)
    requires Placed(q) && Enabled(q, s) && (s.DoTick? || s.DoSleep? || s.DoJoin? || s.DoIpi?)
    ensures AtMostOneHandOver(q, After(q, s))
  {
    hide QueuesMatch, CpusMatch, IdlesMatch, SwitchMatch, LivesMatch, Tick, Sleep, Join, Ipi, AtMostOneHandOver;
    match s
    case DoTick(c, boundary, mark, now) => TickHandsOver(q, c, boundary, mark, now);
    case DoSleep(c, wakeAt) => SleepHandsOver(q, c, wakeAt);
    case DoJoin(c, t) => JoinHandsOver(q, c, t);
    case DoIpi(c) => IpiHandsOver(q, c);
  }

  lemma FinishStepHolds(q: Queues, c: Cpu)
    requires Placed(q) && Enabled(q, DoFinish(c))
    ensures AtMostOneHandOver(q, After(q, DoFinish(c)))
  {
    hide QueuesMatch, CpusMatch, IdlesMatch, LivesMatch, Finish, SameHolders;
    FinishHolds(q, c);
  }

  lemma QuietStepHolds(q: Queues, s: Step)
    requires Placed(q) && Enabled(q, s) && (s.DoUnpark? || s.DoAttributes?)
    ensures AtMostOneHandOver(q, After(q, s))
  {
    hide QueuesMatch, CpusMatch, IdlesMatch, SwitchMatch, LivesMatch, Unpark, SetAttributes, SameHolders;
    match s
    case DoUnpark(t) => UnparkHolds(q, t);
    case DoAttributes(t, low, affinity) => AttributesHold(q, t, low, affinity);
  }

  lemma UntouchedStepHolds(q: Queues, s: Step)
    requires Placed(q) && Enabled(q, s) && (s.EnterPark? || s.DoLand? || s.DoQuota?)
    ensures AtMostOneHandOver(q, After(q, s))
  {
    hide Known, Enabled, QueuesMatch, CpusMatch, IdlesMatch, SwitchMatch, LivesMatch, SameHolders, OneHandOver;
    SwitchStepsDefined(q, s);
    match s
    case EnterPark(c) => UntouchedHolds(q, q.(lock := Entered(c)));
    case DoLand(c) => UntouchedHolds(q, Land(q, c));
    case DoQuota(throttled) => UntouchedHolds(q, q.(throttled := throttled));
  }

  lemma UntouchedHolds(q: Queues, r: Queues)
    requires r.threads == q.threads && r.running == q.running && r.all == q.all && r.reaping == q.reaping
    requires r.lock.Leaving? ==> q.lock.Leaving?
    ensures SameHolders(q, r)
  {
  }

  // ---------------------------------------------------------------- the world invariant

  /** Time on CPU `c` in completed stays. */
  ghost function BusyOn(log: seq<Slice>, c: Cpu): nat {
    if log == [] then 0
    else BusyOn(log[..|log| - 1], c) +
         var s := log[|log| - 1]; if s.cpu == c && s.end >= s.start then s.end - s.start else 0
  }

  /** Time of process `p` in completed stays. */
  ghost function BusyOf(log: seq<Slice>, p: Pid): nat {
    if log == [] then 0
    else BusyOf(log[..|log| - 1], p) +
         var s := log[|log| - 1]; if s.process == Some(p) && s.end >= s.start then s.end - s.start else 0
  }

  /** Each CPU's completed stays tile the time up to the entry of its current thread; credit is exactly the stays. */
  ghost predicate TimeInv(q: Queues, time: CpuTime, now: nat) {
    && (forall t :: t in q.threads ==> t in time.enteredAt)
    && (forall c :: c in q.running ==> OnTime(q.running[c], time, c, now))
    && (forall c :: c !in q.running ==> BusyOn(time.log, c) == 0)
    && (forall p :: Credited(time, p) == BusyOf(time.log, p))
  }

  ghost predicate OnTime(t: Tid, time: CpuTime, c: Cpu, now: nat) {
    && t in time.enteredAt
    && time.enteredAt[t] <= now
    && BusyOn(time.log, c) == time.enteredAt[t]
  }

  /** The identity a CPU must have loaded for the thread it runs. */
  ghost function SpaceOn(q: Queues, m: Mmu, c: Cpu): SpaceId
    requires c in q.running && q.running[c] in q.threads
  {
    SpaceFor(m, q.threads[q.running[c]].process)
  }

  /** Live spaces have distinct roots and identities that are never reused. */
  ghost predicate SpacesInv(m: Mmu) {
    && KERNEL_SPACE in m.roots && m.roots[KERNEL_SPACE] == m.kernelRoot && KERNEL_SPACE < m.nextId
    && (forall id :: id in m.roots ==> id < m.nextId)
    && (forall p :: p in m.spaceOf ==> KERNEL_SPACE < m.spaceOf[p] < m.nextId)
    && (forall p, o :: p in m.spaceOf && o in m.spaceOf && m.spaceOf[p] == m.spaceOf[o] ==> p == o)
    && (forall a, b :: a in m.roots && b in m.roots && m.roots[a] == m.roots[b] ==> a == b)
  }

  /** A thread that is registered, or still in a reaper's hands, keeps its space alive. */
  ghost predicate HoldersInv(q: Queues, m: Mmu) {
    forall t :: t in q.threads && (t in q.all || t in q.reaping) && q.threads[t].process.Some? ==>
      q.threads[t].process.value in m.spaceOf && m.spaceOf[q.threads[t].process.value] in m.roots
  }

  /** Every CPU has the space of its thread loaded, and caches translations of no other space. */
  ghost predicate LoadedInv(q: Queues, m: Mmu) {
    forall c :: c in q.running ==> LoadedOn(q, m, c)
  }

  ghost predicate LoadedOn(q: Queues, m: Mmu, c: Cpu)
    requires c in q.running
  {
    && q.running[c] in q.threads
    && c in m.loaded && c in m.cr3 && c in m.tlb
    && m.loaded[c] == SpaceOn(q, m, c)
    && m.loaded[c] in m.roots
    && m.cr3[c] == m.roots[m.loaded[c]]
    && m.tlb[c] <= {m.loaded[c]}
  }

  ghost predicate MmuInv(q: Queues, m: Mmu) {
    SpacesInv(m) && HoldersInv(q, m) && LoadedInv(q, m) && m.recycled == 0
  }

  ghost predicate WorldInv(w: World) {
    Placed(w.q) && TimeInv(w.q, w.time, w.now) && MmuInv(w.q, w.mmu)
  }

  // ---------------------------------------------------------------- world steps

  ghost function TimeAfter(time: CpuTime, q: Queues, s: Step, r: Queues, now: nat): CpuTime {
    if HandsOver(q, r) && r.lock.cpu in q.running && r.lock.cpu in r.running && q.running[r.lock.cpu] in q.threads then
      var c := r.lock.cpu;
      Account(time, c, q.running[c], q.threads[q.running[c]].process, r.running[c], now)
    else if s.DoSpawn? || s.DoOnline? then time.(enteredAt := time.enteredAt[s.tid := 0])
    else time
  }

  /** A CPU brought up starts in the kernel's space. */
  ghost function StartCpu(m: Mmu, c: Cpu): Mmu {
    m.(cr3 := m.cr3[c := m.kernelRoot], loaded := m.loaded[c := KERNEL_SPACE], tlb := m.tlb[c := {}])
  }

  ghost function MmuAfter(m: Mmu, q: Queues, s: Step, r: Queues): Mmu {
    if HandsOver(q, r) && r.lock.cpu in r.running && r.running[r.lock.cpu] in r.threads then
      Load(m, r.lock.cpu, SpaceOn(r, m, r.lock.cpu))
    else if s.DoOnline? then StartCpu(m, s.cpu)
    else m
  }

  /** Dropping a space: this CPU leaves it first if it has its root in CR3; then the root frame is free again. */
  ghost function Drop(m: Mmu, p: Pid, c: Cpu): Mmu
    requires p in m.spaceOf
  {
    var id := m.spaceOf[p];
    var n := if c in m.cr3 && m.cr3[c] == RootOf(m, id) then StartCpu(m, c) else m;
    n.(roots := n.roots - {id}, spaceOf := n.spaceOf - {p})
  }

  ghost function Create(m: Mmu, p: Pid, root: Frame): Mmu {
    m.(roots := m.roots[m.nextId := root], spaceOf := m.spaceOf[p := m.nextId], nextId := m.nextId + 1)
  }

  /** While it runs, a CPU caches translations of whatever space now lives in the frame CR3 points to. */
  ghost function Cache(m: Mmu, c: Cpu): Mmu {
    m.(tlb := m.tlb[c := (if c in m.tlb then m.tlb[c] else {}) +
                         set id | id in m.roots && c in m.cr3 && m.roots[id] == m.cr3[c]])
  }

  ghost predicate Happens(w: World, e: Event, v: World) {
    match e
    case Schedule(s, now) =>
      && StepsTo(w.q, s, v.q) && w.now <= now
      && (s.DoSpawn? && s.process.Some? ==>
            s.process.value in w.mmu.spaceOf && w.mmu.spaceOf[s.process.value] in w.mmu.roots)
      && v == World(v.q, TimeAfter(w.time, w.q, s, v.q, now), MmuAfter(w.mmu, w.q, s, v.q), now)
    case CreateSpace(p, root) =>
      && p !in w.mmu.spaceOf && root !in w.mmu.roots.Values
      && v == w.(mmu := Create(w.mmu, p, root))
    case DropSpace(p, c) =>
      && p in w.mmu.spaceOf && w.mmu.spaceOf[p] in w.mmu.roots && !Holds(w.q, p) && c in w.q.running
      && v == w.(mmu := Drop(w.mmu, p, c))
    case CacheTranslations(c) =>
      && c in w.q.running
      && v == w.(mmu := Cache(w.mmu, c))
  }

  // ---------------------------------------------------------------- CPU time is conserved

  lemma AccountTime(time: CpuTime, c: Cpu, cur: Tid, process: Option<Pid>, next: Tid, now: nat, d: Cpu, p: Pid)
    requires cur in time.enteredAt && time.enteredAt[cur] <= now
    ensures var t := Account(time, c, cur, process, next, now);
            && t.enteredAt == time.enteredAt[next := now]
            && BusyOn(t.log, d) == BusyOn(time.log, d) + (if d == c then now - time.enteredAt[cur] else 0)
            && BusyOf(t.log, p) == BusyOf(time.log, p) + (if process == Some(p) then now - time.enteredAt[cur] else 0)
            && Credited(t, p) == Credited(time, p) + (if process == Some(p) then now - time.enteredAt[cur] else 0)
  {
    var t := Account(time, c, cur, process, next, now);
    assert t.log[..|t.log| - 1] == time.log;
  }

  /** Handing CPU `c` over closes one stay; the other CPUs' clocks are untouched. */
  lemma HandOverTime(q: Queues, r: Queues, time: CpuTime, before: nat, now: nat)
    requires Known(q) && TimeInv(q, time, before) && CpusMatch(r) && OneHandOver(q, r) && before <= now
    ensures var c := r.lock.cpu;
            TimeInv(r, Account(time, c, q.running[c], q.threads[q.running[c]].process, r.running[c], now), now)
  {
    var c := r.lock.cpu;
    var cur, next, process := q.running[c], r.running[c], q.threads[q.running[c]].process;
    assert OnTime(cur, time, c, before);
    hide Account, Credited, BusyOn, BusyOf, Known, CpusMatch;
    var t := Account(time, c, cur, process, next, now);
    AccountTime(time, c, cur, process, next, now, c, 0);
    HandOverCredit(time, c, cur, process, next, now);
    hide OnTime;
    forall d | d in r.running
      ensures OnTime(r.running[d], t, d, now)
    {
      HandOverOnTime(q, r, time, before, now, d);
    }
  }

  /** A stay on one CPU adds no time to another, and credits its process with exactly its length. */
  lemma HandOverCredit(time: CpuTime, c: Cpu, cur: Tid, process: Option<Pid>, next: Tid, now: nat)
    requires cur in time.enteredAt && time.enteredAt[cur] <= now
    ensures var t := Account(time, c, cur, process, next, now);
            && (forall d :: d != c ==> BusyOn(t.log, d) == BusyOn(time.log, d))
            && (forall p :: Credited(time, p) == BusyOf(time.log, p) ==> Credited(t, p) == BusyOf(t.log, p))
  {
    hide Account, Credited, BusyOn, BusyOf;
    var t := Account(time, c, cur, process, next, now);
    forall d | d != c
      ensures BusyOn(t.log, d) == BusyOn(time.log, d)
    {
      AccountTime(time, c, cur, process, next, now, d, 0);
    }
    forall p | Credited(time, p) == BusyOf(time.log, p)
      ensures Credited(t, p) == BusyOf(t.log, p)
    {
      AccountTime(time, c, cur, process, next, now, c, p);
    }
  }

  lemma HandOverOnTime(q: Queues, r: Queues, time: CpuTime, before: nat, now: nat, d: Cpu)
    requires Known(q) && TimeInv(q, time, before) && CpusMatch(r) && OneHandOver(q, r)
    requires before <= now && d in r.running
    ensures var c := r.lock.cpu;
            var t := Account(time, c, q.running[c], q.threads[q.running[c]].process, r.running[c], now);
            OnTime(r.running[d], t, d, now)
  {
    var c := r.lock.cpu;
    var cur := q.running[c];
    assert cur in q.threads && OnTime(cur, time, c, before) && OnTime(q.running[d], time, d, before);
    Exclusive(r, c, d);
    hide Known, CpusMatch, TimeInv, OnTime;
    StayOnTime(time, c, cur, q.threads[cur].process, r.running[c], before, now, d, q.running[d], r.running[d]);
  }

  /** The clock of CPU `d`, on which `a` ran and `b` runs, when CPU `c` goes from `cur` to `next`. */
  lemma StayOnTime(time: CpuTime, c: Cpu, cur: Tid, process: Option<Pid>, next: Tid, before: nat, now: nat,
                   d: Cpu, a: Tid, b: Tid)
    requires OnTime(cur, time, c, before) && OnTime(a, time, d, before) && before <= now
    requires if d == c then b == next else b == a && b != next
    ensures OnTime(b, Account(time, c, cur, process, next, now), d, now)
  {
    hide Account, BusyOn, BusyOf, Credited;
    AccountTime(time, c, cur, process, next, now, d, 0);
  }

  lemma SameTime(q: Queues, r: Queues, time: CpuTime, before: nat, now: nat)
    requires TimeInv(q, time, before) && r.running == q.running && before <= now
    requires forall t :: t in r.threads ==> t in q.threads
    ensures TimeInv(r, time, now)
  {
    forall c | c in r.running
      ensures OnTime(r.running[c], time, c, now)
    {
      assert OnTime(q.running[c], time, c, before);
    }
  }

  lemma SpawnTime(q: Queues, s: Step, time: CpuTime, before: nat, now: nat)
    requires Known(q) && s.DoSpawn? && Enabled(q, s) && TimeInv(q, time, before) && before <= now
    ensures TimeInv(Spawn(q, s.tid, s.low, s.mask, s.process), time.(enteredAt := time.enteredAt[s.tid := 0]), now)
  {
    var r, t := Spawn(q, s.tid, s.low, s.mask, s.process), time.(enteredAt := time.enteredAt[s.tid := 0]);
    forall c | c in r.running
      ensures OnTime(r.running[c], t, c, now)
    {
      assert OnTime(q.running[c], time, c, before);
    }
    forall p
      ensures Credited(t, p) == BusyOf(t.log, p)
    {
      assert Credited(time, p) == BusyOf(time.log, p);
    }
  }

  lemma OnlineTime(q: Queues, s: Step, time: CpuTime, before: nat, now: nat)
    requires Known(q) && s.DoOnline? && Enabled(q, s) && TimeInv(q, time, before) && before <= now
    ensures TimeInv(Online(q, s.cpu, s.tid), time.(enteredAt := time.enteredAt[s.tid := 0]), now)
  {
    var r, t := Online(q, s.cpu, s.tid), time.(enteredAt := time.enteredAt[s.tid := 0]);
    forall c | c in r.running
      ensures OnTime(r.running[c], t, c, now)
    {
      if c in q.running {
        assert OnTime(q.running[c], time, c, before);
      }
    }
    forall p
      ensures Credited(t, p) == BusyOf(t.log, p)
    {
      assert Credited(time, p) == BusyOf(time.log, p);
    }
  }

  lemma OrdinaryTimeAt(q: Queues, s: Step, r: Queues, time: CpuTime, before: nat, now: nat)
    requires Known(q) && TimeInv(q, time, before) && before <= now && !s.DoSpawn? && !s.DoOnline?
    requires AtMostOneHandOver(q, r) && CpusMatch(r)
    ensures TimeInv(r, TimeAfter(time, q, s, r, now), now)
  {
    hide TimeInv, Account;
    if SameHolders(q, r) {
      SameTime(q, r, time, before, now);
    } else {
      HandOverTime(q, r, time, before, now);
    }
  }

  lemma OrdinaryTime(q: Queues, s: Step, time: CpuTime, before: nat, now: nat)
    requires Placed(q) && TimeInv(q, time, before) && Enabled(q, s) && before <= now
    requires !s.DoSpawn? && !s.DoOnline? && !s.DoReap? && !s.DoFreeStack?
    ensures TimeInv(After(q, s), TimeAfter(time, q, s, After(q, s), now), now)
  {
    hide Apply, TimeInv, TimeAfter, AtMostOneHandOver, QueuesMatch, CpusMatch, IdlesMatch, SwitchMatch, LivesMatch;
    StepPlaced(q, s);
    StepHandsOver(q, s);
    OrdinaryTimeAt(q, s, After(q, s), time, before, now);
  }

  lemma LifeStepTime(q: Queues, s: Step, time: CpuTime, before: nat, now: nat)
    requires Placed(q) && TimeInv(q, time, before) && Enabled(q, s) && before <= now
    requires s.DoSpawn? || s.DoOnline? || s.DoReap? || s.DoFreeStack?
    ensures TimeInv(After(q, s), TimeAfter(time, q, s, After(q, s), now), now)
  {
    hide TimeInv, QueuesMatch, CpusMatch, IdlesMatch, SwitchMatch, LivesMatch;
    if s.DoSpawn? {
      SpawnTime(q, s, time, before, now);
    } else if s.DoOnline? {
      OnlineTime(q, s, time, before, now);
    } else {
      SameTime(q, After(q, s), time, before, now);
    }
  }

  lemma StepTime(q: Queues, s: Step, time: CpuTime, before: nat, now: nat)
    requires Placed(q) && TimeInv(q, time, before) && Enabled(q, s) && before <= now
    ensures TimeInv(After(q, s), TimeAfter(time, q, s, After(q, s), now), now)
  {
    hide *;
    if s.DoSpawn? || s.DoOnline? || s.DoReap? || s.DoFreeStack? {
      LifeStepTime(q, s, time, before, now);
    } else {
      OrdinaryTime(q, s, time, before, now);
    }
  }

  // ---------------------------------------------------------------- loaded spaces

  /** Loading a live space: this CPU has it and caches nothing else; no CR3 write finds its own root already there. */
  lemma LoadHere(m: Mmu, c: Cpu, id: SpaceId)
    requires SpacesInv(m) && id in m.roots
    requires c in m.loaded && c in m.cr3 && c in m.tlb && m.loaded[c] in m.roots
    requires m.cr3[c] == m.roots[m.loaded[c]] && m.tlb[c] <= {m.loaded[c]}
    ensures var n := Load(m, c, id);
            && c in n.loaded && c in n.cr3 && c in n.tlb
            && n.loaded[c] == id && n.cr3[c] == n.roots[id] && n.tlb[c] <= {id}
            && n == m.(cr3 := n.cr3, loaded := n.loaded, tlb := n.tlb)
  {
  }

  lemma LoadElsewhere(m: Mmu, c: Cpu, id: SpaceId, d: Cpu)
    requires id in m.roots && d != c && d in m.loaded && d in m.cr3 && d in m.tlb
    ensures var n := Load(m, c, id);
            && d in n.loaded && d in n.cr3 && d in n.tlb && n.loaded[d] == m.loaded[d] && n.cr3[d] == m.cr3[d]
            && n.tlb[d] == m.tlb[d] && n.roots == m.roots && n.spaceOf == m.spaceOf
  {
  }

  lemma RunnersSpaceLives(r: Queues, m: Mmu, c: Cpu)
    requires Known(r) && SpacesInv(m) && HoldersInv(r, m) && c in r.running && r.running[c] in r.all
    ensures SpaceOn(r, m, c) in m.roots
  {
  }

  /** Handing a CPU over loads the space of the thread that takes it; the root it loads is never the one in CR3. */
  lemma HandOverLoads(q: Queues, r: Queues, m: Mmu)
    requires Known(q) && Known(r) && SpacesInv(m) && LoadedInv(q, m) && OneHandOver(q, r)
    requires SpaceOn(r, m, r.lock.cpu) in m.roots
    ensures var n := Load(m, r.lock.cpu, SpaceOn(r, m, r.lock.cpu));
            LoadedInv(r, n) && n == m.(cr3 := n.cr3, loaded := n.loaded, tlb := n.tlb)
  {
    var c := r.lock.cpu;
    assert LoadedOn(q, m, c);
    LoadHere(m, c, SpaceOn(r, m, c));
    hide Load, Known, SpacesInv, LoadedOn;
    forall d | d in r.running
      ensures LoadedOn(r, Load(m, c, SpaceOn(r, m, c)), d)
    {
      HandOverLoadedOn(q, r, m, d);
    }
  }

  lemma HandOverLoadedOn(q: Queues, r: Queues, m: Mmu, d: Cpu)
    requires Known(q) && Known(r) && SpacesInv(m) && LoadedInv(q, m) && OneHandOver(q, r) && d in r.running
    requires SpaceOn(r, m, r.lock.cpu) in m.roots
    ensures LoadedOn(r, Load(m, r.lock.cpu, SpaceOn(r, m, r.lock.cpu)), d)
  {
    var c := r.lock.cpu;
    var id := SpaceOn(r, m, c);
    assert LoadedOn(q, m, c) && LoadedOn(q, m, d) && r.running[d] in r.threads;
    hide Load, Known, SpacesInv;
    LoadHere(m, c, id);
    if d != c {
      LoadElsewhere(m, c, id, d);
    }
  }

  lemma SameHoldersLoaded(q: Queues, r: Queues, m: Mmu)
    requires Known(q) && SameProcesses(q, r) && r.running == q.running && LoadedInv(q, m)
    ensures LoadedInv(r, m)
  {
    forall c | c in r.running
      ensures LoadedOn(r, m, c)
    {
      assert LoadedOn(q, m, c);
    }
  }

  lemma HoldersKept(q: Queues, r: Queues, m: Mmu)
    requires HoldersInv(q, m) && SameProcesses(q, r) && r.threads.Keys == q.threads.Keys
    requires forall t :: t in r.threads && (t in r.all || t in r.reaping) ==> t in q.all || t in q.reaping
    ensures HoldersInv(r, m)
  {
  }

  lemma OrdinaryMmuAt(q: Queues, m: Mmu, s: Step, r: Queues)
    requires Known(q) && MmuInv(q, m) && !s.DoOnline? && AtMostOneHandOver(q, r) && HoldersInv(r, m)
    requires Known(r) && QueuesMatch(r) && CpusMatch(r)
    ensures MmuInv(r, MmuAfter(m, q, s, r))
  {
    hide LoadedInv, HoldersInv, Load, SpacesInv;
    if SameHolders(q, r) {
      SameHoldersLoaded(q, r, m);
    } else {
      RunningRegistered(r, r.lock.cpu);
      RunnersSpaceLives(r, m, r.lock.cpu);
      HandOverLoads(q, r, m);
      HoldersSpaces(r, m, Load(m, r.lock.cpu, SpaceOn(r, m, r.lock.cpu)));
    }
  }

  /** Loading a space changes neither which spaces there are nor who holds them. */
  lemma HoldersSpaces(r: Queues, m: Mmu, n: Mmu)
    requires SpacesInv(m) && HoldersInv(r, m) && n == m.(cr3 := n.cr3, loaded := n.loaded, tlb := n.tlb)
    ensures SpacesInv(n) && HoldersInv(r, n) && n.recycled == m.recycled
  {
  }

  lemma OrdinaryMmu(q: Queues, m: Mmu, s: Step)
    requires Placed(q) && MmuInv(q, m) && Enabled(q, s)
    requires !s.DoSpawn? && !s.DoOnline? && !s.DoReap? && !s.DoFreeStack?
    ensures MmuInv(After(q, s), MmuAfter(m, q, s, After(q, s)))
  {
    hide Apply, MmuAfter, HoldersInv, LoadedInv, SpacesInv, QueuesMatch, CpusMatch, IdlesMatch, SwitchMatch, LivesMatch;
    StepPlaced(q, s);
    StepHandsOver(q, s);
    HandOverHolders(q, After(q, s), m);
    OrdinaryMmuAt(q, m, s, After(q, s));
  }

  lemma HandOverHolders(q: Queues, r: Queues, m: Mmu)
    requires HoldersInv(q, m) && AtMostOneHandOver(q, r)
    ensures HoldersInv(r, m)
  {
    hide HoldersInv;
    HoldersKept(q, r, m);
  }

  lemma RunningRegistered(q: Queues, c: Cpu)
    requires QueuesMatch(q) && CpusMatch(q) && c in q.running
    ensures q.running[c] in q.all
  {
    Exclusive(q, c, c);
  }

  lemma SpawnMmu(q: Queues, m: Mmu, s: Step)
    requires Known(q) && CpusMatch(q) && s.DoSpawn? && Enabled(q, s) && HoldersInv(q, m) && LoadedInv(q, m)
    requires s.process.Some? ==> s.process.value in m.spaceOf && m.spaceOf[s.process.value] in m.roots
    ensures var r := Spawn(q, s.tid, s.low, s.mask, s.process); HoldersInv(r, m) && LoadedInv(r, m)
  {
    var r := Spawn(q, s.tid, s.low, s.mask, s.process);
    SameHoldersLoaded(q, r, m);
  }

  lemma OnlineMmu(q: Queues, m: Mmu, s: Step)
    requires Known(q) && s.DoOnline? && Enabled(q, s) && SpacesInv(m) && HoldersInv(q, m) && LoadedInv(q, m)
    ensures var r, n := Online(q, s.cpu, s.tid), StartCpu(m, s.cpu);
            SpacesInv(n) && HoldersInv(r, n) && LoadedInv(r, n)
  {
    var r, n := Online(q, s.cpu, s.tid), StartCpu(m, s.cpu);
    OnlineHolders(q, m, s.cpu, s.tid);
    forall c | c in r.running
      ensures LoadedOn(r, n, c)
    {
      hide SpacesInv, HoldersInv;
      OnlineLoaded(q, m, s.cpu, s.tid, c);
    }
  }

  lemma OnlineHolders(q: Queues, m: Mmu, c: Cpu, t: Tid)
    requires t !in q.threads && SpacesInv(m) && HoldersInv(q, m)
    ensures SpacesInv(StartCpu(m, c)) && HoldersInv(Online(q, c, t), StartCpu(m, c))
  {
  }

  lemma OnlineLoaded(q: Queues, m: Mmu, c: Cpu, t: Tid, d: Cpu)
    requires t !in q.threads && c !in q.running && LoadedInv(q, m) && d in Online(q, c, t).running
    requires KERNEL_SPACE in m.roots && m.roots[KERNEL_SPACE] == m.kernelRoot
    ensures LoadedOn(Online(q, c, t), StartCpu(m, c), d)
  {
    if d in q.running {
      assert LoadedOn(q, m, d);
    }
  }

  lemma ReapMmu(q: Queues, m: Mmu)
    requires Known(q) && QueuesMatch(q) && HoldersInv(q, m) && LoadedInv(q, m)
    ensures HoldersInv(Reap(q), m) && LoadedInv(Reap(q), m)
  {
    assert forall t :: t in q.dead ==> t in q.all;
    hide Known, QueuesMatch, HoldersInv, LoadedInv;
    var r := Reap(q);
    SameHoldersLoaded(q, r, m);
    HoldersKept(q, r, m);
  }

  lemma FreeStackMmu(q: Queues, m: Mmu, t: Tid)
    requires Known(q) && HoldersInv(q, m) && LoadedInv(q, m)
    ensures HoldersInv(FreeStack(q, t), m) && LoadedInv(FreeStack(q, t), m)
  {
    hide Known, HoldersInv, LoadedInv;
    var r := FreeStack(q, t);
    SameHoldersLoaded(q, r, m);
    HoldersKept(q, r, m);
  }

  lemma LifeStepMmu(q: Queues, m: Mmu, s: Step)
    requires Placed(q) && MmuInv(q, m) && Enabled(q, s) && (s.DoSpawn? || s.DoOnline? || s.DoReap? || s.DoFreeStack?)
    requires s.DoSpawn? && s.process.Some? ==> s.process.value in m.spaceOf && m.spaceOf[s.process.value] in m.roots
    ensures MmuInv(After(q, s), MmuAfter(m, q, s, After(q, s)))
  {
    hide Known, SpacesInv, HoldersInv, LoadedInv, QueuesMatch, CpusMatch, IdlesMatch, SwitchMatch, LivesMatch;
    match s
    case DoSpawn(_, _, _, _) => SpawnMmu(q, m, s);
    case DoOnline(_, _) => OnlineMmu(q, m, s);
    case DoReap => ReapMmu(q, m);
    case DoFreeStack(t) => FreeStackMmu(q, m, t);
  }

  lemma StepMmu(q: Queues, m: Mmu, s: Step)
    requires Placed(q) && MmuInv(q, m) && Enabled(q, s)
    requires s.DoSpawn? && s.process.Some? ==> s.process.value in m.spaceOf && m.spaceOf[s.process.value] in m.roots
    ensures MmuInv(After(q, s), MmuAfter(m, q, s, After(q, s)))
  {
    hide *;
    if s.DoSpawn? || s.DoOnline? || s.DoReap? || s.DoFreeStack? {
      LifeStepMmu(q, m, s);
    } else {
      OrdinaryMmu(q, m, s);
    }
  }

  /** No CPU has the root of a space that nobody holds in CR3, nor caches any of its translations. */
  lemma DroppedSpaceIsOffCpus(w: World, p: Pid, c: Cpu)
    requires WorldInv(w) && p in w.mmu.spaceOf && w.mmu.spaceOf[p] in w.mmu.roots && !Holds(w.q, p) && c in w.q.running
    ensures c in w.mmu.cr3 && w.mmu.cr3[c] != w.mmu.roots[w.mmu.spaceOf[p]]
    ensures c in w.mmu.tlb && w.mmu.spaceOf[p] !in w.mmu.tlb[c]
  {
    hide TimeInv, SwitchMatch, LivesMatch, IdlesMatch, QueuesMatch, CpusMatch;
    var q, m := w.q, w.mmu;
    RunningRegistered(q, c);
    assert LoadedOn(q, m, c);
    NotHeld(q, q.running[c], p);
  }

  lemma NotHeld(q: Queues, t: Tid, p: Pid)
    requires !Holds(q, p) && t in q.threads && t in q.all
    ensures q.threads[t].process != Some(p)
  {
  }

  lemma DropMmu(w: World, p: Pid, c: Cpu)
    requires WorldInv(w) && p in w.mmu.spaceOf && w.mmu.spaceOf[p] in w.mmu.roots && !Holds(w.q, p) && c in w.q.running
    ensures MmuInv(w.q, Drop(w.mmu, p, c))
  {
    var q, m := w.q, w.mmu;
    var n := Drop(m, p, c);
    DroppedSpaceIsOffCpus(w, p, c);
    forall d | d in q.running
      ensures LoadedOn(q, n, d)
    {
      DroppedSpaceIsOffCpus(w, p, d);
      RunningRegistered(q, d);
      DropKeeps(q, m, p, c, d);
    }
    DropSpaces(m, p, c);
    DropHolders(q, m, p, c);
  }

  lemma DropSpaces(m: Mmu, p: Pid, c: Cpu)
    requires SpacesInv(m) && p in m.spaceOf && m.spaceOf[p] in m.roots
    ensures SpacesInv(Drop(m, p, c)) && Drop(m, p, c).recycled == m.recycled
  {
  }

  lemma DropHolders(q: Queues, m: Mmu, p: Pid, c: Cpu)
    requires SpacesInv(m) && HoldersInv(q, m) && p in m.spaceOf && m.spaceOf[p] in m.roots && !Holds(q, p)
    ensures HoldersInv(q, Drop(m, p, c))
  {
    var n := Drop(m, p, c);
    forall t | t in q.threads && (t in q.all || t in q.reaping) && q.threads[t].process.Some?
      ensures q.threads[t].process.value in n.spaceOf && n.spaceOf[q.threads[t].process.value] in n.roots
    {
      assert q.threads[t].process.value != p;
    }
  }

  lemma DropKeeps(q: Queues, m: Mmu, p: Pid, c: Cpu, d: Cpu)
    requires SpacesInv(m) && p in m.spaceOf && m.spaceOf[p] in m.roots && d in q.running && LoadedOn(q, m, d)
    requires c in m.cr3 && m.cr3[c] != m.roots[m.spaceOf[p]] && m.cr3[d] != m.roots[m.spaceOf[p]]
    requires q.threads[q.running[d]].process != Some(p)
    ensures LoadedOn(q, Drop(m, p, c), d)
  {
  }

  lemma CreateMmu(w: World, p: Pid, root: Frame)
    requires WorldInv(w) && p !in w.mmu.spaceOf && root !in w.mmu.roots.Values
    ensures MmuInv(w.q, Create(w.mmu, p, root))
  {
    var q, m := w.q, w.mmu;
    var n := Create(m, p, root);
    forall c | c in q.running
      ensures LoadedOn(q, n, c)
    {
      assert LoadedOn(q, m, c);
      RunningRegistered(q, c);
      CreateKeeps(q, m, p, root, c);
    }
    CreateSpaces(m, p, root);
  }

  lemma CreateKeeps(q: Queues, m: Mmu, p: Pid, root: Frame, c: Cpu)
    requires SpacesInv(m) && HoldersInv(q, m) && p !in m.spaceOf
    requires c in q.running && LoadedOn(q, m, c) && q.running[c] in q.all
    ensures LoadedOn(q, Create(m, p, root), c)
  {
  }

  lemma CreateSpaces(m: Mmu, p: Pid, root: Frame)
    requires SpacesInv(m) && p !in m.spaceOf && root !in m.roots.Values
    ensures SpacesInv(Create(m, p, root))
    ensures forall q :: HoldersInv(q, m) ==> HoldersInv(q, Create(m, p, root))
  {
  }

  lemma CacheMmu(w: World, c: Cpu)
    requires WorldInv(w) && c in w.q.running
    ensures MmuInv(w.q, Cache(w.mmu, c))
  {
    hide Placed, TimeInv, Cache, HoldersInv, SpacesInv, LoadedOn;
    var q, m := w.q, w.mmu;
    CacheSpaces(q, m, c);
    forall d | d in q.running
      ensures LoadedOn(q, Cache(m, c), d)
    {
      assert LoadedOn(q, m, d) && LoadedOn(q, m, c);
      CacheLoaded(q, m, c, d);
    }
  }

  lemma CacheSpaces(q: Queues, m: Mmu, c: Cpu)
    requires SpacesInv(m) && HoldersInv(q, m)
    ensures SpacesInv(Cache(m, c)) && HoldersInv(q, Cache(m, c)) && Cache(m, c).recycled == m.recycled
  {
  }

  /** A CPU caches only the space whose root CR3 holds, and roots are distinct. */
  lemma CacheLoaded(q: Queues, m: Mmu, c: Cpu, d: Cpu)
    requires SpacesInv(m) && c in q.running && d in q.running && LoadedOn(q, m, c) && LoadedOn(q, m, d)
    ensures LoadedOn(q, Cache(m, c), d)
  {
  }

  lemma EventKeeps(w: World, e: Event, v: World)
    requires WorldInv(w) && Happens(w, e, v)
    ensures WorldInv(v)
  {
    match e
    case Schedule(s, now) =>
      StepPlaced(w.q, s);
      StepTime(w.q, s, w.time, w.now, now);
      StepMmu(w.q, w.mmu, s);
    case CreateSpace(p, root) => CreateMmu(w, p, root);
    case DropSpace(p, c) => DropMmu(w, p, c);
    case CacheTranslations(c) => CacheMmu(w, c);
  }

  // ---------------------------------------------------------------- every run of the machine

  ghost predicate IsWorldRun(ws: seq<World>, es: seq<Event>) {
    && |ws| == |es| + 1
    && forall i {:trigger es[i]} :: 0 <= i < |es| ==> Happens(ws[i], es[i], ws[i + 1])
  }

  /** Boot: CPU 0 runs `main` in the kernel's space. */
  function BootWorld(kernelRoot: Frame): World {
    World(Boot(), CpuTime(map[1 := 0, 2 := 0], map[], []),
          Mmu(map[0 := kernelRoot], map[0 := KERNEL_SPACE], map[0 := {}], map[KERNEL_SPACE := kernelRoot], map[],
              kernelRoot, 1, 0),
          0)
  }

  lemma BootWorldInv(kernelRoot: Frame)
    ensures WorldInv(BootWorld(kernelRoot))
  {
    BootPlaced();
    BootTime(kernelRoot);
    BootMmu(kernelRoot);
  }

  lemma BootTime(kernelRoot: Frame)
    ensures var w := BootWorld(kernelRoot); TimeInv(w.q, w.time, w.now)
  {
    var w := BootWorld(kernelRoot);
    assert w.q.threads.Keys == {1, 2} && w.q.running.Keys == {0};
    assert OnTime(1, w.time, 0, 0);
  }

  lemma BootMmu(kernelRoot: Frame)
    ensures var w := BootWorld(kernelRoot); MmuInv(w.q, w.mmu)
  {
    var w := BootWorld(kernelRoot);
    assert w.q.threads.Keys == {1, 2} && w.q.running.Keys == {0};
    assert LoadedOn(w.q, w.mmu, 0);
  }

  lemma {:induction false} WorldRunsInv(ws: seq<World>, es: seq<Event>, i: nat)
    requires IsWorldRun(ws, es) && WorldInv(ws[0]) && i < |ws|
    ensures WorldInv(ws[i])
  {
    if i > 0 {
      WorldRunsInv(ws, es, i - 1);
      WorldRunStep(ws, es, i - 1);
    }
  }

  lemma WorldRunStep(ws: seq<World>, es: seq<Event>, i: nat)
    requires IsWorldRun(ws, es) && i < |es| && WorldInv(ws[i])
    ensures WorldInv(ws[i + 1])
  {
    EventKeeps(ws[i], es[i], ws[i + 1]);
  }

  /**
   In every run, after every switch: the space loaded on a CPU is that of the thread it runs, CR3 holds that
   space's root, no translation of any other space is cached, and the recycled-frame counter is still zero.
   */
  lemma RunnersSpaceLoaded(ws: seq<World>, es: seq<Event>, i: nat, c: Cpu)
    requires IsWorldRun(ws, es) && WorldInv(ws[0]) && i < |ws| && c in ws[i].q.running
    ensures var q, m := ws[i].q, ws[i].mmu;
            && q.running[c] in q.threads && c in m.loaded && c in m.cr3 && c in m.tlb
            && m.loaded[c] == SpaceOn(q, m, c)
            && m.loaded[c] in m.roots && m.cr3[c] == m.roots[m.loaded[c]]
            && m.tlb[c] <= {m.loaded[c]}
            && m.recycled == 0
  {
    WorldRunsInv(ws, es, i);
    assert LoadedOn(ws[i].q, ws[i].mmu, c);
  }

  /** From boot on, every CPU has the space of the thread it runs loaded and caches no translation of any other. */
  lemma BootRunnersSpaceLoaded(ws: seq<World>, es: seq<Event>, kernelRoot: Frame, i: nat, c: Cpu)
    requires IsWorldRun(ws, es) && ws[0] == BootWorld(kernelRoot) && i < |ws| && c in ws[i].q.running
    ensures var q, m := ws[i].q, ws[i].mmu;
            && q.running[c] in q.threads && c in m.loaded && c in m.cr3 && c in m.tlb
            && m.loaded[c] == SpaceOn(q, m, c)
            && m.loaded[c] in m.roots && m.cr3[c] == m.roots[m.loaded[c]]
            && m.tlb[c] <= {m.loaded[c]}
            && m.recycled == 0
  {
    hide WorldInv;
    BootWorldInv(kernelRoot);
    RunnersSpaceLoaded(ws, es, i, c);
  }

  // ---------------------------------------------------------------- credit never exceeds CPUs x elapsed time

  ghost function BusyIn(log: seq<Slice>, cs: set<Cpu>): nat {
    if log == [] then 0
    else BusyIn(log[..|log| - 1], cs) +
         var s := log[|log| - 1]; if s.cpu in cs && s.end >= s.start then s.end - s.start else 0
  }

  lemma {:induction false} BusySplit(log: seq<Slice>, cs: set<Cpu>, c: Cpu)
    requires c in cs
    ensures BusyIn(log, cs) == BusyIn(log, cs - {c}) + BusyOn(log, c)
  {
    if log != [] {
      BusySplit(log[..|log| - 1], cs, c);
    }
  }

  lemma {:induction false} BusyBound(w: World, cs: set<Cpu>)
    requires TimeInv(w.q, w.time, w.now) && cs <= w.q.running.Keys
    ensures BusyIn(w.time.log, cs) <= |cs| * w.now
  {
    if cs == {} {
      BusyNone(w.time.log);
    } else {
      var c :| c in cs;
      BusySplit(w.time.log, cs, c);
      BusyBound(w, cs - {c});
      assert OnTime(w.q.running[c], w.time, c, w.now);
      assert (|cs| - 1) * w.now + w.now == |cs| * w.now;
    }
  }

  lemma {:induction false} BusyNone(log: seq<Slice>)
    ensures BusyIn(log, {}) == 0
  {
    if log != [] {
      BusyNone(log[..|log| - 1]);
    }
  }

  ghost function CreditSum(time: CpuTime, ps: seq<Pid>): nat {
    if ps == [] then 0 else Credited(time, ps[0]) + CreditSum(time, ps[1..])
  }

  ghost function BusyOfAll(log: seq<Slice>, ps: seq<Pid>): nat {
    if ps == [] then 0 else BusyOf(log, ps[0]) + BusyOfAll(log, ps[1..])
  }

  lemma {:induction false} BusyOfAllStep(log: seq<Slice>, s: Slice, ps: seq<Pid>)
    requires NoDup(ps)
    ensures BusyOfAll(log + [s], ps) ==
              BusyOfAll(log, ps) +
              if s.process.Some? && s.process.value in ps && s.end >= s.start then s.end - s.start else 0
  {
    assert (log + [s])[..|log|] == log;
    if ps != [] {
      assert ps == [ps[0]] + ps[1..];
      BusyOfAllStep(log, s, ps[1..]);
    }
  }

  /** Distinct processes never account for more than the CPUs were busy. */
  lemma {:induction false} BusyOfAllBound(log: seq<Slice>, ps: seq<Pid>, cs: set<Cpu>)
    requires NoDup(ps) && forall c :: c !in cs ==> BusyOn(log, c) == 0
    ensures BusyOfAll(log, ps) <= BusyIn(log, cs)
  {
    if log == [] {
      BusyOfAllNone(ps);
    } else {
      var l, s := log[..|log| - 1], log[|log| - 1];
      assert log == l + [s];
      forall c | c !in cs
        ensures BusyOn(l, c) == 0
      {
        assert BusyOn(log, c) == 0;
      }
      BusyOfAllBound(l, ps, cs);
      BusyOfAllStep(l, s, ps);
      assert s.cpu !in cs ==> BusyOn(log, s.cpu) == 0;
    }
  }

  lemma {:induction false} BusyOfAllNone(ps: seq<Pid>)
    ensures BusyOfAll([], ps) == 0
  {
    if ps != [] {
      BusyOfAllNone(ps[1..]);
    }
  }

  lemma {:induction false} CreditIsBusy(w: World, ps: seq<Pid>)
    requires TimeInv(w.q, w.time, w.now)
    ensures CreditSum(w.time, ps) == BusyOfAll(w.time.log, ps)
  {
    if ps != [] {
      assert Credited(w.time, ps[0]) == BusyOf(w.time.log, ps[0]);
      CreditIsBusy(w, ps[1..]);
    }
  }

  /**
   CPU-time conservation, in every run: each process is credited exactly its threads' completed stays, and the
   credit of any distinct processes together is at most the number of CPUs times the elapsed time.
   */
  lemma CreditConserved(ws: seq<World>, es: seq<Event>, i: nat, ps: seq<Pid>)
    requires IsWorldRun(ws, es) && WorldInv(ws[0]) && i < |ws| && NoDup(ps)
    ensures forall p :: Credited(ws[i].time, p) == BusyOf(ws[i].time.log, p)
    ensures CreditSum(ws[i].time, ps) <= |ws[i].q.running| * ws[i].now
  {
    var w := ws[i];
    WorldRunsInv(ws, es, i);
    CreditIsBusy(w, ps);
    BusyOfAllBound(w.time.log, ps, w.q.running.Keys);
    BusyBound(w, w.q.running.Keys);
    assert |w.q.running.Keys| == |w.q.running|;
  }

  /** CPU-time conservation from boot on. */
  lemma BootCreditConserved(ws: seq<World>, es: seq<Event>, kernelRoot: Frame, i: nat, ps: seq<Pid>)
    requires IsWorldRun(ws, es) && ws[0] == BootWorld(kernelRoot) && i < |ws| && NoDup(ps)
    ensures forall p :: Credited(ws[i].time, p) == BusyOf(ws[i].time.log, p)
    ensures CreditSum(ws[i].time, ps) <= |ws[i].q.running| * ws[i].now
  {
    hide WorldInv;
    BootWorldInv(kernelRoot);
    CreditConserved(ws, es, i, ps);
  }
}
