/**
 The preemptive SMP scheduler of kernel/src/sched.rs as a transition system.

 `Queues` is everything the scheduler lock protects.  The lock is carried across a context
 switch, so a switch is three micro-steps: `Leave` (on the outgoing thread's stack), `Land`
 (the stack pointer moves) and `Finish` (on the incoming thread's stack, releases the lock).
 Every other operation is one lock-held region.
 */
module Sched {
  import opened Seqs

  type Tid = nat
  type Cpu = nat
  type Pid = nat

  const QUANTUM_TICKS: nat := 10

  datatype State = Ready | Running | Sleeping | Blocked | Dying | Dead

  /** `low` is priority 1; `affinity` holds the set bits of the mask; `lastCpu` is None for `usize::MAX`. */
  datatype Thread = Thread(
    isIdle: bool,
    low: bool,
    affinity: set<nat>,
    process: Option<Pid>,
    state: State,
    finished: bool,
    lastCpu: Option<Cpu>,
    wakeAt: nat,
    quantumLeft: nat,
    waiters: seq<Tid>)

  /** Entered: a parker holds the lock but has not switched yet; Leaving/Arrived: before/after the stack moves. */
  datatype Lock = Free | Entered(cpu: Cpu) | Leaving(cpu: Cpu) | Arrived(cpu: Cpu)

  /** `threads` keeps every thread ever created (the `Arc`s); `stackOf[c]` is whose stack CPU c executes on. */
  datatype Queues = Queues(
    threads: map<Tid, Thread>,
    all: seq<Tid>,
    runQueue: seq<Tid>,
    sleepers: seq<Tid>,
    dead: seq<Tid>,
    running: map<Cpu, Tid>,
    idle: map<Cpu, Tid>,
    prev: map<Cpu, Tid>,
    stackOf: map<Cpu, Tid>,
    stacks: set<Tid>,
    reaping: set<Tid>,
    throttled: set<Pid>,
    lock: Lock)

  // ---------------------------------------------------------------- choosing the next thread

  function MaskBit(c: Cpu): nat {
    if c < 63 then c else 63
  }

  predicate AllowedOn(q: Queues, t: Tid, c: Cpu)
    requires t in q.threads
  {
    && MaskBit(c) in q.threads[t].affinity
    && !(q.threads[t].process.Some? && q.threads[t].process.value in q.throttled)
  }

  /** A queued thread the given pass of `pick_next` accepts. */
  predicate Accepts(q: Queues, t: Tid, c: Cpu, normalOnly: bool)
    requires t in q.threads
  {
    AllowedOn(q, t, c) && (normalOnly ==> !q.threads[t].low)
  }

  ghost predicate Known(q: Queues) {
    && (forall t :: t in q.all ==> t in q.threads)
    && (forall t :: t in q.runQueue ==> t in q.threads)
    && (forall t :: t in q.sleepers ==> t in q.threads)
    && (forall t :: t in q.dead ==> t in q.threads)
    && (forall c :: c in q.running ==> q.running[c] in q.threads)
    && (forall c :: c in q.idle ==> q.idle[c] in q.threads)
    && (forall c :: c in q.prev ==> q.prev[c] in q.threads)
    && (forall t, w :: t in q.threads && w in q.threads[t].waiters ==> w in q.threads)
    && (forall t :: t in q.reaping ==> t in q.threads)
    && q.idle.Keys == q.running.Keys == q.stackOf.Keys
  }

  /** First position at or after `from` that the pass accepts. */
  function FirstFrom(q: Queues, c: Cpu, normalOnly: bool, from: nat): (r: Option<nat>)
    requires Known(q) && from <= |q.runQueue|
    ensures r.None? ==> forall j :: from <= j < |q.runQueue| ==> !Accepts(q, q.runQueue[j], c, normalOnly)
    ensures r.Some? ==> from <= r.value < |q.runQueue| && Accepts(q, q.runQueue[r.value], c, normalOnly)
    ensures r.Some? ==> forall j :: from <= j < r.value ==> !Accepts(q, q.runQueue[j], c, normalOnly)
    decreases |q.runQueue| - from
  {
    if from == |q.runQueue| then None
    else if Accepts(q, q.runQueue[from], c, normalOnly) then Some(from)
    else FirstFrom(q, c, normalOnly, from + 1)
  }

  /** The first allowed normal thread, else the first allowed one. */
  function PickNext(q: Queues, c: Cpu): (r: Option<nat>)
    requires Known(q)
    ensures r.None? <==> forall t :: t in q.runQueue ==> !AllowedOn(q, t, c)
    ensures r.Some? ==> r.value < |q.runQueue| && AllowedOn(q, q.runQueue[r.value], c)
    ensures r.Some? && q.threads[q.runQueue[r.value]].low ==>
              forall t :: t in q.runQueue ==> !Accepts(q, t, c, true)
    ensures r.Some? ==> forall j :: 0 <= j < r.value ==> !Accepts(q, q.runQueue[j], c, true)
  {
    var n := FirstFrom(q, c, true, 0);
    if n.Some? then n else FirstFrom(q, c, false, 0)
  }

  predicate NormalReady(q: Queues, c: Cpu)
    requires Known(q)
  {
    exists t :: t in q.runQueue && Accepts(q, t, c, true)
  }

  predicate HasWork(q: Queues, c: Cpu)
    requires Known(q)
  {
    exists t :: t in q.runQueue && AllowedOn(q, t, c)
  }

  lemma RunningKnown(q: Queues, c: Cpu)
    requires Known(q) && c in q.running
    ensures q.running[c] in q.threads
  {
  }

  lemma PrevKnown(q: Queues, c: Cpu)
    requires Known(q) && c in q.prev
    ensures q.prev[c] in q.threads
  {
  }

  lemma SleepersKnown(q: Queues)
    requires Known(q)
    ensures forall t :: t in q.sleepers ==> t in q.threads
  {
  }

  lemma RegisteredKnown(q: Queues, t: Tid)
    requires Known(q)
    ensures t in q.all ==> t in q.threads
  {
  }

  // ---------------------------------------------------------------- the lock-held regions

  function SetState(th: map<Tid, Thread>, t: Tid, st: State): map<Tid, Thread>
    requires t in th
  {
    th[t := th[t].(state := st)]
  }

  /** A blocked thread goes to the back of the run queue. */
  function MakeReady(q: Queues, w: Tid): Queues
    requires w in q.threads
  {
    q.(threads := SetState(q.threads, w, Ready), runQueue := q.runQueue + [w])
  }

  /** `unpark`: a thread still registered and blocked becomes ready; anything else is ignored. */
  function Unpark(q: Queues, t: Tid): Queues
    requires Known(q)
  {
    if t in q.all && q.threads[t].state == Blocked then MakeReady(q, t) else q
  }

  function Next(q: Queues, c: Cpu): Tid
    requires Known(q) && c in q.running
  {
    var pick := PickNext(q, c);
    if pick.Some? then q.runQueue[pick.value] else q.idle[c]
  }

  lemma NextKnown(q: Queues, c: Cpu)
    requires Known(q) && c in q.running
    ensures Next(q, c) in q.threads
  {
  }

  /** The run queue after `pick_next` removed its choice. */
  function Rest(q: Queues, c: Cpu): seq<Tid>
    requires Known(q)
  {
    var pick := PickNext(q, c);
    if pick.Some? then RemoveAt(q.runQueue, pick.value) else q.runQueue
  }

  /** The current thread of `c` takes state `st` and `next` takes the CPU; `rest` is the queue without `next`. */
  function Swap(q: Queues, c: Cpu, st: State, next: Tid, rest: seq<Tid>): Queues
    requires c in q.running && q.running[c] in q.threads && next in q.threads
  {
    var cur := q.running[c];
    var th := SetState(q.threads, cur, st);
    q.(threads := th[next := th[next].(state := Running, quantumLeft := QUANTUM_TICKS, lastCpu := Some(c))],
       runQueue := if st == Ready && !q.threads[cur].isIdle then rest + [cur] else rest,
       sleepers := if st == Sleeping then q.sleepers + [cur] else q.sleepers,
       running := q.running[c := next],
       prev := q.prev[c := cur],
       lock := Leaving(c))
  }

  /** Nothing better to run: the current thread goes on with a fresh quantum. */
  function Stay(q: Queues, c: Cpu): Queues
    requires c in q.running && q.running[c] in q.threads
  {
    var cur := q.running[c];
    q.(threads := q.threads[cur := q.threads[cur].(state := Running, quantumLeft := QUANTUM_TICKS)], lock := Free)
  }

  /** `schedule_locked` up to the context switch (or all of it, when there is nothing better to run). */
  function Leave(q: Queues, c: Cpu, st: State): Queues
    requires Known(q) && c in q.running
  {
    if Next(q, c) == q.running[c] then Stay(q.(runQueue := Rest(q, c)), c)
    else Swap(q, c, st, Next(q, c), Rest(q, c))
  }

  /** The stack pointer moves to the incoming thread's stack. */
  function Land(q: Queues, c: Cpu): Queues
    requires c in q.running
  {
    q.(stackOf := q.stackOf[c := q.running[c]], lock := Arrived(c))
  }

  /** The waiters of a finished thread that are blocked become ready, in order. */
  function WakeWaiters(q: Queues, ws: seq<Tid>): Queues
    requires forall w :: w in ws ==> w in q.threads
    decreases |ws|
  {
    if ws == [] then q
    else if q.threads[ws[0]].state == Blocked then WakeWaiters(MakeReady(q, ws[0]), ws[1..])
    else WakeWaiters(q, ws[1..])
  }

  /** A dying thread is now dead and waits to be reaped. */
  function Die(q: Queues, p: Tid): Queues
    requires p in q.threads
  {
    q.(threads := q.threads[p := q.threads[p].(state := Dead, finished := true, waiters := [])], dead := q.dead + [p])
  }

  /** The outgoing thread leaves `prev_for_finish`; if it was dying it is now dead. */
  function Bury(q: Queues, c: Cpu): Queues
    requires Known(q) && c in q.prev
  {
    var p := q.prev[c];
    var r := if q.threads[p].state == Dying then Die(q, p) else q;
    r.(prev := q.prev - {c}, lock := Free)
  }

  /** The waiters `finish_switch` has to look at. */
  function Mourners(q: Queues, c: Cpu): seq<Tid>
    requires Known(q) && c in q.prev
  {
    var p := q.threads[q.prev[c]];
    if p.state == Dying then p.waiters else []
  }

  /** `finish_switch`: collect the outgoing thread if it was dying, then release the lock. */
  function Finish(q: Queues, c: Cpu): Queues
    requires Known(q) && c in q.prev
  {
    WakeWaiters(Bury(q, c), Mourners(q, c))
  }

  /** A due sleeper leaves position `i` of the sleepers and joins the run queue. */
  function WakeSleeper(q: Queues, i: nat): Queues
    requires i < |q.sleepers| && q.sleepers[i] in q.threads
  {
    var t := q.sleepers[i];
    q.(threads := SetState(q.threads, t, Ready), sleepers := RemoveAt(q.sleepers, i), runQueue := q.runQueue + [t])
  }

  /** The sleeper scan of `on_tick` from position `i`. */
  function WakeDue(q: Queues, i: nat, now: nat): Queues
    requires i <= |q.sleepers| && forall t :: t in q.sleepers ==> t in q.threads
    decreases |q.sleepers| - i
  {
    if i == |q.sleepers| then q
    else if q.threads[q.sleepers[i]].wakeAt <= now then WakeDue(WakeSleeper(q, i), i, now)
    else WakeDue(q, i + 1, now)
  }

  lemma {:induction false} WakeDueKnown(q: Queues, i: nat, now: nat)
    requires Known(q) && i <= |q.sleepers|
    ensures Known(WakeDue(q, i, now))
    decreases |q.sleepers| - i
  {
    if i < |q.sleepers| {
      if q.threads[q.sleepers[i]].wakeAt <= now {
        WakeDueKnown(WakeSleeper(q, i), i, now);
      } else {
        WakeDueKnown(q, i + 1, now);
      }
    }
  }

  /** Only states of sleepers changed, to ready, besides the two queues. */
  ghost predicate Woken(q: Queues, r: Queues) {
    && r.threads.Keys == q.threads.Keys
    && r == q.(threads := r.threads, sleepers := r.sleepers, runQueue := r.runQueue)
    && (forall t :: t in q.threads ==> r.threads[t] == q.threads[t].(state := r.threads[t].state))
    && (forall t :: t in q.threads && r.threads[t] != q.threads[t] ==> t in q.sleepers && r.threads[t].state == Ready)
    && (forall t :: t in r.sleepers ==> t in q.sleepers)
  }

  lemma WokenTrans(p: Queues, q: Queues, r: Queues)
    requires Woken(p, q) && Woken(q, r)
    ensures Woken(p, r)
  {
  }

  lemma WokenOne(q: Queues, i: nat)
    requires i < |q.sleepers| && forall t :: t in q.sleepers ==> t in q.threads
    ensures var r := WakeSleeper(q, i);
            Woken(q, r) && |r.sleepers| == |q.sleepers| - 1 && forall t :: t in r.sleepers ==> t in r.threads
  {
  }

  lemma WokenNone(q: Queues)
    ensures Woken(q, q)
  {
  }

  lemma {:induction false} WakeDueWoken(q: Queues, i: nat, now: nat)
    requires i <= |q.sleepers| && forall t :: t in q.sleepers ==> t in q.threads
    ensures Woken(q, WakeDue(q, i, now))
    decreases |q.sleepers| - i
  {
    hide Woken, WakeSleeper;
    if i == |q.sleepers| {
      WokenNone(q);
    } else if q.threads[q.sleepers[i]].wakeAt <= now {
      WokenOne(q, i);
      WakeDueWoken(WakeSleeper(q, i), i, now);
      WokenTrans(q, WakeSleeper(q, i), WakeDue(q, i, now));
    } else {
      WakeDueWoken(q, i + 1, now);
    }
  }

  /** The sleeper scan leaves CPUs, idle threads and thread records other than states alone. */
  lemma WakeDueFrame(q: Queues, i: nat, now: nat)
    requires i <= |q.sleepers| && forall t :: t in q.sleepers ==> t in q.threads
    ensures var r := WakeDue(q, i, now);
            && r.threads.Keys == q.threads.Keys
            && r == q.(threads := r.threads, sleepers := r.sleepers, runQueue := r.runQueue)
            && (forall t :: t in q.threads ==> r.threads[t] == q.threads[t].(state := r.threads[t].state))
            && (forall t :: t in q.threads && r.threads[t] != q.threads[t] ==>
                  t in q.sleepers && r.threads[t].state == Ready)
  {
    hide WakeDue;
    WakeDueWoken(q, i, now);
  }

  /** Charge one tick to the quantum of the thread on `c`. */
  function Charge(q: Queues, c: Cpu, boundary: bool): Queues
    requires c in q.running && q.running[c] in q.threads
  {
    var t := q.running[c];
    var left := q.threads[t].quantumLeft;
    q.(threads := q.threads[t := q.threads[t].(quantumLeft := if boundary && left > 0 then left - 1 else left)])
  }

  /** The first half of `on_tick`: due sleepers wake and, on a 1 ms boundary, the quantum shrinks. */
  function TickWake(q: Queues, c: Cpu, boundary: bool, now: nat): (r: Queues)
    requires Known(q) && c in q.running
    ensures Known(r) && r.running == q.running
  {
    WakeDueFrame(q, 0, now);
    WakeDueKnown(q, 0, now);
    ChargeKnown(WakeDue(q, 0, now), c, boundary);
    Charge(WakeDue(q, 0, now), c, boundary)
  }

  lemma ChargeKnown(q: Queues, c: Cpu, boundary: bool)
    requires Known(q) && c in q.running
    ensures Known(Charge(q, c, boundary)) && Charge(q, c, boundary).running == q.running
  {
  }

  /** Must the thread on `c` give up the CPU at this tick?  `throttled` already includes a job that just ran out. */
  predicate Preempts(q: Queues, c: Cpu, throttled: set<Pid>)
    requires Known(q) && c in q.running
  {
    var cur := q.threads[q.running[c]];
    var broke := cur.process.Some? && cur.process.value in throttled;
    || (broke && !cur.isIdle)
    || (HasWork(q, c) && (cur.isIdle || cur.quantumLeft == 0 || (cur.low && NormalReady(q, c))))
  }

  /** The second half of `on_tick`: throttle the job in `mark`, then preempt or not. */
  function Decide(q: Queues, c: Cpu, mark: set<Pid>): Queues
    requires Known(q) && c in q.running
  {
    var m := q.(throttled := q.throttled + mark);
    if Preempts(q, c, m.throttled) then Leave(m, c, Ready) else m
  }

  /** `on_tick` on CPU `c`; `mark` are the processes of the current thread's job when it just ran out of quota. */
  function Tick(q: Queues, c: Cpu, boundary: bool, mark: set<Pid>, now: nat): Queues
    requires Known(q) && c in q.running
  {
    Decide(TickWake(q, c, boundary, now), c, mark)
  }

  /** `on_resched_ipi`. */
  function Ipi(q: Queues, c: Cpu): Queues
    requires Known(q) && c in q.running
  {
    var cur := q.threads[q.running[c]];
    if (cur.isIdle && HasWork(q, c)) || (cur.low && NormalReady(q, c)) then Leave(q, c, Ready) else q
  }

  function SetWakeAt(q: Queues, t: Tid, wakeAt: nat): Queues
    requires t in q.threads
  {
    q.(threads := q.threads[t := q.threads[t].(wakeAt := wakeAt)])
  }

  /** `sleep_ns`: an idle thread does not sleep. */
  function Sleep(q: Queues, c: Cpu, wakeAt: nat): Queues
    requires Known(q) && c in q.running
  {
    var t := q.running[c];
    if q.threads[t].isIdle then q
    else SetWakeAtKnown(q, t, wakeAt); Leave(SetWakeAt(q, t, wakeAt), c, Sleeping)
  }

  lemma SetWakeAtKnown(q: Queues, t: Tid, wakeAt: nat)
    requires Known(q) && t in q.threads
    ensures Known(SetWakeAt(q, t, wakeAt))
  {
  }

  /** `join` registers the caller with the target at most once. */
  function AddWaiter(q: Queues, t: Tid, w: Tid): Queues
    requires t in q.threads
  {
    if w in q.threads[t].waiters then q
    else q.(threads := q.threads[t := q.threads[t].(waiters := q.threads[t].waiters + [w])])
  }

  /** Does `join(t)` on CPU `c` block its caller? */
  predicate JoinBlocks(q: Queues, c: Cpu, t: Tid)
    requires Known(q) && c in q.running
  {
    var cur := q.running[c];
    t in q.all && !q.threads[t].finished && !q.threads[cur].isIdle && cur != t
  }

  function Join(q: Queues, c: Cpu, t: Tid): Queues
    requires Known(q) && c in q.running
  {
    if JoinBlocks(q, c, t) then Leave(AddWaiter(q, t, q.running[c]), c, Blocked) else q
  }

  /** `spawn_full`: a zero mask means every CPU. */
  function Spawn(q: Queues, t: Tid, low: bool, mask: set<nat>, process: Option<Pid>): Queues {
    var aff := if mask == {} then AllCpus() else mask;
    q.(threads := q.threads[t := Thread(false, low, aff, process, Ready, false, None, 0, QUANTUM_TICKS, [])],
       all := q.all + [t], runQueue := q.runQueue + [t], stacks := q.stacks + {t})
  }

  function AllCpus(): set<nat> {
    set c | 0 <= c < 64 :: MaskBit(c)
  }

  /** `ap_idle_loop`: the boot context of CPU `c` becomes its idle thread. */
  function Online(q: Queues, c: Cpu, t: Tid): Queues {
    q.(threads := q.threads[t := Thread(true, false, AllCpus(), None, Running, false, Some(c), 0, QUANTUM_TICKS, [])],
       all := q.all + [t], stacks := q.stacks + {t},
       running := q.running[c := t], idle := q.idle[c := t], stackOf := q.stackOf[c := t])
  }

  function Without(s: seq<Tid>, drop: seq<Tid>): (r: seq<Tid>)
    ensures forall t :: t in r <==> t in s && t !in drop
    ensures NoDup(s) ==> NoDup(r)
  {
    if s == [] then []
    else if s[0] in drop then Without(s[1..], drop)
    else [s[0]] + Without(s[1..], drop)
  }

  /** The locked part of `reap`: dead threads leave the registry; their stacks are freed later. */
  function Reap(q: Queues): Queues {
    q.(all := Without(q.all, q.dead), dead := [], reaping := q.reaping + set t | t in q.dead)
  }

  /** The unlocked part of `reap`, one stack at a time. */
  function FreeStack(q: Queues, t: Tid): Queues {
    q.(stacks := q.stacks - {t}, reaping := q.reaping - {t})
  }

  function SetAttributes(q: Queues, t: Tid, low: bool, affinity: set<nat>): Queues
    requires t in q.threads
  {
    q.(threads := q.threads[t := q.threads[t].(low := low, affinity := affinity)])
  }

  // ---------------------------------------------------------------- runs

  datatype Step =
    | DoSpawn(tid: Tid, low: bool, mask: set<nat>, process: Option<Pid>)
    | DoOnline(cpu: Cpu, tid: Tid)
    | DoYield(cpu: Cpu)
    | DoSleep(cpu: Cpu, wakeAt: nat)
    | DoExit(cpu: Cpu)
    | DoJoin(cpu: Cpu, tid: Tid)
    | EnterPark(cpu: Cpu)
    | DoPark(cpu: Cpu)
    | DoUnpark(tid: Tid)
    | DoTick(cpu: Cpu, boundary: bool, mark: set<Pid>, now: nat)
    | DoIpi(cpu: Cpu)
    | DoLand(cpu: Cpu)
    | DoFinish(cpu: Cpu)
    | DoReap
    | DoFreeStack(tid: Tid)
    | DoAttributes(tid: Tid, low: bool, affinity: set<nat>)
    | DoQuota(throttled: set<Pid>)

  /** Every lock-held region starts with the lock free; the parts of a switch follow one another on its CPU. */
  ghost predicate Enabled(q: Queues, s: Step)
    requires Known(q)
  {
    match s
    case DoSpawn(t, _, _, _) => q.lock.Free? && t !in q.threads
    case DoOnline(c, t) => q.lock.Free? && t !in q.threads && c !in q.running
    case DoExit(c) => q.lock.Free? && c in q.running && !q.threads[q.running[c]].isIdle
    case EnterPark(c) => q.lock.Free? && c in q.running && !q.threads[q.running[c]].isIdle
    case DoPark(c) => q.lock == Entered(c) && c in q.running
    case DoLand(c) => q.lock == Leaving(c)
    case DoFinish(c) => q.lock == Arrived(c)
    case DoFreeStack(t) => t in q.reaping
    case DoYield(c) => q.lock.Free? && c in q.running
    case DoSleep(c, _) => q.lock.Free? && c in q.running
    case DoJoin(c, _) => q.lock.Free? && c in q.running
    case DoTick(c, boundary, mark, _) =>
      && q.lock.Free? && c in q.running
      && (mark != {} ==> boundary && var p := q.threads[q.running[c]].process; p.Some? && p.value in mark)
    case DoIpi(c) => q.lock.Free? && c in q.running
    case DoAttributes(t, _, _) => q.lock.Free? && t in q.all
    case _ => q.lock.Free?
  }

  /** A step from a state whose switch bookkeeping is consistent (`lock` names the CPU with an outgoing thread). */
  ghost function Apply(q: Queues, s: Step): Queues
    requires Known(q) && Enabled(q, s)
    requires s.DoLand? ==> s.cpu in q.running
    requires s.DoFinish? ==> s.cpu in q.prev
  {
    match s
    case DoSpawn(t, low, mask, process) => Spawn(q, t, low, mask, process)
    case DoOnline(c, t) => Online(q, c, t)
    case DoYield(c) => Leave(q, c, Ready)
    case DoSleep(c, wakeAt) => Sleep(q, c, wakeAt)
    case DoExit(c) => Leave(q, c, Dying)
    case DoJoin(c, t) => Join(q, c, t)
    case EnterPark(c) => q.(lock := Entered(c))
    case DoPark(c) => Leave(q, c, Blocked)
    case DoUnpark(t) => Unpark(q, t)
    case DoTick(c, boundary, mark, now) => Tick(q, c, boundary, mark, now)
    case DoIpi(c) => Ipi(q, c)
    case DoLand(c) => Land(q, c)
    case DoFinish(c) => Finish(q, c)
    case DoReap => Reap(q)
    case DoFreeStack(t) => FreeStack(q, t)
    case DoAttributes(t, low, affinity) => SetAttributes(q, t, low, affinity)
    case DoQuota(throttled) => q.(throttled := throttled)
  }

  /** The boot CPU runs `main` (thread 1); its idle thread (thread 2) is ready but in no queue. */
  function Boot(): Queues {
    Queues(
      map[1 := Thread(false, false, {0}, None, Running, false, Some(0), 0, QUANTUM_TICKS, []),
          2 := Thread(true, false, AllCpus(), None, Ready, false, None, 0, QUANTUM_TICKS, [])],
      [1, 2], [], [], [], map[0 := 1], map[0 := 2], map[], map[0 := 1], {1, 2}, {}, {}, Free)
  }
}
