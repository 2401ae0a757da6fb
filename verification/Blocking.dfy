/**
 The blocking protocol around `park_with` and `unpark`: channel `recv`, interrupt `wait`, process
 `wait` and thread `join`, with their wakers, as micro-steps between lock operations.

 A thread that blocks holds the lock of the object it waits for from its check until after it has
 the scheduler lock; a waker changes the condition, takes the waiter list under the object's lock
 (an interrupt or a process exit changes the condition before taking that lock), and unparks the
 threads it took one at a time afterwards.  The object lock is released before the thread is marked
 blocked, so wakers run in between.
 */
module Blocking {
  import opened Seqs
  import opened Sched
  import opened Placement
  import opened Lifecycle

  const CHANNEL_QUEUE_MAX: nat := 64

  /** What a thread can wait for: one end of a channel, an interrupt vector, the exit of a process. */
  datatype Source = End(chan: nat, second: bool) | Vector(vector: nat) | Exit(pid: Pid)

  /** One lock per channel (both ends), one for all interrupt waiters, one per process. */
  datatype LockId = ChannelLock(chan: nat) | InterruptLock | ExitLock(pid: Pid)

  /** Where a thread is in a blocking call; `seen` matters to interrupts only. */
  datatype Pc =
    | Outside
    | Locked(src: Source, seen: nat)
    | Checked(src: Source, seen: nat)
    | Registered(src: Source, seen: nat)
    | Entering(src: Source, seen: nat)
    | Committed(src: Source, seen: nat)
    | Parked(src: Source, seen: nat)
    | Joining(target: Tid)

  /**
   `queued` counts messages per end; `notifying` holds the notifiers that changed a condition but have
   not yet taken the waiter list; `pending` are the threads taken from a list and not yet unparked.
   */
  datatype Net = Net(
    q: Queues,
    queued: map<Source, nat>,
    closed: set<Source>,
    counts: map<nat, nat>,
    exited: set<Pid>,
    waiters: map<Source, seq<Tid>>,
    held: map<LockId, Tid>,
    notifying: multiset<Source>,
    pending: multiset<Tid>,
    pcs: map<Tid, Pc>)

  function LockOf(src: Source): LockId {
    match src
    case End(c, _) => ChannelLock(c)
    case Vector(_) => InterruptLock
    case Exit(p) => ExitLock(p)
  }

  function Peer(e: Source): Source
    requires e.End?
  {
    End(e.chan, !e.second)
  }

  function Queued(n: Net, e: Source): nat {
    if e in n.queued then n.queued[e] else 0
  }

  function Counted(n: Net, v: nat): nat {
    if v in n.counts then n.counts[v] else 0
  }

  function Waiting(n: Net, src: Source): seq<Tid> {
    if src in n.waiters then n.waiters[src] else []
  }

  function PcOf(n: Net, t: Tid): Pc {
    if t in n.pcs then n.pcs[t] else Outside
  }

  /** The condition a waiter waits for. */
  predicate Ready(n: Net, src: Source, seen: nat) {
    match src
    case End(_, _) => Queued(n, src) > 0 || Peer(src) in n.closed
    case Vector(v) => Counted(n, v) > seen
    case Exit(p) => p in n.exited
  }

  // ---------------------------------------------------------------- steps

  datatype Act =
    | Acquire(t: Tid, src: Source, seen: nat)
    | Check(t: Tid)
    | Return(t: Tid)
    | Push(t: Tid)
    | Enter(t: Tid, c: Cpu)
    | Unlock(t: Tid)
    | Park(t: Tid, c: Cpu)
    | Resume(t: Tid, c: Cpu)
    | Send(end: Source)
    | Pop(end: Source)
    | Close(end: Source)
    | Interrupt(v: nat)
    | ProcessExit(p: Pid)
    | Sweep(src: Source)
    | FreeVector(v: nat)
    | Deliver(t: Tid)
    | Schedule(s: Step)

  function SetPc(n: Net, t: Tid, pc: Pc): Net {
    n.(pcs := n.pcs[t := pc])
  }

  /** The waiters of `src` are taken: from now on their unparks are on their way. */
  function Take(n: Net, src: Source): Net {
    n.(waiters := n.waiters[src := []], pending := n.pending + multiset(Waiting(n, src)))
  }

  ghost predicate RunsOn(n: Net, t: Tid, c: Cpu) {
    c in n.q.running && n.q.running[c] == t
  }

  ghost predicate Runs(n: Net, t: Tid) {
    exists c :: RunsOn(n, t, c)
  }

  /** The CPU a step executes on, for steps taken by or over the current thread. */
  function CpuOf(s: Step): Option<Cpu> {
    match s
    case DoYield(c) => Some(c)
    case DoSleep(c, _) => Some(c)
    case DoExit(c) => Some(c)
    case DoJoin(c, _) => Some(c)
    case DoTick(c, _, _, _) => Some(c)
    case DoIpi(c) => Some(c)
    case _ => None
  }

  /** A thread inside the protocol has interrupts off: nothing else runs on its CPU. */
  ghost predicate MayInterrupt(n: Net, s: Step) {
    CpuOf(s).Some? && CpuOf(s).value in n.q.running ==>
      var pc := PcOf(n, n.q.running[CpuOf(s).value]);
      pc.Outside? || ((s.DoTick? || s.DoIpi?) && (pc.Parked? || pc.Joining?))
  }

  predicate IsLocal(a: Act) {
    a.Acquire? || a.Resume? || a.Check? || a.Return? || a.Push? || a.Unlock?
  }

  predicate IsWaker(a: Act) {
    a.Send? || a.Pop? || a.Close? || a.Interrupt? || a.ProcessExit? || a.Sweep? || a.FreeVector?
  }

  ghost predicate CanLocal(n: Net, a: Act)
    requires IsLocal(a)
  {
    match a
    case Acquire(t, src, _) => Runs(n, t) && PcOf(n, t).Outside? && LockOf(src) !in n.held
    case Check(t) => PcOf(n, t).Locked? && !Ready(n, PcOf(n, t).src, PcOf(n, t).seen)
    case Return(t) => PcOf(n, t).Locked? && Ready(n, PcOf(n, t).src, PcOf(n, t).seen)
    case Push(t) => PcOf(n, t).Checked?
    case Unlock(t) => PcOf(n, t).Entering?
    case Resume(t, c) => (PcOf(n, t).Parked? || PcOf(n, t).Joining?) && RunsOn(n, t, c)
  }

  ghost predicate CanWaker(n: Net, a: Act)
    requires IsWaker(a)
  {
    match a
    case Send(e) => e.End? && LockOf(e) !in n.held && e !in n.closed && Queued(n, e) < CHANNEL_QUEUE_MAX
    case Pop(e) => e.End? && LockOf(e) !in n.held && Queued(n, e) > 0
    case Close(e) => e.End? && LockOf(e) !in n.held && e !in n.closed
    case Interrupt(_) => true
    case ProcessExit(p) => p !in n.exited
    case Sweep(src) => src in n.notifying && LockOf(src) !in n.held
    case FreeVector(_) => InterruptLock !in n.held
  }

  ghost predicate CanSchedule(n: Net, a: Act)
    requires Known(n.q) && !IsLocal(a) && !IsWaker(a)
  {
    match a
    case Enter(t, c) => PcOf(n, t).Registered? && RunsOn(n, t, c) && Enabled(n.q, EnterPark(c))
    case Park(t, c) => PcOf(n, t).Committed? && RunsOn(n, t, c) && Enabled(n.q, DoPark(c))
    case Deliver(t) => t in n.pending && Enabled(n.q, DoUnpark(t))
    case Schedule(s) => !s.EnterPark? && !s.DoPark? && Enabled(n.q, s) && MayInterrupt(n, s)
  }

  ghost predicate CanAct(n: Net, a: Act)
    requires Known(n.q)
  {
    if IsLocal(a) then CanLocal(n, a) else if IsWaker(a) then CanWaker(n, a) else CanSchedule(n, a)
  }

  /** Moves on the thread's own state and the object's lock. */
  ghost function DoLocal(n: Net, a: Act): Net
    requires IsLocal(a) && CanLocal(n, a)
  {
    match a
    case Acquire(t, src, seen) => SetPc(n.(held := n.held[LockOf(src) := t]), t, Locked(src, seen))
    case Check(t) => SetPc(n, t, Checked(PcOf(n, t).src, PcOf(n, t).seen))
    case Return(t) =>
      var src := PcOf(n, t).src;
      var m := SetPc(n.(held := n.held - {LockOf(src)}), t, Outside);
      if src.End? && Queued(n, src) > 0 then m.(queued := m.queued[src := Queued(n, src) - 1]) else m
    case Push(t) =>
      var src := PcOf(n, t).src;
      SetPc(n.(waiters := n.waiters[src := Waiting(n, src) + [t]]), t, Registered(src, PcOf(n, t).seen))
    case Unlock(t) =>
      var src := PcOf(n, t).src;
      SetPc(n.(held := n.held - {LockOf(src)}), t, Committed(src, PcOf(n, t).seen))
    case Resume(t, _) => SetPc(n, t, Outside)
  }

  /** Moves of wakers on the objects. */
  ghost function DoWaker(n: Net, a: Act): Net
    requires IsWaker(a) && CanWaker(n, a)
  {
    match a
    case Send(e) => Take(n.(queued := n.queued[e := Queued(n, e) + 1]), e)
    case Pop(e) => n.(queued := n.queued[e := Queued(n, e) - 1])
    case Close(e) => Take(n.(closed := n.closed + {e}, queued := n.queued[e := 0]), Peer(e))
    case Interrupt(v) => n.(counts := n.counts[v := Counted(n, v) + 1], notifying := n.notifying + multiset{Vector(v)})
    case ProcessExit(p) => n.(exited := n.exited + {p}, notifying := n.notifying + multiset{Exit(p)})
    case Sweep(src) => Take(n.(notifying := n.notifying - multiset{src}), src)
    case FreeVector(v) => Take(n, Vector(v))
  }

  /** The scheduler step a move performs. */
  function SchedStep(a: Act): Step
    requires !IsLocal(a) && !IsWaker(a)
  {
    match a
    case Enter(_, c) => EnterPark(c)
    case Park(_, c) => DoPark(c)
    case Deliver(t) => DoUnpark(t)
    case Schedule(s) => s
  }

  /** What a scheduler move does besides its scheduler step, which leads to `q`. */
  ghost function Beside(n: Net, a: Act, q: Queues): Net
    requires Known(n.q) && !IsLocal(a) && !IsWaker(a) && CanSchedule(n, a)
  {
    match a
    case Enter(t, _) => SetPc(n.(q := q), t, Entering(PcOf(n, t).src, PcOf(n, t).seen))
    case Park(t, _) => SetPc(n.(q := q), t, Parked(PcOf(n, t).src, PcOf(n, t).seen))
    case Deliver(t) => n.(q := q, pending := n.pending - multiset{t})
    case Schedule(s) =>
      if s.DoJoin? && s.cpu in n.q.running && JoinBlocks(n.q, s.cpu, s.tid)
      then SetPc(n.(q := q), n.q.running[s.cpu], Joining(s.tid)) else n.(q := q)
  }

  ghost predicate Moves(n: Net, a: Act, m: Net) {
    && Known(n.q) && CanAct(n, a)
    && if IsLocal(a) then m == DoLocal(n, a)
       else if IsWaker(a) then m == DoWaker(n, a)
       else StepsTo(n.q, SchedStep(a), m.q) && m == Beside(n, a, m.q)
  }

  // ---------------------------------------------------------------- the invariant

  /** If the condition already holds, a notifier that made it true has yet to take the waiters. */
  ghost predicate Covered(n: Net, src: Source, seen: nat) {
    Ready(n, src, seen) ==> !src.End? && src in n.notifying
  }

  ghost predicate HoldsObject(n: Net, t: Tid, src: Source) {
    LockOf(src) in n.held && n.held[LockOf(src)] == t
  }

  ghost predicate HoldsSched(n: Net, t: Tid) {
    n.q.lock.Entered? && RunsOn(n, t, n.q.lock.cpu)
  }

  /** Registered with a condition that is covered, or already taken by a waker. */
  ghost predicate WillWake(n: Net, t: Tid, src: Source, seen: nat) {
    (t in Waiting(n, src) && Covered(n, src, seen)) || t in n.pending
  }

  ghost predicate IsBlocked(n: Net, t: Tid) {
    t in n.q.threads && n.q.threads[t].state == Blocked
  }

  /** `t` is registered with `u`, which has not finished. */
  ghost predicate JoinedTo(q: Queues, t: Tid, u: Tid) {
    u in q.threads && q.threads[u].state != Dead && t in q.threads[u].waiters
  }

  ghost predicate PcOk(n: Net, t: Tid) {
    (PcOf(n, t).Outside? || t in n.q.threads) &&
    match PcOf(n, t)
    case Outside => true
    case Locked(src, _) => HoldsObject(n, t, src)
    case Checked(src, seen) => HoldsObject(n, t, src) && Covered(n, src, seen)
    case Registered(src, seen) => HoldsObject(n, t, src) && Covered(n, src, seen) && t in Waiting(n, src)
    case Entering(src, seen) =>
      HoldsObject(n, t, src) && Covered(n, src, seen) && t in Waiting(n, src) && HoldsSched(n, t)
    case Committed(src, seen) => WillWake(n, t, src, seen) && HoldsSched(n, t)
    case Parked(src, seen) => IsBlocked(n, t) ==> WillWake(n, t, src, seen)
    case Joining(u) => IsBlocked(n, t) ==> JoinedTo(n.q, t, u)
  }

  ghost predicate NetInv(n: Net) {
    Placed(n.q) && forall t :: PcOk(n, t)
  }

  // ---------------------------------------------------------------- thread-local moves

  /** Nothing `t` relies on gets worse: locks it holds, waiter lists, unparks on their way, covered conditions. */
  ghost predicate Harmless(n: Net, m: Net, t: Tid) {
    && m.q == n.q && PcOf(m, t) == PcOf(n, t)
    && (forall src :: HoldsObject(n, t, src) ==> HoldsObject(m, t, src))
    && (forall src :: t in Waiting(n, src) ==> t in Waiting(m, src) || t in m.pending)
    && (forall src :: HoldsObject(n, t, src) ==> Waiting(m, src) == Waiting(n, src) || t in Waiting(m, src))
    && (t in n.pending ==> t in m.pending)
    && (forall src, seen ::
          Covered(n, src, seen) && (HoldsObject(n, t, src) || t in Waiting(m, src)) ==> Covered(m, src, seen))
  }

  lemma HarmlessKeeps(n: Net, m: Net, t: Tid)
    requires PcOk(n, t) && Harmless(n, m, t)
    ensures PcOk(m, t)
  {
  }

  lemma LocalOther(n: Net, a: Act, t: Tid)
    requires IsLocal(a) && CanLocal(n, a) && PcOk(n, a.t) && t != a.t
    ensures Harmless(n, DoLocal(n, a), t)
  {
    hide Harmless, CanLocal, DoLocal, PcOk;
    match a
    case Acquire(x, src, seen) => AcquireOther(n, x, src, seen, t);
    case Return(x) => ReturnOther(n, x, t);
    case Push(x) => PushOther(n, x, t);
    case Unlock(x) => UnlockOther(n, x, t);
    case Check(_) => StepOther(n, a, t);
    case Resume(_, _) => StepOther(n, a, t);
  }

  lemma AcquireOther(n: Net, x: Tid, src: Source, seen: nat, t: Tid)
    requires CanLocal(n, Acquire(x, src, seen)) && t != x
    ensures Harmless(n, DoLocal(n, Acquire(x, src, seen)), t)
  {
  }

  lemma UnlockOther(n: Net, x: Tid, t: Tid)
    requires CanLocal(n, Unlock(x)) && PcOk(n, x) && t != x
    ensures Harmless(n, DoLocal(n, Unlock(x)), t)
  {
  }

  /** Moves that only change where their own thread is. */
  lemma StepOther(n: Net, a: Act, t: Tid)
    requires (a.Check? || a.Resume?) && CanLocal(n, a) && t != a.t
    ensures Harmless(n, DoLocal(n, a), t)
  {
  }

  lemma ReturnOther(n: Net, x: Tid, t: Tid)
    requires CanLocal(n, Return(x)) && PcOk(n, x) && t != x
    ensures Harmless(n, DoLocal(n, Return(x)), t)
  {
  }

  lemma PushOther(n: Net, x: Tid, t: Tid)
    requires CanLocal(n, Push(x)) && PcOk(n, x) && t != x
    ensures Harmless(n, DoLocal(n, Push(x)), t)
  {
  }

  lemma LocalSelf(n: Net, a: Act)
    requires IsLocal(a) && CanLocal(n, a) && PcOk(n, a.t) && Known(n.q)
    ensures PcOk(DoLocal(n, a), a.t)
  {
  }

  // ---------------------------------------------------------------- moves of wakers

  lemma WakerHarmless(n: Net, a: Act, t: Tid)
    requires IsWaker(a) && CanWaker(n, a)
    ensures Harmless(n, DoWaker(n, a), t)
  {
    hide Harmless, CanWaker, DoWaker;
    match a
    case Send(e) => SendHarmless(n, e, t);
    case Close(e) => CloseHarmless(n, e, t);
    case Sweep(src) => SweepHarmless(n, src, t);
    case FreeVector(v) => FreeHarmless(n, v, t);
    case _ => CountHarmless(n, a, t);
  }

  /** Taking a message, counting an interrupt or marking an exit takes no waiter. */
  lemma CountHarmless(n: Net, a: Act, t: Tid)
    requires (a.Pop? || a.Interrupt? || a.ProcessExit?) && CanWaker(n, a)
    ensures Harmless(n, DoWaker(n, a), t)
  {
    var m := DoWaker(n, a);
    assert m.held == n.held && m.waiters == n.waiters && m.pending == n.pending && m.pcs == n.pcs && m.q == n.q;
    forall src, seen | Covered(n, src, seen) && (HoldsObject(n, t, src) || t in Waiting(m, src))
      ensures Covered(m, src, seen)
    {
      CountCovers(n, a, src, seen);
    }
    hide DoWaker, Covered;
  }

  lemma CountCovers(n: Net, a: Act, src: Source, seen: nat)
    requires (a.Pop? || a.Interrupt? || a.ProcessExit?) && CanWaker(n, a) && Covered(n, src, seen)
    ensures Covered(DoWaker(n, a), src, seen)
  {
  }

  lemma FreeHarmless(n: Net, v: nat, t: Tid)
    requires CanWaker(n, FreeVector(v))
    ensures Harmless(n, DoWaker(n, FreeVector(v)), t)
  {
    hide Harmless;
    TakeHarmless(n, Vector(v), t);
  }

  lemma TakeHarmless(n: Net, src: Source, t: Tid)
    requires LockOf(src) !in n.held
    ensures Harmless(n, Take(n, src), t)
  {
  }

  lemma SendHarmless(n: Net, e: Source, t: Tid)
    requires CanWaker(n, Send(e))
    ensures Harmless(n, DoWaker(n, Send(e)), t)
  {
  }

  lemma CloseHarmless(n: Net, e: Source, t: Tid)
    requires CanWaker(n, Close(e))
    ensures Harmless(n, DoWaker(n, Close(e)), t)
  {
  }

  lemma SweepHarmless(n: Net, src: Source, t: Tid)
    requires CanWaker(n, Sweep(src))
    ensures Harmless(n, DoWaker(n, Sweep(src)), t)
  {
    var m := DoWaker(n, Sweep(src));
    assert Waiting(m, src) == [];
    forall x, seen | Covered(n, x, seen) && (HoldsObject(n, t, x) || t in Waiting(m, x))
      ensures Covered(m, x, seen)
    {
      SweepCovers(n, src, x, seen);
    }
    hide Covered;
  }

  /** What a sweep stops covering nobody waits for any more. */
  lemma SweepCovers(n: Net, src: Source, x: Source, seen: nat)
    requires CanWaker(n, Sweep(src)) && x != src && Covered(n, x, seen)
    ensures Covered(DoWaker(n, Sweep(src)), x, seen)
  {
    var m := DoWaker(n, Sweep(src));
    assert x in n.notifying ==> x in m.notifying;
  }

  // ---------------------------------------------------------------- scheduler moves

  /** What a scheduler step from `q` to `r` leaves of `t`'s wait: it can be woken, not blocked or deregistered. */
  ghost predicate Tame(q: Queues, r: Queues, t: Tid) {
    && (t in q.threads ==> t in r.threads)
    && (t in q.threads && r.threads[t].state == Blocked ==> q.threads[t].state == Blocked)
    && (q.lock.Entered? && q.lock.cpu in q.running && q.running[q.lock.cpu] == t ==>
          r.lock == q.lock && r.running == q.running)
    && (forall u :: t in q.threads && r.threads[t].state == Blocked && JoinedTo(q, t, u) ==> JoinedTo(r, t, u))
  }

  lemma TameKeeps(n: Net, m: Net, t: Tid)
    requires PcOk(n, t) && PcOf(m, t) == PcOf(n, t) && Tame(n.q, m.q, t)
    requires m == n.(q := m.q, pending := m.pending, pcs := m.pcs) && (t in n.pending ==> t in m.pending)
    ensures PcOk(m, t)
  {
    var pc := PcOf(n, t);
    if !pc.Outside? && !pc.Joining? {
      SameObjects(n, m, t, pc.src, pc.seen);
    }
  }

  lemma SameObjects(n: Net, m: Net, t: Tid, src: Source, seen: nat)
    requires m == n.(q := m.q, pending := m.pending, pcs := m.pcs) && (t in n.pending ==> t in m.pending)
    ensures HoldsObject(n, t, src) ==> HoldsObject(m, t, src)
    ensures Covered(m, src, seen) <==> Covered(n, src, seen)
    ensures Waiting(m, src) == Waiting(n, src)
    ensures WillWake(n, t, src, seen) ==> WillWake(m, t, src, seen)
  {
  }

  lemma StepTame(q: Queues, s: Step, t: Tid)
    requires Placed(q) && Enabled(q, s) && t in q.threads && !Blocks(q, s, t)
    ensures Tame(q, After(q, s), t)
  {
    var r := After(q, s);
    StepStates(q, s, t);
    if q.lock.Entered? && q.lock.cpu in q.running && q.running[q.lock.cpu] == t {
      EnteredStays(q, s, t);
    }
    forall u | r.threads[t].state == Blocked && JoinedTo(q, t, u)
      ensures JoinedTo(r, t, u)
    {
      StepStates(q, s, u);
      JoinedStays(q, s, r, t, u);
    }
  }

  lemma JoinedStays(q: Queues, s: Step, r: Queues, t: Tid, u: Tid)
    requires Known(q) && t in q.threads && u in q.threads && !Blocks(q, s, t)
    requires StatesFollow(q, s, r, t) && StatesFollow(q, s, r, u)
    requires t in r.threads && r.threads[t].state == Blocked && JoinedTo(q, t, u)
    ensures JoinedTo(r, t, u)
  {
    hide StatesFollow;
    DeathWakes(q, s, r, t, u);
    StillBlocked(q, s, r, t);
    StatesKeepWaiters(q, s, r, u);
  }

  /** A thread that dies wakes those registered with it. */
  lemma DeathWakes(q: Queues, s: Step, r: Queues, t: Tid, u: Tid)
    requires Known(q) && u in q.threads && StatesFollow(q, s, r, u)
    ensures u in r.threads
    ensures r.threads[u].state == Dead && q.threads[u].state != Dead && t in q.threads[u].waiters ==> Wakes(q, s, t)
  {
    if r.threads[u].state == Dead && q.threads[u].state != Dead && t in q.threads[u].waiters {
      assert t in Mourners(q, s.cpu);
    }
  }

  lemma StillBlocked(q: Queues, s: Step, r: Queues, t: Tid)
    requires Known(q) && t in q.threads && StatesFollow(q, s, r, t) && !Blocks(q, s, t)
    ensures t in r.threads && (r.threads[t].state == Blocked ==> !Wakes(q, s, t))
  {
  }

  lemma StatesKeepWaiters(q: Queues, s: Step, r: Queues, u: Tid)
    requires Known(q) && u in q.threads && StatesFollow(q, s, r, u)
    ensures u in r.threads
    ensures r.threads[u].state != Dead ==> forall w :: w in q.threads[u].waiters ==> w in r.threads[u].waiters
  {
  }

  /** While a parker holds the scheduler lock, only it can take a step that moves the lock. */
  lemma EnteredStays(q: Queues, s: Step, t: Tid)
    requires Placed(q) && Enabled(q, s) && !Blocks(q, s, t)
    requires q.lock.Entered? && q.lock.cpu in q.running && q.running[q.lock.cpu] == t
    ensures After(q, s).lock == q.lock && After(q, s).running == q.running
  {
    hide QueuesMatch, CpusMatch, IdlesMatch, SwitchMatch, LivesMatch;
    assert s.DoFreeStack?;
  }

  /** Does this move block `t` itself, or take the last unpark on its way to `t`? */
  ghost predicate Concerns(n: Net, a: Act, t: Tid)
    requires Known(n.q) && !IsLocal(a) && !IsWaker(a)
  {
    || ((a.Enter? || a.Park? || a.Deliver?) && a.t == t)
    || (a.Schedule? && Blocks(n.q, a.s, t))
  }

  lemma ScheduledOther(n: Net, a: Act, t: Tid)
    requires Placed(n.q) && !IsLocal(a) && !IsWaker(a) && CanSchedule(n, a) && PcOk(n, t) && !Concerns(n, a, t)
    ensures PcOk(Beside(n, a, After(n.q, SchedStep(a))), t)
  {
    if t in n.q.threads {
      NotBlocked(n, a, t);
      StepTame(n.q, SchedStep(a), t);
      BesideOther(n, a, After(n.q, SchedStep(a)), t);
      TameKeeps(n, Beside(n, a, After(n.q, SchedStep(a))), t);
    } else {
      BesideOther(n, a, After(n.q, SchedStep(a)), t);
    }
  }

  lemma NotBlocked(n: Net, a: Act, t: Tid)
    requires Known(n.q) && !IsLocal(a) && !IsWaker(a) && CanSchedule(n, a) && !Concerns(n, a, t)
    ensures !Blocks(n.q, SchedStep(a), t)
  {
  }

  lemma BesideOther(n: Net, a: Act, q: Queues, t: Tid)
    requires Known(n.q) && !IsLocal(a) && !IsWaker(a) && CanSchedule(n, a) && !Concerns(n, a, t)
    ensures var m := Beside(n, a, q);
            && m == n.(q := q, pending := m.pending, pcs := m.pcs)
            && PcOf(m, t) == PcOf(n, t) && (t in n.pending ==> t in m.pending)
  {
    hide Known, Enabled, RunsOn, MayInterrupt;
  }

  lemma EnterSelf(n: Net, a: Act)
    requires Placed(n.q) && a.Enter? && CanSchedule(n, a) && PcOk(n, a.t)
    ensures PcOk(Beside(n, a, After(n.q, SchedStep(a))), a.t)
  {
    hide Known, QueuesMatch, CpusMatch, IdlesMatch, SwitchMatch, LivesMatch, Covered;
    var m := Beside(n, a, After(n.q, SchedStep(a)));
    SameObjects(n, m, a.t, PcOf(n, a.t).src, PcOf(n, a.t).seen);
  }

  lemma ParkSelf(n: Net, a: Act)
    requires Placed(n.q) && a.Park? && CanSchedule(n, a) && PcOk(n, a.t)
    ensures PcOk(Beside(n, a, After(n.q, SchedStep(a))), a.t)
  {
    hide QueuesMatch, CpusMatch, IdlesMatch, SwitchMatch, LivesMatch, Covered, Apply, PcOf;
    StaysThread(n.q, SchedStep(a), a.t);
    ParkSelfAt(n, a, After(n.q, SchedStep(a)));
  }

  lemma ParkSelfAt(n: Net, a: Act, q: Queues)
    requires Known(n.q) && a.Park? && CanSchedule(n, a) && PcOk(n, a.t) && a.t in q.threads
    ensures PcOk(Beside(n, a, q), a.t)
  {
    hide Covered, WillWake, Known, Enabled;
    SameObjects(n, Beside(n, a, q), a.t, PcOf(n, a.t).src, PcOf(n, a.t).seen);
  }

  lemma StaysThread(q: Queues, s: Step, t: Tid)
    requires Placed(q) && Enabled(q, s) && t in q.threads
    ensures t in After(q, s).threads
  {
    StepStates(q, s, t);
    hide Apply;
  }

  lemma DeliverSelf(n: Net, a: Act)
    requires Placed(n.q) && a.Deliver? && CanSchedule(n, a) && PcOk(n, a.t)
    ensures PcOk(Beside(n, a, After(n.q, SchedStep(a))), a.t)
  {
    var m, t := Beside(n, a, After(n.q, SchedStep(a))), a.t;
    if t in n.q.threads {
      UnparkedRuns(n.q, t);
      var pc := PcOf(n, t);
      if !pc.Outside? && !pc.Joining? {
        StillRegistered(n, m, t, pc.src, pc.seen);
      }
    }
  }

  /** An unpark that arrives leaves its thread not blocked. */
  lemma UnparkedRuns(q: Queues, t: Tid)
    requires Placed(q) && q.lock.Free? && t in q.threads
    ensures var r := After(q, DoUnpark(t)); t in r.threads && r.threads[t].state != Blocked
  {
    hide Known, Unpark, QueuesMatch, CpusMatch, IdlesMatch, SwitchMatch, LivesMatch;
    UnparkWakes(q, t);
  }

  lemma UnparkWakes(q: Queues, t: Tid)
    requires Known(q) && QueuesMatch(q) && t in q.threads
    ensures var r := Unpark(q, t); t in r.threads && r.threads[t].state != Blocked
  {
    assert q.threads[t].state == Blocked ==> t in q.all;
    hide Known, QueuesMatch;
  }

  lemma StillRegistered(n: Net, m: Net, t: Tid, src: Source, seen: nat)
    requires m == n.(q := m.q, pending := m.pending)
    ensures HoldsObject(n, t, src) ==> HoldsObject(m, t, src)
    ensures Covered(m, src, seen) <==> Covered(n, src, seen)
    ensures Waiting(m, src) == Waiting(n, src)
  {
  }

  lemma JoinSelf(n: Net, a: Act, t: Tid)
    requires Placed(n.q) && a.Schedule? && CanSchedule(n, a) && Blocks(n.q, a.s, t)
    ensures PcOk(Beside(n, a, After(n.q, SchedStep(a))), t)
  {
    JoinRegisters(n.q, a.s.cpu, a.s.tid);
    StepStates(n.q, a.s, t);
  }

  lemma ScheduledMove(n: Net, a: Act, t: Tid)
    requires Placed(n.q) && !IsLocal(a) && !IsWaker(a) && CanSchedule(n, a) && PcOk(n, t)
    ensures PcOk(Beside(n, a, After(n.q, SchedStep(a))), t)
  {
    if !Concerns(n, a, t) {
      ScheduledOther(n, a, t);
    } else if a.Enter? {
      EnterSelf(n, a);
    } else if a.Park? {
      ParkSelf(n, a);
    } else if a.Deliver? {
      DeliverSelf(n, a);
    } else {
      JoinSelf(n, a, t);
    }
  }

  // ---------------------------------------------------------------- every move, every run

  lemma ActKeeps(n: Net, a: Act, m: Net)
    requires NetInv(n) && Moves(n, a, m)
    ensures NetInv(m)
  {
    if !IsLocal(a) && !IsWaker(a) {
      StepPlaced(n.q, SchedStep(a));
    }
    forall t
      ensures PcOk(m, t)
    {
      assert PcOk(n, t);
      if IsLocal(a) {
        if t == a.t {
          LocalSelf(n, a);
        } else {
          assert PcOk(n, a.t);
          LocalOther(n, a, t);
          HarmlessKeeps(n, m, t);
        }
      } else if IsWaker(a) {
        WakerHarmless(n, a, t);
        HarmlessKeeps(n, m, t);
      } else {
        ScheduledMove(n, a, t);
      }
    }
  }

  ghost predicate IsNetRun(ns: seq<Net>, acts: seq<Act>) {
    && |ns| == |acts| + 1
    && forall i {:trigger acts[i]} :: 0 <= i < |acts| ==> Moves(ns[i], acts[i], ns[i + 1])
  }

  /** At boot nobody is in a blocking call. */
  lemma BootNetInv(n: Net)
    requires Placed(n.q) && n.pcs == map[]
    ensures NetInv(n)
  {
    forall t
      ensures PcOk(n, t)
    {
      assert PcOf(n, t) == Outside;
    }
  }

  lemma {:induction false} NetRunsInv(ns: seq<Net>, acts: seq<Act>, i: nat)
    requires IsNetRun(ns, acts) && NetInv(ns[0]) && i < |ns|
    ensures NetInv(ns[i])
  {
    if i > 0 {
      NetRunsInv(ns, acts, i - 1);
      NetRunStep(ns, acts, i - 1);
    }
  }

  lemma NetRunStep(ns: seq<Net>, acts: seq<Act>, i: nat)
    requires IsNetRun(ns, acts) && i < |acts| && NetInv(ns[i])
    ensures NetInv(ns[i + 1])
  {
    ActKeeps(ns[i], acts[i], ns[i + 1]);
  }

  /**
   No lost wakeup, in every interleaving: a thread blocked in channel `recv` with a message queued or the peer
   closed, in interrupt `wait` with a newer count, or in process `wait` after the exit, has an unpark on its
   way, or is still on the waiter list a notifier is about to take (never the case for channels).
   */
  lemma NoLostWakeup(ns: seq<Net>, acts: seq<Act>, i: nat, t: Tid)
    requires IsNetRun(ns, acts) && NetInv(ns[0]) && i < |ns|
    requires PcOf(ns[i], t).Parked? && IsBlocked(ns[i], t) && Ready(ns[i], PcOf(ns[i], t).src, PcOf(ns[i], t).seen)
    ensures var n, src := ns[i], PcOf(ns[i], t).src;
            t in n.pending || (!src.End? && src in n.notifying && t in Waiting(n, src))
  {
    NetRunsInv(ns, acts, i);
    assert PcOk(ns[i], t);
  }

  /** No lost wakeup from boot on: the scheduler as it boots, nobody in a blocking call, any objects. */
  lemma BootNoLostWakeup(ns: seq<Net>, acts: seq<Act>, i: nat, t: Tid)
    requires IsNetRun(ns, acts) && ns[0].q == Boot() && ns[0].pcs == map[] && i < |ns|
    requires PcOf(ns[i], t).Parked? && IsBlocked(ns[i], t) && Ready(ns[i], PcOf(ns[i], t).src, PcOf(ns[i], t).seen)
    ensures var n, src := ns[i], PcOf(ns[i], t).src;
            t in n.pending || (!src.End? && src in n.notifying && t in Waiting(n, src))
  {
    BootPlaced();
    BootNetInv(ns[0]);
    hide NetInv, Boot;
    NoLostWakeup(ns, acts, i, t);
  }

  /** Once every notifier has finished and every unpark has arrived, no thread sleeps through its condition. */
  lemma QuietMeansAwake(ns: seq<Net>, acts: seq<Act>, i: nat, t: Tid)
    requires IsNetRun(ns, acts) && NetInv(ns[0]) && i < |ns|
    requires ns[i].pending == multiset{} && ns[i].notifying == multiset{}
    requires PcOf(ns[i], t).Parked? && IsBlocked(ns[i], t)
    ensures !Ready(ns[i], PcOf(ns[i], t).src, PcOf(ns[i], t).seen)
  {
    NetRunsInv(ns, acts, i);
    assert PcOk(ns[i], t);
  }

  /** A thread blocked in `join` waits for a thread that has not finished and will wake it. */
  lemma JoinersAreWoken(ns: seq<Net>, acts: seq<Act>, i: nat, t: Tid)
    requires IsNetRun(ns, acts) && NetInv(ns[0]) && i < |ns|
    requires PcOf(ns[i], t).Joining? && IsBlocked(ns[i], t)
    ensures JoinedTo(ns[i].q, t, PcOf(ns[i], t).target)
  {
    NetRunsInv(ns, acts, i);
    assert PcOk(ns[i], t);
  }
}
