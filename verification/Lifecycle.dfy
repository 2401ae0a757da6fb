/**
 The life of a thread across every scheduler step: which state changes are possible, who can
 become blocked, and that a thread that left for good is never dispatched again.
 */
module Lifecycle {
  import opened Sched
  import opened Placement

  /** The state changes one step may make (a due sleeper can be woken and dispatched by the same tick). */
  predicate Legal(a: State, b: State) {
    || a == b
    || (a == Ready && b == Running)
    || (a == Running && b in {Ready, Sleeping, Blocked, Dying})
    || (a == Sleeping && b in {Ready, Running})
    || (a == Blocked && b == Ready)
    || (a == Dying && b == Dead)
  }

  lemma SwapStates(q: Queues, c: Cpu, st: State, next: Tid, rest: seq<Tid>, t: Tid)
    requires CanSwap(q, c, st, next, rest) && t in q.threads
    ensures var r := Swap(q, c, st, next, rest);
            && t in r.threads
            && r.threads[t].waiters == q.threads[t].waiters
            && r.threads[t].state ==
                 if t == next then Running else if t == q.running[c] then st else q.threads[t].state
  {
  }

  /** A decision changes two states at most: the current thread's to `st`, the chosen one's to running. */
  lemma LeaveStates(q: Queues, c: Cpu, st: State, t: Tid)
    requires Known(q) && QueuesMatch(q) && CpusMatch(q) && IdlesMatch(q) && CanLeave(q, c, st) && t in q.threads
    ensures var r, next, cur := Leave(q, c, st), Next(q, c), q.running[c];
            && t in r.threads && r.threads[t].waiters == q.threads[t].waiters
            && r.threads[t].state ==
                 if next == cur then q.threads[t].state
                 else if t == next then Running
                 else if t == cur then st
                 else q.threads[t].state
    ensures q.threads[q.running[c]].state == Running
    ensures Next(q, c) != q.running[c] ==> q.threads[Next(q, c)].state == Ready
    ensures Next(q, c) == q.running[c] ==> q.threads[q.running[c]].isIdle
  {
    hide PickNext, Next, Rest, Known, QueuesMatch, CpusMatch, IdlesMatch;
    CurrentRuns(q, c);
    LeaveShape(q, c, st);
    if Next(q, c) != q.running[c] {
      SwapStates(q, c, st, Next(q, c), Rest(q, c), t);
    }
  }

  /** The lock-held regions that end in a scheduling decision: what they leave the current thread as. */
  lemma TickStates(q: Queues, c: Cpu, boundary: bool, mark: set<Pid>, now: nat, t: Tid)
    requires Placed(q) && c in q.running && q.lock.Free? && t in q.threads
    ensures var r := Tick(q, c, boundary, mark, now);
            && t in r.threads && r.threads[t].waiters == q.threads[t].waiters
            && Legal(q.threads[t].state, r.threads[t].state)
            && (r.threads[t].state == Blocked <==> q.threads[t].state == Blocked)
            && (r.threads[t].state == Dead <==> q.threads[t].state == Dead)
  {
    hide Leave, Next, PickNext, TickWake, QueuesMatch, CpusMatch, IdlesMatch, SwitchMatch, LivesMatch;
    var w := TickWake(q, c, boundary, now);
    TickWakePlaced(q, c, boundary, now);
    TickWakeStates(q, c, boundary, now, t);
    DecidePlaced(w, c, mark);
    var m := w.(throttled := w.throttled + mark);
    if Preempts(w, c, m.throttled) {
      LeaveStates(m, c, Ready, t);
    }
  }

  lemma TickWakeStates(q: Queues, c: Cpu, boundary: bool, now: nat, t: Tid)
    requires Known(q) && QueuesMatch(q) && c in q.running && t in q.threads
    ensures var w := TickWake(q, c, boundary, now);
            && t in w.threads && w.threads[t].waiters == q.threads[t].waiters
            && (w.threads[t].state == q.threads[t].state
                || (q.threads[t].state == Sleeping && w.threads[t].state == Ready))
  {
    WakeDueStates(q, now, t);
    WakeDueFrame(q, 0, now);
    hide WakeDue, QueuesMatch;
  }

  lemma WakeDueStates(q: Queues, now: nat, t: Tid)
    requires Known(q) && QueuesMatch(q) && t in q.threads
    ensures var w := WakeDue(q, 0, now);
            && t in w.threads && w.threads[t].waiters == q.threads[t].waiters
            && (w.threads[t].state == q.threads[t].state
                || (q.threads[t].state == Sleeping && w.threads[t].state == Ready))
  {
    WakeDueFrame(q, 0, now);
    hide WakeDue, Known;
  }

  lemma CurrentRuns(q: Queues, c: Cpu)
    requires CpusMatch(q) && c in q.running
    ensures q.running[c] in q.threads && q.threads[q.running[c]].state == Running
  {
  }

  lemma FinishStates(q: Queues, c: Cpu, t: Tid)
    requires Placed(q) && q.lock == Arrived(c) && t in q.threads
    ensures c in q.prev
    ensures var r := Finish(q, c);
            && t in r.threads
            && (q.threads[t].state != Dying ==> r.threads[t].waiters == q.threads[t].waiters)
            && (q.threads[t].state == Dying ==> q.prev[c] == t)
            && r.threads[t].state ==
                 if q.threads[t].state == Dying then Dead
                 else if q.threads[t].state == Blocked && t in Mourners(q, c) then Ready
                 else q.threads[t].state
  {
    hide Known, CpusMatch, IdlesMatch, LivesMatch, QueuesMatch, SwitchMatch, Mourners, Bury;
    OutgoingIs(q, c, t);
    BuryPlaced(q, c);
    BuryStates(q, c, t);
    WakeWaitersFrame(Bury(q, c), Mourners(q, c));
  }

  lemma BuryStates(q: Queues, c: Cpu, t: Tid)
    requires Known(q) && SwitchMatch(q) && q.lock == Arrived(c) && t in q.threads
    ensures t in Bury(q, c).threads
    ensures Bury(q, c).threads[t].state == if q.threads[t].state == Dying then Dead else q.threads[t].state
    ensures q.threads[t].state != Dying ==> Bury(q, c).threads[t].waiters == q.threads[t].waiters
    ensures q.threads[t].state == Dying ==> q.prev[c] == t
  {
    hide Known, SwitchMatch;
    OutgoingIs(q, c, t);
  }

  lemma OutgoingIs(q: Queues, c: Cpu, t: Tid)
    requires SwitchMatch(q) && q.lock == Arrived(c) && t in q.threads
    ensures c in q.prev && q.prev[c] in q.threads && (q.threads[t].state == Dying ==> q.prev[c] == t)
  {
  }

  /** Who blocks at this step: the caller of `park_with` or of a `join` that waits. */
  ghost predicate Blocks(q: Queues, s: Step, t: Tid)
    requires Known(q)
  {
    || (s.DoPark? && s.cpu in q.running && q.running[s.cpu] == t)
    || (s.DoJoin? && s.cpu in q.running && q.running[s.cpu] == t && JoinBlocks(q, s.cpu, s.tid))
  }

  /** Who is woken from a block at this step. */
  ghost predicate Wakes(q: Queues, s: Step, t: Tid)
    requires Known(q)
  {
    || (s.DoUnpark? && s.tid == t && t in q.all)
    || (s.DoFinish? && s.cpu in q.prev && t in Mourners(q, s.cpu))
  }

  /**
   `t` stays on the legal life line and blocks or wakes only where stated; it dies only when the CPU it left
   finishes the switch, and until then nobody leaves its list of waiters.
   */
  ghost predicate StatesFollow(q: Queues, s: Step, r: Queues, t: Tid)
    requires Known(q) && t in q.threads
  {
    && t in r.threads && Legal(q.threads[t].state, r.threads[t].state)
    && (r.threads[t].state == Blocked <==>
          (q.threads[t].state == Blocked && !Wakes(q, s, t)) || Blocks(q, s, t))
    && (r.threads[t].state == Dead && q.threads[t].state != Dead ==>
          s.DoFinish? && s.cpu in q.prev && q.prev[s.cpu] == t && q.threads[t].state == Dying)
    && (r.threads[t].state != Dead ==> forall w :: w in q.threads[t].waiters ==> w in r.threads[t].waiters)
  }

  /** `t` advances along the life line, but neither into nor out of a block, nor to its death. */
  ghost predicate Advances(q: Queues, r: Queues, t: Tid)
    requires t in q.threads
  {
    && t in r.threads && Legal(q.threads[t].state, r.threads[t].state)
    && (r.threads[t].state == Blocked <==> q.threads[t].state == Blocked)
    && (r.threads[t].state == Dead <==> q.threads[t].state == Dead)
    && r.threads[t].waiters == q.threads[t].waiters
  }

  lemma LegalFollows(q: Queues, s: Step, r: Queues, t: Tid)
    requires Known(q) && t in q.threads && Advances(q, r, t)
    requires !s.DoPark? && !s.DoJoin? && !s.DoUnpark? && !s.DoFinish?
    ensures StatesFollow(q, s, r, t)
  {
    hide Known;
  }

  lemma TickFollows(q: Queues, s: Step, t: Tid)
    requires Placed(q) && s.DoTick? && Enabled(q, s) && t in q.threads
    ensures StatesFollow(q, s, Tick(q, s.cpu, s.boundary, s.mark, s.now), t)
  {
    TickStates(q, s.cpu, s.boundary, s.mark, s.now, t);
  }

  lemma YieldFollows(q: Queues, s: Step, t: Tid)
    requires Placed(q) && s.DoYield? && Enabled(q, s) && t in q.threads
    ensures StatesFollow(q, s, Leave(q, s.cpu, Ready), t)
  {
    hide Leave, Next, PickNext, QueuesMatch, CpusMatch, IdlesMatch, SwitchMatch, LivesMatch;
    LeaveStates(q, s.cpu, Ready, t);
  }

  lemma ExitFollows(q: Queues, s: Step, t: Tid)
    requires Placed(q) && s.DoExit? && Enabled(q, s) && t in q.threads
    ensures StatesFollow(q, s, Leave(q, s.cpu, Dying), t)
  {
    hide Leave, Next, PickNext, QueuesMatch, CpusMatch, IdlesMatch, SwitchMatch, LivesMatch;
    LeaveStates(q, s.cpu, Dying, t);
  }

  lemma ParkFollows(q: Queues, s: Step, t: Tid)
    requires Placed(q) && s.DoPark? && Enabled(q, s) && t in q.threads
    ensures StatesFollow(q, s, Leave(q, s.cpu, Blocked), t)
  {
    hide Leave, Next, PickNext, QueuesMatch, CpusMatch, IdlesMatch, LivesMatch;
    LeaveStates(q, s.cpu, Blocked, t);
  }

  lemma SleepFollows(q: Queues, s: Step, t: Tid)
    requires Placed(q) && s.DoSleep? && Enabled(q, s) && t in q.threads
    ensures StatesFollow(q, s, Sleep(q, s.cpu, s.wakeAt), t)
  {
    hide Known, Sleep, StatesFollow, QueuesMatch, CpusMatch, IdlesMatch, SwitchMatch, LivesMatch;
    SleepMoves(q, s.cpu, s.wakeAt, t);
    LegalFollows(q, s, Sleep(q, s.cpu, s.wakeAt), t);
  }

  lemma SleepMoves(q: Queues, c: Cpu, wakeAt: nat, t: Tid)
    requires Placed(q) && q.lock.Free? && c in q.running && t in q.threads
    ensures Advances(q, Sleep(q, c, wakeAt), t)
  {
    assert q.running[c] in q.threads;
    hide Known, Leave, QueuesMatch, CpusMatch, IdlesMatch, SwitchMatch, LivesMatch, SetWakeAt, Advances;
    if q.threads[q.running[c]].isIdle {
      StaysPut(q, t);
    } else {
      SleepLeaves(q, c, wakeAt, t);
    }
  }

  lemma StaysPut(q: Queues, t: Tid)
    requires t in q.threads
    ensures Advances(q, q, t)
  {
  }

  lemma SleepLeaves(q: Queues, c: Cpu, wakeAt: nat, t: Tid)
    requires Placed(q) && q.lock.Free? && c in q.running && t in q.threads
    requires q.running[c] in q.threads && !q.threads[q.running[c]].isIdle
    ensures Advances(q, Sleep(q, c, wakeAt), t)
  {
    hide Known, Leave, Next, PickNext, QueuesMatch, CpusMatch, IdlesMatch, SwitchMatch, LivesMatch, SetWakeAt, Advances;
    var cur := q.running[c];
    var m := SetWakeAt(q, cur, wakeAt);
    SetWakeAtPlaced(q, cur, wakeAt);
    SetWakeAtStates(q, cur, wakeAt, c, t);
    SetWakeAtStates(q, cur, wakeAt, c, cur);
    LeaveStates(m, c, Sleeping, t);
    SetWakeAtNext(q, cur, wakeAt, c);
    SetWakeAtStates(q, cur, wakeAt, c, Next(m, c));
    SwapMoves(q, Leave(m, c, Sleeping), cur, Next(m, c), t);
  }

  lemma SwapMoves(q: Queues, r: Queues, cur: Tid, next: Tid, t: Tid)
    requires t in q.threads && cur in q.threads && next in q.threads && t in r.threads
    requires q.threads[cur].state == Running && q.threads[next].state == Ready
    requires r.threads[t].state == if t == next then Running else if t == cur then Sleeping else q.threads[t].state
    requires r.threads[t].waiters == q.threads[t].waiters
    ensures Advances(q, r, t)
  {
  }

  /** The deadline changes nothing that decides who runs next. */
  lemma SetWakeAtNext(q: Queues, u: Tid, wakeAt: nat, c: Cpu)
    requires Known(q) && u in q.threads && c in q.running
    ensures var r := SetWakeAt(q, u, wakeAt);
            && Known(r) && r.running == q.running && Next(r, c) in q.threads && Next(r, c) in r.threads
  {
    SetWakeAtKnown(q, u, wakeAt);
    hide Known, Next;
    NextKnown(SetWakeAt(q, u, wakeAt), c);
  }

  lemma SetWakeAtStates(q: Queues, u: Tid, wakeAt: nat, c: Cpu, t: Tid)
    requires Known(q) && u in q.threads && t in q.threads && c in q.running && q.lock.Free?
    requires !q.threads[q.running[c]].isIdle
    ensures var r := SetWakeAt(q, u, wakeAt);
            && t in r.threads && r.threads[t].state == q.threads[t].state && r.running == q.running
            && r.threads[t].waiters == q.threads[t].waiters && r.threads[t].isIdle == q.threads[t].isIdle
            && CanLeave(r, c, Sleeping)
  {
    SetWakeAtKnown(q, u, wakeAt);
  }

  /** The caller of a `join` that waits is blocked, `next` runs, and the other threads are as they were. */
  ghost predicate Joined(q: Queues, r: Queues, cur: Tid, next: Tid, t: Tid)
    requires t in q.threads
  {
    && t in r.threads
    && r.threads[t].state == (if t == next then Running else if t == cur then Blocked else q.threads[t].state)
    && forall x :: x in q.threads[t].waiters ==> x in r.threads[t].waiters
  }

  lemma JoinWaits(q: Queues, c: Cpu, u: Tid, t: Tid) returns (next: Tid)
    requires Placed(q) && q.lock.Free? && c in q.running && JoinBlocks(q, c, u) && t in q.threads
    ensures Joined(q, Join(q, c, u), q.running[c], next, t)
    ensures next in q.threads && q.threads[next].state == Ready && q.threads[q.running[c]].state == Running
  {
    JoinTarget(q, c, u);
    hide AddWaiter, Known, Leave, Next, PickNext, QueuesMatch, CpusMatch, IdlesMatch, SwitchMatch, LivesMatch;
    var cur := q.running[c];
    var m := AddWaiter(q, u, cur);
    AddWaiterPlaced(q, u, cur);
    AddWaiterStates(q, u, cur, c, t);
    AddWaiterStates(q, u, cur, c, cur);
    AddWaiterIdle(q, u, cur, cur);
    LeaveStates(m, c, Blocked, t);
    next := Next(m, c);
    AddWaiterKeys(q, u, cur);
    NextKnown(m, c);
    AddWaiterStates(q, u, cur, c, next);
  }

  lemma AddWaiterKeys(q: Queues, u: Tid, w: Tid)
    requires u in q.threads
    ensures AddWaiter(q, u, w).threads.Keys == q.threads.Keys
  {
  }

  lemma JoinFollows(q: Queues, s: Step, t: Tid)
    requires Placed(q) && s.DoJoin? && Enabled(q, s) && t in q.threads
    ensures StatesFollow(q, s, Join(q, s.cpu, s.tid), t)
  {
    hide Known, Leave, Next, PickNext, QueuesMatch, CpusMatch, IdlesMatch, SwitchMatch, LivesMatch, AddWaiter;
    if JoinBlocks(q, s.cpu, s.tid) {
      var next := JoinWaits(q, s.cpu, s.tid, t);
    }
  }

  /** A `join` that waits leaves its caller registered with a target that is still alive. */
  lemma JoinRegisters(q: Queues, c: Cpu, u: Tid)
    requires Placed(q) && q.lock.Free? && c in q.running && JoinBlocks(q, c, u)
    ensures var r := Join(q, c, u);
            u in r.threads && r.threads[u].state != Dead && q.running[c] in r.threads[u].waiters
  {
    JoinTarget(q, c, u);
    hide Leave, Next, PickNext, QueuesMatch, CpusMatch, IdlesMatch, SwitchMatch, LivesMatch, AddWaiter;
    var m := AddWaiter(q, u, q.running[c]);
    AddWaiterPlaced(q, u, q.running[c]);
    AddWaiterStates(q, u, q.running[c], c, u);
    LeaveStates(m, c, Blocked, u);
  }

  lemma AddWaiterStates(q: Queues, u: Tid, w: Tid, c: Cpu, t: Tid)
    requires Known(q) && u in q.threads && w in q.threads && t in q.threads && c in q.running && q.lock.Free?
    requires !q.threads[q.running[c]].isIdle
    ensures var r := AddWaiter(q, u, w);
            && t in r.threads && r.threads[t].state == q.threads[t].state && r.running == q.running
            && (forall x :: x in q.threads[t].waiters ==> x in r.threads[t].waiters)
            && w in r.threads[u].waiters
            && CanLeave(r, c, Blocked)
  {
    hide Known;
    RunningKnown(q, c);
    AddWaiterKnown(q, u, w);
    AddWaiterIdle(q, u, w, q.running[c]);
  }

  lemma AddWaiterIdle(q: Queues, u: Tid, w: Tid, t: Tid)
    requires u in q.threads && t in q.threads
    ensures AddWaiter(q, u, w).threads[t].isIdle == q.threads[t].isIdle
  {
  }

  lemma IpiFollows(q: Queues, s: Step, t: Tid)
    requires Placed(q) && s.DoIpi? && Enabled(q, s) && t in q.threads
    ensures StatesFollow(q, s, Ipi(q, s.cpu), t)
  {
    hide Next, PickNext, Leave, QueuesMatch, CpusMatch, IdlesMatch, SwitchMatch, LivesMatch;
    if Ipi(q, s.cpu) != q {
      LeaveStates(q, s.cpu, Ready, t);
    }
  }

  lemma FinishFollows(q: Queues, s: Step, t: Tid)
    requires Placed(q) && s.DoFinish? && Enabled(q, s) && t in q.threads
    ensures s.cpu in q.prev && StatesFollow(q, s, Finish(q, s.cpu), t)
  {
    FinishStates(q, s.cpu, t);
  }

  lemma UnparkFollows(q: Queues, s: Step, t: Tid)
    requires Known(q) && s.DoUnpark? && t in q.threads
    ensures StatesFollow(q, s, Unpark(q, s.tid), t)
  {
    hide Known;
    RegisteredKnown(q, s.tid);
  }

  /** Every step keeps every thread on the legal life line, and blocking and waking happen only where stated. */
  lemma StepStates(q: Queues, s: Step, t: Tid)
    requires Placed(q) && Enabled(q, s) && t in q.threads
    ensures StatesFollow(q, s, After(q, s), t)
  {
    hide QueuesMatch, CpusMatch, IdlesMatch, SwitchMatch, LivesMatch, Leave, Tick, Join, Sleep, Ipi, Finish, Unpark;
    if s.DoTick? { TickFollows(q, s, t); }
    else if s.DoYield? { YieldFollows(q, s, t); }
    else if s.DoExit? { ExitFollows(q, s, t); }
    else if s.DoPark? { ParkFollows(q, s, t); }
    else if s.DoSleep? { SleepFollows(q, s, t); }
    else if s.DoJoin? { JoinFollows(q, s, t); }
    else if s.DoIpi? { IpiFollows(q, s, t); }
    else if s.DoFinish? { FinishFollows(q, s, t); }
    else if s.DoUnpark? { UnparkFollows(q, s, t); }
    else { OtherFollows(q, s, t); }
  }

  lemma OtherFollows(q: Queues, s: Step, t: Tid)
    requires Placed(q) && Enabled(q, s) && t in q.threads
    requires || s.DoSpawn? || s.DoOnline? || s.DoAttributes? || s.EnterPark? || s.DoLand?
             || s.DoReap? || s.DoFreeStack? || s.DoQuota?
    ensures StatesFollow(q, s, After(q, s), t)
  {
    hide Known, Apply, Enabled, StatesFollow, QueuesMatch, CpusMatch, IdlesMatch, SwitchMatch, LivesMatch;
    OtherKeepsState(q, s, t);
    LegalFollows(q, s, After(q, s), t);
  }

  lemma OtherKeepsState(q: Queues, s: Step, t: Tid)
    requires Placed(q) && Enabled(q, s) && t in q.threads
    requires || s.DoSpawn? || s.DoOnline? || s.DoAttributes? || s.EnterPark? || s.DoLand?
             || s.DoReap? || s.DoFreeStack? || s.DoQuota?
    ensures var r := After(q, s);
            t in r.threads && r.threads[t].state == q.threads[t].state && r.threads[t].waiters == q.threads[t].waiters
  {
    hide *;
    if s.DoSpawn? || s.DoOnline? {
      NewcomerKeepsState(q, s, t);
    } else {
      QuietKeepsState(q, s, t);
    }
  }

  lemma NewcomerKeepsState(q: Queues, s: Step, t: Tid)
    requires Placed(q) && Enabled(q, s) && t in q.threads && (s.DoSpawn? || s.DoOnline?)
    ensures var r := After(q, s);
            t in r.threads && r.threads[t].state == q.threads[t].state && r.threads[t].waiters == q.threads[t].waiters
  {
    hide Known, QueuesMatch, CpusMatch, IdlesMatch, SwitchMatch, LivesMatch, AllCpus;
  }

  lemma QuietKeepsState(q: Queues, s: Step, t: Tid)
    requires Placed(q) && Enabled(q, s) && t in q.threads
    requires s.DoAttributes? || s.EnterPark? || s.DoLand? || s.DoReap? || s.DoFreeStack? || s.DoQuota?
    ensures var r := After(q, s);
            t in r.threads && r.threads[t].state == q.threads[t].state && r.threads[t].waiters == q.threads[t].waiters
  {
    hide Known, Enabled, QueuesMatch, CpusMatch, IdlesMatch, SwitchMatch, LivesMatch, Without;
  }

  ghost predicate Gone(q: Queues, t: Tid) {
    t in q.threads && (q.threads[t].state == Dying || q.threads[t].state == Dead)
  }

  lemma GoneNotRunning(q: Queues, t: Tid)
    requires CpusMatch(q) && Gone(q, t)
    ensures forall c :: c in q.running ==> q.running[c] != t
  {
  }

  lemma {:induction false} GoneForever(qs: seq<Queues>, ss: seq<Step>, i: nat, j: nat, t: Tid)
    requires IsRun(qs, ss) && Placed(qs[0]) && i <= j < |qs| && Gone(qs[i], t)
    ensures Gone(qs[j], t)
    decreases j - i
  {
    if i < j {
      StaysGone(qs, ss, i, t);
      GoneForever(qs, ss, i + 1, j, t);
    }
  }

  lemma StaysGone(qs: seq<Queues>, ss: seq<Step>, i: nat, t: Tid)
    requires IsRun(qs, ss) && Placed(qs[0]) && i < |ss| && Gone(qs[i], t)
    ensures Gone(qs[i + 1], t)
  {
    hide QueuesMatch, CpusMatch, IdlesMatch, SwitchMatch, LivesMatch;
    RunsArePlaced(qs, ss, i);
    StepStates(qs[i], ss[i], t);
  }

  /** A thread that called `exit` is never dispatched again, in any run. */
  lemma NeverRescheduled(qs: seq<Queues>, ss: seq<Step>, i: nat, j: nat, t: Tid)
    requires IsRun(qs, ss) && Placed(qs[0]) && i <= j < |qs| && Gone(qs[i], t)
    ensures forall c :: c in qs[j].running ==> qs[j].running[c] != t
  {
    RunsArePlaced(qs, ss, j);
    GoneForever(qs, ss, i, j, t);
    GoneNotRunning(qs[j], t);
  }
}
