/**
 What a throttled process gets from the scheduler: no thread of it is given a CPU, and one that has a CPU
 loses it at the next tick there, of any kind.
 */
module Throttling {
  import opened Sched
  import opened Placement
  import opened Dispatch
  import opened Machine

  ghost predicate ThrottledThread(q: Queues, t: Tid, throttled: set<Pid>)
    requires t in q.threads
  {
    q.threads[t].process.Some? && q.threads[t].process.value in throttled
  }

  /** The thread on `c` belongs to no throttled process. */
  ghost predicate FairOn(r: Queues, c: Cpu) {
    c in r.running && r.running[c] in r.threads && !ThrottledThread(r, r.running[c], r.throttled)
  }

  ghost function ThrottledBy(q: Queues, s: Step): set<Pid> {
    match s
    case DoTick(_, _, mark, _) => q.throttled + mark
    case DoQuota(throttled) => throttled
    case _ => q.throttled
  }

  /** What the scheduler makes of throttles in one step. */
  ghost predicate Orderly(q: Queues, s: Step, r: Queues) {
    && r.throttled == ThrottledBy(q, s)
    && (HandsOver(q, r) ==> FairOn(r, r.lock.cpu))
    && (s.DoTick? ==>
          && (HandsOver(q, r) ==> r.lock.cpu == s.cpu)
          && (EvictedAt(q, s.cpu, r.throttled) ==> HandsOver(q, r)))
  }

  /** The thread on `c` belongs to a process in `throttled`. */
  ghost predicate EvictedAt(q: Queues, c: Cpu, throttled: set<Pid>) {
    c in q.running && q.running[c] in q.threads && ThrottledThread(q, q.running[c], throttled)
  }

  // ---------------------------------------------------------------- a decision

  /** A decision on `c`: whoever is given the CPU is of no throttled process, and one that is not idle gives it up. */
  ghost predicate Left(q: Queues, r: Queues, c: Cpu)
    requires c in q.running && q.running[c] in q.threads
  {
    && r.throttled == q.throttled
    && (r.lock.Leaving? ==> r.lock.cpu == c && FairOn(r, c))
    && (!q.threads[q.running[c]].isIdle ==> r.lock.Leaving?)
  }

  lemma NextIsFair(q: Queues, c: Cpu)
    requires Known(q) && IdlesMatch(q) && c in q.running
    ensures Next(q, c) in q.threads && !ThrottledThread(q, Next(q, c), q.throttled)
  {
    hide FirstFrom;
  }

  lemma SwapIsFair(q: Queues, c: Cpu, st: State, next: Tid, rest: seq<Tid>)
    requires c in q.running && q.running[c] in q.threads && next in q.threads
    requires !ThrottledThread(q, next, q.throttled)
    ensures var r := Swap(q, c, st, next, rest); r.throttled == q.throttled && r.lock == Leaving(c) && FairOn(r, c)
  {
  }

  lemma LeaveLeft(q: Queues, c: Cpu, st: State)
    requires Placed(q) && CanLeave(q, c, st)
    ensures q.running[c] in q.threads && Left(q, Leave(q, c, st), c)
  {
    hide QueuesMatch, CpusMatch, IdlesMatch, SwitchMatch, LivesMatch, PickNext, Next, Rest, Swap, Known;
    RunningKnown(q, c);
    NextIsFair(q, c);
    LeaveShape(q, c, st);
    if Next(q, c) != q.running[c] {
      SwapIsFair(q, c, st, Next(q, c), Rest(q, c));
    }
  }

  // ---------------------------------------------------------------- every step

  lemma LeftOrderly(q: Queues, s: Step, m: Queues, r: Queues, c: Cpu)
    requires c in m.running && m.running[c] in m.threads && Left(m, r, c)
    requires m.throttled == ThrottledBy(q, s) && !s.DoTick?
    ensures Orderly(q, s, r)
  {
    hide FairOn;
  }

  lemma UnswitchedOrderly(q: Queues, s: Step, r: Queues)
    requires r.throttled == ThrottledBy(q, s) && !s.DoTick? && !HandsOver(q, r)
    ensures Orderly(q, s, r)
  {
  }

  lemma LeaveStepOrderly(q: Queues, s: Step, c: Cpu, st: State)
    requires Placed(q) && CanLeave(q, c, st) && (s.DoYield? || s.DoExit? || s.DoPark?)
    ensures Orderly(q, s, Leave(q, c, st))
  {
    hide QueuesMatch, CpusMatch, IdlesMatch, SwitchMatch, LivesMatch, Leave, Left, Known, Orderly;
    LeaveLeft(q, c, st);
    LeftOrderly(q, s, q, Leave(q, c, st), c);
  }

  lemma SleepOrderly(q: Queues, s: Step)
    requires Placed(q) && s.DoSleep? && Enabled(q, s)
    ensures Orderly(q, s, Sleep(q, s.cpu, s.wakeAt))
  {
    hide QueuesMatch, CpusMatch, IdlesMatch, SwitchMatch, LivesMatch, Leave, Left, Known, Orderly;
    var c, t := s.cpu, q.running[s.cpu];
    RunningKnown(q, c);
    if q.threads[t].isIdle {
      UnswitchedOrderly(q, s, q);
    } else {
      var m := SetWakeAt(q, t, s.wakeAt);
      SetWakeAtPlaced(q, t, s.wakeAt);
      LeaveLeft(m, c, Sleeping);
      LeftOrderly(q, s, m, Leave(m, c, Sleeping), c);
    }
  }

  lemma JoinOrderly(q: Queues, s: Step)
    requires Placed(q) && s.DoJoin? && Enabled(q, s)
    ensures Orderly(q, s, Join(q, s.cpu, s.tid))
  {
    hide QueuesMatch, CpusMatch, IdlesMatch, SwitchMatch, LivesMatch, Leave, Left, Known, Orderly, AddWaiter;
    var c, t := s.cpu, s.tid;
    JoinTarget(q, c, t);
    if JoinBlocks(q, c, t) {
      var m := AddWaiter(q, t, q.running[c]);
      AddWaiterPlaced(q, t, q.running[c]);
      AddWaiterSame(q, t, q.running[c]);
      LeaveLeft(m, c, Blocked);
      LeftOrderly(q, s, m, Leave(m, c, Blocked), c);
    } else {
      UnswitchedOrderly(q, s, q);
    }
  }

  lemma AddWaiterSame(q: Queues, u: Tid, w: Tid)
    requires u in q.threads && w in q.threads
    ensures var m := AddWaiter(q, u, w);
            && m.running == q.running && m.lock == q.lock && m.throttled == q.throttled
            && w in m.threads && m.threads[w].isIdle == q.threads[w].isIdle
  {
  }

  lemma IpiOrderly(q: Queues, s: Step)
    requires Placed(q) && s.DoIpi? && Enabled(q, s)
    ensures Orderly(q, s, Ipi(q, s.cpu))
  {
    hide QueuesMatch, CpusMatch, IdlesMatch, SwitchMatch, LivesMatch, Leave, Left, Known, Orderly, HasWork, NormalReady;
    RunningKnown(q, s.cpu);
    LeaveLeft(q, s.cpu, Ready);
    LeftOrderly(q, s, q, Leave(q, s.cpu, Ready), s.cpu);
    UnswitchedOrderly(q, s, q);
  }

  /** The decision of a tick: a thread that is of a throttled process by now leaves, whatever waits. */
  lemma DecideLeft(w: Queues, c: Cpu, mark: set<Pid>)
    requires Placed(w) && c in w.running && w.lock.Free?
    ensures var m, r := w.(throttled := w.throttled + mark), Decide(w, c, mark);
            && r.throttled == m.throttled && w.running[c] in w.threads
            && (r.lock.Leaving? ==> r.lock.cpu == c && FairOn(r, c))
            && (ThrottledThread(w, w.running[c], m.throttled) ==> r.lock.Leaving?)
  {
    hide QueuesMatch, CpusMatch, IdlesMatch, SwitchMatch, LivesMatch, Leave, Known, HasWork, NormalReady, FairOn;
    var m := w.(throttled := w.throttled + mark);
    IdleUnowned(w, c);
    MarkedPlaced(w, mark);
    LeaveLeft(m, c, Ready);
  }

  lemma MarkedPlaced(q: Queues, mark: set<Pid>)
    requires Placed(q)
    ensures Placed(q.(throttled := q.throttled + mark))
  {
    hide QueuesMatch, CpusMatch, IdlesMatch, SwitchMatch, LivesMatch, Known;
    SameLivesPlaced(q, q.(throttled := q.throttled + mark));
  }

  lemma IdleUnowned(q: Queues, c: Cpu)
    requires Known(q) && IdlesMatch(q) && c in q.running
    ensures q.running[c] in q.threads && (q.threads[q.running[c]].isIdle ==> q.threads[q.running[c]].process.None?)
  {
  }

  lemma TickOrderly(q: Queues, s: Step)
    requires Placed(q) && s.DoTick? && Enabled(q, s)
    ensures Orderly(q, s, Tick(q, s.cpu, s.boundary, s.mark, s.now))
  {
    hide QueuesMatch, CpusMatch, IdlesMatch, SwitchMatch, LivesMatch, Known, Decide, TickWake, FairOn;
    var w := TickWake(q, s.cpu, s.boundary, s.now);
    TickWakePlaced(q, s.cpu, s.boundary, s.now);
    TickWakeEligibility(q, s.cpu, s.boundary, s.now);
    DecideLeft(w, s.cpu, s.mark);
  }

  lemma FinishOrderly(q: Queues, s: Step)
    requires Placed(q) && s.DoFinish? && Enabled(q, s)
    ensures s.cpu in q.prev && Orderly(q, s, Finish(q, s.cpu))
  {
    hide QueuesMatch, CpusMatch, IdlesMatch, SwitchMatch, LivesMatch, Known, Orderly, WakeWaiters;
    FinishPlaced(q, s.cpu);
    BuryPlaced(q, s.cpu);
    WakeWaitersFrame(Bury(q, s.cpu), Mourners(q, s.cpu));
    UnswitchedOrderly(q, s, Finish(q, s.cpu));
  }

  lemma RegionOrderly(q: Queues, s: Step)
    requires Placed(q) && Enabled(q, s) && (s.DoSleep? || s.DoJoin? || s.DoTick? || s.DoIpi? || s.DoFinish?)
    ensures Orderly(q, s, After(q, s))
  {
    hide Known, QueuesMatch, CpusMatch, IdlesMatch, SwitchMatch, LivesMatch, Sleep, Join, Tick, Ipi, Finish, Orderly;
    match s
    case DoSleep(_, _) => SleepOrderly(q, s);
    case DoJoin(_, _) => JoinOrderly(q, s);
    case DoTick(_, _, _, _) => TickOrderly(q, s);
    case DoIpi(_) => IpiOrderly(q, s);
    case DoFinish(_) => FinishOrderly(q, s);
  }

  lemma LeavingOrderly(q: Queues, s: Step)
    requires Placed(q) && Enabled(q, s) && (s.DoYield? || s.DoExit? || s.DoPark?)
    ensures Orderly(q, s, After(q, s))
  {
    hide QueuesMatch, CpusMatch, IdlesMatch, SwitchMatch, LivesMatch, Known, Leave, Orderly;
    match s
    case DoYield(c) => LeaveStepOrderly(q, s, c, Ready);
    case DoExit(c) => LeaveStepOrderly(q, s, c, Dying);
    case DoPark(c) =>
      ParkCanLeave(q, c);
      LeaveStepOrderly(q, s, c, Blocked);
  }

  lemma QuietOrderly(q: Queues, s: Step)
    requires Placed(q) && Enabled(q, s)
    requires || s.DoSpawn? || s.DoOnline? || s.EnterPark? || s.DoLand? || s.DoUnpark? || s.DoReap? || s.DoFreeStack?
             || s.DoAttributes? || s.DoQuota?
    ensures Orderly(q, s, After(q, s))
  {
    hide Known, QueuesMatch, CpusMatch, IdlesMatch, SwitchMatch, LivesMatch, AllCpus, Without, Orderly;
    UnswitchedOrderly(q, s, After(q, s));
  }

  /** Every step is orderly: throttles change only at ticks and window closes, and are obeyed from then on. */
  lemma StepOrderly(q: Queues, s: Step)
    requires Placed(q) && Enabled(q, s)
    ensures Orderly(q, s, After(q, s))
  {
    hide *;
    match s
    case DoYield(_) => LeavingOrderly(q, s);
    case DoExit(_) => LeavingOrderly(q, s);
    case DoPark(_) => LeavingOrderly(q, s);
    case DoSleep(_, _) => RegionOrderly(q, s);
    case DoJoin(_, _) => RegionOrderly(q, s);
    case DoTick(_, _, _, _) => RegionOrderly(q, s);
    case DoIpi(_) => RegionOrderly(q, s);
    case DoFinish(_) => RegionOrderly(q, s);
    case _ => QuietOrderly(q, s);
  }
}
