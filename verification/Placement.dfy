/**
 Where every thread is, in every reachable state of the scheduler: once in the queue its state
 names, on exactly one CPU, or nowhere.  The parts of the invariant are kept by each lock-held
 region of `Sched`, including the states between the parts of a context switch.
 */
module Placement {
  import opened Seqs
  import opened Sched

  // ---------------------------------------------------------------- the invariant

  ghost predicate InSwitch(q: Queues) {
    q.lock.Leaving? || q.lock.Arrived?
  }

  /** Queue membership is decided by the state of the thread, and no queue lists a thread twice. */
  ghost predicate QueuesMatch(q: Queues) {
    && NoDup(q.all) && NoDup(q.runQueue) && NoDup(q.sleepers) && NoDup(q.dead)
    && (forall t :: t in q.threads ==> (t in q.runQueue <==> q.threads[t].state == Ready && !q.threads[t].isIdle))
    && (forall t :: t in q.threads ==> (t in q.sleepers <==> q.threads[t].state == Sleeping))
    && (forall t :: t in q.threads ==> (t in q.dead <==> q.threads[t].state == Dead && t in q.all))
    && (forall t :: t in q.threads && t !in q.all ==> q.threads[t].state == Dead)
  }

  /** A running thread is the current thread of exactly the CPU it last ran on. */
  ghost predicate CpusMatch(q: Queues) {
    && (forall c :: c in q.running ==>
          && q.running[c] in q.threads
          && q.threads[q.running[c]].state == Running
          && q.threads[q.running[c]].lastCpu == Some(c))
    && (forall t :: t in q.threads && q.threads[t].state == Running ==>
          && q.threads[t].lastCpu.Some?
          && q.threads[t].lastCpu.value in q.running
          && q.running[q.threads[t].lastCpu.value] == t)
  }

  /** Idle threads belong to no process, are only ever ready or running, and run only on their own CPU. */
  ghost predicate IdlesMatch(q: Queues) {
    && (forall c :: c in q.idle ==> q.idle[c] in q.threads && q.threads[q.idle[c]].isIdle)
    && (forall c, d :: c in q.idle && d in q.idle && q.idle[c] == q.idle[d] ==> c == d)
    && (forall t :: t in q.threads && q.threads[t].isIdle ==>
          && (q.threads[t].state == Ready || q.threads[t].state == Running)
          && q.threads[t].process.None?)
    && (forall c :: c in q.running && q.running[c] in q.threads && q.threads[q.running[c]].isIdle ==>
          c in q.idle && q.running[c] == q.idle[c])
  }

  /** While a switch is in progress its CPU alone has an outgoing thread, and only that one may be dying. */
  ghost predicate SwitchMatch(q: Queues) {
    && (InSwitch(q) ==>
          && q.lock.cpu in q.running
          && q.prev.Keys == {q.lock.cpu}
          && q.prev[q.lock.cpu] in q.threads
          && q.threads[q.prev[q.lock.cpu]].state != Running
          && q.threads[q.prev[q.lock.cpu]].state != Dead)
    && (!InSwitch(q) ==> q.prev == map[])
    && (q.lock.Entered? ==>
          && q.lock.cpu in q.running
          && q.running[q.lock.cpu] in q.threads
          && !q.threads[q.running[q.lock.cpu]].isIdle)
    && (forall t :: t in q.threads && q.threads[t].state == Dying ==> InSwitch(q) && q.prev[q.lock.cpu] == t)
    && (forall c :: c in q.running ==>
          c in q.stackOf && q.stackOf[c] == if q.lock == Leaving(c) then q.prev[c] else q.running[c])
  }

  /** Only dead threads are finished, waiter lists have no duplicates, and a registered thread keeps its stack. */
  ghost predicate LivesMatch(q: Queues) {
    && (forall t :: t in q.threads ==> (q.threads[t].finished <==> q.threads[t].state == Dead))
    && (forall t :: t in q.threads ==> NoDup(q.threads[t].waiters))
    && (forall t :: t in q.threads && q.threads[t].state == Dead ==> q.threads[t].waiters == [])
    && (forall t :: t in q.all ==> t in q.stacks && t !in q.reaping)
  }

  ghost predicate Placed(q: Queues) {
    Known(q) && QueuesMatch(q) && CpusMatch(q) && IdlesMatch(q) && SwitchMatch(q) && LivesMatch(q)
  }

  // ---------------------------------------------------------------- regions that no CPU notices

  /** Nothing a CPU can observe changes: no thread starts or stops running, dying or being dead. */
  ghost predicate Quiet(q: Queues, r: Queues) {
    && r.running == q.running && r.idle == q.idle && r.prev == q.prev
    && r.stackOf == q.stackOf && r.lock == q.lock
    && (forall t :: t in q.threads ==> t in r.threads)
    && (forall t :: t in r.threads ==> QuietThread(q, r, t))
  }

  ghost predicate QuietThread(q: Queues, r: Queues, t: Tid)
    requires t in r.threads
  {
    var b := r.threads[t];
    if t in q.threads then
      var a := q.threads[t];
      && b.isIdle == a.isIdle && b.lastCpu == a.lastCpu && b.finished == a.finished
      && (b.state == Running <==> a.state == Running)
      && (b.state == Dying <==> a.state == Dying)
      && (b.state == Dead <==> a.state == Dead)
      && (b.isIdle ==> b.state == a.state && b.process == a.process)
    else
      b.state == Ready && !b.isIdle && !b.finished
  }

  lemma QuietCpus(q: Queues, r: Queues)
    requires CpusMatch(q) && Quiet(q, r)
    ensures CpusMatch(r)
  {
    forall t | t in r.threads && r.threads[t].state == Running
      ensures r.threads[t].lastCpu.Some? && r.threads[t].lastCpu.value in r.running
           && r.running[r.threads[t].lastCpu.value] == t
    {
      assert QuietThread(q, r, t);
    }
    forall c | c in r.running
      ensures r.running[c] in r.threads && r.threads[r.running[c]].state == Running
           && r.threads[r.running[c]].lastCpu == Some(c)
    {
      assert QuietThread(q, r, r.running[c]);
    }
  }

  lemma QuietIdles(q: Queues, r: Queues)
    requires IdlesMatch(q) && CpusMatch(q) && Quiet(q, r)
    ensures IdlesMatch(r)
  {
    forall t | t in r.threads
      ensures QuietThread(q, r, t)
    {
    }
  }

  lemma QuietSwitch(q: Queues, r: Queues)
    requires SwitchMatch(q) && Quiet(q, r)
    ensures SwitchMatch(r)
  {
    forall t | t in r.threads
      ensures QuietThread(q, r, t)
    {
    }
  }

  lemma QuietPlaced(q: Queues, r: Queues)
    requires Placed(q) && Quiet(q, r) && Known(r) && QueuesMatch(r) && LivesMatch(r)
    ensures Placed(r)
  {
    QuietCpus(q, r);
    QuietIdles(q, r);
    QuietSwitch(q, r);
  }

  lemma MakeReadyPlaced(q: Queues, w: Tid)
    requires Placed(q) && w in q.threads && q.threads[w].state == Blocked
    ensures Placed(MakeReady(q, w))
  {
    MakeReadyKnown(q, w);
    MakeReadyQueues(q, w);
    MakeReadyLives(q, w);
    QuietPlaced(q, MakeReady(q, w));
  }

  lemma MakeReadyKnown(q: Queues, w: Tid)
    requires Known(q) && w in q.threads
    ensures Known(MakeReady(q, w))
  {
  }

  lemma MakeReadyQueues(q: Queues, w: Tid)
    requires QueuesMatch(q) && w in q.threads && q.threads[w].state == Blocked && !q.threads[w].isIdle
    ensures QueuesMatch(MakeReady(q, w)) && Quiet(q, MakeReady(q, w))
  {
    AppendMembers(q.runQueue, w);
  }

  lemma MakeReadyLives(q: Queues, w: Tid)
    requires LivesMatch(q) && w in q.threads && q.threads[w].state == Blocked
    ensures LivesMatch(MakeReady(q, w))
  {
  }

  lemma WakeSleeperPlaced(q: Queues, i: nat)
    requires Placed(q) && i < |q.sleepers|
    ensures Placed(WakeSleeper(q, i))
  {
    WakeSleeperKnown(q, i);
    WakeSleeperQueues(q, i);
    WakeSleeperQuiet(q, i);
    WakeSleeperLives(q, i);
    QuietPlaced(q, WakeSleeper(q, i));
  }

  lemma WakeSleeperKnown(q: Queues, i: nat)
    requires Known(q) && NoDup(q.sleepers) && i < |q.sleepers|
    ensures Known(WakeSleeper(q, i))
  {
    RemoveAtMembers(q.sleepers, i);
  }

  lemma WakeSleeperQueues(q: Queues, i: nat)
    requires Known(q) && QueuesMatch(q) && IdlesMatch(q) && i < |q.sleepers|
    ensures QueuesMatch(WakeSleeper(q, i))
  {
    hide IdlesMatch;
    SleeperSleeps(q, i);
    AppendMembers(q.runQueue, q.sleepers[i]);
    RemoveAtMembers(q.sleepers, i);
  }

  lemma SleeperSleeps(q: Queues, i: nat)
    requires Known(q) && QueuesMatch(q) && IdlesMatch(q) && i < |q.sleepers|
    ensures var t := q.sleepers[i]; t in q.threads && q.threads[t].state == Sleeping && !q.threads[t].isIdle
  {
  }

  lemma WakeSleeperQuiet(q: Queues, i: nat)
    requires Known(q) && QueuesMatch(q) && IdlesMatch(q) && i < |q.sleepers|
    ensures Quiet(q, WakeSleeper(q, i))
  {
    hide QueuesMatch, IdlesMatch;
    SleeperSleeps(q, i);
  }

  lemma WakeSleeperLives(q: Queues, i: nat)
    requires Known(q) && QueuesMatch(q) && LivesMatch(q) && i < |q.sleepers|
    ensures LivesMatch(WakeSleeper(q, i))
  {
  }

  lemma {:induction false} WakeDuePlaced(q: Queues, i: nat, now: nat)
    requires Placed(q) && i <= |q.sleepers|
    ensures Placed(WakeDue(q, i, now))
    decreases |q.sleepers| - i
  {
    hide QueuesMatch, CpusMatch, IdlesMatch, SwitchMatch, LivesMatch;
    if i == |q.sleepers| {
      return;
    }
    if q.threads[q.sleepers[i]].wakeAt <= now {
      WakeSleeperPlaced(q, i);
      var r := WakeSleeper(q, i);
      WakeDuePlaced(r, i, now);
    } else {
      WakeDuePlaced(q, i + 1, now);
    }
  }

  lemma {:induction false} WakeWaitersPlaced(q: Queues, ws: seq<Tid>)
    requires Placed(q) && forall w :: w in ws ==> w in q.threads
    ensures Placed(WakeWaiters(q, ws))
    decreases |ws|
  {
    if ws != [] {
      if q.threads[ws[0]].state == Blocked {
        MakeReadyPlaced(q, ws[0]);
        WakeWaitersPlaced(MakeReady(q, ws[0]), ws[1..]);
      } else {
        WakeWaitersPlaced(q, ws[1..]);
      }
    }
  }

  /** Changing only attributes the placement does not depend on keeps it. */
  ghost predicate SameLives(q: Queues, r: Queues) {
    && r.threads.Keys == q.threads.Keys
    && r == q.(threads := r.threads, throttled := r.throttled)
    && forall t :: t in q.threads ==> SameLife(q.threads[t], r.threads[t])
  }

  ghost predicate SameLife(a: Thread, b: Thread) {
    && b.isIdle == a.isIdle && b.state == a.state && b.finished == a.finished && b.lastCpu == a.lastCpu
    && b.waiters == a.waiters && b.process == a.process
  }

  lemma SameLivesKnown(q: Queues, r: Queues)
    requires Known(q) && SameLives(q, r)
    ensures Known(r)
  {
    forall t, w | t in r.threads && w in r.threads[t].waiters
      ensures w in r.threads
    {
      assert SameLife(q.threads[t], r.threads[t]);
    }
  }

  lemma SameLivesQueues(q: Queues, r: Queues)
    requires QueuesMatch(q) && SameLives(q, r)
    ensures QueuesMatch(r) && Quiet(q, r)
  {
    forall t | t in r.threads
      ensures SameLife(q.threads[t], r.threads[t])
    {
    }
  }

  lemma SameLivesLives(q: Queues, r: Queues)
    requires LivesMatch(q) && SameLives(q, r)
    ensures LivesMatch(r)
  {
    forall t | t in r.threads
      ensures SameLife(q.threads[t], r.threads[t])
    {
    }
  }

  lemma SameLivesPlaced(q: Queues, r: Queues)
    requires Placed(q) && SameLives(q, r)
    ensures Placed(r)
  {
    SameLivesKnown(q, r);
    hide Known, QueuesMatch, CpusMatch, IdlesMatch, SwitchMatch, LivesMatch, Quiet;
    SameLivesQueues(q, r);
    SameLivesLives(q, r);
    QuietPlaced(q, r);
  }

  // ---------------------------------------------------------------- a context switch

  /** What `schedule_locked` may be asked to do with the current thread. */
  ghost predicate CanLeave(q: Queues, c: Cpu, st: State) {
    && Known(q) && c in q.running && (q.lock == Free || q.lock == Entered(c))
    && st in {Ready, Sleeping, Blocked, Dying}
    && (st != Ready ==> !q.threads[q.running[c]].isIdle)
  }

  /** The choice is either this CPU's idle thread or a queued thread, never the current thread of any CPU. */
  lemma NextIsOff(q: Queues, c: Cpu)
    requires Known(q) && QueuesMatch(q) && CpusMatch(q) && IdlesMatch(q) && c in q.running
    ensures Next(q, c) in q.threads
    ensures Next(q, c) == q.running[c] <==> PickNext(q, c).None? && q.running[c] == q.idle[c]
    ensures Next(q, c) != q.running[c] ==> q.threads[Next(q, c)].state == Ready
    ensures NoDup(Rest(q, c))
    ensures forall t :: t in Rest(q, c) <==> t in q.runQueue && t != Next(q, c)
  {
    var pick := PickNext(q, c);
    if pick.Some? {
      RemoveAtMembers(q.runQueue, pick.value);
    } else {
      var i := q.idle[c];
      if q.threads[i].state == Running {
        assert q.running[q.threads[i].lastCpu.value] == i;
      }
    }
  }

  /** `next` is off every CPU, and `rest` is the run queue without it. */
  ghost predicate CanSwap(q: Queues, c: Cpu, st: State, next: Tid, rest: seq<Tid>) {
    && c in q.running && !InSwitch(q)
    && st in {Ready, Sleeping, Blocked, Dying}
    && q.running[c] in q.threads && next in q.threads && next != q.running[c]
    && (st != Ready ==> !q.threads[q.running[c]].isIdle)
    && q.threads[next].state == Ready
    && (q.threads[next].isIdle ==> c in q.idle && next == q.idle[c])
    && NoDup(rest)
    && (forall t :: t in rest <==> t in q.runQueue && t != next)
  }

  lemma SwapKnown(q: Queues, c: Cpu, st: State, next: Tid, rest: seq<Tid>)
    requires CanSwap(q, c, st, next, rest) && Known(q)
    ensures Known(Swap(q, c, st, next, rest))
  {
    assert forall t :: t in rest ==> t in q.threads;
    assert q.running[c] in q.threads && next in q.threads && c in q.running;
    hide CanSwap, Known, Swap;
    SwapKnownQueues(q, c, st, next, rest);
  }

  lemma SwapThreads(q: Queues, c: Cpu, st: State, next: Tid, rest: seq<Tid>)
    requires c in q.running && q.running[c] in q.threads && next in q.threads
    ensures var r := Swap(q, c, st, next, rest);
            && r.threads.Keys == q.threads.Keys && r.idle == q.idle
            && forall t :: t in q.threads ==>
                 r.threads[t].waiters == q.threads[t].waiters && r.threads[t].isIdle == q.threads[t].isIdle
  {
  }

  lemma SwapKnownLists(q: Queues, c: Cpu, st: State, next: Tid, rest: seq<Tid>)
    requires c in q.running && q.running[c] in q.threads && next in q.threads && Known(q)
    requires forall t :: t in rest ==> t in q.threads
    ensures var r := Swap(q, c, st, next, rest);
            && (forall t :: t in r.all ==> t in r.threads) && (forall t :: t in r.runQueue ==> t in r.threads)
            && (forall t :: t in r.sleepers ==> t in r.threads) && (forall t :: t in r.dead ==> t in r.threads)
            && (forall t :: t in r.reaping ==> t in r.threads)
  {
  }

  lemma SwapKnownCpus(q: Queues, c: Cpu, st: State, next: Tid, rest: seq<Tid>)
    requires c in q.running && q.running[c] in q.threads && next in q.threads && Known(q)
    ensures var r := Swap(q, c, st, next, rest);
            && (forall d :: d in r.running ==> r.running[d] in r.threads)
            && (forall d :: d in r.prev ==> r.prev[d] in r.threads)
            && r.idle.Keys == r.running.Keys == r.stackOf.Keys
  {
  }

  lemma SwapKnownQueues(q: Queues, c: Cpu, st: State, next: Tid, rest: seq<Tid>)
    requires c in q.running && q.running[c] in q.threads && next in q.threads && Known(q)
    requires forall t :: t in rest ==> t in q.threads
    ensures Known(Swap(q, c, st, next, rest))
  {
    hide Swap;
    SwapKnownLists(q, c, st, next, rest);
    SwapKnownCpus(q, c, st, next, rest);
    SwapThreads(q, c, st, next, rest);
  }

  lemma SwapQueues(q: Queues, c: Cpu, st: State, next: Tid, rest: seq<Tid>)
    requires CanSwap(q, c, st, next, rest) && QueuesMatch(q) && CpusMatch(q)
    ensures QueuesMatch(Swap(q, c, st, next, rest))
  {
    var r := Swap(q, c, st, next, rest);
    var cur := q.running[c];
    if st == Ready && !q.threads[cur].isIdle {
      AppendMembers(rest, cur);
    } else if st == Sleeping {
      AppendMembers(q.sleepers, cur);
    }
    forall t | t in r.threads
      ensures t in r.runQueue <==> r.threads[t].state == Ready && !r.threads[t].isIdle
      ensures t in r.sleepers <==> r.threads[t].state == Sleeping
      ensures t in r.dead <==> r.threads[t].state == Dead && t in r.all
      ensures t !in r.all ==> r.threads[t].state == Dead
    {
      assert t in q.threads;
    }
  }

  lemma SwapCpus(q: Queues, c: Cpu, st: State, next: Tid, rest: seq<Tid>)
    requires CanSwap(q, c, st, next, rest) && CpusMatch(q)
    ensures CpusMatch(Swap(q, c, st, next, rest))
  {
  }

  lemma SwapIdleStates(q: Queues, c: Cpu, st: State, next: Tid, rest: seq<Tid>)
    requires CanSwap(q, c, st, next, rest) && CpusMatch(q) && IdlesMatch(q)
    ensures var r := Swap(q, c, st, next, rest);
            forall t :: t in r.threads && r.threads[t].isIdle ==>
              (r.threads[t].state == Ready || r.threads[t].state == Running) && r.threads[t].process.None?
  {
    hide NoDup, InSwitch;
  }

  lemma SwapIdleRuns(q: Queues, c: Cpu, st: State, next: Tid, rest: seq<Tid>)
    requires CanSwap(q, c, st, next, rest) && CpusMatch(q) && IdlesMatch(q)
    ensures var r := Swap(q, c, st, next, rest);
            forall d :: d in r.running && r.running[d] in r.threads && r.threads[r.running[d]].isIdle ==>
              d in r.idle && r.running[d] == r.idle[d]
  {
    hide NoDup, InSwitch;
  }

  lemma SwapIdles(q: Queues, c: Cpu, st: State, next: Tid, rest: seq<Tid>)
    requires CanSwap(q, c, st, next, rest) && CpusMatch(q) && IdlesMatch(q)
    ensures IdlesMatch(Swap(q, c, st, next, rest))
  {
    hide Swap, CpusMatch;
    SwapThreads(q, c, st, next, rest);
    SwapIdleStates(q, c, st, next, rest);
    SwapIdleRuns(q, c, st, next, rest);
  }

  lemma SwapSwitch(q: Queues, c: Cpu, st: State, next: Tid, rest: seq<Tid>)
    requires CanSwap(q, c, st, next, rest) && CpusMatch(q) && SwitchMatch(q)
    ensures SwitchMatch(Swap(q, c, st, next, rest))
  {
  }

  lemma SwapLives(q: Queues, c: Cpu, st: State, next: Tid, rest: seq<Tid>)
    requires CanSwap(q, c, st, next, rest) && CpusMatch(q) && LivesMatch(q)
    ensures LivesMatch(Swap(q, c, st, next, rest))
  {
  }

  lemma SwapPlaced(q: Queues, c: Cpu, st: State, next: Tid, rest: seq<Tid>)
    requires Placed(q) && CanSwap(q, c, st, next, rest)
    ensures Placed(Swap(q, c, st, next, rest))
  {
    SwapKnown(q, c, st, next, rest);
    SwapQueues(q, c, st, next, rest);
    SwapCpus(q, c, st, next, rest);
    SwapIdles(q, c, st, next, rest);
    SwapSwitch(q, c, st, next, rest);
    SwapLives(q, c, st, next, rest);
  }

  /** The shape of a scheduling decision: the idle thread goes on, or a ready thread takes over. */
  lemma LeaveShape(q: Queues, c: Cpu, st: State)
    requires Known(q) && QueuesMatch(q) && CpusMatch(q) && IdlesMatch(q) && CanLeave(q, c, st)
    ensures Next(q, c) != q.running[c] ==> CanSwap(q, c, st, Next(q, c), Rest(q, c))
    ensures Next(q, c) == q.running[c] ==> q.threads[q.running[c]].isIdle && Rest(q, c) == q.runQueue
  {
    hide PickNext, CpusMatch, QueuesMatch;
    NextIsOff(q, c);
    NextIdleIsOwn(q, c);
  }

  /** Only the idle thread of `c` is chosen from outside the queue. */
  lemma NextIdleIsOwn(q: Queues, c: Cpu)
    requires Known(q) && QueuesMatch(q) && c in q.running
    ensures q.threads[Next(q, c)].isIdle ==> c in q.idle && Next(q, c) == q.idle[c]
  {
    hide PickNext;
  }

  lemma StaySame(q: Queues, c: Cpu)
    requires CpusMatch(q) && c in q.running && q.lock.Free?
    ensures SameLives(q, Stay(q, c))
  {
  }

  lemma StayPlaced(q: Queues, c: Cpu)
    requires Placed(q) && c in q.running && q.lock.Free?
    ensures Placed(Stay(q, c))
  {
    StaySame(q, c);
    SameLivesPlaced(q, Stay(q, c));
  }

  lemma LeavePlaced(q: Queues, c: Cpu, st: State)
    requires Placed(q) && CanLeave(q, c, st)
    ensures Placed(Leave(q, c, st))
  {
    LeaveShape(q, c, st);
    if Next(q, c) == q.running[c] {
      assert q.(runQueue := Rest(q, c)) == q;
      StayPlaced(q, c);
    } else {
      SwapPlaced(q, c, st, Next(q, c), Rest(q, c));
    }
  }

  lemma LandPlaced(q: Queues, c: Cpu)
    requires Placed(q) && q.lock == Leaving(c)
    ensures Placed(Land(q, c))
  {
    LandKnown(q, c);
    LandSwitch(q, c);
    var r := Land(q, c);
    assert QueuesMatch(r) && CpusMatch(r) && IdlesMatch(r) && LivesMatch(r);
  }

  lemma LandKnown(q: Queues, c: Cpu)
    requires Known(q) && c in q.running
    ensures Known(Land(q, c))
  {
  }

  lemma LandSwitch(q: Queues, c: Cpu)
    requires Known(q) && SwitchMatch(q) && q.lock == Leaving(c)
    ensures SwitchMatch(Land(q, c))
  {
  }

  lemma DieParts(q: Queues, p: Tid)
    requires p in q.threads && q.threads[p].state == Dying && p in q.all
    ensures Known(q) ==> Known(Die(q, p))
    ensures CpusMatch(q) ==> CpusMatch(Die(q, p))
    ensures LivesMatch(q) ==> LivesMatch(Die(q, p))
    ensures IdlesMatch(q) && !q.threads[p].isIdle ==> IdlesMatch(Die(q, p))
  {
    hide Die, Known, CpusMatch, LivesMatch, IdlesMatch;
    DieKnown(q, p);
    DieCpus(q, p);
    DieLives(q, p);
    DieIdles(q, p);
  }

  lemma DieKnown(q: Queues, p: Tid)
    requires p in q.threads
    ensures Known(q) ==> Known(Die(q, p))
  {
  }

  lemma DieCpus(q: Queues, p: Tid)
    requires p in q.threads && q.threads[p].state == Dying
    ensures CpusMatch(q) ==> CpusMatch(Die(q, p))
  {
  }

  lemma DieLives(q: Queues, p: Tid)
    requires p in q.threads && q.threads[p].state == Dying
    ensures LivesMatch(q) ==> LivesMatch(Die(q, p))
  {
  }

  lemma DieIdles(q: Queues, p: Tid)
    requires p in q.threads
    ensures IdlesMatch(q) && !q.threads[p].isIdle ==> IdlesMatch(Die(q, p))
  {
  }

  lemma DieQueues(q: Queues, p: Tid)
    requires QueuesMatch(q) && p in q.threads && q.threads[p].state == Dying && p in q.all
    ensures QueuesMatch(Die(q, p))
  {
    AppendMembers(q.dead, p);
    var r := Die(q, p);
    forall t | t in r.threads
      ensures t in q.threads && (t != p ==> r.threads[t] == q.threads[t])
    {
    }
  }

  lemma BurySwitch(q: Queues, c: Cpu)
    requires Known(q) && SwitchMatch(q) && q.lock == Arrived(c)
    ensures SwitchMatch(Bury(q, c))
  {
    assert q.prev[c] in q.threads && q.prev.Keys == {c};
    assert forall d :: d in q.running ==> d in q.stackOf && q.stackOf[d] == q.running[d];
    assert forall t :: t in q.threads && q.threads[t].state == Dying ==> t == q.prev[c];
    hide SwitchMatch, Bury;
    BuryFields(q, c);
    BuryEndsDying(q, c, q.prev[c]);
    FreeSwitch(Bury(q, c));
  }

  /** No switch in progress. */
  lemma FreeSwitch(r: Queues)
    requires r.lock.Free? && r.prev == map[] && forall t :: t in r.threads ==> r.threads[t].state != Dying
    requires forall d :: d in r.running ==> d in r.stackOf && r.stackOf[d] == r.running[d]
    ensures SwitchMatch(r)
  {
  }

  lemma BuryFields(q: Queues, c: Cpu)
    requires Known(q) && c in q.prev && q.prev.Keys == {c}
    ensures var r := Bury(q, c);
            r.lock.Free? && r.prev == map[] && r.running == q.running && r.stackOf == q.stackOf
  {
    hide Known;
    assert (q.prev - {c}).Keys == {};
  }

  lemma BuryEndsDying(q: Queues, c: Cpu, p: Tid)
    requires Known(q) && c in q.prev && p == q.prev[c] && p in q.threads
    requires forall t :: t in q.threads && q.threads[t].state == Dying ==> t == p
    ensures forall t :: t in Bury(q, c).threads ==> t in q.threads && Bury(q, c).threads[t].state != Dying
  {
    hide Known;
  }

  lemma BuryPlaced(q: Queues, c: Cpu)
    requires Placed(q) && q.lock == Arrived(c)
    ensures Placed(Bury(q, c))
    ensures forall w :: w in Mourners(q, c) ==> w in Bury(q, c).threads
  {
    var p := q.prev[c];
    if q.threads[p].state == Dying {
      DieParts(q, p);
      DieQueues(q, p);
    }
    var r := if q.threads[p].state == Dying then Die(q, p) else q;
    var b := r.(prev := q.prev - {c}, lock := Free);
    BurySwitch(q, c);
    Unlock(r, b);
  }

  /** Letting the lock and `prev_for_finish` go disturbs no other part of the invariant. */
  lemma Unlock(r: Queues, b: Queues)
    requires b == r.(prev := b.prev, lock := b.lock) && b.prev.Keys <= r.prev.Keys
    requires forall c :: c in b.prev ==> b.prev[c] == r.prev[c]
    ensures Known(r) ==> Known(b)
    ensures QueuesMatch(r) ==> QueuesMatch(b)
    ensures CpusMatch(r) ==> CpusMatch(b)
    ensures IdlesMatch(r) ==> IdlesMatch(b)
    ensures LivesMatch(r) ==> LivesMatch(b)
  {
  }

  lemma FinishPlaced(q: Queues, c: Cpu)
    requires Placed(q) && q.lock == Arrived(c)
    ensures c in q.prev && Placed(Finish(q, c)) && Finish(q, c).lock == Free
  {
    BuryPlaced(q, c);
    WakeWaitersPlaced(Bury(q, c), Mourners(q, c));
    WakeWaitersFrame(Bury(q, c), Mourners(q, c));
  }

  /** Waking waiters touches only thread states and the run queue. */
  lemma WakeOneFrame(q: Queues, w: Tid)
    requires w in q.threads
    ensures var r := MakeReady(q, w);
            && r == q.(threads := r.threads, runQueue := r.runQueue) && r.threads.Keys == q.threads.Keys
            && r.threads[w] == q.threads[w].(state := Ready)
            && forall t :: t in q.threads && t != w ==> r.threads[t] == q.threads[t]
  {
  }

  lemma {:induction false} WakeWaitersFrame(q: Queues, ws: seq<Tid>)
    requires forall w :: w in ws ==> w in q.threads
    ensures var r := WakeWaiters(q, ws);
            && r.threads.Keys == q.threads.Keys
            && r == q.(threads := r.threads, runQueue := r.runQueue)
            && (forall t :: t in q.threads ==>
                  r.threads[t] == if t in ws && q.threads[t].state == Blocked
                                  then q.threads[t].(state := Ready) else q.threads[t])
    decreases |ws|
  {
    if ws != [] {
      var q1 := if q.threads[ws[0]].state == Blocked then MakeReady(q, ws[0]) else q;
      WakeOneFrame(q, ws[0]);
      assert ws == [ws[0]] + ws[1..];
      WakeWaitersFrame(q1, ws[1..]);
      hide MakeReady;
    }
  }

  // ---------------------------------------------------------------- the remaining regions

  lemma SpawnPlaced(q: Queues, t: Tid, low: bool, mask: set<nat>, process: Option<Pid>)
    requires Placed(q) && t !in q.threads
    ensures Placed(Spawn(q, t, low, mask, process))
  {
    var r := Spawn(q, t, low, mask, process);
    SpawnKnown(q, t, low, mask, process);
    SpawnQueues(q, t, low, mask, process);
    SpawnQuiet(q, t, low, mask, process);
    SpawnLives(q, t, low, mask, process);
    QuietPlaced(q, r);
  }

  lemma SpawnKnown(q: Queues, t: Tid, low: bool, mask: set<nat>, process: Option<Pid>)
    requires Known(q) && t !in q.threads
    ensures Known(Spawn(q, t, low, mask, process))
  {
  }

  lemma SpawnQueues(q: Queues, t: Tid, low: bool, mask: set<nat>, process: Option<Pid>)
    requires Known(q) && QueuesMatch(q) && t !in q.threads
    ensures QueuesMatch(Spawn(q, t, low, mask, process))
  {
    hide AllCpus;
    AppendMembers(q.all, t);
    AppendMembers(q.runQueue, t);
  }

  lemma SpawnQuiet(q: Queues, t: Tid, low: bool, mask: set<nat>, process: Option<Pid>)
    requires Known(q) && t !in q.threads
    ensures Quiet(q, Spawn(q, t, low, mask, process))
  {
    hide AllCpus;
  }

  lemma SpawnLives(q: Queues, t: Tid, low: bool, mask: set<nat>, process: Option<Pid>)
    requires Known(q) && LivesMatch(q) && t !in q.threads
    ensures LivesMatch(Spawn(q, t, low, mask, process))
  {
  }

  lemma OnlinePlaced(q: Queues, c: Cpu, t: Tid)
    requires Placed(q) && q.lock.Free? && t !in q.threads && c !in q.running
    ensures Placed(Online(q, c, t))
  {
    OnlineKnown(q, c, t);
    OnlineQueues(q, c, t);
    OnlineCpus(q, c, t);
    OnlineIdles(q, c, t);
    OnlineSwitch(q, c, t);
    OnlineLives(q, c, t);
  }

  lemma OnlineKnown(q: Queues, c: Cpu, t: Tid)
    requires Known(q) && t !in q.threads
    ensures Known(Online(q, c, t))
  {
  }

  lemma OnlineQueues(q: Queues, c: Cpu, t: Tid)
    requires Known(q) && QueuesMatch(q) && t !in q.threads
    ensures QueuesMatch(Online(q, c, t))
  {
    AppendMembers(q.all, t);
  }

  lemma OnlineCpus(q: Queues, c: Cpu, t: Tid)
    requires CpusMatch(q) && t !in q.threads && c !in q.running
    ensures CpusMatch(Online(q, c, t))
  {
  }

  lemma OnlineIdles(q: Queues, c: Cpu, t: Tid)
    requires CpusMatch(q) && IdlesMatch(q) && t !in q.threads && c !in q.running
    ensures IdlesMatch(Online(q, c, t))
  {
  }

  lemma OnlineSwitch(q: Queues, c: Cpu, t: Tid)
    requires CpusMatch(q) && SwitchMatch(q) && q.lock.Free? && t !in q.threads && c !in q.running
    ensures SwitchMatch(Online(q, c, t))
  {
  }

  lemma OnlineLives(q: Queues, c: Cpu, t: Tid)
    requires Known(q) && LivesMatch(q) && t !in q.threads
    ensures LivesMatch(Online(q, c, t))
  {
  }

  lemma AddWaiterPlaced(q: Queues, t: Tid, w: Tid)
    requires Placed(q) && t in q.threads && q.threads[t].state != Dead && w in q.threads
    ensures Placed(AddWaiter(q, t, w))
  {
    hide CpusMatch, IdlesMatch, SwitchMatch;
    var r := AddWaiter(q, t, w);
    AddWaiterKnown(q, t, w);
    AddWaiterQueues(q, t, w);
    AddWaiterLives(q, t, w);
    AddWaiterQuiet(q, t, w);
    QuietPlaced(q, r);
  }

  lemma AddWaiterKnown(q: Queues, t: Tid, w: Tid)
    requires Known(q) && t in q.threads && w in q.threads
    ensures Known(AddWaiter(q, t, w))
  {
  }

  lemma AddWaiterQueues(q: Queues, t: Tid, w: Tid)
    requires QueuesMatch(q) && t in q.threads
    ensures QueuesMatch(AddWaiter(q, t, w))
  {
  }

  lemma AddWaiterLives(q: Queues, t: Tid, w: Tid)
    requires LivesMatch(q) && t in q.threads && q.threads[t].state != Dead
    ensures LivesMatch(AddWaiter(q, t, w))
  {
    if w !in q.threads[t].waiters {
      AppendMembers(q.threads[t].waiters, w);
    }
  }

  lemma AddWaiterQuiet(q: Queues, t: Tid, w: Tid)
    requires t in q.threads
    ensures Quiet(q, AddWaiter(q, t, w))
  {
  }

  lemma ReapPlaced(q: Queues)
    requires Placed(q)
    ensures Placed(Reap(q))
  {
    hide CpusMatch, IdlesMatch, SwitchMatch;
    ReapKnown(q);
    ReapQueues(q);
    ReapLives(q);
    QuietPlaced(q, Reap(q));
  }

  lemma ReapKnown(q: Queues)
    requires Known(q)
    ensures Known(Reap(q)) && Quiet(q, Reap(q))
  {
  }

  lemma ReapQueues(q: Queues)
    requires Known(q) && QueuesMatch(q)
    ensures QueuesMatch(Reap(q))
  {
  }

  lemma ReapLives(q: Queues)
    requires Known(q) && LivesMatch(q)
    ensures LivesMatch(Reap(q))
  {
  }

  lemma FreeStackPlaced(q: Queues, t: Tid)
    requires Placed(q) && t in q.reaping
    ensures Placed(FreeStack(q, t))
  {
    hide CpusMatch, IdlesMatch, SwitchMatch;
    FreeStackLives(q, t);
    FreeStackKnown(q, t);
    FreeStackQuiet(q, t);
    QuietPlaced(q, FreeStack(q, t));
  }

  lemma FreeStackLives(q: Queues, t: Tid)
    requires LivesMatch(q) && t in q.reaping
    ensures LivesMatch(FreeStack(q, t))
  {
  }

  lemma FreeStackQuiet(q: Queues, t: Tid)
    requires Known(q) && QueuesMatch(q)
    ensures QueuesMatch(FreeStack(q, t)) && Quiet(q, FreeStack(q, t))
  {
    hide Known;
  }

  lemma FreeStackKnown(q: Queues, t: Tid)
    requires Known(q)
    ensures Known(FreeStack(q, t))
  {
  }

  lemma TickWakePlaced(q: Queues, c: Cpu, boundary: bool, now: nat)
    requires Placed(q) && c in q.running
    ensures Placed(TickWake(q, c, boundary, now))
    ensures TickWake(q, c, boundary, now).lock == q.lock
    ensures TickWake(q, c, boundary, now).running == q.running
  {
    var r := WakeDue(q, 0, now);
    WakeDuePlaced(q, 0, now);
    WakeDueFrame(q, 0, now);
    ChargeSame(r, c, boundary);
    SameLivesPlaced(r, Charge(r, c, boundary));
  }

  lemma ChargeSame(q: Queues, c: Cpu, boundary: bool)
    requires c in q.running && q.running[c] in q.threads
    ensures SameLives(q, Charge(q, c, boundary))
  {
  }

  lemma DecidePlaced(q: Queues, c: Cpu, mark: set<Pid>)
    requires Placed(q) && c in q.running && q.lock.Free?
    ensures Placed(q.(throttled := q.throttled + mark)) && Placed(Decide(q, c, mark))
  {
    hide QueuesMatch, CpusMatch, IdlesMatch, SwitchMatch, LivesMatch;
    var m := q.(throttled := q.throttled + mark);
    SameLivesPlaced(q, m);
    if Preempts(q, c, m.throttled) {
      LeavePlaced(m, c, Ready);
    }
  }

  lemma TickPlaced(q: Queues, c: Cpu, boundary: bool, mark: set<Pid>, now: nat)
    requires Placed(q) && c in q.running && q.lock.Free?
    ensures Placed(Tick(q, c, boundary, mark, now))
  {
    TickWakePlaced(q, c, boundary, now);
    DecidePlaced(TickWake(q, c, boundary, now), c, mark);
  }

  lemma SleepPlaced(q: Queues, c: Cpu, wakeAt: nat)
    requires Placed(q) && c in q.running && q.lock.Free?
    ensures Placed(Sleep(q, c, wakeAt))
  {
    var t := q.running[c];
    if !q.threads[t].isIdle {
      var r := SetWakeAt(q, t, wakeAt);
      SetWakeAtPlaced(q, t, wakeAt);
      LeavePlaced(r, c, Sleeping);
    }
  }

  lemma SetWakeAtSame(q: Queues, t: Tid, wakeAt: nat)
    requires t in q.threads
    ensures SameLives(q, SetWakeAt(q, t, wakeAt))
  {
  }

  lemma SetWakeAtPlaced(q: Queues, t: Tid, wakeAt: nat)
    requires Placed(q) && t in q.threads
    ensures Placed(SetWakeAt(q, t, wakeAt))
  {
    SetWakeAtSame(q, t, wakeAt);
    SameLivesPlaced(q, SetWakeAt(q, t, wakeAt));
  }

  lemma JoinTarget(q: Queues, c: Cpu, u: Tid)
    requires Known(q) && LivesMatch(q) && c in q.running
    ensures q.running[c] in q.threads
    ensures JoinBlocks(q, c, u) ==> u in q.threads && q.threads[u].state != Dead
  {
  }

  lemma JoinPlaced(q: Queues, c: Cpu, t: Tid)
    requires Placed(q) && c in q.running && q.lock.Free?
    ensures Placed(Join(q, c, t))
  {
    JoinTarget(q, c, t);
    if JoinBlocks(q, c, t) {
      hide Known, QueuesMatch, CpusMatch, IdlesMatch, SwitchMatch, LivesMatch, Leave;
      AddWaiterPlaced(q, t, q.running[c]);
      LeavePlaced(AddWaiter(q, t, q.running[c]), c, Blocked);
    }
  }

  lemma EnterPlaced(q: Queues, c: Cpu)
    requires Placed(q) && Enabled(q, EnterPark(c))
    ensures Placed(q.(lock := Entered(c)))
  {
    var b := q.(lock := Entered(c));
    Unlock(q, b);
    EnterSwitch(q, c);
  }

  lemma EnterSwitch(q: Queues, c: Cpu)
    requires Known(q) && SwitchMatch(q) && Enabled(q, EnterPark(c))
    ensures SwitchMatch(q.(lock := Entered(c)))
  {
    assert q.running[c] in q.threads && !q.threads[q.running[c]].isIdle && q.lock.Free?;
    hide Known, Enabled;
  }

  // ---------------------------------------------------------------- every step, every run

  /** A switch step finds the outgoing thread the invariant promises. */
  lemma SwitchStepsDefined(q: Queues, s: Step)
    requires Placed(q) && Enabled(q, s)
    ensures s.DoLand? ==> s.cpu in q.running
    ensures s.DoFinish? ==> s.cpu in q.prev
  {
  }

  ghost function After(q: Queues, s: Step): Queues
    requires Placed(q) && Enabled(q, s)
  {
    SwitchStepsDefined(q, s);
    Apply(q, s)
  }

  lemma YieldStep(q: Queues, c: Cpu)
    requires Placed(q) && Enabled(q, DoYield(c))
    ensures Placed(After(q, DoYield(c)))
  {
    hide QueuesMatch, CpusMatch, IdlesMatch, SwitchMatch, LivesMatch, Leave;
    LeavePlaced(q, c, Ready);
  }

  lemma ExitStep(q: Queues, c: Cpu)
    requires Placed(q) && Enabled(q, DoExit(c))
    ensures Placed(After(q, DoExit(c)))
  {
    hide QueuesMatch, CpusMatch, IdlesMatch, SwitchMatch, LivesMatch, Leave;
    LeavePlaced(q, c, Dying);
  }

  lemma ParkStep(q: Queues, c: Cpu)
    requires Placed(q) && Enabled(q, DoPark(c))
    ensures Placed(After(q, DoPark(c)))
  {
    hide Known, QueuesMatch, CpusMatch, IdlesMatch, SwitchMatch, LivesMatch, Leave, CanLeave;
    ParkCanLeave(q, c);
    LeavePlaced(q, c, Blocked);
  }

  lemma ParkCanLeave(q: Queues, c: Cpu)
    requires Known(q) && SwitchMatch(q) && Enabled(q, DoPark(c))
    ensures CanLeave(q, c, Blocked)
  {
  }

  lemma SwitchStep(q: Queues, s: Step)
    requires Placed(q) && Enabled(q, s) && (s.DoLand? || s.DoFinish?)
    ensures Placed(After(q, s))
  {
    hide Known, QueuesMatch, CpusMatch, IdlesMatch, SwitchMatch, LivesMatch, Land, Finish;
    SwitchStepsDefined(q, s);
    if s.DoLand? {
      LandPlaced(q, s.cpu);
    } else {
      FinishPlaced(q, s.cpu);
    }
  }

  lemma RegionStep(q: Queues, s: Step)
    requires Placed(q) && Enabled(q, s) && (s.DoSleep? || s.DoJoin? || s.DoTick? || s.DoIpi? || s.DoUnpark?)
    ensures Placed(After(q, s))
  {
    hide QueuesMatch, CpusMatch, IdlesMatch, SwitchMatch, LivesMatch, Sleep, Join, Tick, Ipi, Unpark;
    match s
    case DoSleep(c, wakeAt) => SleepPlaced(q, c, wakeAt);
    case DoJoin(c, t) => JoinPlaced(q, c, t);
    case DoTick(c, boundary, mark, now) => TickPlaced(q, c, boundary, mark, now);
    case DoIpi(c) => IpiPlaced(q, c);
    case DoUnpark(t) => UnparkPlaced(q, t);
  }

  lemma LifeStep(q: Queues, s: Step)
    requires Placed(q) && Enabled(q, s) && (s.DoSpawn? || s.DoOnline? || s.DoReap? || s.DoFreeStack? || s.EnterPark?)
    ensures Placed(After(q, s))
  {
    hide Known, QueuesMatch, CpusMatch, IdlesMatch, SwitchMatch, LivesMatch, Spawn, Online, Reap, FreeStack;
    match s
    case DoSpawn(t, low, mask, process) => SpawnPlaced(q, t, low, mask, process);
    case DoOnline(c, t) => OnlinePlaced(q, c, t);
    case DoReap => ReapPlaced(q);
    case DoFreeStack(t) => FreeStackPlaced(q, t);
    case EnterPark(c) => EnterPlaced(q, c);
  }

  lemma RulesStep(q: Queues, s: Step)
    requires Placed(q) && Enabled(q, s) && (s.DoAttributes? || s.DoQuota?)
    ensures Placed(After(q, s))
  {
    hide Known, QueuesMatch, CpusMatch, IdlesMatch, SwitchMatch, LivesMatch;
    if s.DoAttributes? {
      RegisteredKnown(q, s.tid);
      AttributesPlaced(q, s.tid, s.low, s.affinity);
    } else {
      SameLivesPlaced(q, q.(throttled := s.throttled));
    }
  }

  /** Every step keeps every thread where its state says. */
  lemma StepPlaced(q: Queues, s: Step)
    requires Placed(q) && Enabled(q, s)
    ensures Placed(After(q, s))
  {
    hide *;
    match s
    case DoYield(c) => YieldStep(q, c);
    case DoExit(c) => ExitStep(q, c);
    case DoPark(c) => ParkStep(q, c);
    case DoLand(_) => SwitchStep(q, s);
    case DoFinish(_) => SwitchStep(q, s);
    case DoSleep(_, _) => RegionStep(q, s);
    case DoJoin(_, _) => RegionStep(q, s);
    case DoTick(_, _, _, _) => RegionStep(q, s);
    case DoIpi(_) => RegionStep(q, s);
    case DoUnpark(_) => RegionStep(q, s);
    case DoAttributes(_, _, _) => RulesStep(q, s);
    case DoQuota(_) => RulesStep(q, s);
    case _ => LifeStep(q, s);
  }

  lemma UnparkPlaced(q: Queues, t: Tid)
    requires Placed(q)
    ensures Placed(Unpark(q, t))
  {
    if t in q.all && q.threads[t].state == Blocked {
      MakeReadyPlaced(q, t);
    }
  }

  lemma AttributesPlaced(q: Queues, t: Tid, low: bool, affinity: set<nat>)
    requires Placed(q) && t in q.threads
    ensures Placed(SetAttributes(q, t, low, affinity))
  {
    hide Known, QueuesMatch, CpusMatch, IdlesMatch, SwitchMatch, LivesMatch;
    SameLivesPlaced(q, SetAttributes(q, t, low, affinity));
  }

  lemma IpiPlaced(q: Queues, c: Cpu)
    requires Placed(q) && c in q.running && q.lock.Free?
    ensures Placed(Ipi(q, c))
  {
    LeavePlaced(q, c, Ready);
  }

  /** One scheduler step, stated without assuming the invariant. */
  ghost predicate StepsTo(q: Queues, s: Step, r: Queues) {
    && Known(q) && Enabled(q, s)
    && (s.DoLand? ==> s.cpu in q.running)
    && (s.DoFinish? ==> s.cpu in q.prev)
    && r == Apply(q, s)
  }

  /** A run: `qs[i]` steps to `qs[i + 1]` by `ss[i]`. */
  ghost predicate IsRun(qs: seq<Queues>, ss: seq<Step>) {
    && |qs| == |ss| + 1
    && forall i {:trigger ss[i]} :: 0 <= i < |ss| ==> StepsTo(qs[i], ss[i], qs[i + 1])
  }

  lemma BootPlaced()
    ensures Placed(Boot())
  {
    var q := Boot();
    assert q.threads.Keys == {1, 2};
    BootKnown(q);
    BootQueues(q);
    BootLives(q);
    BootCpus(q);
    BootIdles(q);
    BootSwitch(q);
  }

  lemma BootQueues(q: Queues)
    requires q == Boot() && q.threads.Keys == {1, 2}
    ensures QueuesMatch(q)
  {
    hide AllCpus;
  }

  lemma BootKnown(q: Queues)
    requires q == Boot() && q.threads.Keys == {1, 2}
    ensures Known(q)
  {
    hide AllCpus;
  }

  lemma BootLives(q: Queues)
    requires q == Boot() && q.threads.Keys == {1, 2}
    ensures LivesMatch(q)
  {
    hide AllCpus;
  }

  lemma BootCpus(q: Queues)
    requires q == Boot() && q.threads.Keys == {1, 2}
    ensures CpusMatch(q)
  {
    hide AllCpus;
  }

  lemma BootIdles(q: Queues)
    requires q == Boot() && q.threads.Keys == {1, 2}
    ensures IdlesMatch(q)
  {
    hide AllCpus;
  }

  lemma BootSwitch(q: Queues)
    requires q == Boot() && q.threads.Keys == {1, 2}
    ensures SwitchMatch(q)
  {
    hide AllCpus;
  }

  lemma RunStepPlaced(qs: seq<Queues>, ss: seq<Step>, i: nat)
    requires IsRun(qs, ss) && i < |ss| && Placed(qs[i])
    ensures Placed(qs[i + 1])
  {
    StepPlaced(qs[i], ss[i]);
  }

  /** In every state of every run every thread is where its state says. */
  lemma {:induction false} RunsArePlaced(qs: seq<Queues>, ss: seq<Step>, i: nat)
    requires IsRun(qs, ss) && Placed(qs[0]) && i < |qs|
    ensures Placed(qs[i])
  {
    if i > 0 {
      RunsArePlaced(qs, ss, i - 1);
      RunStepPlaced(qs, ss, i - 1);
    }
  }

  /** In every state reachable from boot every thread is where its state says. */
  lemma BootRunsArePlaced(qs: seq<Queues>, ss: seq<Step>, i: nat)
    requires IsRun(qs, ss) && qs[0] == Boot() && i < |qs|
    ensures Placed(qs[i])
  {
    BootPlaced();
    RunsArePlaced(qs, ss, i);
  }

  // ---------------------------------------------------------------- what the placement means

  ghost function Occurrences(s: seq<Tid>, t: Tid): nat {
    multiset(s)[t]
  }

  ghost function CpusRunning(q: Queues, t: Tid): set<Cpu> {
    set c | c in q.running && q.running[c] == t
  }

  lemma {:induction false} NoDupOccurrences(s: seq<Tid>, t: Tid)
    requires NoDup(s)
    ensures Occurrences(s, t) == if t in s then 1 else 0
  {
    if s != [] {
      assert s == [s[0]] + s[1..];
      NoDupOccurrences(s[1..], t);
    }
  }

  /**
   A registered non-idle thread is in exactly the one place its state names: once in the run queue,
   once among the sleepers, once among the dead, on exactly one CPU, or (blocked, or leaving for good)
   in none of them.
   */
  lemma OnePlace(q: Queues, t: Tid)
    requires Placed(q) && t in q.all && !q.threads[t].isIdle
    ensures var st := q.threads[t].state;
            && Occurrences(q.runQueue, t) == (if st == Ready then 1 else 0)
            && Occurrences(q.sleepers, t) == (if st == Sleeping then 1 else 0)
            && Occurrences(q.dead, t) == (if st == Dead then 1 else 0)
            && |CpusRunning(q, t)| == (if st == Running then 1 else 0)
  {
    hide IdlesMatch, SwitchMatch, LivesMatch;
    NoDupOccurrences(q.runQueue, t);
    NoDupOccurrences(q.sleepers, t);
    NoDupOccurrences(q.dead, t);
    if q.threads[t].state == Running {
      assert CpusRunning(q, t) == {q.threads[t].lastCpu.value};
    } else {
      assert CpusRunning(q, t) == {};
    }
  }

  /** The stack under a CPU belongs to a registered thread, current there or on its way out. */
  lemma StackUnder(q: Queues, c: Cpu)
    requires Known(q) && QueuesMatch(q) && CpusMatch(q) && SwitchMatch(q) && c in q.running
    ensures c in q.stackOf && q.stackOf[c] in q.threads && q.stackOf[c] in q.all
    ensures q.lock == Leaving(c) ==> q.threads[q.stackOf[c]].state != Running
    ensures q.lock != Leaving(c) ==> q.stackOf[c] == q.running[c]
  {
    assert q.threads[q.running[c]].state == Running;
    if q.lock == Leaving(c) {
      assert q.stackOf[c] == q.prev[c];
    }
  }

  /** No two CPUs ever execute the same thread or on the same stack, and the stack under a CPU is not freed. */
  lemma StacksExclusive(q: Queues, c: Cpu, d: Cpu)
    requires Placed(q) && c in q.running && d in q.running
    ensures c in q.stackOf && d in q.stackOf
    ensures c != d ==> q.running[c] != q.running[d] && q.stackOf[c] != q.stackOf[d]
    ensures q.stackOf[c] in q.stacks && q.stackOf[c] !in q.reaping
  {
    StackUnder(q, c);
    StackUnder(q, d);
    Exclusive(q, c, d);
  }

  lemma Exclusive(q: Queues, c: Cpu, d: Cpu)
    requires CpusMatch(q) && c in q.running && d in q.running
    ensures q.running[c] == q.running[d] ==> c == d
    ensures q.threads[q.running[c]].state == Running && q.threads[q.running[d]].state == Running
  {
  }

  /** A thread whose stack may be freed has been replaced on its CPU: it is dead and under no CPU. */
  lemma FreedAfterTakeover(q: Queues, t: Tid, c: Cpu)
    requires Placed(q) && t in q.reaping && c in q.running
    ensures t in q.threads && q.threads[t].state == Dead
    ensures q.running[c] != t
    ensures c in q.stackOf && q.stackOf[c] != t
    ensures c in q.prev ==> q.prev[c] != t
  {
    StackUnder(q, c);
    Exclusive(q, c, c);
  }
}
