/**
 The scheduler object itself, updated in place as kernel/src/sched.rs does, with each operation
 proved equal to its region of `Sched` (and, for a context switch, to the accounting and
 address-space halves of `Machine`).
 */
module Scheduler {
  import opened Seqs
  import S = Sched
  import Machine
  import opened Placement

  type Tid = S.Tid
  type Cpu = S.Cpu
  type Pid = S.Pid

  /** CPU time and address spaces move with the queues exactly as a world step `s` moves them. */
  ghost predicate Follows(q: S.Queues, s: S.Step, r: S.Queues, now: nat,
                        time: Machine.CpuTime, time': Machine.CpuTime, mmu: Machine.Mmu, mmu': Machine.Mmu) {
    time' == Machine.TimeAfter(time, q, s, r, now) && mmu' == Machine.MmuAfter(mmu, q, s, r)
  }

  /** Work done before the switch that moves no thread does not change what the switch credits and loads. */
  lemma FollowsEarlier(p: S.Queues, q: S.Queues, s: S.Step, c: Cpu, r: S.Queues, now: nat,
                     time: Machine.CpuTime, time': Machine.CpuTime, mmu: Machine.Mmu, mmu': Machine.Mmu)
    requires S.Known(p) && Machine.SameHolders(p, q) && p.lock.Free? && q.lock.Free?
    requires !s.DoSpawn? && !s.DoOnline?
    requires Follows(q, S.DoYield(c), r, now, time, time', mmu, mmu')
    ensures Follows(p, s, r, now, time, time', mmu, mmu')
  {
  }

  /** A step that moves no thread credits and loads nothing. */
  lemma FollowsNothing(p: S.Queues, q: S.Queues, s: S.Step, now: nat, time: Machine.CpuTime, mmu: Machine.Mmu)
    requires Machine.SameHolders(p, q) && p.lock.Free? && !s.DoSpawn? && !s.DoOnline?
    ensures Follows(p, s, q, now, time, time, mmu, mmu)
  {
  }

  lemma WokenRunner(q: S.Queues, c: Cpu, now: nat)
    requires S.Known(q) && c in q.running
    ensures var d := S.WakeDue(q, 0, now); c in d.running && d.running[c] in d.threads
  {
    S.WakeDueFrame(q, 0, now);
  }

  lemma MarkKeeps(p: S.Queues, q: S.Queues, mark: set<Pid>)
    requires S.Known(q) && Machine.SameHolders(p, q)
    ensures var m := q.(throttled := q.throttled + mark); S.Known(m) && Machine.SameHolders(p, m)
  {
  }

  lemma {:induction false} WithoutNone(s: seq<Tid>)
    ensures S.Without(s, []) == s
  {
    if s != [] {
      WithoutNone(s[1..]);
    }
  }

  lemma {:induction false} WithoutOne(s: seq<Tid>, drop: seq<Tid>, d: Tid)
    ensures S.Without(S.Without(s, drop), [d]) == S.Without(s, drop + [d])
  {
    if s != [] {
      WithoutOne(s[1..], drop, d);
    }
  }

  /** A switch, seen from the value model: the thread chosen is out of the queue before the hand-over. */
  lemma SwitchAfter(q: S.Queues, c: Cpu, time: Machine.CpuTime, m: Machine.Mmu, st: S.State, now: nat)
    requires S.Known(q) && c in q.running && !q.lock.Leaving? && S.Next(q, c) != q.running[c]
    ensures var r, next := S.Swap(q.(runQueue := S.Rest(q, c)), c, st, S.Next(q, c), S.Rest(q, c)), S.Next(q, c);
            && r == S.Leave(q, c, st)
            && Follows(q, S.DoYield(c), r, now,
                       time, Machine.Account(time, c, q.running[c], q.threads[q.running[c]].process, next, now),
                       m, Machine.Load(m, c, Machine.SpaceFor(m, q.threads[next].process)))
  {
    hide S.Known, S.PickNext, S.Next, S.Rest;
    S.NextKnown(q, c);
    S.RunningKnown(q, c);
  }

  lemma StayAfter(q: S.Queues, c: Cpu, time: Machine.CpuTime, m: Machine.Mmu, st: S.State, now: nat)
    requires S.Known(q) && c in q.running && !q.lock.Leaving? && S.Next(q, c) == q.running[c]
    ensures var r := S.Leave(q, c, st);
            r == S.Stay(q.(runQueue := S.Rest(q, c)), c) && Follows(q, S.DoYield(c), r, now, time, time, m, m)
  {
  }

  lemma IdleKnown(q: S.Queues, c: Cpu)
    requires S.Known(q) && c in q.running
    ensures c in q.idle && q.idle[c] in q.threads
  {
  }

  /** A pass finds a thread exactly when there is one it accepts. */
  lemma FirstMeansSome(q: S.Queues, c: Cpu)
    requires S.Known(q)
    ensures S.FirstFrom(q, c, false, 0).Some? <==> S.HasWork(q, c)
    ensures S.FirstFrom(q, c, true, 0).Some? <==> S.NormalReady(q, c)
  {
  }

  class Scheduler {
    var threads: map<Tid, S.Thread>
    var all: seq<Tid>
    var runQueue: seq<Tid>
    var sleepers: seq<Tid>
    var dead: seq<Tid>
    var running: map<Cpu, Tid>
    var idle: map<Cpu, Tid>
    var prev: map<Cpu, Tid>
    var throttled: set<Pid>
    var lock: S.Lock
    ghost var stackOf: map<Cpu, Tid>
    ghost var stacks: set<Tid>
    ghost var reaping: set<Tid>

    var enteredAt: map<Tid, nat>
    var cpuNs: map<Pid, nat>
    ghost var log: seq<Machine.Slice>

    var cr3: map<Cpu, Machine.Frame>
    var loaded: map<Cpu, Machine.SpaceId>
    var roots: map<Machine.SpaceId, Machine.Frame>
    var spaceOf: map<Pid, Machine.SpaceId>
    var kernelRoot: Machine.Frame
    var nextId: Machine.SpaceId
    var recycled: nat
    ghost var tlb: map<Cpu, set<Machine.SpaceId>>

    ghost function View(): S.Queues
      reads `threads, `all, `runQueue, `sleepers, `dead, `running, `idle, `prev, `throttled, `lock
      reads `stackOf, `stacks, `reaping
    {
      S.Queues(threads, all, runQueue, sleepers, dead, running, idle, prev, stackOf, stacks, reaping, throttled, lock)
    }

    ghost function Time(): Machine.CpuTime
      reads `enteredAt, `cpuNs, `log
    {
      Machine.CpuTime(enteredAt, cpuNs, log)
    }

    ghost function Mmu(): Machine.Mmu
      reads `cr3, `loaded, `roots, `spaceOf, `kernelRoot, `nextId, `recycled, `tlb
    {
      Machine.Mmu(cr3, loaded, tlb, roots, spaceOf, kernelRoot, nextId, recycled)
    }

    /** One pass of `Iterator::position` over the run queue. */
    method FindFirst(c: Cpu, normalOnly: bool) returns (r: Option<nat>)
      requires S.Known(View())
      ensures r == S.FirstFrom(View(), c, normalOnly, 0)
    {
      var i := 0;
      while i < |runQueue|
        invariant i <= |runQueue|
        invariant S.FirstFrom(View(), c, normalOnly, 0) == S.FirstFrom(View(), c, normalOnly, i)
      {
        var t := threads[runQueue[i]];
        var allowed := S.MaskBit(c) in t.affinity && !(t.process.Some? && t.process.value in throttled);
        if allowed && (normalOnly ==> !t.low) {
          return Some(i);
        }
        i := i + 1;
      }
      return None;
    }

    method PickNext(c: Cpu) returns (r: Option<nat>)
      requires S.Known(View())
      ensures r == S.PickNext(View(), c)
    {
      r := FindFirst(c, true);
      if r.None? {
        r := FindFirst(c, false);
      }
    }

    /** `schedule_locked` up to the context switch. */
    method ScheduleLocked(c: Cpu, st: S.State, now: nat)
      requires S.Known(View()) && c in running && !lock.Leaving?
      modifies this
      ensures View() == S.Leave(old(View()), c, st)
      ensures Follows(old(View()), S.DoYield(c), View(), now, old(Time()), Time(), old(Mmu()), Mmu())
    {
      ghost var q := View();
      hide S.Known, S.Leave, S.Next, S.Rest, Follows;
      S.RunningKnown(q, c);
      var next := TakeNext(c);
      if next == running[c] {
        StayOn(q, c, st, now);
      } else {
        SwitchTo(q, c, st, next, now);
      }
    }

    /** Nothing better to run than the current thread. */
    method StayOn(ghost q: S.Queues, c: Cpu, ghost st: S.State, ghost now: nat)
      requires S.Known(q) && c in q.running && q.running[c] in q.threads
      requires !q.lock.Leaving? && S.Next(q, c) == q.running[c]
      requires View() == q.(runQueue := S.Rest(q, c))
      modifies this`threads, this`lock
      ensures View() == S.Leave(q, c, st)
      ensures Follows(q, S.DoYield(c), View(), now, old(Time()), Time(), old(Mmu()), Mmu())
    {
      hide S.Known, S.Leave, S.Next, S.Rest, S.Stay, Follows;
      StayAfter(q, c, Time(), Mmu(), st, now);
      KeepCpu(c);
    }

    /** The thread `next`, already out of the queue, takes over. */
    method SwitchTo(ghost q: S.Queues, c: Cpu, st: S.State, next: Tid, now: nat)
      requires S.Known(q) && c in q.running && !q.lock.Leaving? && S.Next(q, c) == next != q.running[c]
      requires q.running[c] in q.threads && next in q.threads
      requires View() == q.(runQueue := S.Rest(q, c))
      modifies this
      ensures View() == S.Leave(q, c, st)
      ensures Follows(q, S.DoYield(c), View(), now, old(Time()), Time(), old(Mmu()), Mmu())
    {
      hide S.Known, S.Leave, S.Next, S.Rest, S.Swap, Follows, Machine.Account, Machine.Load, Machine.SpaceFor;
      SwitchAfter(q, c, Time(), Mmu(), st, now);
      Switch(c, st, next, now);
    }

    /** `schedule_locked` at the end of step `s`, whose earlier part, from `p`, moved no thread. */
    method ScheduleAfter(ghost p: S.Queues, ghost s: S.Step, c: Cpu, st: S.State, now: nat)
      requires S.Known(View()) && c in running && lock.Free?
      requires S.Known(p) && Machine.SameHolders(p, View()) && p.lock.Free? && !s.DoSpawn? && !s.DoOnline?
      modifies this
      ensures View() == S.Leave(old(View()), c, st)
      ensures Follows(p, s, View(), now, old(Time()), Time(), old(Mmu()), Mmu())
    {
      ghost var q := View();
      ScheduleLocked(c, st, now);
      FollowsEarlier(p, q, s, c, View(), now, old(Time()), Time(), old(Mmu()), Mmu());
    }

    /** Hands CPU `c` to `next`: accounting, address space, queues. */
    method Switch(c: Cpu, st: S.State, next: Tid, now: nat)
      requires c in running && running[c] in threads && next in threads
      modifies this
      ensures View() == S.Swap(old(View()), c, st, next, old(runQueue))
      ensures Time() == Machine.Account(old(Time()), c, old(running[c]), old(threads[running[c]]).process, next, now)
      ensures Mmu() == Machine.Load(old(Mmu()), c, Machine.SpaceFor(old(Mmu()), old(threads)[next].process))
    {
      hide S.Swap, Machine.Account, Machine.Load, Machine.SpaceFor;
      Account(c, next, now);
      HandOver(c, st, next);
    }

    /** Removes the thread to run from the queue; the idle thread is never queued. */
    method TakeNext(c: Cpu) returns (next: Tid)
      requires S.Known(View()) && c in running
      modifies this`runQueue
      ensures next == S.Next(old(View()), c) && next in threads
      ensures View() == old(View()).(runQueue := S.Rest(old(View()), c))
    {
      IdleKnown(View(), c);
      S.NextKnown(View(), c);
      hide S.Known;
      next := idle[c];
      var pick := PickNext(c);
      if pick.Some? {
        next := runQueue[pick.value];
        runQueue := runQueue[..pick.value] + runQueue[pick.value + 1..];
      }
    }

    method KeepCpu(c: Cpu)
      requires c in running && running[c] in threads
      modifies this`threads, this`lock
      ensures View() == S.Stay(old(View()), c)
    {
      var cur := running[c];
      threads := threads[cur := threads[cur].(state := S.Running, quantumLeft := S.QUANTUM_TICKS)];
      lock := S.Free;
    }

    method HandOver(c: Cpu, st: S.State, next: Tid)
      requires c in running && running[c] in threads && next in threads
      modifies this`threads, this`runQueue, this`sleepers, this`running, this`prev, this`lock
      ensures View() == S.Swap(old(View()), c, st, next, old(runQueue))
    {
      var cur := running[c];
      Enqueue(cur, st);
      threads := threads[cur := threads[cur].(state := st)];
      threads := threads[
        next := threads[next].(state := S.Running, quantumLeft := S.QUANTUM_TICKS, lastCpu := Some(c))];
      running := running[c := next];
      prev := prev[c := cur];
      lock := S.Leaving(c);
    }

    /** A thread that stays ready goes to the back of the run queue, a sleeping one to the sleepers. */
    method Enqueue(cur: Tid, st: S.State)
      requires cur in threads
      modifies this`runQueue, this`sleepers
      ensures runQueue == if st == S.Ready && !threads[cur].isIdle then old(runQueue) + [cur] else old(runQueue)
      ensures sleepers == if st == S.Sleeping then old(sleepers) + [cur] else old(sleepers)
    {
      if st == S.Ready && !threads[cur].isIdle {
        runQueue := runQueue + [cur];
      } else if st == S.Sleeping {
        sleepers := sleepers + [cur];
      }
    }

    /** What the switch does besides moving threads. */
    method Account(c: Cpu, next: Tid, now: nat)
      requires c in running && running[c] in threads && next in threads
      modifies this`enteredAt, this`cpuNs, this`log, this`cr3, this`loaded, this`recycled, this`tlb
      ensures Time() == Machine.Account(old(Time()), c, running[c], threads[running[c]].process, next, now)
      ensures Mmu() == Machine.Load(old(Mmu()), c, Machine.SpaceFor(old(Mmu()), threads[next].process))
    {
      Credit(c, running[c], next, now);
      LoadSpace(c, next);
    }

    /** CPU accounting of the switch: the outgoing thread's process gets the time since it took the CPU. */
    method Credit(c: Cpu, cur: Tid, next: Tid, now: nat)
      requires cur in threads
      modifies this`enteredAt, this`cpuNs, this`log
      ensures Time() == Machine.Account(old(Time()), c, cur, threads[cur].process, next, now)
    {
      var since := if cur in enteredAt then enteredAt[cur] else 0;
      var used := if now >= since then now - since else 0;
      var p := threads[cur].process;
      if p.Some? {
        var sofar := if p.value in cpuNs then cpuNs[p.value] else 0;
        cpuNs := cpuNs[p.value := sofar + used];
      }
      enteredAt := enteredAt[next := now];
      log := log + [Machine.Slice(c, p, since, since + used)];
    }

    /** The address space of the incoming thread, compared by identity and never by root frame. */
    method LoadSpace(c: Cpu, next: Tid)
      requires next in threads
      modifies this`cr3, this`loaded, this`recycled, this`tlb
      ensures Mmu() == Machine.Load(old(Mmu()), c, Machine.SpaceFor(old(Mmu()), threads[next].process))
    {
      var p := threads[next].process;
      var id := if p.Some? && p.value in spaceOf then spaceOf[p.value] else Machine.KERNEL_SPACE;
      var target := if id in roots then roots[id] else kernelRoot;
      if c !in loaded || loaded[c] != id {
        if c in cr3 && cr3[c] == target {
          recycled := recycled + 1;
        }
        cr3 := cr3[c := target];
        tlb := tlb[c := {}];
        loaded := loaded[c := id];
      }
    }

    /** `finish_switch` on the incoming thread's stack. */
    method FinishSwitch(c: Cpu)
      requires S.Known(View()) && c in prev
      modifies this`threads, this`runQueue, this`dead, this`prev, this`lock
      ensures View() == S.Finish(old(View()), c)
    {
      var p := prev[c];
      prev := prev - {c};
      lock := S.Free;
      if threads[p].state == S.Dying {
        var ws := threads[p].waiters;
        threads := threads[p := threads[p].(state := S.Dead, finished := true, waiters := [])];
        dead := dead + [p];
        assert View() == S.Bury(old(View()), c);
        WakeAll(ws);
      }
    }

    /** The waiters of a finished thread that are still blocked become ready, in order. */
    method WakeAll(ws: seq<Tid>)
      requires forall w :: w in ws ==> w in threads
      modifies this`threads, this`runQueue
      ensures View() == S.WakeWaiters(old(View()), ws)
    {
      ghost var q := View();
      var i := 0;
      assert ws[0..] == ws;
      while i < |ws|
        invariant i <= |ws|
        invariant forall w :: w in ws ==> w in threads
        invariant S.WakeWaiters(View(), ws[i..]) == S.WakeWaiters(q, ws)
      {
        var w := ws[i];
        assert ws[i..][0] == w && ws[i..][1..] == ws[i + 1..];
        if threads[w].state == S.Blocked {
          threads := threads[w := threads[w].(state := S.Ready)];
          runQueue := runQueue + [w];
        }
        i := i + 1;
      }
    }

    /** `unpark`: a wake-up for a thread that is not blocked, or no longer registered, changes nothing. */
    method Unpark(t: Tid)
      requires S.Known(View())
      modifies this`threads, this`runQueue
      ensures View() == S.Unpark(old(View()), t)
    {
      if t in all {
        if threads[t].state == S.Blocked {
          threads := threads[t := threads[t].(state := S.Ready)];
          runQueue := runQueue + [t];
        }
      }
    }

    /** The sleeper scan of `on_tick`: the position advances only past a sleeper that stays. */
    method WakeSleepers(now: nat)
      requires S.Known(View())
      modifies this`threads, this`sleepers, this`runQueue
      ensures View() == S.WakeDue(old(View()), 0, now)
    {
      S.SleepersKnown(View());
      hide S.Known, S.WakeSleeper;
      var i := 0;
      while i < |sleepers|
        invariant i <= |sleepers|
        invariant forall t :: t in sleepers ==> t in threads
        invariant S.WakeDue(View(), i, now) == S.WakeDue(old(View()), 0, now)
        decreases |sleepers| - i
      {
        var t := sleepers[i];
        if threads[t].wakeAt <= now {
          WakeOne(i);
        } else {
          i := i + 1;
        }
      }
    }

    method WakeOne(i: nat)
      requires i < |sleepers| && forall t :: t in sleepers ==> t in threads
      modifies this`threads, this`sleepers, this`runQueue
      ensures View() == S.WakeSleeper(old(View()), i)
      ensures |sleepers| == old(|sleepers|) - 1 && forall t :: t in sleepers ==> t in threads
    {
      var t := sleepers[i];
      ghost var before := sleepers;
      sleepers := sleepers[..i] + sleepers[i + 1..];
      assert forall u :: u in sleepers ==> u in before;
      threads := threads[t := threads[t].(state := S.Ready)];
      runQueue := runQueue + [t];
    }

    method ChargeTick(c: Cpu, boundary: bool)
      requires c in running && running[c] in threads
      modifies this`threads
      ensures View() == S.Charge(old(View()), c, boundary)
    {
      var cur := running[c];
      var left := threads[cur].quantumLeft;
      if boundary && left > 0 {
        left := left - 1;
      }
      threads := threads[cur := threads[cur].(quantumLeft := left)];
    }

    /** Must the current thread give up the CPU? */
    method MustLeave(c: Cpu, marked: set<Pid>) returns (b: bool)
      requires S.Known(View()) && c in running
      ensures b == S.Preempts(View(), c, marked)
    {
      var cur := threads[running[c]];
      if cur.process.Some? && cur.process.value in marked && !cur.isIdle {
        return true;
      }
      var any := FindFirst(c, false);
      var normal := FindFirst(c, true);
      FirstMeansSome(View(), c);
      b := any.Some? && (cur.isIdle || cur.quantumLeft == 0 || (cur.low && normal.Some?));
    }

    /** `on_tick` on CPU `c`; `mark` are the processes of the current job when it just ran out of quota. */
    method OnTick(c: Cpu, boundary: bool, mark: set<Pid>, now: nat)
      requires S.Known(View()) && c in running && lock.Free?
      modifies this
      ensures View() == S.Tick(old(View()), c, boundary, mark, now)
      ensures Follows(old(View()), S.DoTick(c, boundary, mark, now), View(), now,
                      old(Time()), Time(), old(Mmu()), Mmu())
    {
      hide S.Known, S.Decide, S.TickWake;
      ghost var p := View();
      WakeForTick(c, boundary, now);
      Decide(p, S.DoTick(c, boundary, mark, now), c, mark, now);
    }

    method Decide(ghost p: S.Queues, ghost s: S.Step, c: Cpu, mark: set<Pid>, now: nat)
      requires S.Known(View()) && c in running && lock.Free?
      requires S.Known(p) && Machine.SameHolders(p, View()) && p.lock.Free? && !s.DoSpawn? && !s.DoOnline?
      modifies this
      ensures View() == S.Decide(old(View()), c, mark)
      ensures Follows(p, s, View(), now, old(Time()), Time(), old(Mmu()), Mmu())
    {
      hide S.Known, S.Decide, S.Preempts, Follows, Machine.SameHolders;
      var b := MustLeave(c, throttled + mark);
      MarkAndLeave(p, s, b, c, mark, now);
    }

    method MarkAndLeave(ghost p: S.Queues, ghost s: S.Step, leave: bool, c: Cpu, mark: set<Pid>, now: nat)
      requires S.Known(View()) && c in running && lock.Free? && leave == S.Preempts(View(), c, throttled + mark)
      requires S.Known(p) && Machine.SameHolders(p, View()) && p.lock.Free? && !s.DoSpawn? && !s.DoOnline?
      modifies this
      ensures View() == S.Decide(old(View()), c, mark)
      ensures Follows(p, s, View(), now, old(Time()), Time(), old(Mmu()), Mmu())
    {
      hide S.Known, S.PickNext, S.Leave, S.Preempts, Follows, Machine.SameHolders;
      ghost var q := View();
      MarkKeeps(p, q, mark);
      throttled := throttled + mark;
      assert View() == q.(throttled := q.throttled + mark);
      if leave {
        ScheduleAfter(p, s, c, S.Ready, now);
      } else {
        FollowsNothing(p, View(), s, now, Time(), Mmu());
      }
    }

    method WakeForTick(c: Cpu, boundary: bool, now: nat)
      requires S.Known(View()) && c in running && lock.Free?
      modifies this`threads, this`sleepers, this`runQueue
      ensures View() == S.TickWake(old(View()), c, boundary, now)
      ensures Machine.SameHolders(old(View()), View()) && lock.Free?
    {
      ghost var q := View();
      Machine.TickWakeHolds(q, c, boundary, now);
      WokenRunner(q, c, now);
      hide S.WakeDue, S.Charge, S.Known, Machine.SameHolders;
      WakeSleepers(now);
      ChargeTick(c, boundary);
    }

    method OnReschedIpi(c: Cpu, now: nat)
      requires S.Known(View()) && c in running && lock.Free?
      modifies this
      ensures View() == S.Ipi(old(View()), c)
      ensures Follows(old(View()), S.DoIpi(c), View(), now, old(Time()), Time(), old(Mmu()), Mmu())
    {
      hide S.Known, S.Leave, S.PickNext, S.HasWork, S.NormalReady, S.FirstFrom;
      S.RunningKnown(View(), c);
      var cur := threads[running[c]];
      var any := FindFirst(c, false);
      var normal := FindFirst(c, true);
      FirstMeansSome(View(), c);
      if (cur.isIdle && any.Some?) || (cur.low && normal.Some?) {
        ScheduleLocked(c, S.Ready, now);
      }
    }

    method SleepNs(c: Cpu, wakeAt: nat, now: nat)
      requires S.Known(View()) && c in running && lock.Free?
      modifies this
      ensures View() == S.Sleep(old(View()), c, wakeAt)
      ensures Follows(old(View()), S.DoSleep(c, wakeAt), View(), now, old(Time()), Time(), old(Mmu()), Mmu())
    {
      hide S.Known, S.Leave, S.PickNext, S.SetWakeAt, Follows, Machine.SameHolders;
      ghost var p := View();
      S.RunningKnown(p, c);
      var t := running[c];
      if !threads[t].isIdle {
        SetDeadline(t, wakeAt);
        ScheduleAfter(p, S.DoSleep(c, wakeAt), c, S.Sleeping, now);
      } else {
        FollowsNothing(p, p, S.DoSleep(c, wakeAt), now, Time(), Mmu());
      }
    }

    method SetDeadline(t: Tid, wakeAt: nat)
      requires S.Known(View()) && t in threads
      modifies this`threads
      ensures View() == S.SetWakeAt(old(View()), t, wakeAt)
      ensures S.Known(View()) && Machine.SameHolders(old(View()), View())
    {
      S.SetWakeAtKnown(View(), t, wakeAt);
      Machine.SetWakeAtHolds(View(), t, wakeAt);
      hide S.Known, Machine.SameHolders;
      threads := threads[t := threads[t].(wakeAt := wakeAt)];
    }

    /** One round of `join`: the caller blocks unless the target is gone, finished, itself, or the caller is idle. */
    method JoinOnce(c: Cpu, t: Tid, now: nat) returns (found: bool, done: bool)
      requires S.Known(View()) && c in running && lock.Free?
      modifies this
      ensures View() == S.Join(old(View()), c, t)
      ensures found == (t in old(all)) && done == (t !in old(all) || old(threads)[t].finished)
      ensures Follows(old(View()), S.DoJoin(c, t), View(), now, old(Time()), Time(), old(Mmu()), Mmu())
    {
      hide S.Known, S.Leave, S.PickNext, S.AddWaiter, Follows, Machine.SameHolders;
      ghost var p := View();
      S.RunningKnown(p, c);
      S.RegisteredKnown(p, t);
      FollowsNothing(p, p, S.DoJoin(c, t), now, Time(), Mmu());
      if t !in all {
        return false, true;
      }
      if threads[t].finished {
        return true, true;
      }
      found, done := true, false;
      var cur := running[c];
      if threads[cur].isIdle || cur == t {
        return;
      }
      RegisterWaiter(t, cur);
      ScheduleAfter(p, S.DoJoin(c, t), c, S.Blocked, now);
    }

    /** A second round must not register the caller twice. */
    method RegisterWaiter(t: Tid, w: Tid)
      requires S.Known(View()) && t in threads && w in threads && lock.Free?
      modifies this`threads
      ensures View() == S.AddWaiter(old(View()), t, w)
      ensures S.Known(View()) && Machine.SameHolders(old(View()), View())
    {
      hide S.Known, Machine.SameHolders;
      AddWaiterKnown(View(), t, w);
      Machine.AddWaiterHolds(View(), t, w);
      if w !in threads[t].waiters {
        threads := threads[t := threads[t].(waiters := threads[t].waiters + [w])];
      }
    }

    /** The locked half of `reap`; the stacks of the threads returned are freed outside the lock. */
    method Reap() returns (buried: seq<Tid>)
      modifies this`all, this`dead, this`reaping
      ensures View() == S.Reap(old(View())) && buried == old(dead)
    {
      buried := dead;
      dead := [];
      Unregister(buried);
      reaping := reaping + set t | t in buried;
    }

    method Unregister(buried: seq<Tid>)
      modifies this`all
      ensures all == S.Without(old(all), buried)
    {
      var i := 0;
      WithoutNone(all);
      while i < |buried|
        invariant i <= |buried|
        invariant all == S.Without(old(all), buried[..i])
      {
        WithoutOne(old(all), buried[..i], buried[i]);
        assert buried[..i + 1] == buried[..i] + [buried[i]];
        all := S.Without(all, [buried[i]]);
        i := i + 1;
      }
      assert buried[..i] == buried;
    }
  }
}
