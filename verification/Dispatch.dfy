/**
 What a scheduling decision promises: work conservation and the exact reach of the "background"
 class at a tick, and how long an eligible normal thread can be passed over.
 */
module Dispatch {
  import opened Seqs
  import opened Sched
  import opened Placement

  // ---------------------------------------------------------------- sleepers

  function Due(th: map<Tid, Thread>, s: seq<Tid>, now: nat): seq<Tid>
    requires forall t :: t in s ==> t in th
  {
    if s == [] then []
    else if th[s[0]].wakeAt <= now then [s[0]] + Due(th, s[1..], now)
    else Due(th, s[1..], now)
  }

  function NotDue(th: map<Tid, Thread>, s: seq<Tid>, now: nat): seq<Tid>
    requires forall t :: t in s ==> t in th
  {
    if s == [] then []
    else if th[s[0]].wakeAt <= now then NotDue(th, s[1..], now)
    else [s[0]] + NotDue(th, s[1..], now)
  }

  lemma {:induction false} DueCongruent(a: map<Tid, Thread>, b: map<Tid, Thread>, s: seq<Tid>, now: nat)
    requires forall t :: t in s ==> t in a && t in b && a[t].wakeAt == b[t].wakeAt
    ensures Due(a, s, now) == Due(b, s, now) && NotDue(a, s, now) == NotDue(b, s, now)
  {
    if s != [] {
      assert s[0] in s;
      DueCongruent(a, b, s[1..], now);
    }
  }

  /** The in-place scan of `on_tick` moves exactly the due sleepers to the run queue, in order. */
  lemma {:induction false} WakeDueQueues(q: Queues, i: nat, now: nat)
    requires i <= |q.sleepers| && forall t :: t in q.sleepers ==> t in q.threads
    ensures var r := WakeDue(q, i, now);
            && r.sleepers == q.sleepers[..i] + NotDue(q.threads, q.sleepers[i..], now)
            && r.runQueue == q.runQueue + Due(q.threads, q.sleepers[i..], now)
    decreases |q.sleepers| - i
  {
    if i < |q.sleepers| {
      var t := q.sleepers[i];
      assert q.sleepers[i..][1..] == q.sleepers[i + 1..];
      if q.threads[t].wakeAt <= now {
        var r := WakeSleeper(q, i);
        WakeSleeperRest(q, i);
        hide WakeSleeper;
        WakeDueQueues(r, i, now);
        DueCongruent(q.threads, r.threads, q.sleepers[i + 1..], now);
      } else {
        WakeDueQueues(q, i + 1, now);
        assert q.sleepers[..i + 1] == q.sleepers[..i] + [t];
      }
    }
  }

  lemma WakeSleeperRest(q: Queues, i: nat)
    requires i < |q.sleepers| && forall t :: t in q.sleepers ==> t in q.threads
    ensures var r := WakeSleeper(q, i);
            && r.sleepers[..i] == q.sleepers[..i] && r.sleepers[i..] == q.sleepers[i + 1..]
            && (forall t :: t in r.sleepers ==> t in r.threads) && r.runQueue == q.runQueue + [q.sleepers[i]]
            && |r.sleepers| == |q.sleepers| - 1
            && (forall t :: t in q.threads ==> t in r.threads && r.threads[t].wakeAt == q.threads[t].wakeAt)
  {
  }

  // ---------------------------------------------------------------- one tick

  ghost predicate IdleRuns(q: Queues, c: Cpu)
    requires Known(q) && c in q.running
  {
    q.threads[q.running[c]].isIdle
  }

  /** A background thread holds the CPU while a normal thread that may run there waits. */
  ghost predicate LowOverNormal(q: Queues, c: Cpu)
    requires Known(q) && c in q.running
  {
    q.threads[q.running[c]].low && NormalReady(q, c)
  }

  /** Attributes that decide who may run where. */
  ghost predicate SameEligibility(q: Queues, r: Queues) {
    && r.threads.Keys == q.threads.Keys && r.throttled == q.throttled
    && forall t :: t in q.threads ==>
         && r.threads[t].affinity == q.threads[t].affinity && r.threads[t].low == q.threads[t].low
         && r.threads[t].process == q.threads[t].process && r.threads[t].isIdle == q.threads[t].isIdle
  }

  lemma SwapEligibility(q: Queues, c: Cpu, st: State, next: Tid, rest: seq<Tid>)
    requires c in q.running && q.running[c] in q.threads && next in q.threads
    ensures SameEligibility(q, Swap(q, c, st, next, rest))
  {
  }

  lemma StayEligibility(q: Queues, c: Cpu)
    requires c in q.running && q.running[c] in q.threads
    ensures SameEligibility(q, Stay(q, c))
  {
  }

  lemma LeaveEligibility(q: Queues, c: Cpu, st: State)
    requires Known(q) && c in q.running
    ensures SameEligibility(q, Leave(q, c, st))
  {
    if Next(q, c) == q.running[c] {
      StayEligibility(q.(runQueue := Rest(q, c)), c);
    } else {
      SwapEligibility(q, c, st, Next(q, c), Rest(q, c));
    }
  }

  lemma SameAccepts(q: Queues, r: Queues, t: Tid, c: Cpu, normalOnly: bool)
    requires SameEligibility(q, r) && t in q.threads
    ensures t in r.threads && (Accepts(r, t, c, normalOnly) <==> Accepts(q, t, c, normalOnly))
  {
  }

  /** Who takes the CPU: the thread picked, or the idle thread when nothing queued is allowed. */
  lemma LeaveTakes(q: Queues, c: Cpu, st: State)
    requires Known(q) && c in q.running
    ensures Leave(q, c, st).running == q.running[c := Next(q, c)]
    ensures Leave(q, c, st).runQueue ==
              if st == Ready && !q.threads[q.running[c]].isIdle && Next(q, c) != q.running[c]
              then Rest(q, c) + [q.running[c]] else Rest(q, c)
  {
    hide Known, PickNext, Rest, Next;
    RunningKnown(q, c);
    NextKnown(q, c);
  }

  /** With allowed work queued, a queued thread takes the CPU, low only if no normal one is allowed. */
  lemma LeaveWithWork(q: Queues, c: Cpu)
    requires Known(q) && QueuesMatch(q) && c in q.running && HasWork(q, c)
    ensures var n := Next(q, c); n in q.runQueue && !q.threads[n].isIdle && (q.threads[n].low ==> !NormalReady(q, c))
  {
    assert PickNext(q, c).Some?;
  }

  /** Without allowed work, this CPU's idle thread takes the CPU. */
  lemma LeaveWithoutWork(q: Queues, c: Cpu)
    requires Known(q) && c in q.running && !HasWork(q, c)
    ensures Next(q, c) == q.idle[c] && Rest(q, c) == q.runQueue
  {
  }

  /** Some thread of `s` passes. */
  ghost predicate AnyIn(q: Queues, s: seq<Tid>, c: Cpu, normalOnly: bool) {
    exists t :: t in s && t in q.threads && Accepts(q, t, c, normalOnly)
  }

  lemma AnyInSame(q: Queues, r: Queues, s: seq<Tid>, c: Cpu, normalOnly: bool)
    requires SameEligibility(q, r)
    ensures AnyIn(r, s, c, normalOnly) <==> AnyIn(q, s, c, normalOnly)
  {
    forall t | t in q.threads
      ensures t in r.threads && (Accepts(r, t, c, normalOnly) <==> Accepts(q, t, c, normalOnly))
    {
      SameAccepts(q, r, t, c, normalOnly);
    }
    forall t | t in s && t in r.threads && Accepts(r, t, c, normalOnly)
      ensures t in q.threads && Accepts(q, t, c, normalOnly)
    {
    }
  }

  lemma AnyInAppend(q: Queues, s: seq<Tid>, x: Tid, c: Cpu, normalOnly: bool)
    requires x in q.threads
    ensures AnyIn(q, s + [x], c, normalOnly) <==> AnyIn(q, s, c, normalOnly) || Accepts(q, x, c, normalOnly)
  {
    assert forall t :: t in s + [x] <==> t in s || t == x;
  }

  /** Who is left waiting after a preemption: the rest of the queue, plus the preempted thread. */
  lemma LeaveLeft(q: Queues, c: Cpu, normalOnly: bool)
    requires Known(q) && c in q.running && Next(q, c) != q.running[c]
    ensures var r, cur := Leave(q, c, Ready), q.running[c];
            AnyIn(r, r.runQueue, c, normalOnly) <==>
              || AnyIn(q, Rest(q, c), c, normalOnly)
              || (!q.threads[cur].isIdle && Accepts(q, cur, c, normalOnly))
  {
    var r, cur := Leave(q, c, Ready), q.running[c];
    LeaveTakes(q, c, Ready);
    LeaveEligibility(q, c, Ready);
    AnyInSame(q, r, r.runQueue, c, normalOnly);
    AnyInAppend(q, Rest(q, c), cur, c, normalOnly);
  }

  // ---------------------------------------------------------------- one tick

  /** The thread on `c` is normal, may stay, has used its quantum up, and only background threads wait for `c`. */
  ghost predicate OnlyLowRelieves(w: Queues, c: Cpu)
    requires Known(w) && c in w.running
  {
    var cur := w.threads[w.running[c]];
    && !cur.isIdle && cur.quantumLeft == 0 && Accepts(w, w.running[c], c, true)
    && HasWork(w, c) && !NormalReady(w, c)
  }

  /** A preemption with work queued never idles, and runs low over normal exactly when a low one relieved a normal. */
  lemma PreemptWithWork(q: Queues, c: Cpu)
    requires Placed(q) && c in q.running && q.lock.Free? && HasWork(q, c)
    ensures var r, cur := Leave(q, c, Ready), q.running[c];
            && Known(r) && c in r.running
            && !IdleRuns(r, c)
            && (LowOverNormal(r, c) <==>
                 !NormalReady(q, c) && !q.threads[cur].isIdle && Accepts(q, cur, c, true))
  {
    hide QueuesMatch, CpusMatch, IdlesMatch, SwitchMatch, LivesMatch, PickNext;
    var r, cur := Leave(q, c, Ready), q.running[c];
    LeavePlaced(q, c, Ready);
    LeaveWithWork(q, c);
    NextIsOff(q, c);
    LeaveLeft(q, c, true);
    LeaveTakes(q, c, Ready);
    LeaveEligibility(q, c, Ready);
    assert q.threads[Next(q, c)].low <==> !NormalReady(q, c);
  }

  /** Preempting a thread that may not run here leaves the CPU to whoever is allowed, or idle. */
  lemma PreemptBroke(q: Queues, c: Cpu)
    requires Placed(q) && c in q.running && q.lock.Free?
    requires !q.threads[q.running[c]].isIdle && !AllowedOn(q, q.running[c], c)
    ensures var r := Leave(q, c, Ready);
            && Known(r) && c in r.running
            && (IdleRuns(r, c) ==> !HasWork(r, c)) && !LowOverNormal(r, c)
  {
    var r := Leave(q, c, Ready);
    LeavePlaced(q, c, Ready);
    if HasWork(q, c) {
      PreemptWithWork(q, c);
    } else {
      LeaveWithoutWork(q, c);
      LeaveTakes(q, c, Ready);
      LeaveLeft(q, c, false);
      LeaveLeft(q, c, true);
    }
  }

  /** A job is throttled at a tick only because the thread on `c` belongs to it. */
  ghost predicate OwnMark(q: Queues, c: Cpu, mark: set<Pid>)
    requires Known(q) && c in q.running
  {
    mark != {} ==> var p := q.threads[q.running[c]].process; p.Some? && p.value in mark
  }

  /** What a tick's decision guarantees on CPU `c`. */
  ghost predicate DecidedWell(r: Queues, m: Queues, c: Cpu)
    requires Known(m) && c in m.running
  {
    && Known(r) && c in r.running
    && (IdleRuns(r, c) ==> !HasWork(r, c))
    && (LowOverNormal(r, c) <==> OnlyLowRelieves(m, c))
  }

  lemma KeepsWell(m: Queues, c: Cpu)
    requires Known(m) && c in m.running && !Preempts(m, c, m.throttled)
    ensures DecidedWell(m, m, c)
  {
  }

  lemma BrokeWell(m: Queues, c: Cpu)
    requires Placed(m) && c in m.running && m.lock.Free?
    requires !m.threads[m.running[c]].isIdle && !AllowedOn(m, m.running[c], c)
    ensures DecidedWell(Leave(m, c, Ready), m, c)
  {
    PreemptBroke(m, c);
  }

  lemma TurnWell(m: Queues, c: Cpu)
    requires Placed(m) && c in m.running && m.lock.Free? && HasWork(m, c)
    requires var cur := m.threads[m.running[c]];
             cur.isIdle || cur.quantumLeft == 0 || (cur.low && NormalReady(m, c))
    ensures DecidedWell(Leave(m, c, Ready), m, c)
  {
    PreemptWithWork(m, c);
  }

  lemma FreeWell(q: Queues, c: Cpu)
    requires Placed(q) && c in q.running && q.lock.Free?
    requires var cur := q.threads[q.running[c]]; cur.isIdle || cur.process.None? || cur.process.value !in q.throttled
    ensures DecidedWell(if Preempts(q, c, q.throttled) then Leave(q, c, Ready) else q, q, c)
  {
    if Preempts(q, c, q.throttled) {
      TurnWell(q, c);
    } else {
      KeepsWell(q, c);
    }
  }

  lemma DecideWell(q: Queues, c: Cpu, mark: set<Pid>)
    requires Placed(q) && c in q.running && q.lock.Free? && OwnMark(q, c, mark)
    ensures DecidedWell(Decide(q, c, mark), q.(throttled := q.throttled + mark), c)
  {
    var m := q.(throttled := q.throttled + mark);
    DecidePlaced(q, c, mark);
    var cur := q.threads[q.running[c]];
    if !cur.isIdle && cur.process.Some? && cur.process.value in m.throttled {
      BrokeWell(m, c);
    } else {
      NotOverdrawn(q, c, mark);
      FreeWell(q, c);
    }
  }

  /** A tick that does not overdraw the current job throttles nobody. */
  lemma NotOverdrawn(q: Queues, c: Cpu, mark: set<Pid>)
    requires Known(q) && IdlesMatch(q) && c in q.running && OwnMark(q, c, mark)
    requires var cur := q.threads[q.running[c]];
             cur.isIdle || cur.process.None? || cur.process.value !in q.throttled + mark
    ensures mark == {} && q.(throttled := q.throttled + mark) == q
  {
    assert q.throttled + {} == q.throttled;
  }

  /** The queues a tick decides on: sleepers woken, quantum charged, an overdrawn job throttled. */
  ghost function TickView(q: Queues, c: Cpu, boundary: bool, mark: set<Pid>, now: nat): (r: Queues)
    requires Known(q) && c in q.running
    ensures Known(r) && c in r.running
  {
    var w := TickWake(q, c, boundary, now);
    w.(throttled := w.throttled + mark)
  }

  /** Waking sleepers and charging the quantum change no attribute of any thread. */
  lemma TickWakeEligibility(q: Queues, c: Cpu, boundary: bool, now: nat)
    requires Known(q) && c in q.running
    ensures SameEligibility(q, TickWake(q, c, boundary, now))
    ensures TickWake(q, c, boundary, now).running == q.running
  {
    WakeDueFrame(q, 0, now);
    ChargeEligibility(q, WakeDue(q, 0, now), c, boundary);
  }

  lemma ChargeEligibility(q: Queues, d: Queues, c: Cpu, boundary: bool)
    requires SameEligibility(q, d) && c in d.running && d.running[c] in d.threads
    ensures SameEligibility(q, Charge(d, c, boundary))
  {
  }

  /**
   After a tick CPU `c` idles only if no queued thread is allowed there.  The "background" contract
   (a low thread holds the CPU only when no normal one is ready for it) holds after a tick except in
   one case, which this states exactly: a normal thread that could have gone on used up its quantum
   while only low threads were waiting.
   */
  lemma TickGuarantees(q: Queues, c: Cpu, boundary: bool, mark: set<Pid>, now: nat)
    requires Placed(q) && Enabled(q, DoTick(c, boundary, mark, now))
    ensures var r := Tick(q, c, boundary, mark, now);
            && Known(r) && c in r.running
            && (IdleRuns(r, c) ==> !HasWork(r, c))
            && (LowOverNormal(r, c) <==> OnlyLowRelieves(TickView(q, c, boundary, mark, now), c))
  {
    TickOwnMark(q, c, boundary, mark, now);
    TickWakePlaced(q, c, boundary, now);
    hide Known, QueuesMatch, CpusMatch, IdlesMatch, SwitchMatch, LivesMatch, PickNext, Decide, TickWake,
         HasWork, IdleRuns, LowOverNormal, OnlyLowRelieves;
    DecideWell(TickWake(q, c, boundary, now), c, mark);
  }

  /**
   `yield_now` gives way without looking at what waits, so both promises can fail after it.  The CPU idles
   although a thread is ready for it exactly when nothing else was: the thread that yielded is queued behind
   the choice.  A low thread holds it over a ready normal one exactly when a normal thread yielded to low ones.
   */
  lemma YieldGuarantees(q: Queues, c: Cpu)
    requires Placed(q) && Enabled(q, DoYield(c))
    ensures var r, cur := After(q, DoYield(c)), q.running[c];
            && Known(r) && c in r.running
            && (IdleRuns(r, c) && HasWork(r, c) <==>
                  !HasWork(q, c) && !q.threads[cur].isIdle && AllowedOn(q, cur, c))
            && (!IdleRuns(r, c) && LowOverNormal(r, c) <==>
                  HasWork(q, c) && !NormalReady(q, c) && !q.threads[cur].isIdle && Accepts(q, cur, c, true))
  {
    hide QueuesMatch, CpusMatch, IdlesMatch, SwitchMatch, LivesMatch, PickNext, Leave, HasWork, NormalReady;
    if HasWork(q, c) {
      PreemptWithWork(q, c);
    } else {
      YieldWithoutWork(q, c);
    }
  }

  /** Nothing is queued for `c`: its idle thread takes over, or goes on. */
  lemma YieldWithoutWork(q: Queues, c: Cpu)
    requires Placed(q) && c in q.running && q.lock.Free? && !HasWork(q, c)
    ensures var r, cur := Leave(q, c, Ready), q.running[c];
            && Known(r) && c in r.running && IdleRuns(r, c)
            && (HasWork(r, c) <==> !q.threads[cur].isIdle && AllowedOn(q, cur, c))
  {
    hide QueuesMatch, CpusMatch, IdlesMatch, SwitchMatch, LivesMatch, PickNext, Leave;
    LeavePlaced(q, c, Ready);
    LeaveWithoutWork(q, c);
    LeaveTakes(q, c, Ready);
    LeaveEligibility(q, c, Ready);
    IdleIsIdle(q, c);
    hide Next, Rest;
    if q.idle[c] != q.running[c] {
      LeaveLeft(q, c, false);
      OthersNotIdle(q, c);
    } else {
      AnyInSame(q, Leave(q, c, Ready), q.runQueue, c, false);
    }
  }

  lemma IdleIsIdle(q: Queues, c: Cpu)
    requires Known(q) && IdlesMatch(q) && c in q.running
    ensures c in q.idle && q.idle[c] in q.threads && q.threads[q.idle[c]].isIdle
  {
  }

  /** A CPU that does not run its own idle thread runs none. */
  lemma OthersNotIdle(q: Queues, c: Cpu)
    requires Known(q) && IdlesMatch(q) && c in q.running
    ensures q.threads[q.running[c]].isIdle ==> q.running[c] == q.idle[c]
  {
  }

  lemma TickOwnMark(q: Queues, c: Cpu, boundary: bool, mark: set<Pid>, now: nat)
    requires Known(q) && Enabled(q, DoTick(c, boundary, mark, now))
    ensures var w := TickWake(q, c, boundary, now); c in w.running && w.lock.Free? && OwnMark(w, c, mark)
  {
    hide TickWake, SameEligibility, Known;
    TickWakeEligibility(q, c, boundary, now);
    TickWakeLock(q, c, boundary, now);
    OwnMarkKept(q, TickWake(q, c, boundary, now), c, mark);
  }

  lemma OwnMarkKept(q: Queues, w: Queues, c: Cpu, mark: set<Pid>)
    requires Known(q) && Known(w) && SameEligibility(q, w) && w.running == q.running && c in q.running
    ensures OwnMark(w, c, mark) == OwnMark(q, c, mark)
  {
  }

  lemma TickWakeLock(q: Queues, c: Cpu, boundary: bool, now: nat)
    requires Known(q) && c in q.running
    ensures TickWake(q, c, boundary, now).lock == q.lock
  {
    WakeDueFrame(q, 0, now);
  }

  // ---------------------------------------------------------------- the exception is reachable

  /** Thread 1, normal, holds CPU 0 with `left` ticks to go; only thread 3, a background one, waits for it. */
  ghost predicate Spinning(q: Queues, left: nat) {
    && q.lock.Free? && q.sleepers == [] && q.runQueue == [3] && q.throttled == {}
    && 0 in q.running && q.running[0] == 1 && 1 in q.threads && 3 in q.threads
    && !q.threads[1].isIdle && !q.threads[1].low && q.threads[1].process.None? && q.threads[1].affinity == {0}
    && q.threads[3].low && q.threads[3].process.None? && q.threads[3].affinity == {0}
    && q.threads[1].quantumLeft == left
  }

  lemma SpinningWake(q: Queues, left: nat, now: nat)
    requires Known(q) && Spinning(q, left + 1)
    ensures Spinning(TickView(q, 0, true, {}, now), left)
    ensures TickWake(q, 0, true, now).throttled == {}
  {
  }

  lemma SpinningWork(w: Queues, left: nat)
    requires Known(w) && Spinning(w, left)
    ensures HasWork(w, 0) && !NormalReady(w, 0)
    ensures Preempts(w, 0, {}) <==> left == 0
  {
    assert w.runQueue[0] == 3 && AllowedOn(w, 3, 0);
    assert forall t :: t in w.runQueue ==> t == 3;
  }

  /** While its quantum lasts, the normal thread stays. */
  lemma SpinningTick(q: Queues, left: nat, now: nat)
    requires Known(q) && Spinning(q, left + 1) && left > 0
    ensures Spinning(Tick(q, 0, true, {}, now), left)
  {
    SpinningWake(q, left, now);
    var w := TickWake(q, 0, true, now);
    assert w.(throttled := w.throttled + {}) == w;
    SpinningWork(w, left);
  }

  /** At the last tick the background thread takes the CPU although a normal thread is ready for it. */
  lemma SpinningLastTick(q: Queues, now: nat)
    requires Placed(q) && Spinning(q, 1)
    ensures var r := Tick(q, 0, true, {}, now); Known(r) && 0 in r.running && LowOverNormal(r, 0)
  {
    hide QueuesMatch, CpusMatch, IdlesMatch, SwitchMatch, LivesMatch, Tick, TickView, HasWork, NormalReady, Known;
    SpinningWake(q, 0, now);
    SpinningWork(TickView(q, 0, true, {}, now), 0);
    TickGuarantees(q, 0, true, {}, now);
  }

  /** A run goes on with one more step. */
  lemma RunOn(qs: seq<Queues>, ss: seq<Step>, s: Step, r: Queues)
    requires IsRun(qs, ss) && StepsTo(qs[|ss|], s, r)
    ensures IsRun(qs + [r], ss + [s])
  {
    hide StepsTo;
  }

  lemma {:induction false} SpinningRun(qs: seq<Queues>, ss: seq<Step>, left: nat)
    returns (rs: seq<Queues>, ts: seq<Step>)
    requires IsRun(qs, ss) && Placed(qs[|ss|]) && Spinning(qs[|ss|], left) && left > 0
    ensures IsRun(rs, ts) && rs[0] == qs[0]
    ensures var r := rs[|ts|]; Known(r) && 0 in r.running && LowOverNormal(r, 0)
    decreases left
  {
    hide QueuesMatch, CpusMatch, IdlesMatch, SwitchMatch, LivesMatch, Tick, LowOverNormal;
    var q, s := qs[|ss|], DoTick(0, true, {}, 0);
    var r := Tick(q, 0, true, {}, 0);
    RunOn(qs, ss, s, r);
    if left == 1 {
      SpinningLastTick(q, 0);
      rs, ts := qs + [r], ss + [s];
    } else {
      SpinningTick(q, left - 1, 0);
      TickPlaced(q, 0, true, {}, 0);
      hide Known, StepsTo;
      rs, ts := SpinningRun(qs + [r], ss + [s], left - 1);
    }
  }

  lemma SpawnedSpins()
    ensures Spinning(Spawn(Boot(), 3, true, {0}, None), QUANTUM_TICKS)
    ensures 3 !in Boot().threads && Boot().lock.Free?
  {
    hide AllCpus;
  }

  /** The background contract of `pick_next` fails on a run from boot: a low thread is spawned, and ten ticks go by. */
  lemma LowOverNormalIsReachable() returns (qs: seq<Queues>, ss: seq<Step>)
    ensures IsRun(qs, ss) && qs[0] == Boot()
    ensures var r := qs[|ss|]; Known(r) && 0 in r.running && LowOverNormal(r, 0)
  {
    hide QueuesMatch, CpusMatch, IdlesMatch, SwitchMatch, LivesMatch;
    BootPlaced();
    SpawnPlaced(Boot(), 3, true, {0}, None);
    SpawnedSpins();
    hide Known, Boot, Spawn, Spinning;
    qs, ss := [Boot(), Spawn(Boot(), 3, true, {0}, None)], [DoSpawn(3, true, {0}, None)];
    qs, ss := SpinningRun(qs, ss, QUANTUM_TICKS);
  }
}
