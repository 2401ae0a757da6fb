/**
 How long an eligible normal thread can be passed over.  `Ahead` counts the normal threads queued
 before it that the same CPU would take first; with the current quantum it bounds the number of
 timer ticks the thread can still wait, over every run.
 */
module Fairness {
  import opened Seqs
  import opened Sched
  import opened Placement
  import opened Dispatch

  /** The part of `s` before the first `t`. */
  function Before(s: seq<Tid>, t: Tid): (r: seq<Tid>)
    ensures r <= s && t !in r
    ensures t in s ==> |r| < |s| && s[|r|] == t
  {
    if s == [] || s[0] == t then [] else [s[0]] + Before(s[1..], t)
  }

  /** How many threads of `s` CPU `c` would take as normal ones. */
  ghost function Count(q: Queues, s: seq<Tid>, c: Cpu): nat {
    if s == [] then 0
    else (if s[0] in q.threads && Accepts(q, s[0], c, true) then 1 else 0) + Count(q, s[1..], c)
  }

  ghost function Ahead(q: Queues, t: Tid, c: Cpu): nat {
    Count(q, Before(q.runQueue, t), c)
  }

  lemma {:induction false} CountAppend(q: Queues, a: seq<Tid>, b: seq<Tid>, c: Cpu)
    ensures Count(q, a + b, c) == Count(q, a, c) + Count(q, b, c)
  {
    if a == [] {
      assert a + b == b;
    } else {
      assert (a + b)[1..] == a[1..] + b;
      CountAppend(q, a[1..], b, c);
    }
  }

  /** Every thread `r` would take, `q` would take too. */
  ghost predicate NoMoreEligible(q: Queues, r: Queues, c: Cpu) {
    forall t :: t in q.threads && t in r.threads && Accepts(r, t, c, true) ==> Accepts(q, t, c, true)
  }

  lemma {:induction false} CountShrinks(q: Queues, r: Queues, s: seq<Tid>, c: Cpu)
    requires NoMoreEligible(q, r, c) && forall t :: t in s ==> t in q.threads
    ensures Count(r, s, c) <= Count(q, s, c)
  {
    if s != [] {
      assert s[0] in s;
      CountShrinks(q, r, s[1..], c);
    }
  }

  lemma {:induction false} BeforeIs(s: seq<Tid>, k: nat, t: Tid)
    requires k < |s| && s[k] == t && t !in s[..k]
    ensures Before(s, t) == s[..k]
  {
    if k > 0 {
      assert s[0] in s[..k];
      assert s[1..][..k - 1] == s[..k][1..];
      BeforeIs(s[1..], k - 1, t);
      assert s[..k] == [s[0]] + s[1..][..k - 1];
    }
  }

  lemma BeforeAppend(s: seq<Tid>, u: seq<Tid>, t: Tid)
    requires t in s
    ensures Before(s + u, t) == Before(s, t)
  {
    hide Before;
    var b := Before(s, t);
    assert (s + u)[..|b|] == b;
    BeforeIs(s + u, |b|, t);
  }

  /** Removing an element before `t`: what is before `t` loses exactly that element. */
  lemma BeforeRemove(s: seq<Tid>, i: nat, t: Tid)
    requires t in s && i < |Before(s, t)|
    ensures Before(RemoveAt(s, i), t) == RemoveAt(Before(s, t), i)
  {
    hide Before, RemoveAt;
    var b := Before(s, t);
    var u := s[|b|..];
    assert s == b + u && u[0] == t;
    RemoveAtPrefix(b, u, i);
    RemoveAtSubset(b, i, t);
    BeforeConcat(RemoveAt(b, i), u, t);
  }

  lemma BeforeConcat(c: seq<Tid>, u: seq<Tid>, t: Tid)
    requires t !in c && u != [] && u[0] == t
    ensures Before(c + u, t) == c
  {
    hide Before;
    assert (c + u)[..|c|] == c && (c + u)[|c|] == t;
    BeforeIs(c + u, |c|, t);
  }

  /** Removing an element after `t` changes nothing before it. */
  lemma BeforeKeep(s: seq<Tid>, i: nat, t: Tid)
    requires t in s && |Before(s, t)| < i < |s|
    ensures Before(RemoveAt(s, i), t) == Before(s, t)
  {
    hide Before;
    var b := Before(s, t);
    assert RemoveAt(s, i)[..|b|] == b;
    BeforeIs(RemoveAt(s, i), |b|, t);
  }

  lemma CountRemove(q: Queues, s: seq<Tid>, i: nat, c: Cpu)
    requires i < |s|
    ensures Count(q, RemoveAt(s, i), c) + Count(q, [s[i]], c) == Count(q, s, c)
  {
    assert s == s[..i] + ([s[i]] + s[i + 1..]);
    CountAppend(q, s[..i], [s[i]] + s[i + 1..], c);
    CountAppend(q, [s[i]], s[i + 1..], c);
    CountAppend(q, s[..i], s[i + 1..], c);
  }

  /** Taking a thread other than `t` off the queue never moves `t` back, and a taken normal moves it forward. */
  lemma RestAhead(q: Queues, t: Tid, c: Cpu, d: Cpu)
    requires Known(q) && NoDup(q.runQueue) && t in q.runQueue && d in q.running && Next(q, d) != t
    ensures t in Rest(q, d)
    ensures Count(q, Before(Rest(q, d), t), c) <= Ahead(q, t, c)
    ensures d == c && Accepts(q, t, c, true) ==> Count(q, Before(Rest(q, d), t), c) < Ahead(q, t, c)
  {
    var pick, b := PickNext(q, d), Before(q.runQueue, t);
    if pick.Some? {
      var i := pick.value;
      RemoveAtMembers(q.runQueue, i);
      if i < |b| {
        BeforeRemove(q.runQueue, i, t);
        CountRemove(q, b, i, c);
        assert b[i] == q.runQueue[i];
      } else {
        BeforeKeep(q.runQueue, i, t);
      }
    }
  }

  // ---------------------------------------------------------------- one step

  /** Ticks that can still pass before CPU `c` must have taken `t`: a quantum and one more for each thread ahead. */
  ghost function Wait(q: Queues, t: Tid, c: Cpu): nat
    requires Known(q) && c in q.running
  {
    11 * Ahead(q, t, c) + q.threads[q.running[c]].quantumLeft
  }

  lemma GrowAhead(q: Queues, r: Queues, t: Tid, c: Cpu)
    requires (forall x :: x in q.runQueue ==> x in q.threads) && NoMoreEligible(q, r, c)
    requires t in q.runQueue && q.runQueue <= r.runQueue
    ensures Ahead(r, t, c) <= Ahead(q, t, c)
  {
    hide NoMoreEligible;
    var u := r.runQueue[|q.runQueue|..];
    assert r.runQueue == q.runQueue + u;
    BeforeAppend(q.runQueue, u, t);
    var b := Before(q.runQueue, t);
    assert forall x :: x in b ==> x in q.runQueue;
    CountShrinks(q, r, b, c);
  }

  /** Queueing behind `t`, and taking eligibility away, never makes `t` wait longer. */
  lemma GrowWait(q: Queues, r: Queues, t: Tid, c: Cpu)
    requires Known(q) && Known(r) && c in q.running && c in r.running && r.running[c] == q.running[c]
    requires t in q.runQueue && q.runQueue <= r.runQueue && NoMoreEligible(q, r, c)
    requires r.threads[r.running[c]].quantumLeft <= q.threads[q.running[c]].quantumLeft
    ensures Ahead(r, t, c) <= Ahead(q, t, c) && Wait(r, t, c) <= Wait(q, t, c)
  {
    hide Ahead, NoMoreEligible;
    GrowAhead(q, r, t, c);
  }

  lemma EligibilityKeeps(q: Queues, r: Queues, c: Cpu)
    requires SameEligibility(q, r)
    ensures NoMoreEligible(q, r, c)
  {
    forall t | t in q.threads && t in r.threads && Accepts(r, t, c, true)
      ensures Accepts(q, t, c, true)
    {
      SameAccepts(q, r, t, c, true);
    }
  }

  /** A decision on CPU `d` that leaves `t` queued: `t` never moves back, and on `c` it moves forward. */
  lemma LeaveAhead(q: Queues, d: Cpu, st: State, t: Tid, c: Cpu)
    requires Known(q) && NoDup(q.runQueue) && d in q.running && t in q.runQueue && Next(q, d) != t
    ensures t in Leave(q, d, st).runQueue
    ensures Ahead(Leave(q, d, st), t, c) <= Ahead(q, t, c)
    ensures d == c && Accepts(q, t, c, true) ==> Ahead(Leave(q, d, st), t, c) < Ahead(q, t, c)
  {
    hide PickNext, Leave, Before, Count, SameEligibility;
    var r, rest := Leave(q, d, st), Rest(q, d);
    RestAhead(q, t, c, d);
    LeaveTakes(q, d, st);
    LeaveEligibility(q, d, st);
    EligibilityKeeps(q, r, c);
    BeforeAppend(rest, [q.running[d]], t);
    var b := Before(rest, t);
    assert forall x :: x in rest ==> x in q.runQueue;
    hide NoMoreEligible;
    CountShrinks(q, r, b, c);
  }

  lemma SwapQuantum(q: Queues, d: Cpu, st: State, next: Tid, rest: seq<Tid>, c: Cpu)
    requires CpusMatch(q) && CanSwap(q, d, st, next, rest) && c in q.running
    ensures var r := Swap(q, d, st, next, rest);
            && c in r.running && r.running[c] in r.threads
            && (c == d ==> r.threads[r.running[c]].quantumLeft == QUANTUM_TICKS)
            && (c != d ==> r.running[c] == q.running[c] && r.threads[r.running[c]] == q.threads[q.running[c]])
  {
    Exclusive(q, c, d);
  }

  /** The quantum of the thread on `c` is untouched by decisions elsewhere and renewed by decisions on `c`. */
  lemma LeaveQuantum(q: Queues, d: Cpu, st: State, c: Cpu)
    requires Known(q) && QueuesMatch(q) && CpusMatch(q) && IdlesMatch(q) && CanLeave(q, d, st) && c in q.running
    ensures var r := Leave(q, d, st);
            && c in r.running && r.running[c] in r.threads
            && (c == d ==> r.threads[r.running[c]].quantumLeft == QUANTUM_TICKS)
            && (c != d ==> r.running[c] == q.running[c] && r.threads[r.running[c]] == q.threads[q.running[c]])
  {
    hide PickNext, Next, Rest, Known, QueuesMatch, CpusMatch, IdlesMatch;
    RunningKnown(q, c);
    LeaveShape(q, d, st);
    if Next(q, d) == q.running[d] {
      Exclusive(q, c, d);
    } else {
      SwapQuantum(q, d, st, Next(q, d), Rest(q, d), c);
    }
  }

  lemma LeaveWait(q: Queues, d: Cpu, st: State, t: Tid, c: Cpu)
    requires Placed(q) && CanLeave(q, d, st) && c in q.running
    requires t in q.runQueue && Accepts(q, t, c, true) && t in Leave(q, d, st).runQueue
    ensures var r := Leave(q, d, st);
            && Placed(r) && c in r.running
            && Wait(r, t, c) <= Wait(q, t, c) && (d == c ==> Wait(r, t, c) < Wait(q, t, c))
  {
    hide QueuesMatch, CpusMatch, IdlesMatch, LivesMatch, SwitchMatch, PickNext, Leave;
    LeavePlaced(q, d, st);
    NextStays(q, d, st, t);
    QueueNoDup(q);
    LeaveAhead(q, d, st, t, c);
    LeaveQuantum(q, d, st, c);
  }

  lemma QueueNoDup(q: Queues)
    requires QueuesMatch(q)
    ensures NoDup(q.runQueue)
  {
  }

  /** A thread still queued after a decision was not the one chosen. */
  lemma NextStays(q: Queues, d: Cpu, st: State, t: Tid)
    requires Known(q) && QueuesMatch(q) && CpusMatch(q) && IdlesMatch(q) && CanLeave(q, d, st)
    requires t in q.runQueue && t in Leave(q, d, st).runQueue
    ensures Next(q, d) != t
  {
    NextIsOff(q, d);
    LeaveTakes(q, d, st);
  }

  lemma {:induction false} WakeWaitersAppends(q: Queues, ws: seq<Tid>)
    requires forall w :: w in ws ==> w in q.threads
    ensures q.runQueue <= WakeWaiters(q, ws).runQueue
    decreases |ws|
  {
    if ws != [] {
      WakeWaitersAppends(if q.threads[ws[0]].state == Blocked then MakeReady(q, ws[0]) else q, ws[1..]);
    }
  }

  /** The wake-up half of a tick puts nobody before `t`; a boundary on `c` shortens its wait or ends a quantum. */
  lemma TickWakeWait(q: Queues, d: Cpu, boundary: bool, now: nat, t: Tid, c: Cpu)
    requires Placed(q) && d in q.running && c in q.running && t in q.runQueue
    ensures var w := TickWake(q, d, boundary, now);
            && t in w.runQueue && Wait(w, t, c) <= Wait(q, t, c)
            && (d == c && boundary && w.threads[w.running[c]].quantumLeft > 0 ==> Wait(w, t, c) < Wait(q, t, c))
  {
    var w := TickWake(q, d, boundary, now);
    TickWakeEligibility(q, d, boundary, now);
    EligibilityKeeps(q, w, c);
    WakeDueQueues(q, 0, now);
    TickWakeQuantum(q, d, boundary, now, c);
    GrowWait(q, w, t, c);
  }

  lemma TickWakeQuantum(q: Queues, d: Cpu, boundary: bool, now: nat, c: Cpu)
    requires Known(q) && CpusMatch(q) && d in q.running && c in q.running
    ensures var w := TickWake(q, d, boundary, now);
            var a, b := q.threads[q.running[c]].quantumLeft, w.threads[w.running[c]].quantumLeft;
            w.running == q.running && b <= a && (d == c && boundary && b > 0 ==> b < a)
  {
    hide Known, CpusMatch, WakeDue;
    SleepersKnown(q);
    RunningKnown(q, c);
    RunningKnown(q, d);
    WakeDueFrame(q, 0, now);
    Exclusive(q, c, d);
  }

  lemma DecideWait(q: Queues, d: Cpu, mark: set<Pid>, t: Tid, c: Cpu)
    requires Placed(q) && d in q.running && c in q.running && q.lock.Free? && t in q.runQueue
    requires var r := Decide(q, d, mark); t in r.runQueue && t in r.threads && Accepts(r, t, c, true)
    ensures var r := Decide(q, d, mark);
            && Placed(r) && c in r.running && Wait(r, t, c) <= Wait(q, t, c)
            && (d == c && q.threads[q.running[c]].quantumLeft == 0 ==> Wait(r, t, c) < Wait(q, t, c))
  {
    hide QueuesMatch, CpusMatch, IdlesMatch, LivesMatch, SwitchMatch, PickNext, Leave;
    var m := q.(throttled := q.throttled + mark);
    DecidePlaced(q, d, mark);
    assert NoMoreEligible(q, m, c);
    GrowWait(q, m, t, c);
    if Preempts(q, d, m.throttled) {
      LeaveEligibility(m, d, Ready);
      SameAccepts(m, Leave(m, d, Ready), t, c, true);
      LeaveWait(m, d, Ready, t, c);
    } else {
      assert d == c ==> HasWork(q, c);
    }
  }

  lemma TickWait(q: Queues, d: Cpu, boundary: bool, mark: set<Pid>, now: nat, t: Tid, c: Cpu)
    requires Placed(q) && d in q.running && c in q.running && q.lock.Free? && t in q.runQueue
    requires var r := Tick(q, d, boundary, mark, now); t in r.runQueue && t in r.threads && Accepts(r, t, c, true)
    ensures var r := Tick(q, d, boundary, mark, now);
            && Placed(r) && c in r.running && Wait(r, t, c) <= Wait(q, t, c)
            && (d == c && boundary ==> Wait(r, t, c) < Wait(q, t, c))
  {
    TickWakePlaced(q, d, boundary, now);
    TickWakeWait(q, d, boundary, now, t, c);
    DecideWait(TickWake(q, d, boundary, now), d, mark, t, c);
  }

  /** A step that can only queue behind others: CPUs, quanta and eligibility of existing threads stay. */
  ghost predicate Calm(q: Queues, r: Queues) {
    && q.runQueue <= r.runQueue && r.throttled == q.throttled
    && (forall c :: c in q.running ==> c in r.running && r.running[c] == q.running[c])
    && (forall t :: t in q.threads ==> t in r.threads && CalmThread(q.threads[t], r.threads[t]))
  }

  ghost predicate CalmThread(a: Thread, b: Thread) {
    && b.affinity == a.affinity && b.low == a.low && b.process == a.process && b.quantumLeft == a.quantumLeft
  }

  lemma CalmWait(q: Queues, r: Queues, t: Tid, c: Cpu)
    requires Known(q) && Known(r) && Calm(q, r) && c in q.running && t in q.runQueue
    ensures c in r.running && Wait(r, t, c) <= Wait(q, t, c)
  {
    forall x | x in q.threads
      ensures x in r.threads && CalmThread(q.threads[x], r.threads[x])
    {
    }
    GrowWait(q, r, t, c);
  }

  lemma SpawnCalm(q: Queues, t: Tid, low: bool, mask: set<nat>, process: Option<Pid>)
    requires t !in q.threads
    ensures Calm(q, Spawn(q, t, low, mask, process))
  {
  }

  lemma OnlineCalm(q: Queues, c: Cpu, t: Tid)
    requires t !in q.threads && c !in q.running
    ensures Calm(q, Online(q, c, t))
  {
  }

  lemma UnparkCalm(q: Queues, t: Tid)
    requires Known(q)
    ensures Calm(q, Unpark(q, t))
  {
    hide Known;
    RegisteredKnown(q, t);
  }

  lemma SetWakeAtCalm(q: Queues, t: Tid, wakeAt: nat)
    requires t in q.threads
    ensures Calm(q, SetWakeAt(q, t, wakeAt))
  {
  }

  lemma AddWaiterCalm(q: Queues, t: Tid, w: Tid)
    requires t in q.threads
    ensures Calm(q, AddWaiter(q, t, w))
    ensures SameEligibility(q, AddWaiter(q, t, w))
  {
  }

  lemma UntouchedCalm(q: Queues, r: Queues)
    requires r.threads == q.threads && r.runQueue == q.runQueue && r.running == q.running && r.throttled == q.throttled
    ensures Calm(q, r)
  {
  }

  lemma BuryCalm(q: Queues, c: Cpu)
    requires Known(q) && c in q.prev
    ensures Calm(q, Bury(q, c))
  {
    hide Known;
    PrevKnown(q, c);
  }

  lemma WakeWaitersCalm(q: Queues, ws: seq<Tid>)
    requires forall w :: w in ws ==> w in q.threads
    ensures Calm(q, WakeWaiters(q, ws))
  {
    WakeWaitersFrame(q, ws);
    WakeWaitersAppends(q, ws);
  }

  lemma CalmTransitive(p: Queues, q: Queues, r: Queues)
    requires Calm(p, q) && Calm(q, r)
    ensures Calm(p, r)
  {
  }

  lemma FinishCalmly(q: Queues, c: Cpu)
    requires Placed(q) && q.lock == Arrived(c)
    ensures c in q.prev && Calm(q, Finish(q, c))
  {
    BuryPlaced(q, c);
    BuryCalm(q, c);
    WakeWaitersCalm(Bury(q, c), Mourners(q, c));
    CalmTransitive(q, Bury(q, c), Finish(q, c));
  }

  /** No step but a change of attributes or quota makes `t` wait longer; a boundary tick on `c` shortens its wait. */
  lemma OrdinaryStepWait(q: Queues, s: Step, t: Tid, c: Cpu)
    requires Placed(q) && Enabled(q, s) && c in q.running && t in q.runQueue && Accepts(q, t, c, true)
    requires !ChangesRules(s)
    requires var r := After(q, s); t in r.runQueue && t in r.threads && Accepts(r, t, c, true)
    ensures WaitsLess(q, s, After(q, s), t, c)
  {
    assert !s.DoAttributes? && !s.DoQuota?;
    hide *;
    if s.DoYield? || s.DoExit? {
      LeaveStepWait(q, s, t, c);
    } else if s.DoPark? {
      ParkStepWait(q, s, t, c);
    } else if s.DoTick? || s.DoSleep? || s.DoJoin? || s.DoIpi? {
      RegionStepWait(q, s, t, c);
    } else {
      OtherStepWait(q, s, t, c);
    }
  }

  ghost predicate ChangesRules(s: Step) {
    s.DoAttributes? || s.DoQuota?
  }

  /** How many of the threads ahead of `t` a change of attributes or quota newly admits to `c`, on balance. */
  ghost function Raise(q: Queues, s: Step, r: Queues, t: Tid, c: Cpu): nat {
    if ChangesRules(s) && Ahead(r, t, c) > Ahead(q, t, c) then Ahead(r, t, c) - Ahead(q, t, c) else 0
  }

  /** A change of rules moves no thread and charges no quantum. */
  lemma RulesStepFields(q: Queues, s: Step, c: Cpu)
    requires Placed(q) && Enabled(q, s) && ChangesRules(s) && c in q.running
    ensures var r := After(q, s);
            && Known(r) && r.running == q.running && q.running[c] in q.threads && q.running[c] in r.threads
            && r.threads[q.running[c]].quantumLeft == q.threads[q.running[c]].quantumLeft
  {
    hide Known, QueuesMatch, CpusMatch, IdlesMatch, SwitchMatch, LivesMatch;
    RunningKnown(q, c);
    StepPlaced(q, s);
    if s.DoAttributes? {
      RegisteredKnown(q, s.tid);
    }
  }

  lemma RulesStepWait(q: Queues, s: Step, t: Tid, c: Cpu)
    requires Placed(q) && Enabled(q, s) && ChangesRules(s) && c in q.running
    ensures var r := After(q, s);
            Known(r) && c in r.running && Wait(r, t, c) <= Wait(q, t, c) + 11 * Raise(q, s, r, t, c)
  {
    hide Known, Apply, Enabled, Ahead, QueuesMatch, CpusMatch, IdlesMatch, SwitchMatch, LivesMatch;
    RulesStepFields(q, s, c);
  }

  /**
   No step makes a waiting normal thread wait longer, except that a change of attributes or quota costs
   eleven ticks for each thread ahead that it admits; a boundary tick on `c` shortens the wait.
   */
  lemma StepWait(q: Queues, s: Step, t: Tid, c: Cpu)
    requires Placed(q) && Enabled(q, s) && c in q.running && t in q.runQueue && Accepts(q, t, c, true)
    requires var r := After(q, s); t in r.runQueue && t in r.threads && Accepts(r, t, c, true)
    ensures var r := After(q, s);
            && Known(r) && c in r.running
            && Wait(r, t, c) + (if BoundaryTick(s, c) then 1 else 0) <= Wait(q, t, c) + 11 * Raise(q, s, r, t, c)
  {
    hide Known, Enabled, Apply, Accepts, Wait, Raise, QueuesMatch, CpusMatch, IdlesMatch, SwitchMatch, LivesMatch;
    if ChangesRules(s) {
      RulesStepWait(q, s, t, c);
    } else {
      OrdinaryStepWait(q, s, t, c);
    }
  }

  /** The steps that may end in a dispatch. */
  predicate DispatchStep(s: Step) {
    s.DoTick? || s.DoYield? || s.DoExit? || s.DoPark? || s.DoSleep? || s.DoJoin? || s.DoIpi?
  }

  /** `t` waits no longer after the step, and less after a boundary tick on its CPU. */
  ghost predicate WaitsLess(q: Queues, s: Step, r: Queues, t: Tid, c: Cpu)
    requires Known(q) && c in q.running
  {
    && Known(r) && c in r.running && Wait(r, t, c) <= Wait(q, t, c)
    && (s.DoTick? && s.cpu == c && s.boundary ==> Wait(r, t, c) < Wait(q, t, c))
  }

  lemma LeaveStepWait(q: Queues, s: Step, t: Tid, c: Cpu)
    requires s.DoYield? || s.DoExit?
    requires Placed(q) && Enabled(q, s) && c in q.running && t in q.runQueue && Accepts(q, t, c, true)
    requires var r := After(q, s); t in r.runQueue && t in r.threads && Accepts(r, t, c, true)
    ensures WaitsLess(q, s, After(q, s), t, c)
  {
    hide Wait, Accepts, QueuesMatch, CpusMatch, IdlesMatch, SwitchMatch, LivesMatch, Leave;
    match s
    case DoYield(d) => LeaveWait(q, d, Ready, t, c);
    case DoExit(d) => LeaveWait(q, d, Dying, t, c);
  }

  lemma ParkStepWait(q: Queues, s: Step, t: Tid, c: Cpu)
    requires s.DoPark?
    requires Placed(q) && Enabled(q, s) && c in q.running && t in q.runQueue && Accepts(q, t, c, true)
    requires var r := After(q, s); t in r.runQueue && t in r.threads && Accepts(r, t, c, true)
    ensures WaitsLess(q, s, After(q, s), t, c)
  {
    hide Wait, Accepts, QueuesMatch, CpusMatch, IdlesMatch, LivesMatch, Leave;
    LeaveWait(q, s.cpu, Blocked, t, c);
  }

  lemma OtherStepWait(q: Queues, s: Step, t: Tid, c: Cpu)
    requires !s.DoYield? && !s.DoExit? && !s.DoPark? && !s.DoTick? && !s.DoSleep? && !s.DoJoin? && !s.DoIpi?
    requires !s.DoAttributes? && !s.DoQuota?
    requires Placed(q) && Enabled(q, s) && c in q.running && t in q.runQueue && Accepts(q, t, c, true)
    requires var r := After(q, s); t in r.runQueue && t in r.threads && Accepts(r, t, c, true)
    ensures WaitsLess(q, s, After(q, s), t, c)
  {
    hide Wait, Accepts, Calm, Apply, QueuesMatch, CpusMatch, IdlesMatch, SwitchMatch, LivesMatch;
    StepPlaced(q, s);
    OtherCalm(q, s);
    CalmWait(q, After(q, s), t, c);
  }

  lemma RegionStepWait(q: Queues, s: Step, t: Tid, c: Cpu)
    requires s.DoTick? || s.DoSleep? || s.DoJoin? || s.DoIpi?
    requires Placed(q) && Enabled(q, s) && c in q.running && t in q.runQueue && Accepts(q, t, c, true)
    requires var r := After(q, s); t in r.runQueue && t in r.threads && Accepts(r, t, c, true)
    ensures WaitsLess(q, s, After(q, s), t, c)
  {
    hide Known, Wait, Accepts, QueuesMatch, CpusMatch, IdlesMatch, SwitchMatch, LivesMatch, Tick, Sleep, Join, Ipi;
    match s
    case DoTick(d, boundary, mark, now) => TickWait(q, d, boundary, mark, now, t, c);
    case DoSleep(d, wakeAt) => SleepWait(q, d, wakeAt, t, c);
    case DoJoin(d, u) => JoinWait(q, d, u, t, c);
    case DoIpi(d) => IpiWait(q, d, t, c);
  }

  lemma OtherCalm(q: Queues, s: Step)
    requires Placed(q) && Enabled(q, s) && !DispatchStep(s) && !s.DoAttributes? && !s.DoQuota?
    ensures Calm(q, After(q, s))
  {
    hide QueuesMatch, CpusMatch, IdlesMatch, LivesMatch, Calm, Spawn, Online, Unpark, Finish;
    match s
    case DoSpawn(u, low, mask, process) => SpawnCalm(q, u, low, mask, process);
    case DoOnline(d, u) => OnlineCalm(q, d, u);
    case DoUnpark(u) => UnparkCalm(q, u);
    case DoFinish(d) => FinishCalmly(q, d);
    case EnterPark(_) => UntouchedCalm(q, After(q, s));
    case DoLand(_) => UntouchedCalm(q, After(q, s));
    case DoReap => UntouchedCalm(q, After(q, s));
    case DoFreeStack(_) => UntouchedCalm(q, After(q, s));
  }

  lemma SleepWait(q: Queues, d: Cpu, wakeAt: nat, t: Tid, c: Cpu)
    requires Placed(q) && d in q.running && q.lock.Free? && c in q.running
    requires t in q.runQueue && Accepts(q, t, c, true) && t in Sleep(q, d, wakeAt).runQueue
    ensures var r := Sleep(q, d, wakeAt); Known(r) && c in r.running && Wait(r, t, c) <= Wait(q, t, c)
  {
    hide Wait, Leave, PickNext, QueuesMatch, CpusMatch, IdlesMatch, SwitchMatch, LivesMatch;
    var u := q.running[d];
    if !q.threads[u].isIdle {
      var m := SetWakeAt(q, u, wakeAt);
      SetWakeAtPlaced(q, u, wakeAt);
      SetWakeAtCalm(q, u, wakeAt);
      CalmWait(q, m, t, c);
      LeaveWait(m, d, Sleeping, t, c);
    }
  }

  lemma JoinWait(q: Queues, d: Cpu, u: Tid, t: Tid, c: Cpu)
    requires Placed(q) && d in q.running && q.lock.Free? && c in q.running
    requires t in q.runQueue && Accepts(q, t, c, true) && t in Join(q, d, u).runQueue
    ensures var r := Join(q, d, u); Known(r) && c in r.running && Wait(r, t, c) <= Wait(q, t, c)
  {
    JoinTarget(q, d, u);
    if JoinBlocks(q, d, u) {
      WaiterWait(q, d, u, q.running[d], t, c);
      hide Wait, Accepts, Leave, AddWaiter, Known, QueuesMatch, CpusMatch, IdlesMatch, SwitchMatch, LivesMatch;
      LeaveWait(AddWaiter(q, u, q.running[d]), d, Blocked, t, c);
    }
  }

  /** Registering a waiter changes nothing about who waits how long. */
  lemma WaiterWait(q: Queues, d: Cpu, u: Tid, w: Tid, t: Tid, c: Cpu)
    requires Placed(q) && d in q.running && q.lock.Free? && c in q.running && u in q.threads && w == q.running[d]
    requires q.threads[u].state != Dead && w in q.threads && !q.threads[w].isIdle
    requires t in q.runQueue && Accepts(q, t, c, true)
    ensures var m := AddWaiter(q, u, w);
            && Placed(m) && CanLeave(m, d, Blocked) && c in m.running && t in m.runQueue && t in m.threads
            && Accepts(m, t, c, true) && Wait(m, t, c) <= Wait(q, t, c)
  {
    assert t in q.threads;
    hide Wait, Accepts, AddWaiter, Known, Calm, QueuesMatch, CpusMatch, IdlesMatch, SwitchMatch, LivesMatch;
    var m := AddWaiter(q, u, w);
    AddWaiterPlaced(q, u, w);
    AddWaiterCalm(q, u, w);
    AddWaiterFields(q, u, w);
    hide SameEligibility;
    SameAccepts(q, m, t, c, true);
    CalmWait(q, m, t, c);
  }

  lemma AddWaiterFields(q: Queues, u: Tid, w: Tid)
    requires u in q.threads && w in q.threads
    ensures var m := AddWaiter(q, u, w);
            && m.runQueue == q.runQueue && m.running == q.running && m.lock == q.lock
            && w in m.threads && m.threads[w].isIdle == q.threads[w].isIdle
  {
  }

  lemma IpiWait(q: Queues, d: Cpu, t: Tid, c: Cpu)
    requires Placed(q) && d in q.running && q.lock.Free? && c in q.running
    requires t in q.runQueue && Accepts(q, t, c, true) && t in Ipi(q, d).runQueue
    ensures var r := Ipi(q, d); Known(r) && c in r.running && Wait(r, t, c) <= Wait(q, t, c)
  {
    if Ipi(q, d) != q {
      LeaveWait(q, d, Ready, t, c);
    }
  }

  // ---------------------------------------------------------------- every run

  ghost predicate BoundaryTick(s: Step, c: Cpu) {
    s.DoTick? && s.cpu == c && s.boundary
  }

  /** How many 1 ms boundary ticks CPU `c` took. */
  ghost function BoundaryTicks(ss: seq<Step>, c: Cpu): nat {
    if ss == [] then 0
    else BoundaryTicks(ss[..|ss| - 1], c) + if BoundaryTick(ss[|ss| - 1], c) then 1 else 0
  }

  /** Throughout the run `t` stays queued as a normal thread allowed on `c`. */
  ghost predicate Waits(qs: seq<Queues>, t: Tid, c: Cpu) {
    forall i :: 0 <= i < |qs| ==> WaitsIn(qs[i], t, c)
  }

  ghost predicate WaitsIn(q: Queues, t: Tid, c: Cpu) {
    t in q.runQueue && t in q.threads && Accepts(q, t, c, true)
  }

  /** The threads ahead of `t` that changes of attributes and quota admitted during the run. */
  ghost function Raised(qs: seq<Queues>, ss: seq<Step>, t: Tid, c: Cpu): nat
    requires |qs| == |ss| + 1
  {
    if ss == [] then 0
    else
      var n := |ss| - 1;
      Raised(qs[..n + 1], ss[..n], t, c) + Raise(qs[n], ss[n], qs[n + 1], t, c)
  }

  /** The wait measure pays for every boundary tick of a run that keeps `t` waiting. */
  lemma {:induction false} RunWait(qs: seq<Queues>, ss: seq<Step>, t: Tid, c: Cpu)
    requires IsRun(qs, ss) && Placed(qs[0]) && c in qs[0].running && Waits(qs, t, c)
    ensures Placed(qs[|ss|]) && c in qs[|ss|].running
    ensures BoundaryTicks(ss, c) + Wait(qs[|ss|], t, c) <= Wait(qs[0], t, c) + 11 * Raised(qs, ss, t, c)
  {
    hide Wait, Accepts, WaitsIn, Waits, Raise, StepsTo;
    hide QueuesMatch, CpusMatch, IdlesMatch, SwitchMatch, LivesMatch;
    if ss != [] {
      var n := |ss| - 1;
      RunPrefix(qs, ss);
      WaitsPrefix(qs, ss, t, c);
      RunWait(qs[..n + 1], ss[..n], t, c);
      RunStepWait(qs, ss, n, t, c);
    }
  }

  lemma WaitsPrefix(qs: seq<Queues>, ss: seq<Step>, t: Tid, c: Cpu)
    requires |qs| == |ss| + 1 && ss != [] && Waits(qs, t, c)
    ensures Waits(qs[..|ss|], t, c)
    ensures WaitsIn(qs[|ss| - 1], t, c) && WaitsIn(qs[|ss|], t, c)
  {
    hide WaitsIn;
  }

  lemma RunPrefix(qs: seq<Queues>, ss: seq<Step>)
    requires IsRun(qs, ss) && ss != []
    ensures IsRun(qs[..|ss|], ss[..|ss| - 1])
  {
    var n := |ss| - 1;
    forall i | 0 <= i < n
      ensures StepsTo(qs[..n + 1][i], ss[..n][i], qs[..n + 1][i + 1])
    {
      assert ss[i] == ss[..n][i];
    }
  }

  lemma RunStepWait(qs: seq<Queues>, ss: seq<Step>, i: nat, t: Tid, c: Cpu)
    requires IsRun(qs, ss) && i < |ss| && Placed(qs[i]) && c in qs[i].running
    requires WaitsIn(qs[i], t, c) && WaitsIn(qs[i + 1], t, c)
    ensures Placed(qs[i + 1]) && c in qs[i + 1].running
    ensures Wait(qs[i + 1], t, c) + (if BoundaryTick(ss[i], c) then 1 else 0) <=
            Wait(qs[i], t, c) + 11 * Raise(qs[i], ss[i], qs[i + 1], t, c)
  {
    hide Wait, Raise;
    RunStepPlaced(qs, ss, i);
    StepWait(qs[i], ss[i], t, c);
  }

  /**
   Bounded waiting: in every run that leaves a normal thread queued and allowed on CPU `c`, `c` takes at most
   eleven boundary ticks for each normal thread ahead of it, at the start or admitted later by a change of
   attributes or quota, plus the current quantum.
   */
  lemma BoundedWaiting(qs: seq<Queues>, ss: seq<Step>, t: Tid, c: Cpu)
    requires IsRun(qs, ss) && Placed(qs[0]) && c in qs[0].running && Waits(qs, t, c)
    ensures BoundaryTicks(ss, c) <=
            11 * (Ahead(qs[0], t, c) + Raised(qs, ss, t, c)) + qs[0].threads[qs[0].running[c]].quantumLeft
  {
    hide Raised, Ahead, Waits, QueuesMatch, CpusMatch, IdlesMatch, SwitchMatch, LivesMatch;
    RunWait(qs, ss, t, c);
  }

  /** Without such changes nothing is admitted later. */
  lemma {:induction false} FixedRules(qs: seq<Queues>, ss: seq<Step>, t: Tid, c: Cpu)
    requires |qs| == |ss| + 1 && forall i :: 0 <= i < |ss| ==> !ChangesRules(ss[i])
    ensures Raised(qs, ss, t, c) == 0
  {
    if ss != [] {
      FixedRules(qs[..|ss|], ss[..|ss| - 1], t, c);
    }
  }
}
