/**
 One job with a CPU quota in the whole machine: its budget is charged with the CPU time that context switches
 credit to its processes, the check of `on_tick` decides which processes are marked, and closing a window decides
 which are released.  Every run of the machine is a timeline of `Enforcement`, so its bound holds of the machine.
 */
module JobRuns {
  import opened Seqs
  import opened Sched
  import opened Placement
  import opened Machine
  import opened Throttling
  import Quota
  import Enforcement

  /** The job's processes, its budget, the number of CPUs, and the CPU time its processes had at the start. */
  datatype Setup = Setup(pids: seq<Pid>, limit: nat, cpus: nat, spent: nat)

  /**
   The machine with the job's `cpu_base_ns` and `throttled`; `since` is when its window opened and `checked`
   when each CPU last handed over or passed a 1 ms boundary.  `closes` and `unused` are for the statements only.
   */
  datatype JobWorld = JobWorld(
    world: World,
    base: nat,
    throttled: bool,
    since: nat,
    checked: map<Cpu, nat>,
    closes: nat,
    unused: nat)

  /** `cpu_ns` of each process of the job. */
  ghost function Members(time: CpuTime, pids: seq<Pid>): (r: seq<Quota.Member>)
    ensures |r| == |pids| && forall i :: 0 <= i < |pids| ==> r[i] == Quota.Member(pids[i], Credited(time, pids[i]))
  {
    seq(|pids|, i requires 0 <= i < |pids| => Quota.Member(pids[i], Credited(time, pids[i])))
  }

  ghost function JobOf(u: Setup, j: JobWorld): Quota.Job {
    Quota.Job(u.limit, j.base, j.throttled, Members(j.world.time, u.pids))
  }

  ghost function LedgerOf(u: Setup, j: JobWorld): Quota.Ledger {
    Quota.Ledger(JobOf(u, j), Quota.SatSub(Quota.Total(JobOf(u, j).members), u.spent), 0, 0, j.closes, j.unused)
  }

  ghost function Place(pids: seq<Pid>, p: Pid): (i: nat)
    requires p in pids
    ensures i < |pids| && pids[i] == p
  {
    var i: nat :| i < |pids| && pids[i] == p;
    i
  }

  /** CPU `c` runs a thread of the job. */
  ghost predicate Seated(pids: seq<Pid>, q: Queues, time: CpuTime, c: Cpu) {
    && c in q.running && q.running[c] in q.threads && q.running[c] in time.enteredAt
    && q.threads[q.running[c]].process.Some? && q.threads[q.running[c]].process.value in pids
  }

  ghost function Seat(pids: seq<Pid>, q: Queues, time: CpuTime, checked: map<Cpu, nat>, c: Cpu)
    : Option<Enforcement.Stay>
  {
    if Seated(pids, q, time, c) then
      Some(Enforcement.Stay(Place(pids, q.threads[q.running[c]].process.value), time.enteredAt[q.running[c]],
                            if c in checked then checked[c] else 0))
    else None
  }

  ghost function SeatOn(u: Setup, j: JobWorld, c: Cpu): Option<Enforcement.Stay> {
    Seat(u.pids, j.world.q, j.world.time, j.checked, c)
  }

  /** The job as the quota's own model sees it. */
  ghost function PlantOf(u: Setup, j: JobWorld): (s: Enforcement.Plant)
    ensures |s.cpus| == u.cpus && forall c :: 0 <= c < u.cpus ==> s.cpus[c] == SeatOn(u, j, c)
    ensures s.ledger == LedgerOf(u, j) && s.now == j.world.now && s.since == j.since
  {
    Enforcement.Plant(LedgerOf(u, j), seq(u.cpus, c requires 0 <= c < u.cpus => SeatOn(u, j, c)), j.world.now, j.since)
  }

  // ---------------------------------------------------------------- what a step does to the job

  /** At this tick the thread on `c` finds the budget of the job spent, its own slice included. */
  ghost predicate RunsOut(u: Setup, j: JobWorld, c: Cpu, boundary: bool, now: nat) {
    boundary && SeatOn(u, j, c).Some? && Quota.Overdrawn(JobOf(u, j), Quota.SatSub(now, SeatOn(u, j, c).value.entered))
  }

  /** The timer keeps up: no window and no stretch of a member without a boundary is too long. */
  ghost predicate Punctual(u: Setup, tm: Enforcement.Timing, j: JobWorld, now: nat) {
    && now <= j.since + tm.window
    && forall c :: 0 <= c < u.cpus && SeatOn(u, j, c).Some? ==> now <= SeatOn(u, j, c).value.checked + tm.gap
  }

  ghost function BoundaryAt(checked: map<Cpu, nat>, s: Step, now: nat): map<Cpu, nat> {
    if s.DoTick? && s.boundary then checked[s.cpu := now] else checked
  }

  ghost function HandOverAt(checked: map<Cpu, nat>, q: Queues, r: Queues, now: nat): map<Cpu, nat> {
    if HandsOver(q, r) then checked[r.lock.cpu := now] else checked
  }

  /** The job's own fields in a step: `mark` and the set a close leaves throttled follow from the budget. */
  ghost predicate JobFields(u: Setup, j: JobWorld, s: Step, now: nat, k: JobWorld) {
    match s
    case DoTick(c, boundary, mark, _) =>
      && (forall p :: p in u.pids ==> (p in mark <==> RunsOut(u, j, c, boundary, now)))
      && k.throttled == (j.throttled || RunsOut(u, j, c, boundary, now))
      && k.base == j.base && k.since == j.since && k.closes == j.closes && k.unused == j.unused
    case DoQuota(throttled) =>
      && (forall p :: p in u.pids ==> (p in throttled <==> k.throttled))
      && (Closed(u, j, now, k) || SameFields(j, k))
    case _ => SameFields(j, k)
  }

  ghost predicate SameFields(j: JobWorld, k: JobWorld) {
    k.base == j.base && k.throttled == j.throttled && k.since == j.since && k.closes == j.closes && k.unused == j.unused
  }

  /** `fecha_janela` of this job. */
  ghost predicate Closed(u: Setup, j: JobWorld, now: nat, k: JobWorld) {
    var job := Quota.CloseWindow(JobOf(u, j));
    && k.base == job.base && k.throttled == job.throttled && k.since == now
    && k.closes == j.closes + 1 && k.unused == j.unused + Quota.Unspent(JobOf(u, j))
  }

  ghost predicate JobStep(u: Setup, tm: Enforcement.Timing, j: JobWorld, e: Event, k: JobWorld) {
    && Happens(j.world, e, k.world)
    && match e
       case Schedule(s, now) =>
         && Punctual(u, tm, j, now) && (s.DoOnline? ==> s.cpu < u.cpus)
         && k.checked == HandOverAt(BoundaryAt(j.checked, s, now), j.world.q, k.world.q, now)
         && JobFields(u, j, s, now, k)
       case _ => SameFields(j, k) && k.checked == j.checked
  }

  ghost predicate IsJobRun(u: Setup, tm: Enforcement.Timing, js: seq<JobWorld>, es: seq<Event>) {
    && |js| == |es| + 1
    && forall i {:trigger es[i]} :: 0 <= i < |es| ==> JobStep(u, tm, js[i], es[i], js[i + 1])
  }

  /** A process of the job is throttled exactly when the job is. */
  ghost predicate Agreed(pids: seq<Pid>, throttled: set<Pid>, job: bool) {
    forall p :: p in pids ==> (p in throttled <==> job)
  }

  ghost predicate JobInv(u: Setup, j: JobWorld) {
    && WorldInv(j.world) && NoDup(u.pids) && u.limit > 0
    && Agreed(u.pids, j.world.q.throttled, j.throttled)
    && (forall c :: c in j.world.q.running ==> c < u.cpus)
    && u.spent <= Quota.Total(Members(j.world.time, u.pids))
  }

  // ---------------------------------------------------------------- who sits where

  /** The thread on `c` and its entry are what they were; a CPU that just came up runs no process. */
  ghost predicate SameSeat(q: Queues, time: CpuTime, r: Queues, after: CpuTime, c: Cpu) {
    if c in q.running then
      && c in r.running && r.running[c] == q.running[c] && q.running[c] in q.threads && q.running[c] in r.threads
      && r.threads[q.running[c]].process == q.threads[q.running[c]].process
      && q.running[c] in time.enteredAt && q.running[c] in after.enteredAt
      && after.enteredAt[q.running[c]] == time.enteredAt[q.running[c]]
    else c in r.running && r.running[c] in r.threads ==> r.threads[r.running[c]].process.None?
  }

  /** CPU time after a hand-over. */
  ghost function Paid(q: Queues, time: CpuTime, r: Queues, now: nat): CpuTime
    requires r.lock.Leaving? && r.lock.cpu in q.running && r.lock.cpu in r.running
    requires q.running[r.lock.cpu] in q.threads
  {
    var c := r.lock.cpu;
    Account(time, c, q.running[c], q.threads[q.running[c]].process, r.running[c], now)
  }

  /** CPU `r.lock.cpu` goes to another thread, which enters now; the outgoing stay is credited. */
  ghost predicate Handed(q: Queues, time: CpuTime, r: Queues, after: CpuTime, now: nat) {
    && r.lock.Leaving? && var c := r.lock.cpu;
    && c in q.running && q.running[c] in q.threads && q.running[c] in time.enteredAt
    && time.enteredAt[q.running[c]] <= now && c in r.running
    && after == Paid(q, time, r, now)
  }

  ghost predicate Seating(q: Queues, s: Step, time: CpuTime, r: Queues, after: CpuTime, now: nat) {
    && (forall c :: SameSeat(q, time, r, after, c) || (HandsOver(q, r) && c == r.lock.cpu))
    && (if HandsOver(q, r) then Handed(q, time, r, after, now) else after.cpuNs == time.cpuNs)
    && (forall c :: c in r.running ==> c in q.running || (s.DoOnline? && c == s.cpu))
  }

  lemma RunnerEntered(q: Queues, time: CpuTime, before: nat, c: Cpu)
    requires Known(q) && TimeInv(q, time, before) && c in q.running
    ensures q.running[c] in q.threads && q.running[c] in time.enteredAt && time.enteredAt[q.running[c]] <= before
  {
    hide BusyOn, BusyOf, Credited;
    assert OnTime(q.running[c], time, c, before);
  }

  lemma StillSeated(q: Queues, s: Step, time: CpuTime, r: Queues, before: nat, now: nat)
    requires Known(q) && TimeInv(q, time, before) && before <= now && SameHolders(q, r) && !HandsOver(q, r)
    ensures Seating(q, s, time, r, time, now)
  {
    hide Known, TimeInv;
    forall c
      ensures SameSeat(q, time, r, time, c)
    {
      if c in q.running {
        RunnerEntered(q, time, before, c);
      }
    }
  }

  lemma SwitchSeated(q: Queues, s: Step, time: CpuTime, r: Queues, before: nat, now: nat)
    requires Known(q) && TimeInv(q, time, before) && before <= now && OneHandOver(q, r) && CpusMatch(r)
    ensures q.running[r.lock.cpu] in q.threads && Seating(q, s, time, r, Paid(q, time, r, now), now)
  {
    hide Known, TimeInv, Account, BusyOn, BusyOf, Credited, CpusMatch, SameSeat;
    var c := r.lock.cpu;
    RunnerEntered(q, time, before, c);
    forall d | d != c
      ensures SameSeat(q, time, r, Paid(q, time, r, now), d)
    {
      OtherSeat(q, time, r, before, now, d);
    }
  }

  lemma OtherSeat(q: Queues, time: CpuTime, r: Queues, before: nat, now: nat, d: Cpu)
    requires Known(q) && TimeInv(q, time, before) && before <= now && OneHandOver(q, r) && CpusMatch(r)
    requires d != r.lock.cpu
    ensures q.running[r.lock.cpu] in q.threads && SameSeat(q, time, r, Paid(q, time, r, now), d)
  {
    hide Known, TimeInv, Account, BusyOn, BusyOf, Credited, CpusMatch;
    var c := r.lock.cpu;
    RunnerEntered(q, time, before, c);
    AccountTime(time, c, q.running[c], q.threads[q.running[c]].process, r.running[c], now, c, 0);
    if d in q.running {
      RunnerEntered(q, time, before, d);
      Exclusive(r, c, d);
    }
  }

  lemma OrdinarySeated(q: Queues, s: Step, time: CpuTime, r: Queues, before: nat, now: nat)
    requires Known(q) && TimeInv(q, time, before) && before <= now && AtMostOneHandOver(q, r) && CpusMatch(r)
    requires !s.DoSpawn? && !s.DoOnline?
    ensures Seating(q, s, time, r, TimeAfter(time, q, s, r, now), now)
  {
    hide TimeInv, Account, Seating, CpusMatch;
    if SameHolders(q, r) {
      StillSeated(q, s, time, r, before, now);
    } else {
      SwitchSeated(q, s, time, r, before, now);
    }
  }

  lemma SpawnSeated(q: Queues, s: Step, time: CpuTime, before: nat, now: nat)
    requires Known(q) && TimeInv(q, time, before) && before <= now && s.DoSpawn? && Enabled(q, s)
    ensures var r := Spawn(q, s.tid, s.low, s.mask, s.process);
            Seating(q, s, time, r, TimeAfter(time, q, s, r, now), now)
  {
    hide Known, TimeInv, AllCpus;
    var r := Spawn(q, s.tid, s.low, s.mask, s.process);
    forall c
      ensures SameSeat(q, time, r, TimeAfter(time, q, s, r, now), c)
    {
      if c in q.running {
        RunnerEntered(q, time, before, c);
      }
    }
  }

  lemma OnlineSeated(q: Queues, s: Step, time: CpuTime, before: nat, now: nat)
    requires Known(q) && TimeInv(q, time, before) && before <= now && s.DoOnline? && Enabled(q, s)
    ensures var r := Online(q, s.cpu, s.tid); Seating(q, s, time, r, TimeAfter(time, q, s, r, now), now)
  {
    hide Known, TimeInv, AllCpus;
    var r := Online(q, s.cpu, s.tid);
    forall c
      ensures SameSeat(q, time, r, TimeAfter(time, q, s, r, now), c)
    {
      if c in q.running {
        RunnerEntered(q, time, before, c);
      }
    }
  }

  lemma GoneSeated(q: Queues, s: Step, time: CpuTime, r: Queues, before: nat, now: nat)
    requires Known(q) && TimeInv(q, time, before) && before <= now && Enabled(q, s)
    requires (s.DoReap? && r == Reap(q)) || (s.DoFreeStack? && r == FreeStack(q, s.tid))
    ensures Seating(q, s, time, r, TimeAfter(time, q, s, r, now), now)
  {
    hide Known, TimeInv, Without;
    forall c
      ensures SameSeat(q, time, r, time, c)
    {
      if c in q.running {
        RunnerEntered(q, time, before, c);
      }
    }
  }

  lemma StepSeated(q: Queues, s: Step, time: CpuTime, before: nat, now: nat)
    requires Placed(q) && TimeInv(q, time, before) && before <= now && Enabled(q, s)
    ensures Seating(q, s, time, After(q, s), TimeAfter(time, q, s, After(q, s), now), now)
  {
    hide Known, QueuesMatch, CpusMatch, IdlesMatch, SwitchMatch, LivesMatch;
    hide TimeInv, Seating, TimeAfter, AtMostOneHandOver;
    match s
    case DoSpawn(_, _, _, _) => SpawnSeated(q, s, time, before, now);
    case DoOnline(_, _) => OnlineSeated(q, s, time, before, now);
    case DoReap => GoneSeated(q, s, time, After(q, s), before, now);
    case DoFreeStack(_) => GoneSeated(q, s, time, After(q, s), before, now);
    case _ =>
      hide Apply, Enabled;
      StepPlaced(q, s);
      StepHandsOver(q, s);
      OrdinarySeated(q, s, time, After(q, s), before, now);
  }

  // ---------------------------------------------------------------- seats and ledgers as the job sees them

  lemma SeatKept(pids: seq<Pid>, q: Queues, time: CpuTime, checked: map<Cpu, nat>, r: Queues, after: CpuTime,
                 marks: map<Cpu, nat>, c: Cpu)
    requires SameSeat(q, time, r, after, c)
    requires (c in checked <==> c in marks) && (c in marks ==> marks[c] == checked[c])
    ensures Seat(pids, r, after, marks, c) == Seat(pids, q, time, checked, c)
  {
  }

  /** Crediting a process of the job credits that member; crediting another changes no member. */
  lemma MembersCredited(time: CpuTime, c: Cpu, cur: Tid, process: Option<Pid>, next: Tid, now: nat, pids: seq<Pid>)
    requires cur in time.enteredAt && time.enteredAt[cur] <= now && NoDup(pids)
    ensures var had, has := Members(time, pids), Members(Account(time, c, cur, process, next, now), pids);
            if process.Some? && process.value in pids then
              var i, ns := Place(pids, process.value), now - time.enteredAt[cur];
              has == had[i := had[i].(cpuNs := had[i].cpuNs + ns)] && Quota.Total(has) == Quota.Total(had) + ns
            else has == had
  {
    hide Account, Credited, Quota.Total, BusyOn, BusyOf;
    var had, has := Members(time, pids), Members(Account(time, c, cur, process, next, now), pids);
    forall k | 0 <= k < |pids|
      ensures has[k].cpuNs == had[k].cpuNs + if process == Some(pids[k]) then now - time.enteredAt[cur] else 0
    {
      AccountTime(time, c, cur, process, next, now, c, pids[k]);
    }
    if process.Some? && process.value in pids {
      Quota.TotalCredit(had, Place(pids, process.value), now - time.enteredAt[cur]);
    }
  }

  /** One CPU changes hands in the quota's model: the stay that ends is credited, the one that begins is new. */
  ghost predicate Switched(x: Enforcement.Plant, y: Enforcement.Plant, c: nat) {
    && c < |x.cpus| && |y.cpus| == |x.cpus| && y.cpus == x.cpus[c := y.cpus[c]]
    && y.now == x.now && y.since == x.since
    && (x.cpus[c].Some? ==> Enforcement.OnCpu(x, c))
    && y.ledger == (if x.cpus[c].Some? then
                      Quota.Next(x.ledger, Quota.DoCredit(x.cpus[c].value.member, x.now - x.cpus[c].value.entered))
                    else x.ledger)
    && (y.cpus[c].Some? ==> y.cpus[c].value == Enforcement.Stay(y.cpus[c].value.member, x.now, x.now) &&
                            y.cpus[c].value.member < |x.ledger.job.members|)
  }

  lemma SwitchReaches(tm: Enforcement.Timing, s: Enforcement.Plant, x: Enforcement.Plant, y: Enforcement.Plant, c: nat)
    requires Enforcement.Reaches(tm, false, s, x) && Switched(x, y, c)
    requires y.cpus[c].Some? ==> !Quota.Ignored(x.ledger.job)
    ensures Enforcement.Reaches(tm, false, s, y)
  {
    hide Enforcement.Reaches;
    var m := x;
    if x.cpus[c].Some? {
      Enforcement.ReachesNext(tm, false, s, x, Enforcement.Exit(c));
      m := Enforcement.Leave(x, c);
    }
    if y.cpus[c].Some? {
      Enforcement.ReachesNext(tm, false, s, m, Enforcement.Enter(c, y.cpus[c].value.member));
      assert y == Enforcement.After(tm, m, Enforcement.Enter(c, y.cpus[c].value.member));
    } else {
      assert y == m;
    }
  }

  // ---------------------------------------------------------------- from one state of the job to the next

  /** The job just before its CPUs change: time has come, and its fields and checks are those of `k`. */
  ghost function Midway(j: JobWorld, s: Step, k: JobWorld): JobWorld {
    k.(world := j.world.(now := k.world.now), checked := BoundaryAt(j.checked, s, k.world.now))
  }

  /** What is known of a scheduler step of the machine and the job. */
  ghost predicate Scheduled(u: Setup, j: JobWorld, s: Step, k: JobWorld) {
    var q, r, now := j.world.q, k.world.q, k.world.now;
    && j.world.now <= now
    && Seating(q, s, j.world.time, r, k.world.time, now)
    && k.checked == HandOverAt(BoundaryAt(j.checked, s, now), q, r, now)
    && JobFields(u, j, s, now, k)
  }

  lemma LedgerSwitched(u: Setup, x: JobWorld, k: JobWorld)
    requires NoDup(u.pids) && u.spent <= Quota.Total(Members(x.world.time, u.pids)) && SameFields(x, k)
    requires Handed(x.world.q, x.world.time, k.world.q, k.world.time, x.world.now)
    ensures var c := k.world.q.lock.cpu; var seat := SeatOn(u, x, c);
            && u.spent <= Quota.Total(Members(k.world.time, u.pids))
            && (seat.Some? ==> seat.value.entered <= x.world.now && seat.value.member < |u.pids|)
            && LedgerOf(u, k) ==
               (if seat.Some? then
                  Quota.Next(LedgerOf(u, x), Quota.DoCredit(seat.value.member, x.world.now - seat.value.entered))
                else LedgerOf(u, x))
  {
    hide Account, Quota.Total;
    var q, c := x.world.q, k.world.q.lock.cpu;
    MembersCredited(x.world.time, c, q.running[c], q.threads[q.running[c]].process, k.world.q.running[c],
                    x.world.now, u.pids);
  }

  lemma CpusSwitched(u: Setup, j: JobWorld, s: Step, k: JobWorld)
    requires Scheduled(u, j, s, k) && HandsOver(j.world.q, k.world.q) && k.world.q.lock.cpu < u.cpus
    ensures var x, y, c := PlantOf(u, Midway(j, s, k)), PlantOf(u, k), k.world.q.lock.cpu;
            && y.cpus == x.cpus[c := y.cpus[c]]
            && (y.cpus[c].Some? ==> y.cpus[c].value == Enforcement.Stay(y.cpus[c].value.member, x.now, x.now) &&
                                    y.cpus[c].value.member < |u.pids|)
  {
    hide LedgerOf, SameSeat, JobFields, Seat;
    var m := Midway(j, s, k);
    var x, y, c := PlantOf(u, m), PlantOf(u, k), k.world.q.lock.cpu;
    forall d | 0 <= d < u.cpus && d != c
      ensures y.cpus[d] == x.cpus[d]
    {
      SeatKept(u.pids, m.world.q, m.world.time, m.checked, k.world.q, k.world.time, k.checked, d);
    }
    NewSeat(u.pids, m.world.q, m.world.time, k.world.q, k.world.time, k.checked, k.world.now);
  }

  lemma NewSeat(pids: seq<Pid>, q: Queues, time: CpuTime, r: Queues, after: CpuTime, checked: map<Cpu, nat>, now: nat)
    requires Handed(q, time, r, after, now) && r.lock.cpu in checked && checked[r.lock.cpu] == now
    ensures var seat := Seat(pids, r, after, checked, r.lock.cpu);
            seat.Some? ==> seat.value.member < |pids| && seat.value.entered == now && seat.value.checked == now
  {
  }

  /** A hand-over of the machine is a hand-over of the job; any other step changes no CPU of the job. */
  lemma StepSwitches(u: Setup, j: JobWorld, s: Step, k: JobWorld)
    requires Scheduled(u, j, s, k) && NoDup(u.pids) && u.spent <= Quota.Total(Members(j.world.time, u.pids))
    requires HandsOver(j.world.q, k.world.q) ==> k.world.q.lock.cpu < u.cpus
    ensures u.spent <= Quota.Total(Members(k.world.time, u.pids))
    ensures var x, y := PlantOf(u, Midway(j, s, k)), PlantOf(u, k);
            if HandsOver(j.world.q, k.world.q) then Switched(x, y, k.world.q.lock.cpu) else y == x
  {
    hide SameSeat, JobFields, Seat, Quota.Total, Handed;
    var m := Midway(j, s, k);
    if HandsOver(j.world.q, k.world.q) {
      hide Members;
      LedgerSwitched(u, m, k);
      CpusSwitched(u, j, s, k);
    } else {
      assert Members(k.world.time, u.pids) == Members(j.world.time, u.pids);
      forall d | 0 <= d < u.cpus
        ensures SeatOn(u, k, d) == SeatOn(u, m, d)
      {
        SeatKept(u.pids, m.world.q, m.world.time, m.checked, k.world.q, k.world.time, k.checked, d);
      }
    }
  }

  // ---------------------------------------------------------------- time passes, ticks and closes

  ghost function Later(j: JobWorld, now: nat): JobWorld {
    j.(world := j.world.(now := now))
  }

  lemma PassReaches(u: Setup, tm: Enforcement.Timing, s: Enforcement.Plant, j: JobWorld, now: nat)
    requires Enforcement.Reaches(tm, false, s, PlantOf(u, j)) && Punctual(u, tm, j, now) && j.world.now <= now
    ensures Enforcement.Reaches(tm, false, s, PlantOf(u, Later(j, now)))
  {
    hide Enforcement.Reaches, Quota.Total, Seat, Members;
    var a := PlantOf(u, j);
    Enforcement.ReachesNext(tm, false, s, a, Enforcement.Pass(now - j.world.now));
    assert PlantOf(u, Later(j, now)).cpus == a.cpus;
  }

  lemma CloseReaches(u: Setup, tm: Enforcement.Timing, s: Enforcement.Plant, j: JobWorld, k: JobWorld)
    requires Enforcement.Reaches(tm, false, s, PlantOf(u, Later(j, k.world.now))) && Closed(u, j, k.world.now, k)
    requires u.limit > 0
    ensures Enforcement.Reaches(tm, false, s, PlantOf(u, Later(j, k.world.now).(
              base := k.base, throttled := k.throttled, since := k.since, closes := k.closes, unused := k.unused)))
  {
    hide Enforcement.Reaches, Quota.Total, Members, Seat;
    var b := PlantOf(u, Later(j, k.world.now));
    Enforcement.ReachesNext(tm, false, s, b, Enforcement.Close);
    var x := PlantOf(u, Later(j, k.world.now).(
      base := k.base, throttled := k.throttled, since := k.since, closes := k.closes, unused := k.unused));
    assert x.cpus == b.cpus;
  }

  lemma SeatIsOn(u: Setup, x: JobWorld, c: Cpu)
    requires c < u.cpus && SeatOn(u, x, c).Some? && SeatOn(u, x, c).value.entered <= x.world.now
    ensures Enforcement.OnCpu(PlantOf(u, x), c)
  {
  }

  /** The check of a tick in the quota's model is the check the job makes. */
  lemma CheckedIs(u: Setup, j: JobWorld, now: nat, c: Cpu, boundary: bool, throttled: bool)
    requires c < u.cpus && SeatOn(u, j, c).Some? && SeatOn(u, j, c).value.entered <= now
    requires throttled == (j.throttled || RunsOut(u, j, c, boundary, now))
    ensures Enforcement.OnCpu(PlantOf(u, Later(j, now)), c)
    ensures Enforcement.Checked(PlantOf(u, Later(j, now)), c, boundary) ==
            PlantOf(u, Later(j, now).(throttled := throttled))
  {
    hide Quota.Total;
    var b, x := PlantOf(u, Later(j, now)), PlantOf(u, Later(j, now).(throttled := throttled));
    assert x.cpus == b.cpus;
  }

  lemma StayedIs(u: Setup, x: JobWorld, c: Cpu, boundary: bool)
    requires c < u.cpus && Enforcement.OnCpu(PlantOf(u, x), c)
    ensures Enforcement.Stayed(PlantOf(u, x), c, boundary) ==
            PlantOf(u, if boundary then x.(checked := x.checked[c := x.world.now]) else x)
  {
    hide Quota.Total, Members;
    if boundary {
      var y := PlantOf(u, x.(checked := x.checked[c := x.world.now]));
      assert y.cpus == PlantOf(u, x).cpus[c := y.cpus[c]];
    }
  }

  /** A tick that leaves its thread in place. */
  lemma TickReaches(u: Setup, tm: Enforcement.Timing, s: Enforcement.Plant, j: JobWorld, st: Step, k: JobWorld)
    requires Enforcement.Reaches(tm, false, s, PlantOf(u, Later(j, k.world.now)))
    requires st.DoTick? && st.cpu < u.cpus && JobFields(u, j, st, k.world.now, k)
    requires SeatOn(u, j, st.cpu).Some? && SeatOn(u, j, st.cpu).value.entered <= k.world.now && !k.throttled
    ensures Enforcement.Reaches(tm, false, s, PlantOf(u, Midway(j, st, k)))
  {
    hide Enforcement.Reaches, PlantOf, RunsOut, Seat, Enforcement.Checked, Enforcement.Stayed, Enforcement.OnCpu;
    var now, c := k.world.now, st.cpu;
    var x := Later(j, now).(throttled := k.throttled);
    CheckedIs(u, j, now, c, st.boundary, k.throttled);
    SeatIsOn(u, x, c);
    StayedIs(u, x, c, st.boundary);
    ThrottledOf(u, x);
    Enforcement.ReachesNext(tm, false, s, PlantOf(u, Later(j, now)), Enforcement.Tick(c, st.boundary));
  }

  lemma ThrottledOf(u: Setup, x: JobWorld)
    ensures PlantOf(u, x).ledger.job.throttled == x.throttled && PlantOf(u, x).ledger.job.limit == u.limit
  {
  }

  // ---------------------------------------------------------------- every step of the machine is acts of the quota

  /** A tick that finds the job throttled: the thread leaves, and nobody of the job takes its place. */
  lemma EvictReaches(u: Setup, tm: Enforcement.Timing, s: Enforcement.Plant, j: JobWorld, st: Step, k: JobWorld)
    requires Enforcement.Reaches(tm, false, s, PlantOf(u, Later(j, k.world.now))) && u.limit > 0
    requires st.DoTick? && st.cpu < u.cpus && JobFields(u, j, st, k.world.now, k)
    requires SeatOn(u, j, st.cpu).Some? && SeatOn(u, j, st.cpu).value.entered <= k.world.now && k.throttled
    requires Switched(PlantOf(u, Midway(j, st, k)), PlantOf(u, k), st.cpu) && SeatOn(u, k, st.cpu).None?
    ensures Enforcement.Reaches(tm, false, s, PlantOf(u, k))
  {
    hide Enforcement.Reaches, RunsOut, Enforcement.Checked;
    var now, c := k.world.now, st.cpu;
    var x := Later(j, now).(throttled := k.throttled);
    CheckedIs(u, j, now, c, st.boundary, k.throttled);
    ThrottledOf(u, x);
    Enforcement.ReachesNext(tm, false, s, PlantOf(u, Later(j, now)), Enforcement.Tick(c, st.boundary));
    EvictIs(u, x, j, st, k);
  }

  lemma EvictIs(u: Setup, x: JobWorld, j: JobWorld, st: Step, k: JobWorld)
    requires st.DoTick? && st.cpu < u.cpus && JobFields(u, j, st, k.world.now, k)
    requires x == Later(j, k.world.now).(throttled := k.throttled) && Enforcement.OnCpu(PlantOf(u, x), st.cpu)
    requires Switched(PlantOf(u, Midway(j, st, k)), PlantOf(u, k), st.cpu) && SeatOn(u, k, st.cpu).None?
    ensures Enforcement.Leave(PlantOf(u, x), st.cpu) == PlantOf(u, k)
  {
    hide Quota.Total, Members, RunsOut, Quota.Credit, Seated;
    var c, m := st.cpu, Midway(j, st, k);
    assert LedgerOf(u, m) == LedgerOf(u, x);
    assert PlantOf(u, m).cpus == PlantOf(u, x).cpus[c := PlantOf(u, m).cpus[c]];
  }

  /** Without a thread of the job on the ticking CPU a tick means nothing to the job. */
  lemma ForeignTick(u: Setup, j: JobWorld, st: Step, k: JobWorld)
    requires st.DoTick? && JobFields(u, j, st, k.world.now, k) && SeatOn(u, j, st.cpu).None?
    ensures PlantOf(u, Midway(j, st, k)) == PlantOf(u, Later(j, k.world.now))
  {
    hide Quota.Total, Members, Seated;
    assert PlantOf(u, Midway(j, st, k)).cpus == PlantOf(u, Later(j, k.world.now)).cpus;
  }

  /** The part of a step before any hand-over; a throttled thread's tick is the other case. */
  lemma MidwayReached(u: Setup, tm: Enforcement.Timing, s: Enforcement.Plant, j: JobWorld, st: Step, k: JobWorld)
    requires Enforcement.Reaches(tm, false, s, PlantOf(u, Later(j, k.world.now))) && u.limit > 0
    requires JobFields(u, j, st, k.world.now, k)
    requires st.DoTick? && SeatOn(u, j, st.cpu).Some? ==>
               st.cpu < u.cpus && SeatOn(u, j, st.cpu).value.entered <= k.world.now && !k.throttled
    ensures Enforcement.Reaches(tm, false, s, PlantOf(u, Midway(j, st, k)))
  {
    hide Enforcement.Reaches, PlantOf, SeatOn, RunsOut, Closed;
    if st.DoTick? {
      if SeatOn(u, j, st.cpu).Some? {
        TickReaches(u, tm, s, j, st, k);
      } else {
        ForeignTick(u, j, st, k);
      }
    } else if st.DoQuota? && Closed(u, j, k.world.now, k) {
      CloseReaches(u, tm, s, j, k);
    } else {
      assert Midway(j, st, k) == Later(j, k.world.now);
    }
  }

  lemma SeatEntered(u: Setup, j: JobWorld, c: Cpu)
    requires JobInv(u, j) && SeatOn(u, j, c).Some?
    ensures c < u.cpus && SeatOn(u, j, c).value.entered <= j.world.now
    ensures EvictedAt(j.world.q, c, {j.world.q.threads[j.world.q.running[c]].process.value})
  {
    hide QueuesMatch, CpusMatch, IdlesMatch, SwitchMatch, LivesMatch, TimeInv, Known, MmuInv;
    RunnerEntered(j.world.q, j.world.time, j.world.now, c);
  }

  /** A scheduler step that hands CPUs over only to threads of processes that are not throttled. */
  ghost predicate FairStep(u: Setup, j: JobWorld, st: Step, k: JobWorld) {
    && JobInv(u, j) && Scheduled(u, j, st, k) && Orderly(j.world.q, st, k.world.q)
    && Agreed(u.pids, k.world.q.throttled, k.throttled)
    && (HandsOver(j.world.q, k.world.q) ==> k.world.q.lock.cpu < u.cpus)
  }

  lemma FairSeat(u: Setup, k: JobWorld, c: Cpu)
    requires FairOn(k.world.q, c) && Agreed(u.pids, k.world.q.throttled, k.throttled) && SeatOn(u, k, c).Some?
    ensures !k.throttled
  {
  }

  /** A thread of a throttled job leaves at its tick. */
  lemma ThrottledLeaves(u: Setup, j: JobWorld, st: Step, k: JobWorld)
    requires FairStep(u, j, st, k) && st.DoTick? && SeatOn(u, j, st.cpu).Some? && k.throttled
    ensures HandsOver(j.world.q, k.world.q) && k.world.q.lock.cpu == st.cpu && FairOn(k.world.q, st.cpu)
  {
    hide JobInv, Scheduled, FairOn;
  }

  lemma StepReaches(u: Setup, tm: Enforcement.Timing, s: Enforcement.Plant, j: JobWorld, st: Step, k: JobWorld)
    requires Enforcement.Reaches(tm, false, s, PlantOf(u, Later(j, k.world.now)))
    requires FairStep(u, j, st, k)
    ensures Enforcement.Reaches(tm, false, s, PlantOf(u, k))
  {
    hide Enforcement.Reaches, PlantOf, SeatOn, WorldInv, Seating, Orderly, FairOn, Agreed, Switched, JobFields;
    StepSwitches(u, j, st, k);
    if st.DoTick? && SeatOn(u, j, st.cpu).Some? {
      SeatEntered(u, j, st.cpu);
    }
    if st.DoTick? && SeatOn(u, j, st.cpu).Some? && k.throttled {
      ThrottledLeaves(u, j, st, k);
      if SeatOn(u, k, st.cpu).Some? {
        FairSeat(u, k, st.cpu);
      }
      EvictReaches(u, tm, s, j, st, k);
    } else {
      MidwayReached(u, tm, s, j, st, k);
      if HandsOver(j.world.q, k.world.q) {
        FairSwitch(u, j, st, k);
        SwitchReaches(tm, s, PlantOf(u, Midway(j, st, k)), PlantOf(u, k), k.world.q.lock.cpu);
      }
    }
  }

  /** Whoever of the job is given a CPU finds the job not throttled. */
  lemma FairSwitch(u: Setup, j: JobWorld, st: Step, k: JobWorld)
    requires FairStep(u, j, st, k) && HandsOver(j.world.q, k.world.q)
    ensures k.world.q.lock.cpu < |PlantOf(u, k).cpus|
    ensures PlantOf(u, k).cpus[k.world.q.lock.cpu].Some? ==> !Quota.Ignored(PlantOf(u, Midway(j, st, k)).ledger.job)
  {
    hide JobInv, Scheduled, FairOn, SeatOn, Agreed;
    ThrottledOf(u, Midway(j, st, k));
    if SeatOn(u, k, k.world.q.lock.cpu).Some? {
      FairSeat(u, k, k.world.q.lock.cpu);
    }
  }

  // ---------------------------------------------------------------- every event

  lemma StillAgreed(u: Setup, j: JobWorld, st: Step, k: JobWorld)
    requires Agreed(u.pids, j.world.q.throttled, j.throttled) && JobFields(u, j, st, k.world.now, k)
    requires k.world.q.throttled == ThrottledBy(j.world.q, st)
    ensures Agreed(u.pids, k.world.q.throttled, k.throttled)
  {
    hide RunsOut, Closed;
  }

  lemma StepIsFair(u: Setup, tm: Enforcement.Timing, j: JobWorld, st: Step, now: nat, k: JobWorld)
    requires JobInv(u, j) && JobStep(u, tm, j, Schedule(st, now), k)
    ensures FairStep(u, j, st, k) && k.world.now == now && WorldInv(k.world)
    ensures forall c :: c in k.world.q.running ==> c < u.cpus
  {
    hide Known, QueuesMatch, CpusMatch, IdlesMatch, SwitchMatch, LivesMatch, TimeInv, MmuInv;
    hide Punctual, JobFields, Apply, Enabled, Members, Quota.Total, TimeAfter, MmuAfter, Agreed, Orderly, SameSeat;
    StepOrderly(j.world.q, st);
    StepSeated(j.world.q, st, j.world.time, j.world.now, now);
    EventKeeps(j.world, Schedule(st, now), k.world);
    OrderlyThrottles(j.world.q, st, k.world.q);
    StillAgreed(u, j, st, k);
  }

  lemma OrderlyThrottles(q: Queues, s: Step, r: Queues)
    requires Orderly(q, s, r)
    ensures r.throttled == ThrottledBy(q, s)
  {
  }

  /** Every event of the machine is a stretch of the quota's timeline, and keeps the job and its processes agreed. */
  lemma EventReaches(u: Setup, tm: Enforcement.Timing, s: Enforcement.Plant, j: JobWorld, e: Event, k: JobWorld)
    requires JobInv(u, j) && JobStep(u, tm, j, e, k) && Enforcement.Reaches(tm, false, s, PlantOf(u, j))
    ensures JobInv(u, k) && Enforcement.Reaches(tm, false, s, PlantOf(u, k))
  {
    hide Enforcement.Reaches, PlantOf, WorldInv, Punctual, JobFields, Seating, Orderly, Agreed, Members, Quota.Total;
    if e.Schedule? {
      StepIsFair(u, tm, j, e.step, e.now, k);
      PassReaches(u, tm, s, j, e.now);
      StepReaches(u, tm, s, j, e.step, k);
      StepSwitches(u, j, e.step, k);
    } else {
      EventKeeps(j.world, e, k.world);
      SamePlant(u, j, k);
    }
  }

  lemma SamePlant(u: Setup, j: JobWorld, k: JobWorld)
    requires SameFields(j, k) && k.checked == j.checked && k.world == j.world.(mmu := k.world.mmu)
    ensures PlantOf(u, k) == PlantOf(u, j)
  {
    hide Seat, Members, Quota.Total;
    assert PlantOf(u, k).cpus == PlantOf(u, j).cpus;
  }

  // ---------------------------------------------------------------- every run

  /** The limit was just set and no thread of the job is on a CPU. */
  ghost predicate JustSet(u: Setup, j: JobWorld) {
    && JobInv(u, j) && j.closes == 0 && j.unused == 0 && j.since == j.world.now
    && j.base == u.spent == Quota.Total(Members(j.world.time, u.pids))
    && forall c :: 0 <= c < u.cpus ==> SeatOn(u, j, c).None?
  }

  /** Every run of the machine is a timeline of the quota's own model. */
  lemma {:induction false} RunReaches(u: Setup, tm: Enforcement.Timing, js: seq<JobWorld>, es: seq<Event>, i: nat)
    requires IsJobRun(u, tm, js, es) && JobInv(u, js[0]) && i < |js|
    ensures JobInv(u, js[i]) && Enforcement.Reaches(tm, false, PlantOf(u, js[0]), PlantOf(u, js[i]))
  {
    hide Enforcement.Reaches, PlantOf, JobInv, JobStep;
    if i > 0 {
      RunReaches(u, tm, js, es, i - 1);
      EventReaches(u, tm, PlantOf(u, js[0]), js[i - 1], es[i - 1], js[i]);
    } else {
      Enforcement.ReachesSelf(tm, false, PlantOf(u, js[0]));
    }
  }

  /** CPU time credited to the processes of the job, and what its running threads have not been credited yet. */
  ghost function Used(u: Setup, j: JobWorld): int {
    Quota.Total(Members(j.world.time, u.pids)) + Enforcement.Slices(PlantOf(u, j).cpus, j.world.now)
  }

  lemma UsedIs(u: Setup, j: JobWorld)
    requires JobInv(u, j)
    ensures Used(u, j) == u.spent + PlantOf(u, j).ledger.consumed +
                          Enforcement.Slices(PlantOf(u, j).cpus, PlantOf(u, j).now)
    ensures PlantOf(u, j).ledger.closes == j.closes && |PlantOf(u, j).cpus| == u.cpus
  {
    hide WorldInv, Agreed, Quota.Total, Members, SeatOn, Enforcement.Slices;
  }

  lemma SetIsFresh(u: Setup, j: JobWorld)
    requires JustSet(u, j)
    ensures Enforcement.Fresh(JobOf(u, j), PlantOf(u, j)) && JobInv(u, j) && JobOf(u, j).limit == u.limit
    ensures PlantOf(u, j).ledger.consumed == 0 && Enforcement.Slices(PlantOf(u, j).cpus, PlantOf(u, j).now) == 0
  {
    hide WorldInv, Agreed, Quota.Total, Members, SeatOn, Enforcement.Slices;
    Enforcement.AllIdle(PlantOf(u, j).cpus, j.world.now, 0);
  }

  /**
   The quota holds in the machine: in every run, whatever the threads do, the processes of the job have used
   since the limit was set at most one budget a closed window, and on each CPU a budget, a window and two gaps.
   */
  lemma MachineEnforcesQuota(u: Setup, tm: Enforcement.Timing, js: seq<JobWorld>, es: seq<Event>, i: nat)
    requires IsJobRun(u, tm, js, es) && JustSet(u, js[0]) && i < |js|
    ensures Used(u, js[i]) <=
            Used(u, js[0]) + js[i].closes * u.limit + u.cpus * (u.limit + tm.window + 2 * tm.gap)
  {
    hide *;
    SetIsFresh(u, js[0]);
    RunReaches(u, tm, js, es, i);
    Enforcement.ReachedBound(tm, JobOf(u, js[0]), PlantOf(u, js[0]), PlantOf(u, js[i]));
    UsedIs(u, js[0]);
    UsedIs(u, js[i]);
  }
}
