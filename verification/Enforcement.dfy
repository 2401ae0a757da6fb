/**
 CPU quota as the scheduler enforces it (kernel/src/sched.rs, `on_tick`): a running thread checks the
 budget of its job at each 1 ms boundary with its own slice added; a job out of budget is not picked and
 its threads leave at their next tick.  Time on other CPUs that is not yet credited is not seen.
 */
module Enforcement {
  import opened Seqs
  import opened Quota

  /** A thread of member number `member`, on its CPU since `entered`; its last boundary check was at `checked`. */
  datatype Stay = Stay(member: nat, entered: nat, checked: nat)

  /** One job on a fixed number of CPUs; the current window opened at `since`. */
  datatype Plant = Plant(ledger: Ledger, cpus: seq<Option<Stay>>, now: nat, since: nat)

  /** Boundary ticks come at least every `gap`, windows close at least every `window`. */
  datatype Timing = Timing(gap: nat, window: nat)

  datatype Act =
    | Enter(cpu: nat, member: nat)
    | Exit(cpu: nat)
    | Tick(cpu: nat, boundary: bool)
    | Close
    | Pass(dt: nat)

  /** Time of the thread on one CPU that is not credited yet. */
  ghost function Slice(c: Option<Stay>, now: nat): int {
    if c.Some? then now - c.value.entered else 0
  }

  ghost function Slices(cpus: seq<Option<Stay>>, now: nat): int {
    if cpus == [] then 0 else Slices(cpus[..|cpus| - 1], now) + Slice(cpus[|cpus| - 1], now)
  }

  // ---------------------------------------------------------------- what can happen

  ghost predicate Allowed(tm: Timing, s: Plant, a: Act) {
    match a
    case Enter(c, i) => c < |s.cpus| && s.cpus[c].None? && i < |s.ledger.job.members| && !Ignored(s.ledger.job)
    case Exit(c) => OnCpu(s, c)
    case Tick(c, _) => OnCpu(s, c)
    case Close => true
    case Pass(dt) =>
      && s.now + dt <= s.since + tm.window
      && forall c: nat :: OnCpu(s, c) ==> s.now + dt <= s.cpus[c].value.checked + tm.gap
  }

  ghost predicate OnCpu(s: Plant, c: nat) {
    && c < |s.cpus| && s.cpus[c].Some?
    && s.cpus[c].value.member < |s.ledger.job.members| && s.cpus[c].value.entered <= s.now
  }

  /** The thread on `c` leaves and its slice is credited. */
  ghost function Leave(s: Plant, c: nat): Plant
    requires OnCpu(s, c)
  {
    var stay := s.cpus[c].value;
    s.(ledger := Next(s.ledger, DoCredit(stay.member, s.now - stay.entered)), cpus := s.cpus[c := None])
  }

  /** The check of `on_tick`: at a boundary the job is marked if its time with this slice is over the budget. */
  ghost function Checked(s: Plant, c: nat, boundary: bool): Plant
    requires OnCpu(s, c)
  {
    var extra := s.now - s.cpus[c].value.entered;
    if boundary && Overdrawn(s.ledger.job, extra) then s.(ledger := Next(s.ledger, DoMark(extra))) else s
  }

  ghost function Stayed(s: Plant, c: nat, boundary: bool): Plant
    requires OnCpu(s, c)
  {
    if boundary then s.(cpus := s.cpus[c := Some(s.cpus[c].value.(checked := s.now))]) else s
  }

  ghost function After(tm: Timing, s: Plant, a: Act): Plant
    requires Allowed(tm, s, a)
  {
    match a
    case Enter(c, i) => s.(cpus := s.cpus[c := Some(Stay(i, s.now, s.now))])
    case Exit(c) => Leave(s, c)
    case Tick(c, boundary) =>
      var r := Checked(s, c, boundary);
      if Ignored(r.ledger.job) then Leave(r, c) else Stayed(r, c, boundary)
    case Close => s.(ledger := Next(s.ledger, DoClose), since := s.now)
    case Pass(dt) => s.(now := s.now + dt)
  }

  ghost predicate IsTimeline(tm: Timing, ss: seq<Plant>, acts: seq<Act>) {
    && |ss| == |acts| + 1
    && forall i {:trigger acts[i]} :: 0 <= i < |acts| ==>
         Allowed(tm, ss[i], acts[i]) && ss[i + 1] == After(tm, ss[i], acts[i])
  }

  // ---------------------------------------------------------------- sums over the CPUs

  lemma {:induction false} SlicesUpdate(cpus: seq<Option<Stay>>, now: nat, c: nat, v: Option<Stay>)
    requires c < |cpus|
    ensures Slices(cpus[c := v], now) == Slices(cpus, now) - Slice(cpus[c], now) + Slice(v, now)
  {
    var n := |cpus| - 1;
    if c < n {
      SlicesUpdate(cpus[..n], now, c, v);
      assert cpus[c := v][..n] == cpus[..n][c := v];
    } else {
      assert cpus[c := v][..n] == cpus[..n];
    }
  }

  /** What the threads now running may still be credited if none of them passes its next boundary. */
  ghost function Reach(cpus: seq<Option<Stay>>, gap: nat): int {
    if cpus == [] then 0 else Reach(cpus[..|cpus| - 1], gap) + ReachOf(cpus[|cpus| - 1], gap)
  }

  ghost function ReachOf(c: Option<Stay>, gap: nat): int {
    if c.Some? then c.value.checked + gap - c.value.entered else 0
  }

  lemma {:induction false} ReachUpdate(cpus: seq<Option<Stay>>, gap: nat, c: nat, v: Option<Stay>)
    requires c < |cpus|
    ensures Reach(cpus[c := v], gap) == Reach(cpus, gap) - ReachOf(cpus[c], gap) + ReachOf(v, gap)
  {
    var n := |cpus| - 1;
    if c < n {
      ReachUpdate(cpus[..n], gap, c, v);
      assert cpus[c := v][..n] == cpus[..n][c := v];
    } else {
      assert cpus[c := v][..n] == cpus[..n];
    }
  }

  /** A thread in time: checked after it entered, within its budget then, and not long ago. */
  ghost predicate InTime(tm: Timing, limit: nat, now: nat, c: Option<Stay>) {
    c.Some? ==>
      && c.value.entered <= c.value.checked <= now <= c.value.checked + tm.gap
      && c.value.checked - c.value.entered < limit
  }

  lemma {:induction false} SlicesPass(cpus: seq<Option<Stay>>, now: nat, dt: nat)
    ensures Slices(cpus, now) <= Slices(cpus, now + dt) <= Slices(cpus, now) + |cpus| * dt
  {
    if cpus != [] {
      SlicesPass(cpus[..|cpus| - 1], now, dt);
      Distribute(dt, |cpus| - 1);
    }
  }

  lemma Distribute(a: nat, k: nat)
    ensures (k + 1) * a == k * a + a
  {
  }

  lemma {:induction false} SlicesReach(tm: Timing, limit: nat, cpus: seq<Option<Stay>>, now: nat)
    requires forall c :: 0 <= c < |cpus| ==> InTime(tm, limit, now, cpus[c])
    ensures 0 <= Slices(cpus, now) <= Reach(cpus, tm.gap) <= Slices(cpus, now) + |cpus| * tm.gap
    ensures Reach(cpus, tm.gap) <= |cpus| * (limit + tm.gap)
  {
    if cpus != [] {
      SlicesReach(tm, limit, cpus[..|cpus| - 1], now);
      Distribute(tm.gap, |cpus| - 1);
      Distribute(limit + tm.gap, |cpus| - 1);
      assert InTime(tm, limit, now, cpus[|cpus| - 1]);
    }
  }

  // ---------------------------------------------------------------- the invariant

  /** The most that may be owed in a window that opened without a throttle. */
  ghost function Open(tm: Timing, s: Plant): int {
    |s.cpus| * (s.ledger.job.limit + tm.gap) + |s.cpus| * (s.now - s.since)
  }

  ghost function Cap(tm: Timing, limit: nat, cpus: nat): int {
    cpus * (limit + tm.gap) + cpus * tm.window + cpus * tm.gap
  }

  /** Debt and slices: bounded by the length of an open window, and only falling while the job is throttled. */
  ghost predicate Contained(tm: Timing, s: Plant) {
    var j := s.ledger.job;
    if j.throttled then Debt(j) + Reach(s.cpus, tm.gap) <= Cap(tm, j.limit, |s.cpus|)
    else Debt(j) + Slices(s.cpus, s.now) <= Open(tm, s)
  }

  ghost predicate Timely(tm: Timing, s: Plant) {
    && s.ledger.job.limit > 0 && s.ledger.job.base <= Total(s.ledger.job.members)
    && s.since <= s.now <= s.since + tm.window
    && (forall c :: 0 <= c < |s.cpus| ==> InTime(tm, s.ledger.job.limit, s.now, s.cpus[c]))
    && (forall c :: 0 <= c < |s.cpus| && s.cpus[c].Some? ==> s.cpus[c].value.member < |s.ledger.job.members|)
  }

  ghost predicate Inv(tm: Timing, start: Job, s: Plant) {
    && Timely(tm, s) && Contained(tm, s)
    && Balanced(start, s.ledger) && s.ledger.departed == 0 && s.ledger.joined == 0
  }

  // ---------------------------------------------------------------- every act keeps it

  lemma MulAdd(k: nat, a: int, b: int)
    ensures k * (a + b) == k * a + k * b
  {
  }

  lemma MulLe(k: nat, a: int, b: int)
    requires a <= b
    ensures k * a <= k * b
  {
  }

  lemma CreditDebt(j: Job, i: nat, ns: nat)
    requires i < |j.members|
    ensures Debt(Credit(j, i, ns)) == Debt(j) + ns
  {
    hide Total;
    TotalCredit(j.members, i, ns);
  }

  /** What an open window allows fits under the cap even if the job is throttled next. */
  lemma OpenFits(tm: Timing, s: Plant)
    requires Timely(tm, s) && Debt(s.ledger.job) + Slices(s.cpus, s.now) <= Open(tm, s)
    ensures Debt(s.ledger.job) + Reach(s.cpus, tm.gap) <= Cap(tm, s.ledger.job.limit, |s.cpus|)
  {
    SlicesReach(tm, s.ledger.job.limit, s.cpus, s.now);
    MulLe(|s.cpus|, s.now - s.since, tm.window);
    hide Slices, Reach, Timely, Debt;
  }

  lemma LeaveKeeps(tm: Timing, start: Job, s: Plant, c: nat)
    requires start.limit > 0 && Inv(tm, start, s) && OnCpu(s, c)
    ensures Inv(tm, start, Leave(s, c))
  {
    var stay := s.cpus[c].value;
    var ns := s.now - stay.entered;
    StepBalanced(start, s.ledger, DoCredit(stay.member, ns));
    CreditDebt(s.ledger.job, stay.member, ns);
    SlicesUpdate(s.cpus, s.now, c, None);
    ReachUpdate(s.cpus, tm.gap, c, None);
    assert InTime(tm, s.ledger.job.limit, s.now, s.cpus[c]);
    hide Slices, Reach, Total, Balanced;
  }

  lemma CheckedKeeps(tm: Timing, start: Job, s: Plant, c: nat, boundary: bool)
    requires start.limit > 0 && Inv(tm, start, s) && OnCpu(s, c)
    ensures Inv(tm, start, Checked(s, c, boundary))
  {
    if !s.ledger.job.throttled {
      OpenFits(tm, s);
    }
    hide Slices, Reach, Total, Overdrawn, Cap, Open;
  }

  lemma StayedKeeps(tm: Timing, start: Job, s: Plant, c: nat, boundary: bool)
    requires start.limit > 0 && Inv(tm, start, s) && OnCpu(s, c) && !s.ledger.job.throttled
    requires boundary ==> !Overdrawn(s.ledger.job, s.now - s.cpus[c].value.entered)
    ensures Inv(tm, start, Stayed(s, c, boundary))
  {
    if boundary {
      SlicesUpdate(s.cpus, s.now, c, Some(s.cpus[c].value.(checked := s.now)));
    }
    hide Slices, Reach, Total, Balanced, Cap, Open;
  }

  lemma EnterKeeps(tm: Timing, start: Job, s: Plant, a: Act)
    requires start.limit > 0 && Inv(tm, start, s) && a.Enter? && Allowed(tm, s, a)
    ensures Inv(tm, start, After(tm, s, a))
  {
    SlicesUpdate(s.cpus, s.now, a.cpu, Some(Stay(a.member, s.now, s.now)));
    hide Slices, Reach, Total, Balanced, Cap, Open;
  }

  lemma TickKeeps(tm: Timing, start: Job, s: Plant, a: Act)
    requires start.limit > 0 && Inv(tm, start, s) && a.Tick? && Allowed(tm, s, a)
    ensures Inv(tm, start, After(tm, s, a))
  {
    var r := Checked(s, a.cpu, a.boundary);
    assert s.ledger.job.limit > 0;
    CheckedKeeps(tm, start, s, a.cpu, a.boundary);
    hide Inv, Overdrawn, Leave, Stayed;
    if Ignored(r.ledger.job) {
      LeaveKeeps(tm, start, r, a.cpu);
    } else {
      StayedKeeps(tm, start, r, a.cpu, a.boundary);
    }
  }

  lemma CloseDebt(j: Job)
    requires j.limit > 0 && j.base <= Total(j.members)
    ensures var r := CloseWindow(j);
            && r.limit == j.limit && r.members == j.members && r.base <= Total(j.members)
            && Debt(r) == if r.throttled then Debt(j) - j.limit else 0
  {
    CloseAnchors(j);
  }

  lemma OpensEmpty(tm: Timing, s: Plant)
    requires s.now == s.since
    ensures Open(tm, s) == |s.cpus| * (s.ledger.job.limit + tm.gap)
  {
  }

  lemma CloseContains(tm: Timing, s: Plant, t: Plant)
    requires Timely(tm, s) && Contained(tm, s) && t == s.(ledger := t.ledger, since := s.now)
    requires t.ledger.job == CloseWindow(s.ledger.job)
    ensures Contained(tm, t)
  {
    CloseDebt(s.ledger.job);
    SlicesReach(tm, s.ledger.job.limit, s.cpus, s.now);
    OpensEmpty(tm, t);
    if !s.ledger.job.throttled {
      OpenFits(tm, s);
    }
    hide Slices, Reach, Total, Cap, CloseWindow, Open, Timely, Debt;
  }

  lemma CloseKeeps(tm: Timing, start: Job, s: Plant)
    requires start.limit > 0 && Inv(tm, start, s)
    ensures Inv(tm, start, After(tm, s, Close))
  {
    StepBalanced(start, s.ledger, DoClose);
    CloseDebt(s.ledger.job);
    hide Slices, Reach, Total, Balanced, Contained, CloseWindow, InTime;
    CloseContains(tm, s, After(tm, s, Close));
  }

  lemma PassKeeps(tm: Timing, start: Job, s: Plant, a: Act)
    requires start.limit > 0 && Inv(tm, start, s) && a.Pass? && Allowed(tm, s, a)
    ensures Inv(tm, start, After(tm, s, a))
  {
    SlicesPass(s.cpus, s.now, a.dt);
    MulAdd(|s.cpus|, s.now - s.since, a.dt);
    forall c | 0 <= c < |s.cpus|
      ensures InTime(tm, s.ledger.job.limit, s.now + a.dt, s.cpus[c])
    {
      assert InTime(tm, s.ledger.job.limit, s.now, s.cpus[c]);
      assert s.cpus[c].Some? ==> OnCpu(s, c);
    }
    hide Slices, Reach, Total, Balanced, Cap, InTime;
  }

  lemma ActKeeps(tm: Timing, start: Job, s: Plant, a: Act)
    requires start.limit > 0 && Inv(tm, start, s) && Allowed(tm, s, a)
    ensures Inv(tm, start, After(tm, s, a))
  {
    hide Inv, Leave, OnCpu;
    match a
    case Enter(_, _) => EnterKeeps(tm, start, s, a);
    case Exit(c) => LeaveKeeps(tm, start, s, c);
    case Tick(_, _) => TickKeeps(tm, start, s, a);
    case Close => CloseKeeps(tm, start, s);
    case Pass(_) => PassKeeps(tm, start, s, a);
  }

  // ---------------------------------------------------------------- every timeline

  /** The limit was just set and no member is running. */
  ghost predicate Fresh(start: Job, s: Plant) {
    && s.ledger == Ledger(start, 0, 0, 0, 0, 0) && start.limit > 0 && start.base == Total(start.members)
    && s.since == s.now && forall c :: 0 <= c < |s.cpus| ==> s.cpus[c].None?
  }

  lemma {:induction false} AllIdle(cpus: seq<Option<Stay>>, now: nat, gap: nat)
    requires forall c :: 0 <= c < |cpus| ==> cpus[c].None?
    ensures Slices(cpus, now) == 0 && Reach(cpus, gap) == 0
  {
    if cpus != [] {
      AllIdle(cpus[..|cpus| - 1], now, gap);
    }
  }

  lemma FreshInv(tm: Timing, start: Job, s: Plant)
    requires Fresh(start, s)
    ensures Inv(tm, start, s)
  {
    AllIdle(s.cpus, s.now, tm.gap);
    hide Slices, Reach, Total;
  }

  lemma {:induction false} TimelineInv(tm: Timing, start: Job, ss: seq<Plant>, acts: seq<Act>, i: nat)
    requires IsTimeline(tm, ss, acts) && Fresh(start, ss[0]) && i < |ss|
    ensures Inv(tm, start, ss[i]) && |ss[i].cpus| == |ss[0].cpus|
  {
    hide Inv, Allowed;
    if i > 0 {
      TimelineInv(tm, start, ss, acts, i - 1);
      ActKeeps(tm, start, ss[i - 1], acts[i - 1]);
      SameCpus(tm, ss[i - 1], acts[i - 1]);
    } else {
      FreshInv(tm, start, ss[0]);
    }
  }

  lemma SameCpus(tm: Timing, s: Plant, a: Act)
    requires Allowed(tm, s, a)
    ensures |After(tm, s, a).cpus| == |s.cpus|
  {
    hide Next, Overdrawn;
  }

  /**
   The quota is enforced.  However many windows close, and whatever the members do, a job gets no more
   than one budget a window plus a constant: on each CPU one budget, one window and two tick gaps.
   */
  lemma QuotaEnforced(tm: Timing, start: Job, ss: seq<Plant>, acts: seq<Act>, i: nat)
    requires IsTimeline(tm, ss, acts) && Fresh(start, ss[0]) && i < |ss|
    ensures var s := ss[i];
            s.ledger.consumed + Slices(s.cpus, s.now) <=
            s.ledger.closes * start.limit + |ss[0].cpus| * (start.limit + tm.window + 2 * tm.gap)
  {
    TimelineInv(tm, start, ss, acts, i);
    var s := ss[i];
    if !s.ledger.job.throttled {
      OpenFits(tm, s);
    }
    SlicesReach(tm, start.limit, s.cpus, s.now);
    CapIs(tm, start.limit, |s.cpus|);
    hide Slices, Reach, Total, Cap, Timely, Open, IsTimeline;
  }

  lemma CapIs(tm: Timing, limit: nat, cpus: nat)
    ensures Cap(tm, limit, cpus) == cpus * (limit + tm.window + 2 * tm.gap)
  {
    MulAdd(cpus, limit + tm.gap, tm.window);
    MulAdd(cpus, limit + tm.gap + tm.window, tm.gap);
  }

  // ---------------------------------------------------------------- acting within a tick

  /** What the comment on `estourou` promises: past one budget a window, at most a tick gap on each CPU. */
  ghost predicate ActsWithinTick(tm: Timing, start: Job, s: Plant) {
    s.ledger.consumed + Slices(s.cpus, s.now) <= (s.ledger.closes + 1) * start.limit + |s.cpus| * tm.gap
  }

  /** A thread that leaves by itself does so at the moment of a boundary check. */
  ghost predicate AtCheck(s: Plant, a: Act) {
    a.Exit? ==> OnCpu(s, a.cpu) && s.cpus[a.cpu].value.checked == s.now
  }

  ghost predicate ExitsAtChecks(ss: seq<Plant>, acts: seq<Act>) {
    |ss| == |acts| + 1 && forall i {:trigger acts[i]} :: 0 <= i < |acts| ==> AtCheck(ss[i], acts[i])
  }

  /** On one CPU the last check covers all the job's time, so at most one gap can be lost. */
  ghost predicate Tight(tm: Timing, s: Plant) {
    var j := s.ledger.job;
    && |s.cpus| == 1
    && (s.cpus[0].Some? ==> Debt(j) + s.cpus[0].value.checked - s.cpus[0].value.entered < j.limit)
    && (s.cpus[0].None? ==> Debt(j) < j.limit + if j.throttled then tm.gap else 0)
  }

  lemma TightLeave(tm: Timing, s: Plant)
    requires Timely(tm, s) && Tight(tm, s) && OnCpu(s, 0)
    requires s.ledger.job.throttled || s.cpus[0].value.checked == s.now
    ensures Tight(tm, Leave(s, 0))
  {
    var stay := s.cpus[0].value;
    CreditDebt(s.ledger.job, stay.member, s.now - stay.entered);
    assert InTime(tm, s.ledger.job.limit, s.now, s.cpus[0]);
    hide Total, Timely;
  }

  lemma TightTick(tm: Timing, s: Plant, a: Act)
    requires Timely(tm, s) && Tight(tm, s) && a.Tick? && Allowed(tm, s, a)
    ensures Tight(tm, After(tm, s, a))
  {
    var r := Checked(s, a.cpu, a.boundary);
    if Ignored(r.ledger.job) {
      TightLeave(tm, r);
    }
    hide Total, InTime;
  }

  lemma TightAct(tm: Timing, s: Plant, a: Act)
    requires Timely(tm, s) && Tight(tm, s) && Allowed(tm, s, a) && AtCheck(s, a)
    ensures Tight(tm, After(tm, s, a))
  {
    if a.Tick? {
      TightTick(tm, s, a);
    } else if a.Exit? {
      TightLeave(tm, s);
    } else if a.Close? {
      CloseDebt(s.ledger.job);
    }
    hide Total, InTime, CloseWindow, Overdrawn, Checked, Leave;
  }

  lemma {:induction false} TimelineTight(tm: Timing, start: Job, ss: seq<Plant>, acts: seq<Act>, i: nat)
    requires IsTimeline(tm, ss, acts) && Fresh(start, ss[0]) && |ss[0].cpus| == 1 && i < |ss|
    requires ExitsAtChecks(ss, acts)
    ensures Tight(tm, ss[i])
  {
    if i > 0 {
      hide Tight, Allowed, Fresh, AtCheck;
      TimelineTight(tm, start, ss, acts, i - 1);
      TimelineInv(tm, start, ss, acts, i - 1);
      TightAct(tm, ss[i - 1], acts[i - 1]);
    }
  }

  /** A job on one CPU whose threads leave only at checks gets at most one budget a window and one tick gap. */
  lemma OneCpuEnforced(tm: Timing, start: Job, ss: seq<Plant>, acts: seq<Act>, i: nat)
    requires IsTimeline(tm, ss, acts) && Fresh(start, ss[0]) && |ss[0].cpus| == 1 && i < |ss|
    requires ExitsAtChecks(ss, acts)
    ensures ActsWithinTick(tm, start, ss[i])
  {
    TimelineTight(tm, start, ss, acts, i);
    TimelineInv(tm, start, ss, acts, i);
    var s := ss[i];
    assert InTime(tm, s.ledger.job.limit, s.now, s.cpus[0]);
    assert s.cpus[..0] == [];
    assert Slices(s.cpus, s.now) == Slice(s.cpus[0], s.now);
    Distribute(start.limit, s.ledger.closes);
    hide Slices, Reach, Total, Timely, Contained, IsTimeline;
  }

  // ---------------------------------------------------------------- timelines that go too far

  /** Some timeline leads from `s` to `t`; with `atChecks`, one whose threads leave only at checks. */
  ghost predicate Reaches(tm: Timing, atChecks: bool, s: Plant, t: Plant) {
    exists ss: seq<Plant>, acts: seq<Act> ::
      && IsTimeline(tm, ss, acts) && (atChecks ==> ExitsAtChecks(ss, acts)) && ss[0] == s && ss[|acts|] == t
  }

  lemma ReachesSelf(tm: Timing, atChecks: bool, s: Plant)
    ensures Reaches(tm, atChecks, s, s)
  {
    var ss, acts: seq<Act> := [s], [];
    assert IsTimeline(tm, ss, acts) && ExitsAtChecks(ss, acts) && ss[0] == s && ss[|acts|] == s;
  }

  /** A timeline goes on with one more act. */
  lemma ReachesNext(tm: Timing, atChecks: bool, s: Plant, t: Plant, a: Act)
    requires Reaches(tm, atChecks, s, t) && Allowed(tm, t, a) && (atChecks ==> AtCheck(t, a))
    ensures Reaches(tm, atChecks, s, After(tm, t, a))
  {
    hide Allowed, After, AtCheck;
    var ss: seq<Plant>, acts: seq<Act> :|
      IsTimeline(tm, ss, acts) && (atChecks ==> ExitsAtChecks(ss, acts)) && ss[0] == s && ss[|acts|] == t;
    var tt, bs := ss + [After(tm, t, a)], acts + [a];
    assert IsTimeline(tm, tt, bs);
    assert atChecks ==> ExitsAtChecks(tt, bs);
    assert tt[0] == s && tt[|bs|] == After(tm, t, a);
  }

  /** The bound of `QuotaEnforced` wherever a timeline leads. */
  lemma ReachedBound(tm: Timing, start: Job, s: Plant, t: Plant)
    requires Reaches(tm, false, s, t) && Fresh(start, s)
    ensures t.ledger.consumed + Slices(t.cpus, t.now) <=
            t.ledger.closes * start.limit + |s.cpus| * (start.limit + tm.window + 2 * tm.gap)
  {
    var ss: seq<Plant>, acts: seq<Act> :| IsTimeline(tm, ss, acts) && ss[0] == s && ss[|acts|] == t;
    hide Fresh, Slices, Allowed, After;
    QuotaEnforced(tm, start, ss, acts, |acts|);
  }

  /** The first `k` of `n` CPUs are as `a` says, the others as `b` says. */
  ghost function Mixed(n: nat, k: nat, a: Option<Stay>, b: Option<Stay>): (r: seq<Option<Stay>>)
    ensures |r| == n && forall c :: 0 <= c < n ==> r[c] == if c < k then a else b
  {
    seq(n, c => if c < k then a else b)
  }

  lemma MixedNext(n: nat, k: nat, a: Option<Stay>, b: Option<Stay>)
    requires k < n
    ensures Mixed(n, k, a, b)[k := a] == Mixed(n, k + 1, a, b)
  {
  }

  lemma MixedEnds(n: nat, a: Option<Stay>, b: Option<Stay>)
    ensures Mixed(n, 0, a, b) == Mixed(n, n, b, b) && Mixed(n, n, a, b) == Mixed(n, n, a, a)
  {
  }

  /** All `n` CPUs run threads of the first member. */
  ghost function Spinning(l: Ledger, n: nat, now: nat, entered: nat, checked: nat): Plant {
    Plant(l, Mixed(n, n, Some(Stay(0, entered, checked)), Some(Stay(0, entered, checked))), now, 0)
  }

  ghost function Resting(l: Ledger, n: nat, now: nat): Plant {
    Plant(l, Mixed(n, n, None, None), now, 0)
  }

  lemma {:induction false} SpinningSlices(n: nat, stay: Stay, now: nat)
    ensures Slices(Mixed(n, n, Some(stay), Some(stay)), now) == n * (now - stay.entered)
  {
    var cpus := Mixed(n, n, Some(stay), Some(stay));
    if n > 0 {
      SpinningSlices(n - 1, stay, now);
      assert cpus[..n - 1] == Mixed(n - 1, n - 1, Some(stay), Some(stay));
      MulStep(n, now - stay.entered);
    }
  }

  lemma MulStep(n: nat, d: int)
    requires n > 0
    ensures n * d == (n - 1) * d + d
  {
  }

  /** A job that may run: it has a member and is not throttled. */
  ghost predicate MayRun(j: Job) {
    j.members != [] && !j.throttled && j.limit > 0
  }

  lemma {:induction false} EnterAll(tm: Timing, ac: bool, s: Plant, l: Ledger, n: nat, now: nat, k: nat)
    requires MayRun(l.job) && k <= n && Reaches(tm, ac, s, Resting(l, n, now))
    ensures Reaches(tm, ac, s, Plant(l, Mixed(n, k, Some(Stay(0, now, now)), None), now, 0))
  {
    var on := Some(Stay(0, now, now));
    MixedEnds(n, on, None);
    if k > 0 {
      EnterAll(tm, ac, s, l, n, now, k - 1);
      hide Reaches;
      MixedNext(n, k - 1, on, None);
      ReachesNext(tm, ac, s, Plant(l, Mixed(n, k - 1, on, None), now, 0), Enter(k - 1, 0));
    }
  }

  /** Every CPU takes a boundary tick, and none finds the budget spent. */
  lemma {:induction false} TickAll(tm: Timing, ac: bool, s: Plant, l: Ledger, n: nat, now: nat, entered: nat,
                                   checked: nat, k: nat)
    requires MayRun(l.job) && k <= n && entered <= now && !Overdrawn(l.job, now - entered)
    requires Reaches(tm, ac, s, Spinning(l, n, now, entered, checked))
    ensures Reaches(tm, ac, s,
                    Plant(l, Mixed(n, k, Some(Stay(0, entered, now)), Some(Stay(0, entered, checked))), now, 0))
  {
    var late, early := Some(Stay(0, entered, now)), Some(Stay(0, entered, checked));
    MixedEnds(n, late, early);
    if k > 0 {
      TickAll(tm, ac, s, l, n, now, entered, checked, k - 1);
      hide Reaches, Overdrawn;
      MixedNext(n, k - 1, late, early);
      ReachesNext(tm, ac, s, Plant(l, Mixed(n, k - 1, late, early), now, 0), Tick(k - 1, true));
    }
  }

  /** The ledger after `k` stays of length `d` of the first member were credited. */
  ghost function Paid(l: Ledger, k: nat, d: nat): (r: Ledger)
    requires l.job.members != []
    ensures r.job.members != []
  {
    if k == 0 then l else Next(Paid(l, k - 1, d), DoCredit(0, d))
  }

  lemma {:induction false} PaidTotal(l: Ledger, k: nat, d: nat)
    requires l.job.members != []
    ensures var r := Paid(l, k, d);
            && r.job == l.job.(members := r.job.members) && Total(r.job.members) == Total(l.job.members) + k * d
            && r == l.(job := r.job, consumed := l.consumed + k * d)
  {
    if k > 0 {
      PaidTotal(l, k - 1, d);
      CreditDebt(Paid(l, k - 1, d).job, 0, d);
      MulStep(k, d);
    }
  }

  /** Every thread leaves, just after its check. */
  lemma {:induction false} ExitAll(tm: Timing, ac: bool, s: Plant, l: Ledger, n: nat, now: nat, entered: nat, k: nat)
    requires l.job.members != [] && k <= n && entered <= now && Reaches(tm, ac, s, Spinning(l, n, now, entered, now))
    ensures Reaches(tm, ac, s,
                    Plant(Paid(l, k, now - entered), Mixed(n, k, None, Some(Stay(0, entered, now))), now, 0))
  {
    hide Reaches, Next, Mixed;
    if k == 0 {
      MixedEnds(n, None, Some(Stay(0, entered, now)));
    } else {
      ExitAll(tm, ac, s, l, n, now, entered, k - 1);
      ExitOne(tm, ac, s, Paid(l, k - 1, now - entered), n, now, entered, k - 1);
    }
  }

  lemma ExitOne(tm: Timing, ac: bool, s: Plant, l: Ledger, n: nat, now: nat, entered: nat, k: nat)
    requires l.job.members != [] && k < n && entered <= now
    requires Reaches(tm, ac, s, Plant(l, Mixed(n, k, None, Some(Stay(0, entered, now))), now, 0))
    ensures Reaches(tm, ac, s, Plant(Next(l, DoCredit(0, now - entered)),
                                     Mixed(n, k + 1, None, Some(Stay(0, entered, now))), now, 0))
  {
    var was := Plant(l, Mixed(n, k, None, Some(Stay(0, entered, now))), now, 0);
    LeaveNext(was, n, k, entered);
    hide Reaches, Next, Mixed, Leave;
    ReachesNext(tm, ac, s, was, Exit(k));
  }

  lemma LeaveNext(s: Plant, n: nat, k: nat, entered: nat)
    requires s.ledger.job.members != [] && k < n && entered <= s.now
    requires s.cpus == Mixed(n, k, None, Some(Stay(0, entered, s.now)))
    ensures OnCpu(s, k) && AtCheck(s, Exit(k))
    ensures Leave(s, k) == s.(ledger := Next(s.ledger, DoCredit(0, s.now - entered)),
                              cpus := Mixed(n, k + 1, None, Some(Stay(0, entered, s.now))))
  {
    hide Next;
    MixedNext(n, k, None, Some(Stay(0, entered, s.now)));
  }

  /** While credited time and slice stay below the budget, all CPUs spin on from tick to tick. */
  lemma {:induction false} Spin(tm: Timing, ac: bool, s: Plant, l: Ledger, n: nat, from: nat, d: nat)
    requires MayRun(l.job) && tm.gap > 0 && from + d <= tm.window && Total(l.job.members) + d < l.job.base + l.job.limit
    requires Reaches(tm, ac, s, Spinning(l, n, from, from, from))
    ensures Reaches(tm, ac, s, Spinning(l, n, from + d, from, from + d))
  {
    if d > 0 {
      Spin(tm, ac, s, l, n, from, d - 1);
      hide Reaches, Total;
      var t := from + d;
      ReachesNext(tm, ac, s, Spinning(l, n, t - 1, from, t - 1), Pass(1));
      TickAll(tm, ac, s, l, n, t, from, t - 1, n);
      MixedEnds(n, Some(Stay(0, from, t)), Some(Stay(0, from, t - 1)));
    }
  }

  // ---------------------------------------------------------------- when the promise holds

  /** A budget of at least 3 that leaves room in a window: `n` CPUs can use it up a tick gap and `n` units early. */
  ghost predicate Room(tm: Timing, limit: nat, n: nat) {
    limit > 2 && tm.gap > 0 && limit + n * (tm.gap + n) <= n * tm.window
  }

  ghost function Begin(j: Job, n: nat): Plant {
    Resting(Ledger(j, 0, 0, 0, 0, 0), n, 0)
  }

  /** A limit just set on a job that may run. */
  ghost predicate Anchored(j: Job) {
    MayRun(j) && j.base == Total(j.members)
  }

  lemma BeginFresh(j: Job, n: nat)
    requires Anchored(j)
    ensures Fresh(j, Begin(j, n)) && |Begin(j, n).cpus| == n
  {
  }

  /** First all CPUs spin for `q` and are credited; then they spin again up to the budget, and for one gap more. */
  lemma SpinTwice(tm: Timing, ac: bool, j: Job, n: nat, q: nat, x: nat) returns (t: Plant)
    requires Anchored(j) && tm.gap > 0 && q < j.limit && n * q + x < j.limit && q + x + tm.gap <= tm.window
    ensures Reaches(tm, ac, Begin(j, n), t) && t.ledger.consumed == n * q && t.ledger.closes == 0
    ensures |t.cpus| == n && Slices(t.cpus, t.now) == n * (x + tm.gap)
  {
    hide Reaches, Total;
    var s, l := Begin(j, n), Ledger(j, 0, 0, 0, 0, 0);
    var on, again := Some(Stay(0, 0, 0)), Some(Stay(0, q, q));
    ReachesSelf(tm, ac, s);
    EnterAll(tm, ac, s, l, n, 0, n);
    MixedEnds(n, on, None);
    Spin(tm, ac, s, l, n, 0, q);
    ExitAll(tm, ac, s, l, n, q, 0, n);
    MixedEnds(n, None, Some(Stay(0, 0, q)));
    PaidTotal(l, n, q);
    EnterAll(tm, ac, s, Paid(l, n, q), n, q, n);
    MixedEnds(n, again, None);
    Spin(tm, ac, s, Paid(l, n, q), n, q, x);
    var last := Spinning(Paid(l, n, q), n, q + x, q, q + x);
    ReachesNext(tm, ac, s, last, Pass(tm.gap));
    t := After(tm, last, Pass(tm.gap));
    SpinningSlices(n, Stay(0, q, q + x), q + x + tm.gap);
  }

  /** The arithmetic of `SpinTwice`: on two CPUs or more it exceeds the bound and fits in the window. */
  lemma TwiceIsTooMuch(tm: Timing, limit: nat, n: nat) returns (q: nat, x: nat)
    requires Room(tm, limit, n) && n >= 2
    ensures q < limit && n * q + x < limit && q + x + tm.gap <= tm.window
    ensures n * q + n * (x + tm.gap) > limit + n * tm.gap
  {
    q := (limit - 3) / n;
    x := limit - 1 - n * q;
    var r := (limit - 3) % n;
    assert limit - 3 == n * q + r && r < n;
    assert x == r + 2;
    RoomInTime(tm.gap, tm.window, n, q, r);
    MulAdd(n, x, tm.gap);
    assert n * x >= 2 * x by { MulLe(x, 2, n); }
    assert n * q >= q by { MulLe(q, 1, n); }
  }

  lemma RoomInTime(gap: nat, window: nat, n: nat, q: nat, r: nat)
    requires n >= 2 && r < n && n * q + r + 3 + n * (gap + n) <= n * window
    ensures q + r + 2 + gap <= window
  {
    if q + gap + n >= window {
      MulLe(n, window, q + (gap + n));
      MulAdd(n, q, gap + n);
      assert false;
    }
  }

  /** On two CPUs or more a job with room breaks the promise, even with threads that leave only at checks. */
  lemma ManyCpusOverrun(tm: Timing, ac: bool, j: Job, n: nat) returns (t: Plant)
    requires Anchored(j) && Room(tm, j.limit, n) && n >= 2
    ensures Reaches(tm, ac, Begin(j, n), t) && !ActsWithinTick(tm, j, t)
  {
    hide Anchored, Room, Reaches;
    var q, x := TwiceIsTooMuch(tm, j.limit, n);
    assert tm.gap > 0 by { RoomGap(tm, j.limit, n); }
    t := SpinTwice(tm, ac, j, n, q, x);
  }

  lemma RoomGap(tm: Timing, limit: nat, n: nat)
    requires Room(tm, limit, n)
    ensures tm.gap > 0 && limit > 2
  {
  }

  /** A thread that runs for one unit at a time and leaves before its tick is never checked. */
  lemma {:induction false} Sneak(tm: Timing, j: Job, k: nat)
    requires Anchored(j) && tm.gap > 0 && k <= tm.window
    ensures Reaches(tm, false, Begin(j, 1), Resting(Paid(Ledger(j, 0, 0, 0, 0, 0), k, 1), 1, k))
  {
    var s, l := Begin(j, 1), Ledger(j, 0, 0, 0, 0, 0);
    if k == 0 {
      ReachesSelf(tm, false, s);
    } else {
      Sneak(tm, j, k - 1);
      PaidTotal(l, k - 1, 1);
      hide Reaches, Total, Next;
      SneakOnce(tm, s, Paid(l, k - 1, 1), k - 1);
    }
  }

  lemma SneakOnce(tm: Timing, s: Plant, l: Ledger, now: nat)
    requires MayRun(l.job) && tm.gap > 0 && now < tm.window && Reaches(tm, false, s, Resting(l, 1, now))
    ensures Reaches(tm, false, s, Resting(Next(l, DoCredit(0, 1)), 1, now + 1))
  {
    hide Reaches, Credit;
    var on := Some(Stay(0, now, now));
    EnterAll(tm, false, s, l, 1, now, 1);
    MixedEnds(1, on, None);
    ReachesNext(tm, false, s, Plant(l, Mixed(1, 1, on, on), now, 0), Pass(1));
    ReachesNext(tm, false, s, Plant(l, Mixed(1, 1, on, on), now + 1, 0), Exit(0));
    assert Mixed(1, 1, on, on)[0 := None] == Mixed(1, 1, None, None);
  }

  /** On one CPU every job with room breaks the promise if its threads may leave before their tick. */
  lemma EarlyLeaverOverrun(tm: Timing, j: Job) returns (t: Plant)
    requires Anchored(j) && Room(tm, j.limit, 1)
    ensures Reaches(tm, false, Begin(j, 1), t) && !ActsWithinTick(tm, j, t)
  {
    var l, k := Ledger(j, 0, 0, 0, 0, 0), j.limit + tm.gap + 1;
    hide Reaches, Total;
    Sneak(tm, j, k);
    PaidTotal(l, k, 1);
    t := Resting(Paid(l, k, 1), 1, k);
    AllIdle(t.cpus, k, tm.gap);
  }

  /** The promise holds at the end of every timeline of the job on `n` CPUs. */
  ghost predicate Promised(tm: Timing, j: Job, n: nat, atChecks: bool) {
    forall ss: seq<Plant>, acts: seq<Act> ::
      IsTimeline(tm, ss, acts) && Fresh(j, ss[0]) && |ss[0].cpus| == n && (atChecks ==> ExitsAtChecks(ss, acts)) ==>
        ActsWithinTick(tm, j, ss[|acts|])
  }

  lemma BrokenBy(tm: Timing, j: Job, n: nat, atChecks: bool, t: Plant)
    requires Anchored(j) && Reaches(tm, atChecks, Begin(j, n), t) && !ActsWithinTick(tm, j, t)
    ensures !Promised(tm, j, n, atChecks)
  {
    BeginFresh(j, n);
    hide ActsWithinTick, Fresh;
    var ss: seq<Plant>, acts: seq<Act> :|
      IsTimeline(tm, ss, acts) && (atChecks ==> ExitsAtChecks(ss, acts)) && ss[0] == Begin(j, n) && ss[|acts|] == t;
  }

  lemma KeptOnOneCpu(tm: Timing, j: Job)
    ensures Promised(tm, j, 1, true)
  {
    hide Allowed, After, Fresh, ExitsAtChecks, ActsWithinTick;
    forall ss: seq<Plant>, acts: seq<Act> |
      IsTimeline(tm, ss, acts) && Fresh(j, ss[0]) && |ss[0].cpus| == 1 && ExitsAtChecks(ss, acts)
      ensures ActsWithinTick(tm, j, ss[|acts|])
    {
      OneCpuEnforced(tm, j, ss, acts, |acts|);
    }
  }

  /**
   The throttle of a job with room acts within a tick, in every timeline, exactly when the job has one CPU
   and its threads leave by themselves only at checks.
   */
  lemma EnforcedIff(tm: Timing, j: Job, n: nat, atChecks: bool)
    requires Anchored(j) && n >= 1 && Room(tm, j.limit, n)
    ensures Promised(tm, j, n, atChecks) <==> n == 1 && atChecks
  {
    hide *;
    if n >= 2 {
      var t := ManyCpusOverrun(tm, atChecks, j, n);
      BrokenBy(tm, j, n, atChecks, t);
    } else if !atChecks {
      var t := EarlyLeaverOverrun(tm, j);
      BrokenBy(tm, j, 1, false, t);
    } else {
      KeptOnOneCpu(tm, j);
    }
  }

  // ---------------------------------------------------------------- a budget that no window can exceed

  /** Nobody gets more than the time that passed, and windows do not fall behind. */
  ghost predicate Clocked(tm: Timing, from: nat, s: Plant) {
    && from <= s.since <= s.now <= s.since + tm.window && s.since <= from + s.ledger.closes * tm.window
    && s.ledger.consumed + Slices(s.cpus, s.now) <= |s.cpus| * (s.now - from)
  }

  lemma ClockedLeave(tm: Timing, from: nat, s: Plant, c: nat)
    requires Clocked(tm, from, s) && OnCpu(s, c)
    ensures Clocked(tm, from, Leave(s, c))
  {
    SlicesUpdate(s.cpus, s.now, c, None);
    hide Slices;
  }

  lemma ClockedTick(tm: Timing, from: nat, s: Plant, c: nat, boundary: bool)
    requires Clocked(tm, from, s) && OnCpu(s, c)
    ensures Clocked(tm, from, Checked(s, c, boundary)) && Clocked(tm, from, Stayed(s, c, boundary))
    ensures OnCpu(Checked(s, c, boundary), c)
  {
    SlicesUpdate(s.cpus, s.now, c, Some(s.cpus[c].value.(checked := s.now)));
    hide Slices, Overdrawn;
  }

  lemma ClockedAct(tm: Timing, from: nat, s: Plant, a: Act)
    requires Clocked(tm, from, s) && Allowed(tm, s, a)
    ensures Clocked(tm, from, After(tm, s, a))
  {
    match a
    case Enter(c, i) => SlicesUpdate(s.cpus, s.now, c, Some(Stay(i, s.now, s.now)));
    case Exit(c) => ClockedLeave(tm, from, s, c);
    case Tick(c, boundary) =>
      var r := Checked(s, c, boundary);
      ClockedTick(tm, from, s, c, boundary);
      ClockedTick(tm, from, r, c, boundary);
      hide Checked, Leave, Stayed;
      ClockedLeave(tm, from, r, c);
    case Close => Distribute(tm.window, s.ledger.closes);
    case Pass(dt) =>
      SlicesPass(s.cpus, s.now, dt);
      MulAdd(|s.cpus|, s.now - from, dt);
  }

  lemma {:induction false} TimelineClocked(tm: Timing, start: Job, ss: seq<Plant>, acts: seq<Act>, i: nat)
    requires IsTimeline(tm, ss, acts) && Fresh(start, ss[0]) && i < |ss|
    ensures Clocked(tm, ss[0].now, ss[i])
  {
    if i > 0 {
      hide Clocked, Allowed, Fresh;
      TimelineClocked(tm, start, ss, acts, i - 1);
      ClockedAct(tm, ss[0].now, ss[i - 1], acts[i - 1]);
    } else {
      AllIdle(ss[0].cpus, ss[0].now, tm.gap);
      hide Slices;
    }
  }

  /** A budget of all the time there is in a window is never exceeded, on any number of CPUs. */
  lemma WholeCapacityEnforced(tm: Timing, start: Job, ss: seq<Plant>, acts: seq<Act>, i: nat)
    requires IsTimeline(tm, ss, acts) && Fresh(start, ss[0]) && i < |ss| && start.limit >= |ss[0].cpus| * tm.window
    ensures var s := ss[i]; s.ledger.consumed + Slices(s.cpus, s.now) <= (s.ledger.closes + 1) * start.limit
  {
    TimelineInv(tm, start, ss, acts, i);
    TimelineClocked(tm, start, ss, acts, i);
    var s, n := ss[i], |ss[0].cpus|;
    hide Inv, Slices, IsTimeline, Fresh;
    Distribute(tm.window, s.ledger.closes);
    WindowsCover(n, s.now - ss[0].now, s.ledger.closes + 1, tm.window, start.limit);
  }

  lemma WindowsCover(n: nat, elapsed: nat, k: nat, window: nat, limit: nat)
    requires elapsed <= k * window && n * window <= limit
    ensures n * elapsed <= k * limit
  {
    MulLe(n, elapsed, k * window);
    MulLe(k, n * window, limit);
    Reorder(n, k, window);
  }

  lemma Reorder(a: nat, b: nat, c: nat)
    ensures a * (b * c) == b * (a * c)
  {
  }
}
