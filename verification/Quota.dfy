/**
 CPU quota of a job (kernel/src/process.rs): a budget per window with the excess charged to the
 following windows.  Members are the live processes of the job with the CPU time credited to each.
 */
module Quota {
  import opened Seqs

  type Pid = nat

  datatype Member = Member(pid: Pid, cpuNs: nat)

  datatype Job = Job(limit: nat, base: nat, throttled: bool, members: seq<Member>)

  function Total(members: seq<Member>): nat {
    if members == [] then 0 else Total(members[..|members| - 1]) + members[|members| - 1].cpuNs
  }

  lemma {:induction false} TotalAppend(a: seq<Member>, b: seq<Member>)
    ensures Total(a + b) == Total(a) + Total(b)
  {
    if b == [] {
      assert a + b == a;
    } else {
      TotalAppend(a, b[..|b| - 1]);
      assert (a + b)[..|a + b| - 1] == a + b[..|b| - 1];
    }
  }

  /** Taking one member out of the sum. */
  lemma TotalAt(members: seq<Member>, i: nat)
    requires i < |members|
    ensures Total(members) == Total(RemoveAt(members, i)) + members[i].cpuNs
  {
    hide Total;
    var a, m, b := members[..i], members[i], members[i + 1..];
    TotalAppend(a + [m], b);
    TotalOne(a, m);
    TotalAppend(a, b);
    assert members == a + [m] + b;
  }

  lemma TotalOne(a: seq<Member>, m: Member)
    ensures Total(a + [m]) == Total(a) + m.cpuNs
  {
    assert (a + [m])[..|a|] == a;
  }

  /** Crediting one member adds to the sum. */
  lemma TotalCredit(members: seq<Member>, i: nat, ns: nat)
    requires i < |members|
    ensures Total(members[i := members[i].(cpuNs := members[i].cpuNs + ns)]) == Total(members) + ns
  {
    hide Total;
    var after := members[i := members[i].(cpuNs := members[i].cpuNs + ns)];
    TotalAt(members, i);
    TotalAt(after, i);
    assert RemoveAt(after, i) == RemoveAt(members, i);
  }

  // ---------------------------------------------------------------- operations

  function SatSub(a: nat, b: nat): nat {
    if a >= b then a - b else 0
  }

  /** `estourou`: is the budget of this window spent, counting `extra` not yet credited? */
  predicate Overdrawn(j: Job, extra: nat) {
    j.limit != 0 && SatSub(Total(j.members) + extra, j.base) >= j.limit
  }

  /** `fecha_janela`. */
  function CloseWindow(j: Job): Job {
    if j.limit == 0 then j.(throttled := false)
    else
      var total := Total(j.members);
      var spent := SatSub(total, j.base);
      j.(base := SatSub(total, SatSub(spent, j.limit)), throttled := spent >= j.limit)
  }

  /** `set_cpu_limit`: setting a limit anchors the window but does not lift a throttle. */
  function SetLimit(j: Job, ns: nat): Job {
    j.(limit := ns, base := Total(j.members), throttled := j.throttled && ns != 0)
  }

  function Credit(j: Job, i: nat, ns: nat): Job
    requires i < |j.members|
  {
    j.(members := j.members[i := j.members[i].(cpuNs := j.members[i].cpuNs + ns)])
  }

  function Attach(j: Job, m: Member): Job {
    if exists k :: 0 <= k < |j.members| && j.members[k].pid == m.pid then j else j.(members := j.members + [m])
  }

  function Leave(j: Job, i: nat): Job
    requires i < |j.members|
  {
    j.(members := RemoveAt(j.members, i))
  }

  /** `em_throttle`. */
  predicate Ignored(j: Job) {
    j.throttled && j.limit != 0
  }

  /** Whatever the members did, a close raises the base to the total, but by no more than one budget. */
  lemma CloseAnchors(j: Job)
    requires j.limit > 0
    ensures var t, r := Total(j.members), CloseWindow(j);
            && r.base == (if t <= j.base + j.limit then t else j.base + j.limit)
            && (r.throttled <==> t >= j.base + j.limit)
            && r.base <= t
  {
  }

  // ---------------------------------------------------------------- the budget over a run

  datatype Step =
    | DoCredit(i: nat, ns: nat)
    | DoClose
    | DoMark(extra: nat)
    | DoAttach(m: Member)
    | DoLeave(i: nat)

  /** The part of one budget that a close does not add to the base. */
  ghost function Unspent(j: Job): nat {
    SatSub(j.base + j.limit, Total(j.members))
  }

  /** A job with what happened to it since the run started. */
  datatype Ledger = Ledger(job: Job, consumed: nat, departed: nat, joined: nat, closes: nat, unused: nat)

  ghost predicate Enabled(s: Ledger, a: Step) {
    match a
    case DoCredit(i, _) => i < |s.job.members|
    case DoLeave(i) => i < |s.job.members|
    case DoMark(extra) => Overdrawn(s.job, extra)
    case _ => true
  }

  ghost function Next(s: Ledger, a: Step): Ledger
    requires Enabled(s, a)
  {
    match a
    case DoCredit(i, ns) => s.(job := Credit(s.job, i, ns), consumed := s.consumed + ns)
    case DoClose =>
      s.(job := CloseWindow(s.job), closes := s.closes + 1, unused := s.unused + Unspent(s.job))
    case DoMark(_) => s.(job := s.job.(throttled := true))
    case DoAttach(m) =>
      s.(job := Attach(s.job, m), joined := s.joined + if Attach(s.job, m) == s.job then 0 else m.cpuNs)
    case DoLeave(i) => s.(job := Leave(s.job, i), departed := s.departed + s.job.members[i].cpuNs)
  }

  ghost predicate IsRun(start: Job, ss: seq<Ledger>, steps: seq<Step>) {
    && |ss| == |steps| + 1 && ss[0] == Ledger(start, 0, 0, 0, 0, 0)
    && forall i {:trigger steps[i]} :: 0 <= i < |steps| ==>
         Enabled(ss[i], steps[i]) && ss[i + 1] == Next(ss[i], steps[i])
  }

  /** CPU time is conserved as members come and go; each close adds one budget, less the unspent part, to the base. */
  ghost predicate Balanced(start: Job, s: Ledger) {
    && s.job.limit == start.limit
    && Total(s.job.members) + s.departed == Total(start.members) + s.consumed + s.joined
    && s.job.base + s.unused == start.base + s.closes * start.limit
  }

  lemma StepBalanced(start: Job, s: Ledger, a: Step)
    requires start.limit > 0 && Balanced(start, s) && Enabled(s, a)
    ensures Balanced(start, Next(s, a))
  {
    hide Total, RemoveAt;
    match a
    case DoCredit(i, ns) => TotalCredit(s.job.members, i, ns);
    case DoClose =>
      CloseAnchors(s.job);
      hide CloseWindow;
      assert (s.closes + 1) * start.limit == s.closes * start.limit + start.limit;
    case DoAttach(m) =>
      TotalOne(s.job.members, m);
    case DoLeave(i) => TotalAt(s.job.members, i);
    case DoMark(_) =>
  }

  lemma {:induction false} RunsBalanced(start: Job, ss: seq<Ledger>, steps: seq<Step>, i: nat)
    requires start.limit > 0 && IsRun(start, ss, steps) && i < |ss|
    ensures Balanced(start, ss[i])
  {
    if i > 0 {
      RunsBalanced(start, ss, steps, i - 1);
      StepBalanced(start, ss[i - 1], steps[i - 1]);
    }
  }

  /** Debt outstanding: what was consumed beyond the base. */
  ghost function Debt(j: Job): int {
    Total(j.members) - j.base
  }

  /**
   Over any run the job consumes its budgets, one a close, except what went unspent; plus the change
   of its debt; plus what members that left took away, less what members that joined brought.
   */
  lemma BudgetIdentity(start: Job, ss: seq<Ledger>, steps: seq<Step>, i: nat)
    requires start.limit > 0 && IsRun(start, ss, steps) && i < |ss|
    ensures var s := ss[i];
            s.consumed == s.closes * start.limit - s.unused + Debt(s.job) - Debt(start) + s.departed - s.joined
  {
    RunsBalanced(start, ss, steps, i);
  }

  /**
   The bound "at most one budget a window, plus the outstanding debt" holds exactly when the members
   that left took no more than was brought in, left unspent, or owed at the start.
   */
  lemma BudgetBoundIff(start: Job, ss: seq<Ledger>, steps: seq<Step>, i: nat)
    requires start.limit > 0 && IsRun(start, ss, steps) && i < |ss|
    ensures var s := ss[i];
            s.consumed <= s.closes * start.limit + Debt(s.job) <==> s.departed <= s.joined + s.unused + Debt(start)
  {
    BudgetIdentity(start, ss, steps, i);
  }

  lemma {:induction false} NobodyLeaves(start: Job, ss: seq<Ledger>, steps: seq<Step>, i: nat)
    requires IsRun(start, ss, steps) && i < |ss| && forall k :: 0 <= k < |steps| ==> !steps[k].DoLeave?
    ensures ss[i].departed == 0
  {
    if i > 0 {
      NobodyLeaves(start, ss, steps, i - 1);
      assert ss[i] == Next(ss[i - 1], steps[i - 1]);
    }
  }

  /** With fixed members, from the moment a limit is set, the bound holds. */
  lemma BudgetBound(start: Job, ss: seq<Ledger>, steps: seq<Step>, i: nat)
    requires start.limit > 0 && start.base <= Total(start.members) && IsRun(start, ss, steps) && i < |ss|
    requires forall k :: 0 <= k < |steps| ==> !steps[k].DoLeave?
    ensures ss[i].consumed <= ss[i].closes * start.limit + Debt(ss[i].job)
  {
    NobodyLeaves(start, ss, steps, i);
    BudgetBoundIff(start, ss, steps, i);
  }

  /** How far consumption is below "one budget a close, plus the outstanding debt". */
  ghost function Margin(s: Ledger): int {
    s.closes * s.job.limit + Debt(s.job) - s.consumed
  }

  /** What a step does to the margin. */
  ghost function Gain(s: Ledger, a: Step): int
    requires Enabled(s, a)
  {
    match a
    case DoClose => Unspent(s.job)
    case DoAttach(m) => if Attach(s.job, m) == s.job then 0 else m.cpuNs
    case DoLeave(i) => 0 - s.job.members[i].cpuNs as int
    case _ => 0
  }

  /** Only a member that leaves lowers the margin, by the time it was credited; so a leave is safe iff there is room. */
  lemma StepMargin(s: Ledger, a: Step)
    requires s.job.limit > 0 && Enabled(s, a)
    ensures Next(s, a).job.limit == s.job.limit && Margin(Next(s, a)) == Margin(s) + Gain(s, a)
    ensures a.DoLeave? ==> (Margin(Next(s, a)) >= 0 <==> s.job.members[a.i].cpuNs <= Margin(s))
  {
    var from := Ledger(s.job, 0, 0, 0, 0, 0);
    StepBalanced(s.job, from, a);
    assert Balanced(s.job, Next(from, a));
    assert (s.closes + 1) * s.job.limit == s.closes * s.job.limit + s.job.limit;
  }

  /** Nobody joins, and no window closes with budget left. */
  ghost predicate FullyUsed(ss: seq<Ledger>, steps: seq<Step>)
    requires |ss| == |steps| + 1
  {
    forall k :: 0 <= k < |steps| ==> !steps[k].DoAttach? && (steps[k].DoClose? ==> Unspent(ss[k].job) == 0)
  }

  ghost predicate LeaversIdle(ss: seq<Ledger>, steps: seq<Step>, n: nat)
    requires n <= |steps| && |ss| == |steps| + 1
  {
    forall k :: 0 <= k < n && steps[k].DoLeave? ==>
      steps[k].i < |ss[k].job.members| && ss[k].job.members[steps[k].i].cpuNs == 0
  }

  lemma MarginStarts(start: Job)
    requires start.base == Total(start.members)
    ensures Margin(Ledger(start, 0, 0, 0, 0, 0)) == 0
  {
  }

  lemma LeaversIdleMore(ss: seq<Ledger>, steps: seq<Step>, n: nat)
    requires 0 < n <= |steps| && |ss| == |steps| + 1 && Enabled(ss[n - 1], steps[n - 1])
    requires FullyUsed(ss, steps)
    ensures LeaversIdle(ss, steps, n) <==> LeaversIdle(ss, steps, n - 1) && Gain(ss[n - 1], steps[n - 1]) == 0
    ensures Gain(ss[n - 1], steps[n - 1]) <= 0
  {
    hide Unspent, Attach, Overdrawn;
  }

  lemma {:induction false} MarginFalls(start: Job, ss: seq<Ledger>, steps: seq<Step>, n: nat)
    requires start.limit > 0 && start.base == Total(start.members) && IsRun(start, ss, steps) && n <= |steps|
    requires FullyUsed(ss, steps)
    ensures ss[n].job.limit == start.limit && Margin(ss[n]) <= 0
    ensures Margin(ss[n]) == 0 <==> LeaversIdle(ss, steps, n)
  {
    MarginStarts(start);
    hide Enabled, Next, Margin, Gain, Total, FullyUsed;
    if n > 0 {
      hide LeaversIdle;
      MarginFalls(start, ss, steps, n - 1);
      StepMargin(ss[n - 1], steps[n - 1]);
      LeaversIdleMore(ss, steps, n);
    }
  }

  /**
   With no budget left unspent and nobody joining, from the moment a limit is set: the bound holds all
   along exactly when every member that leaves had no time credited.
   */
  lemma BoundIffLeaversIdle(start: Job, ss: seq<Ledger>, steps: seq<Step>)
    requires start.limit > 0 && start.base == Total(start.members) && IsRun(start, ss, steps) && FullyUsed(ss, steps)
    ensures (forall i :: 0 <= i < |ss| ==> ss[i].consumed <= ss[i].closes * start.limit + Debt(ss[i].job))
            <==> LeaversIdle(ss, steps, |steps|)
  {
    forall i | 0 <= i < |ss|
      ensures ss[i].job.limit == start.limit && Margin(ss[i]) <= 0
      ensures Margin(ss[i]) == 0 <==> LeaversIdle(ss, steps, i)
    {
      MarginFalls(start, ss, steps, i);
    }
    assert Margin(ss[|steps|]) == 0 <==> LeaversIdle(ss, steps, |steps|);
    if LeaversIdle(ss, steps, |steps|) {
      forall i | 0 <= i < |ss|
        ensures Margin(ss[i]) == 0
      {
        assert LeaversIdle(ss, steps, i);
      }
    }
  }

  /** A budget of 10; two members, each of which runs for 9 and leaves before the window closes. */
  ghost function TurnoverJob(members: seq<Member>): Job {
    Job(10, 0, false, members)
  }

  lemma TurnoverSteps()
    ensures var s0 := Ledger(TurnoverJob([Member(1, 0), Member(2, 0)]), 0, 0, 0, 0, 0);
            var s1 := Ledger(TurnoverJob([Member(1, 9), Member(2, 0)]), 9, 0, 0, 0, 0);
            var s2 := Ledger(TurnoverJob([Member(2, 0)]), 9, 9, 0, 0, 0);
            Next(s0, DoCredit(0, 9)) == s1 && Next(s1, DoLeave(0)) == s2
  {
  }

  lemma TurnoverSteps2()
    ensures var s2 := Ledger(TurnoverJob([Member(2, 0)]), 9, 9, 0, 0, 0);
            var s3 := Ledger(TurnoverJob([Member(2, 9)]), 18, 9, 0, 0, 0);
            var s4 := Ledger(TurnoverJob([]), 18, 18, 0, 0, 0);
            && Next(s2, DoCredit(0, 9)) == s3 && Next(s3, DoLeave(0)) == s4
            && Next(s4, DoClose) == Ledger(TurnoverJob([]), 18, 18, 0, 1, 10)
  {
  }

  /** They consume 18 in one window with no debt left at its end: the bound fails. */
  lemma TurnoverBreaksBound() returns (start: Job, ss: seq<Ledger>, steps: seq<Step>)
    ensures start.limit > 0 && start.base == Total(start.members) && IsRun(start, ss, steps)
    ensures var s := ss[|steps|]; s.consumed > s.closes * start.limit + Debt(s.job)
  {
    start := TurnoverJob([Member(1, 0), Member(2, 0)]);
    steps := [DoCredit(0, 9), DoLeave(0), DoCredit(0, 9), DoLeave(0), DoClose];
    ss := [Ledger(start, 0, 0, 0, 0, 0),
           Ledger(TurnoverJob([Member(1, 9), Member(2, 0)]), 9, 0, 0, 0, 0),
           Ledger(TurnoverJob([Member(2, 0)]), 9, 9, 0, 0, 0),
           Ledger(TurnoverJob([Member(2, 9)]), 18, 9, 0, 0, 0),
           Ledger(TurnoverJob([]), 18, 18, 0, 0, 0),
           Ledger(TurnoverJob([]), 18, 18, 0, 1, 10)];
    TurnoverSteps();
    TurnoverSteps2();
    assert Total(start.members) == 0;
    hide Next;
    assert IsRun(start, ss, steps);
  }

  // ---------------------------------------------------------------- release

  /** `k` windows closing on a job whose members do not run. */
  ghost function Closed(j: Job, k: nat): Job {
    if k == 0 then j else CloseWindow(Closed(j, k - 1))
  }

  /** One more close, after closes that added `a` or all there was. */
  lemma CloseStep(j: Job, r: Job, a: nat)
    requires j.limit > 0 && r.limit == j.limit && r.members == j.members
    requires r.base == if Total(j.members) <= j.base + a then Total(j.members) else j.base + a
    ensures var t, c := Total(j.members), CloseWindow(r);
            && c.members == j.members && c.limit == j.limit
            && c.base == if t <= j.base + a + j.limit then t else j.base + a + j.limit
  {
    hide Total;
    CloseAnchors(r);
  }

  lemma {:induction false} ClosedBase(j: Job, k: nat)
    requires j.limit > 0 && j.base <= Total(j.members)
    ensures var r := Closed(j, k);
            && r.members == j.members && r.limit == j.limit
            && r.base == (if Total(j.members) <= j.base + k * j.limit then Total(j.members) else j.base + k * j.limit)
  {
    hide Total, CloseWindow;
    if k > 0 {
      ClosedBase(j, k - 1);
      CloseStep(j, Closed(j, k - 1), (k - 1) * j.limit);
      assert k * j.limit == (k - 1) * j.limit + j.limit;
    }
  }

  /** After `k` closes a job that stopped running is throttled exactly while `k` budgets do not exceed what it spent. */
  lemma ThrottledAfter(j: Job, k: nat)
    requires j.limit > 0 && j.base <= Total(j.members) && k > 0
    ensures Ignored(Closed(j, k)) <==> k * j.limit <= Total(j.members) - j.base
  {
    ClosedBase(j, k - 1);
    ClosedBase(j, k);
    CloseAnchors(Closed(j, k - 1));
    assert k * j.limit == (k - 1) * j.limit + j.limit;
  }

  /**
   Such a job is released by the close number `spent / limit + 1` and not before: one more than
   `spent / limit`, because the first close still finds the whole amount spent.
   */
  lemma ReleasedAfter(j: Job, k: nat)
    requires j.limit > 0 && j.base <= Total(j.members) && k > 0
    ensures var spent := Total(j.members) - j.base; !Ignored(Closed(j, k)) <==> k >= spent / j.limit + 1
  {
    var spent := Total(j.members) - j.base;
    ThrottledAfter(j, k);
    DivMul(spent, j.limit, k);
  }

  lemma DivMul(a: nat, b: nat, k: nat)
    requires b > 0
    ensures k * b <= a <==> k <= a / b
  {
    assert a == a / b * b + a % b;
    if k <= a / b {
      assert k * b <= a / b * b;
    } else {
      assert k * b >= (a / b + 1) * b == a / b * b + b;
    }
  }

  /** Counted from the close that threw the job out, `spent / limit` closes are enough, and fewer are not. */
  lemma ReleasedAfterCharge(j: Job, k: nat)
    requires j.limit > 0 && j.base <= Total(j.members) && k > 0
    requires CloseWindow(j).throttled
    ensures var spent := Total(j.members) - j.base; !Ignored(Closed(CloseWindow(j), k)) <==> k >= spent / j.limit
  {
    var spent := Total(j.members) - j.base;
    CloseAnchors(j);
    ReleasedAfter(CloseWindow(j), k);
    DivMul(spent, j.limit, 1);
    assert (spent - j.limit) / j.limit == spent / j.limit - 1 by {
      DivMinus(spent, j.limit);
    }
  }

  lemma DivMinus(a: nat, b: nat)
    requires b > 0 && a >= b
    ensures (a - b) / b == a / b - 1
  {
    DivMul(a - b, b, a / b - 1);
    DivMul(a - b, b, a / b);
    DivMul(a, b, a / b);
    DivMul(a, b, a / b + 1);
    assert (a / b - 1) * b == a / b * b - b && (a / b + 1) * b == a / b * b + b;
  }

  // ---------------------------------------------------------------- the job object

  /** A weak reference to a process: a dead one stays listed until the next `attach` but counts for nothing. */
  datatype Ref = Ref(member: Member, alive: bool)

  function Alive(refs: seq<Ref>): seq<Member> {
    if refs == [] then []
    else Alive(refs[..|refs| - 1]) + if refs[|refs| - 1].alive then [refs[|refs| - 1].member] else []
  }

  lemma AliveNext(refs: seq<Ref>, i: nat)
    requires i < |refs|
    ensures Alive(refs[..i + 1]) == if refs[i].alive then Alive(refs[..i]) + [refs[i].member] else Alive(refs[..i])
  {
    assert refs[..i + 1][..i] == refs[..i];
  }

  lemma {:induction false} AllAlive(refs: seq<Ref>, members: seq<Member>)
    requires |refs| == |members| && forall k :: 0 <= k < |refs| ==> refs[k] == Ref(members[k], true)
    ensures Alive(refs) == members
  {
    if refs != [] {
      AllAlive(refs[..|refs| - 1], members[..|refs| - 1]);
      assert members == members[..|refs| - 1] + [members[|refs| - 1]];
    }
  }

  /** One reference dies: its member is taken out of the live ones. */
  lemma {:induction false} OneDies(refs: seq<Ref>, i: nat)
    requires i < |refs| && refs[i].alive
    ensures |Alive(refs[..i])| < |Alive(refs)|
    ensures Alive(refs[i := refs[i].(alive := false)]) == RemoveAt(Alive(refs), |Alive(refs[..i])|)
  {
    var n, after := |refs| - 1, refs[i := refs[i].(alive := false)];
    if i < n {
      OneDies(refs[..n], i);
      assert after[..n] == refs[..n][i := refs[i].(alive := false)] && refs[..n][..i] == refs[..i];
    } else {
      assert after[..n] == refs[..n];
    }
  }

  class JobObject {
    var refs: seq<Ref>
    var limit: nat
    var base: nat
    var throttled: bool

    ghost function View(): Job
      reads this
    {
      Job(limit, base, throttled, Alive(refs))
    }

    constructor ()
      ensures View() == Job(0, 0, false, [])
    {
      refs, limit, base, throttled := [], 0, 0, false;
    }

    method CpuTotal() returns (total: nat)
      ensures total == Total(Alive(refs))
    {
      total := 0;
      var i := 0;
      while i < |refs|
        invariant i <= |refs| && total == Total(Alive(refs[..i]))
      {
        AliveNext(refs, i);
        if refs[i].alive {
          TotalOne(Alive(refs[..i]), refs[i].member);
          total := total + refs[i].member.cpuNs;
        }
        i := i + 1;
      }
      assert refs[..i] == refs;
    }

    method IsOverdrawn(extra: nat) returns (b: bool)
      ensures b == Overdrawn(View(), extra)
    {
      if limit == 0 {
        return false;
      }
      var total := CpuTotal();
      b := SatSub(total + extra, base) >= limit;
    }

    method CloseWindowNow()
      modifies this`base, this`throttled
      ensures View() == CloseWindow(old(View()))
    {
      if limit == 0 {
        throttled := false;
        return;
      }
      var total := CpuTotal();
      var spent := SatSub(total, base);
      base := SatSub(total, SatSub(spent, limit));
      throttled := spent >= limit;
    }

    method SetCpuLimit(ns: nat)
      modifies this`limit, this`base, this`throttled
      ensures View() == SetLimit(old(View()), ns)
    {
      limit := ns;
      base := CpuTotal();
      if ns == 0 {
        throttled := false;
      }
    }

    /** A process that dies takes its time out of the job at once. */
    method MemberDies(i: nat)
      requires i < |refs| && refs[i].alive
      modifies this`refs
      ensures refs == old(refs)[i := old(refs[i]).(alive := false)]
      ensures |Alive(refs[..i])| < |old(View()).members|
      ensures View() == Leave(old(View()), |Alive(refs[..i])|)
    {
      OneDies(refs, i);
      assert refs[i := refs[i].(alive := false)][..i] == refs[..i];
      refs := refs[i := refs[i].(alive := false)];
    }

    /** Dead references are dropped first; a process already in the job is not listed twice. */
    method AttachMember(m: Member)
      modifies this`refs
      ensures View() == Attach(old(View()), m)
      ensures forall r :: r in refs ==> r.alive
    {
      Prune();
      ghost var members := Alive(refs);
      var i := 0;
      while i < |refs|
        invariant i <= |refs| && Alive(refs) == members
        invariant forall k :: 0 <= k < i ==> members[k].pid != m.pid
      {
        if refs[i].member.pid == m.pid {
          return;
        }
        i := i + 1;
      }
      AllAlive(refs + [Ref(m, true)], members + [m]);
      refs := refs + [Ref(m, true)];
    }

    method Prune()
      modifies this`refs
      ensures Alive(refs) == old(Alive(refs)) && |refs| == |Alive(refs)|
      ensures forall k :: 0 <= k < |refs| ==> refs[k] == Ref(Alive(refs)[k], true)
    {
      ghost var members := Alive(refs);
      var kept := [];
      var i := 0;
      while i < |refs|
        invariant i <= |refs| && Alive(refs) == members && |kept| == |Alive(refs[..i])|
        invariant forall k :: 0 <= k < |kept| ==> kept[k] == Ref(Alive(refs[..i])[k], true)
      {
        AliveNext(refs, i);
        if refs[i].alive {
          kept := kept + [refs[i]];
        }
        i := i + 1;
      }
      assert refs[..i] == refs;
      AllAlive(kept, members);
      refs := kept;
    }
  }
}
