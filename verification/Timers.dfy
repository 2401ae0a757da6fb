/** The kernel timer queue (kernel/src/timer.rs): pending timers in deadline order, fired on a tick. */
module Timers {
  import opened Seqs

  type TimerId = nat

  /** A period of 0 means once; `arg` stands for the callback and its argument. */
  datatype Timer = Timer(id: TimerId, deadline: nat, period: nat, arg: int)

  // ---------------------------------------------------------------- looking at a list

  predicate Sorted(list: seq<Timer>) {
    forall i, j :: 0 <= i < j < |list| ==> list[i].deadline <= list[j].deadline
  }

  datatype Key = Deadline(d: nat) | Id(i: TimerId)

  predicate Has(t: Timer, k: Key) {
    match k
    case Deadline(d) => t.deadline == d
    case Id(i) => t.id == i
  }

  /** The timers with the given deadline, or the given id, in list order. */
  function Select(list: seq<Timer>, k: Key): seq<Timer> {
    if list == [] then []
    else Select(list[..|list| - 1], k) + if Has(list[|list| - 1], k) then [list[|list| - 1]] else []
  }

  lemma {:induction false} SelectAppend(a: seq<Timer>, b: seq<Timer>, k: Key)
    ensures Select(a + b, k) == Select(a, k) + Select(b, k)
  {
    if b == [] {
      assert a + b == a;
    } else {
      SelectAppend(a, b[..|b| - 1], k);
      assert (a + b)[..|a + b| - 1] == a + b[..|b| - 1];
    }
  }

  lemma {:induction false} SelectNone(list: seq<Timer>, k: Key)
    requires forall i :: 0 <= i < |list| ==> !Has(list[i], k)
    ensures Select(list, k) == []
  {
    if list != [] {
      SelectNone(list[..|list| - 1], k);
    }
  }

  lemma SelectOne(t: Timer, k: Key)
    ensures Select([t], k) == if Has(t, k) then [t] else []
  {
    assert [t][..0] == [];
  }

  // ---------------------------------------------------------------- inserting

  /** The first position whose deadline is later than `d`. */
  function Pos(list: seq<Timer>, d: nat, from: nat): (k: nat)
    requires from <= |list| && forall j :: 0 <= j < from ==> list[j].deadline <= d
    ensures k <= |list| && forall j :: 0 <= j < k ==> list[j].deadline <= d
    ensures k < |list| ==> list[k].deadline > d
    decreases |list| - from
  {
    if from == |list| || list[from].deadline > d then from else Pos(list, d, from + 1)
  }

  function Insert(list: seq<Timer>, p: Timer): seq<Timer> {
    var k := Pos(list, p.deadline, 0);
    list[..k] + [p] + list[k..]
  }

  lemma InsertSorted(list: seq<Timer>, p: Timer)
    requires Sorted(list)
    ensures Sorted(Insert(list, p))
  {
  }

  lemma InsertSelect(list: seq<Timer>, p: Timer, k: Key)
    ensures var n := Pos(list, p.deadline, 0);
            Select(Insert(list, p), k) == Select(list[..n], k) + (if Has(p, k) then [p] else []) + Select(list[n..], k)
  {
    var n := Pos(list, p.deadline, 0);
    SelectAppend(list[..n] + [p], list[n..], k);
    SelectAppend(list[..n], [p], k);
    SelectOne(p, k);
  }

  lemma SplitSelect(list: seq<Timer>, n: nat, k: Key)
    requires n <= |list|
    ensures Select(list, k) == Select(list[..n], k) + Select(list[n..], k)
  {
    SelectAppend(list[..n], list[n..], k);
    assert list[..n] + list[n..] == list;
  }

  /** A new timer goes behind those with the same deadline; the others keep their order. */
  lemma InsertStable(list: seq<Timer>, p: Timer, d: nat)
    requires Sorted(list)
    ensures Select(Insert(list, p), Deadline(d)) == Select(list, Deadline(d)) + if p.deadline == d then [p] else []
  {
    var n := Pos(list, p.deadline, 0);
    InsertSelect(list, p, Deadline(d));
    SplitSelect(list, n, Deadline(d));
    if p.deadline == d {
      SelectNone(list[n..], Deadline(d));
    }
  }

  lemma InsertById(list: seq<Timer>, p: Timer, i: TimerId)
    requires p.id == i ==> Select(list, Id(i)) == []
    ensures Select(Insert(list, p), Id(i)) == Select(list, Id(i)) + if p.id == i then [p] else []
  {
    var n := Pos(list, p.deadline, 0);
    InsertSelect(list, p, Id(i));
    SplitSelect(list, n, Id(i));
  }

  function InsertAll(list: seq<Timer>, ps: seq<Timer>): seq<Timer> {
    if ps == [] then list else Insert(InsertAll(list, ps[..|ps| - 1]), ps[|ps| - 1])
  }

  lemma {:induction false} InsertAllSorted(list: seq<Timer>, ps: seq<Timer>)
    requires Sorted(list)
    ensures Sorted(InsertAll(list, ps))
  {
    if ps != [] {
      InsertAllSorted(list, ps[..|ps| - 1]);
      InsertSorted(InsertAll(list, ps[..|ps| - 1]), ps[|ps| - 1]);
    }
  }

  lemma {:induction false} InsertAllStable(list: seq<Timer>, ps: seq<Timer>, d: nat)
    requires Sorted(list)
    ensures Select(InsertAll(list, ps), Deadline(d)) == Select(list, Deadline(d)) + Select(ps, Deadline(d))
  {
    if ps != [] {
      var rest := ps[..|ps| - 1];
      InsertAllStable(list, rest, d);
      InsertAllSorted(list, rest);
      InsertStable(InsertAll(list, rest), ps[|ps| - 1], d);
    }
  }

  lemma {:induction false} InsertAllById(list: seq<Timer>, ps: seq<Timer>, i: TimerId)
    requires |Select(list, Id(i)) + Select(ps, Id(i))| <= 1
    ensures Select(InsertAll(list, ps), Id(i)) == Select(list, Id(i)) + Select(ps, Id(i))
  {
    if ps != [] {
      var rest := ps[..|ps| - 1];
      InsertAllById(list, rest, i);
      InsertById(InsertAll(list, rest), ps[|ps| - 1], i);
    }
  }

  // ---------------------------------------------------------------- ticking

  /** How many timers at the front of the list are due. */
  function DueCount(list: seq<Timer>, now: nat, from: nat): (n: nat)
    requires from <= |list| && forall j :: 0 <= j < from ==> list[j].deadline <= now
    ensures n <= |list| && forall j :: 0 <= j < n ==> list[j].deadline <= now
    ensures n < |list| ==> list[n].deadline > now
    decreases |list| - from
  {
    if from == |list| || list[from].deadline > now then from else DueCount(list, now, from + 1)
  }

  function Advance(t: Timer): Timer {
    t.(deadline := t.deadline + t.period)
  }

  /** The periodic timers among those fired, one period later. */
  function Requeue(due: seq<Timer>): seq<Timer> {
    if due == [] then []
    else Requeue(due[..|due| - 1]) + if due[|due| - 1].period != 0 then [Advance(due[|due| - 1])] else []
  }

  function Due(list: seq<Timer>, now: nat): seq<Timer> {
    list[..DueCount(list, now, 0)]
  }

  function Ticked(list: seq<Timer>, now: nat): seq<Timer> {
    InsertAll(list[DueCount(list, now, 0)..], Requeue(Due(list, now)))
  }

  /** A tick fires exactly the timers that are due, in deadline order. */
  lemma TickFires(list: seq<Timer>, now: nat)
    requires Sorted(list)
    ensures Sorted(Due(list, now)) && (forall t :: t in Due(list, now) <==> t in list && t.deadline <= now)
    ensures list == Due(list, now) + list[DueCount(list, now, 0)..]
  {
    var n := DueCount(list, now, 0);
    assert list[..n] + list[n..] == list;
    hide DueCount;
    forall t | t in list && t.deadline <= now
      ensures t in list[..n]
    {
      var i :| 0 <= i < |list| && list[i] == t;
      DueBefore(list, now, i);
    }
  }

  lemma DueBefore(list: seq<Timer>, now: nat, i: nat)
    requires Sorted(list) && i < |list|
    ensures list[i].deadline <= now <==> i < DueCount(list, now, 0)
  {
    var n := DueCount(list, now, 0);
    hide DueCount;
    assert n < i ==> list[n].deadline <= list[i].deadline;
  }

  lemma RestSelect(list: seq<Timer>, n: nat, now: nat, d: nat)
    requires n <= |list| && (forall j :: 0 <= j < n ==> list[j].deadline <= now)
    requires forall j :: n <= j < |list| ==> list[j].deadline > now
    ensures Select(list[n..], Deadline(d)) == if d <= now then [] else Select(list, Deadline(d))
  {
    hide Select;
    if d <= now {
      SelectNone(list[n..], Deadline(d));
    } else {
      SelectNone(list[..n], Deadline(d));
      SplitSelect(list, n, Deadline(d));
    }
  }

  /** The list stays in order, and at each deadline those that waited come before those put back, in firing order. */
  lemma TickKeepsOrder(list: seq<Timer>, now: nat, d: nat)
    requires Sorted(list)
    ensures Sorted(Ticked(list, now))
    ensures Select(Ticked(list, now), Deadline(d)) ==
            (if d <= now then [] else Select(list, Deadline(d))) + Select(Requeue(Due(list, now)), Deadline(d))
  {
    hide DueCount, Select, InsertAll, Requeue;
    var n := DueCount(list, now, 0);
    InsertAllSorted(list[n..], Requeue(Due(list, now)));
    InsertAllStable(list[n..], Requeue(Due(list, now)), d);
    RestSelect(list, n, now, d);
  }

  // ---------------------------------------------------------------- runs: no drift

  /** `log` records, for the statements only, every timer fired, with its deadline. */
  datatype State = State(pending: seq<Timer>, log: seq<Timer>, nextId: TimerId)

  datatype Step = Schedule(deadline: nat, period: nat, arg: int) | Tick(now: nat) | Cancel(id: TimerId)

  function Without(list: seq<Timer>, id: TimerId): seq<Timer> {
    if list == [] then []
    else Without(list[..|list| - 1], id) + if list[|list| - 1].id != id then [list[|list| - 1]] else []
  }

  function Next(s: State, a: Step): State {
    match a
    case Schedule(deadline, period, arg) =>
      s.(pending := Insert(s.pending, Timer(s.nextId, deadline, period, arg)), nextId := s.nextId + 1)
    case Tick(now) => s.(pending := Ticked(s.pending, now), log := s.log + Due(s.pending, now))
    case Cancel(id) => s.(pending := Without(s.pending, id))
  }

  ghost predicate IsRun(ss: seq<State>, steps: seq<Step>) {
    && |ss| == |steps| + 1
    && forall i {:trigger steps[i]} :: 0 <= i < |steps| ==> ss[i + 1] == Next(ss[i], steps[i])
  }

  /** Timer `id`, first due at `first`, with this period: its firings so far and the next are exactly on its grid. */
  ghost predicate OnGrid(s: State, id: TimerId, first: nat, period: nat) {
    var fired, waiting := Select(s.log, Id(id)), Select(s.pending, Id(id));
    && id < s.nextId && |waiting| <= 1
    && (forall j :: 0 <= j < |fired| ==> fired[j].deadline == first + j * period)
    && (forall j :: 0 <= j < |waiting| ==>
          waiting[j].deadline == first + |fired| * period && waiting[j].period == period)
  }

  lemma {:induction false} RequeueSelect(due: seq<Timer>, id: TimerId)
    ensures Select(Requeue(due), Id(id)) == Requeue(Select(due, Id(id)))
  {
    if due != [] {
      var rest, t := due[..|due| - 1], due[|due| - 1];
      RequeueSelect(rest, id);
      SelectAppend(Requeue(rest), if t.period != 0 then [Advance(t)] else [], Id(id));
      SelectOne(Advance(t), Id(id));
      RequeueAppend(Select(rest, Id(id)), if t.id == id then [t] else []);
      RequeueOne(t);
    }
  }

  lemma RequeueOne(t: Timer)
    ensures Requeue([t]) == if t.period != 0 then [Advance(t)] else []
  {
    assert [t][..0] == [];
  }

  lemma RequeueNext(list: seq<Timer>, n: nat)
    requires n < |list|
    ensures list[..n + 1] == list[..n] + [list[n]]
    ensures Requeue(list[..n + 1]) == Requeue(list[..n]) + if list[n].period != 0 then [Advance(list[n])] else []
  {
    assert list[..n + 1][..n] == list[..n];
  }

  lemma {:induction false} RequeueAppend(a: seq<Timer>, b: seq<Timer>)
    ensures Requeue(a + b) == Requeue(a) + Requeue(b)
  {
    if b == [] {
      assert a + b == a;
    } else {
      RequeueAppend(a, b[..|b| - 1]);
      assert (a + b)[..|a + b| - 1] == a + b[..|b| - 1];
    }
  }

  lemma {:induction false} WithoutSorted(list: seq<Timer>, id: TimerId)
    requires Sorted(list)
    ensures Sorted(Without(list, id)) && forall t :: t in Without(list, id) ==> t in list
  {
    if list != [] {
      var kept, t := Without(list[..|list| - 1], id), list[|list| - 1];
      WithoutSorted(list[..|list| - 1], id);
      forall j | 0 <= j < |kept|
        ensures kept[j].deadline <= t.deadline
      {
        assert kept[j] in list[..|list| - 1];
      }
    }
  }

  lemma {:induction false} WithoutSelect(list: seq<Timer>, gone: TimerId, id: TimerId)
    ensures Select(Without(list, gone), Id(id)) == if gone == id then [] else Select(list, Id(id))
  {
    if list != [] {
      var t := list[|list| - 1];
      WithoutSelect(list[..|list| - 1], gone, id);
      SelectAppend(Without(list[..|list| - 1], gone), if t.id != gone then [t] else [], Id(id));
      SelectOne(t, Id(id));
    }
  }

  /** What a tick does to one timer that waits at most once. */
  lemma TickSelect(list: seq<Timer>, now: nat, id: TimerId)
    requires |Select(list, Id(id))| <= 1
    ensures var due := Select(Due(list, now), Id(id));
            && (due == [] ==> Select(Ticked(list, now), Id(id)) == Select(list, Id(id)))
            && (due != [] ==> due == Select(list, Id(id)) && Select(Ticked(list, now), Id(id)) == Requeue(due))
  {
    hide DueCount, Select, InsertAll;
    var n := DueCount(list, now, 0);
    var due := Select(Due(list, now), Id(id));
    SplitSelect(list, n, Id(id));
    RequeueSelect(Due(list, now), id);
    RequeueShorter(due);
    InsertAllById(list[n..], Requeue(Due(list, now)), id);
  }

  lemma {:induction false} RequeueShorter(due: seq<Timer>)
    ensures |Requeue(due)| <= |due|
  {
    if due != [] {
      RequeueShorter(due[..|due| - 1]);
    }
  }

  lemma TickOnGrid(s: State, now: nat, id: TimerId, first: nat, period: nat)
    requires OnGrid(s, id, first, period)
    ensures OnGrid(Next(s, Tick(now)), id, first, period)
  {
    hide Select, Due, Ticked, Requeue;
    var due := Select(Due(s.pending, now), Id(id));
    TickSelect(s.pending, now, id);
    SelectAppend(s.log, Due(s.pending, now), Id(id));
    if due != [] {
      RequeueOne(due[0]);
      assert due == [due[0]];
      assert (|Select(s.log, Id(id))| + 1) * period == |Select(s.log, Id(id))| * period + period;
    }
  }

  lemma StepOnGrid(s: State, a: Step, id: TimerId, first: nat, period: nat)
    requires OnGrid(s, id, first, period)
    ensures OnGrid(Next(s, a), id, first, period)
  {
    match a
    case Schedule(deadline, p, arg) => InsertById(s.pending, Timer(s.nextId, deadline, p, arg), id);
    case Tick(now) => TickOnGrid(s, now, id, first, period);
    case Cancel(gone) => WithoutSelect(s.pending, gone, id);
  }

  /** In every run, whatever else is scheduled or cancelled and however late ticks come, a timer never drifts. */
  lemma {:induction false} NoDrift(ss: seq<State>, steps: seq<Step>, i: nat, id: TimerId, first: nat, period: nat)
    requires IsRun(ss, steps) && i < |ss| && OnGrid(ss[0], id, first, period)
    ensures OnGrid(ss[i], id, first, period)
  {
    if i > 0 {
      NoDrift(ss, steps, i - 1, id, first, period);
      StepOnGrid(ss[i - 1], steps[i - 1], id, first, period);
    }
  }

  /** A timer that is scheduled starts on its grid. */
  lemma ScheduleOnGrid(s: State, deadline: nat, period: nat, arg: int)
    requires Select(s.pending, Id(s.nextId)) == [] && Select(s.log, Id(s.nextId)) == []
    ensures OnGrid(Next(s, Schedule(deadline, period, arg)), s.nextId, deadline, period)
  {
    InsertById(s.pending, Timer(s.nextId, deadline, period, arg), s.nextId);
  }

  // ---------------------------------------------------------------- runs: every timer that is ever scheduled

  ghost predicate IdsBelow(list: seq<Timer>, n: TimerId) {
    forall t :: t in list ==> t.id < n
  }

  ghost predicate FreshIds(s: State) {
    IdsBelow(s.pending, s.nextId) && IdsBelow(s.log, s.nextId)
  }

  function Start(): State {
    State([], [], 1)
  }

  lemma {:induction false} InsertAllIds(list: seq<Timer>, ps: seq<Timer>, n: TimerId)
    requires IdsBelow(list, n) && IdsBelow(ps, n)
    ensures IdsBelow(InsertAll(list, ps), n)
  {
    if ps != [] {
      InsertAllIds(list, ps[..|ps| - 1], n);
    }
  }

  lemma {:induction false} RequeueIds(due: seq<Timer>, n: TimerId)
    requires IdsBelow(due, n)
    ensures IdsBelow(Requeue(due), n)
  {
    if due != [] {
      RequeueIds(due[..|due| - 1], n);
    }
  }

  lemma {:induction false} WithoutIds(list: seq<Timer>, id: TimerId, n: TimerId)
    requires IdsBelow(list, n)
    ensures IdsBelow(Without(list, id), n)
  {
    if list != [] {
      WithoutIds(list[..|list| - 1], id, n);
    }
  }

  lemma NoneBelow(list: seq<Timer>, n: TimerId)
    requires IdsBelow(list, n)
    ensures Select(list, Id(n)) == []
  {
    SelectNone(list, Id(n));
  }

  lemma StepFreshIds(s: State, a: Step)
    requires FreshIds(s)
    ensures FreshIds(Next(s, a))
  {
    match a
    case Schedule(_, _, _) =>
    case Tick(now) =>
      RequeueIds(Due(s.pending, now), s.nextId);
      InsertAllIds(s.pending[DueCount(s.pending, now, 0)..], Requeue(Due(s.pending, now)), s.nextId);
    case Cancel(id) => WithoutIds(s.pending, id, s.nextId);
  }

  lemma {:induction false} RunFreshIds(ss: seq<State>, steps: seq<Step>, i: nat)
    requires IsRun(ss, steps) && i < |ss| && ss[0] == Start()
    ensures FreshIds(ss[i])
  {
    if i > 0 {
      RunFreshIds(ss, steps, i - 1);
      StepFreshIds(ss[i - 1], steps[i - 1]);
    }
  }

  /** In every run from the empty queue, every timer ever scheduled is on its own grid from then on. */
  lemma EveryTimerOnGrid(ss: seq<State>, steps: seq<Step>, i: nat, j: nat)
    requires IsRun(ss, steps) && ss[0] == Start() && i < j < |ss| && steps[i].Schedule?
    ensures OnGrid(ss[j], ss[i].nextId, steps[i].deadline, steps[i].period)
  {
    RunFreshIds(ss, steps, i);
    NoneBelow(ss[i].pending, ss[i].nextId);
    NoneBelow(ss[i].log, ss[i].nextId);
    ScheduleOnGrid(ss[i], steps[i].deadline, steps[i].period, steps[i].arg);
    NoDrift(ss[i + 1..], steps[i + 1..], j - i - 1, ss[i].nextId, steps[i].deadline, steps[i].period);
  }

  // ---------------------------------------------------------------- firing from the front

  /** The first `n` timers of `list` are due and have been taken: appended to `fired`, the periodic ones advanced. */
  ghost predicate Taken(list: seq<Timer>, now: nat, n: nat, rest: seq<Timer>, before: seq<Timer>, fired: seq<Timer>,
                        requeue: seq<Timer>) {
    && n <= |list| && rest == list[n..] && (forall j :: 0 <= j < n ==> list[j].deadline <= now)
    && DueCount(list, now, 0) == DueCount(list, now, n)
    && fired == before + list[..n] && requeue == Requeue(list[..n])
  }

  lemma TakenNone(list: seq<Timer>, now: nat, fired: seq<Timer>)
    ensures Taken(list, now, 0, list, fired, fired, [])
  {
    assert list[..0] == [];
  }

  lemma TakenNext(list: seq<Timer>, now: nat, n: nat, rest: seq<Timer>, before: seq<Timer>, fired: seq<Timer>,
                  requeue: seq<Timer>)
    requires Taken(list, now, n, rest, before, fired, requeue) && rest != [] && rest[0].deadline <= now
    ensures var more := if rest[0].period != 0 then requeue + [Advance(rest[0])] else requeue;
            Taken(list, now, n + 1, rest[1..], before, fired + [rest[0]], more)
  {
    hide Requeue;
    RequeueNext(list, n);
  }

  lemma TakenAll(list: seq<Timer>, now: nat, n: nat, rest: seq<Timer>, before: seq<Timer>, fired: seq<Timer>,
                 requeue: seq<Timer>)
    requires Taken(list, now, n, rest, before, fired, requeue) && (rest == [] || rest[0].deadline > now)
    ensures n == DueCount(list, now, 0) && rest == list[n..]
    ensures fired == before + Due(list, now) && requeue == Requeue(Due(list, now))
  {
    hide Requeue;
  }

  // ---------------------------------------------------------------- the queue object

  class TimerQueue {
    var pending: seq<Timer>
    var fired: seq<Timer>
    var nextId: TimerId

    ghost predicate Valid()
      reads this
    {
      Sorted(pending)
    }

    constructor ()
      ensures Valid() && pending == [] && fired == [] && nextId == 1
    {
      pending, fired, nextId := [], [], 1;
    }

    method InsertTimer(p: Timer)
      modifies this`pending
      ensures pending == Insert(old(pending), p)
      ensures old(Valid()) ==> Valid()
    {
      if Sorted(pending) {
        InsertSorted(pending, p);
      }
      var k := 0;
      while k < |pending| && pending[k].deadline <= p.deadline
        invariant k <= |pending| && forall j :: 0 <= j < k ==> pending[j].deadline <= p.deadline
        invariant Pos(pending, p.deadline, 0) == Pos(pending, p.deadline, k)
      {
        k := k + 1;
      }
      pending := pending[..k] + [p] + pending[k..];
    }

    /** A period of 0 counts as 1. */
    method PeriodicNs(period: nat, arg: int, now: nat) returns (id: TimerId)
      requires Valid()
      modifies this`pending, this`nextId
      ensures Valid() && id == old(nextId) && nextId == old(nextId) + 1
      ensures var p := if period == 0 then 1 else period; pending == Insert(old(pending), Timer(id, now + p, p, arg))
    {
      id := nextId;
      nextId := nextId + 1;
      var p := if period == 0 then 1 else period;
      InsertTimer(Timer(id, now + p, p, arg));
    }

    method CancelTimer(id: TimerId) returns (found: bool)
      requires Valid()
      modifies this`pending
      ensures Valid() && pending == Without(old(pending), id)
      ensures found <==> Select(old(pending), Id(id)) != []
    {
      var kept := [];
      var i := 0;
      while i < |pending|
        invariant i <= |pending| && kept == Without(pending[..i], id)
        invariant |kept| + |Select(pending[..i], Id(id))| == i
      {
        assert pending[..i + 1][..i] == pending[..i];
        if pending[i].id != id {
          kept := kept + [pending[i]];
        }
        i := i + 1;
      }
      assert pending[..i] == pending;
      WithoutSorted(pending, id);
      found := |kept| != |pending|;
      pending := kept;
    }

    /** The nearest deadline still in the future. */
    method NextDeadlineAfter(now: nat) returns (r: Option<nat>)
      requires Valid()
      ensures r.None? <==> forall t :: t in pending ==> t.deadline <= now
      ensures r.Some? ==> r.value > now && (exists t :: t in pending && t.deadline == r.value)
      ensures r.Some? ==> forall t :: t in pending && t.deadline > now ==> r.value <= t.deadline
    {
      var i := 0;
      while i < |pending|
        invariant i <= |pending| && forall j :: 0 <= j < i ==> pending[j].deadline <= now
      {
        if pending[i].deadline > now {
          assert pending[i] in pending;
          return Some(pending[i].deadline);
        }
        i := i + 1;
      }
      return None;
    }

    method OnTick(now: nat)
      requires Valid()
      modifies this`pending, this`fired
      ensures Valid()
      ensures pending == Ticked(old(pending), now) && fired == old(fired) + Due(old(pending), now)
    {
      ghost var list := pending;
      var requeue := FireDue(now);
      assert Sorted(list) ==> Sorted(pending);
      InsertAllSorted(pending, requeue);
      PutBack(requeue);
    }

    /** Takes the due timers off the front; returns the periodic ones, advanced. */
    method FireDue(now: nat) returns (requeue: seq<Timer>)
      modifies this`pending, this`fired
      ensures pending == old(pending)[DueCount(old(pending), now, 0)..]
      ensures fired == old(fired) + Due(old(pending), now) && requeue == Requeue(Due(old(pending), now))
    {
      ghost var list := pending;
      ghost var n := 0;
      requeue := [];
      TakenNone(list, now, fired);
      hide Taken;
      while pending != [] && pending[0].deadline <= now
        invariant Taken(list, now, n, pending, old(fired), fired, requeue)
        decreases |pending|
      {
        var p := pending[0];
        TakenNext(list, now, n, pending, old(fired), fired, requeue);
        pending := pending[1..];
        fired := fired + [p];
        if p.period != 0 {
          requeue := requeue + [p.(deadline := p.deadline + p.period)];
        }
        n := n + 1;
      }
      TakenAll(list, now, n, pending, old(fired), fired, requeue);
    }

    method PutBack(requeue: seq<Timer>)
      modifies this`pending
      ensures pending == InsertAll(old(pending), requeue)
    {
      var i := 0;
      while i < |requeue|
        invariant i <= |requeue| && pending == InsertAll(old(pending), requeue[..i])
      {
        assert requeue[..i + 1][..i] == requeue[..i];
        InsertTimer(requeue[i]);
        i := i + 1;
      }
      assert requeue[..i] == requeue;
    }
  }
}
