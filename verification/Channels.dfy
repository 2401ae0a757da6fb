/**
 IPC channels (kernel/src/ipc.rs).  Each operation is one region under the channel's lock, except closing,
 which marks the end, empties its queue under the lock and then adjusts the global count: three separate steps.
 */
module Channels {

  /** One side of a channel. */
  datatype End = End(channel: nat, second: bool)

  const CHANNEL_QUEUE_MAX: nat := 64

  /** What a handle in a message refers to. */
  datatype Object = Channel(end: End) | Other(id: nat)

  datatype Message = Message(data: seq<nat>, handles: seq<Object>)

  datatype Status = PeerClosed | QueueFull | WouldBlock

  datatype Outcome<T> = Ok(value: T) | Err(status: Status)

  function Peer(e: End): End {
    e.(second := !e.second)
  }

  /**
   `closedByMe` and `closed` are the two flags of an end; `closing` are the ends marked but not yet
   counted out of `liveEnds`.  `accepted` and `received` record, for the statements only, the messages
   accepted for each end and those it received.
   */
  datatype State = State(
    ends: set<End>,
    queues: map<End, seq<Message>>,
    closed: set<End>,
    closedByMe: set<End>,
    closing: set<End>,
    liveEnds: int,
    accepted: map<End, seq<Message>>,
    received: map<End, seq<Message>>)

  const EMPTY := State({}, map[], {}, {}, {}, 0, map[], map[])

  // ---------------------------------------------------------------- operations

  function Created(s: State, e: End): State {
    s.(ends := s.ends + {e, Peer(e)}, queues := s.queues[e := []][Peer(e) := []], liveEnds := s.liveEnds + 2,
       accepted := s.accepted[e := []][Peer(e) := []], received := s.received[e := []][Peer(e) := []])
  }

  ghost predicate Shaped(s: State) {
    && s.queues.Keys == s.accepted.Keys == s.received.Keys == s.ends
    && (forall e :: e in s.ends ==> Peer(e) in s.ends)
    && s.closed <= s.closedByMe <= s.ends && s.closing <= s.closedByMe
  }

  /** `send` on end `e` queues the message for the other end. */
  function SendStatus(s: State, e: End): Outcome<()>
    requires Peer(e) in s.queues
  {
    if Peer(e) in s.closed then Err(PeerClosed)
    else if |s.queues[Peer(e)]| >= CHANNEL_QUEUE_MAX then Err(QueueFull)
    else Ok(())
  }

  function Sent(s: State, e: End, m: Message): State
    requires Peer(e) in s.queues && Peer(e) in s.accepted
  {
    var p := Peer(e);
    if SendStatus(s, e).Ok? then
      s.(queues := s.queues[p := s.queues[p] + [m]], accepted := s.accepted[p := s.accepted[p] + [m]])
    else s
  }

  /** `try_recv` on end `e`. */
  function ReceiveStatus(s: State, e: End): Outcome<Message>
    requires e in s.queues
  {
    if s.queues[e] != [] then Ok(s.queues[e][0])
    else if Peer(e) in s.closed then Err(PeerClosed)
    else Err(WouldBlock)
  }

  function Received(s: State, e: End): State
    requires e in s.queues && e in s.received
  {
    if s.queues[e] == [] then s
    else s.(queues := s.queues[e := s.queues[e][1..]], received := s.received[e := s.received[e] + [s.queues[e][0]]])
  }

  /** `closed_by_me.swap(true)`, when it was false. */
  function Marked(s: State, e: End): State {
    s.(closedByMe := s.closedByMe + {e}, closing := s.closing + {e})
  }

  /** The locked part of `close`. */
  function Emptied(s: State, e: End): State {
    s.(closed := s.closed + {e}, queues := s.queues[e := []])
  }

  /** The end leaves the count of live ends. */
  function CountedOut(s: State, e: End): State {
    s.(closing := s.closing - {e}, liveEnds := s.liveEnds - 1)
  }

  // ---------------------------------------------------------------- runs

  datatype Step =
    | Create(e: End)
    | Send(e: End, m: Message)
    | Receive(e: End)
    | Mark(e: End)
    | Empty(e: End)
    | CountOut(e: End)

  ghost predicate Enabled(s: State, a: Step) {
    match a
    case Create(e) => e !in s.ends && Peer(e) !in s.ends
    case Send(e, _) => e in s.ends
    case Receive(e) => e in s.ends
    case Mark(e) => e in s.ends && e !in s.closedByMe
    case Empty(e) => e in s.closing
    case CountOut(e) => e in s.closing && e in s.closed
  }

  ghost function Next(s: State, a: Step): State
    requires Shaped(s) && Enabled(s, a)
  {
    match a
    case Create(e) => Created(s, e)
    case Send(e, m) => Sent(s, e, m)
    case Receive(e) => Received(s, e)
    case Mark(e) => Marked(s, e)
    case Empty(e) => Emptied(s, e)
    case CountOut(e) => CountedOut(s, e)
  }

  /** Conservation for one end: while it is open, what it accepted is what it received and then what is queued. */
  ghost predicate Conserved(s: State, e: End)
    requires Shaped(s) && e in s.ends
  {
    && |s.queues[e]| <= CHANNEL_QUEUE_MAX
    && s.received[e] + s.queues[e] <= s.accepted[e]
    && (if e in s.closed then s.queues[e] == [] else s.accepted[e] == s.received[e] + s.queues[e])
  }

  ghost predicate Inv(s: State) {
    && Shaped(s)
    && (forall e :: e in s.ends ==> Conserved(s, e))
    && s.liveEnds == |s.ends - s.closedByMe| + |s.closing|
  }

  ghost predicate StepsTo(s: State, a: Step, r: State) {
    Shaped(s) && Enabled(s, a) && r == Next(s, a)
  }

  ghost predicate IsRun(ss: seq<State>, steps: seq<Step>) {
    && |ss| == |steps| + 1
    && forall i {:trigger steps[i]} :: 0 <= i < |steps| ==> StepsTo(ss[i], steps[i], ss[i + 1])
  }

  lemma CreatedConserves(s: State, e: End)
    requires Shaped(s) && (forall d :: d in s.ends ==> Conserved(s, d)) && e !in s.ends && Peer(e) !in s.ends
    ensures var r := Created(s, e); Shaped(r) && forall d :: d in r.ends ==> Conserved(r, d)
  {
    var r := Created(s, e);
    forall d | d in r.ends
      ensures Peer(d) in r.ends && Conserved(r, d)
    {
      assert d in s.ends ==> Conserved(s, d);
    }
  }

  lemma SentConserves(s: State, e: End, m: Message)
    requires Shaped(s) && (forall d :: d in s.ends ==> Conserved(s, d)) && e in s.ends
    ensures var r := Sent(s, e, m); Shaped(r) && forall d :: d in r.ends ==> Conserved(r, d)
  {
    var r := Sent(s, e, m);
    forall d | d in r.ends
      ensures Conserved(r, d)
    {
      assert Conserved(s, d);
    }
  }

  lemma ReceivedConserves(s: State, e: End)
    requires Shaped(s) && (forall d :: d in s.ends ==> Conserved(s, d)) && e in s.ends
    ensures var r := Received(s, e); Shaped(r) && forall d :: d in r.ends ==> Conserved(r, d)
  {
    var r := Received(s, e);
    forall d | d in r.ends
      ensures Conserved(r, d)
    {
      assert Conserved(s, d);
      assert s.queues[e] != [] ==> r.received[e] + r.queues[e] == s.received[e] + s.queues[e];
    }
  }

  lemma EmptiedConserves(s: State, e: End)
    requires Shaped(s) && (forall d :: d in s.ends ==> Conserved(s, d)) && e in s.closing
    ensures var r := Emptied(s, e); Shaped(r) && forall d :: d in r.ends ==> Conserved(r, d)
  {
    var r := Emptied(s, e);
    forall d | d in r.ends
      ensures Conserved(r, d)
    {
      assert Conserved(s, d);
    }
  }

  /** Marking an end and counting it out touch no queue. */
  lemma SameQueuesConserve(s: State, r: State)
    requires Shaped(s) && (forall d :: d in s.ends ==> Conserved(s, d))
    requires r == s.(closedByMe := r.closedByMe, closing := r.closing, liveEnds := r.liveEnds) && Shaped(r)
    ensures forall d :: d in r.ends ==> Conserved(r, d)
  {
    forall d | d in r.ends
      ensures Conserved(r, d)
    {
      assert Conserved(s, d);
    }
  }

  lemma NextConserves(s: State, a: Step)
    requires Inv(s) && Enabled(s, a)
    ensures var r := Next(s, a); Shaped(r) && forall e :: e in r.ends ==> Conserved(r, e)
  {
    match a
    case Create(e) => CreatedConserves(s, e);
    case Send(e, m) => SentConserves(s, e, m);
    case Receive(e) => ReceivedConserves(s, e);
    case Mark(e) => SameQueuesConserve(s, Marked(s, e));
    case Empty(e) => EmptiedConserves(s, e);
    case CountOut(e) => SameQueuesConserve(s, CountedOut(s, e));
  }

  lemma CreatedCounts(s: State, e: End)
    requires Inv(s) && e !in s.ends && Peer(e) !in s.ends
    ensures var r := Created(s, e); |r.ends - r.closedByMe| == |s.ends - s.closedByMe| + 2
  {
    var r := Created(s, e);
    assert r.ends - r.closedByMe == (s.ends - s.closedByMe) + {e} + {Peer(e)};
  }

  lemma NextCounts(s: State, a: Step)
    requires Inv(s) && Enabled(s, a)
    ensures var r := Next(s, a); r.liveEnds == |r.ends - r.closedByMe| + |r.closing|
  {
    var r := Next(s, a);
    match a
    case Create(e) => CreatedCounts(s, e);
    case Mark(e) =>
      assert r.ends - r.closedByMe == (s.ends - s.closedByMe) - {e};
    case CountOut(e) =>
      assert r.closing == s.closing - {e};
    case _ =>
  }

  lemma StepConserves(s: State, a: Step, r: State)
    requires Inv(s) && StepsTo(s, a, r)
    ensures Inv(r)
  {
    NextConserves(s, a);
    NextCounts(s, a);
  }

  lemma EmptyConserves()
    ensures Inv(EMPTY)
  {
    assert EMPTY.ends - EMPTY.closedByMe == {};
  }

  lemma RunStepConserves(ss: seq<State>, steps: seq<Step>, i: nat)
    requires IsRun(ss, steps) && i < |steps| && Inv(ss[i])
    ensures Inv(ss[i + 1])
  {
    StepConserves(ss[i], steps[i], ss[i + 1]);
  }

  /** In every state of every run. */
  lemma {:induction false} RunsConserve(ss: seq<State>, steps: seq<Step>, i: nat)
    requires IsRun(ss, steps) && Inv(ss[0]) && i < |ss|
    ensures Inv(ss[i])
  {
    if i > 0 {
      RunsConserve(ss, steps, i - 1);
      RunStepConserves(ss, steps, i - 1);
    }
  }

  lemma RunsFromEmpty(ss: seq<State>, steps: seq<Step>, i: nat)
    requires IsRun(ss, steps) && ss[0] == EMPTY && i < |ss|
    ensures Inv(ss[i])
  {
    EmptyConserves();
    RunsConserve(ss, steps, i);
  }

  /** Between calls to `close`, the count is exactly the number of ends that were not closed. */
  lemma LiveEndsExact(ss: seq<State>, steps: seq<Step>, i: nat)
    requires IsRun(ss, steps) && ss[0] == EMPTY && i < |ss| && ss[i].closing == {}
    ensures ss[i].liveEnds == |ss[i].ends - ss[i].closedByMe|
  {
    RunsFromEmpty(ss, steps, i);
  }

  /**
   An open end is told that its peer closed only after it received, in order, every message that was
   ever accepted for it; and what it receives is the next message in that order.
   */
  ghost predicate Delivered(s: State, e: End)
    requires Shaped(s) && e in s.ends
  {
    var r := ReceiveStatus(s, e);
    && (r == Err(PeerClosed) ==> Peer(e) in s.closed)
    && (r.Err? ==> s.received[e] == s.accepted[e])
    && (r.Ok? ==> s.received[e] + [r.value] <= s.accepted[e])
  }

  lemma InvDelivers(s: State, e: End)
    requires Inv(s) && e in s.ends && e !in s.closed
    ensures Delivered(s, e)
  {
    assert Conserved(s, e);
    if s.queues[e] != [] {
      assert s.queues[e] == [s.queues[e][0]] + s.queues[e][1..];
    }
  }

  lemma DeliveredBeforePeerClosed(ss: seq<State>, steps: seq<Step>, i: nat, e: End)
    requires IsRun(ss, steps) && ss[0] == EMPTY && i < |ss| && e in ss[i].ends && e !in ss[i].closed
    ensures Shaped(ss[i]) && Delivered(ss[i], e)
  {
    RunsFromEmpty(ss, steps, i);
    InvDelivers(ss[i], e);
  }
}
