/**
 The collector of unreachable channel ends (kernel/src/ipc.rs): a worklist marks every end that can be
 reached from the ends pinned by the kernel and from the handle tables of live processes, through the
 handles carried by queued messages; the ends left unmarked are closed.
 */
module Collector {
  import opened Seqs
  import opened Channels

  type Queues = map<End, seq<Message>>

  // ---------------------------------------------------------------- reachability

  /** A message queued for `d` carries a handle to `e`. */
  predicate Carries(queues: Queues, d: End, e: End) {
    d in queues && exists m :: m in queues[d] && Channel(e) in m.handles
  }

  /** A chain of ends from a root, each carried by a message queued for the one before. */
  ghost predicate IsPath(roots: set<End>, queues: Queues, path: seq<End>) {
    && path != [] && path[0] in roots
    && forall i :: 0 <= i < |path| - 1 ==> Carries(queues, path[i], path[i + 1])
  }

  ghost predicate Reachable(roots: set<End>, queues: Queues, e: End) {
    exists path :: IsPath(roots, queues, path) && path[|path| - 1] == e
  }

  lemma RootReachable(roots: set<End>, queues: Queues, e: End)
    requires e in roots
    ensures Reachable(roots, queues, e)
  {
    assert IsPath(roots, queues, [e]);
  }

  lemma StepReachable(roots: set<End>, queues: Queues, d: End, e: End)
    requires Reachable(roots, queues, d) && Carries(queues, d, e)
    ensures Reachable(roots, queues, e)
  {
    var path :| IsPath(roots, queues, path) && path[|path| - 1] == d;
    var longer := path + [e];
    forall i | 0 <= i < |longer| - 1
      ensures Carries(queues, longer[i], longer[i + 1])
    {
      assert i < |path| - 1 ==> Carries(queues, path[i], path[i + 1]);
    }
    assert IsPath(roots, queues, longer);
  }

  /** A set that holds the roots and is closed under carrying holds everything reachable. */
  lemma {:induction false} PathInClosedSet(roots: set<End>, queues: Queues, marked: seq<End>, path: seq<End>)
    requires IsPath(roots, queues, path)
    requires forall e :: e in roots ==> e in marked
    requires forall d, e :: d in marked && Carries(queues, d, e) ==> e in marked
    ensures path[|path| - 1] in marked
    decreases |path|
  {
    if |path| > 1 {
      var shorter := path[..|path| - 1];
      forall i | 0 <= i < |shorter| - 1
        ensures Carries(queues, shorter[i], shorter[i + 1])
      {
        assert Carries(queues, path[i], path[i + 1]);
      }
      PathInClosedSet(roots, queues, marked, shorter);
      assert Carries(queues, path[|path| - 2], path[|path| - 1]);
    }
  }

  // ---------------------------------------------------------------- marking

  /** Marked ends are distinct, those still to be scanned among them. */
  ghost predicate Worklist(marked: seq<End>, work: seq<End>, univ: set<End>) {
    && NoDup(marked) && NoDup(work)
    && (forall e :: e in work ==> e in marked)
    && (forall e :: e in marked ==> e in univ)
  }

  /** Everything marked is reachable, and a marked end that is not to be scanned any more has been scanned. */
  ghost predicate Marking(roots: set<End>, queues: Queues, marked: seq<End>, work: seq<End>) {
    && (forall e :: e in marked ==> Reachable(roots, queues, e))
    && (forall d, e :: d in marked && d !in work && Carries(queues, d, e) ==> e in marked)
  }

  lemma {:induction false} NoDupBound(s: seq<End>, univ: set<End>)
    requires NoDup(s) && forall e :: e in s ==> e in univ
    ensures |s| <= |univ|
  {
    if s != [] {
      var last := s[|s| - 1];
      NoDupBound(s[..|s| - 1], univ - {last});
    }
  }

  /** Marks an end and puts it on the worklist, once. */
  method Root(e: End, marked: seq<End>, work: seq<End>, ghost univ: set<End>)
    returns (marked': seq<End>, work': seq<End>)
    requires Worklist(marked, work, univ) && e in univ
    ensures Worklist(marked', work', univ)
    ensures forall d :: d in marked' <==> d in marked || d == e
    ensures forall d :: d in work' <==> d in work || (d == e && e !in marked)
    ensures marked <= marked' && |marked'| - |marked| == |work'| - |work|
  {
    marked', work' := marked, work;
    if e !in marked {
      marked' := marked' + [e];
      work' := work' + [e];
    }
  }

  /** Marks the channel ends among the handles of one message. */
  method ScanHandles(handles: seq<Object>, marked: seq<End>, work: seq<End>, ghost univ: set<End>)
    returns (marked': seq<End>, work': seq<End>)
    requires Worklist(marked, work, univ) && forall e :: Channel(e) in handles ==> e in univ
    ensures Worklist(marked', work', univ)
    ensures forall d :: d in marked' <==> d in marked || Channel(d) in handles
    ensures forall d :: d in work' <==> d in work || (d in marked' && d !in marked)
    ensures marked <= marked' && |marked'| - |marked| == |work'| - |work|
  {
    marked', work' := marked, work;
    var i := 0;
    while i < |handles|
      invariant i <= |handles| && Worklist(marked', work', univ)
      invariant forall d :: d in marked' <==> d in marked || Channel(d) in handles[..i]
      invariant forall d :: d in work' <==> d in work || (d in marked' && d !in marked)
      invariant marked <= marked' && |marked'| - |marked| == |work'| - |work|
    {
      assert handles[..i + 1] == handles[..i] + [handles[i]];
      if handles[i].Channel? {
        marked', work' := Root(handles[i].end, marked', work', univ);
      }
      i := i + 1;
    }
    assert handles[..i] == handles;
  }

  /** Marks the channel ends carried by the messages of one queue. */
  method ScanQueue(queue: seq<Message>, marked: seq<End>, work: seq<End>, ghost univ: set<End>)
    returns (marked': seq<End>, work': seq<End>)
    requires Worklist(marked, work, univ)
    requires forall m, e :: m in queue && Channel(e) in m.handles ==> e in univ
    ensures Worklist(marked', work', univ)
    ensures forall d :: d in marked' <==> d in marked || exists m :: m in queue && Channel(d) in m.handles
    ensures forall d :: d in work' <==> d in work || (d in marked' && d !in marked)
    ensures marked <= marked' && |marked'| - |marked| == |work'| - |work|
  {
    marked', work' := marked, work;
    var i := 0;
    while i < |queue|
      invariant i <= |queue| && Worklist(marked', work', univ)
      invariant forall d :: d in marked' <==> d in marked || exists m :: m in queue[..i] && Channel(d) in m.handles
      invariant forall d :: d in work' <==> d in work || (d in marked' && d !in marked)
      invariant marked <= marked' && |marked'| - |marked| == |work'| - |work|
    {
      assert queue[..i + 1] == queue[..i] + [queue[i]];
      marked', work' := ScanHandles(queue[i].handles, marked', work', univ);
      i := i + 1;
    }
    assert queue[..i] == queue;
  }

  /** Empties the worklist: what is marked at the end is exactly what is reachable. */
  method MarkAll(queues: Queues, marked: seq<End>, work: seq<End>, ghost roots: set<End>) returns (marked': seq<End>)
    requires Worklist(marked, work, queues.Keys) && Marking(roots, queues, marked, work)
    requires forall e :: e in roots ==> e in marked
    requires forall d, e :: Carries(queues, d, e) ==> e in queues
    ensures forall e :: e in marked' <==> Reachable(roots, queues, e)
  {
    marked' := marked;
    var left := work;
    NoDupBound(marked', queues.Keys);
    while left != []
      invariant Worklist(marked', left, queues.Keys) && Marking(roots, queues, marked', left)
      invariant forall e :: e in roots ==> e in marked'
      invariant |marked'| <= |queues.Keys|
      decreases 2 * (|queues.Keys| - |marked'|) + |left|
    {
      marked', left := MarkOne(queues, marked', left, roots);
    }
    AllReachableMarked(roots, queues, marked');
  }

  /** Takes an end from the worklist and marks what its queued messages carry. */
  method MarkOne(queues: Queues, marked: seq<End>, work: seq<End>, ghost roots: set<End>)
    returns (marked': seq<End>, work': seq<End>)
    requires work != [] && Worklist(marked, work, queues.Keys) && Marking(roots, queues, marked, work)
    requires forall d, e :: Carries(queues, d, e) ==> e in queues
    ensures Worklist(marked', work', queues.Keys) && Marking(roots, queues, marked', work')
    ensures marked <= marked' && |marked'| - |marked| == |work'| - |work| + 1 && |marked'| <= |queues.Keys|
  {
    var e := work[|work| - 1];
    var rest := work[..|work| - 1];
    assert work == rest + [e];
    forall m, x | m in queues[e] && Channel(x) in m.handles
      ensures x in queues
    {
      assert Carries(queues, e, x);
    }
    marked', work' := ScanQueue(queues[e], marked, rest, queues.Keys);
    ScannedMarking(roots, queues, marked, rest, e, marked', work');
    NoDupBound(marked', queues.Keys);
  }

  lemma ScannedMarking(roots: set<End>, queues: Queues, marked: seq<End>, rest: seq<End>, e: End,
                       marked': seq<End>, work': seq<End>)
    requires Marking(roots, queues, marked, rest + [e]) && e in marked && e in queues
    requires forall d :: d in marked' <==> d in marked || exists m :: m in queues[e] && Channel(d) in m.handles
    requires forall d :: d in work' <==> d in rest || (d in marked' && d !in marked)
    ensures Marking(roots, queues, marked', work')
  {
    forall x | x in marked'
      ensures Reachable(roots, queues, x)
    {
      if x !in marked {
        StepReachable(roots, queues, e, x);
      }
    }
    forall d, x | d in marked' && d !in work' && Carries(queues, d, x)
      ensures x in marked'
    {
      if d != e {
        assert d in marked && d !in rest + [e];
      }
    }
  }

  lemma AllReachableMarked(roots: set<End>, queues: Queues, marked: seq<End>)
    requires Marking(roots, queues, marked, []) && forall e :: e in roots ==> e in marked
    ensures forall e :: e in marked <==> Reachable(roots, queues, e)
  {
    forall e | Reachable(roots, queues, e)
      ensures e in marked
    {
      var path :| IsPath(roots, queues, path) && path[|path| - 1] == e;
      PathInClosedSet(roots, queues, marked, path);
    }
  }

  // ---------------------------------------------------------------- sweeping

  /** The ends in `gone`, open before, are closed and emptied; nothing else changes. */
  ghost predicate Swept(s: State, r: State, gone: set<End>) {
    && gone <= s.queues.Keys && gone !! s.closedByMe
    && r.queues.Keys == s.queues.Keys
    && r == s.(queues := r.queues, closed := s.closed + gone, closedByMe := s.closedByMe + gone,
               liveEnds := s.liveEnds - |gone|)
    && forall e :: e in s.queues ==> r.queues[e] == if e in gone then [] else s.queues[e]
  }

  lemma SweptNone(s: State)
    ensures Swept(s, s, {})
  {
  }

  /** Which ends of the list are swept. */
  ghost predicate GoneIs(gone: set<End>, ends: seq<End>, marked: seq<End>, closed: set<End>) {
    forall e :: e in gone <==> e in ends && e !in marked && e !in closed
  }

  lemma GoneNext(gone: set<End>, ends: seq<End>, i: nat, marked: seq<End>, closed: set<End>)
    requires i < |ends| && GoneIs(gone, ends[..i], marked, closed) && NoDup(ends)
    ensures ends[i] !in gone
    ensures var more := if ends[i] in marked || ends[i] in closed then gone else gone + {ends[i]};
            GoneIs(more, ends[..i + 1], marked, closed)
  {
    NoDupLast(ends, i);
    assert ends[..i + 1] == ends[..i] + [ends[i]];
  }

  lemma SweptFirst(s: State, r: State, gone: set<End>, e: End)
    requires Swept(s, r, gone) && e !in gone
    ensures e in r.closedByMe <==> e in s.closedByMe
  {
  }

  /** The first `i` ends of the list have been looked at, and `n` of them, `gone`, closed. */
  ghost predicate Sweeping(s: State, r: State, ends: seq<End>, i: nat, marked: seq<End>, n: nat, gone: set<End>) {
    && i <= |ends| && n == |gone| && Swept(s, r, gone) && GoneIs(gone, ends[..i], marked, s.closedByMe)
  }

  lemma SweepStarts(s: State, ends: seq<End>, marked: seq<End>)
    ensures Sweeping(s, s, ends, 0, marked, 0, {})
  {
    SweptNone(s);
  }

  lemma SweepEnds(s: State, r: State, ends: seq<End>, marked: seq<End>, n: nat, gone: set<End>)
    requires Sweeping(s, r, ends, |ends|, marked, n, gone)
    ensures n == |gone| && Swept(s, r, gone) && r.queues.Keys == s.queues.Keys
    ensures forall e :: e in gone <==> e in ends && e !in marked && e !in s.closedByMe
  {
    assert ends[..|ends|] == ends;
  }

  lemma SweptMore(s: State, r: State, gone: set<End>, e: End)
    requires Swept(s, r, gone) && Shaped(r) && e in r.queues && e !in r.closedByMe
    ensures Swept(s, CountedOut(Emptied(Marked(r, e), e), e), gone + {e})
  {
    var q := CountedOut(Emptied(Marked(r, e), e), e);
    SweptQueues(s, r, gone, e);
    SweptSets(s, r, gone, e);
    hide Shaped;
  }

  lemma SweptSets(s: State, r: State, gone: set<End>, e: End)
    requires r.closed == s.closed + gone && r.closedByMe == s.closedByMe + gone
    requires r.closing <= r.closedByMe && e !in r.closedByMe
    ensures r.closing + {e} - {e} == r.closing && r.closed + {e} == s.closed + (gone + {e})
    ensures r.closedByMe + {e} == s.closedByMe + (gone + {e}) && |gone + {e}| == |gone| + 1
  {
  }

  lemma SweptQueues(s: State, r: State, gone: set<End>, e: End)
    requires Swept(s, r, gone) && e in r.queues
    ensures var q := r.queues[e := []];
            q.Keys == s.queues.Keys && forall d :: d in s.queues ==> q[d] == if d in gone + {e} then [] else s.queues[d]
  {
  }

  lemma NoDupLast(s: seq<End>, i: nat)
    requires NoDup(s) && i < |s|
    ensures s[i] !in s[..i]
  {
  }

  lemma RootsMarking(roots: set<End>, queues: Queues, marked: seq<End>, work: seq<End>)
    requires forall e :: e in marked <==> e in roots
    requires forall e :: e in work <==> e in marked
    ensures Marking(roots, queues, marked, work)
  {
    forall e | e in marked
      ensures Reachable(roots, queues, e)
    {
      RootReachable(roots, queues, e);
    }
  }

  /** Closing ends that cannot be reached cuts no path from a root. */
  lemma {:induction false} PathSurvives(roots: set<End>, queues: Queues, queues': Queues, path: seq<End>)
    requires IsPath(roots, queues, path) && queues'.Keys == queues.Keys
    requires forall e :: e in queues && Reachable(roots, queues, e) ==> queues'[e] == queues[e]
    ensures Reachable(roots, queues', path[|path| - 1])
    decreases |path|
  {
    if |path| == 1 {
      RootReachable(roots, queues', path[0]);
    } else {
      var d, e := path[|path| - 2], path[|path| - 1];
      var shorter := path[..|path| - 1];
      forall i | 0 <= i < |shorter| - 1
        ensures Carries(queues, shorter[i], shorter[i + 1])
      {
        assert Carries(queues, path[i], path[i + 1]);
      }
      assert IsPath(roots, queues, shorter) && shorter[|shorter| - 1] == d;
      PathSurvives(roots, queues, queues', shorter);
      assert Carries(queues, d, e) && Carries(queues', d, e);
      StepReachable(roots, queues', d, e);
    }
  }

  /** Exactly the open ends that cannot be reached were swept. */
  ghost predicate Collected(s: State, r: State, roots: set<End>, gone: set<End>) {
    && Swept(s, r, gone)
    && forall e :: e in gone <==> e in s.queues && e !in s.closedByMe && !Reachable(roots, s.queues, e)
  }

  /** What is open after a collection can be reached. */
  lemma AfterSweep(s: State, r: State, roots: set<End>, gone: set<End>)
    requires Collected(s, r, roots, gone)
    ensures forall e :: e in r.queues && e !in r.closedByMe ==> Reachable(roots, r.queues, e)
  {
    forall e | e in r.queues && e !in r.closedByMe
      ensures Reachable(roots, r.queues, e)
    {
      var path :| IsPath(roots, s.queues, path) && path[|path| - 1] == e;
      PathSurvives(roots, s.queues, r.queues, path);
    }
  }

  /** With no live process and no pinned end, a collection leaves no end open. */
  lemma NoRootsNoneOpen(s: State, r: State, gone: set<End>)
    requires Collected(s, r, {}, gone)
    ensures forall e :: e in r.queues ==> e in r.closedByMe
  {
    AfterSweep(s, r, {}, gone);
  }

  // ---------------------------------------------------------------- the kernel's channel state

  lemma CreatedShaped(s: State, e: End)
    requires Shaped(s)
    ensures Shaped(Created(s, e))
  {
    forall d | d in Created(s, e).ends
      ensures Peer(d) in Created(s, e).ends
    {
    }
  }

  /** What others do during one attempt: whether the open windows drain in time, and how many open while marking. */
  datatype Attempt = Attempt(drained: bool, windows: nat)

  /** Some attempt from number `k` on goes undisturbed before a wait gives up. */
  predicate Settles(attempts: seq<Attempt>, k: nat)
    requires k <= |attempts|
    decreases |attempts| - k
  {
    k < |attempts| && attempts[k].drained && (attempts[k].windows == 0 || Settles(attempts, k + 1))
  }

  /** Every handle in a table or a queued message, and every pinned end, is an end the registry knows. */
  ghost predicate HandlesKnown(roots: set<End>, queues: Queues) {
    && (forall e :: e in roots ==> e in queues)
    && (forall d, e :: Carries(queues, d, e) ==> e in queues)
  }

  /** A message whose handles are known joins a queue. */
  lemma QueueKnown(roots: set<End>, queues: Queues, p: End, m: Message)
    requires HandlesKnown(roots, queues) && p in queues && forall x :: Channel(x) in m.handles ==> x in queues
    ensures HandlesKnown(roots, queues[p := queues[p] + [m]])
  {
    var after := queues[p := queues[p] + [m]];
    forall d, e | Carries(after, d, e)
      ensures e in after
    {
      var x: Message :| x in after[d] && Channel(e) in x.handles;
      assert x != m || d != p ==> Carries(queues, d, e);
    }
  }

  /** Queues only lose messages. */
  lemma FewerKnown(roots: set<End>, queues: Queues, after: Queues)
    requires HandlesKnown(roots, queues) && after.Keys == queues.Keys
    requires forall d, m :: d in queues && m in after[d] ==> m in queues[d]
    ensures HandlesKnown(roots, after)
  {
    forall d, e | Carries(after, d, e)
      ensures Carries(queues, d, e)
    {
    }
  }

  /** Two new ends, pinned, with empty queues. */
  lemma PairKnown(roots: set<End>, queues: Queues, a: End, b: End)
    requires HandlesKnown(roots, queues) && a !in queues && b !in queues
    ensures HandlesKnown(roots + {a, b}, queues[a := []][b := []])
  {
    var after := queues[a := []][b := []];
    forall d, e | Carries(after, d, e)
      ensures e in after
    {
      assert Carries(queues, d, e);
    }
  }

  class Ipc {
    var registry: seq<End>
    var queues: Queues
    var closed: set<End>
    var closedByMe: set<End>
    var liveEnds: int
    var pinned: set<End>
    var tables: seq<seq<Option<Object>>>
    var inFlight: nat
    var generation: nat
    ghost var closing: set<End>
    ghost var accepted: map<End, seq<Message>>
    ghost var received: map<End, seq<Message>>

    constructor ()
      ensures Valid() && View() == EMPTY && registry == [] && pinned == {} && tables == [] && inFlight == 0
    {
      registry, queues, closed, closedByMe, liveEnds := [], map[], {}, {}, 0;
      pinned, tables, inFlight, generation := {}, [], 0, 0;
      closing, accepted, received := {}, map[], map[];
    }

    ghost function View(): State
      reads this
    {
      State(queues.Keys, queues, closed, closedByMe, closing, liveEnds, accepted, received)
    }

    ghost predicate Valid()
      reads this
    {
      && Shaped(View()) && NoDup(registry)
      && (forall e :: e in registry <==> e in queues)
      && HandlesKnown(Roots(), queues)
    }

    /** Ends held by the kernel, or by the handle table of a live process. */
    ghost function Roots(): set<End>
      reads `pinned, `tables
    {
      pinned + TableEnds(tables)
    }

    method Send(e: End, m: Message) returns (r: Outcome<()>)
      requires Valid() && e in queues && forall x :: Channel(x) in m.handles ==> x in queues
      modifies this`queues, this`accepted
      ensures Valid() && View() == Sent(old(View()), e, m) && r == SendStatus(old(View()), e)
    {
      hide HandlesKnown, Roots;
      var p := Peer(e);
      if p in closed {
        return Err(PeerClosed);
      }
      if |queues[p]| >= CHANNEL_QUEUE_MAX {
        return Err(QueueFull);
      }
      QueueKnown(Roots(), queues, p, m);
      queues := queues[p := queues[p] + [m]];
      accepted := accepted[p := accepted[p] + [m]];
      return Ok(());
    }

    method TryRecv(e: End) returns (r: Outcome<Message>)
      requires Valid() && e in queues
      modifies this`queues, this`received
      ensures Valid() && View() == Received(old(View()), e) && r == ReceiveStatus(old(View()), e)
    {
      hide HandlesKnown, Roots;
      if queues[e] != [] {
        var m := queues[e][0];
        FewerKnown(Roots(), queues, queues[e := queues[e][1..]]);
        queues := queues[e := queues[e][1..]];
        received := received[e := received[e] + [m]];
        return Ok(m);
      }
      if Peer(e) in closed {
        return Err(PeerClosed);
      }
      return Err(WouldBlock);
    }

    /** A new channel; both ends start pinned by the kernel. */
    method CreatePair(channel: nat) returns (a: End, b: End)
      requires Valid() && End(channel, false) !in queues && End(channel, true) !in queues
      modifies this`registry, this`queues, this`liveEnds, this`pinned, this`accepted, this`received
      ensures Valid() && View() == Created(old(View()), a)
      ensures b == Peer(a) && pinned == old(pinned) + {a, b}
    {
      a, b := End(channel, false), End(channel, true);
      ghost var s := View();
      CreatedShaped(s, a);
      PairKnown(Roots(), queues, a, b);
      assert Roots() + {a, b} == (pinned + {a, b}) + TableEnds(tables);
      AddToQueues(a, b);
      assert View() == Created(s, a);
      Register(a, b);
    }

    method AddToQueues(a: End, b: End)
      modifies this`queues, this`liveEnds, this`accepted, this`received
      ensures queues == old(queues)[a := []][b := []] && liveEnds == old(liveEnds) + 2
      ensures accepted == old(accepted)[a := []][b := []] && received == old(received)[a := []][b := []]
    {
      queues := queues[a := []][b := []];
      liveEnds := liveEnds + 2;
      accepted, received := accepted[a := []][b := []], received[a := []][b := []];
    }

    method Register(a: End, b: End)
      requires NoDup(registry) && a !in registry && b !in registry && a != b
      modifies this`registry, this`pinned
      ensures NoDup(registry) && pinned == old(pinned) + {a, b}
      ensures forall e :: e in registry <==> e in old(registry) || e == a || e == b
    {
      pinned := pinned + {a, b};
      registry := registry + [a, b];
    }

    /** Closes an end; only the first call does anything, and says so. */
    method Close(e: End) returns (first: bool)
      requires Valid() && e in queues
      modifies this`queues, this`closed, this`closedByMe, this`liveEnds
      ensures Valid() && first == (e !in old(closedByMe))
      ensures !first ==> View() == old(View())
      ensures first ==> View() == CountedOut(Emptied(Marked(old(View()), e), e), e)
    {
      hide HandlesKnown, Roots;
      if e in closedByMe {
        return false;
      }
      assert closing + {e} - {e} == closing;
      FewerKnown(Roots(), queues, queues[e := []]);
      closedByMe := closedByMe + {e};
      closed := closed + {e};
      queues := queues[e := []];
      liveEnds := liveEnds - 1;
      return true;
    }

    /** Marks the ends pinned by the kernel. */
    method MarkPinned() returns (marked: seq<End>, work: seq<End>)
      requires Valid()
      ensures Worklist(marked, work, queues.Keys)
      ensures forall e :: e in marked <==> e in pinned
      ensures forall e :: e in work <==> e in marked
    {
      marked, work := [], [];
      var i := 0;
      while i < |registry|
        invariant i <= |registry| && Worklist(marked, work, queues.Keys)
        invariant forall e :: e in marked <==> e in pinned && e in registry[..i]
        invariant forall e :: e in work <==> e in marked
      {
        assert registry[..i + 1] == registry[..i] + [registry[i]];
        if registry[i] in pinned {
          marked, work := Root(registry[i], marked, work, queues.Keys);
        }
        i := i + 1;
      }
      assert registry[..i] == registry;
    }

    /** Marks the ends in one handle table. */
    method MarkTable(table: seq<Option<Object>>, marked: seq<End>, work: seq<End>)
      returns (marked': seq<End>, work': seq<End>)
      requires Worklist(marked, work, queues.Keys) && forall e :: Some(Channel(e)) in table ==> e in queues
      requires forall e :: e in work <==> e in marked
      ensures Worklist(marked', work', queues.Keys)
      ensures forall e :: e in marked' <==> e in marked || Some(Channel(e)) in table
      ensures forall e :: e in work' <==> e in marked'
    {
      marked', work' := marked, work;
      var i := 0;
      while i < |table|
        invariant i <= |table| && Worklist(marked', work', queues.Keys)
        invariant forall e :: e in marked' <==> e in marked || Some(Channel(e)) in table[..i]
        invariant forall e :: e in work' <==> e in marked'
      {
        assert table[..i + 1] == table[..i] + [table[i]];
        if table[i].Some? {
          if table[i].value.Channel? {
            marked', work' := Root(table[i].value.end, marked', work', queues.Keys);
          }
        }
        i := i + 1;
      }
      assert table[..i] == table;
    }

    method MarkRoots() returns (marked: seq<End>, work: seq<End>)
      requires Valid()
      ensures Worklist(marked, work, queues.Keys)
      ensures forall e :: e in marked <==> e in Roots()
      ensures forall e :: e in work <==> e in marked
    {
      marked, work := MarkPinned();
      var i := 0;
      while i < |tables|
        invariant i <= |tables| && Worklist(marked, work, queues.Keys)
        invariant forall e :: e in marked <==> e in pinned || e in TableEnds(tables[..i])
        invariant forall e :: e in work <==> e in marked
      {
        TableEndsGrow(tables, i);
        TableKnown(tables, i);
        marked, work := MarkTable(tables[i], marked, work);
        i := i + 1;
      }
      assert tables[..i] == tables;
    }

    method MarkReachable() returns (marked: seq<End>)
      requires Valid()
      ensures forall e :: e in marked <==> Reachable(Roots(), queues, e)
    {
      var work;
      marked, work := MarkRoots();
      RootsMarking(Roots(), queues, marked, work);
      marked := MarkAll(queues, marked, work, Roots());
    }

    /** Closes one end of a sweep that began in state `s` and has closed `gone`. */
    method CloseSwept(e: End, ghost s: State, ghost gone: set<End>) returns (first: bool)
      requires Valid() && e in queues && e !in gone && Swept(s, View(), gone)
      modifies this`queues, this`closed, this`closedByMe, this`liveEnds
      ensures Valid() && first == (e !in s.closedByMe)
      ensures Swept(s, View(), if first then gone + {e} else gone)
    {
      hide HandlesKnown, Roots, Shaped, Swept, CountedOut, Emptied, Marked;
      SweptFirst(s, View(), gone, e);
      ghost var before := View();
      first := Close(e);
      if first {
        SweptMore(s, before, gone, e);
      }
    }

    /** One round of the sweep: end number `i` of the registry, after `n` of those before it were closed. */
    method SweepNext(i: nat, marked: seq<End>, ghost s: State, n: nat, ghost gone: set<End>)
      returns (n': nat, ghost gone': set<End>)
      requires Valid() && i < |registry| && Sweeping(s, View(), registry, i, marked, n, gone)
      modifies this`queues, this`closed, this`closedByMe, this`liveEnds
      ensures Valid() && Sweeping(s, View(), registry, i + 1, marked, n', gone')
    {
      hide HandlesKnown, Roots, Shaped, Swept, GoneIs;
      var e := registry[i];
      GoneNext(gone, registry, i, marked, s.closedByMe);
      n', gone' := n, gone;
      if e !in marked {
        var first := CloseSwept(e, s, gone);
        if first {
          n', gone' := n + 1, gone + {e};
        }
      }
    }

    /** Closes the ends that are not marked; counts those that were not closed before. */
    method Sweep(marked: seq<End>) returns (n: nat, ghost gone: set<End>)
      requires Valid()
      modifies this`queues, this`closed, this`closedByMe, this`liveEnds
      ensures Valid() && n == |gone| && Swept(old(View()), View(), gone)
      ensures forall e :: e in gone <==> e in queues && e !in marked && e !in old(closedByMe)
    {
      ghost var s := View();
      n, gone := 0, {};
      SweepStarts(s, registry, marked);
      hide Sweeping, HandlesKnown, Roots, Shaped, Swept, NoDup;
      var i := 0;
      while i < |registry|
        invariant i <= |registry| && Valid() && Sweeping(s, View(), registry, i, marked, n, gone)
      {
        n, gone := SweepNext(i, marked, s, n, gone);
        i := i + 1;
      }
      SweepEnds(s, View(), registry, marked, n, gone);
    }

    /**
     One marking pass.  With no window open and none opened since generation `gen0`, it closes exactly
     the open ends that cannot be reached; every end still open afterwards can be.
     */
    method CollectMarked(gen0: nat) returns (r: Option<nat>, ghost gone: set<End>)
      requires Valid()
      modifies this`queues, this`closed, this`closedByMe, this`liveEnds
      ensures Valid()
      ensures r.None? <==> registry != [] && (inFlight != 0 || generation != gen0)
      ensures r.None? ==> View() == old(View())
      ensures registry == [] ==> r == Some(0) && View() == old(View())
      ensures r.Some? ==> r.value == |gone| && Collected(old(View()), View(), Roots(), gone)
    {
      hide Reachable, Swept, HandlesKnown, Roots, Shaped;
      if registry == [] {
        SweptNone(View());
        return Some(0), {};
      }
      var marked := MarkReachable();
      if inFlight != 0 || generation != gen0 {
        return None, {};
      }
      var n;
      n, gone := Sweep(marked);
      r := Some(n);
    }

    /**
     The collection a process exit asks for.  In each of eight attempts either the wait for open windows gives up,
     or some number of windows open during the marking.  The first attempt with none closes exactly what cannot
     be reached, and everything left open can be; if a wait gives up first, or all eight are disturbed, nothing
     is closed.
     */
    method CollectUnreachable(attempts: seq<Attempt>) returns (n: nat, ghost gone: set<End>)
      requires Valid() && |attempts| == 8
      modifies this`queues, this`closed, this`closedByMe, this`liveEnds, this`inFlight, this`generation
      ensures Valid()
      ensures !Settles(attempts, 0) ==> n == 0 && View() == old(View())
      ensures Settles(attempts, 0) ==> n == |gone| && Collected(old(View()), View(), Roots(), gone)
      ensures Settles(attempts, 0) ==> forall e :: e in queues && e !in closedByMe ==> Reachable(Roots(), queues, e)
    {
      hide HandlesKnown, Reachable, Swept, Shaped;
      var k := 0;
      while k < 8
        invariant k <= 8 && Valid() && View() == old(View()) && Settles(attempts, 0) == Settles(attempts, k)
      {
        if !attempts[k].drained {
          return 0, {};
        }
        inFlight := 0;
        var gen0 := generation;
        generation := generation + attempts[k].windows;
        var r;
        r, gone := CollectMarked(gen0);
        if r.Some? {
          n := r.value;
          AfterSweep(old(View()), View(), Roots(), gone);
          return;
        }
        k := k + 1;
      }
      return 0, {};
    }
  }

  /** The channel ends that some handle table holds. */
  ghost function TableEnds(tables: seq<seq<Option<Object>>>): set<End> {
    set t, h | t in tables && h in t && h.Some? && h.value.Channel? :: h.value.end
  }

  lemma TableKnown(tables: seq<seq<Option<Object>>>, i: nat)
    requires i < |tables|
    ensures forall e :: Some(Channel(e)) in tables[i] ==> e in TableEnds(tables)
  {
    forall e | Some(Channel(e)) in tables[i]
      ensures e in TableEnds(tables)
    {
      assert tables[i] in tables && Some(Channel(e)).value.end == e;
    }
  }

  lemma TableEndsGrow(tables: seq<seq<Option<Object>>>, i: nat)
    requires i < |tables|
    ensures forall e ::
              e in TableEnds(tables[..i + 1]) <==> e in TableEnds(tables[..i]) || Some(Channel(e)) in tables[i]
  {
    assert tables[..i + 1] == tables[..i] + [tables[i]];
    forall e | Some(Channel(e)) in tables[i]
      ensures e in TableEnds(tables[..i + 1])
    {
      assert tables[i] in tables[..i + 1] && Some(Channel(e)).value.end == e;
    }
  }
}
