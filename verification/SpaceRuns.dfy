/**
 Several address spaces at once: any interleaving of creations, calls and drops of spaces and of the kernel's
 own mapper calls, over one physical memory.  A call on a space is any change that the operations of
 `AddressSpaces` guarantee (`OwnStep`), a call of the kernel any that those of `KernelHalf` do (`MapperCall`).
 */
module SpaceRuns {
  import opened Seqs
  import opened Paging
  import opened PageMapper
  import opened AddressSpaces
  import opened KernelHalf

  type Id = nat

  datatype Space = Space(root: Frame, pos: Positions, frames: seq<Frame>)

  /** The kernel's own tables and the frames its calls took, and the spaces that exist. */
  datatype System = System(mem: Memory, free: set<Frame>, kernel: Frame, kernelPos: Positions,
                           kernelFrames: seq<Frame>, spaces: map<Id, Space>)

  datatype Step =
    | Create(id: Id, root: Frame)
    | Use(id: Id, path: seq<Index>, pos: Positions, frames: seq<Frame>)
    | Drop(id: Id)

  /** `via` is the space whose root is in CR3 when the kernel makes the call; None for the kernel's own root. */
  datatype Event =
    | OnSpace(step: Step)
    | KernelCall(via: Option<Id>, path: seq<Index>, pos: Positions, frames: seq<Frame>)

  ghost function Seen(s: System, sp: Space): Snapshot {
    Snapshot(s.mem, sp.pos, s.free, sp.frames)
  }

  /** `s` becomes `t`: a space is created as `NewSpace` does, used by one of its calls, or dropped. */
  ghost predicate Happens(s: System, a: Step, t: System) {
    match a
    case Create(id, root) =>
      && id !in s.spaces && root in s.free && s.kernel in s.mem
      && t == s.(mem := s.mem[root := UpperHalf(s.mem[s.kernel])], free := s.free - {root},
                 spaces := s.spaces[id := Space(root, ShareUpper(s.kernelPos, root), [])])
    case Use(id, path, pos, frames) =>
      && id in s.spaces && |path| == 4
      && var was := s.spaces[id];
         var now := was.(pos := pos, frames := frames);
         && t == s.(mem := t.mem, free := t.free, spaces := s.spaces[id := now])
         && OwnStep(Seen(s, was), Seen(t, now), was.root, path)
    case Drop(id) =>
      && id in s.spaces
      && var was := s.spaces[id];
         t == s.(free := s.free + {was.root} + (set f | f in was.frames), spaces := s.spaces - {id})
  }

  /** The root, and the tables below it, that a kernel call goes through. */
  ghost function TreeOf(s: System, via: Option<Id>): Space
    requires via.Some? ==> via.value in s.spaces
  {
    if via.None? then Space(s.kernel, s.kernelPos, []) else s.spaces[via.value]
  }

  ghost function SeenByKernel(s: System, pos: Positions, frames: seq<Frame>): Snapshot {
    Snapshot(s.mem, pos, s.free, frames)
  }

  /** Every root has the tables of the kernel half as `pos` has them now. */
  ghost function GraftAll(spaces: map<Id, Space>, pos: Positions): map<Id, Space> {
    map id | id in spaces :: spaces[id].(pos := Graft(spaces[id].pos, pos))
  }

  /** A call in the kernel half, below a PML4 entry that is present. */
  ghost predicate KernelHappens(s: System, e: Event, t: System)
    requires e.KernelCall?
  {
    && (e.via.Some? ==> e.via.value in s.spaces) && |e.path| == 4 && InKernelHalf(e.path)
    && var tree := TreeOf(s, e.via);
       && Present(Read(s.mem, tree.root, e.path[0]))
       && MapperCall(SeenByKernel(s, tree.pos, s.kernelFrames), SeenByKernel(t, e.pos, e.frames), tree.root, e.path)
       && t == System(t.mem, t.free, s.kernel, Graft(s.kernelPos, e.pos), e.frames, GraftAll(s.spaces, e.pos))
  }

  ghost predicate Moves(s: System, e: Event, t: System) {
    match e
    case OnSpace(a) => Happens(s, a, t)
    case KernelCall(_, _, _, _) => KernelHappens(s, e, t)
  }

  // ---------------------------------------------------------------- the invariant

  ghost predicate Owns(sp: Space, f: Frame) {
    f == sp.root || f in sp.frames
  }

  ghost predicate Addressable(sp: Space) {
    forall f :: Owns(sp, f) ==> 0 <= f < 0x100_0000_0000
  }

  /** No table and no frame of `a` belongs to `b`. */
  ghost predicate Apart(a: Space, b: Space) {
    forall f :: f in a.pos || Owns(a, f) ==> !Owns(b, f)
  }

  ghost predicate KernelInOrder(s: System) {
    && IsTree(s.mem, s.kernel, s.kernelPos)
    && forall f :: f in s.free ==> f !in s.kernelPos && 0 <= f < 0x100_0000_0000
  }

  /** A space in order that owns no table of the kernel. */
  ghost predicate SpaceInOrder(s: System, sp: Space) {
    InOrder(Seen(s, sp), sp.root) && Addressable(sp) && forall f :: f in s.kernelPos ==> !Owns(sp, f)
  }

  /** The kernel half of a space is the kernel's. */
  ghost predicate SharesKernel(s: System, sp: Space) {
    Shares(s.mem, s.kernel, sp.root, s.kernelPos, sp.pos)
  }

  ghost predicate SystemInv(s: System) {
    && KernelInOrder(s)
    && (forall id :: id in s.spaces ==> SpaceInOrder(s, s.spaces[id]))
    && (forall id :: id in s.spaces ==> SharesKernel(s, s.spaces[id]))
    && (forall id, jd :: id in s.spaces && jd in s.spaces && id != jd ==> Apart(s.spaces[id], s.spaces[jd]))
  }

  lemma SpaceOf(s: System, id: Id)
    requires SystemInv(s) && id in s.spaces
    ensures SpaceInOrder(s, s.spaces[id]) && SharesKernel(s, s.spaces[id])
  {
    hide SpaceInOrder, SharesKernel, KernelInOrder, Apart;
  }

  lemma KernelOf(s: System)
    requires SystemInv(s)
    ensures KernelInOrder(s)
  {
    hide SpaceInOrder, SharesKernel, KernelInOrder, Apart;
  }

  lemma PairOf(s: System, id: Id, jd: Id)
    requires SystemInv(s) && id in s.spaces && jd in s.spaces && id != jd
    ensures Apart(s.spaces[id], s.spaces[jd])
  {
    hide SpaceInOrder, SharesKernel, KernelInOrder, Apart;
  }

  /** A tree whose tables did not change, and from which nothing became free, is still in order. */
  lemma StillInOrder(a: Snapshot, b: Snapshot, root: Frame)
    requires InOrder(a, root) && b == a.(mem := b.mem, free := b.free)
    requires forall f :: f in a.pos ==> f in b.mem && b.mem[f] == a.mem[f]
    requires forall f :: f in b.free && f !in a.free ==>
               f !in a.pos && f !in a.frames && f != root && 0 <= f < 0x100_0000_0000
    ensures InOrder(b, root) && SameMap(a.mem, b.mem, root)
  {
    FramedTree(a.mem, b.mem, root, a.pos);
    hide IsTree, SameMap;
  }

  lemma KernelStillInOrder(s: System, t: System)
    requires KernelInOrder(s) && t.kernel == s.kernel && t.kernelPos == s.kernelPos
    requires forall f :: f in s.kernelPos ==> f in t.mem && t.mem[f] == s.mem[f]
    requires forall f :: f in t.free && f !in s.free ==> f !in s.kernelPos && 0 <= f < 0x100_0000_0000
    ensures KernelInOrder(t) && SameMap(s.mem, t.mem, s.kernel)
  {
    FramedTree(s.mem, t.mem, s.kernel, s.kernelPos);
    hide IsTree, SameMap;
  }

  // ---------------------------------------------------------------- a call

  /** A call changes no table that is neither its own nor free. */
  lemma UseSpares(s: System, a: Step, t: System, f: Frame)
    requires a.Use? && Happens(s, a, t) && f in s.mem && f !in s.free && !Owns(s.spaces[a.id], f)
    ensures f in t.mem && t.mem[f] == s.mem[f]
  {
    hide InOrder, Moved, SameKernelTables;
  }

  lemma UseKeepsKernel(s: System, a: Step, t: System)
    requires SystemInv(s) && a.Use? && Happens(s, a, t)
    ensures KernelInOrder(t) && SameMap(s.mem, t.mem, s.kernel)
  {
    assert SpaceInOrder(s, s.spaces[a.id]);
    hide SystemInv, SpaceInOrder, InOrder, OwnStep, Outside;
    UseTakesFree(s, a, t);
    forall f | f in s.kernelPos
      ensures f in t.mem && t.mem[f] == s.mem[f]
    {
      InTreeInMemory(s.mem, s.kernel, s.kernelPos, f);
      NotOwned(s, s.spaces[a.id], f);
      UseSpares(s, a, t, f);
    }
    KernelStillInOrder(s, t);
  }

  lemma NotOwned(s: System, sp: Space, f: Frame)
    requires SpaceInOrder(s, sp) && f in s.kernelPos
    ensures !Owns(sp, f)
  {
  }

  lemma InTreeInMemory(mem: Memory, root: Frame, pos: Positions, f: Frame)
    requires IsTree(mem, root, pos) && f in pos
    ensures f in mem
  {
  }

  lemma UseTakesFree(s: System, a: Step, t: System)
    requires a.Use? && Happens(s, a, t)
    ensures t.free <= s.free
    ensures forall f :: Owns(t.spaces[a.id], f) ==> Owns(s.spaces[a.id], f) || f in s.free
    ensures forall f :: Owns(s.spaces[a.id], f) || f in s.free <==> Owns(t.spaces[a.id], f) || f in t.free
  {
    hide InOrder, Outside, SameKernelTables;
  }

  lemma UseKeepsOther(s: System, a: Step, t: System, jd: Id)
    requires SystemInv(s) && a.Use? && Happens(s, a, t) && jd in s.spaces && jd != a.id
    ensures SpaceInOrder(t, s.spaces[jd]) && SameMap(s.mem, t.mem, s.spaces[jd].root)
  {
    var sp := s.spaces[jd];
    assert SpaceInOrder(s, sp) && Apart(sp, s.spaces[a.id]);
    hide SystemInv, OwnStep, Outside;
    UseTakesFree(s, a, t);
    forall f | f in sp.pos
      ensures f in t.mem && t.mem[f] == s.mem[f]
    {
      InTreeInMemory(s.mem, sp.root, sp.pos, f);
      UseSpares(s, a, t, f);
    }
    StillInOrder(Seen(s, sp), Seen(t, sp), sp.root);
  }

  lemma UseKeepsOwn(s: System, a: Step, t: System)
    requires SystemInv(s) && a.Use? && Happens(s, a, t)
    ensures SpaceInOrder(t, t.spaces[a.id])
  {
    hide SystemInv, InOrder, Outside, Moved, SameKernelTables, LeafAt, SharesKernel;
    SpaceOf(s, a.id);
    KernelOf(s);
    UseTakesFree(s, a, t);
  }

  /** What a space in order owns is not free. */
  lemma OwnedNotFree(s: System, sp: Space, f: Frame)
    requires SpaceInOrder(s, sp) && Owns(sp, f)
    ensures f !in s.free
  {
  }

  lemma TableNotFree(s: System, sp: Space, f: Frame)
    requires SpaceInOrder(s, sp) && f in sp.pos
    ensures f !in s.free
  {
  }

  /** A table of a space is its own or hangs from the kernel half. */
  lemma OwnOrKernel(s: System, sp: Space, f: Frame)
    requires SpaceInOrder(s, sp) && f in sp.pos
    ensures Owns(sp, f) || InKernelHalf(sp.pos[f])
  {
  }

  lemma UseTables(s: System, a: Step, t: System)
    requires a.Use? && Happens(s, a, t)
    ensures t.kernel == s.kernel && t.kernelPos == s.kernelPos && t.spaces[a.id].root == s.spaces[a.id].root
    ensures SameKernelTables(s.spaces[a.id].pos, t.spaces[a.id].pos)
    ensures forall i :: 256 <= i < 512 ==>
              Read(t.mem, t.spaces[a.id].root, i) == Read(s.mem, s.spaces[a.id].root, i)
  {
    hide InOrder, Outside, Moved, LeafAt, InKernelHalf;
  }

  lemma UseStaysApart(s: System, a: Step, t: System, jd: Id)
    requires SystemInv(s) && a.Use? && Happens(s, a, t) && jd in s.spaces && jd != a.id
    ensures Apart(t.spaces[a.id], t.spaces[jd]) && Apart(t.spaces[jd], t.spaces[a.id])
  {
    var was, now, sp := s.spaces[a.id], t.spaces[a.id], s.spaces[jd];
    hide SystemInv, SpaceInOrder, Happens, SharesKernel, InKernelHalf;
    UseTables(s, a, t);
    StepOthers(s, a, t, jd);
    SpaceOf(s, a.id);
    SpaceOf(s, jd);
    PairOf(s, a.id, jd);
    PairOf(s, jd, a.id);
    UseTakesFree(s, a, t);
    UseKeepsOwn(s, a, t);
    forall f | f in now.pos || Owns(now, f)
      ensures !Owns(sp, f)
    {
      if f in now.pos {
        OwnOrKernel(t, now, f);
      }
      if Owns(sp, f) {
        OwnedNotFree(s, sp, f);
      }
    }
    forall f | f in sp.pos || Owns(sp, f)
      ensures !Owns(now, f)
    {
      if f in sp.pos {
        TableNotFree(s, sp, f);
      } else {
        OwnedNotFree(s, sp, f);
      }
    }
  }

  // ---------------------------------------------------------------- creation and drop

  lemma CreateKeepsKernel(s: System, a: Step, t: System)
    requires SystemInv(s) && a.Create? && Happens(s, a, t)
    ensures KernelInOrder(t) && SameMap(s.mem, t.mem, s.kernel)
  {
    assert a.root !in s.kernelPos;
    forall f | f in s.kernelPos
      ensures f in t.mem && t.mem[f] == s.mem[f]
    {
      InTreeInMemory(s.mem, s.kernel, s.kernelPos, f);
    }
    KernelStillInOrder(s, t);
  }

  lemma CreateKeepsOther(s: System, a: Step, t: System, jd: Id)
    requires SystemInv(s) && a.Create? && Happens(s, a, t) && jd in s.spaces
    ensures SpaceInOrder(t, s.spaces[jd]) && SameMap(s.mem, t.mem, s.spaces[jd].root)
  {
    var sp := s.spaces[jd];
    assert SpaceInOrder(s, sp);
    hide SystemInv;
    forall f | f in sp.pos
      ensures f in t.mem && t.mem[f] == s.mem[f]
    {
      InTreeInMemory(s.mem, sp.root, sp.pos, f);
      TableNotFree(s, sp, f);
    }
    StillInOrder(Seen(s, sp), Seen(t, sp), sp.root);
  }

  lemma CreateInOrder(s: System, a: Step, t: System)
    requires SystemInv(s) && a.Create? && Happens(s, a, t)
    ensures SpaceInOrder(t, t.spaces[a.id])
  {
    assert a.root !in s.kernelPos && 0 <= a.root < 0x100_0000_0000;
    NewIsTree(s.mem, s.kernel, s.kernelPos, a.root);
    ShareUpperOwns(s.kernelPos, a.root, s.free);
    hide SystemInv, IsTree, ShareUpper, OwnsUserHalf, UpperHalf;
  }

  lemma CreateApart(s: System, a: Step, t: System, jd: Id)
    requires SystemInv(s) && a.Create? && Happens(s, a, t) && jd in s.spaces
    ensures Apart(t.spaces[a.id], t.spaces[jd]) && Apart(t.spaces[jd], t.spaces[a.id])
  {
    hide SystemInv, SpaceInOrder, SharesKernel, UpperHalf;
    var sp, now := s.spaces[jd], t.spaces[a.id];
    SpaceOf(s, jd);
    forall f | f in now.pos || Owns(now, f)
      ensures !Owns(sp, f)
    {
      if f == a.root && Owns(sp, f) {
        OwnedNotFree(s, sp, f);
      } else if f != a.root {
        NotOwned(s, sp, f);
      }
    }
    forall f | f in sp.pos || Owns(sp, f)
      ensures !Owns(now, f)
    {
      if f in sp.pos {
        TableNotFree(s, sp, f);
      } else {
        OwnedNotFree(s, sp, f);
      }
    }
  }

  lemma DropKeepsKernel(s: System, a: Step, t: System)
    requires SystemInv(s) && a.Drop? && Happens(s, a, t)
    ensures KernelInOrder(t) && SameMap(s.mem, t.mem, s.kernel)
  {
    hide SystemInv, SharesKernel;
    var gone := s.spaces[a.id];
    SpaceOf(s, a.id);
    KernelOf(s);
    forall f | f in t.free && f !in s.free
      ensures f !in s.kernelPos && 0 <= f < 0x100_0000_0000
    {
      assert Owns(gone, f);
    }
    forall f | f in s.kernelPos
      ensures f in t.mem
    {
      InTreeInMemory(s.mem, s.kernel, s.kernelPos, f);
    }
    hide SpaceInOrder;
    KernelStillInOrder(s, t);
  }

  lemma DropKeepsOther(s: System, a: Step, t: System, jd: Id)
    requires SystemInv(s) && a.Drop? && Happens(s, a, t) && jd in s.spaces && jd != a.id
    ensures SpaceInOrder(t, s.spaces[jd]) && SameMap(s.mem, t.mem, s.spaces[jd].root)
  {
    var sp, gone := s.spaces[jd], s.spaces[a.id];
    hide SystemInv, SharesKernel;
    SpaceOf(s, jd);
    SpaceOf(s, a.id);
    PairOf(s, jd, a.id);
    forall f | f in t.free && f !in s.free
      ensures f !in sp.pos && f !in sp.frames && f != sp.root && 0 <= f < 0x100_0000_0000
    {
      assert Owns(gone, f);
      assert f in sp.pos || Owns(sp, f) ==> !Owns(gone, f);
    }
    forall f | f in sp.pos
      ensures f in t.mem
    {
      InTreeInMemory(s.mem, sp.root, sp.pos, f);
    }
    hide Apart, Addressable;
    StillInOrder(Seen(s, sp), Seen(t, sp), sp.root);
  }

  // ---------------------------------------------------------------- every step

  /** The space a step works on; the others stay as they are. */
  lemma StepOthers(s: System, a: Step, t: System, jd: Id)
    requires Happens(s, a, t) && jd != a.id
    ensures jd in t.spaces <==> jd in s.spaces
    ensures jd in s.spaces ==> t.spaces[jd] == s.spaces[jd]
  {
    hide OwnStep;
  }

  /** No step changes what another space, or the kernel, has mapped. */
  lemma StepIsolates(s: System, a: Step, t: System, jd: Id)
    requires SystemInv(s) && Happens(s, a, t) && jd in s.spaces && jd != a.id
    ensures SpaceInOrder(t, s.spaces[jd]) && SameMap(s.mem, t.mem, s.spaces[jd].root)
  {
    hide *;
    match a
    case Create(_, _) => CreateKeepsOther(s, a, t, jd);
    case Use(_, _, _, _) => UseKeepsOther(s, a, t, jd);
    case Drop(_) => DropKeepsOther(s, a, t, jd);
  }

  lemma StepKeepsKernel(s: System, a: Step, t: System)
    requires SystemInv(s) && Happens(s, a, t)
    ensures KernelInOrder(t) && SameMap(s.mem, t.mem, s.kernel) && t.kernel == s.kernel
  {
    assert t.kernel == s.kernel by { hide SystemInv, OwnStep; }
    hide *;
    match a
    case Create(_, _) => CreateKeepsKernel(s, a, t);
    case Use(_, _, _, _) => UseKeepsKernel(s, a, t);
    case Drop(_) => DropKeepsKernel(s, a, t);
  }

  /** The space that was worked on, if it is still there. */
  lemma StepOwn(s: System, a: Step, t: System)
    requires SystemInv(s) && Happens(s, a, t) && a.id in t.spaces
    ensures SpaceInOrder(t, t.spaces[a.id])
    ensures forall jd :: jd in s.spaces && jd in t.spaces && jd != a.id ==>
              Apart(t.spaces[a.id], t.spaces[jd]) && Apart(t.spaces[jd], t.spaces[a.id])
  {
    assert !a.Drop? by { hide SystemInv, OwnStep; }
    hide SystemInv, Happens, Apart, SpaceInOrder;
    if a.Create? {
      CreateInOrder(s, a, t);
    } else {
      UseKeepsOwn(s, a, t);
    }
    forall jd | jd in s.spaces && jd in t.spaces && jd != a.id
      ensures Apart(t.spaces[a.id], t.spaces[jd]) && Apart(t.spaces[jd], t.spaces[a.id])
    {
      if a.Create? {
        CreateApart(s, a, t, jd);
      } else {
        UseStaysApart(s, a, t, jd);
      }
    }
  }

  // ---------------------------------------------------------------- the kernel half stays shared

  lemma SharesStill(s: System, t: System, sp: Space)
    requires SharesKernel(s, sp) && t.kernel == s.kernel && t.kernelPos == s.kernelPos
    requires forall i :: 256 <= i < 512 ==>
               && Read(t.mem, sp.root, i) == Read(s.mem, sp.root, i)
               && Read(t.mem, s.kernel, i) == Read(s.mem, s.kernel, i)
    ensures SharesKernel(t, sp)
  {
  }

  /** The root of a tree in order, and what it holds. */
  lemma RootInOrder(s: System, sp: Space)
    requires SpaceInOrder(s, sp)
    ensures sp.root in s.mem && sp.root !in s.free && sp.root in sp.pos && sp.pos[sp.root] == []
  {
  }

  lemma KernelRootInOrder(s: System)
    requires KernelInOrder(s)
    ensures s.kernel in s.mem && s.kernel !in s.free && s.kernel in s.kernelPos && s.kernelPos[s.kernel] == []
  {
  }

  lemma UseSharesOther(s: System, a: Step, t: System, jd: Id)
    requires SystemInv(s) && a.Use? && Happens(s, a, t) && jd in s.spaces && jd != a.id
    ensures SharesKernel(t, s.spaces[jd])
  {
    var sp, was := s.spaces[jd], s.spaces[a.id];
    hide SystemInv, SpaceInOrder, KernelInOrder, Happens, Shares;
    UseTables(s, a, t);
    SpaceOf(s, jd);
    SpaceOf(s, a.id);
    KernelOf(s);
    PairOf(s, jd, a.id);
    RootInOrder(s, sp);
    KernelRootInOrder(s);
    NotOwned(s, was, s.kernel);
    UseSpares(s, a, t, sp.root);
    UseSpares(s, a, t, s.kernel);
    SharesStill(s, t, sp);
  }

  lemma UseSharesOwn(s: System, a: Step, t: System)
    requires SystemInv(s) && a.Use? && Happens(s, a, t)
    ensures SharesKernel(t, t.spaces[a.id])
  {
    var was, now := s.spaces[a.id], t.spaces[a.id];
    hide SystemInv, SpaceInOrder, KernelInOrder, Happens, InKernelHalf;
    UseTables(s, a, t);
    SpaceOf(s, a.id);
    KernelOf(s);
    KernelRootInOrder(s);
    NotOwned(s, was, s.kernel);
    UseSpares(s, a, t, s.kernel);
  }

  lemma CreateShares(s: System, a: Step, t: System)
    requires SystemInv(s) && a.Create? && Happens(s, a, t)
    ensures SharesKernel(t, t.spaces[a.id])
  {
    KernelRootInOrder(s);
    assert a.root !in s.kernelPos;
    forall i | 256 <= i < 512
      ensures Read(t.mem, a.root, i) == Read(t.mem, s.kernel, i)
    {
      ReadUpper(s.mem, s.kernel, a.root, a.root, i);
      ReadUpper(s.mem, s.kernel, a.root, s.kernel, i);
    }
    hide SystemInv, KernelInOrder, UpperHalf;
  }

  lemma CreateSharesOther(s: System, a: Step, t: System, jd: Id)
    requires SystemInv(s) && a.Create? && Happens(s, a, t) && jd in s.spaces
    ensures SharesKernel(t, s.spaces[jd])
  {
    var sp := s.spaces[jd];
    hide SystemInv, SpaceInOrder, KernelInOrder, Shares, UpperHalf, ShareUpper;
    SpaceOf(s, jd);
    KernelOf(s);
    RootInOrder(s, sp);
    KernelRootInOrder(s);
    SharesStill(s, t, sp);
  }

  /** Every space that is there after a step on a space has the kernel's half. */
  lemma StepShares(s: System, a: Step, t: System, jd: Id)
    requires SystemInv(s) && Happens(s, a, t) && jd in t.spaces
    ensures SharesKernel(t, t.spaces[jd])
  {
    if jd == a.id {
      assert !a.Drop? by { hide SystemInv, OwnStep; }
      hide SystemInv, Happens, SharesKernel;
      if a.Create? {
        CreateShares(s, a, t);
      } else {
        UseSharesOwn(s, a, t);
      }
    } else {
      StepOthers(s, a, t, jd);
      if a.Drop? {
        assert SharesKernel(s, s.spaces[jd]);
        hide SystemInv, Shares;
        SharesStill(s, t, s.spaces[jd]);
      } else {
        hide SystemInv, Happens, SharesKernel;
        if a.Create? {
          CreateSharesOther(s, a, t, jd);
        } else {
          UseSharesOther(s, a, t, jd);
        }
      }
    }
  }

  lemma StepKeepsInv(s: System, a: Step, t: System)
    requires SystemInv(s) && Happens(s, a, t)
    ensures SystemInv(t)
  {
    hide Happens, KernelInOrder, SpaceInOrder, Apart, SameMap, SharesKernel;
    StepKeepsKernel(s, a, t);
    if a.id in t.spaces {
      StepOwn(s, a, t);
    }
    forall jd | jd in t.spaces && jd != a.id
      ensures jd in s.spaces && t.spaces[jd] == s.spaces[jd] && SpaceInOrder(t, t.spaces[jd])
    {
      StepOthers(s, a, t, jd);
      StepIsolates(s, a, t, jd);
    }
    forall jd | jd in t.spaces
      ensures SharesKernel(t, t.spaces[jd])
    {
      StepShares(s, a, t, jd);
    }
  }

  // ---------------------------------------------------------------- a call of the kernel

  /** Any two roots share the kernel half. */
  lemma TreesShare(s: System, u: Option<Id>, v: Option<Id>)
    requires SystemInv(s) && (u.Some? ==> u.value in s.spaces) && (v.Some? ==> v.value in s.spaces)
    ensures Shares(s.mem, TreeOf(s, u).root, TreeOf(s, v).root, TreeOf(s, u).pos, TreeOf(s, v).pos)
  {
    hide SystemInv, InKernelHalf, Read;
    if u.Some? {
      SpaceOf(s, u.value);
    }
    if v.Some? {
      SpaceOf(s, v.value);
    }
  }

  lemma TreeInOrder(s: System, v: Option<Id>)
    requires SystemInv(s) && (v.Some? ==> v.value in s.spaces)
    ensures var tree := TreeOf(s, v);
            IsTree(s.mem, tree.root, tree.pos) && forall f :: f in tree.pos ==> f !in s.free
  {
    hide SystemInv, IsTree, Shares;
    if v.Some? {
      SpaceOf(s, v.value);
    } else {
      KernelOf(s);
    }
  }

  lemma SharedOwnLower(a: Snapshot, root: Frame, other: Frame, spos: Positions)
    requires Shares(a.mem, root, other, a.pos, spos) && forall f :: f in spos ==> f !in a.free
    ensures OwnLower(a, spos)
  {
    hide InKernelHalf, Read;
  }

  /** What a kernel call leaves of the tree of root number `v`: a tree that shares the half, changed at `path` only. */
  lemma KernelSeen(s: System, e: Event, t: System, v: Option<Id>)
    requires SystemInv(s) && e.KernelCall? && KernelHappens(s, e, t) && (v.Some? ==> v.value in s.spaces)
    ensures var via, tree := TreeOf(s, e.via), TreeOf(s, v);
            && IsTree(t.mem, tree.root, Graft(tree.pos, e.pos))
            && Shares(t.mem, via.root, tree.root, e.pos, Graft(tree.pos, e.pos))
            && forall p: seq<Index> :: |p| == 4 && p != e.path ==>
                 LeafAt(t.mem, tree.root, p) == LeafAt(s.mem, tree.root, p)
  {
    var via, tree := TreeOf(s, e.via), TreeOf(s, v);
    var a, b := SeenByKernel(s, via.pos, s.kernelFrames), SeenByKernel(t, e.pos, e.frames);
    hide SystemInv, IsTree, MapperCall, Graft, GraftAll, LeafAt, Shares, OwnLower, TreeOf;
    TreesShare(s, e.via, v);
    TreeInOrder(s, e.via);
    TreeInOrder(s, v);
    SharedOwnLower(a, via.root, tree.root, tree.pos);
    SeenThrough(a, b, via.root, e.path, tree.root, tree.pos);
  }

  /** The kernel half after the call: tables it had before, known to every root, or tables that were free. */
  lemma KernelTables(s: System, e: Event, t: System, v: Option<Id>, f: Frame)
    requires SystemInv(s) && e.KernelCall? && KernelHappens(s, e, t) && (v.Some? ==> v.value in s.spaces)
    requires f in e.pos && InKernelHalf(e.pos[f])
    ensures f !in t.free
    ensures f in s.free || (f in TreeOf(s, v).pos && InKernelHalf(TreeOf(s, v).pos[f]))
  {
    hide SystemInv, Graft, GraftAll, TreeOf, IsTree, Within, LeafAt, Moved, InKernelHalf, Read;
    var via := TreeOf(s, e.via);
    var a, b := SeenByKernel(s, via.pos, s.kernelFrames), SeenByKernel(t, e.pos, e.frames);
    TreesShare(s, e.via, v);
    NewTables(a, b, via.root, e.path, f);
  }

  lemma KernelFields(s: System, e: Event, t: System)
    requires e.KernelCall? && KernelHappens(s, e, t)
    ensures t.kernel == s.kernel && t.kernelPos == Graft(s.kernelPos, e.pos) && t.spaces.Keys == s.spaces.Keys
    ensures forall id :: id in s.spaces ==> t.spaces[id] == s.spaces[id].(pos := Graft(s.spaces[id].pos, e.pos))
  {
    hide MapperCall, Graft, TreeOf, InKernelHalf;
  }

  lemma KernelTakesFree(s: System, e: Event, t: System)
    requires e.KernelCall? && KernelHappens(s, e, t)
    ensures t.free <= s.free && forall f :: f in t.free || f in t.kernelFrames <==> f in s.free || f in s.kernelFrames
  {
    hide IsTree, Within, LeafAt, Graft, GraftAll, TreeOf;
  }

  lemma KernelKeepsKernel(s: System, e: Event, t: System)
    requires SystemInv(s) && e.KernelCall? && KernelHappens(s, e, t)
    ensures KernelInOrder(t)
  {
    hide SystemInv, GraftAll, IsTree, MapperCall, LeafAt, Shares;
    KernelSeen(s, e, t, None);
    KernelTakesFree(s, e, t);
    KernelOf(s);
    forall f | f in t.free
      ensures f !in t.kernelPos
    {
      if f in e.pos && InKernelHalf(e.pos[f]) {
        KernelTables(s, e, t, None, f);
      }
    }
  }

  /** Nobody's frame became a table of the kernel half. */
  lemma KernelTableNotOwned(s: System, e: Event, t: System, id: Id, f: Frame)
    requires SystemInv(s) && e.KernelCall? && KernelHappens(s, e, t) && id in s.spaces
    requires f in e.pos && InKernelHalf(e.pos[f])
    ensures !Owns(s.spaces[id], f)
  {
    var sp := s.spaces[id];
    hide SystemInv, KernelHappens, SpaceInOrder, SharesKernel;
    SpaceOf(s, id);
    KernelTables(s, e, t, None, f);
    if f in s.free {
      if Owns(sp, f) {
        OwnedNotFree(s, sp, f);
      }
    } else {
      NotOwned(s, sp, f);
    }
  }

  lemma KernelKeepsOwner(s: System, e: Event, t: System, id: Id)
    requires SystemInv(s) && e.KernelCall? && KernelHappens(s, e, t) && id in s.spaces
    ensures var sp := s.spaces[id]; OwnsUserHalf(Graft(sp.pos, e.pos), sp.root, sp.frames, t.free)
  {
    hide SystemInv, KernelHappens, IsTree, SharesKernel, Addressable, Graft;
    var sp := s.spaces[id];
    SpaceOf(s, id);
    KernelTakesFree(s, e, t);
    forall f | f in Graft(sp.pos, e.pos) && f != sp.root
      ensures Graft(sp.pos, e.pos)[f] != []
      ensures if InKernelHalf(Graft(sp.pos, e.pos)[f]) then f !in sp.frames && f !in t.free else f in sp.frames
    {
      if f in e.pos && InKernelHalf(e.pos[f]) {
        KernelTables(s, e, t, None, f);
        KernelTableNotOwned(s, e, t, id, f);
      }
    }
  }

  lemma KernelKeepsSpace(s: System, e: Event, t: System, id: Id)
    requires SystemInv(s) && e.KernelCall? && KernelHappens(s, e, t) && id in s.spaces
    ensures id in t.spaces && SpaceInOrder(t, t.spaces[id])
  {
    hide SystemInv, KernelHappens, IsTree, SharesKernel, Shares, LeafAt, OwnsUserHalf, Graft, InKernelHalf;
    var sp := s.spaces[id];
    KernelFields(s, e, t);
    KernelSeen(s, e, t, Some(id));
    KernelTakesFree(s, e, t);
    KernelKeepsOwner(s, e, t, id);
    SpaceOf(s, id);
    forall f
      ensures Owns(t.spaces[id], f) == Owns(sp, f)
    {
    }
    forall f | f in t.free
      ensures f !in Graft(sp.pos, e.pos)
    {
      if f in e.pos && InKernelHalf(e.pos[f]) {
        KernelTables(s, e, t, None, f);
      }
    }
    forall f | f in t.kernelPos
      ensures !Owns(sp, f)
    {
      if f in e.pos && InKernelHalf(e.pos[f]) {
        KernelTableNotOwned(s, e, t, id, f);
      }
    }
  }

  lemma KernelKeepsApart(s: System, e: Event, t: System, id: Id, jd: Id)
    requires SystemInv(s) && e.KernelCall? && KernelHappens(s, e, t) && id in s.spaces && jd in s.spaces && id != jd
    ensures id in t.spaces && jd in t.spaces && Apart(t.spaces[id], t.spaces[jd])
  {
    hide SystemInv, KernelHappens, Graft, InKernelHalf, Apart;
    var sp, other := s.spaces[id], s.spaces[jd];
    KernelFields(s, e, t);
    PairOf(s, id, jd);
    forall f | f in e.pos && InKernelHalf(e.pos[f])
      ensures !Owns(other, f)
    {
      KernelTableNotOwned(s, e, t, jd, f);
    }
    GraftApart(sp, other, e.pos);
  }

  /** Sharing the kernel's new tables does not make one space own what another uses. */
  lemma GraftApart(a: Space, b: Space, pos: Positions)
    requires Apart(a, b) && forall f :: f in pos && InKernelHalf(pos[f]) ==> !Owns(b, f)
    ensures Apart(a.(pos := Graft(a.pos, pos)), b.(pos := Graft(b.pos, pos)))
  {
    hide InKernelHalf;
    var x, y := a.(pos := Graft(a.pos, pos)), b.(pos := Graft(b.pos, pos));
    forall f | f in x.pos || Owns(x, f)
      ensures !Owns(y, f)
    {
      assert Owns(x, f) <==> Owns(a, f);
      assert Owns(y, f) <==> Owns(b, f);
    }
  }

  lemma KernelShares(s: System, e: Event, t: System, id: Id)
    requires SystemInv(s) && e.KernelCall? && KernelHappens(s, e, t) && id in s.spaces && id in t.spaces
    ensures SharesKernel(t, t.spaces[id])
  {
    hide SystemInv, KernelHappens, IsTree, LeafAt, Graft, InKernelHalf, Read, Shares;
    KernelVia(s, e, t);
    var sp, via := s.spaces[id], TreeOf(s, e.via).root;
    KernelFields(s, e, t);
    KernelSeen(s, e, t, None);
    KernelSeen(s, e, t, Some(id));
    SharesBoth(t.mem, via, e.pos, s.kernel, t.kernelPos, sp.root, t.spaces[id].pos);
  }

  lemma KernelVia(s: System, e: Event, t: System)
    requires e.KernelCall? && KernelHappens(s, e, t)
    ensures e.via.Some? ==> e.via.value in s.spaces
  {
  }

  lemma SharesBoth(mem: Memory, r: Frame, rpos: Positions, a: Frame, apos: Positions, b: Frame, bpos: Positions)
    requires Shares(mem, r, a, rpos, apos) && Shares(mem, r, b, rpos, bpos)
    ensures Shares(mem, a, b, apos, bpos)
  {
    hide InKernelHalf, Read;
  }

  lemma KernelKeepsInv(s: System, e: Event, t: System)
    requires SystemInv(s) && e.KernelCall? && KernelHappens(s, e, t)
    ensures SystemInv(t)
  {
    hide KernelHappens, KernelInOrder, SpaceInOrder, Apart, SharesKernel, Graft;
    KernelFields(s, e, t);
    KernelKeepsKernel(s, e, t);
    forall id | id in t.spaces
      ensures SpaceInOrder(t, t.spaces[id]) && SharesKernel(t, t.spaces[id])
    {
      KernelKeepsSpace(s, e, t, id);
      KernelShares(s, e, t, id);
    }
    forall id, jd | id in t.spaces && jd in t.spaces && id != jd
      ensures Apart(t.spaces[id], t.spaces[jd])
    {
      KernelKeepsApart(s, e, t, id, jd);
    }
  }

  // ---------------------------------------------------------------- every run

  lemma EventKeepsInv(s: System, e: Event, t: System)
    requires SystemInv(s) && Moves(s, e, t)
    ensures SystemInv(t)
  {
    hide SystemInv, Happens, KernelHappens;
    match e
    case OnSpace(a) => StepKeepsInv(s, a, t);
    case KernelCall(_, _, _, _) => KernelKeepsInv(s, e, t);
  }

  ghost predicate IsRun(ss: seq<System>, es: seq<Event>) {
    && |ss| == |es| + 1
    && forall i {:trigger es[i]} :: 0 <= i < |es| ==> Moves(ss[i], es[i], ss[i + 1])
  }

  /** In every interleaving every space stays in order, the spaces stay apart, and all share the kernel half. */
  lemma {:induction false} RunsKeepInv(ss: seq<System>, es: seq<Event>, i: nat)
    requires IsRun(ss, es) && SystemInv(ss[0]) && i < |ss|
    ensures SystemInv(ss[i])
  {
    hide SystemInv, Moves;
    if i > 0 {
      RunsKeepInv(ss, es, i - 1);
      EventKeepsInv(ss[i - 1], es[i - 1], ss[i]);
    }
  }

  /** In every state of every interleaving, each space maps every kernel page exactly as the kernel does. */
  lemma KernelHalfSeen(ss: seq<System>, es: seq<Event>, i: nat, id: Id, p: seq<Index>)
    requires IsRun(ss, es) && SystemInv(ss[0]) && i < |ss| && id in ss[i].spaces && |p| == 4 && InKernelHalf(p)
    ensures LeafAt(ss[i].mem, ss[i].spaces[id].root, p) == LeafAt(ss[i].mem, ss[i].kernel, p)
  {
    var s := ss[i];
    hide SystemInv, Moves, LeafAt, Shares;
    RunsKeepInv(ss, es, i);
    SpaceOf(s, id);
    SharedView(s.mem, s.kernel, s.spaces[id].root, s.kernelPos, s.spaces[id].pos, p);
  }

  /** The event remaps the page at `path` of this space: a call of its own, or of the kernel. */
  ghost predicate OnPage(e: Event, id: Id, path: seq<Index>) {
    match e
    case OnSpace(a) => a.Use? && a.id == id && a.path == path
    case KernelCall(_, p, _, _) => p == path
  }

  /** The space was there throughout, and no call of its own or of the kernel was on the page at `path`. */
  ghost predicate Untouched(ss: seq<System>, es: seq<Event>, i: nat, j: nat, id: Id, path: seq<Index>)
    requires i <= j < |ss| == |es| + 1
  {
    && (forall k :: i <= k <= j ==> id in ss[k].spaces)
    && (forall k :: i <= k < j ==> !OnPage(es[k], id, path))
  }

  lemma StepKeepsPage(s: System, a: Step, t: System, id: Id, path: seq<Index>)
    requires SystemInv(s) && Happens(s, a, t) && id in s.spaces && id in t.spaces && |path| == 4
    requires !(a.Use? && a.id == id && a.path == path)
    ensures t.spaces[id].root == s.spaces[id].root
    ensures LeafAt(t.mem, t.spaces[id].root, path) == LeafAt(s.mem, s.spaces[id].root, path)
  {
    if id != a.id {
      hide Happens, SystemInv, LeafAt;
      StepOthers(s, a, t, id);
      StepIsolates(s, a, t, id);
    } else {
      hide SystemInv, InOrder, Outside, Moved, SameKernelTables, LeafAt;
    }
  }

  lemma KernelKeepsPage(s: System, e: Event, t: System, id: Id, path: seq<Index>)
    requires SystemInv(s) && e.KernelCall? && KernelHappens(s, e, t) && id in s.spaces && |path| == 4 && e.path != path
    ensures id in t.spaces && t.spaces[id].root == s.spaces[id].root
    ensures LeafAt(t.mem, t.spaces[id].root, path) == LeafAt(s.mem, s.spaces[id].root, path)
  {
    hide SystemInv, KernelHappens, LeafAt, IsTree, Shares, Graft;
    KernelFields(s, e, t);
    KernelSeen(s, e, t, Some(id));
  }

  lemma EventKeepsPage(s: System, e: Event, t: System, id: Id, path: seq<Index>)
    requires SystemInv(s) && Moves(s, e, t) && id in s.spaces && id in t.spaces && |path| == 4 && !OnPage(e, id, path)
    ensures t.spaces[id].root == s.spaces[id].root
    ensures LeafAt(t.mem, t.spaces[id].root, path) == LeafAt(s.mem, s.spaces[id].root, path)
  {
    hide SystemInv, Happens, KernelHappens, LeafAt;
    match e
    case OnSpace(a) => StepKeepsPage(s, a, t, id, path);
    case KernelCall(_, _, _, _) => KernelKeepsPage(s, e, t, id, path);
  }

  /**
   Isolation over runs: a page of a space changes only through a call on that page, of the space itself or,
   in the kernel half, of the kernel.
   */
  lemma {:induction false} OnlyOwnCallsRemap(ss: seq<System>, es: seq<Event>, i: nat, j: nat, id: Id,
                                             path: seq<Index>)
    requires IsRun(ss, es) && SystemInv(ss[0]) && i <= j < |ss|
    requires |path| == 4 && Untouched(ss, es, i, j, id, path)
    ensures ss[j].spaces[id].root == ss[i].spaces[id].root
    ensures LeafAt(ss[j].mem, ss[j].spaces[id].root, path) == LeafAt(ss[i].mem, ss[i].spaces[id].root, path)
    decreases j - i
  {
    hide SystemInv, Moves, LeafAt, OnPage;
    if i < j {
      RunsKeepInv(ss, es, j - 1);
      OnlyOwnCallsRemap(ss, es, i, j - 1, id, path);
      EventKeepsPage(ss[j - 1], es[j - 1], ss[j], id, path);
    }
  }

  lemma EventKeepsKernelPage(s: System, e: Event, t: System, path: seq<Index>)
    requires SystemInv(s) && Moves(s, e, t) && |path| == 4 && (e.KernelCall? ==> e.path != path)
    ensures t.kernel == s.kernel && LeafAt(t.mem, s.kernel, path) == LeafAt(s.mem, s.kernel, path)
  {
    assert t.kernel == s.kernel by { hide SystemInv, OwnStep, MapperCall; }
    hide SystemInv, Happens, KernelHappens, KernelInOrder, LeafAt, IsTree, Shares, Graft;
    match e
    case OnSpace(a) => StepKeepsKernel(s, a, t);
    case KernelCall(_, _, _, _) => KernelSeen(s, e, t, None);
  }

  /** A page of the kernel changes only through the kernel's own calls on it, whatever the spaces do. */
  lemma {:induction false} OnlyKernelCallsRemap(ss: seq<System>, es: seq<Event>, i: nat, j: nat, path: seq<Index>)
    requires IsRun(ss, es) && SystemInv(ss[0]) && i <= j < |ss| && |path| == 4
    requires forall k :: i <= k < j && es[k].KernelCall? ==> es[k].path != path
    ensures ss[j].kernel == ss[i].kernel
    ensures LeafAt(ss[j].mem, ss[j].kernel, path) == LeafAt(ss[i].mem, ss[i].kernel, path)
    decreases j - i
  {
    hide SystemInv, Moves, LeafAt;
    if i < j {
      RunsKeepInv(ss, es, j - 1);
      OnlyKernelCallsRemap(ss, es, i, j - 1, path);
      EventKeepsKernelPage(ss[j - 1], es[j - 1], ss[j], path);
    }
  }

  // ---------------------------------------------------------------- frames

  /** A frame is free, belongs to a space, or was taken for a table of the kernel half. */
  ghost predicate Accounted(s: System, f: Frame) {
    f in s.free || f in s.kernelFrames || exists id :: id in s.spaces && Owns(s.spaces[id], f)
  }

  lemma AccountedUse(s: System, a: Step, t: System, f: Frame)
    requires a.Use? && Happens(s, a, t)
    ensures Accounted(t, f) <==> Accounted(s, f)
  {
    UseTakesFree(s, a, t);
    hide OwnStep, Owns;
    assert a.id in t.spaces && a.id in s.spaces;
    if id :| id in s.spaces && Owns(s.spaces[id], f) {
      assert id != a.id ==> id in t.spaces && Owns(t.spaces[id], f);
    }
    if id :| id in t.spaces && Owns(t.spaces[id], f) {
      assert id != a.id ==> id in s.spaces && Owns(s.spaces[id], f);
    }
  }

  lemma AccountedCreate(s: System, a: Step, t: System, f: Frame)
    requires a.Create? && Happens(s, a, t)
    ensures Accounted(t, f) <==> Accounted(s, f)
  {
    assert a.id in t.spaces && Owns(t.spaces[a.id], a.root);
    if id :| id in s.spaces && Owns(s.spaces[id], f) {
      assert id in t.spaces && Owns(t.spaces[id], f);
    }
  }

  lemma AccountedDrop(s: System, a: Step, t: System, f: Frame)
    requires a.Drop? && Happens(s, a, t)
    ensures Accounted(t, f) <==> Accounted(s, f)
  {
    if id :| id in s.spaces && Owns(s.spaces[id], f) {
      assert id != a.id ==> id in t.spaces && Owns(t.spaces[id], f);
    }
    if id :| id in t.spaces && Owns(t.spaces[id], f) {
      assert id in s.spaces && Owns(s.spaces[id], f);
    }
  }

  lemma AccountedKernel(s: System, e: Event, t: System, f: Frame)
    requires e.KernelCall? && KernelHappens(s, e, t)
    ensures Accounted(t, f) <==> Accounted(s, f)
  {
    KernelTakesFree(s, e, t);
    hide MapperCall, Graft;
    if id :| id in s.spaces && Owns(s.spaces[id], f) {
      assert id in t.spaces && Owns(t.spaces[id], f);
    }
    if id :| id in t.spaces && Owns(t.spaces[id], f) {
      assert id in s.spaces && Owns(s.spaces[id], f);
    }
  }

  lemma AccountedStep(s: System, a: Step, t: System, f: Frame)
    requires Happens(s, a, t)
    ensures Accounted(t, f) <==> Accounted(s, f)
  {
    hide Happens, Accounted;
    match a
    case Create(_, _) => AccountedCreate(s, a, t, f);
    case Use(_, _, _, _) => AccountedUse(s, a, t, f);
    case Drop(_) => AccountedDrop(s, a, t, f);
  }

  /** Frames only move between the free ones, the spaces and the kernel's tables, in every interleaving. */
  lemma {:induction false} FramesConserved(ss: seq<System>, es: seq<Event>, i: nat, f: Frame)
    requires IsRun(ss, es) && i < |ss|
    ensures Accounted(ss[i], f) <==> Accounted(ss[0], f)
  {
    hide Happens, KernelHappens, Accounted;
    if i > 0 {
      FramesConserved(ss, es, i - 1, f);
      match es[i - 1]
      case OnSpace(a) => AccountedStep(ss[i - 1], a, ss[i], f);
      case KernelCall(_, _, _, _) => AccountedKernel(ss[i - 1], es[i - 1], ss[i], f);
    }
  }

  /** Once every space is dropped, the frames free at the start are free, but for those in the kernel's tables. */
  lemma NoFrameLeaks(ss: seq<System>, es: seq<Event>, i: nat)
    requires IsRun(ss, es) && i < |ss| && ss[0].spaces == map[] && ss[i].spaces == map[] && ss[0].kernelFrames == []
    ensures ss[0].free == ss[i].free + set f | f in ss[i].kernelFrames
  {
    hide IsRun;
    forall f
      ensures f in ss[0].free <==> f in ss[i].free || f in ss[i].kernelFrames
    {
      FramesConserved(ss, es, i, f);
    }
  }

  /** A memory with only the kernel's tables in it satisfies the invariant. */
  lemma StartInv(s: System)
    requires KernelInOrder(s) && s.spaces == map[]
    ensures SystemInv(s)
  {
  }
}
