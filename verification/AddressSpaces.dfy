/**
 The address space of a process (kernel/src/process.rs): a PML4 whose upper half is the kernel's and
 whose lower half is built by the mapper, with every frame it takes recorded so that dropping the
 space gives back exactly those.
 */
module AddressSpaces {
  import opened Seqs
  import opened Paging
  import opened PageMapper

  const NO_EXECUTE: nat := 63
  const WRITE_THROUGH: nat := 3
  const NO_CACHE: nat := 4

  /** Addresses from here up do not belong to the user half. */
  const USER_ADDRESS_LIMIT: nat := 0x8000_0000_0000

  // ---------------------------------------------------------------- the two halves

  /** The PML4 index of an address below the limit is in the lower half. */
  lemma UserHalf(v: Virt)
    requires v < USER_ADDRESS_LIMIT
    ensures 0 <= Path(v)[0] < 256
  {
  }

  /** Tables that are reached through the upper half of the PML4. */
  predicate InKernelHalf(p: seq<Index>) {
    p != [] && 256 <= p[0] < 512
  }

  /** The upper half of a PML4. */
  function UpperHalf(table: Table): Table {
    map i | i in table && 256 <= i < 512 :: table[i]
  }

  /** The tables of a new space: its root, and the kernel's tables for the upper half. */
  ghost function ShareUpper(pos: Positions, root: Frame): Positions {
    (map f | f in pos && InKernelHalf(pos[f]) :: pos[f])[root := []]
  }

  lemma ReadUpper(mem: Memory, kernel: Frame, root: Frame, f: Frame, i: Index)
    requires kernel in mem && root != kernel
    ensures Read(mem[root := UpperHalf(mem[kernel])], f, i) ==
            if f != root then Read(mem, f, i) else if 256 <= i < 512 then Read(mem, kernel, i) else EMPTY
  {
  }

  /** A PML4 that copies the upper half of the kernel's roots a tree of its own. */
  lemma NewIsTree(mem: Memory, kernel: Frame, pos: Positions, root: Frame)
    requires IsTree(mem, kernel, pos) && root !in pos
    ensures IsTree(mem[root := UpperHalf(mem[kernel])], root, ShareUpper(pos, root))
  {
    var mem', pos' := mem[root := UpperHalf(mem[kernel])], ShareUpper(pos, root);
    forall f, i | f in pos'
      ensures Leads(mem', pos', f, i)
    {
      ReadUpper(mem, kernel, root, f, i);
      if f == root {
        assert Leads(mem, pos, kernel, i);
      } else {
        assert Leads(mem, pos, f, i);
      }
    }
    forall g | g in pos' && g != root
      ensures pos'[g] != [] && Hangs(mem', pos', g)
    {
      NewHangs(mem, kernel, pos, root, g);
    }
  }

  lemma NewHangs(mem: Memory, kernel: Frame, pos: Positions, root: Frame, g: Frame)
    requires IsTree(mem, kernel, pos) && root !in pos && g in pos && InKernelHalf(pos[g])
    ensures Hangs(mem[root := UpperHalf(mem[kernel])], ShareUpper(pos, root), g)
  {
    var mem', pos' := mem[root := UpperHalf(mem[kernel])], ShareUpper(pos, root);
    var p := pos[g];
    var f := Parent(mem, kernel, pos, g);
    var h := if |p| == 1 then root else f;
    ReadUpper(mem, kernel, root, f, p[|p| - 1]);
    ReadUpper(mem, kernel, root, root, p[|p| - 1]);
    if |p| == 1 {
      OnlyRootIsTop(mem, kernel, pos, f);
    }
    assert h in pos' && pos'[h] == p[..|p| - 1] && Points(mem', h, p[|p| - 1], g);
  }

  lemma OnlyRootIsTop(mem: Memory, root: Frame, pos: Positions, f: Frame)
    requires IsTree(mem, root, pos) && f in pos && pos[f] == []
    ensures f == root
  {
  }

  /** Tables whose contents did not change keep the tree they form and every translation through it. */
  lemma {:induction false} FramedLeaf(mem: Memory, mem': Memory, root: Frame, pos: Positions,
                                      table: Frame, path: seq<Index>)
    requires IsTree(mem, root, pos) && table in pos && |pos[table]| + |path| == 4
    requires forall f :: f in pos ==> f in mem' && mem'[f] == mem[f]
    ensures LeafAt(mem', table, path) == LeafAt(mem, table, path)
    decreases |path|
  {
    var e := Read(mem, table, path[0]);
    assert Leads(mem, pos, table, path[0]);
    if Present(e) && |path| > 1 && !IsHuge(e) {
      FramedLeaf(mem, mem', root, pos, e.frame, path[1..]);
    }
  }

  lemma FramedTree(mem: Memory, mem': Memory, root: Frame, pos: Positions)
    requires IsTree(mem, root, pos)
    requires forall f :: f in pos ==> f in mem' && mem'[f] == mem[f]
    ensures IsTree(mem', root, pos) && SameMap(mem, mem', root)
  {
    forall f, i | f in pos
      ensures Leads(mem', pos, f, i)
    {
      assert Leads(mem, pos, f, i);
    }
    forall g | g in pos && g != root
      ensures Hangs(mem', pos, g)
    {
      var f := Parent(mem, root, pos, g);
      assert Points(mem', f, pos[g][|pos[g]| - 1], g);
    }
    forall p: seq<Index> | |p| == 4
      ensures LeafAt(mem', root, p) == LeafAt(mem, root, p)
    {
      FramedLeaf(mem, mem', root, pos, root, p);
    }
  }

  // ---------------------------------------------------------------- what a space owns

  /** Only the space's own tables, and frames that were free, changed. */
  ghost predicate Outside(mem: Memory, mem': Memory, root: Frame, frames: seq<Frame>, free: set<Frame>) {
    forall f :: f in mem && f != root && f !in frames && f !in free ==> f in mem' && mem'[f] == mem[f]
  }

  /** Every page of the kernel half is mapped as before. */
  ghost predicate SameKernelHalf(mem: Memory, mem': Memory, root: Frame) {
    forall p: seq<Index> :: |p| == 4 && InKernelHalf(p) ==> LeafAt(mem', root, p) == LeafAt(mem, root, p)
  }

  /** The tables of the user half are frames of the space; those of the kernel half are nobody's. */
  ghost predicate OwnsUserHalf(pos: Positions, root: Frame, frames: seq<Frame>, free: set<Frame>) {
    && root !in frames && root !in free
    && forall f :: f in pos && f != root ==>
         pos[f] != [] && (if InKernelHalf(pos[f]) then f !in frames && f !in free else f in frames)
  }

  /** A call that writes only on a user path stays inside the space and leaves the kernel half alone. */
  lemma UserCall(a: Snapshot, b: Snapshot, root: Frame, path: seq<Index>)
    requires |path| == 4 && 0 <= path[0] < 256
    requires IsTree(a.mem, root, a.pos) && IsTree(b.mem, root, b.pos) && OwnsUserHalf(a.pos, root, a.frames, a.free)
    requires Within(a.mem, b.mem, a.pos, b.pos, a.free, path) && Moved(a.frames, a.free, b.frames, b.free)
    requires forall f :: f in b.free ==> f !in b.pos
    ensures OwnsUserHalf(b.pos, root, b.frames, b.free)
    ensures Outside(a.mem, b.mem, root, a.frames, a.free)
  {
    forall f | f in a.mem && f != root && f !in a.frames && f !in a.free
      ensures f in b.mem && b.mem[f] == a.mem[f]
    {
      if f in a.pos {
        assert InKernelHalf(a.pos[f]);
      }
    }
  }

  lemma UserCallKernelHalf(mem: Memory, mem': Memory, root: Frame, path: seq<Index>, leaf: Option<Leaf>)
    requires |path| == 4 && 0 <= path[0] < 256
    requires SameMap(mem, mem', root) || Remapped(mem, mem', root, path, leaf)
    ensures SameKernelHalf(mem, mem', root)
  {
    forall p: seq<Index> | |p| == 4 && InKernelHalf(p)
      ensures LeafAt(mem', root, p) == LeafAt(mem, root, p)
    {
      assert !(path <= p);
    }
  }

  lemma OutsideTrans(a: Snapshot, b: Snapshot, c: Snapshot, root: Frame)
    requires Outside(a.mem, b.mem, root, a.frames, a.free) && Moved(a.frames, a.free, b.frames, b.free)
    requires Outside(b.mem, c.mem, root, b.frames, b.free) && Moved(b.frames, b.free, c.frames, c.free)
    requires SameKernelHalf(a.mem, b.mem, root) && SameKernelHalf(b.mem, c.mem, root)
    ensures Outside(a.mem, c.mem, root, a.frames, a.free) && Moved(a.frames, a.free, c.frames, c.free)
    ensures SameKernelHalf(a.mem, c.mem, root)
  {
  }

  // ---------------------------------------------------------------- address spaces

  /** A space in order: a tree of its own tables and the kernel's, disjoint from the free frames. */
  ghost predicate InOrder(a: Snapshot, root: Frame) {
    && IsTree(a.mem, root, a.pos) && (forall f :: f in a.free ==> f !in a.pos && 0 <= f < 0x100_0000_0000)
    && Ledger(a.frames, a.free) && OwnsUserHalf(a.pos, root, a.frames, a.free)
  }

  /** One call on a space: from `a` to `b` at most its page at `path` was remapped, and no table of others changed. */
  ghost predicate OwnStep(a: Snapshot, b: Snapshot, root: Frame, path: seq<Index>) {
    && InOrder(b, root) && Outside(a.mem, b.mem, root, a.frames, a.free) && Moved(a.frames, a.free, b.frames, b.free)
    && SameKernelTables(a.pos, b.pos)
    && (forall i :: 256 <= i < 512 ==> Read(b.mem, root, i) == Read(a.mem, root, i))
    && forall p: seq<Index> :: |p| == 4 && p != path ==> LeafAt(b.mem, root, p) == LeafAt(a.mem, root, p)
  }

  /** The kernel half has the same tables. */
  ghost predicate SameKernelTables(pos: Positions, pos': Positions) {
    && (forall f :: f in pos' && InKernelHalf(pos'[f]) ==> f in pos && pos[f] == pos'[f])
    && (forall f :: f in pos && InKernelHalf(pos[f]) ==> f in pos' && pos'[f] == pos[f])
  }

  lemma OwnStepHolds(a: Snapshot, b: Snapshot, root: Frame, path: seq<Index>, leaf: Option<Leaf>)
    requires |path| == 4 && 0 <= path[0] < 256 && InOrder(b, root) && root in a.pos && a.pos[root] == []
    requires Within(a.mem, b.mem, a.pos, b.pos, a.free, path) && Moved(a.frames, a.free, b.frames, b.free)
    requires Outside(a.mem, b.mem, root, a.frames, a.free)
    requires SameMap(a.mem, b.mem, root) || Remapped(a.mem, b.mem, root, path, leaf)
    ensures OwnStep(a, b, root, path)
  {
    hide InOrder, Outside, Moved;
    forall p: seq<Index> | |p| == 4 && p != path
      ensures LeafAt(b.mem, root, p) == LeafAt(a.mem, root, p)
    {
      PrefixIsWhole(path, p);
    }
    forall i | 256 <= i < 512
      ensures Read(b.mem, root, i) == Read(a.mem, root, i)
    {
      assert !([i] <= path);
      assert a.pos[root] + [i] == [i];
    }
  }

  /** A call that first takes a frame, and one that is refused. */
  lemma OwnStepAfter(a: Snapshot, b: Snapshot, c: Snapshot, root: Frame, path: seq<Index>)
    requires b == a.(free := b.free, frames := b.frames) && Moved(a.frames, a.free, b.frames, b.free)
    requires OwnStep(b, c, root, path)
    ensures OwnStep(a, c, root, path)
  {
    hide InOrder;
  }

  lemma OwnStepNone(a: Snapshot, root: Frame, path: seq<Index>)
    requires InOrder(a, root)
    ensures OwnStep(a, a, root, path)
  {
    hide InOrder;
  }

  /** Removing a page of the user half is a step of the space's own. */
  lemma UnmapIsOwn(a: Snapshot, b: Snapshot, root: Frame, path: seq<Index>)
    requires |path| == 4 && 0 <= path[0] < 256 && InOrder(a, root) && InOrder(b, root) && b == a.(mem := b.mem)
    requires Within(a.mem, b.mem, a.pos, a.pos, a.free, path)
    requires b.mem == a.mem || Remapped(a.mem, b.mem, root, path, None)
    ensures OwnStep(a, b, root, path)
  {
    hide Within, LeafAt;
    UserCall(a, b, root, path);
    OwnStepHolds(a, b, root, path, None);
  }

  /** Steps on user paths that took no frame, one after another. */
  lemma OwnStepTrans(a: Snapshot, b: Snapshot, c: Snapshot, root: Frame, path: seq<Index>)
    requires Outside(a.mem, b.mem, root, a.frames, a.free) && SameKernelHalf(a.mem, b.mem, root)
    requires b == a.(mem := b.mem) && c == a.(mem := c.mem) && OwnStep(b, c, root, path)
    requires |path| == 4 && 0 <= path[0] < 256
    ensures Outside(a.mem, c.mem, root, a.frames, a.free) && SameKernelHalf(a.mem, c.mem, root)
  {
    hide InOrder, LeafAt;
  }

  /** The pages at these paths are unmapped, and no other page changed. */
  ghost predicate PagesCleared(a: Memory, b: Memory, root: Frame, paths: seq<seq<Index>>) {
    forall p: seq<Index> :: |p| == 4 ==> LeafAt(b, root, p) == if p in paths then None else LeafAt(a, root, p)
  }

  /** The first `n` pages of a range are unmapped and nothing else changed; a user range spares everybody else. */
  ghost predicate Cleared(a: Snapshot, mem: Memory, root: Frame, base: Virt, len: nat, n: nat) {
    && PagesCleared(a.mem, mem, root, Paths(base, n))
    && (base + len <= USER_ADDRESS_LIMIT ==>
          Outside(a.mem, mem, root, a.frames, a.free) && SameKernelHalf(a.mem, mem, root))
  }

  /** Why `unmap_user_shared` stops at the page of `v`; a page that is not mapped is no reason. */
  function UnmapStop(leaf: Option<Leaf>, v: Virt): Result<()> {
    if v % 0x1000 != 0 then Err(Unaligned(v))
    else if leaf.Some? && leaf.value.level > 1 then Err(HugePageInWay(v))
    else Ok(())
  }

  lemma ClearedNone(a: Snapshot, root: Frame, base: Virt, len: nat)
    ensures Cleared(a, a.mem, root, base, len, 0)
  {
    hide LeafAt;
  }

  lemma ClearedNext(a: Snapshot, b: Memory, c: Memory, root: Frame, base: Virt, len: nat, n: nat, r: Result<Phys>)
    requires Cleared(a, b, root, base, len, n) && n * 0x1000 < len && base + len < 0x1_0000_0000_0000_0000
    requires PageOutcome(LeafAt(b, root, Path(base + n * 0x1000)), base + n * 0x1000, r)
    requires r.Ok? ==> Remapped(b, c, root, Path(base + n * 0x1000), None)
    requires r.Err? ==> c == b && r.error == NotMapped(base + n * 0x1000)
    requires base + n * 0x1000 < USER_ADDRESS_LIMIT ==>
               OwnStep(a.(mem := b), a.(mem := c), root, Path(base + n * 0x1000))
    ensures Cleared(a, c, root, base, len, n + 1)
  {
    hide PagesCleared, Outside, SameKernelHalf, OwnStep, Remapped, LeafAt, Path, Paths;
    PageOfRange(base, n);
    ClearedMore(a.mem, b, c, root, base, n, r);
    if base + len <= USER_ADDRESS_LIMIT {
      UserHalf(base + n * 0x1000);
      OwnStepTrans(a, a.(mem := b), a.(mem := c), root, Path(base + n * 0x1000));
    }
  }

  lemma PageOfRange(base: Virt, n: nat)
    requires base + n * 0x1000 < 0x1_0000_0000_0000_0000
    ensures PageAt(base, n) == base + n * 0x1000
  {
  }

  lemma ClearedMore(a: Memory, b: Memory, c: Memory, root: Frame, base: Virt, n: nat, r: Result<Phys>)
    requires PagesCleared(a, b, root, Paths(base, n))
    requires PageOutcome(LeafAt(b, root, Path(PageAt(base, n))), PageAt(base, n), r)
    requires r.Ok? ==> Remapped(b, c, root, Path(PageAt(base, n)), None)
    requires r.Err? ==> c == b && r.error == NotMapped(PageAt(base, n))
    ensures PagesCleared(a, c, root, Paths(base, n + 1))
  {
    var path := Path(PageAt(base, n));
    assert Paths(base, n + 1) == Paths(base, n) + [path];
    hide LeafAt, Paths, Path, PageAt;
    forall p: seq<Index> | |p| == 4
      ensures LeafAt(c, root, p) == if p in Paths(base, n) + [path] then None else LeafAt(a, root, p)
    {
      PrefixIsWhole(path, p);
    }
  }

  datatype UserOp = Page(virt: Virt, flags: Flags) | Mmio(virt: Virt, phys: Phys) | Shared(virt: Virt, phys: Phys)

  class AddressSpace {
    const phys: PhysMem
    const root: Frame
    const alloc: Recorder
    const mapper: Mapper

    /** The user half is built from frames of the space; nothing free is part of it. */
    ghost predicate Valid()
      reads this, phys, alloc, mapper
    {
      mapper.root == root && mapper.phys == phys && alloc.phys == phys && InOrder(Now(), root)
    }

    ghost function Now(): Snapshot
      reads this, phys, alloc, mapper
    {
      Snapshot(phys.tables, mapper.pos, phys.free, alloc.frames)
    }

    /** Wraps a root just prepared by `NewSpace`. */
    constructor (phys: PhysMem, root: Frame, ghost pos: Positions)
      requires IsTree(phys.tables, root, pos) && OwnsUserHalf(pos, root, [], phys.free)
      requires forall f :: f in phys.free ==> f !in pos && 0 <= f < 0x100_0000_0000
      ensures Valid() && this.phys == phys && this.root == root && alloc.frames == [] && mapper.pos == pos
      ensures fresh(alloc) && fresh(mapper)
    {
      this.phys := phys;
      this.root := root;
      alloc := new Recorder(phys);
      mapper := new Mapper(root, phys, pos);
    }

    /** The common part of the three `map_user_*` operations, for an address of the user half. */
    method MapUser(virt: Virt, p: Phys, flags: Flags) returns (r: Result<()>)
      requires Valid() && virt < USER_ADDRESS_LIMIT
      modifies phys, alloc`frames, mapper`pos
      ensures Valid() && SameKernelHalf(old(phys.tables), phys.tables, root)
      ensures Outside(old(phys.tables), phys.tables, root, old(alloc.frames), old(phys.free))
      ensures Moved(old(alloc.frames), old(phys.free), alloc.frames, phys.free)
      ensures r.Ok? ==> Remapped(old(phys.tables), phys.tables, root, Path(virt), Some(PageLeaf(p, flags)))
      ensures r.Err? ==> SameMap(old(phys.tables), phys.tables, root)
      ensures OwnStep(old(Now()), Now(), root, Path(virt))
    {
      ghost var before := Now();
      UserHalf(virt);
      r := mapper.Map4k(virt, p, flags, alloc);
      UserCall(before, Now(), root, Path(virt));
      UserCallKernelHalf(before.mem, phys.tables, root, Path(virt), Some(PageLeaf(p, flags)));
      OwnStepHolds(before, Now(), root, Path(virt), Some(PageLeaf(p, flags)));
    }

    /** A zeroed frame of the space's own at `virt`. */
    method MapUserPage(virt: Virt, flags: Flags) returns (r: Result<Frame>)
      requires Valid()
      modifies phys, alloc`frames, mapper`pos
      ensures OwnStep(old(Now()), Now(), root, Path(virt))
      ensures Valid() && SameKernelHalf(old(phys.tables), phys.tables, root)
      ensures Outside(old(phys.tables), phys.tables, root, old(alloc.frames), old(phys.free))
      ensures Moved(old(alloc.frames), old(phys.free), alloc.frames, phys.free)
      ensures virt >= USER_ADDRESS_LIMIT ==> r == Err(Unaligned(virt)) && Now() == old(Now())
      ensures r.Ok? ==>
                && r.value in old(phys.free) && r.value in alloc.frames && virt < USER_ADDRESS_LIMIT
                && Remapped(old(phys.tables), phys.tables, root, Path(virt),
                            Some(PageLeaf(r.value * 0x1000, flags + {USER, PRESENT})))
      ensures r.Err? ==> SameMap(old(phys.tables), phys.tables, root)
    {
      if virt >= USER_ADDRESS_LIMIT {
        OwnStepNone(Now(), root, Path(virt));
        return Err(Unaligned(virt));
      }
      ghost var before := Now();
      var frame := alloc.AllocateFrame();
      if frame.None? {
        OwnStepNone(before, root, Path(virt));
        return Err(OutOfFrames);
      }
      ghost var taken := Now();
      var done := MapUser(virt, frame.value * 0x1000, flags + {USER, PRESENT});
      OwnStepAfter(before, taken, Now(), root, Path(virt));
      r := if done.Ok? then Ok(frame.value) else Err(done.error);
    }

    /** A device page, uncached; the frame is not the space's. */
    method MapUserMmio(virt: Virt, p: Phys) returns (r: Result<()>)
      requires Valid()
      modifies phys, alloc`frames, mapper`pos
      ensures OwnStep(old(Now()), Now(), root, Path(virt))
      ensures Valid() && SameKernelHalf(old(phys.tables), phys.tables, root)
      ensures Outside(old(phys.tables), phys.tables, root, old(alloc.frames), old(phys.free))
      ensures Moved(old(alloc.frames), old(phys.free), alloc.frames, phys.free)
      ensures virt >= USER_ADDRESS_LIMIT ==> r == Err(Unaligned(virt)) && Now() == old(Now())
      ensures r.Ok? ==> Remapped(old(phys.tables), phys.tables, root, Path(virt),
                                 Some(PageLeaf(p, {PRESENT, WRITABLE, NO_EXECUTE, USER, NO_CACHE, WRITE_THROUGH})))
      ensures r.Err? ==> SameMap(old(phys.tables), phys.tables, root)
    {
      if virt >= USER_ADDRESS_LIMIT {
        OwnStepNone(Now(), root, Path(virt));
        return Err(Unaligned(virt));
      }
      r := MapUser(virt, p, {PRESENT, WRITABLE, NO_EXECUTE, USER, NO_CACHE, WRITE_THROUGH});
    }

    /** A page of a memory object; the frame is not the space's. */
    method MapUserShared(virt: Virt, p: Phys) returns (r: Result<()>)
      requires Valid()
      modifies phys, alloc`frames, mapper`pos
      ensures OwnStep(old(Now()), Now(), root, Path(virt))
      ensures Valid() && SameKernelHalf(old(phys.tables), phys.tables, root)
      ensures Outside(old(phys.tables), phys.tables, root, old(alloc.frames), old(phys.free))
      ensures Moved(old(alloc.frames), old(phys.free), alloc.frames, phys.free)
      ensures virt >= USER_ADDRESS_LIMIT ==> r == Err(Unaligned(virt)) && Now() == old(Now())
      ensures r.Ok? ==> Remapped(old(phys.tables), phys.tables, root, Path(virt),
                                 Some(PageLeaf(p, {PRESENT, WRITABLE, NO_EXECUTE, USER})))
      ensures r.Err? ==> SameMap(old(phys.tables), phys.tables, root)
    {
      if virt >= USER_ADDRESS_LIMIT {
        OwnStepNone(Now(), root, Path(virt));
        return Err(Unaligned(virt));
      }
      r := MapUser(virt, p, {PRESENT, WRITABLE, NO_EXECUTE, USER});
    }

    /** Removes one page; the frame it mapped stays with its owner. */
    method UnmapOne(virt: Virt) returns (r: Result<Phys>)
      requires Valid()
      modifies phys`tables
      ensures Valid() && (virt < USER_ADDRESS_LIMIT ==> OwnStep(old(Now()), Now(), root, Path(virt)))
      ensures PageOutcome(LeafAt(old(phys.tables), root, Path(virt)), virt, r)
      ensures r.Ok? ==> Remapped(old(phys.tables), phys.tables, root, Path(virt), None)
      ensures r.Err? ==> phys.tables == old(phys.tables)
    {
      hide IsTree, Within, LeafAt, Remapped, OwnsUserHalf;
      ghost var before := Now();
      r := mapper.Unmap4k(virt);
      if virt < USER_ADDRESS_LIMIT {
        UserHalf(virt);
        UnmapIsOwn(before, Now(), root, Path(virt));
      }
    }

    /** Deals with page `n` of the range: unmapped, or skipped if it was not mapped. */
    method UnmapNext(ghost start: Snapshot, base: Virt, len: nat, n: nat) returns (r: Result<()>)
      requires Valid() && Now() == start.(mem := phys.tables) && Cleared(start, phys.tables, root, base, len, n)
      requires n * 0x1000 < len && base + len < 0x1_0000_0000_0000_0000
      modifies phys`tables
      ensures Valid() && Now() == start.(mem := phys.tables)
      ensures Cleared(start, phys.tables, root, base, len, if r.Ok? then n + 1 else n)
      ensures r.Err? ==> r == UnmapStop(LeafAt(phys.tables, root, Path(base + n * 0x1000)), base + n * 0x1000)
    {
      hide InOrder, OwnStep, Cleared, LeafAt, Remapped, Path, IsTree;
      ghost var was := phys.tables;
      var v := base + n * 0x1000;
      var one := UnmapOne(v);
      if one.Err? && one.error != NotMapped(v) {
        return Err(one.error);
      }
      ClearedNext(start, was, phys.tables, root, base, len, n, one);
      return Ok(());
    }

    /**
     `unmap_user_shared`: unmaps a range of pages that are not the space's own, skipping those that are not
     mapped, and stops at any other error.  `done` pages were dealt with: they are unmapped, and no page but
     those changed.  A range in the user half leaves foreign tables and the kernel half alone.
     */
    method UnmapUserShared(base: Virt, len: nat) returns (r: Result<()>, done: nat)
      requires Valid()
      modifies phys`tables
      ensures Valid() && Cleared(old(Now()), phys.tables, root, base, len, done)
      ensures base >= USER_ADDRESS_LIMIT || base + len >= 0x1_0000_0000_0000_0000 ==>
                r == Err(Unaligned(base)) && done == 0
      ensures r.Ok? ==> done == (len + 0x1000 - 1) / 0x1000
      ensures r.Err? && base < USER_ADDRESS_LIMIT && base + len < 0x1_0000_0000_0000_0000 ==>
                var v := base + done * 0x1000;
                done * 0x1000 < len && r == UnmapStop(LeafAt(phys.tables, root, Path(v)), v)
    {
      hide InOrder, Cleared, UnmapStop, LeafAt, Path;
      done := 0;
      ghost var start := Now();
      ClearedNone(start, root, base, len);
      if base >= USER_ADDRESS_LIMIT || base + len >= 0x1_0000_0000_0000_0000 {
        return Err(Unaligned(base)), 0;
      }
      while done * 0x1000 < len
        invariant Valid() && Now() == start.(mem := phys.tables) && (done > 0 ==> (done - 1) * 0x1000 < len)
        invariant Cleared(start, phys.tables, root, base, len, done)
        decreases len - done * 0x1000
      {
        r := UnmapNext(start, base, len, done);
        if r.Err? {
          return;
        }
        done := done + 1;
      }
      PageCount(len, done);
      return Ok(()), done;
    }

    /** Any sequence of user map operations, whatever each of them returns. */
    method RunOps(ops: seq<UserOp>)
      requires Valid()
      modifies phys, alloc`frames, mapper`pos
      ensures Valid() && SameKernelHalf(old(phys.tables), phys.tables, root)
      ensures Outside(old(phys.tables), phys.tables, root, old(alloc.frames), old(phys.free))
      ensures Moved(old(alloc.frames), old(phys.free), alloc.frames, phys.free)
    {
      ghost var start := Now();
      var i := 0;
      while i < |ops|
        invariant i <= |ops| && Valid()
        invariant SameKernelHalf(start.mem, phys.tables, root)
        invariant Outside(start.mem, phys.tables, root, start.frames, start.free)
        invariant Moved(start.frames, start.free, alloc.frames, phys.free)
      {
        ghost var before := Now();
        match ops[i] {
          case Page(virt, flags) => var _ := MapUserPage(virt, flags);
          case Mmio(virt, p) => var _ := MapUserMmio(virt, p);
          case Shared(virt, p) => var _ := MapUserShared(virt, p);
        }
        OutsideTrans(start, before, Now(), root);
        i := i + 1;
      }
    }

    /** Gives back every frame of the space and then its root; none of them was free. */
    method Drop()
      requires Valid()
      modifies phys`free, alloc`frames
      ensures forall f :: f in phys.free <==> f in old(phys.free) || f in old(alloc.frames) || f == root
      ensures alloc.frames == []
    {
      var frames := alloc.frames;
      alloc.frames := [];
      var i := 0;
      while i < |frames|
        invariant i <= |frames| && alloc.frames == []
        invariant forall f :: f in phys.free <==> f in old(phys.free) || f in frames[..i]
      {
        assert frames[..i + 1] == frames[..i] + [frames[i]];
        FreeFrame(frames[i]);
        i := i + 1;
      }
      assert frames[..i] == frames;
      FreeFrame(root);
    }

    /** A frame is freed only while it is not free. */
    method FreeFrame(f: Frame)
      requires f !in phys.free
      modifies phys`free
      ensures phys.free == old(phys.free) + {f}
    {
      phys.free := phys.free + {f};
    }
  }

  /** A fresh space: the kernel half is the kernel's, the user half is empty. */
  method NewSpace(phys: PhysMem, kernel: Frame, ghost pos: Positions) returns (r: Option<AddressSpace>)
    requires IsTree(phys.tables, kernel, pos)
    requires forall f :: f in phys.free ==> f !in pos && 0 <= f < 0x100_0000_0000
    modifies phys
    ensures r.None? <==> old(phys.free) == {}
    ensures r.None? ==> phys.tables == old(phys.tables) && phys.free == old(phys.free)
    ensures r.Some? ==>
              var s := r.value;
              && fresh(s) && fresh(s.alloc) && fresh(s.mapper) && s.Valid() && s.phys == phys && s.alloc.frames == []
              && s.root in old(phys.free) && phys.free == old(phys.free) - {s.root}
              && phys.tables == old(phys.tables)[s.root := UpperHalf(old(phys.tables)[kernel])]
              && NewHalves(phys.tables, old(phys.tables), kernel, s.root)
  {
    if phys.free == {} {
      return None;
    }
    ghost var mem, free := phys.tables, phys.free;
    var root := TakeRoot(phys, kernel);
    NewIsTree(mem, kernel, pos, root);
    NewHalvesHold(mem, kernel, pos, root);
    ShareUpperOwns(pos, root, free);
    var s := new AddressSpace(phys, root, ShareUpper(pos, root));
    return Some(s);
  }

  /** A zeroed frame that gets the upper half of the kernel's PML4. */
  method TakeRoot(phys: PhysMem, kernel: Frame) returns (root: Frame)
    requires phys.free != {} && kernel in phys.tables && kernel !in phys.free
    modifies phys
    ensures root in old(phys.free) && phys.free == old(phys.free) - {root}
    ensures phys.tables == old(phys.tables)[root := UpperHalf(old(phys.tables)[kernel])]
  {
    EmptyOrNot(phys.free);
    root :| root in phys.free;
    phys.free := phys.free - {root};
    phys.tables := phys.tables[root := map[]];
    phys.tables := phys.tables[root := UpperHalf(phys.tables[kernel])];
  }

  lemma ShareUpperOwns(pos: Positions, root: Frame, free: set<Frame>)
    requires root in free && forall f :: f in free ==> f !in pos && 0 <= f < 0x100_0000_0000
    ensures OwnsUserHalf(ShareUpper(pos, root), root, [], free - {root})
    ensures forall f :: f in free - {root} ==> f !in ShareUpper(pos, root) && 0 <= f < 0x100_0000_0000
  {
  }

  ghost predicate NewHalves(mem': Memory, mem: Memory, kernel: Frame, root: Frame) {
    && (forall p: seq<Index> :: |p| == 4 && InKernelHalf(p) ==> LeafAt(mem', root, p) == LeafAt(mem, kernel, p))
    && (forall p: seq<Index> :: |p| == 4 && !InKernelHalf(p) ==> LeafAt(mem', root, p).None?)
  }

  lemma NewHalvesHold(mem: Memory, kernel: Frame, pos: Positions, root: Frame)
    requires IsTree(mem, kernel, pos) && root !in pos
    ensures NewHalves(mem[root := UpperHalf(mem[kernel])], mem, kernel, root)
  {
    var mem' := mem[root := UpperHalf(mem[kernel])];
    forall p: seq<Index> | |p| == 4
      ensures LeafAt(mem', root, p) == if InKernelHalf(p) then LeafAt(mem, kernel, p) else None
    {
      ReadUpper(mem, kernel, root, root, p[0]);
      var e := Read(mem, kernel, p[0]);
      assert Leads(mem, pos, kernel, p[0]);
      if InKernelHalf(p) && Present(e) {
        assert pos[e.frame] + p[1..] == [p[0]] + p[1..];
        FramedLeaf(mem, mem', kernel, pos, e.frame, p[1..]);
      }
    }
  }

  /**
   The whole life of a space: created, used by any sequence of map operations, dropped.  Every frame
   it took is free again, none that it did not take is, and no translation of the kernel changed.
   */
  method Lifetime(phys: PhysMem, kernel: Frame, ghost pos: Positions, ops: seq<UserOp>)
    requires IsTree(phys.tables, kernel, pos)
    requires forall f :: f in phys.free ==> f !in pos && 0 <= f < 0x100_0000_0000
    modifies phys
    ensures phys.free == old(phys.free)
    ensures IsTree(phys.tables, kernel, pos) && SameMap(old(phys.tables), phys.tables, kernel)
  {
    ghost var mem, free := phys.tables, phys.free;
    var space := NewSpace(phys, kernel, pos);
    if space.Some? {
      ghost var root := space.value.root;
      space.value.RunOps(ops);
      KernelKept(mem, phys.tables, kernel, pos, root, UpperHalf(mem[kernel]), free);
      ghost var used, left := space.value.alloc.frames, phys.free;
      space.value.Drop();
      AllFreeAgain(free, root, used, left, phys.free);
    }
  }

  lemma AllFreeAgain(free: set<Frame>, root: Frame, used: seq<Frame>, left: set<Frame>, free': set<Frame>)
    requires root in free && Moved([], free - {root}, used, left)
    requires forall f :: f in free' <==> f in left || f in used || f == root
    ensures free' == free
  {
    forall f
      ensures f in free' <==> f in free
    {
      assert f in used || f in left <==> f in free - {root};
    }
  }

  lemma KernelKept(mem: Memory, mem': Memory, kernel: Frame, pos: Positions, root: Frame, table: Table,
                   free: set<Frame>)
    requires IsTree(mem, kernel, pos) && root in free && forall f :: f in free ==> f !in pos
    requires Outside(mem[root := table], mem', root, [], free - {root})
    ensures IsTree(mem', kernel, pos) && SameMap(mem, mem', kernel)
  {
    forall f | f in pos
      ensures f in mem' && mem'[f] == mem[f]
    {
      assert f in mem[root := table];
    }
    FramedTree(mem, mem', kernel, pos);
  }

  /**
   Spaces that share no frame but the kernel's tables do not see each other: whatever one does leaves
   every translation of the other as it was.
   */
  lemma Isolation(a: Snapshot, b: Snapshot, root: Frame, otherRoot: Frame, other: Positions)
    requires Outside(a.mem, b.mem, root, a.frames, a.free)
    requires IsTree(a.mem, otherRoot, other)
    requires forall f :: f in other ==> f != root && f !in a.frames && f !in a.free
    ensures IsTree(b.mem, otherRoot, other) && SameMap(a.mem, b.mem, otherRoot)
  {
    FramedTree(a.mem, b.mem, otherRoot, other);
  }

  /** The frames of two spaces stay apart: one takes new frames only from those that are free. */
  lemma StayApart(a: Snapshot, b: Snapshot, other: set<Frame>)
    requires Moved(a.frames, a.free, b.frames, b.free)
    requires forall f :: f in other ==> f !in a.frames && f !in a.free
    ensures forall f :: f in other ==> f !in b.frames && f !in b.free
  {
  }
}
