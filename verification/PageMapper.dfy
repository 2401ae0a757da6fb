/**
 The mapper's operations over physical memory, as loops that walk and write the tables in place.
 Each states how it changes the flat map: which pages, to what, and that nothing else moves.
 */
module PageMapper {
  import opened Seqs
  import opened Paging

  datatype MapError =
    | AlreadyMapped(virt: Virt)
    | NotMapped(virt: Virt)
    | OutOfFrames
    | HugePageInWay(virt: Virt)
    | Unaligned(virt: Virt)

  datatype Result<T> = Ok(value: T) | Err(error: MapError)

  datatype Translation = Translation(phys: int, flags: Flags, pageSize: nat)

  /** The address a leaf entry gives to `v`. */
  function Resolve(leaf: Leaf, v: Virt): Translation {
    var base := leaf.entry.frame * 0x1000;
    if leaf.level == 1 then
      Translation(base + v % 0x1000, leaf.entry.flags, 0x1000)
    else
      var size := if leaf.level == 2 then 0x20_0000 else 0x4000_0000;
      Translation(base - base % size + v % size, leaf.entry.flags - {HUGE}, size)
  }

  function Translated(mem: Memory, root: Frame, v: Virt): Option<Translation> {
    var leaf := LeafAt(mem, root, Path(v));
    if leaf.None? then None else Some(Resolve(leaf.value, v))
  }

  /** A lookup along a path that starts with the position of `t` goes through `t`. */
  lemma LeafBelow(mem: Memory, root: Frame, pos: Positions, t: Frame, path: seq<Index>)
    requires IsTree(mem, root, pos) && t in pos && |path| == 4 && pos[t] <= path
    ensures LeafAt(mem, root, path) == LeafAt(mem, t, path[|pos[t]|..])
  {
    LeafThrough(mem, root, pos, t, path[|pos[t]|..]);
    assert pos[t] + path[|pos[t]|..] == path;
  }

  /** A page table hangs from the page-directory entry of `virt`. */
  ghost predicate TableBelow(pos: Positions, virt: Virt) {
    exists t :: t in pos && pos[t] == Path(virt)[..3]
  }

  /**
   When mapping a page of `level` succeeds and how it fails, in terms of what was mapped at `virt`
   (`leaf`) and of the tables there are: a 2 MiB page needs its page-directory entry empty, so a page
   table hanging there stops it even if it maps nothing.
   */
  ghost predicate MapOutcome(leaf: Option<Leaf>, pos: Positions, virt: Virt, level: nat, r: Result<()>,
                             free: set<Frame>) {
    && ((leaf.Some? && leaf.value.level > level) <==> r == Err(HugePageInWay(virt)))
    && (leaf.Some? && leaf.value.level <= level ==> r == Err(AlreadyMapped(virt)))
    && (leaf.None? ==> (r == Err(AlreadyMapped(virt)) <==> level == 2 && TableBelow(pos, virt)))
    && (r.Err? && r.error != HugePageInWay(virt) && r.error != AlreadyMapped(virt) ==>
          r.error == OutOfFrames && free == {})
  }

  /** When an operation on an existing 4 KiB page succeeds and how it fails. */
  ghost predicate PageOutcome<T>(leaf: Option<Leaf>, virt: Virt, r: Result<T>) {
    if virt % 0x1000 != 0 then r == Err(Unaligned(virt))
    else if leaf.None? then r == Err(NotMapped(virt))
    else if leaf.value.level > 1 then r == Err(HugePageInWay(virt))
    else r.Ok?
  }

  /** The leaf of a 4 KiB page of `phys`. */
  function PageLeaf(phys: Phys, flags: Flags): Leaf {
    Leaf(EntryOf(phys, flags + {PRESENT}), 1)
  }

  /** The leaf of a 2 MiB page of `phys`. */
  function BigLeaf(phys: Phys, flags: Flags): Leaf {
    Leaf(EntryOf(phys, flags + {PRESENT, HUGE}), 2)
  }

  /** An entry rebuilt from the address of another points to the same frame. */
  lemma SameFrame(flags: Flags)
    ensures forall f: Address :: PageLeaf(f * 0x1000, flags).entry.frame == f
  {
    forall f: Address
      ensures PageLeaf(f * 0x1000, flags).entry.frame == f
    {
      assert f * 0x1000 / 0x1000 == f;
    }
  }

  /** What the entry of `virt` in the table of its level says about the page. */
  lemma LastStep(mem: Memory, root: Frame, pos: Positions, table: Frame, virt: Virt, level: nat)
    requires IsTree(mem, root, pos) && table in pos && 1 <= level <= 2 && pos[table] == Path(virt)[..4 - level]
    ensures var leaf, e := LeafAt(mem, root, Path(virt)), Read(mem, table, TableIndex(virt, level));
            && (!Present(e) ==> leaf.None?)
            && (level == 2 ==> (TableBelow(pos, virt) <==> Present(e) && !IsHuge(e)))
            && (Present(e) && (level == 1 || IsHuge(e)) ==> leaf == Some(Leaf(e, level)))
            && (level == 1 && leaf.Some? ==> leaf.value == Leaf(e, 1))
            && (leaf.Some? ==> leaf.value.level <= level)
  {
    var i := TableIndex(virt, level);
    LeafBelow(mem, root, pos, table, Path(virt));
    assert Leads(mem, pos, table, i);
    assert pos[table] + [i] == Path(virt)[..5 - level];
    if level == 2 && TableBelow(pos, virt) {
      var t :| t in pos && pos[t] == Path(virt)[..3];
      AboveLeads(mem, root, pos, table, i, t);
    }
  }

  /** Tables were only added, none of them deeper than `depth`. */
  ghost predicate Grown(pos: Positions, pos': Positions, depth: int) {
    && (forall t :: t in pos ==> t in pos' && pos'[t] == pos[t])
    && (forall t :: t in pos' && t !in pos ==> |pos'[t]| <= depth)
  }

  lemma GrownSame(pos: Positions, depth: int)
    ensures Grown(pos, pos, depth)
  {
  }

  lemma GrownTrans(a: Positions, b: Positions, c: Positions, depth: int, depth': int)
    requires Grown(a, b, depth) && Grown(b, c, depth') && depth <= depth'
    ensures Grown(a, c, depth')
  {
  }

  lemma GrownBelow(pos: Positions, pos': Positions, depth: int, virt: Virt)
    requires Grown(pos, pos', depth)
    ensures TableBelow(pos, virt) ==> TableBelow(pos', virt)
    ensures depth <= 2 && TableBelow(pos', virt) ==> TableBelow(pos, virt)
  {
  }

  /** A table below an entry means that the entry is present. */
  lemma BelowPresent(mem: Memory, root: Frame, pos: Positions, table: Frame, i: Index, virt: Virt)
    requires IsTree(mem, root, pos) && table in pos && |pos[table]| < 3 && pos[table] + [i] <= Path(virt)
    ensures TableBelow(pos, virt) ==> Present(Read(mem, table, i))
  {
    if TableBelow(pos, virt) {
      var t :| t in pos && pos[t] == Path(virt)[..3];
      AboveLeads(mem, root, pos, table, i, t);
    }
  }

  lemma RemappedAfter(a: Memory, b: Memory, c: Memory, root: Frame, prefix: seq<Index>, leaf: Option<Leaf>)
    requires SameMap(a, b, root) && Remapped(b, c, root, prefix, leaf)
    ensures Remapped(a, c, root, prefix, leaf)
  {
  }

  // ---------------------------------------------------------------- translations

  /** After a 4 KiB map, `virt`'s page translates to `phys` and every other address as before. */
  lemma PageTranslates(mem: Memory, mem': Memory, root: Frame, virt: Virt, phys: Phys, flags: Flags, v: Virt)
    requires Remapped(mem, mem', root, Path(virt), Some(PageLeaf(phys, flags)))
    requires phys % 0x1000 == 0 && phys < 0x100_0000_0000 * 0x1000
    ensures Path(v) == Path(virt) ==>
              Translated(mem', root, v) == Some(Translation(phys + v % 0x1000, FlagBits(flags + {PRESENT}), 0x1000))
    ensures Path(v) != Path(virt) ==> Translated(mem', root, v) == Translated(mem, root, v)
  {
    assert Path(virt) <= Path(v) <==> Path(v) == Path(virt);
    assert phys / 0x1000 * 0x1000 == phys && phys / 0x1000 < 0x100_0000_0000;
  }

  /** After a 2 MiB map, the 512 pages under `virt` translate to `phys` plus their offset, and no other changes. */
  lemma BigTranslates(mem: Memory, mem': Memory, root: Frame, virt: Virt, phys: Phys, flags: Flags, v: Virt)
    requires Remapped(mem, mem', root, Path(virt)[..3], Some(BigLeaf(phys, flags)))
    requires phys % 0x20_0000 == 0 && phys < 0x100_0000_0000 * 0x1000
    ensures Path(v)[..3] == Path(virt)[..3] ==>
              Translated(mem', root, v) ==
              Some(Translation(phys + v % 0x20_0000, FlagBits(flags + {PRESENT}) - {HUGE}, 0x20_0000))
    ensures Path(v)[..3] != Path(virt)[..3] ==> Translated(mem', root, v) == Translated(mem, root, v)
  {
    assert Path(virt)[..3] <= Path(v) <==> Path(v)[..3] == Path(virt)[..3];
    assert FlagBits(flags + {PRESENT, HUGE}) - {HUGE} == FlagBits(flags + {PRESENT}) - {HUGE};
    assert phys / 0x1000 * 0x1000 == phys && phys / 0x1000 < 0x100_0000_0000;
  }

  /** In addresses: the 4 KiB of `virt`'s page translate to `phys` plus their offset, and no other address changes. */
  lemma PageMapsAddresses(mem: Memory, mem': Memory, root: Frame, virt: Virt, phys: Phys, flags: Flags, v: Virt)
    requires Remapped(mem, mem', root, Path(virt), Some(PageLeaf(phys, flags)))
    requires phys % 0x1000 == 0 && phys < 0x100_0000_0000 * 0x1000 && Canonical(virt) && Canonical(v)
    ensures Translated(mem', root, v) ==
            if v / 0x1000 == virt / 0x1000
            then Some(Translation(phys + v % 0x1000, FlagBits(flags + {PRESENT}), 0x1000))
            else Translated(mem, root, v)
  {
    hide Translated, Remapped, Path;
    PathIsPage(v, virt);
    PageTranslates(mem, mem', root, virt, phys, flags, v);
  }

  /** In addresses: the 2 MiB of `virt`'s page translate to `phys` plus their offset, and no other address changes. */
  lemma BigMapsAddresses(mem: Memory, mem': Memory, root: Frame, virt: Virt, phys: Phys, flags: Flags, v: Virt)
    requires Remapped(mem, mem', root, Path(virt)[..3], Some(BigLeaf(phys, flags)))
    requires phys % 0x20_0000 == 0 && phys < 0x100_0000_0000 * 0x1000 && Canonical(virt) && Canonical(v)
    ensures Translated(mem', root, v) ==
            if v / 0x20_0000 == virt / 0x20_0000
            then Some(Translation(phys + v % 0x20_0000, FlagBits(flags + {PRESENT}) - {HUGE}, 0x20_0000))
            else Translated(mem, root, v)
  {
    hide Translated, Remapped, Path;
    PathIsBigPage(v, virt);
    BigTranslates(mem, mem', root, virt, phys, flags, v);
  }

  /** After an unmap the page no longer translates; unmapping what was just mapped restores the map. */
  lemma UnmapUndoesMap(a: Memory, b: Memory, c: Memory, root: Frame, virt: Virt, leaf: Leaf)
    requires LeafAt(a, root, Path(virt)).None?
    requires Remapped(a, b, root, Path(virt), Some(leaf)) && Remapped(b, c, root, Path(virt), None)
    ensures SameMap(a, c, root)
  {
    forall p: seq<Index> | |p| == 4
      ensures LeafAt(c, root, p) == LeafAt(a, root, p)
    {
      assert Path(virt) <= p <==> p == Path(virt);
    }
  }

  // ---------------------------------------------------------------- ranges

  /** Page `i` of a range; virtual addresses wrap at 2^64. */
  function PageAt(virt: Virt, i: nat): Virt {
    (virt + i * 0x1000) % 0x1_0000_0000_0000_0000
  }

  lemma PageCount(len: nat, n: nat)
    requires n * 0x1000 >= len && (n > 0 ==> n * 0x1000 - 0x1000 < len)
    ensures n == (len + 0x1000 - 1) / 0x1000
  {
  }

  /** The paths of the first `n` pages of a range. */
  function Paths(virt: Virt, n: nat): seq<seq<Index>> {
    if n == 0 then [] else Paths(virt, n - 1) + [Path(PageAt(virt, n - 1))]
  }

  /** The leaves of `n` pages mapped to consecutive frames from `phys`. */
  function Leaves(phys: Phys, flags: Flags, n: nat): seq<Leaf> {
    if n == 0 then [] else Leaves(phys, flags, n - 1) + [PageLeaf(phys + (n - 1) * 0x1000, flags)]
  }

  lemma {:induction false} RangeAt(virt: Virt, phys: Phys, flags: Flags, n: nat, i: nat)
    requires i < n
    ensures |Paths(virt, n)| == n && Paths(virt, n)[i] == Path(PageAt(virt, i))
    ensures |Leaves(phys, flags, n)| == n && Leaves(phys, flags, n)[i] == PageLeaf(phys + i * 0x1000, flags)
  {
    if n > 1 {
      RangeAt(virt, phys, flags, n - 1, if i < n - 1 then i else 0);
    }
  }

  /** The pages at these paths were unmapped and are now mapped by these leaves; nothing else changed. */
  ghost predicate PagesMapped(mem: Memory, mem': Memory, root: Frame, paths: seq<seq<Index>>, leaves: seq<Leaf>) {
    && |paths| == |leaves| && NoDup(paths)
    && (forall i :: 0 <= i < |paths| ==> |paths[i]| == 4 && LeafAt(mem, root, paths[i]).None?)
    && (forall i :: 0 <= i < |paths| ==> |paths[i]| == 4 && LeafAt(mem', root, paths[i]) == Some(leaves[i]))
    && (forall p: seq<Index> :: |p| == 4 && p !in paths ==> LeafAt(mem', root, p) == LeafAt(mem, root, p))
  }

  lemma PagesMappedMore(a: Memory, b: Memory, c: Memory, root: Frame,
                        paths: seq<seq<Index>>, leaves: seq<Leaf>, path: seq<Index>, leaf: Leaf)
    requires |path| == 4 && PagesMapped(a, b, root, paths, leaves) && LeafAt(b, root, path).None?
    requires Remapped(b, c, root, path, Some(leaf))
    ensures PagesMapped(a, c, root, paths + [path], leaves + [leaf])
  {
    hide LeafAt;
    forall i | 0 <= i < |paths|
      ensures paths[i] != path && LeafAt(c, root, paths[i]) == Some(leaves[i])
    {
      PrefixIsWhole(path, paths[i]);
    }
    assert path !in paths;
    forall q: seq<Index> | |q| == 4 && q !in paths + [path]
      ensures LeafAt(c, root, q) == LeafAt(a, root, q)
    {
      PrefixIsWhole(path, q);
    }
  }

  /** Such a call changed the map unless there were no pages. */
  lemma PagesMappedChange(a: Memory, b: Memory, root: Frame, paths: seq<seq<Index>>, leaves: seq<Leaf>)
    requires PagesMapped(a, b, root, paths, leaves)
    ensures SameMap(a, b, root) <==> paths == []
  {
    hide LeafAt;
    if paths != [] {
      assert |paths[0]| == 4 && LeafAt(b, root, paths[0]) != LeafAt(a, root, paths[0]);
    }
  }

  lemma {:induction false} PathsLength(virt: Virt, n: nat)
    ensures |Paths(virt, n)| == n
  {
    if n > 0 {
      PathsLength(virt, n - 1);
    }
  }

  lemma PagesMappedSame(a: Memory, b: Memory, c: Memory, root: Frame, paths: seq<seq<Index>>, leaves: seq<Leaf>)
    requires PagesMapped(a, b, root, paths, leaves) && SameMap(b, c, root)
    ensures PagesMapped(a, c, root, paths, leaves)
  {
  }

  /** The first `n` pages of a range are mapped, and nothing else changed. */
  ghost predicate RangeMapped(a: Memory, b: Memory, root: Frame, virt: Virt, phys: Phys, flags: Flags, n: nat) {
    PagesMapped(a, b, root, Paths(virt, n), Leaves(phys, flags, n))
  }

  lemma RangeNone(a: Memory, root: Frame, virt: Virt, phys: Phys, flags: Flags)
    ensures RangeMapped(a, a, root, virt, phys, flags, 0)
  {
  }

  lemma RangeSame(a: Memory, b: Memory, c: Memory, root: Frame, virt: Virt, phys: Phys, flags: Flags, n: nat)
    requires RangeMapped(a, b, root, virt, phys, flags, n) && SameMap(b, c, root)
    ensures RangeMapped(a, c, root, virt, phys, flags, n)
  {
    hide PagesMapped, SameMap;
    PagesMappedSame(a, b, c, root, Paths(virt, n), Leaves(phys, flags, n));
  }

  lemma RangeMore(a: Memory, b: Memory, c: Memory, root: Frame, virt: Virt, phys: Phys, flags: Flags, n: nat)
    requires RangeMapped(a, b, root, virt, phys, flags, n) && LeafAt(b, root, Path(PageAt(virt, n))).None?
    requires Remapped(b, c, root, Path(PageAt(virt, n)), Some(PageLeaf(phys + n * 0x1000, flags)))
    ensures RangeMapped(a, c, root, virt, phys, flags, n + 1)
  {
    hide PagesMapped, Remapped, LeafAt, Path, PageLeaf, PageAt;
    PagesMappedMore(a, b, c, root, Paths(virt, n), Leaves(phys, flags, n), Path(PageAt(virt, n)),
                    PageLeaf(phys + n * 0x1000, flags));
  }

  lemma RangeAll(a: Memory, b: Memory, root: Frame, virt: Virt, phys: Phys, flags: Flags, n: nat)
    requires RangeMapped(a, b, root, virt, phys, flags, n)
    ensures PagesMapped(a, b, root, Paths(virt, n), Leaves(phys, flags, n))
    ensures SameMap(a, b, root) <==> n == 0
  {
    hide PagesMapped, SameMap, Paths;
    PathsLength(virt, n);
    PagesMappedChange(a, b, root, Paths(virt, n), Leaves(phys, flags, n));
  }

  /** The frames recorded are distinct and none of them is free. */
  ghost predicate Ledger(frames: seq<Frame>, free: set<Frame>) {
    NoDup(frames) && forall f :: f in frames ==> f !in free
  }

  /** Frames move from `free` to `frames` and nowhere else. */
  ghost predicate Moved(frames: seq<Frame>, free: set<Frame>, frames': seq<Frame>, free': set<Frame>) {
    && frames <= frames' && free' <= free
    && (forall f :: f in frames' || f in free' <==> f in frames || f in free)
  }

  /** Everything a mapping call may change. */
  datatype Snapshot = Snapshot(mem: Memory, pos: Positions, free: set<Frame>, frames: seq<Frame>)

  /** From `a` to `b` tables may have been added on `path`, with frames that were free, but no page was remapped. */
  ghost predicate Prepared(a: Snapshot, b: Snapshot, root: Frame, path: seq<Index>) {
    && Moved(a.frames, a.free, b.frames, b.free)
    && SameMap(a.mem, b.mem, root)
    && Within(a.mem, b.mem, a.pos, b.pos, a.free, path)
  }

  lemma PreparedSame(a: Snapshot, root: Frame, path: seq<Index>)
    ensures Prepared(a, a, root, path)
  {
  }

  lemma PreparedLeaf(a: Snapshot, b: Snapshot, root: Frame, path: seq<Index>)
    requires Prepared(a, b, root, path) && |path| == 4
    ensures LeafAt(b.mem, root, path) == LeafAt(a.mem, root, path)
  {
  }

  lemma PreparedTrans(a: Snapshot, b: Snapshot, c: Snapshot, root: Frame, path: seq<Index>)
    requires Prepared(a, b, root, path) && Prepared(b, c, root, path)
    ensures Prepared(a, c, root, path)
  {
    WithinTrans(a.mem, b.mem, c.mem, a.pos, b.pos, c.pos, a.free, b.free, path);
  }

  /** Physical memory: the contents of the table frames, and the frames nobody owns. */
  class PhysMem {
    var tables: Memory
    var free: set<Frame>

    constructor ()
      ensures tables == map[] && free == {}
    {
      tables := map[];
      free := {};
    }
  }

  /** An allocator that records what it hands out. */
  class Recorder {
    const phys: PhysMem
    var frames: seq<Frame>

    constructor (phys: PhysMem)
      ensures this.phys == phys && frames == []
    {
      this.phys := phys;
      frames := [];
    }

    method AllocateFrame() returns (r: Option<Frame>)
      requires Ledger(frames, phys.free)
      modifies this`frames, phys`free
      ensures r.None? <==> old(phys.free) == {}
      ensures r.None? ==> frames == old(frames) && phys.free == old(phys.free)
      ensures r.Some? ==>
                && r.value in old(phys.free) && phys.free == old(phys.free) - {r.value}
                && frames == old(frames) + [r.value]
      ensures Ledger(frames, phys.free) && Moved(old(frames), old(phys.free), frames, phys.free)
    {
      EmptyOrNot(phys.free);
      if phys.free == {} {
        return None;
      }
      var f :| f in phys.free;
      phys.free := phys.free - {f};
      frames := frames + [f];
      return Some(f);
    }
  }

  class Mapper {
    const root: Frame
    const phys: PhysMem
    ghost var pos: Positions

    /** The tables form a tree, and free frames are addressable and not part of it. */
    ghost predicate Valid()
      reads this, phys
    {
      && IsTree(phys.tables, root, pos)
      && forall f :: f in phys.free ==> f !in pos && 0 <= f < 0x100_0000_0000
    }

    ghost function Now(alloc: Recorder): Snapshot
      reads this, phys, alloc
    {
      Snapshot(phys.tables, pos, phys.free, alloc.frames)
    }

    constructor (root: Frame, phys: PhysMem, ghost pos: Positions)
      requires IsTree(phys.tables, root, pos)
      requires forall f :: f in phys.free ==> f !in pos && 0 <= f < 0x100_0000_0000
      ensures Valid() && this.root == root && this.phys == phys && this.pos == pos
    {
      this.root := root;
      this.phys := phys;
      this.pos := pos;
    }

    /** Down to the table of level `target` along the path of `virt`, creating the tables that are missing. */
    method WalkCreate(virt: Virt, target: nat, alloc: Recorder, user: bool) returns (r: Result<Frame>)
      requires Valid() && 1 <= target <= 3 && alloc.phys == phys && Ledger(alloc.frames, phys.free)
      modifies this`pos, phys, alloc`frames
      ensures Valid() && Ledger(alloc.frames, phys.free)
      ensures Prepared(old(Now(alloc)), Now(alloc), root, Path(virt))
      ensures r.Ok? ==> r.value in pos && pos[r.value] == Path(virt)[..4 - target]
      ensures var leaf := LeafAt(old(phys.tables), root, Path(virt));
              (leaf.Some? && leaf.value.level > target) <==> r == Err(HugePageInWay(virt))
      ensures r.Err? ==> r.error == HugePageInWay(virt) || (r.error == OutOfFrames && phys.free == {})
      ensures r == Err(OutOfFrames) ==>
                LeafAt(old(phys.tables), root, Path(virt)).None? && !TableBelow(old(pos), virt)
      ensures target == 2 && TableBelow(pos, virt) ==> TableBelow(old(pos), virt)
      ensures TableBelow(old(pos), virt) ==> TableBelow(pos, virt)
    {
      var inter := if user then {PRESENT, WRITABLE, USER} else {PRESENT, WRITABLE};
      var table := root;
      var level := 4;
      ghost var start := Now(alloc);
      GrownSame(pos, 0);
      PreparedSame(start, root, Path(virt));
      assert root in pos && pos[root] == Path(virt)[..0];
      hide Grown, TableBelow, Prepared, IsTree, LeafAt;
      while level > target
        invariant target <= level <= 4
        invariant Valid() && Ledger(alloc.frames, phys.free)
        invariant Prepared(start, Now(alloc), root, Path(virt))
        invariant table in pos && pos[table] == Path(virt)[..4 - level]
        invariant Grown(start.pos, pos, 4 - level)
      {
        var next := Descend(start, virt, level, table, alloc, inter);
        if next.Err? {
          GrownBelow(start.pos, pos, 5 - level, virt);
          return next;
        }
        table := next.value;
        level := level - 1;
      }
      LeafBelow(phys.tables, root, pos, table, Path(virt));
      PreparedLeaf(start, Now(alloc), root, Path(virt));
      GrownBelow(start.pos, pos, 4 - target, virt);
      return Ok(table);
    }

    /** One step of the descent: follows the entry at `level`, or creates the table it lacks. */
    method Descend(ghost start: Snapshot, virt: Virt, level: nat, table: Frame, alloc: Recorder, inter: Flags)
      returns (r: Result<Frame>)
      requires Valid() && alloc.phys == phys && Ledger(alloc.frames, phys.free)
      requires Prepared(start, Now(alloc), root, Path(virt))
      requires 2 <= level <= 4 && table in pos && pos[table] == Path(virt)[..4 - level]
      requires Grown(start.pos, pos, 4 - level)
      requires PRESENT in inter && HUGE !in inter
      modifies this`pos, phys, alloc`frames
      ensures Valid() && Ledger(alloc.frames, phys.free)
      ensures Prepared(start, Now(alloc), root, Path(virt))
      ensures r.Ok? ==> r.value in pos && pos[r.value] == Path(virt)[..4 - (level - 1)]
      ensures var leaf := LeafAt(start.mem, root, Path(virt));
              r.Err? ==>
                || (r.error == HugePageInWay(virt) && leaf.Some? && leaf.value.level == level)
                || (r.error == OutOfFrames && leaf.None? && phys.free == {} && !TableBelow(pos, virt))
      ensures Grown(start.pos, pos, 5 - level)
    {
      hide Grown, TableBelow;
      var i := TableIndex(virt, level);
      var e := Read(phys.tables, table, i);
      assert Leads(phys.tables, pos, table, i);
      LeafBelow(phys.tables, root, pos, table, Path(virt));
      assert Path(virt)[..4 - (level - 1)] == pos[table] + [i];
      GrownSame(pos, 5 - level);
      GrownTrans(start.pos, pos, pos, 4 - level, 5 - level);
      if Present(e) {
        if IsHuge(e) {
          return Err(HugePageInWay(virt));
        }
        return Ok(e.frame);
      }
      ghost var before := Now(alloc);
      BelowPresent(phys.tables, root, pos, table, i, virt);
      var f := AddTable(virt, table, i, alloc, inter);
      PreparedTrans(start, before, Now(alloc), root, Path(virt));
      GrownTrans(start.pos, before.pos, pos, 4 - level, 5 - level);
      r := if f.None? then Err(OutOfFrames) else Ok(f.value);
    }

    /** Allocates a zeroed frame and hangs it from entry `i` of `table`. */
    method AddTable(virt: Virt, table: Frame, i: Index, alloc: Recorder, inter: Flags) returns (r: Option<Frame>)
      requires Valid() && alloc.phys == phys && Ledger(alloc.frames, phys.free)
      requires table in pos && |pos[table]| < 3 && !Present(Read(phys.tables, table, i))
      requires pos[table] + [i] <= Path(virt) && PRESENT in inter && HUGE !in inter
      modifies this`pos, phys, alloc`frames
      ensures Valid() && Ledger(alloc.frames, phys.free)
      ensures Prepared(old(Now(alloc)), Now(alloc), root, Path(virt))
      ensures r.None? ==> phys.free == {} && pos == old(pos)
      ensures r.Some? ==> r.value in pos && pos[r.value] == old(pos[table]) + [i]
      ensures Grown(old(pos), pos, old(|pos[table]|) + 1)
    {
      r := alloc.AllocateFrame();
      if r.Some? {
        var f := r.value;
        HangKeepsTree(phys.tables, root, pos, table, i, f, inter);
        HangSameMap(phys.tables, root, pos, table, i, f, inter);
        HangWithin(phys.tables, pos, table, i, f, inter, old(phys.free), Path(virt));
        phys.tables := phys.tables[f := map[]];
        phys.tables := Write(phys.tables, table, i, Entry(f, inter));
        pos := pos[f := pos[table] + [i]];
      }
    }

    /** Writes a leaf into entry `i` of `table`, which holds none that is present or is a 4 KiB page. */
    method SetLeaf(virt: Virt, table: Frame, i: Index, e: Entry)
      requires Valid() && table in pos && pos[table] + [i] <= Path(virt)
      requires Ends(Read(phys.tables, table, i), |pos[table]|) && Ends(e, |pos[table]|)
      requires Present(Read(phys.tables, table, i)) ==> |pos[table]| == 3
      modifies phys`tables
      ensures Valid()
      ensures Remapped(old(phys.tables), phys.tables, root, pos[table] + [i], LeafOf(e, |pos[table]|))
      ensures Within(old(phys.tables), phys.tables, pos, pos, phys.free, Path(virt))
    {
      LeafKeepsTree(phys.tables, root, pos, table, i, e);
      LeafRemaps(phys.tables, root, pos, table, i, e);
      WriteWithin(phys.tables, pos, table, i, e, phys.free, Path(virt));
      phys.tables := Write(phys.tables, table, i, e);
    }

    /** The common part of `map_4k` and `map_2m`: a page of the level given, on aligned addresses. */
    method MapAt(virt: Virt, level: nat, e: Entry, alloc: Recorder, user: bool) returns (r: Result<()>)
      requires Valid() && alloc.phys == phys && Ledger(alloc.frames, phys.free)
      requires 1 <= level <= 2 && Present(e) && (level == 2 ==> IsHuge(e))
      modifies this`pos, phys, alloc`frames
      ensures Valid() && Ledger(alloc.frames, phys.free)
      ensures Moved(old(alloc.frames), old(phys.free), alloc.frames, phys.free)
      ensures Within(old(phys.tables), phys.tables, old(pos), pos, old(phys.free), Path(virt))
      ensures r.Ok? ==> Remapped(old(phys.tables), phys.tables, root, Path(virt)[..5 - level], Some(Leaf(e, level)))
      ensures r.Err? ==> SameMap(old(phys.tables), phys.tables, root)
      ensures MapOutcome(LeafAt(old(phys.tables), root, Path(virt)), old(pos), virt, level, r, phys.free)
    {
      hide TableBelow, IsTree, Within, Remapped, LeafAt;
      var found := WalkCreate(virt, level, alloc, user);
      if found.Err? {
        return Err(found.error);
      }
      ghost var was := phys.tables;
      r := FillAt(virt, level, found.value, e);
      WithinTrans(old(phys.tables), was, phys.tables, old(pos), pos, pos, old(phys.free), phys.free, Path(virt));
      if r.Ok? {
        RemappedAfter(old(phys.tables), was, phys.tables, root, Path(virt)[..5 - level], Some(Leaf(e, level)));
      }
    }

    /** Writes the leaf `e` for `virt` into its table, if the entry is empty. */
    method FillAt(virt: Virt, level: nat, table: Frame, e: Entry) returns (r: Result<()>)
      requires Valid() && table in pos && 1 <= level <= 2 && pos[table] == Path(virt)[..4 - level]
      requires Present(e) && (level == 2 ==> IsHuge(e))
      modifies phys`tables
      ensures Valid()
      ensures Within(old(phys.tables), phys.tables, pos, pos, phys.free, Path(virt))
      ensures r.Ok? ==> Remapped(old(phys.tables), phys.tables, root, Path(virt)[..5 - level], Some(Leaf(e, level)))
      ensures r.Err? ==> phys.tables == old(phys.tables) && r.error == AlreadyMapped(virt)
      ensures MapOutcome(LeafAt(old(phys.tables), root, Path(virt)), pos, virt, level, r, phys.free)
    {
      hide IsTree, Remapped, LeafAt, TableBelow;
      var i := TableIndex(virt, level);
      LastStep(phys.tables, root, pos, table, virt, level);
      if Present(Read(phys.tables, table, i)) {
        return Err(AlreadyMapped(virt));
      }
      assert pos[table] + [i] == Path(virt)[..5 - level];
      SetLeaf(virt, table, i, e);
      return Ok(());
    }

    method Map4k(virt: Virt, phys: Phys, flags: Flags, alloc: Recorder) returns (r: Result<()>)
      requires Valid() && alloc.phys == this.phys && Ledger(alloc.frames, this.phys.free)
      modifies this`pos, this.phys, alloc`frames
      ensures Valid() && Ledger(alloc.frames, this.phys.free)
      ensures Moved(old(alloc.frames), old(this.phys.free), alloc.frames, this.phys.free)
      ensures Within(old(this.phys.tables), this.phys.tables, old(pos), pos, old(this.phys.free), Path(virt))
      ensures r.Ok? ==> LeafAt(old(this.phys.tables), root, Path(virt)).None?
      ensures r.Ok? ==> Remapped(old(this.phys.tables), this.phys.tables, root, Path(virt), Some(PageLeaf(phys, flags)))
      ensures r.Err? ==> SameMap(old(this.phys.tables), this.phys.tables, root)
      ensures if virt % 0x1000 == 0 && phys % 0x1000 == 0
              then MapOutcome(LeafAt(old(this.phys.tables), root, Path(virt)), old(pos), virt, 1, r, this.phys.free)
              else r == Err(Unaligned(virt))
    {
      if virt % 0x1000 != 0 || phys % 0x1000 != 0 {
        return Err(Unaligned(virt));
      }
      assert Path(virt)[..4] == Path(virt);
      r := MapAt(virt, 1, EntryOf(phys, flags + {PRESENT}), alloc, USER in flags);
    }

    method Map2m(virt: Virt, phys: Phys, flags: Flags, alloc: Recorder) returns (r: Result<()>)
      requires Valid() && alloc.phys == this.phys && Ledger(alloc.frames, this.phys.free)
      modifies this`pos, this.phys, alloc`frames
      ensures Valid() && Ledger(alloc.frames, this.phys.free)
      ensures Moved(old(alloc.frames), old(this.phys.free), alloc.frames, this.phys.free)
      ensures Within(old(this.phys.tables), this.phys.tables, old(pos), pos, old(this.phys.free), Path(virt))
      ensures r.Ok? ==>
                Remapped(old(this.phys.tables), this.phys.tables, root, Path(virt)[..3], Some(BigLeaf(phys, flags)))
      ensures r.Err? ==> SameMap(old(this.phys.tables), this.phys.tables, root)
      ensures if virt % 0x20_0000 == 0 && phys % 0x20_0000 == 0
              then MapOutcome(LeafAt(old(this.phys.tables), root, Path(virt)), old(pos), virt, 2, r, this.phys.free)
              else r == Err(Unaligned(virt))
    {
      if virt % 0x20_0000 != 0 || phys % 0x20_0000 != 0 {
        return Err(Unaligned(virt));
      }
      r := MapAt(virt, 2, EntryOf(phys, flags + {PRESENT, HUGE}), alloc, USER in flags);
    }

    /** Down to the page table of `virt` without creating anything. */
    method Walk(virt: Virt) returns (r: Result<Frame>)
      requires Valid()
      ensures var leaf := LeafAt(phys.tables, root, Path(virt));
              && (r.Ok? ==> r.value in pos && pos[r.value] == Path(virt)[..3])
              && (r == Err(HugePageInWay(virt)) <==> leaf.Some? && leaf.value.level > 1)
              && (r.Err? && r != Err(HugePageInWay(virt)) ==> r == Err(NotMapped(virt)) && leaf.None?)
    {
      var table := root;
      var level := 4;
      while level > 1
        invariant 1 <= level <= 4
        invariant table in pos && pos[table] == Path(virt)[..4 - level]
      {
        var i := TableIndex(virt, level);
        var e := Read(phys.tables, table, i);
        assert Leads(phys.tables, pos, table, i);
        LeafBelow(phys.tables, root, pos, table, Path(virt));
        assert Path(virt)[..4 - (level - 1)] == pos[table] + [i];
        if !Present(e) {
          return Err(NotMapped(virt));
        }
        if IsHuge(e) {
          return Err(HugePageInWay(virt));
        }
        table := e.frame;
        level := level - 1;
      }
      LeafBelow(phys.tables, root, pos, table, Path(virt));
      return Ok(table);
    }

    /** Removes a 4 KiB page and gives back the frame it mapped, which stays allocated. */
    method Unmap4k(virt: Virt) returns (r: Result<Phys>)
      requires Valid()
      modifies phys`tables
      ensures Valid()
      ensures Within(old(phys.tables), phys.tables, pos, pos, phys.free, Path(virt))
      ensures r.Err? ==> phys.tables == old(phys.tables)
      ensures r.Ok? ==> Remapped(old(phys.tables), phys.tables, root, Path(virt), None)
      ensures PageOutcome(LeafAt(old(phys.tables), root, Path(virt)), virt, r)
      ensures r.Ok? ==> r.value == LeafAt(old(phys.tables), root, Path(virt)).value.entry.frame * 0x1000
    {
      if virt % 0x1000 != 0 {
        return Err(Unaligned(virt));
      }
      var found := Walk(virt);
      if found.Err? {
        return Err(found.error);
      }
      var table, i := found.value, TableIndex(virt, 1);
      var e := Read(phys.tables, table, i);
      LastStep(phys.tables, root, pos, table, virt, 1);
      if !Present(e) {
        return Err(NotMapped(virt));
      }
      assert pos[table] + [i] == Path(virt);
      SetLeaf(virt, table, i, EMPTY);
      return Ok(e.frame * 0x1000);
    }

    /** Replaces the flags of a 4 KiB page; the frame stays. */
    method UpdateFlags4k(virt: Virt, flags: Flags) returns (r: Result<()>)
      requires Valid()
      modifies phys`tables
      ensures Valid()
      ensures Within(old(phys.tables), phys.tables, pos, pos, phys.free, Path(virt))
      ensures r.Err? ==> phys.tables == old(phys.tables)
      ensures PageOutcome(LeafAt(old(phys.tables), root, Path(virt)), virt, r)
      ensures r.Ok? ==>
                var was := LeafAt(old(phys.tables), root, Path(virt)).value.entry;
                && Remapped(old(phys.tables), phys.tables, root, Path(virt), Some(PageLeaf(was.frame * 0x1000, flags)))
                && PageLeaf(was.frame * 0x1000, flags).entry.frame == was.frame
    {
      SameFrame(flags);
      if virt % 0x1000 != 0 {
        return Err(Unaligned(virt));
      }
      var found := Walk(virt);
      if found.Err? {
        return Err(found.error);
      }
      var table, i := found.value, TableIndex(virt, 1);
      var e := Read(phys.tables, table, i);
      LastStep(phys.tables, root, pos, table, virt, 1);
      if !Present(e) {
        return Err(NotMapped(virt));
      }
      assert pos[table] + [i] == Path(virt);
      SetLeaf(virt, table, i, EntryOf(e.frame * 0x1000, flags + {PRESENT}));
      return Ok(());
    }

    method Translate(virt: Virt) returns (r: Option<Translation>)
      requires Valid()
      ensures r == Translated(phys.tables, root, virt)
    {
      var table := root;
      var level := 4;
      while true
        invariant 1 <= level <= 4
        invariant table in pos && pos[table] == Path(virt)[..4 - level]
        decreases level
      {
        var i := TableIndex(virt, level);
        var e := Read(phys.tables, table, i);
        assert Leads(phys.tables, pos, table, i);
        LeafBelow(phys.tables, root, pos, table, Path(virt));
        assert level > 1 ==> Path(virt)[..4 - (level - 1)] == pos[table] + [i];
        if !Present(e) {
          return None;
        }
        if level == 1 || (IsHuge(e) && (level == 2 || level == 3)) {
          return Some(Resolve(Leaf(e, level), virt));
        }
        table := e.frame;
        level := level - 1;
      }
    }

    /**
     Maps `[virt, virt + len)` page by page and stops at the first failure.  The pages before it stay
     mapped: a failing call leaves exactly a prefix of the range, `done` pages, behind.
     */
    method MapRange4k(virt: Virt, phys: Phys, len: nat, flags: Flags, alloc: Recorder)
      returns (r: Result<()>, done: nat)
      requires Valid() && alloc.phys == this.phys && Ledger(alloc.frames, this.phys.free)
      modifies this`pos, this.phys, alloc`frames
      ensures Valid() && Ledger(alloc.frames, this.phys.free)
      ensures Moved(old(alloc.frames), old(this.phys.free), alloc.frames, this.phys.free)
      ensures PagesMapped(old(this.phys.tables), this.phys.tables, root, Paths(virt, done), Leaves(phys, flags, done))
      ensures r.Ok? ==> done == (len + 0x1000 - 1) / 0x1000
      ensures r.Err? ==> done * 0x1000 < len && Stopped(PageAt(virt, done), r)
      ensures SameMap(old(this.phys.tables), this.phys.tables, root) <==> done == 0
    {
      ghost var start := Now(alloc);
      var off := 0;
      done := 0;
      assert Moved(start.frames, start.free, alloc.frames, this.phys.free);
      RangeNone(start.mem, root, virt, phys, flags);
      hide RangeMapped, PageAt, Moved, Ledger, SameMap;
      while off < len
        invariant off == done * 0x1000 && (done > 0 ==> off - 0x1000 < len)
        invariant Valid() && Ledger(alloc.frames, this.phys.free)
        invariant Moved(start.frames, start.free, alloc.frames, this.phys.free)
        invariant RangeMapped(start.mem, this.phys.tables, root, virt, phys, flags, done)
      {
        r := MapNext(start, virt, phys, flags, done, alloc);
        if r.Err? {
          RangeAll(start.mem, this.phys.tables, root, virt, phys, flags, done);
          return;
        }
        off := off + 0x1000;
        done := done + 1;
      }
      PageCount(len, done);
      RangeAll(start.mem, this.phys.tables, root, virt, phys, flags, done);
      return Ok(()), done;
    }

    /** Why the page at `v` could not be mapped. */
    ghost predicate Stopped(v: Virt, r: Result<()>)
      reads this, phys
    {
      r == Err(Unaligned(v)) || MapOutcome(LeafAt(phys.tables, root, Path(v)), pos, v, 1, r, phys.free)
    }

    /** Maps one more page of a range whose first `n` pages were mapped since `start`. */
    method MapNext(ghost start: Snapshot, virt: Virt, phys: Phys, flags: Flags, n: nat, alloc: Recorder)
      returns (r: Result<()>)
      requires Valid() && alloc.phys == this.phys && Ledger(alloc.frames, this.phys.free)
      requires Moved(start.frames, start.free, alloc.frames, this.phys.free)
      requires RangeMapped(start.mem, this.phys.tables, root, virt, phys, flags, n)
      modifies this`pos, this.phys, alloc`frames
      ensures Valid() && Ledger(alloc.frames, this.phys.free)
      ensures Moved(start.frames, start.free, alloc.frames, this.phys.free)
      ensures RangeMapped(start.mem, this.phys.tables, root, virt, phys, flags, if r.Ok? then n + 1 else n)
      ensures r.Err? ==> Stopped(PageAt(virt, n), r)
    {
      hide RangeMapped, IsTree, SameMap, Remapped, LeafAt, PageLeaf, PageAt;
      ghost var was := this.phys.tables;
      r := Map4k(PageAt(virt, n), phys + n * 0x1000, flags, alloc);
      if r.Err? {
        RangeSame(start.mem, was, this.phys.tables, root, virt, phys, flags, n);
      } else {
        RangeMore(start.mem, was, this.phys.tables, root, virt, phys, flags, n);
      }
    }
  }
}
