/**
 The kernel's own page-table calls (kernel/src/mm/virt.rs).  They go through the root that happens to be
 in CR3; whether the other roots see the change depends on the PML4 entry they all copied.
 */
module KernelHalf {
  import opened Seqs
  import opened Paging
  import opened PageMapper
  import opened AddressSpaces

  // ---------------------------------------------------------------- one call

  /** A mapper call through `root`: at most the page at `path` was remapped, and only tables of this tree changed. */
  ghost predicate MapperCall(a: Snapshot, b: Snapshot, root: Frame, path: seq<Index>) {
    && IsTree(b.mem, root, b.pos) && (forall f :: f in b.free ==> f !in b.pos && 0 <= f < 0x100_0000_0000)
    && Within(a.mem, b.mem, a.pos, b.pos, a.free, path) && Moved(a.frames, a.free, b.frames, b.free)
    && forall p: seq<Index> :: |p| == 4 && p != path ==> LeafAt(b.mem, root, p) == LeafAt(a.mem, root, p)
  }

  lemma MapperCallHolds(a: Snapshot, b: Snapshot, root: Frame, path: seq<Index>, leaf: Option<Leaf>)
    requires IsTree(b.mem, root, b.pos) && (forall f :: f in b.free ==> f !in b.pos && 0 <= f < 0x100_0000_0000)
    requires Within(a.mem, b.mem, a.pos, b.pos, a.free, path) && Moved(a.frames, a.free, b.frames, b.free)
    requires |path| == 4 && (SameMap(a.mem, b.mem, root) || Remapped(a.mem, b.mem, root, path, leaf))
    ensures MapperCall(a, b, root, path)
  {
    hide IsTree, Within, Moved, LeafAt;
    forall p: seq<Index> | |p| == 4 && p != path
      ensures LeafAt(b.mem, root, p) == LeafAt(a.mem, root, p)
    {
      PrefixIsWhole(path, p);
    }
  }

  /** `map_page`, through the root of `m`. */
  method MapPage(m: Mapper, alloc: Recorder, virt: Virt, phys: Phys, flags: Flags) returns (r: Result<()>)
    requires m.Valid() && alloc.phys == m.phys && Ledger(alloc.frames, m.phys.free)
    modifies m`pos, m.phys, alloc`frames
    ensures m.Valid() && Ledger(alloc.frames, m.phys.free)
    ensures MapperCall(old(m.Now(alloc)), m.Now(alloc), m.root, Path(virt))
    ensures r.Ok? ==> LeafAt(old(m.phys.tables), m.root, Path(virt)).None?
    ensures r.Ok? ==> LeafAt(m.phys.tables, m.root, Path(virt)) == Some(PageLeaf(phys, flags))
    ensures r.Err? ==> SameMap(old(m.phys.tables), m.phys.tables, m.root)
  {
    ghost var before := m.Now(alloc);
    r := m.Map4k(virt, phys, flags, alloc);
    hide IsTree, Within, Moved, LeafAt;
    MapperCallHolds(before, m.Now(alloc), m.root, Path(virt), Some(PageLeaf(phys, flags)));
    if r.Ok? {
      PrefixIsWhole(Path(virt), Path(virt));
    }
  }

  /** `unmap_page`, through the root of `m`. */
  method UnmapPage(m: Mapper, alloc: Recorder, virt: Virt) returns (r: Result<Phys>)
    requires m.Valid() && alloc.phys == m.phys
    modifies m.phys`tables
    ensures m.Valid() && MapperCall(old(m.Now(alloc)), m.Now(alloc), m.root, Path(virt))
    ensures PageOutcome(LeafAt(old(m.phys.tables), m.root, Path(virt)), virt, r)
    ensures r.Ok? ==> LeafAt(m.phys.tables, m.root, Path(virt)).None?
  {
    ghost var before := m.Now(alloc);
    r := m.Unmap4k(virt);
    hide IsTree, Within, LeafAt;
    MapperCallHolds(before, m.Now(alloc), m.root, Path(virt), None);
    if r.Ok? {
      PrefixIsWhole(Path(virt), Path(virt));
    }
  }

  /** `update_flags`, through the root of `m`. */
  method UpdateFlags(m: Mapper, alloc: Recorder, virt: Virt, flags: Flags) returns (r: Result<()>)
    requires m.Valid() && alloc.phys == m.phys
    modifies m.phys`tables
    ensures m.Valid() && MapperCall(old(m.Now(alloc)), m.Now(alloc), m.root, Path(virt))
    ensures PageOutcome(LeafAt(old(m.phys.tables), m.root, Path(virt)), virt, r)
  {
    ghost var before := m.Now(alloc);
    ghost var was := LeafAt(before.mem, m.root, Path(virt));
    r := m.UpdateFlags4k(virt, flags);
    hide IsTree, Within, LeafAt;
    ghost var leaf := if r.Ok? then Some(PageLeaf(was.value.entry.frame * 0x1000, flags)) else None;
    MapperCallHolds(before, m.Now(alloc), m.root, Path(virt), leaf);
  }

  // ---------------------------------------------------------------- another root over the same tables

  /** Roots `r` and `s` have the same entries in the upper half, and the same tables below them. */
  ghost predicate Shares(mem: Memory, r: Frame, s: Frame, rpos: Positions, spos: Positions) {
    && (forall i :: 256 <= i < 512 ==> Read(mem, s, i) == Read(mem, r, i))
    && SameKernelTables(rpos, spos)
  }

  /** Two roots that share the kernel half have the same pages there. */
  lemma SharedView(mem: Memory, r: Frame, s: Frame, rpos: Positions, spos: Positions, p: seq<Index>)
    requires Shares(mem, r, s, rpos, spos) && |p| == 4 && InKernelHalf(p)
    ensures LeafAt(mem, s, p) == LeafAt(mem, r, p)
  {
  }

  /** The tables of a root after a call through another root: its own, and those the kernel half has now. */
  ghost function Graft(spos: Positions, rpos: Positions): (g: Positions)
    ensures forall f :: f in g <==> (f in spos && !InKernelHalf(spos[f])) || (f in rpos && InKernelHalf(rpos[f]))
    ensures forall f :: f in g ==> g[f] == if f in rpos && InKernelHalf(rpos[f]) then rpos[f] else spos[f]
  {
    (map f | f in spos && !InKernelHalf(spos[f]) :: spos[f]) + (map f | f in rpos && InKernelHalf(rpos[f]) :: rpos[f])
  }

  /** The entries of the tables below `s` that are not the kernel's are as they were. */
  ghost predicate LowerKept(mem: Memory, mem': Memory, spos: Positions) {
    forall f, i :: f in spos && !InKernelHalf(spos[f]) ==> f in mem' && Read(mem', f, i) == Read(mem, f, i)
  }

  /** What links root `s` to a tree of root `r` that was just changed through `r`. */
  ghost predicate Beside(mem: Memory, mem': Memory, r: Frame, rpos: Positions, s: Frame, spos: Positions) {
    && IsTree(mem, s, spos) && IsTree(mem', r, rpos) && LowerKept(mem, mem', spos)
    && (forall i :: 256 <= i < 512 ==> Read(mem, s, i) == Read(mem', r, i))
    && (forall f :: f in rpos && InKernelHalf(rpos[f]) && f in spos ==> InKernelHalf(spos[f]))
  }

  lemma GraftLeads(mem: Memory, mem': Memory, r: Frame, rpos: Positions, s: Frame, spos: Positions, f: Frame, i: Index)
    requires Beside(mem, mem', r, rpos, s, spos) && f in Graft(spos, rpos)
    ensures Leads(mem', Graft(spos, rpos), f, i)
  {
    var g := Graft(spos, rpos);
    if f in rpos && InKernelHalf(rpos[f]) {
      assert Leads(mem', rpos, f, i);
    } else {
      assert Leads(mem, spos, f, i);
      if spos[f] == [] {
        OnlyRootIsTop(mem, s, spos, f);
        assert Leads(mem', rpos, r, i);
      }
    }
  }

  lemma GraftHangs(mem: Memory, mem': Memory, r: Frame, rpos: Positions, s: Frame, spos: Positions, g: Frame)
    requires Beside(mem, mem', r, rpos, s, spos) && g in Graft(spos, rpos) && g != s
    ensures Graft(spos, rpos)[g] != [] && Hangs(mem', Graft(spos, rpos), g)
  {
    var pos := Graft(spos, rpos);
    if g in rpos && InKernelHalf(rpos[g]) {
      var p := rpos[g];
      assert g != r;
      var f := Parent(mem', r, rpos, g);
      if |p| == 1 {
        OnlyRootIsTop(mem', r, rpos, f);
        assert s in pos && pos[s] == p[..|p| - 1] && Points(mem', s, p[|p| - 1], g);
      } else {
        assert f in pos && pos[f] == p[..|p| - 1] && Points(mem', f, p[|p| - 1], g);
      }
    } else {
      var p := spos[g];
      var f := Parent(mem, s, spos, g);
      assert !InKernelHalf(spos[f]);
      assert f in pos && pos[f] == p[..|p| - 1] && Points(mem', f, p[|p| - 1], g);
    }
  }

  lemma GraftShape(mem: Memory, mem': Memory, r: Frame, rpos: Positions, s: Frame, spos: Positions)
    requires Beside(mem, mem', r, rpos, s, spos)
    ensures var pos := Graft(spos, rpos);
            s in pos && pos[s] == [] && forall f :: f in pos ==> f in mem' && |pos[f]| <= 3
  {
    hide Leads, Hangs, Graft;
    forall f | f in spos && !InKernelHalf(spos[f])
      ensures f in mem'
    {
      assert Read(mem', f, 0) == Read(mem, f, 0);
    }
  }

  /** After a call through `r` the tables of `s` form a tree again. */
  lemma GraftIsTree(mem: Memory, mem': Memory, r: Frame, rpos: Positions, s: Frame, spos: Positions)
    requires Beside(mem, mem', r, rpos, s, spos)
    ensures IsTree(mem', s, Graft(spos, rpos))
  {
    hide Beside, Leads, Hangs, Graft;
    var pos := Graft(spos, rpos);
    GraftShape(mem, mem', r, rpos, s, spos);
    forall f, i | f in pos
      ensures Leads(mem', pos, f, i)
    {
      GraftLeads(mem, mem', r, rpos, s, spos, f, i);
    }
    forall g | g in pos && g != s
      ensures pos[g] != [] && Hangs(mem', pos, g)
    {
      GraftHangs(mem, mem', r, rpos, s, spos, g);
    }
  }

  /** Pages outside the kernel half are mapped as before. */
  lemma {:induction false} LowerLeaf(mem: Memory, mem': Memory, s: Frame, spos: Positions, table: Frame,
                                     path: seq<Index>)
    requires IsTree(mem, s, spos) && LowerKept(mem, mem', spos)
    requires table in spos && |spos[table]| + |path| == 4 && !InKernelHalf(spos[table] + path)
    ensures LeafAt(mem', table, path) == LeafAt(mem, table, path)
    decreases |path|
  {
    var e := Read(mem, table, path[0]);
    assert !InKernelHalf(spos[table]);
    assert Leads(mem, spos, table, path[0]);
    if Present(e) && |path| > 1 && !IsHuge(e) {
      assert spos[e.frame] + path[1..] == spos[table] + path;
      LowerLeaf(mem, mem', s, spos, e.frame, path[1..]);
    }
  }

  // ---------------------------------------------------------------- when the others see it

  /** A call below an entry that is present changes no entry of the root, and adds tables below it only. */
  lemma RootKept(a: Snapshot, b: Snapshot, root: Frame, path: seq<Index>, i: Index)
    requires IsTree(a.mem, root, a.pos) && MapperCall(a, b, root, path)
    requires |path| == 4 && Present(Read(a.mem, root, path[0]))
    ensures Read(b.mem, root, i) == Read(a.mem, root, i)
  {
    hide LeafAt, Moved, IsTree;
    RootAtTop(a.mem, root, a.pos);
    assert a.pos[root] + [i] <= path ==> i == path[0];
  }

  lemma RootAtTop(mem: Memory, root: Frame, pos: Positions)
    requires IsTree(mem, root, pos)
    ensures root in pos && pos[root] == []
  {
  }

  /** New tables of a call in the kernel half are in the kernel half, and were free. */
  lemma NewTables(a: Snapshot, b: Snapshot, root: Frame, path: seq<Index>, f: Frame)
    requires MapperCall(a, b, root, path) && InKernelHalf(path) && f in b.pos
    ensures f in a.pos ==> b.pos[f] == a.pos[f]
    ensures f !in a.pos ==> f in a.free && InKernelHalf(b.pos[f])
  {
    hide LeafAt, Moved, IsTree;
  }

  /** What a call through `root` leaves alone: foreign tables that are not free, and its own below the other half. */
  lemma CallSpares(a: Snapshot, b: Snapshot, root: Frame, path: seq<Index>, f: Frame, i: Index)
    requires IsTree(a.mem, root, a.pos) && MapperCall(a, b, root, path) && |path| == 4 && InKernelHalf(path)
    requires Present(Read(a.mem, root, path[0]))
    requires f in a.mem && f !in a.free && (f in a.pos ==> !InKernelHalf(a.pos[f]))
    ensures f in b.mem && Read(b.mem, f, i) == Read(a.mem, f, i)
  {
    if f == root {
      RootKept(a, b, root, path, i);
    } else if f in a.pos {
      assert a.pos[f] != [];
      assert !(a.pos[f] <= path);
    }
    hide LeafAt, Moved;
  }

  /** The tables of the other root outside the kernel half are not free, nor the kernel half's in the first tree. */
  ghost predicate OwnLower(a: Snapshot, spos: Positions) {
    forall f :: f in spos && !InKernelHalf(spos[f]) ==> f !in a.free && (f in a.pos ==> !InKernelHalf(a.pos[f]))
  }

  /**
   A call through one root, for a page whose PML4 entry is present, is seen through every root that shares the
   kernel half: there both have the same pages afterwards, and the other half of the second is as it was.
   */
  lemma SeenThrough(a: Snapshot, b: Snapshot, root: Frame, path: seq<Index>, s: Frame, spos: Positions)
    requires IsTree(a.mem, root, a.pos) && MapperCall(a, b, root, path) && |path| == 4 && InKernelHalf(path)
    requires Present(Read(a.mem, root, path[0]))
    requires IsTree(a.mem, s, spos) && Shares(a.mem, root, s, a.pos, spos)
    requires OwnLower(a, spos)
    ensures IsTree(b.mem, s, Graft(spos, b.pos)) && Shares(b.mem, root, s, b.pos, Graft(spos, b.pos))
    ensures forall p: seq<Index> :: |p| == 4 && p != path ==> LeafAt(b.mem, s, p) == LeafAt(a.mem, s, p)
  {
    var g := Graft(spos, b.pos);
    SeenBeside(a, b, root, path, s, spos);
    GraftIsTree(a.mem, b.mem, root, b.pos, s, spos);
    SeenShares(a, b, root, path, s, spos);
    forall p: seq<Index> | |p| == 4 && p != path
      ensures LeafAt(b.mem, s, p) == LeafAt(a.mem, s, p)
    {
      SeenPage(a, b, root, path, s, spos, p);
    }
  }

  lemma SeenBeside(a: Snapshot, b: Snapshot, root: Frame, path: seq<Index>, s: Frame, spos: Positions)
    requires IsTree(a.mem, root, a.pos) && MapperCall(a, b, root, path) && |path| == 4 && InKernelHalf(path)
    requires Present(Read(a.mem, root, path[0]))
    requires IsTree(a.mem, s, spos) && Shares(a.mem, root, s, a.pos, spos)
    requires OwnLower(a, spos)
    ensures Beside(a.mem, b.mem, root, b.pos, s, spos)
  {
    forall f, i | f in spos && !InKernelHalf(spos[f])
      ensures f in b.mem && Read(b.mem, f, i) == Read(a.mem, f, i)
    {
      TreeInMemory(a.mem, s, spos, f);
      CallSpares(a, b, root, path, f, i);
    }
    forall i | 256 <= i < 512
      ensures Read(a.mem, s, i) == Read(b.mem, root, i)
    {
      RootKept(a, b, root, path, i);
    }
    forall f | f in b.pos && InKernelHalf(b.pos[f]) && f in spos
      ensures InKernelHalf(spos[f])
    {
      NewTables(a, b, root, path, f);
    }
    hide LeafAt, Moved, Within, IsTree;
  }

  lemma TreeInMemory(mem: Memory, root: Frame, pos: Positions, f: Frame)
    requires IsTree(mem, root, pos) && f in pos
    ensures f in mem
  {
  }

  lemma SeenShares(a: Snapshot, b: Snapshot, root: Frame, path: seq<Index>, s: Frame, spos: Positions)
    requires Beside(a.mem, b.mem, root, b.pos, s, spos)
    ensures Shares(b.mem, root, s, b.pos, Graft(spos, b.pos))
  {
    hide Graft;
    RootAtTop(a.mem, s, spos);
    hide IsTree;
  }

  lemma SeenPage(a: Snapshot, b: Snapshot, root: Frame, path: seq<Index>, s: Frame, spos: Positions, p: seq<Index>)
    requires MapperCall(a, b, root, path) && Beside(a.mem, b.mem, root, b.pos, s, spos)
    requires Shares(a.mem, root, s, a.pos, spos) && Shares(b.mem, root, s, b.pos, Graft(spos, b.pos))
    requires |p| == 4 && p != path
    ensures LeafAt(b.mem, s, p) == LeafAt(a.mem, s, p)
  {
    hide Graft, Shares, Within, Moved, LeafAt;
    if InKernelHalf(p) {
      SharedView(a.mem, root, s, a.pos, spos, p);
      SharedView(b.mem, root, s, b.pos, Graft(spos, b.pos), p);
    } else {
      RootAtTop(a.mem, s, spos);
      assert spos[s] + p == p;
      LowerLeaf(a.mem, b.mem, s, spos, s, p);
    }
  }

  /** Without that entry a page mapped through one root is not mapped through the other. */
  lemma NotSeenThrough(a: Snapshot, b: Snapshot, root: Frame, path: seq<Index>, s: Frame, spos: Positions)
    requires MapperCall(a, b, root, path) && |path| == 4 && InKernelHalf(path)
    requires !Present(Read(a.mem, root, path[0])) && Shares(a.mem, root, s, a.pos, spos)
    requires s in a.mem && s !in a.pos && s !in a.free
    ensures LeafAt(b.mem, s, path).None?
  {
    hide Moved, IsTree;
  }

  /** A page just mapped through one root is the same through the other exactly when its PML4 entry was present. */
  lemma SeenIff(a: Snapshot, b: Snapshot, root: Frame, path: seq<Index>, s: Frame, spos: Positions, leaf: Leaf)
    requires IsTree(a.mem, root, a.pos) && MapperCall(a, b, root, path) && |path| == 4 && InKernelHalf(path)
    requires LeafAt(b.mem, root, path) == Some(leaf)
    requires IsTree(a.mem, s, spos) && Shares(a.mem, root, s, a.pos, spos) && s !in a.pos
    requires OwnLower(a, spos)
    ensures LeafAt(b.mem, s, path) == Some(leaf) <==> Present(Read(a.mem, root, path[0]))
  {
    hide LeafAt, Within, Moved, Shares, Graft;
    RootAtTop(a.mem, s, spos);
    TreeInMemory(a.mem, s, spos, s);
    if Present(Read(a.mem, root, path[0])) {
      SeenThrough(a, b, root, path, s, spos);
      SharedView(b.mem, root, s, b.pos, Graft(spos, b.pos), path);
    } else {
      NotSeenThrough(a, b, root, path, s, spos);
    }
  }
}
