/**
 The four-level page-table mapper of arch/x86_64/src/paging.rs, over physical memory updated in place.

 `LeafAt` reads the tree the way the hardware does.  It is the flat map the mapper refines: what it
 says for each path of four table indices is all that a translation depends on.
 */
module Paging {
  import opened Seqs

  /** Addresses are 64-bit values; a frame is the number of a 4 KiB page of physical memory. */
  type Virt = nat
  type Phys = nat
  type Frame = int
  type Index = int

  /** The set bits of a flags word, bits 12..51 excepted. */
  type Flags = set<nat>

  const PRESENT: nat := 0
  const WRITABLE: nat := 1
  const USER: nat := 2
  const HUGE: nat := 7

  // ---------------------------------------------------------------- entries and addresses

  /** The address bits and the flag bits of an entry; the empty entry has neither. */
  datatype Entry = Entry(frame: Address, flags: Flags)

  /** The frame numbers that fit in bits 12..51. */
  type Address = f: Frame | 0 <= f < 0x100_0000_0000

  const EMPTY := Entry(0, {})

  /** The flag bits that do not fall on the address. */
  function FlagBits(flags: Flags): Flags {
    set b | b in flags && !(12 <= b < 52)
  }

  /** Address bits outside 12..51 are dropped, and so are flag bits inside them. */
  function EntryOf(phys: Phys, flags: Flags): Entry {
    Entry(phys / 0x1000 % 0x100_0000_0000, FlagBits(flags))
  }

  predicate Present(e: Entry) {
    PRESENT in e.flags
  }

  predicate IsHuge(e: Entry) {
    HUGE in e.flags
  }

  function TableIndex(v: Virt, level: nat): Index
    requires 1 <= level <= 4
  {
    if level == 4 then v / 0x80_0000_0000 % 512
    else if level == 3 then v / 0x4000_0000 % 512
    else if level == 2 then v / 0x20_0000 % 512
    else v / 0x1000 % 512
  }

  /** The four indices that lead to the page of `v`, from the PML4 down. */
  function Path(v: Virt): (p: seq<Index>)
    ensures |p| == 4 && forall level :: 1 <= level <= 4 ==> p[4 - level] == TableIndex(v, level)
  {
    [TableIndex(v, 4), TableIndex(v, 3), TableIndex(v, 2), TableIndex(v, 1)]
  }

  /** Bits 48..63 of the address equal bit 47. */
  predicate Canonical(v: Virt) {
    v < 0x8000_0000_0000 || 0xffff_8000_0000_0000 <= v < 0x1_0000_0000_0000_0000
  }

  lemma TopNumber(v: Virt)
    ensures v / 0x80_0000_0000 == 512 * (v / 0x1_0000_0000_0000) + TableIndex(v, 4)
  {
  }

  lemma DirectoryNumber(v: Virt)
    ensures v / 0x20_0000 == 512 * (v / 0x4000_0000) + TableIndex(v, 2)
    ensures v / 0x4000_0000 == 512 * (v / 0x80_0000_0000) + TableIndex(v, 3)
  {
  }

  /** A page number is made of the four indices and the bits above them. */
  lemma PageNumber(v: Virt)
    ensures v / 0x1000 == 512 * (v / 0x20_0000) + TableIndex(v, 1)
    ensures v / 0x20_0000 == 512 * (v / 0x4000_0000) + TableIndex(v, 2)
    ensures v / 0x4000_0000 == 512 * (v / 0x80_0000_0000) + TableIndex(v, 3)
    ensures v / 0x80_0000_0000 == 512 * (v / 0x1_0000_0000_0000) + TableIndex(v, 4)
  {
    DirectoryNumber(v);
    TopNumber(v);
  }

  /** Bit 47, the top bit of the PML4 index, tells the two canonical halves apart. */
  lemma CanonicalTop(v: Virt)
    requires Canonical(v)
    ensures v / 0x1_0000_0000_0000 == if TableIndex(v, 4) < 256 then 0 else 0xffff
    ensures TableIndex(v, 4) < 256 <==> v < 0x8000_0000_0000
  {
    var d := v / 0x80_0000_0000;
    TopNumber(v);
    assert if v < 0x8000_0000_0000 then 0 <= d < 256 else 0x1ff_ff00 <= d < 0x200_0000;
  }

  /** Canonical addresses have the same path exactly when they are on the same 4 KiB page. */
  lemma PathIsPage(v: Virt, w: Virt)
    requires Canonical(v) && Canonical(w)
    ensures Path(v) == Path(w) <==> v / 0x1000 == w / 0x1000
  {
    if Path(v) == Path(w) {
      assert Path(v)[0] == Path(w)[0] && Path(v)[1] == Path(w)[1];
      assert Path(v)[2] == Path(w)[2] && Path(v)[3] == Path(w)[3];
      PageNumber(v);
      PageNumber(w);
      CanonicalTop(v);
      CanonicalTop(w);
    } else if v / 0x1000 == w / 0x1000 {
      PageIndices(v, w);
    }
  }

  /** Canonical addresses agree on the first three indices exactly when they are on the same 2 MiB page. */
  lemma PathIsBigPage(v: Virt, w: Virt)
    requires Canonical(v) && Canonical(w)
    ensures Path(v)[..3] == Path(w)[..3] <==> v / 0x20_0000 == w / 0x20_0000
  {
    DirectoryNumber(v);
    DirectoryNumber(w);
    TopNumber(v);
    TopNumber(w);
    if Path(v)[..3] == Path(w)[..3] {
      assert Path(v)[..3][0] == Path(w)[..3][0] && Path(v)[..3][1] == Path(w)[..3][1];
      assert Path(v)[..3][2] == Path(w)[..3][2];
      CanonicalTop(v);
      CanonicalTop(w);
    }
  }

  lemma PageIndices(v: Virt, w: Virt)
    requires v / 0x1000 == w / 0x1000
    ensures forall level :: 1 <= level <= 4 ==> TableIndex(v, level) == TableIndex(w, level)
  {
    PageNumber(v);
    PageNumber(w);
  }

  lemma EmptyOrNot(s: set<Frame>)
    ensures s == {} || exists f :: f in s
  {
    if forall f :: f !in s {
      assert s == {};
    }
  }

  // ---------------------------------------------------------------- the tree as a flat map

  /** A table maps an index to its entry; an absent index holds the empty entry. */
  type Table = map<Index, Entry>
  type Memory = map<Frame, Table>

  function Read(mem: Memory, table: Frame, i: Index): Entry {
    if table in mem && i in mem[table] then mem[table][i] else EMPTY
  }

  function Write(mem: Memory, table: Frame, i: Index, e: Entry): Memory
    requires table in mem
  {
    mem[table := mem[table][i := e]]
  }

  /** The entry that maps a page, and the level of the table it is in. */
  datatype Leaf = Leaf(entry: Entry, level: nat)

  /** Follows `path` from `table`, whose level is the length of the path. */
  function LeafAt(mem: Memory, table: Frame, path: seq<Index>): (r: Option<Leaf>)
    requires 1 <= |path| <= 4
    ensures r.Some? ==> Present(r.value.entry) && 1 <= r.value.level <= 3 && r.value.level <= |path|
    decreases |path|
  {
    var e := Read(mem, table, path[0]);
    if !Present(e) then None
    else if |path| == 1 then Some(Leaf(e, 1))
    else if IsHuge(e) && |path| <= 3 then Some(Leaf(e, |path|))
    else LeafAt(mem, e.frame, path[1..])
  }

  /** The tables of the tree and where each is: the indices that lead to it. */
  type Positions = map<Frame, seq<Index>>

  ghost predicate Points(mem: Memory, f: Frame, i: Index, g: Frame) {
    var e := Read(mem, f, i);
    Present(e) && !IsHuge(e) && e.frame == g
  }

  /** A present entry that is not a big page leads to the table placed there; the PML4 has no big pages. */
  ghost predicate Leads(mem: Memory, pos: Positions, f: Frame, i: Index)
    requires f in pos
  {
    var e := Read(mem, f, i);
    Present(e) ==>
      && (pos[f] == [] ==> !IsHuge(e))
      && (|pos[f]| < 3 && !IsHuge(e) ==> e.frame in pos && pos[e.frame] == pos[f] + [i])
  }

  /** Every table but the root hangs from the table one step up. */
  ghost predicate Hangs(mem: Memory, pos: Positions, g: Frame)
    requires g in pos && pos[g] != []
  {
    var p := pos[g];
    exists f :: f in pos && pos[f] == p[..|p| - 1] && Points(mem, f, p[|p| - 1], g)
  }

  /** `pos` places exactly the tables of the tree, each of them once. */
  ghost predicate IsTree(mem: Memory, root: Frame, pos: Positions) {
    && root in pos && pos[root] == []
    && (forall f :: f in pos ==> f in mem && |pos[f]| <= 3)
    && (forall f, i :: f in pos ==> Leads(mem, pos, f, i))
    && (forall g :: g in pos && g != root ==> pos[g] != [] && Hangs(mem, pos, g))
  }

  /** Every page is mapped as before. */
  ghost predicate SameMap(mem: Memory, mem': Memory, root: Frame) {
    forall p: seq<Index> :: |p| == 4 ==> LeafAt(mem', root, p) == LeafAt(mem, root, p)
  }

  /** The pages whose path starts with `prefix` are now mapped by `leaf`, and no other page changed. */
  ghost predicate Remapped(mem: Memory, mem': Memory, root: Frame, prefix: seq<Index>, leaf: Option<Leaf>) {
    forall p: seq<Index> :: |p| == 4 ==>
      LeafAt(mem', root, p) == if prefix <= p then leaf else LeafAt(mem, root, p)
  }

  lemma ReadWrite(mem: Memory, t: Frame, i: Index, e: Entry, f: Frame, j: Index)
    requires t in mem
    ensures Read(Write(mem, t, i, e), f, j) == if f == t && j == i then e else Read(mem, f, j)
  {
  }

  lemma Parent(mem: Memory, root: Frame, pos: Positions, t: Frame) returns (f: Frame)
    requires IsTree(mem, root, pos) && t in pos && t != root
    ensures var p := pos[t]; p != [] && f in pos && pos[f] == p[..|p| - 1] && Points(mem, f, p[|p| - 1], t)
  {
    var p := pos[t];
    assert Hangs(mem, pos, t);
    f :| f in pos && pos[f] == p[..|p| - 1] && Points(mem, f, p[|p| - 1], t);
  }

  /** No two tables have the same position. */
  lemma {:induction false} OnePosition(mem: Memory, root: Frame, pos: Positions, t: Frame, u: Frame)
    requires IsTree(mem, root, pos) && t in pos && u in pos && pos[t] == pos[u]
    ensures t == u
    decreases |pos[t]|
  {
    if t != root && u != root {
      var f := Parent(mem, root, pos, t);
      var g := Parent(mem, root, pos, u);
      OnePosition(mem, root, pos, f, g);
    }
  }

  /** A table somewhere below entry `i` of `f` hangs from that entry. */
  lemma {:induction false} AboveLeads(mem: Memory, root: Frame, pos: Positions, f: Frame, i: Index, t: Frame)
    requires IsTree(mem, root, pos) && f in pos && t in pos && pos[f] + [i] <= pos[t]
    ensures Present(Read(mem, f, i)) && !IsHuge(Read(mem, f, i))
    decreases |pos[t]|
  {
    var g := Parent(mem, root, pos, t);
    if pos[t] == pos[f] + [i] {
      OnePosition(mem, root, pos, f, g);
    } else {
      AboveLeads(mem, root, pos, f, i, g);
    }
  }

  lemma PrefixIsWhole(p: seq<Index>, q: seq<Index>)
    requires |p| == |q|
    ensures p <= q <==> p == q
  {
  }

  /** A lookup along the position of a table gets to that table. */
  lemma {:induction false} LeafThrough(mem: Memory, root: Frame, pos: Positions, t: Frame, rest: seq<Index>)
    requires IsTree(mem, root, pos) && t in pos && 1 <= |rest| && |pos[t]| + |rest| == 4
    ensures LeafAt(mem, root, pos[t] + rest) == LeafAt(mem, t, rest)
    decreases |pos[t]|
  {
    var p := pos[t];
    if t == root {
      assert p + rest == rest;
    } else {
      var i := p[|p| - 1];
      var f := Parent(mem, root, pos, t);
      LeafThrough(mem, root, pos, f, [i] + rest);
      assert pos[f] + ([i] + rest) == p + rest;
      assert ([i] + rest)[1..] == rest;
    }
  }

  /** A lookup that does not pass through the entry written is not affected. */
  lemma {:induction false} LeafElsewhere(mem: Memory, root: Frame, pos: Positions, table: Frame, path: seq<Index>,
                                         t: Frame, i: Index, e: Entry)
    requires IsTree(mem, root, pos) && table in pos && |pos[table]| + |path| == 4
    requires t in pos && !(pos[t] + [i] <= pos[table] + path)
    ensures LeafAt(Write(mem, t, i, e), table, path) == LeafAt(mem, table, path)
    decreases |path|
  {
    var d := Read(mem, table, path[0]);
    assert (pos[table] + path)[..|pos[table]| + 1] == pos[table] + [path[0]];
    ReadWrite(mem, t, i, e, table, path[0]);
    assert Leads(mem, pos, table, path[0]);
    if Present(d) && |path| > 1 && !IsHuge(d) {
      assert pos[d.frame] + path[1..] == pos[table] + path;
      LeafElsewhere(mem, root, pos, d.frame, path[1..], t, i, e);
    }
  }

  // ---------------------------------------------------------------- writing a leaf

  /** An entry that ends a lookup at its level: absent, a 4 KiB page, or a big page below the PML4. */
  ghost predicate Ends(e: Entry, depth: nat) {
    !Present(e) || depth == 3 || (IsHuge(e) && depth > 0)
  }

  function LeafOf(e: Entry, depth: nat): Option<Leaf>
    requires depth <= 3
  {
    if Present(e) then Some(Leaf(e, 4 - depth)) else None
  }

  /** Replacing one leaf entry by another keeps the tree and every table where it is. */
  lemma LeafKeepsTree(mem: Memory, root: Frame, pos: Positions, t: Frame, i: Index, e: Entry)
    requires IsTree(mem, root, pos) && t in pos
    requires Ends(Read(mem, t, i), |pos[t]|) && Ends(e, |pos[t]|)
    ensures IsTree(Write(mem, t, i, e), root, pos)
  {
    var mem' := Write(mem, t, i, e);
    forall f, j | f in pos
      ensures Leads(mem', pos, f, j)
    {
      assert Leads(mem, pos, f, j);
      ReadWrite(mem, t, i, e, f, j);
    }
    forall g | g in pos && g != root
      ensures Hangs(mem', pos, g)
    {
      var p := pos[g];
      assert Hangs(mem, pos, g);
      var f :| f in pos && pos[f] == p[..|p| - 1] && Points(mem, f, p[|p| - 1], g);
      ReadWrite(mem, t, i, e, f, p[|p| - 1]);
      assert Points(mem', f, p[|p| - 1], g);
    }
  }

  /** Writing a leaf entry remaps exactly the pages below it. */
  lemma LeafRemaps(mem: Memory, root: Frame, pos: Positions, t: Frame, i: Index, e: Entry)
    requires IsTree(mem, root, pos) && t in pos
    requires Ends(Read(mem, t, i), |pos[t]|) && Ends(e, |pos[t]|)
    ensures Remapped(mem, Write(mem, t, i, e), root, pos[t] + [i], LeafOf(e, |pos[t]|))
  {
    LeafKeepsTree(mem, root, pos, t, i, e);
    forall p: seq<Index> | |p| == 4
      ensures LeafAt(Write(mem, t, i, e), root, p) ==
              if pos[t] + [i] <= p then LeafOf(e, |pos[t]|) else LeafAt(mem, root, p)
    {
      LeafRemapsAt(mem, root, pos, t, i, e, p);
    }
  }

  lemma LeafRemapsAt(mem: Memory, root: Frame, pos: Positions, t: Frame, i: Index, e: Entry, p: seq<Index>)
    requires IsTree(mem, root, pos) && t in pos && IsTree(Write(mem, t, i, e), root, pos) && |p| == 4
    requires Ends(e, |pos[t]|)
    ensures LeafAt(Write(mem, t, i, e), root, p) ==
            if pos[t] + [i] <= p then LeafOf(e, |pos[t]|) else LeafAt(mem, root, p)
  {
    if pos[t] + [i] <= p {
      var rest := p[|pos[t]|..];
      assert rest[0] == p[|pos[t]|] == i;
      assert p == pos[t] + rest;
      LeafThrough(Write(mem, t, i, e), root, pos, t, rest);
      ReadWrite(mem, t, i, e, t, i);
    } else {
      assert pos[root] + p == p;
      LeafElsewhere(mem, root, pos, root, p, t, i, e);
    }
  }

  // ---------------------------------------------------------------- adding a table

  /** A fresh zeroed table hung from entry `i` of `t`. */
  function Hang(mem: Memory, t: Frame, i: Index, f: Frame, flags: Flags): Memory
    requires t in mem && 0 <= f < 0x100_0000_0000
  {
    Write(mem[f := map[]], t, i, Entry(f, flags))
  }

  lemma ReadHang(mem: Memory, t: Frame, i: Index, f: Frame, flags: Flags, g: Frame, j: Index)
    requires t in mem && t != f && 0 <= f < 0x100_0000_0000
    ensures Read(Hang(mem, t, i, f, flags), g, j) ==
            if g == t && j == i then Entry(f, flags) else if g == f then EMPTY else Read(mem, g, j)
  {
  }

  lemma HangKeepsTree(mem: Memory, root: Frame, pos: Positions, t: Frame, i: Index, f: Frame, flags: Flags)
    requires IsTree(mem, root, pos) && t in pos && |pos[t]| < 3 && f !in pos && 0 <= f < 0x100_0000_0000
    requires !Present(Read(mem, t, i)) && PRESENT in flags && HUGE !in flags
    ensures IsTree(Hang(mem, t, i, f, flags), root, pos[f := pos[t] + [i]])
  {
    var mem', pos' := Hang(mem, t, i, f, flags), pos[f := pos[t] + [i]];
    forall g, j | g in pos'
      ensures Leads(mem', pos', g, j)
    {
      ReadHang(mem, t, i, f, flags, g, j);
      if g in pos {
        assert Leads(mem, pos, g, j);
      }
    }
    forall g | g in pos' && g != root
      ensures pos'[g] != [] && Hangs(mem', pos', g)
    {
      var p := pos'[g];
      if g == f {
        ReadHang(mem, t, i, f, flags, t, i);
        assert p[..|p| - 1] == pos'[t] && Points(mem', t, p[|p| - 1], g);
      } else {
        assert Hangs(mem, pos, g);
        var h :| h in pos && pos[h] == p[..|p| - 1] && Points(mem, h, p[|p| - 1], g);
        ReadHang(mem, t, i, f, flags, h, p[|p| - 1]);
        assert Points(mem', h, p[|p| - 1], g) && pos'[h] == p[..|p| - 1];
      }
    }
  }

  /** Lookups do not notice a fresh empty table. */
  lemma {:induction false} HangUnseen(mem: Memory, root: Frame, pos: Positions, t: Frame, i: Index, f: Frame,
                                      flags: Flags, table: Frame, path: seq<Index>)
    requires IsTree(mem, root, pos) && t in pos && |pos[t]| < 3 && f !in pos && 0 <= f < 0x100_0000_0000
    requires !Present(Read(mem, t, i)) && PRESENT in flags && HUGE !in flags
    requires table in pos && |pos[table]| + |path| == 4
    ensures LeafAt(Hang(mem, t, i, f, flags), table, path) == LeafAt(mem, table, path)
    decreases |path|
  {
    var d := Read(mem, table, path[0]);
    ReadHang(mem, t, i, f, flags, table, path[0]);
    assert Leads(mem, pos, table, path[0]);
    if table == t && path[0] == i {
      ReadHang(mem, t, i, f, flags, f, path[1]);
    } else if Present(d) && |path| > 1 && !IsHuge(d) {
      HangUnseen(mem, root, pos, t, i, f, flags, d.frame, path[1..]);
    }
  }

  lemma HangSameMap(mem: Memory, root: Frame, pos: Positions, t: Frame, i: Index, f: Frame, flags: Flags)
    requires IsTree(mem, root, pos) && t in pos && |pos[t]| < 3 && f !in pos && 0 <= f < 0x100_0000_0000
    requires !Present(Read(mem, t, i)) && PRESENT in flags && HUGE !in flags
    ensures SameMap(mem, Hang(mem, t, i, f, flags), root)
  {
    forall p: seq<Index> | |p| == 4
      ensures LeafAt(Hang(mem, t, i, f, flags), root, p) == LeafAt(mem, root, p)
    {
      HangUnseen(mem, root, pos, t, i, f, flags, root, p);
    }
  }

  // ---------------------------------------------------------------- what one call may write

  /**
   Tables outside the tree keep their contents, tables of the tree change only on `path`, where entries that
   are present change only in page tables, and new tables come from the free frames and are on `path`.
   */
  ghost predicate Within(mem: Memory, mem': Memory, pos: Positions, pos': Positions, free: set<Frame>,
                         path: seq<Index>) {
    && (forall f :: f in mem && f !in pos && f !in free ==> f in mem' && mem'[f] == mem[f])
    && (forall f :: f in pos ==> f in pos' && pos'[f] == pos[f])
    && (forall f, i :: f in pos && Read(mem', f, i) != Read(mem, f, i) ==>
          pos[f] + [i] <= path && (Present(Read(mem, f, i)) ==> |pos[f]| == 3))
    && (forall f :: f in mem && f in pos && !(pos[f] <= path) ==> f in mem' && mem'[f] == mem[f])
    && (forall f :: f in pos' && f !in pos ==> f in free && pos'[f] != [] && pos'[f] <= path)
  }

  lemma WithinTrans(a: Memory, b: Memory, c: Memory, p: Positions, q: Positions, r: Positions,
                    free: set<Frame>, free': set<Frame>, path: seq<Index>)
    requires Within(a, b, p, q, free, path) && Within(b, c, q, r, free', path) && free' <= free
    ensures Within(a, c, p, r, free, path)
  {
  }

  lemma HangWithin(mem: Memory, pos: Positions, t: Frame, i: Index, f: Frame, flags: Flags, free: set<Frame>,
                   path: seq<Index>)
    requires t in mem && t in pos && f in free && f !in pos && 0 <= f < 0x100_0000_0000 && pos[t] + [i] <= path
    requires !Present(Read(mem, t, i))
    ensures Within(mem, Hang(mem, t, i, f, flags), pos, pos[f := pos[t] + [i]], free, path)
  {
    forall g, j | g in pos && Read(Hang(mem, t, i, f, flags), g, j) != Read(mem, g, j)
      ensures pos[g] + [j] <= path && !Present(Read(mem, g, j))
    {
      ReadHang(mem, t, i, f, flags, g, j);
    }
  }

  lemma WriteWithin(mem: Memory, pos: Positions, t: Frame, i: Index, e: Entry, free: set<Frame>, path: seq<Index>)
    requires t in mem && t in pos && pos[t] + [i] <= path && (Present(Read(mem, t, i)) ==> |pos[t]| == 3)
    ensures Within(mem, Write(mem, t, i, e), pos, pos, free, path)
  {
    forall g, j | g in pos && Read(Write(mem, t, i, e), g, j) != Read(mem, g, j)
      ensures pos[g] + [j] <= path && (Present(Read(mem, g, j)) ==> |pos[g]| == 3)
    {
      ReadWrite(mem, t, i, e, g, j);
    }
  }
}
