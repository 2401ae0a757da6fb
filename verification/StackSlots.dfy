/**
 Kernel thread stacks in virtual slots (kernel/src/sched.rs, module `stack`): a bitmap of 4096 slots of
 64 KiB, each with an unmapped lower half that guards the stack above it.
 */
module StackSlots {
  import opened Seqs

  const BASE: nat := 0xffff_ffff_b000_0000

  /** Slot `i` starts at BASE + i * 0x1_0000; the stack is its upper 0x8000 bytes. */
  function SlotBase(i: nat): nat {
    0xffff_ffff_b000_0000 + i * 0x1_0000 + 0x8000
  }

  /** Page `k` of the stack in slot `i`. */
  function PageOf(i: nat, k: nat): nat {
    SlotBase(i) + k * 0x1000
  }

  /** The first `n` pages of the stack in slot `i`. */
  function Pages(i: nat, n: nat): (r: set<nat>)
    ensures forall p :: p in r <==> exists k :: 0 <= k < n && p == PageOf(i, k)
  {
    set k | 0 <= k < n :: PageOf(i, k)
  }

  /** The page table that covers an address, by the 2 MiB region it maps; the levels above hold the kernel image too. */
  function TableOf(p: nat): nat {
    p / 0x20_0000
  }

  // ---------------------------------------------------------------- the layout

  /** Stacks of different slots do not meet, and 0x8000 bytes lie between one and the next. */
  lemma StacksApart(i: nat, j: nat)
    requires i < j
    ensures SlotBase(i) + 0x8000 + 0x8000 <= SlotBase(j)
  {
  }

  /** A page outside the stack of a slot is none of its pages. */
  lemma NotOfSlot(i: nat, p: nat)
    requires p < SlotBase(i) || SlotBase(i) + 0x8000 <= p
    ensures p !in Pages(i, 8)
  {
  }

  lemma PagesApart(i: nat, j: nat)
    requires i != j
    ensures Pages(i, 8) !! Pages(j, 8)
  {
    forall k | 0 <= k < 8
      ensures PageOf(i, k) !in Pages(j, 8)
    {
      StacksApart(if i < j then i else j, if i < j then j else i);
      NotOfSlot(j, PageOf(i, k));
    }
  }

  /** One page table covers a whole slot. */
  lemma OneTable(i: nat, k: nat)
    requires k < 8
    ensures TableOf(PageOf(i, k)) == TableOf(SlotBase(i))
  {
    var q, r := i / 32, i % 32;
    assert SlotBase(i) == (0x7ff_ffff_fd80 + q) * 0x20_0000 + (r * 0x1_0000 + 0x8000);
    DivUnique(SlotBase(i), 0x7ff_ffff_fd80 + q);
    DivUnique(PageOf(i, k), 0x7ff_ffff_fd80 + q);
  }

  lemma DivUnique(p: nat, q: nat)
    requires q * 0x20_0000 <= p < (q + 1) * 0x20_0000
    ensures TableOf(p) == q
  {
  }

  // ---------------------------------------------------------------- the bitmap

  type Word = seq<bool>

  /** `count_ones`. */
  function Ones(w: Word): nat {
    if w == [] then 0 else Ones(w[..|w| - 1]) + if w[|w| - 1] then 1 else 0
  }

  function Total(words: seq<Word>): nat {
    if words == [] then 0 else Total(words[..|words| - 1]) + Ones(words[|words| - 1])
  }

  lemma {:induction false} OnesUpdate(w: Word, b: nat, v: bool)
    requires b < |w|
    ensures Ones(w[b := v]) == Ones(w) - (if w[b] then 1 else 0) + (if v then 1 else 0)
  {
    var n := |w| - 1;
    if b < n {
      OnesUpdate(w[..n], b, v);
      assert w[b := v][..n] == w[..n][b := v];
    } else {
      assert w[b := v][..n] == w[..n];
    }
  }

  lemma {:induction false} TotalUpdate(words: seq<Word>, i: nat, w: Word)
    requires i < |words|
    ensures Total(words[i := w]) == Total(words) - Ones(words[i]) + Ones(w)
  {
    var n := |words| - 1;
    if i < n {
      TotalUpdate(words[..n], i, w);
      assert words[i := w][..n] == words[..n][i := w];
    } else {
      assert words[i := w][..n] == words[..n];
    }
  }

  datatype Slot = Slot(index: nat, base: nat, top: nat)

  /** Bit `i` of the bitmap. */
  predicate Bit(used: seq<Word>, i: nat) {
    i / 64 < |used| && i % 64 < |used[i / 64]| && used[i / 64][i % 64]
  }

  predicate Shaped(used: seq<Word>) {
    |used| == 64 && forall w :: 0 <= w < 64 ==> |used[w]| == 64
  }

  /** The bitmap says which slots are live, and how many. */
  ghost predicate Marks(used: seq<Word>, live: set<nat>) {
    && Shaped(used) && |live| == Total(used)
    && forall i: nat :: i in live <==> Bit(used, i)
  }

  function SetBit(used: seq<Word>, i: nat, v: bool): seq<Word>
    requires Shaped(used) && i < 4096
  {
    used[i / 64 := used[i / 64][i % 64 := v]]
  }

  lemma SetBitElsewhere(used: seq<Word>, i: nat, v: bool, j: nat)
    requires Shaped(used) && i < 4096
    ensures Bit(SetBit(used, i, v), j) <==> if j == i then v else Bit(used, j)
  {
    if j != i {
      assert j / 64 != i / 64 || j % 64 != i % 64;
    }
  }

  lemma SetBitMarks(used: seq<Word>, live: set<nat>, i: nat, v: bool)
    requires Marks(used, live) && i < 4096 && Bit(used, i) != v
    ensures Marks(SetBit(used, i, v), if v then live + {i} else live - {i})
  {
    OnesUpdate(used[i / 64], i % 64, v);
    TotalUpdate(used, i / 64, used[i / 64][i % 64 := v]);
    forall j: nat
      ensures j in (if v then live + {i} else live - {i}) <==> Bit(SetBit(used, i, v), j)
    {
      SetBitElsewhere(used, i, v, j);
    }
  }

  /** Exactly the stacks of the live slots are mapped. */
  ghost predicate Maps(mapped: set<nat>, live: set<nat>) {
    forall p :: p in mapped <==> exists i :: i in live && p in Pages(i, 8)
  }

  /** The lower half of every slot is unmapped, whichever slots are live. */
  lemma GuardUnmapped(mapped: set<nat>, live: set<nat>, i: nat, p: nat)
    requires Maps(mapped, live) && BASE + i * 0x1_0000 <= p < SlotBase(i)
    ensures p !in mapped
  {
    forall j | j in live
      ensures p !in Pages(j, 8)
    {
      if j < i {
        StacksApart(j, i);
      } else if i < j {
        StacksApart(i, j);
      }
      NotOfSlot(j, p);
    }
  }

  lemma MapsMore(mapped: set<nat>, live: set<nat>, i: nat)
    requires Maps(mapped, live)
    ensures Maps(mapped + Pages(i, 8), live + {i})
  {
    forall p | p in mapped
      ensures exists j :: j in live + {i} && p in Pages(j, 8)
    {
      var j :| j in live && p in Pages(j, 8);
      assert j in live + {i};
    }
  }

  lemma MapsLess(mapped: set<nat>, live: set<nat>, i: nat)
    requires Maps(mapped, live)
    ensures Maps(mapped - Pages(i, 8), live - {i})
  {
    forall p
      ensures p in mapped - Pages(i, 8) <==> exists j :: j in live - {i} && p in Pages(j, 8)
    {
      if j :| j in live - {i} && p in Pages(j, 8) {
        PagesApart(i, j);
      }
      if p in mapped - Pages(i, 8) {
        var j :| j in live && p in Pages(j, 8);
        assert j in live - {i};
      }
    }
  }

  lemma NotLiveUnmapped(mapped: set<nat>, live: set<nat>, i: nat)
    requires Maps(mapped, live) && i !in live
    ensures mapped !! Pages(i, 8)
  {
    forall p | p in mapped
      ensures p !in Pages(i, 8)
    {
      var j :| j in live && p in Pages(j, 8);
      PagesApart(i, j);
    }
  }

  lemma PagesGrow(i: nat, n: nat)
    ensures Pages(i, n + 1) == Pages(i, n) + {PageOf(i, n)}
  {
    assert PageOf(i, n) in Pages(i, n + 1);
  }

  lemma PagesNested(i: nat, m: nat, n: nat)
    requires m <= n
    ensures Pages(i, m) <= Pages(i, n)
  {
  }

  lemma SetBack(used: seq<Word>, i: nat)
    requires Shaped(used) && i < 4096 && !Bit(used, i)
    ensures Shaped(SetBit(used, i, true)) && SetBit(SetBit(used, i, true), i, false) == used
  {
    var w := used[i / 64];
    assert w[i % 64 := true][i % 64 := false] == w;
  }

  lemma LiveInRange(used: seq<Word>, live: set<nat>, i: nat)
    requires Marks(used, live) && i in live
    ensures i < 4096 && Bit(used, i)
  {
  }

  /** Slot `i` is the lowest one that is not live. */
  ghost predicate LowestFree(live: set<nat>, i: nat) {
    i < 4096 && i !in live && forall j :: 0 <= j < i ==> j in live
  }

  ghost predicate AllLive(live: set<nat>) {
    forall i :: 0 <= i < 4096 ==> i in live
  }

  lemma LowestMarked(used: seq<Word>, live: set<nat>, i: nat)
    requires Marks(used, live) && i < 4096 && !Bit(used, i) && forall j :: 0 <= j < i ==> Bit(used, j)
    ensures i !in live && !AllLive(live) && forall j :: LowestFree(live, j) <==> j == i
  {
  }

  lemma MarksShaped(used: seq<Word>, live: set<nat>)
    requires Marks(used, live)
    ensures Shaped(used)
  {
  }

  lemma AllMarked(used: seq<Word>, live: set<nat>)
    requires Marks(used, live) && forall i :: 0 <= i < 4096 ==> Bit(used, i)
    ensures AllLive(live) && forall i :: !LowestFree(live, i)
  {
  }

  lemma {:induction false} NoOnes(w: Word)
    requires forall b :: 0 <= b < |w| ==> !w[b]
    ensures Ones(w) == 0
  {
    if w != [] {
      NoOnes(w[..|w| - 1]);
    }
  }

  lemma {:induction false} NoTotal(words: seq<Word>)
    requires forall i, b :: 0 <= i < |words| && 0 <= b < |words[i]| ==> !words[i][b]
    ensures Total(words) == 0
  {
    if words != [] {
      NoTotal(words[..|words| - 1]);
      NoOnes(words[|words| - 1]);
    }
  }

  lemma NoneLive(used: seq<Word>)
    requires Shaped(used) && forall i, b :: 0 <= i < |used| && 0 <= b < |used[i]| ==> !used[i][b]
    ensures Marks(used, {}) && Maps({}, {})
  {
    NoTotal(used);
  }

  // ---------------------------------------------------------------- the allocator

  class Stacks {
    var used: seq<Word>
    var mapped: set<nat>
    var tables: set<nat>
    var frames: nat
    ghost var live: set<nat>

    ghost predicate Valid()
      reads this
    {
      Marks(used, live) && Maps(mapped, live)
    }

    /** Nothing is allocated; some page tables of the region may exist already. */
    constructor (tables: set<nat>, frames: nat)
      ensures Valid() && live == {} && mapped == {} && this.tables == tables && this.frames == frames
    {
      used, mapped, this.tables, this.frames := seq(64, _ => seq(64, _ => false)), {}, tables, frames;
      live := {};
      new;
      NoneLive(used);
    }

    /** `trailing_ones`. */
    method TrailingOnes(w: Word) returns (b: nat)
      ensures b <= |w| && (forall k :: 0 <= k < b ==> w[k]) && (b < |w| ==> !w[b])
    {
      b := 0;
      while b < |w| && w[b]
        invariant b <= |w| && forall k :: 0 <= k < b ==> w[k]
      {
        b := b + 1;
      }
    }

    /** Marks the lowest free slot. */
    method Take() returns (r: Option<nat>)
      requires Valid()
      modifies this`used
      ensures r.None? ==> used == old(used) && forall i :: 0 <= i < 4096 ==> Bit(used, i)
      ensures r.Some? ==>
                && r.value < 4096 && !old(Bit(used, r.value)) && used == SetBit(old(used), r.value, true)
                && forall i :: 0 <= i < r.value ==> old(Bit(used, i))
    {
      var w := 0;
      while w < 64
        invariant w <= 64 && used == old(used)
        invariant forall i :: 0 <= i < 64 * w ==> Bit(used, i)
      {
        var b := TrailingOnes(used[w]);
        if b < 64 {
          var i := w * 64 + b;
          assert i / 64 == w && i % 64 == b;
          forall j | 0 <= j < i
            ensures Bit(used, j)
          {
            if j >= 64 * w {
              assert j / 64 == w && j % 64 < b;
            }
          }
          used := used[w := used[w][b := true]];
          return Some(i);
        }
        forall j | 64 * w <= j < 64 * (w + 1)
          ensures Bit(used, j)
        {
          assert j / 64 == w;
        }
        w := w + 1;
      }
      return None;
    }

    /** Frames that mapping a page takes: its own, and one for the page table if there is none yet. */
    ghost function Needed(p: nat): nat
      reads this
    {
      if TableOf(p) in tables then 1 else 2
    }

    /** `alloc_and_map`: fails when the page frame or the page table frame can not be had. */
    method MapPage(p: nat) returns (ok: bool)
      modifies this`mapped, this`tables, this`frames
      ensures ok == (old(frames) >= old(Needed(p)))
      ensures ok ==>
                mapped == old(mapped) + {p} && tables == old(tables) + {TableOf(p)} && frames == old(frames - Needed(p))
      ensures !ok ==> mapped == old(mapped) && tables == old(tables) && frames == old(frames)
    {
      if frames == 0 {
        return false;
      }
      frames := frames - 1;
      if TableOf(p) !in tables {
        if frames == 0 {
          frames := frames + 1;
          return false;
        }
        frames := frames - 1;
        tables := tables + {TableOf(p)};
      }
      mapped := mapped + {p};
      return true;
    }

    /** `unmap_and_free`. */
    method UnmapPage(p: nat)
      modifies this`mapped, this`frames
      ensures mapped == old(mapped) - {p} && frames == old(frames) + 1
    {
      mapped := mapped - {p};
      frames := frames + 1;
    }

    /** Unmaps the first `n` pages of the stack in slot `i`. */
    method UnmapPages(i: nat, n: nat)
      modifies this`mapped, this`frames
      ensures mapped == old(mapped) - Pages(i, n) && frames == old(frames) + n
    {
      var k := 0;
      while k < n
        invariant k <= n && mapped == old(mapped) - Pages(i, k) && frames == old(frames) + k
      {
        PagesGrow(i, k);
        UnmapPage(SlotBase(i) + k * 0x1000);
        k := k + 1;
      }
    }

    /** Frames that the stack in slot `i` takes. */
    ghost function StackNeeds(i: nat): nat
      reads this
    {
      if TableOf(SlotBase(i)) in tables then 8 else 9
    }

    /** A page table made for the first page stays when a later page fails. */
    ghost function TablesLeft(i: nat): set<nat>
      reads this
    {
      if frames >= 2 then tables + {TableOf(SlotBase(i))} else tables
    }

    /** Maps the stack in slot `i`, or no page of it. */
    method MapStack(i: nat) returns (ok: bool)
      requires mapped !! Pages(i, 8)
      modifies this`mapped, this`tables, this`frames
      ensures ok == (old(frames) >= old(StackNeeds(i)))
      ensures ok ==>
                && mapped == old(mapped) + Pages(i, 8) && tables == old(tables) + {TableOf(SlotBase(i))}
                && frames == old(frames - StackNeeds(i))
      ensures !ok ==>
                && mapped == old(mapped) && tables == old(TablesLeft(i))
                && frames == old(frames) - if tables == old(tables) then 0 else 1
    {
      ghost var t := if TableOf(SlotBase(i)) in tables then 0 else 1;
      var k := 0;
      while k < 8
        invariant k <= 8 && mapped == old(mapped) + Pages(i, k)
        invariant k == 0 ==> tables == old(tables) && frames == old(frames)
        invariant k > 0 ==> tables == old(tables) + {TableOf(SlotBase(i))} && frames + k + t == old(frames)
      {
        PagesGrow(i, k);
        OneTable(i, k);
        var done := MapPage(SlotBase(i) + k * 0x1000);
        if !done {
          PagesNested(i, k, 8);
          UnmapPages(i, k);
          assert old(mapped) + Pages(i, k) - Pages(i, k) == old(mapped);
          return false;
        }
        k := k + 1;
      }
      return true;
    }

    /**
     The lowest free slot, with its stack mapped.  It fails exactly when there is no free slot or not enough
     frames for the pages and a missing page table; then no slot and no page is taken, but the table may stay.
     */
    method Alloc() returns (r: Option<Slot>)
      requires Valid()
      modifies this
      ensures Valid()
      ensures r.None? ==> used == old(used) && mapped == old(mapped) && live == old(live)
      ensures AllLive(old(live)) ==> r.None? && tables == old(tables) && frames == old(frames)
      ensures forall i :: old(LowestFree(live, i) && frames < StackNeeds(i)) ==>
                && r.None? && tables == old(TablesLeft(i))
                && frames == old(frames) - if tables == old(tables) then 0 else 1
      ensures forall i :: old(LowestFree(live, i) && frames >= StackNeeds(i)) ==>
                && r == Some(Slot(i, SlotBase(i), SlotBase(i) + 0x8000))
                && live == old(live) + {i} && mapped == old(mapped) + Pages(i, 8)
                && tables == old(tables) + {TableOf(SlotBase(i))} && frames == old(frames - StackNeeds(i))
    {
      hide Marks, Maps, Pages, Shaped, LowestFree, Bit;
      MarksShaped(used, live);
      var index := Take();
      if index.None? {
        AllMarked(used, live);
        return None;
      }
      var i := index.value;
      LowestMarked(old(used), live, i);
      NotLiveUnmapped(mapped, live, i);
      var ok := MapStack(i);
      if !ok {
        SetBack(old(used), i);
        used := SetBit(used, i, false);
        return None;
      }
      SetBitMarks(old(used), live, i, true);
      MapsMore(old(mapped), live, i);
      live := live + {i};
      return Some(Slot(i, SlotBase(i), SlotBase(i) + 0x8000));
    }

    method Free(s: Slot)
      requires Valid() && s.index in live && s.base == SlotBase(s.index)
      modifies this
      ensures Valid() && live == old(live) - {s.index}
      ensures mapped == old(mapped) - Pages(s.index, 8) && frames == old(frames) + 8
    {
      LiveInRange(used, live, s.index);
      UnmapPages(s.index, 8);
      SetBitMarks(used, live, s.index, false);
      MapsLess(old(mapped), live, s.index);
      used := SetBit(used, s.index, false);
      live := live - {s.index};
    }

    /** The number of live slots, from the bitmap. */
    method InUse() returns (n: nat)
      requires Valid()
      ensures n == |live|
    {
      n := 0;
      var w := 0;
      while w < |used|
        invariant w <= |used| && n == Total(used[..w])
      {
        assert used[..w + 1][..w] == used[..w];
        var ones := CountOnes(used[w]);
        n := n + ones;
        w := w + 1;
      }
      assert used[..w] == used;
    }

    method CountOnes(word: Word) returns (n: nat)
      ensures n == Ones(word)
    {
      n := 0;
      var b := 0;
      while b < |word|
        invariant b <= |word| && n == Ones(word[..b])
      {
        assert word[..b + 1][..b] == word[..b];
        n := n + if word[b] then 1 else 0;
        b := b + 1;
      }
      assert word[..b] == word;
    }
  }
}
