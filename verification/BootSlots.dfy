/** The A/B slot state of abi/boot/src/lib.rs: which system to boot, and its block on disk. */
module BootSlots {
  import opened Seqs
  import opened Crc

  /** `successful` is 1 once a boot of the slot was confirmed; the byte can hold other values. */
  datatype Slot = Slot(priority: Byte, tries: Byte, successful: Byte)

  datatype State = State(a: Slot, b: Slot, lastSelected: Byte) {
    /** Slot 0 is A, slot 1 is B. */
    function At(i: nat): Slot
      requires i < 2
    {
      if i == 0 then a else b
    }

    function With(i: nat, s: Slot): State
      requires i < 2
    {
      if i == 0 then this.(a := s) else this.(b := s)
    }
  }

  const BYTES: nat := 512

  /** "NEXOSLAB", the little-endian bytes of the magic number. */
  const MAGIC: seq<Byte> := [0x4e, 0x45, 0x58, 0x4f, 0x53, 0x4c, 0x41, 0x42]

  const VERSION: seq<Byte> := [1, 0, 0, 0]

  // ---------------------------------------------------------------- choosing

  predicate Eligible(s: State, i: nat)
    requires i < 2
  {
    s.At(i).successful == 1 || s.At(i).tries > 0
  }

  /** The eligible slot of highest priority; A wins a tie. */
  function Choose(s: State): (r: Option<nat>)
    ensures r.None? <==> forall i :: 0 <= i < 2 ==> !Eligible(s, i)
    ensures r.Some? ==> r.value < 2 && Eligible(s, r.value)
    ensures r.Some? ==> forall i :: 0 <= i < 2 && Eligible(s, i) && i != r.value ==>
              s.At(i).priority < s.At(r.value).priority || (s.At(i).priority == s.At(r.value).priority && r.value < i)
  {
    if !Eligible(s, 0) then (if Eligible(s, 1) then Some(1) else None)
    else if Eligible(s, 1) && s.b.priority > s.a.priority then Some(1)
    else Some(0)
  }

  // ---------------------------------------------------------------- the block

  /** The 24 bytes the CRC covers. */
  function Header(s: State): (r: seq<Byte>)
    ensures |r| == 24
  {
    MAGIC + VERSION
    + [s.a.priority, s.a.tries, s.a.successful, 0]
    + [s.b.priority, s.b.tries, s.b.successful, 0]
    + [s.lastSelected, 0, 0, 0]
  }

  function Blank(n: nat): (r: seq<Byte>)
    ensures |r| == n
  {
    seq(n, _ => 0)
  }

  /** The whole block: header, CRC, zeros. */
  function Encoded(s: State): (r: seq<Byte>)
    ensures |r| == BYTES
  {
    Header(s) + BytesOf(Crc32Of(Header(s))) + Blank(BYTES - 28)
  }

  function Decode(b: seq<Byte>): Option<State> {
    if |b| < 28 then None
    else if b[..8] != MAGIC then None
    else if b[8..12] != VERSION then None
    else if WordOf(b[24..28]) != Crc32Of(b[..24]) then None
    else Some(State(Slot(b[12], b[13], b[14]), Slot(b[16], b[17], b[18]), b[20]))
  }

  /** What is written is what is read back. */
  lemma RoundTrip(s: State)
    ensures Decode(Encoded(s)) == Some(s)
  {
    hide Crc32Of, BytesOf, WordOf, Blank;
    var e := Encoded(s);
    assert e[..24] == Header(s);
    assert e[24..28] == BytesOf(Crc32Of(Header(s)));
    WordOfBytes(Crc32Of(Header(s)));
    assert e[..8] == MAGIC && e[8..12] == VERSION;
    assert e[12..24] == [s.a.priority, s.a.tries, s.a.successful, 0]
                        + [s.b.priority, s.b.tries, s.b.successful, 0] + [s.lastSelected, 0, 0, 0];
    assert e[12..24][0] == e[12] && e[12..24][1] == e[13] && e[12..24][2] == e[14];
    assert e[12..24][4] == e[16] && e[12..24][5] == e[17] && e[12..24][6] == e[18] && e[12..24][8] == e[20];
  }

  lemma DecodesSealed(b: seq<Byte>)
    requires Decode(b).Some?
    ensures |b[..28]| == 28 && Sealed(b[..28])
  {
    assert b[..28][..24] == b[..24] && b[..28][24..] == b[24..28];
  }

  lemma InFirst28(b: seq<Byte>, k: nat, m: nat)
    requires |b| >= 28 && k + m <= 28
    ensures b[..28][..k] == b[..k] && b[..28][k..k + m] == b[k..k + m] && b[..28][k + m..28] == b[k + m..28]
  {
    SliceOfPrefix(b, 28, 0, k);
    SliceOfPrefix(b, 28, k, k + m);
    SliceOfPrefix(b, 28, k + m, 28);
  }

  lemma SliceOfPrefix(b: seq<Byte>, n: nat, i: nat, j: nat)
    requires i <= j <= n <= |b|
    ensures b[..n][i..j] == b[i..j]
  {
    assert forall x :: 0 <= x < j - i ==> b[..n][i..j][x] == b[i + x] == b[i..j][x];
  }

  lemma SealBrokenInside(b: seq<Byte>, c: seq<Byte>, k: nat, m: nat)
    requires |b| == |c| == 28 && m <= 4 && k + m <= 28 && Sealed(b)
    requires b[..k] == c[..k] && b[k + m..28] == c[k + m..28] && b[k..k + m] != c[k..k + m]
    ensures !Sealed(c)
  {
    hide Sealed;
    ThreeParts(b, k, m);
    ThreeParts(c, k, m);
    SealBroken(b[..k], b[k..k + m], c[k..k + m], b[k + m..28]);
  }

  lemma ThreeParts(b: seq<Byte>, k: nat, m: nat)
    requires |b| == 28 && k + m <= 28
    ensures b == b[..k] + b[k..k + m] + b[k + m..28]
  {
  }

  /**
   Corrupting a valid block anywhere inside a window of four consecutive bytes of its first 28 makes
   it invalid; in particular any change of one byte does.
   */
  lemma CorruptionRejected(b: seq<Byte>, c: seq<Byte>, k: nat, m: nat)
    requires Decode(b).Some? && |c| >= 28 && m <= 4 && k + m <= 28
    requires b[..k] == c[..k] && b[k + m..28] == c[k + m..28] && b[k..k + m] != c[k..k + m]
    ensures Decode(c) == None
  {
    DecodesSealed(b);
    InFirst28(b, k, m);
    InFirst28(c, k, m);
    SealBrokenInside(b[..28], c[..28], k, m);
    if Decode(c).Some? {
      DecodesSealed(c);
      assert false;
    }
  }

  /** Every change of a single byte of an encoded block's first 28 is detected. */
  lemma ByteFlipRejected(s: State, k: nat, x: Byte)
    requires k < 28 && x != Encoded(s)[k]
    ensures Decode(Encoded(s)[k := x]) == None
  {
    hide Encoded, Decode;
    var e := Encoded(s);
    RoundTrip(s);
    FlipOne(e, k, x);
    CorruptionRejected(e, e[k := x], k, 1);
  }

  lemma FlipOne(e: seq<Byte>, k: nat, x: Byte)
    requires k < 28 <= |e| && x != e[k]
    ensures var c := e[k := x]; e[..k] == c[..k] && e[k + 1..28] == c[k + 1..28] && e[k..k + 1] != c[k..k + 1]
  {
    assert e[k..k + 1] == [e[k]] && e[k := x][k..k + 1] == [x];
  }

  // ---------------------------------------------------------------- writing the block

  /** The bytes of slot `i`; the fourth is unused. */
  function SlotBytes(s: State, i: nat): (r: seq<Byte>)
    requires i < 2
    ensures |r| == 4
  {
    [s.At(i).priority, s.At(i).tries, s.At(i).successful, 0]
  }

  /** Magic, version and the first `n` slots. */
  function Prefix(s: State, n: nat): (r: seq<Byte>)
    requires n <= 2
    ensures |r| == 12 + 4 * n
  {
    if n == 0 then MAGIC + VERSION else Prefix(s, n - 1) + SlotBytes(s, n - 1)
  }

  /** `encode`, writing the buffer field by field. */
  method Encode(s: State) returns (b: array<Byte>)
    ensures fresh(b) && b[..] == Encoded(s)
  {
    hide Prefix, Header, Blank, BytesOf, Crc32Of;
    b := new Byte[BYTES](_ => 0);
    PutStart(b, s);
    var i := 0;
    while i < 2
      invariant i <= 2 && b[..] == Prefix(s, i) + Blank(BYTES - 12 - 4 * i)
    {
      PutSlot(b, s, i);
      i := i + 1;
    }
    PutSelected(b, s);
    var crc := Crc32(b[..24]);
    PutChecksum(b, s, BytesOf(crc));
  }

  method PutStart(b: array<Byte>, ghost s: State)
    requires b.Length == BYTES && forall i :: 0 <= i < BYTES ==> b[i] == 0
    modifies b
    ensures b[..] == Prefix(s, 0) + Blank(BYTES - 12)
  {
    assert b[..] == Blank(BYTES);
    PutBytes(b, 0, MAGIC);
    PutBytes(b, 8, VERSION);
  }

  method PutChecksum(b: array<Byte>, ghost s: State, crc: seq<Byte>)
    requires b.Length == BYTES && |crc| == 4 && b[..] == Header(s) + Blank(BYTES - 24)
    modifies b
    ensures b[..] == Header(s) + crc + Blank(BYTES - 28)
  {
    PutBytes(b, 24, crc);
  }

  method PutSlot(b: array<Byte>, s: State, i: nat)
    requires b.Length == BYTES && i < 2 && b[..] == Prefix(s, i) + Blank(BYTES - 12 - 4 * i)
    modifies b
    ensures b[..] == Prefix(s, i + 1) + Blank(BYTES - 12 - 4 * (i + 1))
  {
    var off := 12 + i * 4;
    b[off] := s.At(i).priority;
    b[off + 1] := s.At(i).tries;
    b[off + 2] := s.At(i).successful;
    SlotWritten(old(b[..]), b[..], s, i);
  }

  lemma SlotWritten(before: seq<Byte>, after: seq<Byte>, s: State, i: nat)
    requires i < 2 && before == Prefix(s, i) + Blank(BYTES - 12 - 4 * i)
    requires var off := 12 + i * 4;
             after == before[off := s.At(i).priority][off + 1 := s.At(i).tries][off + 2 := s.At(i).successful]
    ensures after == Prefix(s, i + 1) + Blank(BYTES - 12 - 4 * (i + 1))
  {
    var off := 12 + i * 4;
    assert Prefix(s, i + 1) == Prefix(s, i) + SlotBytes(s, i);
    hide Prefix;
    assert after[..off] == Prefix(s, i);
    assert after[off..off + 4] == SlotBytes(s, i);
    assert after[off + 4..] == Blank(BYTES - 12 - 4 * (i + 1));
    assert after == after[..off] + after[off..off + 4] + after[off + 4..];
  }

  method PutSelected(b: array<Byte>, s: State)
    requires b.Length == BYTES && b[..] == Prefix(s, 2) + Blank(BYTES - 20)
    modifies b
    ensures b[..24] == Header(s) && b[..] == Header(s) + Blank(BYTES - 24)
  {
    b[20] := s.lastSelected;
    assert b[..20] == Prefix(s, 2);
    assert Prefix(s, 1) == Prefix(s, 0) + SlotBytes(s, 0) && Prefix(s, 2) == Prefix(s, 1) + SlotBytes(s, 1);
    assert b[20..24] == [s.lastSelected, 0, 0, 0];
    assert b[24..] == Blank(BYTES - 24);
    assert b[..24] == b[..20] + b[20..24] && b[..] == b[..24] + b[24..];
  }

  /** `copy_from_slice`. */
  method PutBytes(b: array<Byte>, at: nat, data: seq<Byte>)
    requires at + |data| <= b.Length
    modifies b
    ensures b[..] == old(b[..at]) + data + old(b[at + |data|..])
  {
    var i := 0;
    while i < |data|
      invariant i <= |data|
      invariant b[..] == old(b[..at]) + data[..i] + old(b[at + i..])
    {
      ghost var before := b[..];
      b[at + i] := data[i];
      PutNext(old(b[..]), data, at, i, before, b[..]);
      i := i + 1;
    }
  }

  lemma PutNext(start: seq<Byte>, data: seq<Byte>, at: nat, i: nat, before: seq<Byte>, after: seq<Byte>)
    requires at + |data| <= |start| && i < |data| && before == start[..at] + data[..i] + start[at + i..]
    requires after == before[at + i := data[i]]
    ensures after == start[..at] + data[..i + 1] + start[at + i + 1..]
  {
  }
}
