/**
 CRC-32/IEEE, bit by bit with the reflected polynomial (abi/boot/src/lib.rs, module `slots`).  A
 machine word is the sequence of its bits, lowest first, so shifting right drops the first bit.
 */
module Crc {

  type Byte = b: int | 0 <= b < 256

  type Bits = seq<bool>

  // ---------------------------------------------------------------- words

  /** The `k` low bits of `n`. */
  function BitsOf(n: nat, k: nat): (r: Bits)
    ensures |r| == k
  {
    if k == 0 then [] else [n % 2 == 1] + BitsOf(n / 2, k - 1)
  }

  function Xor(a: Bits, b: Bits): (r: Bits)
    requires |a| == |b|
    ensures |r| == |a| && forall i :: 0 <= i < |a| ==> r[i] == (a[i] != b[i])
  {
    seq(|a|, i requires 0 <= i < |a| => a[i] != b[i])
  }

  function Zeros(n: nat): (r: Bits)
    ensures |r| == n && forall i :: 0 <= i < n ==> !r[i]
  {
    seq(n, _ => false)
  }

  function Ones(): (r: Bits)
    ensures |r| == 32 && forall i :: 0 <= i < 32 ==> r[i]
  {
    seq(32, _ => true)
  }

  /** 0xEDB88320, byte by byte from the lowest. */
  function Poly(): (r: Bits)
    ensures |r| == 32
  {
    BitsOf(0x20, 8) + BitsOf(0x83, 8) + BitsOf(0xB8, 8) + BitsOf(0xED, 8)
  }

  // ---------------------------------------------------------------- the register

  function BitStep(c: Bits): (r: Bits)
    requires |c| == 32
    ensures |r| == 32
  {
    Xor(c[1..] + [false], if c[0] then Poly() else Zeros(32))
  }

  function Steps(c: Bits, n: nat): (r: Bits)
    requires |c| == 32
    ensures |r| == 32
  {
    if n == 0 then c else BitStep(Steps(c, n - 1))
  }

  /** A byte in the low bits of a word. */
  function Low(b: Byte): (r: Bits)
    ensures |r| == 32
  {
    BitsOf(b, 8) + Zeros(24)
  }

  /** The register after feeding it `data`. */
  function Feed(c: Bits, data: seq<Byte>): (r: Bits)
    requires |c| == 32
    ensures |r| == 32
  {
    if data == [] then c else Steps(Xor(Feed(c, data[..|data| - 1]), Low(data[|data| - 1])), 8)
  }

  function Crc32Of(data: seq<Byte>): (r: Bits)
    ensures |r| == 32
  {
    Xor(Feed(Ones(), data), Ones())
  }

  /** The nested loop of the source. */
  method Crc32(data: seq<Byte>) returns (crc: Bits)
    ensures crc == Crc32Of(data)
  {
    hide Xor, Low, BitsOf, Poly;
    crc := Ones();
    var i := 0;
    while i < |data|
      invariant i <= |data| && |crc| == 32 && crc == Feed(Ones(), data[..i])
    {
      assert data[..i + 1][..i] == data[..i] && data[..i + 1][i] == data[i];
      crc := Xor(crc, Low(data[i]));
      ghost var start := crc;
      var k := 0;
      while k < 8
        invariant k <= 8 && |crc| == 32 && crc == Steps(start, k)
      {
        var mask := if crc[0] then Poly() else Zeros(32);
        crc := Xor(crc[1..] + [false], mask);
        k := k + 1;
      }
      i := i + 1;
    }
    assert data[..i] == data;
    crc := Xor(crc, Ones());
  }

  // ---------------------------------------------------------------- no information is lost

  lemma PolyTop()
    ensures Poly()[31]
  {
    hide BitsOf;
    TopBit(0xED, 8);
    TopBit(118, 7);
    TopBit(59, 6);
    TopBit(29, 5);
    TopBit(14, 4);
    TopBit(7, 3);
    TopBit(3, 2);
    LastBit(1);
  }

  lemma TopBit(n: nat, k: nat)
    requires k > 1
    ensures BitsOf(n, k)[k - 1] == BitsOf(n / 2, k - 1)[k - 2]
  {
  }

  lemma LastBit(n: nat)
    ensures BitsOf(n, 1)[0] == (n % 2 == 1)
  {
  }

  lemma XorCancels(a: Bits, b: Bits, x: Bits)
    requires |a| == |b| == |x| && Xor(a, x) == Xor(b, x)
    ensures a == b
  {
    forall i | 0 <= i < |a|
      ensures a[i] == b[i]
    {
      assert Xor(a, x)[i] == Xor(b, x)[i];
    }
  }

  lemma BitStepInjective(a: Bits, b: Bits)
    requires |a| == |b| == 32 && BitStep(a) == BitStep(b)
    ensures a == b
  {
    BitStepTop(a);
    BitStepTop(b);
    var x := if a[0] then Poly() else Zeros(32);
    XorCancels(a[1..] + [false], b[1..] + [false], x);
    ShiftInjective(a, b);
  }

  /** The bit shifted out comes back as the top bit. */
  lemma BitStepTop(c: Bits)
    requires |c| == 32
    ensures BitStep(c)[31] == c[0]
  {
    PolyTop();
  }

  lemma ShiftInjective(a: Bits, b: Bits)
    requires |a| == |b| == 32 && a[0] == b[0] && a[1..] + [false] == b[1..] + [false]
    ensures a == b
  {
    forall i | 0 < i < 32
      ensures a[i] == b[i]
    {
      assert (a[1..] + [false])[i - 1] == (b[1..] + [false])[i - 1];
    }
  }

  lemma {:induction false} StepsInjective(a: Bits, b: Bits, n: nat)
    requires |a| == |b| == 32 && Steps(a, n) == Steps(b, n)
    ensures a == b
  {
    hide BitStep;
    if n > 0 {
      BitStepInjective(Steps(a, n - 1), Steps(b, n - 1));
      StepsInjective(a, b, n - 1);
    }
  }

  /** Two registers fed the same bytes end up equal only if they were equal. */
  lemma {:induction false} FeedInjective(a: Bits, b: Bits, data: seq<Byte>)
    requires |a| == |b| == 32 && Feed(a, data) == Feed(b, data)
    ensures a == b
  {
    hide Xor, Steps, Low;
    if data != [] {
      var rest, last := data[..|data| - 1], Low(data[|data| - 1]);
      StepsInjective(Xor(Feed(a, rest), last), Xor(Feed(b, rest), last), 8);
      XorCancels(Feed(a, rest), Feed(b, rest), last);
      FeedInjective(a, b, rest);
    }
  }

  lemma {:induction false} FeedAppend(c: Bits, a: seq<Byte>, b: seq<Byte>)
    requires |c| == 32
    ensures Feed(c, a + b) == Feed(Feed(c, a), b)
  {
    hide Xor, Steps, Low;
    if b == [] {
      assert a + b == a;
    } else {
      FeedAppend(c, a, b[..|b| - 1]);
      assert (a + b)[..|a + b| - 1] == a + b[..|b| - 1];
    }
  }

  // ---------------------------------------------------------------- four bytes at a time

  /** What is `n` places up goes through `n` steps unchanged, `n` places lower. */
  lemma {:induction false} ShiftThrough(x: Bits, y: Bits, n: nat)
    requires |x| == 32 && n <= 32 && |y| == 32 - n
    ensures Steps(Xor(x, Zeros(n) + y), n) == Xor(Steps(x, n), y + Zeros(n))
    decreases n
  {
    hide BitStep;
    if n == 0 {
      assert Zeros(0) + y == y + Zeros(0);
    } else {
      var y' := [false] + y;
      assert Zeros(n - 1) + y' == Zeros(n) + y;
      ShiftThrough(x, y', n - 1);
      ShiftOnce(Steps(x, n - 1), y + Zeros(n - 1));
      assert y' + Zeros(n - 1) == [false] + (y + Zeros(n - 1));
      assert y + Zeros(n) == y + Zeros(n - 1) + [false];
    }
  }

  lemma ShiftOnce(x: Bits, y: Bits)
    requires |x| == 32 && |y| == 31
    ensures BitStep(Xor(x, [false] + y)) == Xor(BitStep(x), y + [false])
  {
    assert Xor(x, [false] + y)[0] == x[0];
    hide Poly, Zeros, Xor;
    TailXor(x, y);
    XorSwap(x[1..] + [false], y + [false], if x[0] then Poly() else Zeros(32));
  }

  lemma TailXor(x: Bits, y: Bits)
    requires |x| == |y| + 1
    ensures Xor(x, [false] + y)[1..] + [false] == Xor(x[1..] + [false], y + [false])
  {
  }

  lemma XorSwap(a: Bits, b: Bits, c: Bits)
    requires |a| == |b| == |c|
    ensures Xor(Xor(a, b), c) == Xor(Xor(a, c), b)
  {
  }

  lemma {:induction false} StepsAdd(c: Bits, m: nat, n: nat)
    requires |c| == 32
    ensures Steps(Steps(c, m), n) == Steps(c, m + n)
  {
    hide BitStep;
    if n > 0 {
      StepsAdd(c, m, n - 1);
    }
  }

  /** The bits of some bytes, lowest first. */
  function WordOf(data: seq<Byte>): (r: Bits)
    ensures |r| == 8 * |data|
  {
    if data == [] then [] else WordOf(data[..|data| - 1]) + BitsOf(data[|data| - 1], 8)
  }

  /** Feeding up to four bytes is stepping over them all at once. */
  lemma {:induction false} FeedWord(c: Bits, data: seq<Byte>)
    requires |c| == 32 && |data| <= 4
    ensures Feed(c, data) == Steps(Xor(c, WordOf(data) + Zeros(32 - 8 * |data|)), 8 * |data|)
    decreases |data|
  {
    hide BitStep, BitsOf, Xor, Zeros;
    var k := |data|;
    if k == 0 {
      assert Xor(c, [] + Zeros(32)) == c;
    } else {
      var w, b := WordOf(data[..k - 1]), BitsOf(data[k - 1], 8);
      FeedWord(c, data[..k - 1]);
      FeedOne(c, w, b);
      assert |w| == 8 * k - 8 && WordOf(data) == w + b;
    }
  }

  /** Stepping over a word and then over one more byte is stepping over both. */
  lemma FeedOne(c: Bits, w: Bits, b: Bits)
    requires |c| == 32 && |b| == 8 && |w| <= 24
    ensures Steps(Xor(Steps(Xor(c, w + Zeros(32 - |w|)), |w|), b + Zeros(24)), 8)
            == Steps(Xor(c, w + b + Zeros(24 - |w|)), |w| + 8)
  {
    hide Steps, Xor, Zeros;
    var n, x, y := |w|, Xor(c, w + Zeros(32 - |w|)), b + Zeros(24 - |w|);
    ShiftThrough(x, y, n);
    XorParts(c, w, y);
    Padding(w, b);
    StepsAdd(Xor(x, Zeros(n) + y), n, 8);
  }

  lemma Padding(w: Bits, b: Bits)
    requires |w| <= 24
    ensures w + b + Zeros(24 - |w|) == w + (b + Zeros(24 - |w|))
    ensures b + Zeros(24 - |w|) + Zeros(|w|) == b + Zeros(24)
  {
  }

  lemma XorParts(c: Bits, a: Bits, y: Bits)
    requires |c| == |a| + |y|
    ensures Xor(c, a + y) == Xor(Xor(c, a + Zeros(|y|)), Zeros(|a|) + y)
  {
  }

  // ---------------------------------------------------------------- bytes and words

  function Pow2(k: nat): nat {
    if k == 0 then 1 else 2 * Pow2(k - 1)
  }

  function NumberOf(bits: Bits): (n: nat)
    ensures n < Pow2(|bits|)
  {
    if bits == [] then 0 else (if bits[0] then 1 else 0) + 2 * NumberOf(bits[1..])
  }

  lemma {:induction false} BitsOfNumber(bits: Bits)
    ensures BitsOf(NumberOf(bits), |bits|) == bits
  {
    if bits != [] {
      BitsOfNumber(bits[1..]);
      assert NumberOf(bits) / 2 == NumberOf(bits[1..]);
    }
  }

  lemma {:induction false} NumberOfBits(n: nat, k: nat)
    requires n < Pow2(k)
    ensures NumberOf(BitsOf(n, k)) == n
  {
    if k > 0 {
      NumberOfBits(n / 2, k - 1);
      assert BitsOf(n, k)[1..] == BitsOf(n / 2, k - 1);
    }
  }

  lemma ByteBits(b: Byte)
    ensures NumberOf(BitsOf(b, 8)) == b
  {
    assert Pow2(4) == 16 && Pow2(8) == 16 * Pow2(4);
    NumberOfBits(b, 8);
  }

  /** `to_le_bytes` of a word. */
  function BytesOf(w: Bits): (r: seq<Byte>)
    requires |w| % 8 == 0
    ensures |r| == |w| / 8
    decreases |w|
  {
    if w == [] then [] else
      assert Pow2(4) == 16 && Pow2(8) == 16 * Pow2(4);
      BytesOf(w[..|w| - 8]) + [NumberOf(w[|w| - 8..])]
  }

  lemma {:induction false} WordOfBytes(w: Bits)
    requires |w| % 8 == 0
    ensures WordOf(BytesOf(w)) == w
    decreases |w|
  {
    hide BytesOf, WordOf, BitsOf;
    if w == [] {
      NoBytes();
    } else {
      var b := BytesNext(w);
      var low, high := w[..|w| - 8], w[|w| - 8..];
      WordOfBytes(low);
      WordNext(BytesOf(low), b);
      assert low + high == w;
    }
  }

  lemma NoBytes()
    ensures WordOf(BytesOf([])) == []
  {
  }

  lemma BytesNext(w: Bits) returns (b: Byte)
    requires |w| % 8 == 0 && w != []
    ensures BytesOf(w) == BytesOf(w[..|w| - 8]) + [b] && BitsOf(b, 8) == w[|w| - 8..]
  {
    var high := w[|w| - 8..];
    assert Pow2(4) == 16 && Pow2(8) == 16 * Pow2(4);
    hide Pow2, NumberOf, BitsOf;
    BitsOfNumber(high);
    b := NumberOf(high);
  }

  lemma WordNext(bytes: seq<Byte>, b: Byte)
    ensures WordOf(bytes + [b]) == WordOf(bytes) + BitsOf(b, 8)
  {
    assert (bytes + [b])[..|bytes|] == bytes;
  }

  lemma {:induction false} WordInjective(a: seq<Byte>, b: seq<Byte>)
    requires |a| == |b| && WordOf(a) == WordOf(b)
    ensures a == b
  {
    if a != [] {
      var n := |a| - 1;
      assert WordOf(a)[..8 * n] == WordOf(a[..n]) && WordOf(b)[..8 * n] == WordOf(b[..n]);
      assert WordOf(a)[8 * n..] == BitsOf(a[n], 8) && WordOf(b)[8 * n..] == BitsOf(b[n], 8);
      WordInjective(a[..n], b[..n]);
      ByteBits(a[n]);
      ByteBits(b[n]);
      assert a == a[..n] + [a[n]] && b == b[..n] + [b[n]];
    }
  }

  // ---------------------------------------------------------------- what a CRC tells apart

  /** From one register, different strings of up to four bytes lead to different registers. */
  lemma ShortFeedInjective(c: Bits, x: seq<Byte>, y: seq<Byte>)
    requires |c| == 32 && |x| == |y| <= 4 && Feed(c, x) == Feed(c, y)
    ensures x == y
  {
    hide Feed, Steps, Xor, WordOf, Zeros, BitsOf;
    var n := 8 * |x|;
    FeedPadded(c, x, n);
    FeedPadded(c, y, n);
    StepPadInjective(c, WordOf(x), WordOf(y), Zeros(32 - n), n);
    WordInjective(x, y);
  }

  lemma FeedPadded(c: Bits, data: seq<Byte>, n: nat)
    requires |c| == 32 && n == 8 * |data| <= 32
    ensures Feed(c, data) == Steps(Xor(c, WordOf(data) + Zeros(32 - n)), n)
  {
    hide Feed, Steps, Xor, WordOf, Zeros;
    FeedWord(c, data);
  }

  lemma StepPadInjective(c: Bits, a: Bits, b: Bits, pad: Bits, n: nat)
    requires |c| == 32 == |a| + |pad| && |a| == |b| && Steps(Xor(c, a + pad), n) == Steps(Xor(c, b + pad), n)
    ensures a == b
  {
    hide Steps, Xor;
    StepsInjective(Xor(c, a + pad), Xor(c, b + pad), n);
    XorCancelsLeft(c, a + pad, b + pad);
    SamePrefix(a, b, pad);
  }

  lemma SamePrefix(a: Bits, b: Bits, pad: Bits)
    requires |a| == |b| && a + pad == b + pad
    ensures a == b
  {
    assert (a + pad)[..|a|] == a && (b + pad)[..|b|] == b;
  }

  lemma XorCancelsLeft(c: Bits, a: Bits, b: Bits)
    requires |c| == |a| == |b| && Xor(c, a) == Xor(c, b)
    ensures a == b
  {
    forall i | 0 <= i < |a|
      ensures a[i] == b[i]
    {
      assert Xor(c, a)[i] == Xor(c, b)[i];
    }
  }

  /** Strings that differ only inside a window of four bytes give different registers. */
  lemma BurstDetected(c: Bits, before: seq<Byte>, x: seq<Byte>, y: seq<Byte>, after: seq<Byte>)
    requires |c| == 32 && |x| == |y| <= 4 && x != y
    ensures Feed(c, before + x + after) != Feed(c, before + y + after)
  {
    hide Feed;
    if Feed(c, before + x + after) == Feed(c, before + y + after) {
      FeedAppend(c, before + x, after);
      FeedAppend(c, before + y, after);
      FeedInjective(Feed(c, before + x), Feed(c, before + y), after);
      FeedAppend(c, before, x);
      FeedAppend(c, before, y);
      ShortFeedInjective(Feed(c, before), x, y);
      assert false;
    }
  }

  /** Two strings of equal length that differ in exactly one byte have different CRCs. */
  lemma CrcSeparates(a: seq<Byte>, b: seq<Byte>, k: nat)
    requires |a| == |b| && k < |a| && a[..k] == b[..k] && a[k + 1..] == b[k + 1..] && a[k] != b[k]
    ensures Crc32Of(a) != Crc32Of(b)
  {
    assert a == a[..k] + [a[k]] + a[k + 1..] && b == b[..k] + [b[k]] + b[k + 1..];
    BurstDetected(Ones(), a[..k], [a[k]], [b[k]], a[k + 1..]);
    if Crc32Of(a) == Crc32Of(b) {
      XorCancels(Feed(Ones(), a), Feed(Ones(), b), Ones());
      assert false;
    }
  }

  /** The register after data and its own CRC does not depend on the data. */
  lemma Residue(data: seq<Byte>, stored: seq<Byte>)
    requires |stored| == 4
    ensures WordOf(stored) == Crc32Of(data) <==> Feed(Ones(), data + stored) == Steps(Ones(), 8 * |stored|)
  {
    var c := Feed(Ones(), data);
    FeedAppend(Ones(), data, stored);
    FeedWord(c, stored);
    assert WordOf(stored) + Zeros(0) == WordOf(stored);
    XorIsOnes(c, WordOf(stored));
    if Steps(Xor(c, WordOf(stored)), 8 * |stored|) == Steps(Ones(), 8 * |stored|) {
      StepsInjective(Xor(c, WordOf(stored)), Ones(), 8 * |stored|);
    }
  }

  lemma XorIsOnes(c: Bits, w: Bits)
    requires |c| == |w| == 32
    ensures Xor(c, w) == Ones() <==> w == Xor(c, Ones())
  {
    if Xor(c, w) == Ones() {
      forall i | 0 <= i < 32
        ensures w[i] == Xor(c, Ones())[i]
      {
        assert Xor(c, w)[i] == Ones()[i];
      }
    }
  }

  /** A string whose last four bytes are the CRC of the rest. */
  predicate Sealed(b: seq<Byte>)
    requires |b| >= 4
  {
    WordOf(b[|b| - 4..]) == Crc32Of(b[..|b| - 4])
  }

  lemma SealedResidue(b: seq<Byte>)
    requires |b| >= 4 && Sealed(b)
    ensures Feed(Ones(), b) == Steps(Ones(), 8 * |b[|b| - 4..]|)
  {
    hide Feed, Steps, WordOf, Crc32Of, Ones;
    Residue(b[..|b| - 4], b[|b| - 4..]);
    assert b[..|b| - 4] + b[|b| - 4..] == b;
  }

  /** Two sealed strings of one length cannot differ only inside a window of four bytes. */
  lemma SealBroken(before: seq<Byte>, x: seq<Byte>, y: seq<Byte>, after: seq<Byte>)
    requires |x| == |y| <= 4 && x != y && |before| + |x| + |after| >= 4
    requires Sealed(before + x + after)
    ensures !Sealed(before + y + after)
  {
    if Sealed(before + y + after) {
      SealedResidue(before + x + after);
      SealedResidue(before + y + after);
      BurstDetected(Ones(), before, x, y, after);
      assert false;
    }
  }
}
