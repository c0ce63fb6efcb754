/**
The CRC32C routines: the byte loop over the lookup table, and the word loop over the
processor's CRC instruction. The specification of both is Crc, bit-at-a-time division.
*/
module Crc32c {
  import CrcTable
  import opened BitRegister
  import opened CrcRegister

  /** The checksum state after taking in the bytes of buf, starting from c. */
  function Crc(c: bv32, buf: seq<bv8>): bv32
  {
    Feed(c, BufferBits(buf))
  }

  /** The SSE 4.2 instructions, one message bit at a time. */
  function InstructionU8(c: bv32, b: bv8): bv32
  {
    Feed(c, ByteBits(b))
  }

  function InstructionU32(c: bv32, w: bv32): bv32
  {
    Feed(c, Bits(w, 32))
  }

  // ---------- composition ----------

  lemma {:induction false} BufferBitsAppend(a: seq<bv8>, b: seq<bv8>)
    ensures BufferBits(a + b) == BufferBits(a) + BufferBits(b)
  {
    if a == [] {
      assert a + b == b;
    } else {
      assert (a + b)[1..] == a[1..] + b;
      BufferBitsAppend(a[1..], b);
    }
  }

  /** The checksum of a concatenation continues from the checksum of its first piece. */
  lemma CrcAppend(c: bv32, a: seq<bv8>, b: seq<bv8>)
    ensures Crc(c, a + b) == Crc(Crc(c, a), b)
  {
    BufferBitsAppend(a, b);
    FeedAppend(c, BufferBits(a), BufferBits(b));
  }

  lemma CrcOne(c: bv32, b: bv8)
    ensures Crc(c, [b]) == Feed(c, ByteBits(b))
  {
    assert BufferBits([b]) == ByteBits(b);
  }

  // ---------- the byte loop ----------

  method Crc32cT8NoSse(iCrc: bv32, u8: bv8) returns (crc: bv32)
    ensures crc == Crc(iCrc, [u8])
  {
    crc := (iCrc >> 8) ^ CrcTable.Entry(((iCrc ^ (u8 as bv32)) & 0xFF) as bv8);
    assert crc == TableStep(iCrc, u8);
    TableStepIsFeed(iCrc, u8);
    CrcOne(iCrc, u8);
  }

  /** A negative length runs no iteration. */
  method Crc32cTNoSse(iCrc: bv32, buf: array<bv8>, len: int) returns (crc: bv32)
    requires len <= buf.Length
    ensures crc == Crc(iCrc, buf[..if len < 0 then 0 else len])
  {
    crc := iCrc;
    var left, i := len, 0;
    while left > 0
      invariant left <= len
      invariant i == if len < 0 then 0 else len - left
      invariant 0 <= i <= buf.Length
      invariant len >= 0 ==> left >= 0
      invariant crc == Crc(iCrc, buf[..i])
    {
      left := left - 1;
      var next := Crc32cT8NoSse(crc, buf[i]);
      assert buf[..i + 1] == buf[..i] + [buf[i]];
      CrcAppend(iCrc, buf[..i], [buf[i]]);
      crc := next;
      i := i + 1;
    }
  }

  // ---------- the word loop ----------

  /** The 32-bit word stored in four bytes of a little-endian machine. */
  function Load32(b0: bv8, b1: bv8, b2: bv8, b3: bv8): bv32
  {
    (b0 as bv32) | ((b1 as bv32) << 8) | ((b2 as bv32) << 16) | ((b3 as bv32) << 24)
  }

  lemma Load32Bytes(b0: bv8, b1: bv8, b2: bv8, b3: bv8, w: bv32)
    requires w == Load32(b0, b1, b2, b3)
    ensures w & 255 == (b0 as bv32) & 255
    ensures (w >> 8) & 255 == (b1 as bv32) & 255
    ensures ((w >> 8) >> 8) & 255 == (b2 as bv32) & 255
    ensures (((w >> 8) >> 8) >> 8) & 255 == (b3 as bv32) & 255
  {
  }

  /** The first eight bits of a word are those of the byte it ends in. */
  lemma LowByteAt(x: bv32, b: bv8, j: nat)
    requires j < 8 && x & 255 == (b as bv32) & 255
    ensures BitAt(x, j) == ByteBits(b)[j]
  {
    SameLowByte(x, b as bv32);
    BitsIndex(x, 8, j);
  }

  lemma WordBit(w: bv32, b0: bv8, b1: bv8, b2: bv8, b3: bv8, j: nat)
    requires w == Load32(b0, b1, b2, b3) && j < 8
    ensures BitAt(w, j) == ByteBits(b0)[j]
    ensures BitAt(w, 8 + j) == ByteBits(b1)[j]
  {
    Load32Bytes(b0, b1, b2, b3, w);
    LowByteAt(w, b0, j);
    BitAtEight(w, j);
    LowByteAt(w >> 8, b1, j);
  }

  lemma WordBit2(w: bv32, b0: bv8, b1: bv8, b2: bv8, b3: bv8, j: nat)
    requires w == Load32(b0, b1, b2, b3) && j < 8
    ensures BitAt(w, 16 + j) == ByteBits(b2)[j]
  {
    Load32Bytes(b0, b1, b2, b3, w);
    BitAtSixteen(w, j);
    LowByteAt((w >> 8) >> 8, b2, j);
  }

  lemma BitAtSixteen(w: bv32, n: nat)
    ensures BitAt(w, 16 + n) == BitAt((w >> 8) >> 8, n)
  {
    BitAtEight(w, 8 + n);
    BitAtEight(w >> 8, n);
  }

  lemma WordBit3(w: bv32, b0: bv8, b1: bv8, b2: bv8, b3: bv8, j: nat)
    requires w == Load32(b0, b1, b2, b3) && j < 8
    ensures BitAt(w, 24 + j) == ByteBits(b3)[j]
  {
    Load32Bytes(b0, b1, b2, b3, w);
    BitAtSixteen(w, 8 + j);
    BitAtEight((w >> 8) >> 8, j);
    LowByteAt(((w >> 8) >> 8) >> 8, b3, j);
  }

  lemma TwoByteBits(a: bv8, b: bv8)
    ensures BufferBits([a, b]) == ByteBits(a) + ByteBits(b)
  {
    BufferBitsAppend([a], [b]);
    assert [a] + [b] == [a, b];
    assert BufferBits([a]) == ByteBits(a);
    assert BufferBits([b]) == ByteBits(b);
  }

  lemma FourByteBits(b0: bv8, b1: bv8, b2: bv8, b3: bv8)
    ensures BufferBits([b0, b1, b2, b3]) == (ByteBits(b0) + ByteBits(b1)) + (ByteBits(b2) + ByteBits(b3))
  {
    TwoByteBits(b0, b1);
    TwoByteBits(b2, b3);
    assert [b0, b1] + [b2, b3] == [b0, b1, b2, b3];
    BufferBitsAppend([b0, b1], [b2, b3]);
  }

  lemma WordBitAt(w: bv32, b0: bv8, b1: bv8, b2: bv8, b3: bv8, i: nat)
    requires w == Load32(b0, b1, b2, b3) && i < 32
    ensures BitAt(w, i) == ((ByteBits(b0) + ByteBits(b1)) + (ByteBits(b2) + ByteBits(b3)))[i]
  {
    if i < 8 {
      WordBit(w, b0, b1, b2, b3, i);
    } else if i < 16 {
      WordBit(w, b0, b1, b2, b3, i - 8);
    } else if i < 24 {
      WordBit2(w, b0, b1, b2, b3, i - 16);
    } else {
      WordBit3(w, b0, b1, b2, b3, i - 24);
    }
  }

  lemma SameBits(w: bv32, all: seq<bool>)
    requires |all| == 32 && forall i: nat | i < 32 :: BitAt(w, i) == all[i]
    ensures Bits(w, 32) == all
  {
    forall i: nat | i < 32
      ensures Bits(w, 32)[i] == all[i]
    {
      BitsIndex(w, 32, i);
    }
  }

  lemma WordBits(w: bv32, b0: bv8, b1: bv8, b2: bv8, b3: bv8)
    requires w == Load32(b0, b1, b2, b3)
    ensures Bits(w, 32) == BufferBits([b0, b1, b2, b3])
  {
    FourByteBits(b0, b1, b2, b3);
    var all := (ByteBits(b0) + ByteBits(b1)) + (ByteBits(b2) + ByteBits(b3));
    forall i: nat | i < 32
      ensures BitAt(w, i) == all[i]
    {
      WordBitAt(w, b0, b1, b2, b3, i);
    }
    SameBits(w, all);
  }

  /** One word instruction takes in four bytes. */
  lemma WordIsFourBytes(c: bv32, b0: bv8, b1: bv8, b2: bv8, b3: bv8)
    ensures InstructionU32(c, Load32(b0, b1, b2, b3)) == Crc(c, [b0, b1, b2, b3])
  {
    WordBits(Load32(b0, b1, b2, b3), b0, b1, b2, b3);
  }

  lemma CrcNext(c: bv32, buf: seq<bv8>, i: nat, n: nat)
    requires i + n <= |buf|
    ensures Crc(c, buf[..i + n]) == Crc(Crc(c, buf[..i]), buf[i..i + n])
    ensures n == 1 ==> buf[i..i + n] == [buf[i]]
  {
    CrcAppend(c, buf[..i], buf[i..i + n]);
    assert buf[..i + n] == buf[..i] + buf[i..i + n];
  }

  method LoadAndFeed(c: bv32, buf: array<bv8>, i: nat) returns (crc: bv32)
    requires i + 4 <= buf.Length
    ensures crc == Crc(c, buf[..][i..i + 4])
  {
    crc := InstructionU32(c, Load32(buf[i], buf[i + 1], buf[i + 2], buf[i + 3]));
    WordIsFourBytes(c, buf[i], buf[i + 1], buf[i + 2], buf[i + 3]);
    assert buf[..][i..i + 4] == [buf[i], buf[i + 1], buf[i + 2], buf[i + 3]];
  }

  lemma WordFits(i: nat, len: nat)
    requires i < len / 4
    ensures i + 4 <= len
  {
  }

  lemma CrcNextByte(c: bv32, s: seq<bv8>, i: nat)
    requires i < |s|
    ensures Crc(c, s[..i + 1]) == InstructionU8(Crc(c, s[..i]), s[i])
  {
    CrcNext(c, s, i, 1);
    CrcOne(Crc(c, s[..i]), s[i]);
  }

  /**
  The word loop stops at len / 4, counted in bytes although it moves four bytes at a time;
  the byte loop takes in the rest. Every load stays inside the buffer.
  */
  method Crc32cTSse(iCrc: bv32, buf: array<bv8>, len: nat) returns (crc: bv32)
    requires len <= buf.Length
    ensures crc == Crc(iCrc, buf[..len])
  {
    crc := iCrc;
    var i := 0;
    ghost var s := buf[..];
    assert s[..0] == [];
    while i < len / 4
      invariant 0 <= i <= len
      invariant crc == Crc(iCrc, s[..i])
    {
      WordFits(i, len);
      CrcNext(iCrc, s, i, 4);
      crc := LoadAndFeed(crc, buf, i);
      i := i + 4;
    }
    while i < len
      invariant 0 <= i <= len
      invariant crc == Crc(iCrc, s[..i])
    {
      CrcNextByte(iCrc, s, i);
      crc := InstructionU8(crc, buf[i]);
      i := i + 1;
    }
    assert buf[..len] == s[..len];
  }

  // ---------- dispatch ----------

  const TWO_31: int := 0x8000_0000
  const TWO_32: int := 0x1_0000_0000

  /** An unsigned 32-bit length passed on as a signed one. */
  function ToInt32(n: nat): int
    requires n < TWO_32
  {
    if n < TWO_31 then n else n - TWO_32
  }

  /** The bytes that crc32c_t takes in: the byte loop reads a length of 2^31 or more as negative. */
  function TakenIn(sse: bool, len: nat): nat
    requires len < TWO_32
  {
    if sse || len < TWO_31 then len else 0
  }

  method Crc32cT(sse: bool, iCrc: bv32, buf: array<bv8>, len: nat) returns (crc: bv32)
    requires len < TWO_32 && TakenIn(sse, len) <= buf.Length
    ensures crc == Crc(iCrc, buf[..TakenIn(sse, len)])
  {
    if sse {
      crc := Crc32cTSse(iCrc, buf, len);
    } else {
      crc := Crc32cTNoSse(iCrc, buf, ToInt32(len));
    }
  }

  /** A signed 32-bit length passed on as an unsigned one. */
  function ToUint32(n: int): nat
    requires -TWO_31 <= n < TWO_31
  {
    if n < 0 then n + TWO_32 else n
  }

  /** A negative length takes in nothing on the byte path, and on the word path the bytes that it
      counts when read as unsigned. */
  method Crc32c(sse: bool, buf: array<bv8>, len: int) returns (crc: bv32)
    requires -TWO_31 <= len < TWO_31 && TakenIn(sse, ToUint32(len)) <= buf.Length
    ensures len >= 0 ==> crc == Crc(0xFFFFFFFF, buf[..len])
    ensures len < 0 ==> crc == if sse then Crc(0xFFFFFFFF, buf[..len + TWO_32]) else 0xFFFFFFFF
  {
    crc := Crc32cT(sse, 0xFFFFFFFF, buf, ToUint32(len));
    assert buf[..0] == [];
  }

  // ---------- what the checksum detects ----------

  /** The checksum as a remainder: the buffer bits followed by 32 zeros, with the start value
      added onto the front, divided by the generator of section 12.1 of RFC 3720. */
  lemma CrcIsLongDivision(c: bv32, buf: seq<bv8>)
    ensures Bits(Crc(c, buf), 32) == Remainder(XorHead(BufferBits(buf) + Zeros(32), Bits(c, 32)))
  {
    FeedIsRun(c, BufferBits(buf));
    RunIsLongDivision(Bits(c, 32), BufferBits(buf));
  }

  lemma CrcDiffers(c: bv32, a: seq<bv8>, b: seq<bv8>)
    requires Run(Bits(c, 32), BufferBits(a)) != Run(Bits(c, 32), BufferBits(b))
    ensures Crc(c, a) != Crc(c, b)
  {
    FeedIsRun(c, BufferBits(a));
    FeedIsRun(c, BufferBits(b));
  }

  /** Messages that differ only inside a window of at most 32 consecutive bits, which need not
      start or end at a byte, have different checksums from every start value. */
  lemma BitBurstDetected(c: bv32, a: seq<bv8>, b: seq<bv8>,
                         before: seq<bool>, u: seq<bool>, v: seq<bool>, after: seq<bool>)
    requires BufferBits(a) == before + u + after && BufferBits(b) == before + v + after
    requires |u| == |v| <= 32 && u != v
    ensures Crc(c, a) != Crc(c, b)
  {
    BurstDetected(Bits(c, 32), before, u, v, after);
    CrcDiffers(c, a, b);
  }

  lemma ByteBitsInjective(a: bv8, b: bv8)
    requires ByteBits(a) == ByteBits(b)
    ensures a == b
  {
    ByteAlone(a as bv32);
    ByteAlone(b as bv32);
    BitsInjective(a as bv32, b as bv32);
  }

  lemma {:induction false} BufferBitsInjective(a: seq<bv8>, b: seq<bv8>)
    requires |a| == |b| && BufferBits(a) == BufferBits(b)
    ensures a == b
  {
    if a != [] {
      assert ByteBits(a[0]) == BufferBits(a)[..8] && ByteBits(b[0]) == BufferBits(b)[..8];
      assert BufferBits(a[1..]) == BufferBits(a)[8..] && BufferBits(b[1..]) == BufferBits(b)[8..];
      ByteBitsInjective(a[0], b[0]);
      BufferBitsInjective(a[1..], b[1..]);
      assert a == [a[0]] + a[1..] && b == [b[0]] + b[1..];
    }
  }

  /** Buffers of one length that differ only inside a window of at most four consecutive bytes
      have different checksums from every start value. */
  lemma WindowDetected(c: bv32, a: seq<bv8>, b: seq<bv8>, from: nat, width: nat)
    requires |a| == |b| && from + width <= |a| && width <= 4
    requires a != b
    requires forall i :: 0 <= i < |a| && !(from <= i < from + width) ==> a[i] == b[i]
    ensures Crc(c, a) != Crc(c, b)
  {
    var to := from + width;
    var before, after, u, v := a[..from], a[to..], a[from..to], b[from..to];
    assert b[..from] == before && b[to..] == after;
    assert a == before + u + after && b == before + v + after;
    assert u != v;
    SplitBits(before, u, after);
    SplitBits(before, v, after);
    if BufferBits(u) == BufferBits(v) {
      BufferBitsInjective(u, v);
    }
    BitBurstDetected(c, a, b, BufferBits(before), BufferBits(u), BufferBits(v), BufferBits(after));
  }

  lemma SplitBits(before: seq<bv8>, u: seq<bv8>, after: seq<bv8>)
    ensures BufferBits(before + u + after) == BufferBits(before) + BufferBits(u) + BufferBits(after)
  {
    BufferBitsAppend(before + u, after);
    BufferBitsAppend(before, u);
  }

  /** Clocking the error pattern through an empty register gives the difference of the two. */
  lemma ErrorRun(r: seq<bool>, x: seq<bool>, y: seq<bool>)
    requires |r| == 32 && |x| == |y|
    ensures XorHead(Run(r, x), Run(r, y)) == Remainder(XorHead(x, y) + Zeros(32))
  {
    RunLinear(r, r, x, y);
    assert XorHead(r, r) == Zeros(32);
    var error := XorHead(x, y);
    RunIsLongDivision(Zeros(32), error);
    assert XorHead(error + Zeros(32), Zeros(32)) == error + Zeros(32);
  }

  lemma XorHeadZero(r: seq<bool>, s: seq<bool>)
    requires |r| == |s| == 32
    ensures XorHead(r, s) == Zeros(32) <==> r == s
  {
    if XorHead(r, s) == Zeros(32) {
      forall i | 0 <= i < 32
        ensures r[i] == s[i]
      {
        assert !XorHead(r, s)[i];
      }
    }
  }

  /** For any two buffers of one length: the checksums collide exactly when the generator
      divides the error pattern, the bits in which the buffers differ. */
  lemma CollisionIffDivisible(c: bv32, a: seq<bv8>, b: seq<bv8>)
    requires |a| == |b|
    ensures Crc(c, a) == Crc(c, b) <==>
              Remainder(XorHead(BufferBits(a), BufferBits(b)) + Zeros(32)) == Zeros(32)
  {
    var r, x, y := Bits(c, 32), BufferBits(a), BufferBits(b);
    ErrorRun(r, x, y);
    XorHeadZero(Run(r, x), Run(r, y));
    FeedIsRun(c, x);
    FeedIsRun(c, y);
    if Run(r, x) == Run(r, y) {
      BitsInjective(Feed(c, x), Feed(c, y));
    }
  }

  /** The parity of a checksum is that of its start value and its message together. */
  lemma ChecksumParity(c: bv32, buf: seq<bv8>)
    ensures OddOnes(Bits(Crc(c, buf), 32)) == (OddOnes(Bits(c, 32)) != OddOnes(BufferBits(buf)))
  {
    FeedIsRun(c, BufferBits(buf));
    RunParity(Bits(c, 32), BufferBits(buf));
  }

  /** Every error in an odd number of bits is detected, whatever the length and the start value. */
  lemma OddErrorDetected(c: bv32, a: seq<bv8>, b: seq<bv8>)
    requires |a| == |b| && OddOnes(XorHead(BufferBits(a), BufferBits(b)))
    ensures Crc(c, a) != Crc(c, b)
  {
    OddOnesXor(BufferBits(a), BufferBits(b));
    ChecksumParity(c, a);
    ChecksumParity(c, b);
  }

  // ---------- where the two paths differ ----------

  ghost predicate PathsAgreeAt(c: bv32, buf: seq<bv8>)
    requires |buf| < TWO_32
  {
    Crc(c, buf[..TakenIn(true, |buf|)]) == Crc(c, buf[..TakenIn(false, |buf|)])
  }

  /** The two paths of crc32c_t give the same checksum for every start value and every content
      of a given length exactly when that length is below 2^31. */
  lemma PathsAgree(len: nat)
    requires len < TWO_32
    ensures (forall c: bv32, buf: seq<bv8> | |buf| == len :: PathsAgreeAt(c, buf)) <==> len < TWO_31
  {
    if len >= TWO_31 {
      var buf: seq<bv8> := seq(len, _ => 0);
      var other := buf[0 := 1];
      assert buf[0] != other[0];
      WindowDetected(0, buf, other, 0, 1);
      assert buf[..0] == [] == other[..0] && buf[..len] == buf && other[..len] == other;
      assert !PathsAgreeAt(0, buf) || !PathsAgreeAt(0, other);
    }
  }
}
