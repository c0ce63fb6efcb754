/**
The CRC32C register as a machine word: it takes in one message bit at a time, its bits
follow the shift register of BitRegister, and one table lookup takes in a whole byte.
Facts about machine words are kept in lemmas of their own, away from sequences.
*/
module CrcRegister {
  import CrcTable
  import opened BitRegister

  /** The bits of the generator 0x1EDC6F41 in reverse order, as a shift-right register uses them. */
  const REFLECTED: bv32 := 0x82F63B78

  function Bit(b: bool): bv32
  {
    if b then 1 else 0
  }

  /** One clock of the register after the message bit has been mixed into its low bit. */
  function Shift(c: bv32): bv32
  {
    if c & 1 == 1 then (c >> 1) ^ REFLECTED else c >> 1
  }

  /** The register after taking in the message bits one at a time, first bit first. */
  function Feed(c: bv32, bits: seq<bool>): bv32
    decreases bits
  {
    if bits == [] then c else Feed(Shift(c ^ Bit(bits[0])), bits[1..])
  }

  /** The n low bits of x, lowest first: the order in which a byte or a word is taken in. */
  function Bits(x: bv32, n: nat): (bits: seq<bool>)
    ensures |bits| == n
    decreases n
  {
    if n == 0 then [] else [x & 1 == 1] + Bits(x >> 1, n - 1)
  }

  function ByteBits(b: bv8): (bits: seq<bool>)
    ensures |bits| == 8
  {
    Bits(b as bv32, 8)
  }

  function BufferBits(buf: seq<bv8>): (bits: seq<bool>)
    ensures |bits| == 8 * |buf|
  {
    if buf == [] then [] else ByteBits(buf[0]) + BufferBits(buf[1..])
  }

  // ---------- a machine word and its bits ----------

  predicate IsXor(x: bv32, a: bv32, b: bv32)
  {
    x == a ^ b
  }

  lemma IsXorHalves(x: bv32, a: bv32, b: bv32)
    requires IsXor(x, a, b)
    ensures IsXor(x >> 1, a >> 1, b >> 1)
    ensures (x & 1 == 1) == ((a & 1 == 1) != (b & 1 == 1))
  {
  }

  lemma XorHeadCons(p: bool, q: bool, x: seq<bool>, y: seq<bool>)
    requires |x| == |y|
    ensures XorHead([p] + x, [q] + y) == [p != q] + XorHead(x, y)
  {
  }

  /** One place of BitsXor, with the halves given by name. */
  lemma XorPlace(x: bv32, a: bv32, b: bv32, n: nat,
                 p: bool, q: bool, x': bv32, a': bv32, b': bv32)
    requires Bits(x', n) == XorHead(Bits(a', n), Bits(b', n))
    requires Bits(x, n + 1) == [p != q] + Bits(x', n)
    requires Bits(a, n + 1) == [p] + Bits(a', n)
    requires Bits(b, n + 1) == [q] + Bits(b', n)
    ensures Bits(x, n + 1) == XorHead(Bits(a, n + 1), Bits(b, n + 1))
  {
    XorHeadCons(p, q, Bits(a', n), Bits(b', n));
  }

  lemma BitsCons(x: bv32, n: nat)
    ensures Bits(x, n + 1) == [x & 1 == 1] + Bits(x >> 1, n)
  {
  }

  lemma {:induction false} BitsXor(x: bv32, a: bv32, b: bv32, n: nat)
    requires IsXor(x, a, b)
    ensures Bits(x, n) == XorHead(Bits(a, n), Bits(b, n))
    decreases n
  {
    if n > 0 {
      IsXorHalves(x, a, b);
      BitsXor(x >> 1, a >> 1, b >> 1, n - 1);
      BitsCons(x, n - 1);
      BitsCons(a, n - 1);
      BitsCons(b, n - 1);
      XorPlace(x, a, b, n - 1, a & 1 == 1, b & 1 == 1, x >> 1, a >> 1, b >> 1);
    }
  }

  /** Bit n of x. */
  predicate BitAt(x: bv32, n: nat)
    decreases n
  {
    if n == 0 then x & 1 == 1 else BitAt(x >> 1, n - 1)
  }

  lemma {:induction false} BitsSnoc(x: bv32, n: nat)
    ensures Bits(x, n + 1) == Bits(x, n) + [BitAt(x, n)]
    decreases n
  {
    if n > 0 {
      BitsSnoc(x >> 1, n - 1);
    } else {
      assert Bits(x >> 1, 0) == [];
    }
  }

  lemma ShrTwice(x: bv32)
    ensures (x >> 1) >> 1 == x >> 2
  {
  }

  lemma ShrFour(x: bv32)
    ensures (x >> 2) >> 2 == x >> 4
  {
  }

  lemma ShrEight(x: bv32)
    ensures (x >> 4) >> 4 == x >> 8
  {
  }

  lemma BitAtTwo(x: bv32, n: nat)
    ensures BitAt(x, n + 2) == BitAt(x >> 2, n)
  {
    assert BitAt(x, n + 2) == BitAt(x >> 1, n + 1);
    ShrTwice(x);
  }

  lemma BitAtFour(x: bv32, n: nat)
    ensures BitAt(x, n + 4) == BitAt(x >> 4, n)
  {
    BitAtTwo(x, n + 2);
    BitAtTwo(x >> 2, n);
    ShrFour(x);
  }

  lemma BitAtEight(x: bv32, n: nat)
    ensures BitAt(x, n + 8) == BitAt(x >> 8, n)
  {
    BitAtFour(x, n + 4);
    BitAtFour(x >> 4, n);
    ShrEight(x);
  }

  lemma NothingAbove(x: bv32)
    ensures (((x >> 8) >> 8) >> 8) >> 8 == 0
  {
  }

  /** There is no bit 32. */
  lemma NoBit32(x: bv32)
    ensures !BitAt(x, 32)
  {
    BitAtEight(x, 24);
    BitAtEight(x >> 8, 16);
    BitAtEight((x >> 8) >> 8, 8);
    BitAtEight(((x >> 8) >> 8) >> 8, 0);
    NothingAbove(x);
  }

  lemma BitsShr(x: bv32)
    ensures Bits(x >> 1, 32) == Bits(x, 32)[1..] + [false]
  {
    assert Bits(x, 33) == [x & 1 == 1] + Bits(x >> 1, 32);
    BitsSnoc(x, 32);
    NoBit32(x);
    assert Bits(x >> 1, 32) == Bits(x, 33)[1..];
  }

  lemma HalvesDetermine(x: bv32, y: bv32)
    requires (x & 1 == 1) == (y & 1 == 1) && x >> 1 == y >> 1
    ensures x == y
  {
  }

  lemma SamePlace(x: bv32, y: bv32, n: nat, p: bool, q: bool, x': bv32, y': bv32)
    requires Bits(x, n + 1) == [p] + Bits(x', n)
    requires Bits(y, n + 1) == [q] + Bits(y', n)
    requires Bits(x, n + 1) == Bits(y, n + 1)
    ensures p == q && Bits(x', n) == Bits(y', n)
  {
    assert Bits(x', n) == Bits(x, n + 1)[1..];
    assert Bits(y', n) == Bits(y, n + 1)[1..];
    assert p == Bits(x, n + 1)[0];
  }

  lemma FitsHalf(x: bv32, n: nat)
    requires Fits(x, n + 1)
    ensures Fits(x >> 1, n)
  {
  }

  /** A word is determined by its bits once nothing is left above them. */
  lemma {:induction false} BitsDetermine(x: bv32, y: bv32, n: nat)
    requires Bits(x, n) == Bits(y, n)
    requires Fits(x, n) && Fits(y, n)
    ensures x == y
    decreases n
  {
    if n > 0 {
      BitsCons(x, n - 1);
      BitsCons(y, n - 1);
      SamePlace(x, y, n - 1, x & 1 == 1, y & 1 == 1, x >> 1, y >> 1);
      FitsHalf(x, n - 1);
      FitsHalf(y, n - 1);
      BitsDetermine(x >> 1, y >> 1, n - 1);
      HalvesDetermine(x, y);
    }
  }

  /** Shifting x right n times leaves nothing. */
  predicate Fits(x: bv32, n: nat)
    decreases n
  {
    if n == 0 then x == 0 else Fits(x >> 1, n - 1)
  }

  lemma FitsTwo(x: bv32, n: nat)
    ensures Fits(x, n + 2) == Fits(x >> 2, n)
  {
    assert Fits(x, n + 2) == Fits(x >> 1, n + 1);
    ShrTwice(x);
  }

  lemma FitsFour(x: bv32, n: nat)
    ensures Fits(x, n + 4) == Fits(x >> 4, n)
  {
    FitsTwo(x, n + 2);
    FitsTwo(x >> 2, n);
    ShrFour(x);
  }

  lemma FitsEight(x: bv32, n: nat)
    ensures Fits(x, n + 8) == Fits(x >> 8, n)
  {
    FitsFour(x, n + 4);
    FitsFour(x >> 4, n);
    ShrEight(x);
  }

  lemma EveryWordFits(x: bv32)
    ensures Fits(x, 32)
  {
    FitsEight(x, 24);
    FitsEight(x >> 8, 16);
    FitsEight((x >> 8) >> 8, 8);
    FitsEight(((x >> 8) >> 8) >> 8, 0);
    NothingAbove(x);
  }

  /** The 32 bits of a word determine it. */
  lemma BitsInjective(x: bv32, y: bv32)
    requires Bits(x, 32) == Bits(y, 32)
    ensures x == y
  {
    EveryWordFits(x);
    EveryWordFits(y);
    BitsDetermine(x, y, 32);
  }

  // ---------- the machine register is the bit register ----------

  lemma MixLow(c: bv32, b: bool)
    ensures (c ^ Bit(b)) >> 1 == c >> 1
    ensures ((c ^ Bit(b)) & 1 == 1) == ((c & 1 == 1) != b)
  {
  }

  lemma BitsTwo(x: bv32, n: nat)
    ensures Bits(x, n + 2) == Bits(x, 2) + Bits(x >> 2, n)
  {
    BitsCons(x, n + 1);
    BitsCons(x >> 1, n);
    BitsCons(x, 1);
    BitsCons(x >> 1, 0);
    ShrTwice(x);
    Regroup([x & 1 == 1], [(x >> 1) & 1 == 1], Bits(x >> 2, n), Bits((x >> 1) >> 1, 0));
  }

  lemma Regroup(a: seq<bool>, b: seq<bool>, c: seq<bool>, e: seq<bool>)
    requires e == []
    ensures a + (b + c) == (a + (b + e)) + c
  {
  }

  lemma Regroup4(a: seq<bool>, b: seq<bool>, c: seq<bool>)
    ensures a + (b + c) == (a + b) + c
  {
  }

  lemma BitsFour(x: bv32, n: nat)
    ensures Bits(x, n + 4) == Bits(x, 4) + Bits(x >> 4, n)
  {
    BitsTwo(x, n + 2);
    BitsTwo(x >> 2, n);
    BitsTwo(x, 2);
    ShrFour(x);
    Regroup4(Bits(x, 2), Bits(x >> 2, 2), Bits(x >> 4, n));
  }

  /** The low byte of a word is taken in first. */
  lemma BitsEight(x: bv32, n: nat)
    ensures Bits(x, n + 8) == Bits(x, 8) + Bits(x >> 8, n)
  {
    BitsFour(x, n + 4);
    BitsFour(x >> 4, n);
    BitsFour(x, 4);
    ShrEight(x);
    Regroup4(Bits(x, 4), Bits(x >> 4, 4), Bits(x >> 8, n));
  }

  /** BitsEight with the upper part given by name. */
  lemma BitsByte(x: bv32, upper: bv32, n: nat)
    requires upper == x >> 8
    ensures Bits(x, n + 8) == Bits(x, 8) + Bits(upper, n)
  {
    BitsEight(x, n);
  }

  lemma SameLowTwo(x: bv32, y: bv32)
    requires x & 3 == y & 3
    ensures Bits(x, 2) == Bits(y, 2)
  {
    BitsCons(x, 1);
    BitsCons(x >> 1, 0);
    BitsCons(y, 1);
    BitsCons(y >> 1, 0);
    assert x & 1 == y & 1;
    assert (x >> 1) & 1 == (y >> 1) & 1;
  }

  lemma LowParts(x: bv32, y: bv32)
    ensures x & 15 == y & 15 ==> x & 3 == y & 3 && (x >> 2) & 3 == (y >> 2) & 3
    ensures x & 255 == y & 255 ==> x & 15 == y & 15 && (x >> 4) & 15 == (y >> 4) & 15
  {
  }

  lemma SameLowFour(x: bv32, y: bv32)
    requires x & 15 == y & 15
    ensures Bits(x, 4) == Bits(y, 4)
  {
    LowParts(x, y);
    SameLowTwo(x, y);
    SameLowTwo(x >> 2, y >> 2);
    BitsTwo(x, 2);
    BitsTwo(y, 2);
  }

  /** The first eight bits of a word are those of its low byte. */
  lemma SameLowByte(x: bv32, y: bv32)
    requires x & 255 == y & 255
    ensures Bits(x, 8) == Bits(y, 8)
  {
    LowParts(x, y);
    SameLowFour(x, y);
    SameLowFour(x >> 4, y >> 4);
    BitsFour(x, 4);
    BitsFour(y, 4);
  }

  lemma Byte78()
    ensures Bits(0x78, 8) == GEN_1E
  {
  }

  lemma Byte3B()
    ensures Bits(0x3B, 8) == GEN_DC
  {
  }

  lemma ByteF6()
    ensures Bits(0xF6, 8) == GEN_6F
  {
  }

  lemma Byte82()
    ensures Bits(0x82, 8) == GEN_41
  {
  }

  /** The constant of the shift-right register is the generator of section 12.1 of RFC 3720. */
  lemma BitsReflected()
    ensures Bits(REFLECTED, 32) == GENERATOR
  {
    assert Bits(0x82F63B78, 8) == GEN_1E by {
      SameLowByte(0x82F63B78, 0x78);
      Byte78();
    }
    assert Bits(0x82F63B, 8) == GEN_DC by {
      SameLowByte(0x82F63B, 0x3B);
      Byte3B();
    }
    assert Bits(0x82F6, 8) == GEN_6F by {
      SameLowByte(0x82F6, 0xF6);
      ByteF6();
    }
    Byte82();
    BitsByte(0x82F63B78, 0x82F63B, 24);
    BitsByte(0x82F63B, 0x82F6, 16);
    BitsByte(0x82F6, 0x82, 8);
  }

  lemma ShiftCases(x: bv32)
    ensures x & 1 == 1 ==> IsXor(Shift(x), x >> 1, REFLECTED)
    ensures x & 1 != 1 ==> Shift(x) == x >> 1
  {
  }

  lemma BitsShift(x: bv32, c: bv32, b: bool)
    requires x >> 1 == c >> 1
    requires (x & 1 == 1) == ((c & 1 == 1) != b)
    ensures Bits(Shift(x), 32) == Step(Bits(c, 32), b)
  {
    ShiftCases(x);
    BitsShr(c);
    BitsCons(c, 31);
    if x & 1 == 1 {
      BitsXor(Shift(x), x >> 1, REFLECTED, 32);
      BitsReflected();
    }
  }

  /** The register after one more message bit. */
  function Clock(c: bv32, b: bool): bv32
  {
    Shift(c ^ Bit(b))
  }

  lemma ClockIsStep(c: bv32, b: bool)
    ensures Bits(Clock(c, b), 32) == Step(Bits(c, 32), b)
  {
    MixLow(c, b);
    BitsShift(c ^ Bit(b), c, b);
  }

  lemma FeedFirst(c: bv32, bits: seq<bool>)
    requires bits != []
    ensures Feed(c, bits) == Feed(Clock(c, bits[0]), bits[1..])
  {
  }

  lemma RunFirst(r: seq<bool>, bits: seq<bool>)
    requires bits != [] && |r| == 32
    ensures Run(r, bits) == Run(Step(r, bits[0]), bits[1..])
  {
  }

  /** The induction step of FeedIsRun, on named registers. */
  lemma FeedRunStep(c: bv32, c': bv32, r: seq<bool>, r': seq<bool>, bits: seq<bool>)
    requires bits != [] && |r| == |r'| == 32 && r == Bits(c, 32) && r' == Step(r, bits[0])
    requires Feed(c, bits) == Feed(c', bits[1..]) && Bits(Feed(c', bits[1..]), 32) == Run(r', bits[1..])
    ensures Bits(Feed(c, bits), 32) == Run(r, bits)
  {
    RunFirst(r, bits);
  }

  /** The machine word follows the shift register. */
  lemma {:induction false} FeedIsRun(c: bv32, bits: seq<bool>)
    ensures Bits(Feed(c, bits), 32) == Run(Bits(c, 32), bits)
    decreases bits
  {
    if bits != [] {
      var c' := Clock(c, bits[0]);
      ClockIsStep(c, bits[0]);
      FeedFirst(c, bits);
      FeedIsRun(c', bits[1..]);
      FeedRunStep(c, c', Bits(c, 32), Bits(c', 32), bits);
    }
  }

  lemma FeedAppend(c: bv32, x: seq<bool>, y: seq<bool>)
    ensures Feed(c, x + y) == Feed(Feed(c, x), y)
  {
    FeedIsRun(c, x + y);
    FeedIsRun(c, x);
    FeedIsRun(Feed(c, x), y);
    RunAppend(Bits(c, 32), x, y);
    BitsInjective(Feed(c, x + y), Feed(Feed(c, x), y));
  }

  // ---------- the table ----------

  function Shift4(c: bv32): bv32
  {
    Shift(Shift(Shift(Shift(c))))
  }

  /** Eight clocks with no message bits. */
  function Shift8(c: bv32): bv32
  {
    Shift4(Shift4(c))
  }

  lemma FeedZero(c: bv32, n: nat)
    ensures Feed(c, Zeros(n + 1)) == Feed(Shift(c), Zeros(n))
  {
    assert Zeros(n + 1)[1..] == Zeros(n);
    assert c ^ Bit(false) == c;
  }

  lemma FeedTwoZeros(c: bv32, n: nat)
    ensures Feed(c, Zeros(n + 2)) == Feed(Shift(Shift(c)), Zeros(n))
  {
    FeedZero(c, n + 1);
    FeedZero(Shift(c), n);
  }

  lemma FeedFourZeros(c: bv32, n: nat)
    ensures Feed(c, Zeros(n + 4)) == Feed(Shift4(c), Zeros(n))
  {
    FeedTwoZeros(c, n + 2);
    FeedTwoZeros(Shift(Shift(c)), n);
  }

  lemma FeedChain(c: bv32, middle: bv32, last: bv32)
    requires Feed(c, Zeros(8)) == Feed(middle, Zeros(4)) && Feed(middle, Zeros(4)) == Feed(last, Zeros(0))
    ensures Feed(c, Zeros(8)) == last
  {
  }

  lemma FeedEightZeros(c: bv32)
    ensures Feed(c, Zeros(8)) == Shift8(c)
  {
    FeedFourZeros(c, 4);
    FeedFourZeros(Shift4(c), 0);
    FeedChain(c, Shift4(c), Shift8(c));
  }

  /** Taking in zeros is linear. */
  lemma ZerosLinear(x: bv32, y: bv32, z: bv32, n: nat, fx: bv32, fy: bv32, fz: bv32)
    requires IsXor(z, x, y) && IsXor(fz, fx, fy)
    requires fx == Feed(x, Zeros(n)) && fy == Feed(y, Zeros(n))
    ensures Feed(z, Zeros(n)) == fz
  {
    BitsXor(z, x, y, 32);
    BitsXor(fz, fx, fy, 32);
    FeedIsRun(x, Zeros(n));
    FeedIsRun(y, Zeros(n));
    FeedIsRun(z, Zeros(n));
    RunLinear(Bits(x, 32), Bits(y, 32), Zeros(n), Zeros(n));
    assert XorHead(Zeros(n), Zeros(n)) == Zeros(n);
    BitsInjective(Feed(z, Zeros(n)), fz);
  }

  /** The word w added to x, or not. */
  function Take(x: bv32, b: bool, w: bv32): bv32
  {
    if b then x ^ w else x
  }

  predicate Becomes(x: bv32, entry: bv32)
  {
    Feed(x, Zeros(8)) == entry
  }

  /** One more bit of the index. */
  lemma AddBit(x: bv32, fx: bv32, b: bool, w: bv32, e: bv32, z: bv32, fz: bv32)
    requires Becomes(x, fx) && Becomes(w, e) && z == Take(x, b, w) && fz == Take(fx, b, e)
    ensures Becomes(z, fz)
  {
    if b {
      ZerosLinear(x, w, z, 8, fx, e, fz);
    }
  }

  lemma ShiftBecomes(x: bv32, entry: bv32)
    requires Shift8(x) == entry
    ensures Becomes(x, entry)
  {
    FeedEightZeros(x);
  }

  function Mix(x: bv32, a: bool, w0: bv32, b: bool, w1: bv32, c: bool, w2: bv32, d: bool, w3: bv32): bv32
  {
    Take(Take(Take(Take(x, a, w0), b, w1), c, w2), d, w3)
  }

  lemma AddBits(x: bv32, fx: bv32, a: bool, w0: bv32, e0: bv32, b: bool, w1: bv32, e1: bv32,
                c: bool, w2: bv32, e2: bv32, d: bool, w3: bv32, e3: bv32)
    requires Becomes(x, fx) && Becomes(w0, e0) && Becomes(w1, e1) && Becomes(w2, e2) && Becomes(w3, e3)
    ensures Becomes(Mix(x, a, w0, b, w1, c, w2, d, w3), Mix(fx, a, e0, b, e1, c, e2, d, e3))
  {
    var x1, f1 := Take(x, a, w0), Take(fx, a, e0);
    var x2, f2 := Take(x1, b, w1), Take(f1, b, e1);
    var x3, f3 := Take(x2, c, w2), Take(f2, c, e2);
    AddBit(x, fx, a, w0, e0, x1, f1);
    AddBit(x1, f1, b, w1, e1, x2, f2);
    AddBit(x2, f2, c, w2, e2, x3, f3);
    AddBit(x3, f3, d, w3, e3, Take(x3, d, w3), Take(f3, d, e3));
  }

  lemma LowPowers()
    ensures Shift8(1) == 0xF26B8303 && Shift8(2) == 0xE13B70F7 && Shift8(4) == 0xC79A971F && Shift8(8) == 0x8AD958CF
  {
  }

  lemma HighPowers()
    ensures Shift8(16) == 0x105EC76F && Shift8(32) == 0x20BD8EDE && Shift8(64) == 0x417B1DBC && Shift8(128) == 0x82F63B78
  {
  }

  lemma NothingBecomes()
    ensures Becomes(0, 0)
  {
    assert Shift8(0) == 0;
    ShiftBecomes(0, 0);
  }

  function LowBits(i: bv8): bv32
  {
    Mix(0, i & 1 != 0, 1, i & 2 != 0, 2, i & 4 != 0, 4, i & 8 != 0, 8)
  }

  function LowEntry(i: bv8): bv32
  {
    Mix(0, i & 1 != 0, 0xF26B8303, i & 2 != 0, 0xE13B70F7, i & 4 != 0, 0xC79A971F, i & 8 != 0, 0x8AD958CF)
  }

  /** The entry of an index, from the entries of the powers of two. */
  function LinearEntry(i: bv8): bv32
  {
    Mix(LowEntry(i), i & 16 != 0, 0x105EC76F, i & 32 != 0, 0x20BD8EDE, i & 64 != 0, 0x417B1DBC, i & 128 != 0, 0x82F63B78)
  }

  lemma LowBecomes(i: bv8)
    ensures Becomes(LowBits(i), LowEntry(i))
  {
    NothingBecomes();
    LowPowers();
    ShiftBecomes(1, 0xF26B8303);
    ShiftBecomes(2, 0xE13B70F7);
    ShiftBecomes(4, 0xC79A971F);
    ShiftBecomes(8, 0x8AD958CF);
    AddBits(0, 0, i & 1 != 0, 1, 0xF26B8303, i & 2 != 0, 2, 0xE13B70F7,
            i & 4 != 0, 4, 0xC79A971F, i & 8 != 0, 8, 0x8AD958CF);
  }

  lemma ByteIsBits(i: bv8)
    ensures Mix(LowBits(i), i & 16 != 0, 16, i & 32 != 0, 32, i & 64 != 0, 64, i & 128 != 0, 128) == i as bv32
  {
  }

  lemma IndexBecomes(i: bv8)
    ensures Becomes(i as bv32, LinearEntry(i))
  {
    LowBecomes(i);
    ByteIsBits(i);
    HighPowers();
    ShiftBecomes(16, 0x105EC76F);
    ShiftBecomes(32, 0x20BD8EDE);
    ShiftBecomes(64, 0x417B1DBC);
    ShiftBecomes(128, 0x82F63B78);
    AddBits(LowBits(i), LowEntry(i), i & 16 != 0, 16, 0x105EC76F, i & 32 != 0, 32, 0x20BD8EDE,
            i & 64 != 0, 64, 0x417B1DBC, i & 128 != 0, 128, 0x82F63B78);
  }

  lemma TableRow00(i: bv8)
    requires i < 0x08
    ensures CrcTable.Entry(i) == LinearEntry(i)
  {
  }

  lemma TableRow08(i: bv8)
    requires 0x08 <= i < 0x0C
    ensures CrcTable.Entry(i) == LinearEntry(i)
  {
  }

  lemma TableRow0C(i: bv8)
    requires 0x0C <= i < 0x10
    ensures CrcTable.Entry(i) == LinearEntry(i)
  {
  }

  lemma TableRow10(i: bv8)
    requires 0x10 <= i < 0x20
    ensures CrcTable.Entry(i) == LinearEntry(i)
  {
  }

  lemma TableRows20(i: bv8)
    requires 0x20 <= i < 0x40
    ensures CrcTable.Entry(i) == LinearEntry(i)
  {
  }

  lemma TableRows40(i: bv8)
    requires 0x40 <= i < 0x60
    ensures CrcTable.Entry(i) == LinearEntry(i)
  {
  }

  lemma TableRows60(i: bv8)
    requires 0x60 <= i < 0x80
    ensures CrcTable.Entry(i) == LinearEntry(i)
  {
  }

  lemma TableRows80(i: bv8)
    requires 0x80 <= i < 0xA0
    ensures CrcTable.Entry(i) == LinearEntry(i)
  {
  }

  lemma TableRowsA0(i: bv8)
    requires 0xA0 <= i < 0xC0
    ensures CrcTable.Entry(i) == LinearEntry(i)
  {
  }

  lemma TableRowsC0(i: bv8)
    requires 0xC0 <= i < 0xE0
    ensures CrcTable.Entry(i) == LinearEntry(i)
  {
  }

  lemma TableRowsE0(i: bv8)
    requires 0xE0 <= i
    ensures CrcTable.Entry(i) == LinearEntry(i)
  {
  }

  lemma TableRows(i: bv8)
    ensures CrcTable.Entry(i) == LinearEntry(i)
  {
    if i < 0x08 { TableRow00(i); }
    else if i < 0x0C { TableRow08(i); }
    else if i < 0x10 { TableRow0C(i); }
    else if i < 0x20 { TableRow10(i); }
    else if i < 0x40 { TableRows20(i); }
    else if i < 0x60 { TableRows40(i); }
    else if i < 0x80 { TableRows60(i); }
    else if i < 0xA0 { TableRows80(i); }
    else if i < 0xC0 { TableRowsA0(i); }
    else if i < 0xE0 { TableRowsC0(i); }
    else { TableRowsE0(i); }
  }

  /** Every entry is the register after eight clocks from its index. */
  lemma TableEntry(i: bv8)
    ensures CrcTable.Entry(i) == Feed(i as bv32, Zeros(8))
  {
    TableRows(i);
    IndexBecomes(i);
  }

  lemma {:induction false} BitsZero(n: nat)
    ensures Bits(0, n) == Zeros(n)
  {
    if n > 0 {
      BitsZero(n - 1);
      assert (0 as bv32) >> 1 == 0;
      BitsCons(0, n - 1);
    }
  }

  lemma {:induction false} BitsIndex(x: bv32, n: nat, i: nat)
    requires i < n
    ensures Bits(x, n)[i] == BitAt(x, i)
    decreases n
  {
    if i > 0 {
      BitsIndex(x >> 1, n - 1, i - 1);
    }
  }

  lemma {:induction false} NoBitAbove(x: bv32, k: nat)
    ensures !BitAt(x, 32 + k)
    decreases k
  {
    if k == 0 {
      NoBit32(x);
    } else {
      NoBitAbove(x >> 1, k - 1);
    }
  }

  lemma ShrByteBit(c: bv32, upper: bv32, i: nat)
    requires upper == c >> 8 && i < 32
    ensures Bits(upper, 32)[i] == (i < 24 && Bits(c, 32)[i + 8])
  {
    BitsIndex(upper, 32, i);
    BitAtEight(c, i);
    if i < 24 {
      BitsIndex(c, 32, i + 8);
    } else {
      NoBitAbove(c, i - 24);
    }
  }

  lemma ShrByteBits(c: bv32, upper: bv32)
    requires forall i: nat | i < 32 :: Bits(upper, 32)[i] == (i < 24 && Bits(c, 32)[i + 8])
    ensures Bits(upper, 32) == Bits(c, 32)[8..] + Zeros(8)
  {
  }

  /** Moving a word down by a byte moves its bits to the front. */
  lemma BitsShrByte(c: bv32)
    ensures Bits(c >> 8, 32) == Bits(c, 32)[8..] + Zeros(8)
  {
    var upper := c >> 8;
    forall i: nat | i < 32
      ensures Bits(upper, 32)[i] == (i < 24 && Bits(c, 32)[i + 8])
    {
      ShrByteBit(c, upper, i);
    }
    ShrByteBits(c, upper);
  }

  /** One iteration of the byte loop. */
  function TableStep(c: bv32, b: bv8): bv32
  {
    (c >> 8) ^ CrcTable.Entry(((c ^ (b as bv32)) & 0xFF) as bv8)
  }

  lemma ByteAlone(i: bv32)
    requires i >> 8 == 0
    ensures Bits(i, 32) == Bits(i, 8) + Zeros(24)
  {
    BitsByte(i, 0, 24);
    BitsZero(24);
  }

  lemma FirstByte(c: bv32)
    ensures Bits(c, 32)[..8] == Bits(c, 8)
  {
    BitsEight(c, 24);
  }

  lemma MaskByte(x: bv32)
    ensures (x & 0xFF) & 255 == x & 255
    ensures (x & 0xFF) >> 8 == 0
    ensures (x & 0xFF) & 0xFF == x & 0xFF
  {
  }

  lemma IndexBits(c: bv32, b: bv32, x: bv32, i: bv32)
    requires IsXor(x, c, b)
    requires Bits(i, 8) == Bits(x, 8)
    requires Bits(i, 32) == Bits(i, 8) + Zeros(24)
    ensures Bits(i, 32) == XorHead(Bits(c, 32)[..8], Bits(b, 8)) + Zeros(24)
  {
    BitsXor(x, c, b, 8);
    FirstByte(c);
  }

  lemma EntryBits(i: bv8)
    ensures Bits(CrcTable.Entry(i), 32) == Run(Bits(i as bv32, 32), Zeros(8))
  {
    TableEntry(i);
    FeedIsRun(i as bv32, Zeros(8));
  }

  lemma StepBits(c: bv32, b: bv8, index: bv32, entry: bv32, s: bv32)
    requires Bits(index, 32) == XorHead(Bits(c, 32)[..8], ByteBits(b)) + Zeros(24)
    requires Bits(entry, 32) == Run(Bits(index, 32), Zeros(8))
    requires IsXor(s, c >> 8, entry)
    ensures Bits(s, 32) == Run(Bits(c, 32), ByteBits(b))
  {
    BitsXor(s, c >> 8, entry, 32);
    BitsShrByte(c);
    RunByte(Bits(c, 32), ByteBits(b));
  }

  lemma StepIsFeed(c: bv32, b: bv8, index: bv32, entry: bv32, s: bv32)
    requires Bits(index, 32) == XorHead(Bits(c, 32)[..8], ByteBits(b)) + Zeros(24)
    requires Bits(entry, 32) == Run(Bits(index, 32), Zeros(8))
    requires IsXor(s, c >> 8, entry)
    ensures s == Feed(c, ByteBits(b))
  {
    StepBits(c, b, index, entry, s);
    FeedIsRun(c, ByteBits(b));
    BitsInjective(s, Feed(c, ByteBits(b)));
  }

  lemma IndexByte(c: bv32, b: bv8, x: bv32, index: bv8)
    requires IsXor(x, c, b as bv32) && index as bv32 == x & 0xFF
    ensures Bits(index as bv32, 32) == XorHead(Bits(c, 32)[..8], ByteBits(b)) + Zeros(24)
  {
    MaskByte(x);
    ByteAlone(x & 0xFF);
    SameLowByte(x & 0xFF, x);
    IndexBits(c, b as bv32, x, x & 0xFF);
  }

  lemma IndexCast(x: bv32)
    ensures ((x & 0xFF) as bv8) as bv32 == x & 0xFF
  {
  }

  lemma LookupIndex(c: bv32, b: bv8) returns (index: bv8)
    ensures index == ((c ^ (b as bv32)) & 0xFF) as bv8
    ensures Bits(index as bv32, 32) == XorHead(Bits(c, 32)[..8], ByteBits(b)) + Zeros(24)
  {
    var x := c ^ (b as bv32);
    IndexCast(x);
    index := (x & 0xFF) as bv8;
    IndexByte(c, b, x, index);
  }

  lemma LookupEntry(c: bv32, b: bv8, index: bv8) returns (entry: bv32)
    requires index == ((c ^ (b as bv32)) & 0xFF) as bv8
    ensures Bits(entry, 32) == Run(Bits(index as bv32, 32), Zeros(8))
    ensures IsXor(TableStep(c, b), c >> 8, entry)
  {
    entry := CrcTable.Entry(index);
    EntryBits(index);
  }

  /** Looking up one table entry takes in one byte. */
  lemma TableStepIsFeed(c: bv32, b: bv8)
    ensures TableStep(c, b) == Feed(c, ByteBits(b))
  {
    var index := LookupIndex(c, b);
    var entry := LookupEntry(c, b, index);
    StepIsFeed(c, b, index as bv32, entry, TableStep(c, b));
  }
}
