/**
A 32-place shift register over single bits, and long division of bit polynomials.
Sequences of bits stand for polynomials over the two-element field, highest power first.
The register is the sequence of its 32 bits, lowest bit of the machine word first, which
in the reflected convention is the coefficient of x^31.
*/
module BitRegister {

  function Zeros(n: nat): (z: seq<bool>)
    ensures |z| == n
  {
    seq(n, _ => false)
  }

  /** The bits of g added (without carry) onto the front of s. */
  function XorHead(s: seq<bool>, g: seq<bool>): (r: seq<bool>)
    requires |g| <= |s|
    ensures |r| == |s|
  {
    seq(|s|, i requires 0 <= i < |s| => if i < |g| then s[i] != g[i] else s[i])
  }

  /** The generator of section 12.1 of RFC 3720 below its x^32 term: the 32 bits of 0x1EDC6F41. */
  const GENERATOR: seq<bool> := GEN_1E + (GEN_DC + (GEN_6F + GEN_41))
  const GEN_1E: seq<bool> := [false, false, false, true, true, true, true, false]
  const GEN_DC: seq<bool> := [true, true, false, true, true, true, false, false]
  const GEN_6F: seq<bool> := [false, true, true, false, true, true, true, true]
  const GEN_41: seq<bool> := [false, true, false, false, false, false, false, true]

  /** The register after one message bit. */
  function Step(r: seq<bool>, b: bool): (r': seq<bool>)
    requires |r| == 32
    ensures |r'| == 32
  {
    var shifted := r[1..] + [false];
    if r[0] != b then XorHead(shifted, GENERATOR) else shifted
  }

  function Run(r: seq<bool>, bits: seq<bool>): (r': seq<bool>)
    requires |r| == 32
    ensures |r'| == 32
    decreases bits
  {
    if bits == [] then r else Run(Step(r, bits[0]), bits[1..])
  }

  /**
  Textbook long division: while more than 32 coefficients are left, a leading 1 is cancelled
  by subtracting the generator, a leading 0 is dropped. What is left is the remainder.
  */
  function Remainder(dividend: seq<bool>): (r: seq<bool>)
    requires |dividend| >= 32
    ensures |r| == 32
    decreases |dividend|
  {
    if |dividend| == 32 then dividend
    else if dividend[0] then Remainder(XorHead(dividend[1..], GENERATOR))
    else Remainder(dividend[1..])
  }

  /**
  The register computes a remainder: the message followed by 32 zeros, with the starting
  value of the register added onto its front, divided by the generator.
  */
  lemma {:induction false} RunIsLongDivision(r: seq<bool>, bits: seq<bool>)
    requires |r| == 32
    ensures Run(r, bits) == Remainder(XorHead(bits + Zeros(32), r))
    decreases bits
  {
    var d := XorHead(bits + Zeros(32), r);
    if bits == [] {
      assert d == r;
    } else {
      var rest := bits[1..] + Zeros(32);
      var shifted := r[1..] + [false];
      assert d[0] == (r[0] != bits[0]);
      assert d[1..] == XorHead(rest, shifted);
      if d[0] {
        assert XorHead(d[1..], GENERATOR) == XorHead(rest, Step(r, bits[0]));
      }
      RunIsLongDivision(Step(r, bits[0]), bits[1..]);
    }
  }

  lemma {:induction false} RunAppend(r: seq<bool>, x: seq<bool>, y: seq<bool>)
    requires |r| == 32
    ensures Run(r, x + y) == Run(Run(r, x), y)
    decreases x
  {
    if x == [] {
      assert x + y == y;
    } else {
      assert (x + y)[1..] == x[1..] + y;
      RunAppend(Step(r, x[0]), x[1..], y);
    }
  }

  // ---------- linearity ----------

  lemma StepLinear(r: seq<bool>, s: seq<bool>, p: bool, q: bool)
    requires |r| == |s| == 32
    ensures XorHead(Step(r, p), Step(s, q)) == Step(XorHead(r, s), p != q)
  {
    var t := Step(XorHead(r, s), p != q);
    forall i | 0 <= i < 32
      ensures XorHead(Step(r, p), Step(s, q))[i] == t[i]
    {
      if i < 31 {
        assert XorHead(r, s)[1..][i] == (r[i + 1] != s[i + 1]);
      }
    }
  }

  lemma {:induction false} RunLinear(r: seq<bool>, s: seq<bool>, x: seq<bool>, y: seq<bool>)
    requires |r| == |s| == 32 && |x| == |y|
    ensures XorHead(Run(r, x), Run(s, y)) == Run(XorHead(r, s), XorHead(x, y))
    decreases x
  {
    var z := XorHead(x, y);
    if x != [] {
      assert z[1..] == XorHead(x[1..], y[1..]);
      StepLinear(r, s, x[0], y[0]);
      RunLinear(Step(r, x[0]), Step(s, y[0]), x[1..], y[1..]);
    }
  }

  // ---------- invertibility ----------

  lemma StepInjective(r: seq<bool>, s: seq<bool>, b: bool)
    requires |r| == |s| == 32
    requires Step(r, b) == Step(s, b)
    ensures r == s
  {
    assert GENERATOR[31];
    assert Step(r, b)[31] == (r[0] != b);
    assert Step(s, b)[31] == (s[0] != b);
    forall i | 1 <= i < 32
      ensures r[i] == s[i]
    {
      assert Step(r, b)[i - 1] == Step(s, b)[i - 1];
    }
  }

  lemma {:induction false} RunInjective(r: seq<bool>, s: seq<bool>, x: seq<bool>)
    requires |r| == |s| == 32
    requires Run(r, x) == Run(s, x)
    ensures r == s
    decreases x
  {
    if x != [] {
      RunInjective(Step(r, x[0]), Step(s, x[0]), x[1..]);
      StepInjective(r, s, x[0]);
    }
  }

  // ---------- bursts ----------

  /** Up to 32 message bits can be added onto the register first and clocked through after. */
  lemma {:induction false} RunPreload(r: seq<bool>, x: seq<bool>)
    requires |r| == 32 && |x| <= 32
    ensures Run(r, x) == Run(XorHead(r, x), Zeros(|x|))
    decreases x
  {
    if x == [] {
      assert XorHead(r, x) == r;
    } else {
      var r' := Step(r, x[0]);
      var loaded := XorHead(r, x);
      assert loaded[1..] + [false] == XorHead(r[1..] + [false], x[1..]);
      assert Step(loaded, false) == XorHead(r', x[1..]);
      assert Zeros(|x|)[1..] == Zeros(|x| - 1);
      RunPreload(r', x[1..]);
    }
  }

  lemma XorHeadInjective(s: seq<bool>, u: seq<bool>, v: seq<bool>)
    requires |u| == |v| <= |s|
    requires XorHead(s, u) == XorHead(s, v)
    ensures u == v
  {
    forall i | 0 <= i < |u|
      ensures u[i] == v[i]
    {
      assert XorHead(s, u)[i] == XorHead(s, v)[i];
    }
  }

  lemma WindowInjective(r: seq<bool>, u: seq<bool>, v: seq<bool>)
    requires |r| == 32 && |u| == |v| <= 32
    requires Run(r, u) == Run(r, v)
    ensures u == v
  {
    RunPreload(r, u);
    RunPreload(r, v);
    RunInjective(XorHead(r, u), XorHead(r, v), Zeros(|u|));
    XorHeadInjective(r, u, v);
  }

  lemma RunAppend3(r: seq<bool>, x: seq<bool>, y: seq<bool>, z: seq<bool>)
    requires |r| == 32
    ensures Run(r, x + y + z) == Run(Run(Run(r, x), y), z)
  {
    RunAppend(r, x + y, z);
    RunAppend(r, x, y);
  }

  /** Two messages that differ only inside a window of at most 32 bits never collide. */
  lemma BurstDetected(r: seq<bool>, before: seq<bool>, u: seq<bool>, v: seq<bool>, after: seq<bool>)
    requires |r| == 32 && |u| == |v| <= 32 && u != v
    ensures Run(r, before + u + after) != Run(r, before + v + after)
  {
    var mid := Run(r, before);
    assert Run(Run(mid, u), after) != Run(Run(mid, v), after) by {
      if Run(Run(mid, u), after) == Run(Run(mid, v), after) {
        RunInjective(Run(mid, u), Run(mid, v), after);
        WindowInjective(mid, u, v);
      }
    }
    RunAppend3(r, before, u, after);
    RunAppend3(r, before, v, after);
  }

  // ---------- the pieces of the table method ----------

  /** k clocks of a register whose first k bits are clear only move the rest down. */
  lemma {:induction false} RunOverClear(r: seq<bool>, k: nat)
    requires |r| == 32 && k <= 32
    requires forall i :: 0 <= i < k ==> !r[i]
    ensures Run(r, Zeros(k)) == r[k..] + Zeros(k)
    decreases k
  {
    if k == 0 {
      assert r[0..] + Zeros(0) == r;
    } else {
      var r' := r[1..] + [false];
      assert Step(r, false) == r';
      assert Zeros(k)[1..] == Zeros(k - 1);
      RunOverClear(r', k - 1);
      assert r'[k - 1..] + Zeros(k - 1) == r[k..] + Zeros(k);
    }
  }

  /**
  Taking in one byte splits into moving the register down by eight and running the sum of
  its low eight bits and the byte through an empty register: the step a table can hold.
  */
  lemma RunByte(r: seq<bool>, byte: seq<bool>)
    requires |r| == 32 && |byte| == 8
    ensures Run(r, byte) == XorHead(r[8..] + Zeros(8), Run(XorHead(r[..8], byte) + Zeros(24), Zeros(8)))
  {
    var high := Zeros(8) + r[8..];
    var low := r[..8] + Zeros(24);
    assert Run(r, byte) == XorHead(Run(high, Zeros(8)), Run(low, byte)) by {
      ByteSplit(r, byte, high, low);
      RunLinear(high, low, Zeros(8), byte);
    }
    assert Run(high, Zeros(8)) == r[8..] + Zeros(8) by {
      ByteSplit(r, byte, high, low);
      RunOverClear(high, 8);
    }
    assert Run(low, byte) == Run(XorHead(r[..8], byte) + Zeros(24), Zeros(8)) by {
      ByteSplit(r, byte, high, low);
      RunPreload(low, byte);
    }
  }

  lemma ByteSplit(r: seq<bool>, byte: seq<bool>, high: seq<bool>, low: seq<bool>)
    requires |r| == 32 && |byte| == 8
    requires high == Zeros(8) + r[8..] && low == r[..8] + Zeros(24)
    ensures XorHead(high, low) == r
    ensures XorHead(Zeros(8), byte) == byte
    ensures high[8..] + Zeros(8) == r[8..] + Zeros(8)
    ensures XorHead(low, byte) == XorHead(r[..8], byte) + Zeros(24)
  {
  }

  // ---------- parity ----------

  /** An odd number of ones. */
  predicate OddOnes(s: seq<bool>)
  {
    s != [] && (s[0] != OddOnes(s[1..]))
  }

  lemma {:induction false} OddOnesAppend(x: seq<bool>, y: seq<bool>)
    ensures OddOnes(x + y) == (OddOnes(x) != OddOnes(y))
  {
    if x == [] {
      assert x + y == y;
    } else {
      assert (x + y)[1..] == x[1..] + y;
      OddOnesAppend(x[1..], y);
    }
  }

  lemma {:induction false} OddOnesXor(s: seq<bool>, g: seq<bool>)
    requires |g| <= |s|
    ensures OddOnes(XorHead(s, g)) == (OddOnes(s) != OddOnes(g))
  {
    if g == [] {
      assert XorHead(s, g) == s;
    } else {
      assert XorHead(s, g)[1..] == XorHead(s[1..], g[1..]);
      OddOnesXor(s[1..], g[1..]);
    }
  }

  lemma {:induction false} OddOnesCons(b: bool, s: seq<bool>)
    ensures OddOnes([b] + s) == (b != OddOnes(s))
  {
    assert ([b] + s)[1..] == s;
  }

  lemma OddOnesFour(a: bool, b: bool, c: bool, d: bool)
    ensures OddOnes([a, b, c, d]) == ((a != b) != (c != d))
  {
    assert [a, b, c, d] == [a] + ([b] + ([c] + ([d] + [])));
    OddOnesCons(d, []);
    OddOnesCons(c, [d] + []);
    OddOnesCons(b, [c] + ([d] + []));
    OddOnesCons(a, [b] + ([c] + ([d] + [])));
  }

  lemma OddOnesByte(x: seq<bool>, y: seq<bool>, s: seq<bool>)
    requires s == x + y && |x| == |y| == 4
    ensures OddOnes(s) == (((x[0] != x[1]) != (x[2] != x[3])) != ((y[0] != y[1]) != (y[2] != y[3])))
  {
    assert x == [x[0], x[1], x[2], x[3]] && y == [y[0], y[1], y[2], y[3]];
    OddOnesFour(x[0], x[1], x[2], x[3]);
    OddOnesFour(y[0], y[1], y[2], y[3]);
    OddOnesAppend(x, y);
  }

  /** With its x^32 term the generator has an even number of terms. */
  lemma GeneratorOdd()
    ensures OddOnes(GENERATOR)
  {
    OddOnesByte(GEN_1E[..4], GEN_1E[4..], GEN_1E);
    OddOnesByte(GEN_DC[..4], GEN_DC[4..], GEN_DC);
    OddOnesByte(GEN_6F[..4], GEN_6F[4..], GEN_6F);
    OddOnesByte(GEN_41[..4], GEN_41[4..], GEN_41);
    OddOnesAppend(GEN_6F, GEN_41);
    OddOnesAppend(GEN_DC, GEN_6F + GEN_41);
    OddOnesAppend(GEN_1E, GEN_DC + (GEN_6F + GEN_41));
  }

  lemma StepParity(r: seq<bool>, b: bool)
    requires |r| == 32
    ensures OddOnes(Step(r, b)) == (OddOnes(r) != b)
  {
    var shifted := r[1..] + [false];
    OddOnesAppend(r[1..], [false]);
    assert !OddOnes([false]);
    GeneratorOdd();
    OddOnesXor(shifted, GENERATOR);
  }

  /** The register keeps the parity of all bits it has taken in. */
  lemma {:induction false} RunParity(r: seq<bool>, bits: seq<bool>)
    requires |r| == 32
    ensures OddOnes(Run(r, bits)) == (OddOnes(r) != OddOnes(bits))
    decreases bits
  {
    if bits != [] {
      StepParity(r, bits[0]);
      RunParity(Step(r, bits[0]), bits[1..]);
    }
  }
}
