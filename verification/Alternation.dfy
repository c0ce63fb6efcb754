/**
An alternating deal seen slot by slot. Slots hold values; those of the set odd flip the side, and
the group of a value counts once, for the side of its last slot. Blocks of slots with few odd
values have few possible sums, whatever their order.
*/
module Alternation {
  function Sgn(f: nat): int
  {
    if f % 2 == 0 then 1 else -1
  }

  /** Slots that flip the side. */
  function Odds(odd: set<real>, s: seq<real>): nat
  {
    if s == [] then 0 else (if s[0] in odd then 1 else 0) + Odds(odd, s[1..])
  }

  /** The sum of the sides of all last slots, after f flips. */
  function Sum(odd: set<real>, s: seq<real>, f: nat): int
  {
    if s == [] then 0
    else if s[0] !in odd then Sum(odd, s[1..], f)
    else (if s[0] in s[1..] then 0 else Sgn(f)) + Sum(odd, s[1..], f + 1)
  }

  lemma HeadOrTail(s: seq<real>)
    requires s != []
    ensures forall v :: v in s <==> v == s[0] || v in s[1..]
  {
    assert s == [s[0]] + s[1..];
  }

  lemma {:induction false} SumParity(odd: set<real>, s: seq<real>, f: nat, g: nat)
    requires f % 2 == g % 2
    ensures Sum(odd, s, f) == Sum(odd, s, g)
  {
    if s != [] {
      SumParity(odd, s[1..], f, g);
      SumParity(odd, s[1..], f + 1, g + 1);
    }
  }

  lemma {:induction false} OddsAppend(odd: set<real>, x: seq<real>, y: seq<real>)
    ensures Odds(odd, x + y) == Odds(odd, x) + Odds(odd, y)
  {
    if x == [] {
      assert x + y == y;
    } else {
      assert (x + y)[1..] == x[1..] + y;
      OddsAppend(odd, x[1..], y);
    }
  }

  /** No odd value is in both. */
  ghost predicate Apart(odd: set<real>, x: seq<real>, y: seq<real>)
  {
    forall v :: v in odd && v in x ==> v !in y
  }

  lemma ApartAt(odd: set<real>, x: seq<real>, y: seq<real>, v: real)
    requires Apart(odd, x, y) && v in odd && v in x
    ensures v !in y
  {
  }

  lemma {:induction false} SumAppend(odd: set<real>, x: seq<real>, y: seq<real>, f: nat)
    requires Apart(odd, x, y)
    ensures Sum(odd, x + y, f) == Sum(odd, x, f) + Sum(odd, y, f + Odds(odd, x))
  {
    if x == [] {
      assert x + y == y;
    } else {
      assert (x + y)[1..] == x[1..] + y;
      HeadOrTail(x);
      if x[0] in odd {
        ApartAt(odd, x, y, x[0]);
      }
      SumAppend(odd, x[1..], y, if x[0] in odd then f + 1 else f);
    }
  }

  /** The same slots after x: what counts is which values are still to come. */
  lemma {:induction false} SumPrefix(odd: set<real>, x: seq<real>, y: seq<real>, z: seq<real>, f: nat, k: int)
    requires forall v :: v in y <==> v in z
    requires Sum(odd, y, f + Odds(odd, x)) == Sum(odd, z, f + Odds(odd, x)) + k
    ensures Sum(odd, x + y, f) == Sum(odd, x + z, f) + k
  {
    if x == [] {
      assert x + y == y && x + z == z;
    } else {
      assert (x + y)[1..] == x[1..] + y && (x + z)[1..] == x[1..] + z;
      SumPrefix(odd, x[1..], y, z, if x[0] in odd then f + 1 else f, k);
    }
  }

  // ---------- how many slots flip ----------

  function Times(s: seq<real>, v: real): nat
  {
    if s == [] then 0 else (if s[0] == v then 1 else 0) + Times(s[1..], v)
  }

  lemma {:induction false} OddsSplit(odd: set<real>, v: real, s: seq<real>)
    requires v in odd
    ensures Odds(odd, s) == Odds(odd - {v}, s) + Times(s, v)
  {
    if s != [] {
      OddsSplit(odd, v, s[1..]);
    }
  }

  lemma {:induction false} OddsOfNone(s: seq<real>)
    ensures Odds({}, s) == 0
  {
    if s != [] {
      OddsOfNone(s[1..]);
    }
  }

  lemma Pick<A>(s: set<A>) returns (v: A)
    requires |s| > 0
    ensures v in s
  {
    v :| v in s;
  }

  /** Values that each have an odd number of slots flip as often as there are values, up to an
      even number. */
  lemma {:induction false} OddsParity(odd: set<real>, s: seq<real>)
    requires forall v <- odd :: Times(s, v) % 2 == 1
    ensures Odds(odd, s) % 2 == |odd| % 2
    decreases |odd|
  {
    if |odd| == 0 {
      OddsOfNone(s);
    } else {
      var v := Pick(odd);
      OddsSplit(odd, v, s);
      OddsParity(odd - {v}, s);
    }
  }

  lemma {:induction false} OddsSame(odd: set<real>, odd': set<real>, s: seq<real>)
    requires forall v <- s :: v in odd <==> v in odd'
    ensures Odds(odd, s) == Odds(odd', s)
  {
    if s != [] {
      HeadOrTail(s);
      OddsSame(odd, odd', s[1..]);
    }
  }

  lemma {:induction false} TimesIn(s: seq<real>, v: real)
    ensures Times(s, v) > 0 <==> v in s
  {
    if s != [] {
      TimesIn(s[1..], v);
    }
  }

  // ---------- blocks with few odd values ----------

  /** The sum of k slots that each count. */
  function Alternating(k: nat, f: nat): int
  {
    if k % 2 == 0 then 0 else Sgn(f)
  }

  /** No odd value has two slots. */
  ghost predicate Singles(odd: set<real>, s: seq<real>)
  {
    forall v <- odd :: Times(s, v) <= 1
  }

  lemma {:induction false} SinglesSum(odd: set<real>, s: seq<real>, f: nat)
    requires Singles(odd, s)
    ensures Sum(odd, s, f) == Alternating(Odds(odd, s), f)
  {
    if s != [] {
      TimesIn(s[1..], s[0]);
      SinglesSum(odd, s[1..], if s[0] in odd then f + 1 else f);
    }
  }

  lemma SumFirst(odd: set<real>, s: seq<real>, f: nat)
    requires s != []
    ensures Odds(odd, s) == (if s[0] in odd then 1 else 0) + Odds(odd, s[1..])
    ensures s[0] !in odd ==> Sum(odd, s, f) == Sum(odd, s[1..], f)
    ensures s[0] in odd ==> Sum(odd, s, f) == (if s[0] in s[1..] then 0 else Sgn(f)) + Sum(odd, s[1..], f + 1)
  {
  }

  /** The sum of one group with k slots. */
  function Lone(k: nat, f: nat): int
  {
    if k == 0 then 0 else Sgn(f + k - 1)
  }

  /** One odd value only. */
  lemma {:induction false} OneSum(odd: set<real>, s: seq<real>, u: real, f: nat)
    requires forall v <- s :: v in odd ==> v == u
    ensures Sum(odd, s, f) == Lone(Odds(odd, s), f)
    ensures Odds(odd, s) > 0 <==> u in odd && u in s
  {
    if s != [] {
      HeadOrTail(s);
      SumFirst(odd, s, f);
      OneSum(odd, s[1..], u, if s[0] in odd then f + 1 else f);
      if s[0] in odd {
        assert s[0] == u;
      }
    }
  }

  predicate Near(x: int, y: int)
  {
    x == y - 1 || x == y + 1
  }

  /** Two odd values: one of them has the last slot, the other counts either way. */
  lemma {:induction false} TwoSum(odd: set<real>, s: seq<real>, u: real, v: real, f: nat)
    requires u != v && u in odd && v in odd && u in s && v in s
    requires forall x <- s :: x in odd ==> x == u || x == v
    ensures Odds(odd, s) > 0 && Near(Sum(odd, s, f), Sgn(f + Odds(odd, s) - 1))
  {
    HeadOrTail(s);
    var x, rest := s[0], s[1..];
    if x !in odd {
      TwoSum(odd, rest, u, v, f);
    } else if x in rest {
      TwoSum(odd, rest, u, v, f + 1);
    } else {
      OneSum(odd, rest, if x == u then v else u, f + 1);
    }
  }

  /** Every odd value but z has one slot, and z has two. */
  lemma {:induction false} PairSum(odd: set<real>, s: seq<real>, z: real, f: nat)
    requires z in odd && Times(s, z) == 2 && forall v <- odd :: v != z ==> Times(s, v) <= 1
    ensures Near(Sum(odd, s, f), Alternating(Odds(odd, s), f))
  {
    var x, rest := s[0], s[1..];
    TimesIn(rest, x);
    if x == z {
      SinglesSum(odd, rest, f + 1);
    } else {
      PairSum(odd, rest, z, if x in odd then f + 1 else f);
    }
  }

  // ---------- orders with different sums ----------

  lemma SumTwo(odd: set<real>, a: real, b: real, y: seq<real>, f: nat)
    requires a in odd && b in odd
    ensures Odds(odd, [a, b]) == 2
    ensures Sum(odd, [a, b] + y, f) ==
            (if a == b || a in y then 0 else Sgn(f)) + (if b in y then 0 else Sgn(f + 1)) + Sum(odd, y, f + 2)
  {
    assert ([a, b] + y)[1..] == [b] + y && ([b] + y)[1..] == y;
    SumFirst(odd, [a, b] + y, f);
    SumFirst(odd, [b] + y, f + 1);
    assert [a, b][1..] == [b] && [b][1..] == [];
    SumFirst(odd, [a, b], f);
    SumFirst(odd, [b], f);
  }

  lemma SwapTail(odd: set<real>, u: real, v: real, y: seq<real>, g: nat)
    requires u in odd && v in odd && u != v && u !in y && v in y
    ensures Sum(odd, [u, v] + y, g) == Sum(odd, [v, u] + y, g) + 2 * Sgn(g)
  {
    SumTwo(odd, u, v, y, g);
    SumTwo(odd, v, u, y, g);
  }

  /** The last slot of u trades places with a slot of v that is not its last. */
  lemma SwapSum(odd: set<real>, x: seq<real>, u: real, v: real, y: seq<real>, f: nat)
    requires u in odd && v in odd && u != v && u !in y && v in y
    ensures Sum(odd, x + ([u, v] + y), f) == Sum(odd, x + ([v, u] + y), f) + 2 * Sgn(f + Odds(odd, x))
  {
    var g := f + Odds(odd, x);
    SwapTail(odd, u, v, y, g);
    SumPrefix(odd, x, [u, v] + y, [v, u] + y, f, 2 * Sgn(g));
  }
}
