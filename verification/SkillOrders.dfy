/**
Orders that std::sort may leave when an integer part is loose, and how far apart their leads are;
with them the exact condition under which the skill draft is fair.
*/
module SkillOrders {
  import opened SkillTeams
  import opened SkillLaws
  import opened SkillTies
  import opened Alternation
  import opened SkillBalance

  // ---------- trading places ----------

  /** The last slot of one odd group next to a slot of another that is not its last. */
  ghost predicate Spot(odd: set<real>, s: seq<real>, i: nat)
  {
    && i + 1 < |s| && s[i] in odd && s[i + 1] in odd && s[i] != s[i + 1] && Whole(s[i]) == Whole(s[i + 1])
    && s[i] !in s[i + 2..] && s[i + 1] in s[i + 2..]
  }

  function Traded(s: seq<real>, i: nat): (r: seq<real>)
    requires i + 1 < |s|
    ensures |r| == |s|
  {
    s[..i] + ([s[i + 1], s[i]] + s[i + 2..])
  }

  lemma TradeSum(odd: set<real>, s: seq<real>, i: nat)
    requires Spot(odd, s, i)
    ensures Sum(odd, s, 0) == Sum(odd, Traded(s, i), 0) + 2 * Sgn(Odds(odd, s[..i]))
  {
    assert s == s[..i] + ([s[i], s[i + 1]] + s[i + 2..]);
    SwapSum(odd, s[..i], s[i], s[i + 1], s[i + 2..], 0);
  }

  lemma TradeSorted(all: seq<real>, s: seq<real>, i: nat)
    requires SortOutput(all, s) && i + 1 < |s| && Whole(s[i]) == Whole(s[i + 1])
    ensures SortOutput(all, Traded(s, i))
  {
    var r := Traded(s, i);
    assert s == s[..i] + ([s[i], s[i + 1]] + s[i + 2..]);
    assert forall k :: 0 <= k < |s| ==> Whole(r[k]) == Whole(s[k]);
  }

  // ---------- building orders ----------

  function Rep(v: real, n: nat): (s: seq<real>)
    ensures |s| == n && forall k :: 0 <= k < n ==> s[k] == v
  {
    seq(n, _ => v)
  }

  lemma {:induction false} RepMultiset(v: real, n: nat)
    ensures multiset(Rep(v, n)) == multiset{}[v := n]
  {
    if n > 0 {
      RepMultiset(v, n - 1);
      assert Rep(v, n) == Rep(v, n - 1) + [v];
    }
  }

  lemma PickOf<A>(m: multiset<A>) returns (x: A)
    requires |m| > 0
    ensures x in m
  {
    x :| x in m;
  }

  lemma {:induction false} SeqOf(m: multiset<real>) returns (s: seq<real>)
    ensures multiset(s) == m
    decreases |m|
  {
    if |m| == 0 {
      s := [];
    } else {
      var x := PickOf(m);
      s := SeqOf(m - multiset{x});
      s := s + [x];
    }
  }

  /** Some order in which the given slots stand together. */
  lemma PlaceBlock(all: seq<real>, block: seq<real>, t: int) returns (front: seq<real>, back: seq<real>)
    requires multiset(block) <= multiset(all) && forall i :: 0 <= i < |block| ==> Whole(block[i]) == t
    ensures SortOutput(all, front + block + back)
    ensures multiset(front) + multiset(back) == multiset(all) - multiset(block)
  {
    var rest := SeqOf(multiset(all) - multiset(block));
    var some := SortExists(rest);
    var r, pos := InsertBlock(rest, some, block, t);
    front, back := some[..pos], some[pos..];
    assert some == front + back;
    assert multiset(rest + block) == multiset(all);
  }

  /** Two groups of one integer part: all slots of the first, then all of the second. */
  function Pair(skills: seq<real>, u: real, v: real): seq<real>
    requires |skills| <= SLOTS
  {
    Rep(u, Slots(skills, u)) + Rep(v, Slots(skills, v))
  }

  lemma PaddedCounts(skills: seq<real>, v: real)
    requires |skills| <= SLOTS
    ensures multiset(Padded(skills))[v] == Slots(skills, v)
  {
    SortedCount(skills, Padded(skills), v);
    CountMultiset(Padded(skills), v);
  }

  lemma PairMultiset(skills: seq<real>, u: real, v: real)
    requires |skills| <= SLOTS && u != v
    ensures multiset(Pair(skills, u, v)) == multiset{}[u := Slots(skills, u)][v := Slots(skills, v)]
    ensures multiset(Pair(skills, u, v)) <= multiset(Padded(skills))
    ensures var rest := multiset(Padded(skills)) - multiset(Pair(skills, u, v)); u !in rest && v !in rest
  {
    RepMultiset(u, Slots(skills, u));
    RepMultiset(v, Slots(skills, v));
    PaddedCounts(skills, u);
    PaddedCounts(skills, v);
  }

  /** A loose integer part has two odd groups, the second with several slots. */
  ghost predicate Loosens(skills: seq<real>, t: int, u: real, v: real)
    requires |skills| <= SLOTS
  {
    && u in OddAt(skills, t) && v in OddAt(skills, t) && u != v
    && Slots(skills, u) >= 1 && Slots(skills, v) >= 2
  }

  lemma LoosePair(skills: seq<real>, t: int) returns (u: real, v: real)
    requires |skills| <= SLOTS && Loose(skills, t)
    ensures Loosens(skills, t, u, v)
  {
    v :| v in OddAt(skills, t) && Slots(skills, v) >= 2;
    u := Pick(OddAt(skills, t) - {v});
    assert Count(skills, u) > 0;
  }

  /** Where such a pair trades places. */
  lemma PairSpot(skills: seq<real>, t: int, front: seq<real>, u: real, v: real, back: seq<real>)
    requires |skills| <= SLOTS && Loosens(skills, t, u, v) && u !in back
    ensures Spot(OddGroups(skills), front + Pair(skills, u, v) + back, |front| + Slots(skills, u) - 1)
  {
    var s, i := front + Pair(skills, u, v) + back, |front| + Slots(skills, u) - 1;
    assert s[i] == u && s[i + 1] == v;
    assert s[i + 2..] == Rep(v, Slots(skills, v) - 1) + back;
    if Slots(skills, v) >= 2 {
      assert Rep(v, Slots(skills, v) - 1)[0] == v;
    }
  }

  /** Some order with a spot in a loose integer part. */
  lemma LooseSpot(skills: seq<real>, t: int) returns (sorted: seq<real>, i: nat)
    requires |skills| <= SLOTS && Loose(skills, t)
    ensures SortOutput(Padded(skills), sorted) && Spot(OddGroups(skills), sorted, i)
  {
    var u, v := LoosePair(skills, t);
    PairMultiset(skills, u, v);
    var front, back := PlaceBlock(Padded(skills), Pair(skills, u, v), t);
    sorted, i := front + Pair(skills, u, v) + back, |front| + Slots(skills, u) - 1;
    NotIn(front, back, u, multiset(Padded(skills)) - multiset(Pair(skills, u, v)));
    PairSpot(skills, t, front, u, v, back);
  }

  lemma NotIn(x: seq<real>, y: seq<real>, v: real, m: multiset<real>)
    requires multiset(x) + multiset(y) == m && v !in m
    ensures v !in x && v !in y
  {
    assert v !in multiset(x) && v !in multiset(y);
  }

  // ---------- two loose integer parts ----------

  /** Two pairs among other slots, each with its spot. */
  lemma TwoPairSpots(skills: seq<real>, t: int, t': int, front: seq<real>, u: real, v: real, mid: seq<real>,
                     x: real, y: real, back: seq<real>)
    requires |skills| <= SLOTS && Loosens(skills, t, u, v) && Loosens(skills, t', x, y) && t > t'
    requires u !in mid && u !in back && x !in back
    ensures var s := front + Pair(skills, u, v) + mid + Pair(skills, x, y) + back;
            var i, j := |front| + Slots(skills, u) - 1, |front + Pair(skills, u, v) + mid| + Slots(skills, x) - 1;
            i + 1 < j && Spot(OddGroups(skills), s, i) && Spot(OddGroups(skills), s, j)
  {
    var p, q := Pair(skills, u, v), Pair(skills, x, y);
    NotInPair(skills, x, y, u);
    assert front + p + mid + q + back == front + p + (mid + q + back);
    assert u !in mid + q + back;
    PairSpot(skills, t, front, u, v, mid + q + back);
    PairSpot(skills, t', front + p + mid, x, y, back);
  }

  /** Some order of all slots in which two pairs stand together. */
  lemma PlacePairs(skills: seq<real>, t: int, t': int, u: real, v: real, x: real, y: real)
    returns (front: seq<real>, mid: seq<real>, back: seq<real>)
    requires |skills| <= SLOTS && Loosens(skills, t, u, v) && Loosens(skills, t', x, y) && t > t'
    ensures SortOutput(Padded(skills), front + Pair(skills, u, v) + mid + Pair(skills, x, y) + back)
    ensures u !in mid && u !in back && x !in back
  {
    var p, q := Pair(skills, u, v), Pair(skills, x, y);
    var rest := RestOfTwo(skills, u, v, x, y);
    front, mid, back := PlaceTwo(rest, p, q, t, t');
    Resort(Padded(skills), rest + p + q, front + p + mid + q + back);
    NotInThree(front, mid, back, u, rest);
    NotInThree(front, mid, back, x, rest);
  }

  /** Some order with a spot in each of two loose integer parts. */
  lemma TwoSpots(skills: seq<real>, t: int, t': int) returns (sorted: seq<real>, i: nat, j: nat)
    requires |skills| <= SLOTS && Loose(skills, t) && Loose(skills, t') && t > t'
    ensures SortOutput(Padded(skills), sorted) && i + 1 < j
    ensures Spot(OddGroups(skills), sorted, i) && Spot(OddGroups(skills), sorted, j)
  {
    var u, v := LoosePair(skills, t);
    var x, y := LoosePair(skills, t');
    var front, mid, back := PlacePairs(skills, t, t', u, v, x, y);
    TwoPairSpots(skills, t, t', front, u, v, mid, x, y, back);
    sorted := front + Pair(skills, u, v) + mid + Pair(skills, x, y) + back;
    i, j := |front| + Slots(skills, u) - 1, |front + Pair(skills, u, v) + mid| + Slots(skills, x) - 1;
  }

  lemma Resort(all: seq<real>, all': seq<real>, s: seq<real>)
    requires SortOutput(all', s) && multiset(all') == multiset(all)
    ensures SortOutput(all, s)
  {
  }

  lemma NotInPair(skills: seq<real>, x: real, y: real, u: real)
    requires |skills| <= SLOTS && u != x && u != y
    ensures u !in Pair(skills, x, y)
  {
  }

  lemma NotInThree(x: seq<real>, y: seq<real>, z: seq<real>, v: real, rest: seq<real>)
    requires multiset(x + y + z) == multiset(rest) && v !in rest
    ensures v !in x && v !in y && v !in z
  {
    assert v !in multiset(x + y + z);
    assert v !in x + y + z;
  }

  /** All slots but those of two pairs. */
  lemma RestOfTwo(skills: seq<real>, u: real, v: real, x: real, y: real) returns (rest: seq<real>)
    requires |skills| <= SLOTS && u != v && x != y && u != x && u != y && v != x && v != y
    ensures multiset(rest + Pair(skills, u, v) + Pair(skills, x, y)) == multiset(Padded(skills))
    ensures u !in rest && x !in rest
  {
    var m, p, q := multiset(Padded(skills)), multiset(Pair(skills, u, v)), multiset(Pair(skills, x, y));
    PairMultiset(skills, u, v);
    PairMultiset(skills, x, y);
    PaddedCounts(skills, u);
    PaddedCounts(skills, v);
    PaddedCounts(skills, x);
    PaddedCounts(skills, y);
    FourWithin(m, p, q, u, v, x, y);
    rest := SeqOf(m - p - q);
    assert u !in multiset(rest) && x !in multiset(rest);
  }

  lemma TwoWithin(m: multiset<real>, p: multiset<real>, u: real, v: real)
    requires u != v && p == multiset{}[u := m[u]][v := m[v]]
    ensures (m - p) + p == m && (m - p)[u] == 0 && forall z :: z != u && z != v ==> (m - p)[z] == m[z]
  {
  }

  lemma FourWithin(m: multiset<real>, p: multiset<real>, q: multiset<real>, u: real, v: real, x: real, y: real)
    requires u != v && x != y && u != x && u != y && v != x && v != y
    requires p == multiset{}[u := m[u]][v := m[v]] && q == multiset{}[x := m[x]][y := m[y]]
    ensures (m - p - q) + p + q == m && u !in m - p - q && x !in m - p - q
  {
    TwoWithin(m, p, u, v);
    TwoWithin(m - p, q, x, y);
    BackTogether(m, p, q);
  }

  lemma BackTogether(m: multiset<real>, p: multiset<real>, q: multiset<real>)
    requires (m - p) + p == m && ((m - p) - q) + q == m - p
    ensures (m - p - q) + p + q == m
  {
    assert (m - p - q) + p + q == ((m - p - q) + q) + p;
  }

  /** Two blocks placed among the rest, the one with the larger integer part first. */
  lemma PlaceTwo(rest: seq<real>, p: seq<real>, q: seq<real>, t: int, t': int)
    returns (front: seq<real>, mid: seq<real>, back: seq<real>)
    requires t > t'
    requires forall i :: 0 <= i < |p| ==> Whole(p[i]) == t
    requires forall i :: 0 <= i < |q| ==> Whole(q[i]) == t'
    ensures SortOutput(rest + p + q, front + p + mid + q + back)
    ensures multiset(front + mid + back) == multiset(rest)
  {
    var some := SortExists(rest);
    var r, at := InsertBlock(rest, some, p, t);
    var s, at' := InsertBlock(rest + p, r, q, t');
    front, mid, back := ThreePieces(some, p, q, r, s, at, at', t, t');
  }

  lemma ThreePieces(some: seq<real>, p: seq<real>, q: seq<real>, r: seq<real>, s: seq<real>,
                    at: nat, at': nat, t: int, t': int)
    returns (front: seq<real>, mid: seq<real>, back: seq<real>)
    requires at <= |some| && r == some[..at] + p + some[at..] && t > t'
    requires at' <= |r| && s == r[..at'] + q + r[at'..]
    requires forall i :: 0 <= i < |some| ==> (i < at <==> Whole(some[i]) > t)
    requires forall i :: 0 <= i < |p| ==> Whole(p[i]) == t
    requires forall i :: 0 <= i < |r| ==> (i < at' <==> Whole(r[i]) > t')
    ensures s == front + p + mid + q + back && some == front + mid + back
  {
    AfterBlock(some, p, r, at, at', t, t');
    front, mid, back := some[..at], r[at + |p|..at'], r[at'..];
    assert r[at + |p|..] == mid + back;
  }

  /** The second gap comes after the first block. */
  lemma AfterBlock(some: seq<real>, p: seq<real>, r: seq<real>, at: nat, at': nat, t: int, t': int)
    requires at <= |some| && r == some[..at] + p + some[at..] && at' <= |r| && t > t'
    requires forall i :: 0 <= i < |some| ==> (i < at <==> Whole(some[i]) > t)
    requires forall i :: 0 <= i < |p| ==> Whole(p[i]) == t
    requires forall i :: 0 <= i < |r| ==> (i < at' <==> Whole(r[i]) > t')
    ensures at + |p| <= at' && r[..at'] == some[..at] + p + r[at + |p|..at'] && some[at..] == r[at + |p|..]
  {
    if p != [] {
      assert r[at + |p| - 1] == p[|p| - 1];
    } else if at > 0 {
      assert r[at - 1] == some[at - 1];
    }
  }

  /** Two totals that differ by four. */
  ghost predicate FourApart(skills: seq<real>, s: seq<real>, s': seq<real>)
    requires |skills| <= SLOTS
  {
    && SortOutput(Padded(skills), s) && SortOutput(Padded(skills), s')
    && Total(skills, s) == Total(skills, s') + 4
  }

  /** A trade does not touch a spot behind it. */
  lemma SpotStays(odd: set<real>, s: seq<real>, i: nat, j: nat)
    requires Spot(odd, s, i) && Spot(odd, s, j) && i + 1 < j
    ensures Spot(odd, Traded(s, i), j) && Odds(odd, Traded(s, i)[..j]) == Odds(odd, s[..j])
  {
    var r := Traded(s, i);
    assert r[j] == s[j] && r[j + 1] == s[j + 1] && r[j + 2..] == s[j + 2..];
    var x, y := s[..i], s[i + 2..j];
    assert s[..j] == x + ([s[i], s[i + 1]] + y) && r[..j] == x + ([s[i + 1], s[i]] + y);
    OddsAppend(odd, x, [s[i], s[i + 1]] + y);
    OddsAppend(odd, x, [s[i + 1], s[i]] + y);
    OddsAppend(odd, [s[i], s[i + 1]], y);
    OddsAppend(odd, [s[i + 1], s[i]], y);
  }

  lemma TwoLooseApart(skills: seq<real>, t: int, t': int) returns (s: seq<real>, s': seq<real>)
    requires |skills| <= SLOTS && Loose(skills, t) && Loose(skills, t') && t > t'
    ensures FourApart(skills, s, s')
  {
    var odd := OddGroups(skills);
    var r, i, j := TwoSpots(skills, t, t');
    SpotStays(odd, r, i, j);
    var ri, rj, rij := Traded(r, i), Traded(r, j), Traded(Traded(r, i), j);
    TradeSum(odd, r, i);
    TradeSum(odd, r, j);
    TradeSum(odd, ri, j);
    TradeSorted(Padded(skills), r, i);
    TradeSorted(Padded(skills), r, j);
    TradeSorted(Padded(skills), ri, j);
    var a, b := Sgn(Odds(odd, r[..i])), Sgn(Odds(odd, r[..j]));
    if a == b {
      s, s' := if a == 1 then r else rij, if a == 1 then rij else r;
    } else {
      s, s' := if a == 1 then rj else ri, if a == 1 then ri else rj;
    }
  }

  // ---------- three odd groups, one of them with three slots ----------

  /** All slots of three groups, with the last ones of the first two next to the third. */
  function Triple(skills: seq<real>, u: real, w: real, v: real): seq<real>
    requires |skills| <= SLOTS && Slots(skills, u) > 0 && Slots(skills, w) > 0 && Slots(skills, v) > 0
  {
    Rep(u, Slots(skills, u) - 1) + Rep(w, Slots(skills, w) - 1) + ([u, v, w] + Rep(v, Slots(skills, v) - 1))
  }

  ghost predicate Triples(skills: seq<real>, t: int, u: real, w: real, v: real)
    requires |skills| <= SLOTS
  {
    && u in OddAt(skills, t) && w in OddAt(skills, t) && v in OddAt(skills, t) && u != v && u != w && v != w
    && Slots(skills, u) > 0 && Slots(skills, w) > 0 && Slots(skills, v) >= 3
  }

  lemma TripleCounts(u: real, w: real, v: real, a: nat, b: nat, c: nat)
    requires u != w && u != v && w != v
    ensures multiset(Rep(u, a) + Rep(w, b) + ([u, v, w] + Rep(v, c))) == multiset{}[u := a + 1][w := b + 1][v := c + 1]
  {
    RepMultiset(u, a);
    RepMultiset(w, b);
    RepMultiset(v, c);
  }

  lemma TripleIs(skills: seq<real>, u: real, w: real, v: real)
    requires |skills| <= SLOTS && Slots(skills, u) > 0 && Slots(skills, w) > 0 && Slots(skills, v) > 0
    requires u != w && u != v && w != v
    ensures multiset(Triple(skills, u, w, v)) ==
            multiset{}[u := Slots(skills, u)][w := Slots(skills, w)][v := Slots(skills, v)]
  {
    TripleCounts(u, w, v, Slots(skills, u) - 1, Slots(skills, w) - 1, Slots(skills, v) - 1);
  }

  lemma TripleMultiset(skills: seq<real>, t: int, u: real, w: real, v: real)
    requires |skills| <= SLOTS && Triples(skills, t, u, w, v)
    ensures var m, p := multiset(Padded(skills)), multiset(Triple(skills, u, w, v));
            p <= m && u !in m - p && w !in m - p
  {
    TripleIs(skills, u, w, v);
    PaddedCounts(skills, u);
    PaddedCounts(skills, w);
    PaddedCounts(skills, v);
    ThreeWithin(multiset(Padded(skills)), multiset(Triple(skills, u, w, v)), u, w, v);
  }

  lemma ThreeWithin(m: multiset<real>, p: multiset<real>, u: real, w: real, v: real)
    requires u != v && u != w && w != v && p == multiset{}[u := m[u]][w := m[w]][v := m[v]]
    ensures p <= m && u !in m - p && w !in m - p
  {
  }

  lemma TradeShapes(x: seq<real>, u: real, w: real, v: real, y: seq<real>)
    ensures x + ([u, v, w, v] + y) == x + ([u, v] + ([w, v] + y))
    ensures x + ([v, u] + ([w, v] + y)) == x + [v, u] + ([w, v] + y)
    ensures x + ([v, u, v, w] + y) == x + [v, u] + ([v, w] + y)
  {
    assert [u, v, w, v] == [u, v] + [w, v] && [v, u, v, w] == [v, u] + [v, w];
  }

  lemma TwoMore(odd: set<real>, x: seq<real>, v: real, u: real)
    requires v in odd && u in odd
    ensures Sgn(Odds(odd, x + [v, u])) == Sgn(Odds(odd, x))
  {
    OddsAppend(odd, x, [v, u]);
    SumTwo(odd, v, u, [], 0);
  }

  lemma TradeAt(odd: set<real>, s: seq<real>, s': seq<real>, x: seq<real>, u: real, v: real, y: seq<real>)
    requires u in odd && v in odd && u != v && u !in y && v in y
    requires s == x + ([u, v] + y) && s' == x + ([v, u] + y)
    ensures Sum(odd, s, 0) == Sum(odd, s', 0) + 2 * Sgn(Odds(odd, x))
  {
    SwapSum(odd, x, u, v, y, 0);
  }

  /** Two trades in a row, the first and the last slot of them two places apart. */
  lemma TwoTrades(skills: seq<real>, x: seq<real>, u: real, w: real, v: real, y: seq<real>)
    requires var odd := OddGroups(skills); u in odd && w in odd && v in odd
    requires u != v && u != w && v != w && u !in y && w !in y && v in y
    ensures Total(skills, x + ([u, v, w, v] + y)) ==
            Total(skills, x + ([v, u, v, w] + y)) + 4 * Sgn(Odds(OddGroups(skills), x))
  {
    var odd := OddGroups(skills);
    var s1 := x + [v, u] + ([w, v] + y);
    TradeShapes(x, u, w, v, y);
    TradeAt(odd, x + ([u, v, w, v] + y), s1, x, u, v, [w, v] + y);
    TradeAt(odd, s1, x + ([v, u, v, w] + y), x + [v, u], w, v, y);
    TwoMore(odd, x, v, u);
  }

  lemma TripleApart(skills: seq<real>, t: int, u: real, w: real, v: real) returns (s: seq<real>, s': seq<real>)
    requires |skills| <= SLOTS && Triples(skills, t, u, w, v)
    ensures FourApart(skills, s, s')
  {
    var block := Triple(skills, u, w, v);
    TripleMultiset(skills, t, u, w, v);
    var front, back := PlaceBlock(Padded(skills), block, t);
    NotIn(front, back, u, multiset(Padded(skills)) - multiset(block));
    NotIn(front, back, w, multiset(Padded(skills)) - multiset(block));
    TripleJoins(skills, front, u, w, v, back);
    var x := front + Rep(u, Slots(skills, u) - 1) + Rep(w, Slots(skills, w) - 1);
    var y := Rep(v, Slots(skills, v) - 2) + back;
    assert y[0] == v;
    s, s' := TradesApart(skills, x, u, w, v, y);
  }

  lemma TradesApart(skills: seq<real>, x: seq<real>, u: real, w: real, v: real, y: seq<real>)
    returns (s: seq<real>, s': seq<real>)
    requires |skills| <= SLOTS && Whole(u) == Whole(w) == Whole(v)
    requires var odd := OddGroups(skills); u in odd && w in odd && v in odd
    requires u != v && u != w && v != w && u !in y && w !in y && v in y
    requires SortOutput(Padded(skills), x + ([u, v, w, v] + y))
    ensures FourApart(skills, s, s')
  {
    var r, r' := x + ([u, v, w, v] + y), x + ([v, u, v, w] + y);
    TwoTrades(skills, x, u, w, v, y);
    FourInOrder(Padded(skills), x, [u, v, w, v], [v, u, v, w], y);
    if Sgn(Odds(OddGroups(skills), x)) == 1 {
      s, s' := r, r';
    } else {
      s, s' := r', r;
    }
  }

  lemma TripleJoins(skills: seq<real>, front: seq<real>, u: real, w: real, v: real, back: seq<real>)
    requires |skills| <= SLOTS && Slots(skills, u) > 0 && Slots(skills, w) > 0 && Slots(skills, v) >= 3
    ensures front + Triple(skills, u, w, v) + back ==
            front + Rep(u, Slots(skills, u) - 1) + Rep(w, Slots(skills, w) - 1)
            + ([u, v, w, v] + (Rep(v, Slots(skills, v) - 2) + back))
  {
    assert Rep(v, Slots(skills, v) - 1) == [v] + Rep(v, Slots(skills, v) - 2);
  }

  /** Slots of one integer part in another order. */
  lemma FourInOrder(all: seq<real>, x: seq<real>, b: seq<real>, b': seq<real>, y: seq<real>)
    requires SortOutput(all, x + (b + y)) && |b| == |b'| && multiset(b) == multiset(b')
    requires forall i, j :: 0 <= i < |b| && 0 <= j < |b| ==> Whole(b[i]) == Whole(b'[j])
    ensures SortOutput(all, x + (b' + y))
  {
    var s, r := x + (b + y), x + (b' + y);
    forall k | 0 <= k < |s|
      ensures Whole(r[k]) == Whole(s[k])
    {
      if |x| <= k < |x| + |b| {
        assert s[k] == b[k - |x|] && r[k] == b'[k - |x|];
      }
    }
  }

  // ---------- unfair drafts ----------

  /** An order that std::sort may leave and that gives one team two players more. */
  ghost predicate Unbalanced(skills: seq<real>, s: seq<real>)
    requires |skills| <= SLOTS
  {
    SortOutput(Padded(skills), s) && !(-1 <= Total(skills, s) <= 1)
  }

  /** Two orders whose leads differ by two. */
  lemma LooseApart(skills: seq<real>, t: int) returns (s: seq<real>, s': seq<real>)
    requires |skills| <= SLOTS && Loose(skills, t)
    ensures SortOutput(Padded(skills), s) && SortOutput(Padded(skills), s')
    ensures Total(skills, s) == Total(skills, s') + 2 || Total(skills, s) == Total(skills, s') - 2
  {
    var i;
    s, i := LooseSpot(skills, t);
    s' := Traded(s, i);
    TradeSum(OddGroups(skills), s, i);
    TradeSorted(Padded(skills), s, i);
  }

  lemma EvenUnbalanced(skills: seq<real>, t: int) returns (s: seq<real>)
    requires |skills| <= SLOTS && Loose(skills, t) && |skills| % 2 == 0
    ensures Unbalanced(skills, s)
  {
    var r, r' := LooseApart(skills, t);
    SortDealt(skills, r);
    SortDealt(skills, r');
    TotalParity(skills, r);
    TotalParity(skills, r');
    s := if Total(skills, r) == 0 then r' else r;
  }

  lemma ApartUnbalanced(skills: seq<real>, r: seq<real>, r': seq<real>) returns (s: seq<real>)
    requires |skills| <= SLOTS && FourApart(skills, r, r')
    ensures Unbalanced(skills, s)
  {
    s := if Total(skills, r) > 1 then r else r';
  }

  lemma PairUnbalanced(skills: seq<real>, t: int) returns (s: seq<real>)
    requires |skills| <= SLOTS && Loose(skills, t) && OnlyLoose(skills, t)
    requires |OddAt(skills, t)| == 2 && !Settles(skills, t) && |skills| % 2 == 1
    ensures Unbalanced(skills, s)
  {
    var r, r' := LooseApart(skills, t);
    SortDealt(skills, r);
    SortDealt(skills, r');
    TwoTotal(skills, r, t);
    TwoTotal(skills, r', t);
    s := if -1 <= Total(skills, r) <= 1 then r' else r;
  }

  /** Three odd groups that are loose and do not settle: one of them has three slots. */
  lemma BigGroup(skills: seq<real>, t: int) returns (v: real)
    requires |skills| <= SLOTS && Loose(skills, t) && !OnePadding(skills, t) && |skills| % 2 == 1
    ensures v in OddAt(skills, t) && Slots(skills, v) >= 3
  {
    v :| v in OddAt(skills, t) && Slots(skills, v) >= 2;
    if Slots(skills, v) == 2 {
      OddSlots(skills, v);
      assert t == 0 && |skills| == SLOTS - 1 && Count(skills, 0.0) == 1;
      v :| v in OddAt(skills, t) && Count(skills, v) != 1;
    }
  }

  lemma ManyUnbalanced(skills: seq<real>, t: int) returns (s: seq<real>)
    requires |skills| <= SLOTS && Loose(skills, t) && !OnePadding(skills, t) && |skills| % 2 == 1
    requires |OddAt(skills, t)| >= 3
    ensures Unbalanced(skills, s)
  {
    var at := OddAt(skills, t);
    var v := BigGroup(skills, t);
    var u := Pick(at - {v});
    var w := Pick(at - {v} - {u});
    assert Count(skills, u) > 0 && Count(skills, w) > 0;
    var r, r' := TripleApart(skills, t, u, w, v);
    s := ApartUnbalanced(skills, r, r');
  }

  lemma UnfairUnbalanced(skills: seq<real>) returns (s: seq<real>)
    requires |skills| <= SLOTS && !Fair(skills)
    ensures Unbalanced(skills, s)
  {
    var t :| Loose(skills, t);
    if |skills| % 2 == 0 {
      s := EvenUnbalanced(skills, t);
    } else if !OnlyLoose(skills, t) {
      var t' :| t' != t && Loose(skills, t');
      var r, r';
      if t > t' {
        r, r' := TwoLooseApart(skills, t, t');
      } else {
        r, r' := TwoLooseApart(skills, t', t);
      }
      s := ApartUnbalanced(skills, r, r');
    } else if |OddAt(skills, t)| == 2 {
      s := PairUnbalanced(skills, t);
    } else {
      s := ManyUnbalanced(skills, t);
    }
  }

  /**
  At most 32 efficiencies, negative ones included, and any teams before: in every order that
  std::sort may leave, the draft ends with team sizes within one of each other, if and only if the
  efficiencies are fair.
  */
  lemma BalancedIffFair(skills: seq<real>, d: Deal)
    requires |skills| == |d.teams| <= 32 && d.current.Playing()
    ensures (forall s | SortOutput(Padded(skills), s) :: -1 <= Lead(skills, Drafted(skills, s, d), d.current, s) <= 1)
            <==> Fair(skills)
  {
    if Fair(skills) {
      forall s | SortOutput(Padded(skills), s)
        ensures -1 <= Lead(skills, Drafted(skills, s, d), d.current, s) <= 1
      {
        SortDealt(skills, s);
        FairTotal(skills, s);
        TotalIsLead(skills, s, d);
      }
    } else {
      var s := UnfairUnbalanced(skills);
      SortDealt(skills, s);
      TotalIsLead(skills, s, d);
    }
  }

  /** The simplest guard: no tie shares its integer part with another efficiency. */
  lemma TiesApartBalanced(skills: seq<real>, sorted: seq<real>, d: Deal)
    requires |skills| == |d.teams| <= SLOTS && d.current.Playing()
    requires TiesApart(Padded(skills)) && SortOutput(Padded(skills), sorted)
    ensures -1 <= Lead(skills, Drafted(skills, sorted, d), d.current, sorted) <= 1
  {
    AdjacentIfTiesApart(Padded(skills), sorted);
    TeamsBalanced(skills, sorted, d);
  }
}
