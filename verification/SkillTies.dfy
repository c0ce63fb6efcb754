/**
When std::sort, whose comparator looks at integer parts only, keeps equal efficiencies together,
and what the skill draft does when it does not.
*/
module SkillTies {
  import opened Players
  import opened SkillLaws
  import opened SkillTeams

  // ---------- when std::sort keeps ties together ----------

  lemma IndexOf(s: seq<real>, v: real) returns (i: nat)
    requires v in multiset(s)
    ensures i < |s| && s[i] == v
  {
    i :| 0 <= i < |s| && s[i] == v;
  }

  /** A value that occurs twice has two places. */
  lemma TwoPlaces(s: seq<real>, v: real) returns (i: nat, k: nat)
    requires multiset(s)[v] >= 2
    ensures i < |s| && k < |s| && i != k && s[i] == v && s[k] == v
  {
    i := IndexOf(s, v);
    var rest := s[..i] + s[i + 1..];
    assert s == s[..i] + [s[i]] + s[i + 1..];
    assert multiset(s) == multiset(rest) + multiset{v};
    var at := IndexOf(rest, v);
    k := if at < i then at else at + 1;
  }

  /** The guard keeps ties together in every order std::sort may produce. */
  lemma AdjacentIfTiesApart(all: seq<real>, sorted: seq<real>)
    requires TiesApart(all) && SortOutput(all, sorted)
    ensures Adjacent(sorted)
  {
    forall i, k | 0 <= i < k < |sorted| && sorted[i] == sorted[k]
      ensures Constant(sorted, i, k)
    {
      TwiceIn(sorted, i, k);
      var a, b := TwoPlaces(all, sorted[i]);
      forall j | i < j < k
        ensures sorted[j] == sorted[i]
      {
        assert sorted[j] in multiset(sorted);
        var m := IndexOf(all, sorted[j]);
        assert TieApart(all, a, m, b);
      }
    }
  }

  /** Where a value with integer part t may be inserted into a sorted sequence. */
  lemma Gap(s: seq<real>, t: int) returns (pos: nat)
    requires Descending(s)
    ensures pos <= |s|
    ensures forall i :: 0 <= i < pos ==> Whole(s[i]) > t
    ensures forall i :: pos <= i < |s| ==> Whole(s[i]) <= t
  {
    pos := 0;
    while pos < |s| && Whole(s[pos]) > t
      invariant pos <= |s| && forall i :: 0 <= i < pos ==> Whole(s[i]) > t
    {
      pos := pos + 1;
    }
  }

  /** Inserting a block of values with one integer part keeps a sort output one. */
  lemma InsertBlock(all: seq<real>, sorted: seq<real>, block: seq<real>, t: int) returns (r: seq<real>, pos: nat)
    requires SortOutput(all, sorted)
    requires forall i :: 0 <= i < |block| ==> Whole(block[i]) == t
    ensures SortOutput(all + block, r)
    ensures pos <= |sorted| && r == sorted[..pos] + block + sorted[pos..]
    ensures forall i :: 0 <= i < |sorted| ==> (i < pos <==> Whole(sorted[i]) > t)
  {
    pos := Gap(sorted, t);
    var front, back := sorted[..pos], sorted[pos..];
    r := front + block + back;
    assert sorted == front + back;
    assert multiset(sorted) == multiset(front) + multiset(back);
    assert multiset(r) == multiset(front) + multiset(block) + multiset(back);
    BlockInOrder(front, block, back, t);
  }

  lemma BlockInOrder(x: seq<real>, y: seq<real>, z: seq<real>, t: int)
    requires Descending(x) && Descending(z)
    requires forall i :: 0 <= i < |x| ==> Whole(x[i]) >= t
    requires forall i :: 0 <= i < |y| ==> Whole(y[i]) == t
    requires forall i :: 0 <= i < |z| ==> Whole(z[i]) <= t
    ensures Descending(x + y + z)
  {
    var r := x + y + z;
    forall i, j | 0 <= i < j < |r|
      ensures Whole(r[i]) >= Whole(r[j])
    {
      assert r[i] == if i < |x| then x[i] else if i < |x| + |y| then y[i - |x|] else z[i - |x| - |y|];
      assert r[j] == if j < |x| then x[j] else if j < |x| + |y| then y[j - |x|] else z[j - |x| - |y|];
    }
  }

  lemma {:induction false} SortExists(all: seq<real>) returns (sorted: seq<real>)
    ensures SortOutput(all, sorted)
  {
    if all == [] {
      sorted := [];
    } else {
      var n := |all| - 1;
      var rest := SortExists(all[..n]);
      var pos;
      sorted, pos := InsertBlock(all[..n], rest, [all[n]], Whole(all[n]));
      assert all == all[..n] + [all[n]];
    }
  }

  /** Without the guard some permitted order splits a tie. */
  lemma SplitTie(all: seq<real>, i: nat, j: nat, k: nat) returns (sorted: seq<real>)
    requires i < |all| && j < |all| && k < |all| && i < k
    requires !TieApart(all, i, j, k)
    ensures SortOutput(all, sorted) && !Adjacent(sorted)
  {
    var u, v := all[i], all[j];
    var rest := WithoutThree(all, i, j, k);
    var some := SortExists(rest);
    var pos;
    sorted, pos := InsertBlock(rest, some, [u, v, u], Whole(u));
    assert multiset(rest + [u, v, u]) == multiset(all);
    assert sorted[pos] == u && sorted[pos + 1] == v && sorted[pos + 2] == u;
    assert !Constant(sorted, pos, pos + 2);
  }

  lemma WithoutOne(s: seq<real>, v: real) returns (rest: seq<real>)
    requires v in multiset(s)
    ensures multiset(s) == multiset(rest) + multiset{v}
  {
    var i := IndexOf(s, v);
    rest := s[..i] + s[i + 1..];
    assert s == s[..i] + [s[i]] + s[i + 1..];
  }

  lemma WithoutThree(all: seq<real>, i: nat, j: nat, k: nat) returns (rest: seq<real>)
    requires i < k < |all| && j < |all| && all[i] == all[k] && all[j] != all[i]
    ensures multiset(all) == multiset(rest) + multiset{all[i], all[j], all[i]}
  {
    TwiceIn(all, i, k);
    var a := WithoutOne(all, all[i]);
    var b := WithoutOne(a, all[i]);
    assert all[j] in multiset(all);
    assert all[j] in multiset(b);
    rest := WithoutOne(b, all[j]);
  }

  /** Every order std::sort may produce keeps equal efficiencies together exactly when no
      efficiency that occurs twice shares its integer part with another one. */
  lemma SortKeepsTies(all: seq<real>)
    ensures (forall sorted | SortOutput(all, sorted) :: Adjacent(sorted)) <==> TiesApart(all)
  {
    if TiesApart(all) {
      forall sorted | SortOutput(all, sorted)
        ensures Adjacent(sorted)
      {
        AdjacentIfTiesApart(all, sorted);
      }
    } else {
      var i, j, k :| 0 <= i < |all| && 0 <= j < |all| && 0 <= k < |all| && i != k && !TieApart(all, i, j, k);
      var sorted;
      if i < k {
        sorted := SplitTie(all, i, j, k);
      } else {
        sorted := SplitTie(all, k, j, i);
      }
    }
  }

  // ---------- a split tie can make four against one ----------

  const FIVE: seq<real> := [50.7, 50.2, 50.7, 50.7, 0.0]

  function FiveSorted(): seq<real>
  {
    [50.7, 50.2, 50.7, 50.7] + seq(28, _ => 0.0)
  }

  lemma ZeroFlips(i: nat)
    requires 4 <= i <= 32
    ensures |FiveSorted()| == 32
    ensures Flips(FIVE, FiveSorted(), i) == 10 + (i - 4)
  {
    var sorted := FiveSorted();
    FiveCounts();
    if i == 4 {
      FourFlips();
    } else {
      ZeroFlips(i - 1);
      assert sorted[i - 1] == 0.0;
    }
  }

  lemma FiveCounts()
    ensures Count(FIVE, 50.7) == 3 && Count(FIVE, 50.2) == 1 && Count(FIVE, 0.0) == 1
  {
    CountMultiset(FIVE, 50.7);
    CountMultiset(FIVE, 50.2);
    CountMultiset(FIVE, 0.0);
  }

  lemma FourFlips()
    ensures Flips(FIVE, FiveSorted(), 1) == 3 && Flips(FIVE, FiveSorted(), 3) == 7
    ensures Flips(FIVE, FiveSorted(), 4) == 10
  {
    var sorted := FiveSorted();
    FiveCounts();
    assert sorted[0] == 50.7 && sorted[1] == 50.2 && sorted[2] == 50.7 && sorted[3] == 50.7;
    assert Flips(FIVE, sorted, 1) == 3;
    assert Flips(FIVE, sorted, 2) == 4;
    assert Flips(FIVE, sorted, 3) == 7;
  }

  const FIVE_FRAGS: seq<int> := [507, 251, 507, 507, 0]
  const FIVE_DEATHS: seq<nat> := [493, 249, 493, 493, 0]

  lemma FiveRated()
    ensures AllRated(FIVE_FRAGS, FIVE_DEATHS) && Efficiencies(FIVE_FRAGS, FIVE_DEATHS) == FIVE
  {
    assert Efficiency(507, 493) == 50.7 && Efficiency(251, 249) == 50.2 && Efficiency(0, 0) == 0.0;
  }

  /** Five players in this order: their padded efficiencies are sorted as they stand, so a sort
      that moves nothing is permitted. It splits a tie and so deals four of them to one team. */
  lemma SplitTieUnbalances(d: Deal)
    requires |d.teams| == 5 && d.current.Playing()
    ensures AllRated(FIVE_FRAGS, FIVE_DEATHS) && Efficiencies(FIVE_FRAGS, FIVE_DEATHS) == FIVE
    ensures Padded(FIVE) == FiveSorted() && SortOutput(Padded(FIVE), FiveSorted()) && !Adjacent(FiveSorted())
    ensures var other := d.current.Flip();
            Drafted(FIVE, FiveSorted(), d) == [other, other, d.current, other, other]
    ensures Lead(FIVE, Drafted(FIVE, FiveSorted(), d), d.current, FiveSorted()) == -3
  {
    FiveRated();
    FiveOrder();
    FiveTeams(d);
    FiveLead(Drafted(FIVE, FiveSorted(), d), d.current, FiveSorted());
  }

  lemma FiveOrder()
    ensures Padded(FIVE) == FiveSorted() && SortOutput(Padded(FIVE), FiveSorted()) && !Adjacent(FiveSorted())
  {
    var sorted := FiveSorted();
    var front: seq<real> := [50.7, 50.2, 50.7, 50.7];
    var zeros: seq<real> := seq(28, _ => 0.0);
    BlockInOrder([], front, zeros, 50);
    assert [] + front + zeros == sorted;
    assert sorted[0] == 50.7 && sorted[1] == 50.2 && sorted[2] == 50.7;
    assert !Constant(sorted, 0, 2);
  }

  lemma FiveRanks()
    ensures Rank(FIVE, 0) == 0 && Rank(FIVE, 1) == 0 && Rank(FIVE, 2) == 1 && Rank(FIVE, 3) == 2 && Rank(FIVE, 4) == 0
  {
    CountMultiset(FIVE[..0], 50.7);
    CountMultiset(FIVE[..1], 50.2);
    CountMultiset(FIVE[..2], 50.7);
    CountMultiset(FIVE[..3], 50.7);
    CountMultiset(FIVE[..4], 0.0);
    assert FIVE[..0] == [];
    assert FIVE[..1] == [50.7];
    assert FIVE[..2] == [50.7, 50.2];
    assert FIVE[..3] == [50.7, 50.2, 50.7];
    assert FIVE[..4] == [50.7, 50.2, 50.7, 50.7];
  }

  /** Slot l is the last one that holds v. */
  ghost predicate IsLast(sorted: seq<real>, v: real, l: nat)
  {
    l < |sorted| && sorted[l] == v && forall t :: l < t < |sorted| ==> sorted[t] != v
  }

  lemma TeamFrom(skills: seq<real>, sorted: seq<real>, d: Deal, k: nat, l: nat, flips: nat, rank: nat)
    requires |skills| == |d.teams| && k < |skills| && d.current.Playing() && IsLast(sorted, skills[k], l)
    requires flips == Flips(skills, sorted, l) && rank == Rank(skills, k)
    ensures Drafted(skills, sorted, d)[k] == Alternate(d.current, flips + rank)
  {
    DraftResult(skills, sorted, d, |sorted|);
    LastIs(sorted, skills[k], l);
    assert Placed(skills, sorted, d, |sorted|, k, Drafted(skills, sorted, d)[k]);
  }

  lemma FiveLasts()
    ensures IsLast(FiveSorted(), 50.7, 3) && IsLast(FiveSorted(), 50.2, 1) && IsLast(FiveSorted(), 0.0, 31)
  {
    var sorted := FiveSorted();
    assert sorted[1] == 50.2 && sorted[2] == 50.7 && sorted[3] == 50.7 && sorted[31] == 0.0;
  }

  lemma FiveFlips()
    ensures |FiveSorted()| == 32
    ensures Flips(FIVE, FiveSorted(), 1) == 3 && Flips(FIVE, FiveSorted(), 3) == 7 && Flips(FIVE, FiveSorted(), 31) == 37
  {
    FourFlips();
    ZeroFlips(31);
  }

  lemma FiveTeams(d: Deal)
    requires |d.teams| == 5 && d.current.Playing()
    ensures var other := d.current.Flip();
            Drafted(FIVE, FiveSorted(), d) == [other, other, d.current, other, other]
  {
    FiveRanks();
    FiveLasts();
    FiveFlips();
    FiveTeamsFrom(FIVE, FiveSorted(), d);
  }

  lemma FiveTeamsFrom(skills: seq<real>, sorted: seq<real>, d: Deal)
    requires |skills| == |d.teams| == 5 && d.current.Playing() && |sorted| == 32
    requires IsLast(sorted, skills[0], 3) && IsLast(sorted, skills[2], 3) && IsLast(sorted, skills[3], 3)
    requires IsLast(sorted, skills[1], 1) && IsLast(sorted, skills[4], 31)
    requires Flips(skills, sorted, 1) == 3 && Flips(skills, sorted, 3) == 7 && Flips(skills, sorted, 31) == 37
    requires Rank(skills, 0) == 0 && Rank(skills, 1) == 0 && Rank(skills, 2) == 1
    requires Rank(skills, 3) == 2 && Rank(skills, 4) == 0
    ensures var other := d.current.Flip();
            Drafted(skills, sorted, d) == [other, other, d.current, other, other]
  {
    TeamFrom(skills, sorted, d, 0, 3, 7, 0);
    TeamFrom(skills, sorted, d, 1, 1, 3, 0);
    TeamFrom(skills, sorted, d, 2, 3, 7, 1);
    TeamFrom(skills, sorted, d, 3, 3, 7, 2);
    TeamFrom(skills, sorted, d, 4, 31, 37, 0);
  }

  lemma LastIs(sorted: seq<real>, v: real, l: nat)
    requires l < |sorted| && sorted[l] == v && forall t :: l < t < |sorted| ==> sorted[t] != v
    ensures LastSlot(sorted, v, |sorted|) == l
  {
  }

  lemma FiveLead(teams: seq<Team>, first: Team, vs: seq<real>)
    requires first.Playing() && vs == FiveSorted()
    requires teams == [first.Flip(), first.Flip(), first, first.Flip(), first.Flip()]
    ensures Lead(FIVE, teams, first, vs) == -3
  {
    assert vs[0] == 50.7 && vs[1] == 50.2 && vs[31] == 0.0;
    assert Lead(FIVE[..0], teams[..0], first, vs) == 0;
    LeadOne(FIVE, teams, first, vs, 1);
    LeadOne(FIVE, teams, first, vs, 2);
    LeadOne(FIVE, teams, first, vs, 3);
    LeadOne(FIVE, teams, first, vs, 4);
    LeadOne(FIVE, teams, first, vs, 5);
    assert FIVE[..5] == FIVE && teams[..5] == teams;
  }

  lemma LeadOne(skills: seq<real>, teams: seq<Team>, first: Team, vs: seq<real>, n: nat)
    requires |skills| == |teams| && 0 < n <= |skills| && skills[n - 1] in vs
    ensures Lead(skills[..n], teams[..n], first, vs) ==
            Lead(skills[..n - 1], teams[..n - 1], first, vs) + Sign(first, teams[n - 1])
  {
    assert skills[..n][..n - 1] == skills[..n - 1] && teams[..n][..n - 1] == teams[..n - 1];
  }
}
