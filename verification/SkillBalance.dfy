/**
When the skill draft is fair: exactly which efficiencies leave teams whose sizes differ by at most
one, whatever order std::sort leaves.
*/
module SkillBalance {
  import opened Players
  import opened SkillTeams
  import opened SkillLaws
  import opened SkillTies
  import opened Alternation

  // ---------- odd tie groups ----------

  /** The efficiencies that an odd number of players have. */
  ghost function OddGroups(skills: seq<real>): set<real>
  {
    set v | v in skills && Count(skills, v) % 2 == 1
  }

  ghost function OddAt(skills: seq<real>, t: int): set<real>
  {
    set v | v in OddGroups(skills) && Whole(v) == t
  }

  ghost function OddAbove(skills: seq<real>, t: int): set<real>
  {
    set v | v in OddGroups(skills) && Whole(v) > t
  }

  /** The odd groups among these that have an odd number of slots. */
  ghost function Turning(skills: seq<real>, groups: set<real>): set<real>
    requires |skills| <= SLOTS
  {
    if ZeroShifts(skills) then groups - {0.0} else groups
  }

  ghost function TurnsAbove(skills: seq<real>, t: int): nat
    requires |skills| <= SLOTS
  {
    |Turning(skills, OddAbove(skills, t))|
  }

  /** How many of the 32 slots hold v. */
  function Slots(skills: seq<real>, v: real): nat
    requires |skills| <= SLOTS
  {
    Count(skills, v) + (if v == 0.0 then SLOTS - |skills| else 0)
  }

  /** An odd group with several slots shares its integer part with another odd group. */
  ghost predicate Loose(skills: seq<real>, t: int)
    requires |skills| <= SLOTS
  {
    |OddAt(skills, t)| >= 2 && exists v <- OddAt(skills, t) :: Slots(skills, v) >= 2
  }

  /** Zero is an odd group with an even number of slots. */
  predicate ZeroShifts(skills: seq<real>)
    requires |skills| <= SLOTS
  {
    ShiftedBy(|skills|, Count(skills, 0.0), true)
  }

  /** 31 players, one of them without frags, and otherwise single players in odd groups around zero. */
  ghost predicate OnePadding(skills: seq<real>, t: int)
    requires |skills| <= SLOTS
  {
    && t == 0 && |skills| == SLOTS - 1 && Count(skills, 0.0) == 1
    && forall v <- OddAt(skills, t) :: Count(skills, v) == 1
  }

  /** Two groups of a loose integer part can only make up for the odd player. */
  ghost predicate PairSettles(skills: seq<real>, t: int)
    requires |skills| <= SLOTS
  {
    if ZeroShifts(skills) then
      t == 0 || TurnsAbove(skills, t) % 2 != TurnsAbove(skills, 0) % 2
    else
      TurnsAbove(skills, t) % 2 == 0
  }

  ghost predicate Settles(skills: seq<real>, t: int)
    requires |skills| <= SLOTS
  {
    (|OddAt(skills, t)| == 2 && PairSettles(skills, t)) || OnePadding(skills, t)
  }

  ghost predicate Fair(skills: seq<real>)
    requires |skills| <= SLOTS
  {
    || (forall t :: !Loose(skills, t))
    || (|skills| % 2 == 1 && exists t :: Loose(skills, t) && Settles(skills, t) && OnlyLoose(skills, t))
  }

  ghost predicate OnlyLoose(skills: seq<real>, t: int)
    requires |skills| <= SLOTS
  {
    forall t' :: t' != t ==> !Loose(skills, t')
  }

  // ---------- the lead is an alternating sum ----------

  lemma TimesCount(s: seq<real>, v: real)
    ensures Times(s, v) == Count(s, v)
  {
    TimesMultiset(s, v);
    CountMultiset(s, v);
  }

  lemma {:induction false} TimesMultiset(s: seq<real>, v: real)
    ensures Times(s, v) == multiset(s)[v]
  {
    if s != [] {
      TimesMultiset(s[1..], v);
      assert s == [s[0]] + s[1..];
    }
  }

  lemma {:induction false} LeadSame(skills: seq<real>, teams: seq<Team>, first: Team, x: seq<real>, y: seq<real>)
    requires |skills| == |teams| && forall v :: v in x <==> v in y
    ensures Lead(skills, teams, first, x) == Lead(skills, teams, first, y)
  {
    if skills != [] {
      var n := |skills| - 1;
      LeadSame(skills[..n], teams[..n], first, x, y);
    }
  }

  /** The group whose last slot is i. */
  lemma LastLead(skills: seq<real>, sorted: seq<real>, d: Deal, i: nat)
    requires |skills| == |d.teams| && d.current.Playing() && i < |sorted| && sorted[i] !in sorted[i + 1..]
    ensures GroupLead(skills, Drafted(skills, sorted, d), d.current, sorted[i]) ==
            LeadOf(Flips(skills, sorted, i), Count(skills, sorted[i]))
  {
    var teams, v, start := Drafted(skills, sorted, d), sorted[i], Flips(skills, sorted, i);
    NotAfter(sorted, v, i);
    forall k | 0 <= k < |skills| && skills[k] == v
      ensures teams[k] == Alternate(d.current, start + Rank(skills, k))
    {
      TeamFrom(skills, sorted, d, k, i, start, Rank(skills, k));
    }
    GroupLeads(skills, teams, d.current, v, start);
  }

  lemma NotAfter(sorted: seq<real>, v: real, i: nat)
    requires i < |sorted| && v == sorted[i] && v !in sorted[i + 1..]
    ensures IsLast(sorted, v, i)
  {
    assert forall t :: i < t < |sorted| ==> sorted[t] == sorted[i + 1..][t - i - 1];
  }

  lemma OddGroupHas(skills: seq<real>, v: real)
    ensures v in OddGroups(skills) <==> Count(skills, v) % 2 == 1
  {
    CountMultiset(skills, v);
  }

  /** One more slot at the front, and what it adds to the lead. */
  lemma SlotLead(skills: seq<real>, sorted: seq<real>, d: Deal, i: nat)
    requires |skills| == |d.teams| && d.current.Playing() && i < |sorted|
    ensures var teams, v := Drafted(skills, sorted, d), sorted[i];
            Lead(skills, teams, d.current, sorted[i..]) == Lead(skills, teams, d.current, sorted[i + 1..]) +
              (if v in sorted[i + 1..] then 0 else LeadOf(Flips(skills, sorted, i), Count(skills, v)))
  {
    var teams, v := Drafted(skills, sorted, d), sorted[i];
    assert sorted[i..] == [v] + sorted[i + 1..];
    if v in sorted[i + 1..] {
      LeadSame(skills, teams, d.current, sorted[i..], sorted[i + 1..]);
    } else {
      LeadRun(skills, teams, d.current, sorted[i + 1..], sorted[i..], v);
      LastLead(skills, sorted, d, i);
    }
  }

  /** The lead of the groups that have slots from i on. */
  lemma {:induction false} LeadIsSum(skills: seq<real>, sorted: seq<real>, d: Deal, i: nat)
    requires |skills| == |d.teams| && d.current.Playing() && i <= |sorted|
    ensures Lead(skills, Drafted(skills, sorted, d), d.current, sorted[i..]) ==
            Sum(OddGroups(skills), sorted[i..], Flips(skills, sorted, i))
    decreases |sorted| - i
  {
    var odd, f := OddGroups(skills), Flips(skills, sorted, i);
    if i == |sorted| {
      LeadNone(skills, Drafted(skills, sorted, d), d.current);
      assert sorted[i..] == [];
    } else {
      var v := sorted[i];
      LeadIsSum(skills, sorted, d, i + 1);
      SlotLead(skills, sorted, d, i);
      OddGroupHas(skills, v);
      assert sorted[i..][0] == v && sorted[i..][1..] == sorted[i + 1..];
      SumParity(odd, sorted[i + 1..], Flips(skills, sorted, i + 1), if v in odd then f + 1 else f);
    }
  }

  // ---------- slots by integer part ----------

  /** The slots with an integer part of at least t. */
  function Cut(s: seq<real>, t: int): (k: nat)
    ensures k <= |s|
  {
    if s == [] || Whole(s[0]) < t then 0 else 1 + Cut(s[1..], t)
  }

  lemma {:induction false} CutIs(s: seq<real>, t: int)
    requires Descending(s)
    ensures forall i :: 0 <= i < |s| ==> (i < Cut(s, t) <==> Whole(s[i]) >= t)
  {
    if s != [] && Whole(s[0]) >= t {
      CutIs(s[1..], t);
      assert forall i :: 0 < i < |s| ==> s[i] == s[1..][i - 1];
    }
  }

  /** An order that std::sort may leave, with its slots counted. */
  ghost predicate Dealt(skills: seq<real>, sorted: seq<real>)
  {
    && |skills| <= SLOTS && Descending(sorted)
    && forall v: real :: Times(sorted, v) == Slots(skills, v)
  }

  lemma SortDealt(skills: seq<real>, sorted: seq<real>)
    requires |skills| <= SLOTS && SortOutput(Padded(skills), sorted)
    ensures Dealt(skills, sorted)
  {
    forall v: real
      ensures Times(sorted, v) == Slots(skills, v)
    {
      TimesCount(sorted, v);
      SortedCount(skills, sorted, v);
    }
  }

  /** Slots with an integer part of at least t, and those with exactly t. */
  function Above(sorted: seq<real>, t: int): seq<real>
  {
    sorted[..Cut(sorted, t)]
  }

  function Block(sorted: seq<real>, t: int): seq<real>
    requires Cut(sorted, t + 1) <= Cut(sorted, t)
  {
    sorted[Cut(sorted, t + 1)..Cut(sorted, t)]
  }

  lemma {:induction false} CutGrows(sorted: seq<real>, t: int)
    ensures Cut(sorted, t + 1) <= Cut(sorted, t)
  {
    if sorted != [] && Whole(sorted[0]) >= t + 1 {
      CutGrows(sorted[1..], t);
    }
  }

  /** Every slot of a block has its integer part, and every slot of that integer part is in it. */
  lemma BlockIs(sorted: seq<real>, t: int)
    requires Descending(sorted)
    ensures Cut(sorted, t + 1) <= Cut(sorted, t)
    ensures forall v <- Block(sorted, t) :: Whole(v) == t
    ensures forall v <- Above(sorted, t + 1) :: Whole(v) > t
    ensures forall v <- sorted[Cut(sorted, t)..] :: Whole(v) < t
    ensures sorted == Above(sorted, t + 1) + Block(sorted, t) + sorted[Cut(sorted, t)..]
    ensures Above(sorted, t) == Above(sorted, t + 1) + Block(sorted, t)
  {
    CutGrows(sorted, t);
    CutIs(sorted, t);
    CutIs(sorted, t + 1);
  }

  lemma {:induction false} TimesAppend(x: seq<real>, y: seq<real>, v: real)
    ensures Times(x + y, v) == Times(x, v) + Times(y, v)
  {
    if x == [] {
      assert x + y == y;
    } else {
      assert (x + y)[1..] == x[1..] + y;
      TimesAppend(x[1..], y, v);
    }
  }

  /** A value has its slots in its own block. */
  lemma BlockTimes(sorted: seq<real>, t: int, v: real)
    requires Descending(sorted)
    ensures Cut(sorted, t + 1) <= Cut(sorted, t)
    ensures Times(Block(sorted, t), v) == if Whole(v) == t then Times(sorted, v) else 0
    ensures Times(Above(sorted, t + 1), v) == if Whole(v) > t then Times(sorted, v) else 0
  {
    BlockIs(sorted, t);
    var x, y, z := Above(sorted, t + 1), Block(sorted, t), sorted[Cut(sorted, t)..];
    TimesAppend(x + y, z, v);
    TimesAppend(x, y, v);
    TimesIn(x, v);
    TimesIn(y, v);
    TimesIn(z, v);
  }

  // ---------- the sum, block by block ----------

  /** The sum and the flips over the slots with an integer part of at least t. */
  ghost function SumTo(skills: seq<real>, sorted: seq<real>, t: int): int
  {
    Sum(OddGroups(skills), Above(sorted, t), 0)
  }

  ghost function FlipsTo(skills: seq<real>, sorted: seq<real>, t: int): nat
  {
    Odds(OddGroups(skills), Above(sorted, t))
  }

  ghost function FlipsAt(skills: seq<real>, sorted: seq<real>, t: int): nat
    requires Cut(sorted, t + 1) <= Cut(sorted, t)
  {
    Odds(OddGroups(skills), Block(sorted, t))
  }

  lemma BlockAdds(skills: seq<real>, sorted: seq<real>, t: int)
    requires Descending(sorted)
    ensures Cut(sorted, t + 1) <= Cut(sorted, t)
    ensures FlipsTo(skills, sorted, t) == FlipsTo(skills, sorted, t + 1) + FlipsAt(skills, sorted, t)
    ensures SumTo(skills, sorted, t) == SumTo(skills, sorted, t + 1) +
              Sum(OddGroups(skills), Block(sorted, t), FlipsTo(skills, sorted, t + 1))
  {
    BlockIs(sorted, t);
    OddsAppend(OddGroups(skills), Above(sorted, t + 1), Block(sorted, t));
    SumAppend(OddGroups(skills), Above(sorted, t + 1), Block(sorted, t), 0);
  }

  /** Every odd group has an odd number of slots, but for zero when it shifts. */
  lemma OddSlots(skills: seq<real>, v: real)
    requires |skills| <= SLOTS && v in OddGroups(skills)
    ensures Slots(skills, v) % 2 == 0 <==> v == 0.0 && ZeroShifts(skills)
    ensures v == 0.0 && ZeroShifts(skills) ==> Slots(skills, v) >= 2
  {
  }

  lemma ParityOfMore(n: nat, r: nat, k: nat, m: nat)
    requires n == r + k && k % 2 == 0 && r % 2 == m % 2
    ensures n % 2 == m % 2
  {
  }

  lemma OddsButOne(at: set<real>, rest: set<real>, b: seq<real>, z: real)
    requires z in at && rest == at - {z} && Times(b, z) % 2 == 0
    requires forall v <- rest :: Times(b, v) % 2 == 1
    ensures Odds(at, b) % 2 == |rest| % 2
  {
    OddsSplit(at, z, b);
    OddsParity(rest, b);
    ParityOfMore(Odds(at, b), Odds(rest, b), Times(b, z), |rest|);
  }

  /** Slots that hold some odd groups whole flip as often as those groups turn. */
  lemma TurnsParity(skills: seq<real>, groups: set<real>, b: seq<real>)
    requires |skills| <= SLOTS && groups <= OddGroups(skills)
    requires forall v <- groups :: Times(b, v) == Slots(skills, v)
    ensures Odds(groups, b) % 2 == |Turning(skills, groups)| % 2
  {
    var rest := Turning(skills, groups);
    forall v <- groups
      ensures Times(b, v) % 2 == 0 <==> v !in rest
    {
      OddSlots(skills, v);
    }
    if ZeroShifts(skills) && 0.0 in groups {
      OddsButOne(groups, rest, b, 0.0);
    } else {
      assert rest == groups;
      OddsParity(groups, b);
    }
  }

  /** The flips of a block. */
  lemma FlipsParity(skills: seq<real>, sorted: seq<real>, t: int)
    requires Dealt(skills, sorted)
    ensures Cut(sorted, t + 1) <= Cut(sorted, t)
    ensures FlipsAt(skills, sorted, t) % 2 == |Turning(skills, OddAt(skills, t))| % 2
  {
    BlockIs(sorted, t);
    forall v <- OddAt(skills, t)
      ensures Times(Block(sorted, t), v) == Slots(skills, v)
    {
      BlockTimes(sorted, t, v);
    }
    OddsSame(OddGroups(skills), OddAt(skills, t), Block(sorted, t));
    TurnsParity(skills, OddAt(skills, t), Block(sorted, t));
  }

  /** The flips before a block. */
  lemma AboveParity(skills: seq<real>, sorted: seq<real>, t: int)
    requires Dealt(skills, sorted)
    ensures FlipsTo(skills, sorted, t + 1) % 2 == TurnsAbove(skills, t) % 2
  {
    BlockIs(sorted, t);
    forall v <- OddAbove(skills, t)
      ensures Times(Above(sorted, t + 1), v) == Slots(skills, v)
    {
      BlockTimes(sorted, t, v);
    }
    OddsSame(OddGroups(skills), OddAbove(skills, t), Above(sorted, t + 1));
    TurnsParity(skills, OddAbove(skills, t), Above(sorted, t + 1));
  }

  /** Zero turns nothing when it shifts, and no other block holds it. */
  lemma AllTurn(skills: seq<real>, t: int)
    requires |skills| <= SLOTS && (t != 0 || !ZeroShifts(skills))
    ensures Turning(skills, OddAt(skills, t)) == OddAt(skills, t)
  {
  }

  /** An odd group has a slot, and that slot is in its block. */
  lemma BlockHolds(skills: seq<real>, sorted: seq<real>, t: int, v: real)
    requires Dealt(skills, sorted) && v in OddAt(skills, t)
    ensures Cut(sorted, t + 1) <= Cut(sorted, t)
    ensures v in Block(sorted, t)
  {
    BlockTimes(sorted, t, v);
    TimesIn(Block(sorted, t), v);
    assert Times(sorted, v) == Slots(skills, v) >= Count(skills, v) > 0;
  }

  lemma BlockOdd(skills: seq<real>, sorted: seq<real>, t: int)
    requires Dealt(skills, sorted)
    ensures Cut(sorted, t + 1) <= Cut(sorted, t)
    ensures forall v <- Block(sorted, t) :: v in OddGroups(skills) <==> v in OddAt(skills, t)
  {
    BlockIs(sorted, t);
  }

  // ---------- blocks that are not loose ----------

  /** A block with at most one odd group. */
  lemma LoneBlock(skills: seq<real>, sorted: seq<real>, t: int, f: nat)
    requires Dealt(skills, sorted) && |OddAt(skills, t)| <= 1
    ensures Cut(sorted, t + 1) <= Cut(sorted, t)
    ensures var k := FlipsAt(skills, sorted, t);
            && Sum(OddGroups(skills), Block(sorted, t), f) == Lone(k, f)
            && (k == 0 <==> |OddAt(skills, t)| == 0)
  {
    var odd, at := OddGroups(skills), OddAt(skills, t);
    BlockOdd(skills, sorted, t);
    var b := Block(sorted, t);
    var u := 0.0;
    if |at| == 1 {
      u := Pick(at);
      BlockHolds(skills, sorted, t, u);
    }
    forall v <- b | v in odd
      ensures v == u
    {
      OnlyOne(at, v, u);
    }
    OneSum(odd, b, u, f);
  }

  lemma OnlyOne(s: set<real>, v: real, u: real)
    requires |s| <= 1 && v in s && (|s| == 1 ==> u in s)
    ensures v == u
  {
    assert |s - {v}| == |s| - 1;
    assert u !in s - {v};
  }

  /** A block that is not loose sums up as if every slot counted. */
  lemma TightBlock(skills: seq<real>, sorted: seq<real>, t: int, f: nat)
    requires Dealt(skills, sorted) && !Loose(skills, t) && (t != 0 || !ZeroShifts(skills))
    ensures Cut(sorted, t + 1) <= Cut(sorted, t)
    ensures Sum(OddGroups(skills), Block(sorted, t), f) == Alternating(FlipsAt(skills, sorted, t), f)
  {
    var odd, at := OddGroups(skills), OddAt(skills, t);
    FlipsParity(skills, sorted, t);
    AllTurn(skills, t);
    var b := Block(sorted, t);
    if |at| <= 1 {
      LoneBlock(skills, sorted, t, f);
    } else {
      forall v <- odd
        ensures Times(b, v) <= 1
      {
        BlockTimes(sorted, t, v);
      }
      SinglesSum(odd, b, f);
    }
  }

  // ---------- from the top to the bottom ----------

  lemma AlternatingStep(f: nat, k: nat)
    ensures f % 2 + Alternating(k, f) == (f + k) % 2
  {
  }

  /** The lead less what is odd about the flips. */
  ghost function Drift(skills: seq<real>, sorted: seq<real>, t: int): int
  {
    SumTo(skills, sorted, t) - FlipsTo(skills, sorted, t) % 2
  }

  lemma {:induction false} TightWalk(skills: seq<real>, sorted: seq<real>, lo: int, hi: int)
    requires Dealt(skills, sorted) && lo <= hi && !(ZeroShifts(skills) && lo <= 0 < hi)
    requires forall t | lo <= t < hi :: !Loose(skills, t)
    ensures Drift(skills, sorted, lo) == Drift(skills, sorted, hi)
    decreases hi - lo
  {
    if lo < hi {
      TightWalk(skills, sorted, lo + 1, hi);
      BlockAdds(skills, sorted, lo);
      TightBlock(skills, sorted, lo, FlipsTo(skills, sorted, lo + 1));
      AlternatingStep(FlipsTo(skills, sorted, lo + 1), FlipsAt(skills, sorted, lo));
    }
  }

  /** What is lost on the way down past a zero that shifts. */
  ghost function PastZero(skills: seq<real>, lo: int, hi: int): int
    requires |skills| <= SLOTS
  {
    if ZeroShifts(skills) && lo <= 0 < hi then Sgn(TurnsAbove(skills, 0)) else 0
  }

  lemma Walk(skills: seq<real>, sorted: seq<real>, lo: int, hi: int)
    requires Dealt(skills, sorted) && lo <= hi
    requires forall t | lo <= t < hi :: !Loose(skills, t)
    ensures Drift(skills, sorted, lo) == Drift(skills, sorted, hi) - PastZero(skills, lo, hi)
  {
    if ZeroShifts(skills) && lo <= 0 < hi {
      TightWalk(skills, sorted, 1, hi);
      ZeroStep(skills, sorted);
      TightWalk(skills, sorted, lo, 0);
    } else {
      TightWalk(skills, sorted, lo, hi);
    }
  }

  /** An integer part above all slots. */
  function Top(sorted: seq<real>): (t: int)
    ensures t > 0 && Cut(sorted, t) == 0
  {
    if sorted == [] || Whole(sorted[0]) < 0 then 1 else Whole(sorted[0]) + 1
  }

  lemma TopDrift(skills: seq<real>, sorted: seq<real>, hi: int)
    requires Descending(sorted) && hi >= Top(sorted)
    ensures Drift(skills, sorted, hi) == 0
  {
    CutIs(sorted, hi);
    if sorted != [] {
      assert Whole(sorted[0]) < hi;
    }
    assert Above(sorted, hi) == [];
  }

  /** No loose integer part from lo on. */
  lemma WalkTop(skills: seq<real>, sorted: seq<real>, lo: int, top: int)
    requires Dealt(skills, sorted) && top > 0
    requires forall t | t >= lo :: !Loose(skills, t)
    ensures Drift(skills, sorted, lo) == -PastZero(skills, lo, top)
  {
    var hi := Max(Max(lo, top), Top(sorted));
    Walk(skills, sorted, lo, hi);
    TopDrift(skills, sorted, hi);
  }

  function Max(a: int, b: int): int
  {
    if a < b then b else a
  }

  /** The lead of the whole draft. */
  ghost function Total(skills: seq<real>, sorted: seq<real>): int
  {
    Sum(OddGroups(skills), sorted, 0)
  }

  /** No slot has an integer part below t. */
  function Low(sorted: seq<real>, t: int): (lo: int)
    ensures lo <= t
    ensures Descending(sorted) ==> Cut(sorted, lo) == |sorted|
  {
    var last := if sorted == [] then t else Whole(sorted[|sorted| - 1]);
    var lo := if last < t then last else t;
    assert Descending(sorted) ==> Cut(sorted, lo) == |sorted| by {
      if Descending(sorted) && sorted != [] {
        CutIs(sorted, lo);
      }
    }
    lo
  }

  /** The lead is what has drifted on the way down from t, but for the odd player. */
  lemma TotalFrom(skills: seq<real>, sorted: seq<real>, t: int, top: int)
    requires Dealt(skills, sorted) && t <= top && top > 0
    requires forall t' | t' < t :: !Loose(skills, t')
    ensures var drift := Drift(skills, sorted, t) - (if t <= 0 then 0 else PastZero(skills, 0, top));
            drift <= Total(skills, sorted) <= drift + 1
    ensures (Total(skills, sorted) - |skills|) % 2 == 0
  {
    var lo := Low(sorted, if t < 0 then t else 0);
    Walk(skills, sorted, lo, t);
    assert sorted[..|sorted|] == sorted;
    TotalParity(skills, sorted);
  }

  lemma TotalIsLead(skills: seq<real>, sorted: seq<real>, d: Deal)
    requires Dealt(skills, sorted) && |skills| == |d.teams| && d.current.Playing()
    ensures Lead(skills, Drafted(skills, sorted, d), d.current, sorted) == Total(skills, sorted)
    ensures (Total(skills, sorted) - |skills|) % 2 == 0
  {
    LeadIsSum(skills, sorted, d, 0);
    assert sorted[0..] == sorted;
    forall k | 0 <= k < |skills|
      ensures skills[k] in sorted
    {
      CountMultiset(skills, skills[k]);
      TimesIn(sorted, skills[k]);
      assert Times(sorted, skills[k]) == Slots(skills, skills[k]);
    }
    LeadParity(skills, Drafted(skills, sorted, d), d.current, sorted);
  }

  /** The lead is as odd or even as the number of players. */
  lemma TotalParity(skills: seq<real>, sorted: seq<real>)
    requires Dealt(skills, sorted)
    ensures (Total(skills, sorted) - |skills|) % 2 == 0
  {
    TotalIsLead(skills, sorted, Deal(seq(|skills|, _ => Terrorist), Terrorist));
  }

  // ---------- the block of zero ----------

  lemma ZeroIn(skills: seq<real>)
    requires |skills| <= SLOTS && ZeroShifts(skills)
    ensures 0.0 in OddAt(skills, 0) && Slots(skills, 0.0) % 2 == 0 && Slots(skills, 0.0) >= 2
  {
    OddGroupHas(skills, 0.0);
    OddSlots(skills, 0.0);
  }

  lemma ButOne(at: set<real>, rest: set<real>, z: real)
    requires z in at && rest == at - {z}
    ensures |at| == |rest| + 1
  {
  }

  /** The flips of the block of zero when zero shifts. */
  lemma ZeroFlips(skills: seq<real>, sorted: seq<real>)
    requires Dealt(skills, sorted) && ZeroShifts(skills)
    ensures Cut(sorted, 1) <= Cut(sorted, 0)
    ensures FlipsAt(skills, sorted, 0) % 2 == (|OddAt(skills, 0)| + 1) % 2
  {
    ZeroIn(skills);
    FlipsParity(skills, sorted, 0);
    ButOne(OddAt(skills, 0), Turning(skills, OddAt(skills, 0)), 0.0);
  }

  lemma ZeroDrift(f: nat, k: nat, sum: int, above: nat)
    requires k % 2 == 0 && f % 2 == above % 2 && sum == -Sgn(f)
    ensures f % 2 + sum - (f + k) % 2 == -Sgn(above)
  {
    assert (f + k) % 2 == f % 2;
  }

  /** A zero that shifts and is the only odd group of its block. */
  lemma ZeroAlone(skills: seq<real>, sorted: seq<real>, f: nat)
    requires Dealt(skills, sorted) && ZeroShifts(skills) && !Loose(skills, 0)
    ensures Cut(sorted, 1) <= Cut(sorted, 0)
    ensures FlipsAt(skills, sorted, 0) % 2 == 0 && Sum(OddGroups(skills), Block(sorted, 0), f) == -Sgn(f)
  {
    ZeroIn(skills);
    ZeroFlips(skills, sorted);
    ButOne(OddAt(skills, 0), OddAt(skills, 0) - {0.0}, 0.0);
    LoneBlock(skills, sorted, 0, f);
  }

  lemma ZeroStepBy(skills: seq<real>, sorted: seq<real>, above: nat)
    requires Dealt(skills, sorted) && ZeroShifts(skills) && !Loose(skills, 0)
    requires FlipsTo(skills, sorted, 1) % 2 == above % 2
    ensures Drift(skills, sorted, 0) == Drift(skills, sorted, 1) - Sgn(above)
  {
    var f := FlipsTo(skills, sorted, 1);
    BlockAdds(skills, sorted, 0);
    ZeroAlone(skills, sorted, f);
    ZeroDrift(f, FlipsAt(skills, sorted, 0), Sum(OddGroups(skills), Block(sorted, 0), f), above);
  }

  /** The block of a zero that shifts and is the only odd group in it. */
  lemma ZeroStep(skills: seq<real>, sorted: seq<real>)
    requires Dealt(skills, sorted) && ZeroShifts(skills) && !Loose(skills, 0)
    ensures Drift(skills, sorted, 0) == Drift(skills, sorted, 1) - Sgn(TurnsAbove(skills, 0))
  {
    AboveParity(skills, sorted, 0);
    ZeroStepBy(skills, sorted, TurnsAbove(skills, 0));
  }

  // ---------- fair drafts ----------

  lemma PastOdd(skills: seq<real>)
    requires |skills| <= SLOTS
    ensures -1 <= PastZero(skills, 0, 1) <= 1 && (PastZero(skills, 0, 1) != 0 ==> |skills| % 2 == 1)
  {
  }

  lemma OddWithin(total: int, past: int, players: nat)
    requires -past <= total <= 1 - past && (total - players) % 2 == 0
    requires -1 <= past <= 1 && (past != 0 ==> players % 2 == 1)
    ensures -1 <= total <= 1
  {
  }

  lemma TightTotal(skills: seq<real>, sorted: seq<real>)
    requires Dealt(skills, sorted) && forall t :: !Loose(skills, t)
    ensures -1 <= Total(skills, sorted) <= 1
  {
    TotalFrom(skills, sorted, 1, 1);
    WalkTop(skills, sorted, 1, 1);
    PastOdd(skills);
    OddWithin(Total(skills, sorted), PastZero(skills, 0, 1), |skills|);
  }

  /** A loose block of two odd groups. */
  lemma TwoBlock(skills: seq<real>, sorted: seq<real>, t: int, f: nat)
    requires Dealt(skills, sorted) && |OddAt(skills, t)| == 2
    ensures Cut(sorted, t + 1) <= Cut(sorted, t)
    ensures FlipsAt(skills, sorted, t) > 0
    ensures Near(Sum(OddGroups(skills), Block(sorted, t), f), Sgn(f + FlipsAt(skills, sorted, t) - 1))
  {
    var odd, at := OddGroups(skills), OddAt(skills, t);
    var u := Pick(at);
    var v := Pick(at - {u});
    BlockHolds(skills, sorted, t, u);
    BlockHolds(skills, sorted, t, v);
    BlockOdd(skills, sorted, t);
    var b := Block(sorted, t);
    forall x <- b | x in odd
      ensures x == u || x == v
    {
      if x != u {
        OnlyOne(at - {u}, x, v);
      }
    }
    TwoSum(odd, b, u, v, f);
  }

  /** What the lead is without the choice that a loose block leaves. */
  ghost function Base(skills: seq<real>, t: int): int
    requires |skills| <= SLOTS
  {
    (if ZeroShifts(skills) then -Sgn(TurnsAbove(skills, 0)) else 1) - Sgn(TurnsAbove(skills, t))
  }

  /** f flips and a sum of f % 2, then a block of two groups with k flips. */
  lemma DriftOfTwo(f: nat, k: nat, sum: int, above: nat)
    requires k > 0 && k % 2 == 0 && Near(sum, Sgn(f + k - 1)) && f % 2 == above % 2
    ensures Near(f % 2 + sum - (f + k) % 2, -Sgn(above))
  {
    assert (f + k) % 2 == f % 2;
    assert (f + k - 1) % 2 != f % 2;
  }

  /** Down to and including the one loose block. */
  lemma TwoDrift(skills: seq<real>, sorted: seq<real>, t: int, top: int)
    requires Dealt(skills, sorted) && |OddAt(skills, t)| == 2 && (t != 0 || !ZeroShifts(skills)) && top > 0
    requires OnlyLoose(skills, t)
    ensures Near(Drift(skills, sorted, t), -Sgn(TurnsAbove(skills, t)) - PastZero(skills, t + 1, top))
  {
    var f := FlipsTo(skills, sorted, t + 1);
    WalkTop(skills, sorted, t + 1, top);
    BlockAdds(skills, sorted, t);
    TwoBlock(skills, sorted, t, f);
    FlipsParity(skills, sorted, t);
    AllTurn(skills, t);
    AboveParity(skills, sorted, t);
    DriftOfTwo(f, FlipsAt(skills, sorted, t), Sum(OddGroups(skills), Block(sorted, t), f), TurnsAbove(skills, t));
  }

  /** On the way from the top to the bottom zero is passed once. */
  lemma PastOnce(skills: seq<real>, t: int, top: int)
    requires |skills| <= SLOTS && (t != 0 || !ZeroShifts(skills)) && top > 0
    ensures PastZero(skills, t + 1, top) + (if t <= 0 then 0 else PastZero(skills, 0, top)) ==
            if ZeroShifts(skills) then Sgn(TurnsAbove(skills, 0)) else 0
  {
  }

  lemma TotalOfTwo(drift: int, total: int, turn: int, past: int, shifts: bool, players: nat)
    requires (turn == 1 || turn == -1) && if shifts then past == 1 || past == -1 else past == 0
    requires Near(drift, -turn - past) && drift <= total <= drift + 1 && (total - players) % 2 == 0
    requires players % 2 == 1
    ensures Near(total, (if shifts then -past else 1) - turn)
  {
  }

  /** From the top down to the loose block and on to the bottom. */
  lemma TwoBounds(skills: seq<real>, sorted: seq<real>, t: int) returns (drift: int, past: int)
    requires Dealt(skills, sorted) && |OddAt(skills, t)| == 2 && (t != 0 || !ZeroShifts(skills))
    requires OnlyLoose(skills, t)
    ensures past == if ZeroShifts(skills) then Sgn(TurnsAbove(skills, 0)) else 0
    ensures Near(drift, -Sgn(TurnsAbove(skills, t)) - past) && drift <= Total(skills, sorted) <= drift + 1
    ensures (Total(skills, sorted) - |skills|) % 2 == 0
  {
    var top := Max(t, 1);
    var rest := if t <= 0 then 0 else PastZero(skills, 0, top);
    TotalFrom(skills, sorted, t, top);
    TwoDrift(skills, sorted, t, top);
    PastOnce(skills, t, top);
    drift, past := Drift(skills, sorted, t) - rest, PastZero(skills, t + 1, top) + rest;
  }

  lemma BaseIs(skills: seq<real>, t: int, past: int)
    requires |skills| <= SLOTS && past == if ZeroShifts(skills) then Sgn(TurnsAbove(skills, 0)) else 0
    ensures Base(skills, t) == (if ZeroShifts(skills) then -past else 1) - Sgn(TurnsAbove(skills, t))
    ensures if ZeroShifts(skills) then past == 1 || past == -1 else past == 0
  {
  }

  lemma NearBase(base: int, turns: nat, shifts: bool, total: int, drift: int, past: int, players: nat)
    requires base == (if shifts then -past else 1) - Sgn(turns)
    requires if shifts then past == 1 || past == -1 else past == 0
    requires Near(drift, -Sgn(turns) - past) && drift <= total <= drift + 1
    requires (total - players) % 2 == 0 && players % 2 == 1
    ensures Near(total, base)
  {
    TotalOfTwo(drift, total, Sgn(turns), past, shifts, players);
  }

  /** With one loose block of two odd groups the lead is one of two values. */
  lemma TwoTotal(skills: seq<real>, sorted: seq<real>, t: int)
    requires Dealt(skills, sorted) && |OddAt(skills, t)| == 2 && (t != 0 || !ZeroShifts(skills))
    requires OnlyLoose(skills, t) && |skills| % 2 == 1
    ensures Near(Total(skills, sorted), Base(skills, t))
  {
    var drift, past := TwoBounds(skills, sorted, t);
    BaseIs(skills, t, past);
    NearBase(Base(skills, t), TurnsAbove(skills, t), ZeroShifts(skills), Total(skills, sorted), drift, past, |skills|);
  }

  lemma ZeroTwoDrift(f: nat, k: nat, sum: int)
    requires k > 0 && k % 2 == 1 && Near(sum, Sgn(f + k - 1))
    ensures Near(f % 2 + sum - (f + k) % 2, 0)
  {
    assert (f + k - 1) % 2 == f % 2;
  }

  /** Zero shifts and shares its block with one other odd group: that never hurts. */
  lemma ZeroTwoTotal(skills: seq<real>, sorted: seq<real>)
    requires Dealt(skills, sorted) && |OddAt(skills, 0)| == 2 && ZeroShifts(skills) && OnlyLoose(skills, 0)
    ensures -1 <= Total(skills, sorted) <= 1
  {
    var f := FlipsTo(skills, sorted, 1);
    TotalFrom(skills, sorted, 0, 1);
    WalkTop(skills, sorted, 1, 1);
    BlockAdds(skills, sorted, 0);
    TwoBlock(skills, sorted, 0, f);
    ZeroFlips(skills, sorted);
    ZeroTwoDrift(f, FlipsAt(skills, sorted, 0), Sum(OddGroups(skills), Block(sorted, 0), f));
  }

  /** One padding slot: it can move the lead by one only. */
  lemma OnePaddingTotal(skills: seq<real>, sorted: seq<real>)
    requires Dealt(skills, sorted) && OnePadding(skills, 0) && OnlyLoose(skills, 0)
    ensures -1 <= Total(skills, sorted) <= 1
  {
    TotalFrom(skills, sorted, 0, 1);
    WalkTop(skills, sorted, 1, 1);
    BlockAdds(skills, sorted, 0);
    PaddedBlock(skills, sorted, FlipsTo(skills, sorted, 1));
    AlternatingStep(FlipsTo(skills, sorted, 1), FlipsAt(skills, sorted, 0));
  }

  lemma PaddedTimes(skills: seq<real>, sorted: seq<real>, v: real)
    requires Dealt(skills, sorted) && OnePadding(skills, 0) && v in OddGroups(skills)
    ensures Cut(sorted, 1) <= Cut(sorted, 0)
    ensures if v == 0.0 then Times(Block(sorted, 0), v) == 2 else Times(Block(sorted, 0), v) <= 1
  {
    BlockTimes(sorted, 0, v);
    if Whole(v) == 0 {
      assert v in OddAt(skills, 0);
    }
  }

  lemma PaddedBlock(skills: seq<real>, sorted: seq<real>, f: nat)
    requires Dealt(skills, sorted) && OnePadding(skills, 0)
    ensures Cut(sorted, 1) <= Cut(sorted, 0)
    ensures Near(Sum(OddGroups(skills), Block(sorted, 0), f), Alternating(FlipsAt(skills, sorted, 0), f))
  {
    ZeroIn(skills);
    PaddedTimes(skills, sorted, 0.0);
    forall v <- OddGroups(skills) | v != 0.0
      ensures Times(Block(sorted, 0), v) <= 1
    {
      PaddedTimes(skills, sorted, v);
    }
    PairSum(OddGroups(skills), Block(sorted, 0), 0.0, f);
  }

  lemma FairTotal(skills: seq<real>, sorted: seq<real>)
    requires Dealt(skills, sorted) && Fair(skills)
    ensures -1 <= Total(skills, sorted) <= 1
  {
    if forall t :: !Loose(skills, t) {
      TightTotal(skills, sorted);
    } else {
      var t :| Loose(skills, t) && Settles(skills, t) && OnlyLoose(skills, t);
      if OnePadding(skills, t) {
        OnePaddingTotal(skills, sorted);
      } else if t == 0 && ZeroShifts(skills) {
        ZeroTwoTotal(skills, sorted);
      } else {
        TwoTotal(skills, sorted, t);
      }
    }
  }
}
