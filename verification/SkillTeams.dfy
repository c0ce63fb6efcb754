/**
Teams by skill: 32 slots of efficiencies, padded with zeros and sorted; for every slot, every
player whose efficiency equals the slot's joins the current team and the current team flips.
A tie of m players is therefore dealt out m times. std::sort is taken as any arrangement its
comparator permits; the out-of-range part of the source's outer loop is not modelled.
*/
module SkillTeams {
  import opened Players

  const SLOTS: nat := 32

  /** Frags may be negative; the quotient is a number unless they cancel out the deaths. */
  predicate Rated(frags: int, deaths: nat)
  {
    frags != 0 ==> frags + deaths != 0
  }

  /** A player's efficiency: 100 * frags / (frags + deaths), or 0 without frags. */
  function Efficiency(frags: int, deaths: nat): (e: real)
    requires Rated(frags, deaths)
    ensures frags >= 0 ==> 0.0 <= e <= 100.0
    ensures e == 0.0 <==> frags == 0
  {
    if frags != 0 then
      EfficiencyRange(frags as real, deaths as real);
      100.0 * frags as real / (frags + deaths) as real
    else 0.0
  }

  ghost predicate AllRated(frags: seq<int>, deaths: seq<nat>)
    requires |frags| == |deaths|
  {
    forall i :: 0 <= i < |frags| ==> Rated(frags[i], deaths[i])
  }

  ghost function Efficiencies(frags: seq<int>, deaths: seq<nat>): (skills: seq<real>)
    requires |frags| == |deaths| && AllRated(frags, deaths)
    ensures |skills| == |frags|
    ensures (forall i :: 0 <= i < |frags| ==> frags[i] >= 0) ==> NonNegative(skills)
  {
    seq(|frags|, i requires 0 <= i < |frags| => Efficiency(frags[i], deaths[i]))
  }

  lemma EfficiencyRange(f: real, d: real)
    requires f != 0.0 && d >= 0.0 && f + d != 0.0
    ensures 100.0 * f / (f + d) != 0.0
    ensures f > 0.0 ==> 0.0 < 100.0 * f / (f + d) <= 100.0
  {
    var q := 100.0 * f / (f + d);
    assert q * (f + d) == 100.0 * f;
    if f > 0.0 {
      if q <= 0.0 {
        NonPositive(q, f + d);
      }
      if q > 100.0 {
        Larger(q, f + d);
      }
    }
  }

  lemma NonPositive(q: real, s: real)
    requires q <= 0.0 && s > 0.0
    ensures q * s <= 0.0
  {
  }

  lemma Larger(q: real, s: real)
    requires q > 100.0 && s > 0.0
    ensures q * s > 100.0 * s
  {
  }

  lemma TimesKeepsOrder(p: real, q: real, t: real)
    requires t > 0.0
    ensures p < q <==> p * t < q * t
  {
  }

  lemma Ratio(f: int, d: int)
    requires f > 0 && d >= 0
    ensures var q := 100.0 * f as real / (f + d) as real; q * (f + d) as real == 100.0 * f as real
  {
  }

  lemma RealProducts(a: int, b: int, c: int, d: int)
    ensures a as real * b as real < c as real * d as real <==> a * b < c * d
  {
    assert (a * b) as real == a as real * b as real && (c * d) as real == c as real * d as real;
  }

  /** With frags, who has the better ratio of frags to deaths has the higher efficiency; 100 is for
      those without deaths. */
  lemma EfficiencyOrder(f: nat, d: nat, f': nat, d': nat)
    requires f > 0 && f' > 0
    ensures Efficiency(f, d) < Efficiency(f', d') <==> f * d' < f' * d
    ensures Efficiency(f, d) == 100.0 <==> d == 0
  {
    var p, q, s, s' := Efficiency(f, d), Efficiency(f', d'), (f + d) as real, (f' + d') as real;
    Ratio(f, d);
    Ratio(f', d');
    TimesKeepsOrder(p, q, s * s');
    assert p * (s * s') == 100.0 * f as real * s' && q * (s * s') == 100.0 * f' as real * s;
    RealProducts(f, f' + d', f', f + d);
    assert f * (f' + d') == f * f' + f * d' && f' * (f + d) == f' * f + f' * d;
    Hundred(p, f, d);
  }

  lemma Hundred(p: real, f: nat, d: nat)
    requires f > 0 && p * (f + d) as real == 100.0 * f as real
    ensures p == 100.0 <==> d == 0
  {
    var n, s := f as real, (f + d) as real;
    assert s == n + d as real;
    if d == 0 {
      TimesKeepsOrder(p, 100.0, n);
      TimesKeepsOrder(100.0, p, n);
    }
  }

  // ---------- the draft ----------

  /** How often v occurs. */
  function Count(s: seq<real>, v: real): nat
  {
    if s == [] then 0 else Count(s[..|s| - 1], v) + (if s[|s| - 1] == v then 1 else 0)
  }

  /** The place of player j among those of the same efficiency. */
  function Rank(skills: seq<real>, j: nat): nat
    requires j < |skills|
  {
    Count(skills[..j], skills[j])
  }

  datatype Deal = Deal(teams: seq<Team>, current: Team)

  /** The inner loop over the first j players, for a slot that holds v. */
  function DealSlot(skills: seq<real>, v: real, d: Deal, j: nat): (r: Deal)
    requires j <= |skills| == |d.teams|
    ensures |r.teams| == |skills|
  {
    if j == 0 then d
    else
      var before := DealSlot(skills, v, d, j - 1);
      if skills[j - 1] == v then Deal(before.teams[j - 1 := before.current], before.current.Flip()) else before
  }

  /** The outer loop over the first i slots. */
  function DealTo(skills: seq<real>, sorted: seq<real>, d: Deal, i: nat): (r: Deal)
    requires |skills| == |d.teams| && i <= |sorted|
    ensures |r.teams| == |skills|
  {
    if i == 0 then d else DealSlot(skills, sorted[i - 1], DealTo(skills, sorted, d, i - 1), |skills|)
  }

  /** The teams after the whole draft. */
  function Drafted(skills: seq<real>, sorted: seq<real>, d: Deal): (teams: seq<Team>)
    requires |skills| == |d.teams|
    ensures |teams| == |skills|
  {
    DealTo(skills, sorted, d, |sorted|).teams
  }

  /** The flips made by the first i slots. */
  function Flips(skills: seq<real>, sorted: seq<real>, i: nat): nat
    requires i <= |sorted|
  {
    if i == 0 then 0 else Flips(skills, sorted, i - 1) + Count(skills, sorted[i - 1])
  }

  // ---------- the method ----------

  /** The current team of each listed player. */
  ghost predicate Reflects(team: map<Slot, Team>, players: seq<Slot>, teams: seq<Team>)
    requires |players| == |teams|
  {
    forall j :: 0 <= j < |players| ==> players[j] in team && team[players[j]] == teams[j]
  }

  /** The double loop: for every slot of the sorted array the players with its efficiency. */
  method Deals(list: PlayerList, players: seq<Slot>, skills: array<real>, sorted: array<real>, first: Team,
               ghost teams: seq<Team>)
    requires |players| == |teams| <= skills.Length && first.Playing()
    requires forall i, j :: 0 <= i < j < |players| ==> players[i] != players[j]
    requires Reflects(list.team, players, teams)
    modifies list
    ensures Reflects(list.team, players, Drafted(skills[..|players|], sorted[..], Deal(teams, first)))
  {
    var team := first;
    ghost var start, s, order := Deal(teams, first), skills[..|players|], sorted[..];
    for i := 0 to sorted.Length
      invariant skills[..|players|] == s && sorted[..] == order
      invariant team == DealTo(s, order, start, i).current
      invariant Reflects(list.team, players, DealTo(s, order, start, i).teams)
    {
      ghost var slot := DealTo(s, order, start, i);
      for j := 0 to |players|
        invariant skills[..|players|] == s && sorted[..] == order
        invariant team == DealSlot(s, order[i], slot, j).current
        invariant Reflects(list.team, players, DealSlot(s, order[i], slot, j).teams)
      {
        assert skills[j] == s[j] && sorted[i] == order[i];
        if skills[j] == sorted[i] {
          list.JoinTeam(players[j], team);
          team := team.Flip();
        }
      }
    }
  }

  /** std::sort: of the orders it may leave, this is the one it leaves. */
  method Sort(a: array<real>, order: seq<real>)
    requires SortOutput(a[..], order)
    modifies a
    ensures a[..] == order
  {
    SameLength(a[..], order);
    for i := 0 to a.Length
      invariant a[..i] == order[..i]
    {
      a[i] := order[i];
    }
  }

  lemma SameLength(x: seq<real>, y: seq<real>)
    requires multiset(x) == multiset(y)
    ensures |x| == |y|
  {
    assert |multiset(x)| == |x| && |multiset(y)| == |y|;
  }

  /** Both arrays hold the efficiencies, filled up with zeros. */
  method Fill(skills: array<real>, sorted: array<real>, frags: seq<int>, deaths: seq<nat>)
    requires skills != sorted && skills.Length == sorted.Length == SLOTS && |frags| == |deaths| <= SLOTS
    requires AllRated(frags, deaths)
    requires forall k :: 0 <= k < SLOTS ==> skills[k] == 0.0 && sorted[k] == 0.0
    modifies skills, sorted
    ensures skills[..] == sorted[..] == Padded(Efficiencies(frags, deaths))
  {
    ghost var all := Efficiencies(frags, deaths);
    for i := 0 to |frags|
      invariant forall k :: 0 <= k < SLOTS ==> skills[k] == sorted[k] == if k < i then all[k] else 0.0
    {
      skills[i] := Efficiency(frags[i], deaths[i]);
      sorted[i] := skills[i];
    }
    assert skills[..] == Padded(all) && sorted[..] == Padded(all);
  }

  /** Players, their frags and deaths, and the order std::sort leaves of their efficiencies. */
  method TeamsOptimize(list: PlayerList, players: seq<Slot>, frags: seq<int>, deaths: seq<nat>, order: seq<real>,
                       first: Team, ghost teams: seq<Team>)
    requires |players| == |frags| == |deaths| == |teams| <= SLOTS && first.Playing()
    requires forall i, j :: 0 <= i < j < |players| ==> players[i] != players[j]
    requires Reflects(list.team, players, teams)
    requires AllRated(frags, deaths) && SortOutput(Padded(Efficiencies(frags, deaths)), order)
    modifies list
    ensures Reflects(list.team, players, Drafted(Efficiencies(frags, deaths), order, Deal(teams, first)))
  {
    var skills := new real[SLOTS](_ => 0.0);
    var sorted := new real[SLOTS](_ => 0.0);
    Fill(skills, sorted, frags, deaths);
    Sort(sorted, order);
    FrontOfPadded(skills[..], Efficiencies(frags, deaths));
    assert skills[..|players|] == skills[..][..|players|];
    Deals(list, players, skills, sorted, first, teams);
  }

  lemma FrontOfPadded(all: seq<real>, skills: seq<real>)
    requires |skills| <= SLOTS && all == Padded(skills)
    ensures all[..|skills|] == skills
  {
  }

  // ---------- what the draft computes ----------

  lemma AlternateAdd(first: Team, m: nat, n: nat)
    requires first.Playing()
    ensures Alternate(Alternate(first, m), n) == Alternate(first, m + n)
  {
    assert (m + n) % 2 == ((m % 2) + (n % 2)) % 2;
  }

  lemma {:induction false} SlotDeals(skills: seq<real>, v: real, d: Deal, j: nat)
    requires j <= |skills| == |d.teams| && d.current.Playing()
    ensures var r := DealSlot(skills, v, d, j);
            && r.current == Alternate(d.current, Count(skills[..j], v))
            && forall k :: 0 <= k < |skills| ==>
                 r.teams[k] == if k < j && skills[k] == v then Alternate(d.current, Rank(skills, k)) else d.teams[k]
  {
    if j > 0 {
      SlotDeals(skills, v, d, j - 1);
      assert skills[..j][..j - 1] == skills[..j - 1];
      AlternateNext(d.current, Count(skills[..j - 1], v));
    }
  }

  /** The last of the first i slots that holds v; i if none does. */
  function LastSlot(sorted: seq<real>, v: real, i: nat): (l: nat)
    requires i <= |sorted|
    ensures l <= i
    ensures l < i ==> sorted[l] == v && forall t :: l < t < i ==> sorted[t] != v
    ensures l == i ==> forall t :: 0 <= t < i ==> sorted[t] != v
  {
    if i == 0 then 0
    else if sorted[i - 1] == v then i - 1
    else
      var l := LastSlot(sorted, v, i - 1);
      if l == i - 1 then i else l
  }

  /** Player k after the first i slots. */
  predicate Placed(skills: seq<real>, sorted: seq<real>, d: Deal, i: nat, k: nat, t: Team)
    requires |skills| == |d.teams| && i <= |sorted| && d.current.Playing() && k < |skills|
  {
    var l := LastSlot(sorted, skills[k], i);
    t == if l < i then Alternate(d.current, Flips(skills, sorted, l) + Rank(skills, k)) else d.teams[k]
  }

  lemma PlacedHit(skills: seq<real>, sorted: seq<real>, d: Deal, i: nat, k: nat, current: Team)
    requires |skills| == |d.teams| && 0 < i <= |sorted| && d.current.Playing() && k < |skills|
    requires skills[k] == sorted[i - 1] && current == Alternate(d.current, Flips(skills, sorted, i - 1))
    ensures Placed(skills, sorted, d, i, k, Alternate(current, Rank(skills, k)))
  {
    assert LastSlot(sorted, skills[k], i) == i - 1;
    AlternateAdd(d.current, Flips(skills, sorted, i - 1), Rank(skills, k));
  }

  lemma PlacedMiss(skills: seq<real>, sorted: seq<real>, d: Deal, i: nat, k: nat, t: Team)
    requires |skills| == |d.teams| && 0 < i <= |sorted| && d.current.Playing() && k < |skills|
    requires skills[k] != sorted[i - 1] && Placed(skills, sorted, d, i - 1, k, t)
    ensures Placed(skills, sorted, d, i, k, t)
  {
  }

  lemma PlacedStep(skills: seq<real>, sorted: seq<real>, d: Deal, i: nat, k: nat, current: Team, t: Team, t': Team)
    requires |skills| == |d.teams| && 0 < i <= |sorted| && d.current.Playing() && k < |skills|
    requires current == Alternate(d.current, Flips(skills, sorted, i - 1))
    requires Placed(skills, sorted, d, i - 1, k, t)
    requires t' == if skills[k] == sorted[i - 1] then Alternate(current, Rank(skills, k)) else t
    ensures Placed(skills, sorted, d, i, k, t')
  {
    if skills[k] == sorted[i - 1] {
      PlacedHit(skills, sorted, d, i, k, current);
    } else {
      PlacedMiss(skills, sorted, d, i, k, t);
    }
  }

  /** Everyone is placed by the first i slots, and the current team is that of the flips made. */
  ghost predicate PlacedAll(skills: seq<real>, sorted: seq<real>, d: Deal, i: nat)
    requires |skills| == |d.teams| && i <= |sorted| && d.current.Playing()
  {
    var r := DealTo(skills, sorted, d, i);
    && r.current == Alternate(d.current, Flips(skills, sorted, i))
    && forall k :: 0 <= k < |skills| ==> Placed(skills, sorted, d, i, k, r.teams[k])
  }

  /** One slot: who joins, and the current team after it. */
  lemma SlotStep(skills: seq<real>, sorted: seq<real>, d: Deal, i: nat, k: nat)
    requires |skills| == |d.teams| && 0 < i <= |sorted| && d.current.Playing() && k < |skills|
    requires DealTo(skills, sorted, d, i - 1).current.Playing()
    ensures var before, after := DealTo(skills, sorted, d, i - 1), DealTo(skills, sorted, d, i);
            && after.current == Alternate(before.current, Count(skills, sorted[i - 1]))
            && after.teams[k] ==
               if skills[k] == sorted[i - 1] then Alternate(before.current, Rank(skills, k)) else before.teams[k]
  {
    SlotDeals(skills, sorted[i - 1], DealTo(skills, sorted, d, i - 1), |skills|);
    assert skills[..|skills|] == skills;
  }

  lemma PlayerStep(skills: seq<real>, sorted: seq<real>, d: Deal, i: nat, k: nat)
    requires |skills| == |d.teams| && 0 < i <= |sorted| && d.current.Playing() && k < |skills|
    requires PlacedAll(skills, sorted, d, i - 1)
    ensures Placed(skills, sorted, d, i, k, DealTo(skills, sorted, d, i).teams[k])
  {
    var before, after := DealTo(skills, sorted, d, i - 1), DealTo(skills, sorted, d, i);
    SlotStep(skills, sorted, d, i, k);
    PlacedStep(skills, sorted, d, i, k, before.current, before.teams[k], after.teams[k]);
  }

  lemma CurrentStep(skills: seq<real>, sorted: seq<real>, d: Deal, i: nat)
    requires |skills| == |d.teams| && 0 < i <= |sorted| && d.current.Playing()
    requires DealTo(skills, sorted, d, i - 1).current == Alternate(d.current, Flips(skills, sorted, i - 1))
    ensures DealTo(skills, sorted, d, i).current == Alternate(d.current, Flips(skills, sorted, i))
  {
    SlotDeals(skills, sorted[i - 1], DealTo(skills, sorted, d, i - 1), |skills|);
    assert skills[..|skills|] == skills;
    AlternateAdd(d.current, Flips(skills, sorted, i - 1), Count(skills, sorted[i - 1]));
  }

  lemma DraftStep(skills: seq<real>, sorted: seq<real>, d: Deal, i: nat)
    requires |skills| == |d.teams| && 0 < i <= |sorted| && d.current.Playing()
    requires PlacedAll(skills, sorted, d, i - 1)
    ensures PlacedAll(skills, sorted, d, i)
  {
    CurrentStep(skills, sorted, d, i);
    forall k | 0 <= k < |skills|
      ensures Placed(skills, sorted, d, i, k, DealTo(skills, sorted, d, i).teams[k])
    {
      PlayerStep(skills, sorted, d, i, k);
    }
  }

  /** Where every player ends up: on the team of its rank, counted from the flips made before
      the last slot that holds its efficiency. No assumption on the order of the slots. */
  lemma {:induction false} DraftResult(skills: seq<real>, sorted: seq<real>, d: Deal, i: nat)
    requires |skills| == |d.teams| && i <= |sorted| && d.current.Playing()
    ensures PlacedAll(skills, sorted, d, i)
  {
    if i > 0 {
      DraftResult(skills, sorted, d, i - 1);
      DraftStep(skills, sorted, d, i);
    }
  }

  // ---------- what std::sort may produce ----------

  /** The comparator takes its arguments as integers: it looks at the integer parts only. */
  function Whole(x: real): int
  {
    if x >= 0.0 then x.Floor else -((-x).Floor)
  }

  /** The fraction is dropped on both sides of zero: all efficiencies between -1 and 1 look alike,
      and a negative one looks like the positive one of the same size, negated. */
  lemma WholeTruncates(x: real, y: real)
    ensures Whole(-x) == -Whole(x)
    ensures x >= 0.0 ==> Whole(x) as real <= x < Whole(x) as real + 1.0
    ensures Whole(x) == 0 <==> -1.0 < x < 1.0
    ensures x <= y ==> Whole(x) <= Whole(y)
  {
  }

  ghost predicate NonNegative(s: seq<real>)
  {
    forall i :: 0 <= i < |s| ==> s[i] >= 0.0
  }

  /** The efficiencies, filled up with zeros to 32 slots. */
  function Padded(skills: seq<real>): (p: seq<real>)
    requires |skills| <= SLOTS
    ensures |p| == SLOTS
    ensures NonNegative(skills) ==> NonNegative(p)
  {
    skills + seq(SLOTS - |skills|, _ => 0.0)
  }

  ghost predicate Descending(s: seq<real>)
  {
    forall i, j :: 0 <= i < j < |s| ==> Whole(s[i]) >= Whole(s[j])
  }

  ghost predicate SortOutput(all: seq<real>, sorted: seq<real>)
  {
    multiset(sorted) == multiset(all) && Descending(sorted)
  }

  /** Everything from place i to place k is the same. */
  ghost predicate Constant(s: seq<real>, i: nat, k: nat)
    requires i < k < |s|
  {
    forall j :: i < j < k ==> s[j] == s[i]
  }

  /** Equal values stand next to each other. */
  ghost predicate Adjacent(s: seq<real>)
  {
    forall i, k :: 0 <= i < k < |s| && s[i] == s[k] ==> Constant(s, i, k)
  }

  predicate TieApart(all: seq<real>, i: nat, j: nat, k: nat)
    requires i < |all| && j < |all| && k < |all|
  {
    all[i] == all[k] && Whole(all[j]) == Whole(all[i]) ==> all[j] == all[i]
  }

  /** No value that occurs twice shares its integer part with another value. */
  ghost predicate TiesApart(all: seq<real>)
  {
    forall i, j, k | 0 <= i < |all| && 0 <= j < |all| && 0 <= k < |all| && i != k :: TieApart(all, i, j, k)
  }
}
