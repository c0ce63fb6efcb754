/**
What the skill draft promises when equal efficiencies stand next to each other: a tie that is
dealt once for each of its players ends as if dealt once, and the teams are of equal size or
differ by one.
*/
module SkillLaws {
  import opened Players
  import opened SkillTeams

  // ---------- runs ----------

  lemma {:induction false} CountAppend(x: seq<real>, y: seq<real>, v: real)
    ensures Count(x + y, v) == Count(x, v) + Count(y, v)
  {
    if y == [] {
      assert x + y == x;
    } else {
      assert (x + y)[..|x + y| - 1] == x + y[..|y| - 1];
      CountAppend(x, y[..|y| - 1], v);
    }
  }

  lemma {:induction false} CountMultiset(s: seq<real>, v: real)
    ensures Count(s, v) == multiset(s)[v]
  {
    if s != [] {
      CountMultiset(s[..|s| - 1], v);
      assert s == s[..|s| - 1] + [s[|s| - 1]];
    }
  }

  lemma {:induction false} CountZeros(n: nat, v: real)
    ensures Count(seq(n, _ => 0.0), v) == if v == 0.0 then n else 0
  {
    var s: seq<real> := seq(n, _ => 0.0);
    if n > 0 {
      assert s[..n - 1] == seq(n - 1, _ => 0.0);
      CountZeros(n - 1, v);
    }
  }

  lemma PaddedCount(skills: seq<real>, v: real)
    requires |skills| <= SLOTS
    ensures Count(Padded(skills), v) == Count(skills, v) + (if v == 0.0 then SLOTS - |skills| else 0)
  {
    var zeros: seq<real> := seq(SLOTS - |skills|, _ => 0.0);
    CountAppend(skills, zeros, v);
    CountZeros(SLOTS - |skills|, v);
    assert Padded(skills) == skills + zeros;
  }

  lemma SameCount(s: seq<real>, t: seq<real>, v: real)
    requires multiset(s) == multiset(t)
    ensures Count(s, v) == Count(t, v)
  {
    CountMultiset(s, v);
    CountMultiset(t, v);
  }

  /** Each slot value occurs as often as players have it, zero more often. */
  lemma SortedCount(skills: seq<real>, sorted: seq<real>, v: real)
    requires |skills| <= SLOTS && multiset(sorted) == multiset(Padded(skills))
    ensures Count(sorted, v) == Count(skills, v) + (if v == 0.0 then SLOTS - |skills| else 0)
  {
    SameCount(sorted, Padded(skills), v);
    PaddedCount(skills, v);
  }

  /** What the slots hold: the efficiencies and zeros up to 32. */
  ghost predicate Fills(skills: seq<real>, sorted: seq<real>)
    requires |skills| <= SLOTS
  {
    forall v: real :: Count(sorted, v) == Count(skills, v) + (if v == 0.0 then SLOTS - |skills| else 0)
  }

  lemma SortedFills(skills: seq<real>, sorted: seq<real>)
    requires |skills| <= SLOTS && multiset(sorted) == multiset(Padded(skills))
    ensures Fills(skills, sorted)
  {
    forall v: real
      ensures Count(sorted, v) == Count(skills, v) + (if v == 0.0 then SLOTS - |skills| else 0)
    {
      SortedCount(skills, sorted, v);
    }
  }

  /** The slots from lo up to hi all hold v and no others do. */
  ghost predicate IsRun(sorted: seq<real>, v: real, lo: nat, hi: nat)
  {
    lo < hi <= |sorted| && forall t :: 0 <= t < |sorted| ==> (sorted[t] == v <==> lo <= t < hi)
  }

  lemma {:induction false} RunCount(sorted: seq<real>, v: real, lo: nat, hi: nat, i: nat)
    requires lo <= hi <= |sorted| && i <= |sorted|
    requires forall t :: 0 <= t < |sorted| ==> (sorted[t] == v <==> lo <= t < hi)
    ensures Count(sorted[..i], v) == if i <= lo then 0 else if i <= hi then i - lo else hi - lo
  {
    if i > 0 {
      assert sorted[..i][..i - 1] == sorted[..i - 1];
      RunCount(sorted, v, lo, hi, i - 1);
    }
  }

  /** What n slots of a group of m players flip, up to an even number. */
  function Turns(m: nat, n: nat): nat
  {
    if m % 2 == 0 then 0 else n
  }

  lemma OneTurn(f: nat, g: nat, m: nat, n: nat)
    requires n > 0 && g % 2 == (f + Turns(m, n - 1)) % 2
    ensures (g + m) % 2 == (f + Turns(m, n)) % 2
  {
  }

  lemma {:induction false} RunFlips(skills: seq<real>, sorted: seq<real>, v: real, lo: nat, n: nat, m: nat)
    requires lo + n <= |sorted| && m == Count(skills, v)
    requires forall t :: lo <= t < lo + n ==> sorted[t] == v
    ensures Flips(skills, sorted, lo + n) % 2 == (Flips(skills, sorted, lo) + Turns(m, n)) % 2
  {
    if n > 0 {
      RunFlips(skills, sorted, v, lo, n - 1, m);
      OneTurn(Flips(skills, sorted, lo), Flips(skills, sorted, lo + n - 1), m, n);
      assert sorted[lo + n - 1] == v;
    }
  }

  lemma AlternateShift(first: Team, m: nat, n: nat, k: nat)
    requires first.Playing() && m % 2 == n % 2
    ensures Alternate(first, m + k) == Alternate(first, n + k)
  {
  }

  // ---------- ties ----------

  /** A run deals its group once per slot; only the last time counts. */
  lemma GroupResult(skills: seq<real>, sorted: seq<real>, d: Deal, v: real, lo: nat, hi: nat, k: nat)
    requires |skills| == |d.teams| && d.current.Playing() && k < |skills| && skills[k] == v
    requires IsRun(sorted, v, lo, hi)
    ensures Drafted(skills, sorted, d)[k] == Alternate(d.current, Flips(skills, sorted, hi - 1) + Rank(skills, k))
  {
    DraftResult(skills, sorted, d, |sorted|);
    var l := LastSlot(sorted, v, |sorted|);
    assert sorted[hi - 1] == v;
    assert l < |sorted| && sorted[l] == v;
    assert l == hi - 1;
    assert Placed(skills, sorted, d, |sorted|, k, Drafted(skills, sorted, d)[k]);
  }

  /** A run of a nonzero efficiency is as long as its group. */
  lemma RunLength(skills: seq<real>, sorted: seq<real>, v: real, lo: nat, hi: nat)
    requires |skills| <= SLOTS && Fills(skills, sorted) && IsRun(sorted, v, lo, hi)
    ensures hi - lo == Count(skills, v) + (if v == 0.0 then SLOTS - |skills| else 0)
  {
    RunCount(sorted, v, lo, hi, |sorted|);
    assert sorted[..|sorted|] == sorted;
  }

  /** A tie of m players is dealt m times, yet ends exactly as if it had been dealt once. */
  lemma TieAsDealtOnce(skills: seq<real>, sorted: seq<real>, d: Deal, v: real, lo: nat, hi: nat, k: nat)
    requires |skills| == |d.teams| <= SLOTS && d.current.Playing() && k < |skills| && skills[k] == v
    requires multiset(sorted) == multiset(Padded(skills)) && IsRun(sorted, v, lo, hi) && v != 0.0
    ensures Drafted(skills, sorted, d)[k] == Alternate(d.current, Flips(skills, sorted, lo) + Rank(skills, k))
  {
    SortedFills(skills, sorted);
    TieOnce(skills, sorted, d, v, lo, hi, k);
  }

  lemma TieOnce(skills: seq<real>, sorted: seq<real>, d: Deal, v: real, lo: nat, hi: nat, k: nat)
    requires |skills| == |d.teams| <= SLOTS && d.current.Playing() && k < |skills| && skills[k] == v
    requires Fills(skills, sorted) && IsRun(sorted, v, lo, hi) && v != 0.0
    ensures Drafted(skills, sorted, d)[k] == Alternate(d.current, Flips(skills, sorted, lo) + Rank(skills, k))
  {
    GroupResult(skills, sorted, d, v, lo, hi, k);
    RunLength(skills, sorted, v, lo, hi);
    SameParity(skills, sorted, v, lo, hi);
    AlternateShift(d.current, Flips(skills, sorted, hi - 1), Flips(skills, sorted, lo), Rank(skills, k));
  }

  /** Dealing m players m - 1 times flips an even number of times. */
  lemma SameParity(skills: seq<real>, sorted: seq<real>, v: real, lo: nat, hi: nat)
    requires lo < hi <= |sorted| && hi - lo == Count(skills, v)
    requires forall t :: lo <= t < hi ==> sorted[t] == v
    ensures Flips(skills, sorted, hi - 1) % 2 == Flips(skills, sorted, lo) % 2
  {
    var m := Count(skills, v);
    RunFlips(skills, sorted, v, lo, m - 1, m);
  }

  // ---------- the order of a single pass ----------

  /** How many players have an efficiency that occurs in vs. */
  function CountIn(skills: seq<real>, vs: seq<real>): nat
  {
    if skills == [] then 0
    else CountIn(skills[..|skills| - 1], vs) + (if skills[|skills| - 1] in vs then 1 else 0)
  }

  lemma {:induction false} CountInRun(skills: seq<real>, before: seq<real>, after: seq<real>, v: real)
    requires v !in before && v in after && forall u :: u in after <==> u in before || u == v
    ensures CountIn(skills, after) == CountIn(skills, before) + Count(skills, v)
  {
    if skills != [] {
      CountInRun(skills[..|skills| - 1], before, after, v);
    }
  }

  lemma {:induction false} CountInNone(skills: seq<real>)
    ensures CountIn(skills, []) == 0
  {
    if skills != [] {
      CountInNone(skills[..|skills| - 1]);
    }
  }

  /** The slots up to lo end a run. */
  ghost predicate Boundary(sorted: seq<real>, lo: nat)
  {
    lo <= |sorted| && (0 < lo < |sorted| ==> sorted[lo - 1] != sorted[lo])
  }

  lemma AdjacentAt(s: seq<real>, i: nat, j: nat, k: nat)
    requires Adjacent(s) && i < j < k < |s|
    ensures s[i] == s[k] ==> s[j] == s[i]
  {
    assert s[i] == s[k] ==> Constant(s, i, k);
  }

  /** The run that ends at hi. */
  lemma RunBefore(sorted: seq<real>, hi: nat) returns (lo: nat)
    requires Adjacent(sorted) && 0 < hi && Boundary(sorted, hi)
    ensures lo < hi && IsRun(sorted, sorted[hi - 1], lo, hi) && Boundary(sorted, lo)
  {
    var v := sorted[hi - 1];
    lo := hi - 1;
    while lo > 0 && sorted[lo - 1] == v
      invariant 0 <= lo < hi && forall t :: lo <= t < hi ==> sorted[t] == v
    {
      lo := lo - 1;
    }
    forall t | 0 <= t < |sorted|
      ensures sorted[t] == v <==> lo <= t < hi
    {
      if t < lo - 1 {
        AdjacentAt(sorted, t, lo - 1, lo);
      }
      if hi < t {
        AdjacentAt(sorted, hi - 1, hi, t);
      }
    }
  }

  lemma PrefixOfRun(sorted: seq<real>, v: real, lo: nat, hi: nat)
    requires IsRun(sorted, v, lo, hi)
    ensures v !in sorted[..lo] && v in sorted[..hi]
    ensures forall u :: u in sorted[..hi] <==> u in sorted[..lo] || u == v
  {
    assert sorted[..hi][lo] == v;
    assert sorted[..hi] == sorted[..lo] + sorted[lo..hi];
    assert forall u :: u in sorted[lo..hi] ==> u == v;
  }

  /** The run of a nonzero efficiency, with as many slots as players. */
  lemma OwnRun(skills: seq<real>, sorted: seq<real>, v: real, from: nat, lo: nat)
    requires |skills| <= SLOTS && Fills(skills, sorted) && IsRun(sorted, v, from, lo) && v != 0.0
    ensures var m := Count(skills, v);
            Flips(skills, sorted, lo) % 2 == (Flips(skills, sorted, from) + Turns(m, m)) % 2
  {
    RunLength(skills, sorted, v, from, lo);
    RunFlips(skills, sorted, v, from, lo - from, Count(skills, v));
  }

  /** Before any zero slot, the flips made are as odd or even as the players passed. */
  lemma {:induction false} FlipsCountPlayers(skills: seq<real>, sorted: seq<real>, lo: nat)
    requires |skills| <= SLOTS && Fills(skills, sorted) && Adjacent(sorted)
    requires Boundary(sorted, lo) && 0.0 !in sorted[..lo]
    ensures Flips(skills, sorted, lo) % 2 == CountIn(skills, sorted[..lo]) % 2
    decreases lo
  {
    if lo == 0 {
      CountInNone(skills);
      assert sorted[..0] == [];
    } else {
      var v := sorted[lo - 1];
      var from := RunBefore(sorted, lo);
      PrefixOfRun(sorted, v, from, lo);
      FlipsCountPlayers(skills, sorted, from);
      CountInRun(skills, sorted[..from], sorted[..lo], v);
      OwnRun(skills, sorted, v, from, lo);
      OwnTurns(Flips(skills, sorted, from), CountIn(skills, sorted[..from]), Count(skills, v),
               Flips(skills, sorted, lo), CountIn(skills, sorted[..lo]));
    }
  }

  /** m slots for m players make as odd or even a number of flips as there are players. */
  lemma OwnTurns(flips: nat, players: nat, m: nat, flips': nat, players': nat)
    requires flips % 2 == players % 2 && flips' % 2 == (flips + Turns(m, m)) % 2 && players' == players + m
    ensures flips' % 2 == players' % 2
  {
  }

  lemma PlayersPassed(skills: seq<real>, sorted: seq<real>, v: real, lo: nat, hi: nat)
    requires |skills| <= SLOTS && Fills(skills, sorted) && Adjacent(sorted)
    requires IsRun(sorted, v, lo, hi) && 0.0 !in sorted[..lo]
    ensures Flips(skills, sorted, lo) % 2 == CountIn(skills, sorted[..lo]) % 2
  {
    assert Boundary(sorted, lo);
    FlipsCountPlayers(skills, sorted, lo);
  }

  lemma SameTeam(t: Team, first: Team, m: nat, n: nat, k: nat)
    requires first.Playing() && m % 2 == n % 2 && t == Alternate(first, m + k)
    ensures t == Alternate(first, n + k)
  {
    AlternateShift(first, m, n, k);
  }

  lemma TieInPass(skills: seq<real>, sorted: seq<real>, d: Deal, k: nat, v: real, lo: nat, hi: nat)
    requires |skills| == |d.teams| <= SLOTS && d.current.Playing() && k < |skills| && skills[k] == v
    requires Fills(skills, sorted) && Adjacent(sorted)
    requires IsRun(sorted, v, lo, hi) && v != 0.0 && 0.0 !in sorted[..lo]
    ensures Drafted(skills, sorted, d)[k] == Alternate(d.current, CountIn(skills, sorted[..lo]) + Rank(skills, k))
  {
    TieOnce(skills, sorted, d, v, lo, hi, k);
    PlayersPassed(skills, sorted, v, lo, hi);
    SameTeam(Drafted(skills, sorted, d)[k], d.current, Flips(skills, sorted, lo), CountIn(skills, sorted[..lo]),
             Rank(skills, k));
  }

  /** A tie group whose slots come before every zero slot is dealt exactly as in one alternating
      pass over the players in the order of the slots. */
  lemma TieAsInSinglePass(skills: seq<real>, sorted: seq<real>, d: Deal, k: nat, lo: nat, hi: nat)
    requires |skills| == |d.teams| <= SLOTS && d.current.Playing() && k < |skills|
    requires SortOutput(Padded(skills), sorted) && Adjacent(sorted)
    requires IsRun(sorted, skills[k], lo, hi) && skills[k] != 0.0 && 0.0 !in sorted[..lo]
    ensures Drafted(skills, sorted, d)[k] ==
            Alternate(d.current, CountIn(skills, sorted[..lo]) + Rank(skills, k))
  {
    SortedFills(skills, sorted);
    TieInPass(skills, sorted, d, k, skills[k], lo, hi);
  }

  // ---------- team sizes ----------

  function Sign(first: Team, t: Team): int
  {
    if t == first then 1 else -1
  }

  /** Players on the first team less players on the other, among those with efficiency in vs. */
  function Lead(skills: seq<real>, teams: seq<Team>, first: Team, vs: seq<real>): int
    requires |skills| == |teams|
  {
    if skills == [] then 0
    else
      var n := |skills| - 1;
      Lead(skills[..n], teams[..n], first, vs) + (if skills[n] in vs then Sign(first, teams[n]) else 0)
  }

  /** The lead within one tie group. */
  function GroupLead(skills: seq<real>, teams: seq<Team>, first: Team, v: real): int
    requires |skills| == |teams|
  {
    if skills == [] then 0
    else
      var n := |skills| - 1;
      GroupLead(skills[..n], teams[..n], first, v) + (if skills[n] == v then Sign(first, teams[n]) else 0)
  }

  lemma {:induction false} LeadRun(skills: seq<real>, teams: seq<Team>, first: Team,
                                   before: seq<real>, after: seq<real>, v: real)
    requires |skills| == |teams|
    requires v !in before && v in after && forall u :: u in after <==> u in before || u == v
    ensures Lead(skills, teams, first, after) == Lead(skills, teams, first, before) + GroupLead(skills, teams, first, v)
  {
    if skills != [] {
      var n := |skills| - 1;
      LeadRun(skills[..n], teams[..n], first, before, after, v);
    }
  }

  lemma {:induction false} LeadNone(skills: seq<real>, teams: seq<Team>, first: Team)
    requires |skills| == |teams|
    ensures Lead(skills, teams, first, []) == 0
  {
    if skills != [] {
      var n := |skills| - 1;
      LeadNone(skills[..n], teams[..n], first);
    }
  }

  /** A group dealt alternately from place start on: it leads only if it is odd, and then by
      one, for the team that is dealt at place start. */
  function LeadOf(start: nat, m: nat): int
  {
    if m % 2 == 0 then 0 else if start % 2 == 0 then 1 else -1
  }

  lemma LeadNext(first: Team, start: nat, m: nat)
    requires first.Playing()
    ensures LeadOf(start, m + 1) == LeadOf(start, m) + Sign(first, Alternate(first, start + m))
  {
    var s := start % 2;
    assert (start + m) % 2 == (s + m % 2) % 2;
  }

  lemma {:induction false} GroupLeads(skills: seq<real>, teams: seq<Team>, first: Team, v: real, start: nat)
    requires |skills| == |teams| && first.Playing()
    requires forall k :: 0 <= k < |skills| && skills[k] == v ==> teams[k] == Alternate(first, start + Rank(skills, k))
    ensures GroupLead(skills, teams, first, v) == LeadOf(start, Count(skills, v))
  {
    if skills != [] {
      var n := |skills| - 1;
      forall k | 0 <= k < n && skills[k] == v
        ensures teams[..n][k] == Alternate(first, start + Rank(skills[..n], k))
      {
        assert skills[..n][..k] == skills[..k];
      }
      GroupLeads(skills[..n], teams[..n], first, v, start);
      if skills[n] == v {
        LeadNext(first, start, Count(skills[..n], v));
      }
    }
  }

  lemma RunGroup(skills: seq<real>, sorted: seq<real>, d: Deal, v: real, lo: nat, hi: nat)
    requires |skills| == |d.teams| && d.current.Playing() && IsRun(sorted, v, lo, hi)
    ensures GroupLead(skills, Drafted(skills, sorted, d), d.current, v) ==
            LeadOf(Flips(skills, sorted, hi - 1), Count(skills, v))
  {
    var teams := Drafted(skills, sorted, d);
    var start := Flips(skills, sorted, hi - 1);
    forall k | 0 <= k < |skills| && skills[k] == v
      ensures teams[k] == Alternate(d.current, start + Rank(skills, k))
    {
      GroupResult(skills, sorted, d, v, lo, hi, k);
    }
    GroupLeads(skills, teams, d.current, v, start);
  }

  /** How a run changes the lead: its group starts at the flips before its last slot. */
  lemma RunLead(skills: seq<real>, sorted: seq<real>, d: Deal, v: real, lo: nat, hi: nat)
    requires |skills| == |d.teams| && d.current.Playing() && IsRun(sorted, v, lo, hi)
    ensures var teams := Drafted(skills, sorted, d);
            Lead(skills, teams, d.current, sorted[..hi]) ==
            Lead(skills, teams, d.current, sorted[..lo]) + LeadOf(Flips(skills, sorted, hi - 1), Count(skills, v))
  {
    RunGroup(skills, sorted, d, v, lo, hi);
    PrefixOfRun(sorted, v, lo, hi);
    LeadRun(skills, Drafted(skills, sorted, d), d.current, sorted[..lo], sorted[..hi], v);
  }

  /** The zero slots are dealt an even number of times to an odd group: the one case in which
      a group starts with the wrong team. */
  predicate Shifted(skills: seq<real>, vs: seq<real>)
    requires |skills| <= SLOTS
  {
    ShiftedBy(|skills|, Count(skills, 0.0), 0.0 in vs)
  }

  predicate ShiftedBy(players: nat, zeros: nat, seen: bool)
  {
    seen && players % 2 == 1 && zeros % 2 == 1
  }

  /** The lead at the end of a run, from the flips made so far. */
  predicate LeadFits(shifted: bool, flips: nat, lead: int)
  {
    if shifted then
      if flips % 2 == 0 then lead == -1 || lead == 1 else lead == 0 || lead == 2
    else lead == flips % 2
  }

  /** The flips before the last slot of a run of p slots over a group of m players, and after it. */
  predicate Moves(flips: nat, last: nat, after: nat, m: nat, p: nat)
    requires p > 0
  {
    last % 2 == (flips + Turns(m, p - 1)) % 2 && after % 2 == (flips + Turns(m, p)) % 2
  }

  lemma NormalStep(flips: nat, last: nat, after: nat, m: nat, p: nat, lead: int, shifted: bool)
    requires LeadFits(shifted, flips, lead) && p > 0 && Moves(flips, last, after, m, p)
    requires m % 2 == 0 || p % 2 == 1
    ensures LeadFits(shifted, after, lead + LeadOf(last, m))
  {
  }

  lemma ShiftedStep(flips: nat, last: nat, after: nat, m: nat, p: nat, lead: int)
    requires LeadFits(false, flips, lead) && p > 0 && Moves(flips, last, after, m, p)
    requires m % 2 == 1 && p % 2 == 0
    ensures LeadFits(true, after, lead + LeadOf(last, m))
  {
  }

  lemma RunMoves(skills: seq<real>, sorted: seq<real>, v: real, lo: nat, m: nat, p: nat)
    requires 0 < p && lo + p <= |sorted| && IsRun(sorted, v, lo, lo + p) && m == Count(skills, v)
    ensures Moves(Flips(skills, sorted, lo), Flips(skills, sorted, lo + p - 1), Flips(skills, sorted, lo + p), m, p)
  {
    RunFlips(skills, sorted, v, lo, p - 1, m);
    RunFlips(skills, sorted, v, lo, p, m);
  }

  lemma ShiftedGrows(skills: seq<real>, sorted: seq<real>, v: real, lo: nat, hi: nat)
    requires |skills| <= SLOTS && Fills(skills, sorted) && IsRun(sorted, v, lo, hi)
    ensures var before, after := Shifted(skills, sorted[..lo]), Shifted(skills, sorted[..hi]);
            if Count(skills, v) % 2 == 1 && (hi - lo) % 2 == 0 then !before && after else after == before
  {
    RunLength(skills, sorted, v, lo, hi);
    ZeroSeen(sorted, v, lo, hi);
    ShiftGrows(|skills|, Count(skills, 0.0), Count(skills, v), hi - lo, v == 0.0, 0.0 in sorted[..lo], 0.0 in sorted[..hi]);
  }

  lemma ShiftGrows(n: nat, zeros: nat, m: nat, p: nat, zero: bool, before: bool, after: bool)
    requires n <= SLOTS && p == m + (if zero then SLOTS - n else 0)
    requires if zero then zeros == m && !before && after else before == after
    ensures if m % 2 == 1 && p % 2 == 0 then !ShiftedBy(n, zeros, before) && ShiftedBy(n, zeros, after)
            else ShiftedBy(n, zeros, after) == ShiftedBy(n, zeros, before)
  {
  }

  lemma ZeroSeen(sorted: seq<real>, v: real, lo: nat, hi: nat)
    requires IsRun(sorted, v, lo, hi)
    ensures v == 0.0 ==> 0.0 !in sorted[..lo] && 0.0 in sorted[..hi]
    ensures v != 0.0 ==> (0.0 in sorted[..hi] <==> 0.0 in sorted[..lo])
  {
    PrefixOfRun(sorted, v, lo, hi);
  }

  lemma FitStep(flips: nat, last: nat, after: nat, m: nat, p: nat, lead: int, before: bool, shifted: bool)
    requires LeadFits(before, flips, lead) && p > 0 && Moves(flips, last, after, m, p)
    requires if m % 2 == 1 && p % 2 == 0 then !before && shifted else shifted == before
    ensures LeadFits(shifted, after, lead + LeadOf(last, m))
  {
    if m % 2 == 1 && p % 2 == 0 {
      ShiftedStep(flips, last, after, m, p, lead);
    } else {
      NormalStep(flips, last, after, m, p, lead, before);
    }
  }

  lemma {:induction false} LeadAtBoundary(skills: seq<real>, sorted: seq<real>, d: Deal, lo: nat)
    requires |skills| == |d.teams| <= SLOTS && d.current.Playing()
    requires Fills(skills, sorted) && Adjacent(sorted) && Boundary(sorted, lo)
    ensures LeadFits(Shifted(skills, sorted[..lo]), Flips(skills, sorted, lo),
                     Lead(skills, Drafted(skills, sorted, d), d.current, sorted[..lo]))
    decreases lo
  {
    if lo == 0 {
      LeadNone(skills, Drafted(skills, sorted, d), d.current);
      assert sorted[..0] == [];
    } else {
      var from := RunBefore(sorted, lo);
      LeadAtBoundary(skills, sorted, d, from);
      LeadOverRun(skills, sorted, d, sorted[lo - 1], from, lo);
    }
  }

  lemma LeadOverRun(skills: seq<real>, sorted: seq<real>, d: Deal, v: real, from: nat, lo: nat)
    requires |skills| == |d.teams| <= SLOTS && d.current.Playing() && Fills(skills, sorted) && IsRun(sorted, v, from, lo)
    requires LeadFits(Shifted(skills, sorted[..from]), Flips(skills, sorted, from),
                      Lead(skills, Drafted(skills, sorted, d), d.current, sorted[..from]))
    ensures LeadFits(Shifted(skills, sorted[..lo]), Flips(skills, sorted, lo),
                     Lead(skills, Drafted(skills, sorted, d), d.current, sorted[..lo]))
  {
    var m, p := Count(skills, v), lo - from;
    RunMoves(skills, sorted, v, from, m, p);
    RunLead(skills, sorted, d, v, from, lo);
    ShiftedGrows(skills, sorted, v, from, lo);
    FitStep(Flips(skills, sorted, from), Flips(skills, sorted, lo - 1), Flips(skills, sorted, lo), m, p,
            Lead(skills, Drafted(skills, sorted, d), d.current, sorted[..from]),
            Shifted(skills, sorted[..from]), Shifted(skills, sorted[..lo]));
  }

  lemma EveryonePlays(skills: seq<real>, sorted: seq<real>, d: Deal, k: nat)
    requires |skills| == |d.teams| <= SLOTS && d.current.Playing() && k < |skills|
    requires multiset(sorted) == multiset(Padded(skills))
    ensures skills[k] in sorted && Drafted(skills, sorted, d)[k].Playing()
  {
    InSorted(skills, sorted, k);
    DraftResult(skills, sorted, d, |sorted|);
    assert Placed(skills, sorted, d, |sorted|, k, Drafted(skills, sorted, d)[k]);
  }

  lemma LeadBounded(skills: seq<real>, sorted: seq<real>, d: Deal)
    requires |skills| == |d.teams| <= SLOTS && d.current.Playing()
    requires Fills(skills, sorted) && Adjacent(sorted)
    requires forall k :: 0 <= k < |skills| ==> skills[k] in sorted
    ensures -1 <= Lead(skills, Drafted(skills, sorted, d), d.current, sorted) <= 1
  {
    var n, teams := |sorted|, Drafted(skills, sorted, d);
    LeadAtBoundary(skills, sorted, d, n);
    LeadParity(skills, teams, d.current, sorted);
    assert sorted[..n] == sorted;
    FinalLead(skills, sorted, Flips(skills, sorted, n), Lead(skills, teams, d.current, sorted));
  }

  /** With equal efficiencies next to each other, everyone ends up in one of the two teams and
      the team sizes differ by at most one, despite the zero padding. */
  lemma TeamsBalanced(skills: seq<real>, sorted: seq<real>, d: Deal)
    requires |skills| == |d.teams| <= SLOTS && d.current.Playing()
    requires SortOutput(Padded(skills), sorted) && Adjacent(sorted)
    ensures forall k :: 0 <= k < |skills| ==> Drafted(skills, sorted, d)[k].Playing()
    ensures -1 <= Lead(skills, Drafted(skills, sorted, d), d.current, sorted) <= 1
  {
    forall k | 0 <= k < |skills|
      ensures skills[k] in sorted && Drafted(skills, sorted, d)[k].Playing()
    {
      EveryonePlays(skills, sorted, d, k);
    }
    SortedFills(skills, sorted);
    LeadBounded(skills, sorted, d);
  }

  lemma FinalLead(skills: seq<real>, sorted: seq<real>, flips: nat, lead: int)
    requires |skills| <= SLOTS && LeadFits(Shifted(skills, sorted), flips, lead)
    requires (lead - |skills|) % 2 == 0
    ensures -1 <= lead <= 1
  {
  }

  lemma InSorted(skills: seq<real>, sorted: seq<real>, k: nat)
    requires k < |skills| <= SLOTS && multiset(sorted) == multiset(Padded(skills))
    ensures skills[k] in sorted
  {
    assert Padded(skills)[k] == skills[k];
    assert skills[k] in multiset(Padded(skills));
  }

  lemma {:induction false} LeadParity(skills: seq<real>, teams: seq<Team>, first: Team, vs: seq<real>)
    requires |skills| == |teams| && forall k :: 0 <= k < |skills| ==> skills[k] in vs
    ensures (Lead(skills, teams, first, vs) - |skills|) % 2 == 0
  {
    if skills != [] {
      var n := |skills| - 1;
      LeadParity(skills[..n], teams[..n], first, vs);
    }
  }
}
