/**
Random teams: players are drawn from the front part of an array, the last of which moves
into the gap each time, and join alternate teams.
*/
module RandomTeams {
  import opened Players

  ghost predicate Distinct(s: seq<Slot>)
  {
    forall i, j :: 0 <= i < j < |s| ==> s[i] != s[j]
  }

  /** The order in which players were drawn gives them alternate teams from first on. */
  ghost predicate Alternates(team: map<Slot, Team>, order: seq<Slot>, first: Team)
    requires first.Playing()
  {
    forall k :: 0 <= k < |order| ==> order[k] in team && team[order[k]] == Alternate(first, k)
  }

  /** Filling the gap at r with the last of the first n takes exactly s[r] out of them. */
  lemma SwapWithLast(s: seq<Slot>, n: nat, r: nat)
    requires r < n <= |s|
    ensures multiset(s[..n]) == multiset(s[r := s[n - 1]][..n - 1]) + multiset{s[r]}
  {
    var t := s[r := s[n - 1]];
    var last := s[n - 1];
    assert s[..n] == s[..r] + [s[r]] + s[r + 1..n];
    if r == n - 1 {
      assert t[..n - 1] == s[..r];
      assert s[r + 1..n] == [];
    } else {
      assert s[r + 1..n] == s[r + 1..n - 1] + [last];
      assert t[..n - 1] == s[..r] + [last] + s[r + 1..n - 1];
    }
  }

  /** Draws a random one of the first num players and closes the gap. */
  method Draw(players: array<Slot>, num: nat) returns (player: Slot)
    requires 0 < num <= players.Length
    modifies players
    ensures multiset(old(players[..num])) == multiset(players[..num - 1]) + multiset{player}
  {
    var random: nat :| random < num;
    player := players[random];
    ghost var before := players[..];
    SwapWithLast(before, num, random);
    players[random] := players[num - 1];
    assert players[..] == before[random := before[num - 1]];
    assert players[..num - 1] == before[random := before[num - 1]][..num - 1];
    assert before[..num] == old(players[..num]);
  }

  /** Everyone drawn so far is on the team of its place in the draw, the others as before. */
  ghost predicate Drawn(before: map<Slot, Team>, team: map<Slot, Team>, order: seq<Slot>, first: Team)
    requires first.Playing()
  {
    && Alternates(team, order, first)
    && forall p :: p !in order ==> (p in team <==> p in before) && (p in before ==> team[p] == before[p])
  }

  lemma DrawnSnoc(before: map<Slot, Team>, team: map<Slot, Team>, order: seq<Slot>, first: Team, player: Slot)
    requires first.Playing() && Drawn(before, team, order, first) && player !in order
    ensures Drawn(before, team[player := Alternate(first, |order|)], order + [player], first)
  {
    var team', order' := team[player := Alternate(first, |order|)], order + [player];
    forall k | 0 <= k < |order'|
      ensures order'[k] in team' && team'[order'[k]] == Alternate(first, k)
    {
      assert k < |order| ==> order[k] != player;
    }
    assert forall p :: p !in order' ==> p !in order && p != player;
  }

  /** The teams after these players have joined in turn. */
  function Joined(before: map<Slot, Team>, order: seq<Slot>, first: Team): map<Slot, Team>
    requires first.Playing()
  {
    if order == [] then before
    else
      var n := |order| - 1;
      Joined(before, order[..n], first)[order[n] := Alternate(first, n)]
  }

  lemma JoinedSnoc(before: map<Slot, Team>, order: seq<Slot>, first: Team, player: Slot)
    requires first.Playing()
    ensures Joined(before, order + [player], first) == Joined(before, order, first)[player := Alternate(first, |order|)]
  {
    assert (order + [player])[..|order|] == order;
  }

  lemma {:induction false} JoinedDrawn(before: map<Slot, Team>, order: seq<Slot>, first: Team)
    requires first.Playing() && Distinct(order)
    ensures Drawn(before, Joined(before, order, first), order, first)
  {
    if order != [] {
      var n := |order| - 1;
      JoinedDrawn(before, order[..n], first);
      assert order == order[..n] + [order[n]];
      DrawnSnoc(before, Joined(before, order[..n], first), order[..n], first, order[n]);
    }
  }

  lemma {:induction false} DistinctMultiset(s: seq<Slot>)
    requires Distinct(s)
    ensures forall p :: multiset(s)[p] <= 1
  {
    if s != [] {
      var n := |s| - 1;
      DistinctMultiset(s[..n]);
      assert s == s[..n] + [s[n]];
      assert s[n] !in s[..n];
    }
  }

  /** The members of a list that are on a team. */
  function Members(team: map<Slot, Team>, order: seq<Slot>, t: Team): set<Slot>
  {
    set p | p in order && p in team && team[p] == t
  }

  lemma MembersSnoc(team: map<Slot, Team>, rest: seq<Slot>, last: Slot, t: Team)
    requires last in team && last !in rest
    ensures |Members(team, rest + [last], t)| == |Members(team, rest, t)| + (if team[last] == t then 1 else 0)
  {
    assert Members(team, rest + [last], t) == Members(team, rest, t) + (if team[last] == t then {last} else {});
  }

  lemma FrontAlternates(team: map<Slot, Team>, rest: seq<Slot>, last: Slot, first: Team)
    requires first.Playing() && Distinct(rest + [last]) && Alternates(team, rest + [last], first)
    ensures Distinct(rest) && Alternates(team, rest, first)
    ensures last !in rest && last in team && team[last] == Alternate(first, |rest|)
  {
    var order := rest + [last];
    assert forall k :: 0 <= k < |rest| ==> order[k] == rest[k];
    assert order[|rest|] == last;
  }

  /** The first drawn team gets the larger half, the other one the smaller. */
  lemma {:induction false} DrawHalves(team: map<Slot, Team>, order: seq<Slot>, first: Team)
    requires first.Playing() && Distinct(order) && Alternates(team, order, first)
    ensures |Members(team, order, first)| == (|order| + 1) / 2
    ensures |Members(team, order, first.Flip())| == |order| / 2
  {
    if order != [] {
      var rest, last := order[..|order| - 1], order[|order| - 1];
      assert order == rest + [last];
      FrontAlternates(team, rest, last, first);
      DrawHalves(team, rest, first);
      MembersSnoc(team, rest, last, first);
      MembersSnoc(team, rest, last, first.Flip());
    }
  }

  /** Some of all have been drawn in this order and the rest have not. */
  ghost predicate Shared(order: seq<Slot>, rest: seq<Slot>, all: seq<Slot>)
  {
    multiset(order) + multiset(rest) == multiset(all)
  }

  lemma NoneShared(all: seq<Slot>, before: map<Slot, Team>, first: Team)
    requires first.Playing()
    ensures Shared([], all, all) && Joined(before, [], first) == before && Alternate(first, 0) == first
  {
  }

  lemma SharedNext(order: seq<Slot>, rest: seq<Slot>, rest': seq<Slot>, player: Slot, all: seq<Slot>)
    requires Shared(order, rest, all) && multiset(rest) == multiset(rest') + multiset{player}
    ensures Shared(order + [player], rest', all)
  {
    assert multiset(order + [player]) == multiset(order) + multiset{player};
  }

  /** One more player is drawn and joins the team. */
  method JoinNext(list: PlayerList, players: array<Slot>, num: nat, team: Team, first: Team,
                  ghost before: map<Slot, Team>, ghost order: seq<Slot>, ghost all: seq<Slot>)
    returns (player: Slot)
    requires 0 < num <= players.Length && first.Playing() && team == Alternate(first, |order|)
    requires Shared(order, players[..num], all) && list.team == Joined(before, order, first)
    modifies list, players
    ensures Shared(order + [player], players[..num - 1], all)
    ensures list.team == Joined(before, order + [player], first)
    ensures team.Flip() == Alternate(first, |order| + 1)
  {
    ghost var rest := players[..num];
    player := Draw(players, num);
    SharedNext(order, rest, players[..num - 1], player, all);
    JoinedSnoc(before, order, first, player);
    AlternateNext(first, |order|);
    list.JoinTeam(player, team);
  }

  /** An order of players that are all different has no player twice. */
  lemma OrderDistinct(order: seq<Slot>, all: multiset<Slot>)
    requires multiset(order) == all && forall p :: all[p] <= 1
    ensures Distinct(order)
  {
    forall i, j | 0 <= i < j < |order|
      ensures order[i] != order[j]
    {
      if order[i] == order[j] {
        TwiceIn(order, i, j);
      }
    }
  }

  /** When nobody is left to draw. */
  lemma DrawEnds(before: map<Slot, Team>, order: seq<Slot>, all: seq<Slot>, team: map<Slot, Team>, first: Team)
    requires first.Playing() && Shared(order, [], all) && Distinct(all) && team == Joined(before, order, first)
    ensures multiset(order) == multiset(all) && Distinct(order) && Drawn(before, team, order, first)
    ensures |Members(team, order, first)| == (|order| + 1) / 2
    ensures |Members(team, order, first.Flip())| == |order| / 2
  {
    DistinctMultiset(all);
    OrderDistinct(order, multiset(all));
    JoinedDrawn(before, order, first);
    DrawHalves(team, order, first);
  }

  /** The loop: until nobody is left one more player is drawn. */
  method Draws(list: PlayerList, players: array<Slot>, count: nat, first: Team) returns (order: seq<Slot>)
    requires count <= players.Length && first.Playing()
    modifies list, players
    ensures |order| == count && Shared(order, [], old(players[..count]))
    ensures list.team == Joined(old(list.team), order, first)
  {
    order := [];
    var num, team := count, first;
    ghost var all, before := players[..count], list.team;
    NoneShared(all, before, first);
    while num != 0
      invariant 0 <= num <= count && |order| == count - num
      invariant Shared(order, players[..num], all)
      invariant team == Alternate(first, |order|)
      invariant list.team == Joined(before, order, first)
    {
      var player := JoinNext(list, players, num, team, first, before, order, all);
      num := num - 1;
      order := order + [player];
      team := team.Flip();
    }
    assert players[..0] == [];
  }

  /** For any random choices: every listed player is drawn exactly once and joins the team of his
      place in the draw; nobody else changes team. The first team gets the larger half. */
  method TeamsRandomize(list: PlayerList, players: array<Slot>, count: nat, first: Team) returns (order: seq<Slot>)
    requires count <= players.Length && Distinct(players[..count]) && first.Playing()
    modifies list, players
    ensures multiset(order) == multiset(old(players[..count])) && Distinct(order)
    ensures Drawn(old(list.team), list.team, order, first)
    ensures |Members(list.team, order, first)| == (count + 1) / 2
    ensures |Members(list.team, order, first.Flip())| == count / 2
  {
    ghost var all, before := players[..count], list.team;
    order := Draws(list, players, count, first);
    DrawEnds(before, order, all, list.team, first);
  }
}
