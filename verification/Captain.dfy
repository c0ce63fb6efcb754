/**
Captain draft: two captains pick in turn until both teams are full or nobody is left. A bot
captain, a captain whose time is up and the last spectator are dealt with by a random pick,
which may call the next captain's menu at once: Menu and GetPlayer call each other.
Nobody connects, disconnects or changes team on his own while the draft runs.
*/
module Captain {
  import opened Options
  import opened Players

  // ---------- teams after some picks ----------

  function On(team: map<Slot, Team>, t: Team): set<Slot>
  {
    set p | p in team && team[p] == t
  }

  /** The teams after the sides have picked these players in turn. */
  function Picked(team: map<Slot, Team>, first: Team, picks: seq<Slot>): map<Slot, Team>
    requires first.Playing()
  {
    if picks == [] then team
    else
      var n := |picks| - 1;
      Picked(team, first, picks[..n])[picks[n] := Alternate(first, n)]
  }

  /** Only spectators are picked, and nobody twice. */
  ghost predicate Legal(team: map<Slot, Team>, picks: seq<Slot>)
  {
    && (forall i :: 0 <= i < |picks| ==> picks[i] in On(team, Spectator))
    && (forall i, j :: 0 <= i < j < |picks| ==> picks[i] != picks[j])
  }

  /** How many of the first n picks were made for side t. */
  function PicksFor(first: Team, t: Team, n: nat): nat
  {
    if t == first then (n + 1) / 2 else n / 2
  }

  lemma PicksForNext(first: Team, t: Team, n: nat)
    requires first.Playing() && t.Playing()
    ensures PicksFor(first, t, n + 1) == PicksFor(first, t, n) + (if t == Alternate(first, n) then 1 else 0)
  {
  }

  /** Player p after some picks: on the side that picked him, or where he was. */
  ghost predicate PlacedBy(team: map<Slot, Team>, first: Team, picks: seq<Slot>, p: Slot, after: map<Slot, Team>)
    requires first.Playing()
  {
    && (p in after <==> p in team)
    && (p !in picks && p in team ==> after[p] == team[p])
    && (forall i :: 0 <= i < |picks| && picks[i] == p ==> p in after && after[p] == Alternate(first, i))
  }

  lemma OneMorePick(team: map<Slot, Team>, first: Team, front: seq<Slot>, last: Slot, p: Slot, before: map<Slot, Team>)
    requires first.Playing() && last in before && last !in front && PlacedBy(team, first, front, p, before)
    ensures PlacedBy(team, first, front + [last], p, before[last := Alternate(first, |front|)])
  {
    var picks := front + [last];
    assert p in picks <==> p in front || p == last;
    forall i | 0 <= i < |picks| && picks[i] == p
      ensures var after := before[last := Alternate(first, |front|)];
              p in after && after[p] == Alternate(first, i)
    {
      if i < |front| {
        assert front[i] == p;
      }
    }
  }

  /** Everyone picked is on the side that picked him, everyone else is where he was. */
  lemma {:induction false} PickedTeams(team: map<Slot, Team>, first: Team, picks: seq<Slot>, p: Slot)
    requires first.Playing() && Legal(team, picks)
    ensures PlacedBy(team, first, picks, p, Picked(team, first, picks))
  {
    if picks != [] {
      var n := |picks| - 1;
      var front, last := picks[..n], picks[n];
      PickedTeams(team, first, front, p);
      PickedTeams(team, first, front, last);
      assert picks == front + [last];
      assert last in team;
      OneMorePick(team, first, front, last, p, Picked(team, first, front));
    }
  }

  /** A spectator who joins a side changes the sizes of that side and of the spectators only. */
  lemma JoinSizes(team: map<Slot, Team>, p: Slot, t: Team)
    requires p in On(team, Spectator) && t.Playing()
    ensures var after := team[p := t];
            && |On(after, Spectator)| == |On(team, Spectator)| - 1
            && |On(after, t)| == |On(team, t)| + 1
            && On(after, t.Flip()) == On(team, t.Flip())
  {
    var after := team[p := t];
    assert On(after, Spectator) == On(team, Spectator) - {p};
    assert On(after, t) == On(team, t) + {p};
  }

  /** The sizes after any number of picks. */
  lemma {:induction false} PickedSizes(team: map<Slot, Team>, first: Team, picks: seq<Slot>, t: Team)
    requires first.Playing() && t.Playing() && Legal(team, picks)
    ensures var after := Picked(team, first, picks);
            && |On(after, t)| == |On(team, t)| + PicksFor(first, t, |picks|)
            && |On(after, Spectator)| == |On(team, Spectator)| - |picks|
  {
    if picks != [] {
      var n := |picks| - 1;
      PickedSizes(team, first, picks[..n], t);
      PickedTeams(team, first, picks[..n], picks[n]);
      JoinSizes(Picked(team, first, picks[..n]), picks[n], Alternate(first, n));
      PicksForNext(first, t, n);
    }
  }

  // ---------- when the draft ends ----------

  /** Half the cvar, truncated. */
  function Half(playersMin: int): int
  {
    if playersMin < 0 then -(-playersMin / 2) else playersMin / 2
  }

  /** The picks of a whole draft: one is always made, then as many as both sides have room for. */
  function DraftLength(m: int, spectators: nat): nat
  {
    var room := if m < 2 then 1 else 2 * (m - 1);
    if spectators < room then spectators else room
  }

  /** The draft goes on after n picks exactly while it is shorter than that. */
  lemma GoesOn(m: int, spectators: nat, first: Team, n: nat)
    requires first.Playing() && 1 <= n <= spectators
    ensures (spectators > n && (1 + PicksFor(first, Terrorist, n) < m || 1 + PicksFor(first, CounterTerrorist, n) < m))
            <==> n < DraftLength(m, spectators)
  {
  }

  /** One captain on each side, the others picked in turn from the spectators. */
  ghost predicate Drafted(start: map<Slot, Team>, first: Team, picks: seq<Slot>)
  {
    && first.Playing() && |On(start, Terrorist)| == 1 && |On(start, CounterTerrorist)| == 1
    && Legal(start, picks)
  }

  lemma LegalOneMore(start: map<Slot, Team>, first: Team, picks: seq<Slot>, target: Slot)
    requires first.Playing() && Legal(start, picks) && target in On(Picked(start, first, picks), Spectator)
    ensures Legal(start, picks + [target])
    ensures Picked(start, first, picks + [target]) == Picked(start, first, picks)[target := Alternate(first, |picks|)]
  {
    PickedTeams(start, first, picks, target);
    assert (picks + [target])[..|picks|] == picks;
  }

  /** One more spectator is picked: the sizes after it, and whether the draft goes on. */
  lemma DraftOneMore(start: map<Slot, Team>, first: Team, picks: seq<Slot>, target: Slot, m: int)
    requires Drafted(start, first, picks) && target in On(Picked(start, first, picks), Spectator)
    ensures var after := Picked(start, first, picks + [target]);
            && Drafted(start, first, picks + [target])
            && after == Picked(start, first, picks)[target := Alternate(first, |picks|)]
            && |On(after, Spectator)| == |On(Picked(start, first, picks), Spectator)| - 1
            && ((|On(after, Spectator)| > 0 && (|On(after, Terrorist)| < m || |On(after, CounterTerrorist)| < m))
                <==> |picks| + 1 < DraftLength(m, |On(start, Spectator)|))
  {
    LegalOneMore(start, first, picks, target);
    PickedSizes(start, first, picks, Terrorist);
    PickedSizes(start, first, picks + [target], Terrorist);
    PickedSizes(start, first, picks + [target], CounterTerrorist);
    GoesOn(m, |On(start, Spectator)|, first, |picks| + 1);
  }

  /** After every pick the sizes differ by at most one; with room for two or more no side
      ever grows beyond m. */
  lemma AlwaysEven(start: map<Slot, Team>, first: Team, picks: seq<Slot>, n: nat, m: int)
    requires Drafted(start, first, picks) && n <= |picks| <= DraftLength(m, |On(start, Spectator)|)
    ensures var team := Picked(start, first, picks[..n]);
            var t, ct := |On(team, Terrorist)|, |On(team, CounterTerrorist)|;
            && -1 <= t - ct <= 1
            && (m >= 2 ==> t <= m && ct <= m)
  {
    PickedSizes(start, first, picks[..n], Terrorist);
    PickedSizes(start, first, picks[..n], CounterTerrorist);
  }

  /** A whole draft ends with both sides at m or with nobody left, exactly when m is at least 2
      or there was at most one spectator to pick. */
  lemma DraftEnds(start: map<Slot, Team>, first: Team, picks: seq<Slot>, m: int)
    requires Drafted(start, first, picks) && |picks| == DraftLength(m, |On(start, Spectator)|)
    ensures var team := Picked(start, first, picks);
            var t, ct, left := |On(team, Terrorist)|, |On(team, CounterTerrorist)|, |On(team, Spectator)|;
            ((t == m && ct == m) || left == 0) <==> (m >= 2 || |On(start, Spectator)| <= 1)
  {
    PickedSizes(start, first, picks, Terrorist);
    PickedSizes(start, first, picks, CounterTerrorist);
  }

  /** With at least four players to a match: two full teams that make up the match, but for one
      player if the number is odd, or nobody is left. */
  lemma FullTeams(start: map<Slot, Team>, first: Team, picks: seq<Slot>, playersMin: int)
    requires playersMin >= 4 && Drafted(start, first, picks)
    requires |picks| == DraftLength(Half(playersMin), |On(start, Spectator)|)
    ensures var team := Picked(start, first, picks);
            var t, ct, left := |On(team, Terrorist)|, |On(team, CounterTerrorist)|, |On(team, Spectator)|;
            var full := playersMin - playersMin % 2;
            if |On(start, Spectator)| + 2 >= full then t == ct && t + ct == full else left == 0
  {
    PickedSizes(start, first, picks, Terrorist);
    PickedSizes(start, first, picks, CounterTerrorist);
  }

  // ---------- the start ----------

  /** Both teams are sent to the spectators. */
  function Recalled(team: map<Slot, Team>): map<Slot, Team>
  {
    map p | p in team :: if team[p].Playing() then Spectator else team[p]
  }

  /** Two of the spectators are made captains. */
  ghost predicate CaptainsChosen(team: map<Slot, Team>, start: map<Slot, Team>, a: Slot, b: Slot)
  {
    && a != b && a in On(Recalled(team), Spectator) && b in On(Recalled(team), Spectator)
    && start == Recalled(team)[a := Terrorist][b := CounterTerrorist]
  }

  lemma RecalledSizes(team: map<Slot, Team>)
    ensures On(Recalled(team), Terrorist) == {} && On(Recalled(team), CounterTerrorist) == {}
    ensures |On(Recalled(team), Spectator)| ==
            |On(team, Terrorist)| + |On(team, CounterTerrorist)| + |On(team, Spectator)|
  {
    var t, ct, s := On(team, Terrorist), On(team, CounterTerrorist), On(team, Spectator);
    assert On(Recalled(team), Spectator) == t + ct + s;
    assert t !! ct && (t + ct) !! s;
  }

  lemma StartSizes(team: map<Slot, Team>, start: map<Slot, Team>, a: Slot, b: Slot)
    requires CaptainsChosen(team, start, a, b)
    ensures On(start, Terrorist) == {a} && On(start, CounterTerrorist) == {b}
    ensures |On(start, Spectator)| == |On(Recalled(team), Spectator)| - 2
  {
    RecalledSizes(team);
    var once := Recalled(team)[a := Terrorist];
    JoinSizes(Recalled(team), a, Terrorist);
    assert On(once, Terrorist) == {a};
    assert b in On(once, Spectator);
    JoinSizes(once, b, CounterTerrorist);
    assert On(start, CounterTerrorist) == {b};
    assert On(start, Terrorist) == {a};
  }

  /** With enough players there is at least one pick to make. */
  lemma DraftStarts(team: map<Slot, Team>, start: map<Slot, Team>, a: Slot, b: Slot, first: Team, m: int)
    requires CaptainsChosen(team, start, a, b) && first.Playing()
    requires |On(team, Terrorist)| + |On(team, CounterTerrorist)| > 5
    ensures Drafted(start, first, []) && DraftLength(m, |On(start, Spectator)|) > 0
  {
    RecalledSizes(team);
    StartSizes(team, start, a, b);
  }

  /** Nobody is asked for pick n: the captain whose turn it is is a bot, or one spectator is left. */
  ghost predicate Unasked(start: map<Slot, Team>, first: Team, bots: set<Slot>, n: nat)
    requires first.Playing()
  {
    On(start, Alternate(first, n)) <= bots || |On(start, Spectator)| == n + 1
  }

  ghost predicate AllUnasked(start: map<Slot, Team>, first: Team, bots: set<Slot>, from: nat, to: nat)
    requires first.Playing()
  {
    forall n :: from <= n < to ==> Unasked(start, first, bots, n)
  }

  lemma OneMoreUnasked(start: map<Slot, Team>, first: Team, bots: set<Slot>, from: nat, to: nat)
    requires first.Playing() && Unasked(start, first, bots, from) && AllUnasked(start, first, bots, from + 1, to)
    ensures AllUnasked(start, first, bots, from, to)
  {
  }

  /** A pick that is not automatic was made from the captain's menu or when his time was up. */
  ghost predicate ExplainedBy(start: map<Slot, Team>, first: Team, bots: set<Slot>, chosen: map<nat, Slot>,
                              timedOut: set<nat>, n: nat, target: Slot)
    requires first.Playing()
  {
    && (Unasked(start, first, bots, n) <==> n !in chosen && n !in timedOut)
    && (n in chosen ==> chosen[n] == target)
  }

  ghost predicate AllExplained(start: map<Slot, Team>, first: Team, bots: set<Slot>, picks: seq<Slot>,
                               chosen: map<nat, Slot>, timedOut: set<nat>)
    requires first.Playing()
  {
    forall n :: 0 <= n < |picks| ==> ExplainedBy(start, first, bots, chosen, timedOut, n, picks[n])
  }

  class CCaptain {
    const list: PlayerList
    const bots: set<Slot>
    const playersMin: int
    var captain: map<Team, Slot>
    var picking: Team
    /** The captain whose menu is open, with a pick due in ten seconds; Unassigned if none. */
    var timer: Team
    /** NextState has been called. */
    var stopped: bool
    ghost var start: map<Slot, Team>
    ghost var first: Team
    ghost var picks: seq<Slot>
    /** The picks made from a menu, and those made because a captain's time was up. */
    ghost var chosen: map<nat, Slot>
    ghost var timedOut: set<nat>

    constructor (list: PlayerList, bots: set<Slot>, playersMin: int)
      ensures this.list == list && this.bots == bots && this.playersMin == playersMin
    {
      this.list, this.bots, this.playersMin := list, bots, playersMin;
      captain, picking, timer, stopped := map[], Unassigned, Unassigned, false;
    }

    function Target(): int
    {
      Half(playersMin)
    }

    ghost function Length(): nat
      reads this
    {
      DraftLength(Target(), |On(start, Spectator)|)
    }

    /** The teams are what the picks made them. */
    ghost predicate Recorded()
      reads this, list
    {
      && Drafted(start, first, picks) && list.team == Picked(start, first, picks)
      && AllExplained(start, first, bots, picks, chosen, timedOut)
    }

    ghost predicate Automatic(n: nat)
      requires first.Playing()
      reads this
    {
      Unasked(start, first, bots, n)
    }

    /** All picks from number n on are automatic. */
    ghost predicate AutomaticFrom(n: nat)
      requires first.Playing()
      reads this
    {
      AllUnasked(start, first, bots, n, |picks|)
    }

    ghost predicate Explained(n: nat, target: Slot)
      requires first.Playing()
      reads this
    {
      ExplainedBy(start, first, bots, chosen, timedOut, n, target)
    }

    /** Only the first n picks have been asked for. */
    ghost predicate AskedUpTo(n: nat)
      reads this
    {
      (forall k <- chosen :: k < n) && (forall k <- timedOut :: k < n)
    }

    ghost predicate CaptainsIn()
      reads this
    {
      && captain.Keys == {Terrorist, CounterTerrorist}
      && captain[Terrorist] in start && start[captain[Terrorist]] == Terrorist
      && captain[CounterTerrorist] in start && start[captain[CounterTerrorist]] == CounterTerrorist
    }

    /** The draft has not ended and the next pick is the given side's. */
    ghost predicate Open(side: Team)
      reads this, list
    {
      Recorded() && CaptainsIn() && !stopped && side == Alternate(first, |picks|) && |picks| < Length()
    }

    /** A human captain has his menu open, with at least two to choose from. */
    ghost predicate Waiting()
      reads this, list
    {
      && Recorded() && AskedUpTo(|picks|) && Open(picking) && timer == picking
      && captain[picking] !in bots && |On(list.team, Spectator)| >= 2
    }

    ghost predicate Over()
      reads this, list
    {
      Recorded() && AskedUpTo(|picks|) && stopped && timer == Unassigned && |picks| == Length()
    }

    method Clear()
      modifies this
      ensures picking == Unassigned && timer == Unassigned && captain == map[] && stopped == old(stopped)
      ensures start == old(start) && first == old(first) && picks == old(picks)
      ensures chosen == old(chosen) && timedOut == old(timedOut)
    {
      picking, timer, captain := Unassigned, Unassigned, map[];
    }

    method Stop()
      modifies this
      ensures picking == Unassigned && timer == Unassigned && captain == map[] && stopped
      ensures start == old(start) && first == old(first) && picks == old(picks)
      ensures chosen == old(chosen) && timedOut == old(timedOut)
    {
      Clear();
      stopped := true;
    }

    method GetRandom(t: Team) returns (player: Option<Slot>)
      ensures player.None? <==> On(list.team, t) == {}
      ensures player.Some? ==> player.value in On(list.team, t)
    {
      if On(list.team, t) == {} {
        player := None;
      } else {
        var p :| p in On(list.team, t);
        player := Some(p);
      }
    }

    method CheckPlayerCount() returns (more: bool)
      ensures more <==> |On(list.team, Spectator)| > 0 &&
                        (|On(list.team, Terrorist)| < Target() || |On(list.team, CounterTerrorist)| < Target())
    {
      more := false;
      if |On(list.team, Spectator)| != 0 {
        if |On(list.team, Terrorist)| < Target() || |On(list.team, CounterTerrorist)| < Target() {
          more := true;
        }
      }
    }

    /** The facts about sizes and captains while the draft is open. */
    lemma OpenSizes(side: Team)
      requires Open(side)
      ensures side.Playing() && |On(list.team, Spectator)| == |On(start, Spectator)| - |picks| > 0
      ensures captain[side] in list.team && list.team[captain[side]] == side
    {
      PickedSizes(start, first, picks, Terrorist);
      PickedTeams(start, first, picks, captain[side]);
      assert captain[side] !in picks;
    }

    /** Whether the next pick is automatic, as the captain's menu finds out. */
    lemma AsksWhom(side: Team)
      requires Open(side)
      ensures Automatic(|picks|) <==> |On(list.team, Spectator)| == 1 || captain[side] in bots
    {
      OpenSizes(side);
      var player := captain[side];
      assert On(start, side) == {player} by {
        assert player in On(start, side);
        assert |On(start, side) - {player}| == 0;
      }
    }

    /** It is this side's turn and no menu's time is running. */
    method TurnTo(side: Team)
      requires Open(side)
      modifies this`picking, this`timer
      ensures picking == side && timer == Unassigned && Open(side)
      ensures |On(list.team, Spectator)| > 0 && side.Playing()
      ensures Automatic(|picks|) <==> |On(list.team, Spectator)| == 1 || captain[side] in bots
    {
      OpenSizes(side);
      AsksWhom(side);
      picking, timer := side, Unassigned;
    }

    /** A captain who is no bot, with at least two to choose from, is asked and nothing else happens. */
    method Menu(side: Team)
      requires Open(side) && AskedUpTo(|picks|)
      modifies this, list
      ensures Waiting() || Over()
      ensures start == old(start) && first == old(first) && old(picks) <= picks
      ensures chosen == old(chosen) && timedOut == old(timedOut)
      ensures |On(old(list.team), Spectator)| >= 2 && old(captain)[side] !in bots ==>
                Waiting() && timer == side && list.team == old(list.team) && picks == old(picks)
      ensures AutomaticFrom(|old(picks)|)
      decreases |On(list.team, Spectator)|, 1
    {
      if side in captain {
        TurnTo(side);
        var player := captain[side];
        if |On(list.team, Spectator)| == 1 || player in bots {
          var target := GetRandom(Spectator);
          ghost var n := |picks|;
          GetPlayer(player, target);
          OneMoreUnasked(start, first, bots, n, |picks|);
        } else {
          timer := side;
        }
      }
    }

    /** One pick; whatever picks follow it in the same call are automatic. */
    method GetPlayer(player: Slot, target: Option<Slot>)
      requires Open(picking) && player == captain[picking] && AskedUpTo(|picks| + 1)
      requires target.Some? ==> target.value in On(list.team, Spectator) && Explained(|picks|, target.value)
      modifies this, list
      ensures target.Some? ==> (Waiting() || Over()) && old(picks) + [target.value] <= picks
      ensures chosen == old(chosen) && timedOut == old(timedOut) && first.Playing()
      ensures AutomaticFrom(|old(picks)| + 1)
      ensures target.None? ==> list.team == old(list.team) && picks == old(picks) && stopped == old(stopped)
      ensures start == old(start) && first == old(first)
      decreases |On(list.team, Spectator)|, 0
    {
      OpenSizes(picking);
      timer := Unassigned;
      if target.Some? {
        ghost var before := list.team;
        list.JoinTeam(target.value, list.team[player]);
        Record(before, target.value);
        var more := CheckPlayerCount();
        if more {
          Menu(if picking == CounterTerrorist then Terrorist else CounterTerrorist);
        } else {
          Stop();
        }
      }
    }

    /** Adds a pick to the record. */
    ghost method Record(before: map<Slot, Team>, target: Slot)
      requires Drafted(start, first, picks) && before == Picked(start, first, picks)
      requires CaptainsIn() && !stopped && target in On(before, Spectator) && picking == Alternate(first, |picks|)
      requires AllExplained(start, first, bots, picks, chosen, timedOut) && Explained(|picks|, target)
      requires list.team == before[target := picking] && |picks| < Length()
      modifies this`picks
      ensures picks == old(picks) + [target] && Recorded()
      ensures |On(list.team, Spectator)| == |On(before, Spectator)| - 1
      ensures (|On(list.team, Spectator)| > 0 &&
               (|On(list.team, Terrorist)| < Target() || |On(list.team, CounterTerrorist)| < Target()))
              <==> |picks| < Length()
      ensures Alternate(first, |picks|) == if picking == CounterTerrorist then Terrorist else CounterTerrorist
    {
      DraftOneMore(start, first, picks, target, Target());
      AlternateNext(first, |picks|);
      picks := picks + [target];
    }

    /** The captain chooses one of the players on his menu; what follows is automatic. */
    method MenuHandle(target: Slot)
      requires Waiting() && target in On(list.team, Spectator)
      modifies this, list
      ensures Waiting() || Over()
      ensures start == old(start) && first == old(first) && old(picks) + [target] <= picks
      ensures chosen == old(chosen)[|old(picks)| := target] && timedOut == old(timedOut)
      ensures AutomaticFrom(|old(picks)| + 1)
    {
      AsksWhom(picking);
      chosen := chosen[|picks| := target];
      GetPlayer(captain[picking], Some(target));
    }

    /** The ten seconds are over: the scheduler drops the timer and calls this. What follows the
        pick is automatic. */
    method GetRandomPlayer()
      requires Waiting()
      modifies this, list
      ensures Waiting() || Over()
      ensures start == old(start) && first == old(first) && old(picks) < picks
      ensures chosen == old(chosen) && timedOut == old(timedOut) + {|old(picks)|}
      ensures AutomaticFrom(|old(picks)| + 1)
    {
      AsksWhom(picking);
      timer := Unassigned;
      timedOut := timedOut + {|picks|};
      if |On(list.team, Spectator)| != 0 {
        var target := GetRandom(Spectator);
        GetPlayer(captain[picking], target);
      }
    }

    /** Over a whole draft: every pick that a captain who is no bot makes while two or more are left
        is his choice from the menu, or was made when his time was up. */
    lemma HumanPicks(n: nat, player: Slot)
      requires (Waiting() || Over()) && n < |picks|
      requires On(start, Alternate(first, n)) == {player} && player !in bots
      requires |On(start, Spectator)| - n >= 2
      ensures n in timedOut || (n in chosen && chosen[n] == picks[n])
    {
      assert Explained(n, picks[n]);
    }

    method SetCaptain(player: Option<Slot>, side: Team)
      modifies this, list
      ensures player.None? ==> captain == old(captain) && list.team == old(list.team)
      ensures player.Some? ==> captain == old(captain)[side := player.value]
      ensures player.Some? ==> list.team == old(list.team)[player.value := side]
      ensures stopped == old(stopped) && timer == old(timer) && picking == old(picking)
      ensures start == old(start) && first == old(first) && picks == old(picks)
    {
      if player.Some? {
        captain := captain[side := player.value];
        list.JoinTeam(player.value, side);
      }
    }

    /** Sends everyone in a team to the spectators. */
    method Recall()
      modifies list
      ensures list.team == Recalled(old(list.team))
    {
      ghost var before := list.team;
      var left := On(list.team, Terrorist) + On(list.team, CounterTerrorist);
      while left != {}
        invariant list.team.Keys == before.Keys
        invariant forall p :: p in left ==> p in before && before[p].Playing()
        invariant forall p :: p in before ==>
                    list.team[p] == if before[p].Playing() && p !in left then Spectator else before[p]
        decreases |left|
      {
        var p :| p in left;
        list.JoinTeam(p, Spectator);
        left := left - {p};
      }
      assert list.team == Recalled(before);
    }

    /** Makes two random spectators captains. */
    method SetCaptains(ghost before: map<Slot, Team>) returns (ghost a: Slot, ghost b: Slot)
      requires list.team == Recalled(before) && |On(list.team, Spectator)| >= 2
      modifies this, list
      ensures CaptainsChosen(before, list.team, a, b)
      ensures captain == old(captain)[Terrorist := a][CounterTerrorist := b]
      ensures stopped == old(stopped)
    {
      var terrorist := GetRandom(Spectator);
      SetCaptain(terrorist, Terrorist);
      JoinSizes(Recalled(before), terrorist.value, Terrorist);
      var other := GetRandom(Spectator);
      SetCaptain(other, CounterTerrorist);
      a, b := terrorist.value, other.value;
    }

    /** Starts the record. */
    ghost method Begin(before: map<Slot, Team>, a: Slot, b: Slot, side: Team)
      requires CaptainsChosen(before, list.team, a, b) && captain == map[Terrorist := a, CounterTerrorist := b]
      requires |On(before, Terrorist)| + |On(before, CounterTerrorist)| > 5 && side.Playing() && !stopped
      modifies this`start, this`first, this`picks, this`chosen, this`timedOut
      ensures Open(side) && start == list.team && picks == [] && chosen == map[] && timedOut == {}
    {
      start, first, picks, chosen, timedOut := list.team, side, [], map[], {};
      DraftStarts(before, start, a, b, side, Target());
    }

    method Init()
      modifies this, list
      ensures |On(old(list.team), Terrorist)| + |On(old(list.team), CounterTerrorist)| > 5 ==>
                && (Waiting() || Over()) && (exists a, b :: CaptainsChosen(old(list.team), start, a, b))
                && chosen == map[] && timedOut == {}
      ensures |On(old(list.team), Terrorist)| + |On(old(list.team), CounterTerrorist)| <= 5 ==>
                stopped && list.team == old(list.team)
    {
      Clear();
      stopped := false;
      if |On(list.team, Terrorist)| + |On(list.team, CounterTerrorist)| > 5 {
        ghost var before := list.team;
        Recall();
        RecalledSizes(before);
        ghost var a, b := SetCaptains(before);
        var side: Team :| side.Playing();
        Begin(before, a, b, side);
        Menu(side);
        assert CaptainsChosen(before, start, a, b);
      } else {
        Stop();
      }
    }
  }
}
