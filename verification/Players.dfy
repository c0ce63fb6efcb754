/**
Players and their teams. JoinTeam, a call into the game, is taken to set the team.
*/
module Players {
  type Slot = nat

  datatype Team = Unassigned | Terrorist | CounterTerrorist | Spectator {
    predicate Playing()
    {
      Terrorist? || CounterTerrorist?
    }

    /** The flip of the team builders: Team % CT + TERRORIST. */
    function Flip(): Team
    {
      if Terrorist? then CounterTerrorist else Terrorist
    }
  }

  class PlayerList {
    var team: map<Slot, Team>

    constructor (team: map<Slot, Team>)
      ensures this.team == team
    {
      this.team := team;
    }

    method JoinTeam(p: Slot, t: Team)
      modifies this
      ensures team == old(team)[p := t]
    {
      team := team[p := t];
    }
  }

  /** The team of the n-th pick when picks alternate from first on. */
  function Alternate(first: Team, n: nat): (t: Team)
    requires first.Playing()
    ensures t.Playing()
  {
    if n % 2 == 0 then first else first.Flip()
  }

  lemma AlternateNext(first: Team, n: nat)
    requires first.Playing()
    ensures Alternate(first, n + 1) == Alternate(first, n).Flip()
  {
  }

  /** What stands in two places of a list counts twice. */
  lemma TwiceIn<A>(s: seq<A>, i: nat, j: nat)
    requires i < j < |s| && s[i] == s[j]
    ensures multiset(s)[s[i]] >= 2
  {
    assert s == s[..j] + s[j..];
    assert s[i] in s[..j] && s[j] in s[j..];
  }
}
