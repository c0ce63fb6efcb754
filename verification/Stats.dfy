/**
Statistics: damage counted per player, weapon, hit box and round, and the shares of a won
round. Players are kept by id; an id may be empty, and then nothing is counted for him.
Sums that the source keeps as floats are integers here, and the shares are real numbers.
*/
module Stats {
  import opened Players
  import opened Sums

  type Auth = string

  const NO_AUTH: Auth := ""

  const WEAPON_NONE: nat := 0
  const WEAPON_HEGRENADE: nat := 4

  const MAP_TARGET: real := 0.7

  datatype Player = Player(auth: Auth, team: Team)

  datatype RoundCount = Play | WinT | LoseT | WinCT | LoseCT

  /** What hits change in a player's record. */
  datatype Combat = Combat(
    hits: int,
    dmgDone: int,
    dmgRecv: int,
    hitBox: map<nat, int>,
    hitBoxDamage: map<nat, int>,
    weaponHit: map<nat, int>,
    weaponDamage: map<nat, int>,
    weaponReceived: map<nat, int>)

  datatype Record = Record(combat: Combat, roundWinShare: real, rounds: map<RoundCount, int>)

  function NoRecord(): Record
  {
    Record(Combat(0, 0, 0, map[], map[], map[], map[], map[]), 0.0, map[])
  }

  /** operator[] of the map of records. */
  function Get(data: map<Auth, Record>, a: Auth): Record
  {
    if a in data then data[a] else NoRecord()
  }

  /** What is known when damage has been dealt. */
  datatype Hit = Hit(
    live: bool,
    victim: Player,
    attacker: Player,
    bothPlayers: bool,
    samePlayer: bool,
    mayDamage: bool,
    killedByBomb: bool,
    blast: bool,
    explosion: bool,
    activeItem: nat,
    lastHealth: int,
    health: real,
    hitGroup: nat)
  {
    predicate Counts()
    {
      live && bothPlayers && !samePlayer && mayDamage && !killedByBomb && !blast
    }

    /** The health lost, truncated. */
    function Damage(): int
    {
      var lost := lastHealth as real - (if health < 0.0 then 0.0 else health);
      if lost < 0.0 then -(-lost).Floor else lost.Floor
    }

    function Item(): nat
    {
      if explosion then WEAPON_HEGRENADE else activeItem
    }
  }

  // ---------- one hit ----------

  datatype Totals = Totals(data: map<Auth, Record>, round: map<Auth, int>, roundDamage: map<Team, int>)

  /** The victim's side of a hit: armed damage is added twice. */
  function Receive(r: Combat, damage: int, item: nat): Combat
  {
    if item == WEAPON_NONE then r.(dmgRecv := r.dmgRecv + damage)
    else
      r.(dmgRecv := r.dmgRecv + damage + damage,
         weaponReceived := Bump(r.weaponReceived, item, damage))
  }

  function Deal(r: Combat, damage: int, item: nat, hitGroup: nat): Combat
  {
    var once := r.(hits := r.hits + 1,
                   dmgDone := r.dmgDone + damage,
                   hitBox := Bump(r.hitBox, hitGroup, 1),
                   hitBoxDamage := Bump(r.hitBoxDamage, hitGroup, damage));
    if item == WEAPON_NONE then once
    else
      once.(weaponHit := Bump(once.weaponHit, item, 1),
            weaponDamage := Bump(once.weaponDamage, item, damage))
  }

  function Received(s: Totals, a: Auth, damage: int, item: nat): Totals
  {
    if a == NO_AUTH then s
    else
      var r := Get(s.data, a);
      s.(data := s.data[a := r.(combat := Receive(r.combat, damage, item))])
  }

  function Dealt(s: Totals, p: Player, damage: int, item: nat, hitGroup: nat): Totals
  {
    if p.auth == NO_AUTH then s
    else
      var r := Get(s.data, p.auth);
      Totals(s.data[p.auth := r.(combat := Deal(r.combat, damage, item, hitGroup))],
             Bump(s.round, p.auth, damage),
             Bump(s.roundDamage, p.team, damage))
  }

  function AfterHit(s: Totals, h: Hit): Totals
  {
    if h.Counts() then
      Dealt(Received(s, h.victim.auth, h.Damage(), h.Item()), h.attacker, h.Damage(), h.Item(), h.hitGroup)
    else s
  }

  // ---------- the end of a round ----------

  datatype WinStatus = WinTerrorists | WinCTs | NoWinner

  function CountRound(rounds: map<RoundCount, int>, team: Team, winner: Team): map<RoundCount, int>
  {
    Bump(Bump(rounds, Play, 1),
         if team == winner then if team.Terrorist? then WinT else WinCT
         else if team.Terrorist? then LoseT else LoseCT, 1)
  }

  /** What a player of the winning team is credited with. */
  function Share(damage: int, teamDamage: int, objective: bool): real
  {
    if damage == 0 then 0.0
    else
      var share := if teamDamage > 0 then damage as real / teamDamage as real else damage as real;
      if objective then MAP_TARGET * share else share
  }

  function ShareOf(round: map<Auth, int>, teamDamage: int, p: Player, winner: Team, objective: bool): real
  {
    if p.auth != NO_AUTH && p.team == winner then Share(At(round, p.auth), teamDamage, objective) else 0.0
  }

  /** The share of every player of this round. */
  function Gain(s: Totals, winner: Team, objective: bool): Player -> real
  {
    (p: Player) => ShareOf(s.round, At(s.roundDamage, winner), p, winner, objective)
  }

  function EndRecord(r: Record, team: Team, winner: Team, gain: real): Record
  {
    r.(rounds := CountRound(r.rounds, team, winner), roundWinShare := r.roundWinShare + gain)
  }

  /** The records after the loop has passed the first i players. */
  function EndTo(data: map<Auth, Record>, players: seq<Player>, winner: Team, gain: Player -> real, i: nat)
    : map<Auth, Record>
    requires i <= |players|
  {
    if i == 0 then data
    else
      var before := EndTo(data, players, winner, gain, i - 1);
      var p := players[i - 1];
      if p.auth == NO_AUTH then before
      else before[p.auth := EndRecord(Get(before, p.auth), p.team, winner, gain(p))]
  }

  function Winner(win: WinStatus): Team
  {
    if win.WinTerrorists? then Terrorist else CounterTerrorist
  }

  function AfterRound(s: Totals, live: bool, win: WinStatus, players: seq<Player>, objective: bool): Totals
  {
    if live && !win.NoWinner? then
      s.(data := EndTo(s.data, players, Winner(win), Gain(s, Winner(win), objective), |players|))
    else s
  }

  function AfterReset(s: Totals, fullReset: bool): Totals
  {
    Totals(if fullReset then map[] else s.data, map[], map[])
  }

  class CStats {
    var data: map<Auth, Record>
    var round: map<Auth, int>
    var roundDamage: map<Team, int>

    ghost function View(): Totals
      reads this
    {
      Totals(data, round, roundDamage)
    }

    constructor ()
      ensures View() == Totals(map[], map[], map[])
    {
      data, round, roundDamage := map[], map[], map[];
    }

    method Reset(fullReset: bool)
      modifies this
      ensures View() == AfterReset(old(View()), fullReset)
    {
      if fullReset {
        data := map[];
      }
      round := map[];
      roundDamage := map[];
    }

    method RoundFreezeEnd(live: bool)
      modifies this
      ensures View() == if live then AfterReset(old(View()), false) else old(View())
    {
      if live {
        Reset(false);
      }
    }

    method VictimStats(v: Auth, damage: int, item: nat)
      modifies this
      ensures View() == Received(old(View()), v, damage, item)
    {
      if v != NO_AUTH {
        var r := Get(data, v).combat;
        r := r.(dmgRecv := r.dmgRecv + damage);
        if item != WEAPON_NONE {
          r := r.(dmgRecv := r.dmgRecv + damage);
          r := r.(weaponReceived := Bump(r.weaponReceived, item, damage));
        }
        data := data[v := Get(data, v).(combat := r)];
      }
    }

    method AttackerStats(p: Player, damage: int, item: nat, hitGroup: nat)
      modifies this
      ensures View() == Dealt(old(View()), p, damage, item, hitGroup)
    {
      if p.auth != NO_AUTH {
        var r := Get(data, p.auth).combat;
        r := r.(hits := r.hits + 1, dmgDone := r.dmgDone + damage);
        r := r.(hitBox := Bump(r.hitBox, hitGroup, 1));
        r := r.(hitBoxDamage := Bump(r.hitBoxDamage, hitGroup, damage));
        round := Bump(round, p.auth, damage);
        roundDamage := Bump(roundDamage, p.team, damage);
        if item != WEAPON_NONE {
          r := r.(weaponHit := Bump(r.weaponHit, item, 1));
          r := r.(weaponDamage := Bump(r.weaponDamage, item, damage));
        }
        data := data[p.auth := Get(data, p.auth).(combat := r)];
      }
    }

    method TakeDamage(h: Hit)
      modifies this
      ensures View() == AfterHit(old(View()), h)
    {
      if h.Counts() {
        var damage, item := h.Damage(), h.Item();
        VictimStats(h.victim.auth, damage, item);
        AttackerStats(h.attacker, damage, item, h.hitGroup);
      }
    }

    /** One player at the end of a round. */
    method PlayerRound(p: Player, winner: Team, objective: bool)
      requires p.auth != NO_AUTH
      modifies this`data
      ensures data == old(data)[p.auth := EndRecord(Get(old(data), p.auth), p.team, winner,
                                                    ShareOf(round, At(roundDamage, winner), p, winner, objective))]
    {
      var rounds := Bump(Get(data, p.auth).rounds, Play, 1);
      var gained := 0.0;
      if p.team == winner {
        rounds := Bump(rounds, if p.team.Terrorist? then WinT else WinCT, 1);
        if At(round, p.auth) != 0 {
          gained := At(round, p.auth) as real;
          if At(roundDamage, winner) > 0 {
            gained := gained / At(roundDamage, winner) as real;
          }
          if objective {
            gained := MAP_TARGET * gained;
          }
        }
      } else {
        rounds := Bump(rounds, if p.team.Terrorist? then LoseT else LoseCT, 1);
      }
      assert gained == ShareOf(round, At(roundDamage, winner), p, winner, objective);
      var r := Get(data, p.auth);
      data := data[p.auth := r.(rounds := rounds, roundWinShare := r.roundWinShare + gained)];
    }

    method RoundEnd(live: bool, win: WinStatus, players: seq<Player>, objective: bool)
      modifies this
      ensures View() == AfterRound(old(View()), live, win, players, objective)
    {
      if live && !win.NoWinner? {
        var winner := Winner(win);
        ghost var s := View();
        ghost var gain := Gain(s, winner, objective);
        for i := 0 to |players|
          invariant round == s.round && roundDamage == s.roundDamage
          invariant data == EndTo(s.data, players, winner, gain, i)
        {
          if players[i].auth != NO_AUTH {
            PlayerRound(players[i], winner, objective);
          }
        }
      }
    }
  }
}
