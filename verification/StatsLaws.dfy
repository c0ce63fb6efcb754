/**
What the counters of a whole session add up to, and what the shares of a round add up to.
*/
module StatsLaws {
  import opened Players
  import opened Sums
  import opened Stats

  datatype Event =
    | Took(hit: Hit)
    | FreezeEnd(live: bool)
    | FullReset
    | Ended(live: bool, win: WinStatus, players: seq<Player>, objective: bool)

  function After(s: Totals, e: Event): Totals
  {
    match e
    case Took(h) => AfterHit(s, h)
    case FreezeEnd(live) => if live then AfterReset(s, false) else s
    case FullReset => AfterReset(s, true)
    case Ended(live, win, players, objective) => AfterRound(s, live, win, players, objective)
  }

  function Run(es: seq<Event>): Totals
  {
    if es == [] then Totals(map[], map[], map[]) else After(Run(es[..|es| - 1]), es[|es| - 1])
  }

  /** A ledger: the sum of the entries since the last full reset. */
  function Tally(es: seq<Event>, entry: Event -> int): int
  {
    if es == [] || es[|es| - 1].FullReset? then 0
    else Tally(es[..|es| - 1], entry) + entry(es[|es| - 1])
  }

  // ---------- one player's record ----------

  function DoneBy(a: Auth): Event -> int
  {
    (e: Event) => if e.Took? && e.hit.Counts() && e.hit.attacker.auth == a then e.hit.Damage() else 0
  }

  function TakenBy(a: Auth): Event -> int
  {
    (e: Event) => if e.Took? && e.hit.Counts() && e.hit.victim.auth == a then e.hit.Damage() else 0
  }

  /** One hit in the record of a. */
  lemma CombatAfterHit(s: Totals, h: Hit, a: Auth)
    requires a != NO_AUTH && h.Counts()
    ensures var r := Get(s.data, a).combat;
            var r1 := if h.victim.auth == a then Receive(r, h.Damage(), h.Item()) else r;
            Get(AfterHit(s, h).data, a).combat ==
            if h.attacker.auth == a then Deal(r1, h.Damage(), h.Item(), h.hitGroup) else r1
  {
  }

  /** The end of a round touches only the rounds and the shares. */
  lemma {:induction false} EndKeeps(data: map<Auth, Record>, players: seq<Player>, winner: Team, gain: Player -> real,
    i: nat, a: Auth)
    requires i <= |players|
    ensures Get(EndTo(data, players, winner, gain, i), a).combat == Get(data, a).combat
  {
    if i > 0 {
      EndKeeps(data, players, winner, gain, i - 1, a);
    }
  }

  lemma CombatKeeps(s: Totals, e: Event, a: Auth)
    requires !e.FullReset? && !(e.Took? && e.hit.Counts())
    ensures Get(After(s, e).data, a).combat == Get(s.data, a).combat
  {
    if e.Ended? {
      EndKeeps(s.data, e.players, Winner(e.win), Gain(s, Winner(e.win), e.objective), |e.players|, a);
    }
  }

  ghost predicate Consistent(r: Combat, done: int, taken: int)
  {
    && r.dmgDone == Total(r.hitBoxDamage) && r.dmgDone == done
    && r.hits == Total(r.hitBox)
    && r.dmgRecv == taken + Total(r.weaponReceived)
  }

  lemma ReceiveConsistent(r: Combat, damage: int, item: nat, done: int, taken: int)
    requires Consistent(r, done, taken)
    ensures Consistent(Receive(r, damage, item), done, taken + damage)
  {
    TotalBump(r.weaponReceived, item, damage);
  }

  lemma DealConsistent(r: Combat, damage: int, item: nat, hitGroup: nat, done: int, taken: int)
    requires Consistent(r, done, taken)
    ensures Consistent(Deal(r, damage, item, hitGroup), done + damage, taken)
  {
    TotalBump(r.hitBox, hitGroup, 1);
    TotalBump(r.hitBoxDamage, hitGroup, damage);
  }

  lemma HitConsistent(s: Totals, h: Hit, a: Auth, done: int, taken: int)
    requires a != NO_AUTH && Consistent(Get(s.data, a).combat, done, taken)
    ensures Consistent(Get(AfterHit(s, h).data, a).combat, done + DoneBy(a)(Took(h)), taken + TakenBy(a)(Took(h)))
  {
    if h.Counts() {
      CombatAfterHit(s, h, a);
      var r := Get(s.data, a).combat;
      ReceiveConsistent(r, h.Damage(), h.Item(), done, taken);
      var r1 := if h.victim.auth == a then Receive(r, h.Damage(), h.Item()) else r;
      DealConsistent(r1, h.Damage(), h.Item(), h.hitGroup, done, taken + TakenBy(a)(Took(h)));
    }
  }

  /** Over any session: the damage a player has done is the sum over the hit boxes; the damage
      he has received is what he took plus, a second time, everything counted under a weapon. */
  lemma {:induction false} DamageAddsUp(es: seq<Event>, a: Auth)
    requires a != NO_AUTH
    ensures var r := Get(Run(es).data, a).combat;
            && r.dmgDone == Total(r.hitBoxDamage) && r.dmgDone == Tally(es, DoneBy(a))
            && r.hits == Total(r.hitBox)
            && r.dmgRecv == Tally(es, TakenBy(a)) + Total(r.weaponReceived)
  {
    if es != [] {
      var front, e := es[..|es| - 1], es[|es| - 1];
      DamageAddsUp(front, a);
      if e.Took? {
        HitConsistent(Run(front), e.hit, a, Tally(front, DoneBy(a)), Tally(front, TakenBy(a)));
      } else if !e.FullReset? {
        CombatKeeps(Run(front), e, a);
      }
    }
  }

  // ---------- weapons ----------

  function Column(data: map<Auth, Record>, select: Combat -> int): map<Auth, int>
  {
    map a | a in data :: select(data[a].combat)
  }

  ghost function Sum(data: map<Auth, Record>, select: Combat -> int): int
  {
    Total(Column(data, select))
  }

  lemma SumSet(data: map<Auth, Record>, select: Combat -> int, a: Auth, r: Record)
    requires select(NoRecord().combat) == 0
    ensures Sum(data[a := r], select) == Sum(data, select) - select(Get(data, a).combat) + select(r.combat)
  {
    assert Column(data[a := r], select) == Column(data, select)[a := select(r.combat)];
    TotalSet(Column(data, select), a, select(r.combat));
  }

  function Given(w: nat): Combat -> int
  {
    (r: Combat) => At(r.weaponDamage, w)
  }

  function Gotten(w: nat): Combat -> int
  {
    (r: Combat) => At(r.weaponReceived, w)
  }

  predicate With(e: Event, w: nat)
  {
    e.Took? && e.hit.Counts() && e.hit.Item() == w
  }

  function DealtWith(w: nat): Event -> int
  {
    (e: Event) => if With(e, w) && e.hit.attacker.auth != NO_AUTH then e.hit.Damage() else 0
  }

  function ReceivedWith(w: nat): Event -> int
  {
    (e: Event) => if With(e, w) && e.hit.victim.auth != NO_AUTH then e.hit.Damage() else 0
  }

  /** Damage counted for only one of the two because the other has no id. */
  function Unmatched(w: nat): Event -> int
  {
    (e: Event) => DealtWith(w)(e) - ReceivedWith(w)(e)
  }

  /** Replacing the record of a. */
  lemma SumStep(data: map<Auth, Record>, a: Auth, r: Record, w: nat)
    ensures var before := Get(data, a).combat;
            && Sum(data[a := r], Given(w)) ==
               Sum(data, Given(w)) + At(r.combat.weaponDamage, w) - At(before.weaponDamage, w)
            && Sum(data[a := r], Gotten(w)) ==
               Sum(data, Gotten(w)) + At(r.combat.weaponReceived, w) - At(before.weaponReceived, w)
  {
    SumSet(data, Given(w), a, r);
    SumSet(data, Gotten(w), a, r);
  }

  lemma ReceiveWeapons(r: Combat, damage: int, item: nat, w: nat)
    requires w != WEAPON_NONE
    ensures Receive(r, damage, item).weaponDamage == r.weaponDamage
    ensures At(Receive(r, damage, item).weaponReceived, w) == At(r.weaponReceived, w) + (if item == w then damage else 0)
  {
  }

  lemma DealWeapons(r: Combat, damage: int, item: nat, group: nat, w: nat)
    requires w != WEAPON_NONE
    ensures Deal(r, damage, item, group).weaponReceived == r.weaponReceived
    ensures At(Deal(r, damage, item, group).weaponDamage, w) == At(r.weaponDamage, w) + (if item == w then damage else 0)
  {
  }

  lemma SumReceived(s: Totals, a: Auth, damage: int, item: nat, w: nat)
    requires w != WEAPON_NONE
    ensures Sum(Received(s, a, damage, item).data, Given(w)) == Sum(s.data, Given(w))
    ensures Sum(Received(s, a, damage, item).data, Gotten(w)) ==
            Sum(s.data, Gotten(w)) + (if a != NO_AUTH && item == w then damage else 0)
  {
    var r := Get(s.data, a);
    ReceiveWeapons(r.combat, damage, item, w);
    SumStep(s.data, a, r.(combat := Receive(r.combat, damage, item)), w);
  }

  lemma SumDealt(s: Totals, p: Player, damage: int, item: nat, group: nat, w: nat)
    requires w != WEAPON_NONE
    ensures Sum(Dealt(s, p, damage, item, group).data, Gotten(w)) == Sum(s.data, Gotten(w))
    ensures Sum(Dealt(s, p, damage, item, group).data, Given(w)) ==
            Sum(s.data, Given(w)) + (if p.auth != NO_AUTH && item == w then damage else 0)
  {
    var r := Get(s.data, p.auth);
    DealWeapons(r.combat, damage, item, group, w);
    SumStep(s.data, p.auth, r.(combat := Deal(r.combat, damage, item, group)), w);
  }

  /** The end of a round changes no sum of what hits change. */
  lemma {:induction false} SumEnd(data: map<Auth, Record>, players: seq<Player>, winner: Team, gain: Player -> real,
    i: nat, select: Combat -> int)
    requires i <= |players| && select(NoRecord().combat) == 0
    ensures Sum(EndTo(data, players, winner, gain, i), select) == Sum(data, select)
  {
    if i > 0 {
      SumEnd(data, players, winner, gain, i - 1, select);
      var before, p := EndTo(data, players, winner, gain, i - 1), players[i - 1];
      SumSet(before, select, p.auth, EndRecord(Get(before, p.auth), p.team, winner, gain(p)));
    }
  }

  lemma SumHit(s: Totals, a: Auth, p: Player, damage: int, item: nat, group: nat, w: nat)
    requires w != WEAPON_NONE
    ensures var after := Dealt(Received(s, a, damage, item), p, damage, item, group).data;
            && Sum(after, Given(w)) == Sum(s.data, Given(w)) + (if p.auth != NO_AUTH && item == w then damage else 0)
            && Sum(after, Gotten(w)) == Sum(s.data, Gotten(w)) + (if a != NO_AUTH && item == w then damage else 0)
  {
    SumReceived(s, a, damage, item, w);
    SumDealt(Received(s, a, damage, item), p, damage, item, group, w);
  }

  lemma SumTook(s: Totals, h: Hit, w: nat)
    requires w != WEAPON_NONE
    ensures Sum(AfterHit(s, h).data, Given(w)) == Sum(s.data, Given(w)) + DealtWith(w)(Took(h))
    ensures Sum(AfterHit(s, h).data, Gotten(w)) == Sum(s.data, Gotten(w)) + ReceivedWith(w)(Took(h))
  {
    if h.Counts() {
      SumHit(s, h.victim.auth, h.attacker, h.Damage(), h.Item(), h.hitGroup, w);
    }
  }

  lemma SumRound(s: Totals, live: bool, win: WinStatus, players: seq<Player>, objective: bool, w: nat)
    ensures Sum(AfterRound(s, live, win, players, objective).data, Given(w)) == Sum(s.data, Given(w))
    ensures Sum(AfterRound(s, live, win, players, objective).data, Gotten(w)) == Sum(s.data, Gotten(w))
  {
    SumEnd(s.data, players, Winner(win), Gain(s, Winner(win), objective), |players|, Given(w));
    SumEnd(s.data, players, Winner(win), Gain(s, Winner(win), objective), |players|, Gotten(w));
  }

  lemma SumAfter(s: Totals, e: Event, w: nat)
    requires w != WEAPON_NONE && !e.FullReset?
    ensures Sum(After(s, e).data, Given(w)) == Sum(s.data, Given(w)) + DealtWith(w)(e)
    ensures Sum(After(s, e).data, Gotten(w)) == Sum(s.data, Gotten(w)) + ReceivedWith(w)(e)
  {
    match e
    case Took(h) =>
      SumTook(s, h, w);
    case Ended(live, win, players, objective) =>
      SumRound(s, live, win, players, objective, w);
    case FreezeEnd(_) =>
  }

  /** Over any session, what all players together dealt and received with a weapon. */
  lemma {:induction false} WeaponTotals(es: seq<Event>, w: nat)
    requires w != WEAPON_NONE
    ensures Sum(Run(es).data, Given(w)) == Tally(es, DealtWith(w))
    ensures Sum(Run(es).data, Gotten(w)) == Tally(es, ReceivedWith(w))
  {
    if es == [] || es[|es| - 1].FullReset? {
      assert Column(map[], Given(w)) == map[];
      assert Column(map[], Gotten(w)) == map[];
    } else {
      WeaponTotals(es[..|es| - 1], w);
      SumAfter(Run(es[..|es| - 1]), es[|es| - 1], w);
    }
  }

  lemma {:induction false} TallyUnmatched(es: seq<Event>, w: nat)
    ensures Tally(es, Unmatched(w)) == Tally(es, DealtWith(w)) - Tally(es, ReceivedWith(w))
  {
    if es != [] {
      TallyUnmatched(es[..|es| - 1], w);
    }
  }

  ghost predicate AllKnown(es: seq<Event>)
  {
    forall i :: 0 <= i < |es| && es[i].Took? && es[i].hit.Counts() ==>
      es[i].hit.attacker.auth != NO_AUTH && es[i].hit.victim.auth != NO_AUTH
  }

  lemma {:induction false} TallyKnown(es: seq<Event>, w: nat)
    requires AllKnown(es)
    ensures Tally(es, Unmatched(w)) == 0
  {
    if es != [] && !es[|es| - 1].FullReset? {
      var front, e := es[..|es| - 1], es[|es| - 1];
      assert forall i :: 0 <= i < |front| ==> front[i] == es[i];
      TallyKnown(front, w);
      assert e.Took? && e.hit.Counts() ==> e.hit.attacker.auth != NO_AUTH && e.hit.victim.auth != NO_AUTH;
      assert DealtWith(w)(e) == ReceivedWith(w)(e);
    }
  }

  /** With every weapon as much damage is received as dealt, but for hits where only one of the
      two players has an id; with ids throughout the totals are equal. */
  lemma WeaponsBalance(es: seq<Event>, w: nat)
    requires w != WEAPON_NONE
    ensures Sum(Run(es).data, Given(w)) - Sum(Run(es).data, Gotten(w)) == Tally(es, Unmatched(w))
    ensures AllKnown(es) ==> Sum(Run(es).data, Given(w)) == Sum(Run(es).data, Gotten(w))
  {
    WeaponTotals(es, w);
    TallyUnmatched(es, w);
    if AllKnown(es) {
      TallyKnown(es, w);
    }
  }

  // ---------- rounds ----------

  predicate RoundsAddUp(rounds: map<RoundCount, int>)
  {
    At(rounds, Play) == At(rounds, WinT) + At(rounds, LoseT) + At(rounds, WinCT) + At(rounds, LoseCT)
  }

  lemma CountAddsUp(rounds: map<RoundCount, int>, team: Team, winner: Team)
    requires RoundsAddUp(rounds)
    ensures RoundsAddUp(CountRound(rounds, team, winner))
  {
  }

  lemma {:induction false} EndRounds(data: map<Auth, Record>, players: seq<Player>, winner: Team, gain: Player -> real,
    i: nat, a: Auth)
    requires i <= |players| && RoundsAddUp(Get(data, a).rounds)
    ensures RoundsAddUp(Get(EndTo(data, players, winner, gain, i), a).rounds)
  {
    if i > 0 {
      EndRounds(data, players, winner, gain, i - 1, a);
      var before := Get(EndTo(data, players, winner, gain, i - 1), a).rounds;
      CountAddsUp(before, players[i - 1].team, winner);
    }
  }

  lemma ReceivedRounds(s: Totals, v: Auth, damage: int, item: nat, a: Auth)
    ensures Get(Received(s, v, damage, item).data, a).rounds == Get(s.data, a).rounds
  {
  }

  lemma DealtRounds(s: Totals, p: Player, damage: int, item: nat, hitGroup: nat, a: Auth)
    ensures Get(Dealt(s, p, damage, item, hitGroup).data, a).rounds == Get(s.data, a).rounds
  {
  }

  lemma HitRounds(s: Totals, h: Hit, a: Auth)
    ensures Get(AfterHit(s, h).data, a).rounds == Get(s.data, a).rounds
  {
    if h.Counts() {
      ReceivedRounds(s, h.victim.auth, h.Damage(), h.Item(), a);
      DealtRounds(Received(s, h.victim.auth, h.Damage(), h.Item()), h.attacker, h.Damage(), h.Item(), h.hitGroup, a);
    }
  }

  lemma EventRounds(s: Totals, e: Event, a: Auth)
    requires RoundsAddUp(Get(s.data, a).rounds)
    ensures RoundsAddUp(Get(After(s, e).data, a).rounds)
  {
    match e
    case Took(h) => HitRounds(s, h, a);
    case FreezeEnd(_) =>
    case FullReset =>
    case Ended(live, win, players, objective) =>
      if live && !win.NoWinner? {
        EndRounds(s.data, players, Winner(win), Gain(s, Winner(win), objective), |players|, a);
      }
  }

  /** Every round played is won or lost on one side. */
  lemma {:induction false} RoundsPlayed(es: seq<Event>, a: Auth)
    ensures RoundsAddUp(Get(Run(es).data, a).rounds)
  {
    if es != [] {
      RoundsPlayed(es[..|es| - 1], a);
      EventRounds(Run(es[..|es| - 1]), es[|es| - 1], a);
    }
  }

  // ---------- who has won ----------

  ghost predicate DistinctIds(players: seq<Player>)
  {
    forall i, j :: 0 <= i < j < |players| && players[i].auth != NO_AUTH ==> players[i].auth != players[j].auth
  }

  /** The counter of the player's team that a round raises besides the rounds played. */
  function Raised(win: WinStatus, team: Team): RoundCount
  {
    match win
    case WinTerrorists => if team.Terrorist? then WinT else LoseCT
    case WinCTs => if team.CounterTerrorist? then WinCT else if team.Terrorist? then LoseT else LoseCT
    case NoWinner => Play
  }

  lemma CountRaises(rounds: map<RoundCount, int>, team: Team, win: WinStatus, count: RoundCount)
    requires !win.NoWinner?
    ensures At(CountRound(rounds, team, Winner(win)), count) ==
            At(rounds, count) + (if count == Play || count == Raised(win, team) then 1 else 0)
  {
  }

  lemma RoundsStep(data: map<Auth, Record>, players: seq<Player>, winner: Team, gain: Player -> real, i: nat, k: nat)
    requires DistinctIds(players) && 0 < i <= |players| && k < |players| && players[k].auth != NO_AUTH
    ensures var before := Get(EndTo(data, players, winner, gain, i - 1), players[k].auth).rounds;
            Get(EndTo(data, players, winner, gain, i), players[k].auth).rounds ==
            if k == i - 1 then CountRound(before, players[k].team, winner) else before
  {
    var data', p := EndTo(data, players, winner, gain, i - 1), players[i - 1];
    if p.auth != NO_AUTH {
      RoundsOf(data', p, winner, gain(p), players[k].auth);
    }
  }

  lemma RoundsOf(data: map<Auth, Record>, p: Player, winner: Team, gain: real, a: Auth)
    ensures Get(data[p.auth := EndRecord(Get(data, p.auth), p.team, winner, gain)], a).rounds ==
            if p.auth == a then CountRound(Get(data, a).rounds, p.team, winner) else Get(data, a).rounds
  {
  }

  lemma {:induction false} RoundCounted(data: map<Auth, Record>, players: seq<Player>, win: WinStatus,
    gain: Player -> real, i: nat, k: nat, count: RoundCount)
    requires DistinctIds(players) && i <= |players| && k < |players| && players[k].auth != NO_AUTH && !win.NoWinner?
    ensures At(Get(EndTo(data, players, Winner(win), gain, i), players[k].auth).rounds, count) ==
            At(Get(data, players[k].auth).rounds, count) +
            (if k < i && (count == Play || count == Raised(win, players[k].team)) then 1 else 0)
  {
    if i > 0 {
      RoundCounted(data, players, win, gain, i - 1, k, count);
      RoundsStep(data, players, Winner(win), gain, i, k);
      var before := EndTo(data, players, Winner(win), gain, i - 1);
      CountRaises(Get(before, players[k].auth).rounds, players[k].team, win, count);
    }
  }

  /** The end of a won round in a live match: every player has played one more, won on his side if
      his team has won it, and lost otherwise; any other end of a round counts for nobody. */
  lemma RoundsWon(s: Totals, live: bool, win: WinStatus, players: seq<Player>, objective: bool, k: nat, count: RoundCount)
    requires DistinctIds(players) && k < |players| && players[k].auth != NO_AUTH
    ensures var a := players[k].auth;
            At(Get(AfterRound(s, live, win, players, objective).data, a).rounds, count) ==
            At(Get(s.data, a).rounds, count) +
            (if live && !win.NoWinner? && (count == Play || count == Raised(win, players[k].team)) then 1 else 0)
  {
    if live && !win.NoWinner? {
      RoundCounted(s.data, players, win, Gain(s, Winner(win), objective), |players|, k, count);
    }
  }

  // ---------- shares of a round ----------

  /** The sum of the shares of the first n players, as they stand in data. */
  function ShareTotal(data: map<Auth, Record>, players: seq<Player>, n: nat): real
    requires n <= |players|
  {
    if n == 0 then 0.0
    else ShareTotal(data, players, n - 1) +
         (if players[n - 1].auth == NO_AUTH then 0.0 else Get(data, players[n - 1].auth).roundWinShare)
  }

  function Credits(players: seq<Player>, gain: Player -> real, n: nat): real
    requires n <= |players|
  {
    if n == 0 then 0.0
    else Credits(players, gain, n - 1) + (if players[n - 1].auth == NO_AUTH then 0.0 else gain(players[n - 1]))
  }

  /** Everyone the loop has passed has been credited once, nobody else. */
  lemma {:induction false} Credited(data: map<Auth, Record>, players: seq<Player>, winner: Team, gain: Player -> real,
    i: nat, k: nat)
    requires DistinctIds(players) && i <= |players| && k < |players| && players[k].auth != NO_AUTH
    ensures Get(EndTo(data, players, winner, gain, i), players[k].auth).roundWinShare ==
            Get(data, players[k].auth).roundWinShare + (if k < i then gain(players[k]) else 0.0)
  {
    if i > 0 {
      Credited(data, players, winner, gain, i - 1, k);
    }
  }

  lemma {:induction false} CreditsGiven(data: map<Auth, Record>, players: seq<Player>, winner: Team,
    gain: Player -> real, n: nat)
    requires DistinctIds(players) && n <= |players|
    ensures ShareTotal(EndTo(data, players, winner, gain, |players|), players, n) ==
            ShareTotal(data, players, n) + Credits(players, gain, n)
  {
    if n > 0 {
      CreditsGiven(data, players, winner, gain, n - 1);
      if players[n - 1].auth != NO_AUTH {
        Credited(data, players, winner, gain, |players|, n - 1);
      }
    }
  }

  /** The round damage of the first n players, as far as they are on the winning team now. */
  function WinnersDamage(round: map<Auth, int>, players: seq<Player>, winner: Team, n: nat): int
    requires n <= |players|
  {
    if n == 0 then 0
    else WinnersDamage(round, players, winner, n - 1) +
         (if players[n - 1].auth != NO_AUTH && players[n - 1].team == winner then At(round, players[n - 1].auth) else 0)
  }

  function Stake(objective: bool): real
  {
    if objective then 0.7 else 1.0
  }

  lemma ShareScaled(damage: int, teamDamage: int, objective: bool)
    requires teamDamage > 0
    ensures Share(damage, teamDamage, objective) == Stake(objective) * (damage as real / teamDamage as real)
  {
  }

  lemma ScaledAdd(f: real, x: int, y: int, t: real)
    requires t > 0.0
    ensures f * ((x + y) as real / t) == f * (x as real / t) + f * (y as real / t)
  {
    assert (x + y) as real == x as real + y as real;
    assert (x as real + y as real) / t == x as real / t + y as real / t;
  }

  lemma {:induction false} CreditsAre(s: Totals, players: seq<Player>, winner: Team, objective: bool, n: nat)
    requires n <= |players| && At(s.roundDamage, winner) > 0
    ensures Credits(players, Gain(s, winner, objective), n) ==
            Stake(objective) * (WinnersDamage(s.round, players, winner, n) as real / At(s.roundDamage, winner) as real)
  {
    var t := At(s.roundDamage, winner);
    if n == 0 {
      assert 0 as real / t as real == 0.0;
    } else {
      CreditsAre(s, players, winner, objective, n - 1);
      var p := players[n - 1];
      var d := if p.auth != NO_AUTH && p.team == winner then At(s.round, p.auth) else 0;
      ShareScaled(d, t, objective);
      ScaledAdd(Stake(objective), WinnersDamage(s.round, players, winner, n - 1), d, t as real);
    }
  }

  /** The winners' shares of a round are in proportion to the damage they did; the others get none. */
  lemma SharesInProportion(s: Totals, win: WinStatus, players: seq<Player>, objective: bool, k: nat)
    requires DistinctIds(players) && k < |players| && players[k].auth != NO_AUTH && !win.NoWinner?
    requires var winner := if win.WinTerrorists? then Terrorist else CounterTerrorist; At(s.roundDamage, winner) > 0
    ensures var p, winner := players[k], if win.WinTerrorists? then Terrorist else CounterTerrorist;
            var after := AfterRound(s, true, win, players, objective);
            var credited := Get(after.data, p.auth).roundWinShare - Get(s.data, p.auth).roundWinShare;
            credited * At(s.roundDamage, winner) as real ==
              if p.team == winner then Stake(objective) * At(s.round, p.auth) as real else 0.0
  {
    var p, winner := players[k], Winner(win);
    var d, t := At(s.round, p.auth), At(s.roundDamage, winner);
    Credited(s.data, players, winner, Gain(s, winner, objective), |players|, k);
    ShareTimes(d, t, objective);
    var gained := ShareOf(s.round, t, p, winner, objective);
    assert gained == if p.team == winner then Share(d, t, objective) else 0.0;
    assert Get(AfterRound(s, true, win, players, objective).data, p.auth).roundWinShare
        == Get(s.data, p.auth).roundWinShare + gained;
  }

  lemma ShareTimes(damage: int, teamDamage: int, objective: bool)
    requires teamDamage > 0
    ensures Share(damage, teamDamage, objective) * teamDamage as real == Stake(objective) * damage as real
  {
    ShareScaled(damage, teamDamage, objective);
    Undivide(Stake(objective), damage as real, teamDamage as real);
  }

  lemma Undivide(f: real, x: real, t: real)
    requires t > 0.0
    ensures f * (x / t) * t == f * x
  {
    assert x / t * t == x;
  }

  /** A round of hits. */
  function AfterHits(s: Totals, hits: seq<Hit>): Totals
  {
    if hits == [] then s else AfterHit(AfterHits(s, hits[..|hits| - 1]), hits[|hits| - 1])
  }

  predicate PlaysFor(players: seq<Player>, a: Auth, team: Team)
  {
    exists i :: 0 <= i < |players| && players[i].auth == a && players[i].team == team
  }

  /** The damage of the round by those who are on the team when the round ends. */
  function DealtNow(hits: seq<Hit>, players: seq<Player>, team: Team): int
  {
    if hits == [] then 0
    else
      var h := hits[|hits| - 1];
      DealtNow(hits[..|hits| - 1], players, team) +
      (if h.Counts() && h.attacker.auth != NO_AUTH && PlaysFor(players, h.attacker.auth, team) then h.Damage() else 0)
  }

  /** The damage of the round by those who were on the team when they hit. */
  function DealtThen(hits: seq<Hit>, team: Team): int
  {
    if hits == [] then 0
    else
      var h := hits[|hits| - 1];
      DealtThen(hits[..|hits| - 1], team) +
      (if h.Counts() && h.attacker.auth != NO_AUTH && h.attacker.team == team then h.Damage() else 0)
  }

  lemma {:induction false} TeamDamageIs(s: Totals, hits: seq<Hit>, team: Team)
    requires s.roundDamage == map[]
    ensures At(AfterHits(s, hits).roundDamage, team) == DealtThen(hits, team)
  {
    if hits != [] {
      TeamDamageIs(s, hits[..|hits| - 1], team);
    }
  }

  /** One more entry in the round counts for the winners exactly if its player is one of them. */
  lemma {:induction false} WinnersBump(round: map<Auth, int>, players: seq<Player>, winner: Team, n: nat, a: Auth, d: int)
    requires DistinctIds(players) && n <= |players| && a != NO_AUTH
    ensures WinnersDamage(Bump(round, a, d), players, winner, n) ==
            WinnersDamage(round, players, winner, n) + (if PlaysFor(players[..n], a, winner) then d else 0)
  {
    if n > 0 {
      WinnersBump(round, players, winner, n - 1, a, d);
      var p := players[n - 1];
      if p.auth == a && p.team == winner {
        assert players[..n][n - 1] == p;
        assert !PlaysFor(players[..n - 1], a, winner);
      } else {
        assert PlaysFor(players[..n], a, winner) <==> PlaysFor(players[..n - 1], a, winner) by {
          if PlaysFor(players[..n - 1], a, winner) {
            var i :| 0 <= i < n - 1 && players[..n - 1][i].auth == a && players[..n - 1][i].team == winner;
            assert players[..n][i] == players[..n - 1][i];
          }
          if PlaysFor(players[..n], a, winner) {
            var i :| 0 <= i < n && players[..n][i].auth == a && players[..n][i].team == winner;
            assert players[..n - 1][i] == players[..n][i];
          }
        }
      }
    }
  }

  lemma {:induction false} WinnersNone(players: seq<Player>, winner: Team, n: nat)
    requires n <= |players|
    ensures WinnersDamage(map[], players, winner, n) == 0
  {
    if n > 0 {
      WinnersNone(players, winner, n - 1);
    }
  }

  lemma {:induction false} WinnersDamageIs(s: Totals, hits: seq<Hit>, players: seq<Player>, winner: Team)
    requires s.round == map[] && DistinctIds(players)
    ensures WinnersDamage(AfterHits(s, hits).round, players, winner, |players|) == DealtNow(hits, players, winner)
  {
    if hits == [] {
      WinnersNone(players, winner, |players|);
    } else {
      var h := hits[|hits| - 1];
      WinnersDamageIs(s, hits[..|hits| - 1], players, winner);
      if h.Counts() && h.attacker.auth != NO_AUTH {
        WinnersBump(AfterHits(s, hits[..|hits| - 1]).round, players, winner, |players|, h.attacker.auth, h.Damage());
        assert players[..|players|] == players;
      }
    }
  }

  /** Everyone who hit is still there, on the same team. */
  ghost predicate Stable(hits: seq<Hit>, players: seq<Player>)
  {
    forall i :: 0 <= i < |hits| && hits[i].Counts() && hits[i].attacker.auth != NO_AUTH ==> hits[i].attacker in players
  }

  lemma {:induction false} StableDamage(hits: seq<Hit>, players: seq<Player>, team: Team)
    requires Stable(hits, players) && DistinctIds(players)
    ensures DealtNow(hits, players, team) == DealtThen(hits, team)
  {
    if hits != [] {
      var h := hits[|hits| - 1];
      StableDamage(hits[..|hits| - 1], players, team);
      if h.Counts() && h.attacker.auth != NO_AUTH {
        StableAttacker(h.attacker, players, team);
      }
    }
  }

  lemma StableAttacker(p: Player, players: seq<Player>, team: Team)
    requires p in players && DistinctIds(players) && p.auth != NO_AUTH
    ensures PlaysFor(players, p.auth, team) <==> p.team == team
  {
    var k :| 0 <= k < |players| && players[k] == p;
    if PlaysFor(players, p.auth, team) {
      var i :| 0 <= i < |players| && players[i].auth == p.auth && players[i].team == team;
      assert i == k;
    }
  }

  /** The shares credited at the end of a round in which the winners did damage: the part of it
      dealt by those who are winners now. They sum to 1, or 0.7 on a map objective, exactly if
      that is all of it; and it is if everyone who hit is still there on his team. */
  lemma RoundShares(s: Totals, hits: seq<Hit>, players: seq<Player>, winner: Team, objective: bool)
    requires s.round == map[] && s.roundDamage == map[] && DistinctIds(players)
    requires winner.Playing() && DealtThen(hits, winner) > 0
    ensures var before := AfterHits(s, hits);
            var win := if winner.Terrorist? then WinTerrorists else WinCTs;
            var after := AfterRound(before, true, win, players, objective);
            var credited := ShareTotal(after.data, players, |players|) - ShareTotal(before.data, players, |players|);
            var now, dealt := DealtNow(hits, players, winner), DealtThen(hits, winner);
            && credited == Stake(objective) * (now as real / dealt as real)
            && (credited == Stake(objective) <==> now == dealt)
            && (Stable(hits, players) ==> credited == Stake(objective))
  {
    var before := AfterHits(s, hits);
    var now, dealt := DealtNow(hits, players, winner), DealtThen(hits, winner);
    CreditsGiven(before.data, players, winner, Gain(before, winner, objective), |players|);
    TeamDamageIs(s, hits, winner);
    WinnersDamageIs(s, hits, players, winner);
    CreditsAre(before, players, winner, objective, |players|);
    WholeStake(Stake(objective), now, dealt);
    if Stable(hits, players) {
      StableDamage(hits, players, winner);
    }
  }

  lemma WholeStake(f: real, x: int, t: int)
    requires f > 0.0 && t > 0
    ensures f * (x as real / t as real) == f <==> x == t
  {
    var q := x as real / t as real;
    assert q * t as real == x as real;
    if f * q == f {
      assert q == 1.0 by {
        assert f * (q - 1.0) == 0.0;
        NoZero(f, q - 1.0);
      }
    } else {
      assert q != 1.0;
    }
  }

  lemma NoZero(f: real, d: real)
    requires f > 0.0 && f * d == 0.0
    ensures d == 0.0
  {
  }
}
