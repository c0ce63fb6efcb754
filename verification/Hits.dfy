/**
What a single hit costs its victim, under which weapon it is booked, and what a whole life can
cost. Nothing here goes through the functions with which the counters are kept.
*/
module Hits {
  import opened Players
  import opened Sums
  import opened Stats
  import opened StatsLaws

  // ---------- what a hit costs ----------

  /** Nobody has less than no health. */
  function Left(h: Hit): real
  {
    if h.health < 0.0 then 0.0 else h.health
  }

  /** d is the health that the victim lost: all he had if he is dead, else the loss without its
      fraction. */
  ghost predicate Costs(h: Hit, d: int)
  {
    if h.health <= 0.0 then d == h.lastHealth
    else
      var lost := h.lastHealth as real - h.health;
      if lost >= 0.0 then d as real <= lost < d as real + 1.0 else d as real - 1.0 < lost <= d as real
  }

  /** Every hit costs exactly one number, never more than the victim had. */
  lemma CostsOnce(h: Hit, d: int)
    ensures Costs(h, d) <==> d == h.Damage()
    ensures Costs(h, d) && h.lastHealth >= 0 ==> d <= h.lastHealth
    ensures Costs(h, d) && h.lastHealth >= 0 && h.health <= h.lastHealth as real ==>
              0 <= d && d as real <= h.lastHealth as real - Left(h)
  {
  }

  ghost function Cost(h: Hit): (d: int)
    ensures Costs(h, d)
  {
    CostsOnce(h, h.Damage());
    var d :| Costs(h, d);
    d
  }

  lemma CostIs(h: Hit)
    ensures Cost(h) == h.Damage()
  {
    CostsOnce(h, Cost(h));
  }

  /** A hit that counts for nobody: outside a live match, of somebody who is no player, on oneself,
      one that may not hurt, by the bomb or by a blast. */
  predicate Ignored(h: Hit)
  {
    !h.live || !h.bothPlayers || h.samePlayer || !h.mayDamage || h.killedByBomb || h.blast
  }

  predicate WithWeapon(h: Hit, w: nat)
  {
    if h.explosion then w == WEAPON_HEGRENADE else w == h.activeItem
  }

  // ---------- one hit ----------

  /** What the counters of a gain by a hit of cost d: as attacker and as victim. */
  ghost predicate Gains(r: Combat, r': Combat, h: Hit, d: int, attacks: bool, suffers: bool)
  {
    var done, taken := if attacks then d else 0, if suffers then d else 0;
    && r'.dmgDone == r.dmgDone + done
    && r'.hits == r.hits + (if attacks then 1 else 0)
    && (forall g :: At(r'.hitBox, g) == At(r.hitBox, g) + (if attacks && g == h.hitGroup then 1 else 0))
    && (forall g :: At(r'.hitBoxDamage, g) == At(r.hitBoxDamage, g) + (if g == h.hitGroup then done else 0))
    && r'.dmgRecv == r.dmgRecv + taken + (if WithWeapon(h, WEAPON_NONE) then 0 else taken)
  }

  /** What is booked under a weapon. */
  ghost predicate GainsUnder(r: Combat, r': Combat, h: Hit, d: int, attacks: bool, suffers: bool, w: nat)
  {
    var booked := WithWeapon(h, w) && w != WEAPON_NONE;
    && At(r'.weaponHit, w) == At(r.weaponHit, w) + (if booked && attacks then 1 else 0)
    && At(r'.weaponDamage, w) == At(r.weaponDamage, w) + (if booked && attacks then d else 0)
    && At(r'.weaponReceived, w) == At(r.weaponReceived, w) + (if booked && suffers then d else 0)
  }

  lemma ReceiveGains(r: Combat, h: Hit, d: int)
    ensures Gains(r, Receive(r, d, h.Item()), h, d, false, true)
  {
  }

  lemma ReceiveGainsUnder(r: Combat, h: Hit, d: int, w: nat)
    ensures GainsUnder(r, Receive(r, d, h.Item()), h, d, false, true, w)
  {
  }

  lemma DealGains(r: Combat, h: Hit, d: int)
    ensures Gains(r, Deal(r, d, h.Item(), h.hitGroup), h, d, true, false)
  {
  }

  lemma DealGainsUnder(r: Combat, h: Hit, d: int, w: nat)
    ensures GainsUnder(r, Deal(r, d, h.Item(), h.hitGroup), h, d, true, false, w)
  {
  }

  lemma GainsTwice(r: Combat, r1: Combat, r2: Combat, h: Hit, d: int, w: nat)
    requires Gains(r, r1, h, d, false, true) && Gains(r1, r2, h, d, true, false)
    requires GainsUnder(r, r1, h, d, false, true, w) && GainsUnder(r1, r2, h, d, true, false, w)
    ensures Gains(r, r2, h, d, true, true) && GainsUnder(r, r2, h, d, true, true, w)
  {
  }

  /**
  A hit that is not ignored: the attacker's damage, hit box and weapon grow by what it cost the
  victim, the victim's received damage by the same, twice if a weapon is known, and nobody else's
  record changes. An ignored hit changes nothing at all.
  */
  lemma HitBooked(s: Totals, h: Hit, a: Auth, w: nat)
    requires a != NO_AUTH
    ensures var r, r' := Get(s.data, a).combat, Get(AfterHit(s, h).data, a).combat;
            if Ignored(h) then AfterHit(s, h) == s
            else
              && Gains(r, r', h, Cost(h), h.attacker.auth == a, h.victim.auth == a)
              && GainsUnder(r, r', h, Cost(h), h.attacker.auth == a, h.victim.auth == a, w)
  {
    if !Ignored(h) {
      CostIs(h);
      CombatAfterHit(s, h, a);
      var r := Get(s.data, a).combat;
      var r1 := if h.victim.auth == a then Receive(r, h.Damage(), h.Item()) else r;
      ReceiveGains(r, h, Cost(h));
      ReceiveGainsUnder(r, h, Cost(h), w);
      DealGains(r1, h, Cost(h));
      DealGainsUnder(r1, h, Cost(h), w);
      if h.victim.auth == a && h.attacker.auth == a {
        GainsTwice(r, r1, Deal(r1, h.Damage(), h.Item(), h.hitGroup), h, Cost(h), w);
      }
    }
  }

  // ---------- a session ----------

  ghost function Done(a: Auth): Event -> int
  {
    (e: Event) => if e.Took? && !Ignored(e.hit) && e.hit.attacker.auth == a then Cost(e.hit) else 0
  }

  ghost function Taken(a: Auth): Event -> int
  {
    (e: Event) => if e.Took? && !Ignored(e.hit) && e.hit.victim.auth == a then Cost(e.hit) else 0
  }

  ghost function DoneWith(a: Auth, w: nat): Event -> int
  {
    (e: Event) => if e.Took? && WithWeapon(e.hit, w) then Done(a)(e) else 0
  }

  ghost function TakenWith(a: Auth, w: nat): Event -> int
  {
    (e: Event) => if e.Took? && WithWeapon(e.hit, w) then Taken(a)(e) else 0
  }

  /** Received damage counts twice unless no weapon is known. */
  ghost function ReceivedBy(a: Auth): Event -> int
  {
    (e: Event) => if e.Took? && WithWeapon(e.hit, WEAPON_NONE) then Taken(a)(e) else 2 * Taken(a)(e)
  }

  /** The ledger of a player. */
  ghost predicate Books(r: Combat, es: seq<Event>, a: Auth, w: nat)
  {
    && r.dmgDone == Tally(es, Done(a)) && r.dmgRecv == Tally(es, ReceivedBy(a))
    && (w != WEAPON_NONE ==>
          At(r.weaponDamage, w) == Tally(es, DoneWith(a, w)) && At(r.weaponReceived, w) == Tally(es, TakenWith(a, w)))
  }

  lemma NoEntry(e: Event, a: Auth, w: nat)
    requires !(e.Took? && !Ignored(e.hit))
    ensures Done(a)(e) == 0 && Taken(a)(e) == 0 && ReceivedBy(a)(e) == 0
    ensures DoneWith(a, w)(e) == 0 && TakenWith(a, w)(e) == 0
  {
  }

  lemma HitEntries(h: Hit, a: Auth, w: nat)
    requires !Ignored(h)
    ensures Done(a)(Took(h)) == if h.attacker.auth == a then Cost(h) else 0
    ensures DoneWith(a, w)(Took(h)) == if h.attacker.auth == a && WithWeapon(h, w) then Cost(h) else 0
    ensures TakenWith(a, w)(Took(h)) == if h.victim.auth == a && WithWeapon(h, w) then Cost(h) else 0
    ensures var taken := if h.victim.auth == a then Cost(h) else 0;
            ReceivedBy(a)(Took(h)) == taken + (if WithWeapon(h, WEAPON_NONE) then 0 else taken)
  {
    assert Done(a)(Took(h)) == if h.attacker.auth == a then Cost(h) else 0;
    assert Taken(a)(Took(h)) == if h.victim.auth == a then Cost(h) else 0;
  }

  lemma EntryBooked(s: Totals, e: Event, a: Auth, w: nat)
    requires a != NO_AUTH && !e.FullReset?
    ensures var r, r' := Get(s.data, a).combat, Get(After(s, e).data, a).combat;
            && r'.dmgDone == r.dmgDone + Done(a)(e) && r'.dmgRecv == r.dmgRecv + ReceivedBy(a)(e)
            && (w != WEAPON_NONE ==>
                  && At(r'.weaponDamage, w) == At(r.weaponDamage, w) + DoneWith(a, w)(e)
                  && At(r'.weaponReceived, w) == At(r.weaponReceived, w) + TakenWith(a, w)(e))
  {
    if e.Took? && !Ignored(e.hit) {
      HitBooked(s, e.hit, a, w);
      HitEntries(e.hit, a, w);
      assert e == Took(e.hit);
    } else {
      NoEntry(e, a, w);
      CombatKeeps(s, e, a);
    }
  }

  /**
  Over any session, since the last full reset: a player's damage done is what his hits cost their
  victims, and under each weapon what those with that weapon cost; his damage received is what hits
  cost him, twice where a weapon is known, and under each weapon once. Hits on oneself count nowhere.
  */
  lemma {:induction false} SessionBooked(es: seq<Event>, a: Auth, w: nat)
    requires a != NO_AUTH
    ensures Books(Get(Run(es).data, a).combat, es, a, w)
  {
    if es != [] && !es[|es| - 1].FullReset? {
      var front, e := es[..|es| - 1], es[|es| - 1];
      SessionBooked(front, a, w);
      EntryBooked(Run(front), e, a, w);
    }
  }

  // ---------- the damage of a round ----------

  /** The round's counters start again with a live round and with a full reset. */
  predicate Restarts(e: Event)
  {
    e.FullReset? || (e.FreezeEnd? && e.live)
  }

  function RoundTally(es: seq<Event>, entry: Event -> int): int
  {
    if es == [] || Restarts(es[|es| - 1]) then 0
    else RoundTally(es[..|es| - 1], entry) + entry(es[|es| - 1])
  }

  /** The cost of the hits by players with an id who are on the team when they hit. */
  ghost function DoneFor(team: Team): Event -> int
  {
    (e: Event) =>
      if e.Took? && !Ignored(e.hit) && e.hit.attacker.auth != NO_AUTH && e.hit.attacker.team == team
      then Cost(e.hit) else 0
  }

  lemma RoundHit(s: Totals, h: Hit, a: Auth, team: Team)
    requires a != NO_AUTH && !Ignored(h)
    ensures var s' := AfterHit(s, h);
            && At(s'.round, a) == At(s.round, a) + (if h.attacker.auth == a then Cost(h) else 0)
            && At(s'.roundDamage, team) == At(s.roundDamage, team) +
               (if h.attacker.auth != NO_AUTH && h.attacker.team == team then Cost(h) else 0)
  {
    CostIs(h);
    var v := Received(s, h.victim.auth, h.Damage(), h.Item());
    assert v.round == s.round && v.roundDamage == s.roundDamage;
    assert AfterHit(s, h) == Dealt(v, h.attacker, h.Damage(), h.Item(), h.hitGroup);
  }

  lemma RoundEntry(s: Totals, e: Event, a: Auth, team: Team)
    requires a != NO_AUTH && !Restarts(e)
    ensures At(After(s, e).round, a) == At(s.round, a) + Done(a)(e)
    ensures At(After(s, e).roundDamage, team) == At(s.roundDamage, team) + DoneFor(team)(e)
  {
    if e.Took? && !Ignored(e.hit) {
      RoundHit(s, e.hit, a, team);
      HitEntries(e.hit, a, WEAPON_NONE);
      assert e == Took(e.hit);
    } else {
      NoEntry(e, a, WEAPON_NONE);
    }
  }

  /** Over any session: a player's and a team's damage of the round is what their hits have cost
      since the round went live, or since the last full reset. */
  lemma {:induction false} RoundBooked(es: seq<Event>, a: Auth, team: Team)
    requires a != NO_AUTH
    ensures At(Run(es).round, a) == RoundTally(es, Done(a))
    ensures At(Run(es).roundDamage, team) == RoundTally(es, DoneFor(team))
  {
    if es != [] && !Restarts(es[|es| - 1]) {
      var front, e := es[..|es| - 1], es[|es| - 1];
      RoundBooked(front, a, team);
      RoundEntry(Run(front), e, a, team);
    }
  }

  // ---------- a life ----------

  /** The hits on a player. */
  function HitsOn(es: seq<Event>, v: Auth): seq<Hit>
  {
    if es == [] then []
    else
      var before, e := HitsOn(es[..|es| - 1], v), es[|es| - 1];
      if e.Took? && e.hit.victim.auth == v then before + [e.hit] else before
  }

  /** Hits in one life: none of them heals, and each finds at most the health that the one before
      has left. */
  ghost predicate Life(hits: seq<Hit>)
  {
    && (forall k :: 0 <= k < |hits| ==> hits[k].lastHealth >= 0 && hits[k].health <= hits[k].lastHealth as real)
    && (forall k :: 0 < k < |hits| ==> hits[k].lastHealth as real <= Left(hits[k - 1]))
  }

  /** Every hit counts, all healths are whole, and each hit finds what the one before has left. */
  ghost predicate ExactLife(hits: seq<Hit>)
  {
    && (forall k :: 0 <= k < |hits| ==> !Ignored(hits[k]) && hits[k].health == hits[k].health.Floor as real)
    && (forall k :: 0 < k < |hits| ==> hits[k].lastHealth as real == Left(hits[k - 1]))
  }

  ghost function TotalCost(hits: seq<Hit>): int
  {
    if hits == [] then 0
    else TotalCost(hits[..|hits| - 1]) + (if Ignored(hits[|hits| - 1]) then 0 else Cost(hits[|hits| - 1]))
  }

  lemma WholeCost(h: Hit)
    requires h.health == h.health.Floor as real && h.lastHealth >= 0 && h.health <= h.lastHealth as real
    ensures Cost(h) as real == h.lastHealth as real - Left(h)
  {
    CostsOnce(h, Cost(h));
    if h.health > 0.0 {
      OnlyWhole(Cost(h), h.lastHealth - h.health.Floor);
    }
  }

  lemma OnlyWhole(d: int, n: int)
    requires d as real <= n as real < d as real + 1.0
    ensures d == n
  {
  }

  /** In one life no more damage is counted than the health that was lost; exactly as much if
      every hit counts and all healths are whole. */
  lemma {:induction false} LifeCosts(hits: seq<Hit>)
    requires Life(hits) && hits != []
    ensures 0 <= TotalCost(hits)
    ensures TotalCost(hits) as real <= hits[0].lastHealth as real - Left(hits[|hits| - 1])
    ensures ExactLife(hits) ==> TotalCost(hits) as real == hits[0].lastHealth as real - Left(hits[|hits| - 1])
  {
    var front, h := hits[..|hits| - 1], hits[|hits| - 1];
    CostsOnce(h, Cost(h));
    if ExactLife(hits) {
      WholeCost(h);
    }
    if front == [] {
      assert TotalCost(front) == 0;
    } else {
      LifeCosts(front);
      assert ExactLife(hits) ==> ExactLife(front);
    }
  }

  ghost function SumOf(es: seq<Event>, entry: Event -> int): int
  {
    if es == [] then 0 else SumOf(es[..|es| - 1], entry) + entry(es[|es| - 1])
  }

  ghost predicate NoReset(es: seq<Event>)
  {
    forall k :: 0 <= k < |es| ==> !es[k].FullReset?
  }

  lemma {:induction false} TallySplit(x: seq<Event>, y: seq<Event>, entry: Event -> int)
    requires NoReset(y)
    ensures Tally(x + y, entry) == Tally(x, entry) + SumOf(y, entry)
  {
    if y == [] {
      assert x + y == x;
    } else {
      var front, e := y[..|y| - 1], y[|y| - 1];
      TallySplit(x, front, entry);
      assert (x + y)[..|x + y| - 1] == x + front && (x + y)[|x + y| - 1] == e;
    }
  }

  lemma OneMoreHit(hits: seq<Hit>, h: Hit)
    requires Life(hits + [h])
    ensures Life(hits) && 0 <= Cost(h)
    ensures TotalCost(hits + [h]) == TotalCost(hits) + (if Ignored(h) then 0 else Cost(h))
  {
    var all := hits + [h];
    assert forall k :: 0 <= k < |hits| ==> hits[k] == all[k];
    assert all[|hits|] == h && all[..|all| - 1] == hits;
    CostsOnce(h, Cost(h));
  }

  /** What a life's hits cost, among the other events of a session. */
  lemma {:induction false} CostsOfLife(es: seq<Event>, v: Auth)
    requires Life(HitsOn(es, v))
    ensures SumOf(es, Taken(v)) == TotalCost(HitsOn(es, v))
    ensures SumOf(es, ReceivedBy(v)) <= 2 * TotalCost(HitsOn(es, v))
  {
    if es != [] {
      var before, e := es[..|es| - 1], es[|es| - 1];
      if e.Took? && e.hit.victim.auth == v {
        OneMoreHit(HitsOn(before, v), e.hit);
      } else {
        assert Taken(v)(e) == 0;
      }
      CostsOfLife(before, v);
    }
  }

  /**
  A life anywhere in a session: what the player is counted to have received during it is at most
  twice the health he began with, and what is counted once, under the attackers, at most that health.
  */
  lemma LifeInSession(before: seq<Event>, life: seq<Event>, v: Auth)
    requires v != NO_AUTH && NoReset(life) && Life(HitsOn(life, v)) && HitsOn(life, v) != []
    ensures var r, r' := Get(Run(before).data, v).combat, Get(Run(before + life).data, v).combat;
            && r'.dmgRecv - r.dmgRecv <= 2 * HitsOn(life, v)[0].lastHealth
            && Tally(before + life, Taken(v)) - Tally(before, Taken(v)) <= HitsOn(life, v)[0].lastHealth
  {
    var hits := HitsOn(life, v);
    SessionBooked(before, v, WEAPON_NONE);
    SessionBooked(before + life, v, WEAPON_NONE);
    TallySplit(before, life, Taken(v));
    TallySplit(before, life, ReceivedBy(v));
    CostsOfLife(life, v);
    LifeCosts(hits);
    assert TotalCost(hits) <= hits[0].lastHealth;
  }
}
