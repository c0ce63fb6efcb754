/**
Half-time swaps the sides before play goes on, and how long an overtime period is.
*/
module Halftime {
  import opened Tasks
  import opened TaskLaws
  import opened Match
  import opened MatchScores
  import opened Regulation
  import opened Frames

  /** Half-time entered at time t0. */
  function Entered(c: Config, s: Server, t0: real): Server
  {
    Done(s.queue, t0, SetState(c, s.world, Stage.Halftime))
  }

  /** The indices that fire in the frames among the events, in order. */
  function FiredBy(c: Config, s: Server, es: seq<GameEvent>): seq<Index>
    requires c.overtimeRounds > 1
  {
    if es == [] then []
    else
      var before, e := es[..|es| - 1], es[|es| - 1];
      FiredBy(c, s, before) +
      (if e.Tick? then Fires(Frame(Run(c), Play(c, s, before), e.now).log) else [])
  }

  /** At any moment, even inside a frame that has walked up to index hi: the swap has fired, or
      the match is still in half-time. */
  ghost predicate SwapComesFirst(c: Config, s: Server)
    requires c.overtimeRounds > 1
  {
    forall es: seq<GameEvent>, now: real, hi: nat | hi <= INDEX_LIMIT ::
      var p := Walk(Run(c), Play(c, s, es), now, 0, hi);
      EXEC in FiredBy(c, s, es) + Fires(p.log) || p.state.world.stage.Halftime?
  }

  /** Half-time with the swap still to come. */
  predicate Held(s: Server, t0: real)
  {
    && s.world.stage.Halftime? && Wired(s.queue) && !Live(s.queue, LIST)
    && Live(s.queue, EXEC) && s.queue[EXEC].endTime == t0 + 5.0
    && Live(s.queue, NEXT) && s.queue[NEXT].endTime == t0 + 7.0
  }

  lemma EnteredHeld(c: Config, s: Server, t0: real)
    requires Wired(s.queue) && !Live(s.queue, LIST) && Enough(c, s.world)
    ensures Held(Entered(c, s, t0), t0)
  {
    var cs := SetState(c, s.world, Stage.Halftime).commands;
    assert cs == [cs[0], cs[1]];
    ApplyTwo(s.queue, t0, cs[0], cs[1]);
  }

  /** Reaching one index: the swap fires, or half-time goes on and the swap was not yet due. */
  lemma ReachHeld(c: Config, s: Server, i: Index, now: real, t0: real)
    requires Held(s, t0) && (i > EXEC ==> now < t0 + 5.0)
    ensures var p := Reach(Run(c), s, i, now);
            EXEC in Fires(p.log) || (Held(p.state, t0) && (i >= EXEC ==> now < t0 + 5.0))
  {
    ReachCollect(Run(c), s, i, now);
    ReachedState(c, s, i, now);
    ReachedWired(c, s, i, now);
    if Due(s.queue, i, now) && i != EXEC {
      assert Belongs(i, s.queue[i].callback, s.queue[i].loop);
      var seconds := s.queue[i].callback.seconds;
      var cs := Lo3(c, s.world, seconds).commands;
      assert forall k :: 0 <= k < |cs| ==> cs[k].index == LO3R;
      var q := Mark(s.queue, LO3R, now);
      ApplyAllUntouched(q, now, cs, EXEC);
      ApplyAllUntouched(q, now, cs, LIST);
      ApplyAllUntouched(q, now, cs, NEXT);
    }
  }

  lemma {:induction false} WalkHeld(c: Config, s: Server, now: real, lo: nat, hi: nat, t0: real)
    requires lo <= hi <= INDEX_LIMIT && Held(s, t0) && (lo > EXEC ==> now < t0 + 5.0)
    ensures var p := Walk(Run(c), s, now, lo, hi);
            EXEC in Fires(p.log) || Held(p.state, t0)
    decreases hi - lo
  {
    if lo < hi {
      var here := Reach(Run(c), s, lo, now);
      ReachHeld(c, s, lo, now, t0);
      CollectAppend(here.log, Walk(Run(c), here.state, now, lo + 1, hi).log);
      if EXEC !in Fires(here.log) {
        WalkHeld(c, here.state, now, lo + 1, hi, t0);
      }
    }
  }

  /** Rounds and votes change nothing in half-time. */
  lemma {:induction false} PlayHeld(c: Config, s: Server, es: seq<GameEvent>, t0: real)
    requires c.overtimeRounds > 1 && Held(s, t0)
    ensures EXEC in FiredBy(c, s, es) || Held(Play(c, s, es), t0)
  {
    if es != [] {
      var before, e := es[..|es| - 1], es[|es| - 1];
      PlayHeld(c, s, before, t0);
      if e.Tick? && EXEC !in FiredBy(c, s, before) {
        WalkHeld(c, Play(c, s, before), e.now, 0, INDEX_LIMIT, t0);
      }
    }
  }

  /** Players enough for any transition, all ready. */
  function FullHouse(c: Config, w: World): Env
  {
    Env(c.playersMin, c.playersMin, c.playersMin, c.playersMin, true, w.env.started)
  }

  lemma FullHouseGoesOn(c: Config, w: World)
    requires w.stage.Halftime? && w.env == FullHouse(c, w)
    ensures !Call(c, CallReadyList, w).world.stage.Halftime?
  {
    var w' := w.(stage := Next(c, w), pause := false);
    assert CheckBalanceTeams(c, w') == (true, w');
    assert RunState(c, w).world == Lo3(c, w', 1).world;
  }

  /** A frame that reaches the ready list before the swap is due. */
  lemma ReadyLeaves(c: Config, u: Server, now: real)
    requires Wired(u.queue) && u.world.stage.Halftime? && u.world.env == FullHouse(c, u.world)
    requires !Due(u.queue, EXEC, now) && Due(u.queue, LIST, now)
    ensures var p := Walk(Run(c), u, now, 0, LIST + 1);
            EXEC !in Fires(p.log) && !p.state.world.stage.Halftime?
  {
    WalkList(c, u, now);
    ReachCollect(Run(c), u, EXEC, now);
    PassedBy(c, u, EXEC, now);
    ReachCollect(Run(c), u, LIST, now);
    CollectAppend(Reach(Run(c), u, EXEC, now).log, Reach(Run(c), u, LIST, now).log);
    ReachedState(c, u, LIST, now);
    assert Belongs(LIST, u.queue[LIST].callback, u.queue[LIST].loop);
    FullHouseGoesOn(c, u.world);
  }

  lemma EnteredWaits(c: Config, s: Server, t0: real)
    requires Wired(s.queue) && !Enough(c, s.world)
    ensures var s0 := Entered(c, s, t0);
            && Wired(s0.queue) && s0.world.stage.Halftime?
            && !Due(s0.queue, EXEC, t0 + 0.5) && Due(s0.queue, LIST, t0 + 0.5)
  {
    var cs := SetState(c, s.world, Stage.Halftime).commands;
    assert cs == [cs[0], cs[1]];
    ApplyTwo(s.queue, t0, cs[0], cs[1]);
    SetStateFits(c, s.world, Stage.Halftime);
    ApplyAllWired(s.queue, t0, cs);
  }

  /** With too few players at the start of half-time the ready list can come before the swap. */
  lemma ReadyListFirst(c: Config, s: Server, t0: real)
    requires c.overtimeRounds > 1 && Wired(s.queue) && !Enough(c, s.world)
    ensures var s0 := Entered(c, s, t0);
            var es := [GameEvent.Players(FullHouse(c, s0.world))];
            var p := Walk(Run(c), Play(c, s0, es), t0 + 0.5, 0, LIST + 1);
            EXEC !in FiredBy(c, s0, es) + Fires(p.log) && !p.state.world.stage.Halftime?
  {
    var s0 := Entered(c, s, t0);
    var es := [GameEvent.Players(FullHouse(c, s0.world))];
    EnteredWaits(c, s, t0);
    assert es[..0] == [];
    assert Play(c, s0, es[..0]) == s0;
    assert FiredBy(c, s0, es) == [];
    ReadyLeaves(c, Play(c, s0, es), t0 + 0.5);
  }

  /**
  Half-time entered while no ready list is running, then any rounds, frames, votes and changes of
  players, and any moment of a frame: the sides are swapped before the match leaves half-time, if
  and only if there are enough players for half-time to set its own transition.
  */
  lemma SwapBeforeTransition(c: Config, s: Server, t0: real)
    requires c.overtimeRounds > 1 && Wired(s.queue) && !Live(s.queue, LIST)
    ensures SwapComesFirst(c, Entered(c, s, t0)) <==> Enough(c, s.world)
  {
    var s0 := Entered(c, s, t0);
    if Enough(c, s.world) {
      EnteredHeld(c, s, t0);
      forall es: seq<GameEvent>, now: real, hi: nat | hi <= INDEX_LIMIT
        ensures var p := Walk(Run(c), Play(c, s0, es), now, 0, hi);
                EXEC in FiredBy(c, s0, es) + Fires(p.log) || p.state.world.stage.Halftime?
      {
        PlayHeld(c, s0, es, t0);
        if EXEC !in FiredBy(c, s0, es) {
          WalkHeld(c, Play(c, s0, es), now, 0, hi, t0);
        }
      }
    } else {
      ReadyListFirst(c, s, t0);
    }
  }

  /** The swap itself: everywhere but before a tied overtime that keeps its sides, both the
      scores and the players change sides; doing it twice changes nothing. */
  lemma SwapTwice(c: Config, w: World)
    requires c.gameRules && Balanced(w.board)
    ensures SwapTeams(c, SwapTeams(c, w)) == w
    ensures SwapTeams(c, w) == w <==>
              GetRound(w) >= c.playRounds && GetScores(w, T) == GetScores(w, CT) && !c.overtimeSwap
  {
    var w' := SwapAllPlayers(SwapScores(w));
    Totals(w);
    Totals(w');
    assert SwapAllPlayers(SwapScores(w')).board == w.board;
  }

  // ---------- the length of an overtime period ----------

  /** The world after the sides in the list won one round each. */
  function WonRounds(w: World, sides: seq<Side>): World
  {
    if sides == [] then w else AddRound(WonRounds(w, sides[..|sides| - 1]), sides[|sides| - 1])
  }

  lemma {:induction false} OvertimeCounts(w: World, sides: seq<Side>)
    requires w.stage.Overtime? && Balanced(w.board) && w.board[6] == Zero()
    ensures var v := WonRounds(w, sides);
            && v.stage.Overtime? && Balanced(v.board) && v.board[6].round == |sides|
            && v.board[3] == w.board[3] && v.board[5] == w.board[5]
  {
    if sides != [] {
      OvertimeCounts(w, sides[..|sides| - 1]);
    }
  }

  lemma ModBelow(b: nat, n: nat, k: nat)
    requires k > 0 && 1 <= n <= k - b % k
    ensures (b + n) % k == 0 <==> n == k - b % k
  {
    var r := b % k;
    assert b == k * (b / k) + r;
    if n == k - r {
      assert k * (b / k + 1) == k * (b / k) + k;
      RemainderUnique(b + n, k, b / k + 1);
    } else {
      NonMultiple(b + n, k, b / k, r + n);
    }
  }

  lemma NonMultiple(n: nat, k: nat, m: int, r: int)
    requires k > 0 && n == k * m + r && 0 < r < k
    ensures n % k != 0
  {
    if n % k == 0 {
      var d := n / k - m;
      assert n == k * (n / k);
      assert k * d == k * (n / k) - k * m;
      if d >= 1 {
        MulAtLeast(k, d);
      } else {
        MulAtMost(k, d);
      }
    }
  }

  lemma MulAtMost(k: int, d: int)
    requires k > 0 && d <= 0
    ensures k * d <= 0
  {
  }

  /**
  An overtime period entered with zeroed counters after b rounds, with k half the overtime
  length: as rounds are won, none of them gives an overtime winner, and the next state is
  asked for after exactly k - (b mod k) rounds and not before.
  */
  lemma OvertimePeriodLength(c: Config, w: World, sides: seq<Side>)
    requires c.overtimeRounds >= 2
    requires w.stage.Overtime? && Balanced(w.board) && w.board[6] == Zero()
    requires var k := c.overtimeRounds / 2;
             1 <= |sides| <= k - (w.board[3].round + w.board[5].round) % k
    ensures var k := c.overtimeRounds / 2;
            var v := WonRounds(w, sides);
            && !GetOvertimeWinner(c, v)
            && (RoundEndsPeriod(c, v) <==> |sides| == k - (w.board[3].round + w.board[5].round) % k)
  {
    var v := WonRounds(w, sides);
    var k, b := c.overtimeRounds / 2, w.board[3].round + w.board[5].round;
    OvertimeCounts(w, sides);
    NoOvertimeWinner(c, v);
    Totals(v);
    ModBelow(b, |sides|, k);
  }
}
