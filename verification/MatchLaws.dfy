/**
What single operations of the match engine mean: when a match goes live, which rounds count, who
has won after a surrender, when an overtime is won, and what a restarted or stopped period leaves.
*/
module MatchLaws {
  import opened Options
  import opened Tasks
  import opened Match
  import opened MatchScores

  // ---------- going live ----------

  /** Both sides have half the players that a match needs. */
  predicate BothHave(c: Config, tr: nat, ct: nat)
  {
    tr >= c.playersMin / 2 && ct >= c.playersMin / 2
  }

  /** The players in the teams are enough, as they are or after the game has balanced them. */
  predicate MayGoLive(c: Config, w: World)
  {
    || !c.checkPlayers
    || BothHave(c, w.env.tr, w.env.ct)
    || (c.gameRules && BothHave(c, w.env.balancedTr, w.env.balancedCt))
  }

  function FallBack(stage: Stage): Stage
  {
    if stage.FirstHalf? then Warmup else Halftime
  }

  /**
  Entering a live stage: the match is live if and only if the players may do for it, and otherwise
  back in warm-up or half-time. A match that has gone live under the check has enough players on
  both sides. Teams are only balanced if they have to be, and scores only reset for the first half.
  */
  lemma GoesLiveIff(c: Config, w: World, stage: Stage)
    requires stage.Live()
    ensures var v := SetState(c, w, stage).world;
            && v.stage == (if MayGoLive(c, w) then stage else FallBack(stage))
            && (v.stage.Live() && c.checkPlayers ==> BothHave(c, v.env.tr, v.env.ct))
            && v.env == (if !c.checkPlayers || BothHave(c, w.env.tr, w.env.ct) || !c.gameRules then w.env
                         else w.env.(tr := w.env.balancedTr, ct := w.env.balancedCt))
            && v.board == if stage.FirstHalf? then ZeroBoard() else w.board
  {
    if !stage.FirstHalf? {
      assert SetState(c, w, stage) == Resume(c, w.(stage := stage, pause := false));
    }
  }

  /** So it is for the transitions that lead to a live stage. */
  lemma TransitionGoesLive(c: Config, w: World)
    requires w.stage.Start? || w.stage.Halftime?
    ensures var v := RunState(c, w).world;
            && (v.stage.Live() <==> MayGoLive(c, w))
            && (!v.stage.Live() ==> v.stage == if w.stage.Start? then Warmup else Halftime)
            && (v.stage.Live() && c.checkPlayers ==> BothHave(c, v.env.tr, v.env.ct))
            && (v.stage.Live() ==> v.stage == if w.stage.Start? then FirstHalf
                                              else if GetRound(w) < c.playRounds then SecondHalf else Overtime)
  {
    GoesLiveIff(c, w, Next(c, w));
  }

  /** What follows the end: the vote for a map if it is held then, or a new warm-up. */
  lemma EndLeadsTo(c: Config, w: World)
    requires w.stage.End?
    ensures var v := RunState(c, w).world;
            && (v.stage.Start? <==> c.voteMapEnd && c.voteMapType == 1)
            && (v.stage.Warmup? <==> !(c.voteMapEnd && c.voteMapType == 1))
            && v.board == w.board && v.env == w.env
  {
  }

  // ---------- the swap ----------

  /** A swap that takes place exchanges the players and the totals of the two sides; in a tied
      overtime that keeps its sides nothing happens. */
  lemma SwapExchanges(c: Config, w: World)
    requires Balanced(w.board)
    ensures var v := SwapTeams(c, w);
            var kept := GetRound(w) >= c.playRounds && GetScores(w, T) == GetScores(w, CT) && !c.overtimeSwap;
            if kept then v == w
            else
              && (forall s: Side :: GetScores(v, s) == GetScores(w, s.Other())) && GetRound(v) == GetRound(w)
              && (c.gameRules ==> v.env.tr == w.env.ct && v.env.ct == w.env.tr && v.swapped != w.swapped)
              && (!c.gameRules ==> v.env == w.env && v.swapped == w.swapped)
  {
    Totals(w);
    Totals(SwapTeams(c, w));
  }

  // ---------- rounds ----------

  /** Going to another stage than the first half leaves the scores alone. */
  lemma NextKeepsScores(c: Config, w: World, delay: real)
    requires !w.stage.Start?
    ensures NextState(c, w, delay).world.board == w.board
  {
    SetStateScores(c, w, Next(c, w));
  }

  /**
  The end of a round writes one round, for the side that has won it, if and only if the match is
  live, the game has rules, is started and neither resetting nor frozen, and some side has won.
  */
  lemma RoundWritten(c: Config, w: World, win: Win, counted: bool, delay: real)
    requires w.stage.Overtime? ==> c.overtimeRounds > 1
    ensures var b := RoundEnd(c, w, win, counted, delay).world.board;
            var n := w.stage.Num();
            if w.stage.Live() && c.gameRules && w.env.started && counted && win.WinSide? then
              && b[n].round == w.board[n].round + 1 && b[n].Of(win.side) == w.board[n].Of(win.side) + 1
              && b[n].Of(win.side.Other()) == w.board[n].Of(win.side.Other())
              && (forall i :: 0 <= i < 8 && i != n ==> b[i] == w.board[i])
            else b == w.board
  {
    var v := Score(c, w, win, counted);
    if w.stage.Live() && !win.WinNone? && RoundEndsPeriod(c, v) {
      NextKeepsScores(c, v, delay);
    }
  }

  // ---------- the winner of an overtime ----------

  lemma FloorIs(x: real, n: int)
    requires n as real <= x < n as real + 1.0
    ensures x.Floor == n
  {
  }

  lemma QuotientBetween(r: real, o: real, n: real, m: real)
    requires o > 0.0 && r == n * o + m && 0.0 <= m < o
    ensures n <= r / o < n + 1.0 && (r / o - n > 0.5 <==> 2.0 * m > o)
  {
    var q := r / o;
    assert q * o == r;
    assert (q - n) * o == m;
    SignOf(q - n, o);
    SignOf(q - n - 1.0, o);
    SignOf(q - n - 0.5, o);
    assert (q - n - 1.0) * o == m - o;
    assert (q - n - 0.5) * o == m - 0.5 * o;
  }

  lemma SignOf(x: real, o: real)
    requires o > 0.0
    ensures x * o > 0.0 <==> x > 0.0
    ensures x * o < 0.0 <==> x < 0.0
  {
  }

  /** The fractional part in whole numbers: more than half of an overtime length beyond the last
      full one has been played, and one side leads by at least three. */
  lemma OvertimeWonIff(c: Config, t: Tally)
    requires t.round >= 0
    ensures OvertimeWon(c, t) <==>
            c.overtimeRounds > 0 && 2 * (t.round % c.overtimeRounds) > c.overtimeRounds
            && (t.tr >= t.ct + 3 || t.ct >= t.tr + 3)
  {
    if c.overtimeRounds > 0 {
      var o, n, m := c.overtimeRounds, t.round / c.overtimeRounds, t.round % c.overtimeRounds;
      assert t.round == n * o + m;
      RealParts(t.round, o, n, m);
      QuotientBetween(t.round as real, o as real, n as real, m as real);
      FloorIs(t.round as real / o as real, n);
    }
  }

  lemma RealParts(r: int, o: int, n: int, m: int)
    requires r == n * o + m
    ensures r as real == n as real * o as real + m as real
  {
    assert (n * o) as real == n as real * o as real;
  }

  // ---------- surrender, restart, stop ----------

  /**
  A surrender ends the match with the winner ahead. A winner who was ahead keeps the scores; another
  gets half the rounds and one more, the other side none.
  */
  lemma SurrenderWins(c: Config, w: World, winner: Side)
    ensures var v := EndGame(c, w, winner).world;
            && v.stage.End? && GetScores(v, winner) > GetScores(v, winner.Other())
            && (GetScores(w, winner) > GetScores(w, winner.Other()) ==> v.board == w.board)
            && (GetScores(w, winner) <= GetScores(w, winner.Other()) ==>
                  && GetScores(v, winner) == Half(c) + 1 && GetScores(v, winner.Other()) == 0
                  && GetRound(v) == Half(c) + 1)
  {
    if GetScores(w, winner) <= GetScores(w, winner.Other()) {
      Totals(EndGame(c, w, winner).world);
    }
  }

  /** A restarted period is at zero and goes live again with the same players and the other
      periods as they were, or falls back; outside a live period nothing happens. */
  lemma RestartWipes(c: Config, w: World)
    ensures var e := RestartPeriod(c, w);
            var v, n := e.world, w.stage.Num();
            if w.stage.Live() then
              && v.stage == (if MayGoLive(c, w) then w.stage else FallBack(w.stage))
              && v.board[n] == Zero()
              && (!w.stage.FirstHalf? ==> forall i :: 0 <= i < 8 && i != n ==> v.board[i] == w.board[i])
              && (v.stage.Live() ==> e.commands == [Remove(LIST), Create(LO3R, 2.0, false, Some(CallLo3(2)))])
            else e == Outcome(w, [])
  {
    if w.stage.Live() {
      GoesLiveIff(c, ResetStateScores(w), w.stage);
    }
  }

  /** A stopped match is at its end with its scores, and no step of a restart is left; outside a
      half, half-time and overtime nothing happens. */
  lemma StopEnds(c: Config, w: World, q: Queue<Callback>, now: real)
    ensures var e := StopMatch(c, w);
            if w.stage.Live() || w.stage.Halftime? then
              && e.world.stage.End? && e.world.board == w.board && e.world.env == w.env
              && !Live(ApplyAll(q, now, e.commands), LO3R)
            else e == Outcome(w, [])
  {
    if w.stage.Live() || w.stage.Halftime? {
      var e := StopMatch(c, w);
      assert e.commands == [e.commands[0], e.commands[1]];
      ApplyTwo(q, now, e.commands[0], e.commands[1]);
    }
  }
}
