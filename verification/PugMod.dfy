/**
The match engine as the object it is: scores in arrays that the methods update in place,
timers in a shared timer map. Each method is proved to do what the function of the same
name in Match says, on its own fields and on the timer map.
*/
module PugMod {
  import opened Options
  import opened Tasks
  import opened Match

  const UNASSIGNED: nat := 0
  const TERRORIST: nat := 1
  const COUNTER_TERRORIST: nat := 2
  const SPECTATOR: nat := 3

  function Column(s: Side): nat
  {
    if s.T? then TERRORIST else COUNTER_TERRORIST
  }

  class CPugMod {
    const config: Config
    const tasks: TaskQueue<Callback>
    const rounds: array<int>
    const scores: array2<int>
    var stage: Stage
    var pause: bool
    var env: Env
    var swapped: bool

    constructor (config: Config, tasks: TaskQueue<Callback>, env: Env)
      ensures Valid() && fresh(rounds) && fresh(scores)
      ensures this.config == config && this.tasks == tasks
      ensures View() == World(Dead, false, ZeroBoard(), env, false)
    {
      this.config := config;
      this.tasks := tasks;
      this.env := env;
      stage, pause, swapped := Dead, false, false;
      rounds := new int[8](_ => 0);
      scores := new int[8, 4]((_, _) => 0);
    }

    ghost predicate Valid()
    {
      rounds.Length == 8 && scores.Length0 == 8 && scores.Length1 == 4
    }

    /** m_Round and the two playing columns of m_Score; the other two are only ever zeroed. */
    ghost function Scoreboard(): Board
      requires Valid()
      reads rounds, scores
    {
      seq(8, i requires 0 <= i < 8 && Valid() reads rounds, scores =>
        Tally(rounds[i], scores[i, TERRORIST], scores[i, COUNTER_TERRORIST]))
    }

    ghost function View(): World
      requires Valid()
      reads this, rounds, scores
    {
      World(stage, pause, Scoreboard(), env, swapped)
    }

    /** What a method with effect e leaves behind, from the world and the timers before. */
    twostate predicate Performed(now: real, new e: Effect)
      requires Valid()
      reads this, rounds, scores, tasks
    {
      View() == e.world && tasks.data == ApplyAll(old(tasks.data), now, e.commands)
    }

    method GetRound() returns (r: int)
      requires Valid()
      ensures r == Match.GetRound(View())
    {
      r := 0;
      for i := 0 to 8
        invariant r == RoundsTo(Scoreboard(), i)
      {
        r := r + rounds[i];
      }
    }

    method GetScores(s: Side) returns (r: int)
      requires Valid()
      ensures r == Match.GetScores(View(), s)
    {
      r := 0;
      for i := 0 to 8
        invariant r == ScoresTo(Scoreboard(), s, i)
      {
        r := r + scores[i, Column(s)];
      }
    }

    /** The leading side, if there is one. */
    method GetWinner() returns (winner: Option<Side>)
      requires Valid()
      ensures winner.None? <==> Match.GetScores(View(), T) == Match.GetScores(View(), CT)
      ensures winner.Some? ==> Match.GetScores(View(), winner.value) > Match.GetScores(View(), winner.value.Other())
    {
      var t := GetScores(T);
      var ct := GetScores(CT);
      if t != ct {
        winner := Some(if t > ct then T else CT);
      } else {
        winner := None;
      }
    }

    method ResetScores()
      requires Valid()
      modifies rounds, scores
      ensures View() == Match.ResetScores(old(View()))
    {
      forall i | 0 <= i < 8 {
        rounds[i] := 0;
      }
      forall i, j | 0 <= i < 8 && 0 <= j < 4 {
        scores[i, j] := 0;
      }
      assert Scoreboard() == ZeroBoard();
    }

    method ResetStateScores()
      requires Valid()
      modifies rounds, scores
      ensures View() == Match.ResetStateScores(old(View()))
    {
      var n := stage.Num();
      rounds[n] := 0;
      for i := UNASSIGNED to SPECTATOR + 1
        invariant rounds[..] == old(rounds[..])[n := 0]
        invariant forall p, q :: 0 <= p < 8 && 0 <= q < 4 ==>
                                   scores[p, q] == if p == n && q < i then 0 else old(scores[p, q])
      {
        scores[n, i] := 0;
      }
      assert Scoreboard() == Match.ResetStateScores(old(View())).board;
    }

    method AddRound(s: Side)
      requires Valid()
      modifies rounds, scores
      ensures View() == Match.AddRound(old(View()), s)
    {
      var n := stage.Num();
      rounds[n] := rounds[n] + 1;
      scores[n, Column(s)] := scores[n, Column(s)] + 1;
      assert Scoreboard() == Match.AddRound(old(View()), s).board;
    }

    method SwapScores()
      requires Valid()
      modifies scores
      ensures View() == Match.SwapScores(old(View()))
    {
      for i := FirstHalf.Num() to Overtime.Num() + 1
        invariant forall p, q :: 0 <= p < 8 && 0 <= q < 4 ==>
                                   scores[p, q] == if 3 <= p < i && q == TERRORIST then old(scores[p, COUNTER_TERRORIST])
                                                   else if 3 <= p < i && q == COUNTER_TERRORIST then old(scores[p, TERRORIST])
                                                   else old(scores[p, q])
      {
        scores[i, TERRORIST], scores[i, COUNTER_TERRORIST] := scores[i, COUNTER_TERRORIST], scores[i, TERRORIST];
      }
      assert Scoreboard() == Match.SwapScores(old(View())).board;
    }

    method SwapTeams()
      requires Valid()
      modifies this, scores
      ensures View() == Match.SwapTeams(config, old(View()))
    {
      var round := GetRound();
      if round >= config.playRounds {
        var t := GetScores(T);
        var ct := GetScores(CT);
        if t == ct {
          if !config.overtimeSwap {
            return;
          }
        }
      }
      SwapScores();
      if config.gameRules {
        swapped := !swapped;
        env := env.(tr := env.ct, ct := env.tr, balancedTr := env.balancedCt, balancedCt := env.balancedTr);
      }
    }

    method CheckBalanceTeams() returns (ok: bool)
      requires Valid()
      modifies this
      ensures (ok, View()) == Match.CheckBalanceTeams(config, old(View()))
    {
      if config.checkPlayers {
        var min := config.playersMin / 2;
        if env.tr < min || env.ct < min {
          if config.gameRules {
            env := env.(tr := env.balancedTr, ct := env.balancedCt);
            if env.tr >= min && env.ct >= min {
              return true;
            }
          }
          return false;
        }
      }
      return true;
    }

    method Lo3(now: real, seconds: int)
      requires Valid()
      modifies this`env, rounds, scores, tasks
      ensures Performed(now, Match.Lo3(config, old(View()), seconds))
    {
      if 1 <= seconds <= 3 {
        tasks.Create(now, LO3R, (seconds + 1) as real, false, Some(CallLo3(seconds + 1)));
        ApplyOne(old(tasks.data), now, Create(LO3R, (seconds + 1) as real, false, Some(CallLo3(seconds + 1))));
      } else {
        if config.gameRules {
          env := env.(started := true);
        }
        ResetStateScores();
      }
    }

    method SetState(now: real, next: Stage)
      requires Valid()
      modifies this, rounds, scores, tasks
      ensures Performed(now, Match.SetState(config, old(View()), next))
      decreases if next.Live() then 2 else 1
    {
      stage := next;
      pause := false;
      match next {
        case Warmup =>
          tasks.Create(now, LIST, 0.5, true, Some(CallReadyList));
          ApplyOne(old(tasks.data), now, LoadReady());
        case Start =>
          tasks.Remove(LIST);
          ApplyOne(old(tasks.data), now, Remove(LIST));
        case FirstHalf =>
          tasks.Remove(LIST);
          ResetScores();
          var ok := CheckBalanceTeams();
          ghost var w := View();
          ghost var e := if ok then Match.Lo3(config, w, 1) else Match.SetState(config, w, Warmup);
          ApplyFirst(old(tasks.data), now, Remove(LIST), e.commands);
          if ok {
            Lo3(now, 1);
          } else {
            SetState(now, Warmup);
          }
        case Halftime =>
          tasks.Create(now, EXEC, 5.0, false, Some(CallSwapTeams));
          ghost var swap := Create(EXEC, 5.0, false, Some(CallSwapTeams));
          if env.tr + env.ct >= config.playersMin {
            tasks.Create(now, NEXT, 7.0, false, Some(CallRunState));
            ApplyTwo(old(tasks.data), now, swap, Create(NEXT, 7.0, false, Some(CallRunState)));
          } else {
            tasks.Create(now, LIST, 0.5, true, Some(CallReadyList));
            ApplyTwo(old(tasks.data), now, swap, LoadReady());
          }
        case SecondHalf => Resume(now);
        case Overtime => Resume(now);
        case End =>
          tasks.Create(now, NEXT, 5.0, false, Some(CallRunState));
          ApplyOne(old(tasks.data), now, Create(NEXT, 5.0, false, Some(CallRunState)));
        case Dead =>
      }
    }

    /** The branch of SetState that the second half and overtime share. */
    method Resume(now: real)
      requires Valid()
      modifies this, rounds, scores, tasks
      ensures Performed(now, Match.Resume(config, old(View())))
      decreases 2, 0
    {
      tasks.Remove(LIST);
      var ok := CheckBalanceTeams();
      ghost var w := View();
      ghost var e := if ok then Match.Lo3(config, w, 1) else Match.SetState(config, w, Halftime);
      ApplyFirst(old(tasks.data), now, Remove(LIST), e.commands);
      if ok {
        Lo3(now, 1);
      } else {
        SetState(now, Halftime);
      }
    }

    method GetOvertimeWinner() returns (won: bool)
      requires Valid()
      ensures won == Match.GetOvertimeWinner(config, View())
    {
      if config.overtimeRounds == 0 {
        return false;
      }
      var n := Overtime.Num();
      var state := rounds[n] as real / config.overtimeRounds as real;
      var ratio := state - (if state >= 0.0 then state.Floor else -((-state).Floor)) as real;
      won := false;
      if ratio > 0.5 {
        var lead := scores[n, TERRORIST] - scores[n, COUNTER_TERRORIST];
        if lead > 2 || -lead > 2 {
          won := true;
        }
      }
    }

    method RunState(now: real)
      requires Valid()
      modifies this, rounds, scores, tasks
      ensures Performed(now, Match.RunState(config, old(View())))
    {
      var next := Dead;
      match stage {
        case Dead => next := Warmup;
        case Warmup => next := Start;
        case Start => next := FirstHalf;
        case FirstHalf => next := Halftime;
        case Halftime =>
          var round := GetRound();
          next := if round < config.playRounds then SecondHalf else Overtime;
        case SecondHalf =>
          next := End;
          var half := config.playRounds / 2;
          var t := GetScores(T);
          var ct := GetScores(CT);
          if t == half && ct == half {
            if config.overtimeType == 1 {
              next := Halftime;
            }
          }
        case Overtime =>
          next := Halftime;
          var won := GetOvertimeWinner();
          if won {
            next := End;
          }
        case End =>
          next := Warmup;
          if config.voteMapEnd {
            if config.voteMapType == 1 {
              next := Start;
            }
          }
      }
      SetState(now, next);
    }

    method NextState(now: real, delay: real)
      requires Valid()
      modifies this, rounds, scores, tasks
      ensures Performed(now, Match.NextState(config, old(View()), delay))
    {
      if delay != 0.0 {
        tasks.Create(now, NEXT, delay, false, Some(CallRunState));
        ApplyOne(old(tasks.data), now, Create(NEXT, delay, false, Some(CallRunState)));
      } else {
        RunState(now);
      }
    }

    method RoundEndsPeriod() returns (ends: bool)
      requires Valid() && (stage.Overtime? ==> config.overtimeRounds > 1)
      ensures ends == Match.RoundEndsPeriod(config, View())
    {
      var round := GetRound();
      ends := false;
      if stage == FirstHalf {
        ends := round >= config.playRounds / 2;
      } else if stage == SecondHalf {
        var half := config.playRounds / 2;
        var t := GetScores(T);
        var ct := GetScores(CT);
        if t > half || ct > half {
          ends := true;
        } else if t == half && ct == half {
          ends := config.overtimeType == 1 || config.overtimeType == 2;
        }
      } else if stage == Overtime {
        var won := GetOvertimeWinner();
        ends := won || round % (config.overtimeRounds / 2) == 0;
      }
    }

    method RoundEnd(now: real, win: Win, counted: bool, delay: real)
      requires Valid() && (stage.Overtime? ==> config.overtimeRounds > 1)
      modifies this, rounds, scores, tasks
      ensures Performed(now, Match.RoundEnd(config, old(View()), win, counted, delay))
    {
      if stage.Live() {
        if win != WinNone {
          if config.gameRules && env.started && counted && win.WinSide? {
            AddRound(win.side);
          }
          var ends := RoundEndsPeriod();
          if ends {
            NextState(now, delay);
          }
        }
      }
    }

    method RestartPeriod(now: real)
      requires Valid()
      modifies this, rounds, scores, tasks
      ensures Performed(now, Match.RestartPeriod(config, old(View())))
    {
      if stage.Live() {
        var n := stage.Num();
        rounds[n] := 0;
        scores[n, TERRORIST] := 0;
        scores[n, COUNTER_TERRORIST] := 0;
        assert Scoreboard() == Match.ResetStateScores(old(View())).board;
        SetState(now, stage);
      }
    }

    /** The scores that a surrender writes into an empty board. */
    method Surrender(winner: Side)
      requires Valid() && Scoreboard() == ZeroBoard()
      modifies rounds, scores
      ensures View() == old(View()).(board := SurrenderBoard(config, winner))
    {
      var first, second := FirstHalf.Num(), SecondHalf.Num();
      assert forall i :: 0 <= i < 8 ==> Scoreboard()[i] == Zero();
      rounds[first] := config.playRounds / 2;
      rounds[second] := 1;
      scores[first, Column(winner)] := rounds[first];
      scores[second, Column(winner)] := rounds[second];
      forall i | 0 <= i < 8
        ensures Scoreboard()[i] == SurrenderBoard(config, winner)[i]
      {
        assert old(Scoreboard())[i] == Zero();
      }
    }

    method EndGame(now: real, winner: Side)
      requires Valid()
      modifies this, rounds, scores, tasks
      ensures Performed(now, Match.EndGame(config, old(View()), winner))
    {
      var w := GetScores(winner);
      var l := GetScores(winner.Other());
      if w <= l {
        ResetScores();
        Surrender(winner);
      }
      SetState(now, End);
    }
  }
}
