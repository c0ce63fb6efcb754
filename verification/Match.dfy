/**
The match engine: its states, its scores per period, and the timer commands each operation
issues. Every operation is a function from a world to a world and a list of timer commands;
the class PugMod below updates its fields in place and is proved to do the same.
*/
module Match {
  import opened Options
  import opened Tasks

  const EXEC: Index := 100
  const LIST: Index := 102
  const NEXT: Index := 103
  const LO3R: Index := 104

  datatype Stage = Dead | Warmup | Start | FirstHalf | Halftime | SecondHalf | Overtime | End {
    function Num(): (n: nat)
      ensures n < 8
    {
      match this
      case Dead => 0
      case Warmup => 1
      case Start => 2
      case FirstHalf => 3
      case Halftime => 4
      case SecondHalf => 5
      case Overtime => 6
      case End => 7
    }

    predicate Live()
    {
      FirstHalf? || SecondHalf? || Overtime?
    }
  }

  datatype Side = T | CT {
    function Other(): Side
    {
      if T? then CT else T
    }
  }

  datatype Win = WinNone | WinSide(side: Side) | WinDraw

  /** Rounds played in one period and rounds won by each side in it. */
  datatype Tally = Tally(round: int, tr: int, ct: int) {
    function Of(s: Side): int
    {
      if s.T? then tr else ct
    }

    function Swapped(): Tally
    {
      Tally(round, ct, tr)
    }
  }

  function Zero(): Tally
  {
    Tally(0, 0, 0)
  }

  type Board = b: seq<Tally> | |b| == 8 witness seq(8, _ => Zero())

  function ZeroBoard(): Board
  {
    seq(8, _ => Zero())
  }

  /** Players in the two teams now, the same after the game's BalanceTeams, whether the ready
      list would let the match continue, and whether the game counts as started. */
  datatype Env = Env(tr: nat, ct: nat, balancedTr: nat, balancedCt: nat, ready: bool, started: bool)

  /** swapped: the two rosters have changed sides an odd number of times. */
  datatype World = World(stage: Stage, pause: bool, board: Board, env: Env, swapped: bool)

  /** The console variables the engine reads, and whether the game rules are installed. */
  datatype Config = Config(
    playRounds: nat, overtimeRounds: nat, overtimeType: int, overtimeSwap: bool,
    playersMin: nat, checkPlayers: bool, voteMapEnd: bool, voteMapType: int, gameRules: bool)

  datatype Callback = CallSwapTeams | CallRunState | CallLo3(seconds: int) | CallReadyList

  type Effect = Outcome<Callback, World>

  // ---------- reading the scores ----------

  /** Rounds, and wins of one side, over the periods below n. */
  function RoundsTo(b: Board, n: nat): int
    requires n <= 8
  {
    if n == 0 then 0 else RoundsTo(b, n - 1) + b[n - 1].round
  }

  function ScoresTo(b: Board, s: Side, n: nat): int
    requires n <= 8
  {
    if n == 0 then 0 else ScoresTo(b, s, n - 1) + b[n - 1].Of(s)
  }

  function GetRound(w: World): int
  {
    RoundsTo(w.board, 8)
  }

  function GetScores(w: World, s: Side): int
  {
    ScoresTo(w.board, s, 8)
  }

  /** The fractional part of rounds played over overtime length, compared in real numbers. With
      length 0 the quotient is infinite or no number, and neither has a fractional part above 0.5. */
  predicate OvertimeWon(c: Config, t: Tally)
  {
    c.overtimeRounds > 0 &&
    var state := t.round as real / c.overtimeRounds as real;
    var ratio := state - (if state >= 0.0 then state.Floor else -((-state).Floor)) as real;
    ratio > 0.5 && (t.tr - t.ct > 2 || t.ct - t.tr > 2)
  }

  predicate GetOvertimeWinner(c: Config, w: World)
  {
    OvertimeWon(c, w.board[Overtime.Num()])
  }

  // ---------- writing the scores ----------

  function AddRound(w: World, s: Side): World
  {
    var n := w.stage.Num();
    var t := w.board[n];
    w.(board := w.board[n := if s.T? then Tally(t.round + 1, t.tr + 1, t.ct) else Tally(t.round + 1, t.tr, t.ct + 1)])
  }

  function ResetScores(w: World): World
  {
    w.(board := ZeroBoard())
  }

  function ResetStateScores(w: World): World
  {
    w.(board := w.board[w.stage.Num() := Zero()])
  }

  function SwapScores(w: World): World
  {
    w.(board := seq(8, i requires 0 <= i < 8 => if 3 <= i <= 6 then w.board[i].Swapped() else w.board[i]))
  }

  /** The game's SwapAllPlayers. */
  function SwapAllPlayers(w: World): World
  {
    w.(swapped := !w.swapped,
       env := w.env.(tr := w.env.ct, ct := w.env.tr, balancedTr := w.env.balancedCt, balancedCt := w.env.balancedTr))
  }

  // ---------- transitions ----------

  function Half(c: Config): int
  {
    c.playRounds / 2
  }

  function CheckBalanceTeams(c: Config, w: World): (bool, World)
  {
    var min := c.playersMin / 2;
    if c.checkPlayers && (w.env.tr < min || w.env.ct < min) then
      if c.gameRules then
        var w' := w.(env := w.env.(tr := w.env.balancedTr, ct := w.env.balancedCt));
        (w'.env.tr >= min && w'.env.ct >= min, w')
      else (false, w)
    else (true, w)
  }

  /** The last step of the chain starts the game for good and wipes the period. */
  function Lo3(c: Config, w: World, seconds: int): Effect
  {
    if 1 <= seconds <= 3 then
      Outcome(w, [Create(LO3R, (seconds + 1) as real, false, Some(CallLo3(seconds + 1)))])
    else
      Outcome(ResetStateScores(GameStarts(c, w)), [])
  }

  function GameStarts(c: Config, w: World): World
  {
    if c.gameRules then w.(env := w.env.(started := true)) else w
  }

  function LoadReady(): Command<Callback>
  {
    Create(LIST, 0.5, true, Some(CallReadyList))
  }

  function SetState(c: Config, w0: World, stage: Stage): Effect
    decreases if stage.Live() then 2 else 1
  {
    var w := w0.(stage := stage, pause := false);
    match stage
    case Warmup => Outcome(w, [LoadReady()])
    case Start => Outcome(w, [Remove(LIST)])
    case FirstHalf =>
      var (ok, w') := CheckBalanceTeams(c, ResetScores(w));
      var next := if ok then Lo3(c, w', 1) else SetState(c, w', Warmup);
      Outcome(next.world, [Remove(LIST)] + next.commands)
    case Halftime =>
      var swap := Create(EXEC, 5.0, false, Some(CallSwapTeams));
      if w.env.tr + w.env.ct >= c.playersMin then
        Outcome(w, [swap, Create(NEXT, 7.0, false, Some(CallRunState))])
      else
        Outcome(w, [swap, LoadReady()])
    case SecondHalf =>
      Resume(c, w)
    case Overtime =>
      Resume(c, w)
    case End => Outcome(w, [Create(NEXT, 5.0, false, Some(CallRunState))])
    case Dead => Outcome(w, [])
  }

  /** The second half or an overtime goes live, or falls back to half-time. */
  function Resume(c: Config, w: World): Effect
    decreases 2, 0
  {
    var (ok, w') := CheckBalanceTeams(c, w);
    var next := if ok then Lo3(c, w', 1) else SetState(c, w', Halftime);
    Outcome(next.world, [Remove(LIST)] + next.commands)
  }

  function Next(c: Config, w: World): Stage
  {
    match w.stage
    case Dead => Warmup
    case Warmup => Start
    case Start => FirstHalf
    case FirstHalf => Halftime
    case Halftime => if GetRound(w) < c.playRounds then SecondHalf else Overtime
    case SecondHalf =>
      if GetScores(w, T) == Half(c) && GetScores(w, CT) == Half(c) && c.overtimeType == 1 then Halftime else End
    case Overtime => if GetOvertimeWinner(c, w) then End else Halftime
    case End => if c.voteMapEnd && c.voteMapType == 1 then Start else Warmup
  }

  function RunState(c: Config, w: World): Effect
  {
    SetState(c, w, Next(c, w))
  }

  function NextState(c: Config, w: World, delay: real): Effect
  {
    if delay != 0.0 then Outcome(w, [Create(NEXT, delay, false, Some(CallRunState))]) else RunState(c, w)
  }

  function SwapTeams(c: Config, w: World): World
  {
    if GetRound(w) >= c.playRounds && GetScores(w, T) == GetScores(w, CT) && !c.overtimeSwap then w
    else if c.gameRules then SwapAllPlayers(SwapScores(w))
    else SwapScores(w)
  }

  /** The ready list lets the match continue: NextState(0). */
  function ReadyList(c: Config, w: World): Effect
  {
    if w.env.ready then
      var next := RunState(c, w);
      Outcome(next.world, [Remove(LIST)] + next.commands)
    else Outcome(w, [])
  }

  // ---------- a round ends ----------

  /** Whether a round counts; counted: the game is neither resetting nor frozen. */
  predicate Counts(c: Config, w: World, win: Win, counted: bool)
  {
    c.gameRules && w.env.started && counted && win.WinSide?
  }

  function Score(c: Config, w: World, win: Win, counted: bool): World
  {
    if Counts(c, w, win, counted) then AddRound(w, win.side) else w
  }

  /** Whether the end of a round asks for the next state, with the scores already counted. In
      overtime the source divides by half the overtime length. */
  predicate RoundEndsPeriod(c: Config, w: World)
    requires w.stage.Overtime? ==> c.overtimeRounds > 1
  {
    match w.stage
    case FirstHalf => GetRound(w) >= Half(c)
    case SecondHalf =>
      || GetScores(w, T) > Half(c) || GetScores(w, CT) > Half(c)
      || (GetScores(w, T) == Half(c) && GetScores(w, CT) == Half(c) && (c.overtimeType == 1 || c.overtimeType == 2))
    case Overtime => GetOvertimeWinner(c, w) || GetRound(w) % (c.overtimeRounds / 2) == 0
    case _ => false
  }

  function RoundEnd(c: Config, w: World, win: Win, counted: bool, delay: real): Effect
    requires w.stage.Overtime? ==> c.overtimeRounds > 1
  {
    if w.stage.Live() && !win.WinNone? then
      var w' := Score(c, w, win, counted);
      if RoundEndsPeriod(c, w') then NextState(c, w', delay) else Outcome(w', [])
    else Outcome(w, [])
  }

  // ---------- commands of players and admins ----------

  function RestartPeriod(c: Config, w: World): Effect
  {
    if w.stage.Live() then SetState(c, ResetStateScores(w), w.stage) else Outcome(w, [])
  }

  /** The scores after a surrender: half the rounds and one more for the winner. */
  function SurrenderBoard(c: Config, winner: Side): Board
  {
    var first := if winner.T? then Tally(Half(c), Half(c), 0) else Tally(Half(c), 0, Half(c));
    var second := if winner.T? then Tally(1, 1, 0) else Tally(1, 0, 1);
    ZeroBoard()[3 := first][5 := second]
  }

  function EndGame(c: Config, w: World, winner: Side): Effect
  {
    if GetScores(w, winner) <= GetScores(w, winner.Other()) then
      SetState(c, w.(board := SurrenderBoard(c, winner)), End)
    else SetState(c, w, End)
  }

  function StopMatch(c: Config, w: World): Effect
  {
    if 3 <= w.stage.Num() <= 6 then
      var next := SetState(c, w, End);
      Outcome(next.world, [Remove(LO3R)] + next.commands)
    else Outcome(w, [])
  }

  // ---------- the timer callbacks ----------

  function Call(c: Config, callback: Callback, w: World): Effect
  {
    match callback
    case CallSwapTeams => Outcome(SwapTeams(c, w), [])
    case CallRunState => RunState(c, w)
    case CallLo3(seconds) => Lo3(c, w, seconds)
    case CallReadyList => ReadyList(c, w)
  }

  function Run(c: Config): Behaviour<Callback, World>
  {
    (callback: Callback, w: World, now: real) => Call(c, callback, w)
  }
}
