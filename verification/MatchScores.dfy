/**
Score accounting of the match engine over any sequence of its operations.
*/
module MatchScores {
  import opened Match

  /** Everything that can change the scores or the stage. */
  datatype Op =
    | OpSetState(stage: Stage)
    | OpRunState
    | OpRoundEnd(win: Win, counted: bool, delay: real)
    | OpSwapTeams
    | OpLo3(seconds: int)
    | OpReadyList
    | OpRestartPeriod
    | OpStopMatch
    | OpEndGame(winner: Side)
    | OpPlayers(env: Env)

  /** A round end in overtime divides by half the overtime length. */
  predicate CanStep(c: Config, w: World, op: Op)
  {
    op.OpRoundEnd? && w.stage.Overtime? ==> c.overtimeRounds > 1
  }

  predicate CanRun(c: Config, w: World, ops: seq<Op>)
    decreases |ops|, 0
  {
    ops == [] ||
    var before := ops[..|ops| - 1];
    CanRun(c, w, before) && CanStep(c, Steps(c, w, before), ops[|ops| - 1])
  }

  function Step(c: Config, w: World, op: Op): World
    requires CanStep(c, w, op)
  {
    match op
    case OpSetState(stage) => SetState(c, w, stage).world
    case OpRunState => RunState(c, w).world
    case OpRoundEnd(win, counted, delay) => RoundEnd(c, w, win, counted, delay).world
    case OpSwapTeams => SwapTeams(c, w)
    case OpLo3(seconds) => Lo3(c, w, seconds).world
    case OpReadyList => ReadyList(c, w).world
    case OpRestartPeriod => RestartPeriod(c, w).world
    case OpStopMatch => StopMatch(c, w).world
    case OpEndGame(winner) => EndGame(c, w, winner).world
    case OpPlayers(env) => w.(env := env)
  }

  function Steps(c: Config, w: World, ops: seq<Op>): World
    requires CanRun(c, w, ops)
    decreases |ops|, 1
  {
    if ops == [] then w else Step(c, Steps(c, w, ops[..|ops| - 1]), ops[|ops| - 1])
  }

  // ---------- sums ----------

  lemma TotalOf(b: Board, s: Side)
    requires forall i :: 0 <= i < 8 && i != 3 && i != 5 && i != 6 ==> b[i] == Zero()
    ensures ScoresTo(b, s, 8) == b[3].Of(s) + b[5].Of(s) + b[6].Of(s)
  {
    assert b[0] == b[1] == b[2] == b[4] == b[7] == Zero();
    assert ScoresTo(b, s, 1) == 0;
    assert ScoresTo(b, s, 3) == 0;
    assert ScoresTo(b, s, 5) == b[3].Of(s);
    assert ScoresTo(b, s, 7) == b[3].Of(s) + b[5].Of(s) + b[6].Of(s);
  }

  /** The totals are those of the three live periods. */
  lemma Totals(w: World)
    requires forall i :: 0 <= i < 8 && i != 3 && i != 5 && i != 6 ==> w.board[i] == Zero()
    ensures GetRound(w) == w.board[3].round + w.board[5].round + w.board[6].round
    ensures forall s: Side :: GetScores(w, s) == w.board[3].Of(s) + w.board[5].Of(s) + w.board[6].Of(s)
  {
    var b := w.board;
    assert b[0] == b[1] == b[2] == b[4] == b[7] == Zero();
    assert RoundsTo(b, 1) == 0;
    assert RoundsTo(b, 3) == 0;
    assert RoundsTo(b, 5) == b[3].round;
    assert RoundsTo(b, 7) == b[3].round + b[5].round + b[6].round;
    TotalOf(w.board, T);
    TotalOf(w.board, CT);
  }

  // ---------- rounds and scores agree ----------

  predicate Balanced(b: Board)
  {
    && (forall i :: 0 <= i < 8 ==> b[i].round == b[i].tr + b[i].ct && b[i].tr >= 0 && b[i].ct >= 0)
    && (forall i :: 0 <= i < 8 && i != 3 && i != 5 && i != 6 ==> b[i] == Zero())
  }

  lemma SetStateBalanced(c: Config, w: World, stage: Stage)
    requires Balanced(w.board)
    ensures Balanced(SetState(c, w, stage).world.board)
  {
  }

  lemma RoundEndBalanced(c: Config, w: World, win: Win, counted: bool, delay: real)
    requires (w.stage.Overtime? ==> c.overtimeRounds > 1) && Balanced(w.board)
    ensures Balanced(RoundEnd(c, w, win, counted, delay).world.board)
  {
    if w.stage.Live() && !win.WinNone? {
      var w' := Score(c, w, win, counted);
      SetStateBalanced(c, w', Next(c, w'));
    }
  }

  /** Every operation keeps the rounds of each period equal to the wins in it, and keeps every
      period outside the three live ones at zero; this includes surrender. */
  lemma StepBalanced(c: Config, w: World, op: Op)
    requires CanStep(c, w, op) && Balanced(w.board)
    ensures Balanced(Step(c, w, op).board)
  {
    match op
    case OpSetState(stage) => SetStateBalanced(c, w, stage);
    case OpRunState => SetStateBalanced(c, w, Next(c, w));
    case OpRoundEnd(win, counted, delay) => RoundEndBalanced(c, w, win, counted, delay);
    case OpSwapTeams =>
    case OpLo3(seconds) =>
    case OpReadyList => SetStateBalanced(c, w, Next(c, w));
    case OpRestartPeriod => SetStateBalanced(c, ResetStateScores(w), w.stage);
    case OpStopMatch =>
    case OpEndGame(winner) =>
    case OpPlayers(env) =>
  }

  lemma {:induction false} StepsBalanced(c: Config, w: World, ops: seq<Op>)
    requires CanRun(c, w, ops) && Balanced(w.board)
    ensures Balanced(Steps(c, w, ops).board)
    ensures GetRound(Steps(c, w, ops)) == GetScores(Steps(c, w, ops), T) + GetScores(Steps(c, w, ops), CT)
  {
    if ops != [] {
      StepsBalanced(c, w, ops[..|ops| - 1]);
      StepBalanced(c, Steps(c, w, ops[..|ops| - 1]), ops[|ops| - 1]);
    }
    Totals(Steps(c, w, ops));
  }

  // ---------- scores follow the rosters ----------

  /** The two line-ups: Home starts on the terrorist side. */
  datatype Roster = Home | Away

  function RosterOn(w: World, s: Side): Roster
  {
    if s.T? != w.swapped then Home else Away
  }

  function SideOf(w: World, r: Roster): Side
  {
    if r.Home? != w.swapped then T else CT
  }

  /** The ledger: who won which round of which period, and when a period was wiped. */
  datatype Entry = Won(period: nat, roster: Roster) | Wiped(period: nat) | WipedAll

  /** The rounds of a period won by a roster since the period was last wiped. */
  function Wins(ledger: seq<Entry>, period: nat, r: Roster): nat
  {
    if ledger == [] then 0
    else
      var before := Wins(ledger[..|ledger| - 1], period, r);
      match ledger[|ledger| - 1]
      case Won(p, q) => if p == period && q == r then before + 1 else before
      case Wiped(p) => if p == period then 0 else before
      case WipedAll => 0
  }

  /** The entry that entering a stage writes. */
  function EntersLedger(stage: Stage): seq<Entry>
  {
    if stage.FirstHalf? then [WipedAll] else []
  }

  /** What the players would write down about one operation. */
  function Writes(c: Config, w: World, op: Op): seq<Entry>
  {
    match op
    case OpSetState(stage) => EntersLedger(stage)
    case OpRunState => EntersLedger(Next(c, w))
    case OpRoundEnd(win, counted, delay) =>
      if w.stage.Live() && Counts(c, w, win, counted)
      then [Won(w.stage.Num(), RosterOn(w, win.side))] else []
    case OpSwapTeams => []
    case OpLo3(seconds) => if 1 <= seconds <= 3 then [] else [Wiped(w.stage.Num())]
    case OpReadyList => if w.env.ready then EntersLedger(Next(c, w)) else []
    case OpRestartPeriod => if w.stage.Live() then [Wiped(w.stage.Num())] + EntersLedger(w.stage) else []
    case OpStopMatch => []
    case OpEndGame(winner) => []
    case OpPlayers(env) => []
  }

  function Ledger(c: Config, w: World, ops: seq<Op>): seq<Entry>
    requires CanRun(c, w, ops)
  {
    if ops == [] then []
    else
      var before := ops[..|ops| - 1];
      Ledger(c, w, before) + Writes(c, Steps(c, w, before), ops[|ops| - 1])
  }

  /** Each period's score of a roster's current side is the roster's wins in the ledger. */
  ghost predicate Follows(c: Config, w: World, ledger: seq<Entry>)
  {
    && Balanced(w.board)
    && (forall i: nat, r: Roster :: i < 8 ==> w.board[i].Of(SideOf(w, r)) == Wins(ledger, i, r))
    && (!c.gameRules ==> w.board == ZeroBoard())
  }

  lemma WinsSnoc(ledger: seq<Entry>, e: Entry, period: nat, r: Roster)
    ensures Wins(ledger + [e], period, r) ==
            match e
            case Won(p, q) => (if p == period && q == r then Wins(ledger, period, r) + 1 else Wins(ledger, period, r))
            case Wiped(p) => (if p == period then 0 else Wins(ledger, period, r))
            case WipedAll => 0
  {
    assert (ledger + [e])[..|ledger|] == ledger;
  }

  lemma FollowsWiped(c: Config, w: World, ledger: seq<Entry>)
    requires Follows(c, w, ledger)
    ensures Follows(c, ResetStateScores(w), ledger + [Wiped(w.stage.Num())])
  {
    forall i: nat, r: Roster | i < 8
      ensures ResetStateScores(w).board[i].Of(SideOf(w, r)) == Wins(ledger + [Wiped(w.stage.Num())], i, r)
    {
      WinsSnoc(ledger, Wiped(w.stage.Num()), i, r);
    }
    if !c.gameRules {
      assert ResetStateScores(w).board == ZeroBoard();
    }
  }

  lemma FollowsWipedAll(c: Config, w: World, ledger: seq<Entry>)
    ensures Follows(c, ResetScores(w), ledger + [WipedAll])
  {
    forall i: nat, r: Roster | i < 8
      ensures ResetScores(w).board[i].Of(SideOf(w, r)) == Wins(ledger + [WipedAll], i, r)
    {
      WinsSnoc(ledger, WipedAll, i, r);
    }
  }

  lemma FollowsWon(c: Config, w: World, ledger: seq<Entry>, s: Side)
    requires Follows(c, w, ledger) && w.stage.Live() && c.gameRules
    ensures Follows(c, AddRound(w, s), ledger + [Won(w.stage.Num(), RosterOn(w, s))])
  {
    var e := Won(w.stage.Num(), RosterOn(w, s));
    var w' := AddRound(w, s);
    forall i: nat, r: Roster | i < 8
      ensures w'.board[i].Of(SideOf(w', r)) == Wins(ledger + [e], i, r)
    {
      WinsSnoc(ledger, e, i, r);
    }
  }

  lemma FollowsSwap(c: Config, w: World, ledger: seq<Entry>)
    requires Follows(c, w, ledger)
    ensures Follows(c, SwapTeams(c, w), ledger)
  {
    var w' := SwapTeams(c, w);
    if !c.gameRules {
      assert SwapScores(w).board == ZeroBoard();
    }
    forall i: nat, r: Roster | i < 8
      ensures w'.board[i].Of(SideOf(w', r)) == Wins(ledger, i, r)
    {
      assert w.board[i].Of(SideOf(w, r)) == Wins(ledger, i, r);
    }
  }

  /** Worlds with the same scores on the same sides. */
  predicate SameScores(w: World, w': World)
  {
    w.board == w'.board && w.swapped == w'.swapped
  }

  lemma SetStateScores(c: Config, w: World, stage: Stage)
    ensures SameScores(SetState(c, w, stage).world, if stage.FirstHalf? then ResetScores(w) else w)
  {
  }

  lemma SetStateFollows(c: Config, w: World, stage: Stage, ledger: seq<Entry>)
    requires Follows(c, w, ledger)
    ensures Follows(c, SetState(c, w, stage).world, ledger + EntersLedger(stage))
  {
    SetStateScores(c, w, stage);
    if stage.FirstHalf? {
      FollowsWipedAll(c, w, ledger);
    } else {
      assert ledger + [] == ledger;
    }
  }

  lemma StepFollows(c: Config, w: World, op: Op, ledger: seq<Entry>)
    requires CanStep(c, w, op) && Follows(c, w, ledger) && !op.OpEndGame?
    ensures Follows(c, Step(c, w, op), ledger + Writes(c, w, op))
  {
    assert ledger + [] == ledger;
    match op
    case OpSetState(stage) => SetStateFollows(c, w, stage, ledger);
    case OpRunState => SetStateFollows(c, w, Next(c, w), ledger);
    case OpRoundEnd(win, counted, delay) => RoundEndFollows(c, w, win, counted, delay, ledger);
    case OpSwapTeams => FollowsSwap(c, w, ledger);
    case OpLo3(seconds) => FollowsWiped(c, w, ledger);
    case OpReadyList => SetStateFollows(c, w, Next(c, w), ledger);
    case OpRestartPeriod =>
      FollowsWiped(c, w, ledger);
      var wiped := ledger + [Wiped(w.stage.Num())];
      if w.stage.Live() {
        SetStateFollows(c, ResetStateScores(w), w.stage, wiped);
        assert wiped + EntersLedger(w.stage) == ledger + ([Wiped(w.stage.Num())] + EntersLedger(w.stage));
      }
    case OpStopMatch => SetStateFollows(c, w, End, ledger);
    case OpPlayers(env) =>
  }

  lemma RoundEndFollows(c: Config, w: World, win: Win, counted: bool, delay: real, ledger: seq<Entry>)
    requires (w.stage.Overtime? ==> c.overtimeRounds > 1) && Follows(c, w, ledger)
    ensures Follows(c, RoundEnd(c, w, win, counted, delay).world, ledger + Writes(c, w, OpRoundEnd(win, counted, delay)))
  {
    var ledger' := ledger + Writes(c, w, OpRoundEnd(win, counted, delay));
    if w.stage.Live() && !win.WinNone? {
      var w' := Score(c, w, win, counted);
      if Counts(c, w, win, counted) {
        FollowsWon(c, w, ledger, win.side);
      } else {
        assert ledger' == ledger;
      }
      assert Follows(c, w', ledger');
      SetStateFollows(c, w', Next(c, w'), ledger');
      assert ledger' + [] == ledger';
    } else {
      assert ledger' == ledger;
    }
  }

  /** Up to a surrender, whatever the order of won rounds, half-time swaps, period restarts,
      live-on-three resets and transitions: each period's score on a roster's current side is
      what the ledger says the roster won, and so are the totals. */
  lemma {:induction false} ScoresFollowRosters(c: Config, w: World, ops: seq<Op>)
    requires CanRun(c, w, ops) && w.board == ZeroBoard()
    requires forall k :: 0 <= k < |ops| ==> !ops[k].OpEndGame?
    ensures Follows(c, Steps(c, w, ops), Ledger(c, w, ops))
  {
    if ops != [] {
      var before := ops[..|ops| - 1];
      ScoresFollowRosters(c, w, before);
      StepFollows(c, Steps(c, w, before), ops[|ops| - 1], Ledger(c, w, before));
    }
  }

  function TotalWins(ledger: seq<Entry>, r: Roster): int
  {
    Wins(ledger, 3, r) + Wins(ledger, 5, r) + Wins(ledger, 6, r)
  }

  lemma TotalsFollowRosters(c: Config, w: World, ops: seq<Op>, r: Roster)
    requires CanRun(c, w, ops) && w.board == ZeroBoard()
    requires forall k :: 0 <= k < |ops| ==> !ops[k].OpEndGame?
    ensures GetScores(Steps(c, w, ops), SideOf(Steps(c, w, ops), r)) == TotalWins(Ledger(c, w, ops), r)
  {
    ScoresFollowRosters(c, w, ops);
    Totals(Steps(c, w, ops));
  }
}
