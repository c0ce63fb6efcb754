/**
How a tie that is played on comes to overtime, at whatever times the frames come; and when an
overtime is won after all: by rounds that count while its live-on-three restart is pending.
*/
module Overtimes {
  import opened Options
  import opened Tasks
  import opened TaskLaws
  import opened Match
  import opened MatchScores
  import opened Regulation
  import opened Frames
  import opened Restarts
  import opened Halftime

  // ---------- from the tie to overtime, one transition at a time ----------

  /** Enough players for half-time and, after the game's balancing, for a live period. */
  predicate Manned(c: Config, e: Env)
  {
    var min := c.playersMin / 2;
    && e.tr + e.ct >= c.playersMin
    && (!c.checkPlayers || (e.tr >= min && e.ct >= min) || (c.gameRules && e.balancedTr >= min && e.balancedCt >= min))
  }

  lemma MannedStarts(c: Config, w: World)
    requires Manned(c, w.env)
    ensures Enough(c, w) && CheckBalanceTeams(c, w).0
  {
  }

  /** The scores up to sides, and whether the game has been started. */
  ghost predicate SameMatch(s: Server, s': Server)
  {
    && (ScoresOf(s'.world) == ScoresOf(s.world) || ScoresOf(s'.world) == ScoresOf(s.world).Swapped())
    && s'.world.env.started == s.world.env.started
  }

  /** A tie with enough players that waits for a transition in the given stage. */
  ghost predicate TieWaits(c: Config, s: Server, deadline: real)
  {
    && Inv(c, s) && Tied(c, ScoresOf(s.world)) && Manned(c, s.world.env)
    && !Live(s.queue, LIST) && !Live(s.queue, LO3R) && Live(s.queue, NEXT) && s.queue[NEXT].endTime == deadline
  }

  lemma SwapKeepsTie(c: Config, s: Server, s': Server)
    requires Regular(c) && SwappedAtMost(s, s') && Manned(c, s.world.env) && Tied(c, ScoresOf(s.world))
    ensures Manned(c, s'.world.env) && Tied(c, ScoresOf(s'.world)) && SameMatch(s, s')
  {
  }

  /** The transition of a level second half, or of an overtime. */
  lemma TransitionToHalftime(c: Config, s: Server, now: real)
    requires Regular(c) && Balanced(s.world.board) && Wired(s.queue) && !Live(s.queue, LIST)
    requires (s.world.stage.SecondHalf? && s.world.board[6] == Zero()) || s.world.stage.Overtime?
    requires Tied(c, ScoresOf(s.world)) && Manned(c, s.world.env) && Due(s.queue, NEXT, now)
    ensures var s' := Reached(c, s, NEXT, now);
            && Held(s', now) && ScoresOf(s'.world) == ScoresOf(s.world) && s'.world.env == s.world.env
            && SameEntry(s.queue, s'.queue, LO3R)
  {
    var w := s.world;
    ReachedState(c, s, NEXT, now);
    assert Belongs(NEXT, s.queue[NEXT].callback, s.queue[NEXT].loop);
    TieGoesOn(c, w);
    MannedStarts(c, w);
    SetStateScores(c, w, Stage.Halftime);
    var u := State(Mark(s.queue, NEXT, now), w);
    EnteredHeld(c, u, now);
    LeavingSetsNoRestart(c, u.queue, now, w, Stage.Halftime);
  }

  lemma TieToHalftime(c: Config, s: Server, deadline: real, now: real)
    requires TieWaits(c, s, deadline) && (s.world.stage.SecondHalf? || s.world.stage.Overtime?) && now >= deadline
    ensures var s' := React(c, s, GameEvent.Tick(now));
            TieWaits(c, s', now + 7.0) && s'.world.stage.Halftime? && SameMatch(s, s')
  {
    FrameKeeps(c, s, now);
    TieFrame(c, s, deadline, now);
  }

  lemma TieFrame(c: Config, s: Server, deadline: real, now: real)
    requires TieWaits(c, s, deadline) && (s.world.stage.SecondHalf? || s.world.stage.Overtime?) && now >= deadline
    ensures var s' := React(c, s, GameEvent.Tick(now));
            && Held(s', now) && Manned(c, s'.world.env) && Tied(c, ScoresOf(s'.world)) && SameMatch(s, s')
            && !Live(s'.queue, LO3R)
  {
    FrameIs(c, s, now);
    ExecSwaps(c, s, now);
    WalkExec(c, s, now);
    var a := AfterExec(c, s, now);
    SwapKeepsTie(c, s, a);
    PassedBy(c, a, LIST, now);
    TransitionToHalftime(c, a, now);
    PassedBy(c, Reached(c, a, NEXT, now), LO3R, now);
  }

  /** An overtime whose live-on-three restart is at the given step. */
  ghost predicate Restarting(c: Config, s: Server, seconds: int, at: real)
  {
    && Inv(c, s) && s.world.stage.Overtime? && !Live(s.queue, NEXT) && StepAt(s, seconds, at)
  }

  lemma BalancingKeeps(c: Config, w: World)
    ensures var w' := CheckBalanceTeams(c, w).1;
            w'.stage == w.stage && w'.board == w.board && w'.env.started == w.env.started
  {
  }

  lemma TransitionToOvertime(c: Config, s: Server, now: real)
    requires Regular(c) && Balanced(s.world.board) && Wired(s.queue)
    requires s.world.stage.Halftime? && Tied(c, ScoresOf(s.world)) && Manned(c, s.world.env) && Due(s.queue, NEXT, now)
    ensures var s' := Reached(c, s, NEXT, now);
            && s'.world.stage.Overtime? && !Live(s'.queue, NEXT) && StepAt(s', 2, now + 2.0)
            && ScoresOf(s'.world) == ScoresOf(s.world) && s'.world.env.started == s.world.env.started
  {
    var w := s.world;
    ReachedState(c, s, NEXT, now);
    assert Belongs(NEXT, s.queue[NEXT].callback, s.queue[NEXT].loop);
    TieGoesOn(c, w);
    var q, e, w' := Mark(s.queue, NEXT, now), RunState(c, w), w.(stage := Overtime, pause := false);
    MannedStarts(c, w');
    BalancingKeeps(c, w');
    assert e == Resume(c, w');
    assert e.world == CheckBalanceTeams(c, w').1;
    assert e.commands == [Remove(LIST), Create(LO3R, 2.0, false, Some(CallLo3(2)))];
    ApplyTwo(q, now, e.commands[0], e.commands[1]);
  }

  lemma HalftimeToOvertime(c: Config, s: Server, deadline: real, now: real)
    requires TieWaits(c, s, deadline) && s.world.stage.Halftime? && now >= deadline
    ensures var s' := React(c, s, GameEvent.Tick(now));
            Restarting(c, s', 2, now + 2.0) && SameMatch(s, s')
  {
    FrameKeeps(c, s, now);
    FrameIs(c, s, now);
    ExecSwaps(c, s, now);
    WalkExec(c, s, now);
    var a := AfterExec(c, s, now);
    SwapKeepsTie(c, s, a);
    PassedBy(c, a, LIST, now);
    TransitionToOvertime(c, a, now);
    PassedBy(c, Reached(c, a, NEXT, now), LO3R, now);
  }

  lemma RestartGoesOn(c: Config, s: Server, seconds: int, at: real, now: real)
    requires Restarting(c, s, seconds, at) && now >= at && 2 <= seconds <= 3
    ensures Restarting(c, React(c, s, GameEvent.Tick(now)), seconds + 1, now + (seconds + 1) as real)
  {
    FrameKeeps(c, s, now);
    FrameOfLeg(c, s, now);
    Leg(c, AfterExec(c, s, now), now);
  }

  /** An overtime with its counters at zero and nothing pending. */
  ghost predicate LiveOvertime(c: Config, s: Server)
  {
    && Inv(c, s) && s.world.stage.Overtime? && s.world.board[6] == Zero()
    && !Live(s.queue, NEXT) && !Live(s.queue, LO3R) && !Live(s.queue, LIST)
  }

  lemma RestartEnds(c: Config, s: Server, at: real, now: real)
    requires Restarting(c, s, 4, at) && now >= at
    ensures LiveOvertime(c, React(c, s, GameEvent.Tick(now)))
  {
    FrameKeeps(c, s, now);
    FrameOfLeg(c, s, now);
    LastLeg(c, AfterExec(c, s, now), now);
  }

  // ---------- frames at any times ----------

  /** A frame in which neither the transition nor the restart is due. */
  lemma NothingDue(c: Config, s: Server, now: real)
    requires Regular(c) && Wired(s.queue) && !Live(s.queue, LIST)
    requires !Due(s.queue, NEXT, now) && !Due(s.queue, LO3R, now)
    ensures SwappedAtMost(s, React(c, s, GameEvent.Tick(now)))
  {
    FrameOfLeg(c, s, now);
    PassedBy(c, AfterExec(c, s, now), LO3R, now);
  }

  /** How far a tie has come: it waits for half-time (0), for overtime (1), for the second, third
      and last step of the restart (2 to 4); or overtime is live (5). */
  ghost predicate TiePhase(c: Config, s: Server, phase: nat, deadline: real)
  {
    match phase
    case 0 => TieWaits(c, s, deadline) && (s.world.stage.SecondHalf? || s.world.stage.Overtime?)
    case 1 => TieWaits(c, s, deadline) && s.world.stage.Halftime?
    case 2 => Restarting(c, s, 2, deadline)
    case 3 => Restarting(c, s, 3, deadline)
    case 4 => Restarting(c, s, 4, deadline)
    case _ => phase == 5 && LiveOvertime(c, s)
  }

  /** How long the next phase waits. */
  function Gap(phase: nat): real
  {
    match phase
    case 0 => 7.0
    case 1 => 2.0
    case 2 => 3.0
    case 3 => 4.0
    case _ => 0.0
  }

  datatype Progress = Progress(phase: nat, deadline: real) {
    /** A frame passes the deadline, if there is one, or not. */
    function After(now: real): Progress
    {
      if phase < 5 && now >= deadline then Progress(phase + 1, now + Gap(phase)) else this
    }
  }

  /** The deadlines passed by the frames among some events, each as soon as it can be. */
  function Climb(p: Progress, es: seq<GameEvent>): Progress
  {
    if es == [] then p
    else
      var before, e := Climb(p, es[..|es| - 1]), es[|es| - 1];
      if e.Tick? then before.After(e.now) else before
  }

  lemma DueMovesOn(c: Config, s: Server, p: Progress, now: real)
    requires TiePhase(c, s, p.phase, p.deadline) && p.phase < 5 && now >= p.deadline
    ensures TiePhase(c, React(c, s, GameEvent.Tick(now)), p.phase + 1, now + Gap(p.phase))
  {
    match p.phase
    case 0 => TieToHalftime(c, s, p.deadline, now);
    case 1 => HalftimeToOvertime(c, s, p.deadline, now);
    case 2 => RestartGoesOn(c, s, 2, p.deadline, now);
    case 3 => RestartGoesOn(c, s, 3, p.deadline, now);
    case 4 => RestartEnds(c, s, p.deadline, now);
  }

  lemma EarlyTie(c: Config, s: Server, deadline: real, now: real)
    requires TieWaits(c, s, deadline) && now < deadline
    ensures var s' := React(c, s, GameEvent.Tick(now)); TieWaits(c, s', deadline) && s'.world.stage == s.world.stage
  {
    FrameKeeps(c, s, now);
    NothingDue(c, s, now);
    SwapKeepsTie(c, s, React(c, s, GameEvent.Tick(now)));
  }

  lemma EarlyRestart(c: Config, s: Server, seconds: int, at: real, now: real)
    requires Restarting(c, s, seconds, at) && now < at
    ensures Restarting(c, React(c, s, GameEvent.Tick(now)), seconds, at)
  {
    FrameKeeps(c, s, now);
    NothingDue(c, s, now);
  }

  lemma OvertimeStaysLive(c: Config, s: Server, now: real)
    requires LiveOvertime(c, s)
    ensures LiveOvertime(c, React(c, s, GameEvent.Tick(now)))
  {
    FrameKeeps(c, s, now);
    NothingDue(c, s, now);
  }

  lemma EarlyWaits(c: Config, s: Server, p: Progress, now: real)
    requires TiePhase(c, s, p.phase, p.deadline) && (p.phase < 5 ==> now < p.deadline)
    ensures TiePhase(c, React(c, s, GameEvent.Tick(now)), p.phase, p.deadline)
  {
    if p.phase <= 1 {
      EarlyTie(c, s, p.deadline, now);
    } else if p.phase < 5 {
      EarlyRestart(c, s, p.phase, p.deadline, now);
    } else {
      OvertimeStaysLive(c, s, now);
    }
  }

  /** Frames, and players who come and go without leaving too few. */
  ghost predicate MannedFrames(c: Config, es: seq<GameEvent>)
  {
    forall k :: 0 <= k < |es| ==> es[k].Tick? || (es[k].Players? && Manned(c, es[k].env))
  }

  lemma PlayersWait(c: Config, s: Server, p: Progress, env: Env)
    requires TiePhase(c, s, p.phase, p.deadline) && Manned(c, env)
    ensures TiePhase(c, React(c, s, Players(env)), p.phase, p.deadline)
  {
    ReactKeeps(c, s, Players(env));
  }

  lemma FrameClimbs(c: Config, s: Server, p: Progress, now: real)
    requires TiePhase(c, s, p.phase, p.deadline)
    ensures var q := p.After(now); TiePhase(c, React(c, s, GameEvent.Tick(now)), q.phase, q.deadline)
  {
    if p.phase < 5 && now >= p.deadline {
      DueMovesOn(c, s, p, now);
    } else {
      EarlyWaits(c, s, p, now);
    }
  }

  lemma ClimbLast(p: Progress, es: seq<GameEvent>, e: GameEvent)
    ensures Climb(p, es + [e]) == if e.Tick? then Climb(p, es).After(e.now) else Climb(p, es)
  {
    assert (es + [e])[..|es + [e]| - 1] == es;
  }

  /**
  A type-1 tie with enough players, and any frames at any times: the match has come exactly as far
  as the frames have passed the deadlines, and is in a live overtime with its counters at zero once
  all five have been passed. So it is after an overtime, for the next one.
  */
  lemma {:induction false} TieReachesOvertime(c: Config, s: Server, p: Progress, es: seq<GameEvent>)
    requires Regular(c) && TiePhase(c, s, p.phase, p.deadline) && MannedFrames(c, es)
    ensures TiePhase(c, Play(c, s, es), Climb(p, es).phase, Climb(p, es).deadline)
    ensures Climb(p, es).phase == 5 ==> LiveOvertime(c, Play(c, s, es))
  {
    if es != [] {
      var before, e := es[..|es| - 1], es[|es| - 1];
      TieReachesOvertime(c, s, p, before);
      assert es == before + [e];
      PlayLast(c, s, before, e);
      ClimbLast(p, before, e);
      if e.Tick? {
        FrameClimbs(c, Play(c, s, before), Climb(p, before), e.now);
      } else {
        PlayersWait(c, Play(c, s, before), Climb(p, before), e.env);
      }
    }
  }

  // ---------- an overtime that is won ----------

  lemma WonIsEnd(c: Config, w: World)
    requires w.stage.Overtime? && GetOvertimeWinner(c, w)
    ensures var v := RunState(c, w).world; v.stage.End? && v.board == w.board && v.board[6] != Zero()
  {
    assert RunState(c, w) == SetState(c, w, End);
    assert !OvertimeWon(c, Zero());
  }

  /** The transition of a won overtime ends the match, and nothing after it in the frame takes
      the overtime out of the scores. */
  lemma WonEnds(c: Config, s: Server, now: real)
    requires Regular(c) && Wired(s.queue) && s.world.stage.Overtime? && GetOvertimeWinner(c, s.world)
    requires Due(s.queue, NEXT, now)
    ensures var v := Reached(c, Reached(c, s, NEXT, now), LO3R, now).world; v.stage.End? && v.board[6] != Zero()
  {
    ReachedState(c, s, NEXT, now);
    assert Belongs(NEXT, s.queue[NEXT].callback, s.queue[NEXT].loop);
    var n := Reached(c, s, NEXT, now);
    WonIsEnd(c, s.world);
    ReachedWired(c, s, NEXT, now);
    ReachedState(c, n, LO3R, now);
    if Due(n.queue, LO3R, now) {
      assert Belongs(LO3R, n.queue[LO3R].callback, n.queue[LO3R].loop);
    }
  }

  /** A match cannot end safely with an overtime in its scores. */
  lemma EndUnsafe(c: Config, v: World)
    requires Regular(c) && v.stage.End? && v.board[6] != Zero()
    ensures !Safe(c, v)
  {
  }

  lemma SwapKeepsWinner(c: Config, s: Server, s': Server)
    requires SwappedAtMost(s, s') && s.world.stage.Overtime? && GetOvertimeWinner(c, s.world)
    ensures s'.world.stage.Overtime? && GetOvertimeWinner(c, s'.world)
  {
    var t, t' := ScoresOf(s.world).over, ScoresOf(s'.world).over;
    assert t' == t || t' == t.Swapped();
  }

  /** One frame ends a won overtime. */
  lemma WonFrame(c: Config, s: Server, now: real)
    requires Regular(c) && Wired(s.queue) && !Live(s.queue, LIST)
    requires s.world.stage.Overtime? && GetOvertimeWinner(c, s.world) && Due(s.queue, NEXT, now)
    ensures var v := React(c, s, GameEvent.Tick(now)).world;
            v.stage.End? && v.board[6] != Zero() && !Safe(c, v)
  {
    var a := AfterExec(c, s, now);
    FrameIs(c, s, now);
    ExecSwaps(c, s, now);
    WalkExec(c, s, now);
    SwapKeepsWinner(c, s, a);
    PassedBy(c, a, LIST, now);
    WonEnds(c, a, now);
    EndUnsafe(c, React(c, s, GameEvent.Tick(now)).world);
  }

  /** A round of overtime that counts and makes a winner. */
  ghost predicate WinningRound(c: Config, s: Server, win: Win, counted: bool)
  {
    && Inv(c, s) && s.world.stage.Overtime? && Counts(c, s.world, win, counted)
    && GetOvertimeWinner(c, AddRound(s.world, win.side))
  }

  lemma WinnerWaits(c: Config, s: Server, win: Win, counted: bool, delay: real, now: real)
    requires WinningRound(c, s, win, counted) && delay != 0.0
    ensures var s' := React(c, s, RoundOver(win, counted, delay, now));
            && Wired(s'.queue) && !Live(s'.queue, LIST) && Live(s'.queue, NEXT) && s'.queue[NEXT].endTime == now + delay
            && s'.world == AddRound(s.world, win.side)
  {
    var w := AddRound(s.world, win.side);
    var x := NextState(c, w, delay).commands[0];
    assert RoundEnd(c, s.world, win, counted, delay) == Outcome(w, [x]);
    ApplyOne(s.queue, now, x);
    CreatePending(s.queue, now, x, TimersOf(s.queue));
  }

  /** Such a round ends the match: at once, or with the frame at its transition. */
  lemma WinnerEnds(c: Config, s: Server, win: Win, counted: bool, delay: real, now: real) returns (es: seq<GameEvent>)
    requires WinningRound(c, s, win, counted)
    ensures var s' := React(c, s, RoundOver(win, counted, delay, now));
            var v := Play(c, s', es).world;
            AllAllowed(c, s', es) && Forward(now, es) && v.stage.End? && !Safe(c, v)
  {
    var s' := React(c, s, RoundOver(win, counted, delay, now));
    if delay == 0.0 {
      es := [];
      WonIsEnd(c, AddRound(s.world, win.side));
      EndUnsafe(c, s'.world);
    } else {
      var tick := GameEvent.Tick(Later(now, now + delay));
      es := [tick];
      WinnerWaits(c, s, win, counted, delay, now);
      WonFrame(c, s', tick.now);
      PlayOne(c, s', tick);
      AllowedOne(c, s', tick);
      ForwardOne(now, tick);
    }
  }

  // ---------- an overtime that is won during its restart ----------

  /** An overtime in which one side has won all rounds so far. */
  ghost predicate AllWonBy(c: Config, s: Server, side: Side, rounds: int)
  {
    && Inv(c, s) && s.world.stage.Overtime? && c.gameRules && s.world.env.started
    && s.world.board[6].round == rounds && s.world.board[6].Of(side) == rounds
  }

  function RoundFor(side: Side, now: real): GameEvent
  {
    RoundOver(WinSide(side), true, 5.0, now)
  }

  predicate PeriodOver(c: Config, rounds: int)
    requires Regular(c)
  {
    (c.playRounds + rounds) % (c.overtimeRounds / 2) == 0
  }

  lemma OverAdds(c: Config, s: Server, side: Side, rounds: int)
    requires AllWonBy(c, s, side, rounds) && rounds + 1 <= c.overtimeRounds / 2
    ensures var w := AddRound(s.world, side);
            && w.board[6].round == rounds + 1 && w.board[6].Of(side) == rounds + 1 && !GetOvertimeWinner(c, w)
            && w.stage.Overtime? && w.env == s.world.env
            && (RoundEndsPeriod(c, w) <==> PeriodOver(c, rounds + 1))
  {
    var w := AddRound(s.world, side);
    CountRound(c, s.world, WinSide(side), true);
    NoOvertimeWinner(c, w);
    HalfTwice(c);
    Totals(w);
    assert w.board[3].round + w.board[5].round == c.playRounds;
  }

  /** A round that does not end the period leaves the timers alone. */
  lemma OverRoundOn(c: Config, s: Server, side: Side, rounds: int, now: real)
    requires AllWonBy(c, s, side, rounds) && !Live(s.queue, NEXT)
    requires rounds + 1 <= c.overtimeRounds / 2 && !PeriodOver(c, rounds + 1)
    ensures Allowed(c, s, RoundFor(side, now))
    ensures var s' := React(c, s, RoundFor(side, now));
            AllWonBy(c, s', side, rounds + 1) && s'.queue == s.queue && s'.world.env == s.world.env
  {
    OverAdds(c, s, side, rounds);
    CountedKeeps(c, s, WinSide(side), true, 5.0, now);
  }

  function RoundsFor(side: Side, n: nat, now: real): seq<GameEvent>
  {
    seq(n, _ => RoundFor(side, now))
  }

  /** One more event of an allowed run in order of time. */
  lemma OneMore(c: Config, s: Server, now: real, es: seq<GameEvent>, e: GameEvent)
    requires c.overtimeRounds > 1 && AllAllowed(c, s, es) && Forward(now, es)
    requires Allowed(c, Play(c, s, es), e) && Clock(Clock(now, es), [e]) >= Clock(now, es)
    ensures AllAllowed(c, s, es + [e]) && Forward(now, es + [e]) && Clock(now, es + [e]) == Clock(Clock(now, es), [e])
    ensures Play(c, s, es + [e]) == React(c, Play(c, s, es), e)
  {
    PlayLast(c, s, es, e);
    AllowedLast(c, s, es, e);
    ForwardLast(now, es, e);
  }

  lemma OverRoundMore(c: Config, s: Server, front: seq<GameEvent>, side: Side, rounds: int, now: real)
    requires Regular(c) && AllAllowed(c, s, front) && Forward(now, front) && Clock(now, front) == now
    requires AllWonBy(c, Play(c, s, front), side, rounds) && !Live(s.queue, NEXT)
    requires Play(c, s, front).queue == s.queue && Play(c, s, front).world.env == s.world.env
    requires rounds + 1 <= c.overtimeRounds / 2 && !PeriodOver(c, rounds + 1)
    ensures var es := front + [RoundFor(side, now)];
            && AllAllowed(c, s, es) && Forward(now, es) && Clock(now, es) == now
            && var s' := Play(c, s, es);
               AllWonBy(c, s', side, rounds + 1) && s'.queue == s.queue && s'.world.env == s.world.env
  {
    OverRoundOn(c, Play(c, s, front), side, rounds, now);
    OneMore(c, s, now, front, RoundFor(side, now));
  }

  lemma {:induction false} OverRoundsOn(c: Config, s: Server, side: Side, rounds: int, n: nat, now: real)
    requires AllWonBy(c, s, side, rounds) && !Live(s.queue, NEXT) && rounds + n <= c.overtimeRounds / 2
    requires forall r | rounds < r <= rounds + n :: !PeriodOver(c, r)
    ensures AllAllowed(c, s, RoundsFor(side, n, now)) && Forward(now, RoundsFor(side, n, now))
    ensures Clock(now, RoundsFor(side, n, now)) == now
    ensures var s' := Play(c, s, RoundsFor(side, n, now));
            AllWonBy(c, s', side, rounds + n) && s'.queue == s.queue && s'.world.env == s.world.env
    decreases n
  {
    if n > 0 {
      OverRoundsOn(c, s, side, rounds, n - 1, now);
      var front := RoundsFor(side, n - 1, now);
      assert RoundsFor(side, n, now) == front + [RoundFor(side, now)];
      OverRoundMore(c, s, front, side, rounds + n - 1, now);
    }
  }

  /** The round that ends the period sets the transition. */
  lemma OverRoundLast(c: Config, s: Server, side: Side, rounds: int, now: real)
    requires AllWonBy(c, s, side, rounds) && !Live(s.queue, NEXT) && !Live(s.queue, LO3R) && Manned(c, s.world.env)
    requires rounds + 1 <= c.overtimeRounds / 2 && PeriodOver(c, rounds + 1)
    ensures Allowed(c, s, RoundFor(side, now))
    ensures var s' := React(c, s, RoundFor(side, now));
            AllWonBy(c, s', side, rounds + 1) && TieWaits(c, s', now + 5.0)
  {
    OverAdds(c, s, side, rounds);
    CountedKeeps(c, s, WinSide(side), true, 5.0, now);
    var x := NextState(c, AddRound(s.world, side), 5.0).commands[0];
    ApplyOne(s.queue, now, x);
    CreatePending(s.queue, now, x, TimersOf(s.queue));
  }

  /** Which rounds of a first overtime, and of the restart after it, do not end a period. */
  lemma BetweenPeriods(c: Config, r: int)
    requires Regular(c) && 0 < r <= c.overtimeRounds / 2
    ensures PeriodOver(c, r) <==> r == PeriodLength(c)
  {
    var k, b := c.overtimeRounds / 2, c.playRounds;
    if r <= PeriodLength(c) {
      ModBelow(b, r, k);
    } else {
      assert b == k * (b / k) + b % k;
      assert k * (b / k + 1) == k * (b / k) + k;
      NonMultiple(b + r, k, b / k + 1, r - PeriodLength(c));
    }
  }

  /** A period of a live overtime won by one side. */
  function WonPeriod(c: Config, now: real): seq<GameEvent>
    requires Regular(c)
  {
    HalfTwice(c);
    RoundsFor(T, PeriodLength(c) - 1, now) + [RoundFor(T, now)]
  }

  /** All rounds of the period but the last. */
  lemma PeriodAlmostWon(c: Config, s: Server, now: real)
    requires LiveOvertime(c, s) && c.gameRules && s.world.env.started
    ensures var p := PeriodLength(c);
            && p >= 1
            && var es := RoundsFor(T, p - 1, now);
            && AllAllowed(c, s, es) && Forward(now, es) && Clock(now, es) == now
            && var s' := Play(c, s, es);
               AllWonBy(c, s', T, p - 1) && s'.queue == s.queue && s'.world.env == s.world.env
  {
    HalfTwice(c);
    forall r | 0 < r <= PeriodLength(c)
      ensures PeriodOver(c, r) <==> r == PeriodLength(c)
    {
      BetweenPeriods(c, r);
    }
    OverRoundsOn(c, s, T, 0, PeriodLength(c) - 1, now);
  }

  lemma PeriodWon(c: Config, s: Server, now: real)
    requires LiveOvertime(c, s) && c.gameRules && s.world.env.started && Manned(c, s.world.env)
    ensures var es := WonPeriod(c, now);
            && AllAllowed(c, s, es) && Forward(now, es) && Clock(now, es) == now
            && var s' := Play(c, s, es); AllWonBy(c, s', T, PeriodLength(c)) && TieWaits(c, s', now + 5.0)
  {
    var p := PeriodLength(c);
    PeriodAlmostWon(c, s, now);
    HalfTwice(c);
    BetweenPeriods(c, p);
    var front := RoundsFor(T, p - 1, now);
    OverRoundLast(c, Play(c, s, front), T, p - 1, now);
    OneMore(c, s, now, front, RoundFor(T, now));
  }

  /** To half-time and to the next overtime. */
  lemma NextOvertime(c: Config, s: Server, rounds: int, now: real)
    requires AllWonBy(c, s, T, rounds) && TieWaits(c, s, now + 5.0)
    ensures var es := [GameEvent.Tick(now + 5.0), GameEvent.Tick(now + 12.0)];
            && AllAllowed(c, s, es) && Forward(now, es) && Clock(now, es) == now + 12.0
            && var s' := Play(c, s, es);
               Restarting(c, s', 2, now + 14.0) && (AllWonBy(c, s', T, rounds) || AllWonBy(c, s', CT, rounds))
  {
    var x, y := GameEvent.Tick(now + 5.0), GameEvent.Tick(now + 12.0);
    TieToHalftime(c, s, now + 5.0, now + 5.0);
    HalftimeToOvertime(c, React(c, s, x), now + 12.0, now + 12.0);
    SwappedWinner(c, s, React(c, s, x), React(c, React(c, s, x), y), rounds);
    TwoFrames(c, s, now, now + 5.0, now + 12.0);
  }

  lemma SwappedWinner(c: Config, s: Server, s1: Server, s2: Server, rounds: int)
    requires AllWonBy(c, s, T, rounds) && SameMatch(s, s1) && SameMatch(s1, s2) && Inv(c, s2) && s2.world.stage.Overtime?
    ensures AllWonBy(c, s2, T, rounds) || AllWonBy(c, s2, CT, rounds)
  {
    var t, t1, t2 := ScoresOf(s.world).over, ScoresOf(s1.world).over, ScoresOf(s2.world).over;
    assert t1 == t || t1 == t.Swapped();
    assert t2 == t1 || t2 == t1.Swapped();
  }

  /** One round past half the overtime length, all won by one side with a lead of three. */
  lemma PastHalfWon(c: Config, t: Tally)
    requires c.overtimeRounds >= 4 && t.round == c.overtimeRounds / 2 + 1
    requires t.tr - t.ct == t.round || t.ct - t.tr == t.round
    ensures OvertimeWon(c, t)
  {
    var r, o := t.round as real, c.overtimeRounds as real;
    assert 2.0 * r > o && r < o;
    FractionAboveHalf(r, o);
    assert (r / o).Floor == 0;
  }

  lemma FractionAboveHalf(r: real, o: real)
    requires o > 0.0 && 2.0 * r > o && r < o
    ensures 0.5 < r / o < 1.0
  {
    var q := r / o;
    assert q * o == r;
    if q <= 0.5 {
      AtMostTimes(q, 0.5, o);
    }
    if q >= 1.0 {
      AtMostTimes(1.0, q, o);
    }
  }

  lemma AtMostTimes(x: real, y: real, o: real)
    requires x <= y && o > 0.0
    ensures x * o <= y * o
  {
  }

  /** While its restart is pending the next overtime reaches half its length, and one more round
      wins it. */
  lemma RestartWon(c: Config, s: Server, side: Side, now: real)
    requires Regular(c) && AllWonBy(c, s, side, PeriodLength(c)) && !Live(s.queue, NEXT) && c.overtimeRounds >= 4
    ensures var p := PeriodLength(c);
            && p <= c.overtimeRounds / 2
            && var es := RoundsFor(side, c.overtimeRounds / 2 - p, now);
               && AllAllowed(c, s, es) && Forward(now, es) && Play(c, s, es).queue == s.queue
               && WinningRound(c, Play(c, s, es), WinSide(side), true)
  {
    var k, p := c.overtimeRounds / 2, PeriodLength(c);
    HalfTwice(c);
    forall r | p < r <= k
      ensures !PeriodOver(c, r)
    {
      BetweenPeriods(c, r);
    }
    OverRoundsOn(c, s, side, p, k - p, now);
    var u := Play(c, s, RoundsFor(side, k - p, now));
    CountRound(c, u.world, WinSide(side), true);
    PastHalfWon(c, AddRound(u.world, side).board[6]);
  }

  /**
  From every live overtime of at least four rounds: one side wins the period, the match goes
  through half-time to the next overtime, and there, before the restart has wiped the rounds of the
  first, the same side wins on. All these rounds are allowed; the next one wins the overtime.
  */
  lemma OvertimeCanBeWon(c: Config, s: Server, now: real) returns (es: seq<GameEvent>, side: Side)
    requires LiveOvertime(c, s) && c.gameRules && s.world.env.started && Manned(c, s.world.env) && c.overtimeRounds >= 4
    ensures AllAllowed(c, s, es) && Forward(now, es)
    ensures Live(Play(c, s, es).queue, LO3R) && WinningRound(c, Play(c, s, es), WinSide(side), true)
  {
    var x, y := WonPeriod(c, now), [GameEvent.Tick(now + 5.0), GameEvent.Tick(now + 12.0)];
    PeriodWon(c, s, now);
    var s1 := Play(c, s, x);
    NextOvertime(c, s1, PeriodLength(c), now);
    var s2 := Play(c, s1, y);
    side := if AllWonBy(c, s2, T, PeriodLength(c)) then T else CT;
    RestartWon(c, s2, side, now + 12.0);
    var z := RoundsFor(side, c.overtimeRounds / 2 - PeriodLength(c), now + 12.0);
    RunJoin(c, s1, now, y, z);
    RunJoin(c, s, now, x, y + z);
    es := x + (y + z);
  }

  /** Two allowed runs, one after the other. */
  lemma RunJoin(c: Config, s: Server, now: real, x: seq<GameEvent>, y: seq<GameEvent>)
    requires c.overtimeRounds > 1 && AllAllowed(c, s, x) && AllAllowed(c, Play(c, s, x), y)
    requires Forward(now, x) && Forward(Clock(now, x), y)
    ensures AllAllowed(c, s, x + y) && Forward(now, x + y) && Play(c, s, x + y) == Play(c, Play(c, s, x), y)
  {
    PlayJoin(c, s, x, y);
    AllowedJoin(c, s, x, y);
    ForwardJoin(now, x, y);
  }

  lemma {:induction false} ForwardJoin(now: real, x: seq<GameEvent>, y: seq<GameEvent>)
    requires Forward(now, x) && Forward(Clock(now, x), y)
    ensures Forward(now, x + y) && Clock(now, x + y) == Clock(Clock(now, x), y)
  {
    if y == [] {
      assert x + y == x;
    } else {
      var front, last := y[..|y| - 1], y[|y| - 1];
      ForwardJoin(now, x, front);
      assert y == front + [last] && x + y == (x + front) + [last];
      ForwardLast(now, x + front, last);
      ForwardLast(Clock(now, x), front, last);
    }
  }
}
