/**
Which events a match may contain without breaking what regulation promises: exactly the allowed
ones.
*/
module Exactness {
  import opened Options
  import opened Tasks
  import opened TaskLaws
  import opened Match
  import opened MatchScores
  import opened Regulation
  import opened Frames
  import opened Restarts
  import opened Transitions
  import opened Overtimes

  // ---------- rounds that count ----------

  /** More rounds than a half, or the match, has; or more for one side than it can have. */
  predicate TooMany(c: Config, x: Scores)
  {
    || x.first.round > Half(c) || x.first.round + x.second.round > c.playRounds
    || x.Regulation(T) > Half(c) + 1 || x.Regulation(CT) > Half(c) + 1
  }

  lemma TooManyCounted(c: Config, s: Server, win: Win, counted: bool)
    requires Inv(c, s) && (s.world.stage.FirstHalf? || s.world.stage.SecondHalf?) && Live(s.queue, NEXT)
    requires Counts(c, s.world, win, counted) && !LosersRound(c, AddRound(s.world, win.side), win.side)
    ensures var w, x := AddRound(s.world, win.side), ScoresOf(AddRound(s.world, win.side));
            && Balanced(w.board) && w.stage == s.world.stage
            && RoundEndsPeriod(c, w) && TooMany(c, x)
  {
    var w := AddRound(s.world, win.side);
    HalfTwice(c);
    CountRound(c, s.world, win, counted);
    Totals(w);
  }

  /** A half that is over takes no more rounds, but for those of the side that has lost. */
  lemma TooManyRounds(c: Config, s: Server, win: Win, counted: bool)
    requires Inv(c, s) && (s.world.stage.FirstHalf? || s.world.stage.SecondHalf?) && Live(s.queue, NEXT)
    requires Counts(c, s.world, win, counted) && !LosersRound(c, AddRound(s.world, win.side), win.side)
    ensures var w := AddRound(s.world, win.side);
            RoundEndsPeriod(c, w) && !Safe(c, w) && !Safe(c, RunState(c, w).world)
  {
    var w := AddRound(s.world, win.side);
    TooManyCounted(c, s, win, counted);
    SetStateScores(c, w, Next(c, w));
  }

  lemma TooManySpoil(c: Config, s: Server, win: Win, counted: bool, delay: real, now: real)
    requires Inv(c, s) && (s.world.stage.FirstHalf? || s.world.stage.SecondHalf?) && Live(s.queue, NEXT)
    requires Counts(c, s.world, win, counted) && !LosersRound(c, AddRound(s.world, win.side), win.side)
    ensures !Safe(c, React(c, s, RoundOver(win, counted, delay, now)).world)
  {
    TooManyRounds(c, s, win, counted);
  }

  /** A round that counts and is not allowed. */
  lemma ForbiddenRound(c: Config, s: Server, win: Win, counted: bool, delay: real, now: real) returns (es: seq<GameEvent>)
    requires Inv(c, s) && s.world.stage.Live() && Counts(c, s.world, win, counted)
    requires !MayCount(c, s, win.side, delay)
    ensures var s' := React(c, s, RoundOver(win, counted, delay, now));
            AllAllowed(c, s', es) && Forward(now, es) && !Safe(c, Play(c, s', es).world)
  {
    if s.world.stage.Overtime? {
      es := WinnerEnds(c, s, win, counted, delay, now);
    } else if Live(s.queue, NEXT) && !LosersRound(c, AddRound(s.world, win.side), win.side) {
      es := [];
      TooManySpoil(c, s, win, counted, delay, now);
    } else {
      es := LateRoundLost(c, s, win, counted, delay, now);
    }
  }

  // ---------- a vote that ends at once ----------

  /** A first half without rounds over a pending transition. */
  ghost predicate Unplayed(c: Config, s: Server)
  {
    && Regular(c) && Balanced(s.world.board) && Wired(s.queue)
    && s.world.stage.FirstHalf? && s.world.board[3] == Zero()
    && !Live(s.queue, LIST) && Live(s.queue, NEXT)
  }

  lemma UnplayedLeaves(c: Config, s: Server, now: real)
    requires Unplayed(c, s) && Due(s.queue, NEXT, now)
    ensures var v := Reached(c, Reached(c, s, NEXT, now), LO3R, now).world; v.stage.Halftime? && v.board[3] == Zero()
  {
    var n := Reached(c, s, NEXT, now);
    ReachedState(c, s, NEXT, now);
    assert Belongs(NEXT, s.queue[NEXT].callback, s.queue[NEXT].loop);
    assert RunState(c, s.world) == SetState(c, s.world, Stage.Halftime);
    SetStateScores(c, s.world, Stage.Halftime);
    ReachedWired(c, s, NEXT, now);
    ReachedState(c, n, LO3R, now);
    if Due(n.queue, LO3R, now) {
      assert Belongs(LO3R, n.queue[LO3R].callback, n.queue[LO3R].loop);
    }
  }

  lemma SwappedUnplayed(c: Config, s: Server, s': Server)
    requires Unplayed(c, s) && SwappedAtMost(s, s') && Wired(s'.queue)
    ensures Unplayed(c, s') && s'.queue[NEXT] == s.queue[NEXT]
  {
    var x, x' := ScoresOf(s.world), ScoresOf(s'.world);
    assert x' == x || x' == x.Swapped();
  }

  lemma UnplayedUnsafe(c: Config, s: Server, now: real)
    requires Unplayed(c, s) && Due(s.queue, NEXT, now)
    ensures !Safe(c, React(c, s, GameEvent.Tick(now)).world)
  {
    var a := AfterExec(c, s, now);
    FrameIs(c, s, now);
    ExecSwaps(c, s, now);
    WalkExec(c, s, now);
    SwappedUnplayed(c, s, a);
    PassedBy(c, a, LIST, now);
    UnplayedLeaves(c, a, now);
    HalfTwice(c);
  }

  /** A vote that starts the first half at once over a pending transition. */
  lemma VoteOpens(c: Config, s: Server, now: real)
    requires Inv(c, s) && s.world.stage.Start? && Live(s.queue, NEXT) && Full(c, s.world)
    ensures var s' := React(c, s, VoteOver(0.0, now)); Unplayed(c, s') && SameEntry(s.queue, s'.queue, NEXT)
  {
    var e := SetState(c, s.world, FirstHalf);
    var w := ResetScores(s.world.(stage := FirstHalf, pause := false));
    assert CheckBalanceTeams(c, w).0;
    BalancingKeeps(c, w);
    assert e.commands == [Remove(LIST), Create(LO3R, 2.0, false, Some(CallLo3(2)))];
    ApplyTwo(s.queue, now, e.commands[0], e.commands[1]);
  }

  lemma VoteSpoils(c: Config, s: Server, now: real) returns (es: seq<GameEvent>)
    requires Inv(c, s) && s.world.stage.Start? && Live(s.queue, NEXT) && Full(c, s.world)
    ensures var s' := React(c, s, VoteOver(0.0, now));
            AllAllowed(c, s', es) && Forward(now, es) && !Safe(c, Play(c, s', es).world)
  {
    var s' := React(c, s, VoteOver(0.0, now));
    var tick := GameEvent.Tick(Later(now, s.queue[NEXT].endTime));
    es := [tick];
    VoteOpens(c, s, now);
    UnplayedUnsafe(c, s', tick.now);
    PlayOne(c, s', tick);
    AllowedOne(c, s', tick);
    ForwardOne(now, tick);
  }

  lemma CrossingForward(c: Config, s: Server, now: real)
    requires NEXT in s.queue
    ensures Forward(now, Crossing(c, s, now))
  {
    var es := Crossing(c, s, now);
    ForwardOne(now, es[0]);
    assert es == [es[0]] + [es[1]];
    ForwardLast(now, [es[0]], es[1]);
  }

  /** A round that is not allowed. */
  lemma RoundSpoils(c: Config, s: Server, win: Win, counted: bool, delay: real, now: real) returns (es: seq<GameEvent>)
    requires Inv(c, s) && !Allowed(c, s, RoundOver(win, counted, delay, now))
    ensures var s' := React(c, s, RoundOver(win, counted, delay, now));
            AllAllowed(c, s', es) && Forward(now, es) && !Safe(c, Play(c, s', es).world)
  {
    if Counts(c, s.world, win, counted) && !MayCount(c, s, win.side, delay) {
      es := ForbiddenRound(c, s, win, counted, delay, now);
    } else {
      ZeroDelaySpoils(c, s, win, counted, now);
      es := Crossing(c, s, now);
      CrossingForward(c, s, now);
    }
  }

  /** An event that is not allowed. */
  lemma Spoils(c: Config, s: Server, e: GameEvent, now: real) returns (es: seq<GameEvent>)
    requires Inv(c, s) && !Allowed(c, s, e)
    ensures var s' := React(c, s, e);
            AllAllowed(c, s', es) && Forward(Clock(now, [e]), es) && !Safe(c, Play(c, s', es).world)
  {
    match e
    case RoundOver(win, counted, delay, at) => es := RoundSpoils(c, s, win, counted, delay, at);
    case VoteOver(delay, at) => es := VoteSpoils(c, s, at);
  }

  // ---------- exactly the allowed events ----------

  /** Some allowed events, in order of time, break what regulation promises. */
  ghost predicate CanBreak(c: Config, s: Server, now: real)
    requires Regular(c)
  {
    exists es :: AllAllowed(c, s, es) && Forward(now, es) && !Safe(c, Play(c, s, es).world)
  }

  lemma InvHolds(c: Config, s: Server, now: real)
    requires Inv(c, s)
    ensures !CanBreak(c, s, now)
  {
    forall es | AllAllowed(c, s, es)
      ensures Safe(c, Play(c, s, es).world)
    {
      EveryStateSafe(c, s, es);
      InvSafe(c, Play(c, s, es));
    }
  }

  /**
  Exactly the allowed events are harmless: after an event at any moment of a match some allowed
  events can break what regulation promises if and only if the event was not allowed.
  */
  lemma AllowedIff(c: Config, s: Server, e: GameEvent, now: real)
    requires Inv(c, s)
    ensures CanBreak(c, React(c, s, e), Clock(now, [e])) <==> !Allowed(c, s, e)
  {
    var s', at := React(c, s, e), Clock(now, [e]);
    if Allowed(c, s, e) {
      ReactKeeps(c, s, e);
      InvHolds(c, s', at);
    } else {
      var es := Spoils(c, s, e, now);
      assert AllAllowed(c, s', es) && Forward(at, es) && !Safe(c, Play(c, s', es).world);
    }
  }
}
