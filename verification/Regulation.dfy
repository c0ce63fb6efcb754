/**
Whole matches: the engine on the re-entrant timer map, driven by rounds and frames. Between
them the players on the server may change at will.
*/
module Regulation {
  import opened Tasks
  import opened TaskLaws
  import opened Match
  import opened MatchScores

  datatype GameEvent =
    | RoundOver(win: Win, counted: bool, delay: real, now: real)
    | Tick(now: real)
    | VoteOver(delay: real, now: real)
    | Players(env: Env)

  type Server = State<Callback, World>

  /** Carrying out an effect: its world, its commands on the timer map. */
  function Done(q: Queue<Callback>, now: real, e: Effect): Server
  {
    State(ApplyAll(q, now, e.commands), e.world)
  }

  function React(c: Config, s: Server, e: GameEvent): Server
    requires c.overtimeRounds > 1
  {
    match e
    case RoundOver(win, counted, delay, now) => Done(s.queue, now, RoundEnd(c, s.world, win, counted, delay))
    case Tick(now) => Frame(Run(c), s, now).state
    case VoteOver(delay, now) => if s.world.stage.Start? then Done(s.queue, now, NextState(c, s.world, delay)) else s
    case Players(env) => State(s.queue, s.world.(env := env))
  }

  /** Enough players for half-time to set its transition at once. */
  predicate Enough(c: Config, w: World)
  {
    w.env.tr + w.env.ct >= c.playersMin
  }

  /** Enough players on both sides for a live period. */
  predicate Full(c: Config, w: World)
  {
    CheckBalanceTeams(c, w).0
  }

  /**
  While a transition is pending no round counts in the first half, or in the second but for the
  side that has lost, and no round that ends without a delay takes the first half to half-time with
  too few players. A round that counts while a live-on-three restart is pending does not end a
  half, unless without a delay. While either is pending no round wins an overtime. A vote that ends
  without a delay over a pending transition does not start the first half.
  */
  predicate Allowed(c: Config, s: Server, e: GameEvent)
    requires c.overtimeRounds > 1
  {
    match e
    case RoundOver(win, counted, delay, now) =>
      s.world.stage.Live() && !win.WinNone? ==>
        && (Counts(c, s.world, win, counted) ==> MayCount(c, s, win.side, delay))
        && (delay == 0.0 ==> MayEndAtOnce(c, s, Score(c, s.world, win, counted)))
    case VoteOver(delay, now) => s.world.stage.Start? && delay == 0.0 && Live(s.queue, NEXT) ==> !Full(c, s.world)
    case Tick(_) => true
    case Players(_) => true
  }

  predicate MayCount(c: Config, s: Server, side: Side, delay: real)
    requires c.overtimeRounds > 1
  {
    var w := AddRound(s.world, side);
    if w.stage.Overtime? then Live(s.queue, NEXT) || Live(s.queue, LO3R) ==> !GetOvertimeWinner(c, w)
    else
      && (Live(s.queue, NEXT) ==> LosersRound(c, w, side))
      && (Live(s.queue, LO3R) && RoundEndsPeriod(c, w) ==> delay == 0.0)
  }

  /** The side that has lost the match wins one of the rounds that are left. */
  predicate LosersRound(c: Config, w: World, side: Side)
  {
    w.stage.SecondHalf? && GetRound(w) <= c.playRounds && GetScores(w, side) <= Half(c)
  }

  /** w: the world with the round counted. */
  predicate MayEndAtOnce(c: Config, s: Server, w: World)
    requires c.overtimeRounds > 1
  {
    Live(s.queue, NEXT) && w.stage.FirstHalf? && RoundEndsPeriod(c, w) ==> Enough(c, w)
  }

  function Play(c: Config, s: Server, es: seq<GameEvent>): Server
    requires c.overtimeRounds > 1
  {
    if es == [] then s else React(c, Play(c, s, es[..|es| - 1]), es[|es| - 1])
  }

  predicate AllAllowed(c: Config, s: Server, es: seq<GameEvent>)
    requires c.overtimeRounds > 1
  {
    es == [] || (AllAllowed(c, s, es[..|es| - 1]) && Allowed(c, Play(c, s, es[..|es| - 1]), es[|es| - 1]))
  }

  /** An even round limit of at least two, an overtime of at least two rounds, and a tie that
      is played on (type 1) or ends the match (type 2). */
  predicate Regular(c: Config)
  {
    c.playRounds % 2 == 0 && c.playRounds >= 2 && c.overtimeRounds >= 2 && (c.overtimeType == 1 || c.overtimeType == 2)
  }

  /** Rounds after which an overtime period asks for the next state. */
  function PeriodLength(c: Config): int
    requires Regular(c)
  {
    var k := c.overtimeRounds / 2;
    k - c.playRounds % k
  }

  // ---------- the invariant ----------

  /** The callback that belongs to an index. */
  predicate Belongs(i: Index, callback: Callback, loop: bool)
  {
    || (i == EXEC && callback == CallSwapTeams && !loop)
    || (i == LIST && callback == CallReadyList)
    || (i == NEXT && callback == CallRunState && !loop)
    || (i == LO3R && callback.CallLo3? && 2 <= callback.seconds <= 4 && !loop)
  }

  predicate Wired(q: Queue<Callback>)
  {
    forall i <- q :: Belongs(i, q[i].callback, q[i].loop)
  }

  /** Which timers are pending: a transition, a live-on-three step, the ready list. */
  datatype Timers = Timers(next: bool, lo3: bool, ready: bool)

  predicate Pending(q: Queue<Callback>, t: Timers)
  {
    Wired(q) && t == Timers(Live(q, NEXT), Live(q, LO3R), Live(q, LIST))
  }

  function TimersOf(q: Queue<Callback>): Timers
  {
    Timers(Live(q, NEXT), Live(q, LO3R), Live(q, LIST))
  }

  /** The scores of the first half, the second half and the overtime. */
  datatype Scores = Scores(first: Tally, second: Tally, over: Tally) {
    function Regulation(s: Side): int
    {
      first.Of(s) + second.Of(s)
    }

    function Swapped(): Scores
    {
      Scores(first.Swapped(), second.Swapped(), over.Swapped())
    }
  }

  function ScoresOf(w: World): Scores
  {
    Scores(w.board[3], w.board[5], w.board[6])
  }

  /** The first half is over and the second has not scored. */
  predicate FirstHalfPlayed(c: Config, x: Scores)
  {
    x.first.round == Half(c) && x.second == Zero() && x.over == Zero()
  }

  predicate Level(c: Config, x: Scores)
  {
    x.Regulation(T) == Half(c) && x.Regulation(CT) == Half(c)
  }

  predicate SomeoneWon(c: Config, x: Scores)
  {
    x.Regulation(T) == Half(c) + 1 || x.Regulation(CT) == Half(c) + 1
  }

  /** Regulation ended level and is played on, and the overtime has no winner. */
  predicate Tied(c: Config, x: Scores)
    requires Regular(c)
  {
    c.overtimeType == 1 && x.first.round == Half(c) && Level(c, x) && !OvertimeWon(c, x.over)
  }

  /** How a match ends: in regulation, one side a round above half or a tie that counts. */
  predicate Finished(c: Config, x: Scores)
    requires Regular(c)
  {
    && x.first.round == Half(c) && x.over == Zero() && x.first.round + x.second.round <= c.playRounds
    && (SomeoneWon(c, x) || (Level(c, x) && c.overtimeType == 2))
  }

  /** What holds in each stage; period is the length of an overtime period. */
  predicate PhaseOf(c: Config, period: int, stage: Stage, x: Scores, t: Timers)
    requires Regular(c)
  {
    match stage
    case FirstHalf =>
      && x.second == Zero() && x.over == Zero() && !t.ready
      && x.first.round <= Half(c)
      && (t.next <==> x.first.round == Half(c))
      && (t.lo3 ==> x.first.round < Half(c))
    case Halftime =>
      && (t.next && t.ready ==> Tied(c, x))
      && (FirstHalfPlayed(c, x) || Tied(c, x))
    case SecondHalf =>
      && !t.ready && x.first.round == Half(c) && x.over == Zero()
      && x.first.round + x.second.round <= c.playRounds
      && x.Regulation(T) <= Half(c) + 1 && x.Regulation(CT) <= Half(c) + 1
      && (t.next <==> SomeoneWon(c, x) || Level(c, x))
      && (t.lo3 ==> !SomeoneWon(c, x) && !Level(c, x))
    case Overtime =>
      && !t.ready && Tied(c, x)
      && (!t.lo3 && !t.next ==> x.over.round < period)
    case End =>
      && !t.ready && Finished(c, x)
    case Start => !t.ready
    case Warmup => true
    case Dead => !t.next
  }

  predicate Phase(c: Config, stage: Stage, x: Scores, t: Timers)
    requires Regular(c)
  {
    PhaseOf(c, PeriodLength(c), stage, x, t)
  }

  ghost predicate Inv(c: Config, s: Server)
  {
    && Regular(c) && Balanced(s.world.board) && Wired(s.queue)
    && Phase(c, s.world.stage, ScoresOf(s.world), Timers(Live(s.queue, NEXT), Live(s.queue, LO3R), Live(s.queue, LIST)))
  }

  // ---------- commands and pending timers ----------

  lemma CreatePending(q: Queue<Callback>, now: real, x: Command<Callback>, t: Timers)
    requires Pending(q, t)
    requires x.Create? && x.callback.Some? && Belongs(x.index, x.callback.value, x.loop)
    ensures Pending(Apply(q, now, x),
                    Timers(t.next || x.index == NEXT, t.lo3 || x.index == LO3R, t.ready || x.index == LIST))
  {
  }

  lemma RemoveListPending(q: Queue<Callback>, now: real, t: Timers)
    requires Pending(q, t)
    ensures Pending(Apply(q, now, Remove(LIST)), t.(ready := false))
  {
  }

  lemma MarkPending(q: Queue<Callback>, now: real, i: Index, t: Timers)
    requires Pending(q, t) && Live(q, i)
    ensures i == NEXT ==> Pending(Mark(q, i, now), t.(next := false))
    ensures i == LO3R ==> Pending(Mark(q, i, now), t.(lo3 := false))
    ensures i == EXEC ==> Pending(Mark(q, i, now), t)
    ensures i == LIST ==> exists r: bool :: Pending(Mark(q, i, now), t.(ready := r))
  {
    if i == LIST {
      var r := Live(Mark(q, i, now), LIST);
      assert Pending(Mark(q, i, now), t.(ready := r));
    }
  }

  // ---------- entering a stage ----------

  /** An effect that leaves the scores alone and ends in the given stage and timers. */
  ghost predicate Lands(q: Queue<Callback>, now: real, e: Effect, w: World, stage: Stage, t: Timers)
  {
    e.world.stage == stage && e.world.board == w.board && Pending(ApplyAll(q, now, e.commands), t)
  }

  lemma LandsOne(q: Queue<Callback>, now: real, e: Effect, w: World, t: Timers, x: Command<Callback>)
    requires Pending(q, t) && e.commands == [x] && e.world.board == w.board
    requires x.Create? && x.callback.Some? && Belongs(x.index, x.callback.value, x.loop)
    ensures Lands(q, now, e, w, e.world.stage,
                  Timers(t.next || x.index == NEXT, t.lo3 || x.index == LO3R, t.ready || x.index == LIST))
  {
    ApplyOne(q, now, x);
    CreatePending(q, now, x, t);
  }

  lemma LandInHalftime(c: Config, q: Queue<Callback>, now: real, w: World, next: bool, lo3: bool)
    requires Pending(q, Timers(next, lo3, false))
    ensures Lands(q, now, SetState(c, w, Halftime), w, Halftime, Timers(next || Enough(c, w), lo3, !Enough(c, w)))
  {
    var e := SetState(c, w, Halftime);
    var x, y := e.commands[0], e.commands[1];
    assert y.index == if Enough(c, w) then NEXT else LIST;
    assert e.commands == [x, y];
    ApplyTwo(q, now, x, y);
    CreatePending(q, now, x, Timers(next, lo3, false));
    CreatePending(Apply(q, now, x), now, y, Timers(next, lo3, false));
  }

  /** next: a transition is still pending; half-time sets its own over it only with enough players. */
  lemma EnterHalftime(c: Config, q: Queue<Callback>, now: real, w: World, next: bool, lo3: bool)
    requires Regular(c) && Balanced(w.board) && Pending(q, Timers(next, lo3, false))
    requires FirstHalfPlayed(c, ScoresOf(w)) || Tied(c, ScoresOf(w))
    requires next ==> Enough(c, w) || Tied(c, ScoresOf(w))
    ensures Inv(c, Done(q, now, SetState(c, w, Halftime)))
  {
    LandInHalftime(c, q, now, w, next, lo3);
  }

  /** What Resume does after the ready list is gone. */
  function Resumed(c: Config, w: World, stage: Stage): Effect
  {
    var (ok, w2) := CheckBalanceTeams(c, w.(stage := stage, pause := false));
    if ok then Lo3(c, w2, 1) else SetState(c, w2, Halftime)
  }

  lemma EnterResume(c: Config, q: Queue<Callback>, now: real, w: World, stage: Stage, t: Timers)
    requires Regular(c) && Balanced(w.board) && Pending(q, t)
    requires t.next ==> stage.Overtime?
    requires (stage.SecondHalf? && FirstHalfPlayed(c, ScoresOf(w))) || (stage.Overtime? && Tied(c, ScoresOf(w)))
    ensures Inv(c, Done(q, now, SetState(c, w, stage)))
  {
    var q1 := Apply(q, now, Remove(LIST));
    RemoveListPending(q, now, t);
    var (ok, w2) := CheckBalanceTeams(c, w.(stage := stage, pause := false));
    var e := Resumed(c, w, stage);
    ApplyFirst(q, now, Remove(LIST), e.commands);
    assert Done(q, now, SetState(c, w, stage)) == Done(q1, now, e);
    assert w2.board == w.board && w2.stage == stage;
    HalfTwice(c);
    if ok {
      LandsOne(q1, now, e, w, t.(ready := false), e.commands[0]);
    } else {
      EnterHalftime(c, q1, now, w2, t.next, t.lo3);
    }
  }

  /** What SetState does at the start of a match after the ready list is gone. */
  function Opened(c: Config, w: World): Effect
  {
    var (ok, w2) := CheckBalanceTeams(c, ResetScores(w.(stage := FirstHalf, pause := false)));
    if ok then Lo3(c, w2, 1) else SetState(c, w2, Warmup)
  }

  lemma OpenedLands(c: Config, q: Queue<Callback>, now: real, w: World, next: bool, lo3: bool)
    requires Pending(q, Timers(next, lo3, false)) && (next ==> !Full(c, w))
    ensures var e, t := Opened(c, w), TimersOf(ApplyAll(q, now, Opened(c, w).commands));
            && e.world.board == ZeroBoard() && Pending(ApplyAll(q, now, e.commands), t)
            && ((e.world.stage.FirstHalf? && !t.next && !t.ready) || e.world.stage.Warmup?)
  {
    var e := Opened(c, w);
    LandsOne(q, now, e, ResetScores(w), Timers(next, lo3, false), e.commands[0]);
  }

  /** No rounds yet. */
  lemma NoRounds(c: Config, stage: Stage, t: Timers)
    requires Regular(c) && ((stage.FirstHalf? && !t.next && !t.ready) || stage.Warmup?)
    ensures Balanced(ZeroBoard()) && Phase(c, stage, Scores(Zero(), Zero(), Zero()), t)
  {
    HalfTwice(c);
  }

  /** The start of a match, or a warm-up with too few players. */
  lemma EnterFirstHalf(c: Config, q: Queue<Callback>, now: real, w: World, t: Timers)
    requires Regular(c) && Pending(q, t) && (t.next ==> !Full(c, w))
    ensures Inv(c, Done(q, now, SetState(c, w, FirstHalf)))
  {
    var q1, e := Apply(q, now, Remove(LIST)), Opened(c, w);
    RemoveListPending(q, now, t);
    ApplyFirst(q, now, Remove(LIST), e.commands);
    assert Done(q, now, SetState(c, w, FirstHalf)) == Done(q1, now, e);
    OpenedLands(c, q1, now, w, t.next, t.lo3);
    NoRounds(c, e.world.stage, TimersOf(ApplyAll(q1, now, e.commands)));
  }

  lemma EnterOther(c: Config, q: Queue<Callback>, now: real, w: World, stage: Stage, t: Timers)
    requires Regular(c) && Balanced(w.board) && Pending(q, t)
    requires stage.Warmup? || stage.Start? || (stage.End? && !t.ready && Finished(c, ScoresOf(w)))
    ensures Inv(c, Done(q, now, SetState(c, w, stage)))
  {
    var e := SetState(c, w, stage);
    if stage.Start? {
      ApplyOne(q, now, Remove(LIST));
      RemoveListPending(q, now, t);
    } else {
      LandsOne(q, now, e, w, t, e.commands[0]);
    }
  }

  lemma HalfEven(c: Config)
    requires Regular(c)
    ensures 2 * Half(c) == c.playRounds && Half(c) >= 1
  {
  }

  /** Half of the even limit, twice; an overtime period is never empty. */
  lemma HalfTwice(c: Config)
    requires Regular(c)
    ensures 2 * Half(c) == c.playRounds && Half(c) >= 1
    ensures 1 <= PeriodLength(c) <= c.overtimeRounds / 2
  {
  }

  /** While at most half of an overtime is played it has no winner. */
  lemma ShortOvertime(c: Config, t: Tally)
    requires c.overtimeRounds > 0 && 0 <= t.round <= c.overtimeRounds / 2
    ensures !OvertimeWon(c, t)
  {
    var r, o := t.round as real, c.overtimeRounds as real;
    assert 2.0 * r <= o;
    var state := r / o;
    assert 0.0 <= state <= 0.5 by {
      HalfBound(r, o);
    }
    assert state.Floor == 0;
  }

  lemma NoOvertimeWinner(c: Config, w: World)
    requires c.overtimeRounds > 0 && 0 <= w.board[6].round <= c.overtimeRounds / 2
    ensures !GetOvertimeWinner(c, w)
  {
    ShortOvertime(c, w.board[6]);
  }

  lemma HalfBound(r: real, o: real)
    requires 0.0 <= r && 2.0 * r <= o && o > 0.0
    ensures 0.0 <= r / o <= 0.5
  {
  }

  // ---------- leaving a stage ----------

  /** Scores and timers with which a transition may run. */
  predicate MayLeave(c: Config, stage: Stage, x: Scores, t: Timers)
    requires Regular(c)
  {
    && (t.ready ==> stage.Halftime? || stage.Warmup? || stage.Dead?)
    && match stage
       case FirstHalf => FirstHalfPlayed(c, x)
       case Halftime => FirstHalfPlayed(c, x) || Tied(c, x)
       case SecondHalf =>
         && x.first.round == Half(c) && x.over == Zero() && x.first.round + x.second.round <= c.playRounds
         && (SomeoneWon(c, x) || Level(c, x))
       case Overtime => Tied(c, x)
       case _ => true
  }

  /** A transition may run while another one is pending: after a tie, from a live stage unless it
      takes the first half to half-time with too few players, and before the match starts. */
  predicate MayOverlap(c: Config, w: World)
    requires Regular(c)
  {
    (w.stage.Halftime? && Tied(c, ScoresOf(w))) || (w.stage.FirstHalf? && Enough(c, w))
    || w.stage.SecondHalf? || w.stage.Overtime? || w.stage.Warmup? || (w.stage.Start? && !Full(c, w))
  }

  lemma RunStateKeeps(c: Config, q: Queue<Callback>, now: real, w: World, t: Timers)
    requires Regular(c) && Balanced(w.board) && Pending(q, t) && (t.next ==> MayOverlap(c, w))
    requires MayLeave(c, w.stage, ScoresOf(w), t)
    ensures Inv(c, Done(q, now, RunState(c, w)))
  {
    HalfTwice(c);
    Totals(w);
    match w.stage
    case FirstHalf => EnterHalftime(c, q, now, w, t.next, t.lo3);
    case Halftime => EnterResume(c, q, now, w, Next(c, w), t);
    case SecondHalf =>
      if Next(c, w).Halftime? {
        EnterHalftime(c, q, now, w, t.next, t.lo3);
      } else {
        EnterOther(c, q, now, w, End, t);
      }
    case Overtime => EnterHalftime(c, q, now, w, t.next, t.lo3);
    case End => EnterOther(c, q, now, w, Next(c, w), t);
    case Warmup => EnterOther(c, q, now, w, Start, t);
    case Start => EnterFirstHalf(c, q, now, w, t);
    case Dead => EnterOther(c, q, now, w, Warmup, t);
  }

  /** Where the phase lets a transition or the ready list be pending it may run. */
  lemma PhaseMayLeave(c: Config, stage: Stage, x: Scores, t: Timers)
    requires Regular(c) && Phase(c, stage, x, t) && (t.next || t.ready || stage.Start?)
    ensures MayLeave(c, stage, x, t.(next := false)) && MayLeave(c, stage, x, t.(ready := false))
  {
  }

  // ---------- the timer callbacks ----------

  lemma FireNextKeeps(c: Config, s: Server, now: real)
    requires Inv(c, s) && Due(s.queue, NEXT, now)
    ensures Inv(c, FireOne(Run(c), s, NEXT, now).state)
  {
    var t := TimersOf(s.queue);
    MarkPending(s.queue, now, NEXT, t);
    PhaseMayLeave(c, s.world.stage, ScoresOf(s.world), t);
    RunStateKeeps(c, Mark(s.queue, NEXT, now), now, s.world, t.(next := false));
  }

  lemma ReadyKeeps(c: Config, q: Queue<Callback>, now: real, w: World, t: Timers, ready: bool)
    requires Regular(c) && Balanced(w.board) && Pending(q, t.(ready := ready)) && t.ready
    requires Phase(c, w.stage, ScoresOf(w), t)
    ensures Inv(c, Done(q, now, ReadyList(c, w)))
  {
    if w.env.ready {
      ApplyFirst(q, now, Remove(LIST), RunState(c, w).commands);
      RemoveListPending(q, now, t.(ready := ready));
      PhaseMayLeave(c, w.stage, ScoresOf(w), t);
      RunStateKeeps(c, Apply(q, now, Remove(LIST)), now, w, t.(ready := false));
    }
  }

  lemma FireListKeeps(c: Config, s: Server, now: real)
    requires Inv(c, s) && Due(s.queue, LIST, now)
    ensures Inv(c, FireOne(Run(c), s, LIST, now).state)
  {
    var t := TimersOf(s.queue);
    MarkPending(s.queue, now, LIST, t);
    var r: bool :| Pending(Mark(s.queue, LIST, now), t.(ready := r));
    ReadyKeeps(c, Mark(s.queue, LIST, now), now, s.world, t, r);
  }

  lemma SwapPhase(c: Config, stage: Stage, x: Scores, t: Timers)
    requires Regular(c) && Phase(c, stage, x, t)
    ensures Phase(c, stage, x.Swapped(), t)
  {
  }

  lemma SwapBoard(c: Config, w: World)
    requires Balanced(w.board)
    ensures var w' := SwapTeams(c, w);
            && w'.stage == w.stage && Balanced(w'.board)
            && (ScoresOf(w') == ScoresOf(w) || ScoresOf(w') == ScoresOf(w).Swapped())
  {
  }

  lemma FireExecKeeps(c: Config, s: Server, now: real)
    requires Inv(c, s) && Due(s.queue, EXEC, now)
    ensures Inv(c, FireOne(Run(c), s, EXEC, now).state)
  {
    var t := TimersOf(s.queue);
    MarkPending(s.queue, now, EXEC, t);
    SwapBoard(c, s.world);
    SwapPhase(c, s.world.stage, ScoresOf(s.world), t);
  }

  lemma FireLo3Keeps(c: Config, s: Server, now: real)
    requires Inv(c, s) && Due(s.queue, LO3R, now)
    ensures Inv(c, FireOne(Run(c), s, LO3R, now).state)
  {
    var t := TimersOf(s.queue);
    MarkPending(s.queue, now, LO3R, t);
    var q := Mark(s.queue, LO3R, now);
    var seconds := s.queue[LO3R].callback.seconds;
    var e := Lo3(c, s.world, seconds);
    if seconds <= 3 {
      LandsOne(q, now, e, s.world, t.(lo3 := false), e.commands[0]);
    } else {
      HalfTwice(c);
      WipeKeeps(c, s.world, t);
    }
  }

  /** The scores after the current period is wiped. */
  function Wiped(stage: Stage, x: Scores): Scores
  {
    match stage
    case FirstHalf => x.(first := Zero())
    case SecondHalf => x.(second := Zero())
    case Overtime => x.(over := Zero())
    case _ => x
  }

  lemma WipePhase(c: Config, stage: Stage, x: Scores, t: Timers)
    requires Regular(c) && Phase(c, stage, x, t) && t.lo3
    requires Agrees(x.first) && Agrees(x.second) && Agrees(x.over)
    ensures Phase(c, stage, Wiped(stage, x), t.(lo3 := false))
  {
    HalfTwice(c);
  }

  lemma WipeKeeps(c: Config, w: World, t: Timers)
    requires Regular(c) && Balanced(w.board) && Phase(c, w.stage, ScoresOf(w), t) && t.lo3
    ensures var w' := ResetStateScores(GameStarts(c, w));
            w'.stage == w.stage && Balanced(w'.board) && Phase(c, w'.stage, ScoresOf(w'), t.(lo3 := false))
  {
    WipePhase(c, w.stage, ScoresOf(w), t);
    assert ScoresOf(ResetStateScores(GameStarts(c, w))) == Wiped(w.stage, ScoresOf(w));
  }

  lemma FireKeeps(c: Config, s: Server, i: Index, now: real)
    requires Inv(c, s) && Due(s.queue, i, now)
    ensures Inv(c, FireOne(Run(c), s, i, now).state)
  {
    if i == EXEC { FireExecKeeps(c, s, now); }
    else if i == LIST { FireListKeeps(c, s, now); }
    else if i == NEXT { FireNextKeeps(c, s, now); }
    else { FireLo3Keeps(c, s, now); }
  }

  lemma FrameKeeps(c: Config, s: Server, now: real)
    requires Inv(c, s)
    ensures Inv(c, Frame(Run(c), s, now).state)
  {
    var inv := (t: Server) => Inv(c, t);
    forall t: Server, i: Index | inv(t) && Due(t.queue, i, now)
      ensures inv(FireOne(Run(c), t, i, now).state)
    {
      FireKeeps(c, t, i, now);
    }
    WalkKeeps(Run(c), inv, s, now, 0, INDEX_LIMIT);
  }

  // ---------- the end of a round ----------

  /** Counting a won round, seen on the scores. */
  lemma CountRound(c: Config, w: World, win: Win, counted: bool)
    requires Balanced(w.board) && w.stage.Live()
    ensures var w' := Score(c, w, win, counted);
            && w'.stage == w.stage && Balanced(w'.board)
            && (Counts(c, w, win, counted) ==>
                  CountedIn(w.stage, ScoresOf(w), ScoresOf(w'), win.side))
  {
  }

  function Plus(t: Tally, s: Side): Tally
  {
    if s.T? then Tally(t.round + 1, t.tr + 1, t.ct) else Tally(t.round + 1, t.tr, t.ct + 1)
  }

  /** The question RoundEnd asks, in terms of the scores. */
  predicate Ends(c: Config, stage: Stage, x: Scores)
    requires Regular(c)
  {
    EndsIf(c, stage, x, Multiple(c, x))
  }

  /** multiple: the round count is a multiple of half the overtime length. */
  predicate EndsIf(c: Config, stage: Stage, x: Scores, multiple: bool)
    requires Regular(c)
  {
    match stage
    case FirstHalf => x.first.round + x.second.round + x.over.round >= Half(c)
    case SecondHalf =>
      || x.Regulation(T) + x.over.tr > Half(c) || x.Regulation(CT) + x.over.ct > Half(c)
      || (x.Regulation(T) + x.over.tr == Half(c) && x.Regulation(CT) + x.over.ct == Half(c))
    case Overtime => multiple
    case _ => false
  }

  lemma EndsMeans(c: Config, w: World)
    requires Regular(c) && Balanced(w.board)
    requires w.stage.Overtime? ==> !GetOvertimeWinner(c, w)
    ensures RoundEndsPeriod(c, w) <==> Ends(c, w.stage, ScoresOf(w))
  {
    Totals(w);
  }

  lemma MulAtLeast(k: int, d: int)
    requires k > 0 && d >= 1
    ensures k * d >= k
  {
  }

  lemma RemainderUnique(n: int, k: int, m: int)
    requires k > 0 && n == k * m
    ensures n % k == 0
  {
    var d := m - n / k;
    assert k * d == k * m - k * (n / k);
    assert n == k * (n / k) + n % k;
    assert k * d == n % k;
    if d >= 1 {
      MulAtLeast(k, d);
    }
  }

  /** After PeriodLength rounds of overtime the round count is a multiple of the half. */
  lemma PeriodEnds(c: Config)
    requires Regular(c)
    ensures (c.playRounds + PeriodLength(c)) % (c.overtimeRounds / 2) == 0
  {
    var k, b := c.overtimeRounds / 2, c.playRounds;
    assert b == k * (b / k) + b % k;
    assert k * (b / k + 1) == k * (b / k) + k;
    RemainderUnique(b + PeriodLength(c), k, b / k + 1);
  }

  /** y is x with one more round, won by s, in the given stage. */
  predicate CountedIn(stage: Stage, x: Scores, y: Scores, s: Side)
  {
    match stage
    case FirstHalf => y == x.(first := Plus(x.first, s))
    case SecondHalf => y == x.(second := Plus(x.second, s))
    case Overtime => y == x.(over := Plus(x.over, s))
    case _ => true
  }

  /** What counting a round does to the phase, if the round ends the period and if not. */
  predicate AfterCount(c: Config, period: int, stage: Stage, y: Scores, t: Timers, multiple: bool)
    requires Regular(c)
  {
    if EndsIf(c, stage, y, multiple) then
      MayLeave(c, stage, y, t) && (!t.lo3 || stage.Overtime? ==> PhaseOf(c, period, stage, y, t.(next := true)))
    else PhaseOf(c, period, stage, y, t)
  }

  lemma FirstHalfCounted(c: Config, period: int, x: Scores, y: Scores, t: Timers, s: Side, multiple: bool)
    requires Regular(c) && PhaseOf(c, period, FirstHalf, x, t)
    requires !t.next && CountedIn(FirstHalf, x, y, s)
    ensures AfterCount(c, period, FirstHalf, y, t, multiple)
  {
  }

  /** What a round has to leave that counts while timers are pending. */
  predicate CountsOver(c: Config, stage: Stage, y: Scores, t: Timers, s: Side)
    requires Regular(c)
  {
    match stage
    case FirstHalf => !t.next
    case SecondHalf => t.next ==> y.first.round + y.second.round <= c.playRounds && y.Regulation(s) <= Half(c)
    case Overtime => t.next || t.lo3 ==> !OvertimeWon(c, y.over)
    case _ => true
  }

  lemma SecondHalfCounted(c: Config, period: int, x: Scores, y: Scores, t: Timers, s: Side, multiple: bool)
    requires Regular(c) && PhaseOf(c, period, SecondHalf, x, t)
    requires Agrees(x.first) && Agrees(x.second)
    requires CountsOver(c, SecondHalf, y, t, s) && CountedIn(SecondHalf, x, y, s)
    ensures AfterCount(c, period, SecondHalf, y, t, multiple)
  {
    HalfEven(c);
  }

  lemma OvertimeCounted(c: Config, period: int, x: Scores, y: Scores, t: Timers, s: Side, multiple: bool)
    requires Regular(c) && PhaseOf(c, period, Overtime, x, t)
    requires Agrees(x.first) && Agrees(x.second) && Agrees(x.over)
    requires CountedIn(Overtime, x, y, s)
    requires !OvertimeWon(c, y.over) && 1 <= period <= c.overtimeRounds / 2
    requires y.over.round == period ==> multiple
    ensures Tied(c, y) && AfterCount(c, period, Overtime, y, t, multiple)
  {
    HalfEven(c);
  }

  lemma IdleAfter(c: Config, period: int, stage: Stage, x: Scores, t: Timers, multiple: bool)
    requires Regular(c) && PhaseOf(c, period, stage, x, t) && stage.Live()
    requires Agrees(x.first) && Agrees(x.second)
    ensures EndsIf(c, stage, x, multiple) ==> MayLeave(c, stage, x, t) && PhaseOf(c, period, stage, x, t.(next := true))
    ensures stage.Overtime? ==> Tied(c, x)
  {
    if stage.SecondHalf? {
      HalfEven(c);
    }
  }

  predicate Multiple(c: Config, x: Scores)
    requires Regular(c)
  {
    (x.first.round + x.second.round + x.over.round) % (c.overtimeRounds / 2) == 0
  }

  lemma OvertimeMultiple(c: Config, x: Scores, y: Scores, t: Timers, s: Side)
    requires Phase'(c, Overtime, x, t) && CountedIn(Overtime, x, y, s)
    ensures y.over.round == PeriodLength(c) ==> Multiple(c, y)
  {
    HalfEven(c);
    PeriodEnds(c);
    assert y.first.round + y.second.round == c.playRounds;
  }

  /** No allowed round wins an overtime: without pending timers the overtime is too short. */
  lemma OvertimeOpen(c: Config, period: int, x: Scores, y: Scores, t: Timers, s: Side)
    requires Regular(c) && PhaseOf(c, period, Overtime, x, t) && Agrees(x.over)
    requires CountsOver(c, Overtime, y, t, s) && CountedIn(Overtime, x, y, s) && period <= c.overtimeRounds / 2
    ensures !OvertimeWon(c, y.over)
  {
    if !t.lo3 && !t.next {
      ShortOvertime(c, y.over);
    }
  }

  lemma OvertimePhase(c: Config, x: Scores, y: Scores, t: Timers, s: Side)
    requires Phase'(c, Overtime, x, t) && CountsOver(c, Overtime, y, t, s) && CountedIn(Overtime, x, y, s)
    ensures Tied(c, y) && AfterCount(c, PeriodLength(c), Overtime, y, t, Multiple(c, y))
  {
    HalfTwice(c);
    OvertimeMultiple(c, x, y, t, s);
    OvertimeOpen(c, PeriodLength(c), x, y, t, s);
    OvertimeCounted(c, PeriodLength(c), x, y, t, s, Multiple(c, y));
  }

  lemma HalfPhase(c: Config, stage: Stage, x: Scores, y: Scores, t: Timers, s: Side)
    requires Phase'(c, stage, x, t) && (stage.FirstHalf? || stage.SecondHalf?)
    requires CountsOver(c, stage, y, t, s) && CountedIn(stage, x, y, s)
    ensures AfterCount(c, PeriodLength(c), stage, y, t, Multiple(c, y))
  {
    if stage.FirstHalf? {
      FirstHalfCounted(c, PeriodLength(c), x, y, t, s, Multiple(c, y));
    } else {
      SecondHalfCounted(c, PeriodLength(c), x, y, t, s, Multiple(c, y));
    }
  }

  /** The scores after a counted round still fit the stage. */
  lemma CountedPhase(c: Config, stage: Stage, x: Scores, y: Scores, t: Timers, s: Side)
    requires Phase'(c, stage, x, t) && stage.Live()
    requires CountsOver(c, stage, y, t, s) && CountedIn(stage, x, y, s)
    ensures AfterCount(c, PeriodLength(c), stage, y, t, Multiple(c, y))
    ensures stage.Overtime? ==> Tied(c, y)
  {
    if stage.Overtime? {
      OvertimePhase(c, x, y, t, s);
    } else {
      HalfPhase(c, stage, x, y, t, s);
    }
  }

  /** Phase with rounds and wins of each period in agreement. */
  predicate Phase'(c: Config, stage: Stage, x: Scores, t: Timers)
  {
    && Regular(c) && Phase(c, stage, x, t)
    && Agrees(x.first) && Agrees(x.second) && Agrees(x.over)
  }

  predicate Agrees(t: Tally)
  {
    t.round == t.tr + t.ct && t.tr >= 0 && t.ct >= 0
  }

  /** Going on, or leaving, after a round whose scores are already counted. */
  lemma ContinueKeeps(c: Config, s: Server, w: World, win: Win, counted: bool, delay: real, now: real, t: Timers)
    requires Regular(c) && Balanced(w.board) && Pending(s.queue, t) && w.stage.Live()
    requires s.world.stage.Live() && !win.WinNone? && w == Score(c, s.world, win, counted)
    requires w.stage.Overtime? ==> Tied(c, ScoresOf(w))
    requires Ends(c, w.stage, ScoresOf(w)) ==>
               if delay == 0.0 then MayLeave(c, w.stage, ScoresOf(w), t) && (t.next ==> MayOverlap(c, w))
               else Phase(c, w.stage, ScoresOf(w), t.(next := true))
    requires !Ends(c, w.stage, ScoresOf(w)) ==> Phase(c, w.stage, ScoresOf(w), t)
    ensures Inv(c, Done(s.queue, now, RoundEnd(c, s.world, win, counted, delay)))
  {
    EndsMeans(c, w);
    var e := RoundEnd(c, s.world, win, counted, delay);
    if Ends(c, w.stage, ScoresOf(w)) {
      if delay == 0.0 {
        RunStateKeeps(c, s.queue, now, w, t);
      } else {
        LandsOne(s.queue, now, e, w, t, e.commands[0]);
      }
    }
  }

  /** The restriction on rounds that count, in terms of the scores. */
  lemma CountsOverIs(c: Config, s: Server, win: Win, counted: bool, delay: real)
    requires Inv(c, s) && s.world.stage.Live() && Counts(c, s.world, win, counted)
    requires MayCount(c, s, win.side, delay)
    ensures CountsOver(c, s.world.stage, ScoresOf(AddRound(s.world, win.side)), TimersOf(s.queue), win.side)
  {
    CountRound(c, s.world, win, counted);
    Totals(AddRound(s.world, win.side));
  }

  /** A round that counts. */
  lemma CountedKeeps(c: Config, s: Server, win: Win, counted: bool, delay: real, now: real)
    requires Inv(c, s) && s.world.stage.Live() && Counts(c, s.world, win, counted)
    requires MayCount(c, s, win.side, delay)
    ensures Inv(c, Done(s.queue, now, RoundEnd(c, s.world, win, counted, delay)))
  {
    var w, t := s.world, TimersOf(s.queue);
    var w' := AddRound(w, win.side);
    CountRound(c, w, win, counted);
    CountsOverIs(c, s, win, counted, delay);
    CountedPhase(c, w.stage, ScoresOf(w), ScoresOf(w'), t, win.side);
    EndsMeans(c, w');
    ContinueKeeps(c, s, w', win, counted, delay, now, t);
  }

  /** A round that does not count. */
  lemma IdleKeeps(c: Config, s: Server, win: Win, counted: bool, delay: real, now: real)
    requires Inv(c, s) && s.world.stage.Live() && !win.WinNone? && !Counts(c, s.world, win, counted)
    requires delay == 0.0 ==> MayEndAtOnce(c, s, s.world)
    ensures Inv(c, Done(s.queue, now, RoundEnd(c, s.world, win, counted, delay)))
  {
    var w, t := s.world, TimersOf(s.queue);
    IdleAfter(c, PeriodLength(c), w.stage, ScoresOf(w), t, Multiple(c, ScoresOf(w)));
    EndsMeans(c, w);
    ContinueKeeps(c, s, w, win, counted, delay, now, t);
  }

  lemma RoundOverKeeps(c: Config, s: Server, win: Win, counted: bool, delay: real, now: real)
    requires Inv(c, s) && Allowed(c, s, RoundOver(win, counted, delay, now))
    ensures Inv(c, React(c, s, RoundOver(win, counted, delay, now)))
  {
    if s.world.stage.Live() && !win.WinNone? {
      if Counts(c, s.world, win, counted) {
        CountedKeeps(c, s, win, counted, delay, now);
      } else {
        IdleKeeps(c, s, win, counted, delay, now);
      }
    }
  }

  lemma VoteOverKeeps(c: Config, s: Server, delay: real, now: real)
    requires Inv(c, s) && Allowed(c, s, VoteOver(delay, now))
    ensures Inv(c, React(c, s, VoteOver(delay, now)))
  {
    var w, t := s.world, TimersOf(s.queue);
    if w.stage.Start? {
      var e := NextState(c, w, delay);
      if delay == 0.0 {
        PhaseMayLeave(c, w.stage, ScoresOf(w), t);
        RunStateKeeps(c, s.queue, now, w, t);
      } else {
        LandsOne(s.queue, now, e, w, t, e.commands[0]);
      }
    }
  }

  lemma ReactKeeps(c: Config, s: Server, e: GameEvent)
    requires Inv(c, s) && Allowed(c, s, e)
    ensures Inv(c, React(c, s, e))
  {
    match e
    case RoundOver(win, counted, delay, now) => RoundOverKeeps(c, s, win, counted, delay, now);
    case Tick(now) => FrameKeeps(c, s, now);
    case VoteOver(delay, now) => VoteOverKeeps(c, s, delay, now);
    case Players(env) =>
  }

  // ---------- the theorems ----------

  /** Every state a match can reach satisfies the invariant. */
  lemma {:induction false} EveryStateSafe(c: Config, s: Server, es: seq<GameEvent>)
    requires Inv(c, s) && AllAllowed(c, s, es)
    ensures Inv(c, Play(c, s, es))
  {
    if es != [] {
      EveryStateSafe(c, s, es[..|es| - 1]);
      ReactKeeps(c, Play(c, s, es[..|es| - 1]), es[|es| - 1]);
    }
  }

  /** A match that starts on a server with no transition pending. */
  ghost predicate Kickoff(c: Config, q: Queue<Callback>)
  {
    Regular(c) && Wired(q) && !Live(q, NEXT)
  }

  /** A server at the start of a match. */
  function Started(c: Config, q: Queue<Callback>, now: real, w: World): Server
  {
    Done(q, now, SetState(c, w, FirstHalf))
  }

  /** What regulation promises about a match at any moment. */
  predicate Safe(c: Config, w: World)
    requires Regular(c)
  {
    var x := ScoresOf(w);
    && (w.stage.FirstHalf? ==> x.first.round <= Half(c))
    && (w.stage.Halftime? || w.stage.SecondHalf? || w.stage.Overtime? || w.stage.End? ==>
          && x.first.round == Half(c)
          && x.first.round + x.second.round <= c.playRounds
          && x.Regulation(T) <= Half(c) + 1 && x.Regulation(CT) <= Half(c) + 1
          && !(x.Regulation(T) > Half(c) && x.Regulation(CT) > Half(c)))
    && (w.stage.End? ==> Finished(c, x))
  }

  lemma InvSafe(c: Config, s: Server)
    requires Inv(c, s)
    ensures Safe(c, s.world)
  {
    HalfTwice(c);
  }

  /**
  Regulation, for every allowed sequence of rounds, frames, votes and player changes: the first
  half ends after exactly half the rounds; no more than all rounds are played; at most one side
  exceeds half, and by one; the match ends only that way or with a type-2 tie.
  */
  lemma RegulationSafety(c: Config, q: Queue<Callback>, now: real, w: World, es: seq<GameEvent>)
    requires Kickoff(c, q) && AllAllowed(c, Started(c, q, now, w), es)
    ensures Safe(c, Play(c, Started(c, q, now, w), es).world)
  {
    EnterFirstHalf(c, q, now, w, TimersOf(q));
    EveryStateSafe(c, Started(c, q, now, w), es);
    InvSafe(c, Play(c, Started(c, q, now, w), es));
  }

  // ---------- after a tie that is played on ----------

  /** Between overtimes or in one. */
  predicate InOvertime(c: Config, w: World)
    requires Regular(c)
  {
    (w.stage.Halftime? || w.stage.Overtime?) && Tied(c, ScoresOf(w))
  }

  lemma SetStateLands(c: Config, w: World, stage: Stage)
    ensures SetState(c, w, Halftime).world.stage == Halftime
    ensures var v := SetState(c, w, Overtime).world; v.stage.Overtime? || v.stage.Halftime?
  {
  }

  lemma TieGoesOn(c: Config, w: World)
    requires Regular(c) && Balanced(w.board) && Tied(c, ScoresOf(w))
    ensures w.stage.SecondHalf? && w.board[6] == Zero() ==> Next(c, w) == Halftime
    ensures w.stage.Halftime? ==> Next(c, w) == Overtime
    ensures w.stage.Overtime? ==> Next(c, w) == Halftime
    ensures InOvertime(c, w) ==> InOvertime(c, RunState(c, w).world)
  {
    Totals(w);
    HalfTwice(c);
    SetStateLands(c, w, Next(c, w));
    SetStateScores(c, w, Next(c, w));
  }

  lemma FireStaysInOvertime(c: Config, s: Server, i: Index, now: real)
    requires Inv(c, s) && InOvertime(c, s.world) && Due(s.queue, i, now)
    ensures InOvertime(c, FireOne(Run(c), s, i, now).state.world)
  {
    var w, callback := s.world, s.queue[i].callback;
    assert Belongs(i, callback, s.queue[i].loop);
    assert FireOne(Run(c), s, i, now).state.world == Call(c, callback, w).world;
    CallStaysInOvertime(c, callback, w);
  }

  lemma CallStaysInOvertime(c: Config, callback: Callback, w: World)
    requires Regular(c) && Balanced(w.board) && InOvertime(c, w)
    ensures InOvertime(c, Call(c, callback, w).world)
  {
    match callback
    case CallSwapTeams => SwapBoard(c, w);
    case CallRunState => TieGoesOn(c, w);
    case CallLo3(seconds) => WipeStaysInOvertime(c, w, seconds);
    case CallReadyList => TieGoesOn(c, w);
  }

  lemma WipeStaysInOvertime(c: Config, w: World, seconds: int)
    requires Regular(c) && InOvertime(c, w)
    ensures InOvertime(c, Lo3(c, w, seconds).world)
  {
  }

  /** A round leaves the match in overtime: as counted, or in the stage that it leads to. */
  lemma RoundStaysInOvertime(c: Config, s: Server, win: Win, counted: bool, delay: real, now: real)
    requires Inv(c, s) && InOvertime(c, s.world) && Allowed(c, s, RoundOver(win, counted, delay, now))
    ensures InOvertime(c, React(c, s, RoundOver(win, counted, delay, now)).world)
  {
    var w, t := s.world, TimersOf(s.queue);
    if w.stage.Live() && !win.WinNone? {
      var w' := Score(c, w, win, counted);
      CountRound(c, w, win, counted);
      if Counts(c, w, win, counted) {
        CountsOverIs(c, s, win, counted, delay);
        CountedPhase(c, w.stage, ScoresOf(w), ScoresOf(w'), t, win.side);
      }
      assert InOvertime(c, w');
      TieGoesOn(c, w');
    }
  }

  lemma ReactStaysInOvertime(c: Config, s: Server, e: GameEvent)
    requires Inv(c, s) && InOvertime(c, s.world) && Allowed(c, s, e)
    ensures InOvertime(c, React(c, s, e).world)
  {
    match e
    case RoundOver(win, counted, delay, now) =>
      RoundStaysInOvertime(c, s, win, counted, delay, now);
    case Tick(now) =>
      var inv := (u: Server) => Inv(c, u) && InOvertime(c, u.world);
      forall u: Server, i: Index | inv(u) && Due(u.queue, i, now)
        ensures inv(FireOne(Run(c), u, i, now).state)
      {
        FireKeeps(c, u, i, now);
        FireStaysInOvertime(c, u, i, now);
      }
      WalkKeeps(Run(c), inv, s, now, 0, INDEX_LIMIT);
    case VoteOver(_, _) =>
    case Players(env) =>
  }

  /** A tie that is played on never ends: rounds and timers alone take the match from overtime
      to half-time and back, because no overtime period is ever long enough to be won. */
  lemma {:induction false} OvertimeNeverDecides(c: Config, s: Server, es: seq<GameEvent>)
    requires Inv(c, s) && InOvertime(c, s.world) && AllAllowed(c, s, es)
    ensures InOvertime(c, Play(c, s, es).world)
  {
    if es != [] {
      var before := es[..|es| - 1];
      OvertimeNeverDecides(c, s, before);
      EveryStateSafe(c, s, before);
      ReactStaysInOvertime(c, Play(c, s, before), es[|es| - 1]);
    }
  }
}
