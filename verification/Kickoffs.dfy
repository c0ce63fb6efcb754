/**
From warm-up to the first round that counts, and from the end of a match to what follows it, at
whatever times the frames come.
*/
module Kickoffs {
  import opened Options
  import opened Tasks
  import opened TaskLaws
  import opened Match
  import opened MatchScores
  import opened MatchLaws
  import opened Regulation
  import opened Frames
  import opened Restarts
  import opened Overtimes

  // ---------- timers that do not matter ----------

  /** The same stage, readiness, ready list and transition. */
  ghost predicate SameWait(s: Server, s': Server)
  {
    && s'.world.stage == s.world.stage && s'.world.env.ready == s.world.env.ready && Wired(s'.queue)
    && SameEntry(s.queue, s'.queue, LIST) && SameEntry(s.queue, s'.queue, NEXT)
  }

  /** A step of the restart changes neither stage nor readiness. */
  lemma StepWaits(c: Config, s: Server, now: real)
    requires Wired(s.queue)
    ensures SameWait(s, Reached(c, s, LO3R, now))
  {
    if !Due(s.queue, LO3R, now) {
      PassedBy(c, s, LO3R, now);
    } else if s.queue[LO3R].callback == CallLo3(4) {
      LastLeg(c, s, now);
    } else {
      Leg(c, s, now);
    }
  }

  lemma SwapWaitsToo(c: Config, s: Server, now: real)
    requires Wired(s.queue)
    ensures SameWait(s, AfterExec(c, s, now))
  {
    WalkExec(c, s, now);
    ExecSwaps(c, s, now);
  }

  // ---------- the ready list ----------

  /** A warm-up whose ready list runs next at the given time, and nothing else is to come. */
  ghost predicate WarmingUp(s: Server, deadline: real)
  {
    && s.world.stage.Warmup? && Wired(s.queue) && !Live(s.queue, NEXT)
    && LIST in s.queue && s.queue[LIST] == Task(0.5, deadline, true, false, CallReadyList)
  }

  /** The match has left warm-up and waits for the vote or the draft. */
  ghost predicate LeftWarmup(s: Server)
  {
    s.world.stage.Start? && Wired(s.queue) && !Live(s.queue, NEXT) && !Live(s.queue, LIST)
  }

  /** What the ready list does when it is due. */
  lemma ListRuns(c: Config, s: Server, deadline: real, now: real)
    requires WarmingUp(s, deadline) && now >= deadline
    ensures var s' := Reached(c, s, LIST, now);
            s'.world.env == s.world.env && if s.world.env.ready then LeftWarmup(s') else WarmingUp(s', now + 0.5)
  {
    ReachedState(c, s, LIST, now);
    ReachedWired(c, s, LIST, now);
    if s.world.env.ready {
      var q := Mark(s.queue, LIST, now);
      var cs := ReadyList(c, s.world).commands;
      assert cs == [cs[0], cs[1]];
      ApplyTwo(q, now, cs[0], cs[1]);
    }
  }

  lemma WarmupFrame(c: Config, s: Server, deadline: real, now: real)
    requires WarmingUp(s, deadline) && c.overtimeRounds > 1
    ensures var s' := React(c, s, GameEvent.Tick(now));
            && s'.world.env.ready == s.world.env.ready
            && if now < deadline then WarmingUp(s', deadline)
               else if s.world.env.ready then LeftWarmup(s') else WarmingUp(s', now + 0.5)
  {
    FrameIs(c, s, now);
    SwapWaitsToo(c, s, now);
    var a := AfterExec(c, s, now);
    if now < deadline {
      PassedBy(c, a, LIST, now);
    } else {
      ListRuns(c, a, deadline, now);
    }
    var l := AfterList(c, s, now);
    PassedBy(c, l, NEXT, now);
    StepWaits(c, l, now);
  }

  lemma LeftFrame(c: Config, s: Server, now: real)
    requires LeftWarmup(s) && c.overtimeRounds > 1
    ensures var s' := React(c, s, GameEvent.Tick(now)); LeftWarmup(s') && s'.world.env.ready == s.world.env.ready
  {
    FrameIs(c, s, now);
    SwapWaitsToo(c, s, now);
    var a := AfterExec(c, s, now);
    PassedBy(c, a, LIST, now);
    PassedBy(c, a, NEXT, now);
    StepWaits(c, a, now);
  }

  /** How a warm-up stands: when the ready list runs next, whether the players are ready, and
      whether the match has left it. */
  datatype Warming = Warming(deadline: real, ready: bool, left: bool) {
    /** The list runs in the first frame at least half a second after it ran last; it lets the
        match leave exactly if the players are ready then. */
    function Then(e: GameEvent): Warming
    {
      match e
      case Players(env) => this.(ready := env.ready)
      case Tick(now) =>
        if left || now < deadline then this else if ready then this.(left := true) else this.(deadline := now + 0.5)
      case _ => this
    }
  }

  function Warmed(p: Warming, es: seq<GameEvent>): Warming
  {
    if es == [] then p else Warmed(p, es[..|es| - 1]).Then(es[|es| - 1])
  }

  ghost predicate StandsAt(s: Server, p: Warming)
  {
    s.world.env.ready == p.ready && if p.left then LeftWarmup(s) else WarmingUp(s, p.deadline)
  }

  /**
  A warm-up, any frames at any times and players who come, go and get ready: the match leaves
  warm-up in the first frame in which the ready list runs and everyone is ready, and the list runs
  half a second after it was set and after every time it has run.
  */
  lemma {:induction false} WarmupLasts(c: Config, s: Server, p: Warming, es: seq<GameEvent>)
    requires c.overtimeRounds > 1 && StandsAt(s, p) && Quiet(es)
    ensures StandsAt(Play(c, s, es), Warmed(p, es))
  {
    if es != [] {
      var before, e := es[..|es| - 1], es[|es| - 1];
      WarmupLasts(c, s, p, before);
      var u, d := Play(c, s, before), Warmed(p, before);
      if e.Tick? {
        if d.left {
          LeftFrame(c, u, e.now);
        } else {
          WarmupFrame(c, u, d.deadline, e.now);
        }
      }
    }
  }

  /** Entering warm-up sets the ready list. */
  lemma WarmupBegins(c: Config, q: Queue<Callback>, now: real, w: World)
    requires Wired(q) && !Live(q, NEXT)
    ensures StandsAt(Done(q, now, SetState(c, w, Warmup)), Warming(now + 0.5, w.env.ready, false))
  {
    ApplyOne(q, now, LoadReady());
    ApplyAllWired(q, now, [LoadReady()]);
  }

  /** From the moment a warm-up begins. */
  lemma WarmupFromStart(c: Config, q: Queue<Callback>, now: real, w: World, es: seq<GameEvent>)
    requires c.overtimeRounds > 1 && Wired(q) && !Live(q, NEXT) && Quiet(es)
    ensures var s := Play(c, Done(q, now, SetState(c, w, Warmup)), es);
            var p := Warmed(Warming(now + 0.5, w.env.ready, false), es);
            s.world.stage == if p.left then Start else Warmup
  {
    WarmupBegins(c, q, now, w);
    WarmupLasts(c, Done(q, now, SetState(c, w, Warmup)), Warming(now + 0.5, w.env.ready, false), es);
  }

  // ---------- until rounds count ----------

  /** Frames and rounds. */
  ghost predicate Playing(es: seq<GameEvent>)
  {
    forall k :: 0 <= k < |es| ==> es[k].Tick? || es[k].RoundOver?
  }

  /** The first half on a game that has not been started, at some step of the restart (2 to 4); or
      live (5), started and with all scores at zero. */
  ghost predicate KickedOff(c: Config, s: Server, p: Progress)
  {
    && Inv(c, s) && s.world.stage.FirstHalf? && c.gameRules && s.world.board == ZeroBoard() && !Live(s.queue, NEXT)
    && if p.phase == 5 then !Live(s.queue, LO3R) && s.world.env.started
       else 2 <= p.phase <= 4 && StepAt(s, p.phase, p.deadline) && !s.world.env.started
  }

  lemma BoardZero(w: World)
    requires Balanced(w.board) && w.board[3].round == 0 && w.board[5] == Zero() && w.board[6] == Zero()
    ensures w.board == ZeroBoard()
  {
    assert w.board[3] == Zero();
    assert forall i :: 0 <= i < 8 ==> w.board[i] == Zero();
  }

  lemma NoRoundsYet(c: Config, s: Server)
    requires Inv(c, s) && s.world.stage.FirstHalf? && s.world.board[3].round == 0
    ensures s.world.board == ZeroBoard() && !Live(s.queue, NEXT) && !Live(s.queue, LIST)
  {
    HalfTwice(c);
    BoardZero(s.world);
  }

  lemma ZeroSwapped(s: Server, s': Server)
    requires SwappedAtMost(s, s') && s.world.board == ZeroBoard()
    ensures ScoresOf(s'.world) == Scores(Zero(), Zero(), Zero())
  {
  }

  lemma KickoffWaits(c: Config, s: Server, p: Progress, now: real)
    requires KickedOff(c, s, p) && p.phase < 5 && now < p.deadline
    ensures KickedOff(c, React(c, s, GameEvent.Tick(now)), p)
  {
    NoRoundsYet(c, s);
    FrameKeeps(c, s, now);
    NothingDue(c, s, now);
    var s' := React(c, s, GameEvent.Tick(now));
    ZeroSwapped(s, s');
    NoRoundsYet(c, s');
  }

  lemma KickoffSteps(c: Config, s: Server, p: Progress, now: real)
    requires KickedOff(c, s, p) && p.phase < 5 && now >= p.deadline
    ensures KickedOff(c, React(c, s, GameEvent.Tick(now)), p.After(now))
  {
    NoRoundsYet(c, s);
    FrameKeeps(c, s, now);
    FrameOfLeg(c, s, now);
    var a := AfterExec(c, s, now);
    ZeroSwapped(s, a);
    if p.phase == 4 {
      LastLeg(c, a, now);
    } else {
      Leg(c, a, now);
    }
    NoRoundsYet(c, React(c, s, GameEvent.Tick(now)));
  }

  /** A round before the game is started changes nothing. */
  lemma RoundBefore(c: Config, s: Server, p: Progress, win: Win, counted: bool, delay: real, now: real)
    requires KickedOff(c, s, p) && p.phase < 5
    ensures React(c, s, RoundOver(win, counted, delay, now)) == s
  {
    HalfTwice(c);
    Totals(s.world);
  }

  /**
  From a kickoff on a game that has not been started, any frames at any times and any rounds, up to
  the last step of the restart: the restart has come as far as the frames have passed its deadlines,
  no round has counted, and with the last step the game is started and the scores are at zero.
  */
  lemma {:induction false} GameStartsLast(c: Config, s: Server, p: Progress, es: seq<GameEvent>)
    requires Regular(c) && KickedOff(c, s, p) && Playing(es) && p.phase < 5
    requires es == [] || Climb(p, es[..|es| - 1]).phase < 5
    ensures KickedOff(c, Play(c, s, es), Climb(p, es))
  {
    if es != [] {
      var before, e := es[..|es| - 1], es[|es| - 1];
      if before != [] {
        ClimbedLess(p, before);
      }
      GameStartsLast(c, s, p, before);
      var u, d := Play(c, s, before), Climb(p, before);
      match e {
        case Tick(now) =>
          if now < d.deadline {
            KickoffWaits(c, u, d, now);
          } else {
            KickoffSteps(c, u, d, now);
          }
        case RoundOver(win, counted, delay, now) =>
          RoundBefore(c, u, d, win, counted, delay, now);
      }
    }
  }

  lemma ClimbedLess(p: Progress, es: seq<GameEvent>)
    requires es != [] && Climb(p, es).phase < 5
    ensures Climb(p, es[..|es| - 1]).phase < 5
  {
  }

  /** From the kickoff itself, and the first round after the restart: it counts for its winner. */
  lemma FirstRoundCounts(c: Config, q: Queue<Callback>, now: real, w: World, es: seq<GameEvent>, side: Side, delay: real,
                         at: real)
    requires Kickoff(c, q) && c.gameRules && !w.env.started && MayGoLive(c, w) && Playing(es)
    requires es == [] || Climb(Progress(2, now + 2.0), es[..|es| - 1]).phase < 5
    ensures var s := Play(c, Started(c, q, now, w), es);
            var v := React(c, s, RoundOver(WinSide(side), true, delay, at)).world;
            && s.world.board == ZeroBoard() && s.world.stage.FirstHalf?
            && v.board[3].Of(side) == (if Climb(Progress(2, now + 2.0), es).phase == 5 then 1 else 0)
            && v.board[3].Of(side.Other()) == 0
  {
    KickoffBegins(c, q, now, w);
    GameStartsLast(c, Started(c, q, now, w), Progress(2, now + 2.0), es);
    RoundWritten(c, Play(c, Started(c, q, now, w), es).world, WinSide(side), true, delay);
  }

  lemma KickoffBegins(c: Config, q: Queue<Callback>, now: real, w: World)
    requires Kickoff(c, q) && c.gameRules && !w.env.started && MayGoLive(c, w)
    ensures KickedOff(c, Started(c, q, now, w), Progress(2, now + 2.0))
  {
    EnterFirstHalf(c, q, now, w, TimersOf(q));
    GoesLiveIff(c, w, FirstHalf);
    var e := SetState(c, w, FirstHalf);
    assert e.commands == [Remove(LIST), Create(LO3R, 2.0, false, Some(CallLo3(2)))];
    ApplyTwo(q, now, e.commands[0], e.commands[1]);
    BalancingKeeps(c, ResetScores(w.(stage := FirstHalf, pause := false)));
    NoRoundsYet(c, Started(c, q, now, w));
  }

  // ---------- after the end ----------

  /** A match that is over: the ready list does not run, the transition is due at the deadline. */
  ghost predicate Ended(s: Server, deadline: real)
  {
    && s.world.stage.End? && Wired(s.queue) && !Live(s.queue, LIST)
    && Live(s.queue, NEXT) && s.queue[NEXT].endTime == deadline
  }

  lemma EndBegins(c: Config, q: Queue<Callback>, now: real, w: World)
    requires Wired(q) && !Live(q, LIST)
    ensures Ended(Done(q, now, SetState(c, w, End)), now + 5.0)
  {
    var x := Create(NEXT, 5.0, false, Some(CallRunState));
    ApplyOne(q, now, x);
    ApplyAllWired(q, now, [x]);
  }

  /** The end lasts until its transition, which leads to the vote for a map if it is held then and
      to a new warm-up if not. */
  lemma EndFrame(c: Config, s: Server, deadline: real, now: real)
    requires Ended(s, deadline) && c.overtimeRounds > 1
    ensures var s' := React(c, s, GameEvent.Tick(now));
            if now < deadline then Ended(s', deadline)
            else s'.world.stage == (if c.voteMapEnd && c.voteMapType == 1 then Start else Warmup) && !Live(s'.queue, NEXT)
  {
    FrameIs(c, s, now);
    SwapWaitsToo(c, s, now);
    var a := AfterExec(c, s, now);
    PassedBy(c, a, LIST, now);
    if now < deadline {
      PassedBy(c, a, NEXT, now);
    } else {
      EndLeads(c, a, now);
    }
    StepWaits(c, Reached(c, a, NEXT, now), now);
  }

  lemma EndLeads(c: Config, s: Server, now: real)
    requires Wired(s.queue) && s.world.stage.End? && Due(s.queue, NEXT, now)
    ensures var n := Reached(c, s, NEXT, now);
            && n.world.stage == (if c.voteMapEnd && c.voteMapType == 1 then Start else Warmup)
            && Wired(n.queue) && !Live(n.queue, NEXT)
  {
    ReachedState(c, s, NEXT, now);
    ReachedWired(c, s, NEXT, now);
    assert Belongs(NEXT, s.queue[NEXT].callback, s.queue[NEXT].loop);
    EndLeadsTo(c, s.world);
    var cs := RunState(c, s.world).commands;
    assert cs == [cs[0]];
    ApplyOne(Mark(s.queue, NEXT, now), now, cs[0]);
  }

  /** No frame at the given time or later. */
  ghost predicate FramesBefore(es: seq<GameEvent>, deadline: real)
  {
    forall k :: 0 <= k < |es| && es[k].Tick? ==> es[k].now < deadline
  }

  lemma {:induction false} EndLasts(c: Config, s: Server, deadline: real, es: seq<GameEvent>)
    requires c.overtimeRounds > 1 && Ended(s, deadline) && Quiet(es) && FramesBefore(es, deadline)
    ensures Ended(Play(c, s, es), deadline)
  {
    if es != [] {
      var before, e := es[..|es| - 1], es[|es| - 1];
      EndLasts(c, s, deadline, before);
      if e.Tick? {
        EndFrame(c, Play(c, s, before), deadline, e.now);
      }
    }
  }

  /** From the moment a match ends, under any frames and changes of players: it is over for five
      seconds, and the first frame after that leads to the vote for a map or to a new warm-up. */
  lemma EndFromStart(c: Config, q: Queue<Callback>, now: real, w: World, es: seq<GameEvent>, at: real)
    requires c.overtimeRounds > 1 && Wired(q) && !Live(q, LIST)
    requires Quiet(es) && FramesBefore(es, now + 5.0) && at >= now + 5.0
    ensures var s := Play(c, Done(q, now, SetState(c, w, End)), es);
            && s.world.stage.End?
            && React(c, s, GameEvent.Tick(at)).world.stage ==
               if c.voteMapEnd && c.voteMapType == 1 then Start else Warmup
  {
    EndBegins(c, q, now, w);
    EndLasts(c, Done(q, now, SetState(c, w, End)), now + 5.0, es);
    EndFrame(c, Play(c, Done(q, now, SetState(c, w, End)), es), now + 5.0, at);
  }
}
