/**
Rounds that count while the live-on-three restart is pending: one that ends a half can always be
lost; by frames alone it is lost if and only if the rest of the restart can end before the
transition is due; and such a match, from its kickoff on.
*/
module Restarts {
  import opened Tasks
  import opened TaskLaws
  import opened Match
  import opened MatchScores
  import opened Regulation
  import opened Frames

  /** Frames and changes of players only. */
  ghost predicate Quiet(es: seq<GameEvent>)
  {
    forall k :: 0 <= k < |es| ==> es[k].Tick? || es[k].Players?
  }

  lemma PlayLast(c: Config, s: Server, es: seq<GameEvent>, e: GameEvent)
    requires c.overtimeRounds > 1
    ensures Play(c, s, es + [e]) == React(c, Play(c, s, es), e)
  {
    assert (es + [e])[..|es + [e]| - 1] == es;
  }

  lemma PlayJoinLast(c: Config, s: Server, x: seq<GameEvent>, front: seq<GameEvent>, e: GameEvent)
    requires c.overtimeRounds > 1 && Play(c, s, x + front) == Play(c, Play(c, s, x), front)
    ensures Play(c, s, x + (front + [e])) == Play(c, Play(c, s, x), front + [e])
  {
    assert x + (front + [e]) == (x + front) + [e];
    PlayLast(c, s, x + front, e);
    PlayLast(c, Play(c, s, x), front, e);
  }

  lemma {:induction false} PlayJoin(c: Config, s: Server, x: seq<GameEvent>, y: seq<GameEvent>)
    requires c.overtimeRounds > 1
    ensures Play(c, s, x + y) == Play(c, Play(c, s, x), y)
  {
    if y == [] {
      assert x + y == x;
    } else {
      var front, last := y[..|y| - 1], y[|y| - 1];
      PlayJoin(c, s, x, front);
      assert y == front + [last];
      PlayJoinLast(c, s, x, front, last);
    }
  }

  lemma PlayOne(c: Config, s: Server, e: GameEvent)
    requires c.overtimeRounds > 1
    ensures Play(c, s, [e]) == React(c, s, e)
  {
    assert [e] == [] + [e];
    PlayLast(c, s, [], e);
  }

  lemma PlayFirst(c: Config, s: Server, e: GameEvent, es: seq<GameEvent>)
    requires c.overtimeRounds > 1
    ensures Play(c, s, [e] + es) == Play(c, React(c, s, e), es)
  {
    PlayJoin(c, s, [e], es);
    PlayOne(c, s, e);
  }

  lemma PlayTwo(c: Config, s: Server, x: GameEvent, y: GameEvent)
    requires c.overtimeRounds > 1
    ensures Play(c, s, [x, y]) == React(c, React(c, s, x), y)
  {
    assert [x, y] == [x] + [y];
    PlayLast(c, s, [x], y);
    PlayOne(c, s, x);
  }

  lemma AllowedLast(c: Config, s: Server, es: seq<GameEvent>, e: GameEvent)
    requires c.overtimeRounds > 1
    ensures AllAllowed(c, s, es + [e]) <==> AllAllowed(c, s, es) && Allowed(c, Play(c, s, es), e)
  {
    assert (es + [e])[..|es + [e]| - 1] == es;
  }

  lemma {:induction false} AllowedJoin(c: Config, s: Server, x: seq<GameEvent>, y: seq<GameEvent>)
    requires c.overtimeRounds > 1 && AllAllowed(c, s, x) && AllAllowed(c, Play(c, s, x), y)
    ensures AllAllowed(c, s, x + y)
  {
    if y == [] {
      assert x + y == x;
    } else {
      var front, last := y[..|y| - 1], y[|y| - 1];
      assert y == front + [last] && x + y == (x + front) + [last];
      AllowedLast(c, Play(c, s, x), front, last);
      AllowedJoin(c, s, x, front);
      PlayJoin(c, s, x, front);
      AllowedLast(c, s, x + front, last);
    }
  }

  lemma AllowedOne(c: Config, s: Server, e: GameEvent)
    requires c.overtimeRounds > 1
    ensures AllAllowed(c, s, [e]) <==> Allowed(c, s, e)
  {
    assert [e] == [] + [e];
    AllowedLast(c, s, [], e);
  }

  lemma AllowedTwo(c: Config, s: Server, x: GameEvent, y: GameEvent)
    requires c.overtimeRounds > 1 && Allowed(c, s, x) && Allowed(c, React(c, s, x), y)
    ensures AllAllowed(c, s, [x, y])
  {
    assert [x, y] == [x] + [y];
    PlayOne(c, s, x);
    AllowedOne(c, s, x);
    AllowedOne(c, React(c, s, x), y);
    AllowedJoin(c, s, [x], [y]);
  }

  lemma {:induction false} QuietAllowed(c: Config, s: Server, es: seq<GameEvent>)
    requires c.overtimeRounds > 1 && Quiet(es)
    ensures AllAllowed(c, s, es)
  {
    if es != [] {
      QuietAllowed(c, s, es[..|es| - 1]);
    }
  }

  // ---------- time goes on ----------

  function Later(x: real, y: real): real
  {
    if x < y then y else x
  }

  /** The time after some events that begin at now. */
  function Clock(now: real, es: seq<GameEvent>): real
  {
    if es == [] then now
    else
      match es[|es| - 1]
      case Players(_) => Clock(now, es[..|es| - 1])
      case Tick(t) => t
      case RoundOver(_, _, _, t) => t
      case VoteOver(_, t) => t
  }

  /** No event is before now, and none before the one that precedes it. */
  predicate Forward(now: real, es: seq<GameEvent>)
  {
    es == [] ||
    (Forward(now, es[..|es| - 1]) && Clock(now, es) >= Clock(now, es[..|es| - 1]))
  }

  lemma ForwardOne(now: real, e: GameEvent)
    requires Clock(now, [e]) >= now
    ensures Forward(now, [e])
  {
    assert [e][..|[e]| - 1] == [];
    assert Clock(now, []) == now && Forward(now, []);
  }

  lemma ForwardLast(now: real, es: seq<GameEvent>, e: GameEvent)
    ensures Clock(now, es + [e]) == Clock(Clock(now, es), [e])
    ensures Forward(now, es + [e]) <==> Forward(now, es) && Clock(now, es + [e]) >= Clock(now, es)
  {
    assert (es + [e])[..|es + [e]| - 1] == es && [e][..|[e]| - 1] == [];
    assert Clock(Clock(now, es), []) == Clock(now, es);
  }

  lemma {:induction false} ForwardFirst(now: real, e: GameEvent, es: seq<GameEvent>)
    requires Clock(now, [e]) >= now && Forward(Clock(now, [e]), es)
    ensures Forward(now, [e] + es) && Clock(now, [e] + es) == Clock(Clock(now, [e]), es)
  {
    if es == [] {
      assert [e] + es == [e];
      ForwardOne(now, e);
    } else {
      var front, last := es[..|es| - 1], es[|es| - 1];
      ForwardFirst(now, e, front);
      assert es == front + [last] && [e] + es == ([e] + front) + [last];
      ForwardLast(now, [e] + front, last);
      ForwardLast(Clock(now, [e]), front, last);
    }
  }

  // ---------- the live-on-three chain ----------

  /** How long the steps after this one take at least. */
  function Rest(seconds: int): real
  {
    if seconds <= 2 then 7.0 else if seconds == 3 then 4.0 else 0.0
  }

  /** The earliest time from now on at which the last step of a pending chain can run. */
  function ChainEnd(q: Queue<Callback>, now: real): real
    requires LO3R in q
  {
    Later(now, q[LO3R].endTime) + (if q[LO3R].callback.CallLo3? then Rest(q[LO3R].callback.seconds) else 0.0)
  }

  /** A step before the last: the world stays, the next step is set. */
  lemma Leg(c: Config, s: Server, now: real)
    requires Wired(s.queue) && Due(s.queue, LO3R, now) && s.queue[LO3R].callback != CallLo3(4)
    ensures var s' := Reached(c, s, LO3R, now);
            && s'.world == s.world && Wired(s'.queue) && Live(s'.queue, LO3R)
            && SameEntry(s.queue, s'.queue, LIST) && SameEntry(s.queue, s'.queue, NEXT)
            && s.queue[LO3R].callback.CallLo3?
            && s'.queue[LO3R].callback == CallLo3(s.queue[LO3R].callback.seconds + 1)
            && s'.queue[LO3R].endTime == now + (s.queue[LO3R].callback.seconds + 1) as real
  {
    ReachedState(c, s, LO3R, now);
    ReachedWired(c, s, LO3R, now);
    var callback := s.queue[LO3R].callback;
    assert Belongs(LO3R, callback, s.queue[LO3R].loop);
    var e := Lo3(c, s.world, callback.seconds);
    ApplyOne(Mark(s.queue, LO3R, now), now, e.commands[0]);
  }

  /** The last step wipes the period. */
  lemma LastLeg(c: Config, s: Server, now: real)
    requires Wired(s.queue) && Due(s.queue, LO3R, now) && s.queue[LO3R].callback == CallLo3(4)
    ensures var s' := Reached(c, s, LO3R, now);
            && s'.world == ResetStateScores(GameStarts(c, s.world)) && Wired(s'.queue) && !Live(s'.queue, LO3R)
            && SameEntry(s.queue, s'.queue, LIST) && SameEntry(s.queue, s'.queue, NEXT)
  {
    ReachedState(c, s, LO3R, now);
    ReachedWired(c, s, LO3R, now);
    assert Belongs(LO3R, s.queue[LO3R].callback, s.queue[LO3R].loop);
  }

  /** A frame in which only the chain, and perhaps a swap, is due. */
  lemma FrameOfLeg(c: Config, s: Server, now: real)
    requires Wired(s.queue) && !Live(s.queue, LIST) && !Due(s.queue, NEXT, now)
    ensures Frame(Run(c), s, now).state == Reached(c, AfterExec(c, s, now), LO3R, now)
    ensures SwappedAtMost(s, AfterExec(c, s, now)) && Wired(AfterExec(c, s, now).queue)
  {
    FrameIs(c, s, now);
    ExecSwaps(c, s, now);
    WalkExec(c, s, now);
    var a := AfterExec(c, s, now);
    PassedBy(c, a, LIST, now);
    PassedBy(c, a, NEXT, now);
  }

  // ---------- a half that waits for its transition ----------

  /** A half is complete and its transition pending. */
  ghost predicate Waiting(c: Config, s: Server, deadline: real)
  {
    && Regular(c) && Balanced(s.world.board) && Wired(s.queue)
    && (s.world.stage.FirstHalf? || s.world.stage.SecondHalf?)
    && MayLeave(c, s.world.stage, ScoresOf(s.world), Timers(true, false, false))
    && !Live(s.queue, LIST) && Live(s.queue, NEXT) && s.queue[NEXT].endTime == deadline
  }

  /** From now on the rest of the restart, if there is one, cannot end before the transition. */
  ghost predicate InTime(c: Config, s: Server, deadline: real, now: real)
  {
    Waiting(c, s, deadline) && (Live(s.queue, LO3R) ==> ChainEnd(s.queue, now) >= deadline)
  }

  lemma SwapMayLeave(c: Config, stage: Stage, x: Scores, t: Timers)
    requires Regular(c) && MayLeave(c, stage, x, t)
    ensures MayLeave(c, stage, x.Swapped(), t)
  {
  }

  lemma SwapWaits(c: Config, s: Server, s': Server, deadline: real)
    requires Waiting(c, s, deadline) && SwappedAtMost(s, s') && Wired(s'.queue)
    ensures Waiting(c, s', deadline)
    ensures Live(s.queue, LO3R) <==> Live(s'.queue, LO3R)
    ensures Live(s.queue, LO3R) ==> s.queue[LO3R] == s'.queue[LO3R]
  {
    SwapMayLeave(c, s.world.stage, ScoresOf(s.world), Timers(true, false, false));
  }

  lemma WaitingSafe(c: Config, s: Server, deadline: real)
    requires Waiting(c, s, deadline)
    ensures Safe(c, s.world)
  {
    HalfTwice(c);
  }

  /** A frame at or after the deadline: the transition comes before the restart. */
  lemma TransitionFirst(c: Config, s: Server, now: real, deadline: real)
    requires Waiting(c, s, deadline) && now >= deadline
    ensures Inv(c, Reached(c, Reached(c, s, NEXT, now), LO3R, now))
  {
    ReachedState(c, s, NEXT, now);
    var t := TimersOf(s.queue);
    assert Belongs(NEXT, s.queue[NEXT].callback, s.queue[NEXT].loop);
    MarkPending(s.queue, now, NEXT, t);
    RunStateKeeps(c, Mark(s.queue, NEXT, now), now, s.world, t.(next := false));
    var n := Reached(c, s, NEXT, now);
    if Due(n.queue, LO3R, now) {
      FireKeeps(c, n, LO3R, now);
    }
  }

  lemma FrameInTime(c: Config, s: Server, before: real, now: real, deadline: real)
    requires InTime(c, s, deadline, before) && before <= now
    ensures InTime(c, Frame(Run(c), s, now).state, deadline, now) || Inv(c, Frame(Run(c), s, now).state)
  {
    var a := AfterExec(c, s, now);
    ExecSwaps(c, s, now);
    WalkExec(c, s, now);
    SwapWaits(c, s, a, deadline);
    if now >= deadline {
      FrameIs(c, s, now);
      PassedBy(c, a, LIST, now);
      TransitionFirst(c, a, now, deadline);
    } else {
      FrameOfLeg(c, s, now);
      if Due(a.queue, LO3R, now) {
        Leg(c, a, now);
      }
    }
  }

  lemma {:induction false} InTimeIsSafe(c: Config, s: Server, deadline: real, now: real, es: seq<GameEvent>)
    requires InTime(c, s, deadline, now) && Quiet(es) && Forward(now, es)
    ensures InTime(c, Play(c, s, es), deadline, Clock(now, es)) || Inv(c, Play(c, s, es))
  {
    if es != [] {
      var n := |es| - 1;
      InTimeIsSafe(c, s, deadline, now, es[..n]);
      var before := Play(c, s, es[..n]);
      if Inv(c, before) {
        ReactKeeps(c, before, es[n]);
      } else if es[n].Tick? {
        FrameInTime(c, before, Clock(now, es[..n]), es[n].now, deadline);
      }
    }
  }

  lemma SafeInTime(c: Config, s: Server, deadline: real, now: real)
    requires InTime(c, s, deadline, now) || Inv(c, s)
    ensures Safe(c, s.world)
  {
    if Inv(c, s) {
      InvSafe(c, s);
    } else {
      WaitingSafe(c, s, deadline);
    }
  }

  // ---------- a half that the restart wipes ----------

  /** A half whose rounds are gone, with its transition due now and no restart due. */
  ghost predicate WipedHalf(c: Config, s: Server, now: real)
  {
    && Regular(c) && Balanced(s.world.board) && Wired(s.queue)
    && s.world.board[6] == Zero() && s.world.board[5] == Zero()
    && ((s.world.stage.FirstHalf? && s.world.board[3] == Zero())
        || (s.world.stage.SecondHalf? && s.world.board[3].round == Half(c)))
    && !Live(s.queue, LIST) && !Due(s.queue, LO3R, now) && Due(s.queue, NEXT, now)
  }

  /** Leaving a half sets no live-on-three timer. */
  lemma LeavingSetsNoRestart(c: Config, q: Queue<Callback>, now: real, w: World, stage: Stage)
    requires stage.Halftime? || stage.End?
    ensures SameEntry(q, ApplyAll(q, now, SetState(c, w, stage).commands), LO3R)
  {
    var cs := SetState(c, w, stage).commands;
    assert forall k :: 0 <= k < |cs| ==> cs[k].index != LO3R;
    ApplyAllUntouched(q, now, cs, LO3R);
  }

  lemma WipedNext(c: Config, w: World)
    requires Regular(c) && Balanced(w.board) && w.board[6] == Zero() && w.board[5] == Zero()
    requires w.stage.SecondHalf? && w.board[3].round == Half(c)
    ensures Next(c, w) == End && !Finished(c, ScoresOf(w))
  {
    Totals(w);
    HalfTwice(c);
    assert GetScores(w, T) == w.board[3].tr && GetScores(w, CT) == w.board[3].ct;
  }

  lemma WipedLeaves(c: Config, s: Server, now: real)
    requires WipedHalf(c, s, now)
    ensures var v := Reached(c, Reached(c, s, NEXT, now), LO3R, now).world;
            !Safe(c, v) && (s.world.stage.FirstHalf? ==> v.stage.Halftime? && v.board[3].round == 0)
  {
    var w := s.world;
    HalfTwice(c);
    ReachedState(c, s, NEXT, now);
    assert Belongs(NEXT, s.queue[NEXT].callback, s.queue[NEXT].loop);
    if w.stage.SecondHalf? {
      WipedNext(c, w);
    }
    var e := RunState(c, w);
    assert e == SetState(c, w, Next(c, w));
    LeavingSetsNoRestart(c, Mark(s.queue, NEXT, now), now, w, Next(c, w));
    var n := Reached(c, s, NEXT, now);
    assert n.world == e.world;
    PassedBy(c, n, LO3R, now);
    SetStateScores(c, w, Next(c, w));
    assert e.world.stage == Next(c, w);
  }

  lemma WipedUnsafe(c: Config, s: Server, deadline: real)
    requires WipedHalf(c, s, deadline)
    ensures var v := Frame(Run(c), s, deadline).state.world;
            !Safe(c, v) && (s.world.stage.FirstHalf? ==> v.stage.Halftime? && v.board[3].round == 0)
  {
    FrameIs(c, s, deadline);
    ExecSwaps(c, s, deadline);
    WalkExec(c, s, deadline);
    var a := AfterExec(c, s, deadline);
    PassedBy(c, a, LIST, deadline);
    WipedLeaves(c, a, deadline);
  }

  lemma WipeLeavesNothing(c: Config, s: Server, s': Server, deadline: real)
    requires Waiting(c, s, deadline) && Wired(s'.queue) && !Live(s'.queue, LO3R)
    requires s'.world == ResetStateScores(GameStarts(c, s.world))
    requires SameEntry(s.queue, s'.queue, LIST) && SameEntry(s.queue, s'.queue, NEXT)
    ensures WipedHalf(c, s', deadline) && s'.world.stage == s.world.stage
  {
    if !s.world.stage.FirstHalf? {
      assert s.world.stage.SecondHalf?;
    }
  }

  /** The frame of the last step, before the deadline. */
  lemma LastLegWipes(c: Config, s: Server, now: real, deadline: real)
    requires Waiting(c, s, deadline) && now < deadline && Due(s.queue, LO3R, now)
    requires s.queue[LO3R].callback == CallLo3(4)
    ensures WipedHalf(c, Frame(Run(c), s, now).state, deadline)
    ensures Frame(Run(c), s, now).state.world.stage == s.world.stage
  {
    var a := AfterExec(c, s, now);
    FrameOfLeg(c, s, now);
    SwapWaits(c, s, a, deadline);
    LastLeg(c, a, now);
    WipeLeavesNothing(c, a, Reached(c, a, LO3R, now), deadline);
  }

  /** When the pending step runs, from now on at the earliest. */
  function StepTime(q: Queue<Callback>, now: real): real
    requires LO3R in q
  {
    Later(now, q[LO3R].endTime)
  }

  /** The last step and then the transition, each at its time. */
  lemma LastStepLoses(c: Config, s: Server, deadline: real, now: real)
    requires Waiting(c, s, deadline) && Live(s.queue, LO3R) && ChainEnd(s.queue, now) < deadline
    requires s.queue[LO3R].callback == CallLo3(4)
    ensures !Safe(c, Play(c, Frame(Run(c), s, StepTime(s.queue, now)).state, [GameEvent.Tick(deadline)]).world)
  {
    var at := StepTime(s.queue, now);
    var s' := Frame(Run(c), s, at).state;
    LastLegWipes(c, s, at, deadline);
    WipedUnsafe(c, s', deadline);
    PlayOne(c, s', GameEvent.Tick(deadline));
  }

  /** A step before the last, at its time and before the deadline. */
  lemma LegWaits(c: Config, s: Server, deadline: real, now: real)
    requires Waiting(c, s, deadline) && Live(s.queue, LO3R) && ChainEnd(s.queue, now) < deadline
    requires s.queue[LO3R].callback != CallLo3(4)
    ensures var at := StepTime(s.queue, now);
            var s' := Frame(Run(c), s, at).state;
            && Waiting(c, s', deadline) && Live(s'.queue, LO3R) && ChainEnd(s'.queue, at) == ChainEnd(s.queue, now)
            && s.queue[LO3R].callback.CallLo3? && s.queue[LO3R].callback.seconds < 4
            && s'.queue[LO3R].callback == CallLo3(s.queue[LO3R].callback.seconds + 1)
  {
    var at := StepTime(s.queue, now);
    assert Belongs(LO3R, s.queue[LO3R].callback, s.queue[LO3R].loop);
    var a := AfterExec(c, s, at);
    FrameOfLeg(c, s, at);
    SwapWaits(c, s, a, deadline);
    Leg(c, a, at);
  }

  /** A frame before some events that break the promise. */
  lemma FrameFirst(c: Config, s: Server, now: real, at: real, rest: seq<GameEvent>)
    requires Regular(c) && now <= at && Quiet(rest) && Forward(at, rest)
    requires !Safe(c, Play(c, Frame(Run(c), s, at).state, rest).world)
    ensures var es := [GameEvent.Tick(at)] + rest; Quiet(es) && Forward(now, es) && !Safe(c, Play(c, s, es).world)
  {
    ForwardFirst(now, GameEvent.Tick(at), rest);
    PlayFirst(c, s, GameEvent.Tick(at), rest);
  }

  /** If the rest of the restart can end first there are frames that lose the half. */
  lemma {:induction false} TooLate(c: Config, s: Server, deadline: real, now: real) returns (es: seq<GameEvent>)
    requires Waiting(c, s, deadline) && Live(s.queue, LO3R) && ChainEnd(s.queue, now) < deadline
    ensures Quiet(es) && Forward(now, es) && !Safe(c, Play(c, s, es).world)
    decreases if s.queue[LO3R].callback.CallLo3? then 4 - s.queue[LO3R].callback.seconds else 0
  {
    var at := StepTime(s.queue, now);
    var s' := Frame(Run(c), s, at).state;
    var rest: seq<GameEvent>;
    if s.queue[LO3R].callback == CallLo3(4) {
      LastStepLoses(c, s, deadline, now);
      ForwardOne(at, GameEvent.Tick(deadline));
      rest := [GameEvent.Tick(deadline)];
    } else {
      LegWaits(c, s, deadline, now);
      rest := TooLate(c, s', deadline, at);
    }
    es := [GameEvent.Tick(at)] + rest;
    FrameFirst(c, s, now, at, rest);
  }

  lemma LeavesAfter(c: Config, period: int, stage: Stage, y: Scores, t: Timers, multiple: bool)
    requires Regular(c) && AfterCount(c, period, stage, y, t, multiple) && EndsIf(c, stage, y, multiple)
    ensures MayLeave(c, stage, y, t)
  {
  }

  lemma LeavesAnyway(c: Config, stage: Stage, y: Scores, t: Timers)
    requires Regular(c) && MayLeave(c, stage, y, t)
    ensures MayLeave(c, stage, y, Timers(true, false, false))
  {
  }

  /** The scores after a round that counts and ends a half. */
  lemma HalfEndsIf(c: Config, period: int, stage: Stage, x: Scores, y: Scores, t: Timers, side: Side, multiple: bool)
    requires Regular(c) && PhaseOf(c, period, stage, x, t) && (stage.FirstHalf? || stage.SecondHalf?) && !t.next
    requires Agrees(x.first) && Agrees(x.second)
    requires CountedIn(stage, x, y, side) && EndsIf(c, stage, y, multiple)
    ensures MayLeave(c, stage, y, Timers(true, false, false))
  {
    if stage.FirstHalf? {
      FirstHalfCounted(c, period, x, y, t, side, multiple);
    } else {
      SecondHalfCounted(c, period, x, y, t, side, multiple);
    }
    LeavesAfter(c, period, stage, y, t, multiple);
    LeavesAnyway(c, stage, y, t);
  }

  lemma HalfEndsOn(c: Config, stage: Stage, x: Scores, y: Scores, t: Timers, side: Side)
    requires Phase'(c, stage, x, t) && (stage.FirstHalf? || stage.SecondHalf?) && !t.next
    requires CountedIn(stage, x, y, side) && Ends(c, stage, y)
    ensures MayLeave(c, stage, y, Timers(true, false, false))
  {
    HalfEndsIf(c, PeriodLength(c), stage, x, y, t, side, Multiple(c, y));
  }

  /** The world after a round that counts and ends a half. */
  lemma HalfEnds(c: Config, s: Server, win: Win, counted: bool)
    requires Inv(c, s) && (s.world.stage.FirstHalf? || s.world.stage.SecondHalf?) && !Live(s.queue, NEXT)
    requires Counts(c, s.world, win, counted) && RoundEndsPeriod(c, AddRound(s.world, win.side))
    ensures var w := AddRound(s.world, win.side);
            w.stage == s.world.stage && Balanced(w.board) && MayLeave(c, w.stage, ScoresOf(w), Timers(true, false, false))
  {
    var w := AddRound(s.world, win.side);
    CountRound(c, s.world, win, counted);
    EndsMeans(c, w);
    HalfEndsOn(c, w.stage, ScoresOf(s.world), ScoresOf(w), TimersOf(s.queue), win.side);
  }

  /** Before its rounds are complete a half has no transition and no ready list pending. */
  lemma RestartAlone(c: Config, s: Server)
    requires Inv(c, s) && (s.world.stage.FirstHalf? || s.world.stage.SecondHalf?) && Live(s.queue, LO3R)
    ensures !Live(s.queue, NEXT) && !Live(s.queue, LIST)
  {
  }

  /** A round that ends a half while the restart is pending sets the transition. */
  lemma RoundWaits(c: Config, s: Server, win: Win, counted: bool, delay: real, now: real)
    requires Inv(c, s) && (s.world.stage.FirstHalf? || s.world.stage.SecondHalf?) && Live(s.queue, LO3R)
    requires Counts(c, s.world, win, counted) && RoundEndsPeriod(c, AddRound(s.world, win.side)) && delay != 0.0
    ensures var s' := React(c, s, RoundOver(win, counted, delay, now));
            && Waiting(c, s', now + delay) && Live(s'.queue, LO3R) && s'.queue[LO3R] == s.queue[LO3R]
  {
    RestartAlone(c, s);
    HalfEnds(c, s, win, counted);
    var w := AddRound(s.world, win.side);
    var x := NextState(c, w, delay).commands[0];
    assert RoundEnd(c, s.world, win, counted, delay) == Outcome(w, [x]);
    ApplyOne(s.queue, now, x);
    CreatePending(s.queue, now, x, TimersOf(s.queue));
  }

  /** A round that counts and ends a half while the restart is pending. */
  ghost predicate LateRound(c: Config, s: Server, win: Win, counted: bool, delay: real)
  {
    && Inv(c, s) && (s.world.stage.FirstHalf? || s.world.stage.SecondHalf?) && Live(s.queue, LO3R)
    && Counts(c, s.world, win, counted) && RoundEndsPeriod(c, AddRound(s.world, win.side)) && delay != 0.0
  }

  /**
  After such a round, frames and changes of players alone, in order of time, break what regulation
  promises if and only if from now on the rest of the restart can end before the deadline of the
  transition.
  */
  lemma LateRoundIff(c: Config, s: Server, win: Win, counted: bool, delay: real, now: real)
    requires LateRound(c, s, win, counted, delay)
    ensures (exists es | Quiet(es) && Forward(now, es) ::
               !Safe(c, Play(c, React(c, s, RoundOver(win, counted, delay, now)), es).world))
            <==> ChainEnd(s.queue, now) < now + delay
  {
    var s' := React(c, s, RoundOver(win, counted, delay, now));
    RoundWaits(c, s, win, counted, delay, now);
    if ChainEnd(s.queue, now) < now + delay {
      var es := TooLate(c, s', now + delay, now);
      assert Quiet(es) && Forward(now, es) && !Safe(c, Play(c, s', es).world);
    } else {
      forall es | Quiet(es) && Forward(now, es)
        ensures Safe(c, Play(c, s', es).world)
      {
        InTimeIsSafe(c, s', now + delay, now, es);
        SafeInTime(c, Play(c, s', es), now + delay, Clock(now, es));
      }
    }
  }

  /** A drawn round: it does not count, and sets the transition again. */
  function Drawn(delay: real, now: real): GameEvent
  {
    RoundOver(WinDraw, false, delay, now)
  }

  /** A complete half asks for the next state again whenever a round ends. */
  lemma WaitingEnds(c: Config, s: Server, deadline: real)
    requires Waiting(c, s, deadline)
    ensures RoundEndsPeriod(c, s.world)
  {
    HalfTwice(c);
    Totals(s.world);
  }

  lemma DrawnWaits(c: Config, s: Server, deadline: real, delay: real, now: real)
    requires Waiting(c, s, deadline) && delay != 0.0
    ensures Allowed(c, s, Drawn(delay, now))
    ensures var s' := React(c, s, Drawn(delay, now));
            && Waiting(c, s', now + delay) && SameEntry(s.queue, s'.queue, LO3R)
  {
    WaitingEnds(c, s, deadline);
    var x := NextState(c, s.world, delay).commands[0];
    assert RoundEnd(c, s.world, WinDraw, false, delay) == Outcome(s.world, [x]);
    ApplyOne(s.queue, now, x);
    CreatePending(s.queue, now, x, TimersOf(s.queue));
  }

  /** However soon its transition is due, such a round can be lost: a drawn round before the
      transition puts it off until after the restart. */
  lemma LateRoundLost(c: Config, s: Server, win: Win, counted: bool, delay: real, now: real) returns (es: seq<GameEvent>)
    requires LateRound(c, s, win, counted, delay)
    ensures var s' := React(c, s, RoundOver(win, counted, delay, now));
            AllAllowed(c, s', es) && Forward(now, es) && !Safe(c, Play(c, s', es).world)
  {
    var s1 := React(c, s, RoundOver(win, counted, delay, now));
    RoundWaits(c, s, win, counted, delay, now);
    var later := ChainEnd(s.queue, now) - now + 1.0;
    var draw := Drawn(later, now);
    DrawnWaits(c, s1, now + delay, later, now);
    var s2 := React(c, s1, draw);
    var rest := TooLate(c, s2, now + later, now);
    es := [draw] + rest;
    QuietAllowed(c, s2, rest);
    AllowedOne(c, s1, draw);
    PlayOne(c, s1, draw);
    AllowedJoin(c, s1, [draw], rest);
    PlayFirst(c, s1, draw, rest);
    ForwardFirst(now, draw, rest);
  }

  // ---------- a half that is lost, from the kickoff on ----------

  /** The first half in progress on a started game. */
  ghost predicate Going(c: Config, s: Server, rounds: int)
  {
    && Inv(c, s) && s.world.stage.FirstHalf? && s.world.board[3].round == rounds
    && c.gameRules && s.world.env.started
  }

  /** The next step of the live-on-three restart and when it is due. */
  predicate StepAt(s: Server, seconds: int, at: real)
  {
    Live(s.queue, LO3R) && s.queue[LO3R].callback == CallLo3(seconds) && s.queue[LO3R].endTime == at
  }

  function RoundWon(now: real): GameEvent
  {
    RoundOver(WinSide(T), true, 5.0, now)
  }

  /** A match on a started game with enough players. */
  ghost predicate GoodStart(c: Config, q: Queue<Callback>, now: real, w: World)
  {
    Kickoff(c, q) && c.gameRules && w.env.started && Started(c, q, now, w).world.stage.FirstHalf?
  }

  lemma StartedGoing(c: Config, q: Queue<Callback>, now: real, w: World)
    requires GoodStart(c, q, now, w)
    ensures Going(c, Started(c, q, now, w), 0) && StepAt(Started(c, q, now, w), 2, now + 2.0)
  {
    EnterFirstHalf(c, q, now, w, TimersOf(q));
    var (ok, w') := CheckBalanceTeams(c, ResetScores(w.(stage := FirstHalf, pause := false)));
    assert ok;
    var e := SetState(c, w, FirstHalf);
    assert e.commands == [Remove(LIST), Lo3(c, w', 1).commands[0]];
    ApplyTwo(q, now, e.commands[0], e.commands[1]);
  }

  lemma StepOn(c: Config, s: Server, rounds: int, seconds: int, at: real)
    requires Going(c, s, rounds) && rounds < Half(c) && StepAt(s, seconds, at) && 2 <= seconds <= 3
    ensures var s' := React(c, s, GameEvent.Tick(at));
            Going(c, s', rounds) && StepAt(s', seconds + 1, at + (seconds + 1) as real)
  {
    FrameKeeps(c, s, at);
    FrameOfLeg(c, s, at);
    Leg(c, AfterExec(c, s, at), at);
  }

  lemma StepLast(c: Config, s: Server, rounds: int, at: real)
    requires Going(c, s, rounds) && rounds < Half(c) && StepAt(s, 4, at)
    ensures var s' := React(c, s, GameEvent.Tick(at));
            Going(c, s', 0) && !Live(s'.queue, LO3R)
  {
    FrameKeeps(c, s, at);
    FrameOfLeg(c, s, at);
    LastLeg(c, AfterExec(c, s, at), at);
  }

  /** A counted round before the last of the half leaves the timers alone. */
  lemma RoundOn(c: Config, s: Server, rounds: int, now: real)
    requires Going(c, s, rounds) && rounds + 1 < Half(c)
    ensures Allowed(c, s, RoundWon(now))
    ensures var s' := React(c, s, RoundWon(now)); Going(c, s', rounds + 1) && s'.queue == s.queue
  {
    var w := AddRound(s.world, T);
    CountRound(c, s.world, WinSide(T), true);
    EndsMeans(c, w);
    assert !RoundEndsPeriod(c, w);
    RoundOverKeeps(c, s, WinSide(T), true, 5.0, now);
  }

  function Rounds(n: nat, now: real): seq<GameEvent>
  {
    seq(n, _ => RoundWon(now))
  }

  lemma RoundMore(c: Config, s: Server, front: seq<GameEvent>, rounds: int, now: real)
    requires Regular(c) && AllAllowed(c, s, front) && Play(c, s, front).queue == s.queue
    requires Going(c, Play(c, s, front), rounds) && rounds + 1 < Half(c)
    ensures var es := front + [RoundWon(now)];
            AllAllowed(c, s, es) && Going(c, Play(c, s, es), rounds + 1) && Play(c, s, es).queue == s.queue
  {
    RoundOn(c, Play(c, s, front), rounds, now);
    PlayLast(c, s, front, RoundWon(now));
    AllowedLast(c, s, front, RoundWon(now));
  }

  lemma {:induction false} RoundsOn(c: Config, s: Server, rounds: int, n: nat, now: real)
    requires Going(c, s, rounds) && rounds + n < Half(c)
    ensures AllAllowed(c, s, Rounds(n, now))
    ensures var s' := Play(c, s, Rounds(n, now)); Going(c, s', rounds + n) && s'.queue == s.queue
    decreases n
  {
    if n > 0 {
      RoundsOn(c, s, rounds, n - 1, now);
      assert Rounds(n, now) == Rounds(n - 1, now) + [RoundWon(now)];
      RoundMore(c, s, Rounds(n - 1, now), rounds + n - 1, now);
    }
  }

  /** From the start of the match: all steps of the restart but the last, then rounds. */
  function Opening(n: nat, now: real): seq<GameEvent>
  {
    [GameEvent.Tick(now + 2.0), GameEvent.Tick(now + 5.0)] + Rounds(n, now + 5.0)
  }

  /** Two frames, the second not before the first. */
  lemma TwoFrames(c: Config, s: Server, from: real, x: real, y: real)
    requires c.overtimeRounds > 1 && from <= x <= y
    ensures var es := [GameEvent.Tick(x), GameEvent.Tick(y)];
            && AllAllowed(c, s, es) && Forward(from, es) && Clock(from, es) == y
            && Play(c, s, es) == React(c, React(c, s, GameEvent.Tick(x)), GameEvent.Tick(y))
  {
    var u, v := GameEvent.Tick(x), GameEvent.Tick(y);
    PlayTwo(c, s, u, v);
    QuietAllowed(c, s, [u, v]);
    ForwardOne(from, u);
    assert [u, v] == [u] + [v];
    ForwardLast(from, [u], v);
  }

  lemma TwoSteps(c: Config, s: Server, now: real)
    requires Going(c, s, 0) && StepAt(s, 2, now + 2.0)
    ensures var es := [GameEvent.Tick(now + 2.0), GameEvent.Tick(now + 5.0)];
            AllAllowed(c, s, es) && Going(c, Play(c, s, es), 0) && StepAt(Play(c, s, es), 4, now + 9.0)
  {
    var x, y := GameEvent.Tick(now + 2.0), GameEvent.Tick(now + 5.0);
    HalfTwice(c);
    StepOn(c, s, 0, 2, now + 2.0);
    StepOn(c, React(c, s, x), 0, 3, now + 5.0);
    TwoFrames(c, s, now, now + 2.0, now + 5.0);
  }

  lemma OpeningGoing(c: Config, q: Queue<Callback>, now: real, w: World, n: nat)
    requires GoodStart(c, q, now, w) && n < Half(c)
    ensures var s := Started(c, q, now, w);
            && AllAllowed(c, s, Opening(n, now))
            && Going(c, Play(c, s, Opening(n, now)), n) && StepAt(Play(c, s, Opening(n, now)), 4, now + 9.0)
  {
    var s, steps := Started(c, q, now, w), [GameEvent.Tick(now + 2.0), GameEvent.Tick(now + 5.0)];
    StartedGoing(c, q, now, w);
    TwoSteps(c, s, now);
    RoundsOn(c, Play(c, s, steps), 0, n, now + 5.0);
    PlayJoin(c, s, steps, Rounds(n, now + 5.0));
    AllowedJoin(c, s, steps, Rounds(n, now + 5.0));
  }

  /** The last round of the half with four seconds of the restart to go, the last step of the
      restart, the transition. */
  function LostHalf(c: Config, now: real): seq<GameEvent>
    requires Regular(c)
  {
    Opening(Half(c) - 1, now) + ([RoundWon(now + 5.0)] + [GameEvent.Tick(now + 9.0), GameEvent.Tick(now + 10.0)])
  }

  /** The last round of the half, the last step of the restart, the transition. */
  lemma HalfLost(c: Config, s: Server, now: real)
    requires Going(c, s, Half(c) - 1) && StepAt(s, 4, now + 9.0)
    ensures var v := Play(c, s, [RoundWon(now + 5.0)] + [GameEvent.Tick(now + 9.0), GameEvent.Tick(now + 10.0)]).world;
            v.stage.Halftime? && v.board[3].round == 0
  {
    var last, x, y := RoundWon(now + 5.0), GameEvent.Tick(now + 9.0), GameEvent.Tick(now + 10.0);
    LastRoundEnds(c, s);
    RoundWaits(c, s, WinSide(T), true, 5.0, now + 5.0);
    var s2 := React(c, s, last);
    LastLegWipes(c, s2, now + 9.0, now + 10.0);
    WipedUnsafe(c, React(c, s2, x), now + 10.0);
    PlayFirst(c, s, last, [x, y]);
    PlayTwo(c, s2, x, y);
  }

  lemma LastRoundEnds(c: Config, s: Server)
    requires Going(c, s, Half(c) - 1)
    ensures RoundEndsPeriod(c, AddRound(s.world, T))
  {
    var w := AddRound(s.world, T);
    HalfTwice(c);
    CountRound(c, s.world, WinSide(T), true);
    EndsMeans(c, w);
  }

  /**
  A match on a started game, from any kickoff: every round of the first half is won while the
  live-on-three restart is pending, and the restart takes the half away before the transition.
  All events before the last round are allowed.
  */
  lemma RestartLosesHalf(c: Config, q: Queue<Callback>, now: real, w: World)
    requires GoodStart(c, q, now, w)
    ensures AllAllowed(c, Started(c, q, now, w), Opening(Half(c) - 1, now))
    ensures var v := Play(c, Started(c, q, now, w), LostHalf(c, now)).world;
            v.stage.Halftime? && v.board[3].round == 0
  {
    var s, opening := Started(c, q, now, w), Opening(Half(c) - 1, now);
    HalfTwice(c);
    OpeningGoing(c, q, now, w, Half(c) - 1);
    HalfLost(c, Play(c, s, opening), now);
    PlayJoin(c, s, opening, [RoundWon(now + 5.0)] + [GameEvent.Tick(now + 9.0), GameEvent.Tick(now + 10.0)]);
  }
}
