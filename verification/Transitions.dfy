/**
A transition that meets another one: a round that ends without a delay while the transition to
half-time is pending spoils the match if and only if half-time has too few players.
*/
module Transitions {
  import opened Options
  import opened Tasks
  import opened Match
  import opened MatchScores
  import opened Regulation
  import opened Frames
  import opened Restarts
  import opened Halftime

  // ---------- a round that ends at once ----------

  /** The ready list with everyone ready: the second half begins. */
  lemma ReadyResumes(c: Config, w: World)
    requires Regular(c) && Balanced(w.board) && w.stage.Halftime? && FirstHalfPlayed(c, ScoresOf(w))
    requires w.env == FullHouse(c, w)
    ensures ReadyList(c, w) ==
            Outcome(w.(stage := SecondHalf, pause := false),
                    [Remove(LIST), Remove(LIST), Create(LO3R, 2.0, false, Some(CallLo3(2)))])
  {
    Totals(w);
    HalfTwice(c);
    var w' := w.(stage := SecondHalf, pause := false);
    assert CheckBalanceTeams(c, w') == (true, w');
    assert RunState(c, w) == Resume(c, w');
  }

  /** Half-time with both the ready list and an older transition pending, and everyone ready. */
  ghost predicate Crossed(c: Config, s: Server, now: real)
  {
    && Regular(c) && Balanced(s.world.board) && Wired(s.queue)
    && s.world.stage.Halftime? && FirstHalfPlayed(c, ScoresOf(s.world)) && s.world.env == FullHouse(c, s.world)
    && Due(s.queue, LIST, now) && Due(s.queue, NEXT, now) && !Live(s.queue, LO3R)
  }

  lemma ListCrosses(c: Config, s: Server, now: real)
    requires Crossed(c, s, now)
    ensures WipedHalf(c, Reached(c, s, LIST, now), now)
  {
    ReachedState(c, s, LIST, now);
    ReachedWired(c, s, LIST, now);
    assert Belongs(LIST, s.queue[LIST].callback, s.queue[LIST].loop);
    ReadyResumes(c, s.world);
    var q, cs := Mark(s.queue, LIST, now), ReadyList(c, s.world).commands;
    assert cs == [Remove(LIST)] + [cs[1], cs[2]];
    ApplyFirst(q, now, cs[0], [cs[1], cs[2]]);
    ApplyTwo(Apply(q, now, cs[0]), now, cs[1], cs[2]);
  }

  /** One frame takes such a match through the second half to its end. */
  lemma CrossedUnsafe(c: Config, s: Server, now: real)
    requires Crossed(c, s, now)
    ensures !Safe(c, Frame(Run(c), s, now).state.world)
  {
    FrameIs(c, s, now);
    ExecSwaps(c, s, now);
    WalkExec(c, s, now);
    var a := AfterExec(c, s, now);
    assert Crossed(c, a, now);
    ListCrosses(c, a, now);
    WipedLeaves(c, Reached(c, a, LIST, now), now);
  }

  /** When both the ready list and the older transition are due. */
  function CrossingTime(s: Server, now: real): real
    requires NEXT in s.queue
  {
    Later(now + 0.5, s.queue[NEXT].endTime)
  }

  function Crossing(c: Config, s: Server, now: real): seq<GameEvent>
    requires NEXT in s.queue
  {
    [Players(FullHouse(c, s.world)), GameEvent.Tick(CrossingTime(s, now))]
  }

  /** Half-time entered at once with too few players, over a pending transition. */
  lemma EnterCrossed(c: Config, s: Server, now: real)
    requires Inv(c, s) && s.world.stage.FirstHalf? && Live(s.queue, NEXT) && !Enough(c, s.world)
    ensures var s' := Done(s.queue, now, RunState(c, s.world));
            var u := State(s'.queue, s'.world.(env := FullHouse(c, s'.world)));
            && s'.world.env == s.world.env && Crossed(c, u, CrossingTime(s, now))
  {
    var cs := RunState(c, s.world).commands;
    assert cs == [cs[0], cs[1]];
    ApplyTwo(s.queue, now, cs[0], cs[1]);
    SetStateFits(c, s.world, Stage.Halftime);
    ApplyAllWired(s.queue, now, cs);
  }

  lemma EndsAtOnce(c: Config, s: Server, win: Win, counted: bool, now: real)
    requires Inv(c, s) && s.world.stage.FirstHalf? && Live(s.queue, NEXT)
    requires !win.WinNone? && !Counts(c, s.world, win, counted)
    ensures React(c, s, RoundOver(win, counted, 0.0, now)) == Done(s.queue, now, RunState(c, s.world))
  {
    EndsMeans(c, s.world);
  }

  lemma CrossingUnsafe(c: Config, s: Server, s': Server, now: real)
    requires Regular(c) && NEXT in s.queue && s'.world.env == s.world.env
    requires var full := FullHouse(c, s'.world);
             full == FullHouse(c, s.world) && Crossed(c, State(s'.queue, s'.world.(env := full)), CrossingTime(s, now))
    ensures AllAllowed(c, s', Crossing(c, s, now)) && !Safe(c, Play(c, s', Crossing(c, s, now)).world)
  {
    var es := Crossing(c, s, now);
    assert Quiet(es);
    QuietAllowed(c, s', es);
    PlayTwo(c, s', es[0], es[1]);
    CrossedUnsafe(c, React(c, s', es[0]), CrossingTime(s, now));
  }

  lemma ZeroDelaySpoils(c: Config, s: Server, win: Win, counted: bool, now: real)
    requires Inv(c, s) && s.world.stage.FirstHalf? && Live(s.queue, NEXT)
    requires !win.WinNone? && !Counts(c, s.world, win, counted) && !Enough(c, s.world)
    ensures var s' := React(c, s, RoundOver(win, counted, 0.0, now));
            AllAllowed(c, s', Crossing(c, s, now)) && !Safe(c, Play(c, s', Crossing(c, s, now)).world)
  {
    EndsAtOnce(c, s, win, counted, now);
    EnterCrossed(c, s, now);
    CrossingUnsafe(c, s, React(c, s, RoundOver(win, counted, 0.0, now)), now);
  }

  /**
  A round that does not count ends without a delay while the transition to half-time is pending:
  some allowed events then break what regulation promises if and only if half-time has too few
  players to set its own transition.
  */
  lemma ZeroDelayIff(c: Config, s: Server, win: Win, counted: bool, now: real)
    requires Inv(c, s) && s.world.stage.FirstHalf? && Live(s.queue, NEXT)
    requires !win.WinNone? && !Counts(c, s.world, win, counted)
    ensures var s' := React(c, s, RoundOver(win, counted, 0.0, now));
            (exists es | AllAllowed(c, s', es) :: !Safe(c, Play(c, s', es).world)) <==> !Enough(c, s.world)
  {
    var s' := React(c, s, RoundOver(win, counted, 0.0, now));
    if Enough(c, s.world) {
      RoundOverKeeps(c, s, win, counted, 0.0, now);
      forall es | AllAllowed(c, s', es)
        ensures Safe(c, Play(c, s', es).world)
      {
        EveryStateSafe(c, s', es);
        InvSafe(c, Play(c, s', es));
      }
    } else {
      ZeroDelaySpoils(c, s, win, counted, now);
    }
  }

  /** The last round of the half sets the transition. */
  lemma RoundLast(c: Config, s: Server, now: real)
    requires Going(c, s, Half(c) - 1) && !Live(s.queue, LO3R)
    ensures Allowed(c, s, RoundWon(now))
    ensures var s' := React(c, s, RoundWon(now)); Going(c, s', Half(c)) && Live(s'.queue, NEXT)
  {
    HalfTwice(c);
    LastRoundEnds(c, s);
    CountRound(c, s.world, WinSide(T), true);
    RoundOverKeeps(c, s, WinSide(T), true, 5.0, now);
  }

  function Emptied(): GameEvent
  {
    Players(Env(0, 0, 0, 0, false, true))
  }

  /** The last round, then everyone leaves. */
  lemma LastThenEmpty(c: Config, s: Server, now: real)
    requires Going(c, s, Half(c) - 1) && !Live(s.queue, LO3R)
    ensures AllAllowed(c, s, [RoundWon(now), Emptied()])
    ensures var s' := Play(c, s, [RoundWon(now), Emptied()]);
            Going(c, s', Half(c)) && Live(s'.queue, NEXT) && s'.world.env.tr + s'.world.env.ct == 0
  {
    RoundLast(c, s, now);
    PlayTwo(c, s, RoundWon(now), Emptied());
    AllowedTwo(c, s, RoundWon(now), Emptied());
  }

  lemma HalfPlayed(c: Config, s: Server, now: real)
    requires Going(c, s, 0) && !Live(s.queue, LO3R)
    ensures var es := Rounds(Half(c) - 1, now) + [RoundWon(now), Emptied()];
            && AllAllowed(c, s, es)
            && var s' := Play(c, s, es);
               Going(c, s', Half(c)) && Live(s'.queue, NEXT) && s'.world.env.tr + s'.world.env.ct == 0
  {
    HalfTwice(c);
    RoundsOn(c, s, 0, Half(c) - 1, now);
    LastThenEmpty(c, Play(c, s, Rounds(Half(c) - 1, now)), now);
    PlayJoin(c, s, Rounds(Half(c) - 1, now), [RoundWon(now), Emptied()]);
    AllowedJoin(c, s, Rounds(Half(c) - 1, now), [RoundWon(now), Emptied()]);
  }

  /** The last step of the restart, the whole half, then everyone leaves. */
  function HalfThenEmpty(c: Config, now: real): seq<GameEvent>
    requires Regular(c)
  {
    HalfEven(c);
    [GameEvent.Tick(now)] + (Rounds(Half(c) - 1, now) + [RoundWon(now), Emptied()])
  }

  lemma HalfPlayedOut(c: Config, s: Server, now: real)
    requires Going(c, s, 0) && StepAt(s, 4, now)
    ensures var es := HalfThenEmpty(c, now);
            && AllAllowed(c, s, es)
            && var s' := Play(c, s, es);
               Going(c, s', Half(c)) && Live(s'.queue, NEXT) && s'.world.env.tr + s'.world.env.ct == 0
  {
    var first, rest := [GameEvent.Tick(now)], Rounds(Half(c) - 1, now) + [RoundWon(now), Emptied()];
    HalfTwice(c);
    StepLast(c, s, 0, now);
    PlayOne(c, s, first[0]);
    QuietAllowed(c, s, first);
    HalfPlayed(c, Play(c, s, first), now);
    PlayJoin(c, s, first, rest);
    AllowedJoin(c, s, first, rest);
  }

  /** The first half with everyone gone at its end. */
  function EmptyServer(c: Config, now: real): seq<GameEvent>
    requires Regular(c)
  {
    Opening(0, now) + HalfThenEmpty(c, now + 9.0)
  }

  lemma EmptyReached(c: Config, q: Queue<Callback>, now: real, w: World)
    requires GoodStart(c, q, now, w)
    ensures var s := Started(c, q, now, w);
            && AllAllowed(c, s, EmptyServer(c, now))
            && var s' := Play(c, s, EmptyServer(c, now));
               Going(c, s', Half(c)) && Live(s'.queue, NEXT) && s'.world.env.tr + s'.world.env.ct == 0
  {
    var s := Started(c, q, now, w);
    HalfTwice(c);
    OpeningGoing(c, q, now, w, 0);
    HalfPlayedOut(c, Play(c, s, Opening(0, now)), now + 9.0);
    PlayJoin(c, s, Opening(0, now), HalfThenEmpty(c, now + 9.0));
    AllowedJoin(c, s, Opening(0, now), HalfThenEmpty(c, now + 9.0));
  }

  /** Such a round, from any kickoff on: the half is played, everyone leaves, a drawn round ends
      at once, and the ready list starts a second half that the old transition ends. */
  lemma ZeroDelayFromKickoff(c: Config, q: Queue<Callback>, now: real, w: World)
    requires GoodStart(c, q, now, w) && c.playersMin > 0
    ensures var s := Started(c, q, now, w);
            && AllAllowed(c, s, EmptyServer(c, now))
            && var s1 := Play(c, s, EmptyServer(c, now));
               && NEXT in s1.queue
               && var s2 := React(c, s1, RoundOver(WinDraw, false, 0.0, now + 9.0));
                  AllAllowed(c, s2, Crossing(c, s1, now + 9.0)) && !Safe(c, Play(c, s2, Crossing(c, s1, now + 9.0)).world)
  {
    EmptyReached(c, q, now, w);
    ZeroDelaySpoils(c, Play(c, Started(c, q, now, w), EmptyServer(c, now)), WinDraw, false, now + 9.0);
  }
}
