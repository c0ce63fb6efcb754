/**
A frame of the match engine, timer by timer: only four indices are ever in its timer map, and the
walk reaches them in the order swap, ready list, transition, live-on-three.
*/
module Frames {
  import opened Tasks
  import opened TaskLaws
  import opened Match
  import opened MatchScores
  import opened Regulation

  // ---------- the timer map stays wired ----------

  /** A command that keeps every index with its own callback. */
  predicate Fits(x: Command<Callback>)
  {
    x.Create? ==> x.callback.Some? && Belongs(x.index, x.callback.value, x.loop)
  }

  ghost predicate AllFit(cs: seq<Command<Callback>>)
  {
    forall k :: 0 <= k < |cs| ==> Fits(cs[k])
  }

  lemma SimpleFits(c: Config, w: World, stage: Stage)
    requires !stage.Live()
    ensures AllFit(SetState(c, w, stage).commands)
  {
  }

  lemma Lo3Fits(c: Config, w: World, seconds: int)
    ensures AllFit(Lo3(c, w, seconds).commands)
  {
  }

  lemma RemoveFits(cs: seq<Command<Callback>>)
    requires AllFit(cs)
    ensures AllFit([Remove(LIST)] + cs)
  {
  }

  lemma SetStateFits(c: Config, w: World, stage: Stage)
    ensures AllFit(SetState(c, w, stage).commands)
  {
    if stage.FirstHalf? {
      var (ok, w') := CheckBalanceTeams(c, ResetScores(w.(stage := stage, pause := false)));
      var next := if ok then Lo3(c, w', 1) else SetState(c, w', Warmup);
      Lo3Fits(c, w', 1);
      SimpleFits(c, w', Warmup);
      RemoveFits(next.commands);
    } else if stage.Live() {
      var (ok, w') := CheckBalanceTeams(c, w.(stage := stage, pause := false));
      var next := if ok then Lo3(c, w', 1) else SetState(c, w', Halftime);
      Lo3Fits(c, w', 1);
      SimpleFits(c, w', Halftime);
      RemoveFits(next.commands);
    } else {
      SimpleFits(c, w, stage);
    }
  }

  lemma CallFits(c: Config, callback: Callback, w: World)
    ensures AllFit(Call(c, callback, w).commands)
  {
    match callback
    case CallSwapTeams =>
    case CallRunState => SetStateFits(c, w, Next(c, w));
    case CallLo3(seconds) => Lo3Fits(c, w, seconds);
    case CallReadyList =>
      SetStateFits(c, w, Next(c, w));
      RemoveFits(RunState(c, w).commands);
  }

  lemma {:induction false} ApplyAllWired(q: Queue<Callback>, now: real, cs: seq<Command<Callback>>)
    requires Wired(q) && AllFit(cs)
    ensures Wired(ApplyAll(q, now, cs))
    decreases |cs|
  {
    if cs != [] {
      assert Fits(cs[0]);
      ApplyAllWired(Apply(q, now, cs[0]), now, cs[1..]);
    }
  }

  /** The state after index i has been reached. */
  function Reached(c: Config, s: Server, i: Index, now: real): Server
  {
    Reach(Run(c), s, i, now).state
  }

  lemma ReachedState(c: Config, s: Server, i: Index, now: real)
    ensures Reached(c, s, i, now) ==
            if Due(s.queue, i, now) then Done(Mark(s.queue, i, now), now, Call(c, s.queue[i].callback, s.world)) else s
  {
  }

  lemma ReachedWired(c: Config, s: Server, i: Index, now: real)
    requires Wired(s.queue)
    ensures Wired(Reached(c, s, i, now).queue)
  {
    ReachedState(c, s, i, now);
    if Due(s.queue, i, now) {
      var callback := s.queue[i].callback;
      CallFits(c, callback, s.world);
      ApplyAllWired(Mark(s.queue, i, now), now, Call(c, callback, s.world).commands);
    }
  }

  // ---------- four timers ----------

  /** A walk over indices that are not in the map does nothing. */
  lemma {:induction false} WalkSkips(c: Config, s: Server, now: real, lo: nat, hi: nat)
    requires lo <= hi <= INDEX_LIMIT && forall i <- s.queue :: !(lo <= i < hi)
    ensures Walk(Run(c), s, now, lo, hi) == Pass(s, [])
    decreases hi - lo
  {
    if lo < hi {
      var i: Index := lo;
      assert i !in s.queue;
      WalkSkips(c, s, now, lo + 1, hi);
    }
  }

  /** The walk up to one of the four, when the indices before it and after from are not in the map. */
  lemma WalkTo(c: Config, s: Server, now: real, from: nat, i: Index)
    requires from <= i && Wired(Walk(Run(c), s, now, 0, from).state.queue)
    requires from <= EXEC <= i == EXEC || (from > EXEC && i == from) || (from == EXEC + 1 && i == LIST)
    ensures Walk(Run(c), s, now, 0, i + 1).state == Reached(c, Walk(Run(c), s, now, 0, from).state, i, now)
    ensures Walk(Run(c), s, now, 0, i + 1).log ==
            Walk(Run(c), s, now, 0, from).log + Reach(Run(c), Walk(Run(c), s, now, 0, from).state, i, now).log
  {
    var p := Walk(Run(c), s, now, 0, from);
    WalkSplit(Run(c), s, now, 0, from, i);
    WalkSkips(c, p.state, now, from, i);
    assert p.log + [] == p.log;
    WalkStep(Run(c), s, now, 0, i);
  }

  /** The states of a walk after each of the first four indices of the map. */
  function AfterExec(c: Config, s: Server, now: real): Server
  {
    Reached(c, s, EXEC, now)
  }

  function AfterList(c: Config, s: Server, now: real): Server
  {
    Reached(c, AfterExec(c, s, now), LIST, now)
  }

  function AfterNext(c: Config, s: Server, now: real): Server
  {
    Reached(c, AfterList(c, s, now), NEXT, now)
  }

  function AfterLo3(c: Config, s: Server, now: real): Server
  {
    Reached(c, AfterNext(c, s, now), LO3R, now)
  }

  lemma WalkExec(c: Config, s: Server, now: real)
    requires Wired(s.queue)
    ensures Walk(Run(c), s, now, 0, EXEC + 1).state == AfterExec(c, s, now)
    ensures Walk(Run(c), s, now, 0, EXEC + 1).log == Reach(Run(c), s, EXEC, now).log
    ensures Wired(AfterExec(c, s, now).queue)
  {
    assert Walk(Run(c), s, now, 0, 0) == Pass(s, []);
    WalkTo(c, s, now, 0, EXEC);
    ReachedWired(c, s, EXEC, now);
  }

  lemma WalkList(c: Config, s: Server, now: real)
    requires Wired(s.queue)
    ensures Walk(Run(c), s, now, 0, LIST + 1).state == AfterList(c, s, now)
    ensures Walk(Run(c), s, now, 0, LIST + 1).log ==
            Reach(Run(c), s, EXEC, now).log + Reach(Run(c), AfterExec(c, s, now), LIST, now).log
    ensures Wired(AfterList(c, s, now).queue)
  {
    WalkExec(c, s, now);
    WalkTo(c, s, now, EXEC + 1, LIST);
    ReachedWired(c, AfterExec(c, s, now), LIST, now);
  }

  /** A frame reaches the four timers one after the other and nothing else. */
  lemma FrameIs(c: Config, s: Server, now: real)
    requires Wired(s.queue)
    ensures Frame(Run(c), s, now).state == AfterLo3(c, s, now)
    ensures Wired(AfterNext(c, s, now).queue) && Wired(AfterLo3(c, s, now).queue)
  {
    WalkList(c, s, now);
    WalkTo(c, s, now, NEXT, NEXT);
    ReachedWired(c, AfterList(c, s, now), NEXT, now);
    WalkTo(c, s, now, LO3R, LO3R);
    ReachedWired(c, AfterNext(c, s, now), LO3R, now);
    var p := Walk(Run(c), s, now, 0, LO3R + 1);
    WalkSplit(Run(c), s, now, 0, LO3R + 1, INDEX_LIMIT);
    WalkSkips(c, p.state, now, LO3R + 1, INDEX_LIMIT);
  }

  // ---------- the swap in a frame ----------

  /** The same but for a swap of the sides: the stage, the scores up to sides, the other timers. */
  ghost predicate SwappedAtMost(s: Server, s': Server)
  {
    && s'.world.stage == s.world.stage && (Balanced(s.world.board) ==> Balanced(s'.world.board))
    && (ScoresOf(s'.world) == ScoresOf(s.world) || ScoresOf(s'.world) == ScoresOf(s.world).Swapped())
    && SameEnv(s.world.env, s'.world.env)
    && SameEntry(s.queue, s'.queue, LIST) && SameEntry(s.queue, s'.queue, NEXT) && SameEntry(s.queue, s'.queue, LO3R)
  }

  predicate SameEnv(e: Env, e': Env)
  {
    e' == e || e' == e.(tr := e.ct, ct := e.tr, balancedTr := e.balancedCt, balancedCt := e.balancedTr)
  }

  lemma ExecSwaps(c: Config, s: Server, now: real)
    requires Wired(s.queue)
    ensures SwappedAtMost(s, AfterExec(c, s, now))
  {
    ReachedState(c, s, EXEC, now);
    if Due(s.queue, EXEC, now) {
      assert Belongs(EXEC, s.queue[EXEC].callback, s.queue[EXEC].loop);
      assert AfterExec(c, s, now).queue == Mark(s.queue, EXEC, now);
      assert AfterExec(c, s, now).world == SwapTeams(c, s.world);
    }
  }

  /** A timer that is not due is passed by. */
  lemma PassedBy(c: Config, s: Server, i: Index, now: real)
    requires !Due(s.queue, i, now)
    ensures Reached(c, s, i, now) == s
  {
  }
}
