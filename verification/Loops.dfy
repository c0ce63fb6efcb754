/**
Repeating timers: what a frame leaves of them and when they fire over a whole run.
*/
module Loops {
  import opened Options
  import opened Tasks
  import opened TaskLaws

  /** A live repeating entry. */
  predicate Repeats<C>(q: Queue<C>, i: Index)
  {
    Live(q, i) && q[i].loop
  }

  /** The entry after it has fired, or not, in a frame at now. */
  ghost predicate Rearmed<C>(q: Queue<C>, q': Queue<C>, i: Index, fired: bool, now: real)
    requires i in q
  {
    && Repeats(q', i) && q'[i].time == q[i].time && q'[i].callback == q[i].callback
    && q'[i].endTime == if fired then now + q[i].time else q[i].endTime
  }

  lemma ReachRearms<C, W>(run: Behaviour<C, W>, s: State<C, W>, i: Index, now: real)
    requires Repeats(s.queue, i) && Untouched(Reach(run, s, i, now).log, i)
    ensures Rearmed(s.queue, Reach(run, s, i, now).state.queue, i, now >= s.queue[i].endTime, now)
  {
    if Due(s.queue, i, now) {
      var commands := run(s.queue[i].callback, s.world, now).commands;
      var log := Reach(run, s, i, now).log;
      forall k | 0 <= k < |commands|
        ensures commands[k].index != i
      {
        assert log[k + 2] == Issue(commands[k]);
      }
      ApplyAllUntouched(Mark(s.queue, i, now), now, commands, i);
    }
  }

  /**
  A repeating entry for which no command is issued in a frame: it fires exactly if it is due when
  the frame begins, and afterwards it repeats with the same time and callback, due that time after
  the frame if it has fired and when it was before if not.
  */
  lemma FrameRearms<C, W>(run: Behaviour<C, W>, s: State<C, W>, now: real, i: Index)
    requires Repeats(s.queue, i) && Untouched(Frame(run, s, now).log, i)
    ensures i in Fires(Frame(run, s, now).log) <==> now >= s.queue[i].endTime
    ensures Rearmed(s.queue, Frame(run, s, now).state.queue, i, i in Fires(Frame(run, s, now).log), now)
  {
    var p := Walk(run, s, now, 0, i);
    var here := Reach(run, p.state, i, now);
    var rest := Walk(run, here.state, now, i + 1, INDEX_LIMIT);
    WalkStep(run, s, now, 0, i);
    WalkSplit(run, s, now, 0, i + 1, INDEX_LIMIT);
    UntouchedSplit(p.log + here.log, rest.log, i);
    UntouchedSplit(p.log, here.log, i);
    UntouchedFiresIffDue(run, s, now, i);
    WalkUntouched(run, s, now, 0, i, i);
    ReachRearms(run, p.state, i, now);
    WalkUntouched(run, here.state, now, i + 1, INDEX_LIMIT, i);
  }

  // ---------- whole runs ----------

  lemma RunOne<C, W>(run: Behaviour<C, W>, s: State<C, W>, e: Stimulus<C>)
    ensures RunAll(run, s, [e]) == Respond(run, s, e)
  {
    var last := Respond(run, s, e);
    assert [e][1..] == [];
    assert last.log + [] == last.log;
  }

  lemma JoinLogs<C>(x: seq<Event<C>>, y: seq<Event<C>>, z: seq<Event<C>>)
    ensures x + (y + z) == (x + y) + z
  {
  }

  lemma {:induction false} RunLast<C, W>(run: Behaviour<C, W>, s: State<C, W>, es: seq<Stimulus<C>>, e: Stimulus<C>)
    ensures var p := RunAll(run, s, es);
            var last := Respond(run, p.state, e);
            RunAll(run, s, es + [e]) == Pass(last.state, p.log + last.log)
    decreases |es|
  {
    if es == [] {
      RunOne(run, s, e);
      assert [] + [e] == [e] && [] + Respond(run, s, e).log == Respond(run, s, e).log;
    } else {
      var p := Respond(run, s, es[0]);
      RunLast(run, p.state, es[1..], e);
      assert (es + [e])[0] == es[0] && (es + [e])[1..] == es[1..] + [e];
      var rest := RunAll(run, p.state, es[1..]);
      var last := Respond(run, rest.state, e);
      JoinLogs(p.log, rest.log, last.log);
    }
  }

  /** The time of the last frame of a run in which the index has fired. */
  function LastFired<C, W>(run: Behaviour<C, W>, s: State<C, W>, es: seq<Stimulus<C>>, i: Index): Option<real>
  {
    if es == [] then None
    else
      var before, e := es[..|es| - 1], es[|es| - 1];
      if e.Tick? && i in Fires(Frame(run, RunAll(run, s, before).state, e.now).log) then Some(e.now)
      else LastFired(run, s, before, i)
  }

  /** When the entry is due next: its time after it fired last. */
  function NextDue<C>(q: Queue<C>, i: Index, last: Option<real>): real
    requires i in q
  {
    if last.Some? then last.value + q[i].time else q[i].endTime
  }

  lemma OutsideUntouched<C>(q: Queue<C>, now: real, cs: seq<Command<C>>, i: Index)
    requires Untouched(Issued(cs), i)
    ensures SameEntry(q, ApplyAll(q, now, cs), i)
  {
    forall k | 0 <= k < |cs|
      ensures cs[k].index != i
    {
      assert Issued(cs)[k] == Issue(cs[k]);
    }
    ApplyAllUntouched(q, now, cs, i);
  }

  /** Where the entry stands after a run without commands for it. */
  lemma {:induction false} StaysArmed<C, W>(run: Behaviour<C, W>, s: State<C, W>, es: seq<Stimulus<C>>, i: Index)
    requires Repeats(s.queue, i) && Untouched(RunAll(run, s, es).log, i)
    ensures var q := RunAll(run, s, es).state.queue;
            && Repeats(q, i) && q[i].time == s.queue[i].time && q[i].callback == s.queue[i].callback
            && q[i].endTime == NextDue(s.queue, i, LastFired(run, s, es, i))
  {
    if es != [] {
      var before, e := es[..|es| - 1], es[|es| - 1];
      var p := RunAll(run, s, before);
      assert es == before + [e];
      RunLast(run, s, before, e);
      UntouchedSplit(p.log, Respond(run, p.state, e).log, i);
      StaysArmed(run, s, before, i);
      if e.Tick? {
        FrameRearms(run, p.state, e.now, i);
      } else {
        OutsideUntouched(p.state.queue, e.now, e.commands, i);
      }
    }
  }

  /**
  Over any run without commands for it a repeating entry fires in a frame exactly if the frame is
  at least its time after the one in which it fired last, or not before its first deadline.
  */
  lemma FiresEveryTime<C, W>(run: Behaviour<C, W>, s: State<C, W>, es: seq<Stimulus<C>>, i: Index, now: real)
    requires Repeats(s.queue, i)
    requires Untouched(RunAll(run, s, es + [Stimulus.Tick(now)]).log, i)
    ensures var before := RunAll(run, s, es).state;
            i in Fires(Frame(run, before, now).log) <==> now >= NextDue(s.queue, i, LastFired(run, s, es, i))
  {
    RunLast(run, s, es, Stimulus.Tick(now));
    var p := RunAll(run, s, es);
    UntouchedSplit(p.log, Frame(run, p.state, now).log, i);
    StaysArmed(run, s, es, i);
    FrameRearms(run, p.state, now, i);
  }
}
