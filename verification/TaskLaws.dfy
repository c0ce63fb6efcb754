/**
What a frame and a whole run of the timer map promise, whatever the callbacks do.
*/
module TaskLaws {
  import opened Options
  import opened Tasks

  // ---------- order of a walk ----------

  /** The indices visited, or fired, in the order of the log. */
  function Visits<C>(log: seq<Event<C>>): seq<Index>
  {
    if log == [] then [] else (if log[0].Visit? then [log[0].at] else []) + Visits(log[1..])
  }

  function Fires<C>(log: seq<Event<C>>): seq<Index>
  {
    if log == [] then [] else (if log[0].Fire? then [log[0].index] else []) + Fires(log[1..])
  }

  lemma {:induction false} VisitsAppend<C>(x: seq<Event<C>>, y: seq<Event<C>>)
    ensures Visits(x + y) == Visits(x) + Visits(y)
  {
    if x == [] {
      assert x + y == y;
    } else {
      assert (x + y)[0] == x[0] && (x + y)[1..] == x[1..] + y;
      VisitsAppend(x[1..], y);
    }
  }

  lemma {:induction false} FiresAppend<C>(x: seq<Event<C>>, y: seq<Event<C>>)
    ensures Fires(x + y) == Fires(x) + Fires(y)
  {
    if x == [] {
      assert x + y == y;
    } else {
      assert (x + y)[0] == x[0] && (x + y)[1..] == x[1..] + y;
      FiresAppend(x[1..], y);
    }
  }

  lemma CollectAppend<C>(x: seq<Event<C>>, y: seq<Event<C>>)
    ensures Visits(x + y) == Visits(x) + Visits(y)
    ensures Fires(x + y) == Fires(x) + Fires(y)
  {
    VisitsAppend(x, y);
    FiresAppend(x, y);
  }

  lemma {:induction false} CollectIssued<C>(cs: seq<Command<C>>)
    ensures Visits(Issued(cs)) == [] && Fires(Issued(cs)) == []
  {
    if cs != [] {
      assert Issued(cs)[1..] == Issued(cs[1..]);
      CollectIssued(cs[1..]);
    }
  }

  lemma ReachCollect<C, W>(run: Behaviour<C, W>, s: State<C, W>, i: Index, now: real)
    ensures var log := Reach(run, s, i, now).log;
            && Visits(log) == (if i in s.queue then [i] else [])
            && Fires(log) == (if Due(s.queue, i, now) then [i] else [])
  {
    if Due(s.queue, i, now) {
      var p := FireOne(run, s, i, now);
      var commands := run(s.queue[i].callback, s.world, now).commands;
      CollectIssued(commands);
      var head: seq<Event<C>> := [Fire(i, s.queue[i].callback)];
      assert head[1..] == [];
      CollectAppend(head, Issued(commands));
      var visit: seq<Event<C>> := [Visit(i)];
      assert visit[1..] == [];
      CollectAppend(visit, p.log);
    }
  }

  ghost predicate AscendingIn(s: seq<Index>, lo: nat, hi: nat)
  {
    && (forall k :: 0 <= k < |s| ==> lo <= s[k] < hi)
    && (forall j, k :: 0 <= j < k < |s| ==> s[j] < s[k])
  }

  lemma AscendingJoin(x: seq<Index>, at: nat, y: seq<Index>, hi: nat)
    requires x == [] || x == [at]
    requires AscendingIn(y, at + 1, hi) && at < hi
    ensures AscendingIn(x + y, at, hi)
  {
  }

  /** A walk visits, and fires, every index at most once and in ascending order. */
  lemma {:induction false} WalkAscends<C, W>(run: Behaviour<C, W>, s: State<C, W>, now: real, lo: nat, hi: nat)
    requires lo <= hi <= INDEX_LIMIT
    ensures AscendingIn(Visits(Walk(run, s, now, lo, hi).log), lo, hi)
    ensures AscendingIn(Fires(Walk(run, s, now, lo, hi).log), lo, hi)
    decreases hi - lo
  {
    if lo < hi {
      var here := Reach(run, s, lo, now);
      ReachCollect(run, s, lo, now);
      WalkAscends(run, here.state, now, lo + 1, hi);
      var rest := Walk(run, here.state, now, lo + 1, hi);
      CollectAppend(here.log, rest.log);
      AscendingJoin(Visits(here.log), lo, Visits(rest.log), hi);
      AscendingJoin(Fires(here.log), lo, Fires(rest.log), hi);
    }
  }

  /** What a frame visits and fires, cut at index i. */
  lemma FrameAround<C, W>(run: Behaviour<C, W>, s: State<C, W>, now: real, i: Index)
    ensures var p := Walk(run, s, now, 0, i);
            var here := Reach(run, p.state, i, now);
            var rest := Walk(run, here.state, now, i + 1, INDEX_LIMIT);
            var log := Frame(run, s, now).log;
            && Visits(log) == Visits(p.log) + Visits(here.log) + Visits(rest.log)
            && Fires(log) == Fires(p.log) + Fires(here.log) + Fires(rest.log)
  {
    var p := Walk(run, s, now, 0, i);
    var here := Reach(run, p.state, i, now);
    var rest := Walk(run, here.state, now, i + 1, INDEX_LIMIT);
    WalkStep(run, s, now, 0, i);
    WalkSplit(run, s, now, 0, i + 1, INDEX_LIMIT);
    assert Frame(run, s, now).log == (p.log + here.log) + rest.log;
    CollectAppend(p.log + here.log, rest.log);
    CollectAppend(p.log, here.log);
  }

  lemma AmongThree(x: seq<Index>, y: seq<Index>, z: seq<Index>, i: nat)
    requires AscendingIn(x, 0, i) && AscendingIn(z, i + 1, INDEX_LIMIT) && i < INDEX_LIMIT
    ensures i in x + y + z <==> i in y
  {
  }

  /** An entry fires in a frame exactly when it is live and due at the moment the walk reaches it. */
  lemma FiresIffDue<C, W>(run: Behaviour<C, W>, s: State<C, W>, now: real, i: Index)
    ensures var before := Walk(run, s, now, 0, i).state;
            var log := Frame(run, s, now).log;
            && (i in Fires(log) <==> Due(before.queue, i, now))
            && (i in Visits(log) <==> i in before.queue)
  {
    var p := Walk(run, s, now, 0, i);
    var here := Reach(run, p.state, i, now);
    var rest := Walk(run, here.state, now, i + 1, INDEX_LIMIT);
    FrameAround(run, s, now, i);
    ReachCollect(run, p.state, i, now);
    WalkAscends(run, s, now, 0, i);
    WalkAscends(run, here.state, now, i + 1, INDEX_LIMIT);
    AmongThree(Visits(p.log), Visits(here.log), Visits(rest.log), i);
    AmongThree(Fires(p.log), Fires(here.log), Fires(rest.log), i);
  }

  // ---------- what commands do to one entry ----------

  predicate Touches<C>(e: Event<C>, i: Index)
  {
    e.Issue? && e.command.index == i
  }

  predicate Untouched<C>(log: seq<Event<C>>, i: Index)
  {
    forall k :: 0 <= k < |log| ==> !Touches(log[k], i)
  }

  predicate SameEntry<C(==)>(q: Queue<C>, q': Queue<C>, i: Index)
  {
    (i in q <==> i in q') && (i in q ==> q[i] == q'[i])
  }

  lemma {:induction false} ApplyAllUntouched<C>(q: Queue<C>, now: real, cs: seq<Command<C>>, i: Index)
    requires forall k :: 0 <= k < |cs| ==> cs[k].index != i
    ensures SameEntry(q, ApplyAll(q, now, cs), i)
    decreases |cs|
  {
    if cs != [] {
      ApplyAllUntouched(Apply(q, now, cs[0]), now, cs[1..], i);
    }
  }

  lemma {:induction false} ApplyAllAppend<C>(q: Queue<C>, now: real, x: seq<Command<C>>, y: seq<Command<C>>)
    ensures ApplyAll(q, now, x + y) == ApplyAll(ApplyAll(q, now, x), now, y)
    decreases |x|
  {
    if x == [] {
      assert x + y == y;
    } else {
      assert (x + y)[1..] == x[1..] + y;
      ApplyAllAppend(Apply(q, now, x[0]), now, x[1..], y);
    }
  }

  lemma ReachUntouched<C, W>(run: Behaviour<C, W>, s: State<C, W>, at: Index, now: real, i: Index)
    requires Untouched(Reach(run, s, at, now).log, i)
    requires at != i || !Due(s.queue, i, now)
    ensures SameEntry(s.queue, Reach(run, s, at, now).state.queue, i)
  {
    if Due(s.queue, at, now) {
      var commands := run(s.queue[at].callback, s.world, now).commands;
      var log := Reach(run, s, at, now).log;
      forall k | 0 <= k < |commands|
        ensures commands[k].index != i
      {
        assert log[k + 2] == Issue(commands[k]);
      }
      ApplyAllUntouched(Mark(s.queue, at, now), now, commands, i);
    }
  }

  lemma UntouchedSplit<C>(x: seq<Event<C>>, y: seq<Event<C>>, i: Index)
    requires Untouched(x + y, i)
    ensures Untouched(x, i) && Untouched(y, i)
  {
    assert forall k :: 0 <= k < |x| ==> x[k] == (x + y)[k];
    assert forall k :: 0 <= k < |y| ==> y[k] == (x + y)[|x| + k];
  }

  /** A stretch of the walk that neither reaches i nor issues a command for it leaves it alone. */
  lemma {:induction false} WalkUntouched<C, W>(run: Behaviour<C, W>, s: State<C, W>, now: real,
                                               lo: nat, hi: nat, i: Index)
    requires lo <= hi <= INDEX_LIMIT && !(lo <= i < hi)
    requires Untouched(Walk(run, s, now, lo, hi).log, i)
    ensures SameEntry(s.queue, Walk(run, s, now, lo, hi).state.queue, i)
    decreases hi - lo
  {
    if lo < hi {
      var here := Reach(run, s, lo, now);
      UntouchedSplit(here.log, Walk(run, here.state, now, lo + 1, hi).log, i);
      ReachUntouched(run, s, lo, now, i);
      WalkUntouched(run, here.state, now, lo + 1, hi, i);
    }
  }

  /** With no command for it before its turn, an entry fires exactly when it was live and due
      at the start of the frame. */
  lemma UntouchedFiresIffDue<C, W>(run: Behaviour<C, W>, s: State<C, W>, now: real, i: Index)
    requires Untouched(Walk(run, s, now, 0, i).log, i)
    ensures i in Fires(Frame(run, s, now).log) <==> Due(s.queue, i, now)
  {
    WalkUntouched(run, s, now, 0, i, i);
    FiresIffDue(run, s, now, i);
  }

  // ---------- removed entries and new entries ----------

  /** A command that could make entry i due at once. */
  predicate CreatesAtOnce<C>(c: Command<C>, i: Index)
  {
    c.Create? && c.index == i && c.callback.Some? && c.time <= 0.0
  }

  predicate NoneAtOnce<C>(log: seq<Event<C>>, i: Index)
  {
    forall k :: 0 <= k < |log| ==> !(log[k].Issue? && CreatesAtOnce(log[k].command, i))
  }

  lemma {:induction false} ApplyAllNotDue<C>(q: Queue<C>, now: real, cs: seq<Command<C>>, i: Index)
    requires !Due(q, i, now)
    requires forall k :: 0 <= k < |cs| ==> !CreatesAtOnce(cs[k], i)
    ensures !Due(ApplyAll(q, now, cs), i, now)
    decreases |cs|
  {
    if cs != [] {
      assert !CreatesAtOnce(cs[0], i);
      ApplyAllNotDue(Apply(q, now, cs[0]), now, cs[1..], i);
    }
  }

  lemma ReachNotDue<C, W>(run: Behaviour<C, W>, s: State<C, W>, at: Index, now: real, i: Index)
    requires !Due(s.queue, i, now) && NoneAtOnce(Reach(run, s, at, now).log, i)
    ensures !Due(Reach(run, s, at, now).state.queue, i, now)
  {
    if Due(s.queue, at, now) {
      var commands := run(s.queue[at].callback, s.world, now).commands;
      var log := Reach(run, s, at, now).log;
      forall k | 0 <= k < |commands|
        ensures !CreatesAtOnce(commands[k], i)
      {
        assert log[k + 2] == Issue(commands[k]);
      }
      ApplyAllNotDue(Mark(s.queue, at, now), now, commands, i);
    }
  }

  lemma NoneAtOnceSplit<C>(x: seq<Event<C>>, y: seq<Event<C>>, i: Index)
    requires NoneAtOnce(x + y, i)
    ensures NoneAtOnce(x, i) && NoneAtOnce(y, i)
  {
    assert forall k :: 0 <= k < |x| ==> x[k] == (x + y)[k];
    assert forall k :: 0 <= k < |y| ==> y[k] == (x + y)[|x| + k];
  }

  lemma {:induction false} WalkNotDue<C, W>(run: Behaviour<C, W>, s: State<C, W>, now: real,
                                            lo: nat, hi: nat, i: Index)
    requires lo <= hi <= i
    requires !Due(s.queue, i, now)
    requires NoneAtOnce(Walk(run, s, now, lo, hi).log, i)
    ensures !Due(Walk(run, s, now, lo, hi).state.queue, i, now)
    decreases hi - lo
  {
    if lo < hi {
      var here := Reach(run, s, lo, now);
      NoneAtOnceSplit(here.log, Walk(run, here.state, now, lo + 1, hi).log, i);
      ReachNotDue(run, s, lo, now, i);
      WalkNotDue(run, here.state, now, lo + 1, hi, i);
    }
  }

  /** An entry that is absent, removed or not yet due when the frame starts does not fire in
      it unless a callback with a lower index creates it with no delay. */
  lemma NeverFiresEarly<C, W>(run: Behaviour<C, W>, s: State<C, W>, now: real, i: Index)
    requires !Due(s.queue, i, now)
    requires NoneAtOnce(Walk(run, s, now, 0, i).log, i)
    ensures i !in Fires(Frame(run, s, now).log)
  {
    WalkNotDue(run, s, now, 0, i, i);
    FiresIffDue(run, s, now, i);
  }

  /** The last command for an index decides what it is. */
  lemma CreatedAmong<C>(q: Queue<C>, now: real, i: Index, before: seq<Command<C>>, after: seq<Command<C>>,
                        time: real, loop: bool, callback: C)
    requires forall k :: 0 <= k < |after| ==> after[k].index != i
    ensures var q' := ApplyAll(q, now, before + [Create(i, time, loop, Some(callback))] + after);
            i in q' && q'[i] == Task(time, now + time, loop, false, callback)
  {
    var create := Create(i, time, loop, Some(callback));
    ApplyAllAppend(q, now, before + [create], after);
    ApplyAllAppend(q, now, before, [create]);
    var q1 := ApplyAll(q, now, before);
    ApplyOne(q1, now, create);
    ApplyAllUntouched(Apply(q1, now, create), now, after, i);
  }

  /** A callback that creates its own index again keeps it, although a one-shot entry was
      marked removed before the call. */
  lemma RecreatedStays<C, W>(run: Behaviour<C, W>, s: State<C, W>, now: real, i: Index,
                             before: seq<Command<C>>, after: seq<Command<C>>,
                             time: real, loop: bool, callback: C)
    requires i in Fires(Frame(run, s, now).log)
    requires var start := Walk(run, s, now, 0, i).state;
             i in start.queue && run(start.queue[i].callback, start.world, now).commands
             == before + [Create(i, time, loop, Some(callback))] + after
    requires forall k :: 0 <= k < |after| ==> after[k].index != i
    requires Untouched(Walk(run, Walk(run, s, now, 0, i + 1).state, now, i + 1, INDEX_LIMIT).log, i)
    ensures var q := Frame(run, s, now).state.queue;
            i in q && q[i] == Task(time, now + time, loop, false, callback)
  {
    FiresIffDue(run, s, now, i);
    WalkStep(run, s, now, 0, i);
    WalkSplit(run, s, now, 0, i + 1, INDEX_LIMIT);
    var start := Walk(run, s, now, 0, i).state;
    CreatedAmong(Mark(start.queue, i, now), now, i, before, after, time, loop, callback);
    WalkUntouched(run, Walk(run, s, now, 0, i + 1).state, now, i + 1, INDEX_LIMIT, i);
  }

  // ---------- whole runs ----------

  /** A run is a sequence of frames and of commands issued outside any callback. */
  datatype Stimulus<C> = Tick(now: real) | Outside(now: real, commands: seq<Command<C>>)

  function Respond<C, W>(run: Behaviour<C, W>, s: State<C, W>, e: Stimulus<C>): Pass<C, W>
  {
    match e
    case Tick(now) => Frame(run, s, now)
    case Outside(now, cs) => Pass(State(ApplyAll(s.queue, now, cs), s.world), Issued(cs))
  }

  function RunAll<C, W>(run: Behaviour<C, W>, s: State<C, W>, es: seq<Stimulus<C>>): Pass<C, W>
    decreases |es|
  {
    if es == [] then Pass(s, [])
    else
      var p := Respond(run, s, es[0]);
      var rest := RunAll(run, p.state, es[1..]);
      Pass(rest.state, p.log + rest.log)
  }

  function CountFires<C>(log: seq<Event<C>>, i: Index): nat
  {
    if log == [] then 0
    else (if log[0].Fire? && log[0].index == i then 1 else 0) + CountFires(log[1..], i)
  }

  function CountCreates<C>(log: seq<Event<C>>, i: Index): nat
  {
    if log == [] then 0
    else (if log[0].Issue? && IsCreate(log[0].command, i) then 1 else 0) + CountCreates(log[1..], i)
  }

  predicate IsCreate<C>(c: Command<C>, i: Index)
  {
    c.Create? && c.index == i && c.callback.Some?
  }

  /** Index i is only ever created as a one-shot. */
  predicate OneShotLog<C>(log: seq<Event<C>>, i: Index)
  {
    forall k :: 0 <= k < |log| && log[k].Issue? && IsCreate(log[k].command, i) ==> !log[k].command.loop
  }

  predicate OneShot<C>(q: Queue<C>, i: Index)
  {
    i in q ==> !q[i].loop
  }

  function Pending<C>(q: Queue<C>, i: Index): nat
  {
    if Live(q, i) then 1 else 0
  }

  /** One-shot bookkeeping of a stretch: firings and what is still pending never exceed
      creations and what was pending before. */
  ghost predicate Budget<C>(q: Queue<C>, q': Queue<C>, log: seq<Event<C>>, i: Index)
  {
    OneShot(q', i) && CountFires(log, i) + Pending(q', i) <= CountCreates(log, i) + Pending(q, i)
  }

  lemma {:induction false} CountAppend<C>(x: seq<Event<C>>, y: seq<Event<C>>, i: Index)
    ensures CountFires(x + y, i) == CountFires(x, i) + CountFires(y, i)
    ensures CountCreates(x + y, i) == CountCreates(x, i) + CountCreates(y, i)
  {
    if x == [] {
      assert x + y == y;
    } else {
      assert (x + y)[1..] == x[1..] + y;
      CountAppend(x[1..], y, i);
    }
  }

  lemma BudgetChain<C>(q: Queue<C>, q1: Queue<C>, q2: Queue<C>, x: seq<Event<C>>, y: seq<Event<C>>, i: Index)
    requires Budget(q, q1, x, i) && Budget(q1, q2, y, i)
    ensures Budget(q, q2, x + y, i)
  {
    CountAppend(x, y, i);
  }

  lemma {:induction false} ApplyAllBudget<C>(q: Queue<C>, now: real, cs: seq<Command<C>>, i: Index)
    requires OneShot(q, i) && OneShotLog(Issued(cs), i)
    ensures Budget(q, ApplyAll(q, now, cs), Issued(cs), i)
    decreases |cs|
  {
    if cs != [] {
      var log := Issued(cs);
      assert log[0] == Issue(cs[0]);
      assert log[1..] == Issued(cs[1..]);
      var q1 := Apply(q, now, cs[0]);
      assert OneShot(q1, i);
      ApplyAllBudget(q1, now, cs[1..], i);
    }
  }

  lemma OneShotSplit<C>(x: seq<Event<C>>, y: seq<Event<C>>, i: Index)
    requires OneShotLog(x + y, i)
    ensures OneShotLog(x, i) && OneShotLog(y, i)
  {
    assert forall k :: 0 <= k < |x| ==> x[k] == (x + y)[k];
    assert forall k :: 0 <= k < |y| ==> y[k] == (x + y)[|x| + k];
  }

  lemma HeadCounts<C>(at: Index, callback: C, i: Index)
    ensures CountFires([Visit(at), Fire(at, callback)], i) == if at == i then 1 else 0
    ensures CountCreates([Visit(at), Fire(at, callback)], i) == 0
  {
    var fire: seq<Event<C>> := [Fire(at, callback)];
    var head: seq<Event<C>> := [Visit(at), Fire(at, callback)];
    assert fire[1..] == [] && head[1..] == fire;
    assert CountFires(fire, i) == (if at == i then 1 else 0) && CountCreates(fire, i) == 0;
  }

  /** Visiting and firing a due entry, before its callback runs. */
  lemma MarkBudget<C>(q: Queue<C>, at: Index, now: real, callback: C, i: Index)
    requires OneShot(q, i) && Live(q, at)
    ensures Budget(q, Mark(q, at, now), [Visit(at), Fire(at, callback)], i)
  {
    HeadCounts(at, callback, i);
  }

  lemma ReachBudget<C, W>(run: Behaviour<C, W>, s: State<C, W>, at: Index, now: real, i: Index)
    requires OneShot(s.queue, i) && OneShotLog(Reach(run, s, at, now).log, i)
    ensures Budget(s.queue, Reach(run, s, at, now).state.queue, Reach(run, s, at, now).log, i)
  {
    if Due(s.queue, at, now) {
      var callback := s.queue[at].callback;
      var commands := run(callback, s.world, now).commands;
      var log, marked := Reach(run, s, at, now).log, Mark(s.queue, at, now);
      var head: seq<Event<C>> := [Visit(at), Fire(at, callback)];
      assert log == head + Issued(commands);
      OneShotSplit(head, Issued(commands), i);
      MarkBudget(s.queue, at, now, callback, i);
      ApplyAllBudget(marked, now, commands, i);
      BudgetChain(s.queue, marked, ApplyAll(marked, now, commands), head, Issued(commands), i);
    }
  }

  lemma {:induction false} WalkBudget<C, W>(run: Behaviour<C, W>, s: State<C, W>, now: real,
                                            lo: nat, hi: nat, i: Index)
    requires lo <= hi <= INDEX_LIMIT
    requires OneShot(s.queue, i) && OneShotLog(Walk(run, s, now, lo, hi).log, i)
    ensures Budget(s.queue, Walk(run, s, now, lo, hi).state.queue, Walk(run, s, now, lo, hi).log, i)
    decreases hi - lo
  {
    if lo < hi {
      var here := Reach(run, s, lo, now);
      var rest := Walk(run, here.state, now, lo + 1, hi);
      OneShotSplit(here.log, rest.log, i);
      ReachBudget(run, s, lo, now, i);
      WalkBudget(run, here.state, now, lo + 1, hi, i);
      BudgetChain(s.queue, here.state.queue, rest.state.queue, here.log, rest.log, i);
    }
  }

  /** Over a whole run a one-shot index fires at most once per creation. */
  lemma {:induction false} FiresAtMostOncePerCreate<C, W>(run: Behaviour<C, W>, s: State<C, W>,
                                                          es: seq<Stimulus<C>>, i: Index)
    requires OneShot(s.queue, i) && OneShotLog(RunAll(run, s, es).log, i)
    ensures Budget(s.queue, RunAll(run, s, es).state.queue, RunAll(run, s, es).log, i)
    decreases |es|
  {
    if es != [] {
      var p := Respond(run, s, es[0]);
      var rest := RunAll(run, p.state, es[1..]);
      OneShotSplit(p.log, rest.log, i);
      match es[0] {
        case Tick(now) => WalkBudget(run, s, now, 0, INDEX_LIMIT, i);
        case Outside(now, cs) => ApplyAllBudget(s.queue, now, cs, i);
      }
      FiresAtMostOncePerCreate(run, p.state, es[1..], i);
      BudgetChain(s.queue, p.state.queue, rest.state.queue, p.log, rest.log, i);
    }
  }

  // ---------- deadlines ----------

  predicate About<C>(e: Event<C>, a: Index, b: Index)
  {
    Touches(e, a) || Touches(e, b) || (e.Fire? && (e.index == a || e.index == b))
  }

  /** The first event of the log that fires a or b or issues a command for one of them. */
  function FirstAbout<C>(log: seq<Event<C>>, a: Index, b: Index): Option<Event<C>>
  {
    if log == [] then None
    else if About(log[0], a, b) then Some(log[0])
    else FirstAbout(log[1..], a, b)
  }

  lemma {:induction false} FirstAppend<C>(x: seq<Event<C>>, y: seq<Event<C>>, a: Index, b: Index)
    ensures FirstAbout(x + y, a, b) == if FirstAbout(x, a, b).Some? then FirstAbout(x, a, b) else FirstAbout(y, a, b)
  {
    if x == [] {
      assert x + y == y;
    } else {
      assert (x + y)[1..] == x[1..] + y;
      FirstAppend(x[1..], y, a, b);
    }
  }

  lemma {:induction false} FirstNone<C>(log: seq<Event<C>>, a: Index, b: Index)
    requires FirstAbout(log, a, b).None?
    ensures forall k :: 0 <= k < |log| ==> !About(log[k], a, b)
  {
    if log != [] {
      FirstNone(log[1..], a, b);
      assert forall k :: 0 < k < |log| ==> log[k] == log[1..][k - 1];
    }
  }

  lemma {:induction false} FirstIssued<C>(cs: seq<Command<C>>, a: Index, b: Index)
    ensures FirstAbout(Issued(cs), a, b).Some? ==> FirstAbout(Issued(cs), a, b).value.Issue?
  {
    if cs != [] {
      assert Issued(cs)[1..] == Issued(cs[1..]);
      FirstIssued(cs[1..], a, b);
    }
  }

  /** Two live entries, the lower index not due later than the higher one. */
  predicate Paired<C>(q: Queue<C>, a: Index, b: Index)
  {
    a < b && Live(q, a) && Live(q, b) && q[a].endTime <= q[b].endTime
  }

  /** Either nothing happened to a and b yet, or the first thing was not the firing of b, and
      if it was the firing of a then with the callback a had at the start. */
  ghost predicate InOrder<C>(q: Queue<C>, q': Queue<C>, log: seq<Event<C>>, a: Index, b: Index)
    requires a in q
  {
    match FirstAbout(log, a, b)
    case None => SameEntry(q, q', a) && SameEntry(q, q', b)
    case Some(e) => e.Fire? ==> e == Fire(a, q[a].callback)
  }

  lemma ReachInOrder<C, W>(run: Behaviour<C, W>, s: State<C, W>, at: Index, now: real, a: Index, b: Index)
    requires Paired(s.queue, a, b)
    requires at == b ==> now < s.queue[b].endTime
    ensures InOrder(s.queue, Reach(run, s, at, now).state.queue, Reach(run, s, at, now).log, a, b)
    ensures FirstAbout(Reach(run, s, at, now).log, a, b).None? && at == a ==> now < s.queue[b].endTime
  {
    var log := Reach(run, s, at, now).log;
    if Due(s.queue, at, now) {
      var callback := s.queue[at].callback;
      var commands := run(callback, s.world, now).commands;
      assert log[1..] == [Fire(at, callback)] + Issued(commands);
      assert log[1..][1..] == Issued(commands);
      FirstIssued(commands, a, b);
    } else if at in s.queue {
      assert log[1..] == [];
    }
    if FirstAbout(log, a, b).None? {
      FirstNone(log, a, b);
      ReachUntouched(run, s, at, now, a);
      ReachUntouched(run, s, at, now, b);
    }
  }

  lemma {:induction false} WalkInOrder<C, W>(run: Behaviour<C, W>, s: State<C, W>, now: real,
                                             lo: nat, hi: nat, a: Index, b: Index)
    requires lo <= hi <= INDEX_LIMIT && Paired(s.queue, a, b)
    requires lo <= a || now < s.queue[b].endTime
    ensures InOrder(s.queue, Walk(run, s, now, lo, hi).state.queue, Walk(run, s, now, lo, hi).log, a, b)
    decreases hi - lo
  {
    if lo < hi {
      var here := Reach(run, s, lo, now);
      ReachInOrder(run, s, lo, now, a, b);
      FirstAppend(here.log, Walk(run, here.state, now, lo + 1, hi).log, a, b);
      if FirstAbout(here.log, a, b).None? {
        WalkInOrder(run, here.state, now, lo + 1, hi, a, b);
      }
    }
  }

  /** Whatever the frame times are, even one frame past both deadlines: of two live entries the
      one with the lower index and the no later deadline fires first, unless some command for
      one of the two comes before. */
  lemma {:induction false} LowerIndexFiresFirst<C, W>(run: Behaviour<C, W>, s: State<C, W>,
                                                      es: seq<Stimulus<C>>, a: Index, b: Index)
    requires Paired(s.queue, a, b)
    ensures InOrder(s.queue, RunAll(run, s, es).state.queue, RunAll(run, s, es).log, a, b)
    decreases |es|
  {
    if es != [] {
      var p := Respond(run, s, es[0]);
      var rest := RunAll(run, p.state, es[1..]);
      match es[0] {
        case Tick(now) => WalkInOrder(run, s, now, 0, INDEX_LIMIT, a, b);
        case Outside(now, cs) =>
          FirstIssued(cs, a, b);
          if FirstAbout(p.log, a, b).None? {
            FirstNone(p.log, a, b);
            assert forall k :: 0 <= k < |cs| ==> p.log[k] == Issue(cs[k]);
            ApplyAllUntouched(s.queue, now, cs, a);
            ApplyAllUntouched(s.queue, now, cs, b);
          }
      }
      FirstAppend(p.log, rest.log, a, b);
      if FirstAbout(p.log, a, b).None? {
        LowerIndexFiresFirst(run, p.state, es[1..], a, b);
      }
    }
  }

  // ---------- invariants ----------

  /** What every firing of a due entry keeps, a frame keeps. */
  lemma {:induction false} WalkKeeps<C(!new), W(!new)>(run: Behaviour<C, W>, inv: State<C, W> -> bool,
                                                       s: State<C, W>, now: real, lo: nat, hi: nat)
    requires lo <= hi <= INDEX_LIMIT && inv(s)
    requires forall t: State<C, W>, i: Index :: inv(t) && Due(t.queue, i, now) ==> inv(FireOne(run, t, i, now).state)
    ensures inv(Walk(run, s, now, lo, hi).state)
    decreases hi - lo
  {
    if lo < hi {
      var here := Reach(run, s, lo, now);
      if Due(s.queue, lo, now) {
        var i: Index := lo;
        assert inv(FireOne(run, s, i, now).state);
      }
      WalkKeeps(run, inv, here.state, now, lo + 1, hi);
    }
  }
}
