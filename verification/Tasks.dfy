/**
The timer map of the plugin. A frame walks the map in ascending index order while the
callbacks it calls create and remove entries of that same map. Time is a real number.
A callback is a value of type C; calling it in world w gives a new world of type W and
the timer commands it issued, in order.
*/
module Tasks {
  import opened Options

  /** Every index the plugin uses is below this: TERRORIST, CT and PUG_TASK_EXEC to PUG_TASK_CMAP. */
  const INDEX_LIMIT: nat := 107

  type Index = i: nat | i < INDEX_LIMIT

  datatype Task<C> = Task(time: real, endTime: real, loop: bool, removed: bool, callback: C)

  type Queue<C> = map<Index, Task<C>>

  datatype Command<C> =
    | Create(index: Index, time: real, loop: bool, callback: Option<C>)
    | Remove(index: Index)

  /** What happens in a frame, in order. */
  datatype Event<C> =
    | Visit(at: Index)
    | Fire(index: Index, callback: C)
    | Issue(command: Command<C>)

  datatype Outcome<C, W> = Outcome(world: W, commands: seq<Command<C>>)

  type Behaviour<!C, !W> = (C, W, real) -> Outcome<C, W>

  datatype State<C, W> = State(queue: Queue<C>, world: W)

  datatype Pass<C, W> = Pass(state: State<C, W>, log: seq<Event<C>>)

  // ---------- the operations ----------

  predicate Live<C>(q: Queue<C>, i: Index)
  {
    i in q && !q[i].removed
  }

  predicate Due<C>(q: Queue<C>, i: Index, now: real)
  {
    Live(q, i) && now >= q[i].endTime
  }

  /** An entry is only marked removed, never erased; a null callback creates nothing. */
  function Apply<C>(q: Queue<C>, now: real, c: Command<C>): Queue<C>
  {
    match c
    case Create(i, time, loop, callback) =>
      if callback.Some? then q[i := Task(time, now + time, loop, false, callback.value)] else q
    case Remove(i) =>
      if i in q then q[i := q[i].(removed := true)] else q
  }

  function ApplyAll<C>(q: Queue<C>, now: real, cs: seq<Command<C>>): Queue<C>
    decreases |cs|
  {
    if cs == [] then q else ApplyAll(Apply(q, now, cs[0]), now, cs[1..])
  }

  /** What Think does to a due entry before it calls it. */
  function Mark<C>(q: Queue<C>, i: Index, now: real): Queue<C>
    requires i in q
  {
    if q[i].loop then q[i := q[i].(endTime := now + q[i].time)] else q[i := q[i].(removed := true)]
  }

  function Issued<C>(cs: seq<Command<C>>): (log: seq<Event<C>>)
    ensures |log| == |cs|
  {
    seq(|cs|, k requires 0 <= k < |cs| => Issue(cs[k]))
  }

  /** One due entry: mark it, call it, carry out its commands. */
  function FireOne<C, W>(run: Behaviour<C, W>, s: State<C, W>, i: Index, now: real): Pass<C, W>
    requires i in s.queue
  {
    var callback := s.queue[i].callback;
    var out := run(callback, s.world, now);
    Pass(State(ApplyAll(Mark(s.queue, i, now), now, out.commands), out.world),
         [Fire(i, callback)] + Issued(out.commands))
  }

  /** Reaching index i: nothing if the map has no such key. */
  function Reach<C, W>(run: Behaviour<C, W>, s: State<C, W>, i: Index, now: real): Pass<C, W>
  {
    if i !in s.queue then Pass(s, [])
    else if !Due(s.queue, i, now) then Pass(s, [Visit(i)])
    else
      var p := FireOne(run, s, i, now);
      Pass(p.state, [Visit(i)] + p.log)
  }

  /** The part of a frame that walks the indices from lo up to but not including hi. */
  function Walk<C, W>(run: Behaviour<C, W>, s: State<C, W>, now: real, lo: nat, hi: nat): Pass<C, W>
    requires lo <= hi <= INDEX_LIMIT
    decreases hi - lo
  {
    if lo == hi then Pass(s, [])
    else
      var here := Reach(run, s, lo, now);
      var rest := Walk(run, here.state, now, lo + 1, hi);
      Pass(rest.state, here.log + rest.log)
  }

  function Frame<C, W>(run: Behaviour<C, W>, s: State<C, W>, now: real): Pass<C, W>
  {
    Walk(run, s, now, 0, INDEX_LIMIT)
  }

  // ---------- the class ----------

  class TaskQueue<C(==)> {
    var data: map<Index, Task<C>>

    constructor ()
      ensures data == map[]
    {
      data := map[];
    }

    method Clear()
      modifies this
      ensures data == map[]
    {
      data := map[];
    }

    method Create(now: real, index: Index, time: real, loop: bool, callback: Option<C>)
      modifies this
      ensures data == Apply(old(data), now, Command.Create(index, time, loop, callback))
    {
      if callback.Some? {
        data := data[index := Task(time, now + time, loop, false, callback.value)];
      }
    }

    method Remove(index: Index)
      modifies this
      ensures forall now: real :: data == Apply(old(data), now, Command.Remove(index))
    {
      if index in data {
        data := data[index := data[index].(removed := true)];
      }
    }

    method Exists(index: Index) returns (r: bool)
      ensures r == Live(data, index)
    {
      r := index in data && !data[index].removed;
    }

    /** Carries out what a callback asked for, one command after the other. */
    method Perform(now: real, commands: seq<Command<C>>)
      modifies this
      ensures data == ApplyAll(old(data), now, commands)
    {
      var k := 0;
      while k < |commands|
        invariant 0 <= k <= |commands|
        invariant ApplyAll(data, now, commands[k..]) == ApplyAll(old(data), now, commands)
        decreases |commands| - k
      {
        assert commands[k..][0] == commands[k] && commands[k..][1..] == commands[k + 1..];
        match commands[k] {
          case Create(i, time, loop, callback) => this.Create(now, i, time, loop, callback);
          case Remove(i) => this.Remove(i);
        }
        k := k + 1;
      }
    }

    /** One frame. The walk sees what the callbacks before it did to the map. */
    method Think<W>(run: Behaviour<C, W>, world: W, now: real) returns (after: W, log: seq<Event<C>>)
      modifies this
      ensures Pass(State(data, after), log) == Frame(run, State(old(data), world), now)
    {
      after, log := world, [];
      var it := 0;
      ghost var start := State(data, world);
      while it < INDEX_LIMIT
        invariant 0 <= it <= INDEX_LIMIT
        invariant start == State(old(data), world)
        invariant Pass(State(data, after), log) == Walk(run, start, now, 0, it)
      {
        WalkStep(run, start, now, 0, it);
        if it in data {
          log := log + [Visit(it)];
          if now >= data[it].endTime && !data[it].removed {
            var task := data[it];
            if task.loop {
              data := data[it := task.(endTime := now + task.time)];
            } else {
              data := data[it := task.(removed := true)];
            }
            var out := run(task.callback, after, now);
            after := out.world;
            Perform(now, out.commands);
            log := log + [Fire(it, task.callback)] + Issued(out.commands);
          }
        }
        it := it + 1;
      }
    }
  }

  // ---------- short lists of commands ----------

  lemma ApplyOne<C>(q: Queue<C>, now: real, x: Command<C>)
    ensures ApplyAll(q, now, [x]) == Apply(q, now, x)
  {
    assert [x][1..] == [];
  }

  lemma ApplyTwo<C>(q: Queue<C>, now: real, x: Command<C>, y: Command<C>)
    ensures ApplyAll(q, now, [x, y]) == Apply(Apply(q, now, x), now, y)
  {
    assert [x, y][1..] == [y];
    ApplyOne(Apply(q, now, x), now, y);
  }

  lemma ApplyFirst<C>(q: Queue<C>, now: real, x: Command<C>, rest: seq<Command<C>>)
    ensures ApplyAll(q, now, [x] + rest) == ApplyAll(Apply(q, now, x), now, rest)
  {
    assert ([x] + rest)[1..] == rest;
  }

  // ---------- walks compose ----------

  lemma {:induction false} WalkSplit<C, W>(run: Behaviour<C, W>, s: State<C, W>, now: real,
                                           lo: nat, mid: nat, hi: nat)
    requires lo <= mid <= hi <= INDEX_LIMIT
    ensures var p := Walk(run, s, now, lo, mid);
            var q := Walk(run, p.state, now, mid, hi);
            Walk(run, s, now, lo, hi) == Pass(q.state, p.log + q.log)
    decreases mid - lo
  {
    if lo == mid {
      var q := Walk(run, s, now, mid, hi);
      assert [] + q.log == q.log;
    } else {
      var here := Reach(run, s, lo, now);
      WalkSplit(run, here.state, now, lo + 1, mid, hi);
      var p := Walk(run, here.state, now, lo + 1, mid);
      var q := Walk(run, p.state, now, mid, hi);
      assert here.log + (p.log + q.log) == (here.log + p.log) + q.log;
    }
  }

  lemma WalkStep<C, W>(run: Behaviour<C, W>, s: State<C, W>, now: real, lo: nat, mid: nat)
    requires lo <= mid < INDEX_LIMIT
    ensures var p := Walk(run, s, now, lo, mid);
            var here := Reach(run, p.state, mid, now);
            Walk(run, s, now, lo, mid + 1) == Pass(here.state, p.log + here.log)
  {
    WalkSplit(run, s, now, lo, mid, mid + 1);
    var p := Walk(run, s, now, lo, mid);
    var here := Reach(run, p.state, mid, now);
    assert Walk(run, here.state, now, mid + 1, mid + 1) == Pass(here.state, []);
    assert here.log + [] == here.log;
  }
}
