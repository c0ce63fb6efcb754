/**
The chat rate limiter. Every player has a counter of messages sent too early and a time before
which the next message is too early; a message that is too early with the counter at its limit
is blocked and costs three more seconds. Time is a real number and never goes back.
*/
module AntiFlood {
  const MAX_FLOOD_REPEAT: int := 3
  const MIN_FLOOD_NEXT_TIME: real := 3.0

  /** What is kept for one player. */
  datatype Guard = Guard(flood: int, until: real)

  datatype Verdict = Verdict(blocked: bool, guard: Guard)

  function Speak(g: Guard, now: real, delay: real): Verdict
  {
    if g.until > now then
      if g.flood >= MAX_FLOOD_REPEAT then Verdict(true, Guard(g.flood, now + delay + MIN_FLOOD_NEXT_TIME))
      else Verdict(false, Guard(g.flood + 1, now + delay))
    else Verdict(false, Guard(if g.flood != 0 then g.flood - 1 else 0, now + delay))
  }

  function Lower(c: char): char
  {
    if 'A' <= c <= 'Z' then 'a' + (c - 'A') else c
  }

  predicate SameNoCase(a: string, b: string)
  {
    |a| == |b| && forall i :: 0 <= i < |a| ==> Lower(a[i]) == Lower(b[i])
  }

  predicate IsSay(command: string)
  {
    SameNoCase(command, "say") || SameNoCase(command, "say_team")
  }

  /** A command of the player in slot player. */
  datatype Message = Message(player: nat, command: string, time: real)

  predicate Limited(m: Message, delay: real)
  {
    IsSay(m.command) && delay != 0.0
  }

  function Judge(gs: seq<Guard>, m: Message, delay: real): Verdict
    requires m.player < |gs|
  {
    if Limited(m, delay) then Speak(gs[m.player], m.time, delay) else Verdict(false, gs[m.player])
  }

  class CAntiFlood {
    const flood: array<int>
    const flooding: array<real>

    ghost predicate Valid()
      reads this, flood
    {
      && flood.Length == flooding.Length
      && forall i :: 0 <= i < flood.Length ==> 0 <= flood[i] <= MAX_FLOOD_REPEAT
    }

    ghost function Guards(): (gs: seq<Guard>)
      requires flood.Length == flooding.Length
      reads this, flood, flooding
      ensures |gs| == flood.Length
    {
      seq(flood.Length, i requires 0 <= i < flood.Length reads this, flood, flooding => Guard(flood[i], flooding[i]))
    }

    constructor (maxClients: nat)
      ensures Valid() && |Guards()| == maxClients + 1
      ensures forall i :: 0 <= i <= maxClients ==> Guards()[i] == Guard(0, 0.0)
      ensures fresh(flood) && fresh(flooding)
    {
      flood := new int[maxClients + 1](_ => 0);
      flooding := new real[maxClients + 1](_ => 0.0);
    }

    /** Only the speaker's own entry changes, and the counter stays within 0 and 3. */
    method ClientCommand(player: nat, command: string, now: real, delay: real) returns (blocked: bool)
      requires Valid() && player < flood.Length
      modifies flood, flooding
      ensures Valid()
      ensures var v := Judge(old(Guards()), Message(player, command, now), delay);
              blocked == v.blocked && Guards() == old(Guards())[player := v.guard]
    {
      if IsSay(command) {
        if delay != 0.0 {
          if flooding[player] > now {
            if flood[player] >= MAX_FLOOD_REPEAT {
              flooding[player] := now + delay + MIN_FLOOD_NEXT_TIME;
              return true;
            }
            flood[player] := flood[player] + 1;
          } else if flood[player] != 0 {
            flood[player] := flood[player] - 1;
          }
          flooding[player] := now + delay;
        }
      }
      return false;
    }
  }

  // ---------- one player ----------

  /** How many messages at these times get through. */
  function Accepted(g: Guard, times: seq<real>, delay: real): nat
    decreases times
  {
    if times == [] then 0
    else
      var v := Speak(g, times[0], delay);
      (if v.blocked then 0 else 1) + Accepted(v.guard, times[1..], delay)
  }

  ghost predicate Ordered(times: seq<real>)
  {
    forall i, j :: 0 <= i < j < |times| ==> times[i] <= times[j]
  }

  predicate InRange(g: Guard)
  {
    0 <= g.flood <= MAX_FLOOD_REPEAT
  }

  /** How many delays fit into a window. */
  function Delays(window: real, delay: real): int
    requires delay > 0.0
  {
    (window / delay).Floor
  }

  lemma DelaysShrink(long: real, short: real, delay: real)
    requires delay > 0.0
    ensures short <= long ==> Delays(short, delay) <= Delays(long, delay)
    ensures short + delay <= long ==> Delays(short, delay) + 1 <= Delays(long, delay)
    ensures 0.0 <= long ==> 0 <= Delays(long, delay)
  {
    var a, b := short / delay, long / delay;
    assert a * delay == short && b * delay == long;
    Quotients(a, b, long, short, delay);
    Floors(a, b);
  }

  lemma Quotients(a: real, b: real, long: real, short: real, delay: real)
    requires delay > 0.0 && a * delay == short && b * delay == long
    ensures short <= long ==> a <= b
    ensures short + delay <= long ==> a + 1.0 <= b
    ensures 0.0 <= long ==> 0.0 <= b
  {
    OneMore(a, delay);
    Compare(a, b, delay);
    Compare(a + 1.0, b, delay);
    Compare(0.0, b, delay);
  }

  lemma Floors(a: real, b: real)
    ensures a <= b ==> a.Floor <= b.Floor
    ensures a + 1.0 <= b ==> a.Floor + 1 <= b.Floor
    ensures 0.0 <= b ==> 0 <= b.Floor
  {
  }

  lemma OneMore(a: real, d: real)
    ensures (a + 1.0) * d == a * d + d
  {
  }

  lemma Compare(a: real, b: real, d: real)
    requires d > 0.0
    ensures a * d <= b * d ==> a <= b
  {
    if a > b {
      Larger(a - b, d);
      assert (a - b) * d == a * d - b * d;
    }
  }

  lemma Larger(x: real, d: real)
    requires x > 0.0 && d > 0.0
    ensures x * d > 0.0
  {
  }

  /** After a message at time last: a lowered counter costs the time of two more messages. */
  lemma {:induction false} AcceptedAfter(g: Guard, last: real, times: seq<real>, delay: real, end: real)
    requires delay > 0.0 && InRange(g) && g.until >= last + delay && Ordered(times) && last <= end
    requires forall i :: 0 <= i < |times| ==> last <= times[i] <= end
    ensures Accepted(g, times, delay) <= MAX_FLOOD_REPEAT - g.flood + 2 * Delays(end - last, delay)
    decreases times
  {
    DelaysShrink(end - last, 0.0, delay);
    if times != [] {
      var t, v := times[0], Speak(g, times[0], delay);
      AcceptedAfter(v.guard, t, times[1..], delay, end);
      DelaysShrink(end - last, end - t, delay);
    }
  }

  /** At most two messages for every whole delay in the window, and four more. */
  lemma AcceptedInWindow(g: Guard, times: seq<real>, delay: real, from: real, window: real)
    requires delay > 0.0 && InRange(g) && Ordered(times) && window >= 0.0
    requires forall i :: 0 <= i < |times| ==> from <= times[i] <= from + window
    ensures Accepted(g, times, delay) <= 2 * Delays(window, delay) + 4
  {
    DelaysShrink(window, 0.0, delay);
    if times != [] {
      var t, v := times[0], Speak(g, times[0], delay);
      AcceptedAfter(v.guard, t, times[1..], delay, from + window);
      DelaysShrink(window, from + window - t, delay);
    }
  }

  // ---------- the bound is reached ----------

  /** The time n delays after from. */
  function Later(from: real, delay: real, n: nat): real
  {
    if n == 0 then from else Later(from, delay, n - 1) + delay
  }

  lemma {:induction false} LaterIs(from: real, delay: real, n: nat)
    ensures Later(from, delay, n) == from + n as real * delay
  {
    if n > 0 {
      LaterIs(from, delay, n - 1);
      OneMore((n - 1) as real, delay);
    }
  }

  /** Four messages at once, then two together after every delay. */
  function Burst(from: real, delay: real, n: nat): seq<real>
  {
    if n == 0 then [] + [from] + [from] + [from] + [from]
    else Burst(from, delay, n - 1) + [Later(from, delay, n)] + [Later(from, delay, n)]
  }

  function GuardAfter(g: Guard, times: seq<real>, delay: real): Guard
  {
    if times == [] then g else Speak(GuardAfter(g, times[..|times| - 1], delay), times[|times| - 1], delay).guard
  }

  lemma {:induction false} AcceptedOneMore(g: Guard, times: seq<real>, t: real, delay: real)
    ensures Accepted(g, times + [t], delay) ==
            Accepted(g, times, delay) + (if Speak(GuardAfter(g, times, delay), t, delay).blocked then 0 else 1)
    ensures GuardAfter(g, times + [t], delay) == Speak(GuardAfter(g, times, delay), t, delay).guard
    decreases times
  {
    assert (times + [t])[..|times|] == times;
    if times == [] {
      assert ([t])[1..] == [];
    } else {
      var next := Speak(g, times[0], delay).guard;
      AcceptedOneMore(next, times[1..], t, delay);
      assert (times + [t])[1..] == times[1..] + [t];
      GuardShift(g, times, delay);
    }
  }

  // ---------- after a blocked message ----------

  /** The time of the last message, with one at now before them all. */
  function LastTime(now: real, times: seq<real>): real
  {
    if times == [] then now else times[|times| - 1]
  }

  /** Every message comes less than the delay and three seconds after the one before it. */
  ghost predicate Hurried(now: real, times: seq<real>, delay: real)
  {
    forall k :: 0 <= k < |times| ==> times[k] < LastTime(now, times[..k]) + delay + 3.0
  }

  /** After a blocked message nothing gets through until the player has been silent for the delay
      and three seconds; the first message after that does. */
  lemma {:induction false} SilenceNeeded(g: Guard, now: real, times: seq<real>, delay: real, next: real)
    requires Speak(g, now, delay).blocked && Hurried(now, times, delay)
    ensures Accepted(Speak(g, now, delay).guard, times, delay) == 0
    ensures Speak(GuardAfter(Speak(g, now, delay).guard, times, delay), next, delay).blocked
            <==> next < LastTime(now, times) + delay + 3.0
  {
    if times != [] {
      var front, t := times[..|times| - 1], times[|times| - 1];
      assert Hurried(now, front, delay) by {
        assert forall k :: 0 <= k < |front| ==> front[..k] == times[..k] && front[k] == times[k];
      }
      SilenceNeeded(g, now, front, delay, t);
      assert times == front + [t];
      AcceptedOneMore(Speak(g, now, delay).guard, front, t, delay);
      var before := GuardAfter(Speak(g, now, delay).guard, front, delay);
      BlockedOn(before, t, next, delay);
    }
  }

  lemma BlockedOn(g: Guard, now: real, next: real, delay: real)
    requires Speak(g, now, delay).blocked
    ensures Speak(Speak(g, now, delay).guard, next, delay).blocked <==> next < now + delay + 3.0
  {
  }

  lemma {:induction false} GuardShift(g: Guard, times: seq<real>, delay: real)
    requires times != []
    ensures GuardAfter(g, times, delay) == GuardAfter(Speak(g, times[0], delay).guard, times[1..], delay)
  {
    var n := |times| - 1;
    if n == 0 {
      assert times[..0] == [] && times[1..] == [];
    } else {
      GuardShift(g, times[..n], delay);
      assert times[..n][1..] == times[1..][..n - 1];
    }
  }

  /** n messages got through and left the guard before; one more at t gets through. */
  lemma OneMoreThrough(g: Guard, times: seq<real>, t: real, delay: real, n: nat, before: Guard, after: Guard)
    requires Accepted(g, times, delay) == n && GuardAfter(g, times, delay) == before
    requires Speak(before, t, delay) == Verdict(false, after)
    ensures Accepted(g, times + [t], delay) == n + 1 && GuardAfter(g, times + [t], delay) == after
  {
    AcceptedOneMore(g, times, t, delay);
  }

  lemma FourAtOnce(g: Guard, t: real, delay: real)
    requires delay > 0.0 && g.flood == 0 && g.until <= t
    ensures Accepted(g, [] + [t] + [t] + [t] + [t], delay) == 4
    ensures GuardAfter(g, [] + [t] + [t] + [t] + [t], delay) == Guard(3, t + delay)
  {
    OneMoreThrough(g, [], t, delay, 0, g, Guard(0, t + delay));
    OneMoreThrough(g, [] + [t], t, delay, 1, Guard(0, t + delay), Guard(1, t + delay));
    OneMoreThrough(g, [] + [t] + [t], t, delay, 2, Guard(1, t + delay), Guard(2, t + delay));
    OneMoreThrough(g, [] + [t] + [t] + [t], t, delay, 3, Guard(2, t + delay), Guard(3, t + delay));
  }

  lemma {:induction false} BurstAccepted(g: Guard, from: real, delay: real, n: nat)
    requires delay > 0.0 && g.flood == 0 && g.until <= from
    ensures Accepted(g, Burst(from, delay, n), delay) == 2 * n + 4
    ensures GuardAfter(g, Burst(from, delay, n), delay) == Guard(3, Later(from, delay, n) + delay)
  {
    if n == 0 {
      FourAtOnce(g, from, delay);
    } else {
      var t := Later(from, delay, n);
      var before := Burst(from, delay, n - 1);
      BurstAccepted(g, from, delay, n - 1);
      TwoMoreThrough(g, before, t, delay, 2 * (n - 1) + 4);
    }
  }

  lemma TwoMoreThrough(g: Guard, times: seq<real>, t: real, delay: real, n: nat)
    requires delay > 0.0 && Accepted(g, times, delay) == n && GuardAfter(g, times, delay) == Guard(3, t)
    ensures Accepted(g, times + [t] + [t], delay) == n + 2
    ensures GuardAfter(g, times + [t] + [t], delay) == Guard(3, t + delay)
  {
    OneMoreThrough(g, times, t, delay, n, Guard(3, t), Guard(2, t + delay));
    OneMoreThrough(g, times + [t], t, delay, n + 1, Guard(2, t + delay), Guard(3, t + delay));
  }

  lemma {:induction false} BurstOrdered(from: real, delay: real, n: nat)
    requires delay > 0.0
    ensures Ordered(Burst(from, delay, n)) && from <= Later(from, delay, n)
    ensures forall i :: 0 <= i < |Burst(from, delay, n)| ==> from <= Burst(from, delay, n)[i] <= Later(from, delay, n)
  {
    if n > 0 {
      BurstOrdered(from, delay, n - 1);
    }
  }

  /** A player who was quiet can get that many messages through in a window of n delays. */
  lemma BoundReached(from: real, delay: real, n: nat) returns (times: seq<real>)
    requires delay > 0.0 && from >= 0.0
    ensures Ordered(times) && forall i :: 0 <= i < |times| ==> from <= times[i] <= from + n as real * delay
    ensures Accepted(Guard(0, 0.0), times, delay) == 2 * Delays(n as real * delay, delay) + 4
  {
    times := Burst(from, delay, n);
    LaterIs(from, delay, n);
    BurstOrdered(from, delay, n);
    BurstAccepted(Guard(0, 0.0), from, delay, n);
    WholeDelays(n, delay);
  }

  lemma WholeDelays(n: nat, delay: real)
    requires delay > 0.0
    ensures Delays(n as real * delay, delay) == n
  {
    var x := n as real * delay;
    assert x / delay == n as real;
  }

  // ---------- everyone's messages ----------

  function After(gs: seq<Guard>, ms: seq<Message>, delay: real): (r: seq<Guard>)
    requires forall k :: 0 <= k < |ms| ==> ms[k].player < |gs|
    ensures |r| == |gs|
    decreases ms
  {
    if ms == [] then gs else After(gs[ms[0].player := Judge(gs, ms[0], delay).guard], ms[1..], delay)
  }

  /** How many of p's messages to the chat get through. */
  function AcceptedOf(gs: seq<Guard>, ms: seq<Message>, delay: real, p: nat): nat
    requires forall k :: 0 <= k < |ms| ==> ms[k].player < |gs|
    decreases ms
  {
    if ms == [] then 0
    else
      var v := Judge(gs, ms[0], delay);
      (if ms[0].player == p && IsSay(ms[0].command) && !v.blocked then 1 else 0) +
      AcceptedOf(gs[ms[0].player := v.guard], ms[1..], delay, p)
  }

  /** The times of p's messages to the chat. */
  function TimesOf(ms: seq<Message>, p: nat): seq<real>
  {
    if ms == [] then []
    else (if ms[0].player == p && IsSay(ms[0].command) then [ms[0].time] else []) + TimesOf(ms[1..], p)
  }

  /** What the others write makes no difference. */
  lemma {:induction false} OwnTimesDecide(gs: seq<Guard>, ms: seq<Message>, delay: real, p: nat)
    requires p < |gs| && delay != 0.0 && forall k :: 0 <= k < |ms| ==> ms[k].player < |gs|
    ensures AcceptedOf(gs, ms, delay, p) == Accepted(gs[p], TimesOf(ms, p), delay)
    decreases ms
  {
    if ms != [] {
      var m, v := ms[0], Judge(gs, ms[0], delay);
      OwnTimesDecide(gs[m.player := v.guard], ms[1..], delay, p);
      if m.player == p && IsSay(m.command) {
        assert ([m.time] + TimesOf(ms[1..], p))[1..] == TimesOf(ms[1..], p);
      } else {
        assert TimesOf(ms, p) == TimesOf(ms[1..], p);
      }
    }
  }

  lemma {:induction false} InRangeAfter(gs: seq<Guard>, ms: seq<Message>, delay: real, p: nat)
    requires p < |gs| && InRange(gs[p]) && forall k :: 0 <= k < |ms| ==> ms[k].player < |gs|
    ensures InRange(After(gs, ms, delay)[p])
    decreases ms
  {
    if ms != [] {
      InRangeAfter(gs[ms[0].player := Judge(gs, ms[0], delay).guard], ms[1..], delay, p);
    }
  }

  ghost predicate InWindow(ms: seq<Message>, from: real, window: real)
  {
    && (forall i :: 0 <= i < |ms| ==> from <= ms[i].time <= from + window)
    && (forall i, j :: 0 <= i < j < |ms| ==> ms[i].time <= ms[j].time)
  }

  lemma {:induction false} TimeOfSome(ms: seq<Message>, p: nat, t: real)
    requires t in TimesOf(ms, p)
    ensures exists k :: 0 <= k < |ms| && ms[k].time == t
  {
    if t in TimesOf(ms[1..], p) {
      TimeOfSome(ms[1..], p, t);
      var k :| 0 <= k < |ms[1..]| && ms[1..][k].time == t;
      assert ms[k + 1].time == t;
    } else {
      assert ms[0].time == t;
    }
  }

  lemma {:induction false} TimesInWindow(ms: seq<Message>, p: nat, from: real, window: real)
    requires InWindow(ms, from, window)
    ensures Ordered(TimesOf(ms, p))
    ensures forall i :: 0 <= i < |TimesOf(ms, p)| ==> from <= TimesOf(ms, p)[i] <= from + window
  {
    if ms != [] {
      var rest := TimesOf(ms[1..], p);
      TimesInWindow(ms[1..], p, from, window);
      forall i | 0 <= i < |rest|
        ensures ms[0].time <= rest[i]
      {
        TimeOfSome(ms[1..], p, rest[i]);
        var k :| 0 <= k < |ms[1..]| && ms[1..][k].time == rest[i];
        assert ms[1..][k] == ms[k + 1];
      }
      TimeInFront(ms[0].time, rest, from, window);
      assert TimesOf(ms, p) == [ms[0].time] + rest || TimesOf(ms, p) == rest;
    }
  }

  lemma TimeInFront(t: real, rest: seq<real>, from: real, window: real)
    requires Ordered(rest) && forall i :: 0 <= i < |rest| ==> t <= rest[i] <= from + window
    requires from <= t <= from + window
    ensures Ordered([t] + rest) && forall i :: 0 <= i < |[t] + rest| ==> from <= ([t] + rest)[i] <= from + window
  {
  }

  /** Whatever everybody has written before and writes in the window, no player gets more than
      two messages per whole delay and four more through in it. */
  lemma {:induction false} FloodBound(gs: seq<Guard>, before: seq<Message>, ms: seq<Message>, delay: real, p: nat,
    from: real, window: real)
    requires delay > 0.0 && window >= 0.0 && p < |gs| && InRange(gs[p])
    requires forall k :: 0 <= k < |before| ==> before[k].player < |gs|
    requires forall k :: 0 <= k < |ms| ==> ms[k].player < |gs|
    requires InWindow(ms, from, window)
    ensures AcceptedOf(After(gs, before, delay), ms, delay, p) <= 2 * Delays(window, delay) + 4
  {
    InRangeAfter(gs, before, delay, p);
    var now := After(gs, before, delay);
    OwnTimesDecide(now, ms, delay, p);
    TimesInWindow(ms, p, from, window);
    AcceptedInWindow(now[p], TimesOf(ms, p), delay, from, window);
  }

  // ---------- what is not limited ----------

  /** The two chat commands, in any mixture of cases, and nothing else; and without a delay, or for
      another command, everything gets through and nothing is remembered. */
  lemma OnlyChat(gs: seq<Guard>, m: Message, delay: real)
    requires m.player < |gs|
    ensures IsSay(m.command) ==> |m.command| == 3 || |m.command| == 8
    ensures IsSay("say") && IsSay("SAY_Team") && !IsSay("sai") && !IsSay("say_teem")
    ensures !IsSay(m.command) || delay == 0.0 ==> Judge(gs, m, delay) == Verdict(false, gs[m.player])
    ensures IsSay(m.command) && delay != 0.0 ==> Judge(gs, m, delay).guard.until >= m.time + delay
  {
    assert Lower("sai"[2]) != Lower("say"[2]);
    assert Lower("say_teem"[6]) != Lower("say_team"[6]);
  }
}
