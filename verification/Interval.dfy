/** The periodic timer: how the next deadline follows from a tick that may be late. Times are nanoseconds. */
module Interval {
  import opened Base

  datatype Behavior = Burst | Delay | Skip

  /** A tick counts as missed when it is seen more than five milliseconds late. */
  const GRACE: nat := 5_000_000

  /** The next deadline; nothing if the skip remainder does not fit 64 bits and the code panics. */
  function NextTimeout(b: Behavior, timeout: nat, now: nat, period: nat): Option<nat>
    requires period > 0 && timeout <= now
  {
    match b
    case Burst => Some(timeout + period)
    case Delay => Some(now + period)
    case Skip =>
      var remainder := (now - timeout) % period;
      if remainder > U64_MAX then None else Some(now + period - remainder)
  }

  function Next(b: Behavior, timeout: nat, now: nat, period: nat): Option<nat>
    requires period > 0 && timeout <= now
  {
    if now > timeout + GRACE then NextTimeout(b, timeout, now, period) else Some(timeout + period)
  }

  /** The k-th instant of the grid that starts at `origin`. */
  function Grid(origin: nat, period: nat, k: nat): (r: nat)
    ensures r >= origin
  {
    assert k * period >= 0;
    origin + k * period
  }

  ghost predicate OnGrid(origin: nat, period: nat, t: nat) {
    exists k: nat :: t == Grid(origin, period, k)
  }

  lemma GridOrdered(origin: nat, period: nat, j: nat, k: nat)
    requires j <= k
    ensures Grid(origin, period, j) + (k - j) * period == Grid(origin, period, k)
    ensures Grid(origin, period, j) <= Grid(origin, period, k)
  {
    assert k * period == j * period + (k - j) * period;
    assert (k - j) * period >= 0;
  }

  lemma GridShift(origin: nat, period: nat, t: nat, u: nat)
    requires OnGrid(origin, period, t) && OnGrid(t, period, u)
    ensures OnGrid(origin, period, u)
  {
    var j: nat :| t == Grid(origin, period, j);
    var k: nat :| u == Grid(t, period, k);
    assert (j + k) * period == j * period + k * period;
    assert u == Grid(origin, period, j + k);
  }

  lemma GridStep(t: nat, period: nat)
    ensures OnGrid(t, period, t) && OnGrid(t, period, t + period)
  {
    assert t == Grid(t, period, 0);
    assert t + period == Grid(t, period, 1);
  }

  /** The grid instants around a moment. */
  lemma Around(timeout: nat, now: nat, period: nat)
    requires period > 0 && timeout <= now
    ensures var q, r := (now - timeout) / period, (now - timeout) % period;
            q >= 0 && Grid(timeout, period, q) == now - r && Grid(timeout, period, q + 1) == now - r + period
  {
    var x := now - timeout;
    assert x == (x / period) * period + x % period;
    assert (x / period + 1) * period == (x / period) * period + period;
  }

  /** A late skip lands on the first grid instant after now, at most one period away. */
  lemma SkipIsFirstAfter(timeout: nat, now: nat, period: nat)
    requires 0 < period <= U64_MAX && timeout <= now
    ensures var n := NextTimeout(Skip, timeout, now, period);
            n.Some? && now < n.value <= now + period && OnGrid(timeout, period, n.value)
            && forall k: nat :: now < Grid(timeout, period, k) ==> n.value <= Grid(timeout, period, k)
  {
    var q := (now - timeout) / period;
    Around(timeout, now, period);
    forall k: nat | now < Grid(timeout, period, k)
      ensures Grid(timeout, period, q + 1) <= Grid(timeout, period, k)
    {
      if k <= q {
        GridOrdered(timeout, period, k, q);
      } else {
        GridOrdered(timeout, period, q + 1, k);
      }
    }
  }

  /** The skip panics exactly if the remainder does not fit, which no period of 64 bits allows. */
  lemma SkipPanics(timeout: nat, now: nat, period: nat)
    requires period > 0 && timeout <= now
    ensures NextTimeout(Skip, timeout, now, period).None? ==> period > U64_MAX + 1
    ensures period > U64_MAX + 1 ==> NextTimeout(Skip, timeout, timeout + U64_MAX + 1, period).None?
  {
  }

  /** A missed tick under Delay keeps the grid exactly if it is late by whole periods. */
  lemma DelayAlignment(timeout: nat, now: nat, period: nat)
    requires period > 0 && timeout <= now
    ensures OnGrid(timeout, period, NextTimeout(Delay, timeout, now, period).value) <==> (now - timeout) % period == 0
  {
    var q := (now - timeout) / period;
    Around(timeout, now, period);
    forall k: nat | now + period == Grid(timeout, period, k)
      ensures (now - timeout) % period == 0
    {
      if k <= q + 1 {
        GridOrdered(timeout, period, k, q + 1);
      } else {
        GridOrdered(timeout, period, q + 2, k);
        GridOrdered(timeout, period, q + 1, q + 2);
      }
    }
  }

  /** A tick seen within five milliseconds keeps the rhythm whatever the behaviour; later, the behaviour decides. */
  lemma NextIs(b: Behavior, timeout: nat, now: nat, period: nat)
    requires period > 0 && timeout <= now
    ensures now <= timeout + 5_000_000 ==> Next(b, timeout, now, period) == Some(timeout + period)
    ensures now > timeout + 5_000_000 && b == Burst ==> Next(b, timeout, now, period) == Some(timeout + period)
    ensures now > timeout + 5_000_000 && b == Delay ==> Next(b, timeout, now, period) == Some(now + period)
    ensures now > timeout + 5_000_000 && b == Skip ==>
              Next(b, timeout, now, period) == NextTimeout(Skip, timeout, now, period)
  {
  }

  /** Deadlines are at least a period apart, whatever the behaviour. */
  lemma NextIsLater(b: Behavior, timeout: nat, now: nat, period: nat)
    requires period > 0 && timeout <= now && Next(b, timeout, now, period).Some?
    ensures Next(b, timeout, now, period).value >= timeout + period
  {
    Around(timeout, now, period);
  }

  lemma NextStaysOnGrid(b: Behavior, timeout: nat, now: nat, period: nat)
    requires period > 0 && timeout <= now && Next(b, timeout, now, period).Some? && !b.Delay?
    ensures OnGrid(timeout, period, Next(b, timeout, now, period).value)
  {
    GridStep(timeout, period);
    Around(timeout, now, period);
  }

  // Runs: the ticks reported so far, and the deadline of the next

  /** Ticks begin at the start and are at least a period apart, and so is the deadline. */
  predicate Spaced(start: nat, period: nat, ticks: seq<nat>, deadline: nat) {
    (forall i, j :: 0 <= i < j < |ticks| ==> ticks[i] + period <= ticks[j])
    && if ticks == [] then deadline == start else ticks[0] == start && ticks[|ticks| - 1] + period <= deadline
  }

  ghost predicate Gridded(start: nat, period: nat, ticks: seq<nat>, deadline: nat) {
    OnGrid(start, period, deadline) && forall i :: 0 <= i < |ticks| ==> OnGrid(start, period, ticks[i])
  }

  /** No grid instant is left out. */
  predicate Exact(start: nat, period: nat, ticks: seq<nat>, deadline: nat) {
    deadline == Grid(start, period, |ticks|) && forall i :: 0 <= i < |ticks| ==> ticks[i] == Grid(start, period, i)
  }

  lemma TickKeepsSpacing(start: nat, period: nat, ticks: seq<nat>, timeout: nat, b: Behavior, now: nat)
    requires period > 0 && timeout <= now && Next(b, timeout, now, period).Some?
    requires Spaced(start, period, ticks, timeout)
    ensures Spaced(start, period, ticks + [timeout], Next(b, timeout, now, period).value)
  {
    NextIsLater(b, timeout, now, period);
  }

  lemma TickKeepsGrid(start: nat, period: nat, ticks: seq<nat>, timeout: nat, b: Behavior, now: nat)
    requires period > 0 && timeout <= now && Next(b, timeout, now, period).Some? && !b.Delay?
    requires Gridded(start, period, ticks, timeout)
    ensures Gridded(start, period, ticks + [timeout], Next(b, timeout, now, period).value)
  {
    NextStaysOnGrid(b, timeout, now, period);
    GridShift(start, period, timeout, Next(b, timeout, now, period).value);
  }

  lemma TickKeepsExact(start: nat, period: nat, ticks: seq<nat>, timeout: nat, now: nat)
    requires period > 0 && timeout <= now
    requires Exact(start, period, ticks, timeout)
    ensures Exact(start, period, ticks + [timeout], Next(Burst, timeout, now, period).value)
  {
    GridOrdered(start, period, |ticks|, |ticks| + 1);
    assert ((|ticks| + 1) - |ticks|) * period == period;
  }
}

module IntervalCode {
  import opened Base
  import I = Interval

  class Interval {
    var deadline: nat
    const period: nat
    var behavior: I.Behavior

    constructor (start: nat, period: nat)
      requires period > 0
      ensures deadline == start && this.period == period && behavior == I.Burst
    {
      deadline, this.period, behavior := start, period, I.Burst;
    }

    /** Reports the deadline that has passed and sets the next; nothing if the code panics. */
    method PollTick(now: nat) returns (r: Poll<Option<nat>>)
      requires period > 0
      modifies this`deadline
      ensures now < old(deadline) ==> r.Pending? && deadline == old(deadline)
      ensures old(deadline) <= now ==> r.Ready?
      ensures old(deadline) <= now && I.Next(behavior, old(deadline), now, period).None? ==> r == Ready(None) && deadline == old(deadline)
      ensures old(deadline) <= now && I.Next(behavior, old(deadline), now, period).Some? ==>
                r == Ready(Some(old(deadline))) && deadline == I.Next(behavior, old(deadline), now, period).value
    {
      if now < deadline {
        return Pending;
      }
      var timeout := deadline;
      var next := timeout + period;
      if now > timeout + 5_000_000 {
        var late := I.NextTimeout(behavior, timeout, now, period);
        if late.None? {
          return Ready(None);
        }
        next := late.value;
      }
      deadline := next;
      r := Ready(Some(timeout));
    }
  }

  datatype Event = Poll(now: nat) | Switch(behavior: I.Behavior)

  /**
    Any polling times and any switching of behaviours, without resets: ticks are
    spaced; they stay on the grid unless Delay is chosen; Burst alone reports
    every grid instant. A run ends where the code would panic.
   */
  method Drive(start: nat, period: nat, events: seq<Event>) returns (ticks: seq<nat>, next: nat)
    requires period > 0
    ensures I.Spaced(start, period, ticks, next)
    ensures (forall e :: e in events && e.Switch? ==> !e.behavior.Delay?) ==> I.Gridded(start, period, ticks, next)
    ensures (forall e :: e in events && e.Switch? ==> e.behavior.Burst?) ==> I.Exact(start, period, ticks, next)
  {
    ghost var grid := forall e :: e in events && e.Switch? ==> !e.behavior.Delay?;
    ghost var burst := forall e :: e in events && e.Switch? ==> e.behavior.Burst?;
    var t := new Interval(start, period);
    ticks := [];
    I.GridStep(start, period);
    for n := 0 to |events|
      invariant fresh(t) && t.period == period
      invariant I.Spaced(start, period, ticks, t.deadline)
      invariant grid ==> !t.behavior.Delay? && I.Gridded(start, period, ticks, t.deadline)
      invariant burst ==> t.behavior.Burst? && I.Exact(start, period, ticks, t.deadline)
    {
      match events[n]
      case Switch(b) =>
        assert events[n] in events;
        t.behavior := b;
      case Poll(now) =>
        ghost var timeout := t.deadline;
        var r := t.PollTick(now);
        if r.Ready? {
          if r.value.None? {
            return ticks, t.deadline;
          }
          I.TickKeepsSpacing(start, period, ticks, timeout, t.behavior, now);
          if grid {
            I.TickKeepsGrid(start, period, ticks, timeout, t.behavior, now);
          }
          if burst {
            I.TickKeepsExact(start, period, ticks, timeout, now);
          }
          ticks := ticks + [r.value.value];
        }
    }
    next := t.deadline;
  }
}
