/**
  The notification primitive: one-shot notifications are conserved over every
  run, through selection, cancellation and broadcasts.
 */
module Notify {
  import opened Base

  /** Generations count modulo 2^64. */
  const WRAP: nat := 0x1_0000_0000_0000_0000

  /** The shared atomic of one future. */
  datatype Mark = Waiting | One | All | Consumed

  /** A queue entry: the future it stands for and its waker (`None` is the no-op waker of `enable`). */
  datatype Entry = Entry(fut: nat, waker: Option<nat>)

  datatype State = State(permit: bool, generation: nat, waiters: seq<Entry>)

  /** A notified-future; `born` is the number of broadcasts before its creation. */
  datatype Fut = Fut(mark: Mark, generation: nat, live: bool, born: nat)

  /** The queue without the entries of future `i`. */
  function RemoveWaiter(q: seq<Entry>, i: nat): seq<Entry> {
    if q == [] then []
    else if q[0].fut == i then RemoveWaiter(q[1..], i)
    else [q[0]] + RemoveWaiter(q[1..], i)
  }

  predicate Alive(futs: seq<Fut>, i: nat) {
    i < |futs| && futs[i].live
  }

  /**
    Hands one notification to the oldest (or newest) waiter that still exists,
    or stores it. Returns the new state and the waiter chosen.
   */
  function NotifyLocked(s: State, futs: seq<Fut>, last: bool): (State, Option<Entry>)
    decreases |s.waiters|
  {
    if s.waiters == [] then (s.(permit := true), None)
    else
      var n := |s.waiters| - 1;
      var (e, rest) := if last then (s.waiters[n], s.waiters[..n]) else (s.waiters[0], s.waiters[1..]);
      if Alive(futs, e.fut) then (s.(waiters := rest), Some(e))
      else NotifyLocked(s.(waiters := rest), futs, last)
  }

  datatype Polled = Polled(state: State, mark: Mark, ready: bool)

  function PollNotified(s: State, f: Fut, i: nat, waker: Option<nat>): Polled {
    if f.mark != Waiting || f.generation != s.generation then
      Polled(s.(waiters := RemoveWaiter(s.waiters, i)), Consumed, true)
    else if s.permit then
      Polled(s.(permit := false, waiters := RemoveWaiter(s.waiters, i)), Consumed, true)
    else
      match FindEntry(s.waiters, i)
      case Some(p) =>
        Polled(if waker.Some? then s.(waiters := s.waiters[p := Entry(i, waker)]) else s, Waiting, false)
      case None =>
        Polled(s.(waiters := s.waiters + [Entry(i, waker)]), Waiting, false)
  }

  function FindEntry(q: seq<Entry>, i: nat): (r: Option<nat>)
    ensures r.None? ==> forall k :: 0 <= k < |q| ==> q[k].fut != i
    ensures r.Some? ==> r.value < |q| && q[r.value].fut == i
    ensures r.Some? ==> forall k :: 0 <= k < r.value ==> q[k].fut != i
  {
    if q == [] then None
    else if q[0].fut == i then Some(0)
    else
      match FindEntry(q[1..], i)
      case None => None
      case Some(p) => Some(p + 1)
  }

  lemma FindAppend(q: seq<Entry>, e: Entry)
    ensures forall i :: FindEntry(q + [e], i).Some? <==> FindEntry(q, i).Some? || i == e.fut
  {
    forall i ensures FindEntry(q + [e], i).Some? <==> FindEntry(q, i).Some? || i == e.fut {
      assert (q + [e])[|q|] == e;
      var p := FindEntry(q, i);
      if p.Some? { assert (q + [e])[p.value].fut == i; }
    }
  }

  /** The wakers of the entries whose future still exists, in queue order. */
  function LiveWakers(q: seq<Entry>, futs: seq<Fut>): seq<Option<nat>> {
    if q == [] then []
    else (if Alive(futs, q[0].fut) then [q[0].waker] else []) + LiveWakers(q[1..], futs)
  }

  // ----- the primitive in use -----

  /**
    `calls` counts notify_one and notify_last; `byOne` and `byPermit` the
    completions that used one up; `merged` those that met a stored permit.
   */
  datatype World = World(
    state: State, futs: seq<Fut>, broadcasts: nat,
    calls: nat, byOne: nat, byPermit: nat, merged: nat)

  datatype Step =
    | NewFuture
    | Poll(i: nat, waker: Option<nat>)
    | DropFuture(i: nat)
    | NotifyNext(last: bool)
    | NotifyWaiters

  const Init: World := World(State(false, 0, []), [], 0, 0, 0, 0, 0)

  /** Routes one notification, recording it as merged if a permit was already stored. */
  function Route(w: World, last: bool): World {
    var (s', chosen) := NotifyLocked(w.state, w.futs, last);
    match chosen
    case None => w.(state := s', merged := w.merged + if w.state.permit then 1 else 0)
    case Some(e) =>
      w.(state := s', futs := if e.fut < |w.futs| then w.futs[e.fut := w.futs[e.fut].(mark := One)] else w.futs)
  }

  function PollStep(w: World, i: nat, waker: Option<nat>): World
    requires i < |w.futs|
  {
    var f := w.futs[i];
    var r := PollNotified(w.state, f, i, waker);
    w.(state := r.state,
       futs := w.futs[i := f.(mark := r.mark)],
       byOne := w.byOne + if r.ready && f.mark == One then 1 else 0,
       byPermit := w.byPermit + if w.state.permit && !r.state.permit then 1 else 0)
  }

  function CancelStep(w: World, i: nat): World
    requires i < |w.futs|
  {
    var f := w.futs[i];
    var w' := w.(state := w.state.(waiters := RemoveWaiter(w.state.waiters, i)),
                 futs := w.futs[i := f.(live := false)]);
    if f.mark == One then Route(w', false) else w'
  }

  /** Every queued future is marked; futures not yet queued see the generation change. */
  function MarkAll(futs: seq<Fut>, q: seq<Entry>): (r: seq<Fut>)
    ensures |r| == |futs|
  {
    seq(|futs|, i requires 0 <= i < |futs| =>
      if futs[i].live && FindEntry(q, i).Some? then futs[i].(mark := All) else futs[i])
  }

  function MarkOne(futs: seq<Fut>, i: nat): seq<Fut> {
    if Alive(futs, i) then futs[i := futs[i].(mark := All)] else futs
  }

  /** Marking is done one waiter at a time. */
  lemma MarkSnoc(futs: seq<Fut>, q: seq<Entry>, e: Entry)
    ensures MarkAll(futs, q + [e]) == MarkOne(MarkAll(futs, q), e.fut)
  {
    FindAppend(q, e);
  }

  /** Marking keeps futures alive, so the wakers still to be called are the same. */
  lemma {:induction false} WakersAfterMark(q: seq<Entry>, futs: seq<Fut>, i: nat)
    ensures LiveWakers(q, MarkOne(futs, i)) == LiveWakers(q, futs)
  {
    if q != [] { WakersAfterMark(q[1..], futs, i); }
  }

  lemma WakersStep(wakers: seq<Option<nat>>, q: seq<Entry>, futs: seq<Fut>)
    requires q != []
    ensures var woken := if Alive(futs, q[0].fut) then [q[0].waker] else [];
            (wakers + woken) + LiveWakers(q[1..], MarkOne(futs, q[0].fut)) == wakers + LiveWakers(q, futs)
  {
    WakersAfterMark(q[1..], futs, q[0].fut);
    var woken := if Alive(futs, q[0].fut) then [q[0].waker] else [];
    assert (wakers + woken) + LiveWakers(q[1..], futs) == wakers + (woken + LiveWakers(q[1..], futs));
  }

  /** Half way through a broadcast: `done` has been drained from `all`, `q` is left. */
  ghost predicate Draining(
    all: seq<Entry>, futs: seq<Fut>, done: seq<Entry>, q: seq<Entry>, marked: seq<Fut>, wakers: seq<Option<nat>>)
  {
    done + q == all && marked == MarkAll(futs, done) && wakers + LiveWakers(q, marked) == LiveWakers(all, futs)
  }

  lemma DrainBegins(all: seq<Entry>, futs: seq<Fut>)
    ensures Draining(all, futs, [], all, futs, [])
  {
    assert futs == MarkAll(futs, []);
    assert [] + all == all;
  }

  lemma DrainStep(
    all: seq<Entry>, futs: seq<Fut>, done: seq<Entry>, q: seq<Entry>, marked: seq<Fut>, wakers: seq<Option<nat>>)
    requires Draining(all, futs, done, q, marked, wakers) && q != []
    ensures var woken := if Alive(marked, q[0].fut) then [q[0].waker] else [];
            Draining(all, futs, done + [q[0]], q[1..], MarkOne(marked, q[0].fut), wakers + woken)
  {
    assert done + q == (done + [q[0]]) + q[1..];
    MarkSnoc(futs, done, q[0]);
    WakersStep(wakers, q, marked);
  }

  lemma DrainEnds(all: seq<Entry>, futs: seq<Fut>, done: seq<Entry>, marked: seq<Fut>, wakers: seq<Option<nat>>)
    requires Draining(all, futs, done, [], marked, wakers)
    ensures marked == MarkAll(futs, all) && wakers == LiveWakers(all, futs)
  {
    assert done + [] == done && wakers + [] == wakers;
  }

  function BroadcastStep(w: World): World {
    w.(state := w.state.(generation := (w.state.generation + 1) % WRAP, waiters := []),
       futs := MarkAll(w.futs, w.state.waiters),
       broadcasts := w.broadcasts + 1)
  }

  function Next(w: World, step: Step): World {
    match step
    case NewFuture => w.(futs := w.futs + [Fut(Waiting, w.state.generation, true, w.broadcasts)])
    case Poll(i, waker) => if Alive(w.futs, i) then PollStep(w, i, waker) else w
    case DropFuture(i) => if Alive(w.futs, i) then CancelStep(w, i) else w
    case NotifyNext(last) => Route(w, last).(calls := w.calls + 1)
    case NotifyWaiters => BroadcastStep(w)
  }

  function Exec(w: World, steps: seq<Step>): World
    decreases |steps|
  {
    if steps == [] then w else Exec(Next(w, steps[0]), steps[1..])
  }

  // ----- what every run keeps -----

  /** 1 for a live future that has been selected and not polled since. */
  function Weight(f: Fut): nat {
    if f.live && f.mark == One then 1 else 0
  }

  function Weights(futs: seq<Fut>): (r: seq<nat>)
    ensures |r| == |futs|
    ensures forall i :: 0 <= i < |futs| ==> r[i] == Weight(futs[i])
  {
    seq(|futs|, i requires 0 <= i < |futs| => Weight(futs[i]))
  }

  /** The number of selected futures that have not yet been polled. */
  function Selected(futs: seq<Fut>): nat {
    Sum(Weights(futs))
  }

  lemma SelectedUpdate(futs: seq<Fut>, i: nat, f: Fut)
    requires i < |futs|
    ensures Selected(futs[i := f]) == Selected(futs) - Weight(futs[i]) + Weight(f)
    ensures Weight(futs[i]) <= Selected(futs)
  {
    assert Weights(futs[i := f]) == Weights(futs)[i := Weight(f)];
    SumUpdate(Weights(futs), i, Weight(f));
  }

  lemma SelectedAppend(futs: seq<Fut>, f: Fut)
    ensures Selected(futs + [f]) == Selected(futs) + Weight(f)
  {
    assert Weights(futs + [f]) == Weights(futs) + [Weight(f)];
    SumAppend(Weights(futs), [Weight(f)]);
  }

  /** Where every notification is. */
  ghost predicate Conserved(w: World) {
    w.calls == w.byOne + w.byPermit + Selected(w.futs) + (if w.state.permit then 1 else 0) + w.merged
  }

  /** Queued futures exist, are waiting, are of the current generation, and are queued once. */
  ghost predicate QueueSound(s: State, futs: seq<Fut>) {
    && (s.permit ==> s.waiters == [])
    && (forall k :: 0 <= k < |s.waiters| ==>
          var i := s.waiters[k].fut;
          i < |futs| && futs[i].live && futs[i].mark == Waiting && futs[i].generation == s.generation)
    && (forall j, k :: 0 <= j < k < |s.waiters| ==> s.waiters[j].fut != s.waiters[k].fut)
  }

  ghost predicate Generations(w: World) {
    && w.state.generation == w.broadcasts % WRAP
    && forall i :: 0 <= i < |w.futs| ==> w.futs[i].born <= w.broadcasts && w.futs[i].generation == w.futs[i].born % WRAP
  }

  ghost predicate Inv(w: World) {
    Conserved(w) && QueueSound(w.state, w.futs) && Generations(w)
  }

  lemma {:induction false} RemoveWaiterKeeps(q: seq<Entry>, i: nat)
    ensures forall k :: 0 <= k < |RemoveWaiter(q, i)| ==> RemoveWaiter(q, i)[k] in q && RemoveWaiter(q, i)[k].fut != i
    ensures (forall j, k :: 0 <= j < k < |q| ==> q[j].fut != q[k].fut) ==>
              forall j, k :: 0 <= j < k < |RemoveWaiter(q, i)| ==> RemoveWaiter(q, i)[j].fut != RemoveWaiter(q, i)[k].fut
  {
    if q != [] {
      RemoveWaiterKeeps(q[1..], i);
      if q[0].fut != i && forall j, k :: 0 <= j < k < |q| ==> q[j].fut != q[k].fut {
        var r := RemoveWaiter(q[1..], i);
        assert forall k :: 0 <= k < |r| ==> r[k] in q[1..] && r[k].fut != q[0].fut;
      }
    }
  }

  lemma RemoveSound(s: State, futs: seq<Fut>, i: nat, f: Fut)
    requires QueueSound(s, futs) && i < |futs|
    ensures QueueSound(s.(waiters := RemoveWaiter(s.waiters, i)), futs[i := f])
  {
    RemoveWaiterKeeps(s.waiters, i);
    var r := RemoveWaiter(s.waiters, i);
    forall k | 0 <= k < |r|
      ensures var j := r[k].fut; j < |futs| && futs[i := f][j] == futs[j] && futs[j].live
                                 && futs[j].mark == Waiting && futs[j].generation == s.generation
    {
      assert r[k] in s.waiters;
    }
  }

  /** In a sound queue the code's search for a living waiter ends at once, at the oldest or newest entry. */
  lemma RouteKeeps(w: World, last: bool)
    requires QueueSound(w.state, w.futs)
    ensures QueueSound(Route(w, last).state, Route(w, last).futs)
    ensures Route(w, last).state.generation == w.state.generation
    ensures var n := |w.state.waiters|;
            n > 0 ==>
              var i := w.state.waiters[if last then n - 1 else 0].fut;
              && Route(w, last).futs == w.futs[i := w.futs[i].(mark := One)]
              && Route(w, last).state.waiters == (if last then w.state.waiters[..n - 1] else w.state.waiters[1..])
    ensures Selected(Route(w, last).futs) + (if Route(w, last).state.permit then 1 else 0) + Route(w, last).merged
            == Selected(w.futs) + (if w.state.permit then 1 else 0) + w.merged + 1
  {
    if w.state.waiters != [] {
      var n := |w.state.waiters|;
      var i := w.state.waiters[if last then n - 1 else 0].fut;
      SelectedUpdate(w.futs, i, w.futs[i].(mark := One));
    }
  }

  lemma PollKeeps(w: World, i: nat, waker: Option<nat>)
    requires Inv(w) && Alive(w.futs, i)
    ensures Inv(PollStep(w, i, waker))
  {
    var f := w.futs[i];
    var r := PollNotified(w.state, f, i, waker);
    SelectedUpdate(w.futs, i, f.(mark := r.mark));
    if r.ready {
      RemoveSound(w.state, w.futs, i, f.(mark := Consumed));
    } else {
      assert f.(mark := r.mark) == f;
      assert w.futs[i := f] == w.futs;
    }
  }

  lemma CancelKeeps(w: World, i: nat)
    requires Inv(w) && Alive(w.futs, i)
    ensures Inv(CancelStep(w, i))
  {
    var f := w.futs[i];
    SelectedUpdate(w.futs, i, f.(live := false));
    RemoveSound(w.state, w.futs, i, f.(live := false));
    if f.mark == One {
      var w' := w.(state := w.state.(waiters := RemoveWaiter(w.state.waiters, i)), futs := w.futs[i := f.(live := false)]);
      RouteKeeps(w', false);
    }
  }

  lemma BroadcastKeeps(w: World)
    requires Inv(w)
    ensures Inv(BroadcastStep(w))
  {
    var futs' := MarkAll(w.futs, w.state.waiters);
    forall i | 0 <= i < |w.futs| ensures Weight(futs'[i]) == Weight(w.futs[i]) {
      var p := FindEntry(w.state.waiters, i);
      if p.Some? { assert w.state.waiters[p.value].fut == i; }
    }
    assert Weights(futs') == Weights(w.futs);
  }

  lemma StepKeeps(w: World, step: Step)
    requires Inv(w)
    ensures Inv(Next(w, step))
  {
    match step
    case NewFuture => SelectedAppend(w.futs, Fut(Waiting, w.state.generation, true, w.broadcasts));
    case Poll(i, waker) => if Alive(w.futs, i) { PollKeeps(w, i, waker); }
    case DropFuture(i) => if Alive(w.futs, i) { CancelKeeps(w, i); }
    case NotifyNext(last) => RouteKeeps(w, last);
    case NotifyWaiters => BroadcastKeeps(w);
  }

  lemma {:induction false} RunKeeps(w: World, steps: seq<Step>)
    requires Inv(w)
    ensures Inv(Exec(w, steps))
    decreases |steps|
  {
    if steps != [] {
      StepKeeps(w, steps[0]);
      RunKeeps(Next(w, steps[0]), steps[1..]);
    }
  }

  /**
    Every notification call of every run is accounted for: it completed a
    future, it rests with a selected future or in the stored permit, or it
    merged into a stored permit; and the queue stays sound.
   */
  lemma NotificationsConserved(steps: seq<Step>)
    ensures var w := Exec(Init, steps);
            && w.calls == w.byOne + w.byPermit + Selected(w.futs) + (if w.state.permit then 1 else 0) + w.merged
            && QueueSound(w.state, w.futs)
  {
    assert Weights([]) == [];
    RunKeeps(Init, steps);
  }

  /**
    A broadcast reaches futures that were never polled: a waiting future is
    complete exactly when the number of broadcasts since its creation is not a
    multiple of 2^64 (or a permit is stored).
   */
  lemma BroadcastReaches(steps: seq<Step>, i: nat, waker: Option<nat>)
    requires Alive(Exec(Init, steps).futs, i) && Exec(Init, steps).futs[i].mark == Waiting
    ensures var w := Exec(Init, steps);
            PollNotified(w.state, w.futs[i], i, waker).ready
            <==> w.state.permit || (w.broadcasts - w.futs[i].born) % WRAP != 0
  {
    assert Weights([]) == [];
    RunKeeps(Init, steps);
    var w := Exec(Init, steps);
    SameResidue(w.futs[i].born, w.broadcasts - w.futs[i].born, WRAP);
  }

  // ----- what each call answers -----

  /** Selected, reached by a broadcast, already complete, or a permit is stored. */
  predicate Complete(w: World, i: nat)
    requires i < |w.futs|
  {
    w.futs[i].mark != Waiting || w.state.permit || (w.broadcasts - w.futs[i].born) % WRAP != 0
  }

  lemma ReadyExact(w: World, i: nat, waker: Option<nat>)
    requires Generations(w) && i < |w.futs|
    ensures PollNotified(w.state, w.futs[i], i, waker).ready <==> Complete(w, i)
    ensures w.futs[i].generation == w.state.generation <==> (w.broadcasts - w.futs[i].born) % WRAP == 0
  {
    SameResidue(w.futs[i].born, w.broadcasts - w.futs[i].born, WRAP);
  }

  lemma PollQueue(w: World, i: nat, waker: Option<nat>)
    requires Generations(w) && i < |w.futs|
    ensures var q := PollNotified(w.state, w.futs[i], i, waker).state.waiters;
            if Complete(w, i) then FindEntry(q, i).None? else QueuedWith(q, i, waker)
  {
    ReadyExact(w, i, waker);
    RemoveWaiterKeeps(w.state.waiters, i);
    QueuedAfter(w.state.waiters, i, waker);
  }

  /**
    On every run a poll is ready exactly when the future is complete, and uses
    up a selection or a permit exactly then; otherwise the future is queued,
    with the waker it was polled with.
   */
  lemma PollAnswers(steps: seq<Step>, i: nat, waker: Option<nat>)
    requires Alive(Exec(Init, steps).futs, i)
    ensures var w := Exec(Init, steps);
            var w' := Next(w, Poll(i, waker));
            && (PollNotified(w.state, w.futs[i], i, waker).ready <==> Complete(w, i))
            && w'.futs == w.futs[i := w.futs[i].(mark := if Complete(w, i) then Consumed else Waiting)]
            && w'.byOne == w.byOne + (if w.futs[i].mark == One then 1 else 0)
            && w'.byPermit == w.byPermit + (if UsesPermit(w, i) then 1 else 0)
            && if Complete(w, i) then FindEntry(w'.state.waiters, i).None? else QueuedWith(w'.state.waiters, i, waker)
  {
    assert Weights([]) == [];
    RunKeeps(Init, steps);
    var w := Exec(Init, steps);
    ReadyExact(w, i, waker);
    PollQueue(w, i, waker);
  }

  /** Only a permit completes the future, so it is used up. */
  predicate UsesPermit(w: World, i: nat)
    requires i < |w.futs|
  {
    w.state.permit && w.futs[i].mark == Waiting && (w.broadcasts - w.futs[i].born) % WRAP == 0
  }

  /** Queued; a poll with a waker leaves that waker, `enable` leaves the one there is. */
  predicate QueuedWith(q: seq<Entry>, i: nat, waker: Option<nat>) {
    var p := FindEntry(q, i);
    p.Some? && (waker.Some? ==> q[p.value].waker == waker)
  }

  lemma QueuedAfter(q: seq<Entry>, i: nat, waker: Option<nat>)
    ensures match FindEntry(q, i)
            case Some(p) => QueuedWith(if waker.Some? then q[p := Entry(i, waker)] else q, i, waker)
            case None => QueuedWith(q + [Entry(i, waker)], i, waker)
  {
    match FindEntry(q, i)
    case Some(p) =>
      var q' := q[p := Entry(i, waker)];
      assert q'[p].fut == i && forall k :: 0 <= k < p ==> q'[k] == q[k];
    case None =>
      var q' := q + [Entry(i, waker)];
      assert q'[|q|].fut == i && forall k :: 0 <= k < |q| ==> q'[k] == q[k];
  }

  /** A notification selects and wakes the oldest queued future, or the newest, and only that one; with none it is stored. */
  lemma NotifyAnswers(w: World, last: bool)
    requires QueueSound(w.state, w.futs)
    ensures var (s', chosen) := NotifyLocked(w.state, w.futs, last);
            var q := w.state.waiters;
            if q == [] then chosen.None? && s' == w.state.(permit := true)
            else
              var k := if last then |q| - 1 else 0;
              && chosen == Some(q[k]) && s' == w.state.(waiters := q[..k] + q[k + 1..])
              && Route(w, last).futs == w.futs[q[k].fut := w.futs[q[k].fut].(mark := One)]
  {
    var q := w.state.waiters;
    if q != [] {
      var k := if last then |q| - 1 else 0;
      assert Alive(w.futs, q[k].fut);
      assert q[..0] + q[1..] == q[1..] && q[..|q| - 1] + q[|q|..] == q[..|q| - 1];
    }
  }

  /** No queued future drops out: it stays queued until it is selected, reached, polled to completion or dropped. */
  lemma QueuedStays(w: World, step: Step, i: nat)
    requires Inv(w) && FindEntry(w.state.waiters, i).Some?
    ensures var w' := Next(w, step);
            FindEntry(w'.state.waiters, i).Some? || !Alive(w'.futs, i) || w'.futs[i].mark != Waiting
  {
    var q := w.state.waiters;
    match step
    case Poll(j, waker) =>
      if Alive(w.futs, j) {
        if j == i {
          QueuedAfter(q, i, waker);
        } else {
          OthersStay(q, j, waker, i);
        }
      }
    case DropFuture(j) =>
      if Alive(w.futs, j) && j != i { DroppedStays(w, j, i); }
    case NotifyNext(last) => NotifyAnswers(w, last); SelectedStays(w, last, i);
    case _ =>
  }

  lemma {:induction false} RemoveFinds(q: seq<Entry>, j: nat, i: nat)
    requires i != j && FindEntry(q, i).Some?
    ensures FindEntry(RemoveWaiter(q, j), i).Some?
  {
    if q[0].fut == j {
      RemoveFinds(q[1..], j, i);
    } else if q[0].fut != i {
      RemoveFinds(q[1..], j, i);
      var r := RemoveWaiter(q[1..], j);
      assert ([q[0]] + r)[1..] == r;
    }
  }

  lemma OthersStay(q: seq<Entry>, j: nat, waker: Option<nat>, i: nat)
    requires i != j && FindEntry(q, i).Some?
    ensures FindEntry(RemoveWaiter(q, j), i).Some?
    ensures FindEntry(q + [Entry(j, waker)], i).Some?
    ensures forall p :: 0 <= p < |q| && q[p].fut == j ==> FindEntry(q[p := Entry(j, waker)], i).Some?
  {
    RemoveFinds(q, j, i);
    var k := FindEntry(q, i).value;
    assert (q + [Entry(j, waker)])[k].fut == i;
    forall p | 0 <= p < |q| && q[p].fut == j ensures FindEntry(q[p := Entry(j, waker)], i).Some? {
      assert q[p := Entry(j, waker)][k].fut == i;
    }
  }

  lemma SelectedStays(w: World, last: bool, i: nat)
    requires QueueSound(w.state, w.futs) && FindEntry(w.state.waiters, i).Some?
    ensures var r := Route(w, last);
            FindEntry(r.state.waiters, i).Some? || r.futs[i].mark != Waiting
  {
    NotifyAnswers(w, last);
    var q := w.state.waiters;
    var k, p := if last then |q| - 1 else 0, FindEntry(q, i).value;
    if p != k {
      var q' := q[..k] + q[k + 1..];
      assert q'[if p < k then p else p - 1].fut == i;
    }
  }

  lemma DroppedStays(w: World, j: nat, i: nat)
    requires Inv(w) && i != j && Alive(w.futs, j) && FindEntry(w.state.waiters, i).Some?
    ensures var w' := CancelStep(w, j);
            FindEntry(w'.state.waiters, i).Some? || !Alive(w'.futs, i) || w'.futs[i].mark != Waiting
  {
    var f := w.futs[j].(live := false);
    RemoveSound(w.state, w.futs, j, f);
    RemoveFinds(w.state.waiters, j, i);
    var w1 := w.(state := w.state.(waiters := RemoveWaiter(w.state.waiters, j)), futs := w.futs[j := f]);
    if w.futs[j].mark == One { SelectedStays(w1, false, i); }
  }

  /** One future, never polled, after `n` broadcasts. */
  ghost predicate Unpolled(w: World, n: nat) {
    w.state == State(false, n % WRAP, []) && w.futs == [Fut(Waiting, 0, true, 0)] && w.broadcasts == n
  }

  lemma {:induction false} ExecSnoc(w: World, steps: seq<Step>, step: Step)
    ensures Exec(w, steps + [step]) == Next(Exec(w, steps), step)
    decreases |steps|
  {
    if steps == [] {
      assert [] + [step] == [step] && [step][1..] == [];
    } else {
      assert (steps + [step])[1..] == steps[1..] + [step];
      ExecSnoc(Next(w, steps[0]), steps[1..], step);
    }
  }

  lemma BroadcastOnce(w: World, n: nat)
    requires Unpolled(w, n)
    ensures Unpolled(Next(w, NotifyWaiters), n + 1)
  {
    assert MarkAll(w.futs, []) == w.futs;
    ResidueNext(n, WRAP);
  }

  lemma {:induction false} Broadcasts(n: nat) returns (steps: seq<Step>)
    ensures Unpolled(Exec(Init, steps), n)
  {
    if n == 0 {
      steps := [NewFuture];
      assert [NewFuture][1..] == [];
      assert Exec(Init, steps) == Exec(Next(Init, NewFuture), []);
    } else {
      var before := Broadcasts(n - 1);
      BroadcastOnce(Exec(Init, before), n - 1);
      ExecSnoc(Init, before, NotifyWaiters);
      steps := before + [NotifyWaiters];
    }
  }

  /** The wrap is real: after 2^64 broadcasts a future created before all of them has been reached by none. */
  lemma WrapMissesBroadcasts() returns (steps: seq<Step>)
    ensures var w := Exec(Init, steps);
            w.broadcasts == WRAP && Alive(w.futs, 0) && w.futs[0].born == 0
            && !PollNotified(w.state, w.futs[0], 0, None).ready
  {
    steps := Broadcasts(WRAP);
    BroadcastReaches(steps, 0, None);
  }
}

/** The notification primitive's locked sections as the code performs them. */
module NotifyCode {
  import opened Base
  import N = Notify

  /** `cells` stands for the futures' shared atomics; a dropped future's weak pointer no longer upgrades. */
  class Notify {
    var permit: bool
    var generation: nat
    var waiters: seq<N.Entry>
    var cells: seq<N.Fut>

    function State(): N.State
      reads this
    {
      N.State(permit, generation, waiters)
    }

    constructor ()
      ensures State() == N.Init.state && cells == []
    {
      permit, generation, waiters, cells := false, 0, [], [];
    }

    method NotifyLocked(last: bool) returns (woken: Option<N.Entry>)
      modifies this
      ensures (State(), woken) == N.NotifyLocked(old(State()), old(cells), last)
      ensures cells == if woken.Some? && woken.value.fut < |old(cells)|
                       then old(cells)[woken.value.fut := old(cells)[woken.value.fut].(mark := N.One)] else old(cells)
      ensures woken.Some? ==> N.Alive(old(cells), woken.value.fut) && woken.value in old(waiters)
    {
      while waiters != []
        invariant cells == old(cells) && generation == old(generation) && permit == old(permit)
        invariant forall e :: e in waiters ==> e in old(waiters)
        invariant N.NotifyLocked(State(), cells, last) == N.NotifyLocked(old(State()), old(cells), last)
        decreases |waiters|
      {
        var n := |waiters| - 1;
        var waiter := if last then waiters[n] else waiters[0];
        waiters := if last then waiters[..n] else waiters[1..];
        if N.Alive(cells, waiter.fut) {
          cells := cells[waiter.fut := cells[waiter.fut].(mark := N.One)];
          return Some(waiter);
        }
      }
      permit := true;
      woken := None;
    }

    method RemoveWaiter(i: nat)
      modifies this`waiters
      ensures waiters == N.RemoveWaiter(old(waiters), i)
    {
      var kept, k := [], 0;
      while k < |waiters|
        invariant 0 <= k <= |waiters| && waiters == old(waiters)
        invariant kept + N.RemoveWaiter(waiters[k..], i) == N.RemoveWaiter(old(waiters), i)
      {
        if waiters[k].fut != i {
          kept := kept + [waiters[k]];
        }
        k := k + 1;
      }
      waiters := kept;
    }

    method PollNotified(i: nat, waker: Option<nat>) returns (ready: bool)
      requires N.Alive(cells, i)
      modifies this
      ensures var r := N.PollNotified(old(State()), old(cells)[i], i, waker);
              && State() == r.state && ready == r.ready
              && cells == old(cells)[i := old(cells)[i].(mark := r.mark)]
    {
      if cells[i].mark != N.Waiting || cells[i].generation != generation {
        RemoveWaiter(i);
        cells := cells[i := cells[i].(mark := N.Consumed)];
        return true;
      }
      if permit {
        permit := false;
        RemoveWaiter(i);
        cells := cells[i := cells[i].(mark := N.Consumed)];
        return true;
      }
      var k := 0;
      while k < |waiters| && waiters[k].fut != i
        invariant 0 <= k <= |waiters|
        invariant forall j :: 0 <= j < k ==> waiters[j].fut != i
      {
        k := k + 1;
      }
      if k < |waiters| {
        if waker.Some? {
          waiters := waiters[k := waiters[k].(waker := waker)];
        }
      } else {
        waiters := waiters + [N.Entry(i, waker)];
      }
      ready := false;
    }

    /** Marks the waiter's future, if it is still there, and returns its waker. */
    method Select(waiter: N.Entry) returns (woken: seq<Option<nat>>)
      modifies this`cells
      ensures cells == N.MarkOne(old(cells), waiter.fut)
      ensures woken == if N.Alive(old(cells), waiter.fut) then [waiter.waker] else []
    {
      woken := [];
      if N.Alive(cells, waiter.fut) {
        cells := cells[waiter.fut := cells[waiter.fut].(mark := N.All)];
        woken := [waiter.waker];
      }
    }

    /** Broadcast: drains the queue, marks the living, and returns the wakers to call. */
    method NotifyWaiters() returns (wakers: seq<Option<nat>>)
      modifies this
      ensures var w := N.BroadcastStep(N.World(old(State()), old(cells), 0, 0, 0, 0, 0));
              State() == w.state && cells == w.futs
      ensures wakers == N.LiveWakers(old(waiters), old(cells))
    {
      generation, wakers := (generation + 1) % N.WRAP, [];
      ghost var done: seq<N.Entry> := [];
      N.DrainBegins(waiters, cells);
      while waiters != []
        invariant permit == old(permit) && generation == (old(generation) + 1) % N.WRAP
        invariant N.Draining(old(waiters), old(cells), done, waiters, cells, wakers)
        decreases |waiters|
      {
        N.DrainStep(old(waiters), old(cells), done, waiters, cells, wakers);
        var waiter := waiters[0];
        var woken := Select(waiter);
        waiters := waiters[1..];
        wakers := wakers + woken;
        done := done + [waiter];
      }
      N.DrainEnds(old(waiters), old(cells), done, cells, wakers);
    }

    /** Dropping future `i`: an unconsumed selection is passed on. */
    method Cancel(i: nat) returns (woken: Option<N.Entry>)
      requires N.Alive(cells, i)
      modifies this
      ensures var w := N.CancelStep(N.World(old(State()), old(cells), 0, 0, 0, 0, 0), i);
              State() == w.state && cells == w.futs
      ensures woken.Some? ==> old(cells)[i].mark == N.One && woken.value in old(waiters) && woken.value.fut != i
    {
      N.RemoveWaiterKeeps(waiters, i);
      RemoveWaiter(i);
      var selected := cells[i].mark == N.One;
      cells := cells[i := cells[i].(live := false)];
      woken := None;
      if selected {
        woken := NotifyLocked(false);
      }
    }
  }
}
