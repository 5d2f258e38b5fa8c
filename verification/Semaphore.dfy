/**
  The fair counting semaphore: what each locked section does to the state, a
  world of futures and permits driven by arbitrary steps, and what every run keeps.
 */
module Semaphore {
  import opened Base
  import opened WaitQueue

  /** `usize::MAX >> 3` on a 64-bit target. */
  const MAX_PERMITS: nat := 0x1FFF_FFFF_FFFF_FFFF

  datatype Sem = Sem(permits: nat, closed: bool, next: nat, waiters: seq<Waiter<nat>>)

  datatype Outcome = Granted | Waiting | Closed | NoPermits

  /** The result of a poll: new state, the future's new ticket, the outcome, the waiter woken. */
  datatype Polled = Polled(sem: Sem, waiter: Option<nat>, outcome: Outcome, wake: Option<Waiter<nat>>)

  datatype Added = Panicked | Added(sem: Sem, wake: Option<Waiter<nat>>)

  /** The front waiter, when its whole request fits. */
  function NextWaker(s: Sem): Option<Waiter<nat>> {
    if s.waiters != [] && s.permits >= s.waiters[0].kind then Some(s.waiters[0]) else None
  }

  function PollAcquire(s: Sem, waiter: Option<nat>, need: nat, waker: nat): Polled {
    if s.closed then Polled(s, None, Closed, None)
    else
      match (if waiter.Some? then Position(s.waiters, waiter.value) else None)
      case Some(p) =>
        if p == 0 && s.permits >= need then
          var s' := s.(permits := s.permits - need, waiters := s.waiters[1..]);
          Polled(s', None, Granted, NextWaker(s'))
        else
          Polled(s.(waiters := s.waiters[p := s.waiters[p].(waker := waker)]), waiter, Waiting, None)
      case None =>
        if s.waiters == [] && s.permits >= need then
          Polled(s.(permits := s.permits - need), None, Granted, None)
        else
          Polled(s.(next := NextId(s.next), waiters := s.waiters + [Waiter(s.next, need, waker)]),
                 Some(s.next), Waiting, None)
  }

  function TryTake(s: Sem, need: nat): (Sem, Outcome) {
    if s.closed then (s, Closed)
    else if s.waiters != [] || s.permits < need then (s, NoPermits)
    else (s.(permits := s.permits - need), Granted)
  }

  function CancelWaiter(s: Sem, id: nat): (Sem, Option<Waiter<nat>>) {
    var s' := s.(waiters := Remove(s.waiters, id));
    (s', NextWaker(s'))
  }

  function AddPermits(s: Sem, n: nat): Added {
    if s.permits + n > MAX_PERMITS then Panicked
    else
      var s' := s.(permits := s.permits + n);
      Added(s', NextWaker(s'))
  }

  function Close(s: Sem): Sem {
    s.(closed := true, waiters := [])
  }

  // ----- the semaphore in use -----

  /**
    A semaphore with its futures and its live permits. `injected` is every
    permit ever put in, `forgotten` those removed for good, `lost` those whose
    return panicked. `signalled` holds the tickets whose waker has been called
    since their future was last polled.
   */
  datatype World = World(
    sem: Sem, futs: seq<Future<nat>>, held: seq<nat>,
    forgotten: nat, lost: nat, injected: nat,
    signalled: set<nat>, hist: History, log: seq<Outcome>)

  datatype Step =
    | NewFuture(need: nat)
    | Poll(i: nat, waker: nat)
    | DropFuture(i: nat)
    | TryAcquire(n: nat)
    | Add(n: nat)
    | ForgetAvailable(n: nat)
    | CloseAll
    | DropPermit(k: nat)
    | ForgetPermit(k: nat)
    | Merge(into: nat, from: nat)
    | Split(k: nat, n: nat)

  function Init(permits: nat): World {
    World(Sem(permits, false, 1, []), [], [], 0, 0, permits, {}, History([], {}), [])
  }

  function PollStep(w: World, i: nat, waker: nat): World
    requires i < |w.futs|
  {
    var f := w.futs[i];
    var r := PollAcquire(w.sem, f.waiter, f.kind, waker);
    var unpolled := if f.waiter.Some? then w.signalled - {f.waiter.value} else w.signalled;
    w.(sem := r.sem,
       futs := w.futs[i := f.(waiter := r.waiter)],
       held := if r.outcome == Granted then w.held + [f.kind] else w.held,
       signalled := Signal(unpolled, r.wake),
       hist := if |r.sem.waiters| < |w.sem.waiters|
               then w.hist.(granted := w.hist.granted + [w.sem.waiters[0].id]) else w.hist,
       log := w.log + [r.outcome])
  }

  function DropStep(w: World, i: nat): World
    requires i < |w.futs|
  {
    var f := w.futs[i];
    var futs' := w.futs[i := f.(waiter := None, live := false)];
    if f.waiter.None? then w.(futs := futs')
    else
      var (s', wake) := CancelWaiter(w.sem, f.waiter.value);
      w.(sem := s', futs := futs', signalled := Signal(w.signalled, wake),
         hist := if |s'.waiters| < |w.sem.waiters|
                 then w.hist.(gone := w.hist.gone + {f.waiter.value}) else w.hist)
  }

  function AddStep(w: World, n: nat): World {
    match AddPermits(w.sem, n)
    case Panicked => w
    case Added(s', wake) => w.(sem := s', injected := w.injected + n, signalled := Signal(w.signalled, wake))
  }

  function ReturnStep(w: World, k: nat): World
    requires k < |w.held|
  {
    match AddPermits(w.sem, w.held[k])
    case Panicked => w.(held := Without(w.held, k), lost := w.lost + w.held[k])
    case Added(s', wake) => w.(sem := s', held := Without(w.held, k), signalled := Signal(w.signalled, wake))
  }

  function CloseStep(w: World): World {
    var drained := set k | 0 <= k < |w.sem.waiters| :: w.sem.waiters[k].id;
    w.(sem := Close(w.sem), signalled := w.signalled + drained, hist := w.hist.(gone := w.hist.gone + drained))
  }

  /** The future exists, and polling it does not need an identifier past the last one. */
  predicate CanPoll(w: World, i: nat, waker: nat) {
    i < |w.futs| && w.futs[i].live
    && (w.sem.next < U64_MAX || PollAcquire(w.sem, w.futs[i].waiter, w.futs[i].kind, waker).sem.next == w.sem.next)
  }

  /** One step; a step whose future or permit does not exist changes nothing. */
  function Next(w: World, step: Step): World {
    match step
    case NewFuture(need) => w.(futs := w.futs + [Future(need, None, true)])
    case Poll(i, waker) =>
      if CanPoll(w, i, waker) then PollStep(w, i, waker) else w
    case DropFuture(i) =>
      if i < |w.futs| && w.futs[i].live then DropStep(w, i) else w
    case TryAcquire(n) =>
      var (s', o) := TryTake(w.sem, n);
      w.(sem := s', held := if o == Granted then w.held + [n] else w.held, log := w.log + [o])
    case Add(n) => AddStep(w, n)
    case ForgetAvailable(n) =>
      var m := Min(w.sem.permits, n);
      w.(sem := w.sem.(permits := w.sem.permits - m), forgotten := w.forgotten + m)
    case CloseAll => CloseStep(w)
    case DropPermit(k) => if k < |w.held| then ReturnStep(w, k) else w
    case ForgetPermit(k) =>
      if k < |w.held| then w.(held := Without(w.held, k), forgotten := w.forgotten + w.held[k]) else w
    case Merge(into, from) =>
      if into < |w.held| && from < |w.held| && into != from
      then w.(held := w.held[into := w.held[into] + w.held[from]][from := 0]) else w
    case Split(k, n) =>
      if k < |w.held| && n <= w.held[k]
      then w.(held := w.held[k := w.held[k] - n] + [n]) else w
  }

  function Exec(w: World, steps: seq<Step>): World
    decreases |steps|
  {
    if steps == [] then w else Exec(Next(w, steps[0]), steps[1..])
  }

  // ----- what every run keeps -----

  /** No permit appears from nowhere or vanishes. */
  ghost predicate Conserved(w: World) {
    && w.sem.permits + Sum(w.held) + w.forgotten + w.lost == w.injected
    && (w.lost > 0 ==> w.injected > MAX_PERMITS)
  }

  /** A front request that fits has already been signalled. */
  ghost predicate FrontSignalled(s: Sem, signalled: set<nat>) {
    s.waiters != [] && s.permits >= s.waiters[0].kind ==> s.waiters[0].id in signalled
  }

  /** After a close the queue stays empty, and every future still holding a ticket was woken. */
  ghost predicate ClosedWoken(s: Sem, futs: seq<Future<nat>>, signalled: set<nat>) {
    s.closed ==>
      && s.waiters == []
      && forall i :: 0 <= i < |futs| && futs[i].waiter.Some? ==> futs[i].waiter.value in signalled
  }

  ghost predicate Orderly(s: Sem, futs: seq<Future<nat>>, signalled: set<nat>, hist: History) {
    && 1 <= s.next <= U64_MAX
    && FrontSignalled(s, signalled)
    && ClosedWoken(s, futs, signalled)
    && FirstComeFirstServed(s.waiters, hist, s.next)
    && (!s.closed ==> Linked(s.waiters, futs, s.next))
    && DistinctTickets(futs)
  }

  ghost predicate Inv(w: World) {
    Conserved(w) && Orderly(w.sem, w.futs, w.signalled, w.hist)
  }

  /** Polling a future that holds a ticket: granted at the front, or still waiting. */
  lemma PollTicketKeeps(w: World, i: nat, waker: nat)
    requires Orderly(w.sem, w.futs, w.signalled, w.hist)
    requires i < |w.futs| && w.futs[i].live && w.futs[i].waiter.Some? && !w.sem.closed
    ensures var w' := PollStep(w, i, waker); Orderly(w'.sem, w'.futs, w'.signalled, w'.hist)
  {
    var f, q := w.futs[i], w.sem.waiters;
    TicketRequest(q, w.futs, w.sem.next, i);
    var p := Position(q, f.waiter.value).value;
    if p == 0 && w.sem.permits >= f.kind {
      LinkedLeave(q, w.futs, w.sem.next, i, true);
      assert Remove(q, f.waiter.value) == q[1..];
      FcfsGrant(q, w.hist, w.sem.next);
    } else {
      assert w.futs[i := f.(waiter := f.waiter)] == w.futs;
      LinkedRewake(q, w.futs, w.sem.next, p, waker);
      FcfsRewake(q, w.hist, w.sem.next, p, waker);
    }
  }

  /** Polling a future without a ticket: granted if nobody waits, queued otherwise. */
  lemma PollFreshKeeps(w: World, i: nat, waker: nat)
    requires Orderly(w.sem, w.futs, w.signalled, w.hist)
    requires CanPoll(w, i, waker) && w.futs[i].waiter.None? && !w.sem.closed
    ensures var w' := PollStep(w, i, waker); Orderly(w'.sem, w'.futs, w'.signalled, w'.hist)
  {
    var f, q := w.futs[i], w.sem.waiters;
    if q == [] && w.sem.permits >= f.kind {
      assert w.futs[i := f.(waiter := None)] == w.futs;
    } else {
      LinkedEnqueue(q, w.futs, w.sem.next, i, waker);
      FcfsEnqueue(q, w.hist, w.sem.next, f.kind, waker);
    }
  }

  lemma PollConserves(w: World, i: nat, waker: nat)
    requires Inv(w) && i < |w.futs|
    ensures Conserved(PollStep(w, i, waker))
  {
    SumSnoc(w.held, w.futs[i].kind);
  }

  lemma PollKeeps(w: World, i: nat, waker: nat)
    requires Inv(w) && CanPoll(w, i, waker)
    ensures Inv(PollStep(w, i, waker))
  {
    PollConserves(w, i, waker);
    if w.sem.closed {
    } else if w.futs[i].waiter.Some? {
      PollTicketKeeps(w, i, waker);
    } else {
      PollFreshKeeps(w, i, waker);
    }
  }

  lemma DropKeeps(w: World, i: nat)
    requires Inv(w) && i < |w.futs| && w.futs[i].live
    ensures Inv(DropStep(w, i))
  {
    var f := w.futs[i];
    var q := w.sem.waiters;
    if w.sem.closed {
    } else if f.waiter.None? {
      LinkedIdle(q, w.futs, DropStep(w, i).futs, w.sem.next);
    } else {
      LinkedLeave(q, w.futs, w.sem.next, i, false);
      FcfsCancel(q, w.hist, w.sem.next, f.waiter.value);
    }
  }

  lemma CloseKeeps(w: World)
    requires Inv(w)
    ensures Inv(CloseStep(w))
  {
    var q := w.sem.waiters;
    var w' := CloseStep(w);
    forall id | 1 <= id < w.sem.next ensures id in w'.hist.granted || id in w'.hist.gone {
      if InLine(q, id) {
        var k :| 0 <= k < |q| && q[k].id == id;
      }
    }
    forall i | 0 <= i < |w'.futs| && w'.futs[i].waiter.Some? ensures w'.futs[i].waiter.value in w'.signalled {
      if !w.sem.closed {
        assert Queued(q, w.futs[i]);
      }
    }
  }

  lemma MergeConserves(held: seq<nat>, into: nat, from: nat)
    requires into < |held| && from < |held| && into != from
    ensures Sum(held[into := held[into] + held[from]][from := 0]) == Sum(held)
  {
    SumUpdate(held, into, held[into] + held[from]);
    SumUpdate(held[into := held[into] + held[from]], from, 0);
  }

  lemma SplitConserves(held: seq<nat>, k: nat, n: nat)
    requires k < |held| && n <= held[k]
    ensures Sum(held[k := held[k] - n] + [n]) == Sum(held)
  {
    var rest := held[k := held[k] - n];
    assert Sum(rest) == Sum(held) - n by { SumUpdate(held, k, held[k] - n); }
    assert Sum(rest + [n]) == Sum(rest) + n by { SumSnoc(rest, n); }
  }

  lemma TryConserves(w: World, n: nat)
    requires Conserved(w)
    ensures Conserved(Next(w, TryAcquire(n)))
  {
    SumSnoc(w.held, n);
  }

  lemma ReturnConserves(w: World, k: nat)
    requires Conserved(w) && k < |w.held|
    ensures Conserved(Next(w, DropPermit(k))) && Conserved(Next(w, ForgetPermit(k)))
  {
    SumWithout(w.held, k);
  }

  lemma PermitsConserve(w: World, step: Step)
    requires Conserved(w)
    requires step.DropPermit? || step.ForgetPermit? || step.Merge? || step.Split? || step.TryAcquire?
    ensures Conserved(Next(w, step))
  {
    match step
    case TryAcquire(n) => TryConserves(w, n);
    case DropPermit(k) => if k < |w.held| { ReturnConserves(w, k); }
    case ForgetPermit(k) => if k < |w.held| { ReturnConserves(w, k); }
    case Merge(into, from) =>
      if into < |w.held| && from < |w.held| && into != from { MergeConserves(w.held, into, from); }
    case Split(k, n) =>
      if k < |w.held| && n <= w.held[k] { SplitConserves(w.held, k, n); }
  }

  /** Permits come or go; the queue stays, and wakes are only added. */
  lemma PermitsKeepOrder(w: World, w': World)
    requires Orderly(w.sem, w.futs, w.signalled, w.hist)
    requires w'.sem == w.sem.(permits := w'.sem.permits) && w'.futs == w.futs && w'.hist == w.hist
    requires w.signalled <= w'.signalled && FrontSignalled(w'.sem, w'.signalled)
    ensures Orderly(w'.sem, w'.futs, w'.signalled, w'.hist)
  {
  }

  lemma SupplyKeeps(w: World, step: Step)
    requires Inv(w) && (step.Add? || step.ForgetAvailable?)
    ensures Inv(Next(w, step))
  {
    PermitsKeepOrder(w, Next(w, step));
  }

  lemma PermitStepOrder(w: World, step: Step)
    requires Orderly(w.sem, w.futs, w.signalled, w.hist)
    requires step.DropPermit? || step.ForgetPermit? || step.Merge? || step.Split? || step.TryAcquire?
    ensures var w' := Next(w, step); Orderly(w'.sem, w'.futs, w'.signalled, w'.hist)
  {
    PermitsKeepOrder(w, Next(w, step));
  }

  lemma NewKeeps(w: World, need: nat)
    requires Inv(w)
    ensures Inv(Next(w, NewFuture(need)))
  {
    if !w.sem.closed {
      LinkedIdle(w.sem.waiters, w.futs, w.futs + [Future(need, None, true)], w.sem.next);
    }
  }

  lemma StepKeeps(w: World, step: Step)
    requires Inv(w)
    ensures Inv(Next(w, step))
  {
    match step
    case NewFuture(need) => NewKeeps(w, need);
    case Poll(i, waker) =>
      if CanPoll(w, i, waker) { PollKeeps(w, i, waker); }
    case DropFuture(i) =>
      if i < |w.futs| && w.futs[i].live { DropKeeps(w, i); }
    case Add(n) => SupplyKeeps(w, step);
    case ForgetAvailable(n) => SupplyKeeps(w, step);
    case CloseAll => CloseKeeps(w);
    case _ =>
      PermitsConserve(w, step);
      PermitStepOrder(w, step);
  }

  lemma {:induction false} RunKeeps(w: World, steps: seq<Step>)
    requires Inv(w)
    ensures Inv(Exec(w, steps))
    decreases |steps|
  {
    if steps != [] {
      StepKeeps(w, steps[0]);
      RunKeeps(Next(w, steps[0]), steps[1..]);
    }
  }

  /** The whole invariant, from any number of initial permits, after any steps. */
  lemma EveryRun(permits: nat, steps: seq<Step>)
    ensures Inv(Exec(Init(permits), steps))
  {
    RunKeeps(Init(permits), steps);
  }

  /** Permits are conserved, and while the total stays within the limit no return panics. */
  lemma PermitsConserved(permits: nat, steps: seq<Step>)
    ensures var w := Exec(Init(permits), steps);
            && w.sem.permits + Sum(w.held) + w.forgotten + w.lost == w.injected
            && (w.injected <= MAX_PERMITS ==>
                  && w.lost == 0
                  && forall k :: 0 <= k < |w.held| ==> AddPermits(w.sem, w.held[k]).Added?)
  {
    EveryRun(permits, steps);
    var w := Exec(Init(permits), steps);
    forall k | 0 <= k < |w.held| ensures w.held[k] <= Sum(w.held) {
      SumUpdate(w.held, k, 0);
    }
  }

  /** `add_permits` checks only the available count, so a later return can still panic. */
  lemma ReturnCanPanic()
    ensures var w := Exec(Init(MAX_PERMITS), [TryAcquire(1), Add(1)]);
            w.held == [1] && AddPermits(w.sem, 1).Panicked?
  {
    var w0 := Init(MAX_PERMITS);
    var w1 := Next(w0, TryAcquire(1));
    var w2 := Next(w1, Add(1));
    assert Exec(w2, []) == w2;
    assert Exec(w1, [Add(1)]) == Exec(w2, [Add(1)][1..]);
    assert Exec(w0, [TryAcquire(1), Add(1)]) == Exec(w1, [TryAcquire(1), Add(1)][1..]);
  }

  /** Dropping every live permit, oldest first. */
  function ReturnAll(n: nat): seq<Step> {
    if n == 0 then [] else [DropPermit(0)] + ReturnAll(n - 1)
  }

  /** Lost permits stay lost. */
  lemma {:induction false} LossesStay(w: World, n: nat)
    requires n <= |w.held|
    ensures Exec(w, ReturnAll(n)).lost >= w.lost
    decreases n
  {
    if n > 0 {
      assert ReturnAll(n)[1..] == ReturnAll(n - 1);
      LossesStay(ReturnStep(w, 0), n - 1);
    }
  }

  lemma ReturnOne(w: World)
    requires w.held != [] && w.sem.permits <= MAX_PERMITS
    ensures var w' := ReturnStep(w, 0);
            && w'.held == w.held[1..] && w'.sem.permits <= MAX_PERMITS
            && (if w.sem.permits + w.held[0] > MAX_PERMITS then w'.lost > w.lost
                else w'.lost == w.lost && w'.sem.permits + Sum(w'.held) == w.sem.permits + Sum(w.held))
  {
    assert Without(w.held, 0) == w.held[1..];
  }

  /** Exactly when returning panics: all live permits can be returned if and only if the permits in circulation fit. */
  lemma {:induction false} ReturnsSucceedExactly(w: World)
    requires w.sem.permits <= MAX_PERMITS
    ensures Exec(w, ReturnAll(|w.held|)).lost == w.lost <==> w.sem.permits + Sum(w.held) <= MAX_PERMITS
    decreases |w.held|
  {
    if w.held != [] {
      var w', n := ReturnStep(w, 0), |w.held| - 1;
      assert ReturnAll(n + 1)[1..] == ReturnAll(n);
      ReturnOne(w);
      if w.sem.permits + w.held[0] > MAX_PERMITS {
        LossesStay(w', n);
      } else {
        ReturnsSucceedExactly(w');
      }
    }
  }

  /** The front waiter always belongs to a live future, which has been woken if its request fits. */
  lemma FrontNeverStranded(permits: nat, steps: seq<Step>)
    requires Exec(Init(permits), steps).sem.waiters != []
    ensures var w := Exec(Init(permits), steps);
            var front := w.sem.waiters[0];
            && Owned(w.futs, front.id)
            && (w.sem.permits >= front.kind ==> front.id in w.signalled)
  {
    EveryRun(permits, steps);
  }

  /** On an open semaphore a future that holds a ticket is always found in the queue. */
  lemma TicketIsFound(permits: nat, steps: seq<Step>, i: nat)
    requires var w := Exec(Init(permits), steps);
             !w.sem.closed && i < |w.futs| && w.futs[i].waiter.Some?
    ensures var w := Exec(Init(permits), steps);
            var p := Position(w.sem.waiters, w.futs[i].waiter.value);
            p.Some? && w.sem.waiters[p.value].kind == w.futs[i].kind
  {
    EveryRun(permits, steps);
    var w := Exec(Init(permits), steps);
    TicketRequest(w.sem.waiters, w.futs, w.sem.next, i);
  }

  // ----- what each call answers -----

  /** Nobody waits, or the future itself holds the front ticket. */
  predicate NobodyAhead(w: World, i: nat)
    requires i < |w.futs|
  {
    w.sem.waiters == [] || w.futs[i].waiter == Some(w.sem.waiters[0].id)
  }

  /** A ticket in the queue with the request and the waker of the last poll. */
  predicate WaitsWith(w: World, i: nat, waker: nat)
    requires i < |w.futs|
  {
    w.futs[i].waiter.Some?
    && var p := Position(w.sem.waiters, w.futs[i].waiter.value);
       p.Some? && w.sem.waiters[p.value].kind == w.futs[i].kind && w.sem.waiters[p.value].waker == waker
  }

  /**
    A poll reports a close exactly on a closed semaphore, grants exactly when
    the request fits and nobody is ahead, and otherwise leaves the future in
    line with the waker it was polled with.
   */
  lemma PollAnswers(w: World, i: nat, waker: nat)
    requires Inv(w) && CanPoll(w, i, waker)
    ensures var w' := Next(w, Poll(i, waker));
            var fits := w.sem.permits >= w.futs[i].kind && NobodyAhead(w, i);
            && w'.log == w.log + [if w.sem.closed then Closed else if fits then Granted else Waiting]
            && (if w'.log[|w.log|] == Waiting then WaitsWith(w', i, waker) else w'.futs[i].waiter.None?)
            && w'.held == if w'.log[|w.log|] == Granted then w.held + [w.futs[i].kind] else w.held
  {
    if !w.sem.closed {
      if w.futs[i].waiter.Some? {
        TicketRequest(w.sem.waiters, w.futs, w.sem.next, i);
        TicketPlace(w, i, waker);
      } else {
        FreshPlace(w, i, waker);
      }
    }
  }

  lemma TicketPlace(w: World, i: nat, waker: nat)
    requires Inv(w) && CanPoll(w, i, waker) && !w.sem.closed && w.futs[i].waiter.Some?
    ensures var p := Position(w.sem.waiters, w.futs[i].waiter.value);
            p.Some? && (p.value == 0 <==> NobodyAhead(w, i))
    ensures !(w.sem.permits >= w.futs[i].kind && NobodyAhead(w, i)) ==> WaitsWith(PollStep(w, i, waker), i, waker)
  {
    var q, id := w.sem.waiters, w.futs[i].waiter.value;
    TicketRequest(q, w.futs, w.sem.next, i);
    var p := Position(q, id).value;
    PositionAt(q, w.sem.next, 0);
    var q' := q[p := q[p].(waker := waker)];
    assert Ordered(q', w.sem.next) && q'[p].id == id;
    PositionAt(q', w.sem.next, p);
  }

  lemma FreshPlace(w: World, i: nat, waker: nat)
    requires Inv(w) && CanPoll(w, i, waker) && !w.sem.closed && w.futs[i].waiter.None?
    ensures NobodyAhead(w, i) <==> w.sem.waiters == []
    ensures !(w.sem.permits >= w.futs[i].kind && NobodyAhead(w, i)) ==> WaitsWith(PollStep(w, i, waker), i, waker)
  {
    var q, next := w.sem.waiters, w.sem.next;
    if !(w.sem.permits >= w.futs[i].kind && q == []) {
      var q' := q + [Waiter(next, w.futs[i].kind, waker)];
      assert Ordered(q', next + 1) && q'[|q|].id == next;
      PositionAt(q', next + 1, |q|);
    }
  }

  /** A try reports a close exactly on a closed semaphore, and succeeds exactly when nobody waits and enough is there. */
  lemma TryAnswers(w: World, n: nat)
    ensures var w' := Next(w, TryAcquire(n));
            var ok := !w.sem.closed && w.sem.waiters == [] && w.sem.permits >= n;
            && w'.log == w.log + [if w.sem.closed then Closed else if ok then Granted else NoPermits]
            && w'.held == (if ok then w.held + [n] else w.held)
            && w'.sem == (if ok then w.sem.(permits := w.sem.permits - n) else w.sem)
  {
  }

  lemma {:induction false} ClosedRun(w: World, steps: seq<Step>)
    requires w.sem.closed
    ensures Exec(w, steps).sem.closed
    decreases |steps|
  {
    if steps != [] { ClosedRun(Next(w, steps[0]), steps[1..]); }
  }

  /** After a close, on every later run, every poll that is made reports it. */
  lemma CloseIsFinal(permits: nat, before: seq<Step>, after: seq<Step>, i: nat, waker: nat)
    requires var w := Exec(Next(Exec(Init(permits), before), CloseAll), after); CanPoll(w, i, waker)
    ensures var w := Exec(Next(Exec(Init(permits), before), CloseAll), after);
            Next(w, Poll(i, waker)).log == w.log + [Closed]
  {
    EveryRun(permits, before);
    var w := Next(Exec(Init(permits), before), CloseAll);
    StepKeeps(Exec(Init(permits), before), CloseAll);
    RunKeeps(w, after);
    ClosedRun(w, after);
    PollAnswers(Exec(w, after), i, waker);
  }

  /**
    No barging: while someone waits, a step can hand out permits only to the
    future whose ticket is at the front, and only for its whole request.
   */
  lemma NoBarging(w: World, step: Step)
    requires Inv(w) && w.sem.waiters != [] && Next(w, step).log != w.log && Next(w, step).log[|w.log|] == Granted
    ensures step.Poll? && w.futs[step.i].waiter == Some(w.sem.waiters[0].id)
    ensures Next(w, step).held == w.held + [w.sem.waiters[0].kind]
    ensures Next(w, step).hist.granted == w.hist.granted + [w.sem.waiters[0].id]
  {
    TicketRequest(w.sem.waiters, w.futs, w.sem.next, step.i);
  }
}

/** The semaphore's locked sections as the code performs them. */
module SemaphoreCode {
  import opened Base
  import opened WaitQueue
  import S = Semaphore

  class Semaphore {
    var permits: nat
    var closed: bool
    var nextWaiter: nat
    var waiters: seq<Waiter<nat>>

    function State(): S.Sem
      reads this
    {
      S.Sem(permits, closed, nextWaiter, waiters)
    }

    constructor (initial: nat)
      requires initial <= S.MAX_PERMITS
      ensures State() == S.Init(initial).sem
    {
      permits, closed, nextWaiter, waiters := initial, false, 1, [];
    }

    method PollAcquire(waiterId: Option<nat>, need: nat, waker: nat)
      returns (waiter: Option<nat>, outcome: S.Outcome, wake: Option<Waiter<nat>>)
      modifies this
      ensures S.Polled(State(), waiter, outcome, wake) == S.PollAcquire(old(State()), waiterId, need, waker)
    {
      if closed {
        return None, S.Closed, None;
      }
      if waiterId.Some? {
        var position := Find(waiters, waiterId.value);
        if position == Some(0) && permits >= need {
          waiters := waiters[1..];
          permits := permits - need;
          return None, S.Granted, S.NextWaker(State());
        }
        if position.Some? {
          var p := position.value;
          if waiters[p].waker != waker {
            waiters := waiters[p := waiters[p].(waker := waker)];
          }
          return waiterId, S.Waiting, None;
        }
      }
      if waiters == [] && permits >= need {
        permits := permits - need;
        return None, S.Granted, None;
      }
      waiter, outcome, wake := Some(nextWaiter), S.Waiting, None;
      waiters := waiters + [Waiter(nextWaiter, need, waker)];
      nextWaiter := NextId(nextWaiter);
    }

    method CancelWaiter(waiterId: Option<nat>) returns (wake: Option<Waiter<nat>>)
      modifies this
      ensures waiterId.None? ==> State() == old(State()) && wake == None
      ensures waiterId.Some? ==> (State(), wake) == S.CancelWaiter(old(State()), waiterId.value)
    {
      if waiterId.None? {
        return None;
      }
      var position := Find(waiters, waiterId.value);
      if position.Some? {
        waiters := Without(waiters, position.value);
      }
      wake := S.NextWaker(State());
    }

    method TryTake(need: nat) returns (outcome: S.Outcome)
      modifies this
      ensures (State(), outcome) == S.TryTake(old(State()), need)
    {
      if closed {
        return S.Closed;
      }
      if waiters != [] || permits < need {
        return S.NoPermits;
      }
      permits := permits - need;
      outcome := S.Granted;
    }

    /** The code's panic is the result `Panicked`, with the state left alone. */
    method AddPermits(n: nat) returns (r: S.Added)
      modifies this
      ensures r == S.AddPermits(old(State()), n)
      ensures State() == if r.Added? then r.sem else old(State())
    {
      if permits + n > S.MAX_PERMITS {
        return S.Panicked;
      }
      permits := permits + n;
      r := S.Added(State(), S.NextWaker(State()));
    }

    method ForgetPermits(n: nat) returns (reduced: nat)
      modifies this
      ensures reduced == Min(old(permits), n)
      ensures State() == old(State()).(permits := old(permits) - reduced)
    {
      reduced := Min(permits, n);
      permits := permits - reduced;
    }

    /** Closing wakes every waiter, in queue order. */
    method Close() returns (wakers: seq<nat>)
      modifies this
      ensures State() == S.Close(old(State()))
      ensures |wakers| == |old(waiters)|
      ensures forall k :: 0 <= k < |wakers| ==> wakers[k] == old(waiters)[k].waker
    {
      closed, wakers := true, [];
      while waiters != []
        invariant |wakers| <= |old(waiters)| && waiters == old(waiters)[|wakers|..]
        invariant forall k :: 0 <= k < |wakers| ==> wakers[k] == old(waiters)[k].waker
        invariant closed && permits == old(permits) && nextWaiter == old(nextWaiter)
        decreases |waiters|
      {
        wakers, waiters := wakers + [waiters[0].waker], waiters[1..];
      }
    }
  }
}
