/**
  The asynchronous mutex, proved to be a one-permit semaphore on every run,
  although it wakes waiters in fewer places.
 */
module AsyncMutex {
  import opened Base
  import opened WaitQueue
  import S = Semaphore

  datatype Lock = Lock(locked: bool, next: nat, waiters: seq<Waiter<()>>)

  datatype Polled = Polled(lock: Lock, waiter: Option<nat>, granted: bool, wake: Option<Waiter<()>>)

  function Front(m: Lock): Option<Waiter<()>> {
    if m.waiters != [] then Some(m.waiters[0]) else None
  }

  function PollLock(m: Lock, waiter: Option<nat>, waker: nat): Polled {
    match (if waiter.Some? then Position(m.waiters, waiter.value) else None)
    case Some(p) =>
      if p == 0 && !m.locked then
        Polled(m.(locked := true, waiters := m.waiters[1..]), None, true, None)
      else
        Polled(m.(waiters := m.waiters[p := m.waiters[p].(waker := waker)]), waiter, false, None)
    case None =>
      if !m.locked && m.waiters == [] then
        Polled(m.(locked := true), None, true, None)
      else
        Polled(m.(next := NextId(m.next), waiters := m.waiters + [Waiter(m.next, (), waker)]),
               Some(m.next), false, None)
  }

  function TryLock(m: Lock): (Lock, bool) {
    if m.locked || m.waiters != [] then (m, false) else (m.(locked := true), true)
  }

  /** Only a cancelled front waiter on an unlocked mutex passes the wake on. */
  function CancelWaiter(m: Lock, id: nat): (Lock, Option<Waiter<()>>) {
    var wasFront := m.waiters != [] && m.waiters[0].id == id;
    var m' := m.(waiters := Remove(m.waiters, id));
    (m', if wasFront && !m.locked then Front(m') else None)
  }

  function Unlock(m: Lock): (Lock, Option<Waiter<()>>) {
    var m' := m.(locked := false);
    (m', Front(m'))
  }

  // ----- the mutex in use -----

  /** A mutex with its futures; `guards` counts the live guards, plain, owned or mapped. */
  datatype World = World(
    lock: Lock, futs: seq<Future<()>>, guards: nat,
    signalled: set<nat>, hist: History, log: seq<bool>)

  datatype Step =
    | NewFuture
    | Poll(i: nat, waker: nat)
    | DropFuture(i: nat)
    | TryAcquire
    | DropGuard

  const Init: World := World(Lock(false, 1, []), [], 0, {}, History([], {}), [])

  function PollStep(w: World, i: nat, waker: nat): World
    requires i < |w.futs|
  {
    var f := w.futs[i];
    var r := PollLock(w.lock, f.waiter, waker);
    var unpolled := if f.waiter.Some? then w.signalled - {f.waiter.value} else w.signalled;
    w.(lock := r.lock,
       futs := w.futs[i := f.(waiter := r.waiter)],
       guards := if r.granted then w.guards + 1 else w.guards,
       signalled := Signal(unpolled, r.wake),
       hist := if |r.lock.waiters| < |w.lock.waiters|
               then w.hist.(granted := w.hist.granted + [w.lock.waiters[0].id]) else w.hist,
       log := w.log + [r.granted])
  }

  function DropStep(w: World, i: nat): World
    requires i < |w.futs|
  {
    var f := w.futs[i];
    var futs' := w.futs[i := f.(waiter := None, live := false)];
    if f.waiter.None? then w.(futs := futs')
    else
      var (m', wake) := CancelWaiter(w.lock, f.waiter.value);
      w.(lock := m', futs := futs', signalled := Signal(w.signalled, wake),
         hist := if |m'.waiters| < |w.lock.waiters|
                 then w.hist.(gone := w.hist.gone + {f.waiter.value}) else w.hist)
  }

  /** The future exists, and polling it does not need an identifier past the last one. */
  predicate CanPoll(w: World, i: nat, waker: nat) {
    i < |w.futs| && w.futs[i].live
    && (w.lock.next < U64_MAX || PollLock(w.lock, w.futs[i].waiter, waker).lock.next == w.lock.next)
  }

  function Next(w: World, step: Step): World {
    match step
    case NewFuture => w.(futs := w.futs + [Future((), None, true)])
    case Poll(i, waker) =>
      if CanPoll(w, i, waker) then PollStep(w, i, waker) else w
    case DropFuture(i) =>
      if i < |w.futs| && w.futs[i].live then DropStep(w, i) else w
    case TryAcquire =>
      var (m', ok) := TryLock(w.lock);
      w.(lock := m', guards := if ok then w.guards + 1 else w.guards, log := w.log + [ok])
    case DropGuard =>
      if w.guards == 0 then w
      else
        var (m', wake) := Unlock(w.lock);
        w.(lock := m', guards := w.guards - 1, signalled := Signal(w.signalled, wake))
  }

  function Exec(w: World, steps: seq<Step>): World
    decreases |steps|
  {
    if steps == [] then w else Exec(Next(w, steps[0]), steps[1..])
  }

  // ----- the one-permit semaphore it stands for -----

  function AsQueue(q: seq<Waiter<()>>): (r: seq<Waiter<nat>>)
    ensures |r| == |q|
    ensures forall k :: 0 <= k < |q| ==> r[k] == Waiter(q[k].id, 1, q[k].waker)
  {
    seq(|q|, k requires 0 <= k < |q| => Waiter(q[k].id, 1, q[k].waker))
  }

  function AsFutures(futs: seq<Future<()>>): (r: seq<Future<nat>>)
    ensures |r| == |futs|
    ensures forall i :: 0 <= i < |futs| ==> r[i] == Future(1, futs[i].waiter, futs[i].live)
  {
    seq(|futs|, i requires 0 <= i < |futs| => Future(1, futs[i].waiter, futs[i].live))
  }

  function AsSem(m: Lock): S.Sem {
    S.Sem(if m.locked then 0 else 1, false, m.next, AsQueue(m.waiters))
  }

  function AsStep(step: Step): S.Step {
    match step
    case NewFuture => S.NewFuture(1)
    case Poll(i, waker) => S.Poll(i, waker)
    case DropFuture(i) => S.DropFuture(i)
    case TryAcquire => S.TryAcquire(1)
    case DropGuard => S.DropPermit(0)
  }

  function AsSteps(steps: seq<Step>): (r: seq<S.Step>)
    ensures |r| == |steps|
  {
    seq(|steps|, k requires 0 <= k < |steps| => AsStep(steps[k]))
  }

  /** Mutex and semaphore agree on everything but the spare wakes of the semaphore. */
  ghost predicate Simulates(w: World, v: S.World) {
    && v.sem == AsSem(w.lock)
    && v.futs == AsFutures(w.futs)
    && v.held == (if w.lock.locked then [1] else [])
    && w.guards == |v.held|
    && v.hist == w.hist
    && |v.log| == |w.log|
    && (forall k :: 0 <= k < |w.log| ==> (w.log[k] <==> v.log[k] == S.Granted))
  }

  lemma {:induction false} PositionSame(q: seq<Waiter<()>>, id: nat)
    ensures Position(AsQueue(q), id) == Position(q, id)
    ensures AsQueue(Remove(q, id)) == Remove(AsQueue(q), id)
  {
    var p := Position(q, id);
    var p' := Position(AsQueue(q), id);
    if p.Some? {
      assert AsQueue(q)[p.value].id == id;
      assert p'.Some? && !(p'.value < p.value) && !(p.value < p'.value);
    } else {
      assert forall k :: 0 <= k < |q| ==> AsQueue(q)[k].id != id;
    }
  }

  lemma PollSame(m: Lock, waiter: Option<nat>, waker: nat)
    ensures var r := PollLock(m, waiter, waker);
            var r' := S.PollAcquire(AsSem(m), waiter, 1, waker);
            && r'.sem == AsSem(r.lock)
            && r'.waiter == r.waiter
            && (r.granted <==> r'.outcome == S.Granted)
            && r'.wake.None? && r.wake.None?
  {
    if waiter.Some? { PositionSame(m.waiters, waiter.value); }
    var r := PollLock(m, waiter, waker);
    var r' := S.PollAcquire(AsSem(m), waiter, 1, waker);
    assert r'.sem.waiters == AsQueue(r.lock.waiters);
  }

  lemma PollStepSame(w: World, v: S.World, i: nat, waker: nat)
    requires Simulates(w, v) && i < |w.futs| && w.futs[i].live
    ensures Simulates(Next(w, Poll(i, waker)), S.Next(v, AsStep(Poll(i, waker))))
  {
    PollSame(w.lock, w.futs[i].waiter, waker);
    assert S.Next(v, AsStep(Poll(i, waker))).futs == AsFutures(Next(w, Poll(i, waker)).futs);
  }

  lemma DropStepSame(w: World, v: S.World, i: nat)
    requires Simulates(w, v) && i < |w.futs| && w.futs[i].live
    ensures Simulates(Next(w, DropFuture(i)), S.Next(v, AsStep(DropFuture(i))))
  {
    if w.futs[i].waiter.Some? { PositionSame(w.lock.waiters, w.futs[i].waiter.value); }
    assert S.Next(v, AsStep(DropFuture(i))).futs == AsFutures(Next(w, DropFuture(i)).futs);
  }

  lemma StepSame(w: World, v: S.World, step: Step)
    requires Simulates(w, v)
    ensures Simulates(Next(w, step), S.Next(v, AsStep(step)))
  {
    var w', v' := Next(w, step), S.Next(v, AsStep(step));
    match step
    case NewFuture => assert v'.futs == AsFutures(w'.futs);
    case Poll(i, waker) =>
      if i < |w.futs| && w.futs[i].live { PollStepSame(w, v, i, waker); }
    case DropFuture(i) =>
      if i < |w.futs| && w.futs[i].live { DropStepSame(w, v, i); }
    case TryAcquire =>
    case DropGuard =>
  }

  lemma {:induction false} RunSame(w: World, v: S.World, steps: seq<Step>)
    requires Simulates(w, v)
    ensures Simulates(Exec(w, steps), S.Exec(v, AsSteps(steps)))
    decreases |steps|
  {
    if steps != [] {
      StepSame(w, v, steps[0]);
      assert AsSteps(steps)[1..] == AsSteps(steps[1..]);
      RunSame(Next(w, steps[0]), S.Next(v, AsStep(steps[0])), steps[1..]);
    }
  }

  /**
    On every run the mutex has the queue, the grants and the poll and try
    results of a semaphore with one permit driven by the same steps.
   */
  lemma MutexIsOnePermitSemaphore(steps: seq<Step>)
    ensures Simulates(Exec(Init, steps), S.Exec(S.Init(1), AsSteps(steps)))
  {
    RunSame(Init, S.Init(1), steps);
  }

  /** Locked exactly while one guard is alive. */
  lemma MutualExclusion(steps: seq<Step>)
    ensures var w := Exec(Init, steps);
            w.guards <= 1 && (w.lock.locked <==> w.guards == 1)
  {
    MutexIsOnePermitSemaphore(steps);
  }

  // ----- the fewer wakes are enough -----

  ghost predicate FrontSignalled(w: World) {
    !w.lock.locked && w.lock.waiters != [] ==> w.lock.waiters[0].id in w.signalled
  }

  lemma FrontStep(w: World, step: Step)
    requires FrontSignalled(w) && Ordered(w.lock.waiters, w.lock.next)
    ensures FrontSignalled(Next(w, step))
  {
    match step
    case Poll(i, waker) =>
      if i < |w.futs| && w.futs[i].waiter.Some? && w.lock.waiters != [] {
        var id := w.futs[i].waiter.value;
        var p := Position(w.lock.waiters, id);
        if p.Some? && p.value > 0 {
          assert w.lock.waiters[0].id != id;
        }
      }
    case _ =>
  }

  lemma {:induction false} FrontRun(w: World, v: S.World, steps: seq<Step>)
    requires FrontSignalled(w) && Simulates(w, v) && S.Inv(v)
    ensures FrontSignalled(Exec(w, steps))
    decreases |steps|
  {
    if steps != [] {
      assert Ordered(w.lock.waiters, w.lock.next) by {
        var q, q' := w.lock.waiters, v.sem.waiters;
        assert forall k :: 0 <= k < |q| ==> q'[k].id == q[k].id;
      }
      FrontStep(w, steps[0]);
      StepSame(w, v, steps[0]);
      S.StepKeeps(v, AsStep(steps[0]));
      FrontRun(Next(w, steps[0]), S.Next(v, AsStep(steps[0])), steps[1..]);
    }
  }

  /** On every run an unlocked mutex with waiters has already woken the front one. */
  lemma UnlockedFrontIsAwake(steps: seq<Step>)
    ensures FrontSignalled(Exec(Init, steps))
  {
    FrontRun(Init, S.Init(1), steps);
  }
}

/** The mutex's locked sections as the code performs them. */
module AsyncMutexCode {
  import opened Base
  import opened WaitQueue
  import M = AsyncMutex

  class Mutex {
    var locked: bool
    var nextWaiter: nat
    var waiters: seq<Waiter<()>>

    function State(): M.Lock
      reads this
    {
      M.Lock(locked, nextWaiter, waiters)
    }

    constructor ()
      ensures State() == M.Init.lock
    {
      locked, nextWaiter, waiters := false, 1, [];
    }

    method PollLock(waiterId: Option<nat>, waker: nat) returns (waiter: Option<nat>, granted: bool)
      modifies this
      ensures M.Polled(State(), waiter, granted, None) == M.PollLock(old(State()), waiterId, waker)
    {
      if waiterId.Some? {
        var position := Find(waiters, waiterId.value);
        if position == Some(0) && !locked {
          waiters := waiters[1..];
          locked := true;
          return None, true;
        }
        if position.Some? {
          var p := position.value;
          if waiters[p].waker != waker {
            waiters := waiters[p := waiters[p].(waker := waker)];
          }
          return waiterId, false;
        }
      }
      if !locked && waiters == [] {
        locked := true;
        return None, true;
      }
      waiter, granted := Some(nextWaiter), false;
      waiters := waiters + [Waiter(nextWaiter, (), waker)];
      nextWaiter := NextId(nextWaiter);
    }

    method CancelWaiter(waiterId: Option<nat>) returns (wake: Option<Waiter<()>>)
      modifies this
      ensures waiterId.None? ==> State() == old(State()) && wake == None
      ensures waiterId.Some? ==> (State(), wake) == M.CancelWaiter(old(State()), waiterId.value)
    {
      if waiterId.None? {
        return None;
      }
      var id := waiterId.value;
      var wasFront := waiters != [] && waiters[0].id == id;
      var position := Find(waiters, id);
      if position.Some? {
        waiters := Without(waiters, position.value);
      }
      wake := if wasFront && !locked && waiters != [] then Some(waiters[0]) else None;
    }

    method TryLock() returns (ok: bool)
      modifies this
      ensures (State(), ok) == M.TryLock(old(State()))
    {
      if locked || waiters != [] {
        return false;
      }
      locked := true;
      ok := true;
    }

    method Unlock() returns (wake: Option<Waiter<()>>)
      modifies this
      ensures (State(), wake) == M.Unlock(old(State()))
    {
      locked := false;
      wake := if waiters != [] then Some(waiters[0]) else None;
    }
  }
}
