/**
  The asynchronous read-write lock: exclusion between guards, first-come
  first-served queueing, and when a waiting front is sure to have been woken.
 */
module RwLock {
  import opened Base
  import opened WaitQueue

  /** `u32::MAX >> 3`, the largest reader limit. */
  const MAX_READERS: nat := 0x1FFF_FFFF

  datatype Kind = Read | Write

  datatype Lock = Lock(readers: nat, maxReaders: nat, writer: bool, next: nat, waiters: seq<Waiter<Kind>>)

  datatype Polled = Polled(lock: Lock, waiter: Option<nat>, granted: bool, wake: Option<Waiter<Kind>>)

  predicate CanAcquire(s: Lock, kind: Kind) {
    match kind
    case Read => !s.writer && s.readers < s.maxReaders
    case Write => !s.writer && s.readers == 0
  }

  function NextWaker(s: Lock): Option<Waiter<Kind>> {
    if s.waiters != [] && CanAcquire(s, s.waiters[0].kind) then Some(s.waiters[0]) else None
  }

  function Grant(s: Lock, kind: Kind): Lock {
    match kind
    case Read => s.(readers := s.readers + 1)
    case Write => s.(writer := true)
  }

  function PollLock(s: Lock, waiter: Option<nat>, kind: Kind, waker: nat): Polled {
    match (if waiter.Some? then Position(s.waiters, waiter.value) else None)
    case Some(p) =>
      if p == 0 && CanAcquire(s, kind) then
        var s' := Grant(s.(waiters := s.waiters[1..]), kind);
        Polled(s', None, true, if kind == Read then NextWaker(s') else None)
      else
        Polled(s.(waiters := s.waiters[p := s.waiters[p].(waker := waker)]), waiter, false, None)
    case None =>
      if s.waiters == [] && CanAcquire(s, kind) then
        Polled(Grant(s, kind), None, true, None)
      else
        Polled(s.(next := NextId(s.next), waiters := s.waiters + [Waiter(s.next, kind, waker)]),
               Some(s.next), false, None)
  }

  /** `try_read` does not consult the reader limit. */
  function TryRead(s: Lock): (Lock, bool) {
    if s.writer || s.waiters != [] then (s, false) else (Grant(s, Read), true)
  }

  function TryWrite(s: Lock): (Lock, bool) {
    if s.writer || s.readers != 0 || s.waiters != [] then (s, false) else (Grant(s, Write), true)
  }

  function CancelWaiter(s: Lock, id: nat): (Lock, Option<Waiter<Kind>>) {
    var s' := s.(waiters := Remove(s.waiters, id));
    (s', NextWaker(s'))
  }

  /** Only the last reader to leave passes the wake on. */
  function ReleaseRead(s: Lock): (Lock, Option<Waiter<Kind>>)
    requires s.readers > 0
  {
    var s' := s.(readers := s.readers - 1);
    (s', if s'.readers == 0 then NextWaker(s') else None)
  }

  function ReleaseWrite(s: Lock): (Lock, Option<Waiter<Kind>>) {
    var s' := s.(writer := false);
    (s', NextWaker(s'))
  }

  function DowngradeWrite(s: Lock): (Lock, Option<Waiter<Kind>>) {
    var s' := s.(writer := false, readers := s.readers + 1);
    (s', NextWaker(s'))
  }

  // ----- the lock in use -----

  /** A guard value, owned or borrowed; a guard consumed by mapping or downgrading is `Moved`. */
  datatype Guard = ReadGuard | WriteGuard | MappedWriteGuard | Moved | Dropped

  datatype World = World(
    lock: Lock, futs: seq<Future<Kind>>, guards: seq<Guard>,
    signalled: set<nat>, hist: History, log: seq<bool>)

  datatype Step =
    | NewFuture(kind: Kind)
    | Poll(i: nat, waker: nat)
    | DropFuture(i: nat)
    | TryAcquire(kind: Kind)
    | MapGuard(g: nat)
    | Downgrade(g: nat)
    | DropGuard(g: nat)

  function Init(maxReaders: nat): World {
    World(Lock(0, maxReaders, false, 1, []), [], [], {}, History([], {}), [])
  }

  function GuardFor(kind: Kind): Guard {
    if kind == Read then ReadGuard else WriteGuard
  }

  function PollStep(w: World, i: nat, waker: nat): World
    requires i < |w.futs|
  {
    var f := w.futs[i];
    var r := PollLock(w.lock, f.waiter, f.kind, waker);
    var unpolled := if f.waiter.Some? then w.signalled - {f.waiter.value} else w.signalled;
    w.(lock := r.lock,
       futs := w.futs[i := f.(waiter := r.waiter)],
       guards := if r.granted then w.guards + [GuardFor(f.kind)] else w.guards,
       signalled := Signal(unpolled, r.wake),
       hist := if |r.lock.waiters| < |w.lock.waiters|
               then w.hist.(granted := w.hist.granted + [w.lock.waiters[0].id]) else w.hist,
       log := w.log + [r.granted])
  }

  function DropStep(w: World, i: nat): World
    requires i < |w.futs|
  {
    var f := w.futs[i];
    var futs' := w.futs[i := f.(waiter := None, live := false)];
    if f.waiter.None? then w.(futs := futs')
    else
      var (s', wake) := CancelWaiter(w.lock, f.waiter.value);
      w.(lock := s', futs := futs', signalled := Signal(w.signalled, wake),
         hist := if |s'.waiters| < |w.lock.waiters|
                 then w.hist.(gone := w.hist.gone + {f.waiter.value}) else w.hist)
  }

  function GuardStep(w: World, step: Step): World
    requires step.MapGuard? || step.Downgrade? || step.DropGuard?
    requires step.g < |w.guards|
  {
    match step
    case MapGuard(g) =>
      (match w.guards[g]
       case ReadGuard => w.(guards := w.guards[g := Moved] + [ReadGuard])
       case WriteGuard => w.(guards := w.guards[g := Moved] + [MappedWriteGuard])
       case MappedWriteGuard => w.(guards := w.guards[g := Moved] + [MappedWriteGuard])
       case _ => w)
    case Downgrade(g) =>
      if w.guards[g] != WriteGuard then w
      else
        var (s', wake) := DowngradeWrite(w.lock);
        w.(lock := s', guards := w.guards[g := Moved] + [ReadGuard], signalled := Signal(w.signalled, wake))
    case DropGuard(g) =>
      match w.guards[g]
      case ReadGuard =>
        if w.lock.readers == 0 then w
        else
          var (s', wake) := ReleaseRead(w.lock);
          w.(lock := s', guards := w.guards[g := Dropped], signalled := Signal(w.signalled, wake))
      case WriteGuard =>
        var (s', wake) := ReleaseWrite(w.lock);
        w.(lock := s', guards := w.guards[g := Dropped], signalled := Signal(w.signalled, wake))
      case MappedWriteGuard =>
        var (s', wake) := ReleaseWrite(w.lock);
        w.(lock := s', guards := w.guards[g := Dropped], signalled := Signal(w.signalled, wake))
      case _ => w
  }

  /** The future exists, and polling it does not need an identifier past the last one. */
  predicate CanPoll(w: World, i: nat, waker: nat) {
    i < |w.futs| && w.futs[i].live
    && (w.lock.next < U64_MAX || PollLock(w.lock, w.futs[i].waiter, w.futs[i].kind, waker).lock.next == w.lock.next)
  }

  function Next(w: World, step: Step): World {
    match step
    case NewFuture(kind) => w.(futs := w.futs + [Future(kind, None, true)])
    case Poll(i, waker) =>
      if CanPoll(w, i, waker) then PollStep(w, i, waker) else w
    case DropFuture(i) =>
      if i < |w.futs| && w.futs[i].live then DropStep(w, i) else w
    case TryAcquire(kind) =>
      var (s', ok) := if kind == Read then TryRead(w.lock) else TryWrite(w.lock);
      w.(lock := s', guards := if ok then w.guards + [GuardFor(kind)] else w.guards, log := w.log + [ok])
    case _ => if step.g < |w.guards| then GuardStep(w, step) else w
  }

  function Exec(w: World, steps: seq<Step>): World
    decreases |steps|
  {
    if steps == [] then w else Exec(Next(w, steps[0]), steps[1..])
  }

  // ----- what every run keeps -----

  /** The counters are exactly the live guards, and a writer excludes readers. */
  ghost predicate Exclusive(s: Lock, guards: seq<Guard>) {
    && s.readers == multiset(guards)[ReadGuard]
    && (if s.writer then 1 else 0) == multiset(guards)[WriteGuard] + multiset(guards)[MappedWriteGuard]
    && (s.writer ==> s.readers == 0)
  }

  /** An idle lock has already woken its front waiter. */
  ghost predicate IdleFrontSignalled(s: Lock, signalled: set<nat>) {
    s.waiters != [] && !s.writer && s.readers == 0 ==> s.waiters[0].id in signalled
  }

  /** No spare wakes: only a front waiter that can go ahead is ever woken. */
  ghost predicate WakesAreReal(s: Lock, signalled: set<nat>) {
    && (forall k :: 0 <= k < |s.waiters| && s.waiters[k].id in signalled ==> k == 0 && CanAcquire(s, s.waiters[0].kind))
    && (forall id :: id in signalled ==> id < s.next)
  }

  ghost predicate Orderly(q: seq<Waiter<Kind>>, futs: seq<Future<Kind>>, hist: History, next: nat) {
    FirstComeFirstServed(q, hist, next) && Linked(q, futs, next)
  }

  ghost predicate Inv(w: World) {
    && 1 <= w.lock.next <= U64_MAX
    && 1 <= w.lock.maxReaders
    && Exclusive(w.lock, w.guards)
    && IdleFrontSignalled(w.lock, w.signalled)
    && WakesAreReal(w.lock, w.signalled)
    && Orderly(w.lock.waiters, w.futs, w.hist, w.lock.next)
  }

  lemma ExclusiveMap(w: World, g: nat)
    requires Exclusive(w.lock, w.guards) && g < |w.guards|
    ensures Exclusive(GuardStep(w, MapGuard(g)).lock, GuardStep(w, MapGuard(g)).guards)
  {
    assert w.guards[g] in multiset(w.guards);
  }

  lemma ExclusiveDowngrade(w: World, g: nat)
    requires Exclusive(w.lock, w.guards) && g < |w.guards|
    ensures Exclusive(GuardStep(w, Downgrade(g)).lock, GuardStep(w, Downgrade(g)).guards)
  {
    assert w.guards[g] in multiset(w.guards);
  }

  lemma ExclusiveDrop(w: World, g: nat)
    requires Exclusive(w.lock, w.guards) && g < |w.guards|
    ensures Exclusive(GuardStep(w, DropGuard(g)).lock, GuardStep(w, DropGuard(g)).guards)
  {
    assert w.guards[g] in multiset(w.guards);
  }

  lemma ExclusivePoll(w: World, i: nat, waker: nat)
    requires Exclusive(w.lock, w.guards) && i < |w.futs|
    ensures Exclusive(PollStep(w, i, waker).lock, PollStep(w, i, waker).guards)
  {
  }

  lemma ExclusiveTry(w: World, kind: Kind)
    requires Exclusive(w.lock, w.guards)
    ensures Exclusive(Next(w, TryAcquire(kind)).lock, Next(w, TryAcquire(kind)).guards)
  {
  }

  lemma ExclusiveStep(w: World, step: Step)
    requires Exclusive(w.lock, w.guards)
    ensures Exclusive(Next(w, step).lock, Next(w, step).guards)
  {
    match step
    case NewFuture(kind) =>
    case Poll(i, waker) => if i < |w.futs| { ExclusivePoll(w, i, waker); }
    case DropFuture(i) =>
    case TryAcquire(kind) => ExclusiveTry(w, kind);
    case MapGuard(g) => if g < |w.guards| { ExclusiveMap(w, g); }
    case Downgrade(g) => if g < |w.guards| { ExclusiveDowngrade(w, g); }
    case DropGuard(g) => if g < |w.guards| { ExclusiveDrop(w, g); }
  }

  lemma OrderlyTicket(w: World, i: nat, waker: nat)
    requires Orderly(w.lock.waiters, w.futs, w.hist, w.lock.next)
    requires i < |w.futs| && w.futs[i].live && w.futs[i].waiter.Some?
    ensures var w' := PollStep(w, i, waker); Orderly(w'.lock.waiters, w'.futs, w'.hist, w'.lock.next)
  {
    var f, q := w.futs[i], w.lock.waiters;
    TicketRequest(q, w.futs, w.lock.next, i);
    var p := Position(q, f.waiter.value).value;
    if p == 0 && CanAcquire(w.lock, f.kind) {
      LinkedLeave(q, w.futs, w.lock.next, i, true);
      assert Remove(q, f.waiter.value) == q[1..];
      FcfsGrant(q, w.hist, w.lock.next);
    } else {
      assert w.futs[i := f.(waiter := f.waiter)] == w.futs;
      LinkedRewake(q, w.futs, w.lock.next, p, waker);
      FcfsRewake(q, w.hist, w.lock.next, p, waker);
    }
  }

  lemma OrderlyFresh(w: World, i: nat, waker: nat)
    requires Orderly(w.lock.waiters, w.futs, w.hist, w.lock.next) && 1 <= w.lock.next <= U64_MAX
    requires CanPoll(w, i, waker) && w.futs[i].waiter.None?
    ensures var w' := PollStep(w, i, waker); Orderly(w'.lock.waiters, w'.futs, w'.hist, w'.lock.next)
  {
    var f, q := w.futs[i], w.lock.waiters;
    if q == [] && CanAcquire(w.lock, f.kind) {
      assert w.futs[i := f.(waiter := None)] == w.futs;
    } else {
      LinkedEnqueue(q, w.futs, w.lock.next, i, waker);
      FcfsEnqueue(q, w.hist, w.lock.next, f.kind, waker);
    }
  }

  lemma OrderlyDrop(w: World, i: nat)
    requires Orderly(w.lock.waiters, w.futs, w.hist, w.lock.next) && i < |w.futs|
    ensures var w' := DropStep(w, i); Orderly(w'.lock.waiters, w'.futs, w'.hist, w'.lock.next)
  {
    var q, next := w.lock.waiters, w.lock.next;
    if w.futs[i].waiter.None? {
      LinkedIdle(q, w.futs, DropStep(w, i).futs, next);
    } else {
      LinkedLeave(q, w.futs, next, i, false);
      FcfsCancel(q, w.hist, next, w.futs[i].waiter.value);
    }
  }

  lemma OrderlyStep(w: World, step: Step)
    requires Orderly(w.lock.waiters, w.futs, w.hist, w.lock.next) && 1 <= w.lock.next <= U64_MAX
    ensures var w' := Next(w, step); Orderly(w'.lock.waiters, w'.futs, w'.hist, w'.lock.next)
  {
    match step
    case NewFuture(kind) =>
      LinkedIdle(w.lock.waiters, w.futs, w.futs + [Future(kind, None, true)], w.lock.next);
    case Poll(i, waker) =>
      if CanPoll(w, i, waker) {
        if w.futs[i].waiter.Some? {
          OrderlyTicket(w, i, waker);
        } else {
          OrderlyFresh(w, i, waker);
        }
      }
    case DropFuture(i) => if i < |w.futs| { OrderlyDrop(w, i); }
    case _ =>
  }

  ghost predicate Awake(s: Lock, signalled: set<nat>) {
    IdleFrontSignalled(s, signalled) && WakesAreReal(s, signalled)
  }

  /** The front is granted: its wake is used up, and the next reader of a batch is woken. */
  lemma AwakeGrant(s: Lock, signalled: set<nat>, waker: nat)
    requires Awake(s, signalled) && Ordered(s.waiters, s.next)
    requires s.waiters != [] && CanAcquire(s, s.waiters[0].kind)
    ensures var r := PollLock(s, Some(s.waiters[0].id), s.waiters[0].kind, waker);
            Awake(r.lock, Signal(signalled - {s.waiters[0].id}, r.wake))
  {
    var q := s.waiters;
    assert Position(q, q[0].id) == Some(0);
    assert forall k :: 0 <= k < |q| - 1 ==> q[1..][k] == q[k + 1];
  }

  /** A waiter that cannot go ahead keeps its place. */
  lemma AwakeStay(s: Lock, signalled: set<nat>, p: nat, waker: nat)
    requires Awake(s, signalled) && Ordered(s.waiters, s.next) && 1 <= s.maxReaders
    requires p < |s.waiters| && !(p == 0 && CanAcquire(s, s.waiters[0].kind))
    ensures Awake(s.(waiters := s.waiters[p := s.waiters[p].(waker := waker)]), signalled - {s.waiters[p].id})
  {
    var q' := s.waiters[p := s.waiters[p].(waker := waker)];
    assert forall k :: 0 <= k < |q'| ==> q'[k].id == s.waiters[k].id && q'[k].kind == s.waiters[k].kind;
  }

  lemma AwakeFresh(s: Lock, signalled: set<nat>, kind: Kind, waker: nat)
    requires Awake(s, signalled) && 1 <= s.maxReaders
    requires s.next < U64_MAX || PollLock(s, None, kind, waker).lock.next == s.next == U64_MAX
    ensures Awake(PollLock(s, None, kind, waker).lock, signalled)
  {
    var q' := s.waiters + [Waiter(s.next, kind, waker)];
    assert forall k :: 0 <= k < |s.waiters| ==> q'[k] == s.waiters[k];
  }

  lemma AwakePoll(w: World, i: nat, waker: nat)
    requires Inv(w) && CanPoll(w, i, waker)
    ensures var w' := PollStep(w, i, waker); Awake(w'.lock, w'.signalled)
  {
    var f, s := w.futs[i], w.lock;
    if f.waiter.Some? {
      TicketRequest(s.waiters, w.futs, s.next, i);
      var p := Position(s.waiters, f.waiter.value).value;
      if p == 0 && CanAcquire(s, f.kind) {
        AwakeGrant(s, w.signalled, waker);
      } else {
        AwakeStay(s, w.signalled, p, waker);
      }
    } else {
      AwakeFresh(s, w.signalled, f.kind, waker);
    }
  }

  lemma AwakeCancel(s: Lock, signalled: set<nat>, id: nat)
    requires Awake(s, signalled) && Ordered(s.waiters, s.next) && 1 <= s.maxReaders
    ensures var (s', wake) := CancelWaiter(s, id); Awake(s', Signal(signalled, wake))
  {
    var q, q' := s.waiters, Remove(s.waiters, id);
    OrderedRemove(q, s.next, id);
    KeepsFront(q, s.next, id);
    forall k | 1 <= k < |q'| ensures q'[k].id !in signalled && q'[k].id != q'[0].id {
      assert q'[k] in q[1..];
    }
    if q' != [] && q'[0] != q[0] {
      assert q'[0] in q[1..];
    }
  }

  /** After a cancellation the entries behind the front were behind it before. */
  lemma KeepsFront(q: seq<Waiter<Kind>>, next: nat, id: nat)
    requires Ordered(q, next)
    ensures forall k :: 1 <= k < |Remove(q, id)| ==> Remove(q, id)[k] in q[1..]
    ensures Remove(q, id) != [] ==> Remove(q, id)[0] == q[0] || Remove(q, id)[0] in q[1..]
  {
    match Position(q, id)
    case None =>
      assert forall k :: 1 <= k < |q| ==> q[k] == q[1..][k - 1];
    case Some(p) =>
      var q' := Remove(q, id);
      assert forall k :: 1 <= k < p ==> q'[k] == q[1..][k - 1];
      assert forall k :: p <= k < |q'| ==> q'[k] == q[1..][k];
  }

  lemma AwakeGuard(w: World, step: Step)
    requires Exclusive(w.lock, w.guards) && Awake(w.lock, w.signalled)
    requires Ordered(w.lock.waiters, w.lock.next) && 1 <= w.lock.maxReaders
    requires (step.MapGuard? || step.Downgrade? || step.DropGuard?) && step.g < |w.guards|
    ensures Awake(GuardStep(w, step).lock, GuardStep(w, step).signalled)
  {
    assert w.guards[step.g] in multiset(w.guards);
  }

  lemma AwakeStep(w: World, step: Step)
    requires Inv(w)
    ensures Awake(Next(w, step).lock, Next(w, step).signalled)
  {
    match step
    case Poll(i, waker) =>
      if CanPoll(w, i, waker) { AwakePoll(w, i, waker); }
    case DropFuture(i) =>
      if i < |w.futs| && w.futs[i].live && w.futs[i].waiter.Some? {
        AwakeCancel(w.lock, w.signalled, w.futs[i].waiter.value);
      }
    case NewFuture(kind) =>
    case TryAcquire(kind) =>
    case _ => if step.g < |w.guards| { AwakeGuard(w, step); }
  }

  lemma LimitsKept(w: World, step: Step)
    requires 1 <= w.lock.next <= U64_MAX
    ensures 1 <= Next(w, step).lock.next <= U64_MAX
    ensures Next(w, step).lock.maxReaders == w.lock.maxReaders
  {
    match step
    case NewFuture(kind) =>
    case Poll(i, waker) =>
    case DropFuture(i) =>
    case TryAcquire(kind) =>
    case _ =>
  }

  lemma StepKeeps(w: World, step: Step)
    requires Inv(w)
    ensures Inv(Next(w, step))
  {
    LimitsKept(w, step);
    ExclusiveStep(w, step);
    OrderlyStep(w, step);
    AwakeStep(w, step);
  }

  lemma {:induction false} RunKeeps(w: World, steps: seq<Step>)
    requires Inv(w)
    ensures Inv(Exec(w, steps))
    decreases |steps|
  {
    if steps != [] {
      StepKeeps(w, steps[0]);
      RunKeeps(Next(w, steps[0]), steps[1..]);
    }
  }

  /** Exclusion, fairness and the woken front of an idle lock, on every run. */
  lemma EveryRun(maxReaders: nat, steps: seq<Step>)
    requires 1 <= maxReaders <= MAX_READERS
    ensures Inv(Exec(Init(maxReaders), steps))
  {
    RunKeeps(Init(maxReaders), steps);
  }

  /** While anyone is queued, only the holder of the front ticket can be granted anything. */
  lemma NoOvertaking(w: World, step: Step)
    requires Inv(w) && w.lock.waiters != [] && Next(w, step).log != w.log && Next(w, step).log[|w.log|]
    ensures step.Poll? && w.futs[step.i].waiter == Some(w.lock.waiters[0].id)
    ensures w.futs[step.i].kind == w.lock.waiters[0].kind
    ensures Next(w, step).hist.granted == w.hist.granted + [w.lock.waiters[0].id]
  {
    TicketRequest(w.lock.waiters, w.futs, w.lock.next, step.i);
  }

  // ----- what each call answers -----

  /** The live guards admit another of this kind; the limit binds only those that queue. */
  predicate Admits(guards: seq<Guard>, kind: Kind, limit: Option<nat>) {
    var m := multiset(guards);
    m[WriteGuard] == 0 && m[MappedWriteGuard] == 0
    && match kind
       case Read => limit.Some? ==> m[ReadGuard] < limit.value
       case Write => m[ReadGuard] == 0
  }

  predicate NobodyAhead(w: World, i: nat)
    requires i < |w.futs|
  {
    w.lock.waiters == [] || w.futs[i].waiter == Some(w.lock.waiters[0].id)
  }

  predicate WaitsWith(w: World, i: nat, waker: nat)
    requires i < |w.futs|
  {
    w.futs[i].waiter.Some?
    && var p := Position(w.lock.waiters, w.futs[i].waiter.value);
       p.Some? && w.lock.waiters[p.value].kind == w.futs[i].kind && w.lock.waiters[p.value].waker == waker
  }

  lemma AdmitsIs(w: World, kind: Kind)
    requires Exclusive(w.lock, w.guards)
    ensures Admits(w.guards, kind, Some(w.lock.maxReaders)) <==> CanAcquire(w.lock, kind)
  {
  }

  /**
    A poll is granted exactly when the live guards admit it and nobody is
    ahead; otherwise the future is in line with the waker it was polled with.
   */
  lemma PollAnswers(w: World, i: nat, waker: nat)
    requires Inv(w) && CanPoll(w, i, waker)
    ensures var w' := Next(w, Poll(i, waker));
            var ok := Admits(w.guards, w.futs[i].kind, Some(w.lock.maxReaders)) && NobodyAhead(w, i);
            && w'.log == w.log + [ok]
            && (if ok then w'.futs[i].waiter.None? else WaitsWith(w', i, waker))
            && w'.guards == if ok then w.guards + [GuardFor(w.futs[i].kind)] else w.guards
  {
    AdmitsIs(w, w.futs[i].kind);
    if w.futs[i].waiter.Some? {
      TicketPlace(w, i, waker);
    } else {
      FreshPlace(w, i, waker);
    }
  }

  lemma TicketPlace(w: World, i: nat, waker: nat)
    requires Inv(w) && CanPoll(w, i, waker) && w.futs[i].waiter.Some?
    ensures var p := Position(w.lock.waiters, w.futs[i].waiter.value);
            p.Some? && (p.value == 0 <==> NobodyAhead(w, i))
    ensures !(CanAcquire(w.lock, w.futs[i].kind) && NobodyAhead(w, i)) ==> WaitsWith(PollStep(w, i, waker), i, waker)
  {
    var q, id := w.lock.waiters, w.futs[i].waiter.value;
    TicketRequest(q, w.futs, w.lock.next, i);
    var p := Position(q, id).value;
    PositionAt(q, w.lock.next, 0);
    var q' := q[p := q[p].(waker := waker)];
    assert Ordered(q', w.lock.next) && q'[p].id == id;
    PositionAt(q', w.lock.next, p);
  }

  lemma FreshPlace(w: World, i: nat, waker: nat)
    requires Inv(w) && CanPoll(w, i, waker) && w.futs[i].waiter.None?
    ensures NobodyAhead(w, i) <==> w.lock.waiters == []
    ensures !(CanAcquire(w.lock, w.futs[i].kind) && NobodyAhead(w, i)) ==> WaitsWith(PollStep(w, i, waker), i, waker)
  {
    var q, next := w.lock.waiters, w.lock.next;
    if !(CanAcquire(w.lock, w.futs[i].kind) && q == []) {
      var q' := q + [Waiter(next, w.futs[i].kind, waker)];
      assert Ordered(q', next + 1) && q'[|q|].id == next;
      PositionAt(q', next + 1, |q|);
    }
  }

  /** A try succeeds exactly when nobody waits and the live guards admit it; a read does not look at the limit. */
  lemma TryAnswers(w: World, kind: Kind)
    requires Exclusive(w.lock, w.guards)
    ensures var w' := Next(w, TryAcquire(kind));
            var ok := w.lock.waiters == [] && Admits(w.guards, kind, None);
            && w'.log == w.log + [ok]
            && w'.guards == if ok then w.guards + [GuardFor(kind)] else w.guards
  {
  }

  // ----- when a runnable front has always been woken -----

  /** A front waiter that can go ahead has been woken. */
  ghost predicate FrontSignalled(w: World) {
    w.lock.waiters != [] && CanAcquire(w.lock, w.lock.waiters[0].kind) ==> w.lock.waiters[0].id in w.signalled
  }

  /** A reader leaves a full lock, other readers remain, and a reader waits at the front. */
  ghost predicate StrandsReader(w: World, step: Step) {
    && step.DropGuard? && step.g < |w.guards| && w.guards[step.g] == ReadGuard
    && w.lock.readers == w.lock.maxReaders && w.lock.maxReaders > 1
    && w.lock.waiters != [] && w.lock.waiters[0].kind == Read
  }

  lemma FrontAfterPoll(w: World, i: nat, waker: nat)
    requires Inv(w) && FrontSignalled(w) && i < |w.futs| && w.futs[i].live
    ensures FrontSignalled(PollStep(w, i, waker))
  {
    if w.futs[i].waiter.Some? {
      TicketRequest(w.lock.waiters, w.futs, w.lock.next, i);
    }
  }

  /** Exactly one kind of step can leave a runnable front asleep. */
  lemma FrontStep(w: World, step: Step)
    requires Inv(w) && FrontSignalled(w)
    ensures FrontSignalled(Next(w, step)) <==> !StrandsReader(w, step)
  {
    match step
    case Poll(i, waker) =>
      if CanPoll(w, i, waker) { FrontAfterPoll(w, i, waker); }
    case DropGuard(g) =>
      if g < |w.guards| { assert w.guards[g] in multiset(w.guards); }
    case _ =>
  }

  /** No reader leaves a full lock while others stay and a reader waits in front. */
  ghost predicate NeverStrands(w: World, steps: seq<Step>)
    decreases |steps|
  {
    steps == [] || (!StrandsReader(w, steps[0]) && NeverStrands(Next(w, steps[0]), steps[1..]))
  }

  lemma {:induction false} FrontRun(w: World, steps: seq<Step>)
    requires Inv(w) && FrontSignalled(w) && NeverStrands(w, steps)
    ensures FrontSignalled(Exec(w, steps))
    decreases |steps|
  {
    if steps != [] {
      FrontStep(w, steps[0]);
      StepKeeps(w, steps[0]);
      FrontRun(Next(w, steps[0]), steps[1..]);
    }
  }

  /**
    Wakes form a chain: on every run without such a step the front waiter has
    been woken exactly when it can go ahead.
   */
  lemma WakeChain(maxReaders: nat, steps: seq<Step>)
    requires 1 <= maxReaders <= MAX_READERS && NeverStrands(Init(maxReaders), steps)
    ensures var w := Exec(Init(maxReaders), steps);
            w.lock.waiters != [] ==>
              (w.lock.waiters[0].id in w.signalled <==> CanAcquire(w.lock, w.lock.waiters[0].kind))
  {
    FrontRun(Init(maxReaders), steps);
    RunKeeps(Init(maxReaders), steps);
  }

  /** The run never has `maxReaders` readers at once. */
  ghost predicate NeverFull(w: World, steps: seq<Step>)
    decreases |steps|
  {
    w.lock.readers < w.lock.maxReaders && (steps == [] || NeverFull(Next(w, steps[0]), steps[1..]))
  }

  /** In particular the chain holds on every run below the limit. */
  lemma {:induction false} BelowTheLimit(w: World, steps: seq<Step>)
    requires NeverFull(w, steps)
    ensures NeverStrands(w, steps)
    decreases |steps|
  {
    if steps != [] { BelowTheLimit(Next(w, steps[0]), steps[1..]); }
  }

  /** The steps that end a stranding: the front polls, a queued waiter gives up, or the last reader leaves. */
  ghost predicate Rescues(w: World, step: Step)
    requires w.lock.waiters != []
  {
    match step
    case Poll(i, waker) => CanPoll(w, i, waker) && w.futs[i].waiter == Some(w.lock.waiters[0].id)
    case DropFuture(i) => i < |w.futs| && w.futs[i].live && w.futs[i].waiter.Some?
    case DropGuard(g) => g < |w.guards| && w.guards[g] == ReadGuard && w.lock.readers == 1
    case _ => false
  }

  lemma StrandedPoll(w: World, i: nat, waker: nat)
    requires Inv(w) && !FrontSignalled(w) && CanPoll(w, i, waker)
    ensures FrontSignalled(PollStep(w, i, waker)) <==> w.futs[i].waiter == Some(w.lock.waiters[0].id)
  {
    var q := w.lock.waiters;
    if w.futs[i].waiter.Some? {
      TicketRequest(q, w.futs, w.lock.next, i);
    }
  }

  lemma StrandedDrop(w: World, i: nat)
    requires Inv(w) && !FrontSignalled(w) && i < |w.futs|
    ensures FrontSignalled(DropStep(w, i)) <==> w.futs[i].waiter.Some?
  {
  }

  /** From a stranded front, exactly those steps lead out. */
  lemma StrandedStep(w: World, step: Step)
    requires Inv(w) && !FrontSignalled(w)
    ensures FrontSignalled(Next(w, step)) <==> Rescues(w, step)
  {
    match step
    case Poll(i, waker) => if CanPoll(w, i, waker) { StrandedPoll(w, i, waker); }
    case DropFuture(i) => if i < |w.futs| { StrandedDrop(w, i); }
    case DropGuard(g) => if g < |w.guards| { assert w.guards[g] in multiset(w.guards); }
    case Downgrade(g) => if g < |w.guards| { assert w.guards[g] in multiset(w.guards); }
    case _ =>
  }

  /** At the limit the chain breaks: two readers fill the lock, a third queues, one leaves. */
  lemma FullLockStrandsReader()
    ensures var w := Exec(Init(2), [TryAcquire(Read), TryAcquire(Read), NewFuture(Read), Poll(0, 7), DropGuard(0)]);
            && w.lock.waiters == [Waiter(1, Read, 7)]
            && CanAcquire(w.lock, Read) && 1 !in w.signalled
  {
    var steps := [TryAcquire(Read), TryAcquire(Read), NewFuture(Read), Poll(0, 7), DropGuard(0)];
    var w0 := Init(2);
    var w1 := Next(w0, TryAcquire(Read));
    var w2 := Next(w1, TryAcquire(Read));
    var w3 := Next(w2, NewFuture(Read));
    var w4 := Next(w3, Poll(0, 7));
    var w5 := Next(w4, DropGuard(0));
    assert w5.lock.waiters == [Waiter(1, Read, 7)];
    assert steps[1..][1..][1..][1..] == [DropGuard(0)];
    assert Exec(w4, [DropGuard(0)]) == Exec(w5, []) == w5;
    assert Exec(w2, steps[1..][1..]) == Exec(w3, steps[1..][1..][1..]) == Exec(w4, [DropGuard(0)]);
    assert Exec(w0, steps) == Exec(w1, steps[1..]) == Exec(w2, steps[1..][1..]);
  }
}

/** The read-write lock's locked sections as the code performs them. */
module RwLockCode {
  import opened Base
  import opened WaitQueue
  import L = RwLock

  class RwLock {
    var readers: nat
    var maxReaders: nat
    var writer: bool
    var nextWaiter: nat
    var waiters: seq<Waiter<L.Kind>>

    function State(): L.Lock
      reads this
    {
      L.Lock(readers, maxReaders, writer, nextWaiter, waiters)
    }

    constructor (maxReads: nat)
      requires 0 < maxReads <= L.MAX_READERS
      ensures State() == L.Init(maxReads).lock
    {
      readers, maxReaders, writer, nextWaiter, waiters := 0, maxReads, false, 1, [];
    }

    method PollLock(waiterId: Option<nat>, kind: L.Kind, waker: nat)
      returns (waiter: Option<nat>, granted: bool, wake: Option<Waiter<L.Kind>>)
      modifies this
      ensures L.Polled(State(), waiter, granted, wake) == L.PollLock(old(State()), waiterId, kind, waker)
    {
      if waiterId.Some? {
        var position := Find(waiters, waiterId.value);
        if position == Some(0) && L.CanAcquire(State(), kind) {
          waiters := waiters[1..];
          match kind {
            case Read => readers := readers + 1;
            case Write => writer := true;
          }
          return None, true, if kind == L.Read then L.NextWaker(State()) else None;
        }
        if position.Some? {
          var p := position.value;
          if waiters[p].waker != waker {
            waiters := waiters[p := waiters[p].(waker := waker)];
          }
          return waiterId, false, None;
        }
      }
      if waiters == [] && L.CanAcquire(State(), kind) {
        match kind {
          case Read => readers := readers + 1;
          case Write => writer := true;
        }
        return None, true, None;
      }
      waiter, granted, wake := Some(nextWaiter), false, None;
      waiters := waiters + [Waiter(nextWaiter, kind, waker)];
      nextWaiter := NextId(nextWaiter);
    }

    method CancelWaiter(waiterId: Option<nat>) returns (wake: Option<Waiter<L.Kind>>)
      modifies this
      ensures waiterId.None? ==> State() == old(State()) && wake == None
      ensures waiterId.Some? ==> (State(), wake) == L.CancelWaiter(old(State()), waiterId.value)
    {
      if waiterId.None? {
        return None;
      }
      var position := Find(waiters, waiterId.value);
      if position.Some? {
        waiters := Without(waiters, position.value);
      }
      wake := L.NextWaker(State());
    }

    method TryRead() returns (ok: bool)
      modifies this
      ensures (State(), ok) == L.TryRead(old(State()))
    {
      if writer || waiters != [] {
        return false;
      }
      readers := readers + 1;
      ok := true;
    }

    method TryWrite() returns (ok: bool)
      modifies this
      ensures (State(), ok) == L.TryWrite(old(State()))
    {
      if writer || readers != 0 || waiters != [] {
        return false;
      }
      writer := true;
      ok := true;
    }

    method ReleaseRead() returns (wake: Option<Waiter<L.Kind>>)
      requires readers > 0
      modifies this
      ensures (State(), wake) == L.ReleaseRead(old(State()))
    {
      readers := readers - 1;
      wake := if readers == 0 then L.NextWaker(State()) else None;
    }

    method ReleaseWrite() returns (wake: Option<Waiter<L.Kind>>)
      modifies this
      ensures (State(), wake) == L.ReleaseWrite(old(State()))
    {
      writer := false;
      wake := L.NextWaker(State());
    }

    method DowngradeWrite() returns (wake: Option<Waiter<L.Kind>>)
      requires writer
      modifies this
      ensures (State(), wake) == L.DowngradeWrite(old(State()))
    {
      writer := false;
      readers := readers + 1;
      wake := L.NextWaker(State());
    }
  }
}
