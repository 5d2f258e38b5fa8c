/**
  The multi-producer single-consumer channel, bounded and unbounded: order,
  finality, capacity and wake-ups over every run.
 */
module Mpsc {
  import opened Base

  /** A parked sender. The code stores only the waker; the need is kept to state what it waits for. */
  datatype Parked = Parked(waker: nat, need: nat)

  datatype Inner<+T> = Inner(
    queue: seq<T>, capacity: Option<nat>, reserved: nat, senders: nat, alive: bool,
    recvWaker: Option<nat>, sendWakers: seq<Parked>, closeWaiters: seq<nat>)

  datatype SendOutcome = Sent | Full | Closed | Waiting

  datatype RecvOutcome<+T> = Got(values: seq<T>) | Ended | Empty

  /** Capacity neither queued nor reserved. */
  function Free<T>(c: Inner<T>): nat
    requires c.capacity.Some?
  {
    var used := |c.queue| + c.reserved;
    if c.capacity.value >= used then c.capacity.value - used else 0
  }

  predicate IsFull<T>(c: Inner<T>) {
    c.capacity.Some? && |c.queue| + c.reserved >= c.capacity.value
  }

  /** No sender is left, or the receiver closed and no reservation is outstanding. */
  predicate NoMoreSends<T>(c: Inner<T>) {
    c.senders == 0 || (!c.alive && c.reserved == 0)
  }

  /** Every receive path reports the end of the channel. */
  predicate Over<T>(c: Inner<T>) {
    c.queue == [] && NoMoreSends(c)
  }

  function Push<T>(c: Inner<T>, v: T): Inner<T> {
    c.(queue := c.queue + [v], recvWaker := None)
  }

  function TrySend<T>(c: Inner<T>, v: T): (Inner<T>, SendOutcome) {
    if !c.alive then (c, Closed)
    else if IsFull(c) then (c, Full)
    else (Push(c, v), Sent)
  }

  function PollSend<T>(c: Inner<T>, v: T, waker: nat): (Inner<T>, SendOutcome) {
    if !c.alive then (c, Closed)
    else if IsFull(c) then (c.(sendWakers := c.sendWakers + [Parked(waker, 1)]), Waiting)
    else (Push(c, v), Sent)
  }

  function ReserveNow<T>(c: Inner<T>, n: nat): (Inner<T>, SendOutcome)
    requires c.capacity.Some?
  {
    if !c.alive then (c, Closed)
    else if n > Free(c) then (c, Full)
    else (c.(reserved := c.reserved + n), Sent)
  }

  function PollReserve<T>(c: Inner<T>, n: nat, waker: nat): (Inner<T>, SendOutcome)
    requires c.capacity.Some?
  {
    if !c.alive then (c, Closed)
    else if n <= Free(c) then (c.(reserved := c.reserved + n), Sent)
    else (c.(sendWakers := c.sendWakers + [Parked(waker, n)]), Waiting)
  }

  function SendReserved<T>(c: Inner<T>, v: T): Inner<T>
    requires c.reserved >= 1
  {
    Push(c.(reserved := c.reserved - 1), v)
  }

  /** Giving capacity back wakes every parked sender, and a closed receiver with nothing left to wait for. */
  function ReleaseReserved<T>(c: Inner<T>, n: nat): Inner<T>
    requires n <= c.reserved
  {
    if n == 0 then c
    else
      var c' := c.(reserved := c.reserved - n, sendWakers := []);
      if !c'.alive && c'.reserved == 0 then c'.(recvWaker := None) else c'
  }

  /** Up to `limit` values, oldest first; taking any wakes every parked sender. */
  function Take<T>(c: Inner<T>, limit: nat): Inner<T> {
    c.(queue := c.queue[Min(limit, |c.queue|)..], sendWakers := [])
  }

  function TryRecv<T>(c: Inner<T>, limit: nat): (Inner<T>, RecvOutcome<T>)
    requires limit > 0
  {
    if c.queue != [] then (Take(c, limit), Got(c.queue[..Min(limit, |c.queue|)]))
    else if NoMoreSends(c) then (c, Ended)
    else (c, Empty)
  }

  function PollRecv<T>(c: Inner<T>, limit: nat, waker: nat): (Inner<T>, RecvOutcome<T>)
    requires limit > 0
  {
    var (c', o) := TryRecv(c, limit);
    (if o == Empty then c'.(recvWaker := Some(waker)) else c', o)
  }

  function CloseReceiver<T>(c: Inner<T>): Inner<T> {
    c.(alive := false, closeWaiters := [], sendWakers := [])
  }

  function DropSender<T>(c: Inner<T>): Inner<T>
    requires c.senders > 0
  {
    var c' := c.(senders := c.senders - 1);
    if NoMoreSends(c') then c'.(recvWaker := None) else c'
  }

  /** A weak sender cannot revive a channel whose last sender is gone. */
  function Upgrade<T>(c: Inner<T>): (Inner<T>, bool) {
    if c.senders == 0 then (c, false) else (c.(senders := c.senders + 1), true)
  }

  // ----- whom each section wakes -----

  function WakeOf(waker: Option<nat>): seq<nat> {
    if waker.Some? then [waker.value] else []
  }

  function WakersOf(parked: seq<Parked>): (r: seq<nat>)
    ensures |r| == |parked| && forall k :: 0 <= k < |parked| ==> r[k] == parked[k].waker
  {
    seq(|parked|, k requires 0 <= k < |parked| => parked[k].waker)
  }

  function SendWakes<T>(c: Inner<T>, o: SendOutcome): seq<nat> {
    if o == Sent then WakeOf(c.recvWaker) else []
  }

  function ReleaseWakes<T>(c: Inner<T>, n: nat): seq<nat>
    requires n <= c.reserved
  {
    if n == 0 then []
    else (if !c.alive && c.reserved == n then WakeOf(c.recvWaker) else []) + WakersOf(c.sendWakers)
  }

  function RecvWakes<T>(c: Inner<T>, o: RecvOutcome<T>): seq<nat> {
    if o.Got? then WakersOf(c.sendWakers) else []
  }

  function CloseWakes<T>(c: Inner<T>): seq<nat> {
    WakersOf(c.sendWakers)
  }

  function DropWakes<T>(c: Inner<T>): seq<nat>
    requires c.senders > 0
  {
    if NoMoreSends(c.(senders := c.senders - 1)) then WakeOf(c.recvWaker) else []
  }

  // ----- the channel in use -----

  /**
    The channel with the capacity each live permit, permit iterator and owned
    permit holds, all values accepted and received so far, and all wakers called.
   */
  datatype World<+T> = World(
    inner: Inner<T>, permits: seq<nat>, accepted: seq<T>, received: seq<T>, called: seq<nat>)

  /**
    `DetachedSend` polls a `send_timeout` future, which keeps the channel but
    does not count as a sender. A sender can be dropped only when another one
    remains or no reserved capacity borrows it.
   */
  datatype Step<+T> =
    | Send(v: T)
    | AsyncSend(v: T, waker: nat)
    | DetachedSend(v: T, waker: nat)
    | Reserve(n: nat)
    | AsyncReserve(n: nat, waker: nat)
    | PermitSend(k: nat, v: T)
    | PermitNext(k: nat)
    | PermitDrop(k: nat)
    | CloneSender
    | LoseSender
    | UpgradeWeak
    | Receive(limit: nat)
    | AsyncReceive(limit: nat, waker: nat)
    | CloseChannel

  function Init<T>(capacity: Option<nat>): World<T> {
    World(Inner([], capacity, 0, 1, true, None, [], []), [], [], [], [])
  }

  function Accept<T>(w: World<T>, r: (Inner<T>, SendOutcome), v: T): World<T> {
    w.(inner := r.0, accepted := if r.1 == Sent then w.accepted + [v] else w.accepted,
       called := w.called + SendWakes(w.inner, r.1))
  }

  function Hold<T>(w: World<T>, r: (Inner<T>, SendOutcome), n: nat): World<T> {
    w.(inner := r.0, permits := if r.1 == Sent then w.permits + [n] else w.permits)
  }

  function Deliver<T>(w: World<T>, r: (Inner<T>, RecvOutcome<T>)): World<T> {
    w.(inner := r.0, received := if r.1.Got? then w.received + r.1.values else w.received,
       called := w.called + RecvWakes(w.inner, r.1))
  }

  function PermitStep<T>(w: World<T>, step: Step<T>): World<T>
    requires step.PermitSend? || step.PermitNext? || step.PermitDrop?
  {
    if step.k >= |w.permits| || w.inner.reserved < w.permits[step.k] then w
    else
      match step
      case PermitSend(k, v) =>
        if w.permits[k] == 0 then w
        else w.(inner := SendReserved(w.inner, v), permits := w.permits[k := w.permits[k] - 1],
                accepted := w.accepted + [v], called := w.called + SendWakes(w.inner, Sent))
      case PermitNext(k) =>
        if w.permits[k] == 0 then w
        else w.(permits := w.permits[k := w.permits[k] - 1] + [1])
      case PermitDrop(k) =>
        w.(inner := ReleaseReserved(w.inner, w.permits[k]), permits := Without(w.permits, k),
           called := w.called + ReleaseWakes(w.inner, w.permits[k]))
  }

  function Next<T>(w: World<T>, step: Step<T>): World<T> {
    var c := w.inner;
    match step
    case Send(v) => if c.senders > 0 then Accept(w, TrySend(c, v), v) else w
    case AsyncSend(v, waker) => if c.senders > 0 then Accept(w, PollSend(c, v, waker), v) else w
    case DetachedSend(v, waker) => Accept(w, PollSend(c, v, waker), v)
    case Reserve(n) => if c.senders > 0 && c.capacity.Some? then Hold(w, ReserveNow(c, n), n) else w
    case AsyncReserve(n, waker) =>
      if c.senders > 0 && c.capacity.Some? then Hold(w, PollReserve(c, n, waker), n) else w
    case CloneSender => if c.senders > 0 then w.(inner := c.(senders := c.senders + 1)) else w
    case LoseSender =>
      if c.senders > 1 || (c.senders == 1 && Sum(w.permits) == 0)
      then w.(inner := DropSender(c), called := w.called + DropWakes(c)) else w
    case UpgradeWeak => w.(inner := Upgrade(c).0)
    case Receive(limit) => if limit == 0 then w else Deliver(w, TryRecv(c, limit))
    case AsyncReceive(limit, waker) =>
      if limit == 0 then w else Deliver(w, PollRecv(c, limit, waker))
    case CloseChannel => w.(inner := CloseReceiver(c), called := w.called + CloseWakes(c))
    case _ => PermitStep(w, step)
  }

  function Exec<T>(w: World<T>, steps: seq<Step<T>>): World<T>
    decreases |steps|
  {
    if steps == [] then w else Exec(Next(w, steps[0]), steps[1..])
  }

  // ----- what every run keeps -----

  /** Capacity: reservations are what the live permits hold, and the bound is respected. */
  ghost predicate Bounded<T>(w: World<T>) {
    && w.inner.reserved == Sum(w.permits)
    && (w.inner.capacity.Some? ==>
          1 <= w.inner.capacity.value && |w.inner.queue| + w.inner.reserved <= w.inner.capacity.value)
    && (w.inner.senders == 0 ==> w.inner.reserved == 0)
  }

  /** Order: nothing is lost, duplicated or reordered. */
  ghost predicate InOrder<T>(w: World<T>) {
    w.received + w.inner.queue == w.accepted
  }

  /** A parked sender still needs more than there is; none is parked on a closed channel. */
  ghost predicate SendersAwake<T>(c: Inner<T>) {
    && (!c.alive ==> c.sendWakers == [])
    && (c.capacity.None? ==> c.sendWakers == [])
    && (c.capacity.Some? ==> forall e :: e in c.sendWakers ==> e.need > Free(c))
  }

  /** A parked receiver has nothing to receive, and some sender is left. */
  ghost predicate ReceiverParked<T>(c: Inner<T>) {
    c.recvWaker.Some? ==> c.queue == [] && c.senders > 0
  }

  ghost predicate Inv<T>(w: World<T>) {
    Bounded(w) && InOrder(w) && SendersAwake(w.inner) && ReceiverParked(w.inner)
  }

  lemma PermitKeeps<T>(w: World<T>, step: Step<T>)
    requires Inv(w) && (step.PermitSend? || step.PermitNext? || step.PermitDrop?)
    ensures Inv(PermitStep(w, step))
  {
    if step.k < |w.permits| {
      var k, n := step.k, w.permits[step.k];
      SumUpdate(w.permits, k, if n > 0 then n - 1 else 0);
      match step
      case PermitSend(_, v) =>
        assert w.received + (w.inner.queue + [v]) == (w.received + w.inner.queue) + [v];
      case PermitNext(_) =>
        if n > 0 { SumSnoc(w.permits[k := n - 1], 1); }
      case PermitDrop(_) => SumWithout(w.permits, k);
    }
  }

  lemma SendKeeps<T>(w: World<T>, v: T, waker: nat)
    requires Inv(w)
    ensures Inv(Accept(w, TrySend(w.inner, v), v)) && Inv(Accept(w, PollSend(w.inner, v, waker), v))
  {
    assert w.received + (w.inner.queue + [v]) == (w.received + w.inner.queue) + [v];
  }

  lemma ReserveKeeps<T>(w: World<T>, n: nat, waker: nat)
    requires Inv(w) && w.inner.senders > 0 && w.inner.capacity.Some?
    ensures Inv(Hold(w, ReserveNow(w.inner, n), n)) && Inv(Hold(w, PollReserve(w.inner, n, waker), n))
  {
    SumSnoc(w.permits, n);
  }

  lemma TakeInOrder<T>(received: seq<T>, queue: seq<T>, n: nat)
    requires n <= |queue|
    ensures (received + queue[..n]) + queue[n..] == received + queue
  {
  }

  lemma ReceiveKeeps<T>(w: World<T>, limit: nat)
    requires Inv(w) && limit > 0
    ensures Inv(Deliver(w, TryRecv(w.inner, limit)))
  {
    TakeInOrder(w.received, w.inner.queue, Min(limit, |w.inner.queue|));
  }

  lemma ParkKeeps<T>(w: World<T>, limit: nat, waker: nat)
    requires Inv(w) && limit > 0
    ensures Inv(Deliver(w, PollRecv(w.inner, limit, waker)))
  {
    ReceiveKeeps(w, limit);
  }

  lemma HandlesKeep<T>(w: World<T>, step: Step<T>)
    requires Inv(w) && (step.CloneSender? || step.LoseSender? || step.UpgradeWeak? || step.CloseChannel?)
    ensures Inv(Next(w, step))
  {
  }

  lemma StepKeeps<T>(w: World<T>, step: Step<T>)
    requires Inv(w)
    ensures Inv(Next(w, step))
  {
    match step
    case Send(v) => SendKeeps(w, v, 0);
    case AsyncSend(v, waker) => SendKeeps(w, v, waker);
    case DetachedSend(v, waker) => SendKeeps(w, v, waker);
    case Reserve(n) => if w.inner.senders > 0 && w.inner.capacity.Some? { ReserveKeeps(w, n, 0); }
    case AsyncReserve(n, waker) => if w.inner.senders > 0 && w.inner.capacity.Some? { ReserveKeeps(w, n, waker); }
    case Receive(limit) => if limit > 0 { ReceiveKeeps(w, limit); }
    case AsyncReceive(limit, waker) => if limit > 0 { ParkKeeps(w, limit, waker); }
    case CloneSender => HandlesKeep(w, step);
    case LoseSender => HandlesKeep(w, step);
    case UpgradeWeak => HandlesKeep(w, step);
    case CloseChannel => HandlesKeep(w, step);
    case _ => PermitKeeps(w, step);
  }

  lemma {:induction false} RunKeeps<T>(w: World<T>, steps: seq<Step<T>>)
    requires Inv(w)
    ensures Inv(Exec(w, steps))
    decreases |steps|
  {
    if steps != [] {
      StepKeeps(w, steps[0]);
      RunKeeps(Next(w, steps[0]), steps[1..]);
    }
  }

  /** Order, capacity and wake-ups, on every run of every channel. */
  lemma EveryRun<T>(capacity: Option<nat>, steps: seq<Step<T>>)
    requires capacity.Some? ==> capacity.value > 0
    ensures Inv(Exec(Init(capacity), steps))
  {
    RunKeeps(Init<T>(capacity), steps);
  }

  // ----- when a parked receiver has always been told of the end -----

  /** A parked receiver has no value waiting and no end to report. */
  ghost predicate ReceiverAwake<T>(c: Inner<T>) {
    c.recvWaker.Some? ==> !NoMoreSends(c) && c.queue == []
  }

  /** Closing with nothing reserved ends the channel for a parked receiver, which is not woken. */
  ghost predicate StallsReceiver<T>(c: Inner<T>, step: Step<T>) {
    step.CloseChannel? && c.recvWaker.Some? && c.reserved == 0
  }

  lemma PermitTells<T>(w: World<T>, step: Step<T>)
    requires Inv(w) && ReceiverAwake(w.inner) && (step.PermitSend? || step.PermitNext? || step.PermitDrop?)
    ensures ReceiverAwake(PermitStep(w, step).inner)
  {
  }

  /** Exactly one kind of step leaves a parked receiver untold. */
  lemma TellsStep<T>(w: World<T>, step: Step<T>)
    requires Inv(w) && ReceiverAwake(w.inner)
    ensures ReceiverAwake(Next(w, step).inner) <==> !StallsReceiver(w.inner, step)
  {
    match step
    case PermitSend(_, _) => PermitTells(w, step);
    case PermitNext(_) => PermitTells(w, step);
    case PermitDrop(_) => PermitTells(w, step);
    case _ =>
  }

  /** A stalled receiver is told exactly when a sender is dropped. */
  lemma StalledStep<T>(w: World<T>, step: Step<T>)
    requires Inv(w) && !ReceiverAwake(w.inner)
    ensures ReceiverAwake(Next(w, step).inner) <==> step.LoseSender?
  {
    match step
    case PermitSend(k, v) => if k < |w.permits| { SumUpdate(w.permits, k, 0); }
    case PermitDrop(k) => if k < |w.permits| { SumUpdate(w.permits, k, 0); }
    case _ =>
  }

  ghost predicate NeverStalls<T>(w: World<T>, steps: seq<Step<T>>)
    decreases |steps|
  {
    steps == [] || (!StallsReceiver(w.inner, steps[0]) && NeverStalls(Next(w, steps[0]), steps[1..]))
  }

  lemma {:induction false} TellsRun<T>(w: World<T>, steps: seq<Step<T>>)
    requires Inv(w) && ReceiverAwake(w.inner) && NeverStalls(w, steps)
    ensures ReceiverAwake(Exec(w, steps).inner)
    decreases |steps|
  {
    if steps != [] {
      TellsStep(w, steps[0]);
      StepKeeps(w, steps[0]);
      TellsRun(Next(w, steps[0]), steps[1..]);
    }
  }

  /** On every run without such a close a parked receiver has neither a value nor the end waiting. */
  lemma ParkedReceiverIsTold<T>(capacity: Option<nat>, steps: seq<Step<T>>)
    requires capacity.Some? ==> capacity.value > 0
    requires NeverStalls(Init(capacity), steps)
    ensures ReceiverAwake(Exec(Init(capacity), steps).inner)
  {
    TellsRun(Init<T>(capacity), steps);
  }

  /** The exception is real: a receiver parks, the channel is closed, and its waker stays. */
  lemma CloseStallsReceiver()
    ensures var w: World<int> := Exec(Init(Some(1)), [AsyncReceive(1, 7), CloseChannel]);
            w.inner.recvWaker == Some(7) && TryRecv(w.inner, 1).1 == Ended
  {
    var w0: World<int> := Init(Some(1));
    var w1 := Next(w0, AsyncReceive(1, 7));
    var steps: seq<Step<int>> := [AsyncReceive(1, 7), CloseChannel];
    assert Exec(w0, steps) == Exec(w1, steps[1..]);
    assert Exec(w1, steps[1..]) == Exec(Next(w1, CloseChannel), steps[1..][1..]);
    assert Exec(Next(w1, CloseChannel), []) == Next(w1, CloseChannel);
  }

  // ----- what each call answers -----

  /** There is room for `n` more: counted in values accepted, received and promised to permits. */
  predicate Room<T>(w: World<T>, n: nat)
    requires |w.received| <= |w.accepted|
  {
    w.inner.capacity.Some? ==> |w.accepted| - |w.received| + Sum(w.permits) + n <= w.inner.capacity.value
  }

  lemma Backlog<T>(w: World<T>)
    requires Inv(w)
    ensures |w.received| <= |w.accepted| && w.inner.queue == w.accepted[|w.received|..]
  {
    assert w.accepted[|w.received|..] == w.inner.queue;
  }

  /** A send is refused exactly on a closed channel and accepted exactly when there is room; else it parks with its waker. */
  lemma SendAnswers<T>(w: World<T>, v: T, waker: nat)
    requires Inv(w)
    ensures |w.received| <= |w.accepted|
    ensures var o := if !w.inner.alive then Closed else if Room(w, 1) then Sent else Full;
            && TrySend(w.inner, v).1 == o
            && PollSend(w.inner, v, waker).1 == (if o == Full then Waiting else o)
            && (o == Full ==> Parked(waker, 1) in PollSend(w.inner, v, waker).0.sendWakers)
            && (o == Sent ==> Accept(w, TrySend(w.inner, v), v).accepted == w.accepted + [v])
            && (o == Sent ==> Accept(w, PollSend(w.inner, v, waker), v).accepted == w.accepted + [v])
  {
    Backlog(w);
  }

  /** The same for a reservation of `n`, all or nothing. */
  lemma ReserveAnswers<T>(w: World<T>, n: nat, waker: nat)
    requires Inv(w) && w.inner.capacity.Some?
    ensures |w.received| <= |w.accepted|
    ensures var o := if !w.inner.alive then Closed else if Room(w, n) then Sent else Full;
            && ReserveNow(w.inner, n).1 == o
            && PollReserve(w.inner, n, waker).1 == (if o == Full then Waiting else o)
            && (o == Full ==> Parked(waker, n) in PollReserve(w.inner, n, waker).0.sendWakers)
            && (o == Sent ==> Hold(w, PollReserve(w.inner, n, waker), n).permits == w.permits + [n])
  {
    Backlog(w);
  }

  /** A reserved slot is always honoured, on a closed channel too. */
  lemma PermitAnswers<T>(w: World<T>, k: nat, v: T)
    requires Inv(w) && k < |w.permits| && w.permits[k] > 0
    ensures Next(w, PermitSend(k, v)).accepted == w.accepted + [v]
    ensures Next(w, PermitSend(k, v)).permits == w.permits[k := w.permits[k] - 1]
    ensures Next(w, PermitDrop(k)).permits == Without(w.permits, k)
  {
    SumUpdate(w.permits, k, 0);
  }

  /** A receive gives the next accepted values up to the limit, the end exactly when no more can come, and else parks. */
  lemma ReceiveAnswers<T>(w: World<T>, limit: nat, waker: nat)
    requires Inv(w) && limit > 0
    ensures |w.received| <= |w.accepted|
    ensures var left := w.accepted[|w.received|..];
            var o := TryRecv(w.inner, limit).1;
            && (left != [] ==> o == Got(left[..Min(limit, |left|)]))
            && (left == [] ==>
                  o == if w.inner.senders == 0 || (!w.inner.alive && Sum(w.permits) == 0) then Ended else Empty)
            && PollRecv(w.inner, limit, waker).1 == o
            && (o == Empty ==> PollRecv(w.inner, limit, waker).0.recvWaker == Some(waker))
  {
    Backlog(w);
  }

  /** Handles are counted one by one; a weak sender comes back exactly while some sender is left; a close closes. */
  lemma HandleAnswers<T>(w: World<T>)
    requires Inv(w)
    ensures Next(w, UpgradeWeak).inner.senders == w.inner.senders + if w.inner.senders > 0 then 1 else 0
    ensures Upgrade(w.inner).1 <==> w.inner.senders > 0
    ensures w.inner.senders > 0 && Sum(w.permits) == 0 ==> Next(w, LoseSender).inner.senders == w.inner.senders - 1
    ensures !Next(w, CloseChannel).inner.alive && Next(w, CloseChannel).inner.queue == w.inner.queue
  {
  }

  lemma {:induction false} ClosedRun<T>(w: World<T>, steps: seq<Step<T>>)
    requires !w.inner.alive
    ensures !Exec(w, steps).inner.alive
    decreases |steps|
  {
    if steps != [] { ClosedRun(Next(w, steps[0]), steps[1..]); }
  }

  /** After a close, on every later run, every send and reservation is refused. */
  lemma CloseIsFinal<T>(capacity: Option<nat>, before: seq<Step<T>>, after: seq<Step<T>>, v: T, n: nat)
    requires capacity.Some? ==> capacity.value > 0
    ensures var w := Exec(Next(Exec(Init(capacity), before), CloseChannel), after);
            TrySend(w.inner, v).1 == Closed && (w.inner.capacity.Some? ==> ReserveNow(w.inner, n).1 == Closed)
  {
    var w := Next(Exec(Init(capacity), before), CloseChannel);
    EveryRun(capacity, before);
    StepKeeps(Exec(Init(capacity), before), CloseChannel);
    RunKeeps(w, after);
    ClosedRun(w, after);
    SendAnswers(Exec(w, after), v, 0);
  }

  /** The wakers that a step calls. */
  function NewCalls<T>(w: World<T>, step: Step<T>): seq<nat> {
    var called := Next(w, step).called;
    if |w.called| <= |called| then called[|w.called|..] else []
  }

  lemma CallsGrow<T>(w: World<T>, step: Step<T>)
    ensures |w.called| <= |Next(w, step).called| && Next(w, step).called[..|w.called|] == w.called
  {
  }

  /** No parked sender drops out: its waker stays parked until a step calls it. */
  lemma SenderIsCalled<T>(w: World<T>, step: Step<T>, e: Parked)
    requires e in w.inner.sendWakers
    ensures e in Next(w, step).inner.sendWakers || e.waker in NewCalls(w, step)
  {
    var k :| 0 <= k < |w.inner.sendWakers| && w.inner.sendWakers[k] == e;
    assert WakersOf(w.inner.sendWakers)[k] == e.waker;
    CallsGrow(w, step);
  }

  /** Nor does the receiver: only a later poll of its own replaces its waker. */
  lemma ReceiverIsCalled<T>(w: World<T>, step: Step<T>)
    requires w.inner.recvWaker.Some?
    ensures var r := Next(w, step).inner.recvWaker;
            r == w.inner.recvWaker || w.inner.recvWaker.value in NewCalls(w, step)
            || (step.AsyncReceive? && r == Some(step.waker))
  {
    CallsGrow(w, step);
  }

  // ----- the end of a channel is final -----

  /** Once over, a step adds a value exactly if it is a detached send on a channel the receiver left open. */
  lemma OverStep<T>(w: World<T>, step: Step<T>)
    requires Inv(w) && Over(w.inner)
    ensures var revives := step.DetachedSend? && w.inner.alive;
            && (Over(Next(w, step).inner) <==> !revives)
            && (Next(w, step).accepted == w.accepted <==> !revives)
  {
    match step
    case PermitSend(k, v) => if k < |w.permits| { SumUpdate(w.permits, k, 0); }
    case PermitDrop(k) => if k < |w.permits| { SumUpdate(w.permits, k, 0); }
    case DetachedSend(v, waker) =>
      assert |w.accepted + [v]| == |w.accepted| + 1;
      assert |w.inner.queue + [v]| > 0;
    case _ =>
  }

  ghost predicate NoDetached<T>(steps: seq<Step<T>>) {
    forall k :: 0 <= k < |steps| ==> !steps[k].DetachedSend?
  }

  lemma {:induction false} OverRun<T>(w: World<T>, steps: seq<Step<T>>)
    requires Inv(w) && Over(w.inner) && NoDetached(steps)
    ensures Over(Exec(w, steps).inner) && Exec(w, steps).accepted == w.accepted
    decreases |steps|
  {
    if steps != [] {
      assert !steps[0].DetachedSend?;
      OverStep(w, steps[0]);
      StepKeeps(w, steps[0]);
      OverRun(Next(w, steps[0]), steps[1..]);
    }
  }

  /**
    Once a receive path can report the end, it has delivered every value ever
    accepted, every later receive reports the end too, and no later step
    (permit, weak upgrade, clone) adds a value.
   */
  lemma EndIsFinal<T>(capacity: Option<nat>, before: seq<Step<T>>, after: seq<Step<T>>, limit: nat)
    requires capacity.Some? ==> capacity.value > 0
    requires limit > 0 && TryRecv(Exec(Init(capacity), before).inner, limit).1 == Ended
    requires NoDetached(after)
    ensures var w := Exec(Init(capacity), before);
            var w' := Exec(w, after);
            && w'.accepted == w.accepted == w.received
            && TryRecv(w'.inner, limit).1 == Ended
  {
    EveryRun(capacity, before);
    var w := Exec(Init(capacity), before);
    assert w.received + [] == w.received;
    OverRun(w, after);
  }

  /** The exception is real: a detached send arrives after the end was reported. */
  lemma DetachedSendRevives()
    ensures var w := Exec(Init(Some(1)), [LoseSender]);
            && TryRecv(w.inner, 1).1 == Ended
            && TryRecv(Next(w, DetachedSend(5, 0)).inner, 1).1 == Got([5])
  {
    var w0: World<int> := Init(Some(1));
    assert Exec(Next(w0, LoseSender), [LoseSender][1..]) == Next(w0, LoseSender);
    assert Exec(w0, [LoseSender]) == Next(w0, LoseSender);
  }
}

/** The channel's locked sections as the code performs them. */
module MpscCode {
  import opened Base
  import C = Mpsc

  class Channel<T> {
    var queue: seq<T>
    const capacity: Option<nat>
    var reserved: nat
    var senderCount: nat
    var receiverAlive: bool
    var recvWaker: Option<nat>
    var sendWakers: seq<C.Parked>
    var closeWaiters: seq<nat>

    function State(): C.Inner<T>
      reads this
    {
      C.Inner(queue, capacity, reserved, senderCount, receiverAlive, recvWaker, sendWakers, closeWaiters)
    }

    constructor (cap: Option<nat>)
      requires cap.Some? ==> cap.value > 0
      ensures State() == C.Init<T>(cap).inner
    {
      queue, capacity, reserved, senderCount, receiverAlive := [], cap, 0, 1, true;
      recvWaker, sendWakers, closeWaiters := None, [], [];
    }

    method TrySend(v: T) returns (outcome: C.SendOutcome, wake: Option<nat>)
      modifies this
      ensures (State(), outcome) == C.TrySend(old(State()), v)
      ensures C.WakeOf(wake) == C.SendWakes(old(State()), outcome)
    {
      if !receiverAlive {
        return C.Closed, None;
      }
      if capacity.Some? && |queue| + reserved >= capacity.value {
        return C.Full, None;
      }
      queue := queue + [v];
      wake, recvWaker := recvWaker, None;
      outcome := C.Sent;
    }

    method PollSend(v: T, waker: nat) returns (outcome: C.SendOutcome, wake: Option<nat>)
      modifies this
      ensures (State(), outcome) == C.PollSend(old(State()), v, waker)
      ensures C.WakeOf(wake) == C.SendWakes(old(State()), outcome)
    {
      if !receiverAlive {
        return C.Closed, None;
      }
      if capacity.Some? && |queue| + reserved >= capacity.value {
        sendWakers := sendWakers + [C.Parked(waker, 1)];
        return C.Waiting, None;
      }
      queue := queue + [v];
      wake, recvWaker := recvWaker, None;
      outcome := C.Sent;
    }

    method ReserveNow(n: nat) returns (outcome: C.SendOutcome)
      requires capacity.Some?
      modifies this
      ensures (State(), outcome) == C.ReserveNow(old(State()), n)
    {
      if !receiverAlive {
        return C.Closed;
      }
      if n > C.Free(State()) {
        return C.Full;
      }
      reserved := reserved + n;
      outcome := C.Sent;
    }

    method PollReserve(n: nat, waker: nat) returns (outcome: C.SendOutcome)
      requires capacity.Some?
      modifies this
      ensures (State(), outcome) == C.PollReserve(old(State()), n, waker)
    {
      if !receiverAlive {
        return C.Closed;
      }
      if n <= C.Free(State()) {
        reserved := reserved + n;
        return C.Sent;
      }
      sendWakers := sendWakers + [C.Parked(waker, n)];
      outcome := C.Waiting;
    }

    method SendReserved(v: T) returns (wake: Option<nat>)
      requires reserved >= 1
      modifies this
      ensures State() == C.SendReserved(old(State()), v) && C.WakeOf(wake) == C.SendWakes(old(State()), C.Sent)
    {
      reserved := reserved - 1;
      queue := queue + [v];
      wake, recvWaker := recvWaker, None;
    }

    /** Wakes parked senders from the front until none is left. */
    method WakeSenders() returns (woken: seq<C.Parked>)
      modifies this`sendWakers
      ensures sendWakers == [] && woken == old(sendWakers)
    {
      woken := [];
      while sendWakers != []
        invariant woken + sendWakers == old(sendWakers)
        decreases |sendWakers|
      {
        woken, sendWakers := woken + [sendWakers[0]], sendWakers[1..];
      }
    }

    method ReleaseReserved(n: nat) returns (woken: seq<C.Parked>, wake: Option<nat>)
      requires n <= reserved
      modifies this
      ensures State() == C.ReleaseReserved(old(State()), n)
      ensures n > 0 ==> woken == old(sendWakers)
      ensures C.WakeOf(wake) + C.WakersOf(woken) == C.ReleaseWakes(old(State()), n)
    {
      woken, wake := [], None;
      if n == 0 {
        return;
      }
      reserved := reserved - n;
      if !receiverAlive && reserved == 0 {
        wake, recvWaker := recvWaker, None;
      }
      woken := WakeSenders();
    }

    /** The shared part of the receive paths: pops one value at a time, up to `limit`. */
    method PollRecvMany(limit: nat, waker: nat) returns (outcome: C.RecvOutcome<T>, woken: seq<C.Parked>)
      requires limit > 0
      modifies this
      ensures (State(), outcome) == C.PollRecv(old(State()), limit, waker)
      ensures outcome.Got? ==> woken == old(sendWakers)
      ensures C.WakersOf(woken) == C.RecvWakes(old(State()), outcome)
    {
      woken := [];
      var buffer: seq<T> := [];
      while |buffer| < limit && queue != []
        invariant |buffer| <= limit && buffer + queue == old(queue)
        invariant State() == old(State()).(queue := queue)
        decreases |queue|
      {
        buffer, queue := buffer + [queue[0]], queue[1..];
      }
      assert buffer == old(queue)[..|buffer|] && queue == old(queue)[|buffer|..];
      if buffer != [] {
        woken := WakeSenders();
        return C.Got(buffer), woken;
      }
      if senderCount == 0 || (!receiverAlive && reserved == 0) {
        return C.Ended, [];
      }
      recvWaker := Some(waker);
      outcome := C.Empty;
    }

    method TryRecv() returns (outcome: C.RecvOutcome<T>, woken: seq<C.Parked>)
      modifies this
      ensures (State(), outcome) == C.TryRecv(old(State()), 1)
      ensures outcome.Got? ==> woken == old(sendWakers)
      ensures C.WakersOf(woken) == C.RecvWakes(old(State()), outcome)
    {
      woken := [];
      if queue != [] {
        assert queue[..1] == [queue[0]];
        outcome := C.Got([queue[0]]);
        queue := queue[1..];
        woken := WakeSenders();
      } else if senderCount == 0 || (!receiverAlive && reserved == 0) {
        outcome := C.Ended;
      } else {
        outcome := C.Empty;
      }
    }

    method Close() returns (closed: seq<nat>, woken: seq<C.Parked>)
      modifies this
      ensures State() == C.CloseReceiver(old(State()))
      ensures closed == old(closeWaiters) && woken == old(sendWakers) && C.WakersOf(woken) == C.CloseWakes(old(State()))
    {
      receiverAlive, closed := false, [];
      while closeWaiters != []
        invariant closed + closeWaiters == old(closeWaiters)
        invariant State() == old(State()).(alive := false, closeWaiters := closeWaiters)
        decreases |closeWaiters|
      {
        closed, closeWaiters := closed + [closeWaiters[0]], closeWaiters[1..];
      }
      woken := WakeSenders();
    }

    method DropSender() returns (wake: Option<nat>)
      requires senderCount > 0
      modifies this
      ensures State() == C.DropSender(old(State()))
      ensures C.WakeOf(wake) == C.DropWakes(old(State()))
    {
      senderCount, wake := senderCount - 1, None;
      if senderCount == 0 || (!receiverAlive && reserved == 0) {
        wake, recvWaker := recvWaker, None;
      }
    }

    method Upgrade() returns (ok: bool)
      modifies this
      ensures (State(), ok) == C.Upgrade(old(State()))
    {
      if senderCount == 0 {
        return false;
      }
      senderCount := senderCount + 1;
      ok := true;
    }
  }
}
