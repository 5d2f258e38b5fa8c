/**
  The broadcast channel, proved to be an append-only log of which the last
  `capacity` entries are retained, read by one cursor per receiver.
 */
module Broadcast {
  import opened Base

  /** A parked receiver and the waker it left. */
  datatype Parked = Parked(rx: nat, waker: nat)

  datatype State<+T> = State(
    queue: seq<(nat, T)>, capacity: nat, nextSeq: nat, senders: nat, receivers: nat, waiters: seq<Parked>)

  datatype Outcome<+T> = Value(value: T) | Lagged(skipped: nat) | Closed | Empty

  /** The first retained entry that is not older than `cursor`. */
  function FirstFrom<T>(q: seq<(nat, T)>, cursor: nat): (r: Option<nat>)
    ensures r.None? ==> forall k :: 0 <= k < |q| ==> q[k].0 < cursor
    ensures r.Some? ==> r.value < |q| && q[r.value].0 >= cursor
    ensures r.Some? ==> forall k :: 0 <= k < r.value ==> q[k].0 < cursor
  {
    if q == [] then None
    else if q[0].0 >= cursor then Some(0)
    else
      match FirstFrom(q[1..], cursor)
      case None => None
      case Some(p) => Some(p + 1)
  }

  /** The newest `capacity` entries. */
  function Retain<T>(q: seq<(nat, T)>, capacity: nat): seq<(nat, T)> {
    if |q| <= capacity then q else q[|q| - capacity..]
  }

  /** Appends a value, evicts the oldest beyond capacity and wakes every parked receiver. */
  function Push<T>(s: State<T>, v: T): State<T> {
    s.(queue := Retain(s.queue + [(s.nextSeq, v)], s.capacity),
       nextSeq := if s.nextSeq == U64_MAX then 0 else s.nextSeq + 1,
       waiters := [])
  }

  function Send<T>(s: State<T>, v: T): (State<T>, bool) {
    if s.receivers == 0 then (s, false) else (Push(s, v), true)
  }

  /** A receive attempt at `cursor`: the cursor afterwards and the outcome. */
  function TryRecv<T>(s: State<T>, cursor: nat): (nat, Outcome<T>) {
    match FirstFrom(s.queue, cursor)
    case Some(p) =>
      var seqNo := s.queue[p].0;
      if seqNo > cursor then (seqNo, Lagged(seqNo - cursor))
      else (if cursor == U64_MAX then 0 else cursor + 1, Value(s.queue[p].1))
    case None => (cursor, if s.senders == 0 then Closed else Empty)
  }

  function DropSender<T>(s: State<T>): State<T>
    requires s.senders > 0
  {
    s.(senders := s.senders - 1, waiters := if s.senders == 1 then [] else s.waiters)
  }

  /** Whom a send wakes. */
  function SendWakes<T>(s: State<T>): seq<Parked> {
    if s.receivers == 0 then [] else s.waiters
  }

  /** Whom the drop of a sender wakes. */
  function DropWakes<T>(s: State<T>): seq<Parked> {
    if s.senders == 1 then s.waiters else []
  }

  // ----- the channel in use -----

  /** A receiver: its cursor, where it subscribed, what it read (with positions) and how many entries it skipped. */
  datatype Receiver<+T> = Receiver(cursor: nat, start: nat, live: bool, got: seq<(nat, T)>, lagged: nat)

  /** The channel with its receivers, everything ever sent, and every parked receiver ever woken. */
  datatype World<+T> = World(state: State<T>, rxs: seq<Receiver<T>>, log: seq<T>, called: seq<Parked>)

  datatype Step<+T> =
    | SendValue(v: T)
    | CloneSender
    | LoseSender
    | UpgradeWeak
    | Subscribe
    | DropReceiver(i: nat)
    | Receive(i: nat)
    | AsyncReceive(i: nat, waker: nat)

  function Fresh<T>(s: State<T>): Receiver<T> {
    Receiver(s.nextSeq, s.nextSeq, true, [], 0)
  }

  /** A new channel comes with one sender and one receiver. */
  function Init<T>(capacity: nat): World<T> {
    var s := State([], capacity, 0, 1, 1, []);
    World(s, [Fresh(s)], [], [])
  }

  function Record<T>(r: Receiver<T>, attempt: (nat, Outcome<T>)): Receiver<T> {
    match attempt.1
    case Value(v) => r.(cursor := attempt.0, got := r.got + [(r.cursor, v)])
    case Lagged(n) => r.(cursor := attempt.0, lagged := r.lagged + n)
    case _ => r
  }

  function ReceiveStep<T>(w: World<T>, i: nat): World<T>
    requires i < |w.rxs|
  {
    w.(rxs := w.rxs[i := Record(w.rxs[i], TryRecv(w.state, w.rxs[i].cursor))])
  }

  /** `UpgradeWeak` succeeds while any handle keeps the channel allocated. */
  function Next<T>(w: World<T>, step: Step<T>): World<T> {
    var s := w.state;
    match step
    case SendValue(v) =>
      if s.senders == 0 || s.nextSeq == U64_MAX then w
      else
        var (s', ok) := Send(s, v);
        w.(state := s', log := if ok then w.log + [v] else w.log, called := w.called + SendWakes(s))
    case CloneSender => if s.senders > 0 then w.(state := s.(senders := s.senders + 1)) else w
    case LoseSender => if s.senders > 0 then w.(state := DropSender(s), called := w.called + DropWakes(s)) else w
    case UpgradeWeak => if s.senders > 0 || s.receivers > 0 then w.(state := s.(senders := s.senders + 1)) else w
    case Subscribe =>
      if s.senders > 0 || s.receivers > 0
      then w.(state := s.(receivers := s.receivers + 1), rxs := w.rxs + [Fresh(s)]) else w
    case DropReceiver(i) =>
      if i < |w.rxs| && w.rxs[i].live && s.receivers > 0
      then w.(state := s.(receivers := s.receivers - 1), rxs := w.rxs[i := w.rxs[i].(live := false)]) else w
    case Receive(i) => if i < |w.rxs| && w.rxs[i].live then ReceiveStep(w, i) else w
    case AsyncReceive(i, waker) =>
      if i < |w.rxs| && w.rxs[i].live then
        var w' := ReceiveStep(w, i);
        if TryRecv(s, w.rxs[i].cursor).1 == Empty
        then w'.(state := s.(waiters := s.waiters + [Parked(i, waker)])) else w'
      else w
  }

  function Exec<T>(w: World<T>, steps: seq<Step<T>>): World<T>
    decreases |steps|
  {
    if steps == [] then w else Exec(Next(w, steps[0]), steps[1..])
  }

  // ----- what every run keeps -----

  /** The queue is exactly the tail of the log, numbered by position. */
  ghost predicate Tail<T>(s: State<T>, log: seq<T>) {
    && s.nextSeq == |log| <= U64_MAX
    && |s.queue| == Min(|log|, s.capacity)
    && forall k :: 0 <= k < |s.queue| ==>
         s.queue[k].0 == |log| - |s.queue| + k && s.queue[k].1 == log[|log| - |s.queue| + k]
  }

  /** A receiver read log entries in order at its own cursor, and accounts for every entry it passed. */
  ghost predicate Faithful<T>(r: Receiver<T>, log: seq<T>) {
    && r.start <= r.cursor <= |log|
    && |r.got| + r.lagged == r.cursor - r.start
    && (forall k :: 0 <= k < |r.got| ==> r.start <= r.got[k].0 < r.cursor && r.got[k].1 == log[r.got[k].0])
    && (forall j, k :: 0 <= j < k < |r.got| ==> r.got[j].0 < r.got[k].0)
  }

  /** A parked receiver has read everything, and some sender is left to wake it. */
  ghost predicate Awake<T>(w: World<T>) {
    && (w.state.senders == 0 ==> w.state.waiters == [])
    && forall k :: 0 <= k < |w.state.waiters| ==>
         w.state.waiters[k].rx < |w.rxs| && w.rxs[w.state.waiters[k].rx].cursor == |w.log|
  }

  function LiveCount<T>(rxs: seq<Receiver<T>>): nat {
    if rxs == [] then 0 else (if rxs[0].live then 1 else 0) + LiveCount(rxs[1..])
  }

  lemma {:induction false} LiveUpdate<T>(rxs: seq<Receiver<T>>, i: nat, r: Receiver<T>)
    requires i < |rxs|
    ensures LiveCount(rxs[i := r]) == LiveCount(rxs) - (if rxs[i].live then 1 else 0) + (if r.live then 1 else 0)
    ensures rxs[i].live ==> LiveCount(rxs) > 0
  {
    if i == 0 {
      assert rxs[i := r][1..] == rxs[1..];
    } else {
      assert rxs[i := r][1..] == rxs[1..][i - 1 := r];
      LiveUpdate(rxs[1..], i - 1, r);
    }
  }

  lemma {:induction false} LiveAppend<T>(rxs: seq<Receiver<T>>, r: Receiver<T>)
    ensures LiveCount(rxs + [r]) == LiveCount(rxs) + (if r.live then 1 else 0)
  {
    if rxs != [] {
      assert (rxs + [r])[1..] == rxs[1..] + [r];
      LiveAppend(rxs[1..], r);
    } else {
      assert [] + [r] == [r];
    }
  }

  ghost predicate Inv<T>(w: World<T>) {
    && w.state.capacity > 0
    && Tail(w.state, w.log)
    && w.state.receivers == LiveCount(w.rxs)
    && (forall i :: 0 <= i < |w.rxs| ==> Faithful(w.rxs[i], w.log))
    && Awake(w)
  }

  /** Eviction keeps exactly the tail. */
  lemma PushTail<T>(s: State<T>, log: seq<T>, v: T)
    requires Tail(s, log) && s.nextSeq < U64_MAX
    ensures Tail(Push(s, v), log + [v])
  {
    var all := s.queue + [(s.nextSeq, v)];
    var log' := log + [v];
    assert forall k :: 0 <= k < |all| ==>
        all[k].0 == |log'| - |all| + k && all[k].1 == log'[|log'| - |all| + k];
  }

  /** What a receive attempt returns, read off the log: the reference the code is compared with. */
  lemma RecvReadsLog<T>(s: State<T>, log: seq<T>, cursor: nat)
    requires Tail(s, log) && s.capacity > 0 && cursor <= |log|
    ensures var oldest := |log| - Min(|log|, s.capacity);
            TryRecv(s, cursor) ==
              if cursor == |log| then (cursor, if s.senders == 0 then Closed else Empty)
              else if cursor < oldest then (oldest, Lagged(oldest - cursor))
              else (cursor + 1, Value(log[cursor]))
  {
    var oldest := |log| - |s.queue|;
    if cursor < |log| {
      var k := if cursor < oldest then 0 else cursor - oldest;
      assert s.queue[k].0 == oldest + k;
      var p := FirstFrom(s.queue, cursor).value;
      assert s.queue[p].0 == oldest + p;
    }
  }

  lemma ReceiveFaithful<T>(w: World<T>, i: nat)
    requires Inv(w) && i < |w.rxs|
    ensures Faithful(Record(w.rxs[i], TryRecv(w.state, w.rxs[i].cursor)), w.log)
    ensures TryRecv(w.state, w.rxs[i].cursor).1 == Empty ==> w.rxs[i].cursor == |w.log| && w.state.senders > 0
    ensures w.rxs[i].cursor == |w.log| ==> Record(w.rxs[i], TryRecv(w.state, w.rxs[i].cursor)) == w.rxs[i]
  {
    RecvReadsLog(w.state, w.log, w.rxs[i].cursor);
  }

  lemma ReceiveKeeps<T>(w: World<T>, i: nat)
    requires Inv(w) && i < |w.rxs|
    ensures Inv(ReceiveStep(w, i))
  {
    ReceiveFaithful(w, i);
    LiveUpdate(w.rxs, i, Record(w.rxs[i], TryRecv(w.state, w.rxs[i].cursor)));
  }

  lemma SendKeeps<T>(w: World<T>, v: T)
    requires Inv(w) && w.state.receivers > 0 && w.state.nextSeq < U64_MAX
    ensures Inv(w.(state := Push(w.state, v), log := w.log + [v], called := w.called + SendWakes(w.state)))
  {
    PushTail(w.state, w.log, v);
    forall i | 0 <= i < |w.rxs| ensures Faithful(w.rxs[i], w.log + [v]) {
      assert Faithful(w.rxs[i], w.log);
    }
  }

  lemma SendersKeep<T>(w: World<T>, step: Step<T>)
    requires Inv(w) && (step.CloneSender? || step.LoseSender? || step.UpgradeWeak?)
    ensures Inv(Next(w, step))
  {
  }

  lemma SubscribeKeeps<T>(w: World<T>)
    requires Inv(w)
    ensures Inv(Next(w, Subscribe))
  {
    LiveAppend(w.rxs, Fresh(w.state));
  }

  lemma DropKeeps<T>(w: World<T>, i: nat)
    requires Inv(w) && i < |w.rxs|
    ensures Inv(Next(w, DropReceiver(i)))
  {
    LiveUpdate(w.rxs, i, w.rxs[i].(live := false));
    assert Faithful(w.rxs[i], w.log);
  }

  lemma ParkKeeps<T>(w: World<T>, i: nat, waker: nat)
    requires Inv(w) && i < |w.rxs|
    ensures Inv(Next(w, AsyncReceive(i, waker)))
  {
    ReceiveKeeps(w, i);
    ReceiveFaithful(w, i);
  }

  lemma StepKeeps<T>(w: World<T>, step: Step<T>)
    requires Inv(w)
    ensures Inv(Next(w, step))
  {
    match step
    case SendValue(v) =>
      if w.state.receivers > 0 && w.state.nextSeq < U64_MAX { SendKeeps(w, v); }
    case Subscribe => SubscribeKeeps(w);
    case DropReceiver(i) => if i < |w.rxs| { DropKeeps(w, i); }
    case Receive(i) => if i < |w.rxs| { ReceiveKeeps(w, i); }
    case AsyncReceive(i, waker) => if i < |w.rxs| { ParkKeeps(w, i, waker); }
    case _ => SendersKeep(w, step);
  }

  lemma {:induction false} RunKeeps<T>(w: World<T>, steps: seq<Step<T>>)
    requires Inv(w)
    ensures Inv(Exec(w, steps))
    decreases |steps|
  {
    if steps != [] {
      StepKeeps(w, steps[0]);
      RunKeeps(Next(w, steps[0]), steps[1..]);
    }
  }

  /** On every run the channel is its log: retained tail, faithful cursors, no receiver asleep on news. */
  lemma EveryRun<T>(capacity: nat, steps: seq<Step<T>>)
    requires capacity > 0
    ensures Inv(Exec(Init(capacity), steps))
  {
    var w: World<T> := Init(capacity);
    assert LiveCount(w.rxs) == 1 by { assert w.rxs[1..] == []; }
    RunKeeps(w, steps);
  }

  // ----- what each call answers -----

  lemma {:induction false} SomeoneListens<T>(rxs: seq<Receiver<T>>)
    ensures LiveCount(rxs) > 0 <==> exists i :: 0 <= i < |rxs| && rxs[i].live
  {
    if rxs != [] {
      SomeoneListens(rxs[1..]);
      if LiveCount(rxs[1..]) > 0 {
        var i :| 0 <= i < |rxs[1..]| && rxs[1..][i].live;
        assert rxs[i + 1].live;
      }
      assert forall i :: 0 < i < |rxs| && rxs[i].live ==> rxs[1..][i - 1].live;
    }
  }

  /** A send is accepted exactly while some receiver lives, and then it is the next log entry. */
  lemma SendAnswers<T>(w: World<T>, v: T)
    requires Inv(w) && w.state.senders > 0 && w.state.nextSeq < U64_MAX
    ensures var heard := exists i :: 0 <= i < |w.rxs| && w.rxs[i].live;
            && (Send(w.state, v).1 <==> heard)
            && Next(w, SendValue(v)).log == if heard then w.log + [v] else w.log
  {
    SomeoneListens(w.rxs);
  }

  /** A new receiver starts at the end of the log: it sees what is sent from now on, and nothing earlier. */
  lemma SubscribeAnswers<T>(w: World<T>)
    requires Inv(w) && (w.state.senders > 0 || w.state.receivers > 0)
    ensures Next(w, Subscribe).rxs == w.rxs + [Receiver(|w.log|, |w.log|, true, [], 0)]
    ensures Next(w, Subscribe).state == w.state.(receivers := w.state.receivers + 1)
  {
  }

  /** A receive that finds nothing parks the receiver with its waker, and otherwise moves its cursor as the log says. */
  lemma ReceiveAnswers<T>(w: World<T>, i: nat, waker: nat)
    requires Inv(w) && i < |w.rxs| && w.rxs[i].live
    ensures var w' := Next(w, AsyncReceive(i, waker));
            var r := w.rxs[i];
            var oldest := |w.log| - Min(|w.log|, w.state.capacity);
            && w'.rxs[i] == (if r.cursor == |w.log| then r
                             else if r.cursor < oldest then r.(cursor := oldest, lagged := r.lagged + oldest - r.cursor)
                             else r.(cursor := r.cursor + 1, got := r.got + [(r.cursor, w.log[r.cursor])]))
            && (r.cursor == |w.log| && w.state.senders > 0 ==> Parked(i, waker) in w'.state.waiters)
            && Next(w, Receive(i)).rxs == w'.rxs
  {
    RecvReadsLog(w.state, w.log, w.rxs[i].cursor);
  }

  /** No parked receiver drops out: it stays parked until a step wakes it. */
  lemma WaiterIsCalled<T>(w: World<T>, step: Step<T>, p: Parked)
    requires p in w.state.waiters
    ensures var w' := Next(w, step);
            |w.called| <= |w'.called| && (p in w'.state.waiters || p in w'.called[|w.called|..])
  {
  }

  // ----- closing is not final -----

  /** With no sender left, only a weak upgrade can bring one back. */
  lemma ClosedStep<T>(w: World<T>, step: Step<T>)
    requires w.state.senders == 0
    ensures Next(w, step).state.senders == 0 <==> !(step.UpgradeWeak? && w.state.receivers > 0)
    ensures Next(w, step).log == w.log
  {
  }

  ghost predicate NoUpgrade<T>(steps: seq<Step<T>>) {
    forall k :: 0 <= k < |steps| ==> !steps[k].UpgradeWeak?
  }

  lemma {:induction false} ClosedRun<T>(w: World<T>, steps: seq<Step<T>>)
    requires w.state.senders == 0 && NoUpgrade(steps)
    ensures Exec(w, steps).state.senders == 0 && Exec(w, steps).log == w.log
    decreases |steps|
  {
    if steps != [] {
      assert !steps[0].UpgradeWeak?;
      ClosedStep(w, steps[0]);
      ClosedRun(Next(w, steps[0]), steps[1..]);
    }
  }

  /** Without a weak upgrade, a receiver told `Closed` is told so ever after. */
  lemma ClosedStaysClosed<T>(capacity: nat, before: seq<Step<T>>, after: seq<Step<T>>, i: nat)
    requires capacity > 0 && NoUpgrade(after)
    requires var w := Exec(Init(capacity), before);
             i < |w.rxs| && TryRecv(w.state, w.rxs[i].cursor).1 == Closed
    ensures var w' := Exec(Exec(Init(capacity), before), after);
            i < |w'.rxs| && TryRecv(w'.state, w'.rxs[i].cursor).1 == Closed
  {
    EveryRun(capacity, before);
    var w := Exec(Init(capacity), before);
    RecvReadsLog(w.state, w.log, w.rxs[i].cursor);
    RunKeeps(w, after);
    ClosedRun(w, after);
    CursorsGrow(w, after, i);
    var w' := Exec(w, after);
    RecvReadsLog(w'.state, w'.log, w'.rxs[i].cursor);
  }

  lemma CursorStep<T>(w: World<T>, step: Step<T>, i: nat)
    requires Inv(w) && i < |w.rxs|
    ensures i < |Next(w, step).rxs| && w.rxs[i].cursor <= Next(w, step).rxs[i].cursor
  {
    if (step.Receive? || step.AsyncReceive?) && step.i < |w.rxs| {
      RecvReadsLog(w.state, w.log, w.rxs[step.i].cursor);
    }
  }

  /** Cursors never move back. */
  lemma {:induction false} CursorsGrow<T>(w: World<T>, steps: seq<Step<T>>, i: nat)
    requires Inv(w) && i < |w.rxs|
    ensures i < |Exec(w, steps).rxs| && w.rxs[i].cursor <= Exec(w, steps).rxs[i].cursor
    decreases |steps|
  {
    if steps != [] {
      CursorStep(w, steps[0], i);
      StepKeeps(w, steps[0]);
      CursorsGrow(Next(w, steps[0]), steps[1..], i);
    }
  }

  /** A weak sender can revive a channel whose receiver was told it is closed. */
  lemma UpgradeRevives()
    ensures var w0: World<int> := Init(1);
            var w1 := Next(w0, LoseSender);
            var w2 := Next(Next(w1, UpgradeWeak), SendValue(5));
            TryRecv(w1.state, 0).1 == Closed && TryRecv(w2.state, 0).1 == Value(5)
  {
    var w0: World<int> := Init(1);
    var w1 := Next(w0, LoseSender);
    assert w1.state == State([], 1, 0, 0, 1, []);
    var back := Next(w1, UpgradeWeak);
    assert back.state == State([], 1, 0, 1, 1, []);
    var w2 := Next(back, SendValue(5));
    assert w2.state.queue == [(0, 5)];
  }
}

/** The broadcast channel's locked sections as the code performs them. */
module BroadcastCode {
  import opened Base
  import B = Broadcast

  class Channel<T> {
    var queue: seq<(nat, T)>
    const capacity: nat
    var nextSeq: nat
    var senders: nat
    var receivers: nat
    var waiters: seq<B.Parked>

    function State(): B.State<T>
      reads this
    {
      B.State(queue, capacity, nextSeq, senders, receivers, waiters)
    }

    constructor (cap: nat)
      requires cap > 0
      ensures State() == B.Init<T>(cap).state
    {
      queue, capacity, nextSeq, senders, receivers, waiters := [], cap, 0, 1, 1, [];
    }

    /** Appends, then evicts from the front one entry at a time, then wakes one parked receiver at a time. */
    method PushLocked(v: T) returns (woken: seq<B.Parked>)
      modifies this
      ensures State() == B.Push(old(State()), v) && woken == old(waiters)
    {
      var seqNo := nextSeq;
      nextSeq := if nextSeq == U64_MAX then 0 else nextSeq + 1;
      queue := queue + [(seqNo, v)];
      Evict();
      woken := WakeAll();
    }

    /** Tells how many receivers a value reached; nothing if there are none. */
    method Send(v: T) returns (reached: Option<nat>, woken: seq<B.Parked>)
      modifies this
      ensures (State(), reached.Some?) == B.Send(old(State()), v) && woken == B.SendWakes(old(State()))
      ensures reached.Some? ==> reached.value == receivers > 0
    {
      if receivers == 0 {
        return None, [];
      }
      woken := PushLocked(v);
      reached := Some(receivers);
    }

    /** The cursor of a new receiver. */
    method Subscribe() returns (cursor: nat)
      modifies this`receivers
      ensures State() == old(State()).(receivers := old(receivers) + 1) && cursor == B.Fresh(old(State())).cursor
    {
      receivers := receivers + 1;
      cursor := nextSeq;
    }

    method Evict()
      modifies this`queue
      ensures queue == old(queue)[|old(queue)| - Min(|old(queue)|, capacity)..]
    {
      while |queue| > capacity
        invariant |queue| <= |old(queue)| && queue == old(queue)[|old(queue)| - |queue|..]
        invariant |queue| >= Min(|old(queue)|, capacity)
        decreases |queue|
      {
        queue := queue[1..];
      }
    }

    method WakeAll() returns (woken: seq<B.Parked>)
      modifies this`waiters
      ensures waiters == [] && woken == old(waiters)
    {
      woken := [];
      while waiters != []
        invariant woken + waiters == old(waiters)
        decreases |waiters|
      {
        woken, waiters := woken + [waiters[0]], waiters[1..];
      }
    }

    /** The search both receive paths make. */
    method Locate(cursor: nat) returns (index: Option<nat>)
      ensures index == B.FirstFrom(queue, cursor)
    {
      var k := 0;
      while k < |queue| && queue[k].0 < cursor
        invariant 0 <= k <= |queue|
        invariant forall j :: 0 <= j < k ==> queue[j].0 < cursor
      {
        k := k + 1;
      }
      index := if k < |queue| then Some(k) else None;
    }

    method TryRecvLocked(nextRead: nat) returns (cursor: nat, outcome: B.Outcome<T>)
      ensures (cursor, outcome) == B.TryRecv(State(), nextRead)
    {
      cursor := nextRead;
      var index := Locate(nextRead);
      if index.Some? {
        var seqNo := queue[index.value].0;
        if seqNo > nextRead {
          return seqNo, B.Lagged(seqNo - nextRead);
        }
        return if nextRead == U64_MAX then 0 else nextRead + 1, B.Value(queue[index.value].1);
      }
      outcome := if senders == 0 then B.Closed else B.Empty;
    }

    /** The asynchronous path: as above, except that an empty channel parks the receiver. */
    method PollRecv(rx: nat, nextRead: nat, waker: nat) returns (cursor: nat, outcome: B.Outcome<T>)
      modifies this
      ensures (cursor, outcome) == B.TryRecv(old(State()), nextRead)
      ensures State() == if outcome == B.Empty then old(State()).(waiters := old(waiters) + [B.Parked(rx, waker)])
                         else old(State())
    {
      cursor := nextRead;
      var index := Locate(nextRead);
      if index.Some? {
        var seqNo := queue[index.value].0;
        if seqNo > nextRead {
          var skipped := seqNo - nextRead;
          cursor := seqNo;
          return cursor, B.Lagged(skipped);
        }
        var value := queue[index.value].1;
        cursor := if cursor == U64_MAX then 0 else cursor + 1;
        return cursor, B.Value(value);
      }
      if senders == 0 {
        return cursor, B.Closed;
      }
      waiters := waiters + [B.Parked(rx, waker)];
      outcome := B.Empty;
    }

    method DropSender() returns (woken: seq<B.Parked>)
      requires senders > 0
      modifies this
      ensures State() == B.DropSender(old(State()))
      ensures woken == if senders == 0 then old(waiters) else []
      ensures woken == B.DropWakes(old(State()))
    {
      senders, woken := senders - 1, [];
      if senders == 0 {
        woken := WakeAll();
      }
    }
  }
}
