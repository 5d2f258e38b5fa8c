/**
  The readiness reactor. Two locks guard one descriptor: `events` serializes
  re-arming and every change of readiness, `waiters` the lists of parked tasks.
  Readiness itself is an atomic word read under either lock or neither, so the
  model interleaves single statements of any number of threads.
 */
module Reactor {
  import opened Base

  datatype Flag = In | Pri | Out | Err | Hup

  const ERRORS: set<Flag> := {Err, Hup}
  const READ_LIST: set<Flag> := {In, Pri, Err, Hup}
  const WRITE_LIST: set<Flag> := {Out, Err, Hup}
  const ALL: set<Flag> := {In, Pri, Out, Err, Hup}

  /** Generations count modulo 2^32. */
  const GENERATIONS: nat := 0x1_0000_0000

  /** The directions still to be watched: none once an error is cached, else those not cached ready. */
  function Desired(interest: set<Flag>, ready: set<Flag>): set<Flag> {
    if ready * ERRORS != {} then {} else interest - ready
  }

  /** A parked task and the readiness it waits for in this list. */
  datatype Entry = Entry(waker: nat, bits: set<Flag>)

  /**
    One registered descriptor. `armed` is what the kernel watches. `count` is
    the number of generation steps so far and `stamp` the step that last set
    each flag; both exist to state what a generation protects.
   */
  datatype Io = Io(
    interest: set<Flag>, ready: set<Flag>, count: nat, stamp: map<Flag, nat>,
    registered: bool, doomed: bool, events: set<Flag>, armed: set<Flag>,
    readers: seq<Entry>, writers: seq<Entry>)

  function Generation(io: Io): nat {
    io.count % GENERATIONS
  }

  /** Sets flags under a new generation. */
  function Post(io: Io, flags: set<Flag>): Io {
    io.(ready := io.ready + flags, count := io.count + 1,
        stamp := map f | f in ALL :: if f in flags || f !in io.stamp then io.count + 1 else io.stamp[f])
  }

  datatype Origin = Register | Callback | Clear

  /** Where a thread is between two shared accesses. The first group holds the `events` lock. */
  datatype Pc =
    | Stored(origin: Origin) | Deleted(origin: Origin) | Failed(origin: Origin)
    | Idle
    | Found(flags: set<Flag>)
    | WakeLoad
    | WakeDrain(seen: set<Flag>)
    | Calling(wakers: seq<nat>)
    | PollLoaded(interest: set<Flag>, waker: nat)
    | GivingUp

  /** A readiness observation handed to a caller. */
  datatype Guard = Guard(ready: set<Flag>, generation: nat, count: nat)

  /** The descriptor, the threads, who holds each lock, the observations handed out and the wakers called so far. */
  datatype World = World(
    io: Io, threads: seq<Pc>, events: Option<nat>, waiters: Option<nat>, guards: seq<Guard>, called: seq<nat>)

  /** The statements of one thread. */
  datatype Op =
    | Arrive(flags: set<Flag>)
    | Store
    | BeginClear(g: nat)
    | Delete(ok: bool, dropped: bool)
    | Rearm(ok: bool)
    | RecordError
    | Load
    | Drain
    | Call
    | BeginPoll(interest: set<Flag>, waker: nat)
    | FinishPoll
    | Deregister(dropped: bool)

  datatype Step =
    | NewThread
    | Observe(interest: set<Flag>)
    | Run(t: nat, op: Op)

  predicate HoldsEvents(pc: Pc) {
    pc.Stored? || pc.Deleted? || pc.Failed?
  }

  /** A descriptor just constructed: thread 0 holds the lock and is about to arm it. */
  function Init(interest: set<Flag>): World {
    World(Io(interest, {}, 0, map f | f in ALL :: 0, true, false, {}, {}, [], []),
          [Stored(Register)], Some(0), None, [], [])
  }

  function Go(w: World, t: nat, pc: Pc): World
    requires t < |w.threads|
  {
    w.(threads := w.threads[t := pc])
  }

  /** The end of a successful re-arming: the lock is released, and a callback goes on to wake tasks. */
  function Updated(w: World, t: nat, io: Io, origin: Origin): World
    requires t < |w.threads|
  {
    Go(w, t, if origin == Callback then WakeLoad else Idle).(io := io, events := None)
  }

  function StoreStep(w: World, t: nat): World
    requires t < |w.threads| && w.threads[t].Found?
  {
    if !w.io.registered then Go(w, t, Idle)
    else Go(w, t, Stored(Callback)).(io := Post(w.io, w.threads[t].flags), events := Some(t))
  }

  function ClearStep(w: World, t: nat, g: Guard): World
    requires t < |w.threads|
  {
    if !w.io.registered || Generation(w.io) != g.generation then w
    else Go(w, t, Stored(Clear)).(io := w.io.(ready := w.io.ready - g.ready), events := Some(t))
  }

  /** First half of a re-arming: nothing to do, or remove the old registration. A failed removal may or may not stick. */
  function DeleteStep(w: World, t: nat, ok: bool, dropped: bool): World
    requires t < |w.threads| && w.threads[t].Stored?
  {
    var origin := w.threads[t].origin;
    if Desired(w.io.interest, w.io.ready) == w.io.events then Updated(w, t, w.io, origin)
    else if w.io.events == {} then Go(w, t, Deleted(origin))
    else if ok then Go(w, t, Deleted(origin)).(io := w.io.(events := {}, armed := {}))
    else Go(w, t, Failed(origin)).(io := w.io.(events := {}, armed := if dropped then {} else w.io.armed))
  }

  /** Second half: add the new registration, if any direction is still to be watched. */
  function RearmStep(w: World, t: nat, ok: bool): World
    requires t < |w.threads| && w.threads[t].Deleted?
  {
    var origin := w.threads[t].origin;
    var desired := Desired(w.io.interest, w.io.ready);
    if desired == {} then Updated(w, t, w.io, origin)
    else if ok then Updated(w, t, w.io.(events := desired, armed := desired + ERRORS), origin)
    else Go(w, t, Failed(origin))
  }

  /** A failed re-arming caches an error; a failed first registration is abandoned instead. */
  function RecordStep(w: World, t: nat): World
    requires t < |w.threads| && w.threads[t].Failed?
  {
    if w.threads[t].origin == Register
    then Go(w, t, GivingUp).(io := w.io.(doomed := true), events := None)
    else Go(w, t, WakeLoad).(io := Post(w.io, {Err}), events := None)
  }

  function DrainStep(w: World, t: nat): World
    requires t < |w.threads| && w.threads[t].WakeDrain?
  {
    var seen := w.threads[t].seen;
    var rs := if seen * READ_LIST != {} then w.io.readers else [];
    var ws := if seen * WRITE_LIST != {} then w.io.writers else [];
    var io := w.io.(readers := if seen * READ_LIST != {} then [] else w.io.readers,
                    writers := if seen * WRITE_LIST != {} then [] else w.io.writers);
    Go(w, t, Calling(Wakers(rs) + Wakers(ws))).(io := io)
  }

  function Wakers(es: seq<Entry>): seq<nat> {
    seq(|es|, k requires 0 <= k < |es| => es[k].waker)
  }

  /** One entry per waker: a task that waits again is merged with its earlier entry. */
  function Enlist(es: seq<Entry>, e: Entry): (r: seq<Entry>)
    ensures forall x :: x in r ==> x in es || x == e || (exists o :: o in es && x.bits == o.bits + e.bits)
    ensures exists x :: x in r && x.waker == e.waker && e.bits <= x.bits
  {
    if es == [] then assert e in [e]; [e]
    else if es[0].waker == e.waker then
      var x := Entry(e.waker, es[0].bits + e.bits);
      assert x in [x] + es[1..] && es[0] in es;
      [x] + es[1..]
    else
      var tail := Enlist(es[1..], e);
      assert forall x :: x in tail ==> x in [es[0]] + tail;
      [es[0]] + tail
  }

  datatype Side = Readers | Writers

  /** The readiness that drains a list. */
  function Mask(side: Side): set<Flag> {
    if side == Readers then READ_LIST else WRITE_LIST
  }

  /** What a task with this interest waits for in a list; nothing if it does not enter that list. */
  function WaitBits(interest: set<Flag>, side: Side): set<Flag> {
    match side
    case Readers => if interest * {In, Pri, Err} != {} then (interest * {In, Pri}) + ERRORS else {}
    case Writers => if Out in interest then WRITE_LIST else {}
  }

  /** The wakers of a list after one registers: one entry per waker. */
  function Registered(wakers: seq<nat>, waker: nat): seq<nat> {
    if waker in wakers then wakers else wakers + [waker]
  }

  lemma WakersCons(e: Entry, es: seq<Entry>)
    ensures Wakers([e] + es) == [e.waker] + Wakers(es)
  {
  }

  lemma RegisteredCons(a: nat, wakers: seq<nat>, waker: nat)
    requires a != waker
    ensures Registered([a] + wakers, waker) == [a] + Registered(wakers, waker)
  {
    assert [a] + (wakers + [waker]) == ([a] + wakers) + [waker];
  }

  lemma {:induction false} EnlistRegisters(es: seq<Entry>, e: Entry)
    ensures Wakers(Enlist(es, e)) == Registered(Wakers(es), e.waker)
  {
    if es == [] {
      assert Wakers([e]) == [e.waker];
    } else {
      assert es == [es[0]] + es[1..];
      WakersCons(es[0], es[1..]);
      if es[0].waker == e.waker {
        WakersCons(Entry(e.waker, es[0].bits + e.bits), es[1..]);
      } else {
        EnlistRegisters(es[1..], e);
        WakersCons(es[0], Enlist(es[1..], e));
        RegisteredCons(es[0].waker, Wakers(es[1..]), e.waker);
      }
    }
  }

  function Join(es: seq<Entry>, waker: nat, bits: set<Flag>): seq<Entry> {
    if bits == {} then es else Enlist(es, Entry(waker, bits))
  }

  function EnlistStep(w: World, t: nat): World
    requires t < |w.threads| && w.threads[t].PollLoaded?
  {
    var (interest, waker) := (w.threads[t].interest, w.threads[t].waker);
    Go(w, t, Idle).(io := w.io.(readers := Join(w.io.readers, waker, WaitBits(interest, Readers)),
                                writers := Join(w.io.writers, waker, WaitBits(interest, Writers))),
                    waiters := None)
  }

  function Observed(w: World, interest: set<Flag>): World {
    var seen := w.io.ready * (interest + ERRORS);
    if seen == {} then w
    else w.(guards := w.guards + [Guard(seen, Generation(w.io), w.io.count)])
  }

  function DeregisterStep(w: World, t: nat, dropped: bool): World
    requires t < |w.threads|
  {
    var w' := Go(w, t, Idle);
    if !w.io.registered then w'
    else w'.(io := w.io.(registered := false, events := {},
                         armed := if w.io.events != {} && dropped then {} else w.io.armed))
  }

  /** One statement of thread `t`; one that is not next, or waits for a lock, changes nothing. */
  function RunOp(w: World, t: nat, op: Op): World
    requires t < |w.threads|
  {
    var pc := w.threads[t];
    match op
    case Arrive(flags) => if pc.Idle? then Go(w, t, Found(flags)) else w
    case Store => if pc.Found? && w.events.None? then StoreStep(w, t) else w
    case BeginClear(g) => if pc.Idle? && w.events.None? && g < |w.guards| then ClearStep(w, t, w.guards[g]) else w
    case Delete(ok, dropped) => if pc.Stored? then DeleteStep(w, t, ok, dropped) else w
    case Rearm(ok) => if pc.Deleted? then RearmStep(w, t, ok) else w
    case RecordError => if pc.Failed? then RecordStep(w, t) else w
    case Load => if pc.WakeLoad? then Go(w, t, WakeDrain(w.io.ready)) else w
    case Drain => if pc.WakeDrain? && w.waiters.None? then DrainStep(w, t) else w
    case Call => if pc.Calling? then Go(w, t, Idle).(called := w.called + pc.wakers) else w
    case BeginPoll(interest, waker) =>
      if !pc.Idle? || w.waiters.Some? then w
      else if w.io.ready * (interest + ERRORS) != {} then Observed(w, interest)
      else Go(w, t, PollLoaded(interest, waker)).(waiters := Some(t))
    case FinishPoll => if pc.PollLoaded? then EnlistStep(w, t) else w
    case Deregister(dropped) =>
      if (pc.Idle? || pc.GivingUp?) && w.events.None? then DeregisterStep(w, t, dropped) else w
  }

  function Next(w: World, step: Step): World {
    match step
    case NewThread => w.(threads := w.threads + [Idle])
    case Observe(interest) => Observed(w, interest)
    case Run(t, op) => if t < |w.threads| then RunOp(w, t, op) else w
  }

  function Exec(w: World, steps: seq<Step>): World
    decreases |steps|
  {
    if steps == [] then w else Exec(Next(w, steps[0]), steps[1..])
  }

  // ----- what every run keeps -----

  /** Each lock is held by exactly the thread inside its section, and only while registered. */
  ghost predicate Locks(w: World) {
    && (forall t :: 0 <= t < |w.threads| ==> (HoldsEvents(w.threads[t]) <==> w.events == Some(t)))
    && (forall t :: 0 <= t < |w.threads| ==> (w.threads[t].PollLoaded? <==> w.waiters == Some(t)))
    && (w.events.Some? ==> w.events.value < |w.threads| && w.io.registered)
    && (w.waiters.Some? ==> w.waiters.value < |w.threads|)
  }

  /** What is armed matches what is recorded, and outside the lock what is recorded is what is desired. */
  ghost predicate Armed(w: World) {
    && (w.io.events != {} ==> w.io.armed == w.io.events + ERRORS)
    && (w.events.None? && w.io.registered && !w.io.doomed ==> w.io.events == Desired(w.io.interest, w.io.ready))
    && (forall t :: 0 <= t < |w.threads| && (w.threads[t].Deleted? || w.threads[t].Failed?) ==> w.io.events == {})
  }

  ghost predicate Stamps(w: World) {
    && w.io.stamp.Keys == ALL
    && (forall f :: f in w.io.stamp ==> w.io.stamp[f] <= w.io.count)
    && (forall g :: 0 <= g < |w.guards| ==>
          w.guards[g].count <= w.io.count && w.guards[g].generation == w.guards[g].count % GENERATIONS)
  }

  /** The thread has set readiness, or will, and has yet to load it in order to wake tasks. */
  predicate WillLoad(pc: Pc) {
    match pc
    case Stored(origin) => origin == Callback
    case Deleted(origin) => origin == Callback
    case Failed(origin) => origin != Register
    case WakeLoad => true
    case _ => false
  }

  /** The thread will drain this list: it has yet to load readiness, or loaded some that drains it. */
  predicate WillDrain(pc: Pc, side: Side) {
    WillLoad(pc) || (pc.WakeDrain? && pc.seen * Mask(side) != {})
  }

  ghost predicate WakeComing(threads: seq<Pc>, side: Side) {
    exists t :: 0 <= t < |threads| && WillDrain(threads[t], side)
  }

  function ListOf(io: Io, side: Side): seq<Entry> {
    if side == Readers then io.readers else io.writers
  }

  /** Every task parked in this list, or about to be, whose readiness is set has a wake coming. */
  ghost predicate Served(w: World, side: Side) {
    && (forall e :: e in ListOf(w.io, side) ==>
          e.bits <= Mask(side) && (w.io.ready * e.bits != {} ==> WakeComing(w.threads, side)))
    && (forall t :: 0 <= t < |w.threads| && w.threads[t].PollLoaded? ==>
          (w.io.ready * WaitBits(w.threads[t].interest, side) != {} ==> WakeComing(w.threads, side)))
  }

  ghost predicate Inv(w: World) {
    Locks(w) && Armed(w) && Stamps(w) && Served(w, Readers) && Served(w, Writers)
  }

  /** A lock passes only between free and the thread that moves. */
  predicate Passes(before: Option<nat>, after: Option<nat>, t: nat) {
    before == after || ((before.None? || before == Some(t)) && (after.None? || after == Some(t)))
  }

  lemma LocksMove(w: World, w': World, t: nat)
    requires Locks(w) && t < |w.threads| && |w'.threads| == |w.threads|
    requires w'.threads == w.threads[t := w'.threads[t]]
    requires Passes(w.events, w'.events, t) && (HoldsEvents(w'.threads[t]) <==> w'.events == Some(t))
    requires Passes(w.waiters, w'.waiters, t) && (w'.threads[t].PollLoaded? <==> w'.waiters == Some(t))
    requires w'.events.Some? ==> w'.io.registered
    ensures Locks(w')
  {
    forall o | 0 <= o < |w'.threads|
      ensures (HoldsEvents(w'.threads[o]) <==> w'.events == Some(o)) && (w'.threads[o].PollLoaded? <==> w'.waiters == Some(o))
    {
      if o != t { assert w'.threads[o] == w.threads[o]; }
    }
  }

  lemma LocksKept(w: World, t: nat, op: Op)
    requires Locks(w) && t < |w.threads|
    ensures Locks(RunOp(w, t, op))
  {
    assert HoldsEvents(w.threads[t]) <==> w.events == Some(t);
    assert w.threads[t].PollLoaded? <==> w.waiters == Some(t);
    if op.Arrive? || op.Load? || op.Drain? || op.Call? || op.BeginPoll? || op.FinishPoll? {
      LocksMove(w, RunOp(w, t, op), t);
    } else {
      EventsKept(w, t, op);
    }
  }

  lemma EventsKept(w: World, t: nat, op: Op)
    requires Locks(w) && t < |w.threads|
    requires op.Store? || op.BeginClear? || op.Delete? || op.Rearm? || op.RecordError? || op.Deregister?
    ensures Locks(RunOp(w, t, op))
  {
    LocksMove(w, RunOp(w, t, op), t);
  }

  lemma ArmedKept(w: World, t: nat, op: Op)
    requires Locks(w) && Armed(w) && t < |w.threads|
    ensures Armed(RunOp(w, t, op))
  {
    assert Err in Post(w.io, {Err}).ready * ERRORS;
  }

  /** Only a callback and a failure move the count; only a poll takes an observation. */
  lemma StampsQuiet(w: World, t: nat, op: Op)
    requires Stamps(w) && t < |w.threads| && !op.Store? && !op.RecordError? && !op.BeginPoll?
    ensures Stamps(RunOp(w, t, op))
  {
  }

  lemma StampsKept(w: World, t: nat, op: Op)
    requires Stamps(w) && t < |w.threads|
    ensures Stamps(RunOp(w, t, op))
  {
    match op
    case Store =>
    case RecordError =>
    case BeginPoll(interest, waker) =>
    case _ => StampsQuiet(w, t, op);
  }

  /** A thread other than `t` keeps its promise; `t` itself may have taken over. */
  lemma ComingKept(threads: seq<Pc>, t: nat, pc: Pc, side: Side)
    requires t < |threads| && WakeComing(threads, side)
    requires WillDrain(threads[t], side) ==> WillDrain(pc, side)
    ensures WakeComing(threads[t := pc], side)
  {
    var o :| 0 <= o < |threads| && WillDrain(threads[o], side);
    assert WillDrain(threads[t := pc][o], side);
  }

  /** A thread that has just set flags, or is about to load them, answers for the whole list. */
  lemma ServedBy(w: World, t: nat, side: Side)
    requires t < |w.threads| && WillDrain(w.threads[t], side)
    requires forall e :: e in ListOf(w.io, side) ==> e.bits <= Mask(side)
    ensures Served(w, side)
  {
    assert WakeComing(w.threads, side);
  }

  /** Moving one thread without setting flags or touching the list. */
  lemma ServedMove(w: World, w': World, t: nat, side: Side)
    requires Served(w, side) && t < |w.threads|
    requires |w'.threads| == |w.threads| && w'.threads == w.threads[t := w'.threads[t]]
    requires ListOf(w'.io, side) == ListOf(w.io, side) && w'.io.ready <= w.io.ready
    requires WillDrain(w.threads[t], side) ==> WillDrain(w'.threads[t], side)
    requires w'.threads[t].PollLoaded? ==>
               w'.threads[t] == w.threads[t] || w'.io.ready * WaitBits(w'.threads[t].interest, side) == {}
    ensures Served(w', side)
  {
    if WakeComing(w.threads, side) {
      ComingKept(w.threads, t, w'.threads[t], side);
    }
    forall e | e in ListOf(w'.io, side) && w'.io.ready * e.bits != {} ensures WakeComing(w'.threads, side) {
      assert w'.io.ready * e.bits <= w.io.ready * e.bits;
    }
    forall o | 0 <= o < |w'.threads| && w'.threads[o].PollLoaded? && w'.io.ready * WaitBits(w'.threads[o].interest, side) != {}
      ensures WakeComing(w'.threads, side)
    {
      assert w'.threads[o] == w.threads[o];
      assert w'.io.ready * WaitBits(w'.threads[o].interest, side) <= w.io.ready * WaitBits(w.threads[o].interest, side);
    }
  }

  /** Loading readiness: it drains the list of every task it concerns. */
  lemma ServedLoad(w: World, t: nat, side: Side)
    requires Served(w, side) && t < |w.threads| && w.threads[t].WakeLoad?
    ensures Served(Go(w, t, WakeDrain(w.io.ready)), side)
  {
    var w' := Go(w, t, WakeDrain(w.io.ready));
    if w.io.ready * Mask(side) != {} {
      ServedBy(w', t, side);
    } else {
      forall e | e in ListOf(w.io, side) ensures w.io.ready * e.bits == {} {
        assert w.io.ready * e.bits <= w.io.ready * Mask(side);
      }
      forall o | 0 <= o < |w.threads| && w.threads[o].PollLoaded?
        ensures w.io.ready * WaitBits(w.threads[o].interest, side) == {}
      {
        assert w.io.ready * WaitBits(w.threads[o].interest, side) <= w.io.ready * Mask(side);
      }
    }
  }

  /** Draining: the list is emptied, or the loaded readiness did not concern it. */
  lemma ServedDrain(w: World, t: nat, side: Side)
    requires Served(w, side) && Locks(w) && t < |w.threads| && w.threads[t].WakeDrain? && w.waiters.None?
    ensures Served(DrainStep(w, t), side)
  {
    var w' := DrainStep(w, t);
    if w.threads[t].seen * Mask(side) != {} {
      assert ListOf(w'.io, side) == [];
      assert forall o :: 0 <= o < |w'.threads| ==> !w'.threads[o].PollLoaded?;
    } else {
      ServedMove(w, w', t, side);
    }
  }

  /** Entering a list: the task was about to wait for exactly these flags. */
  lemma ServedEnlist(w: World, t: nat, side: Side)
    requires Served(w, side) && t < |w.threads| && w.threads[t].PollLoaded?
    ensures Served(EnlistStep(w, t), side)
  {
    var w' := EnlistStep(w, t);
    var es, bits := ListOf(w.io, side), WaitBits(w.threads[t].interest, side);
    if WakeComing(w.threads, side) {
      ComingKept(w.threads, t, Idle, side);
    }
    forall x | x in ListOf(w'.io, side)
      ensures x.bits <= Mask(side) && (w.io.ready * x.bits != {} ==> WakeComing(w'.threads, side))
    {
      if x !in es && x != Entry(w.threads[t].waker, bits) {
        var o :| o in es && x.bits == o.bits + bits;
        assert w.io.ready * x.bits == w.io.ready * o.bits + w.io.ready * bits;
      }
    }
    forall o | 0 <= o < |w'.threads| && w'.threads[o].PollLoaded? ensures w'.threads[o] == w.threads[o] {
    }
  }

  lemma ServedStore(w: World, t: nat, side: Side)
    requires Served(w, side) && t < |w.threads| && w.threads[t].Found?
    ensures Served(StoreStep(w, t), side)
  {
    if w.io.registered {
      ServedBy(StoreStep(w, t), t, side);
    } else {
      ServedMove(w, StoreStep(w, t), t, side);
    }
  }

  lemma ServedRecord(w: World, t: nat, side: Side)
    requires Served(w, side) && t < |w.threads| && w.threads[t].Failed?
    ensures Served(RecordStep(w, t), side)
  {
    if w.threads[t].origin == Register {
      ServedMove(w, RecordStep(w, t), t, side);
    } else {
      ServedBy(RecordStep(w, t), t, side);
    }
  }

  lemma ServedPoll(w: World, t: nat, interest: set<Flag>, waker: nat, side: Side)
    requires Served(w, side) && t < |w.threads|
    ensures Served(RunOp(w, t, BeginPoll(interest, waker)), side)
  {
    var w' := RunOp(w, t, BeginPoll(interest, waker));
    if w'.threads != w.threads {
      assert w.io.ready * WaitBits(interest, side) <= w.io.ready * (interest + ERRORS);
      ServedMove(w, w', t, side);
    }
  }

  lemma ServedQuiet(w: World, t: nat, op: Op, side: Side)
    requires Served(w, side) && t < |w.threads|
    requires op.Arrive? || op.BeginClear? || op.Delete? || op.Rearm? || op.Call? || op.Deregister?
    ensures Served(RunOp(w, t, op), side)
  {
    ServedMove(w, RunOp(w, t, op), t, side);
  }

  lemma ServedKept(w: World, t: nat, op: Op, side: Side)
    requires Locks(w) && Served(w, side) && t < |w.threads|
    ensures Served(RunOp(w, t, op), side)
  {
    var pc := w.threads[t];
    match op
    case Store => if pc.Found? { ServedStore(w, t, side); }
    case RecordError => if pc.Failed? { ServedRecord(w, t, side); }
    case Load => if pc.WakeLoad? { ServedLoad(w, t, side); }
    case Drain => if pc.WakeDrain? && w.waiters.None? { ServedDrain(w, t, side); }
    case FinishPoll => if pc.PollLoaded? { ServedEnlist(w, t, side); }
    case BeginPoll(interest, waker) => ServedPoll(w, t, interest, waker, side);
    case _ => ServedQuiet(w, t, op, side);
  }

  lemma StepKeeps(w: World, step: Step)
    requires Inv(w)
    ensures Inv(Next(w, step))
  {
    match step
    case Run(t, op) =>
      if t < |w.threads| {
        LocksKept(w, t, op);
        ArmedKept(w, t, op);
        StampsKept(w, t, op);
        ServedKept(w, t, op, Readers);
        ServedKept(w, t, op, Writers);
      }
    case NewThread =>
      NewThreadServed(w, Readers);
      NewThreadServed(w, Writers);
    case Observe(interest) =>
  }

  lemma NewThreadServed(w: World, side: Side)
    requires Served(w, side)
    ensures Served(w.(threads := w.threads + [Idle]), side)
  {
    var threads' := w.threads + [Idle];
    if WakeComing(w.threads, side) {
      var o :| 0 <= o < |w.threads| && WillDrain(w.threads[o], side);
      assert WillDrain(threads'[o], side);
    }
    forall o | 0 <= o < |threads'| && threads'[o].PollLoaded? ensures o < |w.threads| && threads'[o] == w.threads[o] {
    }
  }

  lemma {:induction false} RunKeeps(w: World, steps: seq<Step>)
    requires Inv(w)
    ensures Inv(Exec(w, steps))
    decreases |steps|
  {
    if steps != [] {
      StepKeeps(w, steps[0]);
      RunKeeps(Next(w, steps[0]), steps[1..]);
    }
  }

  lemma EveryRun(interest: set<Flag>, steps: seq<Step>)
    ensures Inv(Exec(Init(interest), steps))
  {
    RunKeeps(Init(interest), steps);
  }

  // ----- the guarantees, in the caller's terms -----

  /** No lost wake: a parked task one of whose flags is set always has a wake still to come. */
  lemma ParkedTaskWillBeWoken(interest: set<Flag>, steps: seq<Step>, side: Side, e: Entry)
    requires var w := Exec(Init(interest), steps);
             e in ListOf(w.io, side) && w.io.ready * e.bits != {}
    ensures WakeComing(Exec(Init(interest), steps).threads, side)
  {
    EveryRun(interest, steps);
  }

  /** Once every thread is idle, no parked task has any of its flags set. */
  lemma QuietMeansNothingMissed(interest: set<Flag>, steps: seq<Step>, side: Side, e: Entry)
    requires var w := Exec(Init(interest), steps);
             e in ListOf(w.io, side) && forall t :: 0 <= t < |w.threads| ==> w.threads[t].Idle?
    ensures Exec(Init(interest), steps).io.ready * e.bits == {}
  {
    EveryRun(interest, steps);
    var w := Exec(Init(interest), steps);
    assert forall t :: 0 <= t < |w.threads| ==> !WillDrain(w.threads[t], side);
  }

  lemma {:induction false} ExecSnoc(w: World, steps: seq<Step>, step: Step)
    ensures Exec(w, steps + [step]) == Next(Exec(w, steps), step)
    decreases |steps|
  {
    if steps == [] {
      assert [] + [step] == [step] && [step][1..] == [];
    } else {
      assert (steps + [step])[1..] == steps[1..] + [step];
      ExecSnoc(Next(w, steps[0]), steps[1..], step);
    }
  }

  /** One thread, its place, the cached and recorded flags and the readers list. */
  ghost predicate Scene(w: World, pc: Pc, ready: set<Flag>, events: set<Flag>, readers: seq<Entry>) {
    && w.threads == [pc] && w.io.ready == ready && w.io.events == events && w.io.readers == readers
    && w.io.writers == [] && w.io.interest == {In, Pri} && w.io.registered
    && w.events == (if HoldsEvents(pc) then Some(0) else None)
    && w.waiters == (if pc.PollLoaded? then Some(0) else None)
  }

  /** Extends a run by two statements of thread 0. */
  lemma Extend(w: World, steps: seq<Step>, a: Op, b: Op) returns (longer: seq<Step>)
    ensures Exec(w, longer) == Next(Next(Exec(w, steps), Run(0, a)), Run(0, b))
  {
    ExecSnoc(w, steps, Run(0, a));
    ExecSnoc(w, steps + [Run(0, a)], Run(0, b));
    longer := steps + [Run(0, a)] + [Run(0, b)];
  }

  lemma SceneArmed(w: World)
    requires Scene(w, Stored(Register), {}, {}, [])
    ensures Scene(Next(Next(w, Run(0, Delete(true, true))), Run(0, Rearm(true))), Idle, {}, {In, Pri}, [])
  {
    var w1 := Next(w, Run(0, Delete(true, true)));
    assert In in Desired({In, Pri}, {});
    assert Scene(w1, Deleted(Register), {}, {}, []);
  }

  lemma SceneRearmed(w: World)
    requires Scene(w, Stored(Callback), {In}, {In, Pri}, [])
    ensures Scene(Next(Next(w, Run(0, Delete(true, true))), Run(0, Rearm(true))), WakeLoad, {In}, {Pri}, [])
  {
    var w1 := Next(w, Run(0, Delete(true, true)));
    assert {In} * ERRORS == {} && {In, Pri} - {In} == {Pri};
    assert In !in Desired({In, Pri}, {In});
    assert Scene(w1, Deleted(Callback), {In}, {}, []);
  }

  lemma StageReadable(w: World) returns (steps: seq<Step>)
    requires Scene(w, Stored(Register), {}, {}, [])
    ensures Scene(Exec(w, steps), Stored(Callback), {In}, {In, Pri}, [])
  {
    SceneArmed(w);
    steps := Extend(w, [], Delete(true, true), Rearm(true));
    steps := Extend(w, steps, Arrive({In}), Store);
  }

  lemma StageWoken(w: World, before: seq<Step>) returns (steps: seq<Step>)
    requires Scene(Exec(w, before), Stored(Callback), {In}, {In, Pri}, [])
    ensures Scene(Exec(w, steps), Idle, {In}, {Pri}, [])
  {
    SceneRearmed(Exec(w, before));
    steps := Extend(w, before, Delete(true, true), Rearm(true));
    steps := StageCalled(w, steps);
  }

  lemma StageCalled(w: World, before: seq<Step>) returns (steps: seq<Step>)
    requires Scene(Exec(w, before), WakeLoad, {In}, {Pri}, [])
    ensures Scene(Exec(w, steps), Idle, {In}, {Pri}, [])
  {
    steps := Extend(w, before, Load, Drain);
    assert Wakers([]) + Wakers([]) == [];
    assert Scene(Exec(w, steps), Calling([]), {In}, {Pri}, []);
    steps := Extend(w, steps, Call, Call);
  }

  lemma SceneParked(w: World)
    requires Scene(w, Idle, {In}, {Pri}, [])
    ensures Scene(Next(Next(w, Run(0, BeginPoll({Pri}, 7))), Run(0, FinishPoll)),
                  Idle, {In}, {Pri}, [Entry(7, {Pri, Err, Hup})])
  {
    var w1 := Next(w, Run(0, BeginPoll({Pri}, 7)));
    assert {In} * ({Pri} + ERRORS) == {};
    assert Scene(w1, PollLoaded({Pri}, 7), {In}, {Pri}, []);
    assert Pri in {Pri} * {In, Pri, Err};
    assert WaitBits({Pri}, Readers) == {Pri, Err, Hup};
  }

  /**
    The flags must be the task's own. With readability cached, a task waiting
    for priority data alone sits in the readers list with no wake to come,
    although readability is one of the flags that drain that list.
   */
  lemma ListMaskIsNotEnough() returns (steps: seq<Step>)
    ensures var w := Exec(Init({In, Pri}), steps);
            && w.io.readers == [Entry(7, {Pri, Err, Hup})]
            && w.io.ready == {In} && In in Mask(Readers)
            && w.threads == [Idle]
  {
    var w := Init({In, Pri});
    steps := StageReadable(w);
    steps := StageWoken(w, steps);
    SceneParked(Exec(w, steps));
    steps := Extend(w, steps, BeginPoll({Pri}, 7), FinishPoll);
  }

  /**
    Whenever the events lock is free on a live registration, every direction of
    interest is cached ready, watched by the kernel, or masked by a cached
    error or hangup, whatever removals and additions failed on the way.
   */
  lemma EveryDirectionCovered(interest: set<Flag>, steps: seq<Step>, f: Flag)
    requires var w := Exec(Init(interest), steps);
             w.events.None? && w.io.registered && !w.io.doomed && f in w.io.interest
    ensures var w := Exec(Init(interest), steps);
            f in w.io.ready || f in w.io.armed || w.io.ready * ERRORS != {}
  {
    EveryRun(interest, steps);
    var w := Exec(Init(interest), steps);
    if f !in w.io.ready && w.io.ready * ERRORS == {} {
      assert f in w.io.events;
    }
  }

  /** After deregistration readiness never changes again. */
  lemma FrozenAfterDeregistration(w: World, step: Step)
    requires Locks(w) && !w.io.registered
    ensures Next(w, step).io.ready == w.io.ready && Next(w, step).io.count == w.io.count
    ensures !Next(w, step).io.registered
  {
    if step.Run? && step.t < |w.threads| {
      assert !HoldsEvents(w.threads[step.t]);
    }
  }

  lemma {:induction false} FrozenRun(w: World, steps: seq<Step>)
    requires Inv(w) && !w.io.registered
    ensures Exec(w, steps).io.ready == w.io.ready && Exec(w, steps).io.count == w.io.count
    decreases |steps|
  {
    if steps != [] {
      FrozenAfterDeregistration(w, steps[0]);
      StepKeeps(w, steps[0]);
      FrozenRun(Next(w, steps[0]), steps[1..]);
    }
  }

  /** Whatever was in flight when the descriptor was deregistered, on no later run does readiness change. */
  lemma DeregisteredIsFinal(interest: set<Flag>, before: seq<Step>, after: seq<Step>)
    requires !Exec(Init(interest), before).io.registered
    ensures var w := Exec(Init(interest), before);
            Exec(w, after).io.ready == w.io.ready && Exec(w, after).io.count == w.io.count
  {
    EveryRun(interest, before);
    FrozenRun(Exec(Init(interest), before), after);
  }

  // ----- what each statement answers -----

  /** An event on a registered descriptor is cached, under a new generation, by the thread that took the lock. */
  lemma StoreAnswers(w: World, t: nat)
    requires t < |w.threads| && w.threads[t].Found? && w.events.None?
    ensures var w' := Next(w, Run(t, Store));
            && w'.io.ready == (if w.io.registered then w.io.ready + w.threads[t].flags else w.io.ready)
            && w'.io.count == (if w.io.registered then w.io.count + 1 else w.io.count)
            && w'.threads[t] == (if w.io.registered then Stored(Callback) else Idle)
  {
  }

  /** A guard clears exactly the flags it observed, exactly if its generation is still the current one. */
  lemma ClearAnswers(w: World, t: nat, g: nat)
    requires t < |w.threads| && w.threads[t].Idle? && w.events.None? && g < |w.guards|
    ensures Next(w, Run(t, BeginClear(g))).io.ready ==
            if w.io.registered && w.guards[g].generation == w.io.count % GENERATIONS
            then w.io.ready - w.guards[g].ready else w.io.ready
  {
  }

  /** A poll observes exactly the cached flags of interest, errors included, and else goes on to park. */
  lemma PollAnswers(w: World, t: nat, interest: set<Flag>, waker: nat)
    requires t < |w.threads| && w.threads[t].Idle? && w.waiters.None?
    ensures var w' := Next(w, Run(t, BeginPoll(interest, waker)));
            var seen := w.io.ready * (interest + {Err, Hup});
            && w'.guards == (if seen != {} then w.guards + [Guard(seen, w.io.count % GENERATIONS, w.io.count)] else w.guards)
            && w'.threads[t] == (if seen != {} then Idle else PollLoaded(interest, waker))
  {
  }

  lemma {:induction false} EnlistKeeps(es: seq<Entry>, e: Entry, o: Entry)
    requires o in es
    ensures exists x :: x in Enlist(es, e) && x.waker == o.waker && o.bits <= x.bits
  {
    if es[0].waker == e.waker {
      var x := Entry(e.waker, es[0].bits + e.bits);
      assert Enlist(es, e) == [x] + es[1..];
      assert x in Enlist(es, e);
      if o != es[0] {
        assert o in es[1..] && o in Enlist(es, e);
      }
    } else {
      var tail := Enlist(es[1..], e);
      assert Enlist(es, e) == [es[0]] + tail;
      if o == es[0] {
        assert o in Enlist(es, e);
      } else {
        EnlistKeeps(es[1..], e, o);
        var x :| x in tail && x.waker == o.waker && o.bits <= x.bits;
        assert x in Enlist(es, e);
      }
    }
  }

  /** The waker is listed, for at least these flags. */
  ghost predicate Listed(io: Io, side: Side, waker: nat, bits: set<Flag>) {
    exists x :: x in ListOf(io, side) && x.waker == waker && bits <= x.bits
  }

  /** A task that parks is listed on each side its interest names, for all it waits for there. */
  lemma ParkAnswers(w: World, t: nat, side: Side)
    requires t < |w.threads| && w.threads[t].PollLoaded?
    ensures var bits := WaitBits(w.threads[t].interest, side);
            bits != {} ==> Listed(Next(w, Run(t, FinishPoll)).io, side, w.threads[t].waker, bits)
  {
    var e := Entry(w.threads[t].waker, WaitBits(w.threads[t].interest, side));
    var es := Enlist(ListOf(w.io, side), e);
    var x :| x in es && x.waker == e.waker && e.bits <= x.bits;
    assert e.bits != {} ==> ListOf(Next(w, Run(t, FinishPoll)).io, side) == es;
  }

  lemma ListsKept(w: World, t: nat, op: Op)
    requires t < |w.threads| && !op.FinishPoll? && !op.Drain?
    ensures RunOp(w, t, op).io.readers == w.io.readers && RunOp(w, t, op).io.writers == w.io.writers
  {
  }

  lemma ParkKeepsListed(w: World, t: nat, side: Side, e: Entry)
    requires t < |w.threads| && e in ListOf(w.io, side)
    ensures Listed(RunOp(w, t, FinishPoll).io, side, e.waker, e.bits)
  {
    var w' := RunOp(w, t, FinishPoll);
    if w.threads[t].PollLoaded? && WaitBits(w.threads[t].interest, side) != {} {
      var n := Entry(w.threads[t].waker, WaitBits(w.threads[t].interest, side));
      EnlistKeeps(ListOf(w.io, side), n, e);
      assert ListOf(w'.io, side) == Enlist(ListOf(w.io, side), n);
    } else {
      assert e in ListOf(w'.io, side);
    }
  }

  /** Every direction a task asks for, and every error, is among what it waits for on some side. */
  lemma InterestIsCovered(interest: set<Flag>, f: Flag)
    requires interest * {In, Pri, Out, Err} != {}
    requires (f in interest && f != Hup) || f in ERRORS
    ensures f in WaitBits(interest, Readers) || f in WaitBits(interest, Writers)
  {
    var g :| g in interest * {In, Pri, Out, Err};
    if g != Out {
      assert g in interest * {In, Pri, Err};
    }
    if f in interest && f != Out && f != Hup {
      assert f in interest * {In, Pri, Err};
    }
  }

  lemma WakerIsTakenBy(w: World, t: nat, op: Op, side: Side, e: Entry)
    requires t < |w.threads| && e in ListOf(w.io, side)
    ensures var w' := Next(w, Run(t, op));
            Listed(w'.io, side, e.waker, e.bits) || (w'.threads[t].Calling? && e.waker in w'.threads[t].wakers)
  {
    var w' := RunOp(w, t, op);
    if op.FinishPoll? {
      ParkKeepsListed(w, t, side, e);
    } else if op.Drain? {
      DrainTakes(w, t, side, e);
    } else {
      ListsKept(w, t, op);
      assert e in ListOf(w'.io, side);
    }
  }

  /** No parked task drops out: its waker stays listed until a thread has taken it in order to call it. */
  lemma WakerIsTaken(w: World, step: Step, side: Side, e: Entry)
    requires e in ListOf(w.io, side)
    ensures var w' := Next(w, step);
            Listed(w'.io, side, e.waker, e.bits)
            || (step.Run? && step.t < |w'.threads| && w'.threads[step.t].Calling? && e.waker in w'.threads[step.t].wakers)
  {
    if step.Run? && step.t < |w.threads| {
      WakerIsTakenBy(w, step.t, step.op, side, e);
    } else {
      assert e in ListOf(Next(w, step).io, side);
    }
  }

  lemma DrainTakes(w: World, t: nat, side: Side, e: Entry)
    requires t < |w.threads| && e in ListOf(w.io, side)
    ensures var w' := RunOp(w, t, Drain);
            e in ListOf(w'.io, side) || (w'.threads[t].Calling? && e.waker in w'.threads[t].wakers)
    ensures w.threads[t].WakeDrain? && w.waiters.None? && w.threads[t].seen * Mask(side) != {} ==>
              RunOp(w, t, Drain).threads[t].Calling? && e.waker in RunOp(w, t, Drain).threads[t].wakers
  {
    var k :| 0 <= k < |ListOf(w.io, side)| && ListOf(w.io, side)[k] == e;
    assert Wakers(ListOf(w.io, side))[k] == e.waker;
    assert e.waker in Wakers(ListOf(w.io, side));
  }

  lemma OnlyCallsCall(w: World, t: nat, op: Op)
    requires t < |w.threads|
    ensures RunOp(w, t, op).called ==
            if op.Call? && w.threads[t].Calling? then w.called + w.threads[t].wakers else w.called
  {
  }

  lemma OthersStand(w: World, o: nat, op: Op, t: nat)
    requires o < |w.threads| && t < |w.threads| && o != t
    ensures |RunOp(w, o, op).threads| == |w.threads| && RunOp(w, o, op).threads[t] == w.threads[t]
  {
  }

  /** A thread that took wakers keeps them until it calls all of them, and a waker called stays recorded. */
  lemma TakenIsCalled(w: World, o: nat, op: Op, t: nat)
    requires o < |w.threads| && t < |w.threads| && w.threads[t].Calling?
    ensures var w' := Next(w, Run(o, op));
            && w.called <= w'.called
            && if o == t && op.Call? then w'.threads[t].Idle? && w'.called == w.called + w.threads[t].wakers
               else w'.threads[t] == w.threads[t]
  {
    OnlyCallsCall(w, o, op);
    if o != t { OthersStand(w, o, op, t); }
  }

  /**
    The wake that is due arrives: from the moment before readiness is loaded,
    three statements of that thread, with the waiters lock free, call every task
    one of whose flags is cached.
   */
  lemma WakeArrives(w: World, t: nat, side: Side, e: Entry)
    requires Inv(w) && t < |w.threads| && w.threads[t].WakeLoad? && w.waiters.None?
    requires e in ListOf(w.io, side) && w.io.ready * e.bits != {}
    ensures e.waker in Next(Next(Next(w, Run(t, Load)), Run(t, Drain)), Run(t, Call)).called
  {
    var w1 := Next(w, Run(t, Load));
    assert w1.threads[t] == WakeDrain(w.io.ready) && e in ListOf(w1.io, side);
    assert e.bits <= Mask(side);
    var f :| f in w.io.ready * e.bits;
    assert f in w.io.ready * Mask(side);
    DrainTakes(w1, t, side, e);
    var w2 := Next(w1, Run(t, Drain));
    assert e.waker in w2.threads[t].wakers;
  }

  /** Deregistration takes effect at once, whatever the kernel says. */
  lemma DeregisterAnswers(w: World, t: nat, dropped: bool)
    requires t < |w.threads| && w.threads[t].Idle? && w.events.None?
    ensures !Next(w, Run(t, Deregister(dropped))).io.registered
    ensures Next(w, Run(t, Deregister(dropped))).io.ready == w.io.ready
  {
  }

  // ----- a locked section that nobody interrupts -----

  /** Which combination of failing removals and additions makes a re-arming fail. */
  predicate RearmFails(interest: set<Flag>, ready: set<Flag>, events: set<Flag>, delOk: bool, addOk: bool) {
    var desired := Desired(interest, ready);
    desired != events && if events != {} && !delOk then true else desired != {} && !addOk
  }

  /** The statements from a change of readiness to the release of the lock, with nothing in between. */
  function Section(w: World, t: nat, delOk: bool, dropped: bool, addOk: bool): World
    requires t < |w.threads| && w.threads[t].Stored?
  {
    var w' := DeleteStep(w, t, delOk, dropped);
    match w'.threads[t]
    case Deleted(_) => AddOrRecord(w', t, addOk)
    case Failed(_) => RecordStep(w', t)
    case _ => w'
  }

  function AddOrRecord(w: World, t: nat, addOk: bool): World
    requires t < |w.threads| && w.threads[t].Deleted?
  {
    var w' := RearmStep(w, t, addOk);
    if w'.threads[t].Failed? then RecordStep(w', t) else w'
  }

  /** The lock is free again: re-armed as desired, or an error cached; a wake is due after a callback or a failure. */
  ghost predicate Released(w: World, t: nat, w': World, origin: Origin, fails: bool)
    requires t < |w.threads|
  {
    && |w'.threads| == |w.threads| && w'.events.None?
    && w'.io.events == (if fails then {} else Desired(w.io.interest, w.io.ready))
    && w'.io.ready == (if fails then w.io.ready + {Err} else w.io.ready)
    && w'.io.count == (if fails then w.io.count + 1 else w.io.count)
    && w'.threads[t] == (if fails || origin == Callback then WakeLoad else Idle)
  }

  lemma RecordAlone(w: World, t: nat)
    requires t < |w.threads| && w.threads[t].Failed? && w.threads[t].origin != Register && w.io.events == {}
    ensures Released(w, t, RecordStep(w, t), w.threads[t].origin, true)
  {
  }

  lemma RearmAlone(w: World, t: nat, addOk: bool)
    requires t < |w.threads| && w.threads[t].Deleted? && w.threads[t].origin != Register && w.io.events == {}
    ensures Released(w, t, AddOrRecord(w, t, addOk), w.threads[t].origin,
                     Desired(w.io.interest, w.io.ready) != {} && !addOk)
  {
    var w' := RearmStep(w, t, addOk);
    if w'.threads[t].Failed? { RecordAlone(w', t); }
  }

  /** Run without interruption, the statements are the section that the code performs under the lock. */
  lemma SectionAlone(w: World, t: nat, delOk: bool, dropped: bool, addOk: bool)
    requires t < |w.threads| && w.threads[t].Stored? && w.threads[t].origin != Register
    ensures Released(w, t, Section(w, t, delOk, dropped, addOk), w.threads[t].origin,
                     RearmFails(w.io.interest, w.io.ready, w.io.events, delOk, addOk))
  {
    var w' := DeleteStep(w, t, delOk, dropped);
    match w'.threads[t]
    case Deleted(_) => RearmAlone(w', t, addOk);
    case Failed(_) => RecordAlone(w', t);
    case _ =>
  }

  /**
    A guard against a newer event: a flag set after the observation is cleared
    exactly when the number of generation steps since then is a multiple of 2^32.
   */
  lemma StaleGuardExact(w: World, t: nat, g: nat, f: Flag)
    requires Inv(w) && t < |w.threads| && g < |w.guards|
    requires w.threads[t].Idle? && w.events.None? && w.io.registered
    requires f in w.guards[g].ready && f in w.io.ready && w.io.stamp[f] > w.guards[g].count
    ensures var w' := Next(w, Run(t, BeginClear(g)));
            f !in w'.io.ready <==> (w.io.count - w.guards[g].count) % GENERATIONS == 0
  {
    SameResidue(w.guards[g].count, w.io.count - w.guards[g].count, GENERATIONS);
  }

  /** So fewer than 2^32 steps after its observation a guard never clears a newer event. */
  lemma FreshEventSurvives(w: World, t: nat, g: nat, f: Flag)
    requires Inv(w) && t < |w.threads| && g < |w.guards|
    requires f in w.io.ready && w.io.stamp[f] > w.guards[g].count
    requires w.io.count - w.guards[g].count < GENERATIONS
    ensures f in Next(w, Run(t, BeginClear(g))).io.ready
  {
    SameResidue(w.guards[g].count, w.io.count - w.guards[g].count, GENERATIONS);
    assert w.io.stamp[f] <= w.io.count;
  }

  // ----- whole operations that nobody interrupts -----

  /** One thread, alone with the descriptor. */
  function Alone(io: Io, pc: Pc): World {
    World(io, [pc], if HoldsEvents(pc) then Some(0) else None, if pc.PollLoaded? then Some(0) else None, [], [])
  }

  /** At rest between operations: everything the runs promise, with no wake owed to anyone. */
  ghost predicate Quiet(io: Io) {
    Inv(Alone(io, Idle))
  }

  /** At rest, no parked task has any of its flags set, and a live registration watches what is desired. */
  lemma QuietMeans(io: Io, side: Side, e: Entry)
    requires Quiet(io) && e in ListOf(io, side)
    ensures io.ready * e.bits == {} && e.bits <= Mask(side)
    ensures io.registered && !io.doomed ==> io.events == Desired(io.interest, io.ready)
  {
    var w := Alone(io, Idle);
    assert ListOf(w.io, side) == ListOf(io, side);
    assert forall t :: 0 <= t < |w.threads| ==> !WillDrain(w.threads[t], side);
    assert Served(w, side);
  }

  /** A re-arming by removal and addition, and whether it succeeds. */
  function Rearmed(io: Io, delOk: bool, dropped: bool, addOk: bool): (Io, bool) {
    var desired := Desired(io.interest, io.ready);
    if desired == io.events then (io, true)
    else if io.events != {} && !delOk then (io.(events := {}, armed := if dropped then {} else io.armed), false)
    else
      var io' := if io.events != {} then io.(events := {}, armed := {}) else io;
      if desired == {} then (io', true)
      else if addOk then (io'.(events := desired, armed := desired + ERRORS), true)
      else (io', false)
  }

  /** It fails exactly in the cases named before. */
  lemma RearmedOk(io: Io, delOk: bool, dropped: bool, addOk: bool)
    ensures Rearmed(io, delOk, dropped, addOk).1 == !RearmFails(io.interest, io.ready, io.events, delOk, addOk)
  {
  }

  /** How a section ends: the lock is released, and a failure has cached an error or condemned the registration. */
  function Ended(io: Io, origin: Origin, ok: bool): World {
    if ok then Alone(io, if origin == Callback then WakeLoad else Idle)
    else if origin == Register then Alone(io.(doomed := true), GivingUp)
    else Alone(Post(io, {Err}), WakeLoad)
  }

  lemma RecordEnds(io: Io, origin: Origin)
    ensures RecordStep(Alone(io, Failed(origin)), 0) == Ended(io, origin, false)
  {
  }

  lemma AddEnds(io: Io, origin: Origin, addOk: bool)
    ensures var desired := Desired(io.interest, io.ready);
            AddOrRecord(Alone(io, Deleted(origin)), 0, addOk) ==
            if desired == {} then Ended(io, origin, true)
            else if addOk then Ended(io.(events := desired, armed := desired + ERRORS), origin, true)
            else Ended(io, origin, false)
  {
    var w := RearmStep(Alone(io, Deleted(origin)), 0, addOk);
    if w.threads[0].Failed? {
      assert w == Alone(io, Failed(origin));
      RecordEnds(io, origin);
    }
  }

  lemma DeleteEnds(io: Io, origin: Origin, ok: bool, dropped: bool)
    ensures DeleteStep(Alone(io, Stored(origin)), 0, ok, dropped) ==
            if Desired(io.interest, io.ready) == io.events then Ended(io, origin, true)
            else if io.events == {} then Alone(io, Deleted(origin))
            else if ok then Alone(io.(events := {}, armed := {}), Deleted(origin))
            else Alone(io.(events := {}, armed := if dropped then {} else io.armed), Failed(origin))
  {
  }

  /** The section is a re-arming. */
  lemma SectionIsRearm(io: Io, origin: Origin, delOk: bool, dropped: bool, addOk: bool)
    ensures var (io', ok) := Rearmed(io, delOk, dropped, addOk);
            Section(Alone(io, Stored(origin)), 0, delOk, dropped, addOk) == Ended(io', origin, ok)
  {
    DeleteEnds(io, origin, delOk, dropped);
    var io1 := if io.events == {} then io else io.(events := {}, armed := {});
    AddEnds(io1, origin, addOk);
    RecordEnds(io.(events := {}, armed := if dropped then {} else io.armed), origin);
  }

  /** A statement keeps what the runs keep. */
  lemma Keeps(w: World, t: nat, op: Op, w': World)
    requires Inv(w) && t < |w.threads| && w' == RunOp(w, t, op)
    ensures Inv(w')
  {
    StepKeeps(w, Run(t, op));
    assert Next(w, Run(t, op)) == w';
  }

  lemma DeleteKeeps(w: World, t: nat, delOk: bool, dropped: bool)
    requires Inv(w) && t < |w.threads| && w.threads[t].Stored?
    ensures Inv(DeleteStep(w, t, delOk, dropped))
  {
    var w' := RunOp(w, t, Delete(delOk, dropped));
    Keeps(w, t, Delete(delOk, dropped), w');
  }

  lemma RearmKeeps(w: World, t: nat, addOk: bool)
    requires Inv(w) && t < |w.threads| && w.threads[t].Deleted?
    ensures Inv(RearmStep(w, t, addOk))
  {
    var w' := RunOp(w, t, Rearm(addOk));
    assert w' == RearmStep(w, t, addOk);
    Keeps(w, t, Rearm(addOk), w');
  }

  lemma RecordKeeps(w: World, t: nat)
    requires Inv(w) && t < |w.threads| && w.threads[t].Failed?
    ensures Inv(RecordStep(w, t))
  {
    var w' := RunOp(w, t, RecordError);
    Keeps(w, t, RecordError, w');
  }

  lemma SectionKeeps(w: World, t: nat, delOk: bool, dropped: bool, addOk: bool)
    requires Inv(w) && t < |w.threads| && w.threads[t].Stored?
    ensures Inv(Section(w, t, delOk, dropped, addOk))
  {
    var w1 := DeleteStep(w, t, delOk, dropped);
    DeleteKeeps(w, t, delOk, dropped);
    match w1.threads[t]
    case Deleted(_) =>
      var w2 := RearmStep(w1, t, addOk);
      RearmKeeps(w1, t, addOk);
      if w2.threads[t].Failed? { RecordKeeps(w2, t); }
    case Failed(_) => RecordKeeps(w1, t);
    case _ =>
  }

  /** Readiness is loaded, the lists it concerns are drained, their wakers called. */
  function WakeAlone(io: Io): World {
    DrainStep(Alone(io, WakeDrain(io.ready)), 0)
  }

  lemma WithoutRecords(w: World)
    requires Inv(w)
    ensures Inv(w.(guards := [], called := [])) && Inv(w.(called := []))
  {
  }

  lemma WakeKeeps(io: Io)
    requires Inv(Alone(io, WakeLoad))
    ensures Quiet(WakeAlone(io).io)
  {
    var w := Alone(io, WakeLoad);
    StepKeeps(w, Run(0, Load));
    var w1 := Alone(io, WakeDrain(io.ready));
    assert Next(w, Run(0, Load)) == w1;
    StepKeeps(w1, Run(0, Drain));
    var w2 := WakeAlone(io);
    assert Next(w1, Run(0, Drain)) == w2;
    StepKeeps(w2, Run(0, Call));
    WithoutRecords(Next(w2, Run(0, Call)));
    assert Next(w2, Run(0, Call)).(called := []) == Alone(w2.io, Idle);
  }

  /** A callback up to the release of the lock. */
  function CallbackAlone(io: Io, flags: set<Flag>, delOk: bool, dropped: bool, addOk: bool): World {
    var w := StoreStep(Alone(io, Found(flags)), 0);
    if w.threads[0].Stored? then Section(w, 0, delOk, dropped, addOk) else w
  }

  /** An error is cached if the re-arming failed. */
  function Settled(r: (Io, bool)): Io {
    if r.1 then r.0 else Post(r.0, {Err})
  }

  lemma CallbackIs(io: Io, flags: set<Flag>, delOk: bool, dropped: bool, addOk: bool)
    ensures CallbackAlone(io, flags, delOk, dropped, addOk).io ==
            if io.registered then Settled(Rearmed(Post(io, flags), delOk, dropped, addOk)) else io
  {
    if io.registered {
      assert StoreStep(Alone(io, Found(flags)), 0) == Alone(Post(io, flags), Stored(Callback));
      SectionIsRearm(Post(io, flags), Callback, delOk, dropped, addOk);
    }
  }

  /** A whole callback returns the descriptor to rest, whatever fails on the way. */
  lemma CallbackKeepsQuiet(io: Io, flags: set<Flag>, delOk: bool, dropped: bool, addOk: bool)
    requires Quiet(io)
    ensures var w := CallbackAlone(io, flags, delOk, dropped, addOk);
            if io.registered then w == Alone(w.io, WakeLoad) && Quiet(WakeAlone(w.io).io) else w == Alone(io, Idle)
  {
    var w0, w1 := Alone(io, Idle), Alone(io, Found(flags));
    StepKeeps(w0, Run(0, Arrive(flags)));
    assert Next(w0, Run(0, Arrive(flags))) == w1;
    StepKeeps(w1, Run(0, Store));
    if io.registered {
      var io' := Post(io, flags);
      assert StoreStep(w1, 0) == Alone(io', Stored(Callback));
      SectionKeeps(Alone(io', Stored(Callback)), 0, delOk, dropped, addOk);
      SectionIsRearm(io', Callback, delOk, dropped, addOk);
      WakeKeeps(CallbackAlone(io, flags, delOk, dropped, addOk).io);
    }
  }

  /** The clearing of an observation up to the release of the lock. */
  function ClearAlone(io: Io, seen: set<Flag>, observed: nat, delOk: bool, dropped: bool, addOk: bool): World {
    var w := ClearStep(Alone(io, Idle), 0, Guard(seen, observed, 0));
    if w.threads[0].Stored? then Section(w, 0, delOk, dropped, addOk) else w
  }

  lemma ClearIs(io: Io, seen: set<Flag>, observed: nat, delOk: bool, dropped: bool, addOk: bool)
    ensures var w := ClearAlone(io, seen, observed, delOk, dropped, addOk);
            if io.registered && Generation(io) == observed then
              var r := Rearmed(io.(ready := io.ready - seen), delOk, dropped, addOk);
              w.io == Settled(r) && (w.threads[0].WakeLoad? <==> !r.1)
            else w == Alone(io, Idle)
  {
    if io.registered && Generation(io) == observed {
      var io' := io.(ready := io.ready - seen);
      assert ClearStep(Alone(io, Idle), 0, Guard(seen, observed, 0)) == Alone(io', Stored(Clear));
      SectionIsRearm(io', Clear, delOk, dropped, addOk);
    }
  }

  lemma ClearStepKeeps(io: Io, seen: set<Flag>)
    requires Quiet(io) && io.registered
    ensures Inv(Alone(io.(ready := io.ready - seen), Stored(Clear)))
  {
    var g := Guard(seen, Generation(io), io.count);
    var w := Alone(io, Idle).(guards := [g]);
    assert Inv(w);
    StepKeeps(w, Run(0, BeginClear(0)));
    var w' := Next(w, Run(0, BeginClear(0)));
    WithoutRecords(w');
    assert w'.(guards := [], called := []) == Alone(io.(ready := io.ready - seen), Stored(Clear));
  }

  /** A whole clearing returns the descriptor to rest, whether or not it still applies and whatever fails. */
  lemma ClearKeepsQuiet(io: Io, seen: set<Flag>, observed: nat, delOk: bool, dropped: bool, addOk: bool)
    requires Quiet(io)
    ensures var w := ClearAlone(io, seen, observed, delOk, dropped, addOk);
            (w == Alone(w.io, Idle) && Quiet(w.io)) || (w == Alone(w.io, WakeLoad) && Quiet(WakeAlone(w.io).io))
  {
    if io.registered && Generation(io) == observed {
      var io' := io.(ready := io.ready - seen);
      ClearStepKeeps(io, seen);
      assert ClearStep(Alone(io, Idle), 0, Guard(seen, observed, 0)) == Alone(io', Stored(Clear));
      SectionKeeps(Alone(io', Stored(Clear)), 0, delOk, dropped, addOk);
      SectionIsRearm(io', Clear, delOk, dropped, addOk);
      var w := ClearAlone(io, seen, observed, delOk, dropped, addOk);
      if w.threads[0].WakeLoad? { WakeKeeps(w.io); }
    }
  }

  /** What a poll alone does: an observation, or a place in the lists. */
  lemma PollIs(io: Io, interest: set<Flag>, waker: nat)
    ensures var w := RunOp(Alone(io, Idle), 0, BeginPoll(interest, waker));
            var seen := io.ready * (interest + ERRORS);
            if seen != {} then w.guards == [Guard(seen, Generation(io), io.count)]
            else w == Alone(io, PollLoaded(interest, waker))
                 && EnlistStep(w, 0).io == io.(readers := Join(io.readers, waker, WaitBits(interest, Readers)),
                                               writers := Join(io.writers, waker, WaitBits(interest, Writers)))
  {
  }

  /** The lists of wakers follow the entries. */
  lemma JoinRegisters(es: seq<Entry>, waker: nat, bits: set<Flag>)
    ensures Wakers(Join(es, waker, bits)) == if bits == {} then Wakers(es) else Registered(Wakers(es), waker)
  {
    EnlistRegisters(es, Entry(waker, bits));
  }

  lemma WaitBitsEmpty(interest: set<Flag>)
    ensures WaitBits(interest, Readers) == {} <==> interest * {In, Pri, Err} == {}
    ensures WaitBits(interest, Writers) == {} <==> Out !in interest
  {
    assert Err in ERRORS && Out in WRITE_LIST;
  }

  /** A poll that finds nothing of interest leaves the task in the lists its interest names, and the descriptor at rest. */
  lemma EnlistKeepsQuiet(io: Io, interest: set<Flag>, waker: nat)
    requires Quiet(io) && io.ready * (interest + ERRORS) == {}
    ensures Quiet(EnlistStep(Alone(io, PollLoaded(interest, waker)), 0).io)
  {
    var w := Alone(io, Idle);
    StepKeeps(w, Run(0, BeginPoll(interest, waker)));
    var w' := Alone(io, PollLoaded(interest, waker));
    assert Next(w, Run(0, BeginPoll(interest, waker))) == w';
    StepKeeps(w', Run(0, FinishPoll));
    assert Next(w', Run(0, FinishPoll)) == Alone(EnlistStep(w', 0).io, Idle);
  }

  lemma DeregisterKeepsQuiet(io: Io, dropped: bool)
    requires Quiet(io)
    ensures Quiet(DeregisterStep(Alone(io, Idle), 0, dropped).io)
  {
    StepKeeps(Alone(io, Idle), Run(0, Deregister(dropped)));
  }

  /** A new descriptor is armed, or condemned and deregistered. */
  function RegisterAlone(io: Io, addOk: bool): World {
    var w := Section(Alone(io, Stored(Register)), 0, true, true, addOk);
    if w.threads[0].GivingUp? then DeregisterStep(w, 0, true) else w
  }

  lemma RegisterIsQuiet(interest: set<Flag>, addOk: bool)
    ensures var w := RegisterAlone(Init(interest).io, addOk);
            w == Alone(w.io, Idle) && Quiet(w.io)
  {
    var io := Init(interest).io;
    EveryRun(interest, []);
    assert Exec(Init(interest), []) == Alone(io, Stored(Register));
    SectionKeeps(Alone(io, Stored(Register)), 0, true, true, addOk);
    SectionIsRearm(io, Register, true, true, addOk);
    var w := Section(Alone(io, Stored(Register)), 0, true, true, addOk);
    if w.threads[0].GivingUp? { StepKeeps(w, Run(0, Deregister(true))); }
  }

  // ----- the wrap of generations, acted out -----

  /** Readability cached and everybody idle. */
  ghost predicate Resting(w: World, guards: seq<Guard>, count: nat) {
    Scene(w, Idle, {In}, {Pri}, []) && w.guards == guards && w.io.count == count
  }

  lemma LapStores(w: World)
    requires Scene(w, Idle, {In}, {Pri}, [])
    ensures var w' := Next(Next(w, Run(0, Arrive({In}))), Run(0, Store));
            Scene(w', Stored(Callback), {In}, {Pri}, [])
            && w'.guards == w.guards && w'.io.count == w.io.count + 1
            && In in w'.io.stamp && w'.io.stamp[In] == w'.io.count
  {
    assert {In} + {In} == {In};
  }

  lemma LapLoads(w: World)
    requires Scene(w, Stored(Callback), {In}, {Pri}, [])
    ensures var w' := Next(Next(w, Run(0, Delete(true, true))), Run(0, Load));
            Scene(w', WakeDrain({In}), {In}, {Pri}, [])
            && w'.guards == w.guards && w'.io.count == w.io.count && w'.io.stamp == w.io.stamp
  {
    assert {In} * ERRORS == {} && {In, Pri} - {In} == {Pri};
    assert Desired({In, Pri}, {In}) == {Pri};
  }

  lemma LapDrains(w: World)
    requires Scene(w, WakeDrain({In}), {In}, {Pri}, [])
    ensures var w' := Next(Next(w, Run(0, Drain)), Run(0, Call));
            Scene(w', Idle, {In}, {Pri}, [])
            && w'.guards == w.guards && w'.io.count == w.io.count && w'.io.stamp == w.io.stamp
  {
    assert Wakers([]) + Wakers([]) == [];
    assert Scene(Next(w, Run(0, Drain)), Calling([]), {In}, {Pri}, []);
  }

  /** The event arrives again and is handled to the end: one more generation, nothing else. */
  lemma Lap(w: World, before: seq<Step>) returns (steps: seq<Step>)
    requires Scene(Exec(w, before), Idle, {In}, {Pri}, [])
    ensures Resting(Exec(w, steps), Exec(w, before).guards, Exec(w, before).io.count + 1)
    ensures In in Exec(w, steps).io.stamp && Exec(w, steps).io.stamp[In] == Exec(w, steps).io.count
  {
    LapStores(Exec(w, before));
    steps := Extend(w, before, Arrive({In}), Store);
    LapLoads(Exec(w, steps));
    steps := Extend(w, steps, Delete(true, true), Load);
    LapDrains(Exec(w, steps));
    steps := Extend(w, steps, Drain, Call);
  }

  lemma {:induction false} Laps(w: World, before: seq<Step>, n: nat) returns (steps: seq<Step>)
    requires n > 0 && Scene(Exec(w, before), Idle, {In}, {Pri}, [])
    ensures Resting(Exec(w, steps), Exec(w, before).guards, Exec(w, before).io.count + n)
    ensures In in Exec(w, steps).io.stamp && Exec(w, steps).io.stamp[In] == Exec(w, steps).io.count
    decreases n
  {
    steps := before;
    if n > 1 {
      steps := Laps(w, before, n - 1);
    }
    steps := Lap(w, steps);
  }

  /** The wrap is real: 2^32 events after its observation a guard clears the newest of them. */
  lemma WrapClearsNewerEvent() returns (steps: seq<Step>, g: nat)
    ensures var w := Exec(Init({In, Pri}), steps);
            && g < |w.guards| && In in w.guards[g].ready && In in w.io.ready
            && In in w.io.stamp && w.io.stamp[In] == w.guards[g].count + GENERATIONS
            && In !in Next(w, Run(0, BeginClear(g))).io.ready
  {
    var w := Init({In, Pri});
    steps := StageReadable(w);
    steps := StageWoken(w, steps);
    var seen := Exec(w, steps);
    g := |seen.guards|;
    ExecSnoc(w, steps, Observe({In}));
    assert {In} * ({In} + ERRORS) == {In};
    steps := steps + [Observe({In})];
    assert Exec(w, steps).guards[g] == Guard({In}, seen.io.count % GENERATIONS, seen.io.count);
    steps := Laps(w, steps, GENERATIONS);
    EveryRun({In, Pri}, steps);
    StaleGuardExact(Exec(w, steps), 0, g, In);
  }
}
