/** The same state as machine words, and the locked sections as the code performs them. */
module ReactorCode {
  import opened Base
  import R = Reactor

  const EPOLLIN: bv32 := 0x001
  const EPOLLPRI: bv32 := 0x002
  const EPOLLOUT: bv32 := 0x004
  const EPOLLERR: bv32 := 0x008
  const EPOLLHUP: bv32 := 0x010
  const ERROR_EVENTS: bv32 := 0x018

  function PackReadiness(generation: bv32, ready: bv32): bv64 {
    ((generation as bv64) << 32) | (ready as bv64)
  }

  function UnpackReadiness(value: bv64): (bv32, bv32) {
    ((value >> 32) as bv32, (value & 0xFFFF_FFFF) as bv32)
  }

  /** Generation and readiness share one word without disturbing each other, in both directions. */
  lemma PackRoundTrip(generation: bv32, ready: bv32, word: bv64)
    ensures UnpackReadiness(PackReadiness(generation, ready)) == (generation, ready)
    ensures PackReadiness(UnpackReadiness(word).0, UnpackReadiness(word).1) == word
  {
  }

  /** The mask has the bit set. */
  predicate Has(mask: bv32, bit: bv32) {
    mask & bit != 0
  }

  /** On masks, or, and, and-not are union, intersection and difference of the flags they name. */
  lemma MasksAreSets(a: bv32, b: bv32, bit: bv32)
    requires bit == EPOLLIN || bit == EPOLLPRI || bit == EPOLLOUT || bit == EPOLLERR || bit == EPOLLHUP
    ensures Has(a | b, bit) <==> Has(a, bit) || Has(b, bit)
    ensures Has(a & b, bit) <==> Has(a, bit) && Has(b, bit)
    ensures Has(a & !b, bit) <==> Has(a, bit) && !Has(b, bit)
    ensures Has(ERROR_EVENTS, bit) <==> bit == EPOLLERR || bit == EPOLLHUP
  {
  }

  /** `wrapping_add(1)` on the 32-bit generation. */
  function Bump(generation: nat): nat {
    (generation + 1) % R.GENERATIONS
  }

  /**
    A descriptor, with masks held as the sets of their flags and the packed
    word as its two halves; the lemmas above show that neither loses anything.
    The ghost fields complete it to the machine's descriptor.
   */
  class ScheduledIo {
    const interest: set<R.Flag>
    var generation: nat
    var ready: set<R.Flag>
    var registered: bool
    var events: set<R.Flag>
    var readers: seq<nat>
    var writers: seq<nat>
    ghost var count: nat
    ghost var stamp: map<R.Flag, nat>
    ghost var doomed: bool
    ghost var armed: set<R.Flag>
    ghost var readerEntries: seq<R.Entry>
    ghost var writerEntries: seq<R.Entry>

    /** The machine's descriptor. */
    ghost function State(): R.Io
      reads this
    {
      R.Io(interest, ready, count, stamp, registered, doomed, events, armed, readerEntries, writerEntries)
    }

    /** The word holds the wrapped count, and the lists hold the wakers of the entries. */
    ghost predicate Valid()
      reads this
    {
      generation == R.Generation(State()) && readers == R.Wakers(readerEntries) && writers == R.Wakers(writerEntries)
    }

    /** A fresh descriptor, not yet armed. */
    constructor (mask: set<R.Flag>)
      requires mask != {}
      ensures Valid() && State() == R.Init(mask).io
    {
      interest, generation, ready, registered, events, readers, writers := mask, 0, {}, true, {}, [], [];
      count, stamp, doomed, armed, readerEntries, writerEntries := 0, map f | f in R.ALL :: 0, false, {}, [], [];
    }

    /** Sets flags under the next generation. */
    method Post(flags: set<R.Flag>)
      requires Valid()
      modifies this`generation, this`ready, this`count, this`stamp
      ensures Valid() && State() == R.Post(old(State()), flags)
    {
      ResidueNext(count, R.GENERATIONS);
      ghost var io := R.Post(State(), flags);
      generation, ready := Bump(generation), ready + flags;
      count, stamp := io.count, io.stamp;
    }

    method RecordError()
      requires Valid()
      modifies this`generation, this`ready, this`count, this`stamp
      ensures Valid() && State() == R.Post(old(State()), {R.Err})
    {
      Post({R.Err});
    }

    /** Re-arming by removal and addition; each may fail, and a failed removal may have been carried out. */
    method UpdateInterest(delOk: bool, ghost dropped: bool, addOk: bool) returns (ok: bool)
      requires Valid()
      modifies this`events, this`armed
      ensures Valid() && (State(), ok) == R.Rearmed(old(State()), delOk, dropped, addOk)
      ensures ok == !R.RearmFails(interest, ready, old(events), delOk, addOk)
      ensures events == if ok then R.Desired(interest, ready) else {}
    {
      var desired := if ready * R.ERRORS != {} then {} else interest - ready;
      if desired == events {
        return true;
      }
      if events != {} {
        events := {};
        armed := if delOk || dropped then {} else armed;
        if !delOk {
          return false;
        }
      }
      if desired != {} {
        if !addOk {
          return false;
        }
        events, armed := desired, desired + R.ERRORS;
      }
      ok := true;
    }

    /** The first registration: armed and at rest, or deregistered again. */
    method Arm(addOk: bool) returns (ok: bool)
      requires Valid() && State() == R.Init(interest).io
      modifies this`events, this`armed, this`registered, this`doomed
      ensures Valid() && State() == R.RegisterAlone(old(State()), addOk).io && R.Quiet(State())
      ensures ok == registered
    {
      R.SectionIsRearm(State(), R.Register, true, true, addOk);
      R.RegisterIsQuiet(interest, addOk);
      ok := UpdateInterest(true, true, addOk);
      if !ok {
        doomed := true;
        Deregister(true);
      }
    }

    /** The part of a callback under the lock, and whether a wake follows. */
    method LockedCallback(flags: set<R.Flag>, delOk: bool, ghost dropped: bool, addOk: bool) returns (wake: bool)
      requires Valid()
      modifies this`generation, this`ready, this`count, this`stamp, this`events, this`armed
      ensures Valid() && State() == R.CallbackAlone(old(State()), flags, delOk, dropped, addOk).io
      ensures wake == registered
    {
      R.CallbackIs(State(), flags, delOk, dropped, addOk);
      if !registered {
        return false;
      }
      Post(flags);
      var ok := UpdateInterest(delOk, dropped, addOk);
      if !ok {
        RecordError();
      }
      wake := true;
    }

    /**
      A callback without interruption: the machine's statements from the arrival
      of the event to the wakers to call. A descriptor at rest is at rest again.
     */
    method Callback(flags: set<R.Flag>, delOk: bool, ghost dropped: bool, addOk: bool) returns (wakers: seq<nat>)
      requires Valid() && R.Quiet(State())
      modifies this
      ensures Valid() && R.Quiet(State())
      ensures var w := R.CallbackAlone(old(State()), flags, delOk, dropped, addOk);
              if old(registered) then R.WakeAlone(w.io) == R.Alone(State(), R.Calling(wakers))
              else State() == old(State()) && wakers == []
    {
      R.CallbackKeepsQuiet(State(), flags, delOk, dropped, addOk);
      wakers := [];
      var wake := LockedCallback(flags, delOk, dropped, addOk);
      if wake {
        wakers := WakeReady(ready);
      }
    }

    /** The part of a clearing under the lock, and whether a wake follows. */
    method LockedClear(seen: set<R.Flag>, observed: nat, delOk: bool, ghost dropped: bool, addOk: bool)
      returns (failed: bool)
      requires Valid()
      modifies this`generation, this`ready, this`count, this`stamp, this`events, this`armed
      ensures Valid() && State() == R.ClearAlone(old(State()), seen, observed, delOk, dropped, addOk).io
      ensures failed == R.ClearAlone(old(State()), seen, observed, delOk, dropped, addOk).threads[0].WakeLoad?
    {
      R.ClearIs(State(), seen, observed, delOk, dropped, addOk);
      if !registered || generation != observed {
        return false;
      }
      ready := ready - seen;
      var ok := UpdateInterest(delOk, dropped, addOk);
      if !ok {
        RecordError();
      }
      failed := !ok;
    }

    /** A clearing without interruption, with the wake that a failed re-arming owes. */
    method ClearReady(seen: set<R.Flag>, observed: nat, delOk: bool, ghost dropped: bool, addOk: bool)
      returns (wakers: seq<nat>)
      requires Valid() && R.Quiet(State())
      modifies this
      ensures Valid() && R.Quiet(State())
      ensures var w := R.ClearAlone(old(State()), seen, observed, delOk, dropped, addOk);
              if w.threads[0].WakeLoad? then R.WakeAlone(w.io) == R.Alone(State(), R.Calling(wakers))
              else State() == w.io && wakers == []
    {
      R.ClearKeepsQuiet(State(), seen, observed, delOk, dropped, addOk);
      wakers := [];
      var failed := LockedClear(seen, observed, delOk, dropped, addOk);
      if failed {
        wakers := WakeReady(ready);
      }
    }

    /** The machine's step; a descriptor at rest stays at rest. */
    method Deregister(ghost dropped: bool)
      requires Valid()
      modifies this`registered, this`events, this`armed
      ensures Valid() && forall pc :: R.DeregisterStep(R.Alone(old(State()), pc), 0, dropped).io == State()
      ensures old(R.Quiet(State())) ==> R.Quiet(State())
      ensures !registered && ready == old(ready)
    {
      if R.Quiet(State()) {
        R.DeregisterKeepsQuiet(State(), dropped);
      }
      if !registered {
        return;
      }
      registered := false;
      if events != {} {
        armed := if dropped then {} else armed;
        events := {};
      }
    }

    /** The machine's drain, given the readiness loaded before the lock was taken. */
    method WakeReady(seen: set<R.Flag>) returns (wakers: seq<nat>)
      requires Valid()
      modifies this`readers, this`writers, this`readerEntries, this`writerEntries
      ensures Valid()
      ensures R.DrainStep(R.Alone(old(State()), R.WakeDrain(seen)), 0) == R.Alone(State(), R.Calling(wakers))
    {
      var rs, ws := [], [];
      ghost var re, we: seq<R.Entry> := [], [];
      if seen * R.READ_LIST != {} {
        rs, re, readers, readerEntries := readers, readerEntries, [], [];
      }
      if seen * R.WRITE_LIST != {} {
        ws, we, writers, writerEntries := writers, writerEntries, [], [];
      }
      wakers := rs + ws;
      assert rs == R.Wakers(re) && ws == R.Wakers(we);
    }

    /** One entry per waker, found by a linear search. */
    static method Register(waiters: seq<nat>, waker: nat) returns (r: seq<nat>)
      ensures r == R.Registered(waiters, waker)
    {
      var k := 0;
      while k < |waiters| && waiters[k] != waker
        invariant 0 <= k <= |waiters|
        invariant forall j :: 0 <= j < k ==> waiters[j] != waker
      {
        k := k + 1;
      }
      r := if k < |waiters| then waiters[k := waker] else waiters + [waker];
    }

    /**
      The machine's poll: an observation with its generation, or a place in the
      lists that the interest names. A descriptor at rest stays at rest.
     */
    method PollReady(wanted: set<R.Flag>, waker: nat) returns (r: Poll<(set<R.Flag>, nat)>)
      requires Valid() && R.Quiet(State())
      modifies this`readers, this`writers, this`readerEntries, this`writerEntries
      ensures Valid() && R.Quiet(State())
      ensures var w := R.RunOp(R.Alone(old(State()), R.Idle), 0, R.BeginPoll(wanted, waker));
              if r.Ready? then State() == old(State()) && w.guards == [R.Guard(r.value.0, r.value.1, count)]
              else w == R.Alone(old(State()), R.PollLoaded(wanted, waker))
                   && State() == R.EnlistStep(w, 0).io
    {
      R.PollIs(State(), wanted, waker);
      var mask := wanted + R.ERRORS;
      if ready * mask != {} {
        return Poll.Ready((ready * mask, generation));
      }
      R.EnlistKeepsQuiet(State(), wanted, waker);
      Enlist(wanted, waker);
      r := Pending;
    }

    method Enlist(wanted: set<R.Flag>, waker: nat)
      requires Valid()
      modifies this`readers, this`writers, this`readerEntries, this`writerEntries
      ensures Valid()
      ensures readerEntries == R.Join(old(readerEntries), waker, R.WaitBits(wanted, R.Readers))
      ensures writerEntries == R.Join(old(writerEntries), waker, R.WaitBits(wanted, R.Writers))
    {
      R.WaitBitsEmpty(wanted);
      R.JoinRegisters(readerEntries, waker, R.WaitBits(wanted, R.Readers));
      R.JoinRegisters(writerEntries, waker, R.WaitBits(wanted, R.Writers));
      readerEntries := R.Join(readerEntries, waker, R.WaitBits(wanted, R.Readers));
      writerEntries := R.Join(writerEntries, waker, R.WaitBits(wanted, R.Writers));
      if wanted * {R.In, R.Pri, R.Err} != {} {
        readers := Register(readers, waker);
      }
      if R.Out in wanted {
        writers := Register(writers, waker);
      }
    }
  }
}
