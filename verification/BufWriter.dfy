/**
  The buffering writer. Its inner writer is free: each call may be pending,
  fail, or take any number of the bytes it is offered.
 */
module BufWriter {
  import opened Base
  import opened Bytes

  const USIZE_MAX: nat := U64_MAX

  /** Slices laid end to end. */
  function Flatten(bufs: seq<seq<Byte>>): seq<Byte> {
    if bufs == [] then [] else bufs[0] + Flatten(bufs[1..])
  }

  lemma {:induction false} FlattenAppend(a: seq<seq<Byte>>, b: seq<seq<Byte>>)
    ensures Flatten(a + b) == Flatten(a) + Flatten(b)
  {
    if a == [] {
      assert a + b == b;
    } else {
      var ab := a + b;
      assert ab[0] == a[0] && ab[1..] == a[1..] + b;
      FlattenAppend(a[1..], b);
      Associate(a[0], Flatten(a[1..]), Flatten(b));
    }
  }

  lemma Associate(a: seq<Byte>, b: seq<Byte>, c: seq<Byte>)
    ensures a + (b + c) == (a + b) + c
  {
  }

  lemma FlattenSnoc(a: seq<seq<Byte>>, last: seq<Byte>)
    ensures Flatten(a + [last]) == Flatten(a) + last
  {
    FlattenAppend(a, [last]);
    assert Flatten([last]) == last + Flatten([]);
  }

  lemma Split(taken: seq<Byte>, rest: seq<Byte>, n: nat)
    requires n <= |rest|
    ensures (taken + rest[..n]) + rest[n..] == taken + rest
  {
  }

  lemma PrefixShort(a: seq<Byte>, b: seq<Byte>, n: nat)
    requires n <= |a|
    ensures (a + b)[..n] == a[..n]
  {
  }

  lemma Whole(a: seq<Byte>, n: nat)
    requires n == |a|
    ensures a[..n] == a
  {
  }

  lemma PrefixLong(a: seq<Byte>, b: seq<Byte>, n: nat)
    requires n <= |b|
    ensures (a + b)[..|a| + n] == a + b[..n]
  {
  }

  /** The number of bytes in all slices, saturating like the machine word it is kept in. */
  method SaturatingTotal(bufs: seq<seq<Byte>>) returns (total: nat)
    ensures total == Min(|Flatten(bufs)|, USIZE_MAX)
  {
    total := 0;
    for i := 0 to |bufs|
      invariant total == Min(|Flatten(bufs[..i])|, USIZE_MAX)
    {
      assert bufs[..i + 1] == bufs[..i] + [bufs[i]];
      FlattenSnoc(bufs[..i], bufs[i]);
      total := Min(total + |bufs[i]|, USIZE_MAX);
    }
    assert bufs[..|bufs|] == bufs;
  }

  method SkipEmpty(bufs: seq<seq<Byte>>) returns (rest: seq<seq<Byte>>)
    ensures Flatten(rest) == Flatten(bufs) && (rest != [] ==> rest[0] != [])
  {
    rest := bufs;
    while rest != [] && rest[0] == []
      invariant Flatten(rest) == Flatten(bufs)
      decreases |rest|
    {
      rest := rest[1..];
    }
  }

  datatype Call = Plain(input: seq<Byte>) | Vectored(bufs: seq<seq<Byte>>) | Flush

  function Offered(call: Call): seq<Byte> {
    match call
    case Plain(input) => input
    case Vectored(bufs) => Flatten(bufs)
    case Flush => []
  }

  /** What a run accepted: of each call, the prefix that its answer reports. */
  function Accepted(calls: seq<Call>, answers: seq<Poll<Result<nat>>>): seq<Byte>
    requires |calls| == |answers|
  {
    if calls == [] then []
    else
      var k := |calls| - 1;
      Accepted(calls[..k], answers[..k]) + Taken(Offered(calls[k]), answers[k])
  }

  function Taken(input: seq<Byte>, answer: Poll<Result<nat>>): seq<Byte> {
    if answer.Ready? && answer.value.Ok? && answer.value.value <= |input| then input[..answer.value.value] else []
  }

  lemma AcceptedSnoc(calls: seq<Call>, answers: seq<Poll<Result<nat>>>, call: Call, answer: Poll<Result<nat>>)
    requires |calls| == |answers|
    ensures Accepted(calls + [call], answers + [answer]) == Accepted(calls, answers) + Taken(Offered(call), answer)
  {
    assert (calls + [call])[..|calls|] == calls && (answers + [answer])[..|answers|] == answers;
  }

  /** An error, or nothing taken of something offered. */
  predicate Refused(r: Poll<Result<nat>>, offered: nat) {
    r.Ready? && (r.value.Err? || (offered > 0 && r.value.value == 0))
  }

  /** How many calls were pending. */
  function Pendings(answers: seq<Poll<Result<nat>>>): nat {
    if answers == [] then 0
    else Pendings(answers[..|answers| - 1]) + if answers[|answers| - 1].Pending? then 1 else 0
  }

  /** How many calls were refused. */
  function Refusals(calls: seq<Call>, answers: seq<Poll<Result<nat>>>): nat
    requires |calls| == |answers|
  {
    if calls == [] then 0
    else
      var k := |calls| - 1;
      Refusals(calls[..k], answers[..k]) + if Refused(answers[k], |Offered(calls[k])|) then 1 else 0
  }

  lemma CountsSnoc(calls: seq<Call>, answers: seq<Poll<Result<nat>>>, call: Call, answer: Poll<Result<nat>>)
    requires |calls| == |answers|
    ensures Pendings(answers + [answer]) == Pendings(answers) + if answer.Pending? then 1 else 0
    ensures Refusals(calls + [call], answers + [answer]) ==
            Refusals(calls, answers) + if Refused(answer, |Offered(call)|) then 1 else 0
  {
    assert (calls + [call])[..|calls|] == calls && (answers + [answer])[..|answers|] == answers;
  }

  class Writer {
    var sink: seq<Byte>
    var flushed: nat
    const vectored: bool
    var buf: seq<Byte>
    var written: nat
    const capacity: nat
    ghost var waits: nat
    ghost var refusals: nat

    constructor (capacity: nat, vectored: bool)
      requires capacity <= USIZE_MAX
      ensures Valid() && Stream() == [] && sink == [] && this.capacity == capacity && this.vectored == vectored
      ensures waits == 0 && refusals == 0
    {
      this.capacity, this.vectored := capacity, vectored;
      sink, flushed, buf, written, waits, refusals := [], 0, [], 0, 0, 0;
    }

    ghost predicate Valid()
      reads this
    {
      written <= |buf| <= capacity <= USIZE_MAX && flushed <= |sink|
    }

    /** What the inner writer has taken and what still waits, in order. */
    ghost function Stream(): seq<Byte>
      requires Valid()
      reads this
    {
      sink + buf[written..]
    }

    /** How often the inner writer was pending, and how often it failed or took nothing of what it was offered. */
    twostate predicate Heard(pending: bool, refused: bool)
      reads this
    {
      waits == old(waits) + (if pending then 1 else 0) && refusals == old(refusals) + if refused then 1 else 0
    }

    method InnerWrite(bytes: seq<Byte>) returns (r: Poll<Result<nat>>)
      modifies this`sink, this`waits, this`refusals
      ensures r.Ready? && r.value.Ok? ==> r.value.value <= |bytes| && sink == old(sink) + bytes[..r.value.value]
      ensures !(r.Ready? && r.value.Ok?) ==> sink == old(sink)
      ensures Heard(r.Pending?, Refused(r, |bytes|))
    {
      var pending, fails, amount: nat := *, *, *;
      if pending {
        r := Pending;
      } else if fails {
        r := Ready(Err);
      } else {
        var n := Min(amount, |bytes|);
        sink := sink + bytes[..n];
        r := Ready(Ok(n));
      }
      waits := waits + if r.Pending? then 1 else 0;
      refusals := refusals + if Refused(r, |bytes|) then 1 else 0;
    }

    /** The inner writer's own flush: how much of what it took it has passed on. */
    method InnerFlush() returns (r: Poll<Result<()>>)
      requires flushed <= |sink|
      modifies this`flushed, this`waits, this`refusals
      ensures flushed <= |sink|
      ensures r.Ready? && r.value.Ok? ==> flushed == |sink|
      ensures Heard(r.Pending?, r.Ready? && r.value.Err?)
    {
      var pending, fails, amount: nat := *, *, *;
      if pending {
        waits, r := waits + 1, Pending;
      } else if fails {
        refusals, r := refusals + 1, Ready(Err);
      } else {
        flushed := |sink|;
        r := Ready(Ok(()));
      }
    }

    /** Hands the buffer down, as far as the inner writer goes along. */
    method PollFlushBuf() returns (r: Poll<Result<()>>)
      requires Valid()
      modifies this`sink, this`buf, this`written, this`waits, this`refusals
      ensures Valid() && Stream() == old(Stream())
      ensures r.Ready? && r.value.Ok? ==> buf == [] && sink == Stream()
      ensures Heard(r.Pending?, r.Ready? && r.value.Err?)
    {
      while written < |buf|
        invariant Valid() && Stream() == old(Stream()) && Heard(false, false)
        decreases |buf| - written
      {
        ghost var taken, rest := sink, buf[written..];
        var w := InnerWrite(buf[written..]);
        if w.Pending? {
          return Pending;
        }
        if w.value.Err? || w.value.value == 0 {
          return Ready(Err);
        }
        var amount := w.value.value;
        Split(taken, rest, amount);
        written := written + amount;
        assert buf[written..] == rest[amount..];
      }
      buf := [];
      written := 0;
      r := Ready(Ok(()));
    }

    /** When it finishes, everything accepted has gone through the inner writer's flush as well. */
    method PollFlush() returns (r: Poll<Result<()>>)
      requires Valid()
      modifies this`sink, this`flushed, this`buf, this`written, this`waits, this`refusals
      ensures Valid() && Stream() == old(Stream())
      ensures r.Ready? && r.value.Ok? ==> buf == [] && sink == Stream() && flushed == |sink|
      ensures Heard(r.Pending?, r.Ready? && r.value.Err?)
    {
      r := PollFlushBuf();
      if r.Pending? || r.value.Err? {
        return;
      }
      r := InnerFlush();
    }

    /** Whatever the answer, the stream grows by exactly the bytes that are reported as accepted. */
    ghost predicate Accepts(before: seq<Byte>, input: seq<Byte>, r: Poll<Result<nat>>)
      reads this
      requires Valid()
    {
      if r.Ready? && r.value.Ok? then r.value.value <= |input| && Stream() == before + input[..r.value.value]
      else Stream() == before
    }

    /** Puts bytes that fit behind those that wait. */
    method Buffer(bytes: seq<Byte>)
      requires Valid() && |buf| + |bytes| <= capacity
      modifies this`buf
      ensures Valid() && Stream() == old(Stream()) + bytes && |buf| == |old(buf)| + |bytes|
    {
      buf := buf + bytes;
    }

    /** A direct write: nothing may be waiting, so nothing is overtaken. */
    method Direct(input: seq<Byte>) returns (r: Poll<Result<nat>>)
      requires Valid() && buf == []
      modifies this`sink, this`waits, this`refusals
      ensures Valid() && Accepts(old(Stream()), input, r) && Heard(r.Pending?, Refused(r, |input|))
    {
      r := InnerWrite(input);
    }

    method PollWrite(input: seq<Byte>) returns (r: Poll<Result<nat>>)
      requires Valid()
      modifies this`sink, this`buf, this`written, this`waits, this`refusals
      ensures Valid() && Accepts(old(Stream()), input, r)
      ensures |input| < capacity ==> r.Pending? || r.value.Err? || r.value.value == |input|
      ensures |input| < capacity && |input| <= capacity - |old(buf)| ==> r == Ready(Ok(|input|))
      ensures Heard(r.Pending?, Refused(r, |input|))
    {
      if buf != [] && |input| > capacity - |buf| {
        var room := PollFlushBuf();
        if room.Pending? {
          return Pending;
        }
        if room.value.Err? {
          return Ready(Err);
        }
      }
      r := Place(input);
    }

    /** With room made: directly if nothing waits and the input would fill the buffer, else into the buffer, whole. */
    method Place(input: seq<Byte>) returns (r: Poll<Result<nat>>)
      requires Valid() && (buf == [] || |input| <= capacity - |buf|)
      modifies this`sink, this`buf, this`waits, this`refusals
      ensures Valid() && Accepts(old(Stream()), input, r) && Heard(r.Pending?, Refused(r, |input|))
      ensures |input| < capacity ==> r == Ready(Ok(|input|))
    {
      if buf == [] && |input| >= capacity {
        r := Direct(input);
        return;
      }
      var amount := Min(|input|, capacity - |buf|);
      Whole(input, amount);
      Buffer(input[..amount]);
      r := Ready(Ok(amount));
    }

    method PollWriteVectored(bufs: seq<seq<Byte>>) returns (r: Poll<Result<nat>>)
      requires Valid()
      modifies this`sink, this`buf, this`written, this`waits, this`refusals
      ensures Valid() && Accepts(old(Stream()), Flatten(bufs), r) && Heard(r.Pending?, Refused(r, |Flatten(bufs)|))
    {
      if vectored {
        r := WriteAll(bufs);
      } else {
        r := WriteSome(bufs);
      }
    }

    /** Flushes if the bytes do not fit behind those that wait. */
    method MakeRoom(n: nat) returns (r: Poll<Result<()>>)
      requires Valid()
      modifies this`sink, this`buf, this`written, this`waits, this`refusals
      ensures Valid() && Stream() == old(Stream())
      ensures r.Ready? && r.value.Ok? ==> buf == [] || |buf| + n <= capacity
      ensures Heard(r.Pending?, r.Ready? && r.value.Err?)
      ensures n <= capacity - |old(buf)| ==> r.Ready? && r.value.Ok? && buf == old(buf)
    {
      r := Ready(Ok(()));
      if n > capacity - |buf| {
        r := PollFlushBuf();
      }
    }

    /** Over a vectored inner writer: all slices are buffered, or all are offered at once. */
    method WriteAll(bufs: seq<seq<Byte>>) returns (r: Poll<Result<nat>>)
      requires Valid()
      modifies this`sink, this`buf, this`written, this`waits, this`refusals
      ensures Valid() && Accepts(old(Stream()), Flatten(bufs), r)
      ensures |Flatten(bufs)| < capacity ==> r.Pending? || r.value.Err? || r.value.value == |Flatten(bufs)|
      ensures |Flatten(bufs)| < capacity && |Flatten(bufs)| <= capacity - |old(buf)| ==> r == Ready(Ok(|Flatten(bufs)|))
      ensures Heard(r.Pending?, Refused(r, |Flatten(bufs)|))
    {
      var total := SaturatingTotal(bufs);
      var room := MakeRoom(total);
      if room.Pending? {
        return Pending;
      }
      if room.value.Err? {
        return Ready(Err);
      }
      if total >= capacity {
        r := Direct(Flatten(bufs));
        return;
      }
      BufferAll(bufs);
      assert Flatten(bufs)[..total] == Flatten(bufs);
      r := Ready(Ok(total));
    }

    method BufferAll(bufs: seq<seq<Byte>>)
      requires Valid() && |buf| + |Flatten(bufs)| <= capacity
      modifies this`buf
      ensures Valid() && Stream() == old(Stream()) + Flatten(bufs)
    {
      for i := 0 to |bufs|
        invariant Valid() && |buf| == |old(buf)| + |Flatten(bufs[..i])|
        invariant Stream() == old(Stream()) + Flatten(bufs[..i])
      {
        assert bufs[..i + 1] == bufs[..i] + [bufs[i]];
        FlattenSnoc(bufs[..i], bufs[i]);
        assert bufs == bufs[..i + 1] + bufs[i + 1..];
        FlattenAppend(bufs[..i + 1], bufs[i + 1..]);
        Buffer(bufs[i]);
      }
      assert bufs[..|bufs|] == bufs;
    }

    /** Over a plain inner writer: the first slice with content, and then whole slices while they fit. */
    method WriteSome(bufs: seq<seq<Byte>>) returns (r: Poll<Result<nat>>)
      requires Valid()
      modifies this`sink, this`buf, this`written, this`waits, this`refusals
      ensures Valid() && Accepts(old(Stream()), Flatten(bufs), r) && Heard(r.Pending?, Refused(r, |Flatten(bufs)|))
    {
      var rest := SkipEmpty(bufs);
      if rest == [] {
        return Ready(Ok(0));
      }
      r := WriteFirst(rest[0], rest[1..]);
    }

    method WriteFirst(first: seq<Byte>, more: seq<seq<Byte>>) returns (r: Poll<Result<nat>>)
      requires Valid() && first != []
      modifies this`sink, this`buf, this`written, this`waits, this`refusals
      ensures Valid() && Accepts(old(Stream()), first + Flatten(more), r)
      ensures Heard(r.Pending?, Refused(r, |first + Flatten(more)|))
      ensures |first| < capacity ==> r.Pending? || r.value.Err? || r.value.value >= |first|
    {
      var room := MakeRoom(|first|);
      if room.Pending? {
        return Pending;
      }
      if room.value.Err? {
        return Ready(Err);
      }
      if |first| >= capacity {
        r := Direct(first);
        if r.Ready? && r.value.Ok? { PrefixShort(first, Flatten(more), r.value.value); }
        return;
      }
      var amount := BufferFrom(first, more);
      r := Ready(Ok(amount));
    }

    method BufferFrom(first: seq<Byte>, more: seq<seq<Byte>>) returns (amount: nat)
      requires Valid() && |buf| + |first| <= capacity
      modifies this`buf
      ensures Valid() && amount <= |first + Flatten(more)|
      ensures Stream() == old(Stream()) + (first + Flatten(more))[..amount] && amount >= |first|
    {
      ghost var before := Stream();
      Buffer(first);
      var n, _ := BufferWhileFits(more);
      PrefixLong(first, Flatten(more), n);
      assert (before + first) + Flatten(more)[..n] == before + (first + Flatten(more)[..n]);
      amount := |first| + n;
    }

    /** Whole slices, and no slice is left out that would still have fitted next. */
    method BufferWhileFits(bufs: seq<seq<Byte>>) returns (amount: nat, whole: nat)
      requires Valid()
      modifies this`buf
      ensures Valid() && amount <= |Flatten(bufs)| && Stream() == old(Stream()) + Flatten(bufs)[..amount]
      ensures whole <= |bufs| && amount == |Flatten(bufs[..whole])|
      ensures whole < |bufs| ==> |bufs[whole]| > capacity - |buf|
    {
      amount, whole := 0, 0;
      for i := 0 to |bufs|
        invariant Valid() && whole == i && amount == |Flatten(bufs[..i])|
        invariant Stream() == old(Stream()) + Flatten(bufs[..i])
      {
        assert bufs == bufs[..i] + bufs[i..];
        FlattenAppend(bufs[..i], bufs[i..]);
        if |bufs[i]| > capacity - |buf| {
          return;
        }
        assert bufs[..i + 1] == bufs[..i] + [bufs[i]];
        FlattenSnoc(bufs[..i], bufs[i]);
        Buffer(bufs[i]);
        amount, whole := amount + |bufs[i]|, i + 1;
      }
      assert bufs[..|bufs|] == bufs;
    }

    lemma AcceptsTaken(before: seq<Byte>, input: seq<Byte>, r: Poll<Result<nat>>)
      requires Valid() && Accepts(before, input, r)
      ensures Stream() == before + Taken(input, r)
    {
      assert before + [] == before;
    }

    method Perform(call: Call) returns (answer: Poll<Result<nat>>)
      requires Valid()
      modifies this`sink, this`flushed, this`buf, this`written, this`waits, this`refusals
      ensures Valid() && Stream() == old(Stream()) + Taken(Offered(call), answer)
      ensures call.Flush? && answer == Ready(Ok(0)) ==> buf == [] && flushed == |sink|
      ensures Heard(answer.Pending?, Refused(answer, |Offered(call)|))
    {
      match call
      case Plain(input) =>
        answer := PollWrite(input);
        AcceptsTaken(old(Stream()), input, answer);
      case Vectored(bufs) =>
        answer := PollWriteVectored(bufs);
        AcceptsTaken(old(Stream()), Flatten(bufs), answer);
      case Flush =>
        var done := PollFlush();
        answer := if done.Pending? then Pending else if done.value.Err? then Ready(Err) else Ready(Ok(0));
    }
  }

  /**
    Every mix of writes and flushes: accepted is what arrived, in order, and what
    waits; a flush leaves nothing waiting or held back. A call is pending or
    refused only as often as the inner writer is.
   */
  method Drive(capacity: nat, vectored: bool, calls: seq<Call>)
    returns (answers: seq<Poll<Result<nat>>>, sink: seq<Byte>, flushed: nat, waiting: seq<Byte>,
             ghost waits: nat, ghost refusals: nat)
    requires capacity <= USIZE_MAX
    ensures |answers| == |calls| && sink + waiting == Accepted(calls, answers) && |waiting| <= capacity
    ensures calls != [] && calls[|calls| - 1].Flush? && answers[|calls| - 1] == Ready(Ok(0)) ==>
              waiting == [] && flushed == |sink|
    ensures Pendings(answers) == waits && Refusals(calls, answers) == refusals
  {
    var w := new Writer(capacity, vectored);
    answers := [];
    for i := 0 to |calls|
      invariant fresh(w) && w.Valid() && w.capacity == capacity && |answers| == i
      invariant w.Stream() == Accepted(calls[..i], answers)
      invariant w.waits == Pendings(answers) && w.refusals == Refusals(calls[..i], answers)
      invariant i > 0 && calls[i - 1].Flush? && answers[i - 1] == Ready(Ok(0)) ==> w.buf == [] && w.flushed == |w.sink|
    {
      var answer := w.Perform(calls[i]);
      AcceptedSnoc(calls[..i], answers, calls[i], answer);
      CountsSnoc(calls[..i], answers, calls[i], answer);
      assert calls[..i + 1] == calls[..i] + [calls[i]];
      answers := answers + [answer];
    }
    assert calls[..|calls|] == calls;
    sink, flushed, waiting := w.sink, w.flushed, w.buf[w.written..];
    waits, refusals := w.waits, w.refusals;
  }
}
