/** Delimited streams: the specification of splitting, and its round trips. */
module Splitting {
  import opened Base
  import opened Bytes

  /** The number of bytes before the first delimiter, or all of them. */
  function Run(s: seq<Byte>, d: Byte): (k: nat)
    ensures k <= |s| && d !in s[..k] && (k < |s| ==> s[k] == d)
  {
    if s == [] || s[0] == d then 0
    else
      assert s[..1 + Run(s[1..], d)] == [s[0]] + s[1..][..Run(s[1..], d)];
      1 + Run(s[1..], d)
  }

  /** Every delimiter ends a segment; a last segment without one is kept if it is not empty. */
  function Segments(s: seq<Byte>, d: Byte): seq<seq<Byte>>
    decreases |s|
  {
    if s == [] then []
    else
      var k := Run(s, d);
      if k == |s| then [s] else [s[..k]] + Segments(s[k + 1..], d)
  }

  /** Each segment followed by the delimiter. */
  function Terminated(segments: seq<seq<Byte>>, d: Byte): seq<Byte> {
    if segments == [] then [] else segments[0] + [d] + Terminated(segments[1..], d)
  }

  /** The first delimiter is where it is. */
  lemma {:induction false} RunAt(head: seq<Byte>, rest: seq<Byte>, d: Byte)
    requires d !in head
    ensures Run(head + [d] + rest, d) == |head|
  {
    if head != [] {
      RunAt(head[1..], rest, d);
      assert (head + [d] + rest)[1..] == head[1..] + [d] + rest;
    }
  }

  lemma {:induction false} SegmentsAreFree(s: seq<Byte>, d: Byte)
    ensures forall i :: 0 <= i < |Segments(s, d)| ==> d !in Segments(s, d)[i]
    decreases |s|
  {
    if s != [] {
      var k := Run(s, d);
      if k < |s| {
        SegmentsAreFree(s[k + 1..], d);
      } else {
        assert s[..k] == s;
      }
    }
  }

  /** Rejoining restores the stream, up to one final delimiter. */
  lemma {:induction false} Rejoin(s: seq<Byte>, d: Byte)
    ensures Terminated(Segments(s, d), d) == if s == [] || s[|s| - 1] == d then s else s + [d]
    decreases |s|
  {
    if s != [] {
      var k := Run(s, d);
      if k == |s| {
        assert s[..k] == s;
        assert d !in s;
        assert Terminated([s], d) == s + [d] + Terminated([], d);
      } else {
        var rest := s[k + 1..];
        assert s == s[..k] + [d] + rest;
        Rejoin(rest, d);
        assert Segments(s, d)[1..] == Segments(rest, d);
        if rest == [] {
          assert s[|s| - 1] == d;
        } else {
          assert rest[|rest| - 1] == s[|s| - 1];
        }
      }
    }
  }

  /** One segment off the front. */
  lemma SegmentsCons(head: seq<Byte>, rest: seq<Byte>, d: Byte)
    requires d !in head
    ensures Segments(head + [d] + rest, d) == [head] + Segments(rest, d)
  {
    RunAt(head, rest, d);
    var s := head + [d] + rest;
    assert s[..|head|] == head && s[|head| + 1..] == rest;
  }

  /** The last segment. */
  lemma SegmentsLast(s: seq<Byte>, d: Byte)
    requires s != [] && d !in s
    ensures Segments(s, d) == [s]
  {
    assert forall j :: 0 <= j < |s| ==> s[j] in s;
  }

  /** Splitting undoes joining, for segments that hold no delimiter. */
  lemma {:induction false} SplitUndoesJoin(segments: seq<seq<Byte>>, d: Byte)
    requires forall i :: 0 <= i < |segments| ==> d !in segments[i]
    ensures Segments(Terminated(segments, d), d) == segments
  {
    if segments != [] {
      SplitUndoesJoin(segments[1..], d);
      SegmentsCons(segments[0], Terminated(segments[1..], d), d);
    }
  }

  /** A read that ends behind the first delimiter, or at the end of the stream. */
  predicate Ends(bytes: seq<Byte>, rest: seq<Byte>, d: Byte) {
    if d in bytes then bytes[|bytes| - 1] == d && d !in bytes[..|bytes| - 1] else rest == []
  }

  /** Without the final delimiter, if there is one. */
  function Trim(bytes: seq<Byte>, d: Byte): seq<Byte>
    requires bytes != []
  {
    if bytes[|bytes| - 1] == d then bytes[..|bytes| - 1] else bytes
  }

  /** Nothing is lost but a part of the first segment. */
  predicate Drops(before: seq<Byte>, after: seq<Byte>, d: Byte) {
    |after| <= |before| && before[|before| - |after|..] == after && d !in before[..|before| - |after|]
  }

  lemma Append(segments: seq<seq<Byte>>, segment: seq<Byte>, left: seq<seq<Byte>>)
    ensures segments + ([segment] + left) == (segments + [segment]) + left
  {
  }

  lemma FirstSegment(bytes: seq<Byte>, rest: seq<Byte>, d: Byte)
    requires bytes != [] && Ends(bytes, rest, d)
    ensures Segments(bytes + rest, d) ==
            [Trim(bytes, d)] + Segments(rest, d)
  {
    if bytes[|bytes| - 1] == d {
      var head := bytes[..|bytes| - 1];
      assert bytes == head + [d];
      SegmentsCons(head, rest, d);
    } else {
      assert d !in bytes;
      SegmentsLast(bytes, d);
      assert bytes + rest == bytes;
    }
  }
}

/**
  The buffering reader and the segment reader on top of it. The inner reader is
  free: each call may be pending, fail, or return any non-empty part of what is
  left, and nothing only at the end.
 */
module BufReader {
  import opened Base
  import opened Bytes
  import opened Splitting

  class Reader {
    var source: seq<Byte>
    const buf: array<Byte>
    var pos: nat
    var cap: nat
    ghost var waits: nat
    ghost var breaks: nat

    constructor (capacity: nat, source: seq<Byte>)
      requires capacity > 0
      ensures Valid() && Stream() == source && fresh(buf) && buf.Length == capacity
      ensures waits == 0 && breaks == 0
    {
      this.source, pos, cap, waits, breaks := source, 0, 0, 0, 0;
      buf := new Byte[capacity];
    }

    ghost predicate Valid()
      reads this
    {
      pos <= cap <= buf.Length && buf.Length > 0
    }

    /** What is still to be delivered. */
    ghost function Stream(): seq<Byte>
      requires Valid()
      reads this, buf
    {
      buf[pos..cap] + source
    }

    /** How often the inner reader was pending, and how often it failed. */
    twostate predicate Heard(pending: bool, failed: bool)
      reads this
    {
      waits == old(waits) + (if pending then 1 else 0) && breaks == old(breaks) + if failed then 1 else 0
    }

    method InnerRead(want: nat) returns (r: Poll<Result<seq<Byte>>>)
      requires want > 0
      modifies this`source, this`waits, this`breaks
      ensures Heard(r.Pending?, r.Ready? && r.value.Err?)
      ensures r.Ready? && r.value.Ok? ==>
                |r.value.value| <= want && r.value.value + source == old(source)
                && (r.value.value == [] <==> old(source) == [])
      ensures !(r.Ready? && r.value.Ok?) ==> source == old(source)
    {
      var pending, fails, amount: nat := *, *, *;
      if pending {
        waits, r := waits + 1, Pending;
      } else if fails {
        breaks, r := breaks + 1, Ready(Err);
      } else {
        var n := Min(Min(amount + 1, want), |source|);
        r := Ready(Ok(source[..n]));
        source := source[n..];
      }
    }

    /** Fills the empty buffer with the inner reader's next bytes. */
    method Refill() returns (r: Poll<Result<()>>)
      requires Valid() && pos == cap
      modifies this`source, this`pos, this`cap, this`waits, this`breaks, buf
      ensures Valid() && Stream() == old(Stream())
      ensures r.Ready? && r.value.Ok? ==> (pos == cap <==> Stream() == [])
      ensures Heard(r.Pending?, r.Ready? && r.value.Err?)
    {
      var read := InnerRead(buf.Length);
      if read.Pending? {
        return Pending;
      }
      if read.value.Err? {
        return Ready(Err);
      }
      var bytes := read.value.value;
      forall i | 0 <= i < |bytes| {
        buf[i] := bytes[i];
      }
      assert buf[0..|bytes|] == bytes;
      pos, cap := 0, |bytes|;
      r := Ready(Ok(()));
    }

    /** Shows the front of the stream without taking it; nothing only at the end. */
    method PollFillBuf() returns (r: Poll<Result<seq<Byte>>>)
      requires Valid()
      modifies this`source, this`pos, this`cap, this`waits, this`breaks, buf
      ensures Valid() && Stream() == old(Stream())
      ensures r.Ready? && r.value.Ok? ==>
                r.value.value == buf[pos..cap] && r.value.value <= Stream()
                && (r.value.value == [] <==> Stream() == [])
      ensures Heard(r.Pending?, r.Ready? && r.value.Err?)
    {
      if pos >= cap {
        var filled := Refill();
        if filled.Pending? {
          return Pending;
        }
        if filled.value.Err? {
          return Ready(Err);
        }
      }
      r := Ready(Ok(buf[pos..cap]));
    }

    /** Takes from the front what was shown. */
    method Consume(amount: nat)
      requires Valid()
      modifies this`pos
      ensures Valid() && Stream() == old(Stream())[Min(amount, |old(buf[pos..cap])|)..]
    {
      ghost var n := Min(amount, cap - pos);
      assert buf[pos..cap][n..] == buf[pos + n..cap];
      pos := Min(pos + amount, cap);
    }

    /** Takes up to `want` bytes from the front; none only at the end. */
    method PollRead(want: nat) returns (r: Poll<Result<seq<Byte>>>)
      requires Valid()
      modifies this`source, this`pos, this`cap, this`waits, this`breaks, buf
      ensures Valid()
      ensures r.Ready? && r.value.Ok? ==>
                r.value.value + Stream() == old(Stream()) && |r.value.value| <= want
                && (r.value.value == [] <==> want == 0 || old(Stream()) == [])
      ensures !(r.Ready? && r.value.Ok?) ==> Stream() == old(Stream())
      ensures Heard(r.Pending?, r.Ready? && r.value.Err?)
      ensures want > 0 && old(pos < cap) ==> r.Ready? && r.value == Ok(old(buf[pos..cap])[..Min(want, old(cap - pos))])
    {
      if want == 0 {
        return Ready(Ok([]));
      }
      if pos == cap && want >= buf.Length {
        r := InnerRead(want);
        return;
      }
      if pos == cap {
        var filled := Refill();
        if filled.Pending? {
          return Pending;
        }
        if filled.value.Err? {
          return Ready(Err);
        }
      }
      var amount := Min(want, cap - pos);
      r := Ready(Ok(buf[pos..pos + amount]));
      assert buf[pos..cap] == buf[pos..pos + amount] + buf[pos + amount..cap];
      pos := pos + amount;
    }

    /** What is left, buffered or not. */
    method Remaining() returns (left: seq<Byte>)
      requires Valid()
      ensures left == Stream()
    {
      left := buf[pos..cap] + source;
    }

    method Perform(call: Call) returns (answer: Answer)
      requires Valid()
      modifies this`source, this`pos, this`cap, this`waits, this`breaks, buf
      ensures Valid() && Honest(old(Stream()), call, answer, Stream())
      ensures Heard(IsPending(answer), IsError(answer))
    {
      match call
      case Read(want) =>
        var r := PollRead(want);
        answer := Bytes(r);
      case Fill =>
        var r := PollFillBuf();
        answer := Shown(r);
      case Consume(amount) =>
        var n := Min(amount, cap - pos);
        answer := Consumed(buf[pos..pos + n]);
        ghost var before := Stream();
        assert before[..n] == buf[pos..pos + n];
        Consume(amount);
        assert before == before[..n] + before[n..];
    }
  }

  datatype Call = Read(want: nat) | Fill | Consume(amount: nat)

  /** What a call hands over; a fill only shows. */
  datatype Answer = Bytes(r: Poll<Result<seq<Byte>>>) | Shown(shown: Poll<Result<seq<Byte>>>) | Consumed(bytes: seq<Byte>)

  function Taken(answer: Answer): seq<Byte> {
    match answer
    case Bytes(Ready(Ok(bytes))) => bytes
    case Consumed(bytes) => bytes
    case _ => []
  }

  predicate IsPending(answer: Answer) {
    match answer
    case Bytes(r) => r.Pending?
    case Shown(r) => r.Pending?
    case Consumed(_) => false
  }

  predicate IsError(answer: Answer) {
    match answer
    case Bytes(r) => r.Ready? && r.value.Err?
    case Shown(r) => r.Ready? && r.value.Err?
    case Consumed(_) => false
  }

  /** How many answers were pending, and how many were errors. */
  function Pendings(answers: seq<Answer>): nat {
    if answers == [] then 0
    else Pendings(answers[..|answers| - 1]) + if IsPending(answers[|answers| - 1]) then 1 else 0
  }

  function Errors(answers: seq<Answer>): nat {
    if answers == [] then 0
    else Errors(answers[..|answers| - 1]) + if IsError(answers[|answers| - 1]) then 1 else 0
  }

  lemma CountsSnoc(answers: seq<Answer>, answer: Answer)
    ensures Pendings(answers + [answer]) == Pendings(answers) + if IsPending(answer) then 1 else 0
    ensures Errors(answers + [answer]) == Errors(answers) + if IsError(answer) then 1 else 0
  {
    assert (answers + [answer])[..|answers|] == answers;
  }

  /** All bytes handed over, in order. */
  function Delivered(answers: seq<Answer>): seq<Byte> {
    if answers == [] then [] else Delivered(answers[..|answers| - 1]) + Taken(answers[|answers| - 1])
  }

  /** What an answer means when `left` is still to be delivered before it and `left'` after it. */
  predicate Honest(left: seq<Byte>, call: Call, answer: Answer, left': seq<Byte>) {
    Taken(answer) + left' == left
    && match call
       case Read(want) =>
         answer.Bytes? && |Taken(answer)| <= want
         && (answer.r.Ready? && answer.r.value.Ok? ==> (Taken(answer) == [] <==> want == 0 || left == []))
       case Fill =>
         answer.Shown?
         && (answer.shown.Ready? && answer.shown.value.Ok? ==>
               answer.shown.value.value <= left && (answer.shown.value.value == [] <==> left == []))
       case Consume(amount) => answer.Consumed? && |answer.bytes| <= amount
  }

  /** A run: `trace` is what is left before each call and at the end. */
  predicate Follows(trace: seq<seq<Byte>>, calls: seq<Call>, answers: seq<Answer>) {
    |trace| == |calls| + 1 && |answers| == |calls|
    && forall i :: 0 <= i < |calls| ==> Honest(trace[i], calls[i], answers[i], trace[i + 1])
  }

  lemma FollowsExtend(trace: seq<seq<Byte>>, calls: seq<Call>, answers: seq<Answer>, call: Call, answer: Answer, left: seq<Byte>)
    requires Follows(trace, calls, answers) && Honest(trace[|calls|], call, answer, left)
    ensures Follows(trace + [left], calls + [call], answers + [answer])
  {
  }

  /** On every run the bytes handed over followed by those still to come are the source. */
  lemma {:induction false} DeliversSource(trace: seq<seq<Byte>>, calls: seq<Call>, answers: seq<Answer>)
    requires Follows(trace, calls, answers)
    ensures Delivered(answers) + trace[|calls|] == trace[0]
  {
    if calls == [] {
      assert [] + trace[0] == trace[0];
    } else {
      var k := |calls| - 1;
      DeliversSource(trace[..k + 1], calls[..k], answers[..k]);
      var d := Delivered(answers[..k]);
      assert (d + Taken(answers[k])) + trace[k + 1] == d + (Taken(answers[k]) + trace[k + 1]);
    }
  }

  /**
    Any script of reads, fills and consumptions, for every capacity, chunking,
    pending poll and error: every answer is honest about what is left, and the
    bytes handed over followed by those still to come are the source. A call is
    pending or fails only as often as the inner reader does.
   */
  method Drive(source: seq<Byte>, capacity: nat, calls: seq<Call>)
    returns (answers: seq<Answer>, left: seq<Byte>, ghost trace: seq<seq<Byte>>, ghost waits: nat, ghost breaks: nat)
    requires capacity > 0
    ensures Follows(trace, calls, answers) && trace[0] == source && left == trace[|calls|]
    ensures Delivered(answers) + left == source
    ensures Pendings(answers) == waits && Errors(answers) == breaks
  {
    var reader := new Reader(capacity, source);
    answers, trace := [], [source];
    for i := 0 to |calls|
      invariant fresh(reader) && fresh(reader.buf) && reader.Valid()
      invariant |answers| == i && Follows(trace, calls[..i], answers)
      invariant trace[0] == source && trace[i] == reader.Stream()
      invariant reader.waits == Pendings(answers) && reader.breaks == Errors(answers)
    {
      var answer := reader.Perform(calls[i]);
      CountsSnoc(answers, answer);
      FollowsExtend(trace, calls[..i], answers, calls[i], answer, reader.Stream());
      assert calls[..i + 1] == calls[..i] + [calls[i]];
      answers, trace := answers + [answer], trace + [reader.Stream()];
    }
    assert calls[..|calls|] == calls;
    left := reader.Remaining();
    waits, breaks := reader.waits, reader.breaks;
    DeliversSource(trace, calls, answers);
  }

  datatype Outcome = Finished | Failed | Unfinished

  /** The delimited reader with its read in progress: the bytes gathered by earlier polls of it. */
  class Split {
    const reader: Reader
    const delimiter: Byte
    var segment: seq<Byte>
    var read: nat

    constructor (reader: Reader, delimiter: Byte)
      requires reader.Valid()
      ensures this.reader == reader && this.delimiter == delimiter && Valid() && Rest() == reader.Stream()
    {
      this.reader, this.delimiter, segment, read := reader, delimiter, [], 0;
    }

    ghost predicate Valid()
      reads this, reader
    {
      reader.Valid() && read == |segment| && delimiter !in segment
    }

    /** The bytes that no segment has been made of yet. */
    ghost function Rest(): seq<Byte>
      requires Valid()
      reads this, reader, reader.buf
    {
      segment + reader.Stream()
    }

    /** The position behind the first delimiter, or behind everything. */
    static method Used(available: seq<Byte>, delimiter: Byte) returns (used: nat)
      requires available != []
      ensures 0 < used <= |available| && delimiter !in available[..used - 1]
      ensures available[used - 1] == delimiter || used == |available|
    {
      used := 0;
      while used < |available| && available[used] != delimiter
        invariant used <= |available| && delimiter !in available[..used]
      {
        used := used + 1;
      }
      if used < |available| {
        used := used + 1;
      }
    }

    /** Moves shown bytes from the reader to the segment. */
    method Move(available: seq<Byte>, used: nat)
      requires reader.Valid() && read == |segment|
      requires available == reader.buf[reader.pos..reader.cap] && used <= |available|
      modifies this`segment, this`read, reader`pos
      ensures reader.Valid() && read == |segment| && segment == old(segment) + available[..used]
      ensures segment + reader.Stream() == old(segment + reader.Stream())
      ensures |reader.Stream()| == |old(reader.Stream())| - used
    {
      ghost var before := reader.Stream();
      segment := segment + available[..used];
      reader.Consume(used);
      read := read + used;
      assert before[..used] == available[..used];
      assert before == before[..used] + before[used..];
    }

    method PollReadUntil() returns (r: Poll<Result<nat>>)
      requires Valid()
      modifies this`segment, this`read, reader, reader.buf
      ensures reader.Valid() && read == |segment| && segment + reader.Stream() == old(Rest())
      ensures r.Ready? && r.value.Ok? ==> r.value.value == |segment| && Ends(segment, reader.Stream(), delimiter)
      ensures !(r.Ready? && r.value.Ok?) ==> Valid()
      ensures reader.Heard(r.Pending?, r.Ready? && r.value.Err?)
    {
      while true
        invariant Valid() && Rest() == old(Rest()) && reader.Heard(false, false)
        decreases |reader.Stream()|
      {
        var filled := reader.PollFillBuf();
        if filled.Pending? {
          return Pending;
        }
        if filled.value.Err? {
          return Ready(Err);
        }
        var available := filled.value.value;
        if available == [] {
          return Ready(Ok(read));
        }
        var used := Used(available, delimiter);
        var done := available[used - 1] == delimiter;
        ghost var gathered := segment;
        Move(available, used);
        assert available[..used] == available[..used - 1] + [available[used - 1]];
        if done {
          assert segment[..|segment| - 1] == gathered + available[..used - 1];
          return Ready(Ok(read));
        }
      }
    }

    /** One poll of the next segment: it is the first segment of what is left. */
    method PollNextSegment() returns (r: Poll<Result<Option<seq<Byte>>>>)
      requires Valid()
      modifies this`segment, this`read, reader, reader.buf
      ensures Valid()
      ensures r.Pending? ==> Rest() == old(Rest())
      ensures r == Ready(Ok(None)) ==> old(Rest()) == []
      ensures r.Ready? && r.value.Ok? && r.value.value.Some? ==>
                Segments(old(Rest()), delimiter) == [r.value.value.value] + Segments(Rest(), delimiter)
      ensures r == Ready(Err) ==> Drops(old(Rest()), Rest(), delimiter)
      ensures reader.Heard(r.Pending?, r.Ready? && r.value.Err?)
    {
      var polled := PollReadUntil();
      if polled.Pending? {
        return Pending;
      }
      var bytes := Take();
      if polled.value.Err? {
        assert old(Rest()) == bytes + Rest();
        return Ready(Err);
      }
      if polled.value.value == 0 {
        return Ready(Ok(None));
      }
      FirstSegment(bytes, Rest(), delimiter);
      r := Ready(Ok(Some(Trim(bytes, delimiter))));
    }

    /** The segments gathered and those still to come make up all. */
    ghost predicate Collected(segments: seq<seq<Byte>>, all: seq<seq<Byte>>)
      reads this, reader, reader.buf
    {
      Valid() && segments + Segments(Rest(), delimiter) == all
    }

    /** One poll of the loop that reads segments until there are none. */
    method Collect(segments: seq<seq<Byte>>, ghost all: seq<seq<Byte>>) returns (r: seq<seq<Byte>>, outcome: Outcome)
      requires Collected(segments, all)
      modifies this`segment, this`read, reader, reader.buf
      ensures r <= all
      ensures outcome.Unfinished? ==> Collected(r, all)
      ensures outcome.Finished? ==> r == all
      ensures outcome.Unfinished? ==>
                |r| + reader.waits == |segments| + old(reader.waits) + 1 && reader.breaks == old(reader.breaks)
      ensures !outcome.Unfinished? ==>
                reader.waits == old(reader.waits) && reader.breaks == old(reader.breaks) + if outcome.Failed? then 1 else 0
    {
      var polled := PollNextSegment();
      if polled.Pending? {
        return segments, Unfinished;
      }
      if polled.value.Err? {
        return segments, Failed;
      }
      if polled.value.value.None? {
        return segments, Finished;
      }
      Append(segments, polled.value.value.value, Segments(Rest(), delimiter));
      r, outcome := segments + [polled.value.value.value], Unfinished;
    }

    method CollectAll(ghost all: seq<seq<Byte>>, polls: nat) returns (segments: seq<seq<Byte>>, outcome: Outcome)
      requires Collected([], all)
      modifies this`segment, this`read, reader, reader.buf
      ensures segments <= all && (outcome.Finished? ==> segments == all)
      ensures outcome.Unfinished? ==> |segments| + reader.waits == old(reader.waits) + polls
      ensures reader.breaks == old(reader.breaks) + if outcome.Failed? then 1 else 0
    {
      segments, outcome := [], Unfinished;
      for i := 0 to polls
        invariant outcome.Unfinished? && Collected(segments, all)
        invariant |segments| + reader.waits == old(reader.waits) + i && reader.breaks == old(reader.breaks)
      {
        segments, outcome := Collect(segments, all);
        if !outcome.Unfinished? {
          return;
        }
      }
    }

    /** The read in progress is over; the next one starts empty. */
    method Take() returns (bytes: seq<Byte>)
      requires reader.Valid()
      modifies this`segment, this`read
      ensures bytes == old(segment) && Valid() && Rest() == reader.Stream()
    {
      bytes := segment;
      segment, read := [], 0;
    }
  }

  /**
    For every capacity, every chunking by the inner reader and every pattern of
    pending polls: the segments read are those of the specification, all of them
    when the stream ends. It fails only if the inner reader does, and is
    unfinished only if the polls were used up by segments and by waiting.
   */
  method SplitAll(source: seq<Byte>, capacity: nat, delimiter: Byte, polls: nat)
    returns (segments: seq<seq<Byte>>, outcome: Outcome, ghost waits: nat, ghost breaks: nat)
    requires capacity > 0
    ensures segments <= Segments(source, delimiter)
    ensures outcome.Finished? ==> segments == Segments(source, delimiter)
    ensures outcome.Unfinished? ==> |segments| + waits == polls
    ensures breaks == if outcome.Failed? then 1 else 0
  {
    var reader := new Reader(capacity, source);
    var split := new Split(reader, delimiter);
    segments, outcome := split.CollectAll(Segments(source, delimiter), polls);
    waits, breaks := reader.waits, reader.breaks;
  }
}
