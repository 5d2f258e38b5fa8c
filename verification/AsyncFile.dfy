/**
  The asynchronous file: one blocking job in flight, a read-ahead buffer and a
  seek that was requested but not launched. The reference is a plain file with
  one cursor.
 */
module AsyncFile {
  import opened Base
  import opened Bytes

  /** The largest offset the system accepts. */
  const MAX_OFFSET: nat := 0x7FFF_FFFF_FFFF_FFFF

  const MIN_I64: int := -0x8000_0000_0000_0000

  /** An open standard file: its contents and its one cursor. */
  datatype Disk = Disk(data: seq<Byte>, pos: nat)

  datatype SeekFrom = Start(position: nat) | End(offset: int) | Current(offset: int)

  /**
    A blocking job. The system decides how much a read returns; the model lets
    it decide when the job is queued, which loses nothing, because until the job
    has run nobody else touches the file.
   */
  datatype Job =
    | ReadJob(capacity: nat, amount: nat)
    | WriteJob(unread: nat, bytes: seq<Byte>)
    | SeekJob(from: SeekFrom)

  /** What a job hands back; a seek that the system rejects hands back nothing, a write that did not fit fails. */
  datatype Done = ReadDone(bytes: seq<Byte>) | WriteDone(ok: bool) | SeekDone(at: Option<nat>)

  /** The one in-flight job, before and after the blocking thread has run it and published its outcome. */
  datatype Operation = Queued(job: Job) | Ran(done: Done, published: bool)

  // The plain file

  /** The contents after bytes land at an offset; a gap past the end reads as zeros. */
  function Overwrite(data: seq<Byte>, at: nat, bytes: seq<Byte>): (r: seq<Byte>)
    ensures |r| == if bytes == [] || at + |bytes| <= |data| then |data| else at + |bytes|
  {
    seq(if bytes == [] || at + |bytes| <= |data| then |data| else at + |bytes|,
        i => if at <= i < at + |bytes| then bytes[i - at] else if 0 <= i < |data| then data[i] else 0)
  }

  function WriteAt(d: Disk, bytes: seq<Byte>): Disk {
    Disk(Overwrite(d.data, d.pos, bytes), d.pos + |bytes|)
  }

  /** The bytes that still fit below the largest offset. */
  function Fitting(d: Disk, bytes: seq<Byte>): (r: seq<Byte>)
    ensures r <= bytes && d.pos + |r| <= if d.pos <= MAX_OFFSET then MAX_OFFSET else d.pos
  {
    bytes[..if d.pos <= MAX_OFFSET then Min(|bytes|, MAX_OFFSET - d.pos) else 0]
  }

  /** A write of all bytes, which stops short at the largest offset. */
  function Written(d: Disk, bytes: seq<Byte>): Disk {
    WriteAt(d, Fitting(d, bytes))
  }

  predicate Fits(d: Disk, bytes: seq<Byte>) {
    |Fitting(d, bytes)| == |bytes|
  }

  function Target(d: Disk, from: SeekFrom): int {
    match from
    case Start(n) => n
    case End(o) => |d.data| + o
    case Current(o) => d.pos + o
  }

  predicate Reachable(d: Disk, from: SeekFrom) {
    0 <= Target(d, from) <= MAX_OFFSET
  }

  /** The bytes that a read of at most `want` may return at the cursor: nothing only at the end. */
  predicate IsRead(d: Disk, want: nat, bytes: seq<Byte>) {
    |bytes| <= want
    && (bytes == [] <==> want == 0 || |d.data| <= d.pos)
    && (bytes != [] ==> d.pos + |bytes| <= |d.data| && bytes == d.data[d.pos..d.pos + |bytes|])
  }

  /** How much a read of at most `want` may return at the cursor. */
  predicate MayRead(d: Disk, want: nat, k: nat) {
    k <= want && (k == 0 <==> want == 0 || |d.data| <= d.pos) && (k > 0 ==> d.pos + k <= |d.data|)
  }

  // The blocking job

  /** What the blocking thread does. */
  function Run(d: Disk, job: Job): (Disk, Done)
    requires JobSound(d, job)
  {
    match job
    case ReadJob(_, amount) =>
      (d.(pos := d.pos + amount), ReadDone(if amount == 0 then [] else d.data[d.pos..d.pos + amount]))
    case WriteJob(unread, bytes) =>
      var at := d.(pos := d.pos - unread);
      (Written(at, bytes), WriteDone(Fits(at, bytes)))
    case SeekJob(from) =>
      if Reachable(d, from) then (d.(pos := Target(d, from)), SeekDone(Some(Target(d, from)))) else (d, SeekDone(None))
  }

  /** The bytes just before the cursor. */
  predicate Behind(d: Disk, bytes: seq<Byte>) {
    |bytes| <= d.pos && (bytes != [] ==> d.pos <= |d.data| && bytes == d.data[d.pos - |bytes|..d.pos])
  }

  predicate JobSound(d: Disk, job: Job) {
    match job
    case ReadJob(capacity, amount) => capacity > 0 && MayRead(d, capacity, amount)
    case WriteJob(unread, bytes) => unread <= d.pos && bytes != []
    case SeekJob(_) => true
  }

  predicate DoneSound(d: Disk, done: Done) {
    match done
    case ReadDone(bytes) => Behind(d, bytes) && (bytes == [] ==> |d.data| <= d.pos)
    case WriteDone(_) => true
    case SeekDone(at) => at.Some? ==> at.value == d.pos
  }

  predicate Sound(d: Disk, op: Option<Operation>) {
    d.pos <= MAX_OFFSET && |d.data| <= MAX_OFFSET
    && match op
       case None => true
       case Some(Queued(job)) => JobSound(d, job)
       case Some(Ran(done, _)) => DoneSound(d, done)
  }

  predicate IsSeek(op: Option<Operation>) {
    op.Some? && match op.value case Queued(job) => job.SeekJob? case Ran(done, _) => done.SeekDone?
  }

  predicate IsReading(op: Option<Operation>) {
    op.Some? && match op.value case Queued(job) => job.ReadJob? case Ran(done, _) => done.ReadDone?
  }

  /** What is still to be reported of a job that has taken effect: nothing, where a seek went, or a failed write. */
  datatype Due = Nothing | Sought(ok: bool) | Broken

  predicate Failing(due: Due) {
    due == Sought(false) || due == Broken
  }

  function DueOf(d: Disk, op: Option<Operation>): Due
    requires Sound(d, op)
  {
    match op
    case Some(Queued(SeekJob(from))) => Sought(Reachable(d, from))
    case Some(Ran(SeekDone(at), _)) => Sought(at.Some?)
    case Some(Queued(WriteJob(unread, bytes))) => if Fits(d.(pos := d.pos - unread), bytes) then Nothing else Broken
    case Some(Ran(WriteDone(ok), _)) => if ok then Nothing else Broken
    case _ => Nothing
  }

  /** How far the disk's cursor is, or will be, ahead of the plain file's. */
  function Ahead(op: Option<Operation>, buffered: seq<Byte>): nat {
    match op
    case None => |buffered|
    case Some(Queued(ReadJob(_, amount))) => amount
    case Some(Ran(ReadDone(bytes), _)) => |bytes|
    case _ => 0
  }

  /** The plain file that the job in flight and the read-ahead stand for. */
  function Logical(d: Disk, op: Option<Operation>, buffered: seq<Byte>): Disk
    requires Sound(d, op) && Behind(d, buffered)
  {
    match op
    case None => d.(pos := d.pos - |buffered|)
    case Some(Queued(ReadJob(_, _))) => d
    case Some(Queued(WriteJob(unread, bytes))) => Written(d.(pos := d.pos - unread), bytes)
    case Some(Queued(SeekJob(from))) => if Reachable(d, from) then d.(pos := Target(d, from)) else d
    case Some(Ran(ReadDone(bytes), _)) => d.(pos := d.pos - |bytes|)
    case Some(Ran(_, _)) => d
  }

  /** The state of the one job: none, still at work, or with its outcome there to be picked up. */
  datatype Busy = Free | Working | Finished

  function BusyOf(op: Option<Operation>): Busy {
    match op
    case None => Free
    case Some(Ran(_, true)) => Finished
    case _ => Working
  }

  /** Running the job, at whatever moment, is invisible. */
  lemma RunIsInvisible(d: Disk, job: Job)
    requires Sound(d, Some(Queued(job)))
    ensures var (d', done) := Run(d, job);
            Sound(d', Some(Ran(done, false)))
            && Logical(d', Some(Ran(done, false)), []) == Logical(d, Some(Queued(job)), [])
            && DueOf(d', Some(Ran(done, false))) == DueOf(d, Some(Queued(job)))
            && Ahead(Some(Ran(done, false)), []) == Ahead(Some(Queued(job)), [])
  {
  }

  // The reference: a plain file with a requested seek, a report that is due, and the extent of the read-ahead

  datatype Plain = Plain(file: Disk, pending: Option<SeekFrom>, due: Due, ahead: nat, busy: Busy)

  /** A poll that only waits changes nothing, and there is a job at work that will wake the caller. */
  predicate Waits(p: Plain, p': Plain) {
    p' == p && p.busy.Working?
  }

  /** The job is over and accounted for. */
  function Settled(p: Plain): Plain {
    p.(due := Nothing, busy := Free)
  }

  /** A failure is reported once, by whichever operation comes next. */
  predicate Reports(p: Plain, p': Plain) {
    Failing(p.due) && p' == Settled(p)
  }

  /** A read starts when nothing is read ahead, and reads ahead as much as it may. */
  predicate Fetches(p: Plain, want: nat, p': Plain) {
    !Failing(p.due) && p.ahead == 0 && MayRead(p.file, want, p'.ahead)
    && p' == p.(due := Nothing, ahead := p'.ahead, busy := p'.busy)
  }

  /** A read is pending only while a job is at work: the one that was, or its own. */
  predicate ReadStep(p: Plain, want: nat, r: Poll<Result<seq<Byte>>>, p': Plain) {
    match r
    case Pending => want > 0 && (Waits(p, p') || (Fetches(p, want, p') && p'.busy.Working?))
    case Ready(Err) => Reports(p, p')
    case Ready(Ok(bytes)) =>
      IsRead(p.file, want, bytes)
      && if want == 0 then p' == p else Consumes(p, want, bytes, p')
  }

  /** Where a read may stand between two turns of its loop. */
  predicate Underway(p: Plain, want: nat, q: Plain) {
    q == p || (!Failing(p.due) && (q == Settled(p) || (Fetches(p, want, q) && q.busy.Free?)))
  }

  /** The bytes come off the front of what is read ahead: as much as was asked for, or all of it. */
  predicate Consumes(p: Plain, want: nat, bytes: seq<Byte>, p': Plain) {
    var k := |bytes| + p'.ahead;
    !Failing(p.due)
    && (if p.ahead > 0 then k == p.ahead else MayRead(p.file, want, k))
    && |bytes| == Min(want, k)
    && p' == Settled(p).(file := p.file.(pos := p.file.pos + |bytes|), ahead := p'.ahead)
  }

  lemma ReadFinishes(p: Plain, want: nat, q: Plain, bytes: seq<Byte>, p': Plain)
    requires want > 0 && Underway(p, want, q) && q.ahead > 0
    requires IsRead(q.file, want, bytes) && Consumes(q, want, bytes, p') && !Failing(p.due)
    ensures ReadStep(p, want, Ready(Ok(bytes)), p')
  {
  }

  /** One more turn without read-ahead, waiting for the job there was or for the read's own. */
  lemma ReadGoesOn(p: Plain, want: nat, q: Plain, r: Poll<Result<bool>>, q': Plain)
    requires want > 0 && Underway(p, want, q)
    requires if q.busy.Free? then Fetches(q, want, q') && q'.busy == (if r.Pending? then Working else Free)
             else if r.Pending? then Waits(q, q') else q' == Settled(q)
    requires r.Ready? ==> (r.value.Err? <==> Failing(q.due))
    ensures r.Pending? ==> ReadStep(p, want, Pending, q')
    ensures r.Ready? && r.value.Err? ==> Reports(p, q')
    ensures r.Ready? && r.value.Ok? ==> Underway(p, want, q')
  {
  }

  /** A write is pending only while the job before it is at work, and then leaves its own at work. */
  predicate WriteStep(p: Plain, buf: seq<Byte>, r: Poll<Result<nat>>, p': Plain) {
    match r
    case Pending => Waits(p, p')
    case Ready(Err) => Reports(p, p')
    case Ready(Ok(n)) =>
      n <= |buf| && (n == 0 <==> buf == []) && !Failing(p.due)
      && if n == 0 then p' == Settled(p)
         else p' == Plain(Written(p.file, buf[..n]), p.pending,
                          if Fits(p.file, buf[..n]) then Nothing else Broken, 0, Working)
  }

  predicate FlushStep(p: Plain, r: Poll<Result<()>>, p': Plain) {
    match r
    case Pending => Waits(p, p')
    case Ready(Err) => Reports(p, p')
    case Ready(Ok(_)) => !Failing(p.due) && p' == Settled(p)
  }

  predicate StartStep(p: Plain, from: SeekFrom, ok: bool, p': Plain) {
    ok == (p.pending.None? && !p.due.Sought?)
    && p' == if ok then p.(pending := Some(from)) else p
  }

  /** The requested seek, or a query of the current position. */
  function Requested(pending: Option<SeekFrom>): SeekFrom {
    if pending.Some? then pending.value else Current(0)
  }

  /** The offset relative to the disk's cursor is not a 64-bit number. */
  predicate Overflows(from: SeekFrom, ahead: nat) {
    from.Current? && from.offset - ahead < MIN_I64
  }

  /**
    The plain file after a seek. A rejected one moves the cursor to the end of
    the read-ahead, which is discarded, unless its offset overflows: then
    everything stays.
   */
  function AfterSeek(p: Plain): Plain {
    var from := Requested(p.pending);
    if Reachable(p.file, from) then Plain(p.file.(pos := Target(p.file, from)), None, Nothing, 0, Free)
    else if Overflows(from, p.ahead) then Settled(p).(pending := None)
    else Plain(p.file.(pos := p.file.pos + p.ahead), None, Nothing, 0, Free)
  }

  predicate Launches(p: Plain, r: Poll<Result<nat>>, p': Plain) {
    var from := Requested(p.pending);
    var good := Reachable(p.file, from);
    match r
    case Pending => (good || !Overflows(from, p.ahead)) && p' == AfterSeek(p).(due := Sought(good), busy := Working)
    case Ready(Ok(at)) => good && p' == AfterSeek(p) && at == p'.file.pos
    case Ready(Err) => !good && p' == AfterSeek(p)
  }

  predicate CompleteStep(p: Plain, r: Poll<Result<nat>>, p': Plain) {
    match p.due
    case Sought(ok) =>
      (match r
       case Pending => Waits(p, p')
       case Ready(Ok(at)) => ok && at == p.file.pos && p' == Settled(p)
       case Ready(Err) => Reports(p, p'))
    case Broken => if r.Pending? then Waits(p, p') else r.value.Err? && Reports(p, p')
    case Nothing => (r.Pending? && Waits(p, p')) || Launches(p, r, p')
  }

  /** Time passes: the job at work may finish. */
  predicate PassStep(p: Plain, p': Plain) {
    p' == p || (p.busy.Working? && p' == p.(busy := Finished))
  }

  /** A rejected seek keeps the cursor if and only if nothing is read ahead or the offset overflows. */
  lemma RejectedSeekExact(p: Plain)
    requires !Reachable(p.file, Requested(p.pending))
    ensures AfterSeek(p).file == p.file <==> p.ahead == 0 || Overflows(Requested(p.pending), p.ahead)
  {
  }

  datatype Call = Read(want: nat) | Write(buf: seq<Byte>) | Flush | StartSeek(from: SeekFrom) | Complete | Pass

  datatype Reply =
    | Bytes(read: Poll<Result<seq<Byte>>>)
    | Wrote(amount: Poll<Result<nat>>)
    | Flushed(done: Poll<Result<()>>)
    | Started(ok: bool)
    | At(at: Poll<Result<nat>>)
    | Passed

  predicate Step(p: Plain, call: Call, reply: Reply, p': Plain) {
    match call
    case Read(want) => reply.Bytes? && ReadStep(p, want, reply.read, p')
    case Write(buf) => reply.Wrote? && WriteStep(p, buf, reply.amount, p')
    case Flush => reply.Flushed? && FlushStep(p, reply.done, p')
    case StartSeek(from) => reply.Started? && StartStep(p, from, reply.ok, p')
    case Complete => reply.At? && CompleteStep(p, reply.at, p')
    case Pass => reply.Passed? && PassStep(p, p')
  }

  predicate IsPending(reply: Reply) {
    match reply
    case Bytes(r) => r.Pending?
    case Wrote(r) => r.Pending?
    case Flushed(r) => r.Pending?
    case At(r) => r.Pending?
    case _ => false
  }

  /**
    No call is left waiting for nothing: pending means a job is at work. Once
    that job has finished, a write, a flush or the report of a seek is answered,
    and so is a read of bytes that are there.
   */
  lemma PendingMeansAtWork(p: Plain, call: Call, reply: Reply, p': Plain)
    requires Step(p, call, reply, p')
    ensures IsPending(reply) ==> p'.busy.Working?
    ensures call.Write? || call.Flush? || (call.Complete? && !p.due.Nothing?) || (call.Read? && p.ahead > 0) ==>
              (IsPending(reply) ==> p.busy.Working?)
  {
  }

  /** A run of the plain file. */
  predicate Follows(trace: seq<Plain>, calls: seq<Call>, replies: seq<Reply>) {
    |trace| == |calls| + 1 && |replies| == |calls|
    && forall i :: 0 <= i < |calls| ==> Step(trace[i], calls[i], replies[i], trace[i + 1])
  }

  lemma FollowsExtend(trace: seq<Plain>, calls: seq<Call>, replies: seq<Reply>, call: Call, reply: Reply, p: Plain)
    requires Follows(trace, calls, replies) && Step(trace[|calls|], call, reply, p)
    ensures Follows(trace + [p], calls + [call], replies + [reply])
  {
  }

  /** Offsets are signed 64-bit numbers. */
  predicate Admissible(call: Call) {
    call.StartSeek? ==> call.from.Start? || MIN_I64 <= call.from.offset
  }

  // What a run of the plain file means

  /** The bytes that a run's reads returned, in order. */
  function Delivered(replies: seq<Reply>): seq<Byte> {
    if replies == [] then [] else Delivered(replies[..|replies| - 1]) + BytesOf(replies[|replies| - 1])
  }

  function BytesOf(reply: Reply): seq<Byte> {
    match reply
    case Bytes(Ready(Ok(bytes))) => bytes
    case _ => []
  }

  /** The bytes that a run's writes accepted, in order. */
  function Accepted(calls: seq<Call>, replies: seq<Reply>): seq<Byte>
    requires |calls| == |replies|
  {
    if calls == [] then []
    else
      var k := |calls| - 1;
      Accepted(calls[..k], replies[..k]) + Chunk(calls[k], replies[k])
  }

  function Chunk(call: Call, reply: Reply): seq<Byte> {
    match (call, reply)
    case (Write(buf), Wrote(Ready(Ok(n)))) => if n <= |buf| then buf[..n] else []
    case _ => []
  }

  lemma FollowsPrefix(trace: seq<Plain>, calls: seq<Call>, replies: seq<Reply>)
    requires Follows(trace, calls, replies) && calls != []
    ensures var k := |calls| - 1;
            Follows(trace[..k + 1], calls[..k], replies[..k]) && Step(trace[k], calls[k], replies[k], trace[k + 1])
  {
  }

  /** The bytes are the contents between two cursors. */
  predicate Between(a: Disk, bytes: seq<Byte>, z: Disk) {
    z.data == a.data && z.pos == a.pos + |bytes|
    && (bytes != [] ==> z.pos <= |a.data| && bytes == a.data[a.pos..z.pos])
  }

  lemma BetweenAppend(a: Disk, s: seq<Byte>, m: Disk, t: seq<Byte>, z: Disk)
    requires Between(a, s, m) && Between(m, t, z)
    ensures Between(a, s + t, z)
  {
    if s == [] {
      assert s + t == t;
    } else if t == [] {
      assert s + t == s;
    } else {
      assert a.data[a.pos..m.pos] + a.data[m.pos..z.pos] == a.data[a.pos..z.pos];
    }
  }

  lemma BytesAreBetween(p: Plain, call: Call, reply: Reply, p': Plain)
    requires Step(p, call, reply, p') && (call.Read? || call.Flush? || call.StartSeek? || call.Pass?)
    ensures Between(p.file, BytesOf(reply), p'.file)
  {
  }

  /** Reads, however they are cut and abandoned, return the contents from the cursor on, each byte once. */
  lemma {:induction false} ReadsAreContiguous(trace: seq<Plain>, calls: seq<Call>, replies: seq<Reply>)
    requires Follows(trace, calls, replies)
    requires forall c :: c in calls ==> c.Read? || c.Flush? || c.StartSeek? || c.Pass?
    ensures Between(trace[0].file, Delivered(replies), trace[|calls|].file)
  {
    if calls != [] {
      var k := |calls| - 1;
      FollowsPrefix(trace, calls, replies);
      ReadsAreContiguous(trace[..k + 1], calls[..k], replies[..k]);
      BytesAreBetween(trace[k], calls[k], replies[k], trace[k + 1]);
      BetweenAppend(trace[0].file, Delivered(replies[..k]), trace[k].file, BytesOf(replies[k]), trace[k + 1].file);
    }
  }

  lemma OverwriteReads(data: seq<Byte>, at: nat, bytes: seq<Byte>)
    requires bytes != []
    ensures |Overwrite(data, at, bytes)| >= at + |bytes| && Overwrite(data, at, bytes)[at..at + |bytes|] == bytes
  {
    var r := Overwrite(data, at, bytes);
    forall i | 0 <= i < |bytes| ensures r[at..at + |bytes|][i] == bytes[i] {
      assert r[at + i] == bytes[i];
    }
  }

  lemma OverwriteTwice(data: seq<Byte>, at: nat, a: seq<Byte>, b: seq<Byte>)
    ensures Overwrite(Overwrite(data, at, a), at + |a|, b) == Overwrite(data, at, a + b)
  {
    var twice := Overwrite(Overwrite(data, at, a), at + |a|, b);
    var whole := Overwrite(data, at, a + b);
    assert |twice| == |whole|;
    forall i | 0 <= i < |whole|
      ensures twice[i] == whole[i]
    {
      if at <= i < at + |a| {
        assert (a + b)[i - at] == a[i - at];
      } else if at + |a| <= i < at + |a| + |b| {
        assert (a + b)[i - at] == b[i - at - |a|];
      }
    }
  }

  /** Writes, however they are cut and abandoned, land back to back from the cursor on, each byte once. */
  lemma {:induction false} WritesAreContiguous(trace: seq<Plain>, calls: seq<Call>, replies: seq<Reply>)
    requires Follows(trace, calls, replies)
    requires forall c :: c in calls ==> c.Write? || c.Flush? || c.StartSeek? || c.Pass?
    ensures trace[|calls|].file == Written(trace[0].file, Accepted(calls, replies))
  {
    if calls == [] {
      WrittenNothing(trace[0].file);
    } else {
      var k := |calls| - 1;
      FollowsPrefix(trace, calls, replies);
      WritesAreContiguous(trace[..k + 1], calls[..k], replies[..k]);
      ChunkLands(trace[k], calls[k], replies[k], trace[k + 1]);
      WriteTwice(trace[0].file, Accepted(calls[..k], replies[..k]), Chunk(calls[k], replies[k]));
    }
  }

  lemma ChunkLands(p: Plain, call: Call, reply: Reply, p': Plain)
    requires Step(p, call, reply, p') && (call.Write? || call.Flush? || call.StartSeek? || call.Pass?)
    ensures p'.file == Written(p.file, Chunk(call, reply))
  {
    if Chunk(call, reply) == [] { WrittenNothing(p.file); }
  }

  lemma WrittenNothing(d: Disk)
    ensures Written(d, []) == d
  {
    assert Overwrite(d.data, d.pos, []) == d.data;
  }

  /** Also across the largest offset, where both ways stop. */
  lemma WriteTwice(d: Disk, a: seq<Byte>, b: seq<Byte>)
    ensures Written(Written(d, a), b) == Written(d, a + b)
  {
    var fa := Fitting(d, a);
    var fb := Fitting(Written(d, a), b);
    assert Fitting(d, a + b) == fa + fb;
    OverwriteTwice(d.data, d.pos, fa, fb);
  }

  /** Written, sought back and read again, the bytes are the ones that were accepted. */
  lemma ReadBack(p: Plain, buf: seq<Byte>, n: nat, written: Plain, sought: Plain, want: nat, bytes: seq<Byte>, last: Plain)
    requires WriteStep(p, buf, Ready(Ok(n)), written) && p.file.pos + n <= MAX_OFFSET
    requires CompleteStep(written.(pending := Some(Start(p.file.pos))), Ready(Ok(p.file.pos)), sought)
    requires ReadStep(sought, want, Ready(Ok(bytes)), last) && 0 < want <= n
    ensures bytes != [] && bytes <= buf
  {
    var data := Overwrite(p.file.data, p.file.pos, buf[..n]);
    assert Fitting(p.file, buf[..n]) == buf[..n];
    OverwriteReads(p.file.data, p.file.pos, buf[..n]);
    assert bytes == data[p.file.pos..p.file.pos + |bytes|];
    assert bytes == data[p.file.pos..p.file.pos + n][..|bytes|];
  }

  /**
    A rejected seek can move the cursor. Six bytes are read ahead by a poll that
    is abandoned, two of them are then consumed; a seek to one before the start
    is adjusted by the four that remain, rejected, and the cursor goes from 2 to 6.
   */
  lemma RejectedSeekSlips()
    ensures var start := Disk([1, 2, 3, 4, 5, 6], 0);
            var (ahead, done) := Run(start, ReadJob(6, 6));
            done == ReadDone(start.data)
            && Behind(ahead, start.data[2..])
            && Logical(ahead, None, start.data[2..]).pos == 2
            && !Reachable(Logical(ahead, None, start.data[2..]), Current(-3))
            && Logical(ahead, Some(Queued(SeekJob(Current(-3 - 4)))), []).pos == 6
  {
    var start := Disk([1, 2, 3, 4, 5, 6], 0);
    var (ahead, done) := Run(start, ReadJob(6, 6));
    assert done.bytes == start.data[0..6] == start.data;
    assert start.data[2..] == ahead.data[6 - 4..6];
  }

  /** The same with the read still in flight when the seek is asked for: the cursor goes from 0 to 6. */
  lemma RejectedSeekSlipsInFlight()
    ensures var start := Disk([1, 2, 3, 4, 5, 6], 0);
            var read := Some(Queued(ReadJob(6, 6)));
            var p := Plain(start, Some(Start(MAX_OFFSET + 1)), Nothing, Ahead(read, []), BusyOf(read));
            Sound(start, read) && Logical(start, read, []) == p.file
            && CompleteStep(p, Ready(Err), AfterSeek(p)) && AfterSeek(p).file.pos == 6
  {
  }
}

module AsyncFileCode {
  import opened Base
  import opened Bytes
  import opened A = AsyncFile

  class File {
    var disk: Disk
    var operation: Option<Operation>
    var pendingSeek: Option<SeekFrom>
    var maxBufSize: nat
    var buffered: seq<Byte>

    /** A job in flight means no read-ahead, and a seek in flight means no seek is requested. */
    ghost predicate Valid()
      reads this
    {
      maxBufSize > 0 && Sound(disk, operation) && Behind(disk, buffered)
      && (operation.Some? ==> buffered == [])
      && (IsSeek(operation) ==> pendingSeek.None?)
      && (pendingSeek.Some? ==> pendingSeek.value.Start? || MIN_I64 <= pendingSeek.value.offset)
    }

    ghost function Abs(): Plain
      requires Valid()
      reads this
    {
      Plain(Logical(disk, operation, buffered), pendingSeek, DueOf(disk, operation), Ahead(operation, buffered),
            BusyOf(operation))
    }

    constructor (file: Disk)
      requires file.pos <= MAX_OFFSET && |file.data| <= MAX_OFFSET
      ensures Valid() && Abs() == Plain(file, None, Nothing, 0, Free)
    {
      disk, operation, pendingSeek, maxBufSize, buffered := file, None, None, 2 * 1024 * 1024, [];
    }

    method SetMaxBufSize(size: nat)
      requires Valid()
      modifies this`maxBufSize
      ensures Valid() && Abs() == old(Abs())
      ensures maxBufSize == if size == 0 then 1 else size
    {
      maxBufSize := if size == 0 then 1 else size;
    }

    /** The blocking thread runs the queued job, at a moment of its choice. */
    method RunJob()
      requires Valid() && operation.Some? && operation.value.Queued?
      modifies this`disk, this`operation
      ensures Valid() && Abs() == old(Abs())
      ensures operation.Some? && operation.value.Ran? && (IsReading(operation) <==> IsReading(old(operation)))
    {
      RunIsInvisible(disk, operation.value.job);
      var (d, done) := Run(disk, operation.value.job);
      disk, operation := d, Some(Ran(done, false));
    }

    /** Time passes: the blocking thread may run the job, and may publish its outcome. */
    method Pass()
      requires Valid()
      modifies this`disk, this`operation
      ensures Valid() && PassStep(old(Abs()), Abs()) && (IsReading(operation) <==> IsReading(old(operation)))
    {
      var run, publish: bool := *, *;
      if operation.Some? {
        if operation.value.Queued? && run {
          RunJob();
        }
        if operation.value.Ran? && publish {
          operation := Some(operation.value.(published := true));
        }
      }
    }

    /** What is known of a job just taken out of the handle: its outcome still has to be accounted for. */
    twostate predicate Took(done: Done)
      requires old(Valid())
      reads this
    {
      operation.None? && buffered == [] && pendingSeek == old(pendingSeek) && maxBufSize == old(maxBufSize)
      && Sound(disk, Some(Ran(done, false)))
      && Logical(disk, Some(Ran(done, false)), []) == old(Abs()).file
      && DueOf(disk, Some(Ran(done, false))) == old(Abs()).due
      && Ahead(Some(Ran(done, false)), []) == old(Abs()).ahead
      && (done.ReadDone? <==> IsReading(old(operation)))
    }

    /** Pending exactly while the job is at work at the moment of the poll. */
    method PollOperation() returns (r: Poll<Option<Done>>)
      requires Valid()
      modifies this`disk, this`operation
      ensures r.Pending? ==> Valid() && Waits(old(Abs()), Abs()) && (IsReading(operation) <==> IsReading(old(operation)))
      ensures r == Ready(None) <==> old(operation).None?
      ensures r == Ready(None) ==> operation.None? && disk == old(disk)
      ensures r.Ready? && r.value.Some? ==> Took(r.value.value)
    {
      if operation.None? {
        return Ready(None);
      }
      Pass();
      if operation.value.Queued? || !operation.value.published {
        return Pending;
      }
      r := Ready(Some(operation.value.done));
      operation := None;
    }

    /** Accounts for an outcome: read bytes join the read-ahead, a rejected seek or a short write is an error. */
    method FinishOperation(done: Done) returns (ok: bool)
      requires operation.None? && Sound(disk, Some(Ran(done, false))) && buffered == [] && maxBufSize > 0
      requires pendingSeek.Some? ==> pendingSeek.value.Start? || MIN_I64 <= pendingSeek.value.offset
      modifies this`buffered
      ensures Valid()
      ensures Abs() == Plain(Logical(disk, Some(Ran(done, false)), []), pendingSeek, Nothing,
                             Ahead(Some(Ran(done, false)), []), Free)
      ensures ok == !Failing(DueOf(disk, Some(Ran(done, false))))
      ensures buffered == if done.ReadDone? then done.bytes else []
    {
      match done
      case ReadDone(bytes) =>
        buffered, ok := buffered + bytes, true;
      case WriteDone(written) =>
        ok := written;
      case SeekDone(at) =>
        ok := at.Some?;
    }

    /** One turn of every polling loop: the job in flight is waited for, then accounted for. */
    method Settle() returns (r: Poll<Result<()>>)
      requires Valid() && operation.Some?
      modifies this`disk, this`operation, this`buffered
      ensures Valid()
      ensures r.Pending? ==> Waits(old(Abs()), Abs())
      ensures r.Ready? ==> operation.None? && Abs() == Settled(old(Abs()))
      ensures r.Ready? ==> (r.value.Err? <==> Failing(old(Abs()).due))
      ensures r.Ready? && IsReading(old(operation)) ==> (buffered == [] <==> |disk.data| <= Abs().file.pos)
      ensures r.Ready? && !IsReading(old(operation)) ==> buffered == []
    {
      var polled := PollOperation();
      if polled.Pending? {
        return Pending;
      }
      var done := polled.value.value;
      assert Took(done);
      var ok := FinishOperation(done);
      r := Ready(if ok then Ok(()) else Err);
    }

    /** Serves a read from the read-ahead. */
    method Drain(want: nat) returns (bytes: seq<Byte>)
      requires Valid() && buffered != [] && want > 0
      modifies this`buffered
      ensures Valid() && IsRead(old(Abs()).file, want, bytes) && Consumes(old(Abs()), want, bytes, Abs())
    {
      var amount := Min(want, |buffered|);
      bytes := buffered[..amount];
      buffered := buffered[amount..];
    }

    /** How far a read still has to go. */
    ghost function Distance(): nat
      reads this
    {
      if buffered != [] then 0 else if operation.None? || IsReading(operation) then 1 else 2
    }

    /** Starts a read; the system decides how much it will return. */
    method LaunchRead(want: nat)
      requires Valid() && operation.None? && buffered == [] && want > 0
      modifies this`operation
      ensures Valid() && IsReading(operation) && Fetches(old(Abs()), want, Abs()) && Abs().busy.Working?
    {
      var capacity := Min(want, maxBufSize);
      assert MayRead(disk, capacity, if |disk.data| <= disk.pos then 0 else 1);
      var amount :| 0 <= amount <= capacity && MayRead(disk, capacity, amount);
      assert MayRead(disk, capacity, amount);
      operation := Some(Queued(ReadJob(capacity, amount)));
    }

    /** One turn of a read without read-ahead: waits for a job, its own if there was none; true at the end of the file. */
    method ReadAhead(want: nat) returns (r: Poll<Result<bool>>)
      requires Valid() && buffered == [] && want > 0
      modifies this`disk, this`operation, this`buffered
      ensures Valid()
      ensures old(operation).None? ==>
                Fetches(old(Abs()), want, Abs()) && Abs().busy == if r.Pending? then Working else Free
      ensures old(operation).Some? ==> if r.Pending? then Waits(old(Abs()), Abs()) else Abs() == Settled(old(Abs()))
      ensures r.Ready? ==> operation.None? && (r.value.Err? <==> Failing(old(Abs()).due))
      ensures r.Ready? && r.value.Ok? && r.value.value ==> buffered == [] && |Abs().file.data| <= Abs().file.pos
      ensures r.Ready? && r.value.Ok? && !r.value.value ==> Distance() < old(Distance())
    {
      if operation.None? {
        LaunchRead(want);
      }
      var reading := IsReading(operation);
      var settled := Settle();
      if settled.Pending? {
        return Pending;
      }
      r := Ready(if settled.value.Err? then Err else Ok(reading && buffered == []));
    }

    method PollRead(want: nat) returns (r: Poll<Result<seq<Byte>>>)
      requires Valid()
      modifies this`disk, this`operation, this`buffered
      ensures Valid() && ReadStep(old(Abs()), want, r, Abs())
      ensures r.Pending? ==> operation.Some?
      ensures old(buffered) != [] ==> r.Ready?
    {
      if want == 0 {
        return Ready(Ok([]));
      }
      ghost var p := Abs();
      while true
        invariant Valid() && Underway(p, want, Abs())
        decreases Distance()
      {
        ghost var q := Abs();
        if buffered != [] {
          var bytes := Drain(want);
          ReadFinishes(p, want, q, bytes, Abs());
          return Ready(Ok(bytes));
        }
        var ahead := ReadAhead(want);
        ReadGoesOn(p, want, q, ahead, Abs());
        if ahead.Pending? {
          return Pending;
        }
        if ahead.value.Err? {
          return Ready(Err);
        }
        if ahead.value.value {
          return Ready(Ok([]));
        }
      }
    }

    method PollFlush() returns (r: Poll<Result<()>>)
      requires Valid()
      modifies this`disk, this`operation, this`buffered
      ensures Valid() && FlushStep(old(Abs()), r, Abs())
      ensures r.Pending? ==> operation.Some?
      ensures r.Ready? ==> operation.None? && disk.data == Abs().file.data
    {
      while operation.Some?
        invariant Valid() && (Abs() == old(Abs()) || (!Failing(old(Abs()).due) && Abs() == Settled(old(Abs()))))
        decreases operation.Some?
      {
        var settled := Settle();
        if settled.Pending? || settled.value.Err? {
          return settled;
        }
      }
      r := Ready(Ok(()));
    }

    method LaunchWrite(buf: seq<Byte>) returns (amount: nat)
      requires Valid() && operation.None? && buf != []
      modifies this`operation, this`buffered
      ensures Valid() && amount == Min(|buf|, maxBufSize)
      ensures Abs() == Plain(Written(old(Abs()).file, buf[..amount]), pendingSeek,
                             if Fits(old(Abs()).file, buf[..amount]) then Nothing else Broken, 0, Working)
    {
      amount := Min(|buf|, maxBufSize);
      var unread := |buffered|;
      buffered := [];
      operation := Some(Queued(WriteJob(unread, buf[..amount])));
    }

    /** Accepts a prefix: it is written where the cursor stands, behind the read-ahead. */
    method PollWrite(buf: seq<Byte>) returns (r: Poll<Result<nat>>)
      requires Valid()
      modifies this`disk, this`operation, this`buffered
      ensures Valid() && WriteStep(old(Abs()), buf, r, Abs())
      ensures r.Pending? ==> operation.Some?
      ensures r.Ready? && r.value.Ok? ==> r.value.value == Min(|buf|, maxBufSize)
    {
      var flushed := PollFlush();
      if flushed.Pending? {
        return Pending;
      }
      if flushed.value.Err? {
        return Ready(Err);
      }
      if buf == [] {
        return Ready(Ok(0));
      }
      var amount := LaunchWrite(buf);
      r := Ready(Ok(amount));
    }

    method StartSeek(from: SeekFrom) returns (ok: bool)
      requires Valid() && (from.Start? || MIN_I64 <= from.offset)
      modifies this`pendingSeek
      ensures Valid() && StartStep(old(Abs()), from, ok, Abs())
    {
      if pendingSeek.Some? || IsSeek(operation) {
        return false;
      }
      pendingSeek := Some(from);
      ok := true;
    }

    /**
      Turns the request into a job relative to the physical cursor and discards
      the read-ahead. An offset that cannot be adjusted launches nothing.
     */
    method LaunchSeek() returns (ok: bool)
      requires Valid() && operation.None?
      modifies this`operation, this`pendingSeek, this`buffered
      ensures Valid() && Abs().file == AfterSeek(old(Abs())).file && pendingSeek.None?
      ensures ok == !Overflows(Requested(old(pendingSeek)), |old(buffered)|)
      ensures !ok ==> Abs() == AfterSeek(old(Abs())) && !Reachable(old(Abs()).file, Requested(old(pendingSeek)))
      ensures ok ==> IsSeek(operation)
                     && Abs() == AfterSeek(old(Abs())).(
                          due := Sought(Reachable(old(Abs()).file, Requested(old(pendingSeek)))), busy := Working)
    {
      var position := if pendingSeek.Some? then pendingSeek.value else Current(0);
      pendingSeek := None;
      if position.Current? {
        if position.offset - |buffered| < MIN_I64 {
          return false;
        }
        position := Current(position.offset - |buffered|);
      }
      buffered := [];
      operation := Some(Queued(SeekJob(position)));
      ok := true;
    }

    /** Waits for the seek in flight and reports where it went. */
    method TakeSeek() returns (r: Poll<Result<nat>>)
      requires Valid() && IsSeek(operation)
      modifies this`disk, this`operation
      ensures Valid() && CompleteStep(old(Abs()), r, Abs())
    {
      var polled := PollOperation();
      if polled.Pending? {
        return Pending;
      }
      var done := polled.value.value;
      assert Took(done);
      r := Ready(if done.at.Some? then Ok(done.at.value) else Err);
    }

    /** Bytes are read ahead, or a read in flight will find some. */
    ghost predicate ReadsAhead()
      requires Valid()
      reads this
    {
      buffered != [] || (IsReading(operation) && Abs().file.pos < |disk.data|)
    }

    /** A seek launched by this call and rejected keeps the cursor exactly if no read-ahead is thrown away. */
    method PollComplete() returns (r: Poll<Result<nat>>)
      requires Valid()
      modifies this`disk, this`operation, this`pendingSeek, this`buffered
      ensures Valid() && CompleteStep(old(Abs()), r, Abs())
      ensures r.Pending? ==> operation.Some?
      ensures old(Abs()).due.Nothing? && (r.Ready? || Abs().due.Sought?)
              && !Reachable(old(Abs()).file, Requested(old(pendingSeek))) ==>
                (Abs().file == old(Abs()).file <==>
                 !old(ReadsAhead()) || Overflows(Requested(old(pendingSeek)), old(Abs()).ahead))
    {
      AheadMeans();
      while true
        invariant Valid() && (Abs() == old(Abs()) || (old(Abs()).due.Nothing? && Abs() == Settled(old(Abs()))))
        decreases operation.Some?
      {
        if operation.None? {
          var ok := LaunchSeek();
          if !ok {
            return Ready(Err);
          }
        }
        if IsSeek(operation) {
          r := TakeSeek();
          return;
        }
        var settled := Settle();
        if settled.Pending? {
          return Pending;
        }
        if settled.value.Err? {
          return Ready(Err);
        }
      }
    }

    lemma AheadMeans()
      requires Valid()
      ensures ReadsAhead() <==> Abs().ahead > 0
    {
    }

    /** Waits for the job in flight, gives back the read-ahead, and hands out the file. */
    method IntoStd() returns (file: Disk)
      requires Valid()
      modifies this`disk, this`operation, this`buffered
      ensures file == old(Abs()).file
    {
      if operation.Some? {
        if operation.value.Queued? {
          RunJob();
        }
        var done := operation.value.done;
        operation := None;
        var _ := FinishOperation(done);
      }
      if buffered != [] {
        disk := disk.(pos := disk.pos - |buffered|);
        buffered := [];
      }
      file := disk;
    }

    /** Refused also while something else, such as the last job, still refers to the inner file. */
    method TryIntoStd(references: nat) returns (r: Option<Disk>)
      requires Valid() && references >= 1
      ensures r.Some? <==> operation.None? && buffered == [] && references == 1
      ensures r.Some? ==> r.value == Abs().file
    {
      r := if operation.Some? || buffered != [] || references != 1 then None else Some(disk);
    }

    method Perform(call: Call) returns (reply: Reply)
      requires Valid() && Admissible(call)
      modifies this
      ensures Valid() && Step(old(Abs()), call, reply, Abs())
    {
      match call
      case Read(want) =>
        var r := PollRead(want);
        reply := Bytes(r);
      case Write(buf) =>
        var r := PollWrite(buf);
        reply := Wrote(r);
      case Flush =>
        var r := PollFlush();
        reply := Flushed(r);
      case StartSeek(from) =>
        var ok := StartSeek(from);
        reply := Started(ok);
      case Complete =>
        var r := PollComplete();
        reply := At(r);
      case Pass =>
        Pass();
        reply := Passed;
    }
  }

  /**
    Every script of polls, each of which may be abandoned while pending, with
    blocking jobs running whenever they like: the replies are those of a plain
    file, and the file handed out at the end is that plain file. So a script of
    reads returns the contents in order, and one of writes lands back to back.
   */
  method Drive(file: Disk, calls: seq<Call>) returns (replies: seq<Reply>, end: Disk, ghost trace: seq<Plain>)
    requires file.pos <= MAX_OFFSET && |file.data| <= MAX_OFFSET
    requires forall c :: c in calls ==> Admissible(c)
    ensures Follows(trace, calls, replies)
    ensures trace[0] == Plain(file, None, Nothing, 0, Free) && end == trace[|calls|].file
    ensures |replies| == |calls|
    ensures (forall c :: c in calls ==> c.Read? || c.Flush? || c.StartSeek? || c.Pass?) ==> Between(file, Delivered(replies), end)
    ensures (forall c :: c in calls ==> c.Write? || c.Flush? || c.StartSeek? || c.Pass?) ==> end == Written(file, Accepted(calls, replies))
  {
    var f := new File(file);
    replies, trace := [], [f.Abs()];
    for i := 0 to |calls|
      invariant f.Valid() && fresh(f) && |replies| == i
      invariant Follows(trace, calls[..i], replies)
      invariant trace[0] == Plain(file, None, Nothing, 0, Free) && trace[i] == f.Abs()
    {
      var reply := f.Perform(calls[i]);
      FollowsExtend(trace, calls[..i], replies, calls[i], reply, f.Abs());
      assert calls[..i + 1] == calls[..i] + [calls[i]];
      replies, trace := replies + [reply], trace + [f.Abs()];
    }
    assert calls[..|calls|] == calls;
    end := f.IntoStd();
    if forall c :: c in calls ==> c.Read? || c.Flush? || c.StartSeek? || c.Pass? {
      ReadsAreContiguous(trace, calls, replies);
    }
    if forall c :: c in calls ==> c.Write? || c.Flush? || c.StartSeek? || c.Pass? {
      WritesAreContiguous(trace, calls, replies);
    }
  }
}
