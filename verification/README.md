# Verified model of the FFRT asynchronous primitives

The crate builds Tokio-style primitives on a C runtime: each is a small state
behind a lock, driven by polls, wakes and futures that are dropped half way.
This project models the ones whose guarantees span whole runs and proves those
guarantees for every input and every interleaving of the modelled steps.

- `Semaphore`, `AsyncMutex`, `RwLock`, `Notify`, `Mpsc`, `Broadcast`: one module
  holds the state, what each locked section does to it, a world (state, futures,
  guards, what was accepted and delivered), a `Step` and a total `Next`; a step
  that is not possible changes nothing. `Exec` runs any list of steps, so a
  lemma about `Exec(Init, steps)` is a lemma about every run. The matching
  `...Code` module holds a class that performs the locked sections the way the
  code does, each method proved equal to the step it implements. `WaitQueue`
  is the waiter queue that the first three share.
- `Reactor` and `TaskDriver` interleave single statements, because their races
  are inside one method. `ReactorCode` holds the descriptor as the code keeps it,
  completed by ghost fields to the machine's; each method is proved to be the
  machine's statements run without interruption. `TaskDriverCode` holds the
  driver loop, with other threads' actions at every statement.
- `AsyncFileCode.File`, `BufWriter.Writer`, `BufReader.Reader`,
  `BufReader.Split` and `IntervalCode.Interval` are the mutable objects
  themselves; `Drive` runs any script on each (`SplitAll` for the segment
  reader). Blocking jobs and inner readers and writers choose freely: when they
  run, how much they move, whether they are pending or fail. (How much a file
  read returns is chosen when its job is queued; nobody else touches the file
  before it has run.)

Besides the guarantees over runs, each module pins what every call answers, in
terms of the history (values accepted and received, live guards, the log) and
not of the state the call tests: the `...Answers` lemmas. `called` records the
wakers that were called, so that no parked waker can be dropped unnoticed.

A locked section and the wake it issues right after are one step everywhere but
in the reactor and the task driver. Wakers are numbers; `signalled` holds the
tickets whose waker was called since their future was last polled. Memory is
sequentially consistent, and the FFRT mutex and condition variable are taken to
work (with spurious wake-ups).

Eight promises turned out to hold only under a condition. Each has a lemma with
a concrete run where it fails and an if-and-only-if that says when it holds:

- a front reader is left asleep when a reader leaves a full read-write lock
  (`RwLock.FullLockStrandsReader`, `RwLock.FrontStep`);
- a parked receiver is not told that its channel was closed
  (`Mpsc.CloseStallsReceiver`, `Mpsc.TellsStep`);
- a value arrives after the end of an mpsc channel was reported
  (`Mpsc.DetachedSendRevives`, `Mpsc.OverStep`);
- a closed broadcast channel comes back through a weak sender
  (`Broadcast.UpgradeRevives`, `Broadcast.ClosedStep`);
- a rejected file seek moves the cursor (`AsyncFile.RejectedSeekSlips`,
  `AsyncFile.RejectedSeekSlipsInFlight`, `AsyncFile.RejectedSeekExact`);
- returning a semaphore permit panics (`Semaphore.ReturnCanPanic`,
  `Semaphore.ReturnsSucceedExactly`);
- a stale guard clears a newer event when the generation wraps
  (`Reactor.WrapClearsNewerEvent`, `Reactor.StaleGuardExact`);
- a broadcast misses a future when the generation wraps
  (`Notify.WrapMissesBroadcasts`, `Notify.BroadcastReaches`).

## Model

| member | source | states |
|---|---|---|
| AsyncFileCode.Drive | crates/ffrt/src/fs.rs:684-799 | Any script of read, write, flush, seek and completion polls and of time passing, each poll possibly abandoned while pending, with jobs running at any later moment: the replies form a run of a plain file with one cursor, whose every step is exact, rejected seeks included, and pending only while a job is at work; the file handed out at the end is that plain file. A script of reads returns its contents in order, one of writes lands back to back. |
| AsyncFileCode.File.PollRead | crates/ffrt/src/fs.rs:684-717 | Pending only with a job at work, never with bytes read ahead; a finished poll returns the bytes at the plain file's cursor, none only at the end, off the front of the read-ahead; an abandoned failure is reported once. |
| AsyncFileCode.File.PollWrite | crates/ffrt/src/fs.rs:721-749 | Accepts exactly the prefix that fits the buffer limit, and the plain file has it at its cursor, behind any read-ahead; a write past the largest offset stops there and is reported as failed later. |
| AsyncFileCode.File.PollFlush | crates/ffrt/src/fs.rs:751-757 | When it finishes, no job is in flight and the disk holds the plain file's contents. |
| AsyncFileCode.File.StartSeek | crates/ffrt/src/fs.rs:765-772 | Refused exactly while another seek is requested or in flight; otherwise only remembered. |
| AsyncFileCode.File.LaunchSeek | crates/ffrt/src/fs.rs:777-794 | The adjusted job goes where the plain seek goes; a rejected one leaves the cursor exactly the discarded read-ahead further; an offset that cannot be adjusted launches nothing and changes nothing. |
| AsyncFileCode.File.PollComplete | crates/ffrt/src/fs.rs:774-802 | Performs the requested seek once and reports the plain file's cursor; whatever is in flight, a seek launched and rejected keeps the cursor if and only if nothing is read ahead and no read in flight will find bytes, or the offset overflows. |
| AsyncFileCode.File.PollOperation | crates/ffrt/src/fs.rs:615-644 | Pending exactly while the job has not published its outcome; a published one is taken out once and accounts for the plain file. |
| AsyncFileCode.File.Pass | crates/ffrt/src/fs.rs:701-708 | Time passing runs or publishes the job and changes nothing else of the plain file. |
| AsyncFile.PendingMeansAtWork | crates/ffrt/src/fs.rs:684-802 | No call is left waiting for nothing: pending means a job is at work, and once it has finished writes, flushes, reports of seeks and reads of bytes that are there are answered. |
| AsyncFileCode.File.FinishOperation | crates/ffrt/src/fs.rs:654-663 | Read bytes join the read-ahead without moving the plain cursor; an error is reported exactly for a rejected seek or a write that stopped short. |
| AsyncFileCode.File.IntoStd | crates/ffrt/src/fs.rs:482-499 | Hands back the plain file, cursor included, whatever was in flight or buffered. |
| AsyncFileCode.File.TryIntoStd | crates/ffrt/src/fs.rs:502-520 | Succeeds exactly with no job, no read-ahead and no other reference to the inner file, and then hands back the plain file. |
| AsyncFileCode.File.SetMaxBufSize | crates/ffrt/src/fs.rs:523-525 | Never less than one byte; the plain file does not change. |
| AsyncFileCode.File.constructor | crates/ffrt/src/fs.rs:425-433 | Starts as the given plain file with a 2 MiB buffer limit. |
| AsyncFile.RunIsInvisible | crates/ffrt/src/fs.rs:701-708 | Running the queued job, whenever, changes neither the plain file it stands for, nor what is due to be reported, nor the read-ahead. |
| AsyncFile.ReadsAreContiguous | crates/ffrt/src/fs.rs:684-717 | Over any run of reads and flushes the bytes returned are the contents from the first cursor to the last, none lost or repeated. |
| AsyncFile.WritesAreContiguous | crates/ffrt/src/fs.rs:721-757 | Over any run of writes and flushes the accepted bytes land back to back at the first cursor, each once, up to the largest offset. |
| AsyncFile.ReadBack | crates/ffrt/src/fs.rs:876-899 | Write, seek back, read: the bytes are a non-empty prefix of those written. |
| AsyncFile.RejectedSeekSlips | crates/ffrt/src/fs.rs:779-794 | A rejected seek takes the cursor from 2 to 6 when four bytes were read ahead. |
| AsyncFile.RejectedSeekSlipsInFlight | crates/ffrt/src/fs.rs:774-802 | The same from 0 to 6 with the read still in flight when the seek is asked for. |
| AsyncFile.RejectedSeekExact | crates/ffrt/src/fs.rs:779-794 | In every state a rejected seek keeps the plain file if and only if nothing is read ahead or the adjusted offset overflows. |
| Reactor.EveryRun | crates/ffrt/src/reactor.rs:278-465 | On every interleaving: each lock is held by the thread in its section, what is armed is what is desired whenever the events lock is free, stamps bound generations, and every parked task whose flags are set has a wake coming. |
| Reactor.ParkedTaskWillBeWoken | crates/ffrt/src/reactor.rs:383-423 | A parked task one of whose flags is cached always has a thread that will drain its list, although readiness is loaded before the waiters lock is taken. |
| Reactor.WakerIsTaken | crates/ffrt/src/reactor.rs:383-402 | On every step a parked waker stays listed for all it waits for, or the thread that removed it is now about to call it. |
| Reactor.TakenIsCalled | crates/ffrt/src/reactor.rs:399-401 | A thread that took wakers keeps them until it calls every one of them. |
| Reactor.WakeArrives | crates/ffrt/src/reactor.rs:383-402 | From before the load, three statements of the waking thread call every task one of whose flags is cached. |
| Reactor.ParkAnswers | crates/ffrt/src/reactor.rs:404-423 | A task that parks is listed on each side its interest names, for all it waits for there. |
| Reactor.InterestIsCovered | crates/ffrt/src/reactor.rs:416-421 | Every direction asked for, and every error, is waited for on some side. |
| Reactor.PollAnswers | crates/ffrt/src/reactor.rs:404-415 | A poll observes exactly the cached flags of interest with the current generation, or goes on to park. |
| Reactor.StoreAnswers | crates/ffrt/src/reactor.rs:289-298 | An event on a registered descriptor is cached whole under a new generation; on a deregistered one nothing happens. |
| Reactor.ClearAnswers | crates/ffrt/src/reactor.rs:425-441 | A guard clears exactly what it observed, exactly if its generation is current. |
| Reactor.DeregisterAnswers | crates/ffrt/src/reactor.rs:451-465 | Deregistration takes effect at once, whatever the kernel answers. |
| Reactor.QuietMeansNothingMissed | crates/ffrt/src/reactor.rs:278-303 | When all threads are idle no parked task has any of its flags cached. |
| Reactor.ListMaskIsNotEnough | crates/ffrt/src/reactor.rs:404-423 | The flags must be the task's own: a run that leaves a priority waiter parked with readability cached and no wake coming. |
| Reactor.EveryDirectionCovered | crates/ffrt/src/reactor.rs:338-381 | With the events lock free on a live registration, each direction of interest is cached, watched by the kernel, or masked by a cached error, even after failed removals and additions. |
| Reactor.DeregisteredIsFinal | crates/ffrt/src/reactor.rs:451-465 | On no run after deregistration does readiness or its generation change, whatever was in flight. |
| Reactor.StaleGuardExact | crates/ffrt/src/reactor.rs:425-449 | A guard clears an event newer than its observation if and only if the generation steps since then are a multiple of 2^32. |
| Reactor.FreshEventSurvives | crates/ffrt/src/reactor.rs:425-449 | So within 2^32 generation steps a stale guard never clears a newer event. |
| Reactor.WrapClearsNewerEvent | crates/ffrt/src/reactor.rs:425-449 | A run on which 2^32 events follow an observation and its guard clears the newest. |
| Reactor.SectionAlone | crates/ffrt/src/reactor.rs:338-381 | Run without interruption, the re-arming statements end re-armed as desired, or with an error cached and a wake due, exactly according to which removal or addition failed. |
| Reactor.QuietMeans | crates/ffrt/src/reactor.rs:278-303 | Between uninterrupted operations no parked task has any of its flags cached, and a live registration watches what is desired. |
| Reactor.CallbackKeepsQuiet | crates/ffrt/src/reactor.rs:278-303 | A whole callback returns a descriptor at rest to rest, whichever removal or addition fails. |
| Reactor.ClearKeepsQuiet | crates/ffrt/src/reactor.rs:425-449 | So does a whole clearing, whether or not it still applies. |
| Reactor.EnlistRegisters | crates/ffrt/src/reactor.rs:185-193 | Merging a task's interest into the entries registers its waker once, at its old place or the end. |
| ReactorCode.PackRoundTrip | crates/ffrt/src/reactor.rs:27-33 | Packing and unpacking are inverse in both directions. |
| ReactorCode.MasksAreSets | crates/ffrt/src/reactor.rs:146-180 | On masks the operators are union, intersection and difference of flags, and the error mask is error and hangup. |
| ReactorCode.ScheduledIo.UpdateInterest | crates/ffrt/src/reactor.rs:338-373 | Is the re-arming of the machine: fails exactly in the cases named there, and leaves what is desired, or nothing, recorded and armed. |
| ReactorCode.ScheduledIo.RecordError | crates/ffrt/src/reactor.rs:375-381 | Is the machine's posting of the error flag: every flag keeps its stamp but the error, and the word still holds the wrapped count. |
| ReactorCode.ScheduledIo.Callback | crates/ffrt/src/reactor.rs:278-303 | Is the machine's callback from arrival to the wakers to call, run without interruption; a deregistered descriptor is untouched, and a descriptor at rest is at rest again. |
| ReactorCode.ScheduledIo.ClearReady | crates/ffrt/src/reactor.rs:425-449 | Is the machine's clearing with the wake a failed re-arming owes; a stale generation changes nothing, and the descriptor ends at rest. |
| ReactorCode.ScheduledIo.WakeReady | crates/ffrt/src/reactor.rs:383-402 | Is the machine's drain, whose every waker is taken and called: the lists of entries and of wakers shrink together and the wakers returned are those the machine calls. |
| ReactorCode.ScheduledIo.PollReady | crates/ffrt/src/reactor.rs:404-423 | Is the machine's poll: the observation it records, with its generation, or the lists it leaves; a descriptor at rest stays at rest. |
| ReactorCode.ScheduledIo.Register | crates/ffrt/src/reactor.rs:185-193 | The linear search gives one entry per waker, as the machine's merge of entries does. |
| ReactorCode.ScheduledIo.Deregister | crates/ffrt/src/reactor.rs:451-465 | Is the machine's deregistration, from wherever it is called; a descriptor at rest stays at rest, and a second call changes nothing. |
| ReactorCode.ScheduledIo.Arm | crates/ffrt/src/reactor.rs:306-333 | Is the machine's first registration: armed and at rest, or condemned and deregistered again. |
| Semaphore.EveryRun | crates/ffrt/src/sync/semaphore.rs:58-253 | On every run permits are conserved, a front request that fits has been signalled, a close wakes everyone, and tickets are granted in order of issue minus those given up. |
| Semaphore.PermitsConserved | crates/ffrt/src/sync/semaphore.rs:276-371 | Available + held + forgotten + lost equals initial + added through acquire, cancel, merge, split, forget, drop and close; with the total within the limit nothing is lost and no return panics. |
| Semaphore.ReturnCanPanic | crates/ffrt/src/sync/semaphore.rs:58-71 | A run whose permit return panics, because adding checks only what is available. |
| Semaphore.ReturnsSucceedExactly | crates/ffrt/src/sync/semaphore.rs:307-313 | Returning every live permit panics nowhere if and only if the permits in circulation are within the limit. |
| Semaphore.FrontNeverStranded | crates/ffrt/src/sync/semaphore.rs:177-253 | On every run the front ticket belongs to a live future, which has been woken if its request fits. |
| Semaphore.TicketIsFound | crates/ffrt/src/sync/semaphore.rs:196-222 | The branch for a ticket missing from the queue of an open semaphore is never taken. |
| Semaphore.NoBarging | crates/ffrt/src/sync/semaphore.rs:165-237 | While anyone waits, only the front ticket is granted anything, and its whole request. |
| Semaphore.PollAnswers | crates/ffrt/src/sync/semaphore.rs:185-237 | A poll reports a close exactly on a closed semaphore, grants exactly when the request fits and nobody is ahead, and otherwise leaves the future in line with the waker it was polled with. |
| Semaphore.TryAnswers | crates/ffrt/src/sync/semaphore.rs:165-175 | A try reports a close exactly on a closed semaphore and succeeds exactly when nobody waits and enough is there. |
| Semaphore.CloseIsFinal | crates/ffrt/src/sync/semaphore.rs:82-95 | After a close, on every later run, every poll reports it. |
| SemaphoreCode.Semaphore.PollAcquire | crates/ffrt/src/sync/semaphore.rs:185-237 | The locked section moves the state, the ticket and the wake as the specification step does. |
| SemaphoreCode.Semaphore.CancelWaiter | crates/ffrt/src/sync/semaphore.rs:239-253 | Removing a ticket, and waking the new front if its request fits, as specified. |
| SemaphoreCode.Semaphore.TryTake | crates/ffrt/src/sync/semaphore.rs:165-175 | Takes only if open, nobody waits and enough is there. |
| SemaphoreCode.Semaphore.AddPermits | crates/ffrt/src/sync/semaphore.rs:58-71 | Panics exactly over the limit, else adds and wakes a front that now fits. |
| SemaphoreCode.Semaphore.ForgetPermits | crates/ffrt/src/sync/semaphore.rs:74-79 | Removes the smaller of what is asked and what is available. |
| SemaphoreCode.Semaphore.Close | crates/ffrt/src/sync/semaphore.rs:82-95 | Closes, empties the queue and returns every waker in it. |
| AsyncMutex.MutexIsOnePermitSemaphore | crates/ffrt/src/sync/mutex.rs:119-182 | On every run the mutex and a one-permit semaphore driven by the same steps have the same queue, grants, poll results and try results; locked is zero permits. |
| AsyncMutex.MutualExclusion | crates/ffrt/src/sync/mutex.rs:53-60 | Locked exactly while one guard lives, and never two. |
| AsyncMutex.UnlockedFrontIsAwake | crates/ffrt/src/sync/mutex.rs:154-182 | Although cancelling wakes in fewer cases than the semaphore, an unlocked mutex with waiters has always signalled its front. |
| AsyncMutexCode.Mutex.PollLock | crates/ffrt/src/sync/mutex.rs:119-152 | The locked section is the specification step. |
| AsyncMutexCode.Mutex.CancelWaiter | crates/ffrt/src/sync/mutex.rs:154-171 | Removing a ticket and waking the right front is the specification step. |
| AsyncMutexCode.Mutex.TryLock | crates/ffrt/src/sync/mutex.rs:53-60 | Locks only if unlocked with nobody waiting. |
| AsyncMutexCode.Mutex.Unlock | crates/ffrt/src/sync/mutex.rs:173-182 | Unlocks and wakes the front. |
| RwLock.EveryRun | crates/ffrt/src/sync/rwlock.rs:186-309 | On every run the counters are the live guards (mapped, owned and downgraded ones included), a writer excludes readers, an idle lock has woken its front, only a front that can go ahead is ever woken, and tickets are granted in order. |
| RwLock.NoOvertaking | crates/ffrt/src/sync/rwlock.rs:83-100 | While anyone is queued, only the front ticket is granted anything. |
| RwLock.PollAnswers | crates/ffrt/src/sync/rwlock.rs:201-253 | A poll is granted exactly when the live guards admit it below the limit and nobody is ahead; otherwise the future is in line with the waker it was polled with. |
| RwLock.TryAnswers | crates/ffrt/src/sync/rwlock.rs:83-100 | A try succeeds exactly when nobody waits and the live guards admit it, the limit aside. |
| RwLock.FrontStep | crates/ffrt/src/sync/rwlock.rs:271-284 | A step leaves a runnable front asleep if and only if it drops a read guard of a full lock of more than one reader with a reader in front. |
| RwLock.WakeChain | crates/ffrt/src/sync/rwlock.rs:193-309 | On every run without such a step, at the reader limit too, the front has been woken exactly when it can go ahead, through grant, cancel, release and downgrade. |
| RwLock.BelowTheLimit | crates/ffrt/src/sync/rwlock.rs:271-284 | A run that never fills the lock has no such step. |
| RwLock.StrandedStep | crates/ffrt/src/sync/rwlock.rs:255-284 | A stranded front is helped by a step if and only if the front itself polls, a queued waiter gives up, or the last reader leaves. |
| RwLock.FullLockStrandsReader | crates/ffrt/src/sync/rwlock.rs:271-284 | A run that leaves a runnable reader asleep at the front. |
| RwLockCode.RwLock.PollLock | crates/ffrt/src/sync/rwlock.rs:201-253 | The locked section is the specification step. |
| RwLockCode.RwLock.CancelWaiter | crates/ffrt/src/sync/rwlock.rs:255-269 | Removing a ticket and waking a front that can go ahead is the specification step. |
| RwLockCode.RwLock.TryRead | crates/ffrt/src/sync/rwlock.rs:83-91 | Reads unless a writer holds or anyone waits; the reader limit is not consulted. |
| RwLockCode.RwLock.TryWrite | crates/ffrt/src/sync/rwlock.rs:93-100 | Writes only if idle with nobody waiting. |
| RwLockCode.RwLock.ReleaseRead | crates/ffrt/src/sync/rwlock.rs:271-284 | Wakes a front only when the last reader leaves. |
| RwLockCode.RwLock.ReleaseWrite | crates/ffrt/src/sync/rwlock.rs:286-295 | Releases and wakes the front. |
| RwLockCode.RwLock.DowngradeWrite | crates/ffrt/src/sync/rwlock.rs:297-309 | One reader in place of the writer, and a front that can join is woken. |
| Notify.NotificationsConserved | crates/ffrt/src/sync/notify.rs:52-163 | On every run notify calls = completions by selection + completions by permit + futures now selected + the stored permit + calls merged into one; queued futures wait in the current generation, and a stored permit means an empty queue. |
| Notify.BroadcastReaches | crates/ffrt/src/sync/notify.rs:60-124 | On every run a waiting future polls ready if and only if a permit is stored or the broadcasts since its creation are not a multiple of 2^64. |
| Notify.PollAnswers | crates/ffrt/src/sync/notify.rs:94-124 | On every run a poll is ready if and only if the future was selected, reached or completed, or a permit is stored, and it uses up a selection or permit exactly then; otherwise the future is queued with its waker. |
| Notify.NotifyAnswers | crates/ffrt/src/sync/notify.rs:150-163 | A notification selects and wakes exactly the oldest queued future, or the newest; with none queued it is stored. |
| Notify.QueuedStays | crates/ffrt/src/sync/notify.rs:60-163 | A queued future stays queued until it is selected, reached by a broadcast, polled to completion or dropped. |
| Notify.WrapMissesBroadcasts | crates/ffrt/src/sync/notify.rs:60-124 | A run of 2^64 broadcasts after which a future created before them all is still pending. |
| NotifyCode.Notify.NotifyLocked | crates/ffrt/src/sync/notify.rs:150-163 | The loop over waiters selects the live one the specification selects, or stores the permit. |
| NotifyCode.Notify.NotifyWaiters | crates/ffrt/src/sync/notify.rs:60-77 | Draining the queue one by one marks exactly the living queued futures and returns exactly their wakers, in order. |
| NotifyCode.Notify.PollNotified | crates/ffrt/src/sync/notify.rs:94-124 | The poll is the specification step. |
| NotifyCode.Notify.RemoveWaiter | crates/ffrt/src/sync/notify.rs:143-148 | The queue keeps its other entries in order. |
| NotifyCode.Notify.Cancel | crates/ffrt/src/sync/notify.rs:126-140 | A dropped future passes an unconsumed selection on to another waiter of the queue, or stores it. |
| Mpsc.EveryRun | crates/ffrt/src/signal/mpsc.rs:365-857 | On every run received values then queue equal the accepted values in order; queue + reserved is within capacity and reserved is what live permits hold; every parked sender needs more than is free on an open channel; a parked receiver has no value waiting and some sender is left. |
| Mpsc.SendAnswers | crates/ffrt/src/signal/mpsc.rs:365-386 | A send is refused exactly on a closed channel and accepted exactly when values accepted, received and promised leave room; else it is parked with its waker. |
| Mpsc.ReserveAnswers | crates/ffrt/src/signal/mpsc.rs:540-569 | The same for a reservation, all or nothing. |
| Mpsc.PermitAnswers | crates/ffrt/src/signal/mpsc.rs:734-759 | A reserved slot is honoured always, on a closed channel too. |
| Mpsc.ReceiveAnswers | crates/ffrt/src/signal/mpsc.rs:770-817 | A receive gives the next accepted values up to the limit, the end exactly when no more can come, and else parks the receiver. |
| Mpsc.HandleAnswers | crates/ffrt/src/signal/mpsc.rs:584-617 | A weak sender comes back exactly while some sender is left; handles are counted one by one; a close closes and keeps the queue. |
| Mpsc.CloseIsFinal | crates/ffrt/src/signal/mpsc.rs:1039-1052 | After a close, on every later run, every send and reservation is refused. |
| Mpsc.SenderIsCalled | crates/ffrt/src/signal/mpsc.rs:744-768 | A parked sender leaves the list only in a step that calls its waker. |
| Mpsc.ReceiverIsCalled | crates/ffrt/src/signal/mpsc.rs:734-817 | A parked receiver's waker goes only by being called or by a later poll of its own. |
| Mpsc.TellsStep | crates/ffrt/src/signal/mpsc.rs:1039-1052 | From a state where a parked receiver has neither a value nor the end waiting, a step breaks that if and only if it closes the channel with a receiver parked and nothing reserved. |
| Mpsc.ParkedReceiverIsTold | crates/ffrt/src/signal/mpsc.rs:744-817 | On every run without such a close a parked receiver has neither a value nor the end waiting. |
| Mpsc.StalledStep | crates/ffrt/src/signal/mpsc.rs:584-600 | A receiver left untold is told by a step if and only if that step drops a sender. |
| Mpsc.CloseStallsReceiver | crates/ffrt/src/signal/mpsc.rs:1039-1052 | A run that leaves a receiver parked on a channel whose end it could be told. |
| Mpsc.OverStep | crates/ffrt/src/signal/mpsc.rs:861-888 | After the end, a step adds a value if and only if it is a detached timed send on a channel the receiver left open. |
| Mpsc.EndIsFinal | crates/ffrt/src/signal/mpsc.rs:963-1052 | Once the end is reported every accepted value was delivered, and on no later run without detached sends is a value added or anything but the end reported. |
| Mpsc.DetachedSendRevives | crates/ffrt/src/signal/mpsc.rs:352-363 | A run where a value arrives after the end. |
| MpscCode.Channel.TrySend | crates/ffrt/src/signal/mpsc.rs:365-386 | Accepts, or refuses as full or closed, as the specification step. |
| MpscCode.Channel.PollSend | crates/ffrt/src/signal/mpsc.rs:828-857 | As above, and parks the sender with its need when full; the waker returned is the one the step calls. |
| MpscCode.Channel.ReserveNow | crates/ffrt/src/signal/mpsc.rs:540-551 | Reserves all that is asked or nothing. |
| MpscCode.Channel.PollReserve | crates/ffrt/src/signal/mpsc.rs:553-569 | As above, and parks the sender with its need. |
| MpscCode.Channel.SendReserved | crates/ffrt/src/signal/mpsc.rs:734-742 | One reservation becomes one value. |
| MpscCode.Channel.ReleaseReserved | crates/ffrt/src/signal/mpsc.rs:744-759 | Reservations are returned, senders woken, and the receiver told if that ends the channel. |
| MpscCode.Channel.PollRecvMany | crates/ffrt/src/signal/mpsc.rs:786-817 | The draining loop returns the oldest values up to the limit, or the end, or parks. |
| MpscCode.Channel.TryRecv | crates/ffrt/src/signal/mpsc.rs:963-980 | The same without parking, for one value. |
| MpscCode.Channel.Close | crates/ffrt/src/signal/mpsc.rs:1039-1052 | Closes, keeps the queue, wakes every sender. |
| MpscCode.Channel.DropSender | crates/ffrt/src/signal/mpsc.rs:584-600 | The last sender tells the receiver. |
| MpscCode.Channel.Upgrade | crates/ffrt/src/signal/mpsc.rs:607-617 | No sender comes back after the last one. |
| Broadcast.EveryRun | crates/ffrt/src/sync/broadcast.rs:176-449 | On every run the queue is exactly the last min(sent, capacity) log entries with their positions; each receiver's values are log entries at increasing cursors with values + lagged = cursor advance; no parked receiver has unread entries. |
| Broadcast.RecvReadsLog | crates/ffrt/src/sync/broadcast.rs:345-370 | A receive attempt is a read of the append-only log at the cursor: the entry, or the exact number skipped, or empty or closed at its end. |
| Broadcast.SendAnswers | crates/ffrt/src/sync/broadcast.rs:176-184 | A send is accepted exactly while some receiver lives, and is then the next log entry. |
| Broadcast.SubscribeAnswers | crates/ffrt/src/sync/broadcast.rs:187-194 | A new receiver starts at the end of the log. |
| Broadcast.ReceiveAnswers | crates/ffrt/src/sync/broadcast.rs:419-449 | Both receive paths move the cursor as the log says, and an empty channel parks the receiver with its waker. |
| Broadcast.WaiterIsCalled | crates/ffrt/src/sync/broadcast.rs:223-256 | A parked receiver leaves the list only in a step that wakes it. |
| Broadcast.ClosedStep | crates/ffrt/src/sync/broadcast.rs:264-268 | With no sender left a step brings one back if and only if it upgrades a weak sender while a receiver lives. |
| Broadcast.ClosedStaysClosed | crates/ffrt/src/sync/broadcast.rs:345-370 | Without a weak upgrade a receiver told it is closed is told so on every later run. |
| Broadcast.UpgradeRevives | crates/ffrt/src/sync/broadcast.rs:264-268 | A run where a closed channel delivers a value. |
| BroadcastCode.Channel.PushLocked | crates/ffrt/src/sync/broadcast.rs:223-234 | The eviction and waking loops leave the specification state and wake every parked receiver, in order. |
| BroadcastCode.Channel.Send | crates/ffrt/src/sync/broadcast.rs:176-184 | Tells the number of receivers reached and wakes all that are parked, or refuses with none alive. |
| BroadcastCode.Channel.Subscribe | crates/ffrt/src/sync/broadcast.rs:187-194 | Counts one receiver more and starts it where the next value will be. |
| BroadcastCode.Channel.TryRecvLocked | crates/ffrt/src/sync/broadcast.rs:345-370 | The search loop gives the specification's answer. |
| BroadcastCode.Channel.PollRecv | crates/ffrt/src/sync/broadcast.rs:419-449 | The asynchronous path gives the same answer and cursor, and parks exactly when empty. |
| BroadcastCode.Channel.DropSender | crates/ffrt/src/sync/broadcast.rs:246-256 | The last sender wakes every parked receiver. |
| TaskDriver.EveryRun | crates/ffrt/src/runtime/inner_runtime.rs:36-86 | On every interleaving of all tasks: no lost wake, no lost abort, one result sent after the task is marked finished, the output exactly if the future returned it and a panic exactly if it panicked, and the active count equals the existing unfinished tasks. |
| TaskDriver.SleeperWillBeWoken | crates/ffrt/src/runtime/waker.rs:105-119 | A task found asleep has seen every wake, and if it was aborted that abort's own wake is still to come and rouses it. |
| TaskDriver.CheckAnswers | crates/ffrt/src/runtime/inner_runtime.rs:561-596 | Both cancellation tests stop the task exactly if it is cancelled. |
| TaskDriver.WaitAnswers | crates/ffrt/src/runtime/waker.rs:105-119 | A pending poll, a wake and a wait with a wake pending all lead back to the tests. |
| TaskDriver.StartAnswers | crates/ffrt/src/runtime/inner_runtime.rs:173-187 | A task starts by registering its waker; a blocking closure runs unless cancelled before. |
| TaskDriver.ResultIsSent | crates/ffrt/src/runtime/inner_runtime.rs:239-247 | A task that returned is marked finished, forgets its waker and sends that very result once. |
| TaskDriverCode.Driver.PollOnce | crates/ffrt/src/runtime/inner_runtime.rs:561-596 | The loop, with other threads acting before every statement and during the sleep, is a run of the machine and ends sound; its result is the future's own at the first poll that is not pending, or an abort's, and missing only if every poll was pending. |
| TaskDriverCode.Driver.Wait | crates/ffrt/src/runtime/waker.rs:105-119 | The wait consumes one wake or sleeps until one, or returns spuriously, as a run of the machine. |
| TaskDriverCode.Driver.Interfere | crates/ffrt/src/runtime/waker.rs:45-52 | A wake, or one statement of an abort, at any point is a step of the machine. |
| BufWriter.Drive | crates/ffrt/src/io.rs:1643-1742 | Any mix of plain and vectored writes and flushes: what reached the inner writer followed by what waits is exactly what was accepted, at most one capacity waits, a finished flush leaves nothing waiting and nothing the inner writer has not flushed, and calls are pending or refused exactly as often as the inner writer is. |
| BufWriter.Writer.PollFlushBuf | crates/ffrt/src/io.rs:1644-1661 | Terminates, never changes the stream through partial writes, pending, errors or a zero write, and success leaves nothing waiting. |
| BufWriter.Writer.PollFlush | crates/ffrt/src/io.rs:1732-1736 | The stream does not change; success means everything accepted went through the inner writer's flush, which may be pending or fail. |
| BufWriter.Writer.PollWrite | crates/ffrt/src/io.rs:1665-1680 | The stream grows by exactly the reported prefix; an input below the capacity is taken whole, at once if it fits; pending or refused only as the inner writer is. |
| BufWriter.Writer.PollWriteVectored | crates/ffrt/src/io.rs:1682-1726 | The stream grows by exactly the reported prefix of the slices laid end to end. |
| BufWriter.Writer.WriteAll | crates/ffrt/src/io.rs:1688-1702 | Over a vectored inner writer, slices below the capacity in total are taken whole. |
| BufWriter.Writer.Direct | crates/ffrt/src/io.rs:1674-1676 | A direct write needs an empty buffer, so nothing is overtaken. |
| BufWriter.SaturatingTotal | crates/ffrt/src/io.rs:1689-1691 | The saturating sum is the true size capped at the word limit. |
| BufReader.Reader.PollFillBuf | crates/ffrt/src/io.rs:1479-1488 | Shows a prefix of the stream without changing it, empty only at its end. |
| BufReader.Reader.Consume | crates/ffrt/src/io.rs:1490-1493 | Drops exactly what was shown, at most. |
| BufReader.Reader.PollRead | crates/ffrt/src/io.rs:1497-1521 | Bytes returned then the rest are the stream, through the buffer or past it; buffered bytes are handed over at once, and pending or failure is the inner reader's. |
| BufReader.Drive | crates/ffrt/src/io.rs:1478-1522 | Any script of reads, fills and consumptions, for every capacity of at least one, chunking, pending poll and error: the bytes handed over followed by those still to come are the source, an empty read or fill means all of it was delivered, and calls are pending or fail exactly as often as the inner reader does. |
| BufReader.DeliversSource | crates/ffrt/src/io.rs:1478-1522 | Over any run of honest answers the bytes handed over and those left make up the source. |
| BufReader.SplitAll | crates/ffrt/src/io.rs:1120-1131 | For every capacity of at least one, every chunking and every pattern of pending polls: the segments are a prefix of the specification's, and all of them at the end of the stream; it fails only if the inner reader does and is unfinished only if segments and waits used up the polls. |
| BufReader.Split.PollReadUntil | crates/ffrt/src/io.rs:1145-1166 | Bytes move from the stream to the segment until behind the first delimiter or the end, across any number of polls. |
| BufReader.Split.PollNextSegment | crates/ffrt/src/io.rs:1121-1130 | Yields exactly the first specification segment of what is left; an error loses at most a part of that segment. |
| Splitting.Rejoin | crates/ffrt/src/io.rs:1120-1131 | Rejoining the segments with the delimiter restores the stream, up to one final delimiter. |
| Splitting.SplitUndoesJoin | crates/ffrt/src/io.rs:1120-1131 | Splitting joined delimiter-free segments gives them back. |
| Splitting.SegmentsAreFree | crates/ffrt/src/io.rs:1126-1128 | No segment holds the delimiter. |
| IntervalCode.Drive | crates/ffrt/src/timer/interval.rs:64-78 | Any polling times and behaviour switches: ticks begin at the start and are at least a period apart; without Delay they stay on the grid; with Burst alone no grid instant is left out. |
| IntervalCode.Interval.PollTick | crates/ffrt/src/timer/interval.rs:64-78 | Pending before the deadline, then reports it and sets the next one. |
| Interval.SkipIsFirstAfter | crates/ffrt/src/timer/interval.rs:26-29 | A late Skip gives the first grid instant after now, at most one period away. |
| Interval.DelayAlignment | crates/ffrt/src/timer/interval.rs:25-25 | A late Delay keeps the grid if and only if it is late by whole periods. |
| Interval.NextIs | crates/ffrt/src/timer/interval.rs:64-78 | Within five milliseconds the next deadline is one period on whatever the behaviour; later it is one period on for Burst, one period from now for Delay, and the skip's otherwise. |
| Interval.SkipPanics | crates/ffrt/src/timer/interval.rs:27-28 | The remainder overflows only for periods beyond 64 bits, and does for each of those. |
| WaitQueue.LinkedLeave | crates/ffrt/src/sync/semaphore.rs:239-253 | A ticket that leaves from anywhere keeps entries and ticket-holding futures in one-to-one correspondence. |
| WaitQueue.FcfsCancel | crates/ffrt/src/sync/semaphore.rs:239-253 | A ticket given up keeps grants and queue in the order of issue, with every ticket accounted for. |
| WaitQueue.Find | crates/ffrt/src/sync/semaphore.rs:196-200 | The linear search finds the first position of the ticket, or that there is none. |

## Left out

- AsyncFileCode.File.PollWrite: the one failure of a blocking write is the largest offset; a full disk or a device error, after which the position is lost, is not modelled.
- AsyncFileCode.File.IntoStd: the wait is one step, since an unfinished job is only ever waited for.
- ReactorCode.ScheduledIo.PollReady: like every method of the class it runs without interruption; the races are in `Reactor`.
- A poll that would issue a waiter identifier past the 64-bit limit, and a send past the last broadcast sequence number; reactor and notify generations do wrap.
- Instants are unbounded nanoseconds, so deadline overflow is not modelled.
- `File` owned helpers, `try_clone`, metadata calls and append mode.
- Permits and guards that are leaked, and blocking variants, which repeat the same locked sections.
- `BufReader` and `BufWriter` seeking, `BufReader` with capacity 0, and dropping a delimited read half way.
- mpsc `closed` futures, broadcast `closed` futures, timed receives.
- The unbounded mpsc handles other than as a channel without capacity.
- Reads of integers and UTF-8 in the I/O helpers.
- oneshot, watch, barrier, once cell, join set, local set, task locals and timeouts: smaller machines of the same kind.
- Networking, processes, signals and standard streams: system calls around the reactor.
- Pinning, raw wakers, memory orderings and the C runtime underneath.
