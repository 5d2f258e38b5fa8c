/**
  The task driver: the loop that polls a spawned future, races with wakes and
  aborts, marks the task finished and publishes its result. Every statement
  that touches shared state is a separate step, so all interleavings are runs.
 */
module TaskDriver {
  import opened Base

  datatype Outcome = Output | Cancelled | Panicked

  /** Where the runner is. `Asleep` is inside the condition wait, `Waking` has left it but not yet the lock. */
  datatype Pc =
    | Created | CheckFirst | Polling | CheckSecond | WaitEntry | Asleep | Waking
    | BlockingRun
    | Returned(out: Outcome) | Marked(out: Outcome) | Cleared(out: Outcome) | Sent(out: Outcome)
    | NoRunner

  /**
    One task. `slot` says whether the cancellation slot holds the task's waker.
    `storing` counts aborts that set the flag but have not yet looked at the
    slot, `calling` those that took the waker but have not yet called it.
    `unseen` records a wake that arrived since the last poll began, `last` what
    the future, or the blocking closure, last returned.
   */
  datatype Task = Task(
    pc: Pc, blocking: bool, cancelled: bool, finished: bool, slot: bool, woken: bool,
    storing: nat, calling: nat, handles: nat, runner: bool, sends: nat, unseen: bool,
    last: Option<PollResult>)

  datatype PollResult = ReadyNow | PanicsNow | PendingNow

  datatype Action =
    | Start | Check | PollEnds(result: PollResult) | EnterWait | Spurious | LeaveWait
    | Wake | AbortStore | AbortTake | AbortCall
    | FinishMark | FinishClear | SendResult
    | CloneHandle | DropHandle

  /** A wake sets the flag and signals the condition variable. */
  function Woken(t: Task): Task {
    t.(woken := true, unseen := true, pc := if t.pc == Asleep then Waking else t.pc)
  }

  /** The task after one action; an action that is not possible changes nothing. */
  function Act(t: Task, a: Action): Task {
    match a
    case Start =>
      if t.pc != Created then t
      else if t.blocking then t.(pc := if t.cancelled then Returned(Cancelled) else BlockingRun)
      else t.(slot := true, pc := CheckFirst)
    case Check =>
      if t.pc == CheckFirst then
        if t.cancelled then t.(pc := Returned(Cancelled)) else t.(pc := Polling, unseen := false)
      else if t.pc == CheckSecond then
        t.(pc := if t.cancelled then Returned(Cancelled) else WaitEntry)
      else t
    case PollEnds(result) =>
      if t.pc == Polling || t.pc == BlockingRun then
        match result
        case ReadyNow => t.(pc := Returned(Output), last := Some(result))
        case PanicsNow => t.(pc := Returned(Panicked), last := Some(result))
        case PendingNow => if t.pc == Polling then t.(pc := CheckSecond, last := Some(result)) else t
      else t
    case EnterWait =>
      if t.pc != WaitEntry then t
      else if t.woken then t.(woken := false, pc := CheckFirst)
      else t.(pc := Asleep)
    case Spurious => if t.pc == Asleep then t.(pc := Waking) else t
    case LeaveWait => if t.pc == Waking then t.(woken := false, pc := CheckFirst) else t
    case Wake => Woken(t)
    case AbortStore => if t.handles == 0 then t else t.(cancelled := true, storing := t.storing + 1)
    case AbortTake =>
      if t.storing == 0 then t
      else if t.slot then t.(storing := t.storing - 1, slot := false, calling := t.calling + 1)
      else t.(storing := t.storing - 1)
    case AbortCall => if t.calling == 0 then t else Woken(t.(calling := t.calling - 1))
    case FinishMark => if t.pc.Returned? then t.(finished := true, pc := Marked(t.pc.out)) else t
    case FinishClear => if t.pc.Marked? then t.(slot := false, pc := Cleared(t.pc.out)) else t
    case SendResult =>
      if t.pc.Cleared? then t.(sends := t.sends + 1, runner := false, pc := Sent(t.pc.out)) else t
    case CloneHandle => if t.handles == 0 then t else t.(handles := t.handles + 1)
    case DropHandle =>
      if t.handles > 1 || (t.handles == 1 && t.storing == 0 && t.calling == 0) then t.(handles := t.handles - 1) else t
  }

  /** The last reference to the shared cancellation state is gone. */
  predicate Released(t: Task) {
    t.handles == 0 && !t.runner
  }

  /** How the code moves the count of active tasks: first finish, or release of an unfinished state. */
  function CountAfter(active: int, t: Task, a: Action): int {
    if a == FinishMark && t.pc.Returned? && !t.finished then active - 1
    else if Released(Act(t, a)) && !Released(t) && !t.finished then active - 1
    else active
  }

  // ----- all tasks of the process -----

  datatype World = World(tasks: seq<Task>, active: int)

  /** Spawning an asynchronous task, a blocking one, or a handle that nothing drives. */
  datatype Step =
    | Spawn(blocking: bool)
    | LocalChannel
    | Do(i: nat, action: Action)

  const Init: World := World([], 0)

  function NewTask(pc: Pc, blocking: bool): Task {
    Task(pc, blocking, false, false, false, false, 0, 0, 1, pc == Created, 0, false, None)
  }

  function Next(w: World, step: Step): World {
    match step
    case Spawn(blocking) => World(w.tasks + [NewTask(Created, blocking)], w.active + 1)
    case LocalChannel => World(w.tasks + [NewTask(NoRunner, false)], w.active + 1)
    case Do(i, a) =>
      if i < |w.tasks| then World(w.tasks[i := Act(w.tasks[i], a)], CountAfter(w.active, w.tasks[i], a)) else w
  }

  function Exec(w: World, steps: seq<Step>): World
    decreases |steps|
  {
    if steps == [] then w else Exec(Next(w, steps[0]), steps[1..])
  }

  // ----- what every run keeps -----

  /** No lost wake: a task asleep has polled since its last wake. */
  ghost predicate NoLostWake(t: Task) {
    && (t.pc == Asleep ==> !t.woken && !t.unseen)
    && (t.pc == Polling || t.pc == CheckSecond || t.pc == WaitEntry ==> (t.unseen ==> t.woken))
  }

  /** An abort whose wake is still to come: the waker is there to be taken, or was taken. */
  ghost predicate AbortWakePending(t: Task) {
    (t.storing > 0 && t.slot) || t.calling > 0
  }

  /** No lost abort: a cancelled task that goes to sleep is about to be woken. */
  ghost predicate NoLostAbort(t: Task) {
    && (!t.cancelled ==> t.storing == 0 && t.calling == 0)
    && (!t.cancelled && Registered(t.pc) ==> t.slot)
    && (t.cancelled && t.pc == WaitEntry ==> AbortWakePending(t) || t.woken)
    && (t.cancelled && t.pc == Asleep ==> AbortWakePending(t))
  }

  predicate Registered(pc: Pc) {
    pc.CheckFirst? || pc.Polling? || pc.CheckSecond? || pc.WaitEntry? || pc.Asleep? || pc.Waking?
  }

  /**
    One result, published after the task is marked finished; the output exactly
    if the future returned it, a panic exactly if it panicked, and cancelled
    only if an abort was requested.
   */
  ghost predicate FinishedOnce(t: Task) {
    && (t.finished <==> t.pc.Marked? || t.pc.Cleared? || t.pc.Sent?)
    && t.sends == (if t.pc.Sent? then 1 else 0)
    && (t.runner <==> !t.pc.Sent? && t.pc != NoRunner)
    && (OutcomeAt(t.pc) == Some(Cancelled) ==> t.cancelled)
    && (OutcomeAt(t.pc) == Some(Output) <==> t.last == Some(ReadyNow))
    && (OutcomeAt(t.pc) == Some(Panicked) <==> t.last == Some(PanicsNow))
    && (t.blocking ==> !Registered(t.pc))
    && (t.handles == 0 ==> t.storing == 0 && t.calling == 0)
  }

  function OutcomeAt(pc: Pc): Option<Outcome> {
    match pc
    case Returned(o) => Some(o)
    case Marked(o) => Some(o)
    case Cleared(o) => Some(o)
    case Sent(o) => Some(o)
    case _ => None
  }

  ghost predicate Sound(t: Task) {
    NoLostWake(t) && NoLostAbort(t) && FinishedOnce(t)
  }

  lemma RunnerKeeps(t: Task, a: Action)
    requires Sound(t) && (a.Start? || a.Check?)
    ensures Sound(Act(t, a))
  {
  }

  lemma PollKeeps(t: Task, a: Action)
    requires Sound(t) && a.PollEnds?
    ensures Sound(Act(t, a))
  {
  }

  lemma WaitKeeps(t: Task, a: Action)
    requires Sound(t) && (a.EnterWait? || a.Spurious? || a.LeaveWait?)
    ensures Sound(Act(t, a))
  {
  }

  lemma WakeKeeps(t: Task, a: Action)
    requires Sound(t) && (a.Wake? || a.AbortCall?)
    ensures Sound(Act(t, a))
  {
  }

  lemma AbortKeeps(t: Task, a: Action)
    requires Sound(t) && (a.AbortStore? || a.AbortTake?)
    ensures Sound(Act(t, a))
  {
  }

  lemma FinishKeeps(t: Task, a: Action)
    requires Sound(t) && (a.FinishMark? || a.FinishClear? || a.SendResult?)
    ensures Sound(Act(t, a))
  {
  }

  lemma HandleKeeps(t: Task, a: Action)
    requires Sound(t) && (a.CloneHandle? || a.DropHandle?)
    ensures Sound(Act(t, a))
  {
  }

  lemma ActKeeps(t: Task, a: Action)
    requires Sound(t)
    ensures Sound(Act(t, a))
  {
    match a
    case Start => RunnerKeeps(t, a);
    case Check => RunnerKeeps(t, a);
    case PollEnds(_) => PollKeeps(t, a);
    case EnterWait => WaitKeeps(t, a);
    case Spurious => WaitKeeps(t, a);
    case LeaveWait => WaitKeeps(t, a);
    case Wake => WakeKeeps(t, a);
    case AbortCall => WakeKeeps(t, a);
    case AbortStore => AbortKeeps(t, a);
    case AbortTake => AbortKeeps(t, a);
    case FinishMark => FinishKeeps(t, a);
    case FinishClear => FinishKeeps(t, a);
    case SendResult => FinishKeeps(t, a);
    case CloneHandle => HandleKeeps(t, a);
    case DropHandle => HandleKeeps(t, a);
  }

  /** 1 for a state that exists and is not finished. */
  function Weight(t: Task): nat {
    if t.finished || Released(t) then 0 else 1
  }

  function Weights(tasks: seq<Task>): (r: seq<nat>)
    ensures |r| == |tasks|
    ensures forall i :: 0 <= i < |tasks| ==> r[i] == Weight(tasks[i])
  {
    seq(|tasks|, i requires 0 <= i < |tasks| => Weight(tasks[i]))
  }

  ghost predicate Inv(w: World) {
    && w.active == Sum(Weights(w.tasks))
    && forall i :: 0 <= i < |w.tasks| ==> Sound(w.tasks[i])
  }

  lemma CountKeeps(active: int, t: Task, a: Action)
    requires FinishedOnce(t)
    ensures CountAfter(active, t, a) == active - Weight(t) + Weight(Act(t, a))
  {
  }

  lemma DoKeeps(w: World, i: nat, a: Action)
    requires Inv(w) && i < |w.tasks|
    ensures Inv(Next(w, Do(i, a)))
  {
    var t := w.tasks[i];
    var t' := Act(t, a);
    ActKeeps(t, a);
    CountKeeps(w.active, t, a);
    assert Weights(w.tasks[i := t']) == Weights(w.tasks)[i := Weight(t')];
    SumUpdate(Weights(w.tasks), i, Weight(t'));
  }

  lemma NewKeeps(w: World, t: Task)
    requires Inv(w) && Sound(t) && Weight(t) == 1
    ensures Inv(World(w.tasks + [t], w.active + 1))
  {
    assert Weights(w.tasks + [t]) == Weights(w.tasks) + [1];
    SumSnoc(Weights(w.tasks), 1);
  }

  lemma StepKeeps(w: World, step: Step)
    requires Inv(w)
    ensures Inv(Next(w, step))
  {
    match step
    case Do(i, a) => if i < |w.tasks| { DoKeeps(w, i, a); }
    case Spawn(blocking) => NewKeeps(w, NewTask(Created, blocking));
    case LocalChannel => NewKeeps(w, NewTask(NoRunner, false));
  }

  lemma {:induction false} RunKeeps(w: World, steps: seq<Step>)
    requires Inv(w)
    ensures Inv(Exec(w, steps))
    decreases |steps|
  {
    if steps != [] {
      StepKeeps(w, steps[0]);
      RunKeeps(Next(w, steps[0]), steps[1..]);
    }
  }

  /** Every interleaving: sound tasks, and an exact count of active ones. */
  lemma EveryRun(steps: seq<Step>)
    ensures Inv(Exec(Init, steps))
  {
    assert Weights([]) == [];
    RunKeeps(Init, steps);
  }

  lemma SleeperIsServed(t: Task)
    requires Sound(t) && t.pc == Asleep
    ensures !t.woken && !t.unseen
    ensures t.cancelled ==> t.calling > 0 || (t.storing > 0 && Act(t, AbortTake).calling > 0)
    ensures t.calling > 0 ==> Act(t, AbortCall).pc == Waking
  {
  }

  /**
    A task found asleep has seen every wake, and if an abort was requested
    then that abort's own wake is still to come and will rouse it.
   */
  lemma SleeperWillBeWoken(steps: seq<Step>, i: nat)
    requires i < |Exec(Init, steps).tasks| && Exec(Init, steps).tasks[i].pc == Asleep
    ensures var t := Exec(Init, steps).tasks[i];
            && !t.woken && !t.unseen
            && (t.cancelled ==>
                  t.calling > 0 || (t.storing > 0 && Act(t, AbortTake).calling > 0))
            && (t.calling > 0 ==> Act(t, AbortCall).pc == Waking)
  {
    EveryRun(steps);
    var w := Exec(Init, steps);
    assert Sound(w.tasks[i]);
    SleeperIsServed(w.tasks[i]);
  }

  // ----- what each statement answers -----

  /** Both tests stop the task exactly if it is cancelled, and else go on to the poll and to the wait. */
  lemma CheckAnswers(t: Task)
    requires t.pc == CheckFirst || t.pc == CheckSecond
    ensures Act(t, Check).pc ==
            if t.cancelled then Returned(Cancelled) else if t.pc == CheckFirst then Polling else WaitEntry
  {
  }

  /** A poll that is not over, a task that is woken and a wait with a wake pending all lead back to the tests. */
  lemma WaitAnswers(t: Task)
    ensures t.pc == Polling ==> Act(t, PollEnds(PendingNow)).pc == CheckSecond
    ensures t.pc == WaitEntry ==> Act(t, EnterWait).pc == if t.woken then CheckFirst else Asleep
    ensures t.pc == Asleep ==> Act(t, Wake).pc == Waking && Act(t, Spurious).pc == Waking
    ensures t.pc == Waking ==> Act(t, LeaveWait).pc == CheckFirst
  {
  }

  /** A task starts by being polled; a blocking closure runs unless it was cancelled before. */
  lemma StartAnswers(t: Task)
    requires t.pc == Created
    ensures Act(t, Start).pc == if !t.blocking then CheckFirst else if t.cancelled then Returned(Cancelled) else BlockingRun
    ensures !t.blocking ==> Act(t, Start).slot
  {
  }

  /** A task that returned is marked, forgets its waker, and sends that very result, once. */
  lemma ResultIsSent(t: Task)
    requires Sound(t) && t.pc.Returned?
    ensures var t' := Act(Act(Act(t, FinishMark), FinishClear), SendResult);
            t'.pc == Sent(t.pc.out) && t'.finished && !t'.slot && t'.sends == 1
  {
  }

  /** What an abort finds in the slot it takes from. */
  lemma AbortTakes(t: Task)
    ensures t.storing > 0 ==>
              Act(t, AbortTake) == t.(storing := t.storing - 1, slot := false, calling := t.calling + if t.slot then 1 else 0)
    ensures t.storing == 0 ==> Act(t, AbortTake) == t
  {
  }

  // ----- one task in isolation -----

  function Perform(t: Task, actions: seq<Action>): Task
    decreases |actions|
  {
    if actions == [] then t else Perform(Act(t, actions[0]), actions[1..])
  }

  lemma {:induction false} PerformKeeps(t: Task, actions: seq<Action>)
    requires Sound(t)
    ensures Sound(Perform(t, actions))
    decreases |actions|
  {
    if actions != [] {
      ActKeeps(t, actions[0]);
      PerformKeeps(Act(t, actions[0]), actions[1..]);
    }
  }

  lemma {:induction false} PerformSnoc(t: Task, actions: seq<Action>, a: Action)
    ensures Perform(t, actions + [a]) == Act(Perform(t, actions), a)
    decreases |actions|
  {
    if actions == [] {
      assert [] + [a] == [a] && [a][1..] == [];
    } else {
      assert (actions + [a])[1..] == actions[1..] + [a];
      PerformSnoc(Act(t, actions[0]), actions[1..], a);
    }
  }
}

/** The driver loop as the code runs it, with the other threads' actions interleaved at every statement. */
module TaskDriverCode {
  import opened Base
  import T = TaskDriver

  /** What other threads do between two statements of the loop. */
  datatype Outside = Wake | AbortStore | AbortTake | AbortCall

  /** One turn of the loop: the poll's result, what happens before each of its four statements, and during the sleep. */
  datatype Turn = Turn(
    result: T.PollResult,
    beforeCheck: seq<Outside>, duringPoll: seq<Outside>, beforeRecheck: seq<Outside>, beforeWait: seq<Outside>,
    asleep: seq<Outside>)

  function AsAction(o: Outside): T.Action {
    match o
    case Wake => T.Wake
    case AbortStore => T.AbortStore
    case AbortTake => T.AbortTake
    case AbortCall => T.AbortCall
  }

  /** The first `n` polls of the script leave the future pending. */
  predicate AllPending(turns: seq<Turn>, n: nat) {
    n <= |turns| && forall k :: 0 <= k < n ==> turns[k].result.PendingNow?
  }

  class Driver {
    var cancelled: bool
    var slot: bool
    var woken: bool
    var storing: nat
    var calling: nat
    ghost var unseen: bool
    ghost var last: Option<T.PollResult>
    ghost var trace: seq<T.Action>
    const handles: nat

    constructor (n: nat)
      ensures At(T.Created) == T.NewTask(T.Created, false).(handles := n)
      ensures trace == []
    {
      cancelled, slot, woken, storing, calling, handles := false, false, false, 0, 0, n;
      unseen, last, trace := false, None, [];
    }

    /** The task this object is, when its runner stands at `pc`. */
    ghost function At(pc: T.Pc): T.Task
      reads this
    {
      T.Task(pc, false, cancelled, false, slot, woken, storing, calling, handles, true, 0, unseen, last)
    }

    /** The actions so far lead from `t0` to the present state. */
    ghost predicate Follows(t0: T.Task, pc: T.Pc)
      reads this
    {
      T.Perform(t0, trace) == At(pc)
    }

    /** `WakerState::wake`. */
    method Wake(ghost t0: T.Task, ghost pc: T.Pc)
      requires Follows(t0, pc)
      modifies this
      ensures Follows(t0, if pc == T.Asleep then T.Waking else pc)
      ensures trace == old(trace) + [T.Wake]
    {
      T.PerformSnoc(t0, trace, T.Wake);
      trace := trace + [T.Wake];
      woken, unseen := true, true;
    }

    /** The three statements of an abort. */
    method AbortStore(ghost t0: T.Task, ghost pc: T.Pc)
      requires Follows(t0, pc)
      modifies this
      ensures Follows(t0, pc)
      ensures trace == old(trace) + [T.AbortStore]
    {
      T.PerformSnoc(t0, trace, T.AbortStore);
      trace := trace + [T.AbortStore];
      if handles > 0 {
        cancelled, storing := true, storing + 1;
      }
    }

    method AbortTake(ghost t0: T.Task, ghost pc: T.Pc)
      requires Follows(t0, pc)
      modifies this
      ensures Follows(t0, pc)
      ensures trace == old(trace) + [T.AbortTake]
    {
      T.PerformSnoc(t0, trace, T.AbortTake);
      T.AbortTakes(At(pc));
      trace := trace + [T.AbortTake];
      if storing == 0 {
        return;
      }
      storing := storing - 1;
      if slot {
        slot, calling := false, calling + 1;
      }
    }

    method AbortCall(ghost t0: T.Task, ghost pc: T.Pc) returns (signalled: bool)
      requires Follows(t0, pc)
      modifies this
      ensures Follows(t0, if signalled && pc == T.Asleep then T.Waking else pc)
      ensures trace == old(trace) + [T.AbortCall]
    {
      T.PerformSnoc(t0, trace, T.AbortCall);
      trace := trace + [T.AbortCall];
      signalled := calling > 0;
      if signalled {
        calling, woken, unseen := calling - 1, true, true;
      }
    }

    /** One action of another thread; the result says whether it roused a sleeping runner. */
    method Interfere(o: Outside, ghost t0: T.Task, ghost pc: T.Pc) returns (signalled: bool)
      requires Follows(t0, pc)
      modifies this
      ensures Follows(t0, if signalled && pc == T.Asleep then T.Waking else pc)
      ensures trace == old(trace) + [AsAction(o)]
    {
      signalled := false;
      match o
      case Wake =>
        Wake(t0, pc);
        signalled := true;
      case AbortStore =>
        AbortStore(t0, pc);
      case AbortTake =>
        AbortTake(t0, pc);
      case AbortCall =>
        signalled := AbortCall(t0, pc);
    }

    method InterfereAll(os: seq<Outside>, ghost t0: T.Task, ghost pc: T.Pc)
      requires Follows(t0, pc) && pc != T.Asleep
      modifies this
      ensures Follows(t0, pc)
      ensures |trace| == |old(trace)| + |os| && old(trace) <= trace
      ensures forall k :: 0 <= k < |os| ==> trace[|old(trace)| + k] == AsAction(os[k])
    {
      for k := 0 to |os|
        invariant Follows(t0, pc) && |trace| == |old(trace)| + k && old(trace) <= trace
        invariant forall j :: 0 <= j < k ==> trace[|old(trace)| + j] == AsAction(os[j])
      {
        var _ := Interfere(os[k], t0, pc);
      }
    }

    /** The condition wait: until a signal, or a spurious return when the script has none. */
    method Sleep(os: seq<Outside>, ghost t0: T.Task)
      requires Follows(t0, T.Asleep)
      modifies this
      ensures Follows(t0, T.Waking)
      ensures old(trace) < trace
    {
      var k, signalled := 0, false;
      while k < |os| && !signalled
        invariant Follows(t0, if signalled then T.Waking else T.Asleep)
        invariant old(trace) <= trace && |trace| == |old(trace)| + k && (signalled ==> k > 0)
      {
        signalled := Interfere(os[k], t0, T.Asleep);
        k := k + 1;
      }
      if !signalled {
        T.PerformSnoc(t0, trace, T.Spurious);
        trace := trace + [T.Spurious];
      }
    }

    /** `WakerState::wait`. */
    method Wait(os: seq<Outside>, ghost t0: T.Task)
      requires Follows(t0, T.WaitEntry)
      modifies this
      ensures Follows(t0, T.CheckFirst)
      ensures old(trace) + [T.EnterWait] <= trace
    {
      T.PerformSnoc(t0, trace, T.EnterWait);
      trace := trace + [T.EnterWait];
      if woken {
        woken := false;
        return;
      }
      Sleep(os, t0);
      T.PerformSnoc(t0, trace, T.LeaveWait);
      trace := trace + [T.LeaveWait];
      woken := false;
    }

    /** The cancellation test made before and after each poll. */
    method IsCancelled(ghost t0: T.Task, ghost first: bool) returns (stop: bool)
      requires Follows(t0, if first then T.CheckFirst else T.CheckSecond)
      modifies this
      ensures Follows(t0, if stop then T.Returned(T.Cancelled) else if first then T.Polling else T.WaitEntry)
      ensures trace == old(trace) + [T.Check] && stop == old(cancelled)
    {
      T.PerformSnoc(t0, trace, T.Check);
      trace := trace + [T.Check];
      if !cancelled && first {
        unseen := false;
      }
      stop := cancelled;
    }

    /** The poll of the future itself, with its result supplied by the script. */
    method PollFuture(result: T.PollResult, ghost t0: T.Task) returns (out: Option<T.Outcome>)
      requires Follows(t0, T.Polling)
      modifies this
      ensures Follows(t0, if out.Some? then T.Returned(out.value) else T.CheckSecond)
      ensures out == match result case ReadyNow => Some(T.Output) case PanicsNow => Some(T.Panicked) case PendingNow => None
      ensures trace == old(trace) + [T.PollEnds(result)]
    {
      T.PerformSnoc(t0, trace, T.PollEnds(result));
      trace, last := trace + [T.PollEnds(result)], Some(result);
      match result {
        case ReadyNow => out := Some(T.Output);
        case PanicsNow => out := Some(T.Panicked);
        case PendingNow => out := None;
      }
    }

    /**
      `poll_once` under any interference: whatever it does is a run of the
      machine, so the guarantees about runs are guarantees about the loop.
      The result is empty only if the script ends before the loop does, and
      else the future's own or that of an abort.
     */
    method PollOnce(turns: seq<Turn>) returns (out: Option<T.Outcome>)
      requires trace == [] && T.Sound(At(T.Created))
      modifies this
      ensures var pc := if out.Some? then T.Returned(out.value) else T.CheckFirst;
              Follows(old(At(T.Created)), pc) && T.Sound(At(pc))
      ensures out.None? ==> AllPending(turns, |turns|)
      ensures out == Some(T.Output) ==> exists k :: 0 <= k < |turns| && turns[k].result.ReadyNow? && AllPending(turns, k)
      ensures out == Some(T.Panicked) ==> exists k :: 0 <= k < |turns| && turns[k].result.PanicsNow? && AllPending(turns, k)
    {
      ghost var t0 := At(T.Created);
      T.PerformSnoc(t0, trace, T.Start);
      trace, slot := trace + [T.Start], true;
      for k := 0 to |turns|
        invariant Follows(t0, T.CheckFirst) && AllPending(turns, k)
      {
        out := TakeTurn(turns[k], t0);
        if out.Some? {
          T.PerformKeeps(t0, trace);
          return;
        }
      }
      T.PerformKeeps(t0, trace);
      out := None;
    }

    /** One turn of the loop: the two tests, the poll between them, and the wait. */
    method TakeTurn(turn: Turn, ghost t0: T.Task) returns (out: Option<T.Outcome>)
      requires Follows(t0, T.CheckFirst)
      modifies this
      ensures Follows(t0, if out.Some? then T.Returned(out.value) else T.CheckFirst)
      ensures out.None? ==> turn.result.PendingNow?
      ensures out == Some(T.Output) ==> turn.result.ReadyNow?
      ensures out == Some(T.Panicked) ==> turn.result.PanicsNow?
    {
      InterfereAll(turn.beforeCheck, t0, T.CheckFirst);
      var stop := IsCancelled(t0, true);
      if stop {
        return Some(T.Cancelled);
      }
      InterfereAll(turn.duringPoll, t0, T.Polling);
      out := PollFuture(turn.result, t0);
      if out.Some? {
        return;
      }
      InterfereAll(turn.beforeRecheck, t0, T.CheckSecond);
      stop := IsCancelled(t0, false);
      if stop {
        return Some(T.Cancelled);
      }
      InterfereAll(turn.beforeWait, t0, T.WaitEntry);
      Wait(turn.asleep, t0);
    }
  }
}
