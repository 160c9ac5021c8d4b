/**
 * The scheduler thread and the worker threads of src/task.c and src/scheduler.c as a transition
 * system. A step is one thread's move between two places where another thread can interleave:
 * taking the mutex, one access under it, one unlocked access, sleeping, waking. What a thread does
 * next is a function of the state; which thread moves, and which sleeper wakes for no reason, is not.
 */
module Protocol {
  import opened Numbers
  import opened TaskModel
  import opened Lottery
  import opened Sequential

  datatype Owner = Free | ByScheduler | ByWorker(i: nat)

  /** Where the scheduler thread is. A thread woken from the condition variable competes for the mutex
      again and then re-runs the code that follows its first locking, so both share one place. */
  datatype SchedulerPc =
    | SLock                                    // task_wait_until_no_running: about to lock
    | SScan(k: nat)                            //   locked, about to look at task k
    | SAsleep                                  //   in pthread_cond_wait
    | SUnlock                                  //   found no RUNNING task
    | SCompensate                              // no lock held: compensation of the last winner
    | SReport                                  // no lock held: "after" line of the last winner
    | SCap                                     // max-dispatches check
    | SStopLock | SStopScan(k: nat) | SStopBroadcast | SStopUnlock      // task_shutdown_all
    | SFinishedScan(k: nat)                    // scheduler_all_tasks_finished: about to lock for task k
    | SSum(k: nat, sum: nat)                   // cumulative sum: about to lock for task k
    | SDraw(sum: nat)
    | SWalk(k: nat, passed: nat, sum: nat, ticket: U32)                 // scheduler_winner_task
    | SAnnounce(sum: nat, ticket: U32)         // "before" line
    | SStartLock | SStart | SStartBroadcast | SStartUnlock              // task_transition_to_running
    | SCount                                   // advances the dispatch counter
    | SJoin(k: nat)                            // scheduler_deinit: about to join worker k
    | SDone

  /** Where a worker thread is in task_do_work_unit. */
  datatype WorkerPc =
    | WLock                // about to lock (first time, after a dispatch, or after waking)
    | WCheck               // locked, about to look at its own state
    | WAsleep              // in pthread_cond_wait
    | WCompute(run: nat)   // no lock held, `run` units into the dispatch
    | WLockResult          // units over, about to lock
    | WStore               // locked, about to store READY or FINISHED
    | WBroadcast | WUnlock
    | WExited

  datatype Sys = Sys(
    tasks: seq<Task>,
    workers: seq<WorkerPc>,
    owner: Owner,
    scheduler: SchedulerPc,
    seed: bv32,
    number: U32,             // global_dispatch
    log: seq<Event>,
    pending: bool,           // has_pending_after_log
    pendingNumber: U32,
    winner: nat,             // list position of winner_task
    before: U32)             // units_before

  function Init(tasks: seq<Task>, seed: bv32): Sys {
    Sys(tasks, seq(|tasks|, i => WLock), Free, SLock, seed, 1, [], false, 0, 0, 0)
  }

  function Wake(w: WorkerPc): WorkerPc {
    if w.WAsleep? then WLock else w
  }

  /** `pthread_cond_broadcast`: every sleeper competes for the mutex again. */
  function Broadcast(s: Sys): Sys {
    s.(workers := seq(|s.workers|, i requires 0 <= i < |s.workers| => Wake(s.workers[i])),
       scheduler := if s.scheduler.SAsleep? then SLock else s.scheduler)
  }

  predicate SchedulerEnabled(s: Sys) {
    match s.scheduler
    case SLock | SStopLock | SStartLock => s.owner.Free?
    case SFinishedScan(k) => k < |s.tasks| ==> s.owner.Free?
    case SSum(k, _) => k < |s.tasks| ==> s.owner.Free?
    case SWalk(k, _, _, _) => k < |s.tasks| ==> s.owner.Free?
    case SJoin(k) => k < |s.workers| ==> s.workers[k].WExited?
    case SAsleep | SDone => false
    case _ => true
  }

  // The scheduler's next step, by the function of the source it is in.

  /** task_wait_until_no_running. */
  function WaitStep(s: Sys): Sys {
    match s.scheduler
    case SLock => s.(owner := ByScheduler, scheduler := SScan(0))
    case SScan(k) =>
      if k >= |s.tasks| then s.(scheduler := SUnlock)
      else if s.tasks[k].state == Running then s.(owner := Free, scheduler := SAsleep)
      else s.(scheduler := SScan(k + 1))
    case SUnlock => s.(owner := Free, scheduler := if s.pending then SCompensate else SCap)
    case _ => s
  }

  /** What the loop does about the dispatch it has just waited for. */
  function ReportStep(o: Options, s: Sys): Sys {
    var w := s.winner;
    if w >= |s.tasks| then s else
    match s.scheduler
    case SCompensate => s.(tasks := s.tasks[w := Compensate(o, s.tasks[w])], scheduler := SReport)
    case SReport =>
      s.(log := s.log + [ReportedEvent(s.pendingNumber, s.tasks[w], s.before)], pending := false, scheduler := SCap)
    case _ => s
  }

  /** The max-dispatches check and task_shutdown_all. */
  function StopStep(o: Options, s: Sys): Sys {
    match s.scheduler
    case SCap =>
      s.(scheduler := if o.maxDispatches > 0 && s.number > o.maxDispatches then SStopLock else SFinishedScan(0))
    case SStopLock => s.(owner := ByScheduler, scheduler := SStopScan(0))
    case SStopScan(k) =>
      if k >= |s.tasks| then s.(scheduler := SStopBroadcast)
      else s.(tasks := s.tasks[k := ShutDown(s.tasks[k])], scheduler := SStopScan(k + 1))
    case SStopBroadcast => Broadcast(s).(scheduler := SStopUnlock)
    case SStopUnlock => s.(owner := Free, scheduler := SJoin(0))
    case _ => s
  }

  /** The finished check, the draw and the walk. The two exits without a winner are kept: a zero sum
      goes back to waiting, and a walk that finds nobody leaves the loop. */
  function DrawStep(s: Sys): Sys {
    match s.scheduler
    case SFinishedScan(k) =>
      if k >= |s.tasks| then s.(scheduler := SJoin(0))
      else if s.tasks[k].state == Finished then s.(scheduler := SFinishedScan(k + 1))
      else s.(scheduler := SSum(0, 0))
    case SSum(k, sum) =>
      if k < |s.tasks| then
        s.(scheduler := SSum(k + 1, if s.tasks[k].state == Ready then sum + s.tasks[k].effective else sum))
      else s.(scheduler := if sum == 0 then SLock else SDraw(sum))
    case SDraw(sum) =>
      if sum == 0 then s else
      var d := Draw(s.seed, sum);
      s.(seed := d.0, scheduler := SWalk(0, 0, sum, d.1))
    case SWalk(k, passed, sum, ticket) =>
      if k >= |s.tasks| then s.(scheduler := SJoin(0))
      else if s.tasks[k].state != Ready then s.(scheduler := SWalk(k + 1, passed, sum, ticket))
      else if passed + s.tasks[k].effective >= ticket then s.(winner := k, scheduler := SAnnounce(sum, ticket))
      else s.(scheduler := SWalk(k + 1, passed + s.tasks[k].effective, sum, ticket))
    case _ => s
  }

  /** The "before" line, task_transition_to_running and the dispatch counter. */
  function StartStep(s: Sys): Sys {
    var w := s.winner;
    match s.scheduler
    case SAnnounce(sum, ticket) =>
      if w >= |s.tasks| then s else
      s.(before := s.tasks[w].done, log := s.log + [ChosenEvent(s.number, s.tasks[w], ticket, sum)],
         scheduler := SStartLock)
    case SStartLock => s.(owner := ByScheduler, scheduler := SStart)
    case SStart =>
      if w >= |s.tasks| || s.tasks[w].state != Ready then s.(scheduler := SStartUnlock)
      else s.(tasks := s.tasks[w := StartRunning(s.tasks[w], s.number)], scheduler := SStartBroadcast)
    case SStartBroadcast => Broadcast(s).(scheduler := SStartUnlock)
    case SStartUnlock => s.(owner := Free, scheduler := SCount)
    case SCount =>
      s.(pending := true, pendingNumber := s.number, number := Wrap(s.number + 1), scheduler := SLock)
    case _ => s
  }

  function SchedulerStep(o: Options, s: Sys): Sys {
    match s.scheduler
    case SLock | SScan(_) | SAsleep | SUnlock => WaitStep(s)
    case SCompensate | SReport => ReportStep(o, s)
    case SCap | SStopLock | SStopScan(_) | SStopBroadcast | SStopUnlock => StopStep(o, s)
    case SFinishedScan(_) | SSum(_, _) | SDraw(_) | SWalk(_, _, _, _) => DrawStep(s)
    case SAnnounce(_, _) | SStartLock | SStart | SStartBroadcast | SStartUnlock | SCount => StartStep(s)
    case SJoin(k) => s.(scheduler := if k >= |s.workers| then SDone else SJoin(k + 1))
    case SDone => s
  }

  predicate WorkerEnabled(s: Sys, i: nat)
    requires i < |s.workers|
  {
    match s.workers[i]
    case WLock | WLockResult => s.owner.Free?
    case WAsleep | WExited => false
    case _ => true
  }

  /** Where a worker goes next and what it does to its own task. */
  function WorkerLocal(o: Options, pc: WorkerPc, t: Task): (WorkerPc, Task) {
    match pc
    case WLock => (WCheck, t)
    case WCheck =>
      (match t.state case Ready => WAsleep case Running => WCompute(0) case Finished => WExited, t)
    case WCompute(run) => if Continues(o, t, run) then (WCompute(run + 1), DoUnit(t)) else (WLockResult, t)
    case WLockResult => (WStore, t)
    case WStore => (WBroadcast, Settle(t))
    case WBroadcast => (WUnlock, t)
    case WUnlock => (WLock, t)
    case WAsleep | WExited => (pc, t)
  }

  /** What a worker does to the mutex: take it, release it (by unlocking, sleeping or leaving), or nothing. */
  function OwnerAfter(pc: WorkerPc, owner: Owner, i: nat): Owner {
    match pc
    case WLock | WLockResult => ByWorker(i)
    case WCheck | WUnlock => Free
    case _ => owner
  }

  function WorkerStep(o: Options, s: Sys, i: nat): (n: Sys)
    requires i < |s.workers| && i < |s.tasks|
    ensures |n.workers| == |s.workers| && |n.tasks| == |s.tasks|
  {
    var pc := s.workers[i];
    var local := WorkerLocal(o, pc, s.tasks[i]);
    var b := if pc.WBroadcast? then Broadcast(s) else s;
    b.(tasks := s.tasks[i := local.1], workers := b.workers[i := local.0], owner := OwnerAfter(pc, s.owner, i))
  }

  /** Who moves: a thread, or the library waking a sleeper that nobody signalled. */
  datatype Move = MoveScheduler | MoveWorker(i: nat) | WakeScheduler | WakeWorker(i: nat)

  predicate Spurious(m: Move) {
    m.WakeScheduler? || m.WakeWorker?
  }

  predicate Enabled(s: Sys, m: Move) {
    match m
    case MoveScheduler => SchedulerEnabled(s)
    case MoveWorker(i) => i < |s.workers| && i < |s.tasks| && WorkerEnabled(s, i)
    case WakeScheduler => s.scheduler.SAsleep?
    case WakeWorker(i) => i < |s.workers| && s.workers[i].WAsleep?
  }

  function Next(o: Options, s: Sys, m: Move): Sys
    requires Enabled(s, m)
  {
    match m
    case MoveScheduler => SchedulerStep(o, s)
    case MoveWorker(i) => WorkerStep(o, s, i)
    case WakeScheduler => s.(scheduler := SLock)
    case WakeWorker(i) => s.(workers := s.workers[i := WLock])
  }

  /** A sequence of moves that can be made one after the other from `s`. */
  predicate Run(o: Options, s: Sys, moves: seq<Move>)
    decreases moves
  {
    moves == [] || (Enabled(s, moves[0]) && Run(o, Next(o, s, moves[0]), moves[1..]))
  }

  function After(o: Options, s: Sys, moves: seq<Move>): Sys
    requires Run(o, s, moves)
    decreases moves
  {
    if moves == [] then s else After(o, Next(o, s, moves[0]), moves[1..])
  }
}
