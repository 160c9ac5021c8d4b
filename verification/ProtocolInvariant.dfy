/** What every interleaving keeps, stated against the head `h` of the sequential loop it has reached. */
module ProtocolInvariant {
  import opened Numbers
  import opened TaskModel
  import opened Lottery
  import opened Sequential
  import opened Protocol

  // The mutex.

  predicate SchedulerHolds(pc: SchedulerPc) {
    pc.SScan? || pc.SUnlock? || pc.SStopScan? || pc.SStopBroadcast? || pc.SStopUnlock?
    || pc.SStart? || pc.SStartBroadcast? || pc.SStartUnlock?
  }

  predicate WorkerHolds(pc: WorkerPc) {
    pc.WCheck? || pc.WStore? || pc.WBroadcast? || pc.WUnlock?
  }

  /** The owner is exactly the thread that is inside a critical section, so there is at most one. */
  predicate Mutex(s: Sys) {
    && |s.workers| == |s.tasks|
    && (s.owner.ByScheduler? <==> SchedulerHolds(s.scheduler))
    && (s.owner.ByWorker? ==> s.owner.i < |s.workers|)
    && forall i :: 0 <= i < |s.workers| ==> (s.owner == ByWorker(i) <==> WorkerHolds(s.workers[i]))
  }

  /** At most one thread is in a critical section. */
  lemma MutexExcludes(s: Sys)
    requires Mutex(s)
    ensures forall i, j :: 0 <= i < |s.workers| && 0 <= j < |s.workers| ==>
      (WorkerHolds(s.workers[i]) && WorkerHolds(s.workers[j]) ==> i == j)
    ensures forall i :: 0 <= i < |s.workers| ==> !(WorkerHolds(s.workers[i]) && SchedulerHolds(s.scheduler))
  {
    hide SchedulerHolds;
    hide WorkerHolds;
    assert forall i :: 0 <= i < |s.workers| ==> (WorkerHolds(s.workers[i]) ==> s.owner == ByWorker(i));
  }

  /** What a scheduler step does to the lock: nothing, take it when free, or give it back. */
  predicate LockMove(s: Sys, n: Sys) {
    && |n.tasks| == |s.tasks|
    && (n.workers == s.workers || n.workers == Broadcast(s).workers)
    && (|| (n.owner == s.owner && SchedulerHolds(n.scheduler) == SchedulerHolds(s.scheduler))
        || (s.owner.Free? && n.owner.ByScheduler? && SchedulerHolds(n.scheduler))
        || (SchedulerHolds(s.scheduler) && n.owner.Free? && !SchedulerHolds(n.scheduler)))
  }

  lemma WaitLocking(o: Options, s: Sys)
    requires SchedulerEnabled(s)
    ensures LockMove(s, WaitStep(s)) && LockMove(s, ReportStep(o, s))
  {
    hide Compensate;
    hide ReportedEvent;
    hide Broadcast;
  }

  lemma StopLocking(o: Options, s: Sys)
    requires SchedulerEnabled(s)
    ensures LockMove(s, StopStep(o, s))
  {
    hide ShutDown;
  }

  lemma DrawLocking(s: Sys)
    requires SchedulerEnabled(s)
    ensures LockMove(s, DrawStep(s))
  {
    hide Draw;
    hide Broadcast;
  }

  lemma StartLocking(s: Sys)
    requires SchedulerEnabled(s)
    ensures LockMove(s, StartStep(s))
  {
    hide StartRunning;
    hide ChosenEvent;
  }

  lemma SchedulerLocking(o: Options, s: Sys)
    requires SchedulerEnabled(s)
    ensures LockMove(s, SchedulerStep(o, s))
  {
    WaitLocking(o, s);
    StopLocking(o, s);
    DrawLocking(s);
    StartLocking(s);
    hide WaitStep;
    hide ReportStep;
    hide StopStep;
    hide DrawStep;
    hide StartStep;
    hide Broadcast;
  }

  lemma SchedulerKeepsMutex(o: Options, s: Sys)
    requires Mutex(s) && SchedulerEnabled(s)
    ensures Mutex(SchedulerStep(o, s))
  {
    SchedulerLocking(o, s);
    var n := SchedulerStep(o, s);
    var b := Broadcast(s).workers;
    assert forall i :: 0 <= i < |b| ==> (WorkerHolds(b[i]) <==> WorkerHolds(s.workers[i]));
    hide SchedulerStep;
    hide SchedulerHolds;
    hide Broadcast;
  }

  /** A broadcast wakes sleepers, who hold nothing. */
  lemma BroadcastShape(s: Sys)
    ensures var b := Broadcast(s);
      && |b.workers| == |s.workers| && b.tasks == s.tasks && b.owner == s.owner
      && (SchedulerHolds(b.scheduler) <==> SchedulerHolds(s.scheduler))
      && forall j :: 0 <= j < |s.workers| ==> (WorkerHolds(b.workers[j]) <==> WorkerHolds(s.workers[j]))
  {
    assert s.scheduler.SAsleep? ==> !SchedulerHolds(s.scheduler) && !SchedulerHolds(SLock);
    hide SchedulerHolds;
  }

  /** What a worker's step does to places and mutex. */
  lemma WorkerShape(o: Options, s: Sys, i: nat)
    requires i < |s.workers| == |s.tasks|
    ensures var n := WorkerStep(o, s, i);
      && |n.workers| == |n.tasks| == |s.workers|
      && n.owner == OwnerAfter(s.workers[i], s.owner, i)
      && n.workers[i] == WorkerLocal(o, s.workers[i], s.tasks[i]).0
      && (SchedulerHolds(n.scheduler) <==> SchedulerHolds(s.scheduler))
      && forall j :: 0 <= j < |s.workers| && j != i ==> (WorkerHolds(n.workers[j]) <==> WorkerHolds(s.workers[j]))
  {
    BroadcastShape(s);
    hide WorkerLocal;
    hide OwnerAfter;
    hide Broadcast;
    hide SchedulerHolds;
    hide WorkerHolds;
  }

  lemma WorkerLocking(o: Options, pc: WorkerPc, t: Task)
    ensures WorkerHolds(WorkerLocal(o, pc, t).0) <==>
      pc.WLock? || pc.WLockResult? || pc.WStore? || pc.WBroadcast?
  {
    hide Continues;
    hide DoUnit;
    hide Settle;
  }

  lemma WorkerKeepsMutex(o: Options, s: Sys, i: nat)
    requires Mutex(s) && i < |s.workers| && WorkerEnabled(s, i)
    ensures Mutex(WorkerStep(o, s, i))
  {
    WorkerShape(o, s, i);
    WorkerLocking(o, s.workers[i], s.tasks[i]);
    hide WorkerStep;
    hide WorkerLocal;
    hide SchedulerHolds;
  }

  lemma MutexKept(o: Options, s: Sys, m: Move)
    requires Mutex(s) && Enabled(s, m)
    ensures Mutex(Next(o, s, m))
  {
    hide SchedulerStep;
    hide WorkerStep;
    match m
    case MoveScheduler => SchedulerKeepsMutex(o, s);
    case MoveWorker(i) => WorkerKeepsMutex(o, s, i);
    case WakeScheduler =>
    case WakeWorker(i) =>
  }

  // The workers.

  /** Between storing RUNNING and compensating, the winner's fields are in flux. */
  predicate Engaged(s: Sys) {
    match s.scheduler
    case SStartBroadcast | SStartUnlock | SCount => true
    case SLock | SScan(_) | SAsleep | SUnlock | SCompensate => s.pending
    case _ => false
  }

  predicate Joined(pc: SchedulerPc, i: nat) {
    pc.SDone? || (pc.SJoin? && i < pc.k)
  }

  /** A worker whose task is not in a dispatch: it sleeps only while READY (or about to be told
      otherwise by the broadcast of a shutdown), and has left only when FINISHED. */
  predicate Resting(pc: WorkerPc, t: Task, scheduler: SchedulerPc, i: nat) {
    && (Joined(scheduler, i) ==> pc.WExited?)
    && match pc
       case WLock | WCheck => true
       case WAsleep => t.state == Ready || scheduler.SStopScan? || scheduler.SStopBroadcast?
       case WExited => t.state == Finished
       case _ => false
  }

  /** Units of the dispatch already run, `all` of them once the worker has left its loop. */
  function UnitsSoFar(pc: WorkerPc, all: nat): nat {
    match pc
    case WCompute(run) => run
    case WLockResult | WStore => all
    case _ => 0
  }

  /** The winner's worker: `t` is the task `started` after some of its units, or settled after all of them. */
  predicate Flying(o: Options, pc: WorkerPc, t: Task, scheduler: SchedulerPc, i: nat, started: Task) {
    var all := UnitsToRun(o, started);
    if t.state == Running then
      && UnitsSoFar(pc, all) <= all && t == DoUnits(started, UnitsSoFar(pc, all))
      && !pc.WBroadcast? && !pc.WUnlock? && !pc.WExited?
      && (pc.WAsleep? ==> scheduler.SStartBroadcast?)
    else
      && t == Settle(DoUnits(started, all))
      && (pc.WBroadcast? || pc.WUnlock? || Resting(pc, t, scheduler, i))
      && (scheduler.SAsleep? ==> pc.WBroadcast?)
      && (scheduler.SCompensate? ==> !pc.WBroadcast? && !pc.WUnlock?)
      && !scheduler.SStartBroadcast? && !scheduler.SStartUnlock?
  }

  predicate WorkerOK(o: Options, s: Sys, h: Head, i: nat)
    requires i < |s.workers| == |s.tasks| == |h.tasks|
  {
    if Engaged(s) && i == s.winner then
      Flying(o, s.workers[i], s.tasks[i], s.scheduler, i, StartRunning(h.tasks[i], h.number))
    else Resting(s.workers[i], s.tasks[i], s.scheduler, i)
  }

  predicate WorkersOK(o: Options, s: Sys, h: Head) {
    && |s.workers| == |s.tasks| == |h.tasks|
    && forall i :: 0 <= i < |s.workers| ==> WorkerOK(o, s, h, i)
  }

  // The scheduler, and what all threads share. The predicates below do not read the workers or the owner.

  predicate Going(o: Options, h: Head) {
    !Stops(o, h) && Drawable(h) && h.tasks[DrawnTask(h)].state == Ready
  }

  predicate AtHead(s: Sys, h: Head) {
    s.tasks == h.tasks && s.seed == h.seed && s.number == h.number && s.log == h.log && !s.pending
  }

  predicate Drawn(o: Options, s: Sys, h: Head, sum: nat, ticket: U32) {
    && Going(o, h)
    && s.tasks == h.tasks && s.seed == NextSeed(h) && s.number == h.number && s.log == h.log && !s.pending
    && sum == ActiveTickets(h.tasks) && ticket == DrawnTicket(h)
  }

  function Chosen1(h: Head): Event
    requires Drawable(h)
  {
    ChosenEvent(h.number, h.tasks[DrawnTask(h)], DrawnTicket(h), ActiveTickets(h.tasks))
  }

  /** From the "before" line to the "after" line. */
  predicate Announced(o: Options, s: Sys, h: Head) {
    && Going(o, h)
    && s.winner == DrawnTask(h) && s.before == h.tasks[s.winner].done
    && s.seed == NextSeed(h) && s.log == h.log + [Chosen1(h)]
  }

  /** ... with only the winner's own task different from the head's. */
  predicate InFlight(o: Options, s: Sys, h: Head) {
    && Announced(o, s, h)
    && |s.tasks| == |h.tasks| && s.tasks == h.tasks[s.winner := s.tasks[s.winner]]
  }

  predicate Waiting(o: Options, s: Sys, h: Head) {
    && InFlight(o, s, h)
    && s.pending && s.pendingNumber == h.number && s.number == Wrap(h.number + 1)
  }

  predicate Quiet(s: Sys) {
    forall j :: 0 <= j < |s.tasks| ==> s.tasks[j].state != Running
  }

  predicate StoppedUpTo(s: Sys, h: Head, k: nat) {
    && |s.tasks| == |h.tasks| && k <= |s.tasks|
    && forall i :: 0 <= i < |s.tasks| ==> s.tasks[i] == if i < k then ShutDown(h.tasks[i]) else h.tasks[i]
  }

  /** What the data `s` says about `h` when the scheduler is at `pc`. */
  predicate Core(o: Options, pc: SchedulerPc, s: Sys, h: Head) {
    match pc
    case SLock => AtHead(s, h) || Waiting(o, s, h)
    case SScan(k) =>
      && (AtHead(s, h) || Waiting(o, s, h))
      && k <= |s.tasks| && forall j :: 0 <= j < k ==> s.tasks[j].state != Running
    case SAsleep => Waiting(o, s, h)
    case SUnlock => (AtHead(s, h) || Waiting(o, s, h)) && Quiet(s)
    case SCompensate => Waiting(o, s, h) && Quiet(s)
    case SReport =>
      && Announced(o, s, h) && s.tasks == Iterate(o, h).tasks
      && s.pendingNumber == h.number && s.number == Wrap(h.number + 1)
    case SCap => AtHead(s, h)
    case SStopLock => AtHead(s, h) && CapReached(o, h)
    case SStopScan(k) => s.log == h.log && CapReached(o, h) && StoppedUpTo(s, h, k)
    case SStopBroadcast | SStopUnlock => s.log == h.log && CapReached(o, h) && s.tasks == ShutDownAll(h.tasks)
    case SFinishedScan(k) =>
      && AtHead(s, h) && !CapReached(o, h)
      && k <= |s.tasks| && forall j :: 0 <= j < k ==> s.tasks[j].state == Finished
    case SSum(k, sum) =>
      AtHead(s, h) && Going(o, h) && k <= |s.tasks| && sum + Total(Active, s.tasks, k) == ActiveTickets(s.tasks)
    case SDraw(sum) => AtHead(s, h) && Going(o, h) && sum == ActiveTickets(s.tasks)
    case SWalk(k, passed, sum, ticket) =>
      && Drawn(o, s, h, sum, ticket)
      && k <= |s.tasks| && WinnerFrom(s.tasks, ticket, k, passed) == DrawnTask(h)
    case SAnnounce(sum, ticket) => Drawn(o, s, h, sum, ticket) && s.winner == DrawnTask(h)
    case SStartLock | SStart => Announced(o, s, h) && s.tasks == h.tasks && s.number == h.number && !s.pending
    case SStartBroadcast | SStartUnlock | SCount => InFlight(o, s, h) && s.number == h.number && !s.pending
    case SJoin(k) => k <= |s.tasks| && Stops(o, h) && s.tasks == Stopped(o, h).tasks && s.log == h.log
    case SDone => Stops(o, h) && s.tasks == Stopped(o, h).tasks && s.log == h.log
  }

  /** The data the threads share, without the places they are at. */
  function Shared(s: Sys): Sys {
    s.(workers := [], owner := Free, scheduler := SDone)
  }

  predicate Inv(o: Options, s: Sys, h: Head) {
    Mutex(s) && HeadOK(o, h) && Core(o, s.scheduler, Shared(s), h) && WorkersOK(o, s, h)
  }

  /** The head the interleaving has reached after a move: reporting a dispatch completes an iteration. */
  function NextHead(o: Options, s: Sys, h: Head, m: Move): Head {
    if m.MoveScheduler? && s.scheduler.SReport? && Drawable(h) then Iterate(o, h) else h
  }
}
