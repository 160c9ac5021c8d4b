/** Whole runs of the threaded scheduler, for every interleaving and every number of spurious wake-ups. */
module ProtocolTheorems {
  import opened TaskModel
  import opened Lottery
  import opened Sequential
  import opened Accounting
  import opened Protocol
  import opened ProtocolInvariant
  import opened ProtocolSafety
  import opened ProtocolMoves

  // Refinement of the sequential loop.

  /** The head a run has reached. */
  function HeadAfter(o: Options, s: Sys, h: Head, moves: seq<Move>): Head
    requires Run(o, s, moves)
    decreases moves
  {
    if moves == [] then h
    else HeadAfter(o, Next(o, s, moves[0]), NextHead(o, s, h, moves[0]), moves[1..])
  }

  lemma {:induction false} RunKeeps(o: Options, s: Sys, h: Head, moves: seq<Move>)
    requires Inv(o, s, h) && Run(o, s, moves)
    ensures var e := HeadAfter(o, s, h, moves);
      Inv(o, After(o, s, moves), e) && Loop(o, e) == Loop(o, h)
    decreases moves
  {
    if moves != [] {
      var m := moves[0];
      MoveKeeps(o, s, h, m);
      if m.MoveScheduler? && s.scheduler.SReport? {
        LoopUnfolds(o, h);
        assert Going(o, h);
      }
      hide Inv;
      hide Next;
      hide Iterate;
      hide Loop;
      RunKeeps(o, Next(o, s, m), NextHead(o, s, h, m), moves[1..]);
    }
  }

  /** In a state that has reached head `h`, the log is that of the head, or that and the line of the
      dispatch the sequential loop makes next. */
  lemma LogOfState(o: Options, s: Sys, h: Head)
    requires Inv(o, s, h)
    ensures s.log == h.log || (Going(o, h) && s.log == h.log + [Chosen1(h)])
  {
    assert Shared(s).log == s.log;
    hide Going;
    hide Chosen1;
    hide Mutex;
    hide WorkersOK;
    hide HeadOK;
    hide Stops;
    hide NextSeed;
    hide DrawnTask;
  }

  lemma PrefixOfLoop(o: Options, h: Head)
    requires HeadOK(o, h)
    ensures h.log <= Loop(o, h).log
    ensures Going(o, h) ==> h.log + [Chosen1(h)] <= Loop(o, h).log
  {
    LoopExtendsLog(o, h);
    if Going(o, h) {
      LoopUnfolds(o, h);
      LoopExtendsLog(o, Iterate(o, h));
      IterateSplits(o, h);
      assert h.log + [Chosen1(h)] <= Iterate(o, h).log;
      hide Iterate;
      hide Loop;
    }
  }

  /**
   * Interleaving independence: whatever the threads do, the log so far is a prefix of the log of the
   * sequential loop, and a run that has ended has exactly the loop's log and the loop's tasks.
   */
  lemma InterleavingsAgree(o: Options, tasks: seq<Task>, seed: bv32, moves: seq<Move>)
    requires Initial(tasks) && Run(o, Init(tasks, seed), moves)
    ensures HeadOK(o, Start(tasks, seed))
    ensures var e, final := After(o, Init(tasks, seed), moves), Loop(o, Start(tasks, seed));
      && e.log <= final.log
      && (e.scheduler.SDone? ==> e.log == final.log && e.tasks == final.tasks)
  {
    StartOK(o, tasks, seed);
    var h0 := Start(tasks, seed);
    InitHolds(o, tasks, seed);
    RunKeeps(o, Init(tasks, seed), h0, moves);
    var e := After(o, Init(tasks, seed), moves);
    var h := HeadAfter(o, Init(tasks, seed), h0, moves);
    LogOfState(o, e, h);
    assert HeadOK(o, h);
    PrefixOfLoop(o, h);
    AtEnd(o, e, h);
    hide *;
  }

  lemma AtEnd(o: Options, s: Sys, h: Head)
    requires Inv(o, s, h)
    ensures s.scheduler.SDone? ==> s.log == Loop(o, h).log && s.tasks == Loop(o, h).tasks
    ensures s.scheduler.SDone? ==> forall i :: 0 <= i < |s.workers| ==> s.workers[i].WExited?
  {
    if s.scheduler.SDone? {
      assert HeadOK(o, h) && Core(o, SDone, Shared(s), h) && WorkersOK(o, s, h);
      assert Shared(s).log == s.log && Shared(s).tasks == s.tasks;
      hide *;
      LoopUnfolds(o, h);
      DataAtEnd(o, Shared(s), h);
      WorkersAtEnd(o, s, h);
    }
  }

  lemma DataAtEnd(o: Options, d: Sys, h: Head)
    requires Core(o, SDone, d, h)
    ensures Stops(o, h) && d.tasks == Stopped(o, h).tasks && d.log == Stopped(o, h).log
  {
    hide ShutDownAll;
    hide AllFinished;
  }

  lemma WorkersAtEnd(o: Options, s: Sys, h: Head)
    requires WorkersOK(o, s, h) && s.scheduler.SDone?
    ensures forall i :: 0 <= i < |s.workers| ==> s.workers[i].WExited?
  {
    forall i | 0 <= i < |s.workers|
      ensures s.workers[i].WExited?
    {
      assert WorkerOK(o, s, h, i);
    }
    hide Flying;
  }

  /** Every state a run can be in satisfies the invariant for the head the run has reached. */
  lemma Reachable(o: Options, tasks: seq<Task>, seed: bv32, moves: seq<Move>) returns (h: Head)
    requires Initial(tasks) && Run(o, Init(tasks, seed), moves)
    ensures Inv(o, After(o, Init(tasks, seed), moves), h)
  {
    StartOK(o, tasks, seed);
    InitHolds(o, tasks, seed);
    RunKeeps(o, Init(tasks, seed), Start(tasks, seed), moves);
    h := HeadAfter(o, Init(tasks, seed), Start(tasks, seed), moves);
  }

  // Ownership without the lock.

  /** The scheduler is between the end of its wait and the hand-over, where it reads and writes task
      fields without holding the mutex. */
  predicate BetweenWaitAndStart(pc: SchedulerPc) {
    pc.SCompensate? || pc.SReport? || pc.SCap? || pc.SStopLock? || pc.SFinishedScan? || pc.SSum? || pc.SDraw?
    || pc.SWalk? || pc.SAnnounce? || pc.SStartLock? || pc.SStart?
  }

  /** The worker uses its task's fields without the mutex, or is about to store the result. */
  predicate OwnsFields(pc: WorkerPc) {
    pc.WCompute? || pc.WLockResult? || pc.WStore?
  }

  /** The worker is between seeing RUNNING and having stored the result, or still inside that critical section. */
  predicate InDispatch(pc: WorkerPc) {
    pc.WCompute? || pc.WLockResult? || pc.WStore? || pc.WBroadcast? || pc.WUnlock?
  }

  /**
   * At most one task is RUNNING; a worker that computes, or is about to store its result, does so on
   * its own RUNNING task; at most one thread is in a critical section; and while the scheduler uses
   * task fields without the mutex no task is RUNNING and no worker is anywhere in a dispatch.
   */
  lemma SingleOwner(o: Options, s: Sys, h: Head)
    requires Inv(o, s, h)
    ensures forall i, j :: 0 <= i < |s.tasks| && 0 <= j < |s.tasks| ==>
      (s.tasks[i].state == Running && s.tasks[j].state == Running ==> i == j)
    ensures forall i :: 0 <= i < |s.workers| ==>
      (OwnsFields(s.workers[i]) ==> s.tasks[i].state == Running)
    ensures forall i, j :: 0 <= i < |s.workers| && 0 <= j < |s.workers| ==>
      (WorkerHolds(s.workers[i]) && WorkerHolds(s.workers[j]) ==> i == j)
    ensures forall i :: 0 <= i < |s.workers| ==> !(WorkerHolds(s.workers[i]) && SchedulerHolds(s.scheduler))
    ensures BetweenWaitAndStart(s.scheduler) ==>
      forall i :: 0 <= i < |s.tasks| ==> s.tasks[i].state != Running && !InDispatch(s.workers[i])
  {
    assert Mutex(s) && Core(o, s.scheduler, Shared(s), h) && HeadOK(o, h) && WorkersOK(o, s, h);
    hide *;
    SameLengths(o, s, h);
    MutexExcludes(s);
    forall i | 0 <= i < |s.tasks|
      ensures s.tasks[i].state == Running ==> i == s.winner && !BetweenWaitAndStart(s.scheduler)
      ensures OwnsFields(s.workers[i]) ==> s.tasks[i].state == Running
      ensures BetweenWaitAndStart(s.scheduler) ==> !InDispatch(s.workers[i])
    {
      if !(Engaged(s) && i == s.winner) {
        NotRunning(o, s, h, i);
      }
      CompensatesQuietly(o, s, h, i);
      WorkerFacts(o, s, h, i);
    }
  }

  lemma SameLengths(o: Options, s: Sys, h: Head)
    requires WorkersOK(o, s, h)
    ensures |s.workers| == |s.tasks| == |h.tasks|
  {
  }

  /** One worker and its task: who can be in a dispatch, and when. */
  lemma WorkerFacts(o: Options, s: Sys, h: Head, i: nat)
    requires WorkersOK(o, s, h) && i < |s.workers|
    requires !(Engaged(s) && i == s.winner) ==> s.tasks[i].state != Running
    requires s.scheduler.SCompensate? ==> s.tasks[i].state != Running
    ensures s.tasks[i].state == Running ==> i == s.winner && !BetweenWaitAndStart(s.scheduler)
    ensures OwnsFields(s.workers[i]) ==> s.tasks[i].state == Running
    ensures BetweenWaitAndStart(s.scheduler) ==> !InDispatch(s.workers[i])
  {
    assert WorkerOK(o, s, h, i);
    hide DoUnits;
    hide UnitsToRun;
    hide StartRunning;
    hide Settle;
    hide WorkersOK;
  }

  /** The shutdown at the cap happens with no task RUNNING and no worker between seeing RUNNING and storing
      its result, so it cannot take a task from under a worker. */
  lemma ShutdownIsQuiet(o: Options, s: Sys, h: Head)
    requires Inv(o, s, h) && Stopping(s.scheduler)
    ensures forall i :: 0 <= i < |s.tasks| ==> s.tasks[i].state != Running && !InDispatch(s.workers[i])
  {
    assert Core(o, s.scheduler, Shared(s), h) && HeadOK(o, h) && WorkersOK(o, s, h);
    assert !Engaged(s);
    hide Core;
    hide HeadOK;
    hide Engaged;
    hide Mutex;
    forall i | 0 <= i < |s.tasks|
      ensures s.tasks[i].state != Running && !InDispatch(s.workers[i])
    {
      NotRunning(o, s, h, i);
      assert WorkerOK(o, s, h, i);
    }
  }

  /** Once the loop is over every task is FINISHED and every worker is on its way out, none of them asleep
      or in a dispatch, so the records can be read without the mutex. */
  lemma QuietAfterLoop(o: Options, s: Sys, h: Head)
    requires Inv(o, s, h) && (s.scheduler.SJoin? || s.scheduler.SDone?)
    ensures AllFinished(s.tasks)
    ensures forall i :: 0 <= i < |s.workers| ==> !InDispatch(s.workers[i]) && !s.workers[i].WAsleep?
  {
    assert Core(o, s.scheduler, Shared(s), h) && HeadOK(o, h) && WorkersOK(o, s, h) && Shared(s).tasks == s.tasks;
    hide *;
    SameLengths(o, s, h);
    FinishedAfterLoop(o, s.scheduler, Shared(s), h);
    EveryFinished(s.tasks);
    forall i | 0 <= i < |s.workers|
      ensures !InDispatch(s.workers[i]) && !s.workers[i].WAsleep?
    {
      LeavingWorker(o, s, h, i);
    }
  }

  lemma FinishedAfterLoop(o: Options, pc: SchedulerPc, d: Sys, h: Head)
    requires Core(o, pc, d, h) && HeadOK(o, h) && (pc.SJoin? || pc.SDone?)
    ensures AllFinished(d.tasks)
  {
    HeadNotRunning(o, h);
    hide HeadOK;
  }

  lemma LeavingWorker(o: Options, s: Sys, h: Head, i: nat)
    requires WorkersOK(o, s, h) && i < |s.workers| && (s.scheduler.SJoin? || s.scheduler.SDone?)
    requires s.tasks[i].state == Finished
    ensures !InDispatch(s.workers[i]) && !s.workers[i].WAsleep?
  {
    assert WorkerOK(o, s, h, i);
    hide Flying;
    hide WorkersOK;
  }

  // No lost wake-up, no deadlock.

  /** Between storing RUNNING, or FINISHED in a shutdown, and the broadcast that announces it. */
  predicate WillBeTold(s: Sys, i: nat) {
    s.scheduler.SStopScan? || s.scheduler.SStopBroadcast? || (s.scheduler.SStartBroadcast? && i == s.winner)
  }

  /**
   * In every reachable state: a worker sleeps only while its task is READY, or while the thread that
   * changed its state is about to broadcast. A sleeping scheduler waits for one dispatch: its worker
   * is awake and either the task is RUNNING, the only one, or the worker is about to broadcast.
   */
  lemma NoLostWakeup(o: Options, s: Sys, h: Head)
    requires Inv(o, s, h)
    ensures forall i :: 0 <= i < |s.workers| && s.workers[i].WAsleep? ==>
      s.tasks[i].state == Ready || WillBeTold(s, i)
    ensures s.scheduler.SAsleep? ==>
      && s.winner < |s.workers|
      && (s.workers[s.winner].WBroadcast? <==> s.tasks[s.winner].state != Running)
      && !s.workers[s.winner].WAsleep? && !s.workers[s.winner].WExited?
      && forall i :: 0 <= i < |s.tasks| && i != s.winner ==> s.tasks[i].state != Running
  {
    assert Core(o, s.scheduler, Shared(s), h) && HeadOK(o, h) && WorkersOK(o, s, h);
    SleepsPending(o, s.scheduler, Shared(s), h);
    assert Shared(s).pending == s.pending;
    if s.scheduler.SAsleep? {
      FlightFacts(o, s, h);
    }
    hide *;
    SameLengths(o, s, h);
    forall i | 0 <= i < |s.workers|
      ensures s.workers[i].WAsleep? ==> s.tasks[i].state == Ready || WillBeTold(s, i)
      ensures s.scheduler.SAsleep? && i == s.winner ==>
        && (s.workers[i].WBroadcast? <==> s.tasks[i].state != Running)
        && !s.workers[i].WAsleep? && !s.workers[i].WExited?
      ensures s.scheduler.SAsleep? && i != s.winner ==> s.tasks[i].state != Running
    {
      if !(Engaged(s) && i == s.winner) {
        NotRunning(o, s, h, i);
      }
      SleeperFacts(o, s, h, i);
    }
  }

  /** One worker and its task: when it can sleep, and what the scheduler's sleep says about it. */
  lemma SleeperFacts(o: Options, s: Sys, h: Head, i: nat)
    requires WorkersOK(o, s, h) && i < |s.workers|
    requires s.scheduler.SAsleep? ==> s.pending
    ensures s.workers[i].WAsleep? ==> s.tasks[i].state == Ready || WillBeTold(s, i)
    ensures s.scheduler.SAsleep? && i == s.winner ==>
      && (s.workers[i].WBroadcast? <==> s.tasks[i].state != Running)
      && !s.workers[i].WAsleep? && !s.workers[i].WExited?
    ensures i != s.winner ==> !(Engaged(s) && i == s.winner)
  {
    assert WorkerOK(o, s, h, i);
    hide DoUnits;
    hide UnitsToRun;
    hide StartRunning;
    hide Settle;
    hide WorkersOK;
  }

  /** With the mutex free nobody is in between: a sleeping worker's task is READY, and a sleeping scheduler
      means one RUNNING task, whose worker can move. */
  lemma NoLostWakeupWhenFree(o: Options, s: Sys, h: Head)
    requires Inv(o, s, h) && s.owner.Free?
    ensures forall i :: 0 <= i < |s.workers| && s.workers[i].WAsleep? ==> s.tasks[i].state == Ready
    ensures s.scheduler.SAsleep? ==>
      && s.winner < |s.workers|
      && (forall i :: 0 <= i < |s.tasks| ==> (s.tasks[i].state == Running <==> i == s.winner))
      && !s.workers[s.winner].WAsleep? && !s.workers[s.winner].WExited?
      && WorkerEnabled(s, s.winner)
  {
    NoLostWakeup(o, s, h);
    assert !SchedulerHolds(s.scheduler) && |s.workers| == |s.tasks|;
    if s.scheduler.SAsleep? {
      assert !WorkerHolds(s.workers[s.winner]);
    }
    hide Core;
    hide Mutex;
    hide HeadOK;
    hide WorkersOK;
  }

  /** Until the scheduler has joined every worker some thread can move without any spurious wake-up. */
  lemma NoDeadlock(o: Options, s: Sys, h: Head) returns (m: Move)
    requires Inv(o, s, h) && !s.scheduler.SDone?
    ensures !Spurious(m) && Enabled(s, m)
  {
    match s.owner
    case ByScheduler => m := MoveScheduler;
    case ByWorker(i) => m := MoveWorker(i);
    case Free =>
      m := MoveScheduler;
      if !SchedulerEnabled(s) {
        NoLostWakeupWhenFree(o, s, h);
        if s.scheduler.SAsleep? {
          m := MoveWorker(s.winner);
        } else {
          var k := s.scheduler.k;
          QuietAfterLoop(o, s, h);
          assert WorkerOK(o, s, h, k);
          m := MoveWorker(k);
        }
      }
  }

  // The lottery never stalls.

  /** Where the scheduler can go from `pc`. The ways out of the draw that find no winner are not here. */
  predicate Succeeds(n: nat, pc: SchedulerPc, next: SchedulerPc) {
    match pc
    case SLock => next == SScan(0)
    case SScan(k) => k <= n && (if k == n then next.SUnlock? else next == SScan(k + 1) || next.SAsleep?)
    case SAsleep => false
    case SUnlock => next.SCompensate? || next.SCap?
    case SCompensate => next.SReport?
    case SReport => next.SCap?
    case SCap => next.SStopLock? || next == SFinishedScan(0)
    case SStopLock => next == SStopScan(0)
    case SStopScan(k) => k <= n && (if k == n then next.SStopBroadcast? else next == SStopScan(k + 1))
    case SStopBroadcast => next.SStopUnlock?
    case SStopUnlock => next == SJoin(0)
    case SFinishedScan(k) =>
      k <= n && (if k == n then next == SJoin(0) else next == SFinishedScan(k + 1) || next == SSum(0, 0))
    case SSum(k, _) => k <= n && (if k == n then next.SDraw? else next.SSum? && next.k == k + 1)
    case SDraw(sum) => 1 <= sum && next.SWalk? && next.k == 0
    case SWalk(k, _, sum, ticket) => k < n && ((next.SWalk? && next.k == k + 1) || next == SAnnounce(sum, ticket))
    case SAnnounce(_, _) => next.SStartLock?
    case SStartLock => next.SStart?
    case SStart => next.SStartBroadcast?
    case SStartBroadcast => next.SStartUnlock?
    case SStartUnlock => next.SCount?
    case SCount => next.SLock?
    case SJoin(k) => k <= n && (if k == n then next.SDone? else next == SJoin(k + 1))
    case SDone => next.SDone?
  }

  /** What rules out the two ways of leaving the draw without a winner. */
  lemma DrawFacts(o: Options, pc: SchedulerPc, d: Sys, h: Head)
    requires Core(o, pc, d, h) && Drawing(pc)
    ensures pc.SFinishedScan? ==> pc.k <= |d.tasks|
    ensures pc.SSum? ==> pc.k <= |d.tasks| && (pc.k == |d.tasks| ==> pc.sum > 0)
    ensures pc.SDraw? ==> pc.sum > 0
    ensures pc.SWalk? ==> pc.k < |d.tasks|
  {
    assert pc.SSum? || pc.SDraw? || pc.SWalk? ==>
      Drawable(h) && d.tasks == h.tasks && ActiveTickets(h.tasks) > 0 && DrawnTask(h) < |d.tasks|;
    hide Going;
    hide DrawnTask;
    hide NextSeed;
    hide DrawnTicket;
  }

  lemma ScanPath(s: Sys)
    requires s.scheduler.SFinishedScan? && s.scheduler.k <= |s.tasks|
    ensures Succeeds(|s.tasks|, s.scheduler, DrawStep(s).scheduler)
  {
  }

  lemma SumPath(s: Sys)
    requires s.scheduler.SSum? && s.scheduler.k <= |s.tasks| && (s.scheduler.k == |s.tasks| ==> s.scheduler.sum > 0)
    ensures Succeeds(|s.tasks|, s.scheduler, DrawStep(s).scheduler)
  {
  }

  lemma TicketPath(s: Sys)
    requires s.scheduler.SDraw? && s.scheduler.sum > 0
    ensures Succeeds(|s.tasks|, s.scheduler, DrawStep(s).scheduler)
  {
    hide Draw;
  }

  lemma WalkPath(s: Sys)
    requires s.scheduler.SWalk? && s.scheduler.k < |s.tasks|
    ensures Succeeds(|s.tasks|, s.scheduler, DrawStep(s).scheduler)
  {
  }

  lemma DrawPath(o: Options, s: Sys, h: Head)
    requires Core(o, s.scheduler, Shared(s), h) && Drawing(s.scheduler)
    ensures Succeeds(|s.tasks|, s.scheduler, DrawStep(s).scheduler)
  {
    DrawFacts(o, s.scheduler, Shared(s), h);
    assert Shared(s).tasks == s.tasks;
    hide Core;
    hide Shared;
    hide DrawStep;
    hide Succeeds;
    match s.scheduler
    case SFinishedScan(_) => ScanPath(s);
    case SSum(_, _) => SumPath(s);
    case SDraw(_) => TicketPath(s);
    case SWalk(_, _, _, _) => WalkPath(s);
  }

  /** What the scheduler relies on in the scans and in the steps that use `winner_task`. */
  lemma PathFacts(o: Options, pc: SchedulerPc, d: Sys, h: Head)
    requires Core(o, pc, d, h)
    ensures pc.SCompensate? || pc.SReport? || pc.SAnnounce? ==> d.winner < |d.tasks|
    ensures pc.SScan? || pc.SStopScan? || pc.SJoin? ==> pc.k <= |d.tasks|
  {
    hide DrawnTask;
    hide NextSeed;
    hide DrawnTicket;
    hide Chosen1;
    hide ShutDown;
    hide Stops;
    hide Dispatch;
  }

  lemma WaitPath(s: Sys)
    requires Waits(s.scheduler) && SchedulerEnabled(s) && (s.scheduler.SScan? ==> s.scheduler.k <= |s.tasks|)
    ensures Succeeds(|s.tasks|, s.scheduler, WaitStep(s).scheduler)
  {
  }

  lemma ReportPath(o: Options, s: Sys)
    requires (s.scheduler.SCompensate? || s.scheduler.SReport?) && s.winner < |s.tasks|
    ensures Succeeds(|s.tasks|, s.scheduler, ReportStep(o, s).scheduler)
  {
    hide Compensate;
    hide ReportedEvent;
  }

  lemma StopPath(o: Options, s: Sys)
    requires Stopping(s.scheduler) && (s.scheduler.SStopScan? ==> s.scheduler.k <= |s.tasks|)
    ensures Succeeds(|s.tasks|, s.scheduler, StopStep(o, s).scheduler)
  {
    hide ShutDown;
    hide Broadcast;
  }

  lemma StartPath(s: Sys)
    requires s.scheduler.SAnnounce? ==> s.winner < |s.tasks|
    requires s.scheduler.SAnnounce? || s.scheduler.SStartLock? || s.scheduler.SStartBroadcast?
          || s.scheduler.SStartUnlock? || s.scheduler.SCount?
    ensures Succeeds(|s.tasks|, s.scheduler, StartStep(s).scheduler)
  {
    hide ChosenEvent;
    hide Broadcast;
  }

  lemma OtherPath(o: Options, s: Sys, h: Head)
    requires Core(o, s.scheduler, Shared(s), h) && SchedulerEnabled(s)
    requires !Drawing(s.scheduler) && !s.scheduler.SStart? && |s.workers| == |s.tasks|
    ensures Succeeds(|s.tasks|, s.scheduler, SchedulerStep(o, s).scheduler)
  {
    PathFacts(o, s.scheduler, Shared(s), h);
    assert Shared(s).tasks == s.tasks && Shared(s).winner == s.winner;
    hide Core;
    hide Shared;
    hide WaitStep;
    hide ReportStep;
    hide StopStep;
    hide StartStep;
    match s.scheduler
    case SLock | SScan(_) | SAsleep | SUnlock => WaitPath(s);
    case SCompensate | SReport => ReportPath(o, s);
    case SCap | SStopLock | SStopScan(_) | SStopBroadcast | SStopUnlock => StopPath(o, s);
    case SAnnounce(_, _) | SStartLock | SStartBroadcast | SStartUnlock | SCount => StartPath(s);
    case SJoin(_) =>
    case SDone =>
  }

  /**
   * At every draw of every run the active sum is positive and the walk ends at a READY task: the loop
   * never goes back to waiting on a zero sum and never breaks off for want of a winner, even when
   * compensation has lifted the sum above 2^32 - 1 and the ticket comes out as 0.
   */
  lemma NeverStalls(o: Options, s: Sys, h: Head)
    requires Inv(o, s, h) && SchedulerEnabled(s)
    ensures Succeeds(|s.tasks|, s.scheduler, SchedulerStep(o, s).scheduler)
    ensures s.scheduler.SStart? ==> s.winner < |s.tasks| && s.tasks[s.winner].state == Ready
  {
    if Drawing(s.scheduler) {
      DrawPath(o, s, h);
      assert SchedulerStep(o, s) == DrawStep(s);
    } else if s.scheduler.SStart? {
      StartCore(o, s, h);
      assert SchedulerStep(o, s) == StartStep(s);
    } else {
      OtherPath(o, s, h);
    }
    hide *;
  }
}
