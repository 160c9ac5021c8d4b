/** The scheduler's moves and the spurious wake-ups keep the invariant; with the workers' moves, every move does. */
module ProtocolMoves {
  import opened Numbers
  import opened TaskModel
  import opened Lottery
  import opened Sequential
  import opened Protocol
  import opened ProtocolInvariant
  import opened ProtocolSafety

  // task_wait_until_no_running.

  predicate Waits(pc: SchedulerPc) {
    pc.SLock? || pc.SScan? || pc.SAsleep? || pc.SUnlock?
  }

  lemma WaitCore(o: Options, s: Sys, h: Head)
    requires Core(o, s.scheduler, Shared(s), h) && HeadOK(o, h) && Waits(s.scheduler) && SchedulerEnabled(s)
    ensures var n := WaitStep(s);
      && Shared(n) == Shared(s) && n.workers == s.workers && n.tasks == s.tasks
      && Core(o, n.scheduler, Shared(s), h)
      && (n.scheduler.SAsleep? ==> s.winner < |s.tasks| && s.tasks[s.winner].state == Running)
      && (Engaged(n) <==> Engaged(s))
  {
    WaitData(o, s.scheduler, Shared(s), h);
    assert Shared(s).tasks == s.tasks && Shared(s).pending == s.pending && Shared(s).winner == s.winner;
    assert s.scheduler.SScan? ==> s.scheduler.k <= |s.tasks|;
    hide AtHead;
    hide Waiting;
    hide HeadOK;
    hide Drawable;
    hide Iterate;
    match s.scheduler
    case SLock =>
    case SScan(k) =>
    case SUnlock =>
  }

  /** While the scheduler waits the data are a head's, or those of its dispatch with only the winner RUNNING. */
  lemma WaitData(o: Options, pc: SchedulerPc, d: Sys, h: Head)
    requires Core(o, pc, d, h) && HeadOK(o, h) && Waits(pc)
    ensures AtHead(d, h) || Waiting(o, d, h)
    ensures d.pending <==> Waiting(o, d, h)
    ensures forall i :: 0 <= i < |d.tasks| && d.tasks[i].state == Running ==> Waiting(o, d, h) && i == d.winner
  {
    HeadNotRunning(o, h);
    if Waiting(o, d, h) {
      OnlyWinnerRuns(o, d, h);
    }
    assert AtHead(d, h) ==> d.tasks == h.tasks && !d.pending;
    assert Waiting(o, d, h) ==> d.pending;
    hide AtHead;
    hide Waiting;
    hide HeadOK;
  }

  lemma OnlyWinnerRuns(o: Options, d: Sys, h: Head)
    requires HeadOK(o, h) && Waiting(o, d, h)
    ensures d.winner < |d.tasks|
    ensures forall i :: 0 <= i < |d.tasks| && d.tasks[i].state == Running ==> i == d.winner
  {
    HeadNotRunning(o, h);
    hide DrawnTask;
  }

  /** A step of the waiting scheduler suits every worker: it sleeps only on a RUNNING task. */
  lemma FlyingWaited(o: Options, pc: WorkerPc, t: Task, scheduler: SchedulerPc, next: SchedulerPc, i: nat,
                     started: Task)
    requires Flying(o, pc, t, scheduler, i, started) && Waits(scheduler)
    requires Waits(next) || next.SCompensate? || next.SCap?
    requires next.SAsleep? ==> t.state == Running
    requires next.SCompensate? ==> !WorkerHolds(pc)
    ensures Flying(o, pc, t, next, i, started)
  {
    hide DoUnits;
    hide UnitsToRun;
    hide Settle;
  }

  lemma RestingWaited(pc: WorkerPc, t: Task, scheduler: SchedulerPc, next: SchedulerPc, i: nat)
    requires Resting(pc, t, scheduler, i) && Waits(scheduler)
    requires Waits(next) || next.SCompensate? || next.SCap?
    ensures Resting(pc, t, next, i)
  {
  }

  lemma WaitTargets(s: Sys)
    requires Waits(s.scheduler)
    ensures var next := WaitStep(s).scheduler;
      && (Waits(next) || next.SCompensate? || next.SCap?)
      && (next.SCompensate? ==> SchedulerHolds(s.scheduler))
      && WaitStep(s).winner == s.winner
  {
  }

  lemma WaitMove(o: Options, s: Sys, h: Head)
    requires Inv(o, s, h) && Waits(s.scheduler) && SchedulerEnabled(s)
    ensures Inv(o, SchedulerStep(o, s), h)
  {
    WaitCore(o, s, h);
    WaitTargets(s);
    SchedulerKeepsMutex(o, s);
    MutexExcludes(s);
    var n := WaitStep(s);
    assert SchedulerStep(o, s) == n;
    hide SchedulerStep;
    hide WaitStep;
    hide Core;
    hide Mutex;
    hide HeadOK;
    hide Engaged;
    hide Waits;
    hide Flying;
    hide Resting;
    hide StartRunning;
    hide WorkerHolds;
    hide SchedulerHolds;
    forall i | 0 <= i < |n.workers|
      ensures WorkerOK(o, n, h, i)
    {
      assert WorkerOK(o, s, h, i);
      var pc, t := s.workers[i], s.tasks[i];
      if Engaged(s) && i == s.winner {
        FlyingWaited(o, pc, t, s.scheduler, n.scheduler, i, StartRunning(h.tasks[i], h.number));
      } else {
        RestingWaited(pc, t, s.scheduler, n.scheduler, i);
      }
    }
  }

  // The report on the dispatch that has ended.

  /** Compensation turns the settled task into the task the head's dispatch produces. */
  lemma CompensateCore(o: Options, s: Sys, h: Head)
    requires Inv(o, s, h) && s.scheduler.SCompensate?
    ensures s.winner < |s.tasks| && Core(o, SReport, Shared(ReportStep(o, s)), h)
    ensures Resting(s.workers[s.winner], s.tasks[s.winner], SCompensate, s.winner)
  {
    FlightFacts(o, s, h);
    var w := s.winner;
    assert Waiting(o, Shared(s), h) && Quiet(Shared(s));
    assert Shared(s).tasks[w].state != Running;
    assert WorkerOK(o, s, h, w);
    IterateTasks(o, h);
    var n := ReportStep(o, s);
    assert s.tasks[w] == Settle(DoUnits(Started(h, w), UnitsToRun(o, Started(h, w))));
    assert n.tasks == s.tasks[w := Dispatch(o, h.tasks[w], h.number)];
    hide Dispatch;
    hide Iterate;
    hide DrawnTask;
    hide NextSeed;
    hide Chosen1;
    hide Going;
    hide HeadOK;
  }

  lemma CompensateMove(o: Options, s: Sys, h: Head)
    requires Inv(o, s, h) && s.scheduler.SCompensate?
    ensures Inv(o, SchedulerStep(o, s), h)
  {
    CompensateCore(o, s, h);
    SchedulerKeepsMutex(o, s);
    var w := s.winner;
    var n := ReportStep(o, s);
    assert SchedulerStep(o, s) == n;
    assert Waiting(o, Shared(s), h);
    assert n.workers == s.workers && n.tasks == s.tasks[w := Compensate(o, s.tasks[w])] && n.scheduler == SReport;
    assert Engaged(s) && !Engaged(n);
    assert Compensate(o, s.tasks[w]).state == s.tasks[w].state;
    hide Core;
    hide Mutex;
    hide SchedulerStep;
    hide ReportStep;
    hide Compensate;
    hide Engaged;
    forall i | 0 <= i < |n.workers|
      ensures WorkerOK(o, n, h, i)
    {
      assert WorkerOK(o, s, h, i);
    }
  }

  lemma ReportCore(o: Options, s: Sys, h: Head)
    requires Core(o, SReport, Shared(s), h) && s.scheduler.SReport?
    ensures Going(o, h) && AtHead(Shared(ReportStep(o, s)), Iterate(o, h))
  {
    var d := Shared(s);
    IterateTasks(o, h);
    assert d.tasks[d.winner] == Dispatch(o, h.tasks[d.winner], h.number);
    hide Dispatch;
    hide DrawnTask;
    hide NextSeed;
  }

  /** Steps of the scheduler outside a dispatch that change neither tasks nor workers. */
  lemma WorkersUntouched(o: Options, s: Sys, n: Sys, h: Head, h': Head)
    requires WorkersOK(o, s, h) && |h'.tasks| == |h.tasks|
    requires n.workers == s.workers && n.tasks == s.tasks && !Engaged(s) && !Engaged(n)
    requires s.scheduler.SStopScan? || s.scheduler.SStopBroadcast? ==>
      n.scheduler.SStopScan? || n.scheduler.SStopBroadcast?
    requires forall i :: Joined(n.scheduler, i) ==> Joined(s.scheduler, i)
    ensures WorkersOK(o, n, h')
  {
    hide Engaged;
    hide Joined;
    forall i | 0 <= i < |n.workers|
      ensures WorkerOK(o, n, h', i)
    {
      assert WorkerOK(o, s, h, i);
    }
  }

  lemma ReportShape(o: Options, s: Sys)
    requires s.scheduler.SReport? && s.winner < |s.tasks|
    ensures var n := ReportStep(o, s);
      SchedulerStep(o, s) == n && n.scheduler == SCap && n.workers == s.workers && n.tasks == s.tasks
      && !Engaged(s) && !Engaged(n) && forall i :: !Joined(n.scheduler, i)
  {
    hide ReportedEvent;
  }

  /** After the report the shared data are those of the next head. */
  lemma ReportedHead(o: Options, d: Sys, next: Head)
    requires AtHead(d, next)
    ensures Core(o, SCap, d, next)
  {
  }

  lemma ReportMove(o: Options, s: Sys, h: Head)
    requires Inv(o, s, h) && s.scheduler.SReport?
    ensures Going(o, h) && Inv(o, SchedulerStep(o, s), Iterate(o, h))
  {
    InvParts(o, s, h);
    assert s.scheduler == SReport && SchedulerEnabled(s);
    ReportCore(o, s, h);
    assert Drawable(h) && h.tasks[DrawnTask(h)].state == Ready && s.winner < |s.tasks| by {
      assert Shared(s).winner == s.winner && Shared(s).tasks == s.tasks;
    }
    hide *;
    SchedulerKeepsMutex(o, s);
    ReportShape(o, s);
    IterateOK(o, h);
    IterateTasks(o, h);
    var n := ReportStep(o, s);
    ReportedHead(o, Shared(n), Iterate(o, h));
    WorkersUntouched(o, s, n, h, Iterate(o, h));
    InvFrom(o, n, Iterate(o, h));
  }

  // The max-dispatches check and the shutdown.

  predicate Stopping(pc: SchedulerPc) {
    pc.SCap? || pc.SStopLock? || pc.SStopScan? || pc.SStopBroadcast? || pc.SStopUnlock?
  }

  lemma StopOne(d: Sys, n: Sys, h: Head, k: nat)
    requires StoppedUpTo(d, h, k) && k < |d.tasks| && n.tasks == d.tasks[k := ShutDown(d.tasks[k])]
    ensures StoppedUpTo(n, h, k + 1)
  {
    hide ShutDown;
  }

  lemma StopAll(d: Sys, h: Head)
    requires StoppedUpTo(d, h, |d.tasks|)
    ensures d.tasks == ShutDownAll(h.tasks)
  {
    hide ShutDown;
  }

  lemma StopScanCore(o: Options, s: Sys, h: Head)
    requires Core(o, s.scheduler, Shared(s), h) && s.scheduler.SStopScan?
    ensures var n := StopStep(o, s); Core(o, n.scheduler, Shared(n), h)
  {
    var d, k := Shared(s), s.scheduler.k;
    var n := StopStep(o, s);
    if k < |s.tasks| {
      assert n.scheduler == SStopScan(k + 1) && Shared(n) == d.(tasks := d.tasks[k := ShutDown(d.tasks[k])]);
      hide StopStep;
      StopOne(d, Shared(n), h, k);
    } else {
      assert n.scheduler == SStopBroadcast && Shared(n) == d;
      hide StopStep;
      StopAll(d, h);
    }
    hide StoppedUpTo;
    hide ShutDownAll;
    hide ShutDown;
    hide CapReached;
  }

  lemma StopCore(o: Options, s: Sys, h: Head)
    requires Core(o, s.scheduler, Shared(s), h) && Stopping(s.scheduler) && !s.scheduler.SStopScan?
    ensures var n := StopStep(o, s); Core(o, n.scheduler, Shared(n), h)
  {
    var d := Shared(s);
    var n := StopStep(o, s);
    assert Shared(n) == d && d.number == s.number;
    assert n.scheduler.SStopScan? ==> n.scheduler == SStopScan(0) && AtHead(d, h) && StoppedUpTo(d, h, 0);
    assert n.scheduler.SStopLock? <==> s.scheduler.SCap? && o.maxDispatches > 0 && d.number > o.maxDispatches;
    assert n.scheduler.SFinishedScan? ==> n.scheduler == SFinishedScan(0) && s.scheduler.SCap?;
    hide StopStep;
    hide StoppedUpTo;
    hide ShutDownAll;
    hide AllFinished;
  }

  /** What a step of the shutdown can do to the tasks and the workers. */
  lemma StopFrame(o: Options, s: Sys)
    requires Stopping(s.scheduler)
    ensures var n := StopStep(o, s);
      && |n.workers| == |s.workers| && |n.tasks| == |s.tasks|
      && !Engaged(s) && !Engaged(n) && NoneJoined(n.scheduler)
      && (s.scheduler.SStopScan? ==> n.scheduler.SStopScan? || n.scheduler.SStopBroadcast?)
      && n.workers == (if s.scheduler.SStopBroadcast? then Broadcast(s).workers else s.workers)
      && (n.tasks == s.tasks ||
          (s.scheduler.SStopScan? && s.scheduler.k < |s.tasks| &&
           n.tasks == s.tasks[s.scheduler.k := ShutDown(s.tasks[s.scheduler.k])]))
  {
    BroadcastEffect(s);
    hide ShutDown;
    hide Broadcast;
    match s.scheduler
    case SCap =>
    case SStopLock =>
    case SStopScan(k) =>
    case SStopBroadcast =>
    case SStopUnlock =>
  }

  lemma StopMove(o: Options, s: Sys, h: Head)
    requires Inv(o, s, h) && Stopping(s.scheduler) && SchedulerEnabled(s)
    ensures Inv(o, SchedulerStep(o, s), h)
  {
    if s.scheduler.SStopScan? {
      StopScanCore(o, s, h);
    } else {
      StopCore(o, s, h);
    }
    SchedulerKeepsMutex(o, s);
    StopFrame(o, s);
    var n := StopStep(o, s);
    NoneJoinedYet(n.scheduler);
    assert SchedulerStep(o, s) == n;
    hide SchedulerStep;
    hide StopStep;
    hide Core;
    hide Mutex;
    hide Engaged;
    hide Joined;
    forall i | 0 <= i < |n.workers|
      ensures WorkerOK(o, n, h, i)
    {
      assert WorkerOK(o, s, h, i);
    }
  }

  // The finished check, the draw and the walk.

  predicate Drawing(pc: SchedulerPc) {
    pc.SFinishedScan? || pc.SSum? || pc.SDraw? || pc.SWalk?
  }

  /** A task that is not finished means that the loop goes on to a draw that finds a READY winner. */
  lemma ScanFound(o: Options, d: Sys, h: Head)
    requires AtHead(d, h) && !CapReached(o, h) && !AllFinished(h.tasks) && HeadOK(o, h)
    ensures Core(o, SSum(0, 0), d, h)
  {
    DrawSucceeds(o, h);
    hide HeadOK;
    hide Total;
    hide Drawable;
    hide DrawnTask;
    hide DrawnTicket;
    hide CapReached;
    hide AllFinished;
  }

  lemma ScanStep(o: Options, d: Sys, h: Head, k: nat)
    requires Core(o, SFinishedScan(k), d, h) && HeadOK(o, h)
    ensures k < |d.tasks| && d.tasks[k].state == Finished ==> Core(o, SFinishedScan(k + 1), d, h)
    ensures k < |d.tasks| && d.tasks[k].state != Finished ==> Core(o, SSum(0, 0), d, h)
    ensures k >= |d.tasks| ==> Core(o, SJoin(0), d, h)
  {
    assert d.tasks == h.tasks;
    hide HeadOK;
    hide CapReached;
    hide ShutDownAll;
    hide Going;
    if k < |d.tasks| && d.tasks[k].state != Finished {
      ScanFound(o, d, h);
    }
  }

  lemma ScanCore(o: Options, s: Sys, h: Head)
    requires Core(o, s.scheduler, Shared(s), h) && HeadOK(o, h) && s.scheduler.SFinishedScan?
    ensures var n := DrawStep(s); Core(o, n.scheduler, Shared(n), h)
  {
    var n := DrawStep(s);
    assert Shared(s).tasks == s.tasks && Shared(n) == Shared(s);
    hide Core;
    hide Shared;
    hide HeadOK;
    ScanStep(o, Shared(s), h, s.scheduler.k);
  }

  lemma SumCore(o: Options, s: Sys, h: Head)
    requires Core(o, s.scheduler, Shared(s), h) && (s.scheduler.SSum? || s.scheduler.SDraw?)
    ensures var n := DrawStep(s); Core(o, n.scheduler, Shared(n), h)
  {
    assert Shared(s).tasks == s.tasks;
    assert Drawable(h) ==> ActiveTickets(h.tasks) > 0;
    hide Stops;
    hide Draw;
    hide WinnerFrom;
  }

  lemma DrawnAnyWinner(o: Options, d: Sys, h: Head, sum: nat, ticket: U32, k: nat)
    requires Drawn(o, d, h, sum, ticket)
    ensures Drawn(o, d.(winner := k), h, sum, ticket)
  {
    hide Going;
    hide NextSeed;
    hide DrawnTicket;
  }

  lemma WalkStep(o: Options, d: Sys, h: Head, k: nat, passed: nat, sum: nat, ticket: U32)
    requires Core(o, SWalk(k, passed, sum, ticket), d, h)
    ensures Drawn(o, d, h, sum, ticket) && k < |d.tasks|
    ensures d.tasks[k].state != Ready ==> Core(o, SWalk(k + 1, passed, sum, ticket), d, h)
    ensures d.tasks[k].state == Ready && passed + d.tasks[k].effective >= ticket ==> k == DrawnTask(h)
    ensures d.tasks[k].state == Ready && passed + d.tasks[k].effective < ticket ==>
      Core(o, SWalk(k + 1, passed + d.tasks[k].effective, sum, ticket), d, h)
  {
    assert DrawnTask(h) < |d.tasks|;
    hide Drawn;
    hide DrawnTask;
  }

  lemma WalkCore(o: Options, s: Sys, h: Head)
    requires Core(o, s.scheduler, Shared(s), h) && s.scheduler.SWalk?
    ensures var n := DrawStep(s); Core(o, n.scheduler, Shared(n), h)
  {
    var d := Shared(s);
    var SWalk(k, passed, sum, ticket) := s.scheduler;
    var n := DrawStep(s);
    assert d.tasks == s.tasks;
    WalkStep(o, d, h, k, passed, sum, ticket);
    hide Core;
    hide Drawn;
    hide DrawnTask;
    if s.tasks[k].state == Ready && passed + s.tasks[k].effective >= ticket {
      assert n.scheduler == SAnnounce(sum, ticket) && Shared(n) == d.(winner := k);
      DrawnAnyWinner(o, d, h, sum, ticket, k);
      AnnounceAt(o, d.(winner := k), h, sum, ticket);
    } else {
      assert Shared(n) == d;
    }
  }

  lemma AnnounceAt(o: Options, d: Sys, h: Head, sum: nat, ticket: U32)
    requires Drawn(o, d, h, sum, ticket) && d.winner == DrawnTask(h)
    ensures Core(o, SAnnounce(sum, ticket), d, h)
  {
    hide Drawn;
    hide DrawnTask;
  }

  predicate NoneJoined(pc: SchedulerPc) {
    !pc.SDone? && (pc.SJoin? ==> pc.k == 0)
  }

  lemma NoneJoinedYet(pc: SchedulerPc)
    requires NoneJoined(pc)
    ensures forall i :: !Joined(pc, i)
  {
  }

  lemma DrawFrame(s: Sys)
    requires Drawing(s.scheduler)
    ensures var n := DrawStep(s);
      && n.workers == s.workers && n.tasks == s.tasks && n.pending == s.pending
      && NoneJoined(n.scheduler)
      && (Engaged(n) ==> s.pending)
  {
    hide Draw;
    hide Broadcast;
    match s.scheduler
    case SFinishedScan(k) =>
    case SSum(k, sum) =>
    case SDraw(sum) =>
    case SWalk(k, passed, sum, ticket) =>
  }

  lemma DrawMove(o: Options, s: Sys, h: Head)
    requires Inv(o, s, h) && Drawing(s.scheduler) && SchedulerEnabled(s)
    ensures Inv(o, SchedulerStep(o, s), h)
  {
    NotPending(o, s.scheduler, Shared(s), h);
    DrawFrame(s);
    SchedulerKeepsMutex(o, s);
    var n := DrawStep(s);
    NoneJoinedYet(n.scheduler);
    assert SchedulerStep(o, s) == n && !Engaged(s) && Shared(s).pending == s.pending;
    hide SchedulerStep;
    hide DrawStep;
    hide Mutex;
    hide Core;
    hide Engaged;
    if s.scheduler.SFinishedScan? {
      ScanCore(o, s, h);
    } else if s.scheduler.SWalk? {
      WalkCore(o, s, h);
    } else {
      SumCore(o, s, h);
    }
    WorkersUntouched(o, s, n, h, h);
  }

  lemma NotPending(o: Options, pc: SchedulerPc, d: Sys, h: Head)
    requires Core(o, pc, d, h) && Drawing(pc)
    ensures !d.pending
  {
    hide Going;
    hide DrawnTask;
    hide WinnerFrom;
    hide Total;
  }

  // The "before" line and the hand-over to the winner.

  lemma AnnounceData(o: Options, d: Sys, h: Head, sum: nat, ticket: U32)
    requires Core(o, SAnnounce(sum, ticket), d, h)
    ensures d.winner < |d.tasks|
    ensures var t := d.tasks[d.winner];
      Core(o, SStartLock, d.(before := t.done, log := d.log + [ChosenEvent(d.number, t, ticket, sum)]), h)
  {
    assert d.tasks == h.tasks && d.winner == DrawnTask(h) < |h.tasks|;
    hide NextSeed;
    hide DrawnTask;
    hide DrawnTicket;
    hide ActiveTickets;
    hide Stops;
  }

  lemma AnnounceCore(o: Options, s: Sys, h: Head)
    requires Core(o, s.scheduler, Shared(s), h) && (s.scheduler.SAnnounce? || s.scheduler.SStartLock?)
    ensures var n := StartStep(s);
      && Core(o, n.scheduler, Shared(n), h)
      && n.workers == s.workers && n.tasks == s.tasks && !Engaged(s) && !Engaged(n) && NoneJoined(n.scheduler)
  {
    var d := Shared(s);
    assert d.tasks == s.tasks && d.winner == s.winner && d.number == s.number && d.log == s.log;
    hide Announced;
    if s.scheduler.SAnnounce? {
      AnnounceData(o, d, h, s.scheduler.sum, s.scheduler.ticket);
      hide Core;
      hide ChosenEvent;
    } else {
      assert Shared(StartStep(s)) == d;
    }
  }

  lemma AnnounceMove(o: Options, s: Sys, h: Head)
    requires Inv(o, s, h) && (s.scheduler.SAnnounce? || s.scheduler.SStartLock?) && SchedulerEnabled(s)
    ensures Inv(o, SchedulerStep(o, s), h)
  {
    SchedulerKeepsMutex(o, s);
    AnnounceCore(o, s, h);
    var n := StartStep(s);
    NoneJoinedYet(n.scheduler);
    assert SchedulerStep(o, s) == n;
    hide SchedulerStep;
    hide StartStep;
    hide Mutex;
    hide Core;
    hide HeadOK;
    hide Engaged;
    hide WorkerOK;
    WorkersUntouched(o, s, n, h, h);
  }

  /** Storing RUNNING starts the flight. */
  lemma StartCore(o: Options, s: Sys, h: Head)
    requires Core(o, s.scheduler, Shared(s), h) && s.scheduler.SStart?
    ensures s.tasks == h.tasks && s.winner < |s.tasks| && s.tasks[s.winner].state == Ready
    ensures var n := StartStep(s);
      && n == s.(tasks := s.tasks[s.winner := Started(h, s.winner)], scheduler := SStartBroadcast)
      && Core(o, SStartBroadcast, Shared(n), h)
  {
    var d := Shared(s);
    assert Going(o, h) && Announced(o, d, h) && d.tasks == s.tasks == h.tasks && s.winner == DrawnTask(h);
    assert d.number == s.number == h.number;
    hide Going;
    hide DrawnTask;
    hide Chosen1;
    hide NextSeed;
    hide StartRunning;
  }

  /** A worker found READY and awake or asleep is, once its task is RUNNING, at the start of its dispatch. */
  lemma FlyingStarted(o: Options, pc: WorkerPc, t: Task, i: nat, started: Task)
    requires Resting(pc, t, SStart, i) && t.state == Ready && started.state == Running
    ensures Flying(o, pc, started, SStartBroadcast, i, started)
  {
    assert DoUnits(started, 0) == started;
    hide DoUnits;
    hide UnitsToRun;
    hide Settle;
  }

  lemma RestingStarted(pc: WorkerPc, t: Task, i: nat)
    requires Resting(pc, t, SStart, i)
    ensures Resting(pc, t, SStartBroadcast, i)
  {
  }

  lemma StartMove(o: Options, s: Sys, h: Head)
    requires Inv(o, s, h) && s.scheduler.SStart?
    ensures Inv(o, SchedulerStep(o, s), h)
  {
    StartCore(o, s, h);
    SchedulerKeepsMutex(o, s);
    var n := StartStep(s);
    var w := s.winner;
    assert SchedulerStep(o, s) == n && Engaged(n) && !Engaged(s) && s.scheduler == SStart;
    assert Started(h, w) == StartRunning(h.tasks[w], h.number) && Started(h, w).state == Running;
    hide Core;
    hide Mutex;
    hide HeadOK;
    hide SchedulerStep;
    hide StartStep;
    hide Engaged;
    hide StartRunning;
    hide Started;
    hide Flying;
    hide Resting;
    forall i | 0 <= i < |n.workers|
      ensures WorkerOK(o, n, h, i)
    {
      assert WorkerOK(o, s, h, i);
      if i == w {
        FlyingStarted(o, s.workers[i], s.tasks[i], i, n.tasks[i]);
      } else {
        RestingStarted(s.workers[i], s.tasks[i], i);
      }
    }
  }

  lemma HandOverCore(o: Options, s: Sys, h: Head)
    requires Core(o, s.scheduler, Shared(s), h)
    requires s.scheduler.SStartBroadcast? || s.scheduler.SStartUnlock? || s.scheduler.SCount?
    ensures var n := StartStep(s);
      && Core(o, n.scheduler, Shared(n), h) && Engaged(s) && Engaged(n) && n.winner == s.winner
      && n.tasks == s.tasks
      && n.workers == (if s.scheduler.SStartBroadcast? then Broadcast(s).workers else s.workers)
      && (n.scheduler.SStartUnlock? <==> s.scheduler.SStartBroadcast?)
      && !n.scheduler.SAsleep? && !n.scheduler.SCompensate? && !n.scheduler.SStartBroadcast?
      && NoneJoined(n.scheduler)
  {
    hide Announced;
    hide Broadcast;
    match s.scheduler
    case SStartBroadcast =>
      assert Shared(Broadcast(s)) == Shared(s) by { BroadcastShares(s); }
      assert InFlight(o, Shared(s), h);
    case SStartUnlock =>
    case SCount =>
      var d := Shared(s);
      var n := Shared(StartStep(s));
      assert n == d.(pending := true, pendingNumber := d.number, number := Wrap(d.number + 1));
      AnnouncedAnyCount(o, d, h, n);
  }

  lemma BroadcastShares(s: Sys)
    ensures Shared(Broadcast(s)) == Shared(s) && Broadcast(s).tasks == s.tasks
  {
  }

  lemma AnnouncedAnyCount(o: Options, d: Sys, h: Head, n: Sys)
    requires Announced(o, d, h)
    requires n == d.(pending := n.pending, pendingNumber := n.pendingNumber, number := n.number)
    ensures Announced(o, n, h)
  {
    hide Going;
    hide Chosen1;
    hide NextSeed;
    hide DrawnTask;
  }

  /** The winner's worker, woken by the broadcast if it slept, while the scheduler goes on to count. */
  lemma FlyingHandedOver(o: Options, pc: WorkerPc, t: Task, scheduler: SchedulerPc, next: SchedulerPc, i: nat,
                         started: Task)
    requires Flying(o, pc, t, scheduler, i, started) && NoneJoined(next)
    requires scheduler.SStartBroadcast? || scheduler.SStartUnlock? || scheduler.SCount?
    requires next.SStartUnlock? <==> scheduler.SStartBroadcast?
    requires !next.SAsleep? && !next.SCompensate? && !next.SStartBroadcast?
    ensures Flying(o, if scheduler.SStartBroadcast? then Wake(pc) else pc, t, next, i, started)
  {
    hide DoUnits;
    hide UnitsToRun;
    hide Settle;
  }

  lemma RestingHandedOver(pc: WorkerPc, t: Task, scheduler: SchedulerPc, next: SchedulerPc, i: nat)
    requires Resting(pc, t, scheduler, i) && NoneJoined(next)
    requires scheduler.SStartBroadcast? || scheduler.SStartUnlock? || scheduler.SCount?
    ensures Resting(if scheduler.SStartBroadcast? then Wake(pc) else pc, t, next, i)
  {
  }

  lemma HandOverMove(o: Options, s: Sys, h: Head)
    requires Inv(o, s, h)
    requires s.scheduler.SStartBroadcast? || s.scheduler.SStartUnlock? || s.scheduler.SCount?
    ensures Inv(o, SchedulerStep(o, s), h)
  {
    HandOverCore(o, s, h);
    SchedulerKeepsMutex(o, s);
    BroadcastEffect(s);
    var n := StartStep(s);
    assert SchedulerStep(o, s) == n;
    assert forall i :: 0 <= i < |s.workers| ==>
      n.workers[i] == (if s.scheduler.SStartBroadcast? then Wake(s.workers[i]) else s.workers[i]);
    hide Core;
    hide Mutex;
    hide HeadOK;
    hide SchedulerStep;
    hide StartStep;
    hide Engaged;
    hide Broadcast;
    hide StartRunning;
    hide Flying;
    hide Resting;
    hide Wake;
    hide NoneJoined;
    forall i | 0 <= i < |n.workers|
      ensures WorkerOK(o, n, h, i)
    {
      assert WorkerOK(o, s, h, i);
      var pc, t := s.workers[i], s.tasks[i];
      if i == s.winner {
        FlyingHandedOver(o, pc, t, s.scheduler, n.scheduler, i, StartRunning(h.tasks[i], h.number));
      } else {
        RestingHandedOver(pc, t, s.scheduler, n.scheduler, i);
      }
    }
  }

  // Joining.

  lemma JoinMove(o: Options, s: Sys, h: Head)
    requires Inv(o, s, h) && s.scheduler.SJoin? && SchedulerEnabled(s)
    ensures Inv(o, SchedulerStep(o, s), h)
  {
    SchedulerKeepsMutex(o, s);
    var n := SchedulerStep(o, s);
    assert n.workers == s.workers && n.tasks == s.tasks && (n.scheduler.SJoin? || n.scheduler.SDone?);
    assert Core(o, n.scheduler, Shared(n), h);
    assert !Engaged(s) && !Engaged(n);
    hide Core;
    hide Mutex;
    forall i | 0 <= i < |n.workers|
      ensures WorkerOK(o, n, h, i)
    {
      assert WorkerOK(o, s, h, i);
    }
  }

  // Waking for no reason.

  lemma WakeCore(o: Options, s: Sys, h: Head, m: Move)
    requires Core(o, s.scheduler, Shared(s), h) && Spurious(m) && Enabled(s, m)
    ensures var n := Next(o, s, m);
      && Core(o, n.scheduler, Shared(n), h) && (Engaged(n) <==> Engaged(s))
      && n.tasks == s.tasks && n.winner == s.winner && |n.workers| == |s.workers|
      && (n.scheduler == s.scheduler || (s.scheduler.SAsleep? && n.scheduler.SLock?))
      && forall i :: 0 <= i < |s.workers| ==> n.workers[i] == s.workers[i] || n.workers[i] == Wake(s.workers[i])
  {
    var n := Next(o, s, m);
    assert Shared(n) == Shared(s) && Shared(s).pending == s.pending;
    hide AtHead;
    hide InFlight;
    if m.WakeScheduler? {
      assert Waiting(o, Shared(s), h);
    } else {
      hide Core;
    }
  }

  lemma WakeMove(o: Options, s: Sys, h: Head, m: Move)
    requires Inv(o, s, h) && Spurious(m) && Enabled(s, m)
    ensures Inv(o, Next(o, s, m), h)
  {
    MutexKept(o, s, m);
    WakeCore(o, s, h, m);
    WakingWorkers(o, s, Next(o, s, m), h);
    hide Core;
    hide Mutex;
    hide HeadOK;
    hide WorkersOK;
    hide Next;
  }

  /** Every move of every thread keeps the invariant; only a report advances the head, by one iteration. */
  lemma MoveKeeps(o: Options, s: Sys, h: Head, m: Move)
    requires Inv(o, s, h) && Enabled(s, m)
    ensures Inv(o, Next(o, s, m), NextHead(o, s, h, m))
    ensures m.MoveScheduler? && s.scheduler.SReport? ==> Going(o, h)
  {
    hide SchedulerStep;
    hide WorkerStep;
    hide Core;
    hide Mutex;
    hide WorkersOK;
    hide HeadOK;
    hide Iterate;
    match m
    case MoveWorker(i) =>
      if Engaged(s) && i == s.winner {
        FlyingMove(o, s, h, i);
      } else {
        RestingMove(o, s, h, i);
      }
    case MoveScheduler =>
      match s.scheduler {
        case SLock | SScan(_) | SAsleep | SUnlock => WaitMove(o, s, h);
        case SCompensate => CompensateMove(o, s, h);
        case SReport => ReportMove(o, s, h);
        case SCap | SStopLock | SStopScan(_) | SStopBroadcast | SStopUnlock => StopMove(o, s, h);
        case SFinishedScan(_) | SSum(_, _) | SDraw(_) | SWalk(_, _, _, _) => DrawMove(o, s, h);
        case SAnnounce(_, _) | SStartLock => AnnounceMove(o, s, h);
        case SStart => StartMove(o, s, h);
        case SStartBroadcast | SStartUnlock | SCount => HandOverMove(o, s, h);
        case SJoin(_) => JoinMove(o, s, h);
        case SDone =>
      }
    case WakeScheduler => WakeMove(o, s, h, m);
    case WakeWorker(_) => WakeMove(o, s, h, m);
  }

  lemma InitHolds(o: Options, tasks: seq<Task>, seed: bv32)
    requires HeadOK(o, Head(tasks, seed, 1, []))
    ensures Inv(o, Init(tasks, seed), Head(tasks, seed, 1, []))
  {
    hide TaskOK;
  }
}
