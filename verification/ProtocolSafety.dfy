/** The workers' moves keep the invariant. */
module ProtocolSafety {
  import opened Numbers
  import opened SeriesModel
  import opened TaskModel
  import opened Lottery
  import opened Sequential
  import opened Protocol
  import opened ProtocolInvariant

  /** Only the winner of the dispatch in progress can be RUNNING. */
  lemma NotRunning(o: Options, s: Sys, h: Head, i: nat)
    requires Core(o, s.scheduler, Shared(s), h) && HeadOK(o, h) && i < |s.tasks|
    requires !(Engaged(s) && i == s.winner)
    ensures s.tasks[i].state != Running
  {
    hide DrawnTask;
    hide DrawnTicket;
    hide NextSeed;
    hide WinnerFrom;
    hide Total;
    hide Progress;
    hide Sound;
    HeadNotRunning(o, h);
    if s.scheduler.SReport? {
      IterateTasks(o, h);
      DispatchSettles(o, h.tasks[s.winner], h.number);
      hide Iterate;
      hide Dispatch;
    }
  }

  lemma IterateTasks(o: Options, h: Head)
    requires Drawable(h)
    ensures Iterate(o, h).tasks == h.tasks[DrawnTask(h) := Dispatch(o, h.tasks[DrawnTask(h)], h.number)]
  {
  }

  lemma DispatchSettles(o: Options, t: Task, number: U32)
    ensures Dispatch(o, t, number).state != Running
  {
    hide DoUnits;
    hide StartRunning;
    hide CompensatedTickets;
  }

  lemma SleepsPending(o: Options, pc: SchedulerPc, d: Sys, h: Head)
    requires Core(o, pc, d, h)
    ensures pc.SAsleep? ==> d.pending
  {
    hide InFlight;
  }

  // Moves of a worker that is not in a dispatch.

  lemma RestingStep(o: Options, pc: WorkerPc, t: Task, scheduler: SchedulerPc, i: nat)
    requires Resting(pc, t, scheduler, i) && t.state != Running && !pc.WAsleep? && !pc.WExited?
    ensures var l := WorkerLocal(o, pc, t); l.1 == t && Resting(l.0, t, scheduler, i) && !pc.WBroadcast?
  {
  }

  lemma RestingMove(o: Options, s: Sys, h: Head, i: nat)
    requires Inv(o, s, h) && i < |s.workers| && WorkerEnabled(s, i)
    requires !(Engaged(s) && i == s.winner)
    ensures Inv(o, WorkerStep(o, s, i), h)
  {
    InvParts(o, s, h);
    assert !s.workers[i].WAsleep? && !s.workers[i].WExited?;
    assert Resting(s.workers[i], s.tasks[i], s.scheduler, i) by { assert WorkerOK(o, s, h, i); }
    hide *;
    NotRunning(o, s, h, i);
    WorkerKeepsMutex(o, s, i);
    RestingStep(o, s.workers[i], s.tasks[i], s.scheduler, i);
    WorkerStepShape(o, s, i);
    var n := WorkerStep(o, s, i);
    SameShared(s, n);
    OthersRest(o, s, n, h, i);
    InvFrom(o, n, h);
  }

  lemma SameShared(s: Sys, n: Sys)
    requires Shared(n) == Shared(s).(tasks := n.tasks) && n.tasks == s.tasks
    ensures Shared(n) == Shared(s) && n.pending == s.pending && n.winner == s.winner
  {
    assert Shared(n).pending == n.pending && Shared(s).pending == s.pending;
    assert Shared(n).winner == n.winner && Shared(s).winner == s.winner;
  }

  /** A worker outside the dispatch has moved and stays outside; what the others do is unaffected. */
  lemma OthersRest(o: Options, s: Sys, n: Sys, h: Head, i: nat)
    requires WorkersOK(o, s, h) && i < |s.workers| && !(Engaged(s) && i == s.winner)
    requires n.tasks == s.tasks && n.pending == s.pending && n.winner == s.winner && n.scheduler == s.scheduler
    requires |n.workers| == |s.workers| && Resting(n.workers[i], s.tasks[i], s.scheduler, i)
    requires forall j :: 0 <= j < |s.workers| && j != i ==>
      n.workers[j] == s.workers[j] || n.workers[j] == Wake(s.workers[j])
    ensures WorkersOK(o, n, h)
  {
    assert Engaged(n) <==> Engaged(s);
    hide Engaged;
    hide StartRunning;
    hide Flying;
    hide Resting;
    hide Wake;
    forall j | 0 <= j < |n.workers|
      ensures WorkerOK(o, n, h, j)
    {
      assert WorkerOK(o, s, h, j);
      var pc, t := s.workers[j], s.tasks[j];
      if Engaged(s) && j == s.winner {
        FlyingAfterWake(o, pc, t, s.scheduler, n.scheduler, j, StartRunning(h.tasks[j], h.number));
      } else if j != i {
        RestingAfterWake(pc, t, s.scheduler, n.scheduler, j);
      }
    }
  }

  /** The invariant, taken apart and put together. */
  lemma InvParts(o: Options, s: Sys, h: Head)
    requires Inv(o, s, h)
    ensures Mutex(s) && HeadOK(o, h) && Core(o, s.scheduler, Shared(s), h) && WorkersOK(o, s, h)
    ensures |s.workers| == |s.tasks| == |h.tasks|
  {
    hide Core;
    hide HeadOK;
    hide Mutex;
  }

  lemma InvFrom(o: Options, s: Sys, h: Head)
    requires Mutex(s) && HeadOK(o, h) && Core(o, s.scheduler, Shared(s), h) && WorkersOK(o, s, h)
    ensures Inv(o, s, h)
  {
    hide Core;
    hide HeadOK;
    hide Mutex;
    hide WorkersOK;
  }

  // Moves of the winner's worker.

  /** What the winner's worker is working on: the head's task, started. */
  function Started(h: Head, i: nat): Task
    requires i < |h.tasks|
  {
    StartRunning(h.tasks[i], h.number)
  }

  lemma {:induction false} UnitsKeepState(t: Task, run: nat)
    ensures DoUnits(t, run).state == t.state
  {
    if run > 0 { UnitsKeepState(t, run - 1); }
  }

  /** In flight the winner was READY at the head, so it is startable and its loop guard is exact. */
  lemma FlightFacts(o: Options, s: Sys, h: Head)
    requires Core(o, s.scheduler, Shared(s), h) && HeadOK(o, h) && Engaged(s)
    ensures InFlight(o, Shared(s), h) && s.winner < |s.tasks| == |h.tasks|
    ensures var t := Started(h, s.winner);
      && t.state == Running
      && forall run :: 0 <= run <= UnitsToRun(o, t) ==>
           (Continues(o, DoUnits(t, run), run) <==> run < UnitsToRun(o, t))
  {
    hide DrawnTicket;
    hide NextSeed;
    var t := Started(h, s.winner);
    assert TaskOK(o, h.tasks[s.winner]);
    hide DrawnTask;
    forall run | 0 <= run <= UnitsToRun(o, t)
      ensures Continues(o, DoUnits(t, run), run) <==> run < UnitsToRun(o, t)
    {
      UnitsToRunExact(o, t, run);
    }
  }

  /** The guard of the worker's loop, on a task that entered it as `started`. */
  predicate LoopExact(o: Options, started: Task) {
    && started.state == Running
    && forall run :: 0 <= run <= UnitsToRun(o, started) ==>
         (Continues(o, DoUnits(started, run), run) <==> run < UnitsToRun(o, started))
  }

  /** The winner's worker moves while its task is RUNNING: towards its loop, through it, out of it. */
  lemma RunningMove(o: Options, pc: WorkerPc, t: Task, scheduler: SchedulerPc, i: nat, started: Task)
    requires Flying(o, pc, t, scheduler, i, started) && t.state == Running && !pc.WAsleep?
    requires LoopExact(o, started)
    requires WorkerHolds(pc) ==> !SchedulerHolds(scheduler)
    requires !scheduler.SCompensate?
    ensures var n := WorkerLocal(o, pc, t); Flying(o, n.0, n.1, scheduler, i, started)
  {
    var all := UnitsToRun(o, started);
    var r := UnitsSoFar(pc, all);
    assert DoUnits(started, r + 1) == DoUnit(DoUnits(started, r)) && DoUnits(started, 0) == started;
    UnitsKeepState(started, r + 1);
    hide UnitsToRun;
    hide Continues;
    hide DoUnits;
    hide DoUnit;
    hide Resting;
  }

  /** ... and after it has stored the result: broadcast, unlock, and back to sleep or out. */
  lemma SettledMove(o: Options, pc: WorkerPc, t: Task, scheduler: SchedulerPc, next: SchedulerPc, i: nat, started: Task)
    requires Flying(o, pc, t, scheduler, i, started) && t.state != Running && !pc.WAsleep? && !pc.WExited?
    requires next == if pc.WBroadcast? && scheduler.SAsleep? then SLock else scheduler
    requires !Joined(scheduler, i)
    ensures var n := WorkerLocal(o, pc, t); Flying(o, n.0, n.1, next, i, started)
  {
    hide UnitsToRun;
    hide DoUnits;
    hide DoUnit;
    hide Continues;
    hide Settle;
  }

  /** A broadcast only turns sleepers into contenders, which is fine for every worker outside the dispatch. */
  lemma RestingAfterWake(pc: WorkerPc, t: Task, scheduler: SchedulerPc, next: SchedulerPc, i: nat)
    requires Resting(pc, t, scheduler, i)
    requires next == scheduler || (scheduler.SAsleep? && next.SLock?)
    ensures Resting(pc, t, next, i) && Resting(Wake(pc), t, next, i)
  {
  }

  lemma FlyingAfterWake(o: Options, pc: WorkerPc, t: Task, scheduler: SchedulerPc, next: SchedulerPc, i: nat,
                        started: Task)
    requires Flying(o, pc, t, scheduler, i, started)
    requires next == scheduler || (scheduler.SAsleep? && next.SLock?)
    ensures Flying(o, pc, t, next, i, started) && Flying(o, Wake(pc), t, next, i, started)
  {
    hide DoUnits;
    hide UnitsToRun;
    hide Settle;
  }

  /** Waking workers, or the scheduler, for no reason or by a broadcast, breaks nothing. */
  lemma WakingWorkers(o: Options, s: Sys, n: Sys, h: Head)
    requires WorkersOK(o, s, h) && n.tasks == s.tasks && n.winner == s.winner && |n.workers| == |s.workers|
    requires Engaged(n) <==> Engaged(s)
    requires n.scheduler == s.scheduler || (s.scheduler.SAsleep? && n.scheduler.SLock?)
    requires forall i :: 0 <= i < |s.workers| ==> n.workers[i] == s.workers[i] || n.workers[i] == Wake(s.workers[i])
    ensures WorkersOK(o, n, h)
  {
    hide Engaged;
    hide StartRunning;
    hide Flying;
    hide Resting;
    hide Wake;
    forall i | 0 <= i < |n.workers|
      ensures WorkerOK(o, n, h, i)
    {
      assert WorkerOK(o, s, h, i);
      var pc, t := s.workers[i], s.tasks[i];
      if Engaged(s) && i == s.winner {
        FlyingAfterWake(o, pc, t, s.scheduler, n.scheduler, i, StartRunning(h.tasks[i], h.number));
      } else {
        RestingAfterWake(pc, t, s.scheduler, n.scheduler, i);
      }
    }
  }

  /** A broadcast, in full. */
  lemma BroadcastEffect(s: Sys)
    ensures var b := Broadcast(s);
      && b == s.(workers := b.workers, scheduler := if s.scheduler.SAsleep? then SLock else s.scheduler)
      && |b.workers| == |s.workers|
      && forall j :: 0 <= j < |s.workers| ==> b.workers[j] == Wake(s.workers[j])
  {
  }

  lemma SharedSame(s: Sys, n: Sys)
    requires n == s.(workers := n.workers, owner := n.owner, scheduler := n.scheduler, tasks := n.tasks)
    ensures Shared(n) == Shared(s).(tasks := n.tasks)
  {
  }

  lemma EngagedSame(s: Sys, n: Sys)
    requires n.pending == s.pending
    requires n.scheduler == s.scheduler || (s.scheduler.SAsleep? && n.scheduler.SLock?)
    ensures Engaged(s) ==> Engaged(n)
  {
  }

  /** What a step of worker `i` changes besides its own place and task. */
  lemma WorkerStepShape(o: Options, s: Sys, i: nat)
    requires i < |s.workers| == |s.tasks|
    ensures var n, local := WorkerStep(o, s, i), WorkerLocal(o, s.workers[i], s.tasks[i]);
      && |n.workers| == |s.workers| && n.workers[i] == local.0 && n.tasks == s.tasks[i := local.1]
      && n.scheduler == (if s.workers[i].WBroadcast? && s.scheduler.SAsleep? then SLock else s.scheduler)
      && Shared(n) == Shared(s).(tasks := n.tasks) && (Engaged(s) ==> Engaged(n)) && n.winner == s.winner
      && forall j :: 0 <= j < |s.workers| && j != i ==>
           n.workers[j] == s.workers[j] || n.workers[j] == Wake(s.workers[j])
  {
    BroadcastEffect(s);
    var n := WorkerStep(o, s, i);
    hide WorkerLocal;
    hide OwnerAfter;
    hide Broadcast;
    hide Wake;
    hide Engaged;
    hide Shared;
    assert n == s.(workers := n.workers, owner := n.owner, scheduler := n.scheduler, tasks := n.tasks);
    SharedSame(s, n);
    EngagedSame(s, n);
  }

  /** The winner's worker itself, on any of its steps. */
  lemma FlyingStep(o: Options, s: Sys, h: Head, i: nat)
    requires Inv(o, s, h) && Engaged(s) && i == s.winner && i < |s.workers| && WorkerEnabled(s, i)
    ensures var n := WorkerStep(o, s, i);
      && i < |h.tasks| && |n.workers| == |n.tasks| == |s.workers|
      && Flying(o, n.workers[i], n.tasks[i], n.scheduler, i, Started(h, i))
      && (n.tasks[i].state == Running ==> s.tasks[i].state == Running)
  {
    FlightFacts(o, s, h);
    WorkerStepShape(o, s, i);
    assert WorkerOK(o, s, h, i);
    var pc, t := s.workers[i], s.tasks[i];
    var started := Started(h, i);
    assert WorkerHolds(pc) ==> !SchedulerHolds(s.scheduler) by {
      assert s.owner == ByWorker(i) <==> WorkerHolds(pc);
    }
    CompensatesQuietly(o, s, h, i);
    assert LoopExact(o, started) && !Joined(s.scheduler, i);
    hide Core;
    hide Mutex;
    hide WorkerStep;
    hide Flying;
    hide WorkerLocal;
    hide SchedulerHolds;
    hide WorkerHolds;
    hide Started;
    hide UnitsToRun;
    hide LoopExact;
    hide HeadOK;
    if t.state == Running {
      StillAwake(o, s, pc, t, i, started);
      RunningMove(o, pc, t, s.scheduler, i, started);
    } else {
      SettledMove(o, pc, t, s.scheduler, WorkerStep(o, s, i).scheduler, i, started);
    }
    StillRunning(o, pc, t);
  }

  /** While the task is RUNNING its worker does not broadcast, so its step leaves the scheduler where it is. */
  lemma StillAwake(o: Options, s: Sys, pc: WorkerPc, t: Task, i: nat, started: Task)
    requires Flying(o, pc, t, s.scheduler, i, started) && t.state == Running
    ensures !pc.WBroadcast?
  {
    hide DoUnits;
    hide UnitsToRun;
  }

  lemma CompensatesQuietly(o: Options, s: Sys, h: Head, i: nat)
    requires Core(o, s.scheduler, Shared(s), h) && i < |s.tasks|
    ensures s.scheduler.SCompensate? ==> s.tasks[i].state != Running
  {
    assert s.scheduler.SCompensate? ==> Quiet(Shared(s)) && Shared(s).tasks[i] == s.tasks[i];
    hide Waiting;
  }

  lemma FlyingMove(o: Options, s: Sys, h: Head, i: nat)
    requires Inv(o, s, h) && Engaged(s) && i == s.winner && i < |s.workers| && WorkerEnabled(s, i)
    ensures Inv(o, WorkerStep(o, s, i), h)
  {
    WorkerKeepsMutex(o, s, i);
    WorkerStepShape(o, s, i);
    FlyingStep(o, s, h, i);
    var n := WorkerStep(o, s, i);
    CoreAfterFlight(o, s, n, h);
    hide Mutex;
    hide Core;
    hide HeadOK;
    hide WorkerStep;
    hide WorkerLocal;
    hide Flying;
    hide Engaged;
    hide Resting;
    hide Wake;
    forall j | 0 <= j < |n.workers|
      ensures WorkerOK(o, n, h, j)
    {
      assert WorkerOK(o, s, h, j);
      if j != i {
        RestingAfterWake(s.workers[j], s.tasks[j], s.scheduler, n.scheduler, j);
      }
    }
  }

  lemma StillRunning(o: Options, pc: WorkerPc, t: Task)
    ensures WorkerLocal(o, pc, t).1.state == Running ==> t.state == Running
  {
    hide Continues;
    hide Advance;
  }

  /** A move of the winner's worker keeps the shared part: it touches only the winner's task, never
      makes it RUNNING, and can at most wake the scheduler. */
  lemma CoreAfterFlight(o: Options, s: Sys, n: Sys, h: Head)
    requires Core(o, s.scheduler, Shared(s), h) && Engaged(s) && s.winner < |s.tasks|
    requires |n.tasks| == |s.tasks| && n.tasks == s.tasks[s.winner := n.tasks[s.winner]]
    requires n.scheduler == s.scheduler || (s.scheduler.SAsleep? && n.scheduler.SLock?)
    requires Shared(n) == Shared(s).(tasks := n.tasks)
    requires n.tasks[s.winner].state == Running ==> s.tasks[s.winner].state == Running
    ensures Core(o, n.scheduler, Shared(n), h)
  {
    hide Going;
    hide Chosen1;
    hide DrawnTask;
    hide NextSeed;
  }
}
