/** How free the threads are: which moves a run can make next, and how little one move does. */
module ProtocolBreadth {
  import opened Numbers
  import opened SeriesModel
  import opened TaskModel
  import opened Lottery
  import opened Sequential
  import opened Accounting
  import opened Protocol
  import opened ProtocolInvariant
  import opened ProtocolSafety
  import opened ProtocolMoves
  import opened ProtocolTheorems

  // Every thread that is not waiting for something can move, whatever the others could do.

  /** The scheduler's next action is to lock the mutex; `n` is the number of tasks. */
  predicate AboutToLock(pc: SchedulerPc, n: nat) {
    match pc
    case SLock | SStopLock | SStartLock => true
    case SFinishedScan(k) => k < n
    case SSum(k, _) => k < n
    case SWalk(k, _, _, _) => k < n
    case _ => false
  }

  /** A worker can move exactly when it is awake and alive, and the mutex is free, or its own, or not needed. */
  lemma WorkerFree(o: Options, s: Sys, i: nat)
    requires Mutex(s) && i < |s.workers|
    ensures Run(o, s, [MoveWorker(i)]) <==>
      && !s.workers[i].WAsleep? && !s.workers[i].WExited?
      && (s.owner == Free || s.owner == ByWorker(i) || s.workers[i].WCompute?)
  {
    SingleMove(o, s, MoveWorker(i));
    hide Run;
    hide SchedulerHolds;
    assert s.owner == ByWorker(i) <==> WorkerHolds(s.workers[i]);
  }

  /** So can the scheduler, which besides can wait for a worker to exit. */
  lemma SchedulerFree(o: Options, s: Sys)
    requires Mutex(s)
    ensures Run(o, s, [MoveScheduler]) <==>
      && !s.scheduler.SAsleep? && !s.scheduler.SDone?
      && (s.scheduler.SJoin? && s.scheduler.k < |s.workers| ==> s.workers[s.scheduler.k].WExited?)
      && (s.owner == Free || s.owner == ByScheduler || !AboutToLock(s.scheduler, |s.tasks|))
  {
    SingleMove(o, s, MoveScheduler);
    hide Run;
    hide WorkerHolds;
  }

  lemma SingleMove(o: Options, s: Sys, m: Move)
    ensures Run(o, s, [m]) <==> Enabled(s, m)
  {
    assert [m][1..] == [];
    assert Enabled(s, m) ==> Run(o, Next(o, s, m), []);
    hide Enabled;
    hide Next;
  }

  /** A run goes on with whatever its last state allows. */
  lemma {:induction false} RunExtends(o: Options, s: Sys, moves: seq<Move>, m: Move)
    requires Run(o, s, moves)
    ensures Run(o, s, moves + [m]) <==> Run(o, After(o, s, moves), [m])
    decreases moves
  {
    if moves == [] {
      assert moves + [m] == [m];
    } else {
      assert (moves + [m])[0] == moves[0] && (moves + [m])[1..] == moves[1..] + [m];
      RunExtends(o, Next(o, s, moves[0]), moves[1..], m);
      hide Next;
      hide Enabled;
    }
  }

  /**
   * All orders are runs: after any run from the start the next move can be that of any worker that is
   * awake and alive with the mutex free, its own or not needed; that of the scheduler under the same
   * terms; or the waking, for no reason, of any sleeper. Nothing else is asked of the other threads.
   */
  lemma EveryChoice(o: Options, tasks: seq<Task>, seed: bv32, moves: seq<Move>, i: nat)
    requires Initial(tasks) && Run(o, Init(tasks, seed), moves) && i < |tasks|
    ensures var s, e := Init(tasks, seed), After(o, Init(tasks, seed), moves);
      && |e.workers| == |e.tasks| == |tasks|
      && (Run(o, s, moves + [MoveWorker(i)]) <==>
            && !e.workers[i].WAsleep? && !e.workers[i].WExited?
            && (e.owner == Free || e.owner == ByWorker(i) || e.workers[i].WCompute?))
      && (Run(o, s, moves + [MoveScheduler]) <==>
            && !e.scheduler.SAsleep? && !e.scheduler.SDone?
            && (e.scheduler.SJoin? && e.scheduler.k < |tasks| ==> e.workers[e.scheduler.k].WExited?)
            && (e.owner == Free || e.owner == ByScheduler || !AboutToLock(e.scheduler, |tasks|)))
      && (Run(o, s, moves + [WakeWorker(i)]) <==> e.workers[i].WAsleep?)
      && (Run(o, s, moves + [WakeScheduler]) <==> e.scheduler.SAsleep?)
  {
    var s, e := Init(tasks, seed), After(o, Init(tasks, seed), moves);
    var h := Reachable(o, tasks, seed, moves);
    InvParts(o, e, h);
    SizesAfter(o, s, moves);
    SleeperFree(o, e, i);
    assert |s.tasks| == |tasks| && |s.workers| == |tasks|;
    hide *;
    RunExtends(o, s, moves, MoveWorker(i));
    RunExtends(o, s, moves, MoveScheduler);
    RunExtends(o, s, moves, WakeWorker(i));
    RunExtends(o, s, moves, WakeScheduler);
    WorkerFree(o, e, i);
    SchedulerFree(o, e);
  }

  lemma SleeperFree(o: Options, s: Sys, i: nat)
    requires i < |s.workers|
    ensures Run(o, s, [WakeWorker(i)]) <==> s.workers[i].WAsleep?
    ensures Run(o, s, [WakeScheduler]) <==> s.scheduler.SAsleep?
  {
    SingleMove(o, s, WakeWorker(i));
    SingleMove(o, s, WakeScheduler);
    hide Run;
  }

  lemma {:induction false} SizesAfter(o: Options, s: Sys, moves: seq<Move>)
    requires Mutex(s) && Run(o, s, moves)
    ensures |After(o, s, moves).tasks| == |s.tasks|
    decreases moves
  {
    if moves != [] {
      MutexKept(o, s, moves[0]);
      TasksKept(o, s, moves[0]);
      hide Next;
      hide Mutex;
      SizesAfter(o, Next(o, s, moves[0]), moves[1..]);
    }
  }

  lemma TasksKept(o: Options, s: Sys, m: Move)
    requires Mutex(s) && Enabled(s, m)
    ensures |Next(o, s, m).tasks| == |s.tasks|
  {
    if m.MoveScheduler? {
      SchedulerLocking(o, s);
    }
    hide SchedulerStep;
    hide WorkerStep;
  }

  /** At the start any thread can be the first to move. */
  lemma AnyoneFirst(o: Options, tasks: seq<Task>, seed: bv32, i: nat)
    requires i < |tasks|
    ensures Run(o, Init(tasks, seed), [MoveWorker(i)]) && Run(o, Init(tasks, seed), [MoveScheduler])
  {
    SingleMove(o, Init(tasks, seed), MoveWorker(i));
    SingleMove(o, Init(tasks, seed), MoveScheduler);
    hide Run;
  }

  /** A thread woken for no reason competes for the mutex at once. */
  lemma WokenCompetes(o: Options, s: Sys, i: nat)
    requires s.owner == Free && |s.workers| == |s.tasks|
    ensures i < |s.workers| && s.workers[i].WAsleep? ==> Run(o, s, [WakeWorker(i), MoveWorker(i)])
    ensures s.scheduler.SAsleep? ==> Run(o, s, [WakeScheduler, MoveScheduler])
  {
    if i < |s.workers| && s.workers[i].WAsleep? {
      assert [WakeWorker(i), MoveWorker(i)][1..] == [MoveWorker(i)];
      SingleMove(o, Next(o, s, WakeWorker(i)), MoveWorker(i));
    }
    if s.scheduler.SAsleep? {
      assert [WakeScheduler, MoveScheduler][1..] == [MoveScheduler];
      SingleMove(o, Next(o, s, WakeScheduler), MoveScheduler);
    }
    hide WorkerStep;
    hide SchedulerStep;
  }

  // One move is small.

  /** Where a worker goes from `pc` when its task is in `state`. */
  predicate WorkerSucceeds(state: State, pc: WorkerPc, next: WorkerPc) {
    match pc
    case WLock => next.WCheck?
    case WCheck =>
      if state == Ready then next.WAsleep? else if state == Running then next == WCompute(0) else next.WExited?
    case WCompute(run) => next == WCompute(run + 1) || next.WLockResult?
    case WLockResult => next.WStore?
    case WStore => next.WBroadcast?
    case WBroadcast => next.WUnlock?
    case WUnlock => next.WLock?
    case WAsleep => false
    case WExited => false
  }

  /** The way of a worker, one place at a time; a unit is run exactly on the way from one unit to the next. */
  lemma WorkerPath(o: Options, s: Sys, i: nat)
    requires i < |s.workers| == |s.tasks| && WorkerEnabled(s, i)
    ensures var n := WorkerStep(o, s, i);
      && WorkerSucceeds(s.tasks[i].state, s.workers[i], n.workers[i])
      && n.tasks[i].done == (if n.workers[i].WCompute? && s.workers[i].WCompute? then Wrap(s.tasks[i].done + 1)
                             else s.tasks[i].done)
      && (forall j :: 0 <= j < |s.tasks| && j != i ==> n.tasks[j] == s.tasks[j])
      && n.log == s.log && n.seed == s.seed && n.number == s.number
  {
    BroadcastEffect(s);
    hide Broadcast;
    hide Continues;
    hide Advance;
  }

  /**
   * No move does much: it changes at most one task, its state only inside the mover's critical section
   * and its work done only by one unit of its own worker; it writes at most one line.
   */
  lemma SmallMove(o: Options, s: Sys, m: Move, j: nat, k: nat)
    requires Mutex(s) && Enabled(s, m) && j < |s.tasks| && k < |s.tasks|
    ensures var n := Next(o, s, m);
      && |n.tasks| == |s.tasks|
      && (n.tasks[j] != s.tasks[j] && n.tasks[k] != s.tasks[k] ==> j == k)
      && (n.tasks[j] != s.tasks[j] ==> m == MoveWorker(j) || m == MoveScheduler)
      && (n.tasks[j].state != s.tasks[j].state ==>
            (m == MoveWorker(j) && s.owner == ByWorker(j)) || (m == MoveScheduler && s.owner == ByScheduler))
      && (n.tasks[j].done != s.tasks[j].done ==>
            m == MoveWorker(j) && s.workers[j].WCompute? && n.tasks[j].done == Wrap(s.tasks[j].done + 1))
      && s.log <= n.log && |n.log| <= |s.log| + 1
  {
    match m
    case MoveScheduler => SmallSchedulerMove(o, s, j, k);
    case MoveWorker(i) => SmallWorkerMove(o, s, i, j);
    case WakeScheduler =>
    case WakeWorker(i) =>
  }

  lemma SmallWorkerMove(o: Options, s: Sys, i: nat, j: nat)
    requires Mutex(s) && i < |s.workers| && WorkerEnabled(s, i) && j < |s.tasks|
    ensures var n := WorkerStep(o, s, i);
      && (j != i ==> n.tasks[j] == s.tasks[j]) && n.log == s.log
      && (n.tasks[j].state != s.tasks[j].state ==> s.owner == ByWorker(j))
      && (n.tasks[j].done != s.tasks[j].done ==>
            s.workers[j].WCompute? && n.tasks[j].done == Wrap(s.tasks[j].done + 1))
  {
    WorkerPath(o, s, i);
    assert s.owner == ByWorker(i) <==> WorkerHolds(s.workers[i]);
    StateStored(o, s, i);
    hide WorkerStep;
    hide Mutex;
  }

  lemma StateStored(o: Options, s: Sys, i: nat)
    requires i < |s.workers| == |s.tasks|
    ensures WorkerStep(o, s, i).tasks[i].state != s.tasks[i].state ==> s.workers[i].WStore?
  {
    hide Broadcast;
    hide Continues;
    hide Advance;
  }

  /** What any step of the scheduler keeps small. */
  predicate Small(s: Sys, n: Sys, j: nat, k: nat)
    requires j < |s.tasks| && k < |s.tasks|
  {
    && |n.tasks| == |s.tasks|
    && (n.tasks[j] != s.tasks[j] && n.tasks[k] != s.tasks[k] ==> j == k)
    && (n.tasks[j].state != s.tasks[j].state ==> s.owner == ByScheduler)
    && n.tasks[j].done == s.tasks[j].done
    && s.log <= n.log && |n.log| <= |s.log| + 1
  }

  lemma SmallReport(o: Options, s: Sys, j: nat, k: nat)
    requires j < |s.tasks| && k < |s.tasks|
    ensures Small(s, ReportStep(o, s), j, k)
  {
    hide ReportedEvent;
    hide CompensatedTickets;
  }

  lemma SmallStop(o: Options, s: Sys, j: nat, k: nat)
    requires j < |s.tasks| && k < |s.tasks| && (s.scheduler.SStopScan? ==> s.owner == ByScheduler)
    ensures Small(s, StopStep(o, s), j, k)
  {
    BroadcastEffect(s);
    hide Broadcast;
  }

  lemma SmallStart(s: Sys, j: nat, k: nat)
    requires j < |s.tasks| && k < |s.tasks| && (s.scheduler.SStart? ==> s.owner == ByScheduler)
    ensures Small(s, StartStep(s), j, k)
  {
    BroadcastEffect(s);
    hide Broadcast;
    hide ChosenEvent;
    hide Wrap;
  }

  lemma SmallSchedulerMove(o: Options, s: Sys, j: nat, k: nat)
    requires Mutex(s) && SchedulerEnabled(s) && j < |s.tasks| && k < |s.tasks|
    ensures Small(s, SchedulerStep(o, s), j, k)
  {
    assert s.scheduler.SStopScan? || s.scheduler.SStart? ==> s.owner == ByScheduler;
    SmallReport(o, s, j, k);
    SmallStop(o, s, j, k);
    SmallStart(s, j, k);
    hide Mutex;
    hide ReportStep;
    hide StopStep;
    hide StartStep;
    hide Draw;
    hide SchedulerEnabled;
  }

  /** The move is a broadcast. */
  predicate IsBroadcast(s: Sys, m: Move) {
    match m
    case MoveScheduler => s.scheduler.SStartBroadcast? || s.scheduler.SStopBroadcast?
    case MoveWorker(i) => i < |s.workers| && s.workers[i].WBroadcast?
    case _ => false
  }

  /** A broadcast wakes everybody, not just the thread it is meant for. */
  lemma BroadcastWakesAll(o: Options, s: Sys, m: Move)
    requires Mutex(s) && Enabled(s, m) && IsBroadcast(s, m)
    ensures var n := Next(o, s, m);
      !n.scheduler.SAsleep? && forall i :: 0 <= i < |n.workers| ==> !n.workers[i].WAsleep?
  {
    BroadcastEffect(s);
    hide Broadcast;
    hide Continues;
    hide Advance;
  }
}
