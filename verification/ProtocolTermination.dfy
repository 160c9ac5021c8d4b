/**
 * Every run is finite: an explicit bound on its length in the number of tasks, their total work and
 * the number of spurious wake-ups.
 */
module ProtocolTermination {
  import opened Numbers
  import SeriesModel
  import opened TaskModel
  import opened Lottery
  import opened Sequential
  import opened Accounting
  import opened Protocol
  import opened ProtocolInvariant
  import opened ProtocolSafety
  import opened ProtocolMoves
  import opened ProtocolTheorems

  // How far each thread still is from its next stop. `n` is the number of tasks.

  /** What a broadcast can add: two steps for each sleeping worker, n + 2 for the scheduler. */
  function BroadcastCost(n: nat): nat {
    3 * n + 3
  }

  function WorkerRank(n: nat, pc: WorkerPc, running: bool): nat {
    var stored := BroadcastCost(n) + 4;
    match pc
    case WAsleep => if running then stored + 3 else 0
    case WExited => 0
    case WCheck => if running then stored + 4 else 1
    case WLock => if running then stored + 5 else 2
    case WCompute(_) => stored + 3
    case WLockResult => stored + 2
    case WStore => stored + 1
    case WBroadcast => stored
    case WUnlock => 3
  }

  function SchedulerRank(n: nat, pc: SchedulerPc): int {
    match pc
    case SDone => 0
    case SJoin(k) => 1 + n - k
    case SStart => 1
    case SStartLock => 2
    case SAnnounce(_, _) => 3
    case SWalk(k, _, _, _) => 4 + n - k
    case SDraw(_) => n + 5
    case SSum(k, _) => n + 6 + n - k
    case SFinishedScan(k) => 2 * n + 7 + n - k
    case SStopUnlock => n + 2
    case SStopBroadcast => 4 * n + 6
    case SStopScan(k) => 4 * n + 7 + n - k
    case SStopLock => 5 * n + 8
    case SCap => 5 * n + 9
    case SReport => 5 * n + 10
    case SCompensate => 5 * n + 11
    case SUnlock => 5 * n + 12
    case SAsleep => 5 * n + 12
    case SScan(k) => 5 * n + 13 + n - k
    case SLock => 6 * n + 14
    case SCount => 6 * n + 15
    case SStartUnlock => 6 * n + 16
    case SStartBroadcast => 9 * n + 20
  }

  /** What one dispatch can cost besides its units; paid for by the units the dispatch will run. */
  function DispatchCost(n: nat): nat {
    12 * n + 40
  }

  function RankOf(n: nat): ((WorkerPc, Task)) -> int {
    (p: (WorkerPc, Task)) => WorkerRank(n, p.0, p.1.state == Running)
  }

  function Threads(s: Sys): seq<(WorkerPc, Task)>
    requires |s.workers| == |s.tasks|
  {
    seq(|s.workers|, i requires 0 <= i < |s.workers| => (s.workers[i], s.tasks[i]))
  }

  function WorkersRank(s: Sys): int
    requires |s.workers| == |s.tasks|
  {
    Total(RankOf(|s.tasks|), Threads(s))
  }

  /** The units that will be left once the dispatch in progress is over. */
  function UnitsAhead(o: Options, s: Sys, h: Head): int {
    if (Engaged(s) || s.scheduler.SReport?) && Drawable(h) then UnitsLeft(Iterate(o, h).tasks)
    else UnitsLeft(h.tasks)
  }

  function Measure(o: Options, s: Sys, h: Head): int
    requires |s.workers| == |s.tasks|
  {
    DispatchCost(|s.tasks|) * UnitsAhead(o, s, h) + UnitsLeft(s.tasks)
    + SchedulerRank(|s.tasks|, s.scheduler) + WorkersRank(s)
  }

  // Sums of ranks.

  /** If no summand grows by more than `c`, except that the one at `i` changes by `d`, so does the sum. */
  lemma {:induction false} RanksShift(n: nat, a: seq<(WorkerPc, Task)>, b: seq<(WorkerPc, Task)>, i: nat, c: nat,
                                      d: int, k: nat)
    requires |a| == |b| && k <= |a|
    requires forall j :: 0 <= j < |a| && j != i ==> RankOf(n)(b[j]) <= RankOf(n)(a[j]) + c
    requires i < |a| ==> RankOf(n)(b[i]) <= RankOf(n)(a[i]) + d
    ensures Total(RankOf(n), b, k) <= Total(RankOf(n), a, k) + c * (|a| - k) + (if k <= i < |a| then d - c else 0)
    decreases |a| - k
  {
    if k < |a| {
      RanksShift(n, a, b, i, c, d, k + 1);
      assert c * (|a| - k) == c * (|a| - (k + 1)) + c;
    }
  }

  lemma {:induction false} RanksNonNegative(n: nat, a: seq<(WorkerPc, Task)>, k: nat)
    requires k <= |a|
    ensures 0 <= Total(RankOf(n), a, k)
    decreases |a| - k
  {
    if k < |a| {
      RanksNonNegative(n, a, k + 1);
    }
  }

  // Worker moves.

  /** A worker about to run a unit has one left to run. */
  lemma RoomForUnit(o: Options, s: Sys, h: Head, i: nat)
    requires Inv(o, s, h) && i < |s.workers| && s.workers[i].WCompute?
    requires Continues(o, s.tasks[i], s.workers[i].run)
    ensures s.tasks[i].done < s.tasks[i].work
  {
    SingleOwner(o, s, h);
    assert OwnsFields(s.workers[i]);
    if !(Engaged(s) && i == s.winner) {
      NotRunning(o, s, h, i);
    }
    FlightFacts(o, s, h);
    assert WorkerOK(o, s, h, i);
    assert TaskOK(o, h.tasks[i]);
    var t := Started(h, i);
    assert t.done == h.tasks[i].done && t.work == h.tasks[i].work && t.done <= t.work;
    assert NoMode(o, t) ==> t.done < t.work;
    var run := s.workers[i].run;
    hide Core;
    hide Mutex;
    hide StartRunning;
    hide TaskOK;
    hide HeadOK;
    UnitsToRunExact(o, t, run + 1);
    DoUnitsShape(t, run);
  }

  /** What a worker's own step costs, against the units it has left. */
  lemma LocalRank(o: Options, n: nat, pc: WorkerPc, t: Task)
    requires !pc.WAsleep? && !pc.WExited?
    requires OwnsFields(pc) ==> t.state == Running
    requires pc.WBroadcast? || pc.WUnlock? ==> t.state != Running
    requires pc.WCompute? && Continues(o, t, pc.run) ==> t.done < t.work
    ensures var l := WorkerLocal(o, pc, t);
      WorkerRank(n, l.0, l.1.state == Running) + WorkLeft(l.1) + (if pc.WBroadcast? then BroadcastCost(n) else 0)
      < WorkerRank(n, pc, t.state == Running) + WorkLeft(t)
  {
    hide Continues;
    hide SeriesModel.Advance;
  }

  lemma WorkerDecreases(o: Options, s: Sys, h: Head, i: nat)
    requires Inv(o, s, h) && i < |s.workers| && WorkerEnabled(s, i)
    ensures var n := WorkerStep(o, s, i);
      |n.workers| == |n.tasks| && Measure(o, n, h) < Measure(o, s, h)
  {
    hide *;
    InvParts(o, s, h);
    var size := |s.tasks|;
    var pc, t := s.workers[i], s.tasks[i];
    var n := WorkerStep(o, s, i);
    var l := WorkerLocal(o, pc, t);
    EnabledMoves(s, i);
    SingleOwner(o, s, h);
    SettledBroadcasts(o, s, h, i);
    if pc.WCompute? && Continues(o, t, pc.run) {
      RoomForUnit(o, s, h, i);
    }
    LocalRank(o, size, pc, t);
    WorkerMoveFrame(o, s, h, i);
    var c := if pc.WBroadcast? then 2 else 0;
    var d := WorkerRank(size, l.0, l.1.state == Running) - WorkerRank(size, pc, t.state == Running);
    TotalUpdate(WorkLeft, s.tasks, i, l.1);
    WakeRanks(size, s, n, i, c);
    ThreadRank(size, s, i);
    ThreadRank(size, n, i);
    RanksOf(s);
    RanksOf(n);
    RanksShift(size, Threads(s), Threads(n), i, c, d, 0);
    MeasureIs(o, s, h);
    MeasureIs(o, n, h);
    SleeperRank(size);
    WorkerArithmetic(size, c);
  }

  lemma EnabledMoves(s: Sys, i: nat)
    requires i < |s.workers| && WorkerEnabled(s, i)
    ensures !s.workers[i].WAsleep? && !s.workers[i].WExited?
  {
  }

  lemma SleeperRank(n: nat)
    ensures SchedulerRank(n, SLock) == SchedulerRank(n, SAsleep) + n + 2
  {
  }

  lemma ThreadRank(n: nat, s: Sys, i: nat)
    requires |s.workers| == |s.tasks| && i < |s.tasks|
    ensures |Threads(s)| == |s.tasks|
    ensures RankOf(n)(Threads(s)[i]) == WorkerRank(n, s.workers[i], s.tasks[i].state == Running)
  {
    hide WorkerRank;
  }

  lemma RanksOf(s: Sys)
    requires |s.workers| == |s.tasks|
    ensures |Threads(s)| == |s.tasks| && WorkersRank(s) == Total(RankOf(|s.tasks|), Threads(s))
  {
    hide WorkerRank;
  }

  /** A broadcast costs two steps for every worker and the scheduler's scan, and pays for them. */
  lemma WorkerArithmetic(size: nat, c: nat)
    requires c == 0 || c == 2
    ensures c * (size - 0) + (0 - c) + (if c == 2 then size + 2 else 0) <= if c == 2 then BroadcastCost(size) else 0
  {
  }

  lemma SettledBroadcasts(o: Options, s: Sys, h: Head, i: nat)
    requires Inv(o, s, h) && i < |s.workers|
    ensures s.workers[i].WBroadcast? || s.workers[i].WUnlock? ==> s.tasks[i].state != Running
  {
    assert WorkerOK(o, s, h, i);
    hide Core;
    hide DoUnits;
    hide UnitsToRun;
    hide StartRunning;
  }

  lemma WorkerMoveFrame(o: Options, s: Sys, h: Head, i: nat)
    requires Inv(o, s, h) && i < |s.workers| && WorkerEnabled(s, i)
    ensures var n := WorkerStep(o, s, i);
      var l := WorkerLocal(o, s.workers[i], s.tasks[i]);
      && |n.workers| == |n.tasks| == |s.tasks|
      && n.tasks == s.tasks[i := l.1] && n.workers[i] == l.0
      && (forall j :: 0 <= j < |s.workers| && j != i ==>
           n.workers[j] == if s.workers[i].WBroadcast? then Wake(s.workers[j]) else s.workers[j])
      && (if s.workers[i].WBroadcast? && s.scheduler.SAsleep? then n.scheduler == SLock
          else n.scheduler == s.scheduler)
      && UnitsAhead(o, n, h) == UnitsAhead(o, s, h)
  {
    BroadcastEffect(s);
    SleepsPending(o, s.scheduler, Shared(s), h);
    assert Shared(s).pending == s.pending && |s.workers| == |s.tasks|;
    hide Inv;
    hide Broadcast;
    hide WorkerLocal;
    hide OwnerAfter;
    hide Wake;
    hide UnitsLeft;
    hide Iterate;
  }

  lemma WakeRanks(size: nat, s: Sys, n: Sys, i: nat, c: nat)
    requires |n.workers| == |n.tasks| == |s.tasks| == |s.workers| == size && i < size
    requires forall j :: 0 <= j < size && j != i ==>
      (n.tasks[j] == s.tasks[j] && n.workers[j] == if c == 2 then Wake(s.workers[j]) else s.workers[j])
    ensures forall j :: 0 <= j < size && j != i ==>
      RankOf(size)(Threads(n)[j]) <= RankOf(size)(Threads(s)[j]) + c
  {
  }

  // Scheduler moves.

  /** Along every path of the scheduler its rank drops, by more than the sleepers a broadcast wakes. */
  lemma PathDescends(n: nat, pc: SchedulerPc, next: SchedulerPc)
    requires Succeeds(n, pc, next) && !pc.SStart? && !pc.SDone?
    ensures SchedulerRank(n, next) + (if pc.SStopBroadcast? || pc.SStartBroadcast? then 2 * n else 0)
          < SchedulerRank(n, pc)
  {
  }

  /** Only storing RUNNING changes what the measure counts of a task. */
  predicate SameForMeasure(t: Task, u: Task) {
    t.done == u.done && t.work == u.work && (t.state == Running <==> u.state == Running)
  }

  predicate Broadcasts(pc: SchedulerPc) {
    pc.SStopBroadcast? || pc.SStartBroadcast?
  }

  /** What most scheduler steps leave alone: all tasks, all workers a broadcast does not wake, the pending flag. */
  predicate Untouched(s: Sys, n: Sys) {
    && n.tasks == s.tasks && n.workers == (if Broadcasts(s.scheduler) then Broadcast(s).workers else s.workers)
    && (n.pending <==> (s.scheduler.SCount? || (s.pending && !(s.scheduler.SReport? && s.winner < |s.tasks|))))
  }

  lemma ReportUntouched(o: Options, s: Sys)
    requires s.scheduler.SReport?
    ensures Untouched(s, ReportStep(o, s))
  {
    hide ReportedEvent;
    hide Broadcast;
  }

  lemma StopUntouched(o: Options, s: Sys)
    requires Stopping(s.scheduler) && !s.scheduler.SStopScan?
    ensures Untouched(s, StopStep(o, s))
  {
    BroadcastEffect(s);
    hide Broadcast;
  }

  lemma DrawUntouched(s: Sys)
    requires Drawing(s.scheduler)
    ensures Untouched(s, DrawStep(s))
  {
    hide Draw;
    hide Broadcast;
    match s.scheduler
    case SFinishedScan(k) =>
    case SSum(k, sum) =>
    case SDraw(sum) =>
    case SWalk(k, passed, sum, ticket) =>
  }

  lemma StartUntouched(s: Sys)
    requires s.scheduler.SAnnounce? || s.scheduler.SStartLock? || s.scheduler.SStartBroadcast?
          || s.scheduler.SStartUnlock? || s.scheduler.SCount?
    ensures Untouched(s, StartStep(s))
  {
    BroadcastEffect(s);
    hide Broadcast;
    hide ChosenEvent;
  }

  lemma TasksUntouched(o: Options, s: Sys)
    requires !s.scheduler.SStart? && !s.scheduler.SCompensate? && !s.scheduler.SStopScan?
    ensures Untouched(s, SchedulerStep(o, s))
  {
    hide ReportStep;
    hide StopStep;
    hide DrawStep;
    hide StartStep;
    hide Broadcast;
    match s.scheduler
    case SReport => ReportUntouched(o, s);
    case SCap | SStopLock | SStopBroadcast | SStopUnlock => StopUntouched(o, s);
    case SFinishedScan(_) | SSum(_, _) | SDraw(_) | SWalk(_, _, _, _) => DrawUntouched(s);
    case SAnnounce(_, _) | SStartLock | SStartBroadcast | SStartUnlock | SCount => StartUntouched(s);
    case _ =>
  }

  lemma SchedulerTaskFrame(o: Options, s: Sys)
    requires !s.scheduler.SStart? && |s.workers| == |s.tasks|
    ensures var n := SchedulerStep(o, s);
      && |n.tasks| == |s.tasks|
      && (forall j :: 0 <= j < |s.tasks| ==> SameForMeasure(s.tasks[j], n.tasks[j]))
      && n.workers == (if Broadcasts(s.scheduler) then Broadcast(s).workers else s.workers)
  {
    hide CompensatedTickets;
    if !s.scheduler.SCompensate? && !s.scheduler.SStopScan? {
      TasksUntouched(o, s);
      hide SchedulerStep;
    }
  }

  lemma {:induction false} UnitsSame(ts: seq<Task>, us: seq<Task>, k: nat)
    requires |ts| == |us| && k <= |ts|
    requires forall j :: 0 <= j < |ts| ==> SameForMeasure(ts[j], us[j])
    ensures Total(WorkLeft, ts, k) == Total(WorkLeft, us, k)
    decreases |ts| - k
  {
    if k < |ts| {
      assert SameForMeasure(ts[k], us[k]);
      UnitsSame(ts, us, k + 1);
    }
  }

  /** The dispatch is under way, or its result not yet reported. */
  predicate Busy(s: Sys) {
    Engaged(s) || s.scheduler.SReport?
  }

  lemma BusySame(size: nat, s: Sys, n: Sys)
    requires Succeeds(size, s.scheduler, n.scheduler) && !s.scheduler.SStart? && !s.scheduler.SReport?
    requires n.pending == (s.pending || s.scheduler.SCount?)
    requires s.scheduler.SUnlock? ==> (n.scheduler.SCompensate? <==> s.pending)
    requires s.scheduler.SCompensate? ==> s.pending
    ensures Busy(n) <==> Busy(s)
  {
  }

  lemma PendingStep(o: Options, s: Sys)
    requires !s.scheduler.SStart? && !s.scheduler.SReport?
    ensures var n := SchedulerStep(o, s);
      && n.pending == (s.pending || s.scheduler.SCount?)
      && (s.scheduler.SUnlock? ==> (n.scheduler.SCompensate? <==> s.pending))
  {
    if s.scheduler.SCompensate? || s.scheduler.SStopScan? {
      hide Compensate;
      hide ShutDown;
    } else {
      TasksUntouched(o, s);
      assert s.scheduler.SUnlock? ==> SchedulerStep(o, s) == WaitStep(s);
      hide SchedulerStep;
    }
  }

  lemma SchedulerAhead(o: Options, s: Sys, h: Head)
    requires Inv(o, s, h) && SchedulerEnabled(s) && !s.scheduler.SStart?
    ensures UnitsAhead(o, SchedulerStep(o, s), NextHead(o, s, h, MoveScheduler)) == UnitsAhead(o, s, h)
  {
    NeverStalls(o, s, h);
    var n := SchedulerStep(o, s);
    if s.scheduler.SReport? {
      assert Going(o, h) && n.scheduler.SCap?;
    } else {
      assert s.scheduler.SCompensate? ==> Shared(s).pending && s.pending;
      PendingStep(o, s);
      hide SchedulerStep;
      hide Inv;
      BusySame(|s.tasks|, s, n);
      hide Succeeds;
      hide Engaged;
    }
    hide Iterate;
    hide UnitsLeft;
    hide Drawable;
    hide Inv;
    hide SchedulerStep;
  }

  lemma WakeAllRanks(size: nat, s: Sys, n: Sys, c: nat)
    requires |n.workers| == |n.tasks| == |s.tasks| == |s.workers| == size && (c == 0 || c == 2)
    requires forall j :: 0 <= j < size ==> SameForMeasure(s.tasks[j], n.tasks[j])
    requires n.workers == if c == 2 then Broadcast(s).workers else s.workers
    ensures WorkersRank(n) <= WorkersRank(s) + c * size
  {
    var a, b := Threads(s), Threads(n);
    forall j | 0 <= j < size
      ensures RankOf(size)(b[j]) <= RankOf(size)(a[j]) + c
    {
      assert SameForMeasure(s.tasks[j], n.tasks[j]);
    }
    hide WorkerRank;
    RanksShift(size, a, b, size, c, 0, 0);
  }

  lemma SchedulerDecreases(o: Options, s: Sys, h: Head)
    requires Inv(o, s, h) && SchedulerEnabled(s) && !s.scheduler.SStart?
    ensures var n := SchedulerStep(o, s);
      |n.workers| == |n.tasks| && Measure(o, n, NextHead(o, s, h, MoveScheduler)) < Measure(o, s, h)
  {
    var n := SchedulerStep(o, s);
    NeverStalls(o, s, h);
    SchedulerAhead(o, s, h);
    SchedulerTaskFrame(o, s);
    PathDescends(|s.tasks|, s.scheduler, n.scheduler);
    UnitsSame(s.tasks, n.tasks, 0);
    hide SchedulerStep;
    hide Inv;
    hide SchedulerRank;
    hide NextHead;
    hide UnitsAhead;
    var c := if Broadcasts(s.scheduler) then 2 else 0;
    assert |n.workers| == |s.workers|;
    WakeAllRanks(|s.tasks|, s, n, c);
    hide WorkersRank;
    hide Succeeds;
    hide Broadcast;
  }

  lemma StartAhead(o: Options, s: Sys, h: Head)
    requires Inv(o, s, h) && s.scheduler.SStart?
    ensures UnitsAhead(o, StartStep(s), h) <= UnitsAhead(o, s, h) - 1
  {
    StartCore(o, s, h);
    assert Going(o, h) && HeadOK(o, h);
    IterateOK(o, h);
    assert Engaged(StartStep(s)) && !Engaged(s);
    hide Inv;
    hide StartStep;
    hide Iterate;
    hide UnitsLeft;
    hide Engaged;
    hide HeadOK;
  }

  /** Starting a dispatch costs what its first unit pays for. */
  lemma StartDecreases(o: Options, s: Sys, h: Head)
    requires Inv(o, s, h) && s.scheduler.SStart?
    ensures var n := SchedulerStep(o, s);
      |n.workers| == |n.tasks| && Measure(o, n, h) < Measure(o, s, h)
  {
    hide *;
    InvParts(o, s, h);
    StartCore(o, s, h);
    StartAhead(o, s, h);
    StartShape(o, s, h);
    var n := StartStep(s);
    var w, size := s.winner, |s.tasks|;
    TotalUpdate(WorkLeft, s.tasks, w, n.tasks[w]);
    StartRanks(s, n, w);
    StartArithmetic(size, UnitsAhead(o, n, h), UnitsAhead(o, s, h), WorkersRank(n), WorkersRank(s));
    MeasureIs(o, s, h);
    MeasureIs(o, n, h);
  }

  lemma StartShape(o: Options, s: Sys, h: Head)
    requires s.scheduler.SStart? && s.winner < |s.tasks| == |h.tasks|
    ensures SchedulerStep(o, s) == StartStep(s)
    ensures SchedulerRank(|s.tasks|, s.scheduler) == 1
    ensures SchedulerRank(|s.tasks|, SStartBroadcast) == 9 * |s.tasks| + 20
    ensures Started(h, s.winner) == StartRunning(h.tasks[s.winner], h.number)
    ensures WorkLeft(StartRunning(h.tasks[s.winner], h.number)) == WorkLeft(h.tasks[s.winner])
  {
    hide StartStep;
  }

  lemma MeasureIs(o: Options, s: Sys, h: Head)
    requires |s.workers| == |s.tasks|
    ensures Measure(o, s, h) ==
      DispatchCost(|s.tasks|) * UnitsAhead(o, s, h) + Total(WorkLeft, s.tasks)
      + SchedulerRank(|s.tasks|, s.scheduler) + WorkersRank(s)
  {
    hide UnitsAhead;
    hide WorkersRank;
    hide SchedulerRank;
  }

  lemma StartArithmetic(size: nat, ahead: int, before: int, rank: int, rankBefore: int)
    requires ahead <= before - 1 && rank <= rankBefore + BroadcastCost(size) + 9
    ensures DispatchCost(size) * ahead + 9 * size + 20 + rank < DispatchCost(size) * before + 1 + rankBefore
  {
    ProductDrops(DispatchCost(size), ahead, before - 1 - ahead);
  }

  lemma StartRanks(s: Sys, n: Sys, w: nat)
    requires |s.workers| == |s.tasks| == |n.tasks| && w < |s.tasks| && n.workers == s.workers
    requires n.tasks == s.tasks[w := n.tasks[w]]
    ensures WorkersRank(n) <= WorkersRank(s) + BroadcastCost(|s.tasks|) + 9
  {
    var size := |s.tasks|;
    var cost := BroadcastCost(size) + 9;
    forall j | 0 <= j < size && j != w
      ensures RankOf(size)(Threads(n)[j]) <= RankOf(size)(Threads(s)[j]) + 0
    {
    }
    assert RankOf(size)(Threads(n)[w]) <= RankOf(size)(Threads(s)[w]) + cost;
    hide WorkerRank;
    RanksShift(size, Threads(s), Threads(n), w, 0, cost, 0);
  }

  lemma ProductDrops(c: nat, a: int, d: nat)
    ensures c * a <= c * (a + 1 + d) - c
  {
    assert c * (a + 1 + d) == c * a + c + c * d;
    assert c * d >= 0;
  }

  // Spurious wake-ups.

  lemma WakeAhead(o: Options, s: Sys, h: Head, m: Move)
    requires Inv(o, s, h) && Spurious(m) && Enabled(s, m)
    ensures UnitsAhead(o, Next(o, s, m), h) == UnitsAhead(o, s, h)
  {
    WakeCore(o, s, h, m);
    assert !s.scheduler.SReport? || Next(o, s, m).scheduler == s.scheduler;
    hide Next;
    hide Inv;
    hide Core;
    hide Engaged;
    hide UnitsLeft;
    hide Iterate;
  }

  /** A sleeper that wakes for no reason has two steps, or the whole scan, before it sleeps again. */
  lemma WakeCosts(o: Options, s: Sys, h: Head, m: Move)
    requires Inv(o, s, h) && Spurious(m) && Enabled(s, m)
    ensures var n := Next(o, s, m);
      |n.workers| == |n.tasks| == |s.tasks| && Measure(o, n, h) <= Measure(o, s, h) + |s.tasks| + 2
  {
    assert |s.workers| == |s.tasks|;
    hide Inv;
    WakeAhead(o, s, h, m);
    hide UnitsAhead;
    WakeRank(s, Next(o, s, m), m);
    hide WorkersRank;
    hide UnitsLeft;
  }

  lemma WakeRank(s: Sys, n: Sys, m: Move)
    requires Spurious(m) && |s.workers| == |s.tasks|
    requires n.tasks == s.tasks && |n.workers| == |s.workers|
    requires m.WakeScheduler? ==> n.workers == s.workers
    requires m.WakeWorker? ==> m.i < |s.workers| && s.workers[m.i].WAsleep? && n.workers == s.workers[m.i := WLock]
    ensures WorkersRank(n) <= WorkersRank(s) + (if m.WakeWorker? then 2 else 0)
  {
    var size := |s.tasks|;
    var i := if m.WakeWorker? then m.i else size;
    forall j | 0 <= j < size && j != i
      ensures RankOf(size)(Threads(n)[j]) <= RankOf(size)(Threads(s)[j]) + 0
    {
    }
    assert i < size ==> RankOf(size)(Threads(n)[i]) <= RankOf(size)(Threads(s)[i]) + 2;
    hide WorkerRank;
    RanksShift(size, Threads(s), Threads(n), i, 0, 2, 0);
  }

  lemma MoveCosts(o: Options, s: Sys, h: Head, m: Move)
    requires Inv(o, s, h) && Enabled(s, m)
    ensures var n := Next(o, s, m);
      && |n.workers| == |n.tasks| == |s.tasks|
      && (if Spurious(m) then Measure(o, n, NextHead(o, s, h, m)) <= Measure(o, s, h) + |s.tasks| + 2
          else Measure(o, n, NextHead(o, s, h, m)) < Measure(o, s, h))
  {
    hide Inv;
    hide SchedulerStep;
    hide WorkerStep;
    hide Measure;
    hide Iterate;
    SizesKept(o, s, h, m);
    match m
    case MoveScheduler =>
      if s.scheduler.SStart? {
        StartDecreases(o, s, h);
      } else {
        SchedulerDecreases(o, s, h);
      }
    case MoveWorker(i) => WorkerDecreases(o, s, h, i);
    case WakeScheduler => WakeCosts(o, s, h, m);
    case WakeWorker(_) => WakeCosts(o, s, h, m);
  }

  lemma SizesKept(o: Options, s: Sys, h: Head, m: Move)
    requires Inv(o, s, h) && Enabled(s, m)
    ensures |Next(o, s, m).workers| == |Next(o, s, m).tasks| == |s.tasks| == |s.workers|
  {
    MutexKept(o, s, m);
    if m.MoveScheduler? {
      SchedulerLocking(o, s);
    }
    hide Core;
    hide SchedulerStep;
    hide WorkersOK;
  }

  // The measure is never negative.

  lemma DoneWithinWork(o: Options, s: Sys, h: Head, i: nat)
    requires Inv(o, s, h) && i < |s.tasks|
    ensures s.tasks[i].done <= s.tasks[i].work
  {
    assert TaskOK(o, h.tasks[i]);
    if Engaged(s) && i == s.winner {
      FlightFacts(o, s, h);
      assert WorkerOK(o, s, h, i);
      var t := Started(h, i);
      var all := UnitsToRun(o, t);
      var run := if s.tasks[i].state == Running then UnitsSoFar(s.workers[i], all) else all;
      assert t.done <= t.work && (NoMode(o, t) ==> t.done < t.work) && run <= all;
      UnitsToRunExact(o, t, run);
      DoUnitsShape(t, run);
      hide Core;
      hide StartRunning;
      hide UnitsToRun;
      hide DoUnits;
    } else {
      DoneOutsideFlight(o, s.scheduler, Shared(s), h, i);
    }
  }

  lemma DoneOutsideFlight(o: Options, pc: SchedulerPc, d: Sys, h: Head, i: nat)
    requires Core(o, pc, d, h) && HeadOK(o, h) && i < |d.tasks| == |h.tasks|
    requires !(Engaged(d.(scheduler := pc)) && i == d.winner)
    ensures d.tasks[i].done <= d.tasks[i].work
  {
    DoneAtHead(o, h, i);
    hide DrawnTask;
    hide NextSeed;
    hide DrawnTicket;
    hide Total;
    hide WinnerFrom;
    hide HeadOK;
    hide Iterate;
    hide Stops;
    if pc.SReport? {
      ReportAfterIteration(o, d, h);
      DoneAtHead(o, Iterate(o, h), i);
    }
  }

  lemma DoneAtHead(o: Options, h: Head, i: nat)
    requires HeadOK(o, h) && i < |h.tasks|
    ensures h.tasks[i].done <= h.tasks[i].work
  {
    assert TaskOK(o, h.tasks[i]);
    hide Progress;
  }

  lemma ReportAfterIteration(o: Options, d: Sys, h: Head)
    requires Core(o, SReport, d, h) && HeadOK(o, h)
    ensures Drawable(h) && d.tasks == Iterate(o, h).tasks && HeadOK(o, Iterate(o, h))
  {
    IterateOK(o, h);
    hide HeadOK;
    hide Iterate;
    hide Drawable;
  }

  lemma RankNonNegative(o: Options, s: Sys, h: Head)
    requires Inv(o, s, h)
    ensures 0 <= SchedulerRank(|s.tasks|, s.scheduler)
  {
    assert Shared(s).tasks == s.tasks;
    var pc := s.scheduler;
    assert (pc.SScan? || pc.SStopScan? || pc.SFinishedScan? || pc.SSum? || pc.SWalk? || pc.SJoin?)
      ==> pc.k <= |s.tasks|;
    hide Core;
  }

  lemma MeasureNonNegative(o: Options, s: Sys, h: Head)
    requires Inv(o, s, h)
    ensures 0 <= Measure(o, s, h)
  {
    assert |s.workers| == |s.tasks|;
    hide Inv;
    forall i | 0 <= i < |s.tasks|
      ensures s.tasks[i].done <= s.tasks[i].work
    {
      DoneWithinWork(o, s, h, i);
    }
    UnitsLeftNonNegative(s.tasks, 0);
    RankNonNegative(o, s, h);
    AheadNonNegative(o, s, h);
    hide UnitsAhead;
    hide SchedulerRank;
    assert WorkersRank(s) >= 0 by { RanksNonNegative(|s.tasks|, Threads(s), 0); }
    hide WorkersRank;
    NonNegativeProduct(DispatchCost(|s.tasks|), UnitsAhead(o, s, h));
  }

  lemma NonNegativeProduct(a: nat, b: nat)
    ensures 0 <= a * b
  {
  }

  lemma HeadNonNegative(o: Options, h: Head)
    requires HeadOK(o, h)
    ensures 0 <= UnitsLeft(h.tasks)
  {
    assert forall i :: 0 <= i < |h.tasks| ==> TaskOK(o, h.tasks[i]);
    UnitsLeftNonNegative(h.tasks, 0);
  }

  lemma AheadNonNegative(o: Options, s: Sys, h: Head)
    requires Inv(o, s, h)
    ensures 0 <= UnitsAhead(o, s, h)
  {
    HeadNonNegative(o, h);
    if Busy(s) && Drawable(h) {
      assert Going(o, h);
      IterateOK(o, h);
      HeadNonNegative(o, Iterate(o, h));
    }
    hide Iterate;
    hide Core;
    hide UnitsLeft;
  }

  // The bound.

  function SpuriousWakeups(moves: seq<Move>): nat {
    if moves == [] then 0 else (if Spurious(moves[0]) then 1 else 0) + SpuriousWakeups(moves[1..])
  }

  lemma {:induction false} RunBound(o: Options, s: Sys, h: Head, moves: seq<Move>)
    requires Inv(o, s, h) && Run(o, s, moves)
    ensures |moves| <= Measure(o, s, h) + (|s.tasks| + 3) * SpuriousWakeups(moves)
    decreases moves
  {
    hide *;
    if moves == [] {
      MeasureNonNegative(o, s, h);
      NoWakeups();
    } else {
      var m := moves[0];
      RunStep(o, s, moves);
      MoveKeeps(o, s, h, m);
      MoveCosts(o, s, h, m);
      RunBound(o, Next(o, s, m), NextHead(o, s, h, m), moves[1..]);
      OneMore(|s.tasks| + 3, SpuriousWakeups(moves[1..]));
    }
  }

  lemma NoWakeups()
    ensures SpuriousWakeups([]) == 0
  {
  }

  lemma RunStep(o: Options, s: Sys, moves: seq<Move>)
    requires Run(o, s, moves) && moves != []
    ensures Enabled(s, moves[0]) && Run(o, Next(o, s, moves[0]), moves[1..])
    ensures SpuriousWakeups(moves) == (if Spurious(moves[0]) then 1 else 0) + SpuriousWakeups(moves[1..])
  {
    hide Next;
    hide Enabled;
    hide Spurious;
  }

  lemma OneMore(c: nat, k: nat)
    ensures c * (1 + k) == c * k + c && c * (0 + k) == c * k
  {
  }

  function Work(t: Task): int { t.work }

  lemma {:induction false} FreshUnits(tasks: seq<Task>, k: nat)
    requires k <= |tasks| && forall i :: 0 <= i < |tasks| ==> Fresh(tasks[i])
    ensures Total(WorkLeft, tasks, k) == Total(Work, tasks, k)
    decreases |tasks| - k
  {
    if k < |tasks| {
      assert Fresh(tasks[k]);
      FreshUnits(tasks, k + 1);
    }
  }

  lemma {:induction false} InitRanks(n: nat, tasks: seq<Task>, seed: bv32, k: nat)
    requires k <= |tasks| && forall i :: 0 <= i < |tasks| ==> Fresh(tasks[i])
    ensures Total(RankOf(n), Threads(Init(tasks, seed)), k) == 2 * (|tasks| - k)
    decreases |tasks| - k
  {
    if k < |tasks| {
      assert Fresh(tasks[k]);
      InitRanks(n, tasks, seed, k + 1);
    }
  }

  /**
   * No run of the whole program is longer than this, however its threads interleave: a multiple of
   * the total work, plus a constant number of steps for every spurious wake-up. Together with the
   * absence of deadlock, every run that goes on while it can ends with all workers joined.
   */
  lemma RunsAreFinite(o: Options, tasks: seq<Task>, seed: bv32, moves: seq<Move>)
    requires Initial(tasks) && Run(o, Init(tasks, seed), moves)
    ensures var n := |tasks|;
      |moves| <= (12 * n + 41) * Total(Work, tasks) + 8 * n + 14 + (n + 3) * SpuriousWakeups(moves)
  {
    StartOK(o, tasks, seed);
    InitHolds(o, tasks, seed);
    StartMeasure(o, tasks, seed);
    assert |Init(tasks, seed).tasks| == |tasks|;
    hide *;
    RunBound(o, Init(tasks, seed), Start(tasks, seed), moves);
  }

  lemma StartMeasure(o: Options, tasks: seq<Task>, seed: bv32)
    requires Initial(tasks)
    ensures var n := |tasks|;
      Measure(o, Init(tasks, seed), Start(tasks, seed)) == (12 * n + 41) * Total(Work, tasks) + 8 * n + 14
  {
    var s, h, n := Init(tasks, seed), Start(tasks, seed), |tasks|;
    FreshUnits(tasks, 0);
    InitRanks(n, tasks, seed, 0);
    assert UnitsAhead(o, s, h) == UnitsLeft(tasks) == Total(Work, tasks);
    assert SchedulerRank(n, SLock) == 6 * n + 14;
    assert WorkersRank(s) == 2 * n;
    MeasureIs(o, s, h);
    assert DispatchCost(n) == 12 * n + 40 && s.scheduler == SLock && s.tasks == tasks;
    hide *;
    UnitProduct(n, Total(Work, tasks));
  }

  lemma UnitProduct(n: nat, w: int)
    ensures (12 * n + 40) * w + w == (12 * n + 41) * w
  {
  }

  /** From every state a run can reach the program can be driven to its end, without a spurious wake-up. */
  lemma {:induction false} CanComplete(o: Options, s: Sys, h: Head) returns (rest: seq<Move>)
    requires Inv(o, s, h)
    ensures Run(o, s, rest) && SpuriousWakeups(rest) == 0 && After(o, s, rest).scheduler.SDone?
    decreases Measure(o, s, h)
  {
    rest := [];
    if !s.scheduler.SDone? {
      var m := NoDeadlock(o, s, h);
      MoveKeeps(o, s, h, m);
      MoveCosts(o, s, h, m);
      MeasureNonNegative(o, s, h);
      MeasureNonNegative(o, Next(o, s, m), NextHead(o, s, h, m));
      var tail := CanComplete(o, Next(o, s, m), NextHead(o, s, h, m));
      rest := [m] + tail;
      assert rest[1..] == tail;
      hide Next;
      hide NextHead;
      hide Inv;
      hide Measure;
    }
  }

  /**
   * The end of a threaded run, whatever the interleaving: a run that no thread can continue without a
   * spurious wake-up has joined all its workers, its tasks are all FINISHED, and log and counters are
   * those of the sequential loop.
   */
  lemma MaximalRun(o: Options, tasks: seq<Task>, seed: bv32, moves: seq<Move>)
    requires Initial(tasks) && Run(o, Init(tasks, seed), moves)
    requires forall m :: Enabled(After(o, Init(tasks, seed), moves), m) ==> Spurious(m)
    ensures HeadOK(o, Start(tasks, seed))
    ensures var e, final := After(o, Init(tasks, seed), moves), Loop(o, Start(tasks, seed));
      && e.scheduler.SDone? && (forall i :: 0 <= i < |e.workers| ==> e.workers[i].WExited?)
      && e.log == final.log && e.tasks == final.tasks && AllFinished(e.tasks)
  {
    var e := After(o, Init(tasks, seed), moves);
    var h := Reachable(o, tasks, seed, moves);
    if !e.scheduler.SDone? {
      var m := NoDeadlock(o, e, h);
    }
    AtEnd(o, e, h);
    InterleavingsAgree(o, tasks, seed, moves);
    RunTotals(o, tasks, seed);
    hide *;
  }
}
