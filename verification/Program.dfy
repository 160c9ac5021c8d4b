/** `main` of src/main.c from the scanned rows on: load, seed, configure, schedule. */
module Program {
  import opened Numbers
  import opened TaskModel
  import Rng
  import opened Sequential
  import opened Accounting
  import opened Counter
  import opened Allotment
  import opened TaskObject
  import opened LinkedList
  import opened Loader
  import opened SchedulerObject
  import opened Protocol
  import opened ProtocolTermination

  /** The two scheduling modes; quantum mode configures nothing per task. */
  datatype Mode = ByQuantum | BySlice(percent: Percent)

  /** The tasks of an accepted file as the main loop first sees them. */
  function Configured(mode: Mode, rows: seq<Row>): (ts: seq<Task>)
    requires Acceptable(rows)
    ensures |ts| == |NonBlank(rows)|
  {
    var loaded := TasksOf(NonBlank(rows));
    match mode
    case ByQuantum => loaded
    case BySlice(p) => Cooperative(loaded, p)
  }

  lemma ConfiguredInitial(mode: Mode, rows: seq<Row>)
    requires Acceptable(rows)
    ensures Initial(Configured(mode, rows))
  {
    LoadedTasksInitial(rows);
    match mode
    case ByQuantum =>
    case BySlice(p) => CooperativeInitial(TasksOf(NonBlank(rows)), p);
  }

  // What a row of the file comes to.

  /** The yield of the task: the fourth field when it is there and a number, 1 otherwise. */
  function RowYield(r: Row): real
    requires r.Scan?
  {
    if r.fields == 4 && r.yielded.Number? then r.yielded.value else 1.0
  }

  /** The units a full allotment has: the quantum, or the slice's percentage of the work, rounded up. */
  function RowUnits(mode: Mode, o: Options, r: Row): int
    requires r.Scan?
  {
    match mode
    case ByQuantum => o.quantum
    case BySlice(p) => Ceil(r.work as real * p / 100.0)
  }

  /** A fraction of some units, rounded up. */
  function Part(units: int, y: real): int {
    Ceil(units as real * y)
  }

  /** The units a dispatch runs at most: the allotment's share by the yield, rounded up; 1 without an allotment. */
  function RowLimit(mode: Mode, o: Options, r: Row): int
    requires r.Scan?
  {
    if RowUnits(mode, o, r) == 0 then 1 else Part(RowUnits(mode, o, r), RowYield(r))
  }

  /** The dispatches the row needs. */
  function RowDispatches(mode: Mode, o: Options): Row -> int {
    (r: Row) => if r.Scan? && 0 <= r.work && 0 < RowLimit(mode, o, r) then CeilDiv(r.work, RowLimit(mode, o, r)) else 0
  }

  /** A configured task is what its row says, with nothing done yet. */
  lemma ConfiguredRow(mode: Mode, rows: seq<Row>, i: nat)
    requires Acceptable(rows) && i < |NonBlank(rows)|
    ensures var t, r := Configured(mode, rows)[i], NonBlank(rows)[i];
      && t.id == r.id && t.tickets == t.effective == r.tickets && t.work == r.work >= 1
      && t.first == t.last == t.done == t.dispatches == 0 && t.state == Ready
      && t.yieldFraction == RowYield(r)
      && (mode.ByQuantum? ==> t.slice == 0)
      && (mode.BySlice? ==> t.slice == Slice(t.work, mode.percent) >= 1)
  {
    assert RowAccepted(NonBlank(rows)[i]);
    hide Slice;
    hide NonBlank;
  }

  lemma LimitOfRow(mode: Mode, rows: seq<Row>, o: Options, i: nat)
    requires Acceptable(rows) && i < |NonBlank(rows)|
    ensures Limit(o, Configured(mode, rows)[i]) == RowLimit(mode, o, NonBlank(rows)[i])
    ensures Needed(o, Configured(mode, rows)[i]) == RowDispatches(mode, o)(NonBlank(rows)[i])
  {
    hide *;
    var t, r := Configured(mode, rows)[i], NonBlank(rows)[i];
    ConfiguredRow(mode, rows, i);
    UnitsOfRow(mode, o, r, t);
    LimitFromRow(mode, o, r, t);
  }

  lemma LimitFromRow(mode: Mode, o: Options, r: Row, t: Task)
    requires r.Scan? && t.work == r.work >= 1 && t.yieldFraction == RowYield(r)
    requires RowUnits(mode, o, r) == if t.slice > 0 then t.slice else o.quantum
    ensures Limit(o, t) == RowLimit(mode, o, r)
    ensures Needed(o, t) == RowDispatches(mode, o)(r)
  {
    var units := RowUnits(mode, o, r);
    hide RowUnits;
    hide RowYield;
    hide Part;
    hide CeilDiv;
    LimitMeans(o, t);
    if units > 0 {
      LimitFromUnits(o, t, units);
    }
    hide Limit;
  }

  lemma UnitsOfRow(mode: Mode, o: Options, r: Row, t: Task)
    requires r.Scan? && t.work == r.work >= 1
    requires mode.ByQuantum? ==> t.slice == 0
    requires mode.BySlice? ==> t.slice == Slice(t.work, mode.percent) >= 1
    ensures RowUnits(mode, o, r) == if t.slice > 0 then t.slice else o.quantum
  {
    if mode.BySlice? {
      SliceMeans(t.work, mode.percent);
      CeilUnique(r.work as real * mode.percent / 100.0, t.slice);
    }
    hide Slice;
    hide Ceil;
  }

  lemma LimitFromUnits(o: Options, t: Task, units: int)
    requires units == (if t.slice > 0 then t.slice else o.quantum) && units > 0
    ensures Limit(o, t) == Part(units, t.yieldFraction) >= 1
  {
    LimitMeans(o, t);
    CeilUnique(units as real * t.yieldFraction, Limit(o, t));
    hide Limit;
    hide Ceil;
  }

  /** The dispatches a run of the file makes: all its rows need, or the cap if that is less and not 2^32 - 1. */
  function FileDispatches(mode: Mode, o: Options, rows: seq<Row>): int {
    var needed := Total(RowDispatches(mode, o), NonBlank(rows));
    if 0 < o.maxDispatches < 4294967295 && o.maxDispatches < needed then o.maxDispatches else needed
  }

  lemma FileLength(mode: Mode, o: Options, rows: seq<Row>)
    requires Acceptable(rows)
    ensures RunLength(o, Configured(mode, rows)) == FileDispatches(mode, o, rows)
    ensures Complete(o, Configured(mode, rows))
       <==> FileDispatches(mode, o, rows) == Total(RowDispatches(mode, o), NonBlank(rows))
  {
    var ts, given := Configured(mode, rows), NonBlank(rows);
    forall i | 0 <= i < |ts|
      ensures NeededBy(o)(ts[i]) == RowDispatches(mode, o)(given[i])
    {
      LimitOfRow(mode, rows, o, i);
    }
    hide Configured;
    hide Acceptable;
    hide NonBlank;
    hide RowDispatches;
    hide NeededBy;
    TotalsAgree(NeededBy(o), ts, RowDispatches(mode, o), given);
    assert DispatchesNeeded(o, ts) == Total(RowDispatches(mode, o), given);
    hide DispatchesNeeded;
    hide Total;
  }

  /** Nodes filled by the loader carry what the scheduler expects of them. */
  lemma LoadedNodesMatch(list: List, cells: seq<TaskRecord>, given: seq<Row>)
    requires Holds(list, cells, given)
    ensures list.Valid() && |list.spine| == |cells| == |given|
    ensures forall i, j :: 0 <= i < j < |cells| ==> cells[i] != cells[j]
    ensures forall i :: 0 <= i < |cells| ==> NodeMatches(list.spine[i], cells[i])
    ensures forall i :: 0 <= i < |cells| ==>
      given[i].Scan? && RowAccepted(given[i]) && cells[i].View() == TaskOf(given[i])
  {
    forall i | 0 <= i < |cells|
      ensures NodeMatches(list.spine[i], cells[i]) && cells[i].View() == TaskOf(given[i])
    {
      assert HoldsAt(list, cells, given, i);
    }
  }

  /** `scheduler_init` and the configuration of the mode: everything before the main loop. */
  method Prepare(rows: seq<Row>, mode: Mode, o: Options, seed: bv32) returns (ok: bool, scheduler: Scheduler?)
    ensures ok <==> Acceptable(rows)
    ensures !ok ==> scheduler == null
    ensures ok ==> scheduler != null && fresh(scheduler) && fresh(scheduler.rng) && fresh(scheduler.cells)
    ensures ok ==> scheduler.Valid() && scheduler.options == o
    ensures ok ==> Head(scheduler.Tasks(), scheduler.rng.seed, 1, scheduler.log) == Start(Configured(mode, rows), seed)
  {
    var list;
    ghost var cells;
    hide *;
    ok, list, cells := Load(rows);
    scheduler := null;
    if ok {
      var rng := new Rng.Generator();
      var _ := rng.Seed(seed);
      LoadedNodesMatch(list, cells, NonBlank(rows));
      scheduler := new Scheduler(o, list, rng, cells);
      TasksMatch(scheduler, NonBlank(rows));
      StartIs(mode, rows, seed);
      if mode.BySlice? {
        scheduler.ConfigureCooperative(mode.percent);
      }
    }
  }

  lemma TasksMatch(scheduler: Scheduler, given: seq<Row>)
    requires |scheduler.cells| == |given|
    requires forall i :: 0 <= i < |given| ==>
      given[i].Scan? && RowAccepted(given[i]) && scheduler.cells[i].View() == TaskOf(given[i])
    ensures scheduler.Tasks() == TasksOf(given)
  {
  }

  lemma StartIs(mode: Mode, rows: seq<Row>, seed: bv32)
    requires Acceptable(rows)
    ensures mode.ByQuantum? ==> Configured(mode, rows) == TasksOf(NonBlank(rows))
    ensures mode.BySlice? ==> Configured(mode, rows) == Cooperative(TasksOf(NonBlank(rows)), mode.percent)
    ensures Start(Configured(mode, rows), seed) == Head(Configured(mode, rows), seed, 1, [])
  {
  }

  /** The program, with the workers' units run inline: it succeeds exactly on acceptable files and then
      logs what the reference machine logs. */
  method RunFile(rows: seq<Row>, mode: Mode, o: Options, seed: bv32) returns (ok: bool, log: seq<Event>)
    ensures ok <==> Acceptable(rows)
    ensures ok ==> Initial(Configured(mode, rows)) && HeadOK(o, Start(Configured(mode, rows), seed))
    ensures ok ==> log == Loop(o, Start(Configured(mode, rows), seed)).log
    ensures !ok ==> log == []
  {
    log := [];
    var scheduler;
    hide *;
    ok, scheduler := Prepare(rows, mode, o, seed);
    if ok {
      ConfiguredInitial(mode, rows);
      StartOK(o, Configured(mode, rows), seed);
      scheduler.MainLoop();
      log := scheduler.log;
    }
  }

  /**
   * From file to outcome, through every interleaving, in terms of the file: for an accepted file, any
   * options and any seed, a threaded run that cannot go on has joined all its workers and has logged
   * what `RunFile` logs, two lines for each of the dispatches foretold. The log shows for every row its
   * dispatches' worth of units, and its whole work in exactly the dispatches the row needs whenever the
   * cap leaves room. In cooperative mode these are never more than 100 / (p * y), rounded up.
   */
  lemma FileToOutcome(rows: seq<Row>, mode: Mode, o: Options, seed: bv32, moves: seq<Move>, i: nat)
    requires Acceptable(rows) && i < |NonBlank(rows)|
    requires Run(o, Init(Configured(mode, rows), seed), moves)
    requires forall m :: Enabled(After(o, Init(Configured(mode, rows), seed), moves), m) ==> Spurious(m)
    ensures HeadOK(o, Start(Configured(mode, rows), seed))
    ensures var e := After(o, Init(Configured(mode, rows), seed), moves);
      e.scheduler.SDone? && e.log == Loop(o, Start(Configured(mode, rows), seed)).log
      && |e.log| == 2 * FileDispatches(mode, o, rows)
    ensures var log := After(o, Init(Configured(mode, rows), seed), moves).log;
      var r, needed := NonBlank(rows)[i], RowDispatches(mode, o)(NonBlank(rows)[i]);
      && UnitsRun(log, r.id) == Min(Won(log, r.id) * RowLimit(mode, o, r), r.work) && Won(log, r.id) <= needed
      && (FileDispatches(mode, o, rows) == Total(RowDispatches(mode, o), NonBlank(rows)) ==>
            UnitsRun(log, r.id) == r.work && Won(log, r.id) == needed)
      && (mode.BySlice? ==>
            Won(log, r.id) <= DispatchBound(mode.percent, Configured(mode, rows)[i].yieldFraction))
  {
    hide *;
    var ts := Configured(mode, rows);
    ConfiguredInitial(mode, rows);
    ConfiguredRow(mode, rows, i);
    LimitOfRow(mode, rows, o, i);
    FileLength(mode, o, rows);
    MaximalRun(o, ts, seed, moves);
    EveryTaskServed(o, ts, seed, i);
    if mode.BySlice? {
      CooperativeDispatches(o, ts[i], mode.percent);
    }
  }

  /** A file the loader accepts whose tasks outgrow the dispatch counter. */
  lemma CrowdAccepted() returns (rows: seq<Row>)
    ensures Acceptable(rows) && Configured(ByQuantum, rows) == Crowd()
  {
    rows := seq(5, i requires 0 <= i < 5 => Scan(3, i + 1, 1, 0xFFFF_FFFF, NotANumber));
    NonBlankAll(rows);
    assert Total(RowTickets, rows, 4) == 1;
    assert Total(RowTickets, rows, 2) == 3;
    assert Acceptable(rows);
    var ts := Configured(ByQuantum, rows);
    forall i | 0 <= i < 5
      ensures ts[i] == Crowd()[i]
    {
      assert ts[i] == TaskOf(rows[i]);
    }
  }

  /** A file the loader accepts with a task whose compensation is clamped and falls short of its share. */
  lemma ClampedAccepted() returns (rows: seq<Row>)
    ensures Acceptable(rows) && NonBlank(rows) != []
    ensures var t := Configured(ByQuantum, rows)[0];
      forall o: Options :: o.quantum == 10 && o.compensation ==>
        Compensate(o, t).effective as real * Limit(o, t) as real
          < t.tickets as real * o.quantum as real - o.quantum as real * t.yieldFraction / 2.0
  {
    rows := [Scan(4, 1, 0xFFFF_FFFB, 1, Number(0.1)), Scan(3, 2, 1, 1, NotANumber), Scan(3, 3, 1, 1, NotANumber),
             Scan(3, 4, 1, 1, NotANumber), Scan(3, 5, 1, 1, NotANumber)];
    NonBlankAll(rows);
    assert Total(RowTickets, rows, 4) == 1;
    assert Total(RowTickets, rows, 2) == 3;
    assert Acceptable(rows);
    var t := Configured(ByQuantum, rows)[0];
    assert t == TaskOf(rows[0]) && t.tickets == 0xFFFF_FFFB && t.yieldFraction == 0.1 && t.slice == 0;
    ClampedShareFails();
    hide EarlyLimit;
    hide CompensatedTickets;
    hide Configured;
    hide Round;
  }
}
