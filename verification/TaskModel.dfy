/** The task record of include/task.h as a value, and what src/task.c does to it. */
module TaskModel {
  import opened Numbers
  import opened SeriesModel

  datatype State = Ready | Running | Finished

  datatype Task = Task(
    id: U32,
    tickets: U32,
    work: U32,
    first: U32,           // first_dispatch
    last: U32,            // last_dispatch
    done: U32,            // work_units_done
    dispatches: U32,
    slice: U32,           // 0 outside cooperative mode
    state: State,
    pi: Series,
    yieldFraction: Fraction,  // yield_fraction
    effective: U32)       // effective_tickets

  /** The command-line options the loop and the workers read. */
  datatype Options = Options(quantum: U32, maxDispatches: U32, compensation: bool)

  /** A scanned floating-point field: NaN compares false with everything. */
  datatype Scanned = Number(value: real) | NotANumber

  /** `task_create`. */
  function Create(id: U32, tickets: U32, work: U32, yielded: Scanned): Task {
    var y: Fraction := if yielded.Number? && 0.0 < yielded.value <= 1.0 then yielded.value else 1.0;
    Task(id, tickets, work, 0, 0, 0, 0, 0, Ready, START, y, tickets)
  }

  /** `task_transition_to_running`: refuses a task that is not READY. */
  function StartRunning(t: Task, number: U32): Task {
    if t.state != Ready then t else
    var n := Wrap(t.dispatches + 1);
    t.(state := Running, dispatches := n, first := if n == 1 then number else t.first, last := number)
  }

  /** The exact share of `units` a task uses before yielding. */
  function Share(units: U32, y: Fraction): (s: real)
    ensures 0.0 <= s <= units as real
    ensures units >= 1 ==> s > 0.0
  {
    FractionOf(units as real, y);
    hide Times;
    Times(units as real, y)
  }

  lemma FractionOf(u: real, y: Fraction)
    requires 0.0 <= u
    ensures 0.0 <= Times(u, y) <= u && (u > 0.0 ==> Times(u, y) > 0.0)
  {
    assert u - u * y == u * (1.0 - y);
  }

  /** `task_compute_early_limit`. */
  function EarlyLimit(units: U32, y: Fraction): (limit: nat)
    ensures 1 <= limit
    ensures units >= 1 ==> limit <= units && Share(units, y) <= limit as real < Share(units, y) + 1.0
  {
    hide Share;
    var c := Ceil(Share(units, y));
    if c >= 1 then c else 1
  }

  /** The most units the winner runs in one dispatch, by the branch `task_do_work_unit` takes. */
  function Limit(o: Options, t: Task): (limit: nat)
    ensures 1 <= limit
  {
    if t.slice > 0 then EarlyLimit(t.slice, t.yieldFraction)
    else if o.quantum > 0 then EarlyLimit(o.quantum, t.yieldFraction)
    else 1
  }

  /** The limit in numbers: the share of the slice, or of the quantum when there is no slice, rounded up. */
  lemma LimitMeans(o: Options, t: Task)
    ensures t.slice > 0 ==>
      t.slice as real * t.yieldFraction <= Limit(o, t) as real < t.slice as real * t.yieldFraction + 1.0
    ensures t.slice == 0 && o.quantum > 0 ==>
      o.quantum as real * t.yieldFraction <= Limit(o, t) as real < o.quantum as real * t.yieldFraction + 1.0
    ensures t.slice == 0 && o.quantum == 0 ==> Limit(o, t) == 1
  {
    ShareMeans(t.slice, t.yieldFraction);
    ShareMeans(o.quantum, t.yieldFraction);
    hide Share;
    hide EarlyLimit;
  }

  lemma ShareMeans(units: U32, y: Fraction)
    ensures Share(units, y) == units as real * y
  {
  }

  /** Neither mode configured: the branch that reports a failure and runs a single unit unconditionally. */
  predicate NoMode(o: Options, t: Task) {
    t.slice == 0 && o.quantum == 0
  }

  /** Whether the worker runs another unit after `run` units of the current dispatch. */
  predicate Continues(o: Options, t: Task, run: nat) {
    if NoMode(o, t) then run < 1 else run < Limit(o, t) && t.done < t.work
  }

  /** `task_do_one_working_unit`; over exact reals its finiteness check never fails. */
  function DoUnit(t: Task): Task {
    t.(pi := Advance(t.pi), done := Wrap(t.done + 1))
  }

  function DoUnits(t: Task, run: nat): Task {
    if run == 0 then t else DoUnit(DoUnits(t, run - 1))
  }

  /** How many units the worker's loop runs on a task that enters it as `t`. */
  function UnitsToRun(o: Options, t: Task): nat {
    if NoMode(o, t) then 1
    else if t.done < t.work then Min(Limit(o, t), t.work - t.done)
    else 0
  }

  /** The state the worker stores when its units are over. */
  function Settle(t: Task): Task {
    t.(state := if t.done >= t.work then Finished else Ready)
  }

  function CompensatedTickets(on: bool, tickets: U32, y: Fraction): U32 {
    if on && y < 1.0 then
      CompensationNonNegative(tickets, y);
      Min(Round(tickets as real / y), U32_MAX)
    else tickets
  }

  lemma CompensationNonNegative(tickets: U32, y: Fraction)
    ensures 0.0 <= tickets as real / y
  {
  }

  /** `task_apply_compensation`. */
  function Compensate(o: Options, t: Task): Task {
    t.(effective := CompensatedTickets(o.compensation, t.tickets, t.yieldFraction))
  }

  /** One whole dispatch of `t` under dispatch number `number`. */
  function Dispatch(o: Options, t: Task, number: U32): Task {
    var started := StartRunning(t, number);
    Compensate(o, Settle(DoUnits(started, UnitsToRun(o, started))))
  }

  // What repeated units amount to.

  lemma {:induction false} DoUnitsShape(t: Task, run: nat)
    requires t.done + run <= U32_MAX
    ensures var u := DoUnits(t, run);
      u == t.(done := t.done + run, pi := u.pi)
    ensures t.pi == At(t.done) ==> DoUnits(t, run).pi == At(t.done + run)
  {
    hide Advance;
    hide Ratio;
    if run > 0 {
      DoUnitsShape(t, run - 1);
    }
  }

  /** The worker's loop guard stops it after exactly `UnitsToRun` units. */
  lemma UnitsToRunExact(o: Options, t: Task, run: nat)
    requires t.done <= t.work && run <= UnitsToRun(o, t)
    requires NoMode(o, t) ==> t.done < t.work
    ensures t.done + run <= t.work
    ensures Continues(o, DoUnits(t, run), run) <==> run < UnitsToRun(o, t)
  {
    hide Advance;
    hide EarlyLimit;
    DoUnitsShape(t, run);
  }
}
