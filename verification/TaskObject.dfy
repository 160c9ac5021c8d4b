/** The record of include/task.h as src/task.c updates it in place. */
module TaskObject {
  import opened Numbers
  import opened SeriesModel
  import opened TaskModel

  class TaskRecord {
    var id: U32
    var tickets: U32
    var work: U32
    var first: U32
    var last: U32
    var done: U32
    var dispatches: U32
    var slice: U32
    var state: State
    var sum: real
    var term: real
    var j: nat
    var yieldFraction: Fraction
    var effective: U32

    /** The record as a value. */
    ghost function View(): Task
      reads this
    {
      Task(id, tickets, work, first, last, done, dispatches, slice, state, Series(sum, term, j),
           yieldFraction, effective)
    }

    /** `task_create`. */
    constructor (id: U32, tickets: U32, work: U32, yielded: Scanned)
      ensures View() == Create(id, tickets, work, yielded)
      ensures slice == 0 && effective == tickets
      ensures yieldFraction == if yielded.Number? && 0.0 < yielded.value <= 1.0 then yielded.value else 1.0
    {
      this.id, this.tickets, this.work := id, tickets, work;
      first, last, done, dispatches, slice := 0, 0, 0, 0, 0;
      state := Ready;
      sum, term, j := 2.0, 1.0, 0;
      yieldFraction := 1.0;
      effective := tickets;
      new;
      if yielded.Number? && 0.0 < yielded.value <= 1.0 {
        yieldFraction := yielded.value;
      }
    }

    /** `task_set_slice`. */
    method SetSlice(size: U32)
      modifies this`slice
      ensures View() == old(View()).(slice := if size >= 1 then size else 1)
    {
      slice := if size >= 1 then size else 1;
    }

    /** `task_apply_compensation`. */
    method ApplyCompensation(o: Options)
      modifies this`effective
      ensures View() == Compensate(o, old(View()))
    {
      effective := CompensatedTickets(o.compensation, tickets, yieldFraction);
    }

    /** `task_transition_to_running`, without its lock. */
    method TransitionToRunning(number: U32) returns (ok: bool)
      modifies this`state, this`dispatches, this`first, this`last
      ensures ok == (old(state) == Ready) && (!ok ==> View() == old(View()))
      ensures View() == StartRunning(old(View()), number)
    {
      if state != Ready {
        return false;
      }
      state := Running;
      dispatches := Wrap(dispatches + 1);
      if dispatches == 1 {
        first := number;
      }
      last := number;
      return true;
    }

    /** `task_do_one_working_unit`. */
    method DoOneWorkingUnit()
      modifies this`sum, this`term, this`j, this`done
      ensures View() == DoUnit(old(View())) && done == Wrap(old(done) + 1)
    {
      j := j + 1;
      term := term * Ratio(Twice(j));
      sum := sum + 2.0 * term;
      done := Wrap(done + 1);
    }

    /** The loop shared by `task_do_pi_calc_by_slice_units` and `task_do_pi_calc_by_quantum_units`. */
    method RunUpTo(limit: nat)
      modifies this`sum, this`term, this`j, this`done
      ensures View() == DoUnits(old(View()), if old(done) < work then Min(limit, work - old(done)) else 0)
    {
      ghost var before := View();
      var run := 0;
      assert DoUnits(before, 0) == before && before.done == done && U32_MAX == 0xFFFF_FFFF;
      hide *;
      while run < limit && done < work
        invariant 0 <= run <= limit && View() == DoUnits(before, run)
        invariant done == before.done + run && (done <= work || run == 0)
      {
        NotWrapped(done + 1);
        DoOneWorkingUnit();
        run := run + 1;
        OneMoreUnit(before, run);
      }
      UnitsBeforeStop(limit, before.done, work, run);
    }

    /** What a woken worker does between seeing RUNNING and releasing the result: its units, then its state. */
    method RunDispatch(o: Options)
      modifies this`sum, this`term, this`j, this`done, this`state
      ensures View() == Settle(DoUnits(old(View()), UnitsToRun(o, old(View()))))
      ensures slice == 0 && o.quantum == 0 ==> done == Wrap(old(done) + 1)
      ensures (slice > 0 || o.quantum > 0) && old(done) >= work ==> done == old(done)
      ensures state == if done >= work then Finished else Ready
    {
      ghost var before := View();
      if slice > 0 {
        RunUpTo(EarlyLimit(slice, yieldFraction));
      } else if o.quantum > 0 {
        RunUpTo(EarlyLimit(o.quantum, yieldFraction));
      } else {
        DoOneWorkingUnit();
        OneUnit(before);
      }
      assert View() == DoUnits(before, UnitsToRun(o, before));
      state := if done >= work then Finished else Ready;
    }
  }

  lemma OneMoreUnit(t: Task, run: nat)
    requires run > 0
    ensures DoUnits(t, run) == DoUnit(DoUnits(t, run - 1))
  {
  }

  /** Where a loop bounded by a limit and by the work left ends. */
  lemma UnitsBeforeStop(limit: nat, start: U32, work: U32, run: nat)
    requires run <= limit && (start + run <= work || run == 0)
    requires run == limit || start + run >= work
    ensures run == if start < work then Min(limit, work - start) else 0
  {
  }

  lemma OneUnit(t: Task)
    ensures DoUnits(t, 1) == DoUnit(t)
  {
  }
}
