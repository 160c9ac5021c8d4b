/**
 * `scheduler_main_loop` with the winner's units run inline: the reference machine. A `Head` is what
 * the loop holds each time it reaches the max-dispatches check, after waiting and reporting.
 */
module Sequential {
  import opened Numbers
  import opened SeriesModel
  import opened TaskModel
  import opened Rng
  import opened Lottery

  /** The two log lines of a dispatch; timestamps are dropped. */
  datatype Event =
    | Chosen(number: U32, id: U32, ticket: U32, active: nat, remaining: U32)
    | Reported(number: U32, id: U32, run: U32, completed: U32, state: State, tickets: U32, remaining: U32)

  datatype Head = Head(tasks: seq<Task>, seed: bv32, number: U32, log: seq<Event>)

  // One iteration, piece by piece.

  function NextSeed(h: Head): bv32
    requires ActiveTickets(h.tasks) > 0
  {
    Draw(h.seed, ActiveTickets(h.tasks)).0
  }

  function DrawnTicket(h: Head): U32
    requires ActiveTickets(h.tasks) > 0
  {
    Draw(h.seed, ActiveTickets(h.tasks)).1
  }

  function DrawnTask(h: Head): nat
    requires ActiveTickets(h.tasks) > 0
  {
    Winner(h.tasks, DrawnTicket(h))
  }

  /** The draw finds a winner: neither the `continue` on a zero sum nor the `break` on NULL is taken. */
  predicate Drawable(h: Head) {
    ActiveTickets(h.tasks) > 0 && DrawnTask(h) < |h.tasks|
  }

  function ChosenEvent(number: U32, t: Task, ticket: U32, active: nat): Event {
    Chosen(number, t.id, ticket, active, Wrap(t.work - t.done))
  }

  function ReportedEvent(number: U32, t: Task, before: U32): Event {
    Reported(number, t.id, Wrap(t.done - before), t.done, t.state, t.effective, Wrap(t.work - t.done))
  }

  /** From one head to the next: draw, log, dispatch, compensate, report. */
  function Iterate(o: Options, h: Head): Head
    requires Drawable(h)
  {
    var w := DrawnTask(h);
    var before := h.tasks[w];
    var after := Dispatch(o, before, h.number);
    Head(
      h.tasks[w := after],
      NextSeed(h),
      Wrap(h.number + 1),
      h.log + [ChosenEvent(h.number, before, DrawnTicket(h), ActiveTickets(h.tasks)),
               ReportedEvent(h.number, after, before.done)])
  }

  predicate CapReached(o: Options, h: Head) {
    o.maxDispatches > 0 && h.number > o.maxDispatches
  }

  predicate AllFinished(tasks: seq<Task>) {
    forall i :: 0 <= i < |tasks| ==> tasks[i].state == Finished
  }

  predicate Stops(o: Options, h: Head) {
    CapReached(o, h) || AllFinished(h.tasks)
  }

  /** `task_shutdown_all` on one task. */
  function ShutDown(t: Task): Task {
    if t.state == Ready then t.(state := Finished) else t
  }

  function ShutDownAll(tasks: seq<Task>): seq<Task> {
    seq(|tasks|, i requires 0 <= i < |tasks| => ShutDown(tasks[i]))
  }

  /** What is left when the loop exits at `h`. */
  function Stopped(o: Options, h: Head): Head {
    if CapReached(o, h) then h.(tasks := ShutDownAll(h.tasks)) else h
  }

  // What every head satisfies.

  /** Everything but the tallies of work done, which `Progress` adds. */
  predicate Sound(o: Options, t: Task) {
    && 1 <= t.tickets && 1 <= t.work && 1 <= t.effective
    && t.state != Running
    && t.dispatches <= t.done <= t.work
    && t.pi == At(t.done)
    && t.effective == (if t.dispatches == 0 then t.tickets
                       else CompensatedTickets(o.compensation, t.tickets, t.yieldFraction))
  }

  /** The number of dispatches determines the work done, and the other way round at the end. */
  predicate Progress(limit: nat, t: Task) {
    && (t.state == Ready ==> t.done == t.dispatches * limit && t.done < t.work)
    && (t.state == Finished ==>
          t.done == t.work && (t.dispatches - 1) * limit < t.work <= t.dispatches * limit)
  }

  predicate TaskOK(o: Options, t: Task) {
    Sound(o, t) && Progress(Limit(o, t), t)
  }

  predicate HeadOK(o: Options, h: Head) {
    forall i :: 0 <= i < |h.tasks| ==> TaskOK(o, h.tasks[i])
  }

  /** Nobody is RUNNING at a head. */
  lemma HeadNotRunning(o: Options, h: Head)
    requires HeadOK(o, h)
    ensures forall i :: 0 <= i < |h.tasks| ==> h.tasks[i].state != Running
  {
    assert forall i :: 0 <= i < |h.tasks| ==> TaskOK(o, h.tasks[i]);
  }

  lemma CompensationPositive(on: bool, tickets: U32, y: Fraction)
    requires 1 <= tickets
    ensures 1 <= CompensatedTickets(on, tickets, y)
  {
    var q := tickets as real / y;
    assert q * y == tickets as real;
    if q < 1.0 {
      assert (1.0 - q) * y > 0.0;
    }
  }

  /** The fields no dispatch changes. */
  predicate SameTask(t: Task, u: Task) {
    t.id == u.id && t.tickets == u.tickets && t.work == u.work && t.slice == u.slice
    && t.yieldFraction == u.yieldFraction
  }

  lemma {:induction false} UnitsKeepIdentity(t: Task, run: nat)
    ensures SameTask(t, DoUnits(t, run))
  {
    if run > 0 { UnitsKeepIdentity(t, run - 1); }
  }

  /** `d` is `t` after dispatch `number` of `run` units. */
  predicate Dispatched(o: Options, t: Task, number: U32, run: nat, d: Task) {
    && SameTask(t, d)
    && t.done + run == d.done <= t.work
    && d.dispatches == t.dispatches + 1
    && d.first == (if t.dispatches == 0 then number else t.first)
    && d.last == number
    && d.state == (if d.done == t.work then Finished else Ready)
    && d.pi == At(d.done)
    && d.effective == CompensatedTickets(o.compensation, t.tickets, t.yieldFraction)
  }

  /** A dispatch runs min(limit, remaining) units, at least one. */
  lemma DispatchRuns(o: Options, t: Task, number: U32)
    requires TaskOK(o, t) && t.state == Ready
    ensures 1 <= Min(Limit(o, t), t.work - t.done)
    ensures Dispatched(o, t, number, Min(Limit(o, t), t.work - t.done), Dispatch(o, t, number))
  {
    var s := StartRunning(t, number);
    assert Limit(o, s) == Limit(o, t);
    hide Limit;
    hide At;
    hide CompensatedTickets;
    hide Progress;
    var run := UnitsToRun(o, s);
    assert t.done < t.work by {
      assert Progress(Limit(o, t), t);
    }
    assert s == t.(state := Running, dispatches := t.dispatches + 1,
                   first := if t.dispatches == 0 then number else t.first, last := number);
    assert run == Min(Limit(o, t), t.work - t.done);
    hide StartRunning;
    hide UnitsToRun;
    hide DoUnits;
    DoUnitsShape(s, run);
  }

  /** ... and leaves the task sound. */
  lemma DispatchOK(o: Options, t: Task, number: U32, d: Task)
    requires TaskOK(o, t) && t.state == Ready
    requires Dispatched(o, t, number, Min(Limit(o, t), t.work - t.done), d)
    ensures TaskOK(o, d)
  {
    var limit := Limit(o, t);
    assert Limit(o, d) == limit;
    hide Limit;
    CompensationPositive(o.compensation, t.tickets, t.yieldFraction);
    hide CompensatedTickets;
    ProgressStep(limit, t.dispatches, t.done, t.work);
  }

  lemma ProgressStep(limit: nat, dispatches: nat, done: nat, work: nat)
    requires done == dispatches * limit && done < work
    ensures done + limit == (dispatches + 1) * limit
    ensures work - done <= limit ==> dispatches * limit < work <= (dispatches + 1) * limit
  {
  }

  /** With a READY task present the draw succeeds and its winner is READY, whatever the seed. */
  lemma DrawSucceeds(o: Options, h: Head)
    requires HeadOK(o, h) && !AllFinished(h.tasks)
    ensures Drawable(h) && h.tasks[DrawnTask(h)].state == Ready
    ensures DrawnTicket(h) <= ActiveTickets(h.tasks)
  {
    var i :| 0 <= i < |h.tasks| && h.tasks[i].state != Finished;
    assert TaskOK(o, h.tasks[i]);
    ActivePositive(h.tasks, i, 0);
    var sum := ActiveTickets(h.tasks);
    if h.seed != 0 {
      TicketBound(Value(Next(h.seed)), sum);
    }
    hide Ticket;
    hide Next;
    hide Value;
    WinnerExists(h.tasks, DrawnTicket(h), 0, 0);
  }

  function WorkLeft(t: Task): int { t.work - t.done }
  function DispatchCount(t: Task): int { t.dispatches }

  function UnitsLeft(tasks: seq<Task>): int { Total(WorkLeft, tasks) }
  function DispatchesMade(tasks: seq<Task>): int { Total(DispatchCount, tasks) }

  lemma IterateOK(o: Options, h: Head)
    requires HeadOK(o, h) && Drawable(h) && h.tasks[DrawnTask(h)].state == Ready
    ensures HeadOK(o, Iterate(o, h))
    ensures UnitsLeft(Iterate(o, h).tasks) < UnitsLeft(h.tasks)
    ensures DispatchesMade(Iterate(o, h).tasks) == DispatchesMade(h.tasks) + 1
  {
    var w := DrawnTask(h);
    var after := Dispatch(o, h.tasks[w], h.number);
    assert TaskOK(o, h.tasks[w]);
    DispatchRuns(o, h.tasks[w], h.number);
    DispatchOK(o, h.tasks[w], h.number, after);
    hide DrawnTask;
    hide DrawnTicket;
    hide NextSeed;
    hide Dispatch;
    hide Limit;
    hide TaskOK;
    TotalUpdate(WorkLeft, h.tasks, w, after);
    TotalUpdate(DispatchCount, h.tasks, w, after);
  }

  lemma {:induction false} UnitsLeftNonNegative(tasks: seq<Task>, k: nat)
    requires k <= |tasks|
    requires forall i :: 0 <= i < |tasks| ==> tasks[i].done <= tasks[i].work
    ensures 0 <= Total(WorkLeft, tasks, k)
    decreases |tasks| - k
  {
    if k < |tasks| {
      UnitsLeftNonNegative(tasks, k + 1);
    }
  }

  /** The whole loop from a head to its exit. */
  function Loop(o: Options, h: Head): Head
    requires HeadOK(o, h)
    decreases UnitsLeft(h.tasks)
  {
    if Stops(o, h) then Stopped(o, h) else
    DrawSucceeds(o, h);
    IterateOK(o, h);
    UnitsLeftNonNegative(Iterate(o, h).tasks, 0);
    Loop(o, Iterate(o, h))
  }

  /** The log of a run only grows: what a head has logged starts what the whole run logs. */
  lemma {:induction false} LoopExtendsLog(o: Options, h: Head)
    requires HeadOK(o, h)
    ensures h.log <= Loop(o, h).log
    decreases UnitsLeft(h.tasks)
  {
    if !Stops(o, h) {
      DrawSucceeds(o, h);
      IterateOK(o, h);
      UnitsLeftNonNegative(Iterate(o, h).tasks, 0);
      hide DrawnTask;
      hide DrawnTicket;
      hide NextSeed;
      hide Dispatch;
      hide TaskOK;
      LoopExtendsLog(o, Iterate(o, h));
    }
  }
}
