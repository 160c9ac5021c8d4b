/** What whole runs of the loop add up to: dispatch counts, the log, first and last dispatch numbers. */
module Accounting {
  import opened Numbers
  import opened SeriesModel
  import opened TaskModel
  import opened Rng
  import opened Lottery
  import opened Sequential

  /** A task as the loader leaves it, possibly with a slice configured. */
  predicate Fresh(t: Task) {
    && 1 <= t.tickets && 1 <= t.work && t.effective == t.tickets
    && t.first == t.last == t.done == t.dispatches == 0
    && t.state == Ready && t.pi == START
  }

  predicate DistinctIds(tasks: seq<Task>) {
    forall i, j :: 0 <= i < j < |tasks| ==> tasks[i].id != tasks[j].id
  }

  predicate Initial(tasks: seq<Task>) {
    DistinctIds(tasks) && forall i :: 0 <= i < |tasks| ==> Fresh(tasks[i])
  }

  function Start(tasks: seq<Task>, seed: bv32): Head {
    Head(tasks, seed, 1, [])
  }

  lemma StartOK(o: Options, tasks: seq<Task>, seed: bv32)
    requires Initial(tasks)
    ensures HeadOK(o, Start(tasks, seed))
  {
    forall i | 0 <= i < |tasks|
      ensures TaskOK(o, tasks[i])
    {
      assert Fresh(tasks[i]);
      AtStart();
    }
  }

  predicate SameTasks(ts: seq<Task>, us: seq<Task>) {
    |ts| == |us| && forall i :: 0 <= i < |ts| ==> SameTask(ts[i], us[i])
  }

  // How many dispatches a run takes.

  /** The dispatches a task needs: its work in blocks of its limit. */
  function Needed(o: Options, t: Task): nat {
    CeilDiv(t.work, Limit(o, t))
  }

  function NeededBy(o: Options): Task -> int {
    (t: Task) => Needed(o, t)
  }

  function DispatchesNeeded(o: Options, tasks: seq<Task>): int {
    Total(NeededBy(o), tasks)
  }

  lemma NeededReached(o: Options, t: Task)
    requires TaskOK(o, t)
    ensures t.dispatches <= Needed(o, t)
    ensures t.dispatches == Needed(o, t) <==> t.state == Finished
  {
    var l := Limit(o, t);
    var q := Needed(o, t);
    assert t.work <= q * l;
    if t.state == Finished {
      ProductStep(t.dispatches, l);
      CeilDivUnique(t.work, l, t.dispatches);
    } else if q <= t.dispatches {
      MultiplyOrder(q, t.dispatches, l);
    }
  }

  lemma ProductStep(d: int, l: nat)
    ensures (d - 1) * l == d * l - l
  {
  }

  lemma MultiplyOrder(a: nat, b: nat, l: nat)
    requires a <= b
    ensures a * l <= b * l
  {
  }

  lemma {:induction false} NeededSame(o: Options, ts: seq<Task>, us: seq<Task>, k: nat)
    requires SameTasks(ts, us) && k <= |ts|
    ensures Total(NeededBy(o), ts, k) == Total(NeededBy(o), us, k)
    decreases |ts| - k
  {
    if k < |ts| {
      assert SameTask(ts[k], us[k]);
      NeededSame(o, ts, us, k + 1);
    }
  }

  /** The dispatches made reach the dispatches needed exactly when every task is finished. */
  lemma MadeReachesNeeded(o: Options, h: Head)
    requires HeadOK(o, h)
    ensures DispatchesMade(h.tasks) <= DispatchesNeeded(o, h.tasks)
    ensures DispatchesMade(h.tasks) == DispatchesNeeded(o, h.tasks) <==> AllFinished(h.tasks)
  {
    forall i | 0 <= i < |h.tasks|
      ensures DispatchCount(h.tasks[i]) <= NeededBy(o)(h.tasks[i])
      ensures DispatchCount(h.tasks[i]) == NeededBy(o)(h.tasks[i]) <==> h.tasks[i].state == Finished
    {
      assert TaskOK(o, h.tasks[i]);
      NeededReached(o, h.tasks[i]);
    }
    hide TaskOK;
    hide Needed;
    TotalMonotone(DispatchCount, NeededBy(o), h.tasks);
    if AllFinished(h.tasks) {
      TotalMonotone(NeededBy(o), DispatchCount, h.tasks);
    } else {
      var i :| 0 <= i < |h.tasks| && h.tasks[i].state != Finished;
      TotalStrict(DispatchCount, NeededBy(o), h.tasks, i);
    }
  }

  // The books: what holds at every head of a run that started from `tasks` and `seed`.

  function Won(log: seq<Event>, id: U32): nat {
    if log == [] then 0 else
    var e := log[|log| - 1];
    Won(log[..|log| - 1], id) + (if e.Chosen? && e.id == id then 1 else 0)
  }

  function UnitsRun(log: seq<Event>, id: U32): nat {
    if log == [] then 0 else
    var e := log[|log| - 1];
    UnitsRun(log[..|log| - 1], id) + (if e.Reported? && e.id == id then e.run else 0)
  }

  /** Number of the first dispatch the log records for `id`, 0 when there is none. */
  function FirstNumber(log: seq<Event>, id: U32): U32 {
    if log == [] then 0 else
    var e := log[|log| - 1];
    if e.Chosen? && e.id == id && Won(log[..|log| - 1], id) == 0 then e.number
    else FirstNumber(log[..|log| - 1], id)
  }

  function LastNumber(log: seq<Event>, id: U32): U32 {
    if log == [] then 0 else
    var e := log[|log| - 1];
    if e.Chosen? && e.id == id then e.number else LastNumber(log[..|log| - 1], id)
  }

  /** The counters of a task agree with the log. */
  predicate Ledger(log: seq<Event>, t: Task) {
    && Won(log, t.id) == t.dispatches
    && UnitsRun(log, t.id) == t.done
    && FirstNumber(log, t.id) == t.first
    && LastNumber(log, t.id) == t.last
  }

  /** The two lines of dispatch `k` (counting from 0): what they say and how they are connected. */
  predicate PairOK(o: Options, t: Task, seed: bv32, k: nat, c: Event, r: Event) {
    && c.Chosen? && r.Reported?
    && c.number == r.number == Wrap(k + 1)
    && c.id == r.id == t.id
    && 1 <= c.active
    && c.ticket == (if seed == 0 then 0 else Ticket(Value(Rng.State(seed, k + 1)), c.active))
    && 1 <= r.run == Min(Limit(o, t), c.remaining)
    && r.remaining == c.remaining - r.run
    && r.completed == t.work - r.remaining
    && r.state == (if r.remaining == 0 then Finished else Ready)
    && r.tickets == CompensatedTickets(o.compensation, t.tickets, t.yieldFraction)
  }

  predicate PairsOK(o: Options, tasks: seq<Task>, seed: bv32, log: seq<Event>) {
    && |log| % 2 == 0
    && forall k :: 0 <= k < |log| / 2 ==>
         exists i :: 0 <= i < |tasks| && PairOK(o, tasks[i], seed, k, log[2 * k], log[2 * k + 1])
  }

  predicate Books(o: Options, tasks: seq<Task>, seed: bv32, h: Head) {
    var made := DispatchesMade(h.tasks);
    && HeadOK(o, h)
    && DistinctIds(tasks) && SameTasks(tasks, h.tasks)
    && |h.log| == 2 * made
    && h.number == Wrap(made + 1)
    && h.seed == Rng.State(seed, made)
    && (forall i :: 0 <= i < |h.tasks| ==> Ledger(h.log, h.tasks[i]))
    && PairsOK(o, tasks, seed, h.log)
  }

  lemma AppendPair(log: seq<Event>, c: Event, r: Event, id: U32)
    requires c.Chosen? && r.Reported? && c.id == r.id
    ensures var l := log + [c, r];
      && Won(l, id) == Won(log, id) + (if c.id == id then 1 else 0)
      && UnitsRun(l, id) == UnitsRun(log, id) + (if c.id == id then r.run else 0)
      && FirstNumber(l, id) == (if c.id == id && Won(log, id) == 0 then c.number else FirstNumber(log, id))
      && LastNumber(l, id) == (if c.id == id then c.number else LastNumber(log, id))
  {
    var l := log + [c, r];
    assert l[..|l| - 1] == log + [c];
    assert (log + [c])[..|log|] == log;
  }

  /** What a draw leaves behind, in terms of the generator's trajectory. */
  lemma DrawTrajectory(seed: bv32, made: nat, h: Head)
    requires h.seed == Rng.State(seed, made) && ActiveTickets(h.tasks) > 0
    ensures NextSeed(h) == Rng.State(seed, made + 1)
    ensures DrawnTicket(h) ==
      if seed == 0 then 0 else Ticket(Value(Rng.State(seed, made + 1)), ActiveTickets(h.tasks))
  {
    StateNonzero(seed, made);
    StateNonzero(seed, made + 1);
  }

  lemma IterateSplits(o: Options, h: Head)
    requires Drawable(h)
    ensures var w := DrawnTask(h);
      var t := h.tasks[w];
      var d := Dispatch(o, t, h.number);
      Iterate(o, h) == Head(h.tasks[w := d], NextSeed(h), Wrap(h.number + 1),
        h.log + [ChosenEvent(h.number, t, DrawnTicket(h), ActiveTickets(h.tasks)),
                 ReportedEvent(h.number, d, t.done)])
  {
  }

  lemma PairHolds(o: Options, t0: Task, seed: bv32, made: nat, number: U32, t: Task, d: Task,
                  ticket: U32, active: nat)
    requires SameTask(t0, t) && TaskOK(o, t) && t.state == Ready && number == Wrap(made + 1)
    requires Dispatched(o, t, number, Min(Limit(o, t), t.work - t.done), d)
    requires 1 <= active
    requires ticket == if seed == 0 then 0 else Ticket(Value(Rng.State(seed, made + 1)), active)
    ensures PairOK(o, t0, seed, made, ChosenEvent(number, t, ticket, active), ReportedEvent(number, d, t.done))
  {
    assert Limit(o, t) == Limit(o, t0);
    var run := Min(Limit(o, t), t.work - t.done);
    assert 1 <= run && t.done < t.work && t.work == t0.work;
    hide Limit;
    hide TaskOK;
    hide Rng.State;
    hide Ticket;
    hide Value;
    hide CompensatedTickets;
    hide At;
    EventFields(o, t, d, number, run, ticket, active);
    hide Dispatched;
    hide ChosenEvent;
    hide ReportedEvent;
    hide Wrap;
  }

  lemma EventFields(o: Options, t: Task, d: Task, number: U32, run: nat, ticket: U32, active: nat)
    requires Dispatched(o, t, number, run, d)
    ensures ChosenEvent(number, t, ticket, active) == Chosen(number, t.id, ticket, active, t.work - t.done)
    ensures ReportedEvent(number, d, t.done) ==
      Reported(number, t.id, run, t.done + run, if t.done + run == t.work then Finished else Ready,
               CompensatedTickets(o.compensation, t.tickets, t.yieldFraction), t.work - t.done - run)
  {
    hide CompensatedTickets;
    hide At;
  }

  lemma LedgerAfter(log: seq<Event>, o: Options, t: Task, d: Task, number: U32, run: nat, ticket: U32, active: nat)
    requires Ledger(log, t) && Dispatched(o, t, number, run, d)
    ensures Ledger(log + [ChosenEvent(number, t, ticket, active), ReportedEvent(number, d, t.done)], d)
  {
    hide Won;
    hide UnitsRun;
    hide FirstNumber;
    hide LastNumber;
    hide CompensatedTickets;
    hide At;
    AppendPair(log, ChosenEvent(number, t, ticket, active), ReportedEvent(number, d, t.done), t.id);
  }

  lemma LedgerOther(log: seq<Event>, u: Task, c: Event, r: Event)
    requires Ledger(log, u) && c.Chosen? && r.Reported? && c.id == r.id != u.id
    ensures Ledger(log + [c, r], u)
  {
    AppendPair(log, c, r, u.id);
  }

  lemma PairsGrow(o: Options, tasks: seq<Task>, seed: bv32, log: seq<Event>, i: nat, c: Event, r: Event)
    requires PairsOK(o, tasks, seed, log)
    requires i < |tasks| && PairOK(o, tasks[i], seed, |log| / 2, c, r)
    ensures PairsOK(o, tasks, seed, log + [c, r])
  {
    var l := log + [c, r];
    hide PairOK;
    forall k | 0 <= k < |l| / 2
      ensures exists j :: 0 <= j < |tasks| && PairOK(o, tasks[j], seed, k, l[2 * k], l[2 * k + 1])
    {
      if k < |log| / 2 {
        var j :| 0 <= j < |tasks| && PairOK(o, tasks[j], seed, k, log[2 * k], log[2 * k + 1]);
        assert l[2 * k] == log[2 * k] && l[2 * k + 1] == log[2 * k + 1];
        assert PairOK(o, tasks[j], seed, k, l[2 * k], l[2 * k + 1]);
      } else {
        assert l[2 * k] == c && l[2 * k + 1] == r;
        assert PairOK(o, tasks[i], seed, k, l[2 * k], l[2 * k + 1]);
      }
    }
  }

  lemma WrapStep(made: nat, number: U32)
    requires number == Wrap(made + 1)
    ensures Wrap(number + 1) == Wrap(made + 2)
  {
  }

  /** One iteration keeps the books. */
  lemma IterateBooks(o: Options, tasks: seq<Task>, seed: bv32, h: Head)
    requires Books(o, tasks, seed, h) && !AllFinished(h.tasks)
    ensures Drawable(h) && Books(o, tasks, seed, Iterate(o, h))
  {
    DrawSucceeds(o, h);
    IterateOK(o, h);
    IterateSplits(o, h);
    var w := DrawnTask(h);
    var t := h.tasks[w];
    var d := Dispatch(o, t, h.number);
    var made := DispatchesMade(h.tasks);
    var ticket, active := DrawnTicket(h), ActiveTickets(h.tasks);
    DrawTrajectory(seed, made, h);
    hide *;
    BooksStep(o, tasks, seed, h, Iterate(o, h), w, d, ticket, active);
  }

  lemma BooksStep(o: Options, tasks: seq<Task>, seed: bv32, h: Head, n: Head, w: nat, d: Task,
                  ticket: U32, active: nat)
    requires Books(o, tasks, seed, h) && HeadOK(o, n)
    requires w < |h.tasks| && h.tasks[w].state == Ready && d == Dispatch(o, h.tasks[w], h.number)
    requires 1 <= active && DispatchesMade(n.tasks) == DispatchesMade(h.tasks) + 1
    requires ticket ==
      if seed == 0 then 0 else Ticket(Value(Rng.State(seed, DispatchesMade(n.tasks))), active)
    requires n == Head(h.tasks[w := d], Rng.State(seed, DispatchesMade(n.tasks)), Wrap(h.number + 1),
      h.log + [ChosenEvent(h.number, h.tasks[w], ticket, active),
               ReportedEvent(h.number, d, h.tasks[w].done)])
    ensures Books(o, tasks, seed, n)
  {
    hide *;
    var t := h.tasks[w];
    var made := DispatchesMade(h.tasks);
    var run := Min(Limit(o, t), t.work - t.done);
    var c := ChosenEvent(h.number, t, ticket, active);
    var r := ReportedEvent(h.number, d, t.done);
    BooksParts(o, tasks, seed, h, w);
    DispatchRuns(o, t, h.number);
    EventKinds(h.number, t, d, ticket, active);
    DispatchedSame(o, t, h.number, run, d);
    PairHolds(o, tasks[w], seed, made, h.number, t, d, ticket, active);
    LedgerAfter(h.log, o, t, d, h.number, run, ticket, active);
    WrapStep(made, h.number);
    PairsGrow(o, tasks, seed, h.log, w, c, r);
    LedgersStep(tasks, h.tasks, n.tasks, h.log, w, d, c, r);
    BooksFrom(o, tasks, seed, n);
  }

  lemma BooksParts(o: Options, tasks: seq<Task>, seed: bv32, h: Head, w: nat)
    requires Books(o, tasks, seed, h) && w < |h.tasks|
    ensures |tasks| == |h.tasks| && DistinctIds(tasks) && SameTasks(tasks, h.tasks)
    ensures DispatchesMade(h.tasks) >= 0 && |h.log| == 2 * DispatchesMade(h.tasks)
    ensures h.number == Wrap(DispatchesMade(h.tasks) + 1) && h.seed == Rng.State(seed, DispatchesMade(h.tasks))
    ensures PairsOK(o, tasks, seed, h.log) && forall i :: 0 <= i < |h.tasks| ==> Ledger(h.log, h.tasks[i])
    ensures TaskOK(o, h.tasks[w]) && SameTask(tasks[w], h.tasks[w])
  {
    hide DispatchesMade;
    hide TaskOK;
    hide PairsOK;
    hide Ledger;
  }

  lemma BooksFrom(o: Options, tasks: seq<Task>, seed: bv32, h: Head)
    requires HeadOK(o, h) && DistinctIds(tasks) && SameTasks(tasks, h.tasks)
    requires |h.log| == 2 * DispatchesMade(h.tasks) && h.number == Wrap(DispatchesMade(h.tasks) + 1)
    requires DispatchesMade(h.tasks) >= 0 && h.seed == Rng.State(seed, DispatchesMade(h.tasks))
    requires PairsOK(o, tasks, seed, h.log) && forall i :: 0 <= i < |h.tasks| ==> Ledger(h.log, h.tasks[i])
    ensures Books(o, tasks, seed, h)
  {
    hide DispatchesMade;
    hide PairsOK;
    hide Ledger;
    hide HeadOK;
  }

  lemma EventKinds(number: U32, t: Task, d: Task, ticket: U32, active: nat)
    ensures ChosenEvent(number, t, ticket, active).Chosen? && ChosenEvent(number, t, ticket, active).id == t.id
    ensures ReportedEvent(number, d, t.done).Reported? && ReportedEvent(number, d, t.done).id == d.id
  {
  }

  lemma DispatchedSame(o: Options, t: Task, number: U32, run: nat, d: Task)
    requires Dispatched(o, t, number, run, d)
    ensures SameTask(t, d) && t.id == d.id
  {
    hide At;
    hide CompensatedTickets;
  }

  /** The tasks a dispatch did not touch keep agreeing with the log, because their ids differ. */
  lemma LedgersStep(tasks: seq<Task>, ts: seq<Task>, us: seq<Task>, log: seq<Event>, w: nat, d: Task,
                    c: Event, r: Event)
    requires w < |ts| && us == ts[w := d] && SameTasks(tasks, ts) && DistinctIds(tasks)
    requires forall i :: 0 <= i < |ts| ==> Ledger(log, ts[i])
    requires c.Chosen? && r.Reported? && c.id == r.id == ts[w].id
    requires SameTask(ts[w], d) && Ledger(log + [c, r], d)
    ensures SameTasks(tasks, us)
    ensures forall i :: 0 <= i < |us| ==> Ledger(log + [c, r], us[i])
  {
    hide Ledger;
    forall i | 0 <= i < |us|
      ensures Ledger(log + [c, r], us[i]) && SameTask(tasks[i], us[i])
    {
      assert SameTask(tasks[i], ts[i]) && SameTask(tasks[w], ts[w]);
      if i != w {
        assert tasks[i].id != tasks[w].id;
        LedgerOther(log, ts[i], c, r);
      }
    }
  }

  lemma StartBooks(o: Options, tasks: seq<Task>, seed: bv32)
    requires Initial(tasks)
    ensures Books(o, tasks, seed, Start(tasks, seed))
    ensures HeadOK(o, Start(tasks, seed)) && DispatchesMade(Start(tasks, seed).tasks) == 0
  {
    StartOK(o, tasks, seed);
    NothingDispatched(tasks, 0);
    forall i | 0 <= i < |tasks|
      ensures Ledger([], tasks[i])
    {
      assert Fresh(tasks[i]);
    }
  }

  lemma {:induction false} NothingDispatched(tasks: seq<Task>, k: nat)
    requires k <= |tasks| && forall i :: 0 <= i < |tasks| ==> Fresh(tasks[i])
    ensures Total(DispatchCount, tasks, k) == 0
    decreases |tasks| - k
  {
    if k < |tasks| {
      assert Fresh(tasks[k]);
      NothingDispatched(tasks, k + 1);
    }
  }

  /** Unfolds one iteration of the loop. */
  lemma LoopUnfolds(o: Options, h: Head)
    requires HeadOK(o, h)
    ensures Stops(o, h) ==> Loop(o, h) == Stopped(o, h)
    ensures !Stops(o, h) ==>
      && Drawable(h) && HeadOK(o, Iterate(o, h))
      && 0 <= UnitsLeft(Iterate(o, h).tasks) < UnitsLeft(h.tasks)
      && Loop(o, h) == Loop(o, Iterate(o, h))
  {
    if !Stops(o, h) {
      DrawSucceeds(o, h);
      IterateOK(o, h);
      UnitsLeftNonNegative(Iterate(o, h).tasks, 0);
      hide DrawnTask;
      hide DrawnTicket;
      hide NextSeed;
      hide Dispatch;
    }
  }

  /** The head at which the loop exits, books in order. */
  lemma {:induction false} LoopBooks(o: Options, tasks: seq<Task>, seed: bv32, h: Head) returns (last: Head)
    requires Books(o, tasks, seed, h)
    ensures Books(o, tasks, seed, last) && Stops(o, last)
    ensures Loop(o, h) == Stopped(o, last)
    ensures o.maxDispatches > 0 && DispatchesMade(h.tasks) <= o.maxDispatches < U32_MAX ==>
      DispatchesMade(last.tasks) <= o.maxDispatches
    decreases UnitsLeft(h.tasks)
  {
    LoopUnfolds(o, h);
    last := h;
    if !Stops(o, h) {
      IterateBooks(o, tasks, seed, h);
      CapHolds(o, tasks, seed, h);
      hide *;
      last := LoopBooks(o, tasks, seed, Iterate(o, h));
    }
  }

  /** A cap that the 32-bit counter can exceed is not overrun by the next dispatch. */
  lemma CapHolds(o: Options, tasks: seq<Task>, seed: bv32, h: Head)
    requires Books(o, tasks, seed, h) && !Stops(o, h) && Drawable(h)
    ensures o.maxDispatches > 0 && DispatchesMade(h.tasks) <= o.maxDispatches < U32_MAX ==>
      DispatchesMade(Iterate(o, h).tasks) <= o.maxDispatches
  {
    hide *;
    GoesOn(o, h);
    BooksHead(o, tasks, seed, h);
    DrawSucceeds(o, h);
    IterateOK(o, h);
    CountsAtExit(o, tasks, seed, h);
    if 0 < DispatchesMade(h.tasks) + 1 <= U32_MAX {
      NotWrapped(DispatchesMade(h.tasks) + 1);
    }
  }

  lemma GoesOn(o: Options, h: Head)
    requires !Stops(o, h)
    ensures !AllFinished(h.tasks) && (o.maxDispatches > 0 ==> h.number <= o.maxDispatches)
  {
  }

  lemma BooksHead(o: Options, tasks: seq<Task>, seed: bv32, h: Head)
    requires Books(o, tasks, seed, h)
    ensures HeadOK(o, h)
  {
  }

  /** At every head, and at the end, a task has run its dispatches' worth of units, or all of its work. */
  lemma UnitsDone(o: Options, t: Task)
    requires TaskOK(o, t)
    ensures t.done == Min(t.dispatches * Limit(o, t), t.work)
  {
  }

  // How runs end.

  /** The cap is one a 32-bit dispatch counter can exceed. */
  predicate Capped(o: Options) {
    0 < o.maxDispatches < U32_MAX
  }

  /** The dispatches a run makes, before it is run. */
  function RunLength(o: Options, tasks: seq<Task>): int {
    if Capped(o) then Min(o.maxDispatches, DispatchesNeeded(o, tasks)) else DispatchesNeeded(o, tasks)
  }

  /** The cap, if there is one that counts, leaves room for all dispatches needed. */
  predicate Complete(o: Options, tasks: seq<Task>) {
    Capped(o) ==> DispatchesNeeded(o, tasks) <= o.maxDispatches
  }

  lemma ExitReason(o: Options, h: Head)
    requires Stops(o, h)
    ensures (o.maxDispatches > 0 && h.number > o.maxDispatches) || AllFinished(h.tasks)
    ensures DispatchesMade(Stopped(o, h).tasks) == DispatchesMade(h.tasks)
  {
    ShutDownKeeps(h.tasks);
  }

  lemma CountsAtExit(o: Options, tasks: seq<Task>, seed: bv32, h: Head)
    requires Books(o, tasks, seed, h)
    ensures 0 <= DispatchesMade(h.tasks) <= DispatchesNeeded(o, tasks)
    ensures DispatchesMade(h.tasks) == DispatchesNeeded(o, tasks) <==> AllFinished(h.tasks)
    ensures h.number == Wrap(DispatchesMade(h.tasks) + 1)
  {
    NeededSame(o, tasks, h.tasks, 0);
    MadeReachesNeeded(o, h);
    hide PairsOK;
    hide Total;
    hide Ledger;
  }

  lemma LedgerMeans(log: seq<Event>, t: Task)
    requires Ledger(log, t)
    ensures Won(log, t.id) == t.dispatches && UnitsRun(log, t.id) == t.done
    ensures FirstNumber(log, t.id) == t.first && LastNumber(log, t.id) == t.last
  {
  }

  lemma SameFields(t: Task, u: Task)
    requires SameTask(t, u)
    ensures t.id == u.id && t.work == u.work
  {
  }

  lemma LimitOfSame(o: Options, t: Task, u: Task)
    requires SameTask(t, u)
    ensures Limit(o, t) == Limit(o, u) && Needed(o, t) == Needed(o, u)
  {
  }

  lemma ShutDownKeeps(tasks: seq<Task>)
    ensures DispatchesMade(ShutDownAll(tasks)) == DispatchesMade(tasks)
  {
    ShutDownKeepsFrom(tasks, 0);
  }

  lemma {:induction false} ShutDownKeepsFrom(tasks: seq<Task>, k: nat)
    requires k <= |tasks|
    ensures Total(DispatchCount, ShutDownAll(tasks), k) == Total(DispatchCount, tasks, k)
    decreases |tasks| - k
  {
    if k < |tasks| {
      ShutDownKeepsFrom(tasks, k + 1);
    }
  }

  /** Every run makes the dispatches foretold, and its last head has all tasks finished or the cap reached. */
  lemma RunEnds(o: Options, tasks: seq<Task>, seed: bv32) returns (last: Head)
    requires Initial(tasks)
    ensures HeadOK(o, Start(tasks, seed))
    ensures Books(o, tasks, seed, last) && Stops(o, last) && Loop(o, Start(tasks, seed)) == Stopped(o, last)
    ensures DispatchesMade(last.tasks) == DispatchesMade(Stopped(o, last).tasks) == RunLength(o, tasks)
    ensures AllFinished(last.tasks) <==> Complete(o, tasks)
  {
    hide *;
    StartBooks(o, tasks, seed);
    last := LoopBooks(o, tasks, seed, Start(tasks, seed));
    CountsAtExit(o, tasks, seed, last);
    ExitReason(o, last);
    LengthArithmetic(o, tasks, DispatchesMade(last.tasks), last.number, AllFinished(last.tasks));
  }

  lemma LengthArithmetic(o: Options, tasks: seq<Task>, made: nat, number: U32, finished: bool)
    requires number == Wrap(made + 1)
    requires (o.maxDispatches > 0 && number > o.maxDispatches) || finished
    requires made <= DispatchesNeeded(o, tasks) && (made == DispatchesNeeded(o, tasks) <==> finished)
    requires 0 < o.maxDispatches < U32_MAX ==> made <= o.maxDispatches
    ensures made == RunLength(o, tasks)
    ensures finished <==> Complete(o, tasks)
  {
    hide DispatchesNeeded;
  }

  /**
   * The end of every run, for every seed: all tasks are FINISHED, the run has made the dispatches
   * foretold, every counter is accounted for in the log, and each task has done its dispatches' worth
   * of units. Exactly when the cap leaves room, that is all work of all tasks, and then each has taken
   * as many dispatches as its work divided by its limit, rounded up.
   */
  lemma RunTotals(o: Options, tasks: seq<Task>, seed: bv32)
    requires Initial(tasks)
    ensures HeadOK(o, Start(tasks, seed))
    ensures var e := Loop(o, Start(tasks, seed));
      && SameTasks(tasks, e.tasks) && AllFinished(e.tasks)
      && |e.log| == 2 * DispatchesMade(e.tasks) && DispatchesMade(e.tasks) == RunLength(o, tasks)
      && PairsOK(o, tasks, seed, e.log)
      && (forall i :: 0 <= i < |e.tasks| ==> Served(o, e.log, e.tasks[i]))
      && ((forall i :: 0 <= i < |e.tasks| ==> e.tasks[i].done == e.tasks[i].work) <==> Complete(o, tasks))
      && (Complete(o, tasks) ==> forall i :: 0 <= i < |e.tasks| ==> e.tasks[i].dispatches == Needed(o, e.tasks[i]))
  {
    var last := RunEnds(o, tasks, seed);
    var e := Loop(o, Start(tasks, seed));
    BooksAtEnd(o, tasks, seed, last);
    hide *;
    forall i | 0 <= i < |e.tasks|
      ensures Served(o, e.log, e.tasks[i]) && SameTask(tasks[i], e.tasks[i]) && e.tasks[i].state == Finished
      ensures e.tasks[i].done == e.tasks[i].work <==> last.tasks[i].state == Finished
      ensures last.tasks[i].state == Finished ==> e.tasks[i].dispatches == Needed(o, e.tasks[i])
    {
      ServedAtEnd(o, tasks, seed, last, i);
    }
    EverySame(tasks, e.tasks);
    EveryFinished(e.tasks);
    EveryFinished(last.tasks);
  }

  /** A task at the end of a run: its counters are those of the log, and it has run its dispatches' worth. */
  predicate Served(o: Options, log: seq<Event>, t: Task) {
    Ledger(log, t) && t.pi == At(t.done) && t.done == Min(t.dispatches * Limit(o, t), t.work)
  }

  lemma EverySame(ts: seq<Task>, us: seq<Task>)
    requires |ts| == |us| && forall i :: 0 <= i < |us| ==> SameTask(ts[i], us[i])
    ensures SameTasks(ts, us)
  {
  }

  lemma EveryFinished(ts: seq<Task>)
    ensures AllFinished(ts) <==> forall i :: 0 <= i < |ts| ==> ts[i].state == Finished
  {
  }

  lemma BooksAtEnd(o: Options, tasks: seq<Task>, seed: bv32, last: Head)
    requires Books(o, tasks, seed, last)
    ensures var e := Stopped(o, last);
      && |e.tasks| == |last.tasks| == |tasks| && e.log == last.log
      && |e.log| == 2 * DispatchesMade(last.tasks) && PairsOK(o, tasks, seed, e.log)
  {
    hide PairsOK;
    hide HeadOK;
    hide DispatchesMade;
    hide Ledger;
  }

  /** Shutting a task down changes nothing but its state, so the end shows what the last head shows. */
  lemma ServedAtEnd(o: Options, tasks: seq<Task>, seed: bv32, last: Head, i: nat)
    requires Books(o, tasks, seed, last) && Stops(o, last) && i < |last.tasks|
    ensures |Stopped(o, last).tasks| == |last.tasks| == |tasks|
    ensures var u, t := last.tasks[i], Stopped(o, last).tasks[i];
      && Served(o, Stopped(o, last).log, t) && SameTask(tasks[i], t) && t.state == Finished
      && (t.done == t.work <==> u.state == Finished)
      && t.dispatches <= Needed(o, t) && (u.state == Finished ==> t.dispatches == Needed(o, t))
  {
    var u, t := last.tasks[i], Stopped(o, last).tasks[i];
    assert TaskOK(o, u) && SameTask(tasks[i], u) && Ledger(last.log, u);
    assert t == u.(state := Finished) && (u.state == Ready || u.state == Finished);
    UnitsDone(o, u);
    NeededReached(o, u);
    LimitOfSame(o, u, t);
    hide Limit;
    hide Needed;
    hide At;
    hide HeadOK;
    hide PairsOK;
    hide SameTasks;
    hide DispatchesMade;
    hide CompensatedTickets;
    hide Won;
    hide UnitsRun;
    hide FirstNumber;
    hide LastNumber;
  }

  /** When the cap leaves room, for one task: the log shows all of its work, in the dispatches it needs. */
  lemma EveryTaskServed(o: Options, tasks: seq<Task>, seed: bv32, i: nat)
    requires Initial(tasks) && i < |tasks|
    ensures HeadOK(o, Start(tasks, seed))
    ensures var log, t := Loop(o, Start(tasks, seed)).log, tasks[i];
      && |log| == 2 * RunLength(o, tasks)
      && UnitsRun(log, t.id) == Min(Won(log, t.id) * Limit(o, t), t.work) && Won(log, t.id) <= Needed(o, t)
      && (Complete(o, tasks) ==> UnitsRun(log, t.id) == t.work && Won(log, t.id) == Needed(o, t))
  {
    var last := RunEnds(o, tasks, seed);
    var e := Loop(o, Start(tasks, seed));
    BooksAtEnd(o, tasks, seed, last);
    ServedAtEnd(o, tasks, seed, last, i);
    hide *;
    var t := e.tasks[i];
    LimitOfSame(o, tasks[i], t);
    ServedMeans(o, e.log, t);
    SameFields(tasks[i], t);
    EveryFinished(last.tasks);
  }

  lemma ServedMeans(o: Options, log: seq<Event>, t: Task)
    requires Served(o, log, t)
    ensures Won(log, t.id) == t.dispatches
    ensures UnitsRun(log, t.id) == t.done == Min(t.dispatches * Limit(o, t), t.work)
  {
    hide Limit;
    hide At;
  }

  /**
   * A cap of D performs min(D, dispatches needed) dispatches, with one exception that follows from
   * the width of the dispatch counter: the largest cap, 2^32 - 1, can never be exceeded by a 32-bit
   * counter, so it caps nothing.
   */
  lemma CappedRun(o: Options, tasks: seq<Task>, seed: bv32)
    requires Initial(tasks) && o.maxDispatches > 0
    ensures HeadOK(o, Start(tasks, seed))
    ensures var made := DispatchesMade(Loop(o, Start(tasks, seed)).tasks);
      var needed := DispatchesNeeded(o, tasks);
      && (made == Min(o.maxDispatches, needed) <==> o.maxDispatches < U32_MAX || needed <= o.maxDispatches)
      && (o.maxDispatches == U32_MAX ==> made == needed)
  {
    var _ := RunEnds(o, tasks, seed);
    hide DispatchesNeeded;
    hide DispatchesMade;
    hide Loop;
  }
}
