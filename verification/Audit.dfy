/** The log says everything: from the tasks, the options and the seed it can be checked line by line. */
module Audit {
  import opened Numbers
  import opened SeriesModel
  import opened TaskModel
  import opened Rng
  import opened Lottery
  import opened Sequential
  import opened Accounting

  // What a log says about the tasks.

  /** The record of a task that started as `t`, as far as `log` tells. */
  function Seen(o: Options, t: Task, log: seq<Event>): Task {
    var done := Min(UnitsRun(log, t.id), t.work);
    t.(done := done, dispatches := Wrap(Won(log, t.id)),
       first := FirstNumber(log, t.id), last := LastNumber(log, t.id),
       state := if done < t.work then Ready else Finished,
       pi := At(done),
       effective := if Won(log, t.id) == 0 then t.tickets
                    else CompensatedTickets(o.compensation, t.tickets, t.yieldFraction))
  }

  function Recovered(o: Options, tasks: seq<Task>, log: seq<Event>): (ts: seq<Task>)
    ensures |ts| == |tasks|
  {
    seq(|tasks|, i requires 0 <= i < |tasks| => Seen(o, tasks[i], log))
  }

  /** The ticket of dispatch `k` (counting from 0), with `active` tickets in the draw. */
  function TicketOf(seed: bv32, k: nat, active: nat): U32
    requires active > 0
  {
    if seed == 0 then 0 else Ticket(Value(Rng.State(seed, k + 1)), active)
  }

  /**
   * The two lines of dispatch `k` are what the lines before them call for: the tickets in the draw are
   * those of the tasks with work left, the task named is the one the walk reaches for the ticket, and
   * it runs its limit or what is left.
   */
  predicate PairAudited(o: Options, tasks: seq<Task>, seed: bv32, log: seq<Event>, k: nat)
    requires 2 * k + 1 < |log|
  {
    var ts := Recovered(o, tasks, log[..2 * k]);
    var active := ActiveTickets(ts);
    && active > 0
    && var ticket := TicketOf(seed, k, active);
       var w := Winner(ts, ticket);
       && w < |ts|
       && LinesFor(o, ts[w], Wrap(k + 1), ticket, active, log[2 * k], log[2 * k + 1])
  }

  /** The lines of a dispatch of `t`, field by field. */
  predicate LinesFor(o: Options, t: Task, number: U32, ticket: U32, active: nat, c: Event, r: Event) {
    && t.done < t.work
    && var run := Min(Limit(o, t), t.work - t.done);
       && c == Chosen(number, t.id, ticket, active, t.work - t.done)
       && r == Reported(number, t.id, run, t.done + run, if t.done + run == t.work then Finished else Ready,
                        CompensatedTickets(o.compensation, t.tickets, t.yieldFraction), t.work - t.done - run)
  }

  predicate Audited(o: Options, tasks: seq<Task>, seed: bv32, log: seq<Event>) {
    && |log| % 2 == 0
    && forall k :: 0 <= k < |log| / 2 ==> PairAudited(o, tasks, seed, log, k)
  }

  // The log of a run passes.

  /** At every head the log tells the whole state of every task. */
  lemma BooksRecovered(o: Options, tasks: seq<Task>, seed: bv32, h: Head)
    requires Books(o, tasks, seed, h)
    ensures h.tasks == Recovered(o, tasks, h.log)
  {
    assert |h.tasks| == |tasks|;
    forall i | 0 <= i < |h.tasks|
      ensures h.tasks[i] == Seen(o, tasks[i], h.log)
    {
      BooksParts(o, tasks, seed, h, i);
      SeenIs(o, tasks[i], h.tasks[i], h.log);
    }
    hide Books;
    hide Seen;
  }

  lemma SeenIs(o: Options, t: Task, u: Task, log: seq<Event>)
    requires SameTask(t, u) && TaskOK(o, u) && Ledger(log, u)
    ensures u == Seen(o, t, log)
  {
    hide Limit;
    hide At;
    hide CompensatedTickets;
    hide Won;
    hide UnitsRun;
    hide FirstNumber;
    hide LastNumber;
    NotWrapped(u.dispatches);
  }

  lemma LinesWritten(o: Options, t: Task, number: U32, ticket: U32, active: nat)
    requires TaskOK(o, t) && t.state == Ready
    ensures LinesFor(o, t, number, ticket, active, ChosenEvent(number, t, ticket, active),
                     ReportedEvent(number, Dispatch(o, t, number), t.done))
  {
    DispatchRuns(o, t, number);
    var run := Min(Limit(o, t), t.work - t.done);
    EventFields(o, t, Dispatch(o, t, number), number, run, ticket, active);
    hide TaskOK;
    hide Dispatch;
    hide Dispatched;
    hide Limit;
    hide CompensatedTickets;
    hide ChosenEvent;
    hide ReportedEvent;
  }

  /** Later lines do not touch what was audited. */
  lemma PairKept(o: Options, tasks: seq<Task>, seed: bv32, log: seq<Event>, l: seq<Event>, k: nat)
    requires 2 * k + 1 < |log| && log <= l && PairAudited(o, tasks, seed, log, k)
    ensures PairAudited(o, tasks, seed, l, k)
  {
    assert l[..2 * k] == log[..2 * k] && l[2 * k] == log[2 * k] && l[2 * k + 1] == log[2 * k + 1];
    hide Recovered;
    hide LinesFor;
    hide TicketOf;
    hide Winner;
    hide Total;
  }

  lemma AuditGrows(o: Options, tasks: seq<Task>, seed: bv32, log: seq<Event>, k: nat, w: nat, c: Event, r: Event)
    requires Audited(o, tasks, seed, log) && |log| == 2 * k
    requires var ts := Recovered(o, tasks, log);
      && ActiveTickets(ts) > 0
      && var ticket := TicketOf(seed, k, ActiveTickets(ts));
         w == Winner(ts, ticket) < |ts| && LinesFor(o, ts[w], Wrap(k + 1), ticket, ActiveTickets(ts), c, r)
    ensures Audited(o, tasks, seed, log + [c, r])
  {
    hide *;
    var l := log + [c, r];
    PairAdded(o, tasks, seed, log, k, w, c, r);
    AuditedPairs(o, tasks, seed, log);
    forall j | 0 <= j < k
      ensures PairAudited(o, tasks, seed, l, j)
    {
      PairKept(o, tasks, seed, log, l, j);
    }
    PairsAudited(o, tasks, seed, l, k + 1);
  }

  lemma AuditedPairs(o: Options, tasks: seq<Task>, seed: bv32, log: seq<Event>)
    requires Audited(o, tasks, seed, log)
    ensures forall j :: 0 <= j && 2 * j + 1 < |log| ==> PairAudited(o, tasks, seed, log, j)
  {
    hide PairAudited;
  }

  lemma PairsAudited(o: Options, tasks: seq<Task>, seed: bv32, log: seq<Event>, n: nat)
    requires |log| == 2 * n && forall j :: 0 <= j < n ==> PairAudited(o, tasks, seed, log, j)
    ensures Audited(o, tasks, seed, log)
  {
    hide PairAudited;
  }

  lemma PairAdded(o: Options, tasks: seq<Task>, seed: bv32, log: seq<Event>, k: nat, w: nat, c: Event, r: Event)
    requires |log| == 2 * k
    requires var ts := Recovered(o, tasks, log);
      && ActiveTickets(ts) > 0
      && var ticket := TicketOf(seed, k, ActiveTickets(ts));
         w == Winner(ts, ticket) < |ts| && LinesFor(o, ts[w], Wrap(k + 1), ticket, ActiveTickets(ts), c, r)
    ensures PairAudited(o, tasks, seed, log + [c, r], k)
  {
    var l := log + [c, r];
    assert l[..2 * k] == log && l[2 * k] == c && l[2 * k + 1] == r;
    hide Recovered;
    hide LinesFor;
    hide TicketOf;
    hide Winner;
    hide Total;
    hide Wrap;
  }

  /** An iteration writes the two lines its head's log calls for. */
  lemma IterateAudited(o: Options, tasks: seq<Task>, seed: bv32, h: Head)
    requires Books(o, tasks, seed, h) && Audited(o, tasks, seed, h.log) && !AllFinished(h.tasks)
    ensures Drawable(h) && Audited(o, tasks, seed, Iterate(o, h).log)
  {
    hide *;
    BooksHead(o, tasks, seed, h);
    DrawSucceeds(o, h);
    DrawableMeans(h);
    IterateSplits(o, h);
    var w := DrawnTask(h);
    BooksParts(o, tasks, seed, h, w);
    BooksRecovered(o, tasks, seed, h);
    var made := DispatchesMade(h.tasks);
    DrawTrajectory(seed, made, h);
    TicketIs(seed, made, ActiveTickets(h.tasks));
    LinesWritten(o, h.tasks[w], h.number, DrawnTicket(h), ActiveTickets(h.tasks));
    AuditGrows(o, tasks, seed, h.log, made, w,
               ChosenEvent(h.number, h.tasks[w], DrawnTicket(h), ActiveTickets(h.tasks)),
               ReportedEvent(h.number, Dispatch(o, h.tasks[w], h.number), h.tasks[w].done));
  }

  lemma DrawableMeans(h: Head)
    requires Drawable(h)
    ensures ActiveTickets(h.tasks) > 0 && DrawnTask(h) == Winner(h.tasks, DrawnTicket(h)) < |h.tasks|
  {
    hide DrawnTicket;
    hide Winner;
    hide Total;
  }

  lemma TicketIs(seed: bv32, k: nat, active: nat)
    requires active > 0
    ensures TicketOf(seed, k, active) == if seed == 0 then 0 else Ticket(Value(Rng.State(seed, k + 1)), active)
  {
    hide Ticket;
    hide Value;
    hide Rng.State;
  }

  lemma {:induction false} LoopAudited(o: Options, tasks: seq<Task>, seed: bv32, h: Head)
    requires Books(o, tasks, seed, h) && Audited(o, tasks, seed, h.log) && HeadOK(o, h)
    ensures Audited(o, tasks, seed, Loop(o, h).log)
    decreases UnitsLeft(h.tasks)
  {
    hide *;
    LoopUnfolds(o, h);
    if Stops(o, h) {
      SameLog(o, h);
    } else {
      GoesOn(o, h);
      IterateBooks(o, tasks, seed, h);
      IterateAudited(o, tasks, seed, h);
      LoopAudited(o, tasks, seed, Iterate(o, h));
    }
  }

  lemma SameLog(o: Options, h: Head)
    ensures Stopped(o, h).log == h.log
  {
  }

  /** Only one log of a given length passes. */
  lemma {:induction false} AuditUnique(o: Options, tasks: seq<Task>, seed: bv32, a: seq<Event>, b: seq<Event>, n: nat)
    requires Audited(o, tasks, seed, a) && Audited(o, tasks, seed, b)
    requires 2 * n <= |a| && |a| == |b|
    ensures a[..2 * n] == b[..2 * n]
  {
    if n > 0 {
      AuditUnique(o, tasks, seed, a, b, n - 1);
      var k := n - 1;
      assert PairAudited(o, tasks, seed, a, k) && PairAudited(o, tasks, seed, b, k);
      hide Audited;
      hide Recovered;
      hide TicketOf;
      hide Winner;
      hide Total;
      hide Limit;
      hide CompensatedTickets;
      assert a[2 * k] == b[2 * k] && a[2 * k + 1] == b[2 * k + 1];
      assert a[..2 * n] == a[..2 * k] + [a[2 * k], a[2 * k + 1]];
      assert b[..2 * n] == b[..2 * k] + [b[2 * k], b[2 * k + 1]];
    }
  }

  /**
   * The log of a run, characterised: it is the one log that has a pair of lines for every dispatch the
   * run makes and in which each pair is what the lines before it call for. Nothing but the tasks, the
   * options and the seed is needed to check it.
   */
  lemma LogCharacterised(o: Options, tasks: seq<Task>, seed: bv32, log: seq<Event>)
    requires Initial(tasks)
    ensures HeadOK(o, Start(tasks, seed))
    ensures log == Loop(o, Start(tasks, seed)).log
       <==> |log| == 2 * RunLength(o, tasks) && Audited(o, tasks, seed, log)
  {
    StartBooks(o, tasks, seed);
    var start := Start(tasks, seed);
    RunTotals(o, tasks, seed);
    assert start.log == [] && Audited(o, tasks, seed, start.log);
    hide *;
    LoopAudited(o, tasks, seed, start);
    var final := Loop(o, start).log;
    if |log| == 2 * RunLength(o, tasks) && Audited(o, tasks, seed, log) {
      AuditUnique(o, tasks, seed, log, final, RunLength(o, tasks));
      assert log[..|log|] == log && final[..|final|] == final;
    }
  }
}
