/** The dispatch counter has 32 bits: what dispatch numbers mean, and exactly which runs outgrow them. */
module Counter {
  import opened Numbers
  import opened TaskModel
  import opened Sequential
  import opened Accounting

  // The numbers in the log.

  /** Alternating lines, numbered from 1 on, each pair about one task. */
  predicate Numbered(log: seq<Event>) {
    && |log| % 2 == 0
    && forall k :: 0 <= k < |log| / 2 ==> PairNumbered(log, k)
  }

  predicate PairNumbered(log: seq<Event>, k: nat)
    requires 2 * k + 1 < |log|
  {
    var c, r := log[2 * k], log[2 * k + 1];
    c.Chosen? && r.Reported? && c.number == Wrap(k + 1) && c.id == r.id
  }

  lemma PairsNumbered(o: Options, tasks: seq<Task>, seed: bv32, log: seq<Event>)
    requires PairsOK(o, tasks, seed, log)
    ensures Numbered(log)
  {
    forall k | 0 <= k < |log| / 2
      ensures PairNumbered(log, k)
    {
      var i :| 0 <= i < |tasks| && PairOK(o, tasks[i], seed, k, log[2 * k], log[2 * k + 1]);
    }
  }

  lemma NumberedShrinks(log: seq<Event>)
    requires Numbered(log) && log != []
    ensures |log| >= 2 && Numbered(log[..|log| - 2])
    ensures PairNumbered(log, |log| / 2 - 1)
    ensures log == log[..|log| - 2] + [log[|log| - 2], log[|log| - 1]]
  {
    var p := log[..|log| - 2];
    forall k | 0 <= k < |p| / 2
      ensures PairNumbered(p, k)
    {
      assert PairNumbered(log, k);
    }
  }

  /** The log has a line of dispatch `number` that chose `id`. */
  predicate ChosenAt(log: seq<Event>, number: nat, id: U32) {
    1 <= number <= |log| / 2 && log[2 * (number - 1)].id == id
  }

  /**
   * The dispatches that `first_dispatch` and `last_dispatch` stand for, counted without wrapping: the
   * first and the last the log shows for `id`, far enough apart to hold all it won.
   */
  lemma {:induction false} FirstAndLast(log: seq<Event>, id: U32) returns (f: nat, l: nat)
    requires Numbered(log)
    ensures Won(log, id) == 0 ==> FirstNumber(log, id) == LastNumber(log, id) == 0 && f == l == 0
    ensures Won(log, id) > 0 ==>
      && FirstNumber(log, id) == Wrap(f) && LastNumber(log, id) == Wrap(l)
      && ChosenAt(log, f, id) && ChosenAt(log, l, id)
      && 1 <= f <= l <= |log| / 2 && l - f + 1 >= Won(log, id)
    ensures forall k: nat :: k < f || k > l ==> !ChosenAt(log, k, id)
    decreases |log|
  {
    f, l := 0, 0;
    if log != [] {
      NumberedShrinks(log);
      var p := log[..|log| - 2];
      var n := |log| / 2;
      f, l := FirstAndLast(p, id);
      var c, r := log[|log| - 2], log[|log| - 1];
      assert c.Chosen? && r.Reported? && c.id == r.id && c.number == Wrap(n);
      hide Numbered;
      hide PairNumbered;
      hide Won;
      hide FirstNumber;
      hide LastNumber;
      hide Wrap;
      AppendPair(p, c, r, id);
      ChosenGrows(p, log, id);
      if c.id == id {
        f, l := if Won(p, id) == 0 then n else f, n;
      }
    }
  }

  lemma ChosenGrows(p: seq<Event>, log: seq<Event>, id: U32)
    requires |log| % 2 == 0 && |log| == |p| + 2 && p == log[..|p|]
    ensures forall k: nat :: ChosenAt(log, k, id) <==>
      ChosenAt(p, k, id) || (k == |log| / 2 && log[|log| - 2].id == id)
  {
  }

  /** The dispatch counter is one ahead of the dispatches made exactly until it wraps. */
  lemma CounterExact(o: Options, tasks: seq<Task>, seed: bv32, h: Head)
    requires Books(o, tasks, seed, h)
    ensures DispatchesMade(h.tasks) == h.number - 1 <==> DispatchesMade(h.tasks) < U32_MAX
  {
    hide *;
    CountsAtExit(o, tasks, seed, h);
    OneAhead(DispatchesMade(h.tasks), h.number);
  }

  lemma OneAhead(made: nat, number: U32)
    requires number == Wrap(made + 1)
    ensures made == number - 1 <==> made < U32_MAX
  {
  }

  /**
   * At every head, however long the run: the counters of all tasks add up to the dispatches made, the
   * dispatch number is one more, modulo 2^32, and each task's two numbers are those of its first and
   * last dispatch, modulo 2^32. Until the counter wraps, the modulus makes no difference.
   */
  lemma Bookkeeping(o: Options, tasks: seq<Task>, seed: bv32, h: Head, i: nat) returns (f: nat, l: nat)
    requires Books(o, tasks, seed, h) && i < |h.tasks|
    ensures var t, made := h.tasks[i], DispatchesMade(h.tasks);
      && h.number == Wrap(made + 1) && |h.log| == 2 * made
      && (t.dispatches == 0 ==> t.first == t.last == 0)
      && (t.dispatches > 0 ==>
            && t.first == Wrap(f) && t.last == Wrap(l)
            && ChosenAt(h.log, f, t.id) && ChosenAt(h.log, l, t.id)
            && 1 <= f <= l <= made && l - f + 1 >= t.dispatches)
      && (forall k: nat :: k < f || k > l ==> !ChosenAt(h.log, k, t.id))
      && (made < U32_MAX ==> made == h.number - 1 && (t.dispatches > 0 ==> 1 <= t.first == f <= t.last == l < h.number))
  {
    BookFacts(o, tasks, seed, h, i);
    CountsAtExit(o, tasks, seed, h);
    CounterExact(o, tasks, seed, h);
    LedgerMeans(h.log, h.tasks[i]);
    hide Books;
    hide Ledger;
    hide Numbered;
    hide DispatchesMade;
    hide Won;
    hide UnitsRun;
    hide FirstNumber;
    hide LastNumber;
    hide ChosenAt;
    f, l := FirstAndLast(h.log, h.tasks[i].id);
    if h.tasks[i].dispatches > 0 && DispatchesMade(h.tasks) < U32_MAX {
      NotWrapped(f);
      NotWrapped(l);
    }
    hide Wrap;
  }

  lemma BookFacts(o: Options, tasks: seq<Task>, seed: bv32, h: Head, i: nat)
    requires Books(o, tasks, seed, h) && i < |h.tasks|
    ensures |h.log| == 2 * DispatchesMade(h.tasks) && h.number == Wrap(DispatchesMade(h.tasks) + 1)
    ensures Ledger(h.log, h.tasks[i]) && Numbered(h.log)
  {
    hide Total;
    hide HeadOK;
    hide SameTasks;
    hide DistinctIds;
    PairsNumbered(o, tasks, seed, h.log);
  }

  /** No two dispatches in the log share a number. */
  predicate NumbersDistinct(log: seq<Event>)
    requires Numbered(log)
  {
    forall j, k :: 0 <= j < k < |log| / 2 ==> log[2 * j].number != log[2 * k].number
  }

  lemma DistinctUntilWrap(log: seq<Event>)
    requires Numbered(log)
    ensures NumbersDistinct(log) <==> |log| / 2 <= U32_MODULUS
  {
    var n := |log| / 2;
    if n > U32_MODULUS {
      assert PairNumbered(log, 0) && PairNumbered(log, U32_MODULUS);
      assert log[2 * 0].number == log[2 * U32_MODULUS].number;
    } else {
      forall j, k | 0 <= j < k < n
        ensures log[2 * j].number != log[2 * k].number
      {
        assert PairNumbered(log, j) && PairNumbered(log, k);
      }
    }
  }

  // Which runs stay within the counter, by their inputs.

  /** A run makes at most `limit` dispatches, by its cap or by its tasks. */
  predicate Within(o: Options, tasks: seq<Task>, limit: int) {
    Capped(o) || DispatchesNeeded(o, tasks) <= limit
  }

  lemma LengthWithin(o: Options, tasks: seq<Task>, limit: int)
    requires U32_MAX - 1 <= limit
    ensures RunLength(o, tasks) <= limit <==> Within(o, tasks, limit)
  {
    hide DispatchesNeeded;
  }

  /**
   * For every seed, no two dispatches of a run share a number if and only if the run is capped below
   * 2^32 - 1 or its tasks need at most 2^32 dispatches.
   */
  lemma RunNumbersDistinct(o: Options, tasks: seq<Task>, seed: bv32)
    requires Initial(tasks)
    ensures HeadOK(o, Start(tasks, seed)) && Numbered(Loop(o, Start(tasks, seed)).log)
    ensures NumbersDistinct(Loop(o, Start(tasks, seed)).log) <==> Within(o, tasks, U32_MODULUS)
  {
    RunTotals(o, tasks, seed);
    var log := Loop(o, Start(tasks, seed)).log;
    hide *;
    PairsNumbered(o, tasks, seed, log);
    DistinctUntilWrap(log);
    LengthWithin(o, tasks, U32_MODULUS);
  }

  /**
   * For every seed, the counter ends one ahead of the dispatches made if and only if the run is capped
   * below 2^32 - 1 or its tasks need fewer than 2^32 - 1 dispatches.
   */
  lemma RunCounterExact(o: Options, tasks: seq<Task>, seed: bv32)
    requires Initial(tasks)
    ensures HeadOK(o, Start(tasks, seed))
    ensures var e := Loop(o, Start(tasks, seed));
      DispatchesMade(e.tasks) == e.number - 1 <==> Within(o, tasks, U32_MAX - 1)
  {
    var last := RunEnds(o, tasks, seed);
    CounterExact(o, tasks, seed, last);
    LengthWithin(o, tasks, U32_MAX - 1);
    hide HeadOK;
    hide Books;
    hide DispatchesMade;
    hide RunLength;
    hide Within;
    hide ShutDownAll;
    hide Loop;
  }

  // Runs that outgrow it.

  /** Five tasks of one ticket and as much work as a task can have. */
  function Crowd(): seq<Task> {
    seq(5, i requires 0 <= i < 5 => Create(i + 1, 1, 0xFFFF_FFFF, Number(1.0)))
  }

  lemma CrowdNeeds(o: Options)
    requires o.quantum == 1
    ensures Initial(Crowd()) && DispatchesNeeded(o, Crowd()) == 5 * U32_MAX
  {
    var ts := Crowd();
    forall i | 0 <= i < 5
      ensures NeededBy(o)(ts[i]) == U32_MAX
    {
      OneByOne(o, ts[i]);
    }
    assert |ts| == 5 && Initial(ts);
    hide *;
    TotalEqual(NeededBy(o), ts, U32_MAX, 0);
    CrowdSum(o);
  }

  lemma OneByOne(o: Options, t: Task)
    requires o.quantum == 1 && t.slice == 0 && t.yieldFraction == 1.0
    ensures NeededBy(o)(t) == t.work
  {
    LimitMeans(o, t);
    hide Limit;
    CeilDivUnique(t.work, 1, t.work);
  }

  lemma CrowdSum(o: Options)
    ensures DispatchesNeeded(o, Crowd()) == Total(NeededBy(o), Crowd(), 0)
  {
    hide Crowd;
    hide Total;
  }

  /** With a quantum of 1 the largest cap is overrun about fivefold, for every seed. */
  lemma CapOverrun(o: Options, seed: bv32)
    requires o.quantum == 1 && o.maxDispatches == U32_MAX
    ensures Initial(Crowd()) && HeadOK(o, Start(Crowd(), seed))
    ensures DispatchesMade(Loop(o, Start(Crowd(), seed)).tasks) == 5 * U32_MAX > o.maxDispatches
  {
    CrowdNeeds(o);
    CappedRun(o, Crowd(), seed);
    hide *;
  }

  /** ... and without a cap, or with that one, dispatch numbers repeat. */
  lemma NumbersRepeat(o: Options, seed: bv32)
    requires o.quantum == 1 && (o.maxDispatches == 0 || o.maxDispatches == U32_MAX)
    ensures Initial(Crowd()) && HeadOK(o, Start(Crowd(), seed)) && Numbered(Loop(o, Start(Crowd(), seed)).log)
    ensures !NumbersDistinct(Loop(o, Start(Crowd(), seed)).log)
  {
    CrowdNeeds(o);
    RunNumbersDistinct(o, Crowd(), seed);
    hide DispatchesNeeded;
    hide Crowd;
    hide Loop;
    hide NumbersDistinct;
  }
}
