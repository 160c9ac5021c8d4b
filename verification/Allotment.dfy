/** How much a dispatch is worth: cooperative slices, early yield and the tickets that make up for it. */
module Allotment {
  import opened Numbers
  import opened SeriesModel
  import opened TaskModel
  import opened Sequential
  import opened Accounting

  /** A percentage as the command line admits it. */
  type Percent = p: real | 0.0 < p <= 100.0 witness 100.0

  // Real products, one fact at a time.

  lemma ScaleLess(a: real, b: real, c: real)
    requires a <= b && 0.0 <= c
    ensures a * c <= b * c
  {
  }

  lemma Quotient(t: real, y: real)
    requires y > 0.0
    ensures (t / y) * y == t
  {
  }

  lemma PercentOf(w: real, p: real)
    requires 0.0 <= w && 0.0 < p <= 100.0
    ensures 0.0 <= Times(w, p) <= 100.0 * w
    ensures w > 0.0 ==> Times(w, p) > 0.0
  {
    ScaleLess(p, 100.0, w);
    ScaleLess(0.0, w, p);
    if w > 0.0 {
      PositiveTimes(w, p);
    }
  }

  /** The exact number of units a slice of `p` percent stands for. */
  function SliceShare(work: U32, p: Percent): (s: real)
    ensures 0.0 <= s <= work as real
    ensures work >= 1 ==> s > 0.0
  {
    PercentOf(work as real, p);
    hide Times;
    Times(work as real, p) / 100.0
  }

  /** `scheduler_configure_cooperative` and `task_set_slice` for one task. */
  function Slice(work: U32, p: Percent): (slice: U32)
    ensures 1 <= slice
    ensures work >= 1 ==> slice <= work && SliceShare(work, p) <= slice as real < SliceShare(work, p) + 1.0
  {
    hide SliceShare;
    var raw := Ceil(SliceShare(work, p));
    if raw >= 1 then raw else 1
  }

  /** The slice in numbers: `p` percent of the work, rounded up. */
  lemma SliceMeans(work: U32, p: Percent)
    requires 1 <= work
    ensures work as real * p / 100.0 <= Slice(work, p) as real < work as real * p / 100.0 + 1.0
  {
    ShareOfWork(work, p);
    hide SliceShare;
    hide Slice;
  }

  lemma ShareOfWork(work: U32, p: Percent)
    ensures SliceShare(work, p) == work as real * p / 100.0
  {
  }

  /** A slice is never empty. */
  function SliceSize(size: U32): U32 {
    if size >= 1 then size else 1
  }

  function WithSlice(t: Task, size: U32): Task {
    t.(slice := SliceSize(size))
  }

  /** Cooperative mode on the whole list. */
  function Cooperative(tasks: seq<Task>, p: Percent): seq<Task> {
    seq(|tasks|, i requires 0 <= i < |tasks| => WithSlice(tasks[i], Slice(tasks[i].work, p)))
  }

  /** `scheduler_configure_quantum` on the whole list. */
  function WithQuantum(tasks: seq<Task>, quantum: U32): seq<Task> {
    seq(|tasks|, i requires 0 <= i < |tasks| => WithSlice(tasks[i], SliceSize(quantum)))
  }

  /** A quantum stored in every task caps a dispatch exactly as the same quantum given as an option does. */
  lemma QuantumEitherWay(o: Options, tasks: seq<Task>, i: nat)
    requires i < |tasks| && tasks[i].slice == 0 && o.quantum >= 1
    ensures Limit(o, tasks[i]) == Limit(o.(quantum := 0), WithQuantum(tasks, o.quantum)[i])
    ensures Needed(o, tasks[i]) == Needed(o.(quantum := 0), WithQuantum(tasks, o.quantum)[i])
  {
    hide EarlyLimit;
    hide CeilDiv;
  }

  lemma CooperativeInitial(tasks: seq<Task>, p: Percent)
    requires Initial(tasks)
    ensures Initial(Cooperative(tasks, p))
  {
    var ts := Cooperative(tasks, p);
    forall i | 0 <= i < |ts|
      ensures Fresh(ts[i]) && ts[i].id == tasks[i].id
    {
      assert Fresh(tasks[i]);
    }
  }

  lemma ShareOfSlice(work: U32, slice: U32, p: Percent, y: Fraction)
    requires SliceShare(work, p) <= slice as real
    ensures work as real * (p * y / 100.0) <= Share(slice, y)
  {
    var s := SliceShare(work, p);
    ScaleLess(s, slice as real, y);
    assert s * y == work as real * (p * y / 100.0);
  }

  lemma Reassociate(w: real, a: real, x: real)
    requires x * a == 1.0
    ensures (w * a) * x == w
  {
    assert (w * a) * x == w * (x * a);
  }

  lemma WorkCovered(work: U32, limit: nat, a: real, cap: nat)
    requires a > 0.0 && work as real * a <= limit as real && 1.0 / a <= cap as real
    ensures work <= limit * cap
  {
    var x := 1.0 / a;
    Quotient(1.0, a);
    ScaleLess(work as real * a, limit as real, x);
    Reassociate(work as real, a, x);
    ScaleLess(x, cap as real, limit as real);
    assert work as real <= (limit * cap) as real;
  }

  lemma BlocksWithin(work: nat, limit: nat, cap: nat)
    requires 0 < limit && work <= limit * cap
    ensures CeilDiv(work, limit) <= cap
  {
    var q := CeilDiv(work, limit);
    ProductStep(q, limit);
    if cap < q {
      MultiplyOrder(cap, q - 1, limit);
    }
  }

  /** 100 / (p * y), rounded up. */
  function DispatchBound(p: Percent, y: Fraction): int {
    PositiveTimes(p, y);
    assert p * y == Times(p, y);
    Ceil(100.0 / (p * y))
  }

  lemma BoundIs(p: Percent, y: Fraction)
    ensures p * y > 0.0 && DispatchBound(p, y) == Ceil(100.0 / (p * y))
  {
    PositiveTimes(p, y);
    assert p * y == Times(p, y);
  }

  /**
   * In cooperative mode a task of any size finishes in a number of dispatches that depends only on
   * the percentage and on how early it yields: at most 100 / (p * y), rounded up.
   */
  lemma CooperativeDispatches(o: Options, t: Task, p: Percent)
    requires 1 <= t.work && t.slice == Slice(t.work, p)
    ensures t.slice <= t.work
    ensures Needed(o, t) <= DispatchBound(p, t.yieldFraction)
  {
    var b := p * t.yieldFraction;
    BoundIs(p, t.yieldFraction);
    var limit := Limit(o, t);
    LimitCovers(o, t, p);
    PositiveTimes(p, t.yieldFraction);
    assert Times(p, t.yieldFraction) == b;
    hide *;
    InverseRatio(b);
    Quotient(100.0, b);
    PositiveQuotient(b);
    WorkCovered(t.work, limit, b / 100.0, Ceil(100.0 / b));
    BlocksWithin(t.work, limit, Ceil(100.0 / b));
    NeededIs(o, t, limit);
  }

  lemma PositiveQuotient(b: real)
    requires b > 0.0
    ensures 100.0 / b > 0.0 && b / 100.0 > 0.0
  {
  }

  lemma LimitCovers(o: Options, t: Task, p: Percent)
    requires 1 <= t.work && t.slice == Slice(t.work, p)
    ensures t.work as real * (p * t.yieldFraction / 100.0) <= Limit(o, t) as real
  {
    hide SliceShare;
    hide Share;
    ShareOfSlice(t.work, t.slice, p, t.yieldFraction);
  }

  lemma NeededIs(o: Options, t: Task, limit: nat)
    requires limit == Limit(o, t)
    ensures Needed(o, t) == CeilDiv(t.work, limit)
  {
  }

  lemma InverseRatio(b: real)
    requires b > 0.0
    ensures 1.0 / (b / 100.0) == 100.0 / b
  {
    var x := 100.0 / b;
    assert x * b == 100.0;
    assert x * (b / 100.0) == 1.0;
    var z := 1.0 / (b / 100.0);
    assert z * (b / 100.0) == 1.0;
    assert (x - z) * (b / 100.0) == 0.0;
    assert b / 100.0 > 0.0;
  }

  // Compensation.

  /** At most half a ticket and less than one unit too much ... */
  lemma ShareAbove(t: real, q: real, y: real, e: real, l: real)
    requires t >= 1.0 && q >= 1.0 && 0.0 < y <= 1.0
    requires 0.0 < e <= t / y + 0.5 && Times(q, y) <= l < Times(q, y) + 1.0
    ensures e * l < t * q + t / y + q * y / 2.0 + 0.5
  {
    var x := t / y;
    var u := Times(q, y);
    Quotient(t, y);
    PositiveTimes(q, y);
    assert (x + 0.5) * (u + 1.0) == t * q + t / y + q * y / 2.0 + 0.5 by { ExpandHigh(x, t, q, y); }
    ProductBelow(e, x + 0.5, l, u + 1.0);
  }

  /** ... and less than half a ticket too little. */
  lemma ShareBelow(t: real, q: real, y: real, e: real, l: real)
    requires t >= 1.0 && q >= 1.0 && 0.0 < y <= 1.0
    requires t / y - 0.5 < e && Times(q, y) <= l
    ensures t * q - q * y / 2.0 <= e * l
  {
    var x := t / y;
    var u := Times(q, y);
    Quotient(t, y);
    AtLeastOne(x, t, y);
    PositiveTimes(q, y);
    assert (x - 0.5) * u == t * q - q * y / 2.0 by { ExpandLow(x, t, q, y); }
    ScaleLess(x - 0.5, e, u);
    ScaleLess(u, l, e);
  }

  lemma AtLeastOne(x: real, t: real, y: real)
    requires x * y == t && t >= 1.0 && 0.0 < y <= 1.0
    ensures t <= x
  {
    ScaleLess(y, 1.0, t);
    assert (x - t) * y >= 0.0;
    if x < t {
      PositiveTimes(t - x, y);
    }
  }

  lemma ExpandLow(x: real, t: real, q: real, y: real)
    requires x * y == t
    ensures (x - 0.5) * Times(q, y) == t * q - q * y / 2.0
  {
    assert x * (q * y) == (x * y) * q;
  }

  lemma ExpandHigh(x: real, t: real, q: real, y: real)
    requires x * y == t
    ensures (x + 0.5) * (Times(q, y) + 1.0) == t * q + x + q * y / 2.0 + 0.5
  {
    assert x * (q * y) == (x * y) * q;
  }

  lemma ProductBelow(e: real, e1: real, l: real, l1: real)
    requires 0.0 < e <= e1 && 0.0 < l < l1
    ensures e * l < e1 * l1
  {
    ScaleLess(e, e1, l);
    assert e1 * l < e1 * l1;
  }

  /**
   * Compensation restores proportional share: what a task that yields early can win (its compensated
   * tickets) times what it then runs is, up to rounding, what its own tickets times a full allotment
   * would have been. It is never more than that; it can be less only where the boost is clamped, and
   * there it is still the largest ticket count times the share of units the task runs.
   */
  lemma CompensationRestoresShare(tickets: U32, units: U32, y: Fraction)
    requires 1 <= tickets && 1 <= units && y < 1.0
    ensures var product := CompensatedTickets(true, tickets, y) as real * EarlyLimit(units, y) as real;
      var t, q := tickets as real, units as real;
      && product < t * q + t / y + q * y / 2.0 + 0.5
      && (Round(t / y) <= U32_MAX ==> t * q - q * y / 2.0 <= product)
      && (Round(t / y) > U32_MAX ==> U32_MAX as real * (q * y) <= product)
  {
    var e, l := CompensatedTickets(true, tickets, y), EarlyLimit(units, y);
    var t, q := tickets as real, units as real;
    var x := t / y;
    CompensationRange(tickets, y);
    assert e == Min(Round(x), U32_MAX) && Share(units, y) == Times(q, y) == q * y;
    assert e as real <= x + 0.5 && (Round(x) <= U32_MAX ==> x - 0.5 < e as real);
    hide *;
    ShareAbove(t, q, y, e as real, l as real);
    if Round(x) <= U32_MAX {
      ShareBelow(t, q, y, e as real, l as real);
    } else {
      ScaleLess(q * y, l as real, U32_MAX as real);
    }
  }

  /** The bounds of the proportional share, for what a task is left with and what it may then run. */
  predicate FairShare(tickets: U32, units: U32, y: Fraction, effective: U32, limit: nat) {
    var t, q, product := tickets as real, units as real, effective as real * limit as real;
    && product < t * q + t / y + q * y / 2.0 + 0.5
    && (Round(t / y) <= U32_MAX ==> t * q - q * y / 2.0 <= product)
    && (Round(t / y) > U32_MAX ==> U32_MAX as real * (q * y) <= product)
  }

  /**
   * The same for whole dispatches: the tickets a dispatch leaves a task with, times the units its next
   * dispatches may run, in terms of its own tickets, its slice or else the quantum, and its yield.
   */
  lemma DispatchKeepsShare(o: Options, t: Task, number: U32)
    requires o.compensation && 1 <= t.tickets && t.yieldFraction < 1.0 && (t.slice > 0 || o.quantum > 0)
    ensures FairShare(t.tickets, if t.slice > 0 then t.slice else o.quantum, t.yieldFraction,
                      Dispatch(o, t, number).effective, Limit(o, t))
  {
    var units := if t.slice > 0 then t.slice else o.quantum;
    DispatchTickets(o, t, number);
    LimitOf(o, t, units);
    hide *;
    ShareIsFair(t.tickets, units, t.yieldFraction);
  }

  lemma ShareIsFair(tickets: U32, units: U32, y: Fraction)
    requires 1 <= tickets && 1 <= units && y < 1.0
    ensures FairShare(tickets, units, y, CompensatedTickets(true, tickets, y), EarlyLimit(units, y))
  {
    CompensationRestoresShare(tickets, units, y);
    hide CompensatedTickets;
    hide EarlyLimit;
    hide Round;
  }

  lemma DispatchTickets(o: Options, t: Task, number: U32)
    ensures Dispatch(o, t, number).effective == CompensatedTickets(o.compensation, t.tickets, t.yieldFraction)
  {
    var s := StartRunning(t, number);
    UnitsKeepIdentity(s, UnitsToRun(o, s));
    hide DoUnits;
    hide UnitsToRun;
    hide CompensatedTickets;
  }

  lemma LimitOf(o: Options, t: Task, units: U32)
    requires units == (if t.slice > 0 then t.slice else o.quantum) && units > 0
    ensures Limit(o, t) == EarlyLimit(units, t.yieldFraction)
  {
    hide EarlyLimit;
  }

  /** Whether the share is restored in full turns on what the largest ticket count could restore. */
  lemma ShareCovered(tickets: U32, units: U32, y: Fraction)
    requires 1 <= tickets && 1 <= units && y < 1.0
    ensures var product := CompensatedTickets(true, tickets, y) as real * EarlyLimit(units, y) as real;
      var t, q := tickets as real, units as real;
      t * q - q * y / 2.0 <= product <==> t * q - q * y / 2.0 <= U32_MAX as real * Ceil(Share(units, y)) as real
  {
    var e, l := CompensatedTickets(true, tickets, y), EarlyLimit(units, y);
    var t, q := tickets as real, units as real;
    LimitIsCeil(units, y);
    BoostIs(tickets, y);
    hide *;
    var bound := t * q - q * y / 2.0;
    if e < U32_MAX {
      CompensationRestoresShare(tickets, units, y);
    }
    Covers(e as real, U32_MAX as real, l as real, bound);
  }

  /**
   * Exactly when the share is restored in full, up to rounding: when the tickets do not exceed the
   * largest ticket count spread over the full allotment by the units the task runs of it. Only a clamped
   * boost can exceed that.
   */
  lemma ShareRestoredExactly(tickets: U32, units: U32, y: Fraction)
    requires 1 <= tickets && 1 <= units && y < 1.0
    ensures var product := CompensatedTickets(true, tickets, y) as real * EarlyLimit(units, y) as real;
      var t, q := tickets as real, units as real;
      t * q - q * y / 2.0 <= product <==> t <= U32_MAX as real * Ceil(Share(units, y)) as real / q + y / 2.0
  {
    hide *;
    ShareCovered(tickets, units, y);
    PerUnit(tickets as real, units as real, y, U32_MAX as real * Ceil(Share(units, y)) as real);
  }

  lemma PerUnit(t: real, q: real, y: real, most: real)
    requires q > 0.0
    ensures t * q - q * y / 2.0 <= most <==> t <= most / q + y / 2.0
  {
    var each := most / q;
    Quotient(most, q);
    assert (t - y / 2.0) * q == t * q - q * y / 2.0;
    if t - y / 2.0 <= each {
      ScaleLess(t - y / 2.0, each, q);
    } else {
      PositiveTimes(t - y / 2.0 - each, q);
      assert (t - y / 2.0 - each) * q == (t - y / 2.0) * q - each * q;
    }
  }

  lemma LimitIsCeil(units: U32, y: Fraction)
    requires 1 <= units
    ensures EarlyLimit(units, y) == Ceil(Share(units, y))
  {
    hide Share;
  }

  lemma BoostIs(tickets: U32, y: Fraction)
    requires y < 1.0
    ensures CompensatedTickets(true, tickets, y) < U32_MAX ==> Round(tickets as real / y) <= U32_MAX
    ensures CompensatedTickets(true, tickets, y) <= U32_MAX
  {
  }

  lemma Covers(e: real, most: real, l: real, bound: real)
    requires e <= most && 0.0 <= l && (e < most ==> bound <= e * l)
    ensures bound <= e * l <==> bound <= most * l
  {
    ScaleLess(e, most, l);
  }

  /** The clamp can cost share: a tenth of the units, no more tickets than before, a tenth of the share. */
  lemma ClampedShareFails()
    ensures var t: U32, q: U32, y: Fraction := 0xFFFF_FFFB, 10, 0.1;
      && Round(t as real / y) > U32_MAX && EarlyLimit(q, y) == 1
      && CompensatedTickets(true, t, y) as real * EarlyLimit(q, y) as real < t as real * q as real - q as real * y / 2.0
  {
    assert Share(10, 0.1) == 1.0;
    assert EarlyLimit(10, 0.1) == 1;
    assert 4294967291.0 / 0.1 == 42949672910.0;
  }

  /** A dispatch leaves a task with its plain tickets exactly when the boost rounds to nothing or has no room. */
  lemma BoostExact(on: bool, tickets: U32, y: Fraction)
    requires 1 <= tickets
    ensures CompensatedTickets(on, tickets, y) == tickets
       <==> !on || 2.0 * tickets as real * (1.0 - y) < y || tickets == U32_MAX
  {
    var t := tickets as real;
    var x := t / y;
    if on && y < 1.0 {
      Quotient(t, y);
      AtLeastOne(x, t, y);
      WholeBetween(tickets, Round(x), x);
      BoostRounds(x, t, y);
      RoundsTo(x, tickets);
    } else if on {
      assert 2.0 * t * (1.0 - y) == 0.0;
    }
  }

  /** The boost in numbers: t / y to the nearest whole number, halves up, or the largest there is. */
  lemma BoostMeans(on: bool, tickets: U32, y: Fraction)
    ensures var e, x := CompensatedTickets(on, tickets, y), tickets as real / y;
      && (!on || y == 1.0 ==> e == tickets)
      && (on && y < 1.0 ==>
            (x - 0.5 < e as real <= x + 0.5) || (e == 4294967295 && x + 0.5 >= 4294967296.0))
  {
    CompensationNonNegative(tickets, y);
  }

  lemma BoostRounds(x: real, t: real, y: real)
    requires x * y == t && 0.0 < y
    ensures x < t + 0.5 <==> 2.0 * t * (1.0 - y) < y
  {
    var gap := t + 0.5 - x;
    assert gap * y == (y - 2.0 * t * (1.0 - y)) / 2.0;
    if gap > 0.0 {
      PositiveTimes(gap, y);
    } else {
      ScaleLess(gap, 0.0, y);
    }
  }

  lemma RoundsTo(x: real, n: nat)
    requires n as real <= x
    ensures Round(x) == n <==> x < n as real + 0.5
  {
  }

  /** The boost never takes tickets away, and for the yields the loader admits is at most tenfold. */
  lemma CompensationRange(tickets: U32, y: Fraction)
    requires 1 <= tickets
    ensures tickets <= CompensatedTickets(true, tickets, y)
    ensures 0.1 <= y ==> CompensatedTickets(true, tickets, y) <= 10 * tickets
  {
    var t := tickets as real;
    var x := t / y;
    Quotient(t, y);
    AtLeastOne(x, t, y);
    if 0.1 <= y {
      TenTimes(x, t, y);
    }
    WholeBetween(tickets, Round(x), x);
    if 0.1 <= y {
      WholeAbove(10 * tickets, Round(x), x);
    }
  }

  lemma TenTimes(x: real, t: real, y: real)
    requires x * y == t && 0.1 <= y && 0.0 <= x
    ensures x <= 10.0 * t
  {
    ScaleLess(0.1, y, x);
  }

  lemma WholeBetween(n: int, r: int, x: real)
    requires n as real <= x && x - 0.5 < r as real
    ensures n <= r
  {
  }

  lemma WholeAbove(n: int, r: int, x: real)
    requires x <= n as real && r as real <= x + 0.5
    ensures r <= n
  {
  }
}
