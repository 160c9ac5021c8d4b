/** The draw of src/scheduler.c: active ticket sum, winning ticket, cumulative walk. */
module Lottery {
  import opened Numbers
  import opened TaskModel
  import opened Rng

  /** What a task contributes to the draw: its effective tickets while READY, nothing otherwise. */
  function Active(t: Task): int {
    if t.state == Ready then t.effective else 0
  }

  /** `scheduler_calculate_cumulutive_tickets`. */
  function ActiveTickets(tasks: seq<Task>): int {
    Total(Active, tasks)
  }

  /** The reduction of a generator output: a 64-bit remainder plus one, stored in 32 bits. */
  function Ticket(x: nat, sum: nat): U32
    requires sum > 0
  {
    Wrap(x % sum + 1)
  }

  /** `scheduler_sort_winner_ticket`: the next seed and the ticket, 0 when the generator is unseeded. */
  function Draw(seed: bv32, sum: nat): (bv32, U32)
    requires sum > 0
  {
    if seed == 0 then (seed, 0) else (Next(seed), Ticket(Value(Next(seed)), sum))
  }

  /** `scheduler_winner_task` from list position `k` on, with `sum` tickets already passed; |tasks| for NULL. */
  function WinnerFrom(tasks: seq<Task>, ticket: nat, k: nat, sum: nat): (w: nat)
    requires k <= |tasks|
    ensures k <= w <= |tasks|
    ensures w < |tasks| ==> tasks[w].state == Ready
    decreases |tasks| - k
  {
    if k == |tasks| then k
    else if tasks[k].state != Ready then WinnerFrom(tasks, ticket, k + 1, sum)
    else if sum + tasks[k].effective >= ticket then k
    else WinnerFrom(tasks, ticket, k + 1, sum + tasks[k].effective)
  }

  function Winner(tasks: seq<Task>, ticket: nat): nat {
    WinnerFrom(tasks, ticket, 0, 0)
  }

  /** Active tickets of the tasks before position `i`. */
  function Below(tasks: seq<Task>, i: nat): int
    requires i <= |tasks|
  {
    ActiveTickets(tasks) - Total(Active, tasks, i)
  }

  lemma TicketBound(x: nat, sum: nat)
    requires sum > 0
    ensures Ticket(x, sum) <= sum
    ensures x % sum + 1 <= U32_MAX ==> Ticket(x, sum) == x % sum + 1
  {
  }

  lemma {:induction false} ActiveNonNegative(tasks: seq<Task>, k: nat)
    requires k <= |tasks|
    ensures 0 <= Total(Active, tasks, k)
    decreases |tasks| - k
  {
    if k < |tasks| {
      ActiveNonNegative(tasks, k + 1);
    }
  }

  lemma {:induction false} ActivePositive(tasks: seq<Task>, i: nat, k: nat)
    requires k <= i < |tasks| && tasks[i].state == Ready && tasks[i].effective >= 1
    ensures 1 <= Total(Active, tasks, k)
    decreases |tasks| - k
  {
    if k == i {
      ActiveNonNegative(tasks, k + 1);
    } else {
      ActivePositive(tasks, i, k + 1);
    }
  }

  /** A ticket no larger than the active sum always finds a READY task: the walk never returns NULL. */
  lemma {:induction false} WinnerExists(tasks: seq<Task>, ticket: nat, k: nat, sum: nat)
    requires k <= |tasks| && Total(Active, tasks, k) > 0
    requires ticket <= sum + Total(Active, tasks, k)
    ensures WinnerFrom(tasks, ticket, k, sum) < |tasks|
    decreases |tasks| - k
  {
    if tasks[k].state != Ready {
      WinnerExists(tasks, ticket, k + 1, sum);
    } else if sum + tasks[k].effective < ticket {
      WinnerExists(tasks, ticket, k + 1, sum + tasks[k].effective);
    }
  }

  /** The walk returns task `i` for the tickets of one interval, as long as the task's share, and for no others. */
  lemma {:induction false} WinnerInterval(tasks: seq<Task>, ticket: nat, i: nat, k: nat, sum: nat)
    requires k <= i < |tasks| && sum < ticket
    ensures var low := sum + Total(Active, tasks, k) - Total(Active, tasks, i);
      WinnerFrom(tasks, ticket, k, sum) == i <==> low < ticket <= low + Active(tasks[i])
    decreases |tasks| - k
  {
    if k == i {
    } else if tasks[k].state != Ready {
      WinnerInterval(tasks, ticket, i, k + 1, sum);
    } else if sum + tasks[k].effective < ticket {
      WinnerInterval(tasks, ticket, i, k + 1, sum + tasks[k].effective);
    } else {
      TotalsDrop(tasks, k + 1, i);
    }
  }

  lemma {:induction false} TotalsDrop(tasks: seq<Task>, k: nat, i: nat)
    requires k <= i <= |tasks|
    ensures Total(Active, tasks, i) <= Total(Active, tasks, k)
    decreases |tasks| - k
  {
    if k < i {
      TotalsDrop(tasks, k + 1, i);
    }
  }

  lemma BelowBounds(tasks: seq<Task>, i: nat)
    requires i < |tasks|
    ensures 0 <= Below(tasks, i) <= Below(tasks, i) + Active(tasks[i]) <= ActiveTickets(tasks)
  {
    TotalsDrop(tasks, 0, i);
    ActiveNonNegative(tasks, i + 1);
  }

  /** The same for the walk as the loop calls it. */
  lemma WinnerOf(tasks: seq<Task>, ticket: nat, i: nat)
    requires i < |tasks| && 0 < ticket
    ensures Winner(tasks, ticket) == i <==>
      Below(tasks, i) < ticket <= Below(tasks, i) + Active(tasks[i])
  {
    WinnerInterval(tasks, ticket, i, 0, 0);
  }

  // Counting tickets.

  /** How many of the tickets 1..m the walk gives to task `i`. */
  function TicketsWon(tasks: seq<Task>, i: nat, m: nat): nat {
    if m == 0 then 0 else TicketsWon(tasks, i, m - 1) + (if Winner(tasks, m) == i then 1 else 0)
  }

  lemma {:induction false} TicketsWonUpTo(tasks: seq<Task>, i: nat, m: nat)
    requires i < |tasks|
    ensures TicketsWon(tasks, i, m) ==
      if m <= Below(tasks, i) then 0 else Min(m - Below(tasks, i), Active(tasks[i]))
  {
    BelowBounds(tasks, i);
    if m > 0 {
      TicketsWonUpTo(tasks, i, m - 1);
      WinnerOf(tasks, m, i);
    }
  }

  /** Of the tickets a draw can produce, each task holds exactly as many as it contributed. */
  lemma TicketShare(tasks: seq<Task>, i: nat)
    requires i < |tasks|
    ensures ActiveTickets(tasks) >= 0
    ensures TicketsWon(tasks, i, ActiveTickets(tasks)) == if tasks[i].state == Ready then tasks[i].effective else 0
  {
    BelowBounds(tasks, i);
    TicketsWonUpTo(tasks, i, ActiveTickets(tasks));
  }

  // Counting generator outputs.

  /** How many of the generator outputs 1..n make task `i` win. */
  function Selections(tasks: seq<Task>, i: nat, n: nat): nat
    requires ActiveTickets(tasks) > 0
  {
    if n == 0 then 0 else
    Selections(tasks, i, n - 1) + (if Winner(tasks, Ticket(n, ActiveTickets(tasks))) == i then 1 else 0)
  }

  lemma SelectionsStep(tasks: seq<Task>, i: nat, n: nat)
    requires 0 < n && 0 < ActiveTickets(tasks)
    ensures Selections(tasks, i, n) == Selections(tasks, i, n - 1)
      + (if Winner(tasks, Ticket(n, ActiveTickets(tasks))) == i then 1 else 0)
  {
  }

  /** How many of the residues 1..m lie in [low, low + size). */
  function Overlap(low: nat, size: nat, m: nat): (n: nat)
    ensures n <= size && (m == 0 ==> n == 0) && (low == 0 && size > 0 ==> n < size)
  {
    var from := if low == 0 then 1 else low;
    var to := if m < low + size then m + 1 else low + size;
    if from < to then to - from else 0
  }

  lemma OverlapSteps(low: nat, size: nat, m: nat)
    ensures m > 0 ==>
      Overlap(low, size, m) == Overlap(low, size, m - 1) + (if low <= m < low + size then 1 else 0)
    ensures low + size <= m + 1 ==>
      size == Overlap(low, size, m) + (if low == 0 < size then 1 else 0)
  {
  }

  lemma RemainderOf(q: nat, m: nat, s: nat)
    requires m < s
    ensures (q * s + m) % s == m && (q * s + m) / s == q
  {
    var n := q * s + m;
    var d := n / s - q;
    assert n == (n / s) * s + n % s;
    assert d * s == m - n % s && (-d) * s == n % s - m;
    if d > 0 {
      WholeStep(d, s);
    } else if d < 0 {
      WholeStep(-d, s);
    }
  }

  lemma QuotientStep(q: nat, s: nat)
    requires q > 0
    ensures q * s == (q - 1) * s + s
  {
  }

  /** After `q` whole rounds of the residues and `m` more outputs. */
  lemma {:induction false} SelectionsExact(tasks: seq<Task>, i: nat, q: nat, m: nat)
    requires i < |tasks| && m < ActiveTickets(tasks)
    requires m < U32_MAX && (q > 0 ==> ActiveTickets(tasks) <= U32_MAX)
    requires 0 <= Below(tasks, i)
    ensures q * ActiveTickets(tasks) + m >= 0
    ensures Selections(tasks, i, q * ActiveTickets(tasks) + m)
         == q * Active(tasks[i]) + Overlap(Below(tasks, i), Active(tasks[i]), m)
    decreases q, m
  {
    hide *;
    var s := ActiveTickets(tasks);
    var n := q * s + m;
    var low, size := Below(tasks, i), Active(tasks[i]);
    BelowBounds(tasks, i);
    if n == 0 {
      NoSelections(tasks, i);
    } else {
      RemainderOf(q, m, s);
      TicketBound(n, s);
      WinnerOf(tasks, m + 1, i);
      SelectionsStep(tasks, i, n);
      OverlapSteps(low, size, if m > 0 then m else s - 1);
      if m > 0 {
        SelectionsExact(tasks, i, q, m - 1);
        assert n - 1 == q * s + (m - 1);
      } else {
        QuotientStep(q, s);
        QuotientStep(q, size);
        SelectionsExact(tasks, i, q - 1, s - 1);
        assert n - 1 == (q - 1) * s + (s - 1);
      }
    }
  }

  lemma NoSelections(tasks: seq<Task>, i: nat)
    requires 0 < ActiveTickets(tasks)
    ensures Selections(tasks, i, 0) == 0
  {
  }

  /** Ticket 0, which an unseeded generator or a sum above 2^32 - 1 can produce, goes to the first READY task. */
  lemma {:induction false} TicketZero(tasks: seq<Task>, k: nat)
    requires k <= |tasks|
    ensures var w := WinnerFrom(tasks, 0, k, 0);
      Total(Active, tasks, w) == Total(Active, tasks, k) && forall j :: k <= j < w ==> tasks[j].state != Ready
    decreases |tasks| - k
  {
    if k < |tasks| && tasks[k].state != Ready {
      TicketZero(tasks, k + 1);
    }
  }

  predicate FirstReady(tasks: seq<Task>, i: nat)
    requires i < |tasks|
  {
    tasks[i].state == Ready && forall j :: 0 <= j < i ==> tasks[j].state != Ready
  }

  lemma WinnerOfZero(tasks: seq<Task>, i: nat)
    requires i < |tasks|
    ensures Winner(tasks, 0) == i <==> FirstReady(tasks, i)
  {
    TicketZero(tasks, 0);
  }

  /**
   * The exact number of outputs 1..n that elect task `i`, for every sum: its tickets per whole round,
   * plus the overlap of the rest with its interval. Under a sum the 32-bit ticket cannot hold, the last
   * output of the generator becomes ticket 0 and elects the first READY task instead.
   */
  lemma SelectionsCount(tasks: seq<Task>, i: nat, n: nat)
    requires i < |tasks| && 0 < ActiveTickets(tasks) && n <= U32_MAX
    ensures 0 <= Below(tasks, i)
    ensures var s, low, size := ActiveTickets(tasks), Below(tasks, i), Active(tasks[i]);
      Selections(tasks, i, n) ==
        if n == U32_MAX < s then Overlap(low, size, n - 1) + (if FirstReady(tasks, i) then 1 else 0)
        else n / s * size + Overlap(low, size, n % s)
  {
    hide *;
    var s := ActiveTickets(tasks);
    BelowBounds(tasks, i);
    LastTicket(s, n);
    WinnerOfZero(tasks, i);
    if n == U32_MAX < s {
      SelectionsStep(tasks, i, n);
      CountRounds(tasks, i, n - 1, 0, n - 1);
    } else {
      DivMod(n, s);
      CountRounds(tasks, i, n, n / s, n % s);
    }
  }

  lemma CountRounds(tasks: seq<Task>, i: nat, n: nat, q: nat, m: nat)
    requires i < |tasks| && m < ActiveTickets(tasks) && 0 <= Below(tasks, i)
    requires m < U32_MAX && (q > 0 ==> ActiveTickets(tasks) <= U32_MAX)
    requires n == q * ActiveTickets(tasks) + m
    ensures Selections(tasks, i, n) == q * Active(tasks[i]) + Overlap(Below(tasks, i), Active(tasks[i]), m)
  {
    hide *;
    BelowBounds(tasks, i);
    SelectionsExact(tasks, i, q, m);
  }

  lemma LastTicket(s: nat, n: nat)
    requires 0 < s
    ensures U32_MAX == 0xFFFF_FFFF && (n == U32_MAX < s ==> Ticket(n, s) == 0)
  {
  }

  lemma DivMod(n: nat, s: nat)
    requires 0 < s
    ensures n == n / s * s + n % s && 0 <= n % s < s && n % s <= n
    ensures n / s > 0 ==> s <= n
  {
    if n / s > 0 {
      WholeStep(n / s, s);
    }
  }

  /**
   * Selection is proportional to effective tickets up to the bias of the reduction: among the first
   * `n` outputs of the generator's range a task wins its share times n / S, rounded down or up. The
   * bound needs no assumption on the sum S, not even that it fits 32 bits.
   */
  lemma ProportionalDraw(tasks: seq<Task>, i: nat, n: nat)
    requires i < |tasks| && 0 < ActiveTickets(tasks) && n <= U32_MAX
    requires forall t :: t in tasks && t.state == Ready ==> t.effective >= 1
    ensures var s, won := ActiveTickets(tasks), Selections(tasks, i, n);
      Active(tasks[i]) * (n / s) <= won <= Active(tasks[i]) * CeilDiv(n, s)
  {
    hide *;
    var s := ActiveTickets(tasks);
    var q, m := n / s, n % s;
    assert n == q * s + m;
    if m < U32_MAX {
      if q > 0 {
        WholeStep(q, s);
      }
      RoundsBound(tasks, i, q, m);
      RoundedUp(n, s, q, m);
    } else {
      LargeSum(tasks, i, n);
    }
  }

  lemma RoundsBound(tasks: seq<Task>, i: nat, q: nat, m: nat)
    requires i < |tasks| && m < ActiveTickets(tasks)
    requires m < U32_MAX && (q > 0 ==> ActiveTickets(tasks) <= U32_MAX)
    ensures q * ActiveTickets(tasks) + m >= 0
    ensures var size, won := Active(tasks[i]), Selections(tasks, i, q * ActiveTickets(tasks) + m);
      size * q <= won <= size * (if m == 0 then q else q + 1)
  {
    var size := Active(tasks[i]);
    hide *;
    BelowBounds(tasks, i);
    SelectionsExact(tasks, i, q, m);
    assert size * (q + 1) == size * q + size;
  }

  lemma RoundedUp(n: nat, s: nat, q: nat, m: nat)
    requires n == q * s + m && m < s
    ensures CeilDiv(n, s) == if m == 0 then q else q + 1
  {
    CeilDivUnique(n, s, if m == 0 then q else q + 1);
  }

  /** The case of a sum that the 32-bit ticket cannot cover, over the whole range of outputs. */
  lemma LargeSum(tasks: seq<Task>, i: nat, n: nat)
    requires n == U32_MAX
    requires i < |tasks| && n < ActiveTickets(tasks)
    requires forall t :: t in tasks && t.state == Ready ==> t.effective >= 1
    ensures 0 <= Selections(tasks, i, n) <= Active(tasks[i])
    ensures n / ActiveTickets(tasks) == 0 && CeilDiv(n, ActiveTickets(tasks)) == 1
  {
    var s := ActiveTickets(tasks);
    assert n / s == 0 && U32_MAX == 0xFFFF_FFFF;
    SelectionsCount(tasks, i, n);
    FirstReadyShare(tasks, i);
    BelowBounds(tasks, i);
    hide *;
    CeilDivUnique(n, s, 1);
  }

  /** The first READY task's interval starts at the first ticket. */
  lemma FirstReadyShare(tasks: seq<Task>, i: nat)
    requires i < |tasks|
    ensures FirstReady(tasks, i) ==> Below(tasks, i) == 0 && Active(tasks[i]) == tasks[i].effective && tasks[i] in tasks
  {
    TicketZero(tasks, 0);
    WinnerOfZero(tasks, i);
    hide Total;
  }
}
