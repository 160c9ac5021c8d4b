/** The draw counted over seeds: what the generator's bijection adds to the counting of its outputs. */
module Fairness {
  import opened Numbers
  import opened TaskModel
  import opened Rng
  import opened Lottery
  import opened Sequential
  import opened Accounting

  /** The generator output `x` makes task `i` win. */
  predicate Elects(tasks: seq<Task>, i: nat, x: nat)
    requires ActiveTickets(tasks) > 0
  {
    Winner(tasks, Ticket(x, ActiveTickets(tasks))) == i
  }

  /** The outputs from 1 to `n` that make task `i` win. */
  ghost function WinningOutputs(tasks: seq<Task>, i: nat, n: nat): set<int>
    requires ActiveTickets(tasks) > 0
  {
    set x | 1 <= x <= n && Elects(tasks, i, x)
  }

  /** The number returned by call `k` of `get` after seeding with `seed`. */
  function Output(seed: int, k: nat): nat {
    Value(Rng.State(Word(seed), k))
  }

  /** The nonzero seeds with which task `i` wins a draw that is call `k` of the generator. */
  ghost function WinningSeeds(tasks: seq<Task>, i: nat, k: nat): set<int>
    requires ActiveTickets(tasks) > 0
  {
    set seed | 1 <= seed <= U32_MAX && Elects(tasks, i, Output(seed, k))
  }

  /** The 32-bit word with value `n`, bit by bit. */
  function Word(n: int): bv32
    decreases n
  {
    if n <= 0 then 0 else Append(Word(n / 2), n % 2 == 1)
  }

  function Append(x: bv32, bit: bool): bv32 {
    if bit then (x << 1) | 1 else x << 1
  }

  lemma AppendZero(x: bv32)
    requires x < 0x8000_0000
    ensures (x << 1) as int == 2 * (x as int)
  {
  }

  lemma AppendOne(x: bv32)
    requires x < 0x8000_0000
    ensures ((x << 1) | 1) as int == 2 * (x as int) + 1
  {
  }

  lemma HalfWord(x: bv32)
    requires x as int < 0x8000_0000
    ensures x < 0x8000_0000
  {
  }

  lemma AppendValue(x: bv32, bit: bool)
    requires Value(x) < 0x8000_0000
    ensures Value(Append(x, bit)) == 2 * Value(x) + (if bit then 1 else 0)
  {
    HalfWord(x);
    if bit {
      AppendOne(x);
    } else {
      AppendZero(x);
    }
  }

  lemma {:induction false} WordValue(n: int)
    requires 0 <= n <= 0xFFFF_FFFF
    ensures Value(Word(n)) == n
    decreases n
  {
    hide Append;
    if n == 0 {
      ValueBounds(0);
    } else {
      WordValue(n / 2);
      hide Value;
      AppendValue(Word(n / 2), n % 2 == 1);
    }
  }

  lemma {:induction false} OutputCount(tasks: seq<Task>, i: nat, n: nat)
    requires ActiveTickets(tasks) > 0
    ensures |WinningOutputs(tasks, i, n)| == Selections(tasks, i, n)
  {
    OutputsSplit(tasks, i, n);
    if n == 0 {
      NoSelections(tasks, i);
      hide *;
    } else {
      ElectsStep(tasks, i, n);
      hide *;
      OutputCount(tasks, i, n - 1);
    }
  }

  /** One more output adds itself or nothing. */
  lemma OutputsSplit(tasks: seq<Task>, i: nat, n: nat)
    requires ActiveTickets(tasks) > 0
    ensures n == 0 ==> WinningOutputs(tasks, i, n) == {}
    ensures n > 0 ==>
      |WinningOutputs(tasks, i, n)| == |WinningOutputs(tasks, i, n - 1)| + (if Elects(tasks, i, n) then 1 else 0)
  {
    hide Elects;
    var now := WinningOutputs(tasks, i, n);
    if n == 0 {
      assert now == {};
    } else if Elects(tasks, i, n) {
      assert now == WinningOutputs(tasks, i, n - 1) + {n};
    } else {
      assert now == WinningOutputs(tasks, i, n - 1);
    }
  }

  lemma ElectsStep(tasks: seq<Task>, i: nat, n: nat)
    requires ActiveTickets(tasks) > 0 && n > 0
    ensures Selections(tasks, i, n) == Selections(tasks, i, n - 1) + (if Elects(tasks, i, n) then 1 else 0)
  {
    SelectionsStep(tasks, i, n);
    hide Selections;
  }

  /** Two sets that a function and its inverse carry into each other are equally large. */
  lemma {:induction false} SameSize<T>(a: set<T>, b: set<T>, f: T -> T, g: T -> T)
    requires forall x :: x in a ==> f(x) in b && g(f(x)) == x
    requires forall y :: y in b ==> g(y) in a && f(g(y)) == y
    ensures |a| == |b|
    decreases |a|
  {
    if a == {} {
      assert b == {};
    } else {
      var x :| x in a;
      SameSize(a - {x}, b - {f(x)}, f, g);
    }
  }

  /** The word from which `k` calls lead to `x`. */
  function Origin(x: bv32, k: nat): bv32
    decreases k
  {
    if k == 0 then x else Origin(Previous(x), k - 1)
  }

  lemma {:induction false} OriginInverse(x: bv32, k: nat)
    ensures Rng.State(Origin(x, k), k) == x && Origin(Rng.State(x, k), k) == x
    decreases k
  {
    if k > 0 {
      OriginInverse(Previous(x), k - 1);
      OriginInverse(x, k - 1);
      NextInverse(x);
      NextInverse(Rng.State(x, k - 1));
    }
    hide Next;
    hide Previous;
  }

  /** The seed whose call `k` returns `x`. */
  function SeedOf(x: int, k: nat): nat {
    Value(Origin(Word(x), k))
  }

  lemma SeedOfInverse(n: int, k: nat)
    requires 1 <= n <= U32_MAX
    ensures SeedOf(Output(n, k), k) == n && 1 <= Output(n, k) <= U32_MAX
    ensures Output(SeedOf(n, k), k) == n && 1 <= SeedOf(n, k) <= U32_MAX
  {
    hide *;
    var x := Word(n);
    var out, origin := Rng.State(x, k), Origin(x, k);
    ValueBounds(out);
    ValueBounds(origin);
    Named(n, k);
    Named(Value(out), k);
    Named(Value(origin), k);
    ValueInjective(Word(Value(out)), out);
    ValueInjective(Word(Value(origin)), origin);
    OriginInverse(x, k);
    ValueBounds(x);
    StateNonzero(x, k);
    StateNonzero(origin, k);
  }

  lemma Named(n: nat, k: nat)
    ensures Output(n, k) == Value(Rng.State(Word(n), k)) && SeedOf(n, k) == Value(Origin(Word(n), k))
    ensures U32_MAX == 0xFFFF_FFFF
    ensures n <= 0xFFFF_FFFF ==> Value(Word(n)) == n
  {
    if n <= 0xFFFF_FFFF {
      WordValue(n);
    }
    hide Value;
    hide Rng.State;
    hide Origin;
    hide Word;
  }

  lemma SeedCount(tasks: seq<Task>, i: nat, k: nat)
    requires ActiveTickets(tasks) > 0
    ensures |WinningSeeds(tasks, i, k)| == Selections(tasks, i, U32_MAX)
  {
    hide Elects;
    hide Output;
    hide SeedOf;
    hide Selections;
    forall n: int | 1 <= n <= U32_MAX
      ensures SeedOf(Output(n, k), k) == n && 1 <= Output(n, k) <= U32_MAX
      ensures Output(SeedOf(n, k), k) == n && 1 <= SeedOf(n, k) <= U32_MAX
    {
      SeedOfInverse(n, k);
    }
    SameSize(WinningSeeds(tasks, i, k), WinningOutputs(tasks, i, U32_MAX), s => Output(s, k), x => SeedOf(x, k));
    OutputCount(tasks, i, U32_MAX);
  }

  /**
   * At any draw, were it made with these tasks, the 2^32 - 1 seeds a user can give are divided among
   * the READY tasks in proportion to their effective tickets, up to the rounding of the reduction.
   */
  lemma SeedsShared(tasks: seq<Task>, i: nat, k: nat)
    requires i < |tasks| && 0 < ActiveTickets(tasks)
    requires forall t :: t in tasks && t.state == Ready ==> t.effective >= 1
    ensures var s, seeds := ActiveTickets(tasks), |WinningSeeds(tasks, i, k)|;
      Active(tasks[i]) * (U32_MAX / s) <= seeds <= Active(tasks[i]) * CeilDiv(U32_MAX, s)
  {
    SeedCount(tasks, i, k);
    ProportionalDraw(tasks, i, U32_MAX);
    hide WinningSeeds;
    hide Selections;
    hide Total;
    hide CeilDiv;
  }

  // The first dispatch of whole runs, where the tasks in the draw are the same for every seed.

  /** The run started with `seed` gives its first dispatch to task `i`. */
  predicate WinsFirst(o: Options, tasks: seq<Task>, i: nat, seed: int)
    requires Initial(tasks) && i < |tasks|
  {
    StartOK(o, tasks, Word(seed));
    var log := Loop(o, Start(tasks, Word(seed))).log;
    log != [] && log[0].id == tasks[i].id
  }

  lemma FirstEvent(o: Options, h: Head)
    requires HeadOK(o, h) && !Stops(o, h) && h.log == []
    ensures Drawable(h) && Loop(o, h).log != [] && Loop(o, h).log[0].id == h.tasks[DrawnTask(h)].id
  {
    LoopUnfolds(o, h);
    LoopExtendsLog(o, Iterate(o, h));
    IterateSplits(o, h);
    hide Loop;
    hide Iterate;
    hide HeadOK;
    hide Dispatch;
    hide DrawnTask;
    hide DrawnTicket;
    hide NextSeed;
    hide Stops;
  }

  lemma FirstDraw(tasks: seq<Task>, seed: int)
    requires 1 <= seed <= U32_MAX && ActiveTickets(tasks) > 0
    ensures DrawnTask(Start(tasks, Word(seed))) == Winner(tasks, Ticket(Output(seed, 1), ActiveTickets(tasks)))
  {
    WordValue(seed);
    ValueBounds(Word(seed));
    assert Rng.State(Word(seed), 0) == Word(seed);
    DrawTrajectory(Word(seed), 0, Start(tasks, Word(seed)));
    hide DrawnTicket;
    hide Winner;
    hide Ticket;
    hide Value;
    hide Word;
    hide Rng.State;
    hide Total;
  }

  /** The first line of a run names the winner of a draw on the number of the first `get`. */
  lemma FirstLine(o: Options, tasks: seq<Task>, i: nat, seed: int)
    requires Initial(tasks) && i < |tasks| && 1 <= seed <= U32_MAX
    ensures ActiveTickets(tasks) > 0
    ensures WinsFirst(o, tasks, i, seed) <==> Elects(tasks, i, Output(seed, 1))
  {
    var h := Start(tasks, Word(seed));
    StartOK(o, tasks, Word(seed));
    assert Fresh(tasks[i]) && tasks[i].state == Ready && !CapReached(o, h);
    DrawSucceeds(o, h);
    FirstEvent(o, h);
    FirstDraw(tasks, seed);
    hide HeadOK;
    hide Loop;
    hide Winner;
    hide DrawnTask;
    hide DrawnTicket;
    hide Ticket;
    hide Output;
    hide Word;
    hide Total;
    hide Fresh;
  }

  /** The nonzero seeds whose run gives its first dispatch to task `i`. */
  ghost function FirstWinners(o: Options, tasks: seq<Task>, i: nat): set<int>
    requires Initial(tasks) && i < |tasks|
  {
    set seed | 1 <= seed <= U32_MAX && WinsFirst(o, tasks, i, seed)
  }

  /**
   * Whole runs: of the 2^32 - 1 seeds a user can give, each task gets the first dispatch with its
   * tickets' share of them, up to the rounding of the reduction.
   */
  lemma FirstDispatchShared(o: Options, tasks: seq<Task>, i: nat)
    requires Initial(tasks) && i < |tasks|
    ensures ActiveTickets(tasks) > 0
    ensures var s, seeds := ActiveTickets(tasks), |FirstWinners(o, tasks, i)|;
      tasks[i].tickets * (U32_MAX / s) <= seeds <= tasks[i].tickets * CeilDiv(U32_MAX, s)
  {
    FirstLine(o, tasks, i, 1);
    forall seed: int | 1 <= seed <= U32_MAX
      ensures WinsFirst(o, tasks, i, seed) <==> Elects(tasks, i, Output(seed, 1))
    {
      FirstLine(o, tasks, i, seed);
    }
    hide WinsFirst;
    hide Elects;
    hide Output;
    assert FirstWinners(o, tasks, i) == WinningSeeds(tasks, i, 1);
    forall t | t in tasks
      ensures t.effective >= 1
    {
      assert Fresh(t);
    }
    assert Fresh(tasks[i]);
    hide FirstWinners;
    hide WinningSeeds;
    hide Total;
    hide CeilDiv;
    SeedsShared(tasks, i, 1);
  }
}
