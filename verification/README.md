# A verified model of the lottery scheduler

The program schedules CPU-bound tasks by lottery. One scheduler thread and one worker thread per task
share a mutex and a condition variable. The scheduler sleeps until no task is RUNNING, draws a ticket
with a xorshift generator, marks the winner RUNNING and broadcasts; the winner's worker wakes, runs its
work units **without** holding the mutex, takes the mutex again, stores READY or FINISHED and
broadcasts. The scheduler, too, reads and writes task fields without the mutex. This project models
that program, from the scanned rows of the task file to the last join, and proves what it relies on.

## The pieces

- `Numbers`, `TaskModel`: 32-bit wrap-around, rounding, ceilings; the task record as a value and every
  update `src/task.c` makes to it.
- `Rng`, `Lottery`, `Fairness`: the generator (`src/rng.c`) on 32-bit vectors, the reduction to a
  ticket, the cumulative walk, and how many outputs and how many seeds elect a given task.
- `SeriesModel`, `SeriesValue`: the series every work unit advances, in exact reals, and its terms as
  central binomial coefficients.
- `Sequential`, `Accounting`: the **reference machine**, the main loop with the winner's units run
  inline. A `Head` is what the loop holds each time it reaches the max-dispatches check; `Iterate` goes
  from one head to the next; `Loop` is the whole run. `Accounting` says what whole runs add up to:
  `RunLength` foretells the dispatches of a run from its cap and its tasks, and `Complete` says when the
  cap leaves room for all work.
- `Audit`: what the log alone tells about the tasks, and which log is the run's.
- `Counter`: the 32-bit dispatch counter, what dispatch numbers mean, and exactly which runs outgrow it.
- `Protocol` and the modules named after it: the **threaded machine**, a transition system with a place
  per thread, the mutex owner, sleepers on the condition variable and spurious wake-ups. One inductive
  invariant ties each of its states to a head of the reference machine. From it follow refinement,
  exclusive use of unlocked fields, absence of lost wake-ups and deadlocks, and a bound on the length
  of every run. `ProtocolBreadth` says how much "every interleaving" covers: which threads can move next
  after any run, and how little one move does.
- `Allotment`: cooperative slices, stored quanta, early yield, ticket compensation.
- `TaskObject`, `LinkedList`, `Loader`, `SchedulerObject`, `Program`: the imperative form. Records are
  updated in place, the doubly linked list is a heap of nodes, the loader and the scheduler are loops
  over it. Each method is proved against the value-level function it implements, so
  `Scheduler.MainLoop` computes `Loop`, and `Program.RunFile` goes from rows to log.

`dafny verify dfyconfig.toml` checks everything.

## Reading the model

- The log holds the two lines the loop writes per dispatch, without timestamps.
- `float` and `double` values are exact reals. No claim is made about rounded arithmetic. A scanned
  yield can also be NaN, which compares false with everything.
- Counters have their C width: `Wrap` is reduction modulo 2^32.
- One step of the threaded machine is one thread's move between two points where others can interleave:
  a lock, a look at a state under the lock, one work unit, the store of a result, a broadcast, an
  unlock. `pthread_cond_wait` releases the mutex and sleeps in one step. A woken thread competes for
  the mutex and re-runs the check it slept on, so being woken and being about to lock for that check are
  the same place. Reading a state and releasing the mutex on that ground are one step, as are the
  accesses the scheduler makes between two of its own lock operations on one task.
- Workers are indexed by list position. A worker reads its work from the node, the scheduler from the
  record; the loader makes the two equal.
- In `SchedulerObject` the wait is replaced by what ends it: the RUNNING task's worker runs its
  dispatch (`WaitUntilNoRunning`). The two exits of the main loop that find no ticket or no winner are
  there as dead branches, with the proof that they are dead.

The hypotheses of the theorems can be met: `Loader.NaNAccepted` constructs an acceptable file,
`Loader.LoadedTasksInitial` turns any acceptable file into initial tasks, and `Accounting.StartBooks`,
`ProtocolMoves.InitHolds` and `ProtocolTheorems.Reachable` establish the invariants from there for every
state of every run.

## Where code and documentation differ

- `--max-dispatches 4294967295` caps nothing: the 32-bit dispatch counter never exceeds it.
  `Accounting.CappedRun` proves that every other cap is met exactly, and exactly when this one is.
  `Counter.CapOverrun` is a run that makes 21,474,836,475 dispatches under it, and
  `Program.CrowdAccepted` is a file the loader accepts that leads to it.
- The loader's range tests on the optional yield accept NaN, which `task_create` then replaces by 1.0.
  `Loader.NaNAccepted` gives such a file; `Loader.YieldRuleExact` says that this is the only way an
  accepted file breaks the stated range.
- include/task.h:60 says compensated tickets are reset when the task wins. The code applies the same
  boost after every dispatch (`Sequential.DispatchOK`); `Allotment.BoostExact` says for which tickets and
  yields that boost happens to leave the plain tickets.
- Dispatch numbers identify a dispatch only in runs within the counter's range.
  `Counter.RunNumbersDistinct` says which those are, by cap and tasks alone, for every seed;
  `Counter.NumbersRepeat` is a run where numbers repeat.

## Model

| member | source | states |
|---|---|---|
| Program.FileToOutcome | src/main.c:29-47 | end to end in terms of the file, for every acceptable file, mode, options and seed, and every interleaving: a run no thread can continue has joined all workers and logged exactly what the sequential program logs, two lines for each of min(cap, dispatches needed) dispatches for a cap below 2^32 - 1 and of all needed otherwise; its log shows for each row min(dispatches * limit, work) units, and the whole work in exactly ceil(work / limit) dispatches whenever the cap leaves room, the limit being the row's yield of the quantum or slice, rounded up; in cooperative mode at most 100/(p*y) dispatches, rounded up |
| Program.LimitOfRow | src/task.c:281-284 | the limit and the dispatches needed of a configured task, from the row alone: yield times quantum, or yield times the rounded-up percentage of the work, rounded up, and the work divided by it, rounded up |
| Program.ConfiguredRow | src/task.c:43-56 | a configured task has its row's id, tickets and work, nothing done, the given yield when the fourth field is a number and 1 otherwise, no slice in quantum mode and the slice of its own work in cooperative mode |
| Program.FileLength | src/scheduler.c:231-245 | the number of dispatches of a run, and whether the cap leaves room, from the rows alone |
| Program.CrowdAccepted | src/parser.c:115-223 | a concrete accepted file whose tasks are the ones that outgrow the dispatch counter |
| Program.RunFile | src/main.c:29-43 | the program on scanned rows succeeds exactly on acceptable files and then produces the log of the reference machine; otherwise it logs nothing |
| Program.Prepare | src/scheduler.c:110-128 | everything before the main loop leaves the scheduler at the start head of the configured tasks, or fails exactly on unacceptable files |
| ProtocolTheorems.InterleavingsAgree | src/scheduler.c:172-340 | for fixed tasks, seed and options every interleaving, spurious wake-ups included, logs a prefix of the sequential log, and on completion the same log and the same final tasks |
| ProtocolBreadth.EveryChoice | src/task.c:367-446 | after any run from the start, the next move can be that of any worker that is awake and alive with the mutex free, its own or not needed; of the scheduler on the same terms unless it joins a live worker; or the spurious waking of any sleeper; and nothing else |
| ProtocolBreadth.AnyoneFirst | src/scheduler.c:119-126 | each worker, and the scheduler, can be the first to move |
| ProtocolBreadth.WokenCompetes | src/task.c:369-377 | a thread woken for no reason can take the free mutex at once |
| ProtocolBreadth.WorkerPath | src/task.c:360-444 | a worker goes from place to place in the order of its loop, runs one unit per step between its unlock and its relock, and touches no other task |
| ProtocolBreadth.SmallMove | src/task.c:82-90 | one move changes at most one task, a task's state only inside the mover's critical section, its work done only by one unit of its own worker, and writes at most one line |
| ProtocolBreadth.BroadcastWakesAll | src/task.c:435 | after a broadcast no thread is asleep |
| ProtocolMoves.MoveKeeps | src/task.c:347-446 | every move of every thread, and every spurious wake-up, keeps the invariant; only the scheduler's report advances the head, by one iteration |
| ProtocolMoves.InitHolds | src/scheduler.c:119-126 | the invariant holds when the threads start |
| ProtocolTheorems.RunKeeps | src/task.c:347-446 | along every run the invariant holds for the head reached, and that head has the same outcome as the first |
| ProtocolTheorems.Reachable | src/task.c:347-446 | every state of every run satisfies the invariant, for the head of the reference machine it has reached |
| ProtocolTheorems.SingleOwner | src/task.c:393-424 | at most one task is RUNNING; a worker past its unlock has a RUNNING task; critical sections exclude each other; while the scheduler works on fields without the lock no task is RUNNING and no worker is in a dispatch |
| ProtocolTheorems.ShutdownIsQuiet | src/scheduler.c:231-235 | the shutdown at the dispatch cap happens with no task RUNNING and no worker in a dispatch |
| ProtocolTheorems.QuietAfterLoop | src/main.c:43-47 | from the end of the main loop on, while the summary reads all records without the lock and during the joins, every task is FINISHED and no worker is asleep or in a dispatch |
| ProtocolInvariant.MutexKept | src/task.c:82-90 | the mutex owner is always exactly the thread inside a critical section |
| ProtocolTheorems.NoLostWakeup | src/task.c:162-212 | in every reachable state a sleeping worker's task is READY, or the thread that changed its state has its broadcast still to make; while the scheduler sleeps the winner's worker is awake, its task is RUNNING unless the worker is about to broadcast, and no other task is RUNNING |
| ProtocolTheorems.NoLostWakeupWhenFree | src/task.c:369-377 | with the mutex free, a sleeping worker's task is READY, and a sleeping scheduler means exactly one RUNNING task, whose worker can move |
| ProtocolTheorems.NoDeadlock | src/task.c:367-443 | until all workers are joined some thread can move without a spurious wake-up |
| ProtocolTheorems.NeverStalls | src/scheduler.c:242-285 | in every reachable state the zero-sum `continue` and the null-winner `break` are not taken, and the task handed the CPU is READY, also when compensation lifts the ticket sum past 2^32 - 1 |
| ProtocolTheorems.AtEnd | src/scheduler.c:345-354 | when the last join returns every worker has left its loop and log and tasks are those of the reference machine |
| ProtocolTermination.RunsAreFinite | src/scheduler.c:172-340 | a run of n tasks with total work W and w spurious wake-ups has at most (12n+41)W + 8n + 14 + (n+3)w moves, although each broadcast wakes everybody |
| ProtocolTermination.MoveCosts | src/task.c:301-313 | one measure over remaining work, hand-off phase and awake threads drops on every move and grows by at most n + 2 on a spurious wake-up |
| ProtocolTermination.CanComplete | src/task.c:477-487 | from every reachable state the program can be driven to its end with no spurious wake-up |
| ProtocolTermination.MaximalRun | src/scheduler.c:343-362 | a run no thread can continue has joined everybody, with all tasks FINISHED and the sequential log and tasks |
| Sequential.DrawSucceeds | src/scheduler.c:242-285 | at a head with an unfinished task the active sum is positive, the walk finds a task and that task is READY, whatever the seed; the ticket never exceeds the sum |
| Sequential.DispatchRuns | src/task.c:297-345 | a dispatch runs exactly min(limit, remaining) units, at least one, sets state, dispatch numbers and effective tickets accordingly and leaves the task's identity alone |
| Sequential.DispatchOK | src/task.c:424-428 | a dispatch keeps: READY means done = dispatches * limit < work, FINISHED means all work done in the last needed dispatch, effective tickets are the plain ones before the first dispatch and the compensated ones after |
| Sequential.IterateOK | src/scheduler.c:206-339 | one iteration keeps every task sound, makes exactly one dispatch and strictly reduces the units left |
| Sequential.LoopExtendsLog | src/scheduler.c:302-310 | what a head has logged starts what the whole run logs |
| Accounting.RunEnds | src/scheduler.c:231-245 | the number of dispatches of every run is known from cap and tasks before it starts, for every seed, and at its last head all tasks are finished if and only if the cap leaves room |
| Accounting.RunTotals | src/scheduler.c:172-340 | for every seed a run ends with all tasks FINISHED, log and counters in agreement, each task's units equal to min(dispatches * limit, work); all work of all tasks is done if and only if the cap leaves room, and then each task took exactly ceil(work / limit) dispatches |
| Accounting.EveryTaskServed | src/scheduler.c:242-245 | the log by itself shows for each task its dispatches' worth of units and, whenever the cap leaves room, its whole work, won in exactly the dispatches needed |
| Accounting.CappedRun | src/scheduler.c:231-235 | a cap D makes min(D, dispatches needed) dispatches if and only if D < 2^32 - 1 or the run needs no more than D; D = 2^32 - 1 caps nothing |
| Audit.LogCharacterised | src/scheduler.c:217-310 | a log is the one of the run from given tasks, options and seed if and only if it has a pair of lines for each dispatch the run makes and passes the audit: in each pair, judged by the lines before it alone, the active tickets are those of the tasks with work left, the winner is the task the walk reaches for the ticket of that dispatch, and all fields follow |
| Audit.BooksRecovered | src/task.c:84-88 | at every head the log before it tells the whole record of every task |
| Audit.AuditUnique | src/scheduler.c:172-340 | two logs of the same length that pass the audit are equal |
| Accounting.IterateBooks | src/scheduler.c:217-227 | log conservation: lines come in pairs numbered 1, 2, 3, ..., dispatch k uses the k-th generator state, run units are min(limit, remaining) >= 1, the remaining-work subtractions never underflow, and each task's counters equal what the log records for it |
| Accounting.StartBooks | src/scheduler.c:149-170 | the books are in order when the loop starts |
| Accounting.LoopBooks | src/scheduler.c:231-245 | the loop always reaches a head where it stops with the books in order, and a cap below 2^32 - 1 is not overrun |
| Accounting.MadeReachesNeeded | src/scheduler.c:40-47 | the dispatches made never exceed the dispatches needed, and reach them exactly when all tasks are finished |
| Counter.FirstAndLast | src/task.c:84-88 | in a log of any length a task never chosen has first = last = 0; otherwise its two numbers are, modulo 2^32, those of the first and the last dispatch that chose it, and these lie far enough apart to hold all of them |
| Counter.Bookkeeping | src/task.c:84-88 | at each head of a run of any length the counters add up to the dispatches made, the dispatch number is one more modulo 2^32, and first and last dispatch are those the log shows modulo 2^32; until the counter wraps, without the modulus |
| Counter.CounterExact | src/scheduler.c:339 | at every head the dispatch counter is one more than the dispatches made if and only if it has not wrapped |
| Counter.RunCounterExact | src/scheduler.c:339 | for every seed the counter ends one ahead of the dispatches made if and only if the cap is between 1 and 2^32 - 2 or the tasks need fewer than 2^32 - 1 dispatches |
| Counter.RunNumbersDistinct | src/scheduler.c:336-339 | for every seed no two dispatches of a run share a number if and only if the cap is between 1 and 2^32 - 2 or the tasks need at most 2^32 dispatches |
| Counter.NumbersRepeat | src/scheduler.c:336-339 | five tasks of the largest work under a quantum of 1 and no effective cap: numbers repeat, for every seed |
| Counter.CapOverrun | src/scheduler.c:231 | the same tasks under the cap 2^32 - 1 make 5 * (2^32 - 1) dispatches, for every seed |
| Lottery.TicketShare | src/scheduler.c:77-95 | of the tickets 1..S exactly as many as its effective tickets go to each READY task |
| Lottery.WinnerInterval | src/scheduler.c:77-95 | the walk returns a task for the tickets of one interval, as long as the task's share, and for no other ticket |
| Lottery.SelectionsCount | src/scheduler.c:57-95 | the exact number of outputs 1..n, n <= 2^32 - 1, that elect a task, for any sum: its tickets per whole round plus the overlap of the rest with its interval; where the last output becomes ticket 0, it counts for the first READY task |
| Lottery.ProportionalDraw | src/scheduler.c:57-95 | among outputs 1..n, n <= 2^32 - 1, a task is elected at least t * floor(n/S) and at most t * ceil(n/S) times, for any sum S, also one that does not fit 32 bits |
| Lottery.TicketZero | src/scheduler.c:64 | ticket 0, which an unseeded generator or a sum of 2^32 and more can produce, goes to the first READY task |
| Fairness.FirstDispatchShared | src/scheduler.c:254-285 | whole runs: of the 2^32 - 1 usable seeds, the number whose run gives its first dispatch to a task is its tickets' share of them, within the same bounds |
| Fairness.SeedsShared | src/rng.c:27-51 | for a draw among given tasks made at any later call, the 2^32 - 1 usable seeds are divided among READY tasks in proportion to effective tickets, within the same bounds |
| Fairness.SeedCount | src/scheduler.c:57-67 | exactly as many seeds as outputs elect a task, at whatever call of the generator |
| Rng.NextInverse | src/rng.c:37-43 | a generator step is a bijection on 32-bit words with an explicit inverse |
| Rng.NextLinear | src/rng.c:37-43 | a generator step is linear over GF(2) |
| Rng.NextOnBits | src/rng.c:37-43 | the value of a step on each of the 32 one-bit words; with linearity, of every step |
| Rng.NextNonzero | src/rng.c:37-43 | a step gives zero exactly on zero |
| Rng.StateNonzero | src/rng.c:15-31 | after any number of calls the state is zero only if the seed was, so after a nonzero seed no `get` ever fails |
| Rng.StateReturns | src/rng.c:27-51 | every nonzero seed comes back to itself within 2^32 - 1 calls and the sequence then repeats |
| Rng.Generator.Get | src/rng.c:27-51 | fails and changes nothing on a zero seed; otherwise returns the next state and stores it, never zero |
| Rng.Generator.Seed | src/rng.c:15-25 | stores the seed and reports whether it is usable |
| SeriesValue.TermValue | src/task.c:242-247 | after n units the term is C(2n, n) / (4^n * (2n+1)), the binomial coefficient by Pascal's rule |
| SeriesValue.SumValue | src/task.c:254 | after n units the sum is twice the sum of the first n + 1 such terms |
| SeriesValue.FirstUnits | src/task.c:52-54 | sum and term before and after the first two units: 2 and 1, 7/3 and 1/6, 149/60 and 3/40 |
| SeriesValue.SumFromBelow | src/task.c:254 | after one unit the sum never falls below 7/3, after two never below 149/60 |
| SeriesModel.TermBounds | src/task.c:241-247 | after any number of units the term is in (0, 1] and smaller than before |
| SeriesModel.TailBounds | src/task.c:254 | the sum strictly increases, and never by more than the telescoping majorant 2 * (2n + 3/5) * term allowed |
| SeriesModel.SumBound | src/task.c:52-54 | the sum a task reports stays at least 2 and below 16/5 |
| SeriesModel.TermDecay | src/task.c:243-247 | (2n+1)^3 times the square of the n-th term is at most 1 |
| SeriesModel.Convergence | src/task.c:241-263 | for m >= n the sums differ by d with (2n+1) * d^2 <= 4 |
| SeriesModel.WithinTolerance | tests/unit_tests/test_parser.c:342-352 | from 20,000 units on no later sum differs by 0.01 or more, the tolerance the cited unit test allows after 1,000,000 units |
| TaskModel.UnitsToRunExact | src/task.c:301-302 | the guard of the worker's loop stops it after exactly min(limit, remaining) units and never beyond the work |
| TaskModel.LimitMeans | src/task.c:395-415 | a dispatch runs at most the yield times the slice, or times the quantum when there is no slice, rounded up; 1 unit when there is neither |
| TaskModel.EarlyLimit | src/task.c:281-284 | the limit is the least whole number of units not below the exact share, at least 1 and at most the allotment |
| Allotment.CooperativeDispatches | src/scheduler.c:130-138 | with a slice of p percent a task of any size yielding at y finishes in at most ceil(100/(p*y)) dispatches, and the slice never exceeds the work |
| Allotment.Slice | src/scheduler.c:134-136 | the slice is at least 1, at most the work, and the least whole number not below p percent of it |
| Allotment.SliceMeans | src/scheduler.c:134 | the slice is work * p / 100 rounded up |
| Allotment.QuantumEitherWay | src/scheduler.c:141-147 | a quantum stored in every task gives the same limit and the same number of dispatches as the quantum given as an option |
| Allotment.DispatchKeepsShare | src/scheduler.c:206-215 | for whole dispatches: the tickets a dispatch leaves a task with times its limit keep the bounds below, in its own tickets, its slice or else the quantum, and its yield |
| Allotment.CompensationRestoresShare | src/task.c:219-227 | compensated tickets times units per dispatch stay below t*Q + t/y + Q*y/2 + 1/2 always; they reach t*Q - Q*y/2 whenever the boost is not clamped, and (2^32 - 1)*Q*y when it is |
| Allotment.ShareRestoredExactly | src/task.c:219-227 | the product reaches t*Q - Q*y/2 if and only if t is at most (2^32 - 1) * ceil(Q*y) / Q + y/2, clamped or not |
| Allotment.ClampedShareFails | src/task.c:221-223 | with the most tickets one task of a file can have, a clamped boost whose product falls below t*Q - Q*y/2 |
| Program.ClampedAccepted | src/parser.c:146-201 | a concrete accepted file with that task, which under a quantum of 10 and compensation falls short of its share |
| Allotment.BoostMeans | src/task.c:219-227 | the boosted tickets are t/y to the nearest whole number, halves up, or 2^32 - 1 where that is too large; without compensation, or for y = 1, the plain tickets |
| Allotment.BoostExact | src/task.c:219-227 | a dispatch leaves a task its plain tickets if and only if compensation is off, 2*t*(1-y) < y, or the tickets are already 2^32 - 1 |
| Allotment.CompensationRange | src/task.c:219-227 | compensation never lowers the tickets, and at most multiplies them by ten for the yields the loader admits |
| TaskObject.TaskRecord.constructor | src/task.c:36-64 | a new record is READY with all counters zero, and an unusable yield becomes 1.0 |
| TaskObject.TaskRecord.TransitionToRunning | src/task.c:76-92 | refuses a task that is not READY and changes nothing; otherwise marks it RUNNING, counts the dispatch and records its number |
| TaskObject.TaskRecord.ApplyCompensation | src/task.c:219-227 | sets effective tickets to the value the reference machine prescribes and nothing else |
| TaskObject.TaskRecord.DoOneWorkingUnit | src/task.c:241-263 | advances the series by one term and counts one unit, leaving the rest alone |
| TaskObject.TaskRecord.RunUpTo | src/task.c:297-345 | the loop runs min(limit, remaining) units, and none on a task with no work left |
| TaskObject.TaskRecord.RunDispatch | src/task.c:395-428 | the branch taken, its units and the stored state together are one dispatch of the reference machine |
| LinkedList.List.Links | src/double_linked_list.c:35-51 | in a valid list next and prev are mutually inverse from node to node, nothing precedes the head or follows the last node, and no node occurs twice |
| LinkedList.List.Insert | src/double_linked_list.c:15-53 | appends one node; order and content of the others stay and all links remain mutually inverse |
| LinkedList.List.Remove | src/double_linked_list.c:56-77 | unlinks exactly the first node with the id, keeps the others in order with their content, drops its data; changes nothing when there is none |
| LinkedList.List.Find | src/double_linked_list.c:92-108 | returns the first node with the id, or none exactly when there is none |
| LinkedList.List.Clean | src/double_linked_list.c:79-90 | empties the list and drops the data of every node |
| Loader.Load | src/parser.c:115-230 | succeeds if and only if the file as a whole is acceptable (5 to 25 rows, fields in range, yields in range or NaN, ids distinct, total tickets at most 2^32 - 1); then the list holds the rows in order, nodes and records agreeing; otherwise it is empty |
| Loader.RulesInNumbers | src/parser.c:129-221 | the loader's rules are, on the raw rows: 5 to 25 non-blank ones, at least three fields, id, tickets and work from 1 to 4294967295, a numeric yield from 0.1 to 1, no id twice, at most 4294967295 tickets in all |
| Loader.PlainAccepted | src/parser.c:129-132 | of files with n plain rows with yield 1 exactly those with 5 to 25 are accepted |
| Loader.RefusedRows | src/parser.c:139-200 | a file of five rows is refused for one with two fields, a zero field, an id of 2^32, an id used twice, a yield below 0.1 or above 1, or one ticket too many |
| Loader.NonBlankIs | src/parser.c:125-127 | blank lines are skipped and nothing else is |
| Loader.BadPrefix | src/parser.c:129-201 | refusing at the first bad row is refusing the whole file: no later row can repair it, so the running ticket test equals the test on the total |
| Loader.Validate | src/parser.c:139-185 | the checks on one row accept exactly the rows the rules accept |
| Loader.ReadRow | src/parser.c:129-213 | one turn of the reading loop refuses or appends, and appends exactly when the row breaks no rule against the rows before it |
| Loader.LoadedTasksInitial | src/parser.c:208-209 | an accepted file yields between 5 and 25 fresh tasks with distinct ids, the start of every theorem about runs |
| Loader.YieldRuleExact | src/parser.c:146-159 | an accepted file keeps every yield in [0.1, 1] if and only if no yield is NaN |
| Loader.NaNAccepted | src/parser.c:146-159 | a concrete accepted file with a NaN yield |
| SchedulerObject.Scheduler.MainLoop | src/scheduler.c:149-341 | the loop over the list, its pending flag and its deferred report computes the tasks, log and generator state of the reference machine |
| SchedulerObject.Scheduler.TakeTurn | src/scheduler.c:231-339 | below the report one pass either stops as the reference machine stops or starts the next dispatch |
| SchedulerObject.Scheduler.HoldLottery | src/scheduler.c:254-285 | ticket sum, ticket and winner are those of the reference machine, and a winner is always found |
| SchedulerObject.Scheduler.BeginDispatch | src/scheduler.c:287-324 | writes the "before" line from the fields before the hand-over and starts the winner only |
| SchedulerObject.Scheduler.FinishDispatch | src/scheduler.c:206-229 | compensation and "after" line complete exactly one iteration of the reference machine |
| SchedulerObject.Scheduler.WaitUntilNoRunning | src/task.c:150-213 | with at most one RUNNING task, the wait returns with that task's dispatch worked off and all other tasks unchanged |
| SchedulerObject.Scheduler.WinnerTask | src/scheduler.c:77-95 | the walk over the nodes returns the node at the position the value-level walk returns, null past the end |
| SchedulerObject.Scheduler.CumulativeTickets | src/scheduler.c:22-38 | the loop returns the sum of effective tickets over READY tasks |
| SchedulerObject.Scheduler.SortWinnerTicket | src/scheduler.c:57-67 | the ticket and the generator state after it are those of one draw; 0 when unseeded |
| SchedulerObject.Scheduler.AllTasksFinished | src/scheduler.c:40-47 | true exactly when every task is FINISHED |
| SchedulerObject.Scheduler.FindRunning | src/task.c:169-179 | the scan finds a RUNNING task exactly when there is one |
| SchedulerObject.Scheduler.ShutdownAll | src/task.c:477-487 | turns every READY task FINISHED and leaves every other one alone |
| SchedulerObject.Scheduler.ConfigureCooperative | src/scheduler.c:130-138 | gives every task the slice of its own work and changes nothing else |
| SchedulerObject.Scheduler.ConfigureQuantum | src/scheduler.c:141-147 | gives every task the quantum, at least 1, as its slice and changes nothing else |

## Left out

- SeriesModel.WithinTolerance: bounds the distance to later partial sums, not to the number pi, which is not part of this model.
- Fairness.SeedsShared: fixes the tasks taking part in the draw, which Fairness.FirstDispatchShared shows to be what happens at the first dispatch; later in a run the active tasks depend on the earlier draws, and no probability is claimed.
- ProtocolTermination.RunsAreFinite: charges spurious wake-ups instead of excluding them; a run with infinitely many of them has no bound.
- SchedulerObject.Scheduler.WaitUntilNoRunning: has no sleep and no lock, which are in the threaded machine.
- Program.Prepare: has no threads; they start in the threaded machine, `Protocol.Init`.
- TaskObject.TaskRecord.TransitionToRunning: has no lock and no broadcast, which are in the threaded machine.
- LinkedList.List.Remove: has no deallocation; a removed node keeps its own stale links.
- Full period of the generator: that all nonzero states lie on one cycle is not proved, only that every state is on a cycle.
- IEEE 754 rounding in `ceilf`, `round` and the series, and conversions from `float` near 2^32.
- The file and terminal side: opening and reading lines, `sscanf`, options, help text, the summary file, timestamps and CSV output.
- Failures of `malloc`, of thread creation and of joins; the per-task mutex, which is initialised and never locked.
- The table of threads indexed by task id; workers are indexed by list position.
- Workers start before slices are configured; the model starts them afterwards. No task is RUNNING in between, and only a RUNNING task's worker reads its slice.
- `task_transition_to_ready`, `task_transition_to_finished`, `task_wait_for_state_change` and `task_is_there_any_running_task`, which neither the scheduler nor the workers call.
- Return values that only report errors to standard error.
