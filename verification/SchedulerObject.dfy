/**
 * `scheduler_main_loop` over the linked list of task records, run with the winner's work inline: where
 * the scheduler thread would sleep until no task is RUNNING, the winner's worker is run instead.
 */
module SchedulerObject {
  import opened Numbers
  import opened TaskModel
  import Rng
  import opened Lottery
  import opened Sequential
  import opened Accounting
  import opened Allotment
  import opened TaskObject
  import opened LinkedList

  class Scheduler {
    const options: Options
    const list: List
    const rng: Rng.Generator
    ghost const cells: seq<TaskRecord>
    var log: seq<Event>

    /** The list holds one node per record, in order, no record twice, node fields as in the record. */
    ghost predicate Valid()
      reads this, list, list.spine, cells
    {
      && list.Valid() && |list.spine| == |cells|
      && (forall i, j :: 0 <= i < j < |cells| ==> cells[i] != cells[j])
      && (forall i :: 0 <= i < |cells| ==> NodeMatches(list.spine[i], cells[i]))
    }

    ghost function Tasks(): (ts: seq<Task>)
      reads this, cells
      ensures |ts| == |cells| && forall i :: 0 <= i < |ts| ==> ts[i] == cells[i].View()
    {
      seq(|cells|, i requires 0 <= i < |cells| reads cells => cells[i].View())
    }

    constructor (options: Options, list: List, rng: Rng.Generator, ghost cells: seq<TaskRecord>)
      requires list.Valid() && |list.spine| == |cells|
      requires forall i, j :: 0 <= i < j < |cells| ==> cells[i] != cells[j]
      requires forall i :: 0 <= i < |cells| ==> NodeMatches(list.spine[i], cells[i])
      ensures Valid() && log == []
      ensures this.options == options && this.list == list && this.rng == rng && this.cells == cells
    {
      this.options, this.list, this.rng, this.cells := options, list, rng, cells;
      log := [];
    }

    /** The scan of `task_wait_until_no_running`. */
    method FindRunning() returns (running: TaskRecord?)
      requires Valid()
      ensures running == null ==> forall i :: 0 <= i < |cells| ==> cells[i].state != Running
      ensures running != null ==> exists i :: 0 <= i < |cells| && running == cells[i] && cells[i].state == Running
    {
      var current := list.head;
      ghost var k := 0;
      while current != null
        invariant 0 <= k <= |cells| && current == list.At(k)
        invariant forall i :: 0 <= i < k ==> cells[i].state != Running
        decreases |cells| - k
      {
        assert NodeMatches(list.spine[k], cells[k]) && LinkedAt(list.spine, k);
        if current.data.state == Running {
          return current.data;
        }
        current := current.next;
        k := k + 1;
      }
      return null;
    }

    /** `scheduler_all_tasks_finished`. */
    method AllTasksFinished() returns (finished: bool)
      requires Valid()
      ensures finished <==> AllFinished(Tasks())
      ensures finished <==> forall i :: 0 <= i < |cells| ==> cells[i].state == Finished
    {
      var current := list.head;
      ghost var k := 0;
      while current != null
        invariant 0 <= k <= |cells| && current == list.At(k)
        invariant forall i :: 0 <= i < k ==> Tasks()[i].state == Finished
        decreases |cells| - k
      {
        assert NodeMatches(list.spine[k], cells[k]) && LinkedAt(list.spine, k);
        if current.data.state != Finished {
          assert Tasks()[k].state != Finished;
          return false;
        }
        current := current.next;
        k := k + 1;
      }
      return true;
    }

    /** `scheduler_calculate_cumulutive_tickets`. */
    method CumulativeTickets() returns (sum: nat)
      requires Valid()
      ensures sum == ActiveTickets(Tasks())
    {
      sum := 0;
      var current := list.head;
      ghost var k := 0;
      while current != null
        invariant 0 <= k <= |cells| && current == list.At(k)
        invariant sum + Total(Active, Tasks(), k) == ActiveTickets(Tasks())
        decreases |cells| - k
      {
        assert NodeMatches(list.spine[k], cells[k]) && LinkedAt(list.spine, k);
        assert Tasks()[k] == current.data.View();
        if current.data.state == Ready {
          sum := sum + current.data.effective;
        }
        current := current.next;
        k := k + 1;
      }
    }

    /** `scheduler_sort_winner_ticket`. */
    method SortWinnerTicket(sum: nat) returns (ticket: U32)
      requires Valid() && 0 < sum
      modifies rng
      ensures Valid() && Tasks() == old(Tasks())
      ensures rng.seed == Draw(old(rng.seed), sum).0 && ticket == Draw(old(rng.seed), sum).1
    {
      var ok, number := rng.Get();
      if !ok {
        return 0;
      }
      ticket := Ticket(Rng.Value(number), sum);
    }

    /** `scheduler_winner_task`. */
    method WinnerTask(ticket: U32) returns (node: Node?)
      requires Valid()
      ensures node == list.At(Winner(Tasks(), ticket))
      ensures Winner(Tasks(), ticket) < |cells| ==> node != null && node == list.spine[Winner(Tasks(), ticket)]
    {
      var sum: nat := 0;
      node := list.head;
      ghost var k := 0;
      while node != null
        invariant 0 <= k <= |cells| && node == list.At(k)
        invariant WinnerFrom(Tasks(), ticket, k, sum) == Winner(Tasks(), ticket)
        decreases |cells| - k
      {
        assert NodeMatches(list.spine[k], cells[k]) && LinkedAt(list.spine, k);
        assert Tasks()[k] == node.data.View();
        if node.data.state == Ready {
          sum := sum + node.data.effective;
          if sum >= ticket {
            return;
          }
        }
        node := node.next;
        k := k + 1;
      }
    }

    /** The node at position `k` and its neighbour, for a walk along the list. */
    lemma WalkAt(k: nat)
      requires Valid() && k < |cells|
      ensures |list.spine| == |cells| && list.At(k) == list.spine[k]
      ensures NodeMatches(list.spine[k], cells[k]) && list.spine[k].data == cells[k]
      ensures list.spine[k].next == list.At(k + 1)
      ensures Tasks()[k] == cells[k].View() && Tasks()[k].work == cells[k].work
    {
      assert LinkedAt(list.spine, k);
    }

    lemma WalkEnds(k: nat)
      requires Valid() && k <= |cells|
      ensures list.At(k) != null ==> k < |cells|
      ensures k == 0 ==> list.head == list.At(k)
    {
    }

    /** The turn of `task_shutdown_all` on one record. */
    method ShutdownOne(cell: TaskRecord, ghost k: nat)
      requires Valid() && k < |cells| && cell == cells[k]
      modifies cells
      ensures Valid() && Tasks() == old(Tasks())[k := ShutDown(old(Tasks())[k])]
    {
      if cell.state == Ready {
        cell.state := Finished;
      }
      forall i | 0 <= i < |cells|
        ensures NodeMatches(list.spine[i], cells[i])
      {
        assert old(NodeMatches(list.spine[i], cells[i]));
      }
    }

    /** `task_shutdown_all`. */
    method ShutdownAll()
      requires Valid()
      modifies cells
      ensures Valid() && Tasks() == ShutDownAll(old(Tasks()))
      ensures forall i :: 0 <= i < |cells| ==>
        var before := old(Tasks())[i];
        Tasks()[i] == before.(state := if before.state == Ready then Finished else before.state)
    {
      ghost var before, after, k: nat := Tasks(), ShutDownAll(Tasks()), 0;
      ShutDownMeans(before);
      SweptStart(before, after);
      WalkEnds(0);
      assert |before| == |cells|;
      hide *;
      var current := list.head;
      while current != null
        invariant 0 <= k <= |cells| && current == list.At(k) && Valid()
        invariant Swept(before, after, Tasks(), k)
        decreases |cells| - k
      {
        WalkEnds(k);
        WalkAt(k);
        ghost var now := Tasks();
        ShutDownAt(before, k);
        SweptOn(before, after, now, k);
        ShutdownOne(current.data, k);
        WalkAt(k);
        current := current.next;
        k := k + 1;
      }
      NoNode(k);
      SweptAll(before, after, Tasks());
    }

    lemma NoNode(k: nat)
      requires Valid() && k <= |cells| && list.At(k) == null
      ensures k == |cells|
    {
    }

    /** `task_set_slice` on one record of the list. */
    method SetSliceOf(cell: TaskRecord, slice: U32, ghost k: nat)
      requires Valid() && k < |cells| && cell == cells[k]
      modifies cells
      ensures Valid() && Tasks() == old(Tasks())[k := WithSlice(old(Tasks())[k], slice)]
    {
      cell.SetSlice(slice);
      forall i | 0 <= i < |cells|
        ensures NodeMatches(list.spine[i], cells[i])
      {
        assert old(NodeMatches(list.spine[i], cells[i]));
      }
    }

    /** `scheduler_configure_cooperative`. */
    method ConfigureCooperative(p: Percent)
      requires Valid()
      modifies cells
      ensures Valid() && Tasks() == Cooperative(old(Tasks()), p)
    {
      ghost var before, after, k: nat := Tasks(), Cooperative(Tasks(), p), 0;
      SweptStart(before, after);
      WalkEnds(0);
      assert |before| == |cells|;
      hide *;
      var current := list.head;
      while current != null
        invariant 0 <= k <= |cells| && current == list.At(k) && Valid()
        invariant Swept(before, after, Tasks(), k)
        decreases |cells| - k
      {
        WalkEnds(k);
        WalkAt(k);
        ghost var now := Tasks();
        CooperativeAt(before, p, k);
        SweptOn(before, after, now, k);
        var slice := Slice(current.data.work, p);
        SetSliceOf(current.data, slice, k);
        WalkAt(k);
        current := current.next;
        k := k + 1;
      }
      NoNode(k);
      SweptAll(before, after, Tasks());
    }

    /** `scheduler_configure_quantum`. */
    method ConfigureQuantum(quantum: U32)
      requires Valid()
      modifies cells
      ensures Valid() && Tasks() == WithQuantum(old(Tasks()), quantum)
    {
      ghost var before, after, k: nat := Tasks(), WithQuantum(Tasks(), quantum), 0;
      var q := SliceSize(quantum);
      SweptStart(before, after);
      WalkEnds(0);
      assert |before| == |cells|;
      hide *;
      var current := list.head;
      while current != null
        invariant 0 <= k <= |cells| && current == list.At(k) && Valid()
        invariant Swept(before, after, Tasks(), k)
        decreases |cells| - k
      {
        WalkEnds(k);
        WalkAt(k);
        ghost var now := Tasks();
        QuantumAt(before, quantum, k);
        SweptOn(before, after, now, k);
        SetSliceOf(current.data, q, k);
        WalkAt(k);
        current := current.next;
        k := k + 1;
      }
      NoNode(k);
      SweptAll(before, after, Tasks());
    }

    /** `task_wait_until_no_running`, with the sleep replaced by the work that ends it: the RUNNING
        task's worker runs its dispatch and stores the result. */
    method WaitUntilNoRunning(ghost w: nat)
      requires Valid()
      requires forall i :: 0 <= i < |cells| && i != w ==> cells[i].state != Running
      modifies cells
      ensures Valid()
      ensures Tasks() == WithSettled(options, old(Tasks()), w)
    {
      var running := FindRunning();
      if running != null {
        assert w < |cells| && running == cells[w];
        running.RunDispatch(options);
        forall i | 0 <= i < |cells|
          ensures NodeMatches(list.spine[i], cells[i])
        {
          assert old(NodeMatches(list.spine[i], cells[i]));
          if i == w {
            DispatchIdentity(options, old(cells[w].View()));
          }
        }
      }
    }

    /** Head `p` has been left by starting its winner, at position `w`, and by the "before" line. */
    ghost predicate Underway(p: Head, w: nat)
      reads this, cells
    {
      && HeadOK(options, p) && Drawable(p) && w == DrawnTask(p) && p.tasks[w].state == Ready
      && |p.tasks| == |cells|
      && Tasks() == p.tasks[w := StartRunning(p.tasks[w], p.number)]
      && log == p.log + [ChosenEvent(p.number, p.tasks[w], DrawnTicket(p), ActiveTickets(p.tasks))]
    }

    /** Applying compensation to one record of the list. */
    method CompensateWinner(winner: Node, ghost w: nat)
      requires Valid() && w < |cells| && winner == list.spine[w]
      modifies cells
      ensures Valid() && winner.data == cells[w]
      ensures Tasks() == old(Tasks())[w := Compensate(options, old(Tasks())[w])]
    {
      assert NodeMatches(list.spine[w], cells[w]);
      winner.data.ApplyCompensation(options);
      forall i | 0 <= i < |cells|
        ensures NodeMatches(list.spine[i], cells[i])
      {
        assert old(NodeMatches(list.spine[i], cells[i]));
      }
    }

    /** The "after" line, from the fields of the winner's record. */
    method WriteReport(winner: Node, number: U32, before: U32, ghost w: nat)
      requires Valid() && w < |cells| && winner == list.spine[w]
      modifies this`log
      ensures Valid() && Tasks() == old(Tasks())
      ensures log == old(log) + [ReportedEvent(number, Tasks()[w], before)]
    {
      assert NodeMatches(list.spine[w], cells[w]);
      var data := winner.data;
      assert Tasks()[w] == data.View();
      log := log + [Reported(number, winner.id, Wrap(data.done - before), data.done, data.state,
                             data.effective, Wrap(data.work - data.done))];
    }

    /** What the loop keeps about the dispatch it left head `p` with. */
    ghost predicate Remembers(p: Head, w: nat, winner: Node?, number: U32, before: U32)
      reads list
    {
      && w < |list.spine| && winner == list.spine[w] && w < |p.tasks|
      && number == p.number && before == p.tasks[w].done
    }

    /** The dispatch underway since head `p` has been worked off; it is not yet reported. */
    ghost predicate WorkedOff(p: Head, w: nat)
      reads this, cells
    {
      && HeadOK(options, p) && Drawable(p) && w == DrawnTask(p) && p.tasks[w].state == Ready
      && |p.tasks| == |cells|
      && Tasks() == WithSettled(options, p.tasks[w := StartRunning(p.tasks[w], p.number)], w)
      && log == p.log + [ChosenEvent(p.number, p.tasks[w], DrawnTicket(p), ActiveTickets(p.tasks))]
    }

    /** The wait at the top of the loop: nobody is RUNNING yet, or the dispatch underway is waited out. */
    method Await(pending: bool, ghost p: Head, ghost w: nat)
      requires Valid() && (pending ==> Underway(p, w))
      requires !pending ==> forall i :: 0 <= i < |cells| ==> Tasks()[i].state != Running
      modifies cells
      ensures Valid() && (pending ==> WorkedOff(p, w))
      ensures !pending ==> Tasks() == old(Tasks())
    {
      if pending {
        DispatchSettled(options, p, w, Tasks());
        assert forall i :: 0 <= i < |cells| ==> Tasks()[i] == cells[i].View();
        hide Drawable;
        hide HeadOK;
        hide StartRunning;
        hide WithSettled;
        hide ChosenEvent;
        hide DrawnTask;
        hide DrawnTicket;
        WaitUntilNoRunning(w);
      } else {
        assert forall i :: 0 <= i < |cells| ==> Tasks()[i] == cells[i].View();
        WaitUntilNoRunning(|cells|);
      }
    }

    /** The end of a dispatch: compensate the winner, write the "after" line. */
    method FinishDispatch(winner: Node?, pendingNumber: U32, before: U32, ghost p: Head, ghost w: nat)
      requires Valid() && WorkedOff(p, w) && Remembers(p, w, winner, pendingNumber, before)
      modifies this`log, cells
      ensures Valid() && Tasks() == Iterate(options, p).tasks && log == Iterate(options, p).log
    {
      DispatchSettled(options, p, w, p.tasks[w := StartRunning(p.tasks[w], p.number)]);
      IterateSplits(options, p);
      hide *;
      CompensateWinner(winner, w);
      WriteReport(winner, pendingNumber, before, w);
    }

    /** What the lottery at head `p` comes up with. */
    ghost predicate DrawnAt(p: Head, w: nat, sum: nat, ticket: U32, winner: Node?)
      reads list
    {
      && HeadOK(options, p) && Drawable(p) && w == DrawnTask(p) && p.tasks[w].state == Ready
      && |list.spine| == |p.tasks| && winner == list.spine[w]
      && sum == ActiveTickets(p.tasks) && ticket == DrawnTicket(p)
    }

    /** The start of a dispatch: the "before" line, then `task_transition_to_running`. */
    method BeginDispatch(winner: Node?, number: U32, ticket: U32, sum: nat, ghost p: Head, ghost w: nat)
      returns (before: U32)
      requires Valid() && DrawnAt(p, w, sum, ticket, winner)
      requires Tasks() == p.tasks && log == p.log && number == p.number
      modifies this`log, cells
      ensures Valid() && Underway(p, w) && Remembers(p, w, winner, number, before)
    {
      assert NodeMatches(list.spine[w], cells[w]);
      hide *;
      var data := winner.data;
      assert Tasks()[w] == data.View();
      before := data.done;
      log := log + [Chosen(number, winner.id, ticket, sum, Wrap(data.work - before))];
      var _ := data.TransitionToRunning(number);
    }

    /** The loop has reached head `h`, or will once the dispatch it is waiting for is reported. */
    ghost predicate Approaching(h: Head, pending: bool, winner: Node?, number: U32, before: U32, p: Head,
                                w: nat)
      reads this, list, cells
    {
      && HeadOK(options, h)
      && if pending then
           Drawable(p) && h == Iterate(options, p) && Underway(p, w) && Remembers(p, w, winner, number, before)
         else Tasks() == h.tasks && log == h.log
    }

    /** The top of an iteration: wait, and report the dispatch that was waited for. */
    method CatchUp(pending: bool, winner: Node?, pendingNumber: U32, before: U32, ghost h: Head, ghost p: Head,
                   ghost w: nat)
      requires Valid() && Approaching(h, pending, winner, pendingNumber, before, p, w)
      modifies this`log, cells
      ensures Valid() && Tasks() == h.tasks && log == h.log
    {
      HeadNotRunning(options, h);
      hide Underway;
      hide Remembers;
      hide HeadOK;
      hide Drawable;
      hide Iterate;
      hide Valid;
      Await(pending, p, w);
      if pending {
        FinishDispatch(winner, pendingNumber, before, p, w);
      }
    }

    /** The ticket sum and the winning ticket at head `p`. */
    method DrawTicket(ghost p: Head) returns (sum: nat, ticket: U32)
      requires Valid() && Tasks() == p.tasks && rng.seed == p.seed && ActiveTickets(p.tasks) > 0
      modifies rng
      ensures Valid() && Tasks() == p.tasks
      ensures sum == ActiveTickets(p.tasks) && rng.seed == NextSeed(p) && ticket == DrawnTicket(p)
    {
      assert NextSeed(p) == Draw(p.seed, ActiveTickets(p.tasks)).0;
      assert DrawnTicket(p) == Draw(p.seed, ActiveTickets(p.tasks)).1;
      hide *;
      ticket := 0;
      sum := CumulativeTickets();
      if sum == 0 {
        assert false;
        return;
      }
      ticket := SortWinnerTicket(sum);
    }

    /** The lottery at head `p`: ticket sum, winning ticket, winner. It never comes up empty. */
    method HoldLottery(ghost p: Head) returns (sum: nat, ticket: U32, winner: Node?, ghost w: nat)
      requires Valid() && HeadOK(options, p) && !AllFinished(p.tasks)
      requires Tasks() == p.tasks && rng.seed == p.seed
      modifies rng
      ensures Valid() && Tasks() == p.tasks && DrawnAt(p, w, sum, ticket, winner)
      ensures Drawable(p) && rng.seed == Iterate(options, p).seed
    {
      Advances(options, p);
      w := DrawnTask(p);
      hide *;
      sum, ticket := DrawTicket(p);
      winner := WinnerTask(ticket);
      if winner == null {
        assert false;
        return;
      }
      Drawn(p, w, sum, ticket, winner);
    }

    lemma Drawn(p: Head, w: nat, sum: nat, ticket: U32, winner: Node?)
      requires HeadOK(options, p) && Drawable(p) && w == DrawnTask(p) && p.tasks[w].state == Ready
      requires Valid() && |p.tasks| == |cells| && winner == list.spine[w]
      requires sum == ActiveTickets(p.tasks) && ticket == DrawnTicket(p)
      ensures DrawnAt(p, w, sum, ticket, winner)
    {
    }

    /** A lottery and the start of its winner: the loop now approaches the next head. */
    method StartWinner(number: U32, ghost h: Head) returns (winner: Node?, before: U32, ghost w: nat)
      requires Valid() && HeadOK(options, h) && !AllFinished(h.tasks)
      requires Tasks() == h.tasks && log == h.log && rng.seed == h.seed && number == h.number
      modifies this`log, cells, rng
      ensures Valid() && Drawable(h) && rng.seed == Iterate(options, h).seed
      ensures Approaching(Iterate(options, h), true, winner, number, before, h, w)
    {
      Advances(options, h);
      hide *;
      var sum, ticket;
      sum, ticket, winner, w := HoldLottery(h);
      before := BeginDispatch(winner, number, ticket, sum, h, w);
      Underwaying(Iterate(options, h), winner, number, before, h, w);
    }

    /** One pass of the loop below the report: the two exits, or a lottery and the start of its winner. */
    method TakeTurn(number: U32, ghost h: Head)
      returns (started: bool, winner: Node?, before: U32, ghost w: nat)
      requires Valid() && HeadOK(options, h)
      requires Tasks() == h.tasks && log == h.log && rng.seed == h.seed && number == h.number
      modifies this`log, cells, rng
      ensures Valid() && started == !Stops(options, h)
      ensures started ==> Drawable(h) && rng.seed == Iterate(options, h).seed
      ensures started ==> Approaching(Iterate(options, h), true, winner, number, before, h, w)
      ensures !started ==> var end := Stopped(options, h);
        Tasks() == end.tasks && log == end.log && rng.seed == end.seed
    {
      started, winner, before, w := false, null, 0, 0;
      if options.maxDispatches > 0 && number > options.maxDispatches {
        ShutdownAll();
        return;
      }
      var finished := AllTasksFinished();
      if finished {
        return;
      }
      assert !CapReached(options, h) && !Stops(options, h);
      hide *;
      winner, before, w := StartWinner(number, h);
      started := true;
    }

    /** `scheduler_main_loop`: it computes what the reference machine computes. */
    method MainLoop()
      requires Valid() && HeadOK(options, Head(Tasks(), rng.seed, 1, log))
      modifies this`log, cells, rng
      ensures Valid()
      ensures var end := Loop(options, old(Head(Tasks(), rng.seed, 1, log)));
        Tasks() == end.tasks && log == end.log && rng.seed == end.seed
    {
      var number: U32 := 1;
      var remaining, pending := true, false;
      var pendingNumber: U32, before: U32 := 0, 0;
      var winner: Node? := null;
      ghost var h := Head(Tasks(), rng.seed, 1, log);
      ghost var p, w: nat, end := h, 0, Loop(options, h);
      Arrived(h, winner, pendingNumber, before, p, w);
      hide *;
      while remaining
        invariant Valid() && HeadOK(options, h) && Loop(options, h) == end
        invariant remaining ==> rng.seed == h.seed && number == h.number
        invariant remaining ==> Approaching(h, pending, winner, pendingNumber, before, p, w)
        invariant !remaining ==> Tasks() == end.tasks && log == end.log && rng.seed == end.seed
        decreases remaining, UnitsLeft(h.tasks)
      {
        CatchUp(pending, winner, pendingNumber, before, h, p, w);
        LoopUnfolds(options, h);
        p := h;
        remaining, winner, before, w := TakeTurn(number, h);
        if remaining {
          NextNumber(options, p, number);
          pendingNumber := number;
          number := Wrap(number + 1);
          h := Iterate(options, p);
        }
        pending := remaining;
      }
    }

    lemma Arrived(h: Head, winner: Node?, number: U32, before: U32, p: Head, w: nat)
      requires HeadOK(options, h) && Tasks() == h.tasks && log == h.log
      ensures Approaching(h, false, winner, number, before, p, w)
    {
    }

    lemma Underwaying(h: Head, winner: Node?, number: U32, before: U32, p: Head, w: nat)
      requires HeadOK(options, h) && Drawable(p) && h == Iterate(options, p)
      requires Underway(p, w) && Remembers(p, w, winner, number, before)
      ensures Approaching(h, true, winner, number, before, p, w)
    {
    }
  }

  /** A walk along the list has turned the first `k` tasks of `before` into those of `after`. */
  predicate Swept(before: seq<Task>, after: seq<Task>, now: seq<Task>, k: nat) {
    && |before| == |after| == |now| && k <= |now|
    && forall i :: 0 <= i < |now| ==> now[i] == if i < k then after[i] else before[i]
  }

  lemma SweptStart(before: seq<Task>, after: seq<Task>)
    requires |before| == |after|
    ensures Swept(before, after, before, 0)
  {
  }

  lemma SweptOn(before: seq<Task>, after: seq<Task>, now: seq<Task>, k: nat)
    requires Swept(before, after, now, k) && k < |now|
    ensures |after| == |now| && now[k] == before[k] && Swept(before, after, now[k := after[k]], k + 1)
  {
  }

  lemma SweptAll(before: seq<Task>, after: seq<Task>, now: seq<Task>)
    requires Swept(before, after, now, |now|)
    ensures now == after
  {
  }

  lemma ShutDownMeans(ts: seq<Task>)
    ensures |ShutDownAll(ts)| == |ts|
    ensures forall i :: 0 <= i < |ts| ==>
      ShutDownAll(ts)[i] == ts[i].(state := if ts[i].state == Ready then Finished else ts[i].state)
  {
  }

  lemma ShutDownAt(ts: seq<Task>, k: nat)
    requires k < |ts|
    ensures |ShutDownAll(ts)| == |ts| && ShutDownAll(ts)[k] == ShutDown(ts[k])
  {
  }

  lemma CooperativeAt(ts: seq<Task>, p: Percent, k: nat)
    requires k < |ts|
    ensures |Cooperative(ts, p)| == |ts| && Cooperative(ts, p)[k] == WithSlice(ts[k], Slice(ts[k].work, p))
  {
  }

  lemma QuantumAt(ts: seq<Task>, quantum: U32, k: nat)
    requires k < |ts|
    ensures |WithQuantum(ts, quantum)| == |ts|
    ensures WithQuantum(ts, quantum)[k] == WithSlice(ts[k], SliceSize(quantum))
  {
  }

  lemma NextNumber(o: Options, h: Head, number: U32)
    requires Drawable(h) && number == h.number
    ensures Iterate(o, h).number == Wrap(number + 1)
  {
    IterateSplits(o, h);
  }

  /** The draw made at a head that does not stop, as the parts of the loop see it. */
  lemma Advances(o: Options, h: Head)
    requires HeadOK(o, h) && !AllFinished(h.tasks)
    ensures Drawable(h) && ActiveTickets(h.tasks) > 0
    ensures DrawnTask(h) == Winner(h.tasks, DrawnTicket(h)) < |h.tasks|
    ensures h.tasks[DrawnTask(h)].state == Ready
    ensures HeadOK(o, Iterate(o, h)) && Iterate(o, h).seed == NextSeed(h)
  {
    DrawSucceeds(o, h);
    IterateOK(o, h);
    hide HeadOK;
    hide Dispatch;
    hide Winner;
    hide Draw;
    hide ActiveTickets;
    hide UnitsLeft;
  }

  /** Waiting and compensating complete the dispatch; nobody but the winner is RUNNING meanwhile. */
  lemma DispatchSettled(o: Options, p: Head, w: nat, ts: seq<Task>)
    requires HeadOK(o, p) && w < |p.tasks| && p.tasks[w].state == Ready
    requires ts == p.tasks[w := StartRunning(p.tasks[w], p.number)]
    ensures forall i :: 0 <= i < |ts| && i != w ==> ts[i].state != Running
    ensures var settled := WithSettled(o, ts, w);
      |settled| == |ts| &&
      settled[w := Compensate(o, settled[w])] == p.tasks[w := Dispatch(o, p.tasks[w], p.number)]
  {
    assert forall i :: 0 <= i < |p.tasks| ==> TaskOK(o, p.tasks[i]);
    assert ts[w].state == Running;
    hide DoUnits;
    hide UnitsToRun;
    hide CompensatedTickets;
  }

  /** All of a dispatch that happens before the next wait. */
  function WithSettled(o: Options, ts: seq<Task>, w: nat): seq<Task> {
    if w < |ts| && ts[w].state == Running then ts[w := Settle(DoUnits(ts[w], UnitsToRun(o, ts[w])))] else ts
  }

  lemma DispatchIdentity(o: Options, t: Task)
    ensures SameTask(t, Settle(DoUnits(t, UnitsToRun(o, t))))
  {
    UnitsKeepIdentity(t, UnitsToRun(o, t));
  }

  /** A node and the record it carries. */
  ghost predicate NodeMatches(node: Node, cell: TaskRecord)
    reads node, cell
  {
    node.data == cell && node.id == cell.id && node.work == cell.work
  }
}
