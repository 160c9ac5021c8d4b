/** `parser_load` of src/parser.c, from the scanned rows on. */
module Loader {
  import opened Numbers
  import opened TaskModel
  import opened Accounting
  import opened TaskObject
  import opened LinkedList

  const MIN_TASKS: nat := 5
  const MAX_TASKS: nat := 25

  /** A line after the header: nothing, or what the scan made of it. `fields` counts the converted items. */
  datatype Row = Blank | Scan(fields: int, id: int, tickets: int, work: int, yielded: Scanned)

  function NonBlank(rows: seq<Row>): (r: seq<Row>)
    ensures forall i :: 0 <= i < |r| ==> r[i].Scan?
  {
    if rows == [] then []
    else if rows[|rows| - 1].Blank? then NonBlank(rows[..|rows| - 1])
    else NonBlank(rows[..|rows| - 1]) + [rows[|rows| - 1]]
  }

  /** The two comparisons a given yield has to survive. A NaN survives every comparison. */
  predicate YieldAccepted(y: Scanned) {
    match y
    case Number(v) => 0.1 <= v <= 1.0
    case NotANumber => true
  }

  predicate RowAccepted(r: Row)
    requires r.Scan?
  {
    && 3 <= r.fields && (r.fields == 4 ==> YieldAccepted(r.yielded))
    && 1 <= r.id <= U32_MAX && 1 <= r.tickets <= U32_MAX && 1 <= r.work <= U32_MAX
  }

  function RowTickets(r: Row): int {
    if r.Scan? then r.tickets else 0
  }

  predicate DistinctRows(given: seq<Row>)
    requires forall i :: 0 <= i < |given| ==> given[i].Scan?
  {
    forall i, j :: 0 <= i < j < |given| ==> given[i].id != given[j].id
  }

  /** The file as a whole is good: the documented rules, with no reference to the order of reading. */
  predicate Acceptable(rows: seq<Row>) {
    var given := NonBlank(rows);
    && MIN_TASKS <= |given| <= MAX_TASKS
    && (forall i :: 0 <= i < |given| ==> RowAccepted(given[i]))
    && DistinctRows(given)
    && Total(RowTickets, given) <= U32_MAX
  }

  // The same rules in numbers, on the rows as they come, blank ones included.

  /** What is asked of a row by itself. */
  predicate GoodRow(r: Row) {
    && r.Scan? && 3 <= r.fields
    && 1 <= r.id <= 4294967295 && 1 <= r.tickets <= 4294967295 && 1 <= r.work <= 4294967295
    && (r.fields == 4 && r.yielded.Number? ==> 0.1 <= r.yielded.value <= 1.0)
  }

  function RowCount(rows: seq<Row>): nat {
    if rows == [] then 0 else RowCount(rows[..|rows| - 1]) + (if rows[|rows| - 1].Scan? then 1 else 0)
  }

  function TicketSum(rows: seq<Row>): int {
    if rows == [] then 0
    else TicketSum(rows[..|rows| - 1]) + (if rows[|rows| - 1].Scan? then rows[|rows| - 1].tickets else 0)
  }

  predicate AllGood(rows: seq<Row>) {
    forall i :: 0 <= i < |rows| && rows[i].Scan? ==> GoodRow(rows[i])
  }

  predicate AllDifferent(rows: seq<Row>) {
    forall i, j :: 0 <= i < j < |rows| && rows[i].Scan? && rows[j].Scan? ==> rows[i].id != rows[j].id
  }

  /** The rules of the file: 5 to 25 rows, all of them good, no id twice, at most 2^32 - 1 tickets in all. */
  predicate Obeys(rows: seq<Row>) {
    && 5 <= RowCount(rows) <= 25 && AllGood(rows) && AllDifferent(rows) && TicketSum(rows) <= 4294967295
  }

  /** The yield `task_create` receives: the given one, or 1 when the row has three fields. */
  function GivenYield(r: Row): Scanned
    requires r.Scan?
  {
    if r.fields == 4 then r.yielded else Number(1.0)
  }

  function TaskOf(r: Row): Task
    requires r.Scan? && RowAccepted(r)
  {
    Create(r.id, r.tickets, r.work, GivenYield(r))
  }

  // Facts about rows.

  lemma {:induction false} NonBlankSplits(rows: seq<Row>, k: nat)
    requires k <= |rows|
    ensures NonBlank(rows[..k]) <= NonBlank(rows)
    ensures k < |rows| && rows[k].Scan? ==>
      NonBlank(rows[..k + 1]) == NonBlank(rows[..k]) + [rows[k]] && NonBlank(rows[..k + 1]) <= NonBlank(rows)
    ensures k < |rows| && rows[k].Blank? ==> NonBlank(rows[..k + 1]) == NonBlank(rows[..k])
    decreases |rows| - k
  {
    if k < |rows| {
      assert rows[..k + 1][..k] == rows[..k];
      NonBlankSplits(rows, k + 1);
    } else {
      assert rows[..k] == rows;
    }
  }

  lemma {:induction false} TicketsOfPrefix(given: seq<Row>, k: nat, m: nat)
    requires m <= k <= |given|
    requires forall i :: 0 <= i < |given| ==> given[i].Scan? && RowAccepted(given[i])
    ensures Total(RowTickets, given[..k], m) <= Total(RowTickets, given, m)
    decreases |given| - m
  {
    if m < k {
      TicketsOfPrefix(given, k, m + 1);
    } else {
      TicketsNonNegative(given, m);
    }
  }

  lemma {:induction false} TicketsNonNegative(given: seq<Row>, m: nat)
    requires m <= |given|
    requires forall i :: 0 <= i < |given| ==> given[i].Scan? && RowAccepted(given[i])
    ensures 0 <= Total(RowTickets, given, m)
    decreases |given| - m
  {
    if m < |given| {
      TicketsNonNegative(given, m + 1);
    }
  }

  lemma {:induction false} TicketsAppend(given: seq<Row>, r: Row, m: nat)
    requires m <= |given|
    ensures Total(RowTickets, given + [r], m) == Total(RowTickets, given, m) + RowTickets(r)
    decreases |given| - m
  {
    if m < |given| {
      TicketsAppend(given, r, m + 1);
    }
  }

  /** Why a row is refused, given the rows accepted before it. */
  predicate Refused(given: seq<Row>, r: Row)
    requires r.Scan? && forall i :: 0 <= i < |given| ==> given[i].Scan?
  {
    || |given| >= MAX_TASKS
    || !RowAccepted(r)
    || (exists i :: 0 <= i < |given| && given[i].id == r.id)
    || Total(RowTickets, given) + r.tickets > U32_MAX
  }

  /** Rejecting at the first bad prefix is rejecting the whole file: no later row can repair it. */
  lemma BadPrefix(rows: seq<Row>, k: nat)
    requires k < |rows| && rows[k].Scan?
    ensures Refused(NonBlank(rows[..k]), rows[k]) ==> !Acceptable(rows)
  {
    var given, all := NonBlank(rows[..k]), NonBlank(rows);
    NonBlankSplits(rows, k);
    var n := |given|;
    assert all[..n + 1] == given + [rows[k]] && all[n] == rows[k];
    TicketsAppend(given, rows[k], 0);
    if Acceptable(rows) {
      TicketsOfPrefix(all, n + 1, 0);
      assert RowAccepted(all[n]);
      forall i | 0 <= i < n
        ensures given[i].id != rows[k].id
      {
        assert all[i] == given[i];
      }
    }
    hide NonBlank;
    hide Total;
  }

  // What has been read so far.

  /** The list holds one node per row, in order, with a task of its own. */
  ghost predicate Holds(list: List, cells: seq<TaskRecord>, given: seq<Row>)
    reads list, list.spine, cells
  {
    && list.Valid() && |list.spine| == |cells| == |given|
    && (forall i, j :: 0 <= i < j < |cells| ==> cells[i] != cells[j])
    && (forall i :: 0 <= i < |given| ==> given[i].Scan? && RowAccepted(given[i]) && HoldsAt(list, cells, given, i))
  }

  ghost predicate HoldsAt(list: List, cells: seq<TaskRecord>, given: seq<Row>, i: nat)
    requires i < |list.spine| == |cells| == |given| && given[i].Scan? && RowAccepted(given[i])
    reads list, list.spine, cells
  {
    && list.EntryAt(i) == Entry(cells[i], given[i].id, given[i].tickets, given[i].work)
    && cells[i].View() == TaskOf(given[i])
  }

  /** Appends one accepted row. */
  method Add(list: List, ghost cells: seq<TaskRecord>, ghost given: seq<Row>, r: Row)
    returns (task: TaskRecord, ghost node: Node)
    requires Holds(list, cells, given) && r.Scan? && RowAccepted(r)
    modifies list, list.spine
    ensures Holds(list, cells + [task], given + [r]) && fresh(task)
    ensures fresh(node) && list.spine == old(list.spine) + [node]
  {
    task := new TaskRecord(r.id, r.tickets, r.work, GivenYield(r));
    ghost var es := list.Entries();
    assert forall i :: 0 <= i < |cells| ==> HoldsAt(list, cells, given, i);
    var ok := list.Insert(task, r.id, r.tickets, r.work);
    ghost var n := |cells|;
    node := list.spine[n];
    forall i | 0 <= i <= n
      ensures HoldsAt(list, cells + [task], given + [r], i)
    {
      assert list.Entries()[i] == list.EntryAt(i);
      if i < n {
        assert old(HoldsAt(list, cells, given, i));
        assert list.EntryAt(i) == es[i];
      }
    }
  }

  /** The checks on one scanned row, in the order they are made. */
  method Validate(r: Row) returns (ok: bool)
    requires r.Scan?
    ensures ok <==> RowAccepted(r)
    ensures ok <==> GoodRow(r)
  {
    if r.fields < 3 {
      return false;
    }
    if r.fields == 4 && r.yielded.Number? && (r.yielded.value <= 0.0 || r.yielded.value > 1.0) {
      return false;
    }
    if r.fields == 4 && r.yielded.Number? && r.yielded.value < 0.1 {
      return false;
    }
    if r.id <= 0 || r.tickets <= 0 || r.work <= 0 {
      return false;
    }
    if r.id > U32_MAX || r.tickets > U32_MAX || r.work > U32_MAX {
      return false;
    }
    return true;
  }

  /** What the reading loop knows of the rows so far. */
  ghost predicate SoFar(list: List, cells: seq<TaskRecord>, given: seq<Row>, n: nat, total: nat)
    reads list, list.spine, cells
  {
    && Holds(list, cells, given) && DistinctRows(given)
    && n == |given| <= MAX_TASKS
    && total == Total(RowTickets, given) <= U32_MAX
  }

  /** One turn of the reading loop on a non-blank row: refuse it or append it. */
  method ReadRow(list: List, ghost cells: seq<TaskRecord>, ghost given: seq<Row>, r: Row, n: nat, total: nat)
    returns (ok: bool, newTotal: nat, ghost added: seq<TaskRecord>, ghost node: Node?)
    requires SoFar(list, cells, given, n, total) && r.Scan?
    modifies list, list.spine
    ensures ok <==> !Refused(given, r)
    ensures !ok ==> list.Valid() && list.spine == old(list.spine)
    ensures ok ==> SoFar(list, cells + added, given + [r], n + 1, newTotal) && fresh(added)
    ensures ok ==> node != null && fresh(node) && list.spine == old(list.spine) + [node]
  {
    added, newTotal, ok, node := [], total, false, null;
    RefusedIs(list, cells, given, r, n, total);
    hide *;
    if n >= MAX_TASKS {
      return;
    }
    var valid := Validate(r);
    if !valid {
      return;
    }
    var found, _ := list.Find(r.id);
    if found {
      return;
    }
    newTotal := total + r.tickets;
    if newTotal > U32_MAX {
      return;
    }
    var task;
    task, node := Add(list, cells, given, r);
    added, ok := [task], true;
    SoFarGrows(list, cells + [task], given, r, n, total);
  }

  /** The row is refused exactly when one of the four tests made on it fails. */
  lemma RefusedIs(list: List, cells: seq<TaskRecord>, given: seq<Row>, r: Row, n: nat, total: nat)
    requires SoFar(list, cells, given, n, total) && r.Scan?
    ensures list.Valid() && Holds(list, cells, given) && DistinctRows(given)
    ensures n == |given| && total == Total(RowTickets, given)
    ensures RowAccepted(r) ==> 0 <= r.id < 0x1_0000_0000 && 1 <= r.tickets
    ensures forall i :: 0 <= i < |given| ==> given[i].Scan?
    ensures Refused(given, r) <==>
      n >= MAX_TASKS || !RowAccepted(r) || FirstIndex(list.Entries(), r.id) < |list.spine|
      || total + r.tickets > U32_MAX
  {
    if RowAccepted(r) {
      FoundMeansDuplicate(list, cells, given, r.id);
    }
    hide Total;
    hide DistinctRows;
    hide HoldsAt;
  }

  lemma SoFarGrows(list: List, cells: seq<TaskRecord>, given: seq<Row>, r: Row, n: nat, total: nat)
    requires r.Scan? && (forall i :: 0 <= i < |given| ==> given[i].Scan?)
    requires Holds(list, cells, given + [r]) && DistinctRows(given) && !Refused(given, r)
    requires n == |given| && total == Total(RowTickets, given)
    ensures SoFar(list, cells, given + [r], n + 1, total + r.tickets)
  {
    TicketsAppend(given, r, 0);
    DistinctGrow(given, r);
    hide Holds;
    hide Total;
    hide DistinctRows;
  }

  /** Reads all rows; a refused row, or too few of them, leaves an empty list. */
  method Load(rows: seq<Row>) returns (ok: bool, list: List, ghost cells: seq<TaskRecord>)
    ensures fresh(list) && list.Valid() && fresh(list.spine) && fresh(cells)
    ensures ok <==> Acceptable(rows)
    ensures ok <==> Obeys(rows)
    ensures ok ==> Holds(list, cells, NonBlank(rows))
    ensures !ok ==> list.Entries() == [] && list.head == null
  {
    list := new List();
    cells := [];
    var n: nat, total: nat := 0, 0;
    NothingRead(list, rows);
    RulesInNumbers(rows);
    hide *;
    for k := 0 to |rows|
      invariant fresh(list) && fresh(list.spine) && fresh(cells) && list.Valid()
      invariant SoFar(list, cells, NonBlank(rows[..k]), n, total)
    {
      var r := rows[k];
      NonBlankSplits(rows, k);
      if r.Scan? {
        ghost var added, node;
        ok, total, added, node := ReadRow(list, cells, NonBlank(rows[..k]), r, n, total);
        if !ok {
          BadPrefix(rows, k);
          var _ := list.Clean();
          return;
        }
        cells := cells + added;
        n := n + 1;
        SoFarValid(list, cells, NonBlank(rows[..k + 1]), n, total);
      }
    }
    assert rows[..|rows|] == rows;
    Verdict(list, cells, rows, n, total);
    ok := n >= MIN_TASKS;
    if !ok {
      var _ := list.Clean();
    }
  }

  lemma DistinctGrow(given: seq<Row>, r: Row)
    requires r.Scan? && (forall i :: 0 <= i < |given| ==> given[i].Scan?) && DistinctRows(given)
    requires !Refused(given, r)
    ensures DistinctRows(given + [r])
  {
  }

  lemma NothingRead(list: List, rows: seq<Row>)
    requires list.Valid() && list.spine == []
    ensures SoFar(list, [], NonBlank(rows[..0]), 0, 0)
  {
  }

  lemma Verdict(list: List, cells: seq<TaskRecord>, rows: seq<Row>, n: nat, total: nat)
    requires SoFar(list, cells, NonBlank(rows), n, total)
    ensures Acceptable(rows) <==> n >= MIN_TASKS
    ensures Holds(list, cells, NonBlank(rows))
  {
  }

  lemma SoFarValid(list: List, cells: seq<TaskRecord>, given: seq<Row>, n: nat, total: nat)
    requires SoFar(list, cells, given, n, total)
    ensures list.Valid()
  {
  }

  lemma FoundMeansDuplicate(list: List, cells: seq<TaskRecord>, given: seq<Row>, id: U32)
    requires Holds(list, cells, given)
    ensures FirstIndex(list.Entries(), id) < |list.spine| <==> exists i :: 0 <= i < |given| && given[i].id == id
  {
    var es := list.Entries();
    forall i | 0 <= i < |given|
      ensures es[i].id == given[i].id
    {
      assert HoldsAt(list, cells, given, i);
    }
  }

  // Acceptable files in numbers.

  lemma RowInNumbers(r: Row)
    requires r.Scan?
    ensures RowAccepted(r) <==> GoodRow(r)
  {
  }

  /** The non-blank rows are the rows that are not blank, in order. */
  lemma {:induction false} NonBlankIs(rows: seq<Row>)
    ensures |NonBlank(rows)| == RowCount(rows)
    ensures Total(RowTickets, NonBlank(rows)) == TicketSum(rows)
    ensures forall r: Row :: r in NonBlank(rows) <==> r.Scan? && r in rows
    ensures DistinctRows(NonBlank(rows)) <==> AllDifferent(rows)
    decreases |rows|
  {
    if rows != [] {
      var p, last := rows[..|rows| - 1], rows[|rows| - 1];
      NonBlankIs(p);
      if last.Scan? {
        TicketsAppend(NonBlank(p), last, 0);
        LastDistinct(NonBlank(p), last);
      }
      LastDifferent(p, last);
      assert rows == p + [last];
    }
    hide Total;
    hide DistinctRows;
    hide AllDifferent;
  }

  lemma LastDistinct(given: seq<Row>, last: Row)
    requires last.Scan? && forall i :: 0 <= i < |given| ==> given[i].Scan?
    ensures DistinctRows(given + [last]) <==> DistinctRows(given) && forall r :: r in given ==> r.id != last.id
  {
    var all := given + [last];
    if DistinctRows(all) {
      forall i, j | 0 <= i < j < |given|
        ensures given[i].id != given[j].id
      {
        assert all[i] == given[i] && all[j] == given[j];
      }
      forall r | r in given
        ensures r.id != last.id
      {
        var i :| 0 <= i < |given| && given[i] == r;
        assert all[i] == r && all[|given|] == last;
      }
    }
  }

  lemma LastDifferent(rows: seq<Row>, last: Row)
    ensures AllDifferent(rows + [last]) <==>
      AllDifferent(rows) && (last.Scan? ==> forall r :: r in rows && r.Scan? ==> r.id != last.id)
  {
    var all := rows + [last];
    if AllDifferent(all) {
      forall i, j | 0 <= i < j < |rows| && rows[i].Scan? && rows[j].Scan?
        ensures rows[i].id != rows[j].id
      {
        assert all[i] == rows[i] && all[j] == rows[j];
      }
      if last.Scan? {
        forall r | r in rows && r.Scan?
          ensures r.id != last.id
        {
          var i :| 0 <= i < |rows| && rows[i] == r;
          assert all[i] == r && all[|rows|] == last;
        }
      }
    }
  }

  /** The rules the loader applies are the rules in numbers. */
  lemma RulesInNumbers(rows: seq<Row>)
    ensures Acceptable(rows) <==> Obeys(rows)
  {
    NonBlankIs(rows);
    var given := NonBlank(rows);
    assert (forall i :: 0 <= i < |given| ==> RowAccepted(given[i])) <==> AllGood(rows) by {
      GoodRows(rows, given);
    }
    hide NonBlank;
    hide Total;
    hide RowAccepted;
    hide DistinctRows;
    hide AllDifferent;
    hide AllGood;
    hide RowCount;
    hide TicketSum;
  }

  lemma GoodRows(rows: seq<Row>, given: seq<Row>)
    requires forall r: Row :: r in given <==> r.Scan? && r in rows
    ensures (forall i :: 0 <= i < |given| ==> given[i].Scan? && RowAccepted(given[i])) <==> AllGood(rows)
  {
    if AllGood(rows) {
      forall i | 0 <= i < |given|
        ensures given[i].Scan? && RowAccepted(given[i])
      {
        assert given[i] in given;
        var j :| 0 <= j < |rows| && rows[j] == given[i];
        RowInNumbers(given[i]);
      }
    }
    if forall i :: 0 <= i < |given| ==> given[i].Scan? && RowAccepted(given[i]) {
      forall j | 0 <= j < |rows| && rows[j].Scan?
        ensures GoodRow(rows[j])
      {
        assert rows[j] in given;
        var i :| 0 <= i < |given| && given[i] == rows[j];
        RowInNumbers(given[i]);
      }
    }
    hide RowAccepted;
    hide GoodRow;
  }

  /** `n` rows of one ticket and one unit, all fields given, yields at their largest. */
  function Plain(n: nat): seq<Row> {
    seq(n, i requires 0 <= i < n => Scan(4, i + 1, 1, 1, Number(1.0)))
  }

  lemma {:induction false} PlainCounts(n: nat)
    ensures RowCount(Plain(n)) == n && TicketSum(Plain(n)) == n
  {
    if n > 0 {
      PlainCounts(n - 1);
      assert Plain(n)[..n - 1] == Plain(n - 1);
    }
  }

  /** The bounds on the number of rows are met exactly: 4 and 26 are refused, 5 and 25 accepted. */
  lemma PlainAccepted(n: nat)
    requires n <= 4294967295
    ensures Acceptable(Plain(n)) <==> 5 <= n <= 25
  {
    PlainCounts(n);
    RulesInNumbers(Plain(n));
    hide Acceptable;
    hide RowCount;
    hide TicketSum;
  }

  /** One row of another kind among five: what makes the loader refuse it. */
  lemma RefusedRows(r: Row)
    requires r.Scan?
    requires r.fields == 2 || r.id == 0 || r.tickets == 0 || r.work == 0 || r.id == 4294967296 || r.id == 2
          || r.tickets == 4294967292 || (r.fields == 4 && r.yielded.Number? && r.yielded.value < 0.1)
          || (r.fields == 4 && r.yielded.Number? && r.yielded.value > 1.0)
    ensures !Acceptable([r] + Plain(5)[1..])
  {
    var rows := [r] + Plain(5)[1..];
    RulesInNumbers(rows);
    assert rows[0] == r && rows[1] == Plain(5)[1];
    assert rows == [r, Plain(5)[1], Plain(5)[2], Plain(5)[3], Plain(5)[4]];
    FiveTickets(rows);
    hide Acceptable;
    hide TicketSum;
    hide RowCount;
  }

  lemma FiveTickets(rows: seq<Row>)
    requires |rows| == 5 && forall i :: 0 <= i < 5 ==> rows[i].Scan?
    ensures TicketSum(rows) == rows[0].tickets + rows[1].tickets + rows[2].tickets + rows[3].tickets + rows[4].tickets
  {
    assert rows[..4][..3] == rows[..3] && rows[..3][..2] == rows[..2] && rows[..2][..1] == rows[..1];
    assert TicketSum(rows[..1]) == rows[0].tickets;
    assert TicketSum(rows[..2]) == TicketSum(rows[..1]) + rows[1].tickets;
    assert TicketSum(rows[..3]) == TicketSum(rows[..2]) + rows[2].tickets;
    assert TicketSum(rows[..4]) == TicketSum(rows[..3]) + rows[3].tickets;
  }

  // What a loaded file gives the scheduler, and where code and documentation differ.

  function TasksOf(given: seq<Row>): (ts: seq<Task>)
    requires forall i :: 0 <= i < |given| ==> given[i].Scan? && RowAccepted(given[i])
  {
    seq(|given|, i requires 0 <= i < |given| => TaskOf(given[i]))
  }

  /** The tasks of an acceptable file are what every theorem about runs starts from. */
  lemma LoadedTasksInitial(rows: seq<Row>)
    requires Acceptable(rows)
    ensures 5 <= |TasksOf(NonBlank(rows))| <= 25
    ensures Initial(TasksOf(NonBlank(rows)))
  {
    var ts := TasksOf(NonBlank(rows));
    forall i | 0 <= i < |ts|
      ensures Fresh(ts[i]) && ts[i].id == NonBlank(rows)[i].id
    {
    }
  }

  /** The documented rule for a yield: a number from 0.1 to 1. */
  predicate YieldDocumented(y: Scanned) {
    y.Number? && 0.1 <= y.value <= 1.0
  }

  predicate FollowsYieldRule(r: Row) {
    r.Scan? && (r.fields == 4 ==> YieldDocumented(r.yielded))
  }

  predicate HasNaN(r: Row) {
    r.Scan? && r.fields == 4 && r.yielded.NotANumber?
  }

  predicate Documented(rows: seq<Row>) {
    var given := NonBlank(rows);
    Acceptable(rows) && forall i :: 0 <= i < |given| ==> FollowsYieldRule(given[i])
  }

  /** No row gives NaN as its yield. */
  predicate NaNFree(given: seq<Row>) {
    forall i :: 0 <= i < |given| ==> !HasNaN(given[i])
  }

  /** An accepted file follows the documented yield rule exactly when no given yield is NaN. */
  lemma YieldRuleExact(rows: seq<Row>)
    requires Acceptable(rows)
    ensures Documented(rows) <==> NaNFree(NonBlank(rows))
  {
    var given := NonBlank(rows);
    forall i | 0 <= i < |given|
      ensures FollowsYieldRule(given[i]) <==> !HasNaN(given[i])
    {
      assert RowAccepted(given[i]);
    }
  }

  /** ... and such files are accepted: five rows, one of them with a NaN yield. */
  lemma NaNAccepted() returns (rows: seq<Row>)
    ensures Acceptable(rows) && !Documented(rows)
  {
    rows := [Scan(4, 1, 1, 1, NotANumber), Scan(3, 2, 1, 1, Number(1.0)), Scan(3, 3, 1, 1, Number(1.0)),
             Scan(3, 4, 1, 1, Number(1.0)), Scan(3, 5, 1, 1, Number(1.0))];
    NonBlankAll(rows);
    assert NonBlank(rows) == rows;
    assert Total(RowTickets, rows, 4) == 1;
    assert Total(RowTickets, rows, 2) == 3;
    assert HasNaN(rows[0]);
    YieldRuleExact(rows);
  }

  lemma {:induction false} NonBlankAll(rows: seq<Row>)
    requires forall i :: 0 <= i < |rows| ==> rows[i].Scan?
    ensures NonBlank(rows) == rows
  {
    if rows != [] {
      NonBlankAll(rows[..|rows| - 1]);
    }
  }
}
