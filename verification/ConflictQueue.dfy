/** Ordering of events of one employee: queueing, release in arrival order, Leaver supersede. */
module ConflictQueue {
  import opened Collections
  import opened EventStore

  datatype ConflictOutcome = Proceed | Queued | Supersede

  predicate ActiveOther(row: Row, event: EventId) {
    row.event != event && Active(row)
  }

  predicate HasActiveOther(rows: Partition, event: EventId) {
    exists i :: 0 <= i < |rows| && ActiveOther(rows[i], event)
  }

  function SupersededFor(row: Row, event: EventId): Row {
    if row.event != event && row.status == Pending then row.(status := Superseded) else row
  }

  /** The rows once a Leaver `event` has cancelled everything that was still pending. */
  function SupersedeOthers(rows: Partition, event: EventId): (r: Partition)
    ensures |r| == |rows|
    ensures forall i :: 0 <= i < |rows| ==> r[i] == SupersededFor(rows[i], event)
  {
    seq(|rows|, i requires 0 <= i < |rows| => SupersededFor(rows[i], event))
  }

  function MarkQueued(rows: Partition, event: EventId, now: Instant): Partition {
    match Find(rows, event)
    case None => rows
    case Some(row) => Put(rows, row.(queuedAt := Some(now)))
  }

  function Outcome(rows: Partition, event: EventId, action: LifecycleAction): ConflictOutcome {
    if action == Leaver then Supersede
    else if HasActiveOther(rows, event) then Queued
    else Proceed
  }

  function AfterConflict(rows: Partition, event: EventId, action: LifecycleAction, now: Instant): Partition {
    match Outcome(rows, event, action)
    case Supersede => SupersedeOthers(rows, event)
    case Queued => MarkQueued(rows, event, now)
    case Proceed => rows
  }

  // The queue.

  /** Waiting in line: pending with a queue timestamp. */
  predicate Waiting(row: Row) {
    row.status == Pending && row.queuedAt.Some?
  }

  function QueueSize(rows: Partition): nat {
    if rows == [] then 0 else (if Waiting(rows[0]) then 1 else 0) + QueueSize(rows[1..])
  }

  /** `a` is released before `b`: it queued earlier, or at the same instant with the smaller key. */
  predicate Before(a: Row, b: Row) {
    a.queuedAt.Some? && b.queuedAt.Some? &&
    (a.queuedAt.value < b.queuedAt.value || (a.queuedAt == b.queuedAt && a.event < b.event))
  }

  /** The first row of the stable sort by queue timestamp. */
  function Oldest(rows: Partition): (r: Option<Row>)
    ensures r.Some? ==> r.value in rows && Waiting(r.value)
  {
    if rows == [] then None
    else
      var rest := Oldest(rows[1..]);
      if Waiting(rows[0]) && (rest.None? || rows[0].queuedAt.value <= rest.value.queuedAt.value) then Some(rows[0])
      else rest
  }

  datatype Release = Release(rows: Partition, next: Option<Row>)

  /** What happens to the head of the queue when its predecessor has ended. */
  function Advanced(row: Row, predecessor: EventStatus): Row {
    if predecessor == Completed then row.(status := Pending, queuedAt := None)
    else if predecessor == Failed then row.(status := OnHold)
    else row
  }

  function ReleaseNext(rows: Partition, predecessor: EventStatus): Release {
    match Oldest(rows)
    case None => Release(rows, None)
    case Some(row) => Release(Put(rows, Advanced(row, predecessor)), Some(row))
  }

  // The calls on the table.

  method GetActiveEvents(table: EventTable, employee: Employee, exclude: EventId) returns (active: seq<Row>)
    ensures forall row :: row in active <==> row in table.Rows(employee) && ActiveOther(row, exclude)
  {
    var rows := table.Rows(employee);
    active := [];
    for i := 0 to |rows|
      invariant forall row :: row in active <==> row in rows[..i] && ActiveOther(row, exclude)
    {
      TakeOneMore(rows, i);
      var row := rows[i];
      if row.event == exclude {
        continue;
      }
      if row.status == Pending || row.status == Processing {
        active := active + [row];
      }
    }
    TakeAll(rows);
  }

  /** Merge a changed row found at position `k` of its partition. */
  method MergeAt(table: EventTable, employee: Employee, ghost k: nat, row: Row)
    requires Sorted(table.Rows(employee))
    requires k < |table.Rows(employee)| && table.Rows(employee)[k].event == row.event
    modifies table
    ensures table.Rows(employee) == old(table.Rows(employee))[k := row] && Sorted(table.Rows(employee))
    ensures forall other :: other != employee ==> table.Rows(other) == old(table.Rows(other))
  {
    FindAt(table.Rows(employee), k);
    PutAt(table.Rows(employee), k, row);
    var _ := table.Merge(employee, row);
  }

  /** Cancels the pending ones among `active`; running ones are left alone. */
  method SupersedePendingEvents(table: EventTable, employee: Employee, event: EventId, active: seq<Row>)
    requires Sorted(table.Rows(employee))
    requires forall row :: row in active <==> row in table.Rows(employee) && ActiveOther(row, event)
    modifies table
    ensures table.Rows(employee) == SupersedeOthers(old(table.Rows(employee)), event)
    ensures forall other :: other != employee ==> table.Rows(other) == old(table.Rows(other))
  {
    ghost var before := table.Rows(employee);
    for i := 0 to |active|
      invariant |table.Rows(employee)| == |before| && Sorted(table.Rows(employee))
      invariant forall k :: 0 <= k < |before| ==>
        (table.Rows(employee)[k] == if before[k] in active[..i] then SupersededFor(before[k], event) else before[k])
      invariant forall other :: other != employee ==> table.Rows(other) == old(table.Rows(other))
    {
      TakeOneMore(active, i);
      var row := active[i];
      assert row in before;
      ghost var k :| 0 <= k < |before| && before[k] == row;
      if row.status == Pending {
        MergeAt(table, employee, k, row.(status := Superseded));
      }
    }
    TakeAll(active);
    assert forall k :: 0 <= k < |before| ==> before[k] !in active ==> SupersededFor(before[k], event) == before[k];
    assert table.Rows(employee) == SupersedeOthers(before, event);
  }

  lemma ActiveFound(rows: Partition, event: EventId, active: seq<Row>)
    requires forall row :: row in active <==> row in rows && ActiveOther(row, event)
    ensures active != [] <==> HasActiveOther(rows, event)
    ensures active == [] ==> SupersedeOthers(rows, event) == rows
  {
    if active != [] {
      assert active[0] in rows;
    } else {
      assert forall i :: 0 <= i < |rows| ==> rows[i] !in active;
    }
  }

  method CheckAndHandleConflict(table: EventTable, employee: Employee, event: EventId, action: LifecycleAction,
                                now: Instant)
    returns (outcome: ConflictOutcome)
    requires Sorted(table.Rows(employee))
    modifies table
    ensures outcome == Outcome(old(table.Rows(employee)), event, action)
    ensures table.Rows(employee) == AfterConflict(old(table.Rows(employee)), event, action, now)
    ensures forall other :: other != employee ==> table.Rows(other) == old(table.Rows(other))
  {
    var active := GetActiveEvents(table, employee, event);
    ActiveFound(table.Rows(employee), event, active);
    if action == Leaver {
      if active != [] {
        SupersedePendingEvents(table, employee, event, active);
      }
      return Supersede;
    }
    if active != [] {
      var found := Find(table.Rows(employee), event);
      if found.Some? {
        var _ := table.Merge(employee, found.value.(queuedAt := Some(now)));
      }
      return Queued;
    }
    return Proceed;
  }

  method GetOldestQueuedEvent(table: EventTable, employee: Employee) returns (next: Option<Row>)
    ensures next == Oldest(table.Rows(employee))
  {
    var rows := table.Rows(employee);
    next := None;
    // A stable sort's first element: scan from the end, earlier rows winning ties.
    var i := |rows|;
    while i > 0
      invariant 0 <= i <= |rows|
      invariant next == Oldest(rows[i..])
    {
      i := i - 1;
      assert rows[i..][1..] == rows[i + 1..] && rows[i..][0] == rows[i];
      if Waiting(rows[i]) && (next.None? || rows[i].queuedAt.value <= next.value.queuedAt.value) {
        next := Some(rows[i]);
      }
    }
    assert rows[0..] == rows;
  }

  lemma HeadIsReleased(rows: Partition, predecessor: EventStatus) returns (k: nat)
    requires Sorted(rows) && Oldest(rows).Some?
    ensures k < |rows| && rows[k] == Oldest(rows).value
    ensures ReleaseNext(rows, predecessor) == Release(rows[k := Advanced(rows[k], predecessor)], Some(rows[k]))
    ensures Sorted(ReleaseNext(rows, predecessor).rows)
  {
    k :| 0 <= k < |rows| && rows[k] == Oldest(rows).value;
    PutAt(rows, k, Advanced(rows[k], predecessor));
  }

  method ReleaseNextQueuedEvent(table: EventTable, employee: Employee, predecessor: EventStatus)
    returns (next: Option<Row>)
    requires Sorted(table.Rows(employee))
    modifies table
    ensures next == ReleaseNext(old(table.Rows(employee)), predecessor).next
    ensures table.Rows(employee) == ReleaseNext(old(table.Rows(employee)), predecessor).rows
    ensures forall other :: other != employee ==> table.Rows(other) == old(table.Rows(other))
  {
    next := GetOldestQueuedEvent(table, employee);
    ghost var rows := table.Rows(employee);
    if next.None? {
      return;
    }
    var row := next.value;
    ghost var k := HeadIsReleased(rows, predecessor);
    if predecessor == Completed {
      MergeAt(table, employee, k, row.(status := Pending, queuedAt := None));
    } else if predecessor == Failed {
      MergeAt(table, employee, k, row.(status := OnHold));
    } else {
      assert rows[k := row] == rows;
    }
  }

  // What a conflict is.

  /** Another event of the employee that is pending or running. */
  ghost predicate Conflicts(rows: Partition, event: EventId) {
    exists row :: row in rows && row.event != event && row.status in {Pending, Processing}
  }

  /** An event is parked exactly when another is pending or running, unless it is a Leaver. */
  lemma OutcomeIff(rows: Partition, event: EventId, action: LifecycleAction)
    ensures Outcome(rows, event, action) == Supersede <==> action == Leaver
    ensures Outcome(rows, event, action) == Queued <==> action != Leaver && Conflicts(rows, event)
  {
    if row :| row in rows && row.event != event && row.status in {Pending, Processing} {
      var i :| 0 <= i < |rows| && rows[i] == row;
      assert ActiveOther(rows[i], event);
    }
  }

  /** A parked event's own row is stamped and otherwise as it was, and so is every other row. */
  lemma ParkedRowIsStamped(rows: Partition, event: EventId, action: LifecycleAction, now: Instant, other: EventId)
    requires action != Leaver
    ensures Find(AfterConflict(rows, event, action, now), other) ==
      if other == event && Conflicts(rows, event) && Find(rows, event).Some?
      then Some(Find(rows, event).value.(queuedAt := Some(now)))
      else Find(rows, other)
  {
    OutcomeIff(rows, event, action);
    if Find(rows, event).Some? {
      FindPut(rows, Find(rows, event).value.(queuedAt := Some(now)), other);
    }
  }

  // Supersede.

  lemma SupersededAt(rows: Partition, event: EventId, other: EventId)
    requires Sorted(rows)
    ensures Sorted(SupersedeOthers(rows, event))
    ensures Find(SupersedeOthers(rows, event), other) ==
      match Find(rows, other)
      case None => None
      case Some(row) => Some(SupersededFor(row, event))
  {
    var after := SupersedeOthers(rows, event);
    assert forall i :: 0 <= i < |rows| ==> after[i].event == rows[i].event;
    match Find(rows, other)
    case None =>
    case Some(row) =>
      var i :| 0 <= i < |rows| && rows[i] == row;
      FindAt(after, i);
  }

  /**
   * After a Leaver's conflict check no other event of the employee is pending; running
   * ones, finished ones and the Leaver's own row are exactly as they were.
   */
  lemma SupersedeIsExact(rows: Partition, event: EventId, now: Instant, other: EventId)
    requires Sorted(rows)
    ensures var after := AfterConflict(rows, event, Leaver, now);
      && Sorted(after)
      && (other != event && Find(after, other).Some? ==> Find(after, other).value.status != Pending)
      && (match Find(rows, other)
          case None => Find(after, other).None?
          case Some(row) =>
            Find(after, other) ==
              Some(if other != event && row.status == Pending then row.(status := Superseded) else row))
  {
    SupersededAt(rows, event, other);
  }

  // First in, first out.

  lemma {:induction false} OldestUnlessEmpty(rows: Partition)
    ensures Oldest(rows).None? <==> QueueSize(rows) == 0
    ensures Oldest(rows).None? ==> forall row :: row in rows ==> !Waiting(row)
  {
    if rows != [] {
      OldestUnlessEmpty(rows[1..]);
      assert rows == [rows[0]] + rows[1..];
    }
  }

  /** Nothing waiting is released before the head. */
  lemma {:induction false} OldestIsFirst(rows: Partition, row: Row)
    requires Sorted(rows) && row in rows && Waiting(row)
    ensures Oldest(rows).Some? && (row == Oldest(rows).value || Before(Oldest(rows).value, row))
  {
    LaterRows(rows, row.event);
    if row in rows[1..] {
      OldestIsFirst(rows[1..], row);
    }
  }

  /** `row` waits in line: it is pending and has a queue stamp. */
  ghost predicate InLine(rows: Partition, row: Row) {
    row in rows && row.status == Pending && row.queuedAt.Some?
  }

  /** Which row is the head: one in line, stamped earliest, with the smallest key among those. */
  lemma HeadIff(rows: Partition, head: Row)
    requires Sorted(rows)
    ensures Oldest(rows) == Some(head) <==>
      && InLine(rows, head)
      && forall row :: InLine(rows, row) && row != head ==>
        head.queuedAt.value < row.queuedAt.value
        || (head.queuedAt.value == row.queuedAt.value && head.event < row.event)
    ensures Oldest(rows) == None <==> forall row :: !InLine(rows, row)
  {
    forall row | InLine(rows, row)
      ensures Oldest(rows).Some? && (row == Oldest(rows).value || Before(Oldest(rows).value, row))
    {
      OldestIsFirst(rows, row);
    }
    if Oldest(rows).Some? {
      assert InLine(rows, Oldest(rows).value);
    }
  }

  /**
   * What becomes of the head, and of it alone: ready to run after a completion, on hold
   * after a failure, and as it was after anything else.
   */
  lemma ReleaseIs(rows: Partition, predecessor: EventStatus, event: EventId)
    requires Sorted(rows)
    ensures var head := Oldest(rows);
      Find(ReleaseNext(rows, predecessor).rows, event) ==
        if head.Some? && head.value.event == event && predecessor == Completed
        then Some(head.value.(status := Pending, queuedAt := None))
        else if head.Some? && head.value.event == event && predecessor == Failed
        then Some(head.value.(status := OnHold))
        else Find(rows, event)
  {
    if Oldest(rows).Some? {
      var k := HeadIsReleased(rows, predecessor);
      FindAt(rows, k);
      FindPut(rows, Advanced(rows[k], predecessor), event);
    }
  }

  lemma {:induction false} QueueShrinks(rows: Partition, k: nat, row: Row)
    requires k < |rows| && Waiting(rows[k]) && !Waiting(row)
    ensures QueueSize(rows[k := row]) == QueueSize(rows) - 1
  {
    if k == 0 {
      assert rows[0 := row][1..] == rows[1..];
    } else {
      QueueShrinks(rows[1..], k - 1, row);
      assert rows[k := row][1..] == rows[1..][k - 1 := row];
    }
  }

  /** A release changes the head's row and no other, and shortens the queue by one. */
  lemma ReleaseEffect(rows: Partition, predecessor: EventStatus) returns (k: nat)
    requires Sorted(rows) && Oldest(rows).Some?
    ensures k < |rows| && rows[k] == Oldest(rows).value
    ensures ReleaseNext(rows, predecessor) == Release(rows[k := Advanced(rows[k], predecessor)], Some(rows[k]))
    ensures Sorted(ReleaseNext(rows, predecessor).rows)
    ensures predecessor == Completed || predecessor == Failed ==>
      QueueSize(ReleaseNext(rows, predecessor).rows) == QueueSize(rows) - 1
  {
    k := HeadIsReleased(rows, predecessor);
    if predecessor == Completed || predecessor == Failed {
      QueueShrinks(rows, k, Advanced(rows[k], predecessor));
    }
  }

  /** After a failure the head, and only the head, is put on hold. */
  lemma FailureHoldsExactlyTheHead(rows: Partition, event: EventId)
    requires Sorted(rows) && Oldest(rows).Some?
    ensures Find(ReleaseNext(rows, Failed).rows, event) ==
      if event == Oldest(rows).value.event then Some(Oldest(rows).value.(status := OnHold)) else Find(rows, event)
  {
    var k := ReleaseEffect(rows, Failed);
    FindAt(rows, k);
    FindPut(rows, Advanced(rows[k], Failed), event);
  }

  lemma ReleaseShrinks(rows: Partition)
    requires Sorted(rows) && Oldest(rows).Some?
    ensures Sorted(ReleaseNext(rows, Completed).rows)
    ensures QueueSize(ReleaseNext(rows, Completed).rows) < QueueSize(rows)
  {
    var _ := ReleaseEffect(rows, Completed);
  }

  datatype Drained = Drained(released: seq<Row>, rows: Partition)

  /** Release after release, each with a completed predecessor, until the queue is empty. */
  ghost function Drain(rows: Partition): Drained
    requires Sorted(rows)
    decreases QueueSize(rows)
  {
    match Oldest(rows)
    case None => Drained([], rows)
    case Some(row) =>
      ReleaseShrinks(rows);
      var rest := Drain(ReleaseNext(rows, Completed).rows);
      Drained([row] + rest.released, rest.rows)
  }

  /** What draining leaves of a row. */
  function Settled(row: Row): Row {
    if Waiting(row) then row.(queuedAt := None) else row
  }

  /** `d` is what releasing everything from `rows`, first in first out, gives. */
  ghost predicate Fifo(rows: Partition, d: Drained) {
    && |d.released| == QueueSize(rows)
    && (forall row :: row in d.released <==> row in rows && Waiting(row))
    && (forall i, j :: 0 <= i < j < |d.released| ==> Before(d.released[i], d.released[j]))
    && |d.rows| == |rows| && (forall i :: 0 <= i < |rows| ==> d.rows[i] == Settled(rows[i]))
    && ReleaseNext(d.rows, Completed).next == None
  }

  lemma FifoStep(rows: Partition, k: nat, rest: Drained)
    requires Sorted(rows) && k < |rows| && Oldest(rows) == Some(rows[k])
    requires Fifo(rows[k := rows[k].(queuedAt := None)], rest)
    ensures Fifo(rows, Drained([rows[k]] + rest.released, rest.rows))
  {
    QueueShrinks(rows, k, rows[k].(queuedAt := None));
    WaitingAfterRelease(rows, k);
    var all := [rows[k]] + rest.released;
    forall j | 0 < j < |all| ensures Before(all[0], all[j]) {
      assert all[j] == rest.released[j - 1] && all[j] in rest.released;
      OldestIsFirst(rows, all[j]);
    }
  }

  /**
   * Draining releases every waiting event exactly once, in queue order, and then
   * nothing: each is ready to run, and no other row has changed.
   */
  lemma {:induction false} DrainIsFifo(rows: Partition)
    requires Sorted(rows)
    ensures Fifo(rows, Drain(rows))
    decreases QueueSize(rows)
  {
    OldestUnlessEmpty(rows);
    if Oldest(rows).Some? {
      var k := ReleaseEffect(rows, Completed);
      DrainIsFifo(ReleaseNext(rows, Completed).rows);
      FifoStep(rows, k, Drain(ReleaseNext(rows, Completed).rows));
    } else {
      forall i | 0 <= i < |rows| ensures Settled(rows[i]) == rows[i] {
        assert rows[i] in rows;
      }
    }
  }

  /** Taking the head's timestamp away leaves the rest of the queue waiting. */
  lemma WaitingAfterRelease(rows: Partition, k: nat)
    requires Sorted(rows) && k < |rows| && Waiting(rows[k])
    ensures forall row :: row in rows[k := rows[k].(queuedAt := None)] && Waiting(row) <==>
      row in rows && Waiting(row) && row != rows[k]
    ensures forall i :: 0 <= i < |rows| ==> Settled(rows[k := rows[k].(queuedAt := None)][i]) == Settled(rows[i])
  {
    var next := rows[k := rows[k].(queuedAt := None)];
    forall row ensures row in next && Waiting(row) <==> row in rows && Waiting(row) && row != rows[k] {
      if row in next && Waiting(row) {
        var i :| 0 <= i < |next| && next[i] == row;
        assert rows[i] == row && i != k;
      }
      if row in rows && Waiting(row) && row != rows[k] {
        var i :| 0 <= i < |rows| && rows[i] == row;
        assert next[i] == row;
      }
    }
  }
}
