/**
 * The JmlEvents table: claims, locks, reclaims and status changes.
 *
 * A partition (one employee) is the list of its rows in RowKey order, which is the
 * order a query returns them in.  Event ids stand for the hash strings of the real
 * table, numbered in that order.  Every store call is one atomic step.
 */
module EventStore {
  import opened Collections

  type Employee = string
  type EventId = nat
  type Instant = nat

  const STALE_LOCK_SECONDS := 600

  datatype EventStatus = Pending | Processing | Completed | Failed | Superseded | OnHold

  datatype LifecycleAction = Joiner | Mover | Leaver

  /** `LockedAt`: absent or empty, a timestamp, or text that is not a timestamp. */
  datatype LockStamp = Unlocked | LockedAt(at: Instant) | Unreadable

  datatype Row = Row(
    event: EventId, status: EventStatus, action: LifecycleAction, lock: LockStamp, holder: string,
    queuedAt: Option<Instant>, retries: nat, failureStep: string)

  type Partition = seq<Row>

  ghost predicate Sorted(rows: Partition) {
    forall i, j :: 0 <= i < j < |rows| ==> rows[i].event < rows[j].event
  }

  function Find(rows: Partition, event: EventId): (r: Option<Row>)
    ensures r.Some? ==> r.value in rows && r.value.event == event
    ensures r.None? ==> forall i :: 0 <= i < |rows| ==> rows[i].event != event
  {
    if rows == [] then None
    else if rows[0].event == event then Some(rows[0])
    else Find(rows[1..], event)
  }

  /** Merge an updated row into its place. */
  function Put(rows: Partition, row: Row): (r: Partition)
    ensures |r| == |rows|
    ensures forall i :: 0 <= i < |rows| ==> r[i].event == rows[i].event
  {
    if rows == [] then []
    else if rows[0].event == row.event then [row] + rows[1..]
    else [rows[0]] + Put(rows[1..], row)
  }

  function Insert(rows: Partition, row: Row): Partition {
    if rows == [] || row.event < rows[0].event then [row] + rows
    else [rows[0]] + Insert(rows[1..], row)
  }

  predicate Stale(row: Row, now: Instant) {
    match row.lock
    case Unlocked => false
    case LockedAt(at) => now > at + STALE_LOCK_SECONDS
    case Unreadable => true
  }

  function NewRow(event: EventId, action: LifecycleAction): Row {
    Row(event, Pending, action, Unlocked, "", None, 0, "")
  }

  /** Back to Pending for a retry; the queue timestamp is left as it is. */
  function Reclaimed(row: Row): Row {
    row.(status := Pending, lock := Unlocked, holder := "", failureStep := "", retries := row.retries + 1)
  }

  /** What makes a claim succeed: no row, a failed one, or a run that died holding its lock. */
  predicate Claimable(found: Option<Row>, now: Instant) {
    match found
    case None => true
    case Some(row) => row.status == Failed || (row.status == Processing && Stale(row, now))
  }

  function Claim(rows: Partition, event: EventId, action: LifecycleAction, now: Instant): Partition {
    match Find(rows, event)
    case None => Insert(rows, NewRow(event, action))
    case Some(row) => if Claimable(Some(row), now) then Put(rows, Reclaimed(row)) else rows
  }

  function Acquire(rows: Partition, event: EventId, holder: string, now: Instant): Partition {
    match Find(rows, event)
    case None => rows
    case Some(row) => Put(rows, row.(status := Processing, lock := LockedAt(now), holder := holder))
  }

  function Release(rows: Partition, event: EventId): Partition {
    match Find(rows, event)
    case None => rows
    case Some(row) => Put(rows, row.(lock := Unlocked, holder := ""))
  }

  function Mark(rows: Partition, event: EventId, status: EventStatus, failureStep: string): Partition {
    match Find(rows, event)
    case None => rows
    case Some(row) =>
      Put(rows, row.(status := status, failureStep := if failureStep == "" then row.failureStep else failureStep))
  }

  predicate Active(row: Row) {
    row.status == Pending || row.status == Processing
  }

  /** The rows and the answer of `check_active_event`: stale locks before the first live event are reclaimed. */
  datatype Scan = Scan(rows: Partition, active: Option<Row>)

  function ScanActive(rows: Partition, now: Instant): (r: Scan)
    ensures |r.rows| == |rows|
    ensures forall i :: 0 <= i < |rows| ==> r.rows[i].event == rows[i].event
  {
    if rows == [] then Scan([], None)
    else
      var row := rows[0];
      if !Active(row) then
        var rest := ScanActive(rows[1..], now);
        Scan([row] + rest.rows, rest.active)
      else if row.status == Processing && Stale(row, now) then
        var rest := ScanActive(rows[1..], now);
        Scan([Reclaimed(row)] + rest.rows, rest.active)
      else Scan(rows, Some(row))
  }

  // Row-level facts.

  lemma {:induction false} FindPut(rows: Partition, row: Row, event: EventId)
    ensures Find(Put(rows, row), event) ==
      if event == row.event && Find(rows, event).Some? then Some(row) else Find(rows, event)
  {
    if rows != [] && rows[0].event != row.event {
      FindPut(rows[1..], row, event);
    }
  }

  lemma {:induction false} FindInsert(rows: Partition, row: Row, event: EventId)
    requires Find(rows, row.event).None?
    ensures Find(Insert(rows, row), event) == if event == row.event then Some(row) else Find(rows, event)
  {
    if !(rows == [] || row.event < rows[0].event) {
      FindInsert(rows[1..], row, event);
    }
  }

  lemma {:induction false} InsertSorted(rows: Partition, row: Row)
    requires Sorted(rows) && Find(rows, row.event).None?
    ensures Sorted(Insert(rows, row))
    ensures forall other :: other in Insert(rows, row) <==> other in rows || other == row
  {
    if !(rows == [] || row.event < rows[0].event) {
      InsertSorted(rows[1..], row);
      assert rows == [rows[0]] + rows[1..];
      var rest := Insert(rows[1..], row);
      forall j | 0 <= j < |rest| ensures rows[0].event < rest[j].event {
        assert rest[j] in rest;
      }
    }
  }

  lemma FindAt(rows: Partition, i: nat)
    requires Sorted(rows) && i < |rows|
    ensures Find(rows, rows[i].event) == Some(rows[i])
  {
    var found := Find(rows, rows[i].event);
    assert found.Some?;
    var k :| 0 <= k < |rows| && rows[k] == found.value;
    assert k == i;
  }

  lemma LaterRows(rows: Partition, event: EventId)
    requires Sorted(rows) && rows != []
    ensures forall row :: row in rows[1..] ==> rows[0].event < row.event
    ensures Find(rows, event) == if rows[0].event == event then Some(rows[0]) else Find(rows[1..], event)
  {
    forall row | row in rows[1..] ensures rows[0].event < row.event {
      var i :| 0 <= i < |rows[1..]| && rows[1..][i] == row;
      assert rows[i + 1] == row;
    }
  }

  lemma FindMember(rows: Partition, row: Row)
    requires Sorted(rows) && row in rows
    ensures Find(rows, row.event) == Some(row)
  {
    var i :| 0 <= i < |rows| && rows[i] == row;
    FindAt(rows, i);
  }

  lemma TailSorted(rows: Partition, i: nat)
    requires Sorted(rows) && 0 < i < |rows|
    ensures Sorted(rows[1..]) && rows[1..][i - 1] == rows[i] && rows[0].event != rows[i].event
  {
  }

  lemma PutSorted(rows: Partition, row: Row)
    requires Sorted(rows)
    ensures Sorted(Put(rows, row))
  {
  }

  /** A successful claim leaves the event Pending and unlocked; a refused one changes nothing. */
  lemma ClaimEffect(rows: Partition, event: EventId, action: LifecycleAction, now: Instant, other: EventId)
    ensures var found, after := Find(rows, event), Claim(rows, event, action, now);
      if !Claimable(found, now) then after == rows
      else
        && Find(after, event).Some?
        && Find(after, event).value.status == Pending && Find(after, event).value.lock == Unlocked
        && Find(after, event).value.retries == (if found.None? then 0 else found.value.retries + 1)
        && (other != event ==> Find(after, other) == Find(rows, other))
  {
    match Find(rows, event)
    case None =>
      FindInsert(rows, NewRow(event, action), event);
      FindInsert(rows, NewRow(event, action), other);
    case Some(row) =>
      FindPut(rows, Reclaimed(row), event);
      FindPut(rows, Reclaimed(row), other);
  }

  /**
   * When a claim is granted: there is no row, or it failed, or it is processing under a
   * lock taken more than ten minutes ago or one that cannot be read.
   */
  lemma ClaimableIff(found: Option<Row>, now: Instant)
    ensures Claimable(found, now) <==>
      || found.None?
      || found.value.status == Failed
      || (found.value.status == Processing && found.value.lock == Unreadable)
      || (found.value.status == Processing && found.value.lock.LockedAt? && now > found.value.lock.at + 10 * 60)
  {
  }

  /** The row of a granted claim: a fresh one, or the old one reset with one more retry; its queue stamp stays. */
  lemma ClaimedRowIs(rows: Partition, event: EventId, action: LifecycleAction, now: Instant)
    requires Claimable(Find(rows, event), now)
    ensures Find(Claim(rows, event, action, now), event) == Some(
      match Find(rows, event)
      case None => Row(event, Pending, action, Unlocked, "", None, 0, "")
      case Some(row) => Row(event, Pending, row.action, Unlocked, "", row.queuedAt, row.retries + 1, ""))
  {
    match Find(rows, event)
    case None => FindInsert(rows, NewRow(event, action), event);
    case Some(row) => FindPut(rows, Reclaimed(row), event);
  }

  /** What starting, unlocking and ending a run change, of its own row and of no other. */
  lemma RunCallsAre(rows: Partition, event: EventId, row: Row, holder: string, now: Instant, status: EventStatus,
      step: string, other: EventId)
    requires Find(rows, event) == Some(row)
    ensures var mine := other == event;
      && Find(Acquire(rows, event, holder, now), other) == (if mine
           then Some(Row(event, Processing, row.action, LockedAt(now), holder, row.queuedAt, row.retries,
                         row.failureStep))
           else Find(rows, other))
      && Find(Release(rows, event), other) == (if mine
           then Some(Row(event, row.status, row.action, Unlocked, "", row.queuedAt, row.retries, row.failureStep))
           else Find(rows, other))
      && Find(Mark(rows, event, status, step), other) == (if mine
           then Some(Row(event, status, row.action, row.lock, row.holder, row.queuedAt, row.retries,
                         if step == "" then row.failureStep else step))
           else Find(rows, other))
  {
    FindPut(rows, row.(status := Processing, lock := LockedAt(now), holder := holder), other);
    FindPut(rows, row.(lock := Unlocked, holder := ""), other);
    FindPut(rows, row.(status := status, failureStep := if step == "" then row.failureStep else step), other);
  }

  // The table.

  class EventTable {
    var store: map<Employee, Partition>

    constructor ()
      ensures store == map[]
    {
      store := map[];
    }

    function Rows(employee: Employee): Partition
      reads this
    {
      RowsOf(store, employee)
    }

    /** `create_entity`: refused when the row exists. */
    method CreateEntity(employee: Employee, row: Row) returns (created: bool)
      modifies this
      ensures created <==> Find(old(Rows(employee)), row.event).None?
      ensures store == if created then old(store)[employee := Insert(old(Rows(employee)), row)] else old(store)
    {
      created := Find(Rows(employee), row.event).None?;
      if created {
        store := store[employee := Insert(Rows(employee), row)];
      }
    }

    /** `update_entity(..., mode=MERGE)` with an already merged row; false is ResourceNotFound. */
    method Merge(employee: Employee, row: Row) returns (found: bool)
      modifies this
      ensures found <==> Find(old(Rows(employee)), row.event).Some?
      ensures store == if found then old(store)[employee := Put(old(Rows(employee)), row)] else old(store)
    {
      found := Find(Rows(employee), row.event).Some?;
      if found {
        store := store[employee := Put(Rows(employee), row)];
      }
    }

    method ReclaimEvent(employee: Employee, row: Row)
      requires Find(Rows(employee), row.event).Some?
      modifies this
      ensures store == old(store)[employee := Put(old(Rows(employee)), Reclaimed(row))]
    {
      var _ := Merge(employee, Reclaimed(row));
    }

    method ClaimEvent(employee: Employee, event: EventId, action: LifecycleAction, now: Instant) returns (claimed: bool)
      modifies this
      ensures claimed == Claimable(Find(old(Rows(employee)), event), now)
      ensures store ==
        if claimed then old(store)[employee := Claim(old(Rows(employee)), event, action, now)]
        else old(store)
    {
      var created := CreateEntity(employee, NewRow(event, action));
      if created {
        return true;
      }
      claimed := HandleExistingEvent(employee, event, now);
    }

    method HandleExistingEvent(employee: Employee, event: EventId, now: Instant) returns (claimed: bool)
      modifies this
      ensures var found := Find(old(Rows(employee)), event);
        && claimed == (found.Some? && Claimable(found, now))
        && store ==
           if claimed then old(store)[employee := Put(old(Rows(employee)), Reclaimed(found.value))]
           else old(store)
    {
      var existing := Find(Rows(employee), event);
      if existing.None? {
        return false;
      }
      var row := existing.value;
      if row.status == Failed {
        ReclaimEvent(employee, row);
        return true;
      }
      if row.status == Processing && Stale(row, now) {
        ReclaimEvent(employee, row);
        return true;
      }
      return false;
    }

    /** Unconditional: whatever the row's status is, it becomes Processing. */
    method AcquireLock(employee: Employee, event: EventId, holder: string, now: Instant) returns (found: bool)
      modifies this
      ensures found <==> Find(old(Rows(employee)), event).Some?
      ensures store ==
        if found then old(store)[employee := Acquire(old(Rows(employee)), event, holder, now)]
        else old(store)
    {
      var existing := Find(Rows(employee), event);
      if existing.None? {
        return false;
      }
      found := Merge(employee, existing.value.(status := Processing, lock := LockedAt(now), holder := holder));
    }

    method ReleaseLock(employee: Employee, event: EventId) returns (found: bool)
      modifies this
      ensures found <==> Find(old(Rows(employee)), event).Some?
      ensures store == if found then old(store)[employee := Release(old(Rows(employee)), event)] else old(store)
    {
      var existing := Find(Rows(employee), event);
      if existing.None? {
        return false;
      }
      found := Merge(employee, existing.value.(lock := Unlocked, holder := ""));
    }

    method UpdateEventStatus(employee: Employee, event: EventId, status: EventStatus, failureStep: string)
      returns (found: bool)
      modifies this
      ensures found <==> Find(old(Rows(employee)), event).Some?
      ensures store ==
        if found then old(store)[employee := Mark(old(Rows(employee)), event, status, failureStep)]
        else old(store)
    {
      var existing := Find(Rows(employee), event);
      if existing.None? {
        return false;
      }
      var row := existing.value.(status := status);
      if failureStep != "" {
        row := row.(failureStep := failureStep);
      }
      found := Merge(employee, row);
    }

    method ReclaimScanned(employee: Employee, rows: Partition, i: nat, ghost done: Partition)
      requires |done| == i < |rows| && Rows(employee) == done + rows[i..] && Sorted(Rows(employee))
      modifies this
      ensures Rows(employee) == done + [Reclaimed(rows[i])] + rows[i + 1..] && Sorted(Rows(employee))
      ensures forall other :: other != employee ==> Rows(other) == old(Rows(other))
    {
      ReclaimInScan(done, rows, i);
      ReclaimEvent(employee, rows[i]);
    }

    /** Walks the partition as it was when queried, reclaiming stale locks as it goes. */
    method CheckActiveEvent(employee: Employee, now: Instant) returns (active: Option<Row>)
      requires Sorted(Rows(employee))
      modifies this
      ensures active == ScanActive(old(Rows(employee)), now).active
      ensures Rows(employee) == ScanActive(old(Rows(employee)), now).rows
      ensures forall other :: other != employee ==> Rows(other) == old(Rows(other))
    {
      var rows := Rows(employee);
      ghost var whole := ScanActive(rows, now);
      ghost var done: Partition := [];
      for i := 0 to |rows|
        invariant |done| == i && Rows(employee) == done + rows[i..]
        invariant Sorted(Rows(employee))
        invariant Scan(done + ScanActive(rows[i..], now).rows, ScanActive(rows[i..], now).active) == whole
        invariant forall other :: other != employee ==> Rows(other) == old(Rows(other))
      {
        var row := rows[i];
        ScanStep(rows, i, now);
        if !Active(row) {
          Associative(done, [row], rows[i + 1..]);
          Associative(done, [row], ScanActive(rows[i + 1..], now).rows);
          done := done + [row];
          continue;
        }
        if row.status == Processing && Stale(row, now) {
          ReclaimScanned(employee, rows, i, done);
          Associative(done, [Reclaimed(row)], ScanActive(rows[i + 1..], now).rows);
          done := done + [Reclaimed(row)];
          continue;
        }
        return Some(row);
      }
      return None;
    }
  }

  /** One step of the scan: the row is passed over, reclaimed, or found live. */
  lemma ScanStep(rows: Partition, i: nat, now: Instant)
    requires i < |rows|
    ensures rows[i..] == [rows[i]] + rows[i + 1..]
    ensures var row, next := rows[i], ScanActive(rows[i + 1..], now);
      ScanActive(rows[i..], now) ==
        if !Active(row) then Scan([row] + next.rows, next.active)
        else if row.status == Processing && Stale(row, now) then Scan([Reclaimed(row)] + next.rows, next.active)
        else Scan(rows[i..], Some(row))
  {
    assert rows[i..][0] == rows[i] && rows[i..][1..] == rows[i + 1..];
  }

  lemma UpdateAtSplit(done: Partition, rows: Partition, i: nat, row: Row)
    requires |done| == i < |rows|
    ensures (done + rows[i..])[i := row] == done + [row] + rows[i + 1..]
  {
  }

  lemma ReclaimInScan(done: Partition, rows: Partition, i: nat)
    requires |done| == i < |rows| && Sorted(done + rows[i..])
    ensures var all := done + rows[i..];
      && Find(all, rows[i].event) == Some(rows[i])
      && Put(all, Reclaimed(rows[i])) == done + [Reclaimed(rows[i])] + rows[i + 1..]
      && Sorted(Put(all, Reclaimed(rows[i])))
  {
    var all := done + rows[i..];
    assert all[i] == rows[i];
    FindAt(all, i);
    PutAt(all, i, Reclaimed(rows[i]));
    PutSorted(all, Reclaimed(rows[i]));
    UpdateAtSplit(done, rows, i, Reclaimed(rows[i]));
  }

  function RowsOf(store: map<Employee, Partition>, employee: Employee): Partition {
    if employee in store then store[employee] else []
  }

  lemma {:induction false} PutAt(rows: Partition, i: nat, row: Row)
    requires Sorted(rows) && i < |rows| && row.event == rows[i].event
    ensures Put(rows, row) == rows[i := row]
  {
    if i > 0 {
      TailSorted(rows, i);
      PutAt(rows[1..], i - 1, row);
      assert Put(rows, row) == [rows[0]] + Put(rows[1..], row);
      assert rows[i := row] == [rows[0]] + rows[1..][i - 1 := row];
    }
  }
}
