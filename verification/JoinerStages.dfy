/** The Joiner's stages that drive the event store: claim, conflict check, finalize. */
module JoinerStages {
  import opened Collections
  import opened EventStore
  import CQ = ConflictQueue

  datatype ClaimOutcome = Proceed | Skipped | Duplicate

  datatype ClaimStage = ClaimStage(rows: Partition, outcome: ClaimOutcome)

  predicate Running(active: Option<Row>) {
    active.Some? && active.value.status == Processing
  }

  function StageClaim(rows: Partition, event: EventId, action: LifecycleAction, now: Instant): ClaimStage {
    var scan := ScanActive(rows, now);
    if Running(scan.active) then ClaimStage(scan.rows, Skipped)
    else if !Claimable(Find(scan.rows, event), now) then ClaimStage(scan.rows, Duplicate)
    else ClaimStage(Claim(scan.rows, event, action, now), Proceed)
  }

  method StageClaimEvent(table: EventTable, employee: Employee, event: EventId, action: LifecycleAction, now: Instant)
    returns (outcome: ClaimOutcome)
    requires Sorted(table.Rows(employee))
    modifies table
    ensures ClaimStage(table.Rows(employee), outcome) == StageClaim(old(table.Rows(employee)), event, action, now)
    ensures forall other :: other != employee ==> table.Rows(other) == old(table.Rows(other))
  {
    var active := table.CheckActiveEvent(employee, now);
    if active.Some? && active.value.status == Processing {
      return Skipped;
    }
    var claimed := table.ClaimEvent(employee, event, action, now);
    if !claimed {
      return Duplicate;
    }
    return Proceed;
  }

  method StageConflictCheck(table: EventTable, employee: Employee, event: EventId, now: Instant) returns (proceed: bool)
    requires Sorted(table.Rows(employee))
    modifies table
    ensures proceed <==> !CQ.Conflicts(old(table.Rows(employee)), event)
    ensures table.Rows(employee) == CQ.AfterConflict(old(table.Rows(employee)), event, Joiner, now)
    ensures forall other :: other != employee ==> table.Rows(other) == old(table.Rows(other))
  {
    CQ.OutcomeIff(table.Rows(employee), event, Joiner);
    var outcome := CQ.CheckAndHandleConflict(table, employee, event, Joiner, now);
    proceed := outcome != CQ.Queued;
  }

  function Finished(rows: Partition, event: EventId, status: EventStatus, failureStep: string): Partition {
    CQ.ReleaseNext(Mark(Release(rows, event), event, status, failureStep), status).rows
  }

  /** Unlock and final status: the event's own row. */
  method CloseEvent(table: EventTable, employee: Employee, event: EventId, status: EventStatus, failureStep: string)
    requires Sorted(table.Rows(employee)) && Find(table.Rows(employee), event).Some?
    modifies table
    ensures table.Rows(employee) == Mark(Release(old(table.Rows(employee)), event), event, status, failureStep)
    ensures Sorted(table.Rows(employee))
    ensures forall other :: other != employee ==> table.Rows(other) == old(table.Rows(other))
  {
    ReleasedStays(table.Rows(employee), event);
    var _ := table.ReleaseLock(employee, event);
    MarkedStays(table.Rows(employee), event, status, failureStep);
    var _ := table.UpdateEventStatus(employee, event, status, failureStep);
  }

  /** `stage_finalize`: unlock, final status, advance the queue. */
  method StageFinalize(table: EventTable, employee: Employee, event: EventId, status: EventStatus, failureStep: string)
    returns (next: Option<Row>)
    requires Sorted(table.Rows(employee)) && Find(table.Rows(employee), event).Some?
    modifies table
    ensures table.Rows(employee) == Finished(old(table.Rows(employee)), event, status, failureStep)
    ensures next == CQ.Oldest(Mark(Release(old(table.Rows(employee)), event), event, status, failureStep))
    ensures forall other :: other != employee ==> table.Rows(other) == old(table.Rows(other))
  {
    CloseEvent(table, employee, event, status, failureStep);
    next := CQ.ReleaseNextQueuedEvent(table, employee, status);
  }

  lemma ReleasedStays(rows: Partition, event: EventId)
    requires Sorted(rows) && Find(rows, event).Some?
    ensures Sorted(Release(rows, event))
    ensures Find(Release(rows, event), event) == Some(Find(rows, event).value.(lock := Unlocked, holder := ""))
  {
    FindPut(rows, Find(rows, event).value.(lock := Unlocked, holder := ""), event);
  }

  lemma MarkedStays(rows: Partition, event: EventId, status: EventStatus, failureStep: string)
    requires Sorted(rows) && Find(rows, event).Some?
    ensures Sorted(Mark(rows, event, status, failureStep))
    ensures var row := Find(rows, event).value;
      Find(Mark(rows, event, status, failureStep), event) ==
        Some(row.(status := status, failureStep := if failureStep == "" then row.failureStep else failureStep))
  {
    var row := Find(rows, event).value;
    FindPut(rows,
            row.(status := status, failureStep := if failureStep == "" then row.failureStep else failureStep), event);
  }

  // What the claim stage decides.

  predicate StaleRun(found: Option<Row>, now: Instant) {
    found.Some? && found.value.status == Processing && Stale(found.value, now)
  }

  /** What the scan stops at is a live row of the partition. */
  lemma {:induction false} ScanStopsAtLive(rows: Partition, now: Instant)
    ensures var active := ScanActive(rows, now).active;
      active.Some? ==> active.value in rows && Active(active.value) && !StaleRun(active, now)
  {
    if rows != [] {
      ScanStopsAtLive(rows[1..], now);
      assert rows == [rows[0]] + rows[1..];
    }
  }

  /** What the scan leaves of a row: a stale run is reset unless a live row stands before it. */
  lemma {:induction false} ScanLeaves(rows: Partition, event: EventId, now: Instant)
    requires Sorted(rows)
    ensures var scan, found := ScanActive(rows, now), Find(rows, event);
      Find(scan.rows, event) ==
        if StaleRun(found, now) && (scan.active.None? || event < scan.active.value.event)
        then Some(Reclaimed(found.value))
        else found
  {
    if rows != [] {
      LaterRows(rows, event);
      ScanLeaves(rows[1..], event, now);
      ScanStopsAtLive(rows[1..], now);
      var scan, rest := ScanActive(rows, now), ScanActive(rows[1..], now);
      if Active(rows[0]) && !StaleRun(Some(rows[0]), now) {
        assert scan == Scan(rows, Some(rows[0]));
      } else {
        var first := if Active(rows[0]) then Reclaimed(rows[0]) else rows[0];
        assert scan == Scan([first] + rest.rows, rest.active);
        assert scan.rows[1..] == rest.rows;
      }
    }
  }

  /**
   * The claim stage goes ahead exactly when no live run is found and the event is new,
   * failed, or a stale run behind a pending event that stops the scan before it.
   */
  lemma ProceedsIff(rows: Partition, event: EventId, action: LifecycleAction, now: Instant)
    requires Sorted(rows)
    ensures var active, own := ScanActive(rows, now).active, Find(rows, event);
      StageClaim(rows, event, action, now).outcome == Proceed <==>
        && !Running(active)
        && (|| own.None?
            || own.value.status == Failed
            || (StaleRun(own, now) && active.Some? && active.value.event < event))
  {
    ScanLeaves(rows, event, now);
    ScanStopsAtLive(rows, now);
    var active, own := ScanActive(rows, now).active, Find(rows, event);
    if active.Some? {
      FindMember(rows, active.value);
    }
  }

  /**
   * What the stage does to the rows: the stale runs the scan comes by before a live row
   * are reset, and nothing else changes except, when it proceeds, the event's own row.
   */
  lemma ClaimStageLeaves(rows: Partition, event: EventId, action: LifecycleAction, now: Instant, other: EventId)
    requires Sorted(rows)
    ensures var stage := StageClaim(rows, event, action, now);
      other != event || stage.outcome != Proceed ==>
        var active, found := ScanActive(rows, now).active, Find(rows, other);
        Find(stage.rows, other) ==
          if StaleRun(found, now) && (active.None? || other < active.value.event)
          then Some(found.value.(status := Pending, lock := Unlocked, holder := "", failureStep := "",
                                   retries := found.value.retries + 1))
          else found
  {
    var scan := ScanActive(rows, now);
    ScanLeaves(rows, other, now);
    if StageClaim(rows, event, action, now).outcome == Proceed && other != event {
      ClaimEffect(scan.rows, event, action, now, other);
    }
  }

  /**
   * The stage's documentation promises that a stale run is reclaimed and proceeds like
   * a fresh claim.  It is reclaimed, but by the scan, and then refused as a duplicate:
   * a crashed run whose row is the employee's only one is turned into a Pending row
   * that this stage refuses at every later time as well.
   */
  lemma CrashedRunIsStranded(row: Row, action: LifecycleAction, now: Instant, later: Instant)
    requires row.status == Processing && Stale(row, now)
    ensures StageClaim([row], row.event, action, now) == ClaimStage([Reclaimed(row)], Duplicate)
    ensures StageClaim([Reclaimed(row)], row.event, action, later) == ClaimStage([Reclaimed(row)], Duplicate)
  {
    var again := Reclaimed(row);
    assert ScanActive([row][1..], now) == Scan([], None);
    assert ScanActive([row], now) == Scan([again], None);
    assert Find([again], row.event) == Some(again);
  }

  /** Whenever the stage does proceed, the event's row is pending, unlocked and its own. */
  lemma ProceedsWithAPendingRow(rows: Partition, event: EventId, action: LifecycleAction, now: Instant)
    requires Sorted(rows) && StageClaim(rows, event, action, now).outcome == Proceed
    ensures var after := Find(StageClaim(rows, event, action, now).rows, event);
      after.Some? && after.value.status == Pending && after.value.lock == Unlocked
      && after.value.retries == (match Find(rows, event) case None => 0 case Some(own) => own.retries + 1)
  {
    ScanLeaves(rows, event, now);
    ClaimEffect(ScanActive(rows, now).rows, event, action, now, event);
  }

  /**
   * Finalizing leaves the event unlocked in its final status and hands the queue on:
   * the head, if any, is made ready after a completion and held after a failure, and
   * no other row changes.
   */
  lemma FinishedIsExact(rows: Partition, event: EventId, completed: bool, failureStep: string, other: EventId)
    requires Sorted(rows) && Find(rows, event).Some?
    ensures var status := if completed then Completed else Failed;
      var after := Finished(rows, event, status, failureStep);
      var queue := Mark(Release(rows, event), event, status, failureStep);
      && Find(after, event).Some?
      && Find(after, event).value.status == status && Find(after, event).value.lock == Unlocked
      && (other != event ==>
            Find(after, other) ==
              if CQ.Oldest(queue).Some? && CQ.Oldest(queue).value.event == other
              then Some(CQ.Advanced(CQ.Oldest(queue).value, status)) else Find(rows, other))
  {
    var status := if completed then Completed else Failed;
    ReleasedStays(rows, event);
    var released := Release(rows, event);
    MarkedStays(released, event, status, failureStep);
    var queue := Mark(released, event, status, failureStep);
    if other != event {
      FindPut(rows, Find(rows, event).value.(lock := Unlocked, holder := ""), other);
      FindPut(released, Find(queue, event).value, other);
    }
    if CQ.Oldest(queue).Some? {
      var k := CQ.ReleaseEffect(queue, status);
      FindAt(queue, k);
      FindPut(queue, CQ.Advanced(queue[k], status), event);
      FindPut(queue, CQ.Advanced(queue[k], status), other);
    }
  }

  /**
   * An event that was parked and then released is pending and out of the queue, and so
   * neither a claim nor a further release ever picks it up on its own.
   */
  lemma ReleasedIsNotClaimable(rows: Partition, now: Instant)
    requires Sorted(rows) && CQ.Oldest(rows).Some?
    ensures var head, after := CQ.Oldest(rows).value, CQ.ReleaseNext(rows, Completed).rows;
      !Claimable(Find(after, head.event), now)
      && (CQ.Oldest(after).Some? ==> CQ.Oldest(after).value.event != head.event)
  {
    var k := CQ.ReleaseEffect(rows, Completed);
    var after := CQ.ReleaseNext(rows, Completed).rows;
    FindAt(after, k);
    if CQ.Oldest(after).Some? {
      var j :| 0 <= j < |after| && after[j] == CQ.Oldest(after).value;
      assert j != k;
    }
  }
}
