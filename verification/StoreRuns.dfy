/** Properties of arbitrary sequences of store and queue calls on one employee's events. */
module StoreRuns {
  import opened Collections
  import opened EventStore
  import opened ConflictQueue

  datatype Operation =
    | DoClaim(event: EventId, action: LifecycleAction, now: Instant)
    | DoAcquire(event: EventId, holder: string, now: Instant)
    | DoRelease(event: EventId)
    | DoFinish(event: EventId, completed: bool, failureStep: string)
    | DoCheckActive(now: Instant)
    | DoConflict(event: EventId, action: LifecycleAction, now: Instant)
    | DoReleaseNext(predecessor: EventStatus)

  function Apply(rows: Partition, op: Operation): Partition {
    match op
    case DoClaim(event, action, now) => Claim(rows, event, action, now)
    case DoAcquire(event, holder, now) => Acquire(rows, event, holder, now)
    case DoRelease(event) => EventStore.Release(rows, event)
    case DoFinish(event, completed, step) => Mark(rows, event, if completed then Completed else Failed, step)
    case DoCheckActive(now) => ScanActive(rows, now).rows
    case DoConflict(event, action, now) => AfterConflict(rows, event, action, now)
    case DoReleaseNext(predecessor) => ReleaseNext(rows, predecessor).rows
  }

  function Run(rows: Partition, ops: seq<Operation>): Partition
    decreases |ops|
  {
    if ops == [] then rows else Run(Apply(rows, ops[0]), ops[1..])
  }

  lemma ApplySorted(rows: Partition, op: Operation)
    requires Sorted(rows)
    ensures Sorted(Apply(rows, op))
  {
    match op
    case DoClaim(event, action, now) =>
      if Find(rows, event).None? {
        InsertSorted(rows, NewRow(event, action));
      }
    case DoConflict(event, action, now) =>
    case DoReleaseNext(predecessor) =>
      if Oldest(rows).Some? {
        var _ := ReleaseEffect(rows, predecessor);
      }
    case _ =>
  }

  // What one call can do to one event.

  /** `before` and `after` are the event's row around a call. */
  ghost predicate Moves(op: Operation, event: EventId, before: Option<Row>, after: Option<Row>) {
    match op
    case DoClaim(e, action, now) =>
      if e != event || !Claimable(before, now) then after == before
      else after == Some(if before.None? then NewRow(e, action) else Reclaimed(before.value))
    case DoAcquire(e, holder, now) =>
      if e != event || before.None? then after == before
      else after == Some(before.value.(status := Processing, lock := LockedAt(now), holder := holder))
    case DoRelease(e) =>
      if e != event || before.None? then after == before
      else after == Some(before.value.(lock := Unlocked, holder := ""))
    case DoFinish(e, completed, step) =>
      if e != event || before.None? then after == before
      else
        after == Some(before.value.(
          status := if completed then Completed else Failed,
          failureStep := if step == "" then before.value.failureStep else step))
    case DoCheckActive(now) =>
      || after == before
      || (before.Some? && before.value.status == Processing && Stale(before.value, now)
          && after == Some(Reclaimed(before.value)))
    case DoConflict(e, action, now) =>
      if action == Leaver && e != event && before.Some? && before.value.status == Pending
      then after == Some(before.value.(status := Superseded))
      else after == before || (e == event && before.Some? && after == Some(before.value.(queuedAt := Some(now))))
    case DoReleaseNext(predecessor) =>
      after == before || (before.Some? && Waiting(before.value) && after == Some(Advanced(before.value, predecessor)))
  }

  lemma {:induction false} ScanMoves(rows: Partition, now: Instant, event: EventId)
    ensures Moves(DoCheckActive(now), event, Find(rows, event), Find(ScanActive(rows, now).rows, event))
  {
    if rows != [] {
      ScanMoves(rows[1..], now, event);
    }
  }

  lemma ReleaseMoves(rows: Partition, predecessor: EventStatus, event: EventId)
    requires Sorted(rows)
    ensures Moves(DoReleaseNext(predecessor), event, Find(rows, event),
                  Find(ReleaseNext(rows, predecessor).rows, event))
  {
    if Oldest(rows).Some? {
      var head := Oldest(rows).value;
      var k := ReleaseEffect(rows, predecessor);
      FindAt(rows, k);
      FindPut(rows, Advanced(head, predecessor), event);
    }
  }

  lemma ConflictMoves(rows: Partition, e: EventId, action: LifecycleAction, now: Instant, event: EventId)
    requires Sorted(rows)
    ensures Moves(DoConflict(e, action, now), event, Find(rows, event),
                  Find(AfterConflict(rows, e, action, now), event))
  {
    if action == Leaver {
      SupersedeIsExact(rows, e, now, event);
    } else if HasActiveOther(rows, e) && Find(rows, e).Some? {
      FindPut(rows, Find(rows, e).value.(queuedAt := Some(now)), event);
    }
  }

  lemma EveryCallMoves(rows: Partition, op: Operation, event: EventId)
    requires Sorted(rows)
    ensures Moves(op, event, Find(rows, event), Find(Apply(rows, op), event))
  {
    match op
    case DoClaim(e, action, now) =>
      match Find(rows, e) {
        case None => FindInsert(rows, NewRow(e, action), event);
        case Some(row) => FindPut(rows, Reclaimed(row), event);
      }
    case DoAcquire(e, holder, now) =>
      if Find(rows, e).Some? {
        FindPut(rows, Find(rows, e).value.(status := Processing, lock := LockedAt(now), holder := holder), event);
      }
    case DoRelease(e) =>
      if Find(rows, e).Some? {
        FindPut(rows, Find(rows, e).value.(lock := Unlocked, holder := ""), event);
      }
    case DoFinish(e, completed, step) =>
      if Find(rows, e).Some? {
        var row := Find(rows, e).value;
        FindPut(rows, row.(status := if completed then Completed else Failed,
                           failureStep := if step == "" then row.failureStep else step), event);
      }
    case DoCheckActive(now) => ScanMoves(rows, now, event);
    case DoConflict(e, action, now) => ConflictMoves(rows, e, action, now, event);
    case DoReleaseNext(predecessor) => ReleaseMoves(rows, predecessor, event);
  }

  /** Sorted partitions stay sorted over any sequence of calls. */
  lemma {:induction false} RunSorted(rows: Partition, ops: seq<Operation>)
    requires Sorted(rows)
    ensures Sorted(Run(rows, ops))
    decreases |ops|
  {
    if ops != [] {
      ApplySorted(rows, ops[0]);
      RunSorted(Apply(rows, ops[0]), ops[1..]);
    }
  }

  // Claim exclusivity.

  /** The call is a claim of `event` that returns True. */
  predicate Wins(rows: Partition, op: Operation, event: EventId) {
    op.DoClaim? && op.event == event && Claimable(Find(rows, event), op.now)
  }

  function WinCount(rows: Partition, ops: seq<Operation>, event: EventId): nat
    decreases |ops|
  {
    if ops == [] then 0
    else (if Wins(rows, ops[0], event) then 1 else 0) + WinCount(Apply(rows, ops[0]), ops[1..], event)
  }

  /** Exactly the rows that no claim takes, however late it comes. */
  lemma NeverClaimableIff(row: Row)
    ensures (forall now: Instant :: !Claimable(Some(row), now)) <==>
      row.status != Failed && (row.status == Processing ==> row.lock == Unlocked)
  {
    match row.lock
    case LockedAt(at) =>
      assert Claimable(Some(row), at + STALE_LOCK_SECONDS + 1) == (row.status == Failed || row.status == Processing);
    case _ =>
      assert Claimable(Some(row), 0) == (row.status == Failed || (row.status == Processing && row.lock == Unreadable));
  }

  /** A claim of the event at a time when the lock taken at `at` has gone stale. */
  predicate ClaimsAfter(op: Operation, event: EventId, at: Instant) {
    op.DoClaim? && op.event == event && op.now > at + STALE_LOCK_SECONDS
  }

  /**
   * What gives a further claim its chance: the event's run fails, or it is started and
   * one of the later calls is a claim that comes after its lock has gone stale.
   */
  predicate Rearms(op: Operation, later: seq<Operation>, event: EventId) {
    || (op.DoFinish? && op.event == event && !op.completed)
    || (op.DoAcquire? && op.event == event && exists i :: 0 <= i < |later| && ClaimsAfter(later[i], event, op.now))
  }

  function RearmCount(ops: seq<Operation>, event: EventId): nat {
    if ops == [] then 0
    else (if Rearms(ops[0], ops[1..], event) then 1 else 0) + RearmCount(ops[1..], event)
  }

  /** One of these calls could be a winning claim of the row as it stands. */
  predicate Ripe(found: Option<Row>, ops: seq<Operation>, event: EventId) {
    || found.None?
    || found.value.status == Failed
    || (found.value.status == Processing &&
        exists i :: 0 <= i < |ops| && ops[i].DoClaim? && ops[i].event == event && Stale(found.value, ops[i].now))
  }

  /** One call: a win takes a ripe row and leaves none; only a rearming call makes one ripe. */
  lemma MovesRipen(op: Operation, later: seq<Operation>, event: EventId, before: Option<Row>, after: Option<Row>)
    requires Moves(op, event, before, after)
    ensures op.DoClaim? && op.event == event && Claimable(before, op.now) ==>
      Ripe(before, [op] + later, event) && !Ripe(after, later, event)
    ensures Ripe(after, later, event) ==> Ripe(before, [op] + later, event) || Rearms(op, later, event)
  {
    var ops := [op] + later;
    assert ops[0] == op && forall i :: 0 <= i < |later| ==> ops[i + 1] == later[i];
    if after.Some? && after.value.status == Processing && Ripe(after, later, event) {
      var i :| 0 <= i < |later| && later[i].DoClaim? && later[i].event == event && Stale(after.value, later[i].now);
      assert ops[i + 1] == later[i];
      if op.DoAcquire? && op.event == event && before.Some? {
        assert ClaimsAfter(later[i], event, op.now);
      }
    }
  }

  /**
   * Over any sequence of calls, in any order and at any times, the claims of one event
   * that return True are at most one, if the row is ripe to begin with, plus the times
   * the event was failed or was started and left until its lock had gone stale.
   */
  lemma {:induction false} ClaimsAreExclusive(rows: Partition, ops: seq<Operation>, event: EventId)
    requires Sorted(rows)
    ensures WinCount(rows, ops, event) <=
      (if Ripe(Find(rows, event), ops, event) then 1 else 0) + RearmCount(ops, event)
    decreases |ops|
  {
    if ops != [] {
      EveryCallMoves(rows, ops[0], event);
      assert ops == [ops[0]] + ops[1..];
      MovesRipen(ops[0], ops[1..], event, Find(rows, event), Find(Apply(rows, ops[0]), event));
      ApplySorted(rows, ops[0]);
      ClaimsAreExclusive(Apply(rows, ops[0]), ops[1..], event);
    }
  }

  // A live run is not claimed again.

  /** One of these calls failed the event, or started it at a time that is stale by now. */
  ghost predicate FailedOrOverdue(ops: seq<Operation>, event: EventId, now: Instant) {
    exists i :: 0 <= i < |ops| && FailsOrGoesStale(ops[i], event, now)
  }

  predicate FailsOrGoesStale(op: Operation, event: EventId, now: Instant) {
    || (op.DoFinish? && op.event == event && !op.completed)
    || (op.DoAcquire? && op.event == event && op.now + STALE_LOCK_SECONDS < now)
  }

  /** Every failure and every lock the row shows was put there by one of these calls. */
  ghost predicate Backed(found: Option<Row>, ops: seq<Operation>, event: EventId) {
    && found.Some?
    && (found.value.status == Failed ==> HasFailed(ops, event))
    && found.value.lock != Unreadable
    && (found.value.lock.LockedAt? ==> HasStarted(ops, event, found.value.lock.at))
  }

  predicate HasFailed(ops: seq<Operation>, event: EventId) {
    exists i :: 0 <= i < |ops| && ops[i].DoFinish? && ops[i].event == event && !ops[i].completed
  }

  predicate HasStarted(ops: seq<Operation>, event: EventId, at: Instant) {
    exists i :: 0 <= i < |ops| && ops[i].DoAcquire? && ops[i].event == event && ops[i].now == at
  }

  lemma HasMore(done: seq<Operation>, op: Operation, event: EventId, at: Instant)
    ensures HasFailed(done, event) || (op.DoFinish? && op.event == event && !op.completed) ==>
      HasFailed(done + [op], event)
    ensures HasStarted(done, event, at) || (op.DoAcquire? && op.event == event && op.now == at) ==>
      HasStarted(done + [op], event, at)
  {
    var all := done + [op];
    assert all[|done|] == op && forall i :: 0 <= i < |done| ==> all[i] == done[i];
  }

  lemma MovesStayBacked(op: Operation, done: seq<Operation>, event: EventId, before: Option<Row>, after: Option<Row>)
    requires Moves(op, event, before, after) && Backed(before, done, event)
    ensures Backed(after, done + [op], event)
  {
    HasMore(done, op, event, if after.Some? && after.value.lock.LockedAt? then after.value.lock.at else 0);
  }

  lemma OneCallStaysBacked(rows: Partition, done: seq<Operation>, op: Operation, event: EventId)
    requires Sorted(rows) && Backed(Find(rows, event), done, event)
    ensures Sorted(Apply(rows, op)) && Backed(Find(Apply(rows, op), event), done + [op], event)
  {
    EveryCallMoves(rows, op, event);
    MovesStayBacked(op, done, event, Find(rows, event), Find(Apply(rows, op), event));
    ApplySorted(rows, op);
  }

  lemma {:induction false} RunEndsWith(rows: Partition, ops: seq<Operation>)
    requires ops != []
    ensures Run(rows, ops) == Apply(Run(rows, ops[..|ops| - 1]), ops[|ops| - 1])
    decreases |ops|
  {
    if |ops| > 1 {
      RunEndsWith(Apply(rows, ops[0]), ops[1..]);
      assert ops[1..][..|ops| - 2] == ops[..|ops| - 1][1..];
    }
  }

  lemma {:induction false} RunStaysBacked(rows: Partition, ops: seq<Operation>, event: EventId)
    requires Sorted(rows) && Backed(Find(rows, event), [], event)
    ensures Sorted(Run(rows, ops)) && Backed(Find(Run(rows, ops), event), ops, event)
    decreases |ops|
  {
    if ops != [] {
      var init, last := ops[..|ops| - 1], ops[|ops| - 1];
      RunStaysBacked(rows, init, event);
      RunEndsWith(rows, ops);
      assert ops == init + [last];
      NextStaysBacked(Run(rows, init), Run(rows, ops), init, last, event);
    }
  }

  lemma NextStaysBacked(before: Partition, after: Partition, done: seq<Operation>, op: Operation, event: EventId)
    requires Sorted(before) && Backed(Find(before, event), done, event) && after == Apply(before, op)
    ensures Sorted(after) && Backed(Find(after, event), done + [op], event)
  {
    OneCallStaysBacked(before, done, op, event);
  }

  /**
   * What the claim and the lock are for: after a winning claim, whatever calls follow, a
   * further claim wins only if one of them failed the event, or started it longer ago
   * than a lock stays fresh.
   */
  lemma SecondClaimNeedsAFailure(rows: Partition, first: Operation, ops: seq<Operation>, second: Operation,
                                 event: EventId)
    requires Sorted(rows) && Wins(rows, first, event)
    requires Wins(Run(Apply(rows, first), ops), second, event)
    ensures FailedOrOverdue(ops, event, second.now)
  {
    var claimed := Apply(rows, first);
    EveryCallMoves(rows, first, event);
    ApplySorted(rows, first);
    RunStaysBacked(claimed, ops, event);
    var row := Find(Run(claimed, ops), event).value;
    if row.status == Failed {
      var i :| 0 <= i < |ops| && ops[i].DoFinish? && ops[i].event == event && !ops[i].completed;
      assert FailsOrGoesStale(ops[i], event, second.now);
    } else {
      var i :| 0 <= i < |ops| && ops[i].DoAcquire? && ops[i].event == event && ops[i].now == row.lock.at;
      assert FailsOrGoesStale(ops[i], event, second.now);
    }
  }

  /** An event whose row is not ripe is never claimed again by anybody but a run of its own. */
  lemma UndrivenIsNeverClaimed(rows: Partition, ops: seq<Operation>, event: EventId)
    requires Sorted(rows) && Find(rows, event).Some? && Find(rows, event).value.status !in {Failed, Processing}
    requires forall i :: 0 <= i < |ops| ==> !Drives(ops[i], event)
    ensures WinCount(rows, ops, event) == 0
  {
    ClaimsAreExclusive(rows, ops, event);
    UndrivenNeverRearms(ops, event);
  }

  lemma {:induction false} UndrivenNeverRearms(ops: seq<Operation>, event: EventId)
    requires forall i :: 0 <= i < |ops| ==> !Drives(ops[i], event)
    ensures RearmCount(ops, event) == 0
  {
    if ops != [] {
      UndrivenNeverRearms(ops[1..], event);
    }
  }

  // Retries.

  /** The call reclaims the event: a failed or running row goes back to Pending. */
  predicate Reclaims(rows: Partition, op: Operation, event: EventId) {
    Revived(Find(rows, event), Find(Apply(rows, op), event))
  }

  predicate Revived(before: Option<Row>, after: Option<Row>) {
    before.Some? && after.Some? && before.value.status in {Failed, Processing} && after.value.status == Pending
  }

  function ReclaimCount(rows: Partition, ops: seq<Operation>, event: EventId): nat
    decreases |ops|
  {
    if ops == [] then 0
    else (if Reclaims(rows, ops[0], event) then 1 else 0) + ReclaimCount(Apply(rows, ops[0]), ops[1..], event)
  }

  function Retries(found: Option<Row>): nat {
    match found
    case None => 0
    case Some(row) => row.retries
  }

  lemma MovesRetry(op: Operation, event: EventId, before: Option<Row>, after: Option<Row>)
    requires Moves(op, event, before, after)
    ensures Retries(after) == Retries(before) + if Revived(before, after) then 1 else 0
  {
  }

  lemma OneCallRetries(rows: Partition, op: Operation, event: EventId)
    requires Sorted(rows)
    ensures Retries(Find(Apply(rows, op), event)) ==
      Retries(Find(rows, event)) + if Reclaims(rows, op, event) then 1 else 0
  {
    EveryCallMoves(rows, op, event);
    MovesRetry(op, event, Find(rows, event), Find(Apply(rows, op), event));
  }

  /** The retry count of a row is the number of times it was reclaimed, however that came about. */
  lemma {:induction false} RetriesCountReclaims(rows: Partition, ops: seq<Operation>, event: EventId)
    requires Sorted(rows)
    ensures Retries(Find(Run(rows, ops), event)) == Retries(Find(rows, event)) + ReclaimCount(rows, ops, event)
    decreases |ops|
  {
    if ops != [] {
      OneCallRetries(rows, ops[0], event);
      ApplySorted(rows, ops[0]);
      RetriesCountReclaims(Apply(rows, ops[0]), ops[1..], event);
    }
  }

  // Finished and superseded rows.

  /** The call starts or ends the event's own run. */
  predicate Drives(op: Operation, event: EventId) {
    (op.DoAcquire? || op.DoFinish?) && op.event == event
  }

  predicate Closed(found: Option<Row>) {
    found.Some? && found.value.status in {Completed, Superseded}
  }

  /** The call is a successful claim of `event`, or a release that takes it from the queue. */
  predicate HandsOut(rows: Partition, op: Operation, event: EventId) {
    Wins(rows, op, event) ||
    (op.DoReleaseNext? && Oldest(rows).Some? && Oldest(rows).value.event == event)
  }

  predicate NeverHandedOut(rows: Partition, ops: seq<Operation>, event: EventId)
    decreases |ops|
  {
    ops == [] || (!HandsOut(rows, ops[0], event) && NeverHandedOut(Apply(rows, ops[0]), ops[1..], event))
  }

  lemma OneCallKeepsClosed(rows: Partition, op: Operation, event: EventId)
    requires Sorted(rows) && Closed(Find(rows, event)) && !Drives(op, event)
    ensures Closed(Find(Apply(rows, op), event))
    ensures Find(Apply(rows, op), event).value.status == Find(rows, event).value.status
    ensures !HandsOut(rows, op, event)
  {
    EveryCallMoves(rows, op, event);
    HeadIsFound(rows);
  }

  lemma HeadIsFound(rows: Partition)
    requires Sorted(rows)
    ensures Oldest(rows).Some? ==> Find(rows, Oldest(rows).value.event) == Oldest(rows)
  {
    if Oldest(rows).Some? {
      FindMember(rows, Oldest(rows).value);
    }
  }

  /**
   * A completed or superseded event stays what it is under every sequence of claims,
   * active checks, conflict checks, unlocks and releases: it can never be claimed again
   * and the queue never hands it out, unless a run that is already under way writes its
   * own end over it.
   */
  lemma {:induction false} ClosedRowsStayClosed(rows: Partition, ops: seq<Operation>, event: EventId)
    requires Sorted(rows) && Closed(Find(rows, event))
    requires forall i :: 0 <= i < |ops| ==> !Drives(ops[i], event)
    ensures Closed(Find(Run(rows, ops), event))
    ensures Find(Run(rows, ops), event).value.status == Find(rows, event).value.status
    ensures NeverHandedOut(rows, ops, event)
    decreases |ops|
  {
    if ops != [] {
      OneCallKeepsClosed(rows, ops[0], event);
      ApplySorted(rows, ops[0]);
      ClosedRowsStayClosed(Apply(rows, ops[0]), ops[1..], event);
    }
  }

  /**
   * The other half: a run already under way is not stopped.  After a supersede its
   * `acquire_lock` makes the row Processing again, whatever the row said before.
   */
  lemma SupersedeDoesNotStopARun(rows: Partition, event: EventId, leaver: EventId, holder: string, now: Instant)
    requires Sorted(rows) && event != leaver
    requires Find(rows, event).Some? && Find(rows, event).value.status == Pending
    ensures var superseded := Apply(rows, DoConflict(leaver, Leaver, now));
      && Find(superseded, event).value.status == Superseded
      && Find(Apply(superseded, DoAcquire(event, holder, now)), event).value.status == Processing
  {
    EveryCallMoves(rows, DoConflict(leaver, Leaver, now), event);
    ApplySorted(rows, DoConflict(leaver, Leaver, now));
    EveryCallMoves(Apply(rows, DoConflict(leaver, Leaver, now)), DoAcquire(event, holder, now), event);
  }
}
