/** The hold queue: its state machine, its manager over a copying store, and the entity encoding. */
module HoldQueue {
  import opened Collections

  type Instant = nat

  datatype HoldStatus =
    | Received | Normalized | NormalizationFailed | ValidationFailed | Held
    | Approved | Provisioning | Provisioned | Completed | Failed

  function Allowed(status: HoldStatus): set<HoldStatus> {
    match status
    case Received => {Normalized, NormalizationFailed}
    case Normalized => {Held, ValidationFailed}
    case NormalizationFailed => {Held}
    case ValidationFailed => {Held}
    case Held => {Approved, Failed}
    case Approved => {Provisioning}
    case Provisioning => {Provisioned, Failed}
    case Provisioned => {Completed, Failed}
    case Completed => {}
    case Failed => {Held}
  }

  /** The fields of a record that change over its life, with those that identify it. */
  datatype Snapshot = Snapshot(
    id: string, employee: string, upn: string, reasons: seq<string>, payload: Option<string>,
    status: HoldStatus, lastUpdated: Instant, lastAttempt: Option<Instant>, retries: nat,
    overridden: bool, note: Option<string>)

  // The table's entities.

  /** Timestamps are stored as text, empty when there is none. */
  datatype StoredTime = NoTime | At(instant: Instant)

  datatype Entity = Entity(
    partitionKey: string, rowKey: string, employeeId: string, upn: string, status: HoldStatus,
    failureReasons: seq<string>, payloadSnapshot: string, manualOverride: bool, overrideNote: string,
    retryCount: nat, lastAttempt: StoredTime, lastUpdated: StoredTime)

  function TextOrEmpty(text: Option<string>): string {
    if text.Some? then text.value else ""
  }

  function SomeUnlessEmpty(text: string): Option<string> {
    if text == "" then None else Some(text)
  }

  function ToEntity(r: Snapshot): Entity {
    Entity(r.employee, r.id, r.employee, r.upn, r.status, r.reasons, TextOrEmpty(r.payload), r.overridden,
           TextOrEmpty(r.note), r.retries,
           if r.lastAttempt.Some? then At(r.lastAttempt.value) else NoTime, At(r.lastUpdated))
  }

  /** `now` stands in for a row without a LastUpdated. */
  function FromEntity(e: Entity, now: Instant): Snapshot {
    Snapshot(e.rowKey, e.employeeId, e.upn, e.failureReasons, SomeUnlessEmpty(e.payloadSnapshot), e.status,
             if e.lastUpdated.At? then e.lastUpdated.instant else now,
             if e.lastAttempt.At? then Some(e.lastAttempt.instant) else None,
             e.retryCount, e.manualOverride, SomeUnlessEmpty(e.overrideNote))
  }

  /** An empty text read back is no text. */
  function Canonical(r: Snapshot): Snapshot {
    r.(payload := SomeUnlessEmpty(TextOrEmpty(r.payload)), note := SomeUnlessEmpty(TextOrEmpty(r.note)))
  }

  /** Storing and reading back gives the record itself exactly when no optional text is empty. */
  lemma EntityRoundTrip(r: Snapshot, now: Instant)
    ensures FromEntity(ToEntity(r), now) == Canonical(r)
    ensures FromEntity(ToEntity(r), now) == r <==> r.payload != Some("") && r.note != Some("")
    ensures ToEntity(FromEntity(ToEntity(r), now)) == ToEntity(r)
  {
    assert FromEntity(ToEntity(r), now) == Canonical(r);
  }

  // The manager.

  class HoldRecord {
    const id: string
    const employee: string
    const upn: string
    const reasons: seq<string>
    const payload: Option<string>
    var status: HoldStatus
    var lastUpdated: Instant
    var lastAttempt: Option<Instant>
    var retries: nat
    var overridden: bool
    var note: Option<string>

    constructor (id: string, employee: string, upn: string, reasons: seq<string>, payload: Option<string>, now: Instant)
      ensures View() == Snapshot(id, employee, upn, reasons, payload, Received, now, None, 0, false, None)
    {
      this.id, this.employee, this.upn, this.reasons, this.payload := id, employee, upn, reasons, payload;
      status, lastUpdated, lastAttempt, retries, overridden, note := Received, now, None, 0, false, None;
    }

    function View(): Snapshot
      reads this
    {
      Snapshot(id, employee, upn, reasons, payload, status, lastUpdated, lastAttempt, retries, overridden, note)
    }
  }

  /** A copying store: what it holds is an entity made at the time of the save. */
  class HoldQueueStore {
    var entities: map<(string, string), Entity>

    constructor ()
      ensures entities == map[]
    {
      entities := map[];
    }

    /** `up` is whether the table takes the write; a failed one is raised to the caller. */
    method Save(record: HoldRecord, up: bool)
      modifies this
      ensures entities ==
        if up then old(entities)[(record.employee, record.id) := ToEntity(record.View())]
        else old(entities)
    {
      if up {
        entities := entities[(record.employee, record.id) := ToEntity(record.View())];
      }
    }
  }

  datatype Result = Done | Rejected | SaveFailed

  datatype Call =
    | DoTransition(status: HoldStatus)
    | DoApprove(note: Option<string>)
    | DoAttempt

  function Moved(r: Snapshot, status: HoldStatus, now: Instant): Snapshot {
    r.(status := status, lastUpdated := now)
  }

  /** The live record after a call; a rejected call leaves it as it was. */
  function AfterCall(r: Snapshot, call: Call, now: Instant): Snapshot {
    match call
    case DoTransition(status) => if status in Allowed(r.status) then Moved(r, status, now) else r
    case DoApprove(note) => if r.status == Held then Moved(r.(overridden := true, note := note), Approved, now) else r
    case DoAttempt => r.(retries := r.retries + 1, lastAttempt := Some(now), lastUpdated := now)
  }

  predicate Accepted(r: Snapshot, call: Call) {
    match call
    case DoTransition(status) => status in Allowed(r.status)
    case DoApprove(_) => r.status == Held
    case DoAttempt => true
  }

  function ResultOf(r: Snapshot, call: Call, up: bool): Result {
    if !Accepted(r, call) then Rejected else if up then Done else SaveFailed
  }

  function StoreAfter(entities: map<(string, string), Entity>, r: Snapshot, result: Result)
    : map<(string, string), Entity>
  {
    if result == Done then entities[(r.employee, r.id) := ToEntity(r)] else entities
  }

  class HoldQueueManager {
    const store: HoldQueueStore

    constructor (store: HoldQueueStore)
      ensures this.store == store
    {
      this.store := store;
    }

    method Transition(record: HoldRecord, status: HoldStatus, now: Instant, up: bool) returns (result: Result)
      modifies record, store
      ensures record.View() == AfterCall(old(record.View()), DoTransition(status), now)
      ensures result == ResultOf(old(record.View()), DoTransition(status), up)
      ensures store.entities == StoreAfter(old(store.entities), record.View(), result)
    {
      if status !in Allowed(record.status) {
        return Rejected;
      }
      record.status := status;
      record.lastUpdated := now;
      store.Save(record, up);
      return if up then Done else SaveFailed;
    }

    method Approve(record: HoldRecord, note: Option<string>, now: Instant, up: bool) returns (result: Result)
      modifies record, store
      ensures record.View() == AfterCall(old(record.View()), DoApprove(note), now)
      ensures result == ResultOf(old(record.View()), DoApprove(note), up)
      ensures store.entities == StoreAfter(old(store.entities), record.View(), result)
    {
      if record.status != Held {
        return Rejected;
      }
      record.overridden := true;
      record.note := note;
      result := Transition(record, Approved, now, up);
    }

    method RecordAttempt(record: HoldRecord, now: Instant, up: bool) returns (result: Result)
      modifies record, store
      ensures record.View() == AfterCall(old(record.View()), DoAttempt, now)
      ensures result == ResultOf(old(record.View()), DoAttempt, up)
      ensures store.entities == StoreAfter(old(store.entities), record.View(), result)
    {
      record.retries := record.retries + 1;
      record.lastAttempt := Some(now);
      record.lastUpdated := now;
      store.Save(record, up);
      return if up then Done else SaveFailed;
    }

    /**
     * The creation paths: a parse or normalization failure goes through
     * NormalizationFailed, a validation failure or SoD block through Normalized and
     * ValidationFailed.  The table takes the first `taken` writes; if that is all of them
     * the record ends Held and stored, else the failure is raised and the table keeps the
     * stage of the last write it took.
     */
    method Create(id: string, employee: string, upn: string, reasons: seq<string>, payload: Option<string>,
        normalized: bool, now: Instant, taken: nat)
      returns (record: Option<HoldRecord>)
      modifies store
      ensures record.Some? <==> taken >= |CreationPath(normalized)|
      ensures record.Some? ==> (
        && fresh(record.value)
        && record.value.View() == Snapshot(id, employee, upn, reasons, payload, Held, now, None, 0, false, None))
      ensures store.entities == if taken == 0 then old(store.entities) else
        var path := CreationPath(normalized);
        var last := path[if taken < |path| then taken - 1 else |path| - 1];
        old(store.entities)[(employee, id) :=
          ToEntity(Snapshot(id, employee, upn, reasons, payload, last, now, None, 0, false, None))]
    {
      ghost var before := store.entities;
      ghost var blank := Snapshot(id, employee, upn, reasons, payload, Received, now, None, 0, false, None);
      var r := new HoldRecord(id, employee, upn, reasons, payload, now);
      store.Save(r, taken > 0);
      if taken == 0 {
        return None;
      }
      var result := Transition(r, if normalized then Normalized else NormalizationFailed, now, taken > 1);
      if result != Done {
        return None;
      }
      assert r.View() == blank.(status := CreationPath(normalized)[1]);
      assert store.entities == before[(employee, id) := ToEntity(r.View())];
      if normalized {
        result := Transition(r, ValidationFailed, now, taken > 2);
        if result != Done {
          return None;
        }
      }
      assert r.View() == blank.(status := CreationPath(normalized)[|CreationPath(normalized)| - 2]);
      assert store.entities == before[(employee, id) := ToEntity(r.View())];
      result := Transition(r, Held, now, if normalized then taken > 3 else taken > 2);
      if result != Done {
        return None;
      }
      return Some(r);
    }
  }

  /** The statuses a record is created through, one write each. */
  function CreationPath(normalized: bool): (path: seq<HoldStatus>)
    ensures |path| >= 3 && IsPath(path) && path[0] == Received && path[|path| - 1] == Held
    ensures Normalized in path <==> normalized
  {
    if normalized then [Received, Normalized, ValidationFailed, Held] else [Received, NormalizationFailed, Held]
  }

  // The store and the live record.

  /** The store holds exactly what the live record would be stored as. */
  predicate Agrees(entities: map<(string, string), Entity>, r: Snapshot) {
    (r.employee, r.id) in entities && entities[(r.employee, r.id)] == ToEntity(r)
  }

  /**
   * After every call, rejected ones included, a store that agreed with the live record
   * agrees again exactly when no save failed.
   */
  lemma StoreAgreesIffSaved(entities: map<(string, string), Entity>, r: Snapshot, call: Call, now: Instant, up: bool)
    requires Agrees(entities, r)
    ensures var after, result := AfterCall(r, call, now), ResultOf(r, call, up);
      Agrees(StoreAfter(entities, after, result), after) <==> result != SaveFailed
  {
    match call
    case DoTransition(status) => assert r.status !in Allowed(r.status);
    case _ =>
  }

  // Runs.

  datatype Timed = Timed(call: Call, now: Instant)

  function RunCalls(r: Snapshot, calls: seq<Timed>): Snapshot {
    if calls == [] then r
    else AfterCall(RunCalls(r, calls[..|calls| - 1]), calls[|calls| - 1].call, calls[|calls| - 1].now)
  }

  /** The statuses a record goes through, one per change. */
  function Trace(r: Snapshot, calls: seq<Timed>): (trace: seq<HoldStatus>)
    ensures trace != []
  {
    if calls == [] then [r.status]
    else
      var before, after := RunCalls(r, calls[..|calls| - 1]), RunCalls(r, calls);
      Trace(r, calls[..|calls| - 1]) + if after.status != before.status then [after.status] else []
  }

  ghost predicate IsPath(trace: seq<HoldStatus>) {
    forall i :: 0 < i < |trace| ==> trace[i] in Allowed(trace[i - 1])
  }

  lemma {:induction false} TraceIsPath(r: Snapshot, calls: seq<Timed>)
    ensures IsPath(Trace(r, calls))
    ensures Trace(r, calls)[0] == r.status && Trace(r, calls)[|Trace(r, calls)| - 1] == RunCalls(r, calls).status
  {
    if calls != [] {
      TraceIsPath(r, calls[..|calls| - 1]);
      var before, last := RunCalls(r, calls[..|calls| - 1]), calls[|calls| - 1];
      var after := AfterCall(before, last.call, last.now);
      assert after.status != before.status ==> after.status in Allowed(before.status);
    }
  }

  /** Nothing is provisioned without approval: each provisioning directly follows Held, Approved. */
  lemma ProvisioningWasApproved(r: Snapshot, calls: seq<Timed>, k: nat)
    requires r.status == Received && k < |Trace(r, calls)| && Trace(r, calls)[k] == Provisioning
    ensures k >= 3 && Trace(r, calls)[k - 1] == Approved && Trace(r, calls)[k - 2] == Held
  {
    TraceIsPath(r, calls);
    var trace := Trace(r, calls);
    assert trace[k] in Allowed(trace[k - 1]);
    assert trace[k - 1] in Allowed(trace[k - 2]);
  }

  /** How many steps are left at most before a terminal or failed state. */
  function Rank(status: HoldStatus): nat {
    match status
    case Received => 7
    case Normalized => 6
    case NormalizationFailed => 5
    case ValidationFailed => 5
    case Held => 4
    case Approved => 3
    case Provisioning => 2
    case Provisioned => 1
    case Completed => 0
    case Failed => 0
  }

  /** Failed to Held: the retry edge out of a state that is also listed as terminal. */
  function Resets(trace: seq<HoldStatus>): nat {
    if |trace| < 2 then 0
    else Resets(trace[..|trace| - 1]) + if trace[|trace| - 2] == Failed then 1 else 0
  }

  lemma {:induction false} PathIsBounded(trace: seq<HoldStatus>)
    requires IsPath(trace) && trace != []
    ensures |trace| - 1 + Rank(trace[|trace| - 1]) <= Rank(trace[0]) + 5 * Resets(trace)
  {
    if |trace| > 1 {
      PathIsBounded(trace[..|trace| - 1]);
      assert trace[|trace| - 1] in Allowed(trace[|trace| - 2]);
    }
  }

  /** A record with `r` resets makes at most 7 + 5r transitions, however many calls are made. */
  lemma RunsAreBounded(r: Snapshot, calls: seq<Timed>)
    requires r.status == Received
    ensures |Trace(r, calls)| - 1 <= 7 + 5 * Resets(Trace(r, calls))
  {
    TraceIsPath(r, calls);
    PathIsBounded(Trace(r, calls));
  }

  /** The longest path with `n` resets. */
  function LongestPath(n: nat): (trace: seq<HoldStatus>)
    ensures trace != []
  {
    if n == 0 then [Received, Normalized, ValidationFailed, Held, Approved, Provisioning, Provisioned, Failed]
    else LongestPath(n - 1) + [Held, Approved, Provisioning, Provisioned, Failed]
  }

  /** The bound is met. */
  lemma {:induction false} BoundIsMet(n: nat)
    ensures var trace := LongestPath(n);
      && IsPath(trace) && trace[0] == Received && trace[|trace| - 1] == Failed
      && Resets(trace) == n && |trace| - 1 == 7 + 5 * n
  {
    var trace := LongestPath(n);
    if n == 0 {
      NoResets(trace);
    } else {
      BoundIsMet(n - 1);
      var before, lap := LongestPath(n - 1), [Held, Approved, Provisioning, Provisioned, Failed];
      assert trace == before + lap;
      OneLap(before);
    }
  }

  lemma {:induction false} NoResets(trace: seq<HoldStatus>)
    requires forall i :: 0 <= i < |trace| - 1 ==> trace[i] != Failed
    ensures Resets(trace) == 0
  {
    if |trace| >= 2 {
      NoResets(trace[..|trace| - 1]);
    }
  }

  lemma OneLap(before: seq<HoldStatus>)
    requires before != [] && before[|before| - 1] == Failed
    ensures Resets(before + [Held, Approved, Provisioning, Provisioned, Failed]) == Resets(before) + 1
  {
    var a := before + [Held];
    var b := a + [Approved];
    var c := b + [Provisioning];
    var d := c + [Provisioned];
    var e := d + [Failed];
    assert a[..|a| - 1] == before && b[..|b| - 1] == a && c[..|c| - 1] == b && d[..|d| - 1] == c && e[..|e| - 1] == d;
    assert Resets(a) == Resets(before) + 1 && Resets(b) == Resets(a);
    assert Resets(c) == Resets(b) && Resets(d) == Resets(c);
    assert e == before + [Held, Approved, Provisioning, Provisioned, Failed];
  }

  // Overrides.

  /** The i-th call is an operator's approval and finds the record Held. */
  predicate ApprovesHeld(r: Snapshot, calls: seq<Timed>, i: nat)
    requires i < |calls|
  {
    calls[i].call.DoApprove? && RunCalls(r, calls[..i]).status == Held
  }

  /** Exactly when a record carries the override flag: once approved by an operator, for good. */
  lemma {:induction false} OverriddenIff(r: Snapshot, calls: seq<Timed>)
    ensures RunCalls(r, calls).overridden <==>
      r.overridden || exists i :: 0 <= i < |calls| && ApprovesHeld(r, calls, i)
  {
    if calls != [] {
      var n := |calls| - 1;
      OverriddenIff(r, calls[..n]);
      forall i | 0 <= i < n ensures ApprovesHeld(r, calls[..n], i) <==> ApprovesHeld(r, calls, i) {
        assert calls[..n][..i] == calls[..i];
      }
      assert RunCalls(r, calls).overridden <==> RunCalls(r, calls[..n]).overridden || ApprovesHeld(r, calls, n);
    }
  }

  /** A record approved by an operator, failed, reset, and then approved by a bare transition. */
  function SecondApprovalBare(note: Option<string>, now: Instant): seq<Timed> {
    [Timed(DoApprove(note), now), Timed(DoTransition(Provisioning), now), Timed(DoTransition(Failed), now),
     Timed(DoTransition(Held), now), Timed(DoTransition(Approved), now)]
  }

  /** The flag goes stale: after a reset a bare transition is covered by the approval of the earlier round. */
  lemma StaleFlagCoversABareApproval(r: Snapshot, note: Option<string>, now: Instant)
    requires r.status == Held
    ensures var after := RunCalls(r, SecondApprovalBare(note, now));
      after.status == Approved && after.overridden && after.note == note
  {
    var c := SecondApprovalBare(note, now);
    forall i | 1 <= i <= 5
      ensures RunCalls(r, c[..i]) == AfterCall(RunCalls(r, c[..i - 1]), c[i - 1].call, now)
    {
      assert c[..i][..i - 1] == c[..i - 1];
    }
    assert c[..0] == [] && c[..5] == c;
    assert RunCalls(r, c[..1]).status == Approved;
    assert RunCalls(r, c[..2]).status == Provisioning;
    assert RunCalls(r, c[..3]).status == Failed;
    assert RunCalls(r, c[..4]).status == Held;
  }

  /** Every approval of the calls went through `approve`, not through a bare transition. */
  ghost predicate ApprovedByOperator(calls: seq<Timed>) {
    forall i :: 0 <= i < |calls| ==> calls[i].call != DoTransition(Approved)
  }

  predicate Released(status: HoldStatus) {
    status.Approved? || status.Provisioning? || status.Provisioned? || status.Completed?
  }

  /** Then anything past approval carries the override flag. */
  lemma {:induction false} ApprovalsAreFlagged(r: Snapshot, calls: seq<Timed>)
    requires r.status == Received && ApprovedByOperator(calls)
    ensures Released(RunCalls(r, calls).status) ==> RunCalls(r, calls).overridden
  {
    if calls != [] {
      ApprovalsAreFlagged(r, calls[..|calls| - 1]);
      OneCallFlags(RunCalls(r, calls[..|calls| - 1]), calls[|calls| - 1]);
    }
  }

  lemma OneCallFlags(before: Snapshot, last: Timed)
    requires (Released(before.status) ==> before.overridden) && last.call != DoTransition(Approved)
    ensures var after := AfterCall(before, last.call, last.now); Released(after.status) ==> after.overridden
  {
    match last.call
    case DoTransition(status) =>
      assert status in Allowed(before.status) && Released(status) ==> Released(before.status);
    case _ =>
  }

  /** A bare transition is accepted too, and then provisioning goes ahead unflagged. */
  lemma ApprovalCanGoUnflagged(r: Snapshot, now: Instant)
    requires r.status == Held && !r.overridden
    ensures var after := RunCalls(r, [Timed(DoTransition(Approved), now), Timed(DoTransition(Provisioning), now)]);
      after.status == Provisioning && !after.overridden
  {
    var calls := [Timed(DoTransition(Approved), now), Timed(DoTransition(Provisioning), now)];
    assert calls[..1] == [Timed(DoTransition(Approved), now)] && calls[..1][..0] == [];
    assert RunCalls(r, calls[..1]) == Moved(r, Approved, now);
  }

  // What the transitions allow.

  /** The statuses a record can have been in right before it comes to this one. */
  function Before(status: HoldStatus): set<HoldStatus> {
    match status
    case Received => {}
    case Normalized => {Received}
    case NormalizationFailed => {Received}
    case ValidationFailed => {Normalized}
    case Held => {Normalized, NormalizationFailed, ValidationFailed, Failed}
    case Approved => {Held}
    case Provisioning => {Approved}
    case Provisioned => {Provisioning}
    case Completed => {Provisioned}
    case Failed => {Held, Provisioning, Provisioned}
  }

  /** Read backwards the transitions say where a record comes from: nothing else leads anywhere. */
  lemma AllowedIff(from: HoldStatus, to: HoldStatus)
    ensures to in Allowed(from) <==> from in Before(to)
  {
  }

  /** Everything ends well if it may: only a completed record is stuck, and every other one can still be completed. */
  lemma CompletedIsTheOnlyEnd(status: HoldStatus) returns (path: seq<HoldStatus>)
    ensures Allowed(status) == {} <==> status == Completed
    ensures path != [] && path[0] == status && path[|path| - 1] == Completed && IsPath(path) && |path| <= 7
  {
    var done := [Held, Approved, Provisioning, Provisioned, Completed];
    match status {
      case Received => path := [Received, Normalized] + done;
      case Normalized => path := [Normalized] + done;
      case NormalizationFailed => path := [NormalizationFailed] + done;
      case ValidationFailed => path := [ValidationFailed] + done;
      case Held => path := done;
      case Approved => path := done[1..];
      case Provisioning => path := done[2..];
      case Provisioned => path := done[3..];
      case Completed => path := done[4..];
      case Failed => path := [Failed] + done;
    }
  }

  /** Where a record is stored, and that a time it does not have is stored as no time. */
  lemma StoredUnder(r: Snapshot)
    ensures ToEntity(r).partitionKey == r.employee && ToEntity(r).rowKey == r.id
    ensures ToEntity(r).lastAttempt == NoTime <==> r.lastAttempt.None?
  {
  }

  /**
   * What a call does to a record, field by field: a rejected one nothing; an accepted one
   * stamps it, and besides only moves it, flags and notes an approval, or counts an attempt.
   */
  lemma CallIs(r: Snapshot, call: Call, now: Instant, up: bool)
    ensures var result, after := ResultOf(r, call, up), AfterCall(r, call, now);
      && (result == Rejected <==> match call
            case DoTransition(status) => r.status !in Before(status)
            case DoApprove(_) => r.status != Held
            case DoAttempt => false)
      && (result == Rejected ==> after == r)
      && (result != Rejected ==>
            && (result == Done <==> up) && after.lastUpdated == now
            && after.status == (match call
                 case DoTransition(status) => status
                 case DoApprove(_) => Approved
                 case DoAttempt => r.status)
            && after.overridden == (r.overridden || call.DoApprove?)
            && after.note == (if call.DoApprove? then call.note else r.note)
            && after.retries == r.retries + (if call.DoAttempt? then 1 else 0)
            && after.lastAttempt == (if call.DoAttempt? then Some(now) else r.lastAttempt))
      && after.id == r.id && after.employee == r.employee && after.upn == r.upn
      && after.reasons == r.reasons && after.payload == r.payload
  {
    match call
    case DoTransition(status) => AllowedIff(r.status, status);
    case _ =>
  }
}
