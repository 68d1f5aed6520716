/**
 * A whole Leaver run, as the two drivers do it: the synchronous pipeline
 * (`run_leaver_pipeline`) and the durable orchestration with its deferred delete.
 */
module LeaverRun {
  import opened Collections
  import opened Tenant
  import opened Phases
  import opened PollLoops
  import opened Drivers
  import opened Verifier
  import ES = EventStore
  import CQ = ConflictQueue

  /** `hold` is the configured soft-delete hold in seconds; 0 deletes at once. */
  datatype Setting = Setting(
    employee: ES.Employee, event: ES.EventId, holder: string,
    claimAt: ES.Instant, conflictAt: ES.Instant, lockAt: ES.Instant,
    concurrent: bool, hold: nat, window: Window, order: set<Package> -> seq<Package>)

  datatype Final = QueuedConcurrent | Offboarded | OffboardedPartly | OffboardFailed

  /** A returned run reports its status and what its audit record lists as removed and failed. */
  datatype End = Raised | Returned(final: Final, removed: seq<Package>, failed: seq<Package>)

  datatype Outcome = Outcome(world: World, end: End)

  // Up to the lock-out.

  datatype Prepared = Exited(final: Final) | Ready(user: UserId, packages: set<Package>, policies: map<Package, string>)

  datatype PreStep = PreStep(world: World, prepared: Prepared)

  function FailEarly(w: World, event: ES.EventId, step: string): PreStep {
    PreStep(World(w.log, ES.Mark(w.rows, event, ES.Failed, step)), Exited(OffboardFailed))
  }

  /** Disable, then revoke; a failure of either is only reported. */
  function LockOut(oracle: Oracle, log: Log, user: UserId): Log {
    Ask(oracle, Ask(oracle, log, DisableUser(user)), RevokeSessions(user))
  }

  function FetchPackages(oracle: Oracle, s: Setting, w: World, user: UserId): PreStep {
    var fetched := Ask(oracle, w.log, GetAssignments);
    match Heard(oracle, w.log, GetAssignments)
    case Assignments(all) =>
      PreStep(World(LockOut(oracle, fetched, user), ES.Acquire(w.rows, s.event, s.holder, s.lockAt)),
              Ready(user, Fetched(all), CurrentPolicies(all)))
    case _ => FailEarly(World(fetched, w.rows), s.event, "PackageFetch")
  }

  function FetchAndLockOut(oracle: Oracle, s: Setting, w: World): PreStep {
    var asked := Ask(oracle, w.log, GetUser);
    match Heard(oracle, w.log, GetUser)
    case User(user, _) => FetchPackages(oracle, s, World(asked, w.rows), user)
    case _ => FailEarly(World(asked, w.rows), s.event, "UserFetch")
  }

  /** Claim, supersede what is pending, guard against another Leaver, then fetch and lock out. */
  function Prepare(oracle: Oracle, s: Setting, w: World): PreStep {
    if !ES.Claimable(ES.Find(w.rows, s.event), s.claimAt) then PreStep(w, Exited(QueuedConcurrent))
    else
      var claimed := ES.Claim(w.rows, s.event, ES.Leaver, s.claimAt);
      var cleared := CQ.AfterConflict(claimed, s.event, ES.Leaver, s.conflictAt);
      if s.concurrent then PreStep(World(w.log, cleared), Exited(QueuedConcurrent))
      else FetchAndLockOut(oracle, s, World(w.log, cleared))
  }

  // After the removals.

  /** The packages whose action has the given outcome, in order. */
  function With(actions: seq<Action>, succeeded: bool): seq<Package> {
    if actions == [] then []
    else
      var rest, last := With(actions[..|actions| - 1], succeeded), actions[|actions| - 1];
      if last.succeeded == succeeded then rest + [last.package] else rest
  }

  function CancelAll(oracle: Oracle, log: Log, user: UserId, groups: seq<string>): Log {
    if groups == [] then log
    else
      var rest, last := CancelAll(oracle, log, user, groups[..|groups| - 1]), groups[|groups| - 1];
      if last == "" then rest else Ask(oracle, rest, CancelPimSession(user, last))
  }

  function TerminatePim(oracle: Oracle, log: Log, user: UserId): Log {
    var asked := Ask(oracle, log, GetPimSessions(user));
    match Heard(oracle, log, GetPimSessions(user))
    case Sessions(groups) => CancelAll(oracle, asked, user, groups)
    case _ => asked
  }

  /** Whether the account was deleted now; a hold leaves it for later. */
  function SoftDelete(oracle: Oracle, log: Log, user: UserId, hold: nat): Step<bool> {
    if hold > 0 then Step(log, false)
    else Step(Ask(oracle, log, DeleteUser(user)), !Heard(oracle, log, DeleteUser(user)).GraphError?)
  }

  /** The account check of the verification: Some(confirmed), None when the re-fetch failed. */
  function CheckAccount(oracle: Oracle, log: Log, deleted: bool): Step<Option<bool>> {
    var current := Heard(oracle, log, GetUser);
    Step(Ask(oracle, log, GetUser),
         if deleted then Some(!current.User?)
         else if current.User? then Some(current.enabled == Some(false))
         else None)
  }

  function Judged(check: Option<bool>, deleted: bool, failed: seq<Package>): Final {
    if check.None? then OffboardFailed
    else if failed == [] && (check.value || deleted) then Offboarded
    else OffboardedPartly
  }

  function Closed(rows: ES.Partition, event: ES.EventId, final: Final): ES.Partition {
    ES.Mark(ES.Release(rows, event), event,
            if final == Offboarded then ES.Completed else ES.Failed,
            if final == OffboardedPartly then "PostOffboardVerification" else "")
  }

  /** PIM, soft delete, verification, final status: the last activity before any deferral. */
  function Conclude(oracle: Oracle, s: Setting, rows: ES.Partition, user: UserId,
                    removal: Step<Option<seq<Action>>>): Outcome {
    match removal.value
    case None => Outcome(World(removal.log, rows), Raised)
    case Some(actions) =>
      var failed := With(actions, false);
      var terminated := TerminatePim(oracle, removal.log, user);
      var deletion := SoftDelete(oracle, terminated, user, s.hold);
      var check := CheckAccount(oracle, deletion.log, deletion.value);
      var final := Judged(check.value, deletion.value, failed);
      Outcome(World(check.log, Closed(rows, s.event, final)), Returned(final, With(actions, true), failed))
  }

  /** `deferred_delete`: re-check by name, then delete by id; the result replaces the status. */
  function DeferredDelete(oracle: Oracle, log: Log, user: UserId): Step<Final> {
    var checked := Ask(oracle, log, GetUser);
    match Heard(oracle, log, GetUser)
    case User(_, enabled) =>
      if enabled != Some(false) then Step(checked, Offboarded)
      else
        Step(Ask(oracle, checked, DeleteUser(user)),
             if Heard(oracle, checked, DeleteUser(user)).GraphError? then OffboardedPartly else Offboarded)
    case _ => Step(checked, Offboarded)
  }

  /** The orchestrator's tail: sleep the hold out, then the deferred delete. */
  function Deferred(oracle: Oracle, s: Setting, user: UserId, done: Outcome): Outcome {
    if s.hold == 0 || done.end.Raised? then done
    else
      var late := DeferredDelete(oracle, done.world.log + [Waited(s.hold)], user);
      Outcome(World(late.log, done.world.rows), done.end.(final := late.value))
  }

  /** The removals of a run that got past its lock-out. */
  function Removal(driver: Driver, oracle: Oracle, s: Setting, log: Log, r: Prepared): Step<Option<seq<Action>>>
    requires r.Ready?
  {
    Operate(driver, oracle, log, s.order(r.packages), r.policies, AdminRemove, s.window)
  }

  function Run(driver: Driver, oracle: Oracle, s: Setting, w: World): Outcome {
    var pre := Prepare(oracle, s, w);
    match pre.prepared
    case Exited(final) => Outcome(pre.world, Returned(final, [], []))
    case Ready(user, _, _) =>
      var done := Conclude(oracle, s, pre.world.rows, user, Removal(driver, oracle, s, pre.world.log, pre.prepared));
      if driver == Durable then Deferred(oracle, s, user, done) else done
  }

  /**
   * A run in its parts: how it was prepared, the removals if it got there, the state
   * after the verification, and the end, which a deferral may put off further.
   */
  datatype Trace = Trace(pre: PreStep, removal: Step<Option<seq<Action>>>, verified: Outcome, run: Outcome)

  /** `t` is the run from `w` in this setting. */
  ghost predicate IsRun(driver: Driver, oracle: Oracle, s: Setting, w: World, t: Trace) {
    forall v :: Same(v, w) ==>
      && Prepare(oracle, s, v) == t.pre
      && Run(Synchronous, oracle, s, v) == t.verified
      && Run(driver, oracle, s, v) == t.run
      && (t.pre.prepared.Ready? ==> Removal(Synchronous, oracle, s, t.pre.world.log, t.pre.prepared) == t.removal)
  }

  lemma Unfold(driver: Driver, oracle: Oracle, s: Setting, w: World, t: Trace)
    requires IsRun(driver, oracle, s, w, t)
    ensures Prepare(oracle, s, w) == t.pre
    ensures Run(Synchronous, oracle, s, w) == t.verified && Run(driver, oracle, s, w) == t.run
    ensures t.pre.prepared.Ready? ==> (
      && Removal(Synchronous, oracle, s, t.pre.world.log, t.pre.prepared) == t.removal
      && Conclude(oracle, s, t.pre.world.rows, t.pre.prepared.user, t.removal) == t.verified)
  {
    assert Same(w, w);
  }

  function TraceOf(driver: Driver, oracle: Oracle, s: Setting, w: World): (t: Trace)
    ensures IsRun(driver, oracle, s, w, t)
  {
    var pre := Prepare(oracle, s, w);
    Trace(pre,
          if pre.prepared.Ready? then Removal(Synchronous, oracle, s, pre.world.log, pre.prepared) else Step([], None),
          Run(Synchronous, oracle, s, w), Run(driver, oracle, s, w))
  }

  // The imperative stages and drivers.

  method PrepareLeaver(s: Setting, table: ES.EventTable, graph: GraphClient) returns (prepared: Prepared)
    requires ES.Sorted(table.Rows(s.employee))
    modifies table, graph`log
    ensures PreStep(World(graph.log, table.Rows(s.employee)), prepared) ==
      Prepare(graph.oracle, s, old(World(graph.log, table.Rows(s.employee))))
    ensures forall other :: other != s.employee ==> table.Rows(other) == old(table.Rows(other))
  {
    ghost var rows := table.Rows(s.employee);
    var claimed := table.ClaimEvent(s.employee, s.event, ES.Leaver, s.claimAt);
    if !claimed {
      return Exited(QueuedConcurrent);
    }
    ClaimKeepsOrder(rows, s.event, s.claimAt);
    var _ := CQ.CheckAndHandleConflict(table, s.employee, s.event, ES.Leaver, s.conflictAt);
    if s.concurrent {
      return Exited(QueuedConcurrent);
    }
    prepared := FetchThenLockOut(s, table, graph);
  }

  lemma ClaimKeepsOrder(rows: ES.Partition, event: ES.EventId, now: ES.Instant)
    requires ES.Sorted(rows)
    ensures ES.Sorted(ES.Claim(rows, event, ES.Leaver, now))
  {
    if ES.Find(rows, event).None? {
      ES.InsertSorted(rows, ES.NewRow(event, ES.Leaver));
    }
  }

  method FetchThenLockOut(s: Setting, table: ES.EventTable, graph: GraphClient) returns (prepared: Prepared)
    modifies table, graph`log
    ensures PreStep(World(graph.log, table.Rows(s.employee)), prepared) ==
      FetchAndLockOut(graph.oracle, s, old(World(graph.log, table.Rows(s.employee))))
    ensures forall other :: other != s.employee ==> table.Rows(other) == old(table.Rows(other))
  {
    var current := graph.Send(GetUser);
    if !current.User? {
      var _ := table.UpdateEventStatus(s.employee, s.event, ES.Failed, "UserFetch");
      return Exited(OffboardFailed);
    }
    var fetched := graph.Send(GetAssignments);
    if !fetched.Assignments? {
      var _ := table.UpdateEventStatus(s.employee, s.event, ES.Failed, "PackageFetch");
      return Exited(OffboardFailed);
    }
    var policies := BuildPolicyMap(fetched.all);
    var _ := table.AcquireLock(s.employee, s.event, s.holder, s.lockAt);
    var _ := graph.Send(DisableUser(current.id));
    var _ := graph.Send(RevokeSessions(current.id));
    return Ready(current.id, Fetched(fetched.all), policies);
  }

  method StagePimTerminate(graph: GraphClient, user: UserId)
    modifies graph`log
    ensures graph.log == TerminatePim(graph.oracle, old(graph.log), user)
  {
    var sessions := graph.Send(GetPimSessions(user));
    if !sessions.Sessions? {
      return;
    }
    ghost var asked := graph.log;
    for i := 0 to |sessions.groups|
      invariant graph.log == CancelAll(graph.oracle, asked, user, sessions.groups[..i])
    {
      TakeOneMore(sessions.groups, i);
      if sessions.groups[i] == "" {
        continue;
      }
      var _ := graph.Send(CancelPimSession(user, sessions.groups[i]));
    }
    TakeAll(sessions.groups);
  }

  method StageSoftDelete(graph: GraphClient, user: UserId, hold: nat) returns (deleted: bool)
    modifies graph`log
    ensures Step(graph.log, deleted) == SoftDelete(graph.oracle, old(graph.log), user, hold)
  {
    if hold > 0 {
      return false;
    }
    var answer := graph.Send(DeleteUser(user));
    return !answer.GraphError?;
  }

  method StageVerify(graph: GraphClient, deleted: bool) returns (confirmed: Option<bool>)
    modifies graph`log
    ensures Step(graph.log, confirmed) == CheckAccount(graph.oracle, old(graph.log), deleted)
  {
    var current := graph.Send(GetUser);
    if deleted {
      return Some(!current.User?);
    }
    if !current.User? {
      return None;
    }
    return Some(current.enabled == Some(false));
  }

  method SplitActions(actions: seq<Action>) returns (removed: seq<Package>, failed: seq<Package>)
    ensures removed == With(actions, true) && failed == With(actions, false)
  {
    removed, failed := [], [];
    for i := 0 to |actions|
      invariant removed == With(actions[..i], true) && failed == With(actions[..i], false)
    {
      TakeOneMore(actions, i);
      if actions[i].succeeded {
        removed := removed + [actions[i].package];
      } else {
        failed := failed + [actions[i].package];
      }
    }
    TakeAll(actions);
  }

  method VerifyFinalize(s: Setting, table: ES.EventTable, graph: GraphClient, user: UserId,
      actions: seq<Action>) returns (end: End)
    modifies table, graph`log
    ensures Outcome(World(graph.log, table.Rows(s.employee)), end) ==
      Conclude(graph.oracle, s, old(table.Rows(s.employee)), user, Step(old(graph.log), Some(actions)))
    ensures forall other :: other != s.employee ==> table.Rows(other) == old(table.Rows(other))
  {
    var removed, failed := SplitActions(actions);
    StagePimTerminate(graph, user);
    var deleted := StageSoftDelete(graph, user, s.hold);
    var confirmed := StageVerify(graph, deleted);
    var final;
    if confirmed.None? {
      final := OffboardFailed;
    } else if failed == [] && (confirmed.value || deleted) {
      final := Offboarded;
    } else {
      final := OffboardedPartly;
    }
    var _ := table.ReleaseLock(s.employee, s.event);
    var _ := table.UpdateEventStatus(s.employee, s.event,
      if final == Offboarded then ES.Completed else ES.Failed,
      if final == OffboardedPartly then "PostOffboardVerification" else "");
    return Returned(final, removed, failed);
  }

  /** The synchronous driver. */
  method RunLeaverPipeline(s: Setting, table: ES.EventTable, graph: GraphClient) returns (end: End)
    requires ES.Sorted(table.Rows(s.employee))
    modifies table, graph`log
    ensures Outcome(World(graph.log, table.Rows(s.employee)), end) ==
      Run(Synchronous, graph.oracle, s, old(World(graph.log, table.Rows(s.employee))))
    ensures forall other :: other != s.employee ==> table.Rows(other) == old(table.Rows(other))
  {
    var prepared := PrepareLeaver(s, table, graph);
    if prepared.Exited? {
      return Returned(prepared.final, [], []);
    }
    var actions := SyncRemovals(graph, s.order(prepared.packages), prepared.policies, s.window);
    if actions.None? {
      return Raised;
    }
    end := VerifyFinalize(s, table, graph, prepared.user, actions.value);
  }

  method DeferredDeleteActivity(graph: GraphClient, user: UserId) returns (final: Final)
    modifies graph`log
    ensures Step(graph.log, final) == DeferredDelete(graph.oracle, old(graph.log), user)
  {
    var current := graph.Send(GetUser);
    if !current.User? {
      return Offboarded;
    }
    if current.enabled != Some(false) {
      return Offboarded;
    }
    var answer := graph.Send(DeleteUser(user));
    return if answer.GraphError? then OffboardedPartly else Offboarded;
  }

  /** `orchestrator_function`. */
  method OrchestrateLeave(s: Setting, table: ES.EventTable, graph: GraphClient) returns (end: End)
    requires ES.Sorted(table.Rows(s.employee))
    modifies table, graph`log
    ensures Outcome(World(graph.log, table.Rows(s.employee)), end) ==
      Run(Durable, graph.oracle, s, old(World(graph.log, table.Rows(s.employee))))
    ensures forall other :: other != s.employee ==> table.Rows(other) == old(table.Rows(other))
  {
    var prepared := PrepareLeaver(s, table, graph);
    if prepared.Exited? {
      return Returned(prepared.final, [], []);
    }
    var actions := DurableTriad(graph, AdminRemove, s.order(prepared.packages), prepared.policies, s.window);
    if actions.None? {
      return Raised;
    }
    end := VerifyFinalize(s, table, graph, prepared.user, actions.value);
    if s.hold > 0 {
      graph.Wait(s.hold);
      var final := DeferredDeleteActivity(graph, prepared.user);
      end := end.(final := final);
    }
  }
}
