/**
 * A whole Mover run, as the two drivers do it: the synchronous pipeline
 * (`run_mover_pipeline`) and the durable orchestration over JSON activities.
 */
module MoverRun {
  import opened Collections
  import opened Tenant
  import opened Phases
  import opened PollLoops
  import opened PhaseProperties
  import opened Drivers
  import opened Resolver
  import opened Planning
  import opened Verifier
  import ES = EventStore

  /**
   * What one run is given: its event, the payload, the configuration, and what clocks
   * and other services answer.  `order` is the iteration order of a frozenset,
   * `sorted` that of a sorted list; `patch` tells whether any attribute is to change.
   */
  datatype Setting = Setting(
    employee: ES.Employee, event: ES.EventId, holder: string, claimAt: ES.Instant, lockAt: ES.Instant,
    who: Identity, rules: Option<seq<Rule>>, hasManager: bool,
    registry: map<Package, Date>, today: Date, concurrent: bool, patch: bool, window: Window,
    order: set<Package> -> seq<Package>, sorted: set<Package> -> seq<Package>)

  datatype Final = QueuedConcurrent | SodHeld | MoveSucceeded | MovedPartly | MoveFailed

  /** How a run ends: with a status and the audit record's actions, or by an exception. */
  datatype End = Raised | Returned(final: Final, actions: seq<Action>)

  datatype Outcome = Outcome(world: World, end: End)

  // Up to the plan.

  datatype Prepared =
    | Exited(final: Final)
    | Ready(plan: Plan, newPolicies: map<Package, string>, currentPolicies: map<Package, string>, reorder: bool)

  datatype PreStep = PreStep(world: World, prepared: Prepared)

  function FailEarly(w: World, event: ES.EventId, step: string, locked: bool): PreStep {
    var rows := if locked then ES.Release(w.rows, event) else w.rows;
    PreStep(World(w.log, ES.Mark(rows, event, ES.Failed, step)), Exited(MoveFailed))
  }

  /** Resolve, delta, retention and pre-flight, once the lock is held. */
  function PlanMove(oracle: Oracle, s: Setting, w: World, held: seq<Assignment>): PreStep {
    match s.rules
    case None => FailEarly(w, s.event, "MappingRulesLoad", true)
    case Some(rules) =>
      var grants := Resolve(rules, s.who);
      var asked := if s.hasManager then Ask(oracle, w.log, GetManager) else w.log;
      var plan := MakePlan(Fetched(held), PackagesOf(grants), Catalogue(rules), s.registry, s.today);
      var checked := RunPreflight(oracle, asked, s.sorted(plan.adds), plan.removes, plan.Keep());
      match checked.value
      case HeldForReview(_) =>
        PreStep(World(checked.log, ES.Mark(ES.Release(w.rows, s.event), s.event, ES.Failed, "PreFlightSoD")),
                Exited(SodHeld))
      case Proceed(reorder) =>
        PreStep(World(checked.log, w.rows), Ready(plan, PolicyMap(grants), CurrentPolicies(held), reorder))
  }

  /** Current state and lock, then the plan. */
  function FetchAndPlan(oracle: Oracle, s: Setting, w: World): PreStep {
    var asked := Ask(oracle, w.log, GetUser);
    if !Heard(oracle, w.log, GetUser).User? then FailEarly(World(asked, w.rows), s.event, "UserFetch", false)
    else
      var fetched := Ask(oracle, asked, GetAssignments);
      match Heard(oracle, asked, GetAssignments)
      case Assignments(all) =>
        PlanMove(oracle, s, World(fetched, ES.Acquire(w.rows, s.event, s.holder, s.lockAt)), all)
      case _ => FailEarly(World(fetched, w.rows), s.event, "AccessPackageAssignmentFetch", false)
  }

  /** Claim and concurrency guard first. */
  function Prepare(oracle: Oracle, s: Setting, w: World): PreStep {
    if !ES.Claimable(ES.Find(w.rows, s.event), s.claimAt) then PreStep(w, Exited(QueuedConcurrent))
    else
      var claimed := ES.Claim(w.rows, s.event, ES.Mover, s.claimAt);
      if s.concurrent then PreStep(World(w.log, claimed), Exited(QueuedConcurrent))
      else FetchAndPlan(oracle, s, World(w.log, claimed))
  }

  // Provisioning.

  /** `actions_taken` and `recently_removed`. */
  datatype Provisioned = Provisioned(actions: seq<Action>, removed: set<Package>)

  function Patched(oracle: Oracle, log: Log, patch: bool): Log {
    if patch then Ask(oracle, log, PatchUser) else log
  }

  /** Add, and only when every addition was delivered remove and patch. */
  function StrategyA(driver: Driver, oracle: Oracle, log: Log, r: Prepared, s: Setting): Step<Option<Provisioned>>
    requires r.Ready?
  {
    var added := Operate(driver, oracle, log, s.order(r.plan.adds), r.newPolicies, AdminAdd, s.window);
    if added.value.None? then Step(added.log, None)
    else if !AllSucceeded(added.value.value) then Step(added.log, Some(Provisioned(added.value.value, {})))
    else
      var removed :=
        Operate(driver, oracle, added.log, s.order(r.plan.removes), r.currentPolicies, AdminRemove, s.window);
      if removed.value.None? then Step(removed.log, None)
      else
        Step(Patched(oracle, removed.log, s.patch),
             Some(Provisioned(added.value.value + removed.value.value, Succeeded(removed.value.value))))
  }

  /** Remove, then add, ungated.  The drivers differ in when they patch. */
  function StrategyB(driver: Driver, oracle: Oracle, log: Log, r: Prepared, s: Setting): Step<Option<Provisioned>>
    requires r.Ready?
  {
    var removed := Operate(driver, oracle, log, s.order(r.plan.removes), r.currentPolicies, AdminRemove, s.window);
    if removed.value.None? then Step(removed.log, None)
    else
      var between := if driver == Durable then Patched(oracle, removed.log, s.patch) else removed.log;
      var added := Operate(driver, oracle, between, s.order(r.plan.adds), r.newPolicies, AdminAdd, s.window);
      if added.value.None? then Step(added.log, None)
      else
        Step(if driver == Synchronous then Patched(oracle, added.log, s.patch) else added.log,
             Some(Provisioned(removed.value.value + added.value.value, Succeeded(removed.value.value))))
  }

  function Provision(driver: Driver, oracle: Oracle, log: Log, r: Prepared, s: Setting): Step<Option<Provisioned>>
    requires r.Ready?
  {
    if r.reorder then StrategyB(driver, oracle, log, r, s) else StrategyA(driver, oracle, log, r, s)
  }

  // The end.

  function FinalOf(verdict: Verdict): Final {
    match verdict
    case VerificationError => MoveFailed
    case MovePartial => MovedPartly
    case MoveSuccess => MoveSucceeded
  }

  function Closed(rows: ES.Partition, event: ES.EventId, final: Final): ES.Partition {
    ES.Mark(ES.Release(rows, event), event,
            if final == MoveSucceeded then ES.Completed else ES.Failed,
            if final == MovedPartly then "PostMoveVerification" else "")
  }

  function Conclude(oracle: Oracle, s: Setting, rows: ES.Partition, plan: Plan, p: Step<Option<Provisioned>>): Outcome {
    match p.value
    case None => Outcome(World(p.log, rows), Raised)
    case Some(done) =>
      var verified := Verify(oracle, p.log, plan.unaltered + plan.retained + plan.adds, plan.unmanaged + done.removed);
      var final := FinalOf(verified.value);
      Outcome(World(verified.log, Closed(rows, s.event, final)), Returned(final, done.actions))
  }

  function Run(driver: Driver, oracle: Oracle, s: Setting, w: World): Outcome {
    var pre := Prepare(oracle, s, w);
    match pre.prepared
    case Exited(final) => Outcome(pre.world, Returned(final, []))
    case Ready(plan, _, _, _) =>
      Conclude(oracle, s, pre.world.rows, plan, Provision(driver, oracle, pre.world.log, pre.prepared, s))
  }

  /** A run in its parts: how it was prepared, what provisioning did if it got there, how it ended. */
  datatype Trace = Trace(pre: PreStep, done: Step<Option<Provisioned>>, run: Outcome)

  /** `t` is the run from `w` in this setting. */
  ghost predicate IsRun(driver: Driver, oracle: Oracle, s: Setting, w: World, t: Trace) {
    forall v :: Same(v, w) ==>
      && Prepare(oracle, s, v) == t.pre
      && Run(driver, oracle, s, v) == t.run
      && (t.pre.prepared.Ready? ==> Provision(driver, oracle, t.pre.world.log, t.pre.prepared, s) == t.done)
  }

  lemma Unfold(driver: Driver, oracle: Oracle, s: Setting, w: World, t: Trace)
    requires IsRun(driver, oracle, s, w, t)
    ensures Prepare(oracle, s, w) == t.pre && Run(driver, oracle, s, w) == t.run
    ensures t.pre.prepared.Ready? ==> Provision(driver, oracle, t.pre.world.log, t.pre.prepared, s) == t.done
  {
    assert Same(w, w);
  }

  function TraceOf(driver: Driver, oracle: Oracle, s: Setting, w: World): (t: Trace)
    ensures IsRun(driver, oracle, s, w, t)
  {
    var pre := Prepare(oracle, s, w);
    Trace(pre,
          if pre.prepared.Ready? then Provision(driver, oracle, pre.world.log, pre.prepared, s) else Step([], None),
          Run(driver, oracle, s, w))
  }

  // The imperative drivers.

  /** The early-failure path: unlock if locked, mark the event Failed. */
  method HandleEarlyFailure(s: Setting, table: ES.EventTable, step: string, locked: bool,
      ghost log: Log) returns (prepared: Prepared)
    modifies table
    ensures PreStep(World(log, table.Rows(s.employee)), prepared) ==
      FailEarly(World(log, old(table.Rows(s.employee))), s.event, step, locked)
    ensures forall other :: other != s.employee ==> table.Rows(other) == old(table.Rows(other))
  {
    if locked {
      var _ := table.ReleaseLock(s.employee, s.event);
    }
    var _ := table.UpdateEventStatus(s.employee, s.event, ES.Failed, step);
    return Exited(MoveFailed);
  }

  /** Everything without a wait: from the claim to the pre-flight verdict. */
  method PrepareMove(s: Setting, table: ES.EventTable, graph: GraphClient) returns (prepared: Prepared)
    requires Iterates(s.order) && Iterates(s.sorted)
    modifies table, graph`log
    ensures PreStep(World(graph.log, table.Rows(s.employee)), prepared) ==
      Prepare(graph.oracle, s, old(World(graph.log, table.Rows(s.employee))))
    ensures forall other :: other != s.employee ==> table.Rows(other) == old(table.Rows(other))
  {
    var claimed := table.ClaimEvent(s.employee, s.event, ES.Mover, s.claimAt);
    if !claimed || s.concurrent {
      return Exited(QueuedConcurrent);
    }
    prepared := FetchThenPlan(s, table, graph);
  }

  method FetchThenPlan(s: Setting, table: ES.EventTable, graph: GraphClient) returns (prepared: Prepared)
    requires Iterates(s.order) && Iterates(s.sorted)
    modifies table, graph`log
    ensures PreStep(World(graph.log, table.Rows(s.employee)), prepared) ==
      FetchAndPlan(graph.oracle, s, old(World(graph.log, table.Rows(s.employee))))
    ensures forall other :: other != s.employee ==> table.Rows(other) == old(table.Rows(other))
  {
    var user := graph.Send(GetUser);
    if !user.User? {
      prepared := HandleEarlyFailure(s, table, "UserFetch", false, graph.log);
      return;
    }
    var fetched := graph.Send(GetAssignments);
    if !fetched.Assignments? {
      prepared := HandleEarlyFailure(s, table, "AccessPackageAssignmentFetch", false, graph.log);
      return;
    }
    var _ := table.AcquireLock(s.employee, s.event, s.holder, s.lockAt);
    prepared := ResolveAndPlan(s, table, graph, fetched.all);
  }

  method ResolveAndPlan(s: Setting, table: ES.EventTable, graph: GraphClient, held: seq<Assignment>)
    returns (prepared: Prepared)
    requires Iterates(s.order) && Iterates(s.sorted)
    modifies table, graph`log
    ensures PreStep(World(graph.log, table.Rows(s.employee)), prepared) ==
      PlanMove(graph.oracle, s, old(World(graph.log, table.Rows(s.employee))), held)
    ensures forall other :: other != s.employee ==> table.Rows(other) == old(table.Rows(other))
  {
    if s.rules.None? {
      prepared := HandleEarlyFailure(s, table, "MappingRulesLoad", true, graph.log);
      return;
    }
    var currentPolicies := BuildPolicyMap(held);
    var grants := ResolveEntitlements(s.rules.value, s.who);
    if s.hasManager {
      var _ := graph.Send(GetManager);
    }
    var delta := CalculateDelta(Fetched(held), PackagesOf(grants), Catalogue(s.rules.value));
    var removes, retained, _ := EvaluateAllRetentions(s.order(delta.removes), s.registry, s.today);
    var keep := delta.unaltered + retained + delta.unmanaged;
    var verdict := StagePreflightSod(graph, s.sorted(delta.adds), removes, keep);
    match verdict
    case HeldForReview(_) =>
      var _ := table.ReleaseLock(s.employee, s.event);
      var _ := table.UpdateEventStatus(s.employee, s.event, ES.Failed, "PreFlightSoD");
      return Exited(SodHeld);
    case Proceed(reorder) =>
      return Ready(Plan(delta.adds, removes, delta.unaltered, retained, delta.unmanaged), PolicyMap(grants),
                   currentPolicies, reorder);
  }

  method ApplyAttributeUpdate(graph: GraphClient, patch: bool)
    modifies graph`log
    ensures graph.log == Patched(graph.oracle, old(graph.log), patch)
  {
    if patch {
      var _ := graph.Send(PatchUser);
    }
  }

  method SyncProvision(s: Setting, graph: GraphClient, r: Prepared) returns (done: Option<Provisioned>)
    requires r.Ready?
    modifies graph`log
    ensures Step(graph.log, done) == Provision(Synchronous, graph.oracle, old(graph.log), r, s)
  {
    if r.reorder {
      var removed := SyncRemovals(graph, s.order(r.plan.removes), r.currentPolicies, s.window);
      if removed.None? {
        return None;
      }
      var added := SyncAdditions(graph, s.order(r.plan.adds), r.newPolicies, s.window);
      if added.AdditionsRaised? {
        return None;
      }
      ApplyAttributeUpdate(graph, s.patch);
      return Some(Provisioned(removed.value + added.actions, Succeeded(removed.value)));
    }
    var added := SyncAdditions(graph, s.order(r.plan.adds), r.newPolicies, s.window);
    if added.AdditionsRaised? {
      return None;
    }
    if !added.allSucceeded {
      return Some(Provisioned(added.actions, {}));
    }
    var removed := SyncRemovals(graph, s.order(r.plan.removes), r.currentPolicies, s.window);
    if removed.None? {
      return None;
    }
    ApplyAttributeUpdate(graph, s.patch);
    return Some(Provisioned(added.actions + removed.value, Succeeded(removed.value)));
  }

  /** Verification, audit, unlock, final status: the tail of both drivers. */
  method VerifyFinalize(s: Setting, table: ES.EventTable, graph: GraphClient, plan: Plan, done: Provisioned)
    returns (end: End)
    requires Iterates(s.order)
    modifies table, graph`log
    ensures Outcome(World(graph.log, table.Rows(s.employee)), end) ==
      Conclude(graph.oracle, s, old(table.Rows(s.employee)), plan, Step(old(graph.log), Some(done)))
    ensures forall other :: other != s.employee ==> table.Rows(other) == old(table.Rows(other))
  {
    var verdict := VerifyPostMoveState(graph, plan.unaltered, plan.retained, plan.adds, plan.unmanaged, done.removed,
                                       s.order);
    var final := FinalOf(verdict);
    var _ := table.ReleaseLock(s.employee, s.event);
    var _ := table.UpdateEventStatus(s.employee, s.event,
      if final == MoveSucceeded then ES.Completed else ES.Failed,
      if final == MovedPartly then "PostMoveVerification" else "");
    return Returned(final, done.actions);
  }

  /** The synchronous driver. */
  method RunMoverPipeline(s: Setting, table: ES.EventTable, graph: GraphClient) returns (end: End)
    requires Iterates(s.order) && Iterates(s.sorted)
    modifies table, graph`log
    ensures Outcome(World(graph.log, table.Rows(s.employee)), end) ==
      Run(Synchronous, graph.oracle, s, old(World(graph.log, table.Rows(s.employee))))
    ensures forall other :: other != s.employee ==> table.Rows(other) == old(table.Rows(other))
  {
    var prepared := PrepareMove(s, table, graph);
    if prepared.Exited? {
      return Returned(prepared.final, []);
    }
    var done := SyncProvision(s, graph, prepared);
    if done.None? {
      return Raised;
    }
    end := VerifyFinalize(s, table, graph, prepared.plan, done.value);
  }

  /** The activities' side of provisioning: a removal's finalize also patches. */
  method DurableProvision(s: Setting, graph: GraphClient, r: Prepared) returns (done: Option<Provisioned>)
    requires r.Ready?
    modifies graph`log
    ensures Step(graph.log, done) == Provision(Durable, graph.oracle, old(graph.log), r, s)
  {
    if r.reorder {
      var removed := DurableTriad(graph, AdminRemove, s.order(r.plan.removes), r.currentPolicies, s.window);
      if removed.None? {
        return None;
      }
      ApplyAttributeUpdate(graph, s.patch);
      var added := DurableTriad(graph, AdminAdd, s.order(r.plan.adds), r.newPolicies, s.window);
      if added.None? {
        return None;
      }
      return Some(Provisioned(removed.value + added.value, Succeeded(removed.value)));
    }
    var added := DurableTriad(graph, AdminAdd, s.order(r.plan.adds), r.newPolicies, s.window);
    if added.None? {
      return None;
    }
    if !AllSucceeded(added.value) {
      return Some(Provisioned(added.value, {}));
    }
    var removed := DurableTriad(graph, AdminRemove, s.order(r.plan.removes), r.currentPolicies, s.window);
    if removed.None? {
      return None;
    }
    ApplyAttributeUpdate(graph, s.patch);
    return Some(Provisioned(added.value + removed.value, Succeeded(removed.value)));
  }

  /** `orchestrator_function`. */
  method OrchestrateMove(s: Setting, table: ES.EventTable, graph: GraphClient) returns (end: End)
    requires Iterates(s.order) && Iterates(s.sorted)
    modifies table, graph`log
    ensures Outcome(World(graph.log, table.Rows(s.employee)), end) ==
      Run(Durable, graph.oracle, s, old(World(graph.log, table.Rows(s.employee))))
    ensures forall other :: other != s.employee ==> table.Rows(other) == old(table.Rows(other))
  {
    var prepared := PrepareMove(s, table, graph);
    if prepared.Exited? {
      return Returned(prepared.final, []);
    }
    var done := DurableProvision(s, graph, prepared);
    if done.None? {
      return Raised;
    }
    end := VerifyFinalize(s, table, graph, prepared.plan, done.value);
  }
}
