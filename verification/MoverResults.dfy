/** How Mover runs end: the event row, the meaning of success, and convergence over repeated runs. */
module MoverResults {
  import opened Collections
  import opened Tenant
  import opened Phases
  import opened PollLoops
  import opened PhaseProperties
  import opened Planning
  import opened Resolver
  import opened Verifier
  import opened Drivers
  import opened MoverRun
  import opened MoverTheorems
  import opened MoverSafety
  import ES = EventStore
  import CQ = ConflictQueue
  import JS = JoinerStages
  import SR = StoreRuns

  // The event row.

  ghost predicate RowIs(rows: ES.Partition, event: ES.EventId, status: ES.EventStatus, lock: ES.LockStamp) {
    var found := ES.Find(rows, event);
    found.Some? && found.value.status == status && found.value.lock == lock
  }

  lemma ClaimedRow(s: Setting, w: World)
    requires ES.Sorted(w.rows) && ES.Claimable(ES.Find(w.rows, s.event), s.claimAt)
    ensures var claimed := ES.Claim(w.rows, s.event, ES.Mover, s.claimAt);
      ES.Sorted(claimed) && RowIs(claimed, s.event, ES.Pending, ES.Unlocked)
  {
    ES.ClaimEffect(w.rows, s.event, ES.Mover, s.claimAt, s.event);
    if ES.Find(w.rows, s.event).None? {
      ES.InsertSorted(w.rows, ES.NewRow(s.event, ES.Mover));
    }
  }

  lemma LockedRow(rows: ES.Partition, s: Setting)
    requires ES.Sorted(rows) && ES.Find(rows, s.event).Some?
    ensures var locked := ES.Acquire(rows, s.event, s.holder, s.lockAt);
      ES.Sorted(locked) && RowIs(locked, s.event, ES.Processing, ES.LockedAt(s.lockAt))
  {
    var row := ES.Find(rows, s.event).value;
    ES.FindPut(rows, row.(status := ES.Processing, lock := ES.LockedAt(s.lockAt), holder := s.holder), s.event);
  }

  lemma EndedRow(rows: ES.Partition, event: ES.EventId, status: ES.EventStatus, step: string)
    requires ES.Sorted(rows) && ES.Find(rows, event).Some?
    ensures RowIs(ES.Mark(ES.Release(rows, event), event, status, step), event, status, ES.Unlocked)
  {
    JS.ReleasedStays(rows, event);
    JS.MarkedStays(ES.Release(rows, event), event, status, step);
  }

  ghost predicate PreparedAs(pre: PreStep, s: Setting, before: ES.Partition) {
    match pre.prepared
    case Ready(_, _, _, _) =>
      ES.Sorted(pre.world.rows) && RowIs(pre.world.rows, s.event, ES.Processing, ES.LockedAt(s.lockAt))
    case Exited(QueuedConcurrent) => pre.world.rows == before || RowIs(pre.world.rows, s.event, ES.Pending, ES.Unlocked)
    case Exited(_) => RowIs(pre.world.rows, s.event, ES.Failed, ES.Unlocked)
  }

  lemma PlannedRow(oracle: Oracle, s: Setting, w: World, held: seq<Assignment>, before: ES.Partition)
    requires ES.Sorted(w.rows) && RowIs(w.rows, s.event, ES.Processing, ES.LockedAt(s.lockAt))
    ensures PreparedAs(PlanMove(oracle, s, w, held), s, before)
  {
    EndedRow(w.rows, s.event, ES.Failed, "MappingRulesLoad");
    EndedRow(w.rows, s.event, ES.Failed, "PreFlightSoD");
  }

  /** The row once a run has been prepared: locked if it will act, failed if it gave up. */
  lemma PreparedRow(oracle: Oracle, s: Setting, w: World)
    requires ES.Sorted(w.rows)
    ensures PreparedAs(Prepare(oracle, s, w), s, w.rows)
  {
    if ES.Claimable(ES.Find(w.rows, s.event), s.claimAt) {
      ClaimedRow(s, w);
      if !s.concurrent {
        FetchedRow(oracle, s, World(w.log, ES.Claim(w.rows, s.event, ES.Mover, s.claimAt)), w.rows);
      }
    }
  }

  lemma FetchedRow(oracle: Oracle, s: Setting, w: World, before: ES.Partition)
    requires ES.Sorted(w.rows) && ES.Find(w.rows, s.event).Some?
    requires RowIs(w.rows, s.event, ES.Pending, ES.Unlocked)
    ensures PreparedAs(FetchAndPlan(oracle, s, w), s, before)
  {
    var asked := Ask(oracle, w.log, GetUser);
    var answer := Heard(oracle, asked, GetAssignments);
    if !Heard(oracle, w.log, GetUser).User? {
      JS.MarkedStays(w.rows, s.event, ES.Failed, "UserFetch");
    } else if !answer.Assignments? {
      JS.MarkedStays(w.rows, s.event, ES.Failed, "AccessPackageAssignmentFetch");
    } else {
      LockedRow(w.rows, s);
      var locked := ES.Acquire(w.rows, s.event, s.holder, s.lockAt);
      PlannedRow(oracle, s, World(Ask(oracle, asked, GetAssignments), locked), answer.all, before);
    }
  }

  lemma ConcludedRow(oracle: Oracle, s: Setting, rows: ES.Partition, plan: Plan, p: Step<Option<Provisioned>>)
    requires ES.Sorted(rows) && RowIs(rows, s.event, ES.Processing, ES.LockedAt(s.lockAt))
    ensures var end := Conclude(oracle, s, rows, plan, p);
      match end.end
      case Raised => end.world.rows == rows
      case Returned(final, _) =>
        RowIs(end.world.rows, s.event, if final == MoveSucceeded then ES.Completed else ES.Failed, ES.Unlocked)
        && final != QueuedConcurrent
  {
    EndedRow(rows, s.event, ES.Completed, "");
    EndedRow(rows, s.event, ES.Failed, "");
    EndedRow(rows, s.event, ES.Failed, "PostMoveVerification");
  }

  // Raising.

  lemma StrategyRaises(driver: Driver, oracle: Oracle, log: Log, r: Prepared, s: Setting)
    requires r.Ready?
    ensures var done := Provision(driver, oracle, log, r, s); done.value.None? ==> EndsInFailedLookup(done.log)
  {
    if r.reorder {
      StrategyBRaises(driver, oracle, log, r, s);
    } else {
      var adds, removes := s.order(r.plan.adds), s.order(r.plan.removes);
      OperateIsOperation(driver, oracle, log, adds, r.newPolicies, AdminAdd, s.window);
      OperationRaises(oracle, log, adds, r.newPolicies, AdminAdd, s.window);
      var added := Operation(oracle, log, adds, r.newPolicies, AdminAdd, s.window);
      OperateIsOperation(driver, oracle, added.log, removes, r.currentPolicies, AdminRemove, s.window);
      OperationRaises(oracle, added.log, removes, r.currentPolicies, AdminRemove, s.window);
    }
  }

  lemma StrategyBRaises(driver: Driver, oracle: Oracle, log: Log, r: Prepared, s: Setting)
    requires r.Ready?
    ensures var done := StrategyB(driver, oracle, log, r, s); done.value.None? ==> EndsInFailedLookup(done.log)
  {
    var adds, removes := s.order(r.plan.adds), s.order(r.plan.removes);
    OperateIsOperation(driver, oracle, log, removes, r.currentPolicies, AdminRemove, s.window);
    OperationRaises(oracle, log, removes, r.currentPolicies, AdminRemove, s.window);
    var removed := Operation(oracle, log, removes, r.currentPolicies, AdminRemove, s.window);
    var between := if driver == Durable then Patched(oracle, removed.log, s.patch) else removed.log;
    OperateIsOperation(driver, oracle, between, adds, r.newPolicies, AdminAdd, s.window);
    OperationRaises(oracle, between, adds, r.newPolicies, AdminAdd, s.window);
  }

  lemma ConclusionsEndVerified(oracle: Oracle, s: Setting, rows: ES.Partition, plan: Plan,
                               done: Step<Option<Provisioned>>)
    ensures var end := Conclude(oracle, s, rows, plan, done);
      && (end.end.Raised? <==> done.value.None?)
      && (end.end.Raised? ==> end.world.log == done.log)
      && (end.end.Returned? ==> !EndsInFailedLookup(end.world.log))
  {
  }

  /** A prepared run raises exactly when the last thing it did was a lookup that was not answered. */
  lemma RaisesIff(driver: Driver, oracle: Oracle, s: Setting, w: World, t: Trace)
    requires IsRun(driver, oracle, s, w, t)
    ensures t.run.end.Raised? <==> t.pre.prepared.Ready? && EndsInFailedLookup(t.run.world.log)
  {
    Unfold(driver, oracle, s, w, t);
    if t.pre.prepared.Ready? {
      StrategyRaises(driver, oracle, t.pre.world.log, t.pre.prepared, s);
      ConclusionsEndVerified(oracle, s, t.pre.world.rows, t.pre.prepared.plan, t.done);
    }
  }

  /**
   * What a run leaves of its row.  Every run that got past the queue leaves it unlocked,
   * Completed exactly when it succeeded and Failed otherwise, unless it was prepared and
   * the last thing it did was a lookup that was not answered: then the row stays locked
   * and Processing, although every exit path is documented to release the lock.
   */
  lemma RowTellsTheResult(driver: Driver, oracle: Oracle, s: Setting, w: World, t: Trace)
    requires IsRun(driver, oracle, s, w, t) && ES.Sorted(w.rows)
    ensures var rows := t.run.world.rows;
      if t.pre.prepared.Ready? && EndsInFailedLookup(t.run.world.log) then
        RowIs(rows, s.event, ES.Processing, ES.LockedAt(s.lockAt)) && t.run.end.Raised?
      else
        && t.run.end.Returned?
        && if t.run.end.final == QueuedConcurrent then rows == w.rows || RowIs(rows, s.event, ES.Pending, ES.Unlocked)
           else RowIs(rows, s.event, if t.run.end.final == MoveSucceeded then ES.Completed else ES.Failed, ES.Unlocked)
  {
    RaisesIff(driver, oracle, s, w, t);
    Unfold(driver, oracle, s, w, t);
    PreparedRow(oracle, s, w);
    match t.pre.prepared
    case Exited(final) => EarlyExitsFail(oracle, s, w);
    case Ready(plan, _, _, _) => ConcludedRow(oracle, s, t.pre.world.rows, plan, t.done);
  }

  lemma EarlyExitsFail(oracle: Oracle, s: Setting, w: World)
    ensures Prepare(oracle, s, w).prepared.Exited? ==>
      Prepare(oracle, s, w).prepared.final in {QueuedConcurrent, SodHeld, MoveFailed}
  {
  }

  // A run that is stranded.

  /** On the faltering tenant the only package is planned for removal, and nothing else is planned. */
  lemma FalteringPlan(s: Setting, w: World)
    requires Iterates(s.sorted) && s.rules.Some? && "p" in Catalogue(s.rules.value) && "p" !in s.registry
    requires PackagesOf(Resolve(s.rules.value, s.who)) == {}
    ensures var pre := PlanMove(Faltering, s, w, [Assignment("p", "policy")]);
      pre.prepared.Ready? && pre.prepared.plan.adds == {} && pre.prepared.plan.removes == {"p"} && !pre.prepared.reorder
  {
    var held := [Assignment("p", "policy")];
    assert Fetched(held) == {"p"} by {
      assert held[0] in held;
    }
    var rules := s.rules.value;
    var plan := MakePlan(Fetched(held), {}, Catalogue(rules), s.registry, s.today);
    assert plan.adds == {} && plan.removes == {"p"};
    NoElements(s.sorted({}));
    assert Elements(s.sorted({})) == {};
  }

  lemma FalteringIsPrepared(s: Setting, w: World)
    requires ES.Claimable(ES.Find(w.rows, s.event), s.claimAt) && !s.concurrent
    requires Iterates(s.sorted) && s.rules.Some? && "p" in Catalogue(s.rules.value) && "p" !in s.registry
    requires PackagesOf(Resolve(s.rules.value, s.who)) == {}
    ensures var r := Prepare(Faltering, s, w).prepared;
      r.Ready? && r.plan.adds == {} && r.plan.removes == {"p"} && !r.reorder
  {
    var claimed := ES.Claim(w.rows, s.event, ES.Mover, s.claimAt);
    var fetched := Ask(Faltering, Ask(Faltering, w.log, GetUser), GetAssignments);
    FalteringPlan(s, World(fetched, ES.Acquire(claimed, s.event, s.holder, s.lockAt)));
  }

  lemma FalteringProvision(driver: Driver, log: Log, r: Prepared, s: Setting)
    requires r.Ready? && r.plan.adds == {} && r.plan.removes == {"p"} && !r.reorder && Iterates(s.order)
    ensures Provision(driver, Faltering, log, r, s).value.None?
  {
    NoElements(s.order({}));
    assert Elements(s.order({})) == {} && Elements(s.order({"p"})) == {"p"};
    OnlyElement(s.order({"p"}), "p");
    NoActions([]);
    EmptyOperation(Faltering, log, r.newPolicies, AdminAdd, s.window);
    OperateIsOperation(driver, Faltering, log, [], r.newPolicies, AdminAdd, s.window);
    FalteringRemovalRaises(log, "p", r.currentPolicies, s.window);
    OperateIsOperation(driver, Faltering, log, ["p"], r.currentPolicies, AdminRemove, s.window);
  }

  /**
   * The lock is not released on every exit path, whatever the window: on a tenant where
   * one surplus package is held, its removal is accepted and then every lookup fails,
   * every run under either driver raises and leaves its row locked and Processing.
   */
  lemma FailedLookupStrandsTheRun(driver: Driver, s: Setting, w: World, t: Trace)
    requires IsRun(driver, Faltering, s, w, t) && ES.Sorted(w.rows) && Iterates(s.order) && Iterates(s.sorted)
    requires ES.Claimable(ES.Find(w.rows, s.event), s.claimAt) && !s.concurrent
    requires s.rules.Some? && "p" in Catalogue(s.rules.value) && "p" !in s.registry
    requires PackagesOf(Resolve(s.rules.value, s.who)) == {}
    ensures t.run.end.Raised? && RowIs(t.run.world.rows, s.event, ES.Processing, ES.LockedAt(s.lockAt))
  {
    Unfold(driver, Faltering, s, w, t);
    FalteringIsPrepared(s, w);
    FalteringProvision(driver, t.pre.world.log, t.pre.prepared, s);
    ConclusionsEndVerified(Faltering, s, t.pre.world.rows, t.pre.prepared.plan, t.done);
    RowTellsTheResult(driver, Faltering, s, w, t);
    RaisesIff(driver, Faltering, s, w, t);
  }

  /** A claim leaves the queue stamp of the row alone, and a new row has none. */
  lemma ClaimedRowWaitsIff(s: Setting, w: World)
    requires ES.Sorted(w.rows) && ES.Claimable(ES.Find(w.rows, s.event), s.claimAt)
    ensures var found := ES.Find(ES.Claim(w.rows, s.event, ES.Mover, s.claimAt), s.event);
      found.Some? && (CQ.Waiting(found.value) <==>
        ES.Find(w.rows, s.event).Some? && ES.Find(w.rows, s.event).value.queuedAt.Some?)
  {
    match ES.Find(w.rows, s.event)
    case None => ES.FindInsert(w.rows, ES.NewRow(s.event, ES.Mover), s.event);
    case Some(row) => ES.FindPut(w.rows, ES.Reclaimed(row), s.event);
  }

  lemma ParkedRun(driver: Driver, oracle: Oracle, s: Setting, w: World, t: Trace)
    requires IsRun(driver, oracle, s, w, t) && s.concurrent && ES.Claimable(ES.Find(w.rows, s.event), s.claimAt)
    ensures t.run.world == World(w.log, ES.Claim(w.rows, s.event, ES.Mover, s.claimAt))
    ensures t.run.end == Returned(QueuedConcurrent, [])
  {
    Unfold(driver, oracle, s, w, t);
  }

  /**
   * A move parked behind another run, new or reclaimed, keeps a Pending row that no claim
   * ever takes, over every sequence of calls that does not start or end the event's own
   * run; it stands in the queue exactly if its old row already had a queue stamp.
   */
  lemma ParkedMoveIsStranded(driver: Driver, oracle: Oracle, s: Setting, w: World, t: Trace, ops: seq<SR.Operation>)
    requires IsRun(driver, oracle, s, w, t) && ES.Sorted(w.rows) && s.concurrent
    requires ES.Claimable(ES.Find(w.rows, s.event), s.claimAt)
    requires forall i :: 0 <= i < |ops| ==> !SR.Drives(ops[i], s.event)
    ensures t.run.end == Returned(QueuedConcurrent, [])
    ensures RowIs(t.run.world.rows, s.event, ES.Pending, ES.Unlocked)
    ensures forall later :: !ES.Claimable(ES.Find(t.run.world.rows, s.event), later)
    ensures SR.WinCount(t.run.world.rows, ops, s.event) == 0
    ensures CQ.Waiting(ES.Find(t.run.world.rows, s.event).value) <==>
      ES.Find(w.rows, s.event).Some? && ES.Find(w.rows, s.event).value.queuedAt.Some?
  {
    ParkedRun(driver, oracle, s, w, t);
    ClaimedRow(s, w);
    ClaimedRowWaitsIff(s, w);
    SR.UndrivenIsNeverClaimed(t.run.world.rows, ops, s.event);
  }

  // What success means.

  /** Provisioned without raising, and the re-fetch and the memberships are as they should be. */
  ghost predicate Confirms(oracle: Oracle, plan: Plan, done: Step<Option<Provisioned>>) {
    var fetched := Heard(oracle, done.log, GetAssignments);
    && done.value.Some?
    && fetched.Assignments?
    && plan.unaltered + plan.retained + plan.adds <= Fetched(fetched.all)
    && Fetched(fetched.all) <= plan.unaltered + plan.retained + plan.adds + plan.unmanaged + done.value.value.removed
    && Heard(oracle, Ask(oracle, done.log, GetAssignments), GetMemberships) == Memberships(true)
  }

  lemma ConcludesWithSuccessIff(oracle: Oracle, s: Setting, rows: ES.Partition, plan: Plan,
                                done: Step<Option<Provisioned>>)
    ensures var end := Conclude(oracle, s, rows, plan, done).end;
      end.Returned? && end.final == MoveSucceeded <==> Confirms(oracle, plan, done)
  {
    if done.value.Some? {
      var expected, excluded := plan.unaltered + plan.retained + plan.adds, plan.unmanaged + done.value.value.removed;
      assert expected + excluded == expected + plan.unmanaged + done.value.value.removed;
    }
  }

  /**
   * A run succeeds exactly when it was provisioned without raising, the re-fetch was
   * answered, every expected package is there, nothing else is except what is unmanaged
   * or was just removed, and memberships were read and comply.
   */
  lemma SucceedsIff(driver: Driver, oracle: Oracle, s: Setting, w: World, t: Trace)
    requires IsRun(driver, oracle, s, w, t)
    ensures t.run.end.Returned? && t.run.end.final == MoveSucceeded <==>
      t.pre.prepared.Ready? && Confirms(oracle, t.pre.prepared.plan, t.done)
  {
    Unfold(driver, oracle, s, w, t);
    if t.pre.prepared.Ready? {
      ConcludesWithSuccessIff(oracle, s, t.pre.world.rows, t.pre.prepared.plan, t.done);
    } else {
      EarlyExitsFail(oracle, s, w);
    }
  }

  // Convergence.

  /** What a run is after: the target, and which managed packages outside it may stay. */
  datatype Goal = Goal(target: set<Package>, catalogue: set<Package>, registry: map<Package, Date>, today: Date)

  predicate Surplus(goal: Goal, p: Package) {
    p in goal.catalogue && p !in goal.target && EvaluateRetention(goal.registry, p, goal.today) != Retained
  }

  /** How far holdings are from the goal: missing targets and surplus packages. */
  function Distance(goal: Goal, held: set<Package>): nat {
    |goal.target - held| + |set p | p in held && Surplus(goal, p)|
  }

  function PlanFor(goal: Goal, held: set<Package>): Plan {
    MakePlan(held, goal.target, goal.catalogue, goal.registry, goal.today)
  }

  /** With managed targets, the distance is the size of the plan that would be made. */
  lemma DistanceIsPlanSize(goal: Goal, held: set<Package>)
    requires goal.target <= goal.catalogue
    ensures Distance(goal, held) == |PlanFor(goal, held).adds| + |PlanFor(goal, held).removes|
    ensures PlanFor(goal, held).adds == goal.target - held
    ensures PlanFor(goal, held).removes == set p | p in held && Surplus(goal, p)
  {
    assert PlanFor(goal, held).adds == goal.target - held;
    assert PlanFor(goal, held).removes == set p | p in held && Surplus(goal, p);
  }

  /** The request brings holdings towards the goal. */
  predicate Steers(goal: Goal, event: Event) {
    event.Engine? && event.call.RequestAssignment? ==>
      if event.call.kind == AdminAdd then event.call.package in goal.target else Surplus(goal, event.call.package)
  }

  ghost predicate AllSteer(goal: Goal, log: Log) {
    forall k :: 0 <= k < |log| ==> Steers(goal, log[k])
  }

  /** How often holdings really changed in the first `n` events. */
  ghost function Changes(start: set<Package>, log: Log, n: nat): nat
    requires n <= |log|
  {
    if n == 0 then 0
    else Changes(start, log, n - 1) + if Held(start, log, n) != Held(start, log, n - 1) then 1 else 0
  }

  lemma GrantedIsCloser(goal: Goal, held: set<Package>, p: Package)
    requires p in goal.target && p !in held
    ensures Distance(goal, held + {p}) + 1 == Distance(goal, held)
  {
    assert goal.target - held == (goal.target - (held + {p})) + {p};
    assert (set q | q in held + {p} && Surplus(goal, q)) == set q | q in held && Surplus(goal, q);
  }

  lemma WithdrawnIsCloser(goal: Goal, held: set<Package>, p: Package)
    requires Surplus(goal, p) && p in held
    ensures Distance(goal, held - {p}) + 1 == Distance(goal, held)
  {
    assert goal.target - held == goal.target - (held - {p});
    assert (set q | q in held && Surplus(goal, q)) == (set q | q in held - {p} && Surplus(goal, q)) + {p};
  }

  /** One event on a steering, grounded log: every real change is a step of one towards the goal. */
  lemma OneStepCloser(goal: Goal, start: set<Package>, log: Log, n: nat)
    requires n < |log| && Grounded(start, log) && AllSteer(goal, log)
    ensures var before, after := Held(start, log, n), Held(start, log, n + 1);
      Distance(goal, after) + (if after != before then 1 else 0) == Distance(goal, before)
  {
    var before, after := Held(start, log, n), Held(start, log, n + 1);
    assert after == HeldAfter(before, log[n]);
    assert GroundedAt(start, log, n);
    if after != before {
      match log[n]
      case Tenant(Granted(p)) =>
        var k :| 0 <= k < n && Requests(log[k], p, AdminAdd);
        assert Steers(goal, log[k]);
        GrantedIsCloser(goal, before, p);
      case Tenant(Withdrawn(p)) =>
        var k :| 0 <= k < n && Requests(log[k], p, AdminRemove);
        assert Steers(goal, log[k]);
        WithdrawnIsCloser(goal, before, p);
    }
  }

  lemma OneMoreChange(start: set<Package>, log: Log, n: nat)
    requires 0 < n <= |log|
    ensures Changes(start, log, n) ==
      Changes(start, log, n - 1) + if Held(start, log, n) != Held(start, log, n - 1) then 1 else 0
  {
  }

  /**
   * Over any grounded log that only steers, the distance never rises and every delivered
   * change lowers it by exactly one: what is gone from it is what was changed.
   */
  lemma {:induction false} DistanceCountsDown(goal: Goal, start: set<Package>, log: Log, n: nat)
    requires n <= |log| && Grounded(start, log) && AllSteer(goal, log)
    ensures Distance(goal, Held(start, log, n)) + Changes(start, log, n) == Distance(goal, start)
  {
    if n > 0 {
      DistanceCountsDown(goal, start, log, n - 1);
      OneStepCounted(goal, start, log, n, Distance(goal, start));
    }
  }

  lemma OneStepCounted(goal: Goal, start: set<Package>, log: Log, n: nat, sum: nat)
    requires 0 < n <= |log| && Grounded(start, log) && AllSteer(goal, log)
    requires Distance(goal, Held(start, log, n - 1)) + Changes(start, log, n - 1) == sum
    ensures Distance(goal, Held(start, log, n)) + Changes(start, log, n) == sum
  {
    OneStepCloser(goal, start, log, n - 1);
    OneMoreChange(start, log, n);
  }

  /** The setting aims at the goal. */
  ghost predicate Pursues(s: Setting, goal: Goal) {
    Iterates(s.order) &&
    (s.rules.Some? ==>
      (goal == Goal(PackagesOf(Resolve(s.rules.value, s.who)), Catalogue(s.rules.value), s.registry, s.today)))
  }

  /** Whatever it fetched, a run only steers towards its goal. */
  lemma RunsSteer(driver: Driver, oracle: Oracle, s: Setting, w: World, t: Trace, goal: Goal)
    requires IsRun(driver, oracle, s, w, t) && Pursues(s, goal) && AllSteer(goal, w.log)
    ensures AllSteer(goal, t.run.world.log)
  {
    RunWritesItsPlan(driver, oracle, s, w, t);
    Unfold(driver, oracle, s, w, t);
    PlanSteers(oracle, s, w, goal);
    var plan, after := PlanOf(t.pre.prepared), t.run.world.log;
    forall k | 0 <= k < |after| ensures Steers(goal, after[k]) {
      if k < |w.log| {
        assert after[k] == w.log[k];
      } else {
        assert Allowed(after[k], plan.adds, plan.removes, true);
      }
    }
  }

  lemma PlanSteers(oracle: Oracle, s: Setting, w: World, goal: Goal)
    requires Pursues(s, goal)
    ensures var plan := PlanOf(Prepare(oracle, s, w).prepared);
      plan.adds <= goal.target && forall p :: p in plan.removes ==> Surplus(goal, p)
  {
  }

  datatype Attempt = Attempt(driver: Driver, setting: Setting)

  /** One run after another, each starting from what the last one left. */
  function Repeat(oracle: Oracle, attempts: seq<Attempt>, w: World): World {
    if attempts == [] then w
    else
      var before := Repeat(oracle, attempts[..|attempts| - 1], w);
      var last := attempts[|attempts| - 1];
      Run(last.driver, oracle, last.setting, before).world
  }

  lemma {:induction false} RepeatedRunsSteer(oracle: Oracle, attempts: seq<Attempt>, rows: ES.Partition, goal: Goal)
    requires forall i :: 0 <= i < |attempts| ==> Pursues(attempts[i].setting, goal)
    ensures AllSteer(goal, Repeat(oracle, attempts, World([], rows)).log)
  {
    if attempts != [] {
      var last, before := attempts[|attempts| - 1], Repeat(oracle, attempts[..|attempts| - 1], World([], rows));
      RepeatedRunsSteer(oracle, attempts[..|attempts| - 1], rows, goal);
      var t := TraceOf(last.driver, oracle, last.setting, before);
      RunsSteer(last.driver, oracle, last.setting, before, t, goal);
      Unfold(last.driver, oracle, last.setting, before, t);
    }
  }

  /** `log` is what a tenant's log shows after these runs, one after another from nothing. */
  ghost predicate IsHistory(oracle: Oracle, attempts: seq<Attempt>, rows: ES.Partition, log: Log) {
    forall first :: Same(first, World([], rows)) ==> Repeat(oracle, attempts, first).log == log
  }

  /**
   * Repeated moves converge: over any number of runs towards one goal, under any mix of
   * drivers and strategies and however late deliveries arrive, the distance never rises
   * and drops by exactly one with every change that takes effect.
   */
  lemma RepeatedRunsConverge(oracle: Oracle, attempts: seq<Attempt>, rows: ES.Partition, log: Log, goal: Goal,
      start: set<Package>, m: nat, n: nat)
    requires IsHistory(oracle, attempts, rows, log)
    requires forall i :: 0 <= i < |attempts| ==> Pursues(attempts[i].setting, goal)
    requires Grounded(start, log) && m <= n <= |log|
    ensures Distance(goal, Held(start, log, n)) + Changes(start, log, n) == Distance(goal, start)
    ensures Distance(goal, Held(start, log, n)) <= Distance(goal, Held(start, log, m))
  {
    assert Same(World([], rows), World([], rows));
    assert Repeat(oracle, attempts, World([], rows)).log == log;
    RepeatedRunsSteer(oracle, attempts, rows, goal);
    DistanceCountsDown(goal, start, log, m);
    DistanceCountsDown(goal, start, log, n);
    ChangesGrow(start, log, m, n);
  }

  lemma {:induction false} ChangesGrow(start: set<Package>, log: Log, m: nat, n: nat)
    requires m <= n <= |log|
    ensures Changes(start, log, m) <= Changes(start, log, n)
  {
    if m < n {
      ChangesGrow(start, log, m, n - 1);
    }
  }

  lemma NothingToDo(driver: Driver, oracle: Oracle, log: Log, r: Prepared, s: Setting)
    requires r.Ready? && r.plan.adds == {} && r.plan.removes == {} && !r.reorder && Iterates(s.order)
    ensures Provision(driver, oracle, log, r, s) == Step(Patched(oracle, log, s.patch), Some(Provisioned([], {})))
  {
    var order := s.order({});
    NoElements(order);
    NoActions([]);
    EmptyOperation(oracle, log, r.newPolicies, AdminAdd, s.window);
    EmptyOperation(oracle, log, r.currentPolicies, AdminRemove, s.window);
    OperateIsOperation(driver, oracle, log, [], r.newPolicies, AdminAdd, s.window);
    OperateIsOperation(driver, oracle, log, [], r.currentPolicies, AdminRemove, s.window);
    var none: seq<Action> := [];
    assert none + none == none;
    assert Provision(driver, oracle, log, r, s) == StrategyA(driver, oracle, log, r, s);
  }

  lemma NoActions(actions: seq<Action>)
    requires actions == []
    ensures AllSucceeded(actions) && Succeeded(actions) == {}
  {
  }

  /**
   * What a run counts as removed was planned for removal and is shown to be gone, under
   * either strategy and driver and on every tenant: a removal that was refused, or that
   * only may have gone through, is never counted.
   */
  lemma RemovedWasConfirmed(driver: Driver, oracle: Oracle, log: Log, r: Prepared, s: Setting)
    requires r.Ready? && Iterates(s.order) && Provision(driver, oracle, log, r, s).value.Some?
    ensures var done := Provision(driver, oracle, log, r, s);
      forall p :: p in done.value.value.removed ==> p in r.plan.removes && RemovalConfirmed(done.log, p)
  {
    var done := Provision(driver, oracle, log, r, s);
    var order := s.order(r.plan.removes);
    assert Elements(order) == r.plan.removes;
    if r.reorder {
      OperateConfirms(driver, oracle, log, order, r.currentPolicies, s.window);
      StrategyBGrows(driver, oracle, log, r, s);
      ConfirmedLater(Operate(driver, oracle, log, order, r.currentPolicies, AdminRemove, s.window).log, done.log,
                     done.value.value.removed);
    } else {
      var added := Operate(driver, oracle, log, s.order(r.plan.adds), r.newPolicies, AdminAdd, s.window);
      if AllSucceeded(added.value.value) {
        OperateConfirms(driver, oracle, added.log, order, r.currentPolicies, s.window);
        var removed := Operate(driver, oracle, added.log, order, r.currentPolicies, AdminRemove, s.window);
        PatchWrites(oracle, removed.log, s.patch);
        ConfirmedLater(removed.log, done.log, done.value.value.removed);
      }
    }
  }

  lemma OperateConfirms(driver: Driver, oracle: Oracle, log: Log, order: seq<Package>, policies: map<Package, string>,
      window: Window)
    requires NoDuplicates(order) && Operate(driver, oracle, log, order, policies, AdminRemove, window).value.Some?
    ensures var r := Operate(driver, oracle, log, order, policies, AdminRemove, window);
      forall p :: p in Succeeded(r.value.value) ==> p in Elements(order) && RemovalConfirmed(r.log, p)
  {
    OperateIsOperation(driver, oracle, log, order, policies, AdminRemove, window);
    OperationIsExact(oracle, log, order, policies, AdminRemove, window);
    forall p | p in Succeeded(Operation(oracle, log, order, policies, AdminRemove, window).value.value)
      ensures RemovalConfirmed(Operation(oracle, log, order, policies, AdminRemove, window).log, p)
    {
      assert Confirmed(Operation(oracle, log, order, policies, AdminRemove, window).log, p, AdminRemove);
    }
  }

  lemma ConfirmedLater(log: Log, later: Log, packages: set<Package>)
    requires log <= later && forall p :: p in packages ==> RemovalConfirmed(log, p)
    ensures forall p :: p in packages ==> RemovalConfirmed(later, p)
  {
    forall p | p in packages ensures RemovalConfirmed(later, p) {
      ConfirmedGrows(log, later, p, AdminRemove);
    }
  }

  lemma StrategyBParts(driver: Driver, oracle: Oracle, log: Log, r: Prepared, s: Setting,
      removed: Step<Option<seq<Action>>>, between: Log, added: Step<Option<seq<Action>>>)
    requires r.Ready?
    requires removed == Operate(driver, oracle, log, s.order(r.plan.removes), r.currentPolicies, AdminRemove, s.window)
    requires between == if driver == Durable then Patched(oracle, removed.log, s.patch) else removed.log
    requires added == Operate(driver, oracle, between, s.order(r.plan.adds), r.newPolicies, AdminAdd, s.window)
    ensures StrategyB(driver, oracle, log, r, s) ==
      if removed.value.None? then Step(removed.log, None)
      else if added.value.None? then Step(added.log, None)
      else
        Step(if driver == Synchronous then Patched(oracle, added.log, s.patch) else added.log,
             Some(Provisioned(removed.value.value + added.value.value, Succeeded(removed.value.value))))
  {
  }

  lemma StrategyBGrows(driver: Driver, oracle: Oracle, log: Log, r: Prepared, s: Setting)
    requires r.Ready?
    ensures Operate(driver, oracle, log, s.order(r.plan.removes), r.currentPolicies, AdminRemove, s.window).log <=
      StrategyB(driver, oracle, log, r, s).log
  {
    var removed := Operate(driver, oracle, log, s.order(r.plan.removes), r.currentPolicies, AdminRemove, s.window);
    var between := if driver == Durable then Patched(oracle, removed.log, s.patch) else removed.log;
    PatchWrites(oracle, removed.log, s.patch);
    OperateIsOperation(driver, oracle, between, s.order(r.plan.adds), r.newPolicies, AdminAdd, s.window);
    OperationWrites(oracle, between, s.order(r.plan.adds), r.newPolicies, AdminAdd, s.window);
    var added := Operate(driver, oracle, between, s.order(r.plan.adds), r.newPolicies, AdminAdd, s.window);
    PatchWrites(oracle, added.log, s.patch);
    StrategyBParts(driver, oracle, log, r, s, removed, between, added);
  }

  /**
   * What success says about the goal: at the re-fetch every target package was there, and
   * any surplus package still showing is one this run had just removed, as its log confirms.
   */
  lemma SuccessIsOnTarget(driver: Driver, oracle: Oracle, s: Setting, w: World, t: Trace, goal: Goal)
    requires IsRun(driver, oracle, s, w, t) && Pursues(s, goal) && t.pre.prepared.Ready?
    requires t.run.end.Returned? && t.run.end.final == MoveSucceeded
    ensures var fetched := Heard(oracle, t.done.log, GetAssignments);
      && t.done.value.Some? && fetched.Assignments?
      && goal.target <= Fetched(fetched.all)
      && forall p :: p in Fetched(fetched.all) && Surplus(goal, p) ==>
        p in t.done.value.value.removed && RemovalConfirmed(t.done.log, p)
  {
    SucceedsIff(driver, oracle, s, w, t);
    Unfold(driver, oracle, s, w, t);
    RemovedWasConfirmed(driver, oracle, t.pre.world.log, t.pre.prepared, s);
    PlanIsForTheGoal(oracle, s, w, goal);
    ConfirmedIsOnTarget(oracle, goal, t.pre.prepared.plan, t.done);
  }

  lemma ConfirmedIsOnTarget(oracle: Oracle, goal: Goal, plan: Plan, done: Step<Option<Provisioned>>)
    requires Confirms(oracle, plan, done) && exists held :: plan == PlanFor(goal, held)
    ensures var fetched := Fetched(Heard(oracle, done.log, GetAssignments).all);
      && goal.target <= fetched
      && forall p :: p in fetched && Surplus(goal, p) ==> p in done.value.value.removed
  {
    var held :| plan == PlanFor(goal, held);
    assert goal.target <= plan.unaltered + plan.adds;
    forall p | p in plan.unaltered + plan.retained + plan.adds + plan.unmanaged ensures !Surplus(goal, p) {}
  }

  /** The plan is the goal's plan for some holdings, namely those fetched. */
  lemma PlanIsForTheGoal(oracle: Oracle, s: Setting, w: World, goal: Goal)
    requires Pursues(s, goal) && Prepare(oracle, s, w).prepared.Ready?
    ensures exists held :: Prepare(oracle, s, w).prepared.plan == PlanFor(goal, held)
  {
    var asked := Ask(oracle, w.log, GetUser);
    var held := Fetched(Heard(oracle, asked, GetAssignments).all);
    assert Prepare(oracle, s, w).prepared.plan == PlanFor(goal, held);
  }

  lemma ZeroMeansNothingPlanned(goal: Goal, held: set<Package>)
    requires goal.target <= goal.catalogue && Distance(goal, held) == 0
    ensures var plan := PlanFor(goal, held);
      plan.adds == {} && plan.removes == {} && held == plan.unaltered + plan.retained + plan.adds + plan.unmanaged
  {
    DistanceIsPlanSize(goal, held);
    HoldingsArePartitioned(held, goal.target, goal.catalogue, goal.registry, goal.today);
  }

  /** The re-fetch shows exactly these packages, and memberships comply. */
  ghost predicate ShowsAgain(oracle: Oracle, log: Log, held: set<Package>) {
    var fetched := Heard(oracle, log, GetAssignments);
    && fetched.Assignments? && Fetched(fetched.all) == held
    && Heard(oracle, Ask(oracle, log, GetAssignments), GetMemberships) == Memberships(true)
  }

  lemma IdleRun(driver: Driver, oracle: Oracle, s: Setting, w: World, t: Trace)
    requires IsRun(driver, oracle, s, w, t) && Iterates(s.order) && Iterates(s.sorted)
    requires t.pre.prepared.Ready? && t.pre.prepared.plan.adds == {} && t.pre.prepared.plan.removes == {}
    ensures t.done == Step(Patched(oracle, t.pre.world.log, s.patch), Some(Provisioned([], {})))
    ensures Writes(t.run.world.log) == Writes(w.log) + (if s.patch then [PatchUser] else [])
  {
    Unfold(driver, oracle, s, w, t);
    PreparedMovesAreCovered(oracle, s, w);
    NothingToDo(driver, oracle, t.pre.world.log, t.pre.prepared, s);
    PrepareWritesNothing(oracle, s, w);
    RunExtends(driver, oracle, s, w);
    WritesOfAsk(oracle, t.pre.world.log, PatchUser);
  }

  /**
   * At distance zero a run asks for nothing, and if the re-fetch shows the same packages
   * again and memberships comply, verification finds nothing wrong.
   */
  lemma AtZeroNothingIsLeftToDo(driver: Driver, oracle: Oracle, s: Setting, w: World, t: Trace, goal: Goal,
                                held: set<Package>)
    requires IsRun(driver, oracle, s, w, t) && Pursues(s, goal) && Iterates(s.sorted)
    requires Distance(goal, held) == 0 && t.pre.prepared.Ready? && t.pre.prepared.plan == PlanFor(goal, held)
    ensures Writes(t.run.world.log) == Writes(w.log) + (if s.patch then [PatchUser] else [])
    ensures ShowsAgain(oracle, t.done.log, held) ==> t.run.end.Returned? && t.run.end.final == MoveSucceeded
  {
    assert goal.target <= goal.catalogue by { GoalIsManaged(driver, oracle, s, w, t, goal); }
    ZeroMeansNothingPlanned(goal, held);
    IdleRun(driver, oracle, s, w, t);
    if ShowsAgain(oracle, t.done.log, held) {
      IdleConfirms(oracle, t.pre.prepared.plan, t.done, held);
      SucceedsIff(driver, oracle, s, w, t);
    }
  }

  lemma IdleConfirms(oracle: Oracle, plan: Plan, done: Step<Option<Provisioned>>, held: set<Package>)
    requires held == plan.unaltered + plan.retained + plan.adds + plan.unmanaged
    requires done.value == Some(Provisioned([], {})) && ShowsAgain(oracle, done.log, held)
    ensures Confirms(oracle, plan, done)
  {
  }

  lemma GoalIsManaged(driver: Driver, oracle: Oracle, s: Setting, w: World, t: Trace, goal: Goal)
    requires IsRun(driver, oracle, s, w, t) && Pursues(s, goal) && t.pre.prepared.Ready?
    ensures goal.target <= goal.catalogue
  {
    Unfold(driver, oracle, s, w, t);
    TargetsAreManagedAndCovered(s.rules.value, s.who);
  }

  // The end state.

  lemma ActionsAllSucceeded(a: seq<Action>, b: seq<Action>)
    requires AllSucceeded(a + b)
    ensures AllSucceeded(a) && AllSucceeded(b)
  {
    assert forall i :: 0 <= i < |a| ==> (a + b)[i] == a[i];
    assert forall i :: 0 <= i < |b| ==> (a + b)[|a| + i] == b[i];
  }

  /** The log confirms every addition and every removal of the plan. */
  ghost predicate ConfirmsPlan(log: Log, plan: Plan) {
    && (forall p :: p in plan.adds ==> Confirmed(log, p, AdminAdd))
    && (forall p :: p in plan.removes ==> Confirmed(log, p, AdminRemove))
  }

  lemma StrategyAConfirms(driver: Driver, oracle: Oracle, log: Log, r: Prepared, s: Setting)
    requires r.Ready? && Iterates(s.order)
    requires var done := StrategyA(driver, oracle, log, r, s);
      done.value.Some? && AllSucceeded(done.value.value.actions)
    ensures ConfirmsPlan(StrategyA(driver, oracle, log, r, s).log, r.plan)
  {
    var adds, removes := s.order(r.plan.adds), s.order(r.plan.removes);
    assert Elements(adds) == r.plan.adds && Elements(removes) == r.plan.removes;
    var after := StrategyA(driver, oracle, log, r, s).log;
    OperateIsOperation(driver, oracle, log, adds, r.newPolicies, AdminAdd, s.window);
    var one := Operation(oracle, log, adds, r.newPolicies, AdminAdd, s.window);
    OperateIsOperation(driver, oracle, one.log, removes, r.currentPolicies, AdminRemove, s.window);
    var two := Operation(oracle, one.log, removes, r.currentPolicies, AdminRemove, s.window);
    OperationWrites(oracle, one.log, removes, r.currentPolicies, AdminRemove, s.window);
    SubmitExtends(oracle, one.log, removes, r.currentPolicies, AdminRemove);
    ActionsAllSucceeded(one.value.value, two.value.value);
    PatchWrites(oracle, two.log, s.patch);
    OperationConfirms(oracle, log, adds, r.newPolicies, AdminAdd, s.window, after);
    OperationConfirms(oracle, one.log, removes, r.currentPolicies, AdminRemove, s.window, after);
  }

  lemma StrategyBConfirms(driver: Driver, oracle: Oracle, log: Log, r: Prepared, s: Setting)
    requires r.Ready? && Iterates(s.order)
    requires var done := StrategyB(driver, oracle, log, r, s);
      done.value.Some? && AllSucceeded(done.value.value.actions)
    ensures ConfirmsPlan(StrategyB(driver, oracle, log, r, s).log, r.plan)
  {
    var adds, removes := s.order(r.plan.adds), s.order(r.plan.removes);
    assert Elements(adds) == r.plan.adds && Elements(removes) == r.plan.removes;
    var after := StrategyB(driver, oracle, log, r, s).log;
    OperateIsOperation(driver, oracle, log, removes, r.currentPolicies, AdminRemove, s.window);
    var one := Operation(oracle, log, removes, r.currentPolicies, AdminRemove, s.window);
    var between := if driver == Durable then Patched(oracle, one.log, s.patch) else one.log;
    PatchWrites(oracle, one.log, s.patch);
    OperateIsOperation(driver, oracle, between, adds, r.newPolicies, AdminAdd, s.window);
    var two := Operation(oracle, between, adds, r.newPolicies, AdminAdd, s.window);
    OperationWrites(oracle, between, adds, r.newPolicies, AdminAdd, s.window);
    ActionsAllSucceeded(one.value.value, two.value.value);
    PatchWrites(oracle, two.log, s.patch);
    OperationConfirms(oracle, log, removes, r.currentPolicies, AdminRemove, s.window, after);
    OperationConfirms(oracle, between, adds, r.newPolicies, AdminAdd, s.window, after);
  }

  lemma SuccessIsConfirmed(driver: Driver, oracle: Oracle, log: Log, r: Prepared, s: Setting)
    requires r.Ready? && Iterates(s.order)
    requires var done := Provision(driver, oracle, log, r, s);
      done.value.Some? && AllSucceeded(done.value.value.actions)
    ensures ConfirmsPlan(Provision(driver, oracle, log, r, s).log, r.plan)
  {
    if r.reorder {
      StrategyBConfirms(driver, oracle, log, r, s);
    } else {
      StrategyAConfirms(driver, oracle, log, r, s);
    }
  }

  lemma RunConfirmsPlan(driver: Driver, oracle: Oracle, s: Setting, w: World, t: Trace)
    requires IsRun(driver, oracle, s, w, t) && Iterates(s.order) && t.pre.prepared.Ready?
    requires t.done.value.Some? && AllSucceeded(t.done.value.value.actions)
    ensures ConfirmsPlan(t.run.world.log, t.pre.prepared.plan)
  {
    var plan, log := t.pre.prepared.plan, t.run.world.log;
    Unfold(driver, oracle, s, w, t);
    SuccessIsConfirmed(driver, oracle, t.pre.world.log, t.pre.prepared, s);
    RunExtends(driver, oracle, s, w);
    forall p | p in plan.adds ensures Confirmed(log, p, AdminAdd) {
      ConfirmedGrows(t.done.log, log, p, AdminAdd);
    }
    forall p | p in plan.removes ensures Confirmed(log, p, AdminRemove) {
      ConfirmedGrows(t.done.log, log, p, AdminRemove);
    }
  }

  // Holdings on the way to the goal.

  /** Nothing a log that steers asks for moves holdings away from the goal. */
  lemma SteeringNeverAsks(goal: Goal, log: Log, k: nat, p: Package)
    requires AllSteer(goal, log) && k < |log|
    ensures p !in goal.target ==> !Requests(log[k], p, AdminAdd)
    ensures !Surplus(goal, p) ==> !Requests(log[k], p, AdminRemove)
  {
    assert Steers(goal, log[k]);
  }

  lemma TargetStays(goal: Goal, start: set<Package>, log: Log, p: Package, m: nat, n: nat)
    requires Grounded(start, log) && AllSteer(goal, log) && m <= n <= |log|
    requires !Surplus(goal, p) && p in Held(start, log, m)
    ensures p in Held(start, log, n)
  {
    forall k | 0 <= k < n ensures !Requests(log[k], p, AdminRemove) {
      SteeringNeverAsks(goal, log, k, p);
    }
    StaysHeld(start, log, p, m, n);
  }

  lemma OffTargetStaysAway(goal: Goal, start: set<Package>, log: Log, p: Package, m: nat, n: nat)
    requires Grounded(start, log) && AllSteer(goal, log) && m <= n <= |log|
    requires p !in goal.target && p !in Held(start, log, m)
    ensures p !in Held(start, log, n)
  {
    forall k | 0 <= k < n ensures !Requests(log[k], p, AdminAdd) {
      SteeringNeverAsks(goal, log, k, p);
    }
    StaysAway(start, log, p, m, n);
  }

  /** What is held at the start and may stay. */
  function Kept(goal: Goal, start: set<Package>): set<Package> {
    set p | p in start && !Surplus(goal, p)
  }

  /**
   * In every state on the way, over any number of runs towards one goal: whatever may
   * stay is still held, and nothing outside the target has come.
   */
  lemma SteeredHoldings(goal: Goal, start: set<Package>, log: Log, n: nat)
    requires Grounded(start, log) && AllSteer(goal, log) && n <= |log|
    ensures Kept(goal, start) <= Held(start, log, n) <= start + goal.target
  {
    forall p | p in Kept(goal, start) ensures p in Held(start, log, n) {
      TargetStays(goal, start, log, p, 0, n);
    }
    forall p | p !in start + goal.target ensures p !in Held(start, log, n) {
      OffTargetStaysAway(goal, start, log, p, 0, n);
    }
  }

  lemma ConfirmedTargetIsHeld(goal: Goal, start: set<Package>, log: Log, p: Package)
    requires Grounded(start, log) && AllSteer(goal, log) && p in goal.target && AddConfirmed(log, p)
    ensures p in Held(start, log, |log|)
  {
    TakeAll(log);
    forall k | 0 <= k < |log| ensures !Requests(log[k], p, AdminRemove) {
      SteeringNeverAsks(goal, log, k, p);
    }
    ConfirmedAddIsHeld(start, log, p, |log|, |log|);
  }

  lemma ConfirmedSurplusIsGone(goal: Goal, start: set<Package>, log: Log, p: Package)
    requires Grounded(start, log) && LookupsComplete(start, log) && AllSteer(goal, log)
    requires Surplus(goal, p) && RemovalConfirmed(log, p)
    ensures p !in Held(start, log, |log|)
  {
    TakeAll(log);
    forall k | 0 <= k < |log| ensures !Requests(log[k], p, AdminAdd) {
      SteeringNeverAsks(goal, log, k, p);
    }
    ConfirmedRemovalIsGone(start, log, p, |log|, |log|);
  }

  /** The log confirms every missing target and the removal of every surplus package of these holdings. */
  ghost predicate ConfirmsRest(log: Log, goal: Goal, held: set<Package>) {
    && (forall p :: p in goal.target - held ==> AddConfirmed(log, p))
    && (forall p :: p in held && Surplus(goal, p) ==> RemovalConfirmed(log, p))
  }

  lemma PlanIsTheRest(log: Log, goal: Goal, held: set<Package>)
    requires goal.target <= goal.catalogue && ConfirmsPlan(log, PlanFor(goal, held))
    ensures ConfirmsRest(log, goal, held)
  {
    DistanceIsPlanSize(goal, held);
    forall p | p in goal.target - held ensures AddConfirmed(log, p) {
      assert p in PlanFor(goal, held).adds;
      assert Confirmed(log, p, AdminAdd);
    }
    forall p | p in held && Surplus(goal, p) ensures RemovalConfirmed(log, p) {
      assert p in PlanFor(goal, held).removes;
      assert Confirmed(log, p, AdminRemove);
    }
  }

  /** What was missing at any one position and wholly confirmed leads to the goal. */
  lemma RestArrives(goal: Goal, start: set<Package>, log: Log, k: nat)
    requires Grounded(start, log) && LookupsComplete(start, log) && AllSteer(goal, log) && k <= |log|
    requires ConfirmsRest(log, goal, Held(start, log, k))
    ensures Held(start, log, |log|) == Kept(goal, start) + goal.target
  {
    SteeredHoldings(goal, start, log, |log|);
    forall p | p in goal.target ensures p in Held(start, log, |log|) {
      if p in Held(start, log, k) {
        TargetStays(goal, start, log, p, k, |log|);
      } else {
        ConfirmedTargetIsHeld(goal, start, log, p);
      }
    }
    forall p | Surplus(goal, p) ensures p !in Held(start, log, |log|) {
      if p in Held(start, log, k) {
        ConfirmedSurplusIsGone(goal, start, log, p);
      } else {
        OffTargetStaysAway(goal, start, log, p, k, |log|);
      }
    }
  }

  lemma ArrivedIsDone(goal: Goal, start: set<Package>)
    ensures Distance(goal, Kept(goal, start) + goal.target) == 0
  {
    var held := Kept(goal, start) + goal.target;
    assert goal.target - held == {};
    assert (set p | p in held && Surplus(goal, p)) == {};
  }

  /**
   * Where a wholly successful run arrives, whatever runs towards the goal went before it:
   * if its plan was made for what the user held at some time and every action succeeded,
   * the user ends up holding exactly what may stay and the target, and nothing is left to
   * do.
   */
  lemma FullSuccessArrives(driver: Driver, oracle: Oracle, s: Setting, w: World, t: Trace, goal: Goal,
                           start: set<Package>, k: nat)
    requires IsRun(driver, oracle, s, w, t) && Pursues(s, goal) && AllSteer(goal, w.log)
    requires t.done.value.Some? && AllSucceeded(t.done.value.value.actions)
    requires Grounded(start, t.run.world.log) && LookupsComplete(start, t.run.world.log) && k <= |t.run.world.log|
    requires t.pre.prepared.Ready? && t.pre.prepared.plan == PlanFor(goal, Held(start, t.run.world.log, k))
    ensures var held := Held(start, t.run.world.log, |t.run.world.log|);
      held == Kept(goal, start) + goal.target && Distance(goal, held) == 0
  {
    RunConfirmsPlan(driver, oracle, s, w, t);
    RunsSteer(driver, oracle, s, w, t, goal);
    GoalIsManaged(driver, oracle, s, w, t, goal);
    PlanIsTheRest(t.run.world.log, goal, Held(start, t.run.world.log, k));
    RestArrives(goal, start, t.run.world.log, k);
    ArrivedIsDone(goal, start);
  }
}
