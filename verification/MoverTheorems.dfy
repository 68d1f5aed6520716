/** What a Mover run guarantees, for every tenant and under either driver. */
module MoverTheorems {
  import opened Collections
  import opened Tenant
  import opened Phases
  import opened PollLoops
  import opened PhaseProperties
  import opened Resolver
  import opened Planning
  import opened Verifier
  import opened Drivers
  import opened MoverRun
  import ES = EventStore

  // The two drivers.

  lemma StrategiesAAgree(oracle: Oracle, log: Log, r: Prepared, s: Setting)
    requires r.Ready?
    ensures StrategyA(Durable, oracle, log, r, s) == StrategyA(Synchronous, oracle, log, r, s)
  {
    var adds := s.order(r.plan.adds);
    OperationsAgree(oracle, log, adds, r.newPolicies, AdminAdd, s.window);
    var added := Operation(oracle, log, adds, r.newPolicies, AdminAdd, s.window);
    OperationsAgree(oracle, added.log, s.order(r.plan.removes), r.currentPolicies, AdminRemove, s.window);
  }

  lemma StrategiesBAgree(oracle: Oracle, log: Log, r: Prepared, s: Setting)
    requires r.Ready? && !s.patch
    ensures StrategyB(Durable, oracle, log, r, s) == StrategyB(Synchronous, oracle, log, r, s)
  {
    var removes := s.order(r.plan.removes);
    OperationsAgree(oracle, log, removes, r.currentPolicies, AdminRemove, s.window);
    var removed := Operation(oracle, log, removes, r.currentPolicies, AdminRemove, s.window);
    OperationsAgree(oracle, removed.log, s.order(r.plan.adds), r.newPolicies, AdminAdd, s.window);
  }

  lemma ProvisionsAgree(oracle: Oracle, log: Log, r: Prepared, s: Setting)
    requires r.Ready? && !(r.reorder && s.patch)
    ensures Provision(Durable, oracle, log, r, s) == Provision(Synchronous, oracle, log, r, s)
  {
    if r.reorder {
      StrategiesBAgree(oracle, log, r, s);
    } else {
      StrategiesAAgree(oracle, log, r, s);
    }
  }

  /**
   * The durable Mover refines the synchronous one: for every tenant a run that does not
   * reorder, or has no attributes to patch, makes the same calls with the same answers
   * in the same order, leaves the same rows and ends the same way under both drivers.
   */
  lemma DriversAgree(oracle: Oracle, s: Setting, w: World)
    requires var pre := Prepare(oracle, s, w).prepared; pre.Ready? ==> !(pre.reorder && s.patch)
    ensures Run(Durable, oracle, s, w) == Run(Synchronous, oracle, s, w)
  {
    var pre := Prepare(oracle, s, w);
    if pre.prepared.Ready? {
      ProvisionsAgree(oracle, pre.world.log, pre.prepared, s);
    }
  }

  // Tenants that lead to the same plan and then refuse.

  /** Accepts nothing, shows nothing assigned, and fails every other call. */
  function Refusing(log: Log, call: Call): Reply {
    Reply([], if call.CheckAssignment? then Lookup(None) else GraphError)
  }

  /** Like `first` on logs shorter than `n`, refusing from there on. */
  function Then(first: Oracle, n: nat): Oracle {
    (log: Log, call: Call) => if |log| < n then first(log, call) else Refusing(log, call)
  }

  ghost predicate SameUntil(a: Oracle, b: Oracle, n: nat) {
    forall log: Log, call: Call :: |log| < n ==> a(log, call) == b(log, call)
  }

  ghost predicate RefusingFrom(oracle: Oracle, n: nat) {
    forall log: Log, call: Call :: |log| >= n ==> oracle(log, call) == Refusing(log, call)
  }

  lemma SameCall(a: Oracle, b: Oracle, n: nat, log: Log, call: Call)
    requires SameUntil(a, b, n) && |log| < n
    ensures Ask(b, log, call) == Ask(a, log, call) && Heard(b, log, call) == Heard(a, log, call)
  {
    assert a(log, call) == b(log, call);
  }

  lemma {:induction false} SameQueries(a: Oracle, b: Oracle, n: nat, log: Log, adds: seq<Package>)
    requires SameUntil(a, b, n) && |QueryAll(a, log, adds).log| <= n
    ensures QueryAll(b, log, adds) == QueryAll(a, log, adds)
  {
    if adds != [] {
      var init, call := adds[..|adds| - 1], GetIncompatibilities(adds[|adds| - 1]);
      var most := QueryAll(a, log, init);
      assert |most.log| < |Ask(a, most.log, call)|;
      SameQueries(a, b, n, log, init);
      SameCall(a, b, n, most.log, call);
    }
  }

  lemma SamePlan(a: Oracle, b: Oracle, n: nat, s: Setting, w: World, held: seq<Assignment>)
    requires SameUntil(a, b, n) && |PlanMove(a, s, w, held).world.log| <= n
    ensures PlanMove(b, s, w, held) == PlanMove(a, s, w, held)
  {
    if s.rules.Some? {
      var plan := MakePlan(Fetched(held), PackagesOf(Resolve(s.rules.value, s.who)), Catalogue(s.rules.value),
                           s.registry, s.today);
      var asked := if s.hasManager then Ask(a, w.log, GetManager) else w.log;
      QueriesExtend(a, asked, s.sorted(plan.adds));
      assert |asked| <= n;
      if s.hasManager {
        assert |w.log| < |asked|;
        SameCall(a, b, n, w.log, GetManager);
      }
      SameQueries(a, b, n, asked, s.sorted(plan.adds));
    }
  }

  lemma PlanExtends(oracle: Oracle, s: Setting, w: World, held: seq<Assignment>)
    ensures w.log <= PlanMove(oracle, s, w, held).world.log
  {
    if s.rules.Some? {
      var plan := MakePlan(Fetched(held), PackagesOf(Resolve(s.rules.value, s.who)), Catalogue(s.rules.value),
                           s.registry, s.today);
      var asked := if s.hasManager then Ask(oracle, w.log, GetManager) else w.log;
      QueriesExtend(oracle, asked, s.sorted(plan.adds));
    }
  }

  lemma SameFetch(a: Oracle, b: Oracle, n: nat, s: Setting, w: World)
    requires SameUntil(a, b, n) && |FetchAndPlan(a, s, w).world.log| <= n
    ensures FetchAndPlan(b, s, w) == FetchAndPlan(a, s, w)
  {
    var asked := Ask(a, w.log, GetUser);
    assert |w.log| < |asked|;
    if Heard(a, w.log, GetUser).User? {
      var fetched := Ask(a, asked, GetAssignments);
      assert |asked| < |fetched|;
      var locked := World(fetched, ES.Acquire(w.rows, s.event, s.holder, s.lockAt));
      match Heard(a, asked, GetAssignments)
      case Assignments(all) =>
        PlanExtends(a, s, locked, all);
        SamePlan(a, b, n, s, locked, all);
        SameCall(a, b, n, w.log, GetUser);
        SameCall(a, b, n, asked, GetAssignments);
      case _ =>
        SameCall(a, b, n, w.log, GetUser);
        SameCall(a, b, n, asked, GetAssignments);
    } else {
      SameCall(a, b, n, w.log, GetUser);
    }
  }

  /** A run cannot tell tenants apart that answer alike until it is prepared. */
  lemma SamePreparation(a: Oracle, b: Oracle, s: Setting, w: World)
    requires SameUntil(a, b, |Prepare(a, s, w).world.log|)
    ensures Prepare(b, s, w) == Prepare(a, s, w)
  {
    var claimed := ES.Claim(w.rows, s.event, ES.Mover, s.claimAt);
    if ES.Claimable(ES.Find(w.rows, s.event), s.claimAt) && !s.concurrent {
      SameFetch(a, b, |Prepare(a, s, w).world.log|, s, World(w.log, claimed));
    }
  }

  lemma RefusedOperation(oracle: Oracle, n: nat, log: Log, order: seq<Package>, policies: map<Package, string>,
      kind: RequestKind, window: Window)
    requires RefusingFrom(oracle, n) && n <= |log|
    ensures var r := Operation(oracle, log, order, policies, kind, window);
      r.log == Submit(oracle, log, order, policies, kind).log && r.value.Some? && log <= r.log
  {
    assert Refuses(oracle, n) by {
      forall at: Log, call: Call | |at| >= n ensures oracle(at, call) == Refusing(at, call) {}
    }
    NothingAcceptedNothingPolled(oracle, log, order, policies, kind, window, n);
    SubmitExtends(oracle, log, order, policies, kind);
  }

  /** Every addition the plan makes has a policy and, when reordering, there is one. */
  ghost predicate Covered(r: Prepared, s: Setting)
    requires r.Ready?
  {
    (forall p :: p in r.plan.adds ==> PolicyFor(r.newPolicies, p) != "") && (r.reorder ==> r.plan.adds != {})
  }

  lemma PreparedMovesAreCovered(oracle: Oracle, s: Setting, w: World)
    requires Iterates(s.sorted)
    ensures var r := Prepare(oracle, s, w).prepared; r.Ready? ==> Covered(r, s)
  {
    var pre := Prepare(oracle, s, w).prepared;
    if pre.Ready? {
      TargetsAreManagedAndCovered(s.rules.value, s.who);
      assert Elements(s.sorted(pre.plan.adds)) == pre.plan.adds;
      if pre.reorder {
        assert s.sorted(pre.plan.adds) != [];
        assert s.sorted(pre.plan.adds)[0] in Elements(s.sorted(pre.plan.adds));
      }
    }
  }

  /** On every tenant that leads to the same preparation, both drivers make the same run of it. */
  ghost predicate Interchangeable(oracle: Oracle, s: Setting, w: World) {
    forall other: Oracle :: Prepare(other, s, w) == Prepare(oracle, s, w) ==> SameRuns(other, s, w)
  }

  ghost predicate SameRuns(oracle: Oracle, s: Setting, w: World) {
    Run(Durable, oracle, s, w) == Run(Synchronous, oracle, s, w)
  }

  /**
   * Exactly when the drivers are interchangeable: unless the run is prepared to remove
   * first and has attributes to patch.  From every such preparation some tenant brings
   * out that the durable driver patches between removals and additions and the
   * synchronous one after both, although the activities are documented as behaving
   * identically.
   */
  lemma DriversAgreeIff(oracle: Oracle, s: Setting, w: World)
    requires Iterates(s.order) && Iterates(s.sorted)
    ensures var r := Prepare(oracle, s, w).prepared;
      Interchangeable(oracle, s, w) <==> !(r.Ready? && r.reorder && s.patch)
  {
    var r := Prepare(oracle, s, w).prepared;
    if r.Ready? && r.reorder && s.patch {
      RunsDiffer(oracle, s, w);
      var n := |Prepare(oracle, s, w).world.log|;
      SamePreparation(oracle, Then(oracle, n), s, w);
      assert !SameRuns(Then(oracle, n), s, w);
    } else {
      forall other: Oracle | Prepare(other, s, w) == Prepare(oracle, s, w) ensures SameRuns(other, s, w) {
        DriversAgree(other, s, w);
      }
    }
  }

  lemma RunsDiffer(oracle: Oracle, s: Setting, w: World)
    requires Iterates(s.order) && Iterates(s.sorted)
    requires var r := Prepare(oracle, s, w).prepared; r.Ready? && r.reorder && s.patch
    ensures !SameRuns(Then(oracle, |Prepare(oracle, s, w).world.log|), s, w)
  {
    var pre := Prepare(oracle, s, w);
    var n, other := |pre.world.log|, Then(oracle, |pre.world.log|);
    SamePreparation(oracle, other, s, w);
    PreparedMovesAreCovered(oracle, s, w);
    var sync, durable := TraceOf(Synchronous, other, s, w), TraceOf(Durable, other, s, w);
    Unfold(Synchronous, other, s, w, sync);
    Unfold(Durable, other, s, w, durable);
    RefusedRunsDiffer(other, n, s, w, sync, durable);
  }

  lemma RefusedRunsDiffer(oracle: Oracle, n: nat, s: Setting, w: World, sync: Trace, durable: Trace)
    requires IsRun(Synchronous, oracle, s, w, sync) && IsRun(Durable, oracle, s, w, durable) && sync.pre == durable.pre
    requires RefusingFrom(oracle, n) && n <= |sync.pre.world.log|
    requires var r := sync.pre.prepared; r.Ready? && r.reorder && s.patch && Covered(r, s) && Iterates(s.order)
    ensures sync.run != durable.run
  {
    TraceConcludes(Synchronous, oracle, s, w, sync);
    TraceConcludes(Durable, oracle, s, w, durable);
    RefusedProvisionsDiffer(oracle, n, s, sync.pre.world, sync.pre.prepared, sync.done, durable.done);
  }

  lemma RefusedProvisionsDiffer(oracle: Oracle, n: nat, s: Setting, w: World, r: Prepared,
      sync: Step<Option<Provisioned>>, durable: Step<Option<Provisioned>>)
    requires RefusingFrom(oracle, n) && n <= |w.log|
    requires r.Ready? && r.reorder && s.patch && Covered(r, s) && Iterates(s.order)
    requires IsProvision(Synchronous, oracle, w.log, r, s, sync) && IsProvision(Durable, oracle, w.log, r, s, durable)
    ensures Conclude(oracle, s, w.rows, r.plan, durable) != Conclude(oracle, s, w.rows, r.plan, sync)
  {
    SyncPatchesLast(oracle, n, w.log, r, s, sync);
    DurableAddsLast(oracle, n, w.log, r, s, durable);
    ConclusionsDiffer(oracle, n, s, w.rows, r.plan, sync, durable);
  }

  lemma TraceConcludes(driver: Driver, oracle: Oracle, s: Setting, w: World, t: Trace)
    requires IsRun(driver, oracle, s, w, t) && t.pre.prepared.Ready?
    ensures t.run == Conclude(oracle, s, t.pre.world.rows, t.pre.prepared.plan, t.done)
    ensures IsProvision(driver, oracle, t.pre.world.log, t.pre.prepared, s, t.done)
  {
    Unfold(driver, oracle, s, w, t);
  }

  /** `done` is what provisioning does from this log. */
  ghost predicate IsProvision(driver: Driver, oracle: Oracle, log: Log, r: Prepared, s: Setting,
                              done: Step<Option<Provisioned>>)
    requires r.Ready?
  {
    forall l :: Same(l, log) ==> Provision(driver, oracle, l, r, s) == done
  }

  /** On a tenant that refuses, the second last events of the two runs are different calls. */
  lemma ConclusionsDiffer(oracle: Oracle, n: nat, s: Setting, rows: ES.Partition, plan: Plan,
      sync: Step<Option<Provisioned>>, durable: Step<Option<Provisioned>>)
    requires RefusingFrom(oracle, n) && n <= |sync.log| && n <= |durable.log| && sync.value.Some? && durable.value.Some?
    requires sync.log != [] && durable.log != [] && sync.log[|sync.log| - 1] != durable.log[|durable.log| - 1]
    ensures Conclude(oracle, s, rows, plan, durable) != Conclude(oracle, s, rows, plan, sync)
  {
    RefusedConclusion(oracle, n, s, rows, plan, sync);
    RefusedConclusion(oracle, n, s, rows, plan, durable);
    LastDiffers(sync.log, durable.log, Engine(GetAssignments, GraphError));
  }

  lemma LastDiffers(a: Log, b: Log, end: Event)
    requires a != [] && b != [] && a[|a| - 1] != b[|b| - 1]
    ensures a + [end] != b + [end]
  {
    assert (a + [end])[..|a|] == a && (b + [end])[..|b|] == b;
  }

  lemma RefusedConclusion(oracle: Oracle, n: nat, s: Setting, rows: ES.Partition, plan: Plan,
                          done: Step<Option<Provisioned>>)
    requires RefusingFrom(oracle, n) && n <= |done.log| && done.value.Some?
    ensures Conclude(oracle, s, rows, plan, done).world.log == done.log + [Engine(GetAssignments, GraphError)]
  {
    assert oracle(done.log, GetAssignments) == Refusing(done.log, GetAssignments);
    assert OwnChanges([]) == [];
    assert Ask(oracle, done.log, GetAssignments) == done.log + [Engine(GetAssignments, GraphError)];
  }

  lemma SyncPatchesLast(oracle: Oracle, n: nat, log: Log, r: Prepared, s: Setting, done: Step<Option<Provisioned>>)
    requires RefusingFrom(oracle, n) && n <= |log| && r.Ready? && r.reorder && s.patch
    requires IsProvision(Synchronous, oracle, log, r, s, done)
    ensures log <= done.log && done.log != []
    ensures done.log[|done.log| - 1].Engine? && done.log[|done.log| - 1].call == PatchUser
      && done.value.Some?
  {
    assert Same(log, log) && Provision(Synchronous, oracle, log, r, s) == done;
    var removes, adds := s.order(r.plan.removes), s.order(r.plan.adds);
    RefusedOperation(oracle, n, log, removes, r.currentPolicies, AdminRemove, s.window);
    var removed := Operation(oracle, log, removes, r.currentPolicies, AdminRemove, s.window);
    RefusedOperation(oracle, n, removed.log, adds, r.newPolicies, AdminAdd, s.window);
    var added := Operation(oracle, removed.log, adds, r.newPolicies, AdminAdd, s.window);
    assert Provision(Synchronous, oracle, log, r, s).log == Ask(oracle, added.log, PatchUser);
  }

  ghost predicate EndsInARequest(log: Log) {
    log != [] && log[|log| - 1].Engine? && log[|log| - 1].call.RequestAssignment?
  }

  lemma DurableAddsLast(oracle: Oracle, n: nat, log: Log, r: Prepared, s: Setting, done: Step<Option<Provisioned>>)
    requires RefusingFrom(oracle, n) && n <= |log| && r.Ready? && r.reorder && s.patch
    requires Covered(r, s) && Iterates(s.order) && IsProvision(Durable, oracle, log, r, s, done)
    ensures log <= done.log && EndsInARequest(done.log) && done.value.Some?
  {
    var removed, added := RefusedParts(oracle, n, log, r, s);
    DurableStrategyB(oracle, log, r, s, removed, added);
    assert Same(log, log) && Provision(Durable, oracle, log, r, s) == done;
  }

  /** The two operations of a reordered durable run on that tenant; the second ends with a request. */
  lemma RefusedParts(oracle: Oracle, n: nat, log: Log, r: Prepared, s: Setting)
    returns (removed: Step<Option<seq<Action>>>, added: Step<Option<seq<Action>>>)
    requires RefusingFrom(oracle, n) && n <= |log| && r.Ready? && r.reorder && Covered(r, s) && Iterates(s.order)
    ensures removed == Operate(Durable, oracle, log, s.order(r.plan.removes), r.currentPolicies, AdminRemove, s.window)
    ensures added == Operate(Durable, oracle, Ask(oracle, removed.log, PatchUser), s.order(r.plan.adds),
                             r.newPolicies, AdminAdd, s.window)
    ensures removed.value.Some? && added.value.Some? && log <= added.log && EndsInARequest(added.log)
  {
    var removes := s.order(r.plan.removes);
    removed := Operate(Durable, oracle, log, removes, r.currentPolicies, AdminRemove, s.window);
    RefusedOperate(Durable, oracle, n, log, removes, r.currentPolicies, AdminRemove, s.window);
    added := RefusedAdditions(oracle, n, Ask(oracle, removed.log, PatchUser), r, s);
  }

  lemma RefusedAdditions(oracle: Oracle, n: nat, log: Log, r: Prepared, s: Setting)
    returns (added: Step<Option<seq<Action>>>)
    requires RefusingFrom(oracle, n) && n <= |log| && r.Ready? && r.reorder && Covered(r, s) && Iterates(s.order)
    ensures added == Operate(Durable, oracle, log, s.order(r.plan.adds), r.newPolicies, AdminAdd, s.window)
    ensures added.value.Some? && log <= added.log && EndsInARequest(added.log)
  {
    var adds := s.order(r.plan.adds);
    added := Operate(Durable, oracle, log, adds, r.newPolicies, AdminAdd, s.window);
    RefusedOperate(Durable, oracle, n, log, adds, r.newPolicies, AdminAdd, s.window);
    LastIsARequest(oracle, n, log, adds, r, s);
  }

  lemma RefusedOperate(driver: Driver, oracle: Oracle, n: nat, log: Log, order: seq<Package>,
                       policies: map<Package, string>, kind: RequestKind, window: Window)
    requires RefusingFrom(oracle, n) && n <= |log|
    ensures var r := Operate(driver, oracle, log, order, policies, kind, window);
      r.log == Submit(oracle, log, order, policies, kind).log && r.value.Some? && log <= r.log
  {
    OperateIsOperation(driver, oracle, log, order, policies, kind, window);
    RefusedOperation(oracle, n, log, order, policies, kind, window);
  }

  lemma DurableStrategyB(oracle: Oracle, log: Log, r: Prepared, s: Setting, removed: Step<Option<seq<Action>>>,
      added: Step<Option<seq<Action>>>)
    requires r.Ready? && r.reorder && s.patch && removed.value.Some? && added.value.Some?
    requires Operate(Durable, oracle, log, s.order(r.plan.removes), r.currentPolicies, AdminRemove, s.window) == removed
    requires added == Operate(Durable, oracle, Ask(oracle, removed.log, PatchUser), s.order(r.plan.adds),
                              r.newPolicies, AdminAdd, s.window)
    ensures Provision(Durable, oracle, log, r, s) ==
      Step(added.log, Some(Provisioned(removed.value.value + added.value.value, Succeeded(removed.value.value))))
  {
  }

  lemma LastIsARequest(oracle: Oracle, n: nat, log: Log, order: seq<Package>, r: Prepared, s: Setting)
    requires RefusingFrom(oracle, n) && n <= |log|
    requires r.Ready? && Covered(r, s) && r.reorder && Iterates(s.order) && order == s.order(r.plan.adds)
    ensures EndsInARequest(Submit(oracle, log, order, r.newPolicies, AdminAdd).log)
  {
    NoElements(order);
    var init, last := order[..|order| - 1], order[|order| - 1];
    assert last in Elements(order);
    var most := Submit(oracle, log, init, r.newPolicies, AdminAdd);
    SubmitExtends(oracle, log, init, r.newPolicies, AdminAdd);
    assert oracle(most.log, CheckAssignment(last)) == Refusing(most.log, CheckAssignment(last));
    assert SubmitOne(oracle, most.log, last, r.newPolicies, AdminAdd) ==
      RequestNow(oracle, Ask(oracle, most.log, CheckAssignment(last)),
                 Fresh(last, PolicyFor(r.newPolicies, last), AdminAdd));
  }
}
