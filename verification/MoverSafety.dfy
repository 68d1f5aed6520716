/** What a Mover run does to the user's holdings while it is under way. */
module MoverSafety {
  import opened Collections
  import opened Tenant
  import opened Phases
  import opened PollLoops
  import opened PhaseProperties
  import opened Planning
  import opened Resolver
  import opened Verifier
  import opened Drivers
  import opened MoverRun
  import opened MoverTheorems

  // What a run writes.

  predicate RequestOf(call: Call, kind: RequestKind, packages: set<Package>) {
    call.RequestAssignment? && call.kind == kind && call.package in packages
  }

  predicate Allowed(event: Event, adds: set<Package>, removes: set<Package>, patch: bool) {
    event.Engine? && IsWrite(event.call) ==>
      (patch && event.call == PatchUser) || RequestOf(event.call, AdminAdd, adds) ||
      RequestOf(event.call, AdminRemove, removes)
  }

  /** From position `from` on, the log writes only these requests, and a PATCH if allowed. */
  ghost predicate WritesOnly(log: Log, from: nat, adds: set<Package>, removes: set<Package>, patch: bool) {
    forall k :: from <= k < |log| ==> Allowed(log[k], adds, removes, patch)
  }

  lemma NoNewWrites(before: Log, after: Log, adds: set<Package>, removes: set<Package>, patch: bool)
    requires before <= after && Writes(after) == Writes(before)
    ensures WritesOnly(after, |before|, adds, removes, patch)
  {
    forall k | |before| <= k < |after| ensures Allowed(after[k], adds, removes, patch) {
      if after[k].Engine? && IsWrite(after[k].call) {
        SuffixWrites(before, after, [], k);
      }
    }
  }

  lemma Extended(log: Log, from: nat, more: Log, adds: set<Package>, removes: set<Package>, patch: bool)
    requires log <= more && from <= |log|
    requires WritesOnly(log, from, adds, removes, patch) && WritesOnly(more, |log|, adds, removes, patch)
    ensures WritesOnly(more, from, adds, removes, patch)
  {
    forall k | from <= k < |more| ensures Allowed(more[k], adds, removes, patch) {
      if k < |log| {
        assert more[k] == log[k];
      }
    }
  }

  /** Additions request only packages of the order. */
  lemma AdditionsWrite(oracle: Oracle, log: Log, order: seq<Package>, policies: map<Package, string>, window: Window)
    ensures var r := Operation(oracle, log, order, policies, AdminAdd, window);
      log <= r.log && WritesOnly(r.log, |log|, Elements(order), {}, false)
  {
    var r := Operation(oracle, log, order, policies, AdminAdd, window);
    OperationWrites(oracle, log, order, policies, AdminAdd, window);
    var requests := SubmitAdditionsWrites(oracle, log, order, policies);
    forall k | |log| <= k < |r.log| ensures Allowed(r.log[k], Elements(order), {}, false) {
      if r.log[k].Engine? && IsWrite(r.log[k].call) {
        SuffixWrites(log, r.log, requests, k);
      }
    }
  }

  lemma RemovalsWrite(oracle: Oracle, log: Log, order: seq<Package>, policies: map<Package, string>, window: Window)
    ensures var r := Operation(oracle, log, order, policies, AdminRemove, window);
      log <= r.log && WritesOnly(r.log, |log|, {}, Elements(order), false)
  {
    var r := Operation(oracle, log, order, policies, AdminRemove, window);
    OperationWrites(oracle, log, order, policies, AdminRemove, window);
    SubmitRemovalsWrites(oracle, log, order, policies);
    var requests := RemovalRequests(order, policies);
    forall k | |log| <= k < |r.log| ensures Allowed(r.log[k], {}, Elements(order), false) {
      if r.log[k].Engine? && IsWrite(r.log[k].call) {
        SuffixWrites(log, r.log, requests, k);
        var i :| 0 <= i < |requests| && requests[i] == r.log[k].call;
      }
    }
  }

  lemma PatchWrites(oracle: Oracle, log: Log, patch: bool)
    ensures log <= Patched(oracle, log, patch)
    ensures WritesOnly(Patched(oracle, log, patch), |log|, {}, {}, true)
  {
    var after := Patched(oracle, log, patch);
    if patch {
      WritesOfAsk(oracle, log, PatchUser);
      forall k | |log| <= k < |after| ensures Allowed(after[k], {}, {}, true) {
        if after[k].Engine? && IsWrite(after[k].call) {
          SuffixWrites(log, after, [PatchUser], k);
        }
      }
    }
  }

  lemma Weaker(log: Log, from: nat, adds: set<Package>, removes: set<Package>, patch: bool, moreAdds: set<Package>,
      moreRemoves: set<Package>)
    requires WritesOnly(log, from, adds, removes, patch) && adds <= moreAdds && removes <= moreRemoves
    ensures WritesOnly(log, from, moreAdds, moreRemoves, true)
  {
  }

  /**
   * Strategy A in two parts: up to `gate` only additions are requested; past it there
   * are requests only if by then the log confirms every addition of the plan.
   */
  lemma StrategyAIsGated(driver: Driver, oracle: Oracle, log: Log, r: Prepared, s: Setting) returns (gate: Log)
    requires r.Ready? && Iterates(s.order)
    ensures var after := StrategyA(driver, oracle, log, r, s).log;
      && log <= gate <= after
      && WritesOnly(gate, |log|, r.plan.adds, {}, false)
      && WritesOnly(after, |gate|, {}, r.plan.removes, true)
      && (after == gate || forall p :: p in r.plan.adds ==> AddConfirmed(gate, p))
  {
    var order, second := s.order(r.plan.adds), s.order(r.plan.removes);
    OperateIsOperation(driver, oracle, log, order, r.newPolicies, AdminAdd, s.window);
    var added := Operation(oracle, log, order, r.newPolicies, AdminAdd, s.window);
    AdditionsWrite(oracle, log, order, r.newPolicies, s.window);
    gate := added.log;
    assert Elements(order) == r.plan.adds && Elements(second) == r.plan.removes;
    if added.value.Some? && AllSucceeded(added.value.value) {
      OperationIsExact(oracle, log, order, r.newPolicies, AdminAdd, s.window);
      assert forall p :: p in r.plan.adds ==> Confirmed(gate, p, AdminAdd);
      OperateIsOperation(driver, oracle, gate, second, r.currentPolicies, AdminRemove, s.window);
      var removed := Operation(oracle, gate, second, r.currentPolicies, AdminRemove, s.window);
      RemovalsWrite(oracle, gate, second, r.currentPolicies, s.window);
      Weaker(removed.log, |gate|, {}, r.plan.removes, false, {}, r.plan.removes);
      if removed.value.Some? {
        PatchWrites(oracle, removed.log, s.patch);
        var after := Patched(oracle, removed.log, s.patch);
        Weaker(after, |removed.log|, {}, {}, true, {}, r.plan.removes);
        Extended(removed.log, |gate|, after, {}, r.plan.removes, true);
      }
    }
  }

  lemma OperateWrites(driver: Driver, oracle: Oracle, log: Log, order: seq<Package>, policies: map<Package, string>,
      kind: RequestKind, window: Window, plan: Plan)
    requires Elements(order) == if kind == AdminAdd then plan.adds else plan.removes
    ensures var r := Operate(driver, oracle, log, order, policies, kind, window);
      log <= r.log && WritesOnly(r.log, |log|, plan.adds, plan.removes, true)
  {
    OperateIsOperation(driver, oracle, log, order, policies, kind, window);
    var r := Operation(oracle, log, order, policies, kind, window);
    if kind == AdminAdd {
      AdditionsWrite(oracle, log, order, policies, window);
      Weaker(r.log, |log|, Elements(order), {}, false, plan.adds, plan.removes);
    } else {
      RemovalsWrite(oracle, log, order, policies, window);
      Weaker(r.log, |log|, {}, Elements(order), false, plan.adds, plan.removes);
    }
  }

  lemma PatchedWrites(oracle: Oracle, log: Log, patch: bool, plan: Plan)
    ensures log <= Patched(oracle, log, patch)
    ensures WritesOnly(Patched(oracle, log, patch), |log|, plan.adds, plan.removes, true)
  {
    PatchWrites(oracle, log, patch);
    Weaker(Patched(oracle, log, patch), |log|, {}, {}, true, plan.adds, plan.removes);
  }

  lemma StrategyBWrites(driver: Driver, oracle: Oracle, log: Log, r: Prepared, s: Setting)
    requires r.Ready? && Iterates(s.order)
    ensures var after := StrategyB(driver, oracle, log, r, s).log;
      log <= after && WritesOnly(after, |log|, r.plan.adds, r.plan.removes, true)
  {
    var plan := r.plan;
    var removed := Operate(driver, oracle, log, s.order(plan.removes), r.currentPolicies, AdminRemove, s.window);
    OperateWrites(driver, oracle, log, s.order(plan.removes), r.currentPolicies, AdminRemove, s.window, plan);
    if removed.value.Some? {
      var between := if driver == Durable then Patched(oracle, removed.log, s.patch) else removed.log;
      PatchedWrites(oracle, removed.log, s.patch, plan);
      Extended(removed.log, |log|, between, plan.adds, plan.removes, true);
      var added := Operate(driver, oracle, between, s.order(plan.adds), r.newPolicies, AdminAdd, s.window);
      OperateWrites(driver, oracle, between, s.order(plan.adds), r.newPolicies, AdminAdd, s.window, plan);
      Extended(between, |log|, added.log, plan.adds, plan.removes, true);
      PatchedWrites(oracle, added.log, s.patch, plan);
      if added.value.Some? && driver == Synchronous {
        Extended(added.log, |log|, Patched(oracle, added.log, s.patch), plan.adds, plan.removes, true);
      }
    }
  }

  lemma ProvisionWrites(driver: Driver, oracle: Oracle, log: Log, r: Prepared, s: Setting)
    requires r.Ready? && Iterates(s.order)
    ensures var after := Provision(driver, oracle, log, r, s).log;
      log <= after && WritesOnly(after, |log|, r.plan.adds, r.plan.removes, true)
  {
    if r.reorder {
      StrategyBWrites(driver, oracle, log, r, s);
    } else {
      var gate := StrategyAIsGated(driver, oracle, log, r, s);
      var after := StrategyA(driver, oracle, log, r, s).log;
      Weaker(gate, |log|, r.plan.adds, {}, false, r.plan.adds, r.plan.removes);
      Weaker(after, |gate|, {}, r.plan.removes, true, r.plan.adds, r.plan.removes);
      Extended(gate, |log|, after, r.plan.adds, r.plan.removes, true);
    }
  }

  lemma PlanningWritesNothing(oracle: Oracle, s: Setting, w: World, held: seq<Assignment>)
    ensures OnlyReads(w.log, PlanMove(oracle, s, w, held).world.log)
  {
    if s.rules.Some? {
      var asked := if s.hasManager then Ask(oracle, w.log, GetManager) else w.log;
      ReadCall(oracle, w.log, GetManager);
      var plan := MakePlan(Fetched(held), PackagesOf(Resolve(s.rules.value, s.who)), Catalogue(s.rules.value),
                           s.registry, s.today);
      QueriesExtend(oracle, asked, s.sorted(plan.adds));
      ReadsOn(w.log, asked, QueryAll(oracle, asked, s.sorted(plan.adds)).log);
    }
  }

  lemma FetchingWritesNothing(oracle: Oracle, s: Setting, w: World)
    ensures OnlyReads(w.log, FetchAndPlan(oracle, s, w).world.log)
  {
    var asked := Ask(oracle, w.log, GetUser);
    ReadCall(oracle, w.log, GetUser);
    if Heard(oracle, w.log, GetUser).User? {
      ReadCall(oracle, asked, GetAssignments);
      var fetched := Ask(oracle, asked, GetAssignments);
      ReadsOn(w.log, asked, fetched);
      var answer := Heard(oracle, asked, GetAssignments);
      if answer.Assignments? {
        var locked := World(fetched, ES.Acquire(w.rows, s.event, s.holder, s.lockAt));
        PlanningWritesNothing(oracle, s, locked, answer.all);
        ReadsOn(w.log, fetched, PlanMove(oracle, s, locked, answer.all).world.log);
      }
    }
  }

  /** Claiming, fetching, planning and the pre-flight only read the tenant. */
  lemma PrepareWritesNothing(oracle: Oracle, s: Setting, w: World)
    ensures OnlyReads(w.log, Prepare(oracle, s, w).world.log)
  {
    FetchingWritesNothing(oracle, s, World(w.log, ES.Claim(w.rows, s.event, ES.Mover, s.claimAt)));
  }

  /** The log of a run that got as far as provisioning: prepared, provisioned, verified. */
  lemma RunExtends(driver: Driver, oracle: Oracle, s: Setting, w: World)
    requires Prepare(oracle, s, w).prepared.Ready?
    ensures var pre := Prepare(oracle, s, w);
      var done := Provision(driver, oracle, pre.world.log, pre.prepared, s);
      done.log <= Run(driver, oracle, s, w).world.log && Writes(Run(driver, oracle, s, w).world.log) == Writes(done.log)
  {
    var pre := Prepare(oracle, s, w);
    var plan := pre.prepared.plan;
    var done := Provision(driver, oracle, pre.world.log, pre.prepared, s);
    if done.value.Some? {
      VerifyExtends(oracle, done.log, plan.unaltered + plan.retained + plan.adds,
                    plan.unmanaged + done.value.value.removed);
    }
  }

  /** The plan a run acts on; empty when it never got to act. */
  function PlanOf(pre: Prepared): Plan {
    match pre
    case Exited(_) => Plan({}, {}, {}, {}, {})
    case Ready(plan, _, _, _) => plan
  }

  /**
   * Frame: whatever the tenant does, a run asks it to add only planned additions and to
   * remove only confirmed removals; a run that exits early (queued, held for review,
   * failed before provisioning) asks for nothing.
   */
  lemma RunWritesItsPlan(driver: Driver, oracle: Oracle, s: Setting, w: World, t: Trace)
    requires IsRun(driver, oracle, s, w, t) && Iterates(s.order)
    ensures var plan, after := PlanOf(t.pre.prepared), t.run.world.log;
      && w.log <= after
      && WritesOnly(after, |w.log|, plan.adds, plan.removes, true)
      && (t.pre.prepared.Exited? ==> Writes(after) == Writes(w.log))
  {
    Unfold(driver, oracle, s, w, t);
    var pre := t.pre;
    var plan, after := PlanOf(pre.prepared), t.run.world.log;
    PrepareWritesNothing(oracle, s, w);
    NoNewWrites(w.log, pre.world.log, plan.adds, plan.removes, true);
    if pre.prepared.Ready? {
      var done := t.done.log;
      ProvisionWrites(driver, oracle, pre.world.log, pre.prepared, s);
      Extended(pre.world.log, |w.log|, done, plan.adds, plan.removes, true);
      RunExtends(driver, oracle, s, w);
      NoNewWrites(done, after, plan.adds, plan.removes, true);
      Extended(done, |w.log|, after, plan.adds, plan.removes, true);
    }
  }

  // Holdings during a run.

  lemma EarlierRequestIsAsked(before: Log, log: Log, kind: RequestKind, k: nat, p: Package)
    requires before <= log && k < |before| && Requests(log[k], p, kind)
    ensures p in Asked(before, kind)
  {
    assert before[k] == log[k];
    RequestIsAsked(before, kind, k, p);
  }

  /** A log that goes on from `before` asks for what it asked before and what is planned. */
  lemma RequestsArePlanned(log: Log, before: Log, adds: set<Package>, removes: set<Package>, kind: RequestKind,
                           k: nat, p: Package)
    requires before <= log && WritesOnly(log, |before|, adds, removes, true)
    requires k < |log| && Requests(log[k], p, kind)
    ensures p in Asked(before, kind) + if kind == AdminAdd then adds else removes
  {
    if k < |before| {
      EarlierRequestIsAsked(before, log, kind, k, p);
    } else {
      assert Allowed(log[k], adds, removes, true);
    }
  }

  /**
   * On a grounded log that goes on from `before` with these requests only, nothing leaves
   * but what is removed or a removal of before is still under way for, and nothing comes
   * but what is added or an addition of before is still under way for.
   */
  lemma BoundedHoldings(start: set<Package>, log: Log, before: Log, adds: set<Package>, removes: set<Package>, n: nat)
    requires Grounded(start, log) && n <= |log| && before <= log && WritesOnly(log, |before|, adds, removes, true)
    ensures start - removes - Asked(before, AdminRemove) <= Held(start, log, n)
    ensures Held(start, log, n) <= start + adds + Asked(before, AdminAdd)
  {
    forall p | p in start - removes - Asked(before, AdminRemove) ensures p in Held(start, log, n) {
      forall k | 0 <= k < n ensures !Requests(log[k], p, AdminRemove) {
        if Requests(log[k], p, AdminRemove) {
          RequestsArePlanned(log, before, adds, removes, AdminRemove, k, p);
        }
      }
      StaysHeld(start, log, p, 0, n);
    }
    forall p | p !in start + adds + Asked(before, AdminAdd) ensures p !in Held(start, log, n) {
      forall k | 0 <= k < n ensures !Requests(log[k], p, AdminAdd) {
        if Requests(log[k], p, AdminAdd) {
          RequestsArePlanned(log, before, adds, removes, AdminAdd, k, p);
        }
      }
      StaysAway(start, log, p, 0, n);
    }
  }

  /**
   * In every reachable state of a run, under either strategy and either driver and
   * whatever was asked before it, what is kept or unmanaged is still held unless its
   * removal was asked for earlier, and nothing has been granted but what is planned or
   * was asked for earlier.
   */
  lemma HoldingsStayWithinPlan(driver: Driver, oracle: Oracle, s: Setting, w: World, t: Trace, start: set<Package>,
                               n: nat)
    requires IsRun(driver, oracle, s, w, t) && Iterates(s.order)
    requires Grounded(start, t.run.world.log) && n <= |t.run.world.log|
    ensures start - PlanOf(t.pre.prepared).removes - Asked(w.log, AdminRemove) <= Held(start, t.run.world.log, n)
    ensures Held(start, t.run.world.log, n) <= start + PlanOf(t.pre.prepared).adds + Asked(w.log, AdminAdd)
  {
    var plan := PlanOf(t.pre.prepared);
    RunWritesItsPlan(driver, oracle, s, w, t);
    BoundedHoldings(start, t.run.world.log, w.log, plan.adds, plan.removes, n);
  }

  lemma PlansDoNotUndoThemselves(oracle: Oracle, s: Setting, w: World)
    ensures var plan := PlanOf(Prepare(oracle, s, w).prepared); plan.adds !! plan.removes
  {
  }

  /** A log whose new removals all come after a point where every addition is confirmed. */
  ghost predicate Gated(log: Log, before: Log, gate: Log, adds: set<Package>, removes: set<Package>) {
    && before <= gate <= log
    && WritesOnly(gate, |before|, adds, {}, false)
    && WritesOnly(log, |gate|, {}, removes, true)
    && (WritesOnly(log, |gate|, {}, {}, true) || forall p :: p in adds ==> AddConfirmed(gate, p))
  }

  lemma RemovalIsPastTheGate(log: Log, before: Log, gate: Log, adds: set<Package>, removes: set<Package>, k: nat,
                             p: Package)
    requires Gated(log, before, gate, adds, removes)
    requires |before| <= k < |log| && Requests(log[k], p, AdminRemove)
    ensures |gate| <= k && forall q :: q in adds ==> AddConfirmed(gate, q)
  {
    if k < |gate| {
      PartAsks(gate, log, |before|, k, adds, {}, false);
    } else {
      assert !Allowed(log[k], {}, {}, true);
    }
  }

  lemma GatedKeepsAccess(start: set<Package>, log: Log, before: Log, gate: Log, adds: set<Package>,
      removes: set<Package>, n: nat, lost: Package)
    requires Gated(log, before, gate, adds, removes) && adds !! removes
    requires Grounded(start, log) && n <= |log|
    requires lost in start - Asked(before, AdminRemove) && lost !in Held(start, log, n)
    ensures adds - Asked(before, AdminRemove) <= Held(start, log, n)
  {
    var k := FirstLoss(start, log, lost, n);
    if k < |before| {
      EarlierRequestIsAsked(before, log, AdminRemove, k, lost);
    }
    RemovalIsPastTheGate(log, before, gate, adds, removes, k, lost);
    forall p | p in adds - Asked(before, AdminRemove) ensures p in Held(start, log, n) {
      assert log[..|gate|] == gate;
      forall j | 0 <= j < n ensures !Requests(log[j], p, AdminRemove) {
        if Requests(log[j], p, AdminRemove) {
          GatedRemovalsArePlanned(log, before, gate, adds, removes, j, p);
        }
      }
      ConfirmedAddIsHeld(start, log, p, |gate|, n);
    }
  }

  lemma GatedRemovalsArePlanned(log: Log, before: Log, gate: Log, adds: set<Package>, removes: set<Package>, k: nat,
                                p: Package)
    requires Gated(log, before, gate, adds, removes)
    requires k < |log| && Requests(log[k], p, AdminRemove)
    ensures p in Asked(before, AdminRemove) + removes
  {
    if k < |before| {
      EarlierRequestIsAsked(before, log, AdminRemove, k, p);
    } else {
      RemovalIsPastTheGate(log, before, gate, adds, removes, k, p);
      assert Allowed(log[k], {}, removes, true);
    }
  }

  lemma StrategyARunIsGated(driver: Driver, oracle: Oracle, s: Setting, w: World, t: Trace) returns (gate: Log)
    requires IsRun(driver, oracle, s, w, t) && Iterates(s.order)
    requires t.pre.prepared.Ready? && !t.pre.prepared.reorder
    ensures Gated(t.run.world.log, w.log, gate, t.pre.prepared.plan.adds, t.pre.prepared.plan.removes)
  {
    Unfold(driver, oracle, s, w, t);
    var pre, log, after := t.pre, t.run.world.log, t.done.log;
    var plan := pre.prepared.plan;
    PrepareWritesNothing(oracle, s, w);
    NoNewWrites(w.log, pre.world.log, plan.adds, {}, false);
    gate := StrategyAIsGated(driver, oracle, pre.world.log, pre.prepared, s);
    Extended(pre.world.log, |w.log|, gate, plan.adds, {}, false);
    RunExtends(driver, oracle, s, w);
    NoNewWrites(after, log, {}, plan.removes, true);
    Extended(after, |gate|, log, {}, plan.removes, true);
    if after == gate {
      NoNewWrites(after, log, {}, {}, true);
    }
  }

  /**
   * Strategy A never loses access: in every reachable state of a run that does not
   * reorder, as soon as any package has left the user's holdings that no earlier run
   * asked to remove, every planned addition is already held that no earlier run asked to
   * remove, for every tenant whose deliveries are real and where only these requests
   * change holdings.
   */
  lemma NeverLosesAccess(driver: Driver, oracle: Oracle, s: Setting, w: World, t: Trace, start: set<Package>, n: nat,
      lost: Package)
    requires IsRun(driver, oracle, s, w, t) && Iterates(s.order)
    requires t.pre.prepared.Ready? && !t.pre.prepared.reorder
    requires Grounded(start, t.run.world.log) && n <= |t.run.world.log|
    requires lost in start - Asked(w.log, AdminRemove) && lost !in Held(start, t.run.world.log, n)
    ensures t.pre.prepared.plan.adds - Asked(w.log, AdminRemove) <= Held(start, t.run.world.log, n)
  {
    var plan := t.pre.prepared.plan;
    Unfold(driver, oracle, s, w, t);
    PlansDoNotUndoThemselves(oracle, s, w);
    var gate := StrategyARunIsGated(driver, oracle, s, w, t);
    GatedKeepsAccess(start, t.run.world.log, w.log, gate, plan.adds, plan.removes, n, lost);
  }

  /** Strategy B in two parts: up to `cleared` only removals are requested, and by then all are confirmed. */
  lemma StrategyBClears(driver: Driver, oracle: Oracle, log: Log, r: Prepared, s: Setting) returns (cleared: Log)
    requires r.Ready? && Iterates(s.order)
    requires var done := StrategyB(driver, oracle, log, r, s);
      done.value.Some? && done.value.value.removed == r.plan.removes
    ensures log <= cleared <= StrategyB(driver, oracle, log, r, s).log
    ensures WritesOnly(cleared, |log|, {}, r.plan.removes, false)
    ensures forall p :: p in r.plan.removes ==> RemovalConfirmed(cleared, p)
  {
    var first, second := s.order(r.plan.removes), s.order(r.plan.adds);
    assert Elements(first) == r.plan.removes && Elements(second) == r.plan.adds;
    OperateIsOperation(driver, oracle, log, first, r.currentPolicies, AdminRemove, s.window);
    var removed := Operation(oracle, log, first, r.currentPolicies, AdminRemove, s.window);
    RemovalsWrite(oracle, log, first, r.currentPolicies, s.window);
    OperationIsExact(oracle, log, first, r.currentPolicies, AdminRemove, s.window);
    cleared := removed.log;
    forall p | p in r.plan.removes ensures RemovalConfirmed(cleared, p) {
      assert Confirmed(cleared, p, AdminRemove);
    }
    var between := if driver == Durable then Patched(oracle, cleared, s.patch) else cleared;
    PatchWrites(oracle, cleared, s.patch);
    OperateWrites(driver, oracle, between, second, r.newPolicies, AdminAdd, s.window, r.plan);
    PatchWrites(oracle, Operate(driver, oracle, between, second, r.newPolicies, AdminAdd, s.window).log, s.patch);
  }

  lemma StrategyBRunClears(driver: Driver, oracle: Oracle, s: Setting, w: World, t: Trace) returns (cleared: Log)
    requires IsRun(driver, oracle, s, w, t) && Iterates(s.order)
    requires t.pre.prepared.Ready? && t.pre.prepared.reorder
    requires t.done.value.Some? && t.done.value.value.removed == t.pre.prepared.plan.removes
    ensures w.log <= cleared <= t.run.world.log
    ensures WritesOnly(cleared, |w.log|, {}, t.pre.prepared.plan.removes, false)
    ensures forall p :: p in t.pre.prepared.plan.removes ==> RemovalConfirmed(cleared, p)
    ensures t.pre.prepared.plan.adds !! t.pre.prepared.plan.removes
  {
    Unfold(driver, oracle, s, w, t);
    var pre, plan := t.pre, t.pre.prepared.plan;
    PrepareWritesNothing(oracle, s, w);
    NoNewWrites(w.log, pre.world.log, {}, plan.removes, false);
    cleared := StrategyBClears(driver, oracle, pre.world.log, pre.prepared, s);
    Extended(pre.world.log, |w.log|, cleared, {}, plan.removes, false);
    RunExtends(driver, oracle, s, w);
    PlansDoNotUndoThemselves(oracle, s, w);
  }

  /**
   * Strategy B removes before it adds: a reordered run whose removals were all confirmed
   * requests no addition before some position from which on every removed package is
   * gone for good and nothing has come but what is planned, unless an earlier run asked
   * for it; so the conflicts that made it reorder are gone by the time it adds.
   */
  lemma RemovesBeforeAdding(driver: Driver, oracle: Oracle, s: Setting, w: World, t: Trace, start: set<Package>)
    returns (m: nat)
    requires IsRun(driver, oracle, s, w, t) && Iterates(s.order)
    requires t.pre.prepared.Ready? && t.pre.prepared.reorder
    requires t.done.value.Some? && t.done.value.value.removed == t.pre.prepared.plan.removes
    requires Grounded(start, t.run.world.log) && LookupsComplete(start, t.run.world.log)
    ensures |w.log| <= m <= |t.run.world.log|
    ensures forall k, p :: |w.log| <= k < m ==> !Requests(t.run.world.log[k], p, AdminAdd)
    ensures forall n :: m <= n <= |t.run.world.log| ==>
      Held(start, t.run.world.log, n) <=
        start - t.pre.prepared.plan.removes + t.pre.prepared.plan.adds + Asked(w.log, AdminAdd)
  {
    var plan, log := t.pre.prepared.plan, t.run.world.log;
    var cleared := StrategyBRunClears(driver, oracle, s, w, t);
    RunWritesItsPlan(driver, oracle, s, w, t);
    m := |cleared|;
    forall k, p | |w.log| <= k < m ensures !Requests(log[k], p, AdminAdd) {
      PartAsks(cleared, log, |w.log|, k, {}, plan.removes, false);
    }
    forall n | m <= n <= |log|
      ensures Held(start, log, n) <= start - plan.removes + plan.adds + Asked(w.log, AdminAdd)
    {
      ClearedHoldings(start, log, w.log, cleared, plan, n);
    }
  }

  lemma ClearedHoldings(start: set<Package>, log: Log, before: Log, cleared: Log, plan: Plan, n: nat)
    requires Grounded(start, log) && LookupsComplete(start, log) && before <= cleared <= log
    requires WritesOnly(log, |before|, plan.adds, plan.removes, true) && plan.adds !! plan.removes
    requires forall p :: p in plan.removes ==> RemovalConfirmed(cleared, p)
    requires |cleared| <= n <= |log|
    ensures Held(start, log, n) <= start - plan.removes + plan.adds + Asked(before, AdminAdd)
  {
    BoundedHoldings(start, log, before, plan.adds, plan.removes, n);
    forall p | p in plan.removes - Asked(before, AdminAdd) ensures p !in Held(start, log, n) {
      assert log[..|cleared|] == cleared;
      forall k | 0 <= k < n ensures !Requests(log[k], p, AdminAdd) {
        if Requests(log[k], p, AdminAdd) {
          RequestsArePlanned(log, before, plan.adds, plan.removes, AdminAdd, k, p);
        }
      }
      ConfirmedRemovalIsGone(start, log, p, |cleared|, n);
    }
  }

  /** A package can only be gone if its removal was requested before. */
  lemma FirstLoss(start: set<Package>, log: Log, lost: Package, n: nat) returns (k: nat)
    requires Grounded(start, log) && n <= |log|
    requires lost in start && lost !in Held(start, log, n)
    ensures k < n && Requests(log[k], lost, AdminRemove)
  {
    if forall j :: 0 <= j < n ==> !Requests(log[j], lost, AdminRemove) {
      StaysHeld(start, log, lost, 0, n);
      assert false;
    }
    k :| 0 <= k < n && Requests(log[k], lost, AdminRemove);
  }

  lemma PartAsks(part: Log, log: Log, from: nat, k: nat, adds: set<Package>, removes: set<Package>, patch: bool)
    requires part <= log && WritesOnly(part, from, adds, removes, patch) && from <= k < |part|
    ensures Allowed(log[k], adds, removes, patch)
  {
    assert part[k] == log[k];
  }
}
