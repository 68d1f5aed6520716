/** What holds over any number of Mover runs towards one goal, whatever drivers and tenants. */
module MoverHistories {
  import opened Collections
  import opened Tenant
  import opened Phases
  import opened PollLoops
  import opened PhaseProperties
  import opened Planning
  import opened Verifier
  import opened Drivers
  import opened MoverRun
  import opened MoverTheorems
  import opened MoverSafety
  import opened MoverResults
  import ES = EventStore

  // Fetches.

  /** A fetch of assignments at this position shows no package that is not held. */
  ghost predicate FetchSound(start: set<Package>, log: Log, i: nat)
    requires i < |log|
  {
    log[i].Engine? && log[i].call == GetAssignments && log[i].answer.Assignments? ==>
      Fetched(log[i].answer.all) <= Held(start, log, i)
  }

  /** It shows exactly what is held. */
  ghost predicate FetchExact(start: set<Package>, log: Log, i: nat)
    requires i < |log|
  {
    log[i].Engine? && log[i].call == GetAssignments && log[i].answer.Assignments? ==>
      Fetched(log[i].answer.all) == Held(start, log, i)
  }

  /** A prepared run acts on the goal's plan for what one of its own fetches showed. */
  lemma PlanIsForTheFetch(oracle: Oracle, s: Setting, w: World, pre: PreStep, goal: Goal)
    returns (i: nat, all: seq<Assignment>)
    requires pre == Prepare(oracle, s, w) && pre.prepared.Ready? && Pursues(s, goal)
    ensures |w.log| <= i < |pre.world.log| && pre.world.log[i] == Engine(GetAssignments, Assignments(all))
    ensures pre.prepared.plan == PlanFor(goal, Fetched(all))
  {
    var fetched, world := FetchBeforePlan(oracle, s, w, pre);
    all := Heard(oracle, Ask(oracle, w.log, GetUser), GetAssignments).all;
    i := |fetched| - 1;
    PlanExtends(oracle, s, world, all);
    assert pre.world.log[i] == fetched[i];
    PlanMoveIsFor(oracle, s, world, all, goal);
  }

  lemma FetchBeforePlan(oracle: Oracle, s: Setting, w: World, pre: PreStep) returns (fetched: Log, world: World)
    requires pre == Prepare(oracle, s, w) && pre.prepared.Ready?
    ensures var asked := Ask(oracle, w.log, GetUser);
      && Heard(oracle, asked, GetAssignments).Assignments?
      && fetched == Ask(oracle, asked, GetAssignments) && world.log == fetched
      && pre == PlanMove(oracle, s, world, Heard(oracle, asked, GetAssignments).all)
  {
    var claimed := ES.Claim(w.rows, s.event, ES.Mover, s.claimAt);
    fetched := Ask(oracle, Ask(oracle, w.log, GetUser), GetAssignments);
    world := World(fetched, ES.Acquire(claimed, s.event, s.holder, s.lockAt));
  }

  lemma PlanMoveIsFor(oracle: Oracle, s: Setting, w: World, held: seq<Assignment>, goal: Goal)
    requires PlanMove(oracle, s, w, held).prepared.Ready? && Pursues(s, goal)
    ensures PlanMove(oracle, s, w, held).prepared.plan == PlanFor(goal, Fetched(held))
  {
  }

  /** A run goes on from its preparation. */
  lemma RunsAreOneLog(driver: Driver, oracle: Oracle, s: Setting, w: World, t: Trace)
    requires IsRun(driver, oracle, s, w, t) && Iterates(s.order) && t.pre.prepared.Ready?
    ensures t.pre == Prepare(oracle, s, w) && t.pre.world.log <= t.run.world.log
  {
    Unfold(driver, oracle, s, w, t);
    ProvisionWrites(driver, oracle, t.pre.world.log, t.pre.prepared, s);
    RunExtends(driver, oracle, s, w);
  }

  // Access over many runs.

  predicate Removes(event: Event) {
    event.Engine? && event.call.RequestAssignment? && event.call.kind == AdminRemove
  }

  /** The run does not reorder: it adds before it removes, if it gets to either. */
  predicate AddsFirst(oracle: Oracle, s: Setting, w: World) {
    Prepare(oracle, s, w).prepared.Ready? ==> !Prepare(oracle, s, w).prepared.reorder
  }

  lemma NoRemovalInPreparation(oracle: Oracle, s: Setting, w: World, pre: PreStep, k: nat)
    requires pre == Prepare(oracle, s, w) && |w.log| <= k < |pre.world.log|
    ensures !Removes(pre.world.log[k])
  {
    PrepareWritesNothing(oracle, s, w);
    NoNewWrites(w.log, pre.world.log, {}, {}, false);
    assert Allowed(pre.world.log[k], {}, {}, false);
  }

  /** What a fetch showed of the target, and what was confirmed of the rest, is held from then on. */
  lemma TargetIsHeld(goal: Goal, start: set<Package>, log: Log, gate: Log, i: nat, shown: set<Package>, k: nat)
    requires Grounded(start, log) && AllSteer(goal, log) && gate <= log && i <= k && |gate| <= k <= |log|
    requires shown <= Held(start, log, i)
    requires forall p :: p in goal.target - shown ==> AddConfirmed(gate, p)
    ensures goal.target <= Held(start, log, k)
  {
    assert log[..|gate|] == gate;
    forall p | p in goal.target ensures p in Held(start, log, k) {
      if p in shown {
        TargetStays(goal, start, log, p, i, k);
      } else {
        forall j | 0 <= j < k ensures !Requests(log[j], p, AdminRemove) {
          SteeringNeverAsks(goal, log, j, p);
        }
        ConfirmedAddIsHeld(start, log, p, |gate|, k);
      }
    }
  }

  /**
   * One run that does not reorder asks for a removal only when every target package is
   * held, whatever runs towards the goal went before it and come after it.
   */
  lemma RunRemovesLast(driver: Driver, oracle: Oracle, s: Setting, w: World, t: Trace, goal: Goal,
                       start: set<Package>, log: Log, k: nat)
    requires IsRun(driver, oracle, s, w, t) && Pursues(s, goal) && AddsFirst(oracle, s, w)
    requires t.run.world.log <= log && Grounded(start, log) && AllSteer(goal, log)
    requires forall i :: 0 <= i < |log| ==> FetchSound(start, log, i)
    requires |w.log| <= k < |t.run.world.log| && Removes(log[k])
    ensures goal.target <= Held(start, log, k)
  {
    var run := t.run.world.log;
    assert run[k] == log[k];
    RunWritesItsPlan(driver, oracle, s, w, t);
    assert Allowed(run[k], PlanOf(t.pre.prepared).adds, PlanOf(t.pre.prepared).removes, true);
    RunsAreOneLog(driver, oracle, s, w, t);
    var plan := t.pre.prepared.plan;
    var gate := StrategyARunIsGated(driver, oracle, s, w, t);
    RemovalIsPastTheGate(run, w.log, gate, plan.adds, plan.removes, k, run[k].call.package);
    var i, all := PlanIsForTheFetch(oracle, s, w, t.pre, goal);
    if k < |t.pre.world.log| {
      NoRemovalInPreparation(oracle, s, w, t.pre, k);
    }
    assert log[i] == t.pre.world.log[i];
    assert FetchSound(start, log, i);
    GoalIsManaged(driver, oracle, s, w, t, goal);
    DistanceIsPlanSize(goal, Fetched(all));
    TargetIsHeld(goal, start, log, gate, i, Fetched(all), k);
  }

  /** No run of the history reorders. */
  ghost predicate AllAddFirst(oracle: Oracle, attempts: seq<Attempt>, w: World) {
    forall i :: 0 <= i < |attempts| ==> AddsFirst(oracle, attempts[i].setting, Repeat(oracle, attempts[..i], w))
  }

  lemma AllAddFirstSplits(oracle: Oracle, attempts: seq<Attempt>, w: World)
    requires attempts != [] && AllAddFirst(oracle, attempts, w)
    ensures var init := attempts[..|attempts| - 1];
      AllAddFirst(oracle, init, w) && AddsFirst(oracle, attempts[|attempts| - 1].setting, Repeat(oracle, init, w))
  {
    var init := attempts[..|attempts| - 1];
    forall i | 0 <= i < |init| ensures init[i] == attempts[i] && init[..i] == attempts[..i] {}
    assert AddsFirst(oracle, attempts[|attempts| - 1].setting, Repeat(oracle, init, w));
  }

  /** The trace of the last run of a history. */
  lemma LastRun(oracle: Oracle, attempts: seq<Attempt>, w: World) returns (before: World, t: Trace)
    requires attempts != [] && Iterates(attempts[|attempts| - 1].setting.order)
    ensures before == Repeat(oracle, attempts[..|attempts| - 1], w)
    ensures var last := attempts[|attempts| - 1]; IsRun(last.driver, oracle, last.setting, before, t)
    ensures before.log <= t.run.world.log && t.run.world == Repeat(oracle, attempts, w)
  {
    var last := attempts[|attempts| - 1];
    before := Repeat(oracle, attempts[..|attempts| - 1], w);
    t := TraceOf(last.driver, oracle, last.setting, before);
    Unfold(last.driver, oracle, last.setting, before, t);
    RunWritesItsPlan(last.driver, oracle, last.setting, before, t);
  }

  lemma {:induction false} RunsRemoveLast(oracle: Oracle, attempts: seq<Attempt>, w: World, goal: Goal,
                                          start: set<Package>, log: Log, k: nat)
    requires forall i :: 0 <= i < |attempts| ==> Pursues(attempts[i].setting, goal)
    requires AllAddFirst(oracle, attempts, w)
    requires Repeat(oracle, attempts, w).log <= log && Grounded(start, log) && AllSteer(goal, log)
    requires forall i :: 0 <= i < |log| ==> FetchSound(start, log, i)
    requires |w.log| <= k < |Repeat(oracle, attempts, w).log| && Removes(log[k])
    ensures goal.target <= Held(start, log, k)
  {
    if attempts != [] {
      var init, last := attempts[..|attempts| - 1], attempts[|attempts| - 1];
      var before, t := LastRun(oracle, attempts, w);
      AllAddFirstSplits(oracle, attempts, w);
      if k < |before.log| {
        RunsRemoveLast(oracle, init, w, goal, start, log, k);
      } else {
        RunRemovesLast(last.driver, oracle, last.setting, before, t, goal, start, log, k);
      }
    }
  }

  /**
   * Strategy A never loses access over any number of runs towards one goal, under any mix
   * of drivers and however late deliveries arrive: on a tenant whose deliveries are real
   * and whose fetches show nothing that is not held, as soon as anything has left the
   * user's holdings every target package is held.
   */
  lemma RunsNeverLoseAccess(oracle: Oracle, attempts: seq<Attempt>, rows: ES.Partition, log: Log, goal: Goal,
                            start: set<Package>, n: nat, lost: Package)
    requires IsHistory(oracle, attempts, rows, log) && AllAddFirst(oracle, attempts, World([], rows))
    requires forall i :: 0 <= i < |attempts| ==> Pursues(attempts[i].setting, goal)
    requires Grounded(start, log) && n <= |log|
    requires forall i :: 0 <= i < |log| ==> FetchSound(start, log, i)
    requires lost in start && lost !in Held(start, log, n)
    ensures goal.target <= Held(start, log, n)
  {
    HistorySteers(oracle, attempts, rows, log, goal);
    var k := FirstLoss(start, log, lost, n);
    RunsRemoveLast(oracle, attempts, World([], rows), goal, start, log, k);
    forall p | p in goal.target ensures p in Held(start, log, n) {
      TargetStays(goal, start, log, p, k, n);
    }
  }

  lemma HistorySteers(oracle: Oracle, attempts: seq<Attempt>, rows: ES.Partition, log: Log, goal: Goal)
    requires IsHistory(oracle, attempts, rows, log)
    requires forall i :: 0 <= i < |attempts| ==> Pursues(attempts[i].setting, goal)
    ensures AllSteer(goal, log) && Repeat(oracle, attempts, World([], rows)).log == log
  {
    assert Same(World([], rows), World([], rows));
    RepeatedRunsSteer(oracle, attempts, rows, goal);
  }

  // The bounds and the end of a history.

  /**
   * In every state of any number of runs towards one goal, whatever may stay is still
   * held and nothing outside the target has come.
   */
  lemma RepeatedRunsStayWithinGoal(oracle: Oracle, attempts: seq<Attempt>, rows: ES.Partition, log: Log, goal: Goal,
                                   start: set<Package>, n: nat)
    requires IsHistory(oracle, attempts, rows, log)
    requires forall i :: 0 <= i < |attempts| ==> Pursues(attempts[i].setting, goal)
    requires Grounded(start, log) && n <= |log|
    ensures Kept(goal, start) <= Held(start, log, n) <= start + goal.target
  {
    HistorySteers(oracle, attempts, rows, log, goal);
    SteeredHoldings(goal, start, log, n);
  }

  /**
   * Retries reach the goal: after any number of runs towards it, failed, raised or
   * parked, one run that fetched what is held and whose every action succeeded leaves the
   * user with exactly what may stay and the target, at distance zero.
   */
  lemma RepeatedRunsArrive(oracle: Oracle, attempts: seq<Attempt>, rows: ES.Partition, last: Attempt, w: World,
                           t: Trace, goal: Goal, start: set<Package>)
    requires IsHistory(oracle, attempts, rows, w.log) && IsRun(last.driver, oracle, last.setting, w, t)
    requires Pursues(last.setting, goal) && forall i :: 0 <= i < |attempts| ==> Pursues(attempts[i].setting, goal)
    requires t.pre.prepared.Ready? && t.done.value.Some? && AllSucceeded(t.done.value.value.actions)
    requires Grounded(start, t.run.world.log) && LookupsComplete(start, t.run.world.log)
    requires forall i :: |w.log| <= i < |t.run.world.log| ==> FetchExact(start, t.run.world.log, i)
    ensures var held := Held(start, t.run.world.log, |t.run.world.log|);
      held == Kept(goal, start) + goal.target && Distance(goal, held) == 0
  {
    HistorySteers(oracle, attempts, rows, w.log, goal);
    RunsAreOneLog(last.driver, oracle, last.setting, w, t);
    var i, all := PlanIsForTheFetch(oracle, last.setting, w, t.pre, goal);
    assert t.run.world.log[i] == t.pre.world.log[i];
    assert FetchExact(start, t.run.world.log, i);
    FullSuccessArrives(last.driver, oracle, last.setting, w, t, goal, start, i);
  }

  /**
   * A reordered run after any runs towards the same goal still removes before it adds:
   * from before its first addition on, what it removed is gone for good and nothing
   * outside the target has come.
   */
  lemma RetriesRemoveBeforeAdding(driver: Driver, oracle: Oracle, s: Setting, w: World, t: Trace, goal: Goal,
                                  start: set<Package>)
    returns (m: nat)
    requires IsRun(driver, oracle, s, w, t) && Pursues(s, goal) && AllSteer(goal, w.log)
    requires t.pre.prepared.Ready? && t.pre.prepared.reorder
    requires t.done.value.Some? && t.done.value.value.removed == t.pre.prepared.plan.removes
    requires Grounded(start, t.run.world.log) && LookupsComplete(start, t.run.world.log)
    ensures |w.log| <= m <= |t.run.world.log|
    ensures forall k, p :: |w.log| <= k < m ==> !Requests(t.run.world.log[k], p, AdminAdd)
    ensures forall n :: m <= n <= |t.run.world.log| ==>
      Held(start, t.run.world.log, n) <= start - t.pre.prepared.plan.removes + goal.target
    ensures goal.target !! t.pre.prepared.plan.removes
  {
    m := RemovesBeforeAdding(driver, oracle, s, w, t, start);
    Unfold(driver, oracle, s, w, t);
    PlanSteers(oracle, s, w, goal);
    forall p | p in Asked(w.log, AdminAdd) ensures p in goal.target {
      var k := AskedSomewhere(w.log, AdminAdd, p);
      assert Steers(goal, w.log[k]);
    }
  }
}
