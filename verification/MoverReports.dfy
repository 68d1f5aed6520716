/**
 * What a Mover run decides and reports, told by what the tenant was asked and what it
 * answered alone.
 */
module MoverReports {
  import opened Collections
  import opened Tenant
  import opened Phases
  import opened PollLoops
  import opened PhaseProperties
  import opened PhaseReports
  import opened Planning
  import opened Resolver
  import opened Verifier
  import opened Drivers
  import opened MoverRun
  import opened MoverTheorems
  import opened MoverSafety
  import opened MoverResults
  import ES = EventStore

  // The pre-flight.

  /** The tenant said that one of these additions does not go with something of `held`. */
  predicate Clashes(event: Event, adds: set<Package>, held: set<Package>) {
    event.Engine? && event.call.GetIncompatibilities? && event.call.package in adds
    && event.answer.Incompatible? && event.answer.packages * held != {}
  }

  /** Every addition was asked about, and nothing else was asked. */
  ghost predicate AskedAbout(part: Log, adds: set<Package>) {
    && (forall p :: p in adds ==> exists event: Event :: event in part && IsQuery(event, p))
    && (forall event: Event :: event in part && event.Engine? && event.call.GetIncompatibilities? ==>
          event.call.package in adds)
  }

  predicate IsQuery(event: Event, p: Package) {
    event.Engine? && event.call == GetIncompatibilities(p)
  }

  predicate IsAnswer(event: Event, adds: seq<Package>, answers: seq<Answer>, i: nat)
    requires i < |adds| == |answers|
  {
    event == Engine(GetIncompatibilities(adds[i]), answers[i])
  }

  /** The part shows these queries with these answers, and no others. */
  ghost predicate QueriesShown(part: Log, adds: seq<Package>, answers: seq<Answer>) {
    && |answers| == |adds|
    && (forall i :: 0 <= i < |adds| ==> Engine(GetIncompatibilities(adds[i]), answers[i]) in part)
    && (forall event: Event :: event in part && event.Engine? && event.call.GetIncompatibilities? ==>
          exists i :: 0 <= i < |adds| && IsAnswer(event, adds, answers, i))
  }

  lemma OneMoreQueryShown(part: Log, next: Log, adds: seq<Package>, answers: seq<Answer>, p: Package, answer: Answer)
    requires QueriesShown(part, adds, answers) && Grows(part, next, Engine(GetIncompatibilities(p), answer))
    ensures QueriesShown(next, adds + [p], answers + [answer])
  {
    var last, all, heard := Engine(GetIncompatibilities(p), answer), adds + [p], answers + [answer];
    assert IsAnswer(last, all, heard, |adds|);
    forall event: Event | event in next && event.Engine? && event.call.GetIncompatibilities? && event != last
      ensures exists i :: 0 <= i < |all| && IsAnswer(event, all, heard, i)
    {
      var i :| 0 <= i < |adds| && IsAnswer(event, adds, answers, i);
      assert IsAnswer(event, all, heard, i);
    }
  }

  lemma {:induction false} QueriesAre(oracle: Oracle, log: Log, from: nat, adds: seq<Package>)
    requires from <= |log| && QueriesShown(log[from..], [], [])
    ensures var r := QueryAll(oracle, log, adds); log <= r.log && QueriesShown(r.log[from..], adds, r.value)
  {
    if adds != [] {
      var init, last := adds[..|adds| - 1], adds[|adds| - 1];
      QueriesAre(oracle, log, from, init);
      NextQuery(oracle, QueryAll(oracle, log, init).log, from, init, QueryAll(oracle, log, init).value, last);
      QueriesUnroll(oracle, log, adds);
    }
  }

  lemma QueriesUnroll(oracle: Oracle, log: Log, adds: seq<Package>)
    requires adds != []
    ensures var init, last := adds[..|adds| - 1], adds[|adds| - 1];
      var most, call := QueryAll(oracle, log, init), GetIncompatibilities(last);
      && adds == init + [last]
      && QueryAll(oracle, log, adds) == Step(Ask(oracle, most.log, call), most.value + [Heard(oracle, most.log, call)])
  {
  }

  lemma NextQuery(oracle: Oracle, log: Log, from: nat, adds: seq<Package>, answers: seq<Answer>, p: Package)
    requires from <= |log| && QueriesShown(log[from..], adds, answers)
    ensures var next := Ask(oracle, log, GetIncompatibilities(p));
      && log <= next
      && QueriesShown(next[from..], adds + [p], answers + [Heard(oracle, log, GetIncompatibilities(p))])
  {
    var call := GetIncompatibilities(p);
    AskGrows(oracle, log, from, call);
    OneMoreQueryShown(log[from..], Ask(oracle, log, call)[from..], adds, answers, p, Heard(oracle, log, call));
  }

  lemma AnsweredIff(part: Log, adds: seq<Package>, answers: seq<Answer>, held: set<Package>)
    requires QueriesShown(part, adds, answers)
    ensures (exists event :: event in part && Clashes(event, Elements(adds), held)) <==>
      exists i :: 0 <= i < |adds| && answers[i].Incompatible? && answers[i].packages * held != {}
  {
    if i :| 0 <= i < |adds| && answers[i].Incompatible? && answers[i].packages * held != {} {
      assert Clashes(Engine(GetIncompatibilities(adds[i]), answers[i]), Elements(adds), held);
    }
    if event :| event in part && Clashes(event, Elements(adds), held) {
      var i :| 0 <= i < |adds| && IsAnswer(event, adds, answers, i);
      assert answers[i] == event.answer;
    }
  }

  lemma ShownAreAsked(part: Log, adds: seq<Package>, answers: seq<Answer>)
    requires QueriesShown(part, adds, answers)
    ensures AskedAbout(part, Elements(adds))
  {
    forall p | p in Elements(adds) ensures exists event: Event :: event in part && IsQuery(event, p) {
      var i :| 0 <= i < |adds| && adds[i] == p;
      assert IsQuery(Engine(GetIncompatibilities(adds[i]), answers[i]), p);
    }
    forall event: Event | event in part && event.Engine? && event.call.GetIncompatibilities?
      ensures event.call.package in Elements(adds)
    {
      var i :| 0 <= i < |adds| && IsAnswer(event, adds, answers, i);
    }
  }

  /** What the verdict of a pre-flight is, by the answers in the log. */
  ghost predicate Decided(part: Log, verdict: Preflight, adds: set<Package>, removes: set<Package>,
                          keep: set<Package>) {
    && AskedAbout(part, adds)
    && (verdict.HeldForReview? <==> exists event :: event in part && Clashes(event, adds, keep))
    && (verdict.Proceed? ==> (verdict.reorder <==> exists event :: event in part && Clashes(event, adds, removes)))
  }

  lemma PreflightDecides(oracle: Oracle, log: Log, from: nat, adds: seq<Package>, removes: set<Package>,
      keep: set<Package>)
    requires from <= |log|
    requires forall event: Event :: event in log[from..] && event.Engine? ==> !event.call.GetIncompatibilities?
    ensures var r := RunPreflight(oracle, log, adds, removes, keep);
      log <= r.log && Decided(r.log[from..], r.value, Elements(adds), removes, keep)
  {
    QueriesAre(oracle, log, from, adds);
    var asked := QueryAll(oracle, log, adds);
    VerdictIsDecided(asked.log[from..], adds, asked.value, removes, keep);
  }

  lemma VerdictIsDecided(part: Log, adds: seq<Package>, answers: seq<Answer>, removes: set<Package>,
      keep: set<Package>)
    requires QueriesShown(part, adds, answers)
    ensures Decided(part, Judge(adds, answers, removes, keep), Elements(adds), removes, keep)
  {
    ShownAreAsked(part, adds, answers);
    HeldIffKeptConflict(adds, answers, removes, keep);
    AnsweredIff(part, adds, answers, keep);
    AnsweredIff(part, adds, answers, removes);
    if Judge(adds, answers, removes, keep).Proceed? {
      ReorderedIff(adds, answers, removes, keep);
    }
  }

  lemma ReorderedIff(adds: seq<Package>, answers: seq<Answer>, removes: set<Package>, keep: set<Package>)
    requires |answers| == |adds| && Judge(adds, answers, removes, keep).Proceed?
    ensures Judge(adds, answers, removes, keep).reorder <==>
      exists i :: 0 <= i < |adds| && answers[i].Incompatible? && answers[i].packages * removes != {}
  {
    HeldIffKeptConflict(adds, answers, removes, keep);
    forall i | 0 <= i < |adds| && answers[i].Incompatible? && answers[i].packages * removes != {}
      ensures Classify(answers[i], removes, keep) == RemoveFirst
    {
    }
  }

  lemma OtherCallsAskNothing(oracle: Oracle, log: Log, from: nat, call: Call)
    requires from <= |log| && !call.GetIncompatibilities?
    requires forall event: Event :: event in log[from..] && event.Engine? ==> !event.call.GetIncompatibilities?
    ensures forall event: Event :: event in Ask(oracle, log, call)[from..] && event.Engine? ==>
      !event.call.GetIncompatibilities?
  {
    AskGrows(oracle, log, from, call);
  }

  /** The plan of a move, its pre-flight and its verdict, by the assignments that were fetched. */
  ghost predicate IsDecided(part: Log, s: Setting, rules: seq<Rule>, all: seq<Assignment>, prepared: Prepared) {
    var grants := Resolve(rules, s.who);
    var plan := MakePlan(Fetched(all), PackagesOf(grants), Catalogue(rules), s.registry, s.today);
    && AskedAbout(part, plan.adds)
    && (prepared == Exited(SodHeld) <==> exists event :: event in part && Clashes(event, plan.adds, plan.Keep()))
    && (prepared != Exited(SodHeld) ==>
          && prepared.Ready? && prepared.plan == plan
          && prepared.newPolicies == PolicyMap(grants) && prepared.currentPolicies == CurrentPolicies(all)
          && (prepared.reorder <==> exists event :: event in part && Clashes(event, plan.adds, plan.removes)))
  }

  lemma PlanIsDecided(oracle: Oracle, s: Setting, w: World, from: nat, all: seq<Assignment>)
    requires from <= |w.log| && Iterates(s.sorted) && s.rules.Some?
    requires forall event: Event :: event in w.log[from..] && event.Engine? ==> !event.call.GetIncompatibilities?
    ensures var pre := PlanMove(oracle, s, w, all);
      w.log <= pre.world.log && IsDecided(pre.world.log[from..], s, s.rules.value, all, pre.prepared)
  {
    var rules := s.rules.value;
    var plan := MakePlan(Fetched(all), PackagesOf(Resolve(rules, s.who)), Catalogue(rules), s.registry, s.today);
    var asked := if s.hasManager then Ask(oracle, w.log, GetManager) else w.log;
    OtherCallsAskNothing(oracle, w.log, from, GetManager);
    PreflightDecides(oracle, asked, from, s.sorted(plan.adds), plan.removes, plan.Keep());
    assert Elements(s.sorted(plan.adds)) == plan.adds;
    var checked := RunPreflight(oracle, asked, s.sorted(plan.adds), plan.removes, plan.Keep());
    assert PlanMove(oracle, s, w, all).world.log == checked.log;
    VerdictDecides(PlanMove(oracle, s, w, all).prepared, checked, from, s, rules, all, plan);
  }

  lemma VerdictDecides(prepared: Prepared, checked: Step<Preflight>, from: nat, s: Setting, rules: seq<Rule>,
      all: seq<Assignment>, plan: Plan)
    requires from <= |checked.log|
    requires plan ==
      MakePlan(Fetched(all), PackagesOf(Resolve(rules, s.who)), Catalogue(rules), s.registry, s.today)
    requires Decided(checked.log[from..], checked.value, plan.adds, plan.removes, plan.Keep())
    requires match checked.value
      case HeldForReview(_) => prepared == Exited(SodHeld)
      case Proceed(reorder) => prepared == Ready(plan, PolicyMap(Resolve(rules, s.who)), CurrentPolicies(all), reorder)
    ensures IsDecided(checked.log[from..], s, rules, all, prepared)
  {
  }

  /**
   * What a move decides once it has fetched its state and read its rules: it asks about
   * every planned addition and about nothing else; it is held for review exactly if the
   * tenant named something the user keeps as incompatible with one of them; and otherwise
   * it goes ahead with its plan, removing first exactly if something to be removed was named.
   */
  lemma MovesAreDecided(oracle: Oracle, s: Setting, w: World, pre: PreStep, all: seq<Assignment>)
    requires pre == Prepare(oracle, s, w) && Iterates(s.sorted) && s.rules.Some?
    requires ES.Claimable(ES.Find(w.rows, s.event), s.claimAt) && !s.concurrent
    requires Heard(oracle, w.log, GetUser).User?
    requires Heard(oracle, Ask(oracle, w.log, GetUser), GetAssignments) == Assignments(all)
    ensures IsDecided(Since(w.log, pre.world.log), s, s.rules.value, all, pre.prepared)
  {
    var asked := Ask(oracle, w.log, GetUser);
    var fetched := Ask(oracle, asked, GetAssignments);
    var claimed := ES.Claim(w.rows, s.event, ES.Mover, s.claimAt);
    OtherCallsAskNothing(oracle, w.log, |w.log|, GetUser);
    OtherCallsAskNothing(oracle, asked, |w.log|, GetAssignments);
    PlanIsDecided(oracle, s, World(fetched, ES.Acquire(claimed, s.event, s.holder, s.lockAt)), |w.log|, all);
  }

  predicate IsManagerCall(event: Event) {
    event.Engine? && event.call == GetManager
  }

  lemma {:induction false} QueriesAskNoManager(oracle: Oracle, log: Log, from: nat, adds: seq<Package>)
    requires from <= |log|
    ensures log <= QueryAll(oracle, log, adds).log
    ensures forall event: Event :: IsManagerCall(event) ==>
      (event in QueryAll(oracle, log, adds).log[from..] <==> event in log[from..])
  {
    if adds != [] {
      var most, call := QueryAll(oracle, log, adds[..|adds| - 1]), GetIncompatibilities(adds[|adds| - 1]);
      QueriesAskNoManager(oracle, log, from, adds[..|adds| - 1]);
      AskGrows(oracle, most.log, from, call);
    }
  }

  /** The manager is looked up once the state is fetched, exactly if the payload names one. */
  lemma ManagerIsAsked(oracle: Oracle, s: Setting, w: World, from: nat, all: seq<Assignment>)
    requires from <= |w.log| && s.rules.Some?
    requires forall event :: event in w.log[from..] ==> !IsManagerCall(event)
    ensures var after := PlanMove(oracle, s, w, all).world.log;
      w.log <= after && ((exists event :: event in after[from..] && IsManagerCall(event)) <==> s.hasManager)
  {
    var rules := s.rules.value;
    var plan := MakePlan(Fetched(all), PackagesOf(Resolve(rules, s.who)), Catalogue(rules), s.registry, s.today);
    var asked := if s.hasManager then Ask(oracle, w.log, GetManager) else w.log;
    QueriesAskNoManager(oracle, asked, from, s.sorted(plan.adds));
    if s.hasManager {
      AskGrows(oracle, w.log, from, GetManager);
      assert IsManagerCall(Engine(GetManager, Heard(oracle, w.log, GetManager)));
    }
  }

  /** A move held for review leaves its row unlocked and failed at the pre-flight. */
  lemma HeldRowIs(oracle: Oracle, s: Setting, w: World, pre: PreStep)
    requires pre == Prepare(oracle, s, w) && pre.prepared == Exited(SodHeld)
    ensures FailedAt(pre.world.rows, s.event, "PreFlightSoD")
    ensures ES.Find(pre.world.rows, s.event).value.lock == ES.Unlocked
  {
    var claimed := ES.Claim(w.rows, s.event, ES.Mover, s.claimAt);
    ES.ClaimEffect(w.rows, s.event, ES.Mover, s.claimAt, s.event);
    var row := ES.Find(claimed, s.event).value;
    ES.FindPut(claimed, row.(status := ES.Processing, lock := ES.LockedAt(s.lockAt), holder := s.holder), s.event);
    var locked := ES.Acquire(claimed, s.event, s.holder, s.lockAt);
    HeldPlanRow(oracle, s, World(Ask(oracle, Ask(oracle, w.log, GetUser), GetAssignments), locked),
                Heard(oracle, Ask(oracle, w.log, GetUser), GetAssignments).all);
  }

  lemma HeldPlanRow(oracle: Oracle, s: Setting, w: World, all: seq<Assignment>)
    requires ES.Find(w.rows, s.event).Some? && PlanMove(oracle, s, w, all).prepared == Exited(SodHeld)
    ensures var rows := PlanMove(oracle, s, w, all).world.rows;
      FailedAt(rows, s.event, "PreFlightSoD") && ES.Find(rows, s.event).value.lock == ES.Unlocked
  {
    var row := ES.Find(w.rows, s.event).value.(lock := ES.Unlocked, holder := "");
    ES.FindPut(w.rows, row, s.event);
    var released := ES.Release(w.rows, s.event);
    ES.FindPut(released, row.(status := ES.Failed, failureStep := "PreFlightSoD"), s.event);
  }

  /** The row says that the run failed at this step. */
  ghost predicate FailedAt(rows: ES.Partition, event: ES.EventId, step: string) {
    var row := ES.Find(rows, event);
    row.Some? && row.value.status == ES.Failed && row.value.failureStep == step
  }

  lemma PlanExits(oracle: Oracle, s: Setting, w: World, all: seq<Assignment>)
    requires ES.Find(w.rows, s.event).Some?
    ensures var pre := PlanMove(oracle, s, w, all);
      && pre.prepared != Exited(QueuedConcurrent)
      && (pre.prepared == Exited(MoveFailed) <==> s.rules.None?)
      && (s.rules.None? ==> FailedAt(pre.world.rows, s.event, "MappingRulesLoad"))
  {
    if s.rules.None? {
      var row := ES.Find(w.rows, s.event).value;
      ES.FindPut(w.rows, row.(lock := ES.Unlocked, holder := ""), s.event);
      FailedRow(ES.Release(w.rows, s.event), s.event, "MappingRulesLoad");
    }
  }

  lemma FetchExits(oracle: Oracle, s: Setting, w: World)
    requires ES.Find(w.rows, s.event).Some?
    ensures var pre := FetchAndPlan(oracle, s, w);
      var found := Heard(oracle, w.log, GetUser).User?;
      var fetched := Heard(oracle, Ask(oracle, w.log, GetUser), GetAssignments).Assignments?;
      && pre.prepared != Exited(QueuedConcurrent)
      && (pre.prepared == Exited(MoveFailed) <==> !(found && fetched && s.rules.Some?))
      && (pre.prepared == Exited(MoveFailed) ==> FailedAt(pre.world.rows, s.event,
            if !found then "UserFetch" else if !fetched then "AccessPackageAssignmentFetch" else "MappingRulesLoad"))
  {
    var asked := Ask(oracle, w.log, GetUser);
    var fetched := Ask(oracle, asked, GetAssignments);
    FailedRow(w.rows, s.event, "UserFetch");
    FailedRow(w.rows, s.event, "AccessPackageAssignmentFetch");
    if Heard(oracle, w.log, GetUser).User? && Heard(oracle, asked, GetAssignments).Assignments? {
      var row := ES.Find(w.rows, s.event).value;
      ES.FindPut(w.rows, row.(status := ES.Processing, lock := ES.LockedAt(s.lockAt), holder := s.holder), s.event);
      PlanExits(oracle, s, World(fetched, ES.Acquire(w.rows, s.event, s.holder, s.lockAt)),
                Heard(oracle, asked, GetAssignments).all);
    }
  }

  /** Which moves exit early, other than for review, and which step their row then names. */
  lemma EarlyExitsAre(oracle: Oracle, s: Setting, w: World, pre: PreStep)
    requires pre == Prepare(oracle, s, w)
    ensures var mine := ES.Claimable(ES.Find(w.rows, s.event), s.claimAt) && !s.concurrent;
      var found := Heard(oracle, w.log, GetUser).User?;
      var fetched := Heard(oracle, Ask(oracle, w.log, GetUser), GetAssignments).Assignments?;
      && (pre.prepared == Exited(QueuedConcurrent) <==> !mine)
      && (pre.prepared == Exited(MoveFailed) <==> mine && !(found && fetched && s.rules.Some?))
      && (pre.prepared == Exited(MoveFailed) ==> FailedAt(pre.world.rows, s.event,
            if !found then "UserFetch" else if !fetched then "AccessPackageAssignmentFetch" else "MappingRulesLoad"))
  {
    if ES.Claimable(ES.Find(w.rows, s.event), s.claimAt) && !s.concurrent {
      ES.ClaimEffect(w.rows, s.event, ES.Mover, s.claimAt, s.event);
      FetchExits(oracle, s, World(w.log, ES.Claim(w.rows, s.event, ES.Mover, s.claimAt)));
    }
  }

  lemma FetchOnlyLooks(oracle: Oracle, s: Setting, w: World)
    ensures var pre := FetchAndPlan(oracle, s, w);
      && pre.prepared != Exited(QueuedConcurrent)
      && (pre.prepared == Exited(MoveFailed) ==>
            pre.world.log ==
              if !Heard(oracle, w.log, GetUser).User? then Ask(oracle, w.log, GetUser)
              else Ask(oracle, Ask(oracle, w.log, GetUser), GetAssignments))
  {
  }

  /** One that fails has looked the user up, and the assignments if there is one; one turned away not even that. */
  lemma EarlyExitsOnlyLook(oracle: Oracle, s: Setting, w: World, pre: PreStep)
    requires pre == Prepare(oracle, s, w) && pre.prepared in {Exited(QueuedConcurrent), Exited(MoveFailed)}
    ensures pre.world.log ==
      if pre.prepared == Exited(QueuedConcurrent) then w.log
      else if !Heard(oracle, w.log, GetUser).User? then Ask(oracle, w.log, GetUser)
      else Ask(oracle, Ask(oracle, w.log, GetUser), GetAssignments)
  {
    if ES.Claimable(ES.Find(w.rows, s.event), s.claimAt) && !s.concurrent {
      FetchOnlyLooks(oracle, s, World(w.log, ES.Claim(w.rows, s.event, ES.Mover, s.claimAt)));
    }
  }

  lemma FailedRow(rows: ES.Partition, event: ES.EventId, step: string)
    requires ES.Find(rows, event).Some? && step != ""
    ensures FailedAt(ES.Mark(rows, event, ES.Failed, step), event, step)
  {
    ES.FindPut(rows, ES.Find(rows, event).value.(status := ES.Failed, failureStep := step), event);
  }

  // Provisioning.

  /** One action per package in order, each a success exactly if this part of the log confirms it. */
  ghost predicate ReportedFor(actions: seq<Action>, order: seq<Package>, kind: RequestKind, part: Log) {
    |actions| == |order| &&
    forall i :: 0 <= i < |order| ==> actions[i] == Action(kind, order[i], Confirmed(part, order[i], kind))
  }

  lemma DistinctIdsWithin(a: Log, b: Log, c: Log, d: Log)
    requires a <= b <= c <= d && DistinctIds(Since(a, d))
    ensures DistinctIds(Since(b, c))
  {
    var part, whole := Since(b, c), Since(a, d);
    assert forall i :: 0 <= i < |part| ==> part[i] == whole[|b| - |a| + i];
    forall i, j, id | 0 <= i < j < |part| && AcceptedAs(part[i], id) ensures !AcceptedAs(part[j], id) {
      var k := |b| - |a|;
      assert AcceptedAs(whole[k + i], id);
      assert !AcceptedAs(whole[k + j], id);
    }
  }

  lemma OperateReports(driver: Driver, oracle: Oracle, log: Log, order: seq<Package>, policies: map<Package, string>,
      kind: RequestKind, window: Window)
    requires NoDuplicates(order) && Operate(driver, oracle, log, order, policies, kind, window).value.Some?
    requires DistinctIds(Since(log, Operate(driver, oracle, log, order, policies, kind, window).log))
    ensures var r := Operate(driver, oracle, log, order, policies, kind, window);
      log <= r.log && ReportedFor(r.value.value, order, kind, Since(log, r.log))
  {
    OperateIsOperation(driver, oracle, log, order, policies, kind, window);
    OperationReports(oracle, log, order, policies, kind, window);
  }

  lemma OperateGrows(driver: Driver, oracle: Oracle, log: Log, order: seq<Package>, policies: map<Package, string>,
      kind: RequestKind, window: Window)
    ensures log <= Operate(driver, oracle, log, order, policies, kind, window).log
  {
    OperateIsOperation(driver, oracle, log, order, policies, kind, window);
    OperationWrites(oracle, log, order, policies, kind, window);
  }

  /** A PATCH confirms nothing. */
  lemma PatchConfirmsNothing(oracle: Oracle, before: Log, log: Log, patch: bool)
    requires before <= log
    ensures log <= Patched(oracle, log, patch)
    ensures forall p, kind :: Confirmed(Since(before, Patched(oracle, log, patch)), p, kind) <==>
      Confirmed(Since(before, log), p, kind)
  {
    if patch {
      var part, next := Since(before, log), Since(before, Ask(oracle, log, PatchUser));
      AskGrows(oracle, log, |before|, PatchUser);
      forall p, kind ensures Confirmed(next, p, kind) <==> Confirmed(part, p, kind) {
        UnrelatedConfirmsNothing(part, next, Engine(PatchUser, Heard(oracle, log, PatchUser)), p, kind);
      }
    }
  }

  lemma UnrelatedConfirmsNothing(part: Log, next: Log, last: Event, p: Package, kind: RequestKind)
    requires Grows(part, next, last) && last.Engine? && last.call.PatchUser?
    ensures Confirmed(next, p, kind) <==> Confirmed(part, p, kind)
  {
    assert RequestConfirmed(next, p, kind) <==> RequestConfirmed(part, p, kind);
    if kind.AdminRemove? {
      forall event: Event | NothingDelivered(event) && event.call.package == p
        ensures event in next <==> event in part
      {
        assert event != last;
      }
    }
  }

  /** Which packages a list of reports counts as done. */
  lemma ReportedAreDone(actions: seq<Action>, order: seq<Package>, kind: RequestKind, part: Log)
    requires ReportedFor(actions, order, kind, part)
    ensures Succeeded(actions) == set p | p in Elements(order) && Confirmed(part, p, kind)
    ensures AllSucceeded(actions) <==> forall p :: p in Elements(order) ==> Confirmed(part, p, kind)
  {
    forall p | p in Elements(order) && Confirmed(part, p, kind) ensures p in Succeeded(actions) {
      var i :| 0 <= i < |order| && order[i] == p;
      assert actions[i] in actions;
    }
    if AllSucceeded(actions) {
      forall p | p in Elements(order) ensures Confirmed(part, p, kind) {
        var i :| 0 <= i < |order| && order[i] == p;
      }
    }
    forall i | 0 <= i < |actions| ensures order[i] in Elements(order) {}
  }

  /** What of a plan this part of the log confirms. */
  ghost function ConfirmedOf(packages: set<Package>, kind: RequestKind, part: Log): set<Package> {
    set p | p in packages && Confirmed(part, p, kind)
  }

  /**
   * The report of Strategy A: an action per addition, true to what was heard up to the
   * gate; then, exactly if all of them were confirmed, one per removal, true to what was
   * heard from there on; and as removed just those whose removal was confirmed.
   */
  lemma StrategyAReports(driver: Driver, oracle: Oracle, log: Log, r: Prepared, s: Setting) returns (gate: Log)
    requires r.Ready? && Iterates(s.order) && StrategyA(driver, oracle, log, r, s).value.Some?
    requires DistinctIds(Since(log, StrategyA(driver, oracle, log, r, s).log))
    ensures log <= gate <= StrategyA(driver, oracle, log, r, s).log
    ensures var end, done := StrategyA(driver, oracle, log, r, s).log, StrategyA(driver, oracle, log, r, s).value.value;
      var n := |s.order(r.plan.adds)|;
      && n <= |done.actions| && ReportedFor(done.actions[..n], s.order(r.plan.adds), AdminAdd, Since(log, gate))
      && if ConfirmedOf(r.plan.adds, AdminAdd, Since(log, gate)) == r.plan.adds
         then ReportedFor(done.actions[n..], s.order(r.plan.removes), AdminRemove, Since(gate, end))
              && done.removed == ConfirmedOf(r.plan.removes, AdminRemove, Since(gate, end))
         else |done.actions| == n && done.removed == {}
  {
    var adds, removes := s.order(r.plan.adds), s.order(r.plan.removes);
    var end := StrategyA(driver, oracle, log, r, s).log;
    assert Elements(adds) == r.plan.adds && Elements(removes) == r.plan.removes;
    var added := Operate(driver, oracle, log, adds, r.newPolicies, AdminAdd, s.window);
    gate := added.log;
    var removed := Operate(driver, oracle, gate, removes, r.currentPolicies, AdminRemove, s.window);
    OperateGrows(driver, oracle, log, adds, r.newPolicies, AdminAdd, s.window);
    OperateGrows(driver, oracle, gate, removes, r.currentPolicies, AdminRemove, s.window);
    PatchConfirmsNothing(oracle, gate, removed.log, s.patch);
    DistinctIdsWithin(log, log, gate, end);
    OperateReports(driver, oracle, log, adds, r.newPolicies, AdminAdd, s.window);
    ReportedAreDone(added.value.value, adds, AdminAdd, Since(log, gate));
    if AllSucceeded(added.value.value) {
      DistinctIdsWithin(log, gate, removed.log, end);
      OperateReports(driver, oracle, gate, removes, r.currentPolicies, AdminRemove, s.window);
      ReportedAreDone(removed.value.value, removes, AdminRemove, Since(gate, removed.log));
      SplitReports(added.value.value, removed.value.value);
    }
  }

  lemma SplitReports(a: seq<Action>, b: seq<Action>)
    ensures (a + b)[..|a|] == a && (a + b)[|a|..] == b
  {
  }

  /**
   * The report of Strategy B: an action per removal, true to what was heard up to the
   * point where they were over; then, whatever came of them, one per addition, true to
   * what was heard from the point where they were begun; and as removed just those whose
   * removal was confirmed.  Between the two points is at most the PATCH of the durable
   * driver.
   */
  lemma StrategyBReports(driver: Driver, oracle: Oracle, log: Log, r: Prepared, s: Setting)
    returns (cleared: Log, resumed: Log)
    requires r.Ready? && Iterates(s.order) && StrategyB(driver, oracle, log, r, s).value.Some?
    requires DistinctIds(Since(log, StrategyB(driver, oracle, log, r, s).log))
    ensures log <= cleared <= resumed <= StrategyB(driver, oracle, log, r, s).log
    ensures resumed == if driver == Durable then Patched(oracle, cleared, s.patch) else cleared
    ensures var end, done := StrategyB(driver, oracle, log, r, s).log, StrategyB(driver, oracle, log, r, s).value.value;
      var n := |s.order(r.plan.removes)|;
      && n <= |done.actions|
      && ReportedFor(done.actions[..n], s.order(r.plan.removes), AdminRemove, Since(log, cleared))
      && ReportedFor(done.actions[n..], s.order(r.plan.adds), AdminAdd, Since(resumed, end))
      && done.removed == ConfirmedOf(r.plan.removes, AdminRemove, Since(log, cleared))
  {
    var adds, removes := s.order(r.plan.adds), s.order(r.plan.removes);
    var end := StrategyB(driver, oracle, log, r, s).log;
    assert Elements(removes) == r.plan.removes;
    var removed := Operate(driver, oracle, log, removes, r.currentPolicies, AdminRemove, s.window);
    cleared := removed.log;
    resumed := if driver == Durable then Patched(oracle, cleared, s.patch) else cleared;
    var added := Operate(driver, oracle, resumed, adds, r.newPolicies, AdminAdd, s.window);
    OperateGrows(driver, oracle, log, removes, r.currentPolicies, AdminRemove, s.window);
    OperateGrows(driver, oracle, resumed, adds, r.newPolicies, AdminAdd, s.window);
    PatchConfirmsNothing(oracle, cleared, cleared, s.patch);
    PatchConfirmsNothing(oracle, resumed, added.log, s.patch);
    DistinctIdsWithin(log, log, cleared, end);
    DistinctIdsWithin(log, resumed, added.log, end);
    OperateReports(driver, oracle, log, removes, r.currentPolicies, AdminRemove, s.window);
    OperateReports(driver, oracle, resumed, adds, r.newPolicies, AdminAdd, s.window);
    ReportedAreDone(removed.value.value, removes, AdminRemove, Since(log, cleared));
    SplitReports(removed.value.value, added.value.value);
  }

  // What a run asks of the tenant, in order.

  function PatchCalls(patch: bool): seq<Call> {
    if patch then [PatchUser] else []
  }

  lemma PatchedWrites(oracle: Oracle, log: Log, patch: bool)
    ensures Writes(Patched(oracle, log, patch)) == Writes(log) + PatchCalls(patch)
  {
    WritesOfAsk(oracle, log, PatchUser);
  }

  lemma OperateAdds(driver: Driver, oracle: Oracle, log: Log, order: seq<Package>, policies: map<Package, string>,
      window: Window) returns (requests: seq<Call>)
    ensures Writes(Operate(driver, oracle, log, order, policies, AdminAdd, window).log) == Writes(log) + requests
    ensures forall call :: call in requests ==> AdditionRequest(call, order, policies)
  {
    OperateIsOperation(driver, oracle, log, order, policies, AdminAdd, window);
    OperationWrites(oracle, log, order, policies, AdminAdd, window);
    requests := SubmitAdditionsWrites(oracle, log, order, policies);
  }

  lemma OperateRemoves(driver: Driver, oracle: Oracle, log: Log, order: seq<Package>, policies: map<Package, string>,
      window: Window)
    ensures Writes(Operate(driver, oracle, log, order, policies, AdminRemove, window).log) ==
      Writes(log) + RemovalRequests(order, policies)
  {
    OperateIsOperation(driver, oracle, log, order, policies, AdminRemove, window);
    OperationWrites(oracle, log, order, policies, AdminRemove, window);
    SubmitRemovalsWrites(oracle, log, order, policies);
  }

  /** The requests of a whole plan, given those made for its additions. */
  function PlanCalls(driver: Driver, r: Prepared, s: Setting, additions: seq<Call>, gateOpen: bool): seq<Call>
    requires r.Ready?
  {
    var removals := RemovalRequests(s.order(r.plan.removes), r.currentPolicies);
    if !r.reorder then additions + (if gateOpen then removals + PatchCalls(s.patch) else [])
    else if driver == Durable then removals + (PatchCalls(s.patch) + additions)
    else removals + (additions + PatchCalls(s.patch))
  }

  /** The parts of Strategy A, as they follow each other. */
  lemma StrategyAParts(driver: Driver, oracle: Oracle, log: Log, r: Prepared, s: Setting,
      added: Step<Option<seq<Action>>>, removed: Step<Option<seq<Action>>>)
    requires r.Ready?
    requires added == Operate(driver, oracle, log, s.order(r.plan.adds), r.newPolicies, AdminAdd, s.window)
    requires removed ==
      Operate(driver, oracle, added.log, s.order(r.plan.removes), r.currentPolicies, AdminRemove, s.window)
    ensures StrategyA(driver, oracle, log, r, s) ==
      if added.value.None? then Step(added.log, None)
      else if !AllSucceeded(added.value.value) then Step(added.log, Some(Provisioned(added.value.value, {})))
      else if removed.value.None? then Step(removed.log, None)
      else
        Step(Patched(oracle, removed.log, s.patch),
             Some(Provisioned(added.value.value + removed.value.value, Succeeded(removed.value.value))))
  {
  }

  lemma Joined(w: seq<Call>, a: seq<Call>, b: seq<Call>, c: seq<Call>)
    ensures w + a + b + c == w + (a + b + c) && w + a + b + c == w + (a + (b + c))
  {
  }

  lemma StrategyAAsks(driver: Driver, oracle: Oracle, log: Log, r: Prepared, s: Setting)
    returns (additions: seq<Call>, gateOpen: bool)
    requires r.Ready? && !r.reorder && StrategyA(driver, oracle, log, r, s).value.Some? && Iterates(s.order)
    ensures forall call :: call in additions ==> AdditionRequest(call, s.order(r.plan.adds), r.newPolicies)
    ensures var done := StrategyA(driver, oracle, log, r, s);
      && Writes(done.log) == Writes(log) + PlanCalls(driver, r, s, additions, gateOpen)
      && |s.order(r.plan.adds)| <= |done.value.value.actions|
      && (gateOpen <==> AllSucceeded(done.value.value.actions[..|s.order(r.plan.adds)|]))
  {
    var adds, removes := s.order(r.plan.adds), s.order(r.plan.removes);
    additions := OperateAdds(driver, oracle, log, adds, r.newPolicies, s.window);
    OperateIsOperation(driver, oracle, log, adds, r.newPolicies, AdminAdd, s.window);
    var added := Operate(driver, oracle, log, adds, r.newPolicies, AdminAdd, s.window);
    var removed := Operate(driver, oracle, added.log, removes, r.currentPolicies, AdminRemove, s.window);
    StrategyAParts(driver, oracle, log, r, s, added, removed);
    OperationIsExact(oracle, log, adds, r.newPolicies, AdminAdd, s.window);
    gateOpen := AllSucceeded(added.value.value);
    OperateRemoves(driver, oracle, added.log, removes, r.currentPolicies, s.window);
    PatchedWrites(oracle, removed.log, s.patch);
    var done := StrategyA(driver, oracle, log, r, s);
    FirstActions(added.value.value, done.value.value.actions);
    if gateOpen {
      Joined(Writes(log), additions, RemovalRequests(removes, r.currentPolicies), PatchCalls(s.patch));
    }
  }

  lemma FirstActions(first: seq<Action>, all: seq<Action>)
    requires first <= all
    ensures all[..|first|] == first
  {
  }

  lemma StrategyBAsks(driver: Driver, oracle: Oracle, log: Log, r: Prepared, s: Setting) returns (additions: seq<Call>)
    requires r.Ready? && r.reorder && StrategyB(driver, oracle, log, r, s).value.Some?
    ensures forall call :: call in additions ==> AdditionRequest(call, s.order(r.plan.adds), r.newPolicies)
    ensures Writes(StrategyB(driver, oracle, log, r, s).log) ==
      Writes(log) + PlanCalls(driver, r, s, additions, true)
  {
    var adds, removes := s.order(r.plan.adds), s.order(r.plan.removes);
    var removals, patch := RemovalRequests(removes, r.currentPolicies), PatchCalls(s.patch);
    OperateRemoves(driver, oracle, log, removes, r.currentPolicies, s.window);
    var removed := Operate(driver, oracle, log, removes, r.currentPolicies, AdminRemove, s.window);
    PatchedWrites(oracle, removed.log, s.patch);
    var between := if driver == Durable then Patched(oracle, removed.log, s.patch) else removed.log;
    additions := OperateAdds(driver, oracle, between, adds, r.newPolicies, s.window);
    var added := Operate(driver, oracle, between, adds, r.newPolicies, AdminAdd, s.window);
    PatchedWrites(oracle, added.log, s.patch);
    StrategyBParts(driver, oracle, log, r, s, removed, between, added);
    Joined(Writes(log), removals, patch, additions);
    Joined(Writes(log), removals, additions, patch);
  }

  /**
   * Everything a provisioned run asks of the tenant, in order: without reordering its
   * additions and, exactly if all of them succeeded, every removal and then the PATCH;
   * with reordering every removal, the additions, and the PATCH where the driver has it.
   */
  lemma RunAsksItsPlan(driver: Driver, oracle: Oracle, s: Setting, w: World, t: Trace)
    returns (additions: seq<Call>, gateOpen: bool)
    requires IsRun(driver, oracle, s, w, t) && Iterates(s.order) && t.pre.prepared.Ready? && t.done.value.Some?
    ensures var r := t.pre.prepared;
      && (forall call :: call in additions ==> AdditionRequest(call, s.order(r.plan.adds), r.newPolicies))
      && Writes(t.run.world.log) == Writes(w.log) + PlanCalls(driver, r, s, additions, gateOpen)
      && (!r.reorder ==>
            |s.order(r.plan.adds)| <= |t.done.value.value.actions| &&
            (gateOpen <==> AllSucceeded(t.done.value.value.actions[..|s.order(r.plan.adds)|])))
  {
    Unfold(driver, oracle, s, w, t);
    var r, log := t.pre.prepared, t.pre.world.log;
    PrepareWritesNothing(oracle, s, w);
    RunExtends(driver, oracle, s, w);
    if r.reorder {
      gateOpen := true;
      additions := StrategyBAsks(driver, oracle, log, r, s);
    } else {
      additions, gateOpen := StrategyAAsks(driver, oracle, log, r, s);
    }
  }

  // How a run ends.

  /** The statuses a provisioned run can end with, by what its verification was answered, and its actions. */
  lemma EndsIff(driver: Driver, oracle: Oracle, s: Setting, w: World, t: Trace)
    requires IsRun(driver, oracle, s, w, t) && t.pre.prepared.Ready? && t.done.value.Some?
    ensures t.run.end.Returned? && t.run.end.actions == t.done.value.value.actions
    ensures t.run.end.final == MoveFailed <==> !Heard(oracle, t.done.log, GetAssignments).Assignments?
    ensures t.run.end.final == MovedPartly <==>
      Heard(oracle, t.done.log, GetAssignments).Assignments? && !Confirms(oracle, t.pre.prepared.plan, t.done)
  {
    SucceedsIff(driver, oracle, s, w, t);
    Unfold(driver, oracle, s, w, t);
  }

  /** Of the runs that end, the partial ones and no others name the verification in their row. */
  lemma PartlyRowIs(driver: Driver, oracle: Oracle, s: Setting, w: World, t: Trace)
    requires IsRun(driver, oracle, s, w, t) && t.pre.prepared.Ready? && t.done.value.Some?
    requires ES.Find(t.pre.world.rows, s.event).Some?
    ensures var row := ES.Find(t.run.world.rows, s.event);
      t.run.end.Returned? && row.Some? && row.value.failureStep ==
        if t.run.end.final == MovedPartly then "PostMoveVerification"
        else ES.Find(t.pre.world.rows, s.event).value.failureStep
  {
    Unfold(driver, oracle, s, w, t);
    ClosedStep(t.pre.world.rows, s.event, t.run.end.final);
  }

  lemma ClosedStep(rows: ES.Partition, event: ES.EventId, final: Final)
    requires ES.Find(rows, event).Some?
    ensures var row := ES.Find(Closed(rows, event, final), event);
      row.Some? && row.value.failureStep ==
        if final == MovedPartly then "PostMoveVerification" else ES.Find(rows, event).value.failureStep
  {
    var row := ES.Find(rows, event).value.(lock := ES.Unlocked, holder := "");
    ES.FindPut(rows, row, event);
    var status := if final == MoveSucceeded then ES.Completed else ES.Failed;
    var step := if final == MovedPartly then "PostMoveVerification" else row.failureStep;
    ES.FindPut(ES.Release(rows, event), row.(status := status, failureStep := step), event);
  }

  lemma ObligedOperate(driver: Driver, oracle: Oracle, log: Log, order: seq<Package>, policies: map<Package, string>,
      kind: RequestKind, window: Window, from: nat)
    requires Obliges(oracle, from) && from <= |log| && window.attempts > 0
    requires kind.AdminAdd? ==> forall p :: p in order ==> PolicyFor(policies, p) != ""
    ensures var r := Operate(driver, oracle, log, order, policies, kind, window);
      && log <= r.log && r.value.Some? && AllSucceeded(r.value.value)
      && Writes(r.log) == Writes(log) + RequestsFor(order, policies, kind)
  {
    OperateIsOperation(driver, oracle, log, order, policies, kind, window);
    ObligedOperation(oracle, log, order, policies, kind, window, from);
  }

  /** Everything the plan says, in the strategy's order. */
  function WholePlan(driver: Driver, r: Prepared, s: Setting): seq<Call>
    requires r.Ready?
  {
    PlanCalls(driver, r, s, RequestsFor(s.order(r.plan.adds), r.newPolicies, AdminAdd), true)
  }

  /** Everything planned was done. */
  ghost predicate DoneInFull(driver: Driver, log: Log, r: Prepared, s: Setting, done: Step<Option<Provisioned>>)
    requires r.Ready?
  {
    && done.value.Some? && AllSucceeded(done.value.value.actions)
    && done.value.value.removed == r.plan.removes
    && Writes(done.log) == Writes(log) + WholePlan(driver, r, s)
  }

  lemma RemovalsAreRequests(order: seq<Package>, policies: map<Package, string>)
    ensures RequestsFor(order, policies, AdminRemove) == RemovalRequests(order, policies)
  {
  }

  lemma AllOfThem(oracle: Oracle, driver: Driver, log: Log, order: seq<Package>, policies: map<Package, string>,
      kind: RequestKind, window: Window)
    requires NoDuplicates(order)
    requires var r := Operate(driver, oracle, log, order, policies, kind, window);
      r.value.Some? && AllSucceeded(r.value.value)
    ensures Succeeded(Operate(driver, oracle, log, order, policies, kind, window).value.value) == Elements(order)
  {
    OperateIsOperation(driver, oracle, log, order, policies, kind, window);
    OperationIsExact(oracle, log, order, policies, kind, window);
  }

  lemma BothSucceeded(a: seq<Action>, b: seq<Action>)
    requires AllSucceeded(a) && AllSucceeded(b)
    ensures AllSucceeded(a + b)
  {
  }

  lemma ObligedStrategyA(driver: Driver, oracle: Oracle, log: Log, r: Prepared, s: Setting, from: nat)
    requires Obliges(oracle, from) && from <= |log| && s.window.attempts > 0 && Iterates(s.order)
    requires r.Ready? && !r.reorder && Covered(r, s)
    ensures DoneInFull(driver, log, r, s, StrategyA(driver, oracle, log, r, s))
  {
    var adds, removes := s.order(r.plan.adds), s.order(r.plan.removes);
    assert Elements(adds) == r.plan.adds && Elements(removes) == r.plan.removes;
    forall p | p in adds ensures PolicyFor(r.newPolicies, p) != "" {
      assert p in Elements(adds);
    }
    ObligedOperate(driver, oracle, log, adds, r.newPolicies, AdminAdd, s.window, from);
    var added := Operate(driver, oracle, log, adds, r.newPolicies, AdminAdd, s.window);
    ObligedOperate(driver, oracle, added.log, removes, r.currentPolicies, AdminRemove, s.window, from);
    AllOfThem(oracle, driver, added.log, removes, r.currentPolicies, AdminRemove, s.window);
    var removed := Operate(driver, oracle, added.log, removes, r.currentPolicies, AdminRemove, s.window);
    RemovalsAreRequests(removes, r.currentPolicies);
    BothSucceeded(added.value.value, removed.value.value);
    PatchedWrites(oracle, removed.log, s.patch);
    StrategyAParts(driver, oracle, log, r, s, added, removed);
    Joined(Writes(log), RequestsFor(adds, r.newPolicies, AdminAdd), RemovalRequests(removes, r.currentPolicies),
           PatchCalls(s.patch));
  }

  lemma ObligedStrategyB(driver: Driver, oracle: Oracle, log: Log, r: Prepared, s: Setting, from: nat)
    requires Obliges(oracle, from) && from <= |log| && s.window.attempts > 0 && Iterates(s.order)
    requires r.Ready? && r.reorder && Covered(r, s)
    ensures DoneInFull(driver, log, r, s, StrategyB(driver, oracle, log, r, s))
  {
    var adds, removes := s.order(r.plan.adds), s.order(r.plan.removes);
    assert Elements(adds) == r.plan.adds && Elements(removes) == r.plan.removes;
    forall p | p in adds ensures PolicyFor(r.newPolicies, p) != "" {
      assert p in Elements(adds);
    }
    ObligedOperate(driver, oracle, log, removes, r.currentPolicies, AdminRemove, s.window, from);
    AllOfThem(oracle, driver, log, removes, r.currentPolicies, AdminRemove, s.window);
    RemovalsAreRequests(removes, r.currentPolicies);
    var removed := Operate(driver, oracle, log, removes, r.currentPolicies, AdminRemove, s.window);
    PatchedWrites(oracle, removed.log, s.patch);
    PatchWrites(oracle, removed.log, s.patch);
    var between := if driver == Durable then Patched(oracle, removed.log, s.patch) else removed.log;
    ObligedOperate(driver, oracle, between, adds, r.newPolicies, AdminAdd, s.window, from);
    var added := Operate(driver, oracle, between, adds, r.newPolicies, AdminAdd, s.window);
    BothSucceeded(removed.value.value, added.value.value);
    PatchedWrites(oracle, added.log, s.patch);
    StrategyBParts(driver, oracle, log, r, s, removed, between, added);
    var first, second := RemovalRequests(removes, r.currentPolicies), RequestsFor(adds, r.newPolicies, AdminAdd);
    Joined(Writes(log), first, PatchCalls(s.patch), second);
    Joined(Writes(log), first, second, PatchCalls(s.patch));
  }

  /**
   * The ordinary case: on a tenant that accepts and delivers whatever it is asked, every
   * prepared run, under either strategy and driver, requests its whole plan once in its
   * order, reports all of it done, and, if the re-fetch then shows what the plan leaves
   * and memberships comply, succeeds and completes its row.
   */
  lemma ObligedRunSucceeds(driver: Driver, oracle: Oracle, s: Setting, w: World, t: Trace)
    requires IsRun(driver, oracle, s, w, t) && Iterates(s.order) && Iterates(s.sorted) && ES.Sorted(w.rows)
    requires t.pre.prepared.Ready? && Obliges(oracle, |t.pre.world.log|) && s.window.attempts > 0
    ensures t.done.value.Some? && AllSucceeded(t.done.value.value.actions)
    ensures t.done.value.value.removed == t.pre.prepared.plan.removes
    ensures Writes(t.run.world.log) == Writes(w.log) + WholePlan(driver, t.pre.prepared, s)
    ensures ShowsAgain(oracle, t.done.log, t.pre.prepared.plan.Keep() + t.pre.prepared.plan.adds) ==>
      && t.run.end == Returned(MoveSucceeded, t.done.value.value.actions)
      && RowIs(t.run.world.rows, s.event, ES.Completed, ES.Unlocked)
  {
    PreparedMovesAreCovered(oracle, s, w);
    Unfold(driver, oracle, s, w, t);
    var r, log := t.pre.prepared, t.pre.world.log;
    if r.reorder {
      ObligedStrategyB(driver, oracle, log, r, s, |log|);
    } else {
      ObligedStrategyA(driver, oracle, log, r, s, |log|);
    }
    PrepareWritesNothing(oracle, s, w);
    RunExtends(driver, oracle, s, w);
    ObligedEnd(driver, oracle, s, w, t);
  }

  lemma ObligedEnd(driver: Driver, oracle: Oracle, s: Setting, w: World, t: Trace)
    requires IsRun(driver, oracle, s, w, t) && ES.Sorted(w.rows)
    requires t.pre.prepared.Ready? && t.done.value.Some?
    ensures ShowsAgain(oracle, t.done.log, t.pre.prepared.plan.Keep() + t.pre.prepared.plan.adds) ==>
      && t.run.end == Returned(MoveSucceeded, t.done.value.value.actions)
      && RowIs(t.run.world.rows, s.event, ES.Completed, ES.Unlocked)
  {
    var plan := t.pre.prepared.plan;
    EndsIff(driver, oracle, s, w, t);
    SucceedsIff(driver, oracle, s, w, t);
    RowTellsTheResult(driver, oracle, s, w, t);
    if ShowsAgain(oracle, t.done.log, plan.Keep() + plan.adds) {
      assert Confirms(oracle, plan, t.done);
    }
  }
}
