/**
 * What both pipelines share: an operation (submit, poll, finalize) as the synchronous
 * driver and as the durable orchestrators run it, and the proof that they agree.
 */
module Drivers {
  import opened Collections
  import opened Tenant
  import opened Phases
  import opened PollLoops
  import opened PhaseProperties
  import opened PackagePhases
  import ES = EventStore

  /** The tenant's log and the employee's rows of the event table. */
  datatype World = World(log: Log, rows: ES.Partition)

  /** `current_policy_map`: a later assignment of the same package overwrites. */
  function CurrentPolicies(all: seq<Assignment>): map<Package, string> {
    if all == [] then map[]
    else
      var rest, last := CurrentPolicies(all[..|all| - 1]), all[|all| - 1];
      if last.package == "" then rest else rest[last.package := last.policy]
  }

  /** The policy of a package is that of its last assignment. */
  lemma {:induction false} CurrentPolicyIsTheLast(all: seq<Assignment>, i: nat)
    requires i < |all| && all[i].package != "" && forall j :: i < j < |all| ==> all[j].package != all[i].package
    ensures all[i].package in CurrentPolicies(all) && CurrentPolicies(all)[all[i].package] == all[i].policy
  {
    if i < |all| - 1 {
      CurrentPolicyIsTheLast(all[..|all| - 1], i);
    }
  }

  datatype Driver = Synchronous | Durable

  function FinalizeDicts(oracle: Oracle, log: Log, dicts: seq<PendingDict>): Step<Option<seq<Action>>> {
    match FromDicts(dicts)
    case None => Step(log, None)
    case Some(ps) => Finalize(oracle, log, ps)
  }

  /** submit, [check + timer]*, finalize over JSON lists. */
  function DurableOperation(oracle: Oracle, log: Log, order: seq<Package>, policies: map<Package, string>,
      kind: RequestKind, window: Window): Step<Option<seq<Action>>> {
    var submitted := Submit(oracle, log, order, policies, kind);
    var polled := DurablePoll(oracle, submitted.log, ToDicts(submitted.value), window.attempts, window.interval);
    if polled.value.None? then Step(polled.log, None) else FinalizeDicts(oracle, polled.log, polled.value.value)
  }

  function Operate(driver: Driver, oracle: Oracle, log: Log, order: seq<Package>, policies: map<Package, string>,
      kind: RequestKind, window: Window): Step<Option<seq<Action>>> {
    match driver
    case Synchronous => Operation(oracle, log, order, policies, kind, window)
    case Durable => DurableOperation(oracle, log, order, policies, kind, window)
  }

  /** submit/poll/finalize is the same operation under both drivers. */
  lemma OperationsAgree(oracle: Oracle, log: Log, order: seq<Package>, policies: map<Package, string>,
      kind: RequestKind, window: Window)
    ensures DurableOperation(oracle, log, order, policies, kind, window) ==
      Operation(oracle, log, order, policies, kind, window)
  {
    var submitted := Submit(oracle, log, order, policies, kind);
    PollLoopsAgree(oracle, submitted.log, submitted.value, window.attempts, window.interval);
    DictRoundTrip(SyncPoll(oracle, submitted.log, submitted.value, window.attempts, window.interval).value);
  }

  lemma OperateIsOperation(driver: Driver, oracle: Oracle, log: Log, order: seq<Package>,
      policies: map<Package, string>, kind: RequestKind, window: Window)
    ensures Operate(driver, oracle, log, order, policies, kind, window) ==
      Operation(oracle, log, order, policies, kind, window)
  {
    OperationsAgree(oracle, log, order, policies, kind, window);
  }

  // Tenants that refuse everything.

  /** From logs of this length on the tenant accepts no request and shows nothing assigned. */
  ghost predicate Refuses(oracle: Oracle, from: nat) {
    && (forall log: Log, call: Call :: |log| >= from && call.RequestAssignment? ==> !oracle(log, call).answer.Accepted?)
    && (forall log: Log, call: Call ::
          |log| >= from && call.CheckAssignment? ==> oracle(log, call).answer != Lookup(Some(Delivered)))
  }

  ghost predicate NothingSubmitted(ps: seq<Pending>) {
    forall i :: 0 <= i < |ps| ==> !ps[i].submitted && !ps[i].skipped
  }

  lemma {:induction false} RefusedSubmit(oracle: Oracle, log: Log, order: seq<Package>, policies: map<Package, string>,
      kind: RequestKind, from: nat)
    requires Refuses(oracle, from) && from <= |log|
    ensures NothingSubmitted(Submit(oracle, log, order, policies, kind).value)
  {
    if order != [] {
      var init, last := order[..|order| - 1], order[|order| - 1];
      RefusedSubmit(oracle, log, init, policies, kind, from);
      SubmitExtends(oracle, log, init, policies, kind);
      var most := Submit(oracle, log, init, policies, kind);
      RefusedOne(oracle, most.log, last, policies, kind, from);
    }
  }

  lemma RefusedOne(oracle: Oracle, log: Log, package: Package, policies: map<Package, string>, kind: RequestKind,
                   from: nat)
    requires Refuses(oracle, from) && from <= |log|
    ensures var p := SubmitOne(oracle, log, package, policies, kind).value; !p.submitted && !p.skipped
  {
    var checked := Ask(oracle, log, CheckAssignment(package));
    var request := RequestAssignment(package, PolicyFor(policies, package), kind);
    assert !oracle(checked, request).answer.Accepted? && !oracle(log, request).answer.Accepted?;
    assert oracle(log, CheckAssignment(package)).answer != Lookup(Some(Delivered));
  }

  lemma {:induction false} UnsubmittedFinalize(oracle: Oracle, log: Log, ps: seq<Pending>)
    requires NothingSubmitted(ps)
    ensures Finalize(oracle, log, ps).log == log && Finalize(oracle, log, ps).value.Some?
  {
    if ps != [] {
      UnsubmittedFinalize(oracle, log, ps[..|ps| - 1]);
    }
  }

  /** When nothing is accepted there is nothing to poll and nothing to look up. */
  lemma NothingAcceptedNothingPolled(oracle: Oracle, log: Log, order: seq<Package>, policies: map<Package, string>,
      kind: RequestKind, window: Window, from: nat)
    requires Refuses(oracle, from) && from <= |log|
    ensures var r := Operation(oracle, log, order, policies, kind, window);
      r.log == Submit(oracle, log, order, policies, kind).log && r.value.Some?
  {
    var submitted := Submit(oracle, log, order, policies, kind);
    RefusedSubmit(oracle, log, order, policies, kind, from);
    assert AllTerminal(submitted.value);
    assert SyncPoll(oracle, submitted.log, submitted.value, window.attempts, window.interval) == submitted;
    UnsubmittedFinalize(oracle, submitted.log, submitted.value);
  }

  lemma EmptyOperation(oracle: Oracle, log: Log, policies: map<Package, string>, kind: RequestKind, window: Window)
    ensures Operation(oracle, log, [], policies, kind, window) == Step(log, Some([]))
  {
    assert AllTerminal([]);
  }

  // A tenant whose lookups fail.

  /** The user and one package are found and a request is accepted; everything else is an error. */
  function Faltering(log: Log, call: Call): Reply {
    Reply([], match call
              case GetUser => User("u", Some(true))
              case GetAssignments => Assignments([Assignment("p", "policy")])
              case RequestAssignment(_, _, _) => Accepted("r")
              case _ => GraphError)
  }

  lemma {:induction false} FalteringPoll(log: Log, p: Pending, attempts: nat, interval: nat)
    requires Open(p)
    ensures SyncPoll(Faltering, log, [p], attempts, interval).value == [p]
    decreases attempts
  {
    if attempts > 0 {
      assert [p][..0] == [] && Open([p][0]);
      assert PollPass(Faltering, log, []) == Step(log, []);
      var pass := PollPass(Faltering, log, [p]);
      assert pass.value == [p];
      FalteringPoll(pass.log + [Waited(interval)], p, attempts - 1, interval);
    }
  }

  /** On that tenant a removal raises, however long the window. */
  lemma FalteringRemovalRaises(log: Log, package: Package, policies: map<Package, string>, window: Window)
    ensures Operation(Faltering, log, [package], policies, AdminRemove, window).value.None?
  {
    var submitted := Submit(Faltering, log, [package], policies, AdminRemove);
    var blank := Fresh(package, PolicyFor(policies, package), AdminRemove);
    assert [package][..0] == [];
    assert Submit(Faltering, log, [], policies, AdminRemove) == Step(log, []);
    var p := RequestNow(Faltering, log, blank).value;
    assert submitted.value == [p];
    FalteringPoll(submitted.log, p, window.attempts, window.interval);
    var polled := SyncPoll(Faltering, submitted.log, submitted.value, window.attempts, window.interval);
    assert [p][..0] == [];
    assert Finalize(Faltering, polled.log, []) == Step(polled.log, Some([]));
    assert Finalize(Faltering, polled.log, [p]).value.None?;
  }

  // The synchronous operation.

  method BuildPolicyMap(all: seq<Assignment>) returns (policies: map<Package, string>)
    ensures policies == CurrentPolicies(all)
  {
    policies := map[];
    for i := 0 to |all|
      invariant policies == CurrentPolicies(all[..i])
    {
      TakeOneMore(all, i);
      if all[i].package != "" {
        policies := policies[all[i].package := all[i].policy];
      }
    }
    TakeAll(all);
  }

  method SyncAdditions(graph: GraphClient, order: seq<Package>, policies: map<Package, string>, window: Window)
    returns (result: AdditionsResult)
    modifies graph`log
    ensures var spec := Operation(graph.oracle, old(graph.log), order, policies, AdminAdd, window);
      && graph.log == spec.log
      && (result.AdditionsRaised? <==> spec.value.None?)
      && (result.AdditionsDone? ==>
            result.actions == spec.value.value && result.allSucceeded == AllSucceeded(result.actions))
  {
    var pending := SubmitAdditions(graph, order, policies);
    PollUntilTerminal(pending, graph, window);
    result := FinalizeAdditions(graph, pending);
  }

  method SyncRemovals(graph: GraphClient, order: seq<Package>, policies: map<Package, string>, window: Window)
    returns (result: Option<seq<Action>>)
    modifies graph`log
    ensures Step(graph.log, result) == Operation(graph.oracle, old(graph.log), order, policies, AdminRemove, window)
  {
    var pending := SubmitRemovals(graph, order, policies);
    PollUntilTerminal(pending, graph, window);
    result := FinalizeRemovals(graph, pending);
  }

  // The durable activities.

  method ToDictList(pending: seq<PendingPackage>) returns (dicts: seq<PendingDict>)
    ensures dicts == ToDicts(Views(pending))
  {
    dicts := [];
    for i := 0 to |pending|
      invariant |dicts| == i && forall k :: 0 <= k < i ==> dicts[k] == ToDict(pending[k].View())
    {
      dicts := dicts + [ToDict(pending[i].View())];
    }
  }

  method Rebuild(dicts: seq<PendingDict>) returns (pending: Option<seq<PendingPackage>>)
    ensures pending.None? <==> FromDicts(dicts).None?
    ensures pending.Some? ==> (
      && (forall i :: 0 <= i < |pending.value| ==> fresh(pending.value[i]))
      && NoDuplicates(pending.value)
      && Views(pending.value) == FromDicts(dicts).value)
  {
    var built: seq<PendingPackage> := [];
    for i := 0 to |dicts|
      invariant |built| == i && (forall k :: 0 <= k < i ==> fresh(built[k])) && NoDuplicates(built)
      invariant forall k :: 0 <= k < i ==> FromDict(dicts[k]) == Some(built[k].View())
    {
      var p := FromDict(dicts[i]);
      if p.None? {
        return None;
      }
      var one := new PendingPackage.Rebuilt(p.value);
      built := built + [one];
    }
    assert Views(built) == FromDicts(dicts).value;
    return Some(built);
  }

  method SubmitActivity(graph: GraphClient, kind: RequestKind, order: seq<Package>,
      policies: map<Package, string>) returns (dicts: seq<PendingDict>)
    modifies graph`log
    ensures var spec := Submit(graph.oracle, old(graph.log), order, policies, kind);
      graph.log == spec.log && dicts == ToDicts(spec.value)
  {
    var pending;
    if kind == AdminAdd {
      pending := SubmitAdditions(graph, order, policies);
    } else {
      pending := SubmitRemovals(graph, order, policies);
    }
    dicts := ToDictList(pending);
  }

  method CheckActivity(graph: GraphClient, dicts: seq<PendingDict>) returns (checked: Option<Checked>)
    modifies graph`log
    ensures Step(graph.log, checked) == Check(graph.oracle, old(graph.log), dicts)
  {
    var pending := Rebuild(dicts);
    if pending.None? {
      return None;
    }
    PollPackagesOnce(pending.value, graph);
    var all := PackagesAllTerminal(pending.value);
    var next := ToDictList(pending.value);
    return Some(Checked(next, all));
  }

  method RunPollLoop(graph: GraphClient, dicts: seq<PendingDict>, window: Window)
    returns (result: Option<seq<PendingDict>>)
    modifies graph`log
    ensures Step(graph.log, result) ==
      DurablePoll(graph.oracle, old(graph.log), dicts, window.attempts, window.interval)
  {
    ghost var whole := DurablePoll(graph.oracle, graph.log, dicts, window.attempts, window.interval);
    var state := dicts;
    for i := 0 to window.attempts
      invariant DurablePoll(graph.oracle, graph.log, state, window.attempts - i, window.interval) == whole
    {
      var checked := CheckActivity(graph, state);
      if checked.None? {
        return None;
      }
      state := checked.value.dicts;
      if checked.value.allTerminal {
        return Some(state);
      }
      graph.Wait(window.interval);
    }
    return Some(state);
  }

  /** Finalize the handed-over list. */
  method FinalizeActivity(graph: GraphClient, kind: RequestKind, dicts: seq<PendingDict>)
    returns (actions: Option<seq<Action>>)
    requires FromDicts(dicts).Some? ==> forall p :: p in FromDicts(dicts).value ==> p.kind == kind
    modifies graph`log
    ensures Step(graph.log, actions) == FinalizeDicts(graph.oracle, old(graph.log), dicts)
  {
    var pending := Rebuild(dicts);
    if pending.None? {
      return None;
    }
    assert forall i :: 0 <= i < |pending.value| ==> Views(pending.value)[i] in FromDicts(dicts).value;
    if kind == AdminAdd {
      var result := FinalizeAdditions(graph, pending.value);
      return if result.AdditionsRaised? then None else Some(result.actions);
    }
    actions := FinalizeRemovals(graph, pending.value);
  }

  /** The orchestrators' submit, poll, finalize triad. */
  method DurableTriad(graph: GraphClient, kind: RequestKind, order: seq<Package>, policies: map<Package, string>,
                      window: Window)
    returns (actions: Option<seq<Action>>)
    modifies graph`log
    ensures Step(graph.log, actions) == DurableOperation(graph.oracle, old(graph.log), order, policies, kind, window)
  {
    ghost var submitted := Submit(graph.oracle, graph.log, order, policies, kind);
    SubmitExtends(graph.oracle, graph.log, order, policies, kind);
    var dicts := SubmitActivity(graph, kind, order, policies);
    PollLoopsAgree(graph.oracle, graph.log, submitted.value, window.attempts, window.interval);
    PollKeeps(graph.oracle, graph.log, submitted.value, window.attempts, window.interval);
    DictRoundTrip(SyncPoll(graph.oracle, graph.log, submitted.value, window.attempts, window.interval).value);
    var polled := RunPollLoop(graph, dicts, window);
    actions := FinalizeActivity(graph, kind, polled.value);
  }
}
