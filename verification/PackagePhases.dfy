/**
 * The phases as they run: lists of mutable PendingPackage records, updated in place,
 * over a Graph client.  Each method is tied to its function in `Phases`.
 */
module PackagePhases {
  import opened Collections
  import opened Tenant
  import opened Phases
  import opened PollLoops

  class PendingPackage {
    const package: Package
    const policy: string
    const kind: RequestKind
    var request: RequestId
    var state: RequestState
    var previous: RequestState
    var submitted: bool
    var skipped: bool
    var fault: Fault

    constructor (package: Package, policy: string, kind: RequestKind)
      ensures View() == Fresh(package, policy, kind)
    {
      this.package, this.policy, this.kind := package, policy, kind;
      request, state, previous := "", Blank, Blank;
      submitted, skipped, fault := false, false, NoFault;
    }

    /** A record rebuilt on another worker. */
    constructor Rebuilt(p: Pending)
      ensures View() == p
    {
      package, policy, kind := p.package, p.policy, p.kind;
      request, state, previous := p.request, p.state, p.previous;
      submitted, skipped, fault := p.submitted, p.skipped, p.fault;
    }

    function View(): Pending
      reads this
    {
      Pending(package, policy, kind, request, state, previous, submitted, skipped, fault)
    }
  }

  function Views(ps: seq<PendingPackage>): (views: seq<Pending>)
    reads ps
    ensures |views| == |ps|
    ensures forall i :: 0 <= i < |ps| ==> views[i] == ps[i].View()
  {
    seq(|ps|, i requires 0 <= i < |ps| reads ps => ps[i].View())
  }

  lemma ViewsOneMore(ps: seq<PendingPackage>, p: PendingPackage)
    ensures Views(ps + [p]) == Views(ps) + [p.View()]
  {
  }

  /** Shared tail of both submit phases: the request itself. */
  method SubmitRequest(graph: GraphClient, p: PendingPackage)
    modifies graph`log, p
    ensures Step(graph.log, p.View()) == RequestNow(graph.oracle, old(graph.log), old(p.View()))
  {
    var answer := graph.Send(RequestAssignment(p.package, p.policy, p.kind));
    match answer
    case Accepted(id) =>
      p.request := id;
      p.submitted := true;
      p.state := Submitted;
    case _ =>
      p.fault := CallFailed;
      p.state := SubmissionFailed;
  }

  method SubmitOneAddition(graph: GraphClient, package: Package, policies: map<Package, string>)
    returns (p: PendingPackage)
    modifies graph`log
    ensures fresh(p) && p.kind == AdminAdd
    ensures Step(graph.log, p.View()) == SubmitAddition(graph.oracle, old(graph.log), package, policies)
  {
    p := new PendingPackage(package, PolicyFor(policies, package), AdminAdd);
    if p.policy == "" {
      p.fault := NoPolicy;
      p.state := SubmissionFailed;
      return;
    }
    var existing := graph.Send(CheckAssignment(package));
    match existing
    case Lookup(found) =>
      if found == Some(Delivered) {
        p.skipped := true;
        p.state := Delivered;
      } else {
        SubmitRequest(graph, p);
      }
    case _ =>
      p.fault := CallFailed;
      p.state := SubmissionFailed;
  }

  lemma SubmitOneMore(oracle: Oracle, log: Log, order: seq<Package>, policies: map<Package, string>,
                      kind: RequestKind, i: nat)
    requires i < |order|
    ensures var most := Submit(oracle, log, order[..i], policies, kind);
      var one := SubmitOne(oracle, most.log, order[i], policies, kind);
      Submit(oracle, log, order[..i + 1], policies, kind) == Step(one.log, most.value + [one.value])
  {
    TakeOneMore(order, i);
  }

  method SubmitOneRemoval(graph: GraphClient, package: Package, policies: map<Package, string>)
    returns (p: PendingPackage)
    modifies graph`log
    ensures fresh(p) && p.kind == AdminRemove
    ensures Step(graph.log, p.View()) == SubmitOne(graph.oracle, old(graph.log), package, policies, AdminRemove)
  {
    p := new PendingPackage(package, PolicyFor(policies, package), AdminRemove);
    SubmitRequest(graph, p);
  }

  /** One more record for a list that has got as far as `i`: the earlier ones stay as they are. */
  method SubmitNext(graph: GraphClient, order: seq<Package>, i: nat, policies: map<Package, string>, kind: RequestKind,
      pending: seq<PendingPackage>, ghost start: Log) returns (p: PendingPackage)
    requires i < |order|
    requires Step(graph.log, Views(pending)) == Submit(graph.oracle, start, order[..i], policies, kind)
    modifies graph`log
    ensures fresh(p) && p.kind == kind
    ensures Step(graph.log, Views(pending + [p])) == Submit(graph.oracle, start, order[..i + 1], policies, kind)
  {
    SubmitOneMore(graph.oracle, start, order, policies, kind, i);
    ghost var done := Views(pending);
    if kind == AdminAdd {
      p := SubmitOneAddition(graph, order[i], policies);
    } else {
      p := SubmitOneRemoval(graph, order[i], policies);
    }
    assert Views(pending) == done;
    ViewsOneMore(pending, p);
  }

  method SubmitAdditions(graph: GraphClient, order: seq<Package>,
      policies: map<Package, string>) returns (pending: seq<PendingPackage>)
    modifies graph`log
    ensures forall k :: 0 <= k < |pending| ==> fresh(pending[k]) && pending[k].kind == AdminAdd
    ensures NoDuplicates(pending)
    ensures Step(graph.log, Views(pending)) == Submit(graph.oracle, old(graph.log), order, policies, AdminAdd)
  {
    pending := [];
    for i := 0 to |order|
      invariant forall k :: 0 <= k < |pending| ==> fresh(pending[k]) && pending[k].kind == AdminAdd
      invariant NoDuplicates(pending)
      invariant Step(graph.log, Views(pending)) == Submit(graph.oracle, old(graph.log), order[..i], policies, AdminAdd)
    {
      var p := SubmitNext(graph, order, i, policies, AdminAdd, pending, old(graph.log));
      pending := pending + [p];
    }
    TakeAll(order);
  }

  method SubmitRemovals(graph: GraphClient, order: seq<Package>,
      policies: map<Package, string>) returns (pending: seq<PendingPackage>)
    modifies graph`log
    ensures forall k :: 0 <= k < |pending| ==> fresh(pending[k]) && pending[k].kind == AdminRemove
    ensures NoDuplicates(pending)
    ensures Step(graph.log, Views(pending)) == Submit(graph.oracle, old(graph.log), order, policies, AdminRemove)
  {
    pending := [];
    for i := 0 to |order|
      invariant forall k :: 0 <= k < |pending| ==> fresh(pending[k]) && pending[k].kind == AdminRemove
      invariant NoDuplicates(pending)
      invariant Step(graph.log, Views(pending)) ==
        Submit(graph.oracle, old(graph.log), order[..i], policies, AdminRemove)
    {
      var p := SubmitNext(graph, order, i, policies, AdminRemove, pending, old(graph.log));
      pending := pending + [p];
    }
    TakeAll(order);
  }

  method PollInPlace(p: PendingPackage, graph: GraphClient)
    modifies graph`log, p
    ensures Step(graph.log, p.View()) == PollOne(graph.oracle, old(graph.log), old(p.View()))
  {
    if p.submitted && !Terminal(p.state) {
      var status := graph.Send(GetRequestStatus(p.request));
      if status.Status? && status.state != Blank && status.state != p.state {
        p.previous := p.state;
        p.state := status.state;
      }
    }
  }

  lemma PassOneMore(oracle: Oracle, log: Log, ps: seq<Pending>, i: nat)
    requires i < |ps|
    ensures var most, one := PollPass(oracle, log, ps[..i]), PollOne(oracle, PollPass(oracle, log, ps[..i]).log, ps[i]);
      PollPass(oracle, log, ps[..i + 1]) == Step(one.log, most.value + [one.value])
  {
    TakeOneMore(ps, i);
  }

  /** One record of a pass that has got as far as `i`: the others stay as they are. */
  method PollAt(pending: seq<PendingPackage>, i: nat, graph: GraphClient, ghost start: Log, ghost before: seq<Pending>)
    requires NoDuplicates(pending) && i < |pending| == |before|
    requires Step(graph.log, Views(pending)[..i]) == PollPass(graph.oracle, start, before[..i])
    requires pending[i].View() == before[i]
    modifies graph`log, pending[i]
    ensures Step(graph.log, Views(pending)[..i + 1]) == PollPass(graph.oracle, start, before[..i + 1])
    ensures forall k :: i < k < |pending| ==> pending[k].View() == old(pending[k].View())
  {
    PassOneMore(graph.oracle, start, before, i);
    ghost var done := Views(pending)[..i];
    PollInPlace(pending[i], graph);
    assert Views(pending)[..i + 1] == done + [pending[i].View()];
  }

  /** One pass: every open record is asked about once and updated in place. */
  method PollPackagesOnce(pending: seq<PendingPackage>, graph: GraphClient)
    requires NoDuplicates(pending)
    modifies graph`log, pending
    ensures Step(graph.log, Views(pending)) == PollPass(graph.oracle, old(graph.log), old(Views(pending)))
  {
    ghost var before := Views(pending);
    for i := 0 to |pending|
      invariant Step(graph.log, Views(pending)[..i]) == PollPass(graph.oracle, old(graph.log), before[..i])
      invariant forall k :: i <= k < |pending| ==> pending[k].View() == before[k]
    {
      PollAt(pending, i, graph, old(graph.log), before);
    }
    TakeAll(before);
    TakeAll(Views(pending));
  }

  method PackagesAllTerminal(pending: seq<PendingPackage>) returns (all: bool)
    ensures all == AllTerminal(Views(pending))
  {
    for i := 0 to |pending|
      invariant forall k :: 0 <= k < i ==> !Open(pending[k].View())
    {
      if pending[i].submitted && !Terminal(pending[i].state) {
        assert Open(Views(pending)[i]);
        return false;
      }
    }
    return true;
  }

  datatype AdditionsResult =
    | AdditionsRaised
    | AdditionsDone(actions: seq<Action>, delivered: set<Package>, allSucceeded: bool)

  lemma FinalizeOneMore(oracle: Oracle, log: Log, ps: seq<Pending>, i: nat)
    requires i < |ps| && Finalize(oracle, log, ps[..i]).value.Some?
    ensures var most, one := Finalize(oracle, log, ps[..i]), Confirm(oracle, Finalize(oracle, log, ps[..i]).log, ps[i]);
      Finalize(oracle, log, ps[..i + 1]) == Step(one.log,
        if one.value.None? then None else Some(most.value.value + [Action(ps[i].kind, ps[i].package, one.value.value)]))
  {
    TakeOneMore(ps, i);
  }

  lemma {:induction false} RaisedStaysRaised(oracle: Oracle, log: Log, ps: seq<Pending>, i: nat)
    requires i <= |ps| && Finalize(oracle, log, ps[..i]).value.None?
    ensures Finalize(oracle, log, ps) == Finalize(oracle, log, ps[..i])
  {
    if i < |ps| {
      assert ps[..|ps| - 1][..i] == ps[..i];
      RaisedStaysRaised(oracle, log, ps[..|ps| - 1], i);
    } else {
      TakeAll(ps);
    }
  }

  /** The decision about one record, with the fallback lookup where the poll ended early. */
  method ConfirmOne(graph: GraphClient, p: PendingPackage) returns (ok: Option<bool>)
    modifies graph`log
    ensures Step(graph.log, ok) == Confirm(graph.oracle, old(graph.log), p.View())
  {
    if p.skipped && p.kind.AdminAdd? {
      return Some(true);
    }
    if !p.submitted {
      return Some(false);
    }
    if p.state.Delivered? {
      return Some(true);
    }
    if p.kind.AdminAdd? && (p.state.Denied? || p.state.Failed? || p.state.Canceled?) {
      return Some(false);
    }
    var fallback := graph.Send(CheckAssignment(p.package));
    if !fallback.Lookup? {
      return None;
    }
    ok := Some(if p.kind.AdminAdd? then fallback.found == Some(Delivered) else fallback.found != Some(Delivered));
  }

  method FinalizeAdditions(graph: GraphClient, pending: seq<PendingPackage>) returns (result: AdditionsResult)
    requires forall i :: 0 <= i < |pending| ==> pending[i].kind == AdminAdd
    modifies graph`log
    ensures var spec := Finalize(graph.oracle, old(graph.log), Views(pending));
      && graph.log == spec.log
      && (result.AdditionsRaised? <==> spec.value.None?)
      && (result.AdditionsDone? ==>
            (result.actions == spec.value.value
             && result.delivered == Succeeded(result.actions)
             && result.allSucceeded == AllSucceeded(result.actions)))
  {
    ghost var views := Views(pending);
    var actions, delivered, allSucceeded := [], {}, true;
    for i := 0 to |pending|
      invariant Step(graph.log, Some(actions)) == Finalize(graph.oracle, old(graph.log), views[..i])
      invariant delivered == Succeeded(actions)
      invariant allSucceeded == AllSucceeded(actions)
    {
      FinalizeOneMore(graph.oracle, old(graph.log), views, i);
      var p := pending[i];
      var ok := ConfirmOne(graph, p);
      if ok.None? {
        RaisedStaysRaised(graph.oracle, old(graph.log), views, i + 1);
        return AdditionsRaised;
      }
      ghost var earlier := actions;
      actions := actions + [Action(AdminAdd, p.package, ok.value)];
      SucceededGrows(earlier, Action(AdminAdd, p.package, ok.value));
      if ok.value {
        delivered := delivered + {p.package};
      } else {
        allSucceeded := false;
      }
    }
    TakeAll(views);
    return AdditionsDone(actions, delivered, allSucceeded);
  }

  lemma SucceededGrows(actions: seq<Action>, a: Action)
    ensures Succeeded(actions + [a]) == Succeeded(actions) + if a.succeeded then {a.package} else {}
    ensures AllSucceeded(actions + [a]) <==> AllSucceeded(actions) && a.succeeded
  {
    var all := actions + [a];
    assert forall i :: 0 <= i < |actions| ==> all[i] == actions[i];
    assert all[|actions|] == a;
  }

  /** Removals: a failed one is recorded and does not stop the others. */
  method FinalizeRemovals(graph: GraphClient, pending: seq<PendingPackage>) returns (result: Option<seq<Action>>)
    requires forall i :: 0 <= i < |pending| ==> pending[i].kind == AdminRemove
    modifies graph`log
    ensures Step(graph.log, result) == Finalize(graph.oracle, old(graph.log), Views(pending))
  {
    ghost var views := Views(pending);
    var actions := [];
    for i := 0 to |pending|
      invariant Step(graph.log, Some(actions)) == Finalize(graph.oracle, old(graph.log), views[..i])
    {
      FinalizeOneMore(graph.oracle, old(graph.log), views, i);
      var p := pending[i];
      var ok := ConfirmOne(graph, p);
      if ok.None? {
        RaisedStaysRaised(graph.oracle, old(graph.log), views, i + 1);
        return None;
      }
      actions := actions + [Action(AdminRemove, p.package, ok.value)];
    }
    TakeAll(views);
    return Some(actions);
  }

  lemma PollStep(oracle: Oracle, log: Log, ps: seq<Pending>, attempts: nat, interval: nat)
    requires attempts > 0
    ensures var pass := PollPass(oracle, log, ps);
      SyncPoll(oracle, log, ps, attempts, interval) ==
        if AllTerminal(ps) then Step(log, ps)
        else if AllTerminal(pass.value) then pass
        else SyncPoll(oracle, pass.log + [Waited(interval)], pass.value, attempts - 1, interval)
  {
  }

  /** One round of the synchronous loop; `remaining` rounds are left before it. */
  method PollRound(pending: seq<PendingPackage>, graph: GraphClient, interval: nat, ghost remaining: nat)
    returns (finished: bool)
    requires NoDuplicates(pending) && remaining > 0
    modifies graph`log, pending
    ensures var whole := SyncPoll(graph.oracle, old(graph.log), old(Views(pending)), remaining, interval);
      if finished then Step(graph.log, Views(pending)) == whole
      else SyncPoll(graph.oracle, graph.log, Views(pending), remaining - 1, interval) == whole
  {
    PollStep(graph.oracle, graph.log, Views(pending), remaining, interval);
    finished := PackagesAllTerminal(pending);
    if finished {
      return;
    }
    PollPackagesOnce(pending, graph);
    finished := PackagesAllTerminal(pending);
    if !finished {
      graph.Wait(interval);
    }
  }

  /** `_poll_until_terminal`: the synchronous loop, sleeping between passes. */
  method PollUntilTerminal(pending: seq<PendingPackage>, graph: GraphClient, window: Window)
    requires NoDuplicates(pending)
    modifies graph`log, pending
    ensures Step(graph.log, Views(pending)) ==
      SyncPoll(graph.oracle, old(graph.log), old(Views(pending)), window.attempts, window.interval)
  {
    for i := 0 to window.attempts
      invariant SyncPoll(graph.oracle, graph.log, Views(pending), window.attempts - i, window.interval) ==
        SyncPoll(graph.oracle, old(graph.log), old(Views(pending)), window.attempts, window.interval)
    {
      var finished := PollRound(pending, graph, window.interval, window.attempts - i);
      if finished {
        return;
      }
    }
  }
}
