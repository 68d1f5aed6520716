/**
 * The sleep-free provisioning phases: submit, one poll pass, finalize.
 *
 * `Mover/provisioning_phases.py` and `Leaver/provisioning_phases.py` carry the same
 * code (the Leaver has the removal half only), so both pipelines use this module.
 * Each phase is first a function of the tenant's oracle, the log and plain records,
 * then the method that runs it over mutable `PendingPackage` objects.
 */
module Phases {
  import opened Collections
  import opened Tenant

  datatype Fault = NoFault | NoPolicy | CallFailed

  /** The fields of a PendingPackage, as a value. */
  datatype Pending = Pending(
    package: Package, policy: string, kind: RequestKind, request: RequestId,
    state: RequestState, previous: RequestState, submitted: bool, skipped: bool, fault: Fault)

  /** One entry of `actions_taken`. */
  datatype Action = Action(kind: RequestKind, package: Package, succeeded: bool)

  /** A log together with what was computed on the way. */
  datatype Step<+T> = Step(log: Log, value: T)

  predicate Terminal(state: RequestState) {
    state.Delivered? || state.Denied? || state.Canceled? || state.Failed?
  }

  predicate Open(p: Pending) {
    p.submitted && !Terminal(p.state)
  }

  predicate AllTerminal(ps: seq<Pending>) {
    forall i :: 0 <= i < |ps| ==> !Open(ps[i])
  }

  function Fresh(package: Package, policy: string, kind: RequestKind): Pending {
    Pending(package, policy, kind, "", Blank, Blank, false, false, NoFault)
  }

  // Submission.

  function RequestNow(oracle: Oracle, log: Log, p: Pending): Step<Pending> {
    var call := RequestAssignment(p.package, p.policy, p.kind);
    match Heard(oracle, log, call)
    case Accepted(id) => Step(Ask(oracle, log, call), p.(request := id, submitted := true, state := Submitted))
    case _ => Step(Ask(oracle, log, call), p.(fault := CallFailed, state := SubmissionFailed))
  }

  function PolicyFor(policies: map<Package, string>, package: Package): string {
    if package in policies then policies[package] else ""
  }

  function SubmitAddition(oracle: Oracle, log: Log, package: Package, policies: map<Package, string>): Step<Pending> {
    var p := Fresh(package, PolicyFor(policies, package), AdminAdd);
    if p.policy == "" then
      Step(log, p.(fault := NoPolicy, state := SubmissionFailed))
    else
      var checked := Ask(oracle, log, CheckAssignment(package));
      match Heard(oracle, log, CheckAssignment(package))
      case Lookup(found) =>
        if found == Some(Delivered) then Step(checked, p.(skipped := true, state := Delivered))
        else RequestNow(oracle, checked, p)
      case _ => Step(checked, p.(fault := CallFailed, state := SubmissionFailed))
  }

  function SubmitOne(oracle: Oracle, log: Log, package: Package, policies: map<Package, string>,
      kind: RequestKind): Step<Pending> {
    match kind
    case AdminAdd => SubmitAddition(oracle, log, package, policies)
    case AdminRemove => RequestNow(oracle, log, Fresh(package, PolicyFor(policies, package), AdminRemove))
  }

  /** Submit one request per package, in the order the loop meets them. */
  function Submit(oracle: Oracle, log: Log, order: seq<Package>, policies: map<Package, string>,
      kind: RequestKind): (r: Step<seq<Pending>>)
    ensures |r.value| == |order|
  {
    if order == [] then Step(log, [])
    else
      var most := Submit(oracle, log, order[..|order| - 1], policies, kind);
      var one := SubmitOne(oracle, most.log, order[|order| - 1], policies, kind);
      Step(one.log, most.value + [one.value])
  }

  // Polling.

  function Updated(p: Pending, answer: Answer): Pending {
    if answer.Status? && answer.state != Blank && answer.state != p.state
    then p.(previous := p.state, state := answer.state) else p
  }

  function PollOne(oracle: Oracle, log: Log, p: Pending): Step<Pending> {
    if !Open(p) then Step(log, p)
    else
      var call := GetRequestStatus(p.request);
      Step(Ask(oracle, log, call), Updated(p, Heard(oracle, log, call)))
  }

  function PollPass(oracle: Oracle, log: Log, ps: seq<Pending>): (r: Step<seq<Pending>>)
    ensures |r.value| == |ps|
  {
    if ps == [] then Step(log, [])
    else
      var most := PollPass(oracle, log, ps[..|ps| - 1]);
      var one := PollOne(oracle, most.log, ps[|ps| - 1]);
      Step(one.log, most.value + [one.value])
  }

  // Finalizing.

  /**
   * What the phase concludes about one record: Some(succeeded), or None when the
   * fallback lookup raises, which nothing in the phase catches.
   */
  function Confirm(oracle: Oracle, log: Log, p: Pending): Step<Option<bool>> {
    if p.skipped && p.kind.AdminAdd? then Step(log, Some(true))
    else if !p.submitted then Step(log, Some(false))
    else if p.state.Delivered? then Step(log, Some(true))
    else if p.kind.AdminAdd? && Terminal(p.state) then Step(log, Some(false))
    else
      var call := CheckAssignment(p.package);
      var answer := Heard(oracle, log, call);
      Step(Ask(oracle, log, call),
           if answer.Lookup? then Some((answer.found == Some(Delivered)) == p.kind.AdminAdd?) else None)
  }

  /** The actions of a whole phase, or None when it raised part-way. */
  function Finalize(oracle: Oracle, log: Log, ps: seq<Pending>): Step<Option<seq<Action>>> {
    if ps == [] then Step(log, Some([]))
    else
      var most := Finalize(oracle, log, ps[..|ps| - 1]);
      if most.value.None? then most
      else
        var p := ps[|ps| - 1];
        var one := Confirm(oracle, most.log, p);
        match one.value
        case None => Step(one.log, None)
        case Some(ok) => Step(one.log, Some(most.value.value + [Action(p.kind, p.package, ok)]))
  }

  function Succeeded(actions: seq<Action>): set<Package> {
    set a | a in actions && a.succeeded :: a.package
  }

  predicate AllSucceeded(actions: seq<Action>) {
    forall i :: 0 <= i < |actions| ==> actions[i].succeeded
  }

  // What a phase does to the log.

  lemma SubmitOneExtends(oracle: Oracle, log: Log, package: Package, policies: map<Package, string>, kind: RequestKind)
    ensures log <= SubmitOne(oracle, log, package, policies, kind).log
    ensures SubmitOne(oracle, log, package, policies, kind).value.package == package
    ensures SubmitOne(oracle, log, package, policies, kind).value.kind == kind
  {
  }

  lemma {:induction false} SubmitExtends(oracle: Oracle, log: Log, order: seq<Package>, policies: map<Package, string>,
      kind: RequestKind)
    ensures log <= Submit(oracle, log, order, policies, kind).log
    ensures forall i :: 0 <= i < |order| ==> Submit(oracle, log, order, policies, kind).value[i].package == order[i]
    ensures forall i :: 0 <= i < |order| ==> Submit(oracle, log, order, policies, kind).value[i].kind == kind
  {
    if order != [] {
      var init := order[..|order| - 1];
      SubmitExtends(oracle, log, init, policies, kind);
      SubmitOneExtends(oracle, Submit(oracle, log, init, policies, kind).log, order[|order| - 1], policies, kind);
    }
  }

  lemma {:induction false} PollPassExtends(oracle: Oracle, log: Log, ps: seq<Pending>)
    ensures log <= PollPass(oracle, log, ps).log
    ensures Writes(PollPass(oracle, log, ps).log) == Writes(log)
  {
    if ps != [] {
      PollPassExtends(oracle, log, ps[..|ps| - 1]);
      var most := PollPass(oracle, log, ps[..|ps| - 1]);
      WritesOfAsk(oracle, most.log, GetRequestStatus(ps[|ps| - 1].request));
    }
  }

  lemma ConfirmExtends(oracle: Oracle, log: Log, p: Pending)
    ensures log <= Confirm(oracle, log, p).log
    ensures Writes(Confirm(oracle, log, p).log) == Writes(log)
  {
    WritesOfAsk(oracle, log, CheckAssignment(p.package));
  }

  lemma {:induction false} FinalizeExtends(oracle: Oracle, log: Log, ps: seq<Pending>)
    ensures log <= Finalize(oracle, log, ps).log
    ensures Writes(Finalize(oracle, log, ps).log) == Writes(log)
  {
    if ps != [] {
      FinalizeExtends(oracle, log, ps[..|ps| - 1]);
      var most := Finalize(oracle, log, ps[..|ps| - 1]);
      ConfirmExtends(oracle, most.log, ps[|ps| - 1]);
    }
  }

  /** The removal requests a submit phase writes. */
  function RemovalRequests(order: seq<Package>, policies: map<Package, string>): (calls: seq<Call>)
    ensures |calls| == |order|
    ensures forall i :: 0 <= i < |order| ==>
      calls[i] == RequestAssignment(order[i], PolicyFor(policies, order[i]), AdminRemove)
  {
    if order == [] then []
    else
      var init, last := order[..|order| - 1], order[|order| - 1];
      RemovalRequests(init, policies) + [RequestAssignment(last, PolicyFor(policies, last), AdminRemove)]
  }

  lemma SubmitOneRemovalWrites(oracle: Oracle, log: Log, package: Package, policies: map<Package, string>)
    ensures Writes(SubmitOne(oracle, log, package, policies, AdminRemove).log) ==
      Writes(log) + [RequestAssignment(package, PolicyFor(policies, package), AdminRemove)]
  {
    WritesOfAsk(oracle, log, RequestAssignment(package, PolicyFor(policies, package), AdminRemove));
  }

  /** Removals are requested for every package of the order, each exactly once, in order. */
  lemma {:induction false} SubmitRemovalsWrites(oracle: Oracle, log: Log, order: seq<Package>,
                                                policies: map<Package, string>)
    ensures Writes(Submit(oracle, log, order, policies, AdminRemove).log) ==
      Writes(log) + RemovalRequests(order, policies)
  {
    if order != [] {
      var init, last := order[..|order| - 1], order[|order| - 1];
      SubmitRemovalsWrites(oracle, log, init, policies);
      var most := Submit(oracle, log, init, policies, AdminRemove);
      SubmitOneRemovalWrites(oracle, most.log, last, policies);
      var one := SubmitOne(oracle, most.log, last, policies, AdminRemove);
      assert Submit(oracle, log, order, policies, AdminRemove).log == one.log;
      Associative(Writes(log), RemovalRequests(init, policies),
                  [RequestAssignment(last, PolicyFor(policies, last), AdminRemove)]);
    }
  }

  predicate AdditionRequest(call: Call, order: seq<Package>, policies: map<Package, string>) {
    call.RequestAssignment? && call.kind == AdminAdd && call.package in order
    && call.policy == PolicyFor(policies, call.package) && call.policy != ""
  }

  lemma SubmitOneAdditionWrites(oracle: Oracle, log: Log, package: Package, policies: map<Package, string>)
    ensures var after := Writes(SubmitOne(oracle, log, package, policies, AdminAdd).log);
      after == Writes(log) ||
      (PolicyFor(policies, package) != "" &&
       after == Writes(log) + [RequestAssignment(package, PolicyFor(policies, package), AdminAdd)])
  {
    WritesOfAsk(oracle, log, CheckAssignment(package));
    WritesOfAsk(oracle, Ask(oracle, log, CheckAssignment(package)),
                RequestAssignment(package, PolicyFor(policies, package), AdminAdd));
  }

  /** Additions write requests for packages of the order, under their policy, and nothing else. */
  lemma {:induction false} SubmitAdditionsWrites(oracle: Oracle, log: Log, order: seq<Package>,
                                                 policies: map<Package, string>)
    returns (requests: seq<Call>)
    ensures Writes(Submit(oracle, log, order, policies, AdminAdd).log) == Writes(log) + requests
    ensures forall call :: call in requests ==> AdditionRequest(call, order, policies)
  {
    requests := [];
    if order != [] {
      var init, last := order[..|order| - 1], order[|order| - 1];
      requests := SubmitAdditionsWrites(oracle, log, init, policies);
      SubmitOneAdditionWrites(oracle, Submit(oracle, log, init, policies, AdminAdd).log, last, policies);
      var request := RequestAssignment(last, PolicyFor(policies, last), AdminAdd);
      var before := Submit(oracle, log, init, policies, AdminAdd).log;
      var after := Submit(oracle, log, order, policies, AdminAdd).log;
      if Writes(after) != Writes(before) {
        Associative(Writes(log), requests, [request]);
        requests := requests + [request];
      }
    }
  }
}
