/**
 * What the phases report is what the tenant answered, in both directions: every success
 * is shown by the log, and whatever the log shows is reported.
 */
module PhaseReports {
  import opened Collections
  import opened Tenant
  import opened Phases
  import opened PollLoops
  import opened PhaseProperties

  /** No two requests of this log were accepted under the same id. */
  ghost predicate DistinctIds(log: Log) {
    forall i, j, id :: 0 <= i < j < |log| && AcceptedAs(log[i], id) ==> !AcceptedAs(log[j], id)
  }

  /** What has happened in `after` since `before`. */
  function Since(before: Log, after: Log): Log {
    if |before| <= |after| then after[|before|..] else []
  }

  /** The record says exactly what the part of the log since submission shows of its package. */
  ghost predicate Told(part: Log, p: Pending) {
    && (p.skipped <==> p.kind.AdminAdd? && Engine(CheckAssignment(p.package), Lookup(Some(Delivered))) in part)
    && (p.submitted ==> Engine(RequestAssignment(p.package, p.policy, p.kind), Accepted(p.request)) in part)
    && (p.submitted ==> (p.state.Delivered? <==> Engine(GetRequestStatus(p.request), Status(Delivered)) in part))
    && (forall event :: event in part && AcceptedFor(event, p.package) ==>
          p.submitted && event == Engine(RequestAssignment(p.package, p.policy, p.kind), Accepted(p.request)))
    && (p.kind.AdminRemove? ==> forall event :: event in part ==> !LooksUp(event, p.package))
  }

  predicate LooksUp(event: Event, package: Package) {
    event.Engine? && event.call == CheckAssignment(package)
  }

  predicate AcceptedFor(event: Event, package: Package) {
    event.Engine? && event.call.RequestAssignment? && event.call.package == package && event.answer.Accepted?
  }

  // One more event.

  /** The next part has one more event of the engine's, and whatever the tenant changed. */
  ghost predicate Grows(part: Log, next: Log, last: Event) {
    last in next &&
    forall event: Event :: event.Engine? && event != last ==> (event in next <==> event in part)
  }

  lemma AskGrows(oracle: Oracle, log: Log, from: nat, call: Call)
    requires from <= |log|
    ensures Grows(log[from..], Ask(oracle, log, call)[from..], Engine(call, Heard(oracle, log, call)))
  {
    var own := OwnChanges(oracle(log, call).changes);
    var last := Engine(call, Heard(oracle, log, call));
    assert Ask(oracle, log, call)[from..] == log[from..] + own + [last];
    forall event: Event | event.Engine? ensures event !in own {}
  }

  /** An event that is about another package and another request changes nothing for a record. */
  lemma ToldStays(part: Log, next: Log, last: Event, p: Pending)
    requires Told(part, p) && Grows(part, next, last) && last.Engine?
    requires !LooksUp(last, p.package) && !AcceptedFor(last, p.package)
    requires p.submitted ==> last != Engine(GetRequestStatus(p.request), Status(Delivered))
    ensures Told(next, p)
  {
  }

  ghost predicate AllTold(part: Log, ps: seq<Pending>) {
    forall i :: 0 <= i < |ps| ==> Told(part, ps[i])
  }

  // Submission.

  /** Calls of a submit phase for these packages. */
  predicate Submits(event: Event, packages: seq<Package>) {
    event.Engine? ==>
      match event.call
      case CheckAssignment(q) => q in packages
      case RequestAssignment(q, _, _) => q in packages
      case _ => false
  }

  ghost predicate OnlySubmits(part: Log, packages: seq<Package>) {
    forall event :: event in part ==> Submits(event, packages)
  }

  lemma OnlySubmitsGrows(part: Log, next: Log, last: Event, packages: seq<Package>, package: Package)
    requires OnlySubmits(part, packages) && Grows(part, next, last) && Submits(last, packages + [package])
    ensures OnlySubmits(next, packages + [package])
  {
    forall event | event in next ensures Submits(event, packages + [package]) {
      if event.Engine? && event != last {
        assert event in part && Submits(event, packages);
      }
    }
  }

  lemma RequestTold(part: Log, next: Log, p: Pending, answer: Answer, packages: seq<Package>)
    requires OnlySubmits(part, packages)
    requires Grows(part, next, Engine(RequestAssignment(p.package, p.policy, p.kind), answer))
    requires forall event :: event in part ==> !AcceptedFor(event, p.package)
    requires !p.skipped && !p.submitted
    requires if p.kind.AdminAdd? then Engine(CheckAssignment(p.package), Lookup(Some(Delivered))) !in part
             else forall event :: event in part ==> !LooksUp(event, p.package)
    ensures answer.Accepted? ==> Told(next, p.(request := answer.request, submitted := true, state := Submitted))
    ensures !answer.Accepted? ==> Told(next, p.(fault := CallFailed, state := SubmissionFailed))
  {
    var last := Engine(RequestAssignment(p.package, p.policy, p.kind), answer);
    if answer.Accepted? {
      var delivered := Engine(GetRequestStatus(answer.request), Status(Delivered));
      assert !Submits(delivered, packages);
      assert delivered !in next;
    }
  }

  /** Nothing in the part is about the package. */
  lemma SubmittedElsewhere(part: Log, packages: seq<Package>, package: Package)
    requires OnlySubmits(part, packages) && package !in packages
    ensures forall event :: event in part ==> !AcceptedFor(event, package) && !LooksUp(event, package)
  {
    forall event | event in part ensures !AcceptedFor(event, package) && !LooksUp(event, package) {
      assert Submits(event, packages);
    }
  }

  lemma RequestNowTold(oracle: Oracle, log: Log, from: nat, p: Pending, packages: seq<Package>)
    requires from <= |log| && OnlySubmits(log[from..], packages)
    requires forall event :: event in log[from..] ==> !AcceptedFor(event, p.package)
    requires !p.skipped && !p.submitted
    requires if p.kind.AdminAdd? then Engine(CheckAssignment(p.package), Lookup(Some(Delivered))) !in log[from..]
             else forall event :: event in log[from..] ==> !LooksUp(event, p.package)
    ensures var one := RequestNow(oracle, log, p);
      Told(one.log[from..], one.value) && OnlySubmits(one.log[from..], packages + [p.package])
  {
    var call := RequestAssignment(p.package, p.policy, p.kind);
    AskGrows(oracle, log, from, call);
    var next := Ask(oracle, log, call)[from..];
    RequestTold(log[from..], next, p, Heard(oracle, log, call), packages);
    OnlySubmitsGrows(log[from..], next, Engine(call, Heard(oracle, log, call)), packages, p.package);
  }

  lemma SubmitAdditionTold(oracle: Oracle, log: Log, from: nat, packages: seq<Package>, package: Package,
      policies: map<Package, string>)
    requires from <= |log| && OnlySubmits(log[from..], packages) && package !in packages
    ensures var one := SubmitAddition(oracle, log, package, policies);
      Told(one.log[from..], one.value) && OnlySubmits(one.log[from..], packages + [package])
  {
    SubmittedElsewhere(log[from..], packages, package);
    var p := Fresh(package, PolicyFor(policies, package), AdminAdd);
    if p.policy == "" {
      forall event | event in log[from..] ensures Submits(event, packages + [package]) {
        assert Submits(event, packages);
      }
    } else {
      var call := CheckAssignment(package);
      var answer := Heard(oracle, log, call);
      var checked := Ask(oracle, log, call);
      AskGrows(oracle, log, from, call);
      OnlySubmitsGrows(log[from..], checked[from..], Engine(call, answer), packages, package);
      assert checked[from..] == Ask(oracle, log, call)[from..];
      CheckedTold(log[from..], checked[from..], p, answer);
      if answer.Lookup? && answer.found != Some(Delivered) {
        RequestNowTold(oracle, checked, from, p, packages + [package]);
        OnlySubmitsTwice(RequestNow(oracle, checked, p).log[from..], packages, package);
      }
    }
  }

  lemma CheckedTold(part: Log, next: Log, p: Pending, answer: Answer)
    requires forall event :: event in part ==> !AcceptedFor(event, p.package) && !LooksUp(event, p.package)
    requires Grows(part, next, Engine(CheckAssignment(p.package), answer)) && p.kind.AdminAdd?
    requires !p.skipped && !p.submitted
    ensures forall event :: event in next ==> !AcceptedFor(event, p.package)
    ensures answer == Lookup(Some(Delivered)) ==> Told(next, p.(skipped := true, state := Delivered))
    ensures answer != Lookup(Some(Delivered)) ==>
      Engine(CheckAssignment(p.package), Lookup(Some(Delivered))) !in next
      && Told(next, p.(fault := CallFailed, state := SubmissionFailed))
  {
  }

  lemma OnlySubmitsTwice(part: Log, packages: seq<Package>, package: Package)
    requires OnlySubmits(part, packages + [package] + [package])
    ensures OnlySubmits(part, packages + [package])
  {
    forall event | event in part ensures Submits(event, packages + [package]) {
      assert Submits(event, packages + [package] + [package]);
    }
  }

  lemma SubmitOneTold(oracle: Oracle, log: Log, from: nat, packages: seq<Package>, package: Package,
      policies: map<Package, string>, kind: RequestKind)
    requires from <= |log| && OnlySubmits(log[from..], packages) && package !in packages
    ensures var one := SubmitOne(oracle, log, package, policies, kind);
      && log <= one.log && Told(one.log[from..], one.value)
      && OnlySubmits(one.log[from..], packages + [package])
  {
    match kind
    case AdminAdd => SubmitAdditionTold(oracle, log, from, packages, package, policies);
    case AdminRemove =>
      SubmittedElsewhere(log[from..], packages, package);
      RequestNowTold(oracle, log, from, Fresh(package, PolicyFor(policies, package), AdminRemove), packages);
  }

  /** Submitting for a new package leaves what the records of the others say. */
  lemma SubmitOneLeaves(oracle: Oracle, log: Log, from: nat, package: Package, policies: map<Package, string>,
      kind: RequestKind, p: Pending)
    requires from <= |log| && Told(log[from..], p) && p.package != package
    ensures Told(SubmitOne(oracle, log, package, policies, kind).log[from..], p)
  {
    var request := RequestAssignment(package, PolicyFor(policies, package), kind);
    if kind == AdminAdd {
      var check := CheckAssignment(package);
      var checked := Ask(oracle, log, check);
      AskGrows(oracle, log, from, check);
      ToldStays(log[from..], checked[from..], Engine(check, Heard(oracle, log, check)), p);
      AskGrows(oracle, checked, from, request);
      ToldStays(checked[from..], Ask(oracle, checked, request)[from..],
                Engine(request, Heard(oracle, checked, request)), p);
    } else {
      AskGrows(oracle, log, from, request);
      ToldStays(log[from..], Ask(oracle, log, request)[from..], Engine(request, Heard(oracle, log, request)), p);
    }
  }

  lemma {:induction false} SubmitTold(oracle: Oracle, log: Log, order: seq<Package>, policies: map<Package, string>,
      kind: RequestKind)
    requires NoDuplicates(order)
    ensures var r := Submit(oracle, log, order, policies, kind);
      log <= r.log && AllTold(r.log[|log|..], r.value) && OnlySubmits(r.log[|log|..], order)
  {
    if order != [] {
      var init, last := order[..|order| - 1], order[|order| - 1];
      SubmitTold(oracle, log, init, policies, kind);
      SubmitExtends(oracle, log, init, policies, kind);
      var most := Submit(oracle, log, init, policies, kind);
      SubmitOneTold(oracle, most.log, |log|, init, last, policies, kind);
      assert order == init + [last];
      forall i | 0 <= i < |init| ensures Told(Submit(oracle, log, order, policies, kind).log[|log|..], most.value[i]) {
        assert most.value[i].package == order[i];
        SubmitOneLeaves(oracle, most.log, |log|, last, policies, kind, most.value[i]);
      }
    }
  }

  // What an addition asks.

  /** The package was looked up, and was requested under this policy, by this part of the log. */
  ghost predicate WasLookedUp(part: Log, package: Package) {
    exists event :: event in part && LooksUp(event, package)
  }

  ghost predicate WasRequested(part: Log, package: Package, policy: string, kind: RequestKind) {
    exists event: Event :: event in part && event.Engine? && event.call == RequestAssignment(package, policy, kind)
  }

  /** The lookup was answered and showed the package not assigned yet. */
  ghost predicate ShownMissing(part: Log, package: Package) {
    exists event :: event in part && NothingDelivered(event) && event.call.package == package
  }

  /** A package is looked up if it has a policy, and requested if it then shows as missing. */
  ghost predicate AskedRightly(part: Log, package: Package, policy: string) {
    && (WasLookedUp(part, package) <==> policy != "")
    && (WasRequested(part, package, policy, AdminAdd) <==> ShownMissing(part, package))
  }

  lemma AskedRightlyStays(part: Log, next: Log, last: Event, package: Package, policy: string)
    requires AskedRightly(part, package, policy) && Grows(part, next, last) && last.Engine?
    requires !LooksUp(last, package) && !(last.call.RequestAssignment? && last.call.package == package)
    ensures AskedRightly(next, package, policy)
  {
    forall event: Event | event.Engine? && event != last ensures event in next <==> event in part {}
  }

  lemma AdditionAsks(oracle: Oracle, log: Log, from: nat, packages: seq<Package>, package: Package,
      policies: map<Package, string>)
    requires from <= |log| && OnlySubmits(log[from..], packages) && package !in packages
    ensures AskedRightly(SubmitAddition(oracle, log, package, policies).log[from..], package,
                         PolicyFor(policies, package))
  {
    var policy := PolicyFor(policies, package);
    NothingAskedElsewhere(log[from..], packages, package, policy);
    if policy != "" {
      var check, request := CheckAssignment(package), RequestAssignment(package, policy, AdminAdd);
      var checked := Ask(oracle, log, check);
      AskGrows(oracle, log, from, check);
      CheckedAsks(log[from..], checked[from..], package, policy, Heard(oracle, log, check));
      if Heard(oracle, log, check).Lookup? && Heard(oracle, log, check).found != Some(Delivered) {
        AskGrows(oracle, checked, from, request);
        RequestedAsks(checked[from..], Ask(oracle, checked, request)[from..], package, policy,
                      Heard(oracle, checked, request));
      }
    }
  }

  lemma NothingAskedElsewhere(part: Log, packages: seq<Package>, package: Package, policy: string)
    requires OnlySubmits(part, packages) && package !in packages
    ensures !WasLookedUp(part, package) && !ShownMissing(part, package)
    ensures !WasRequested(part, package, policy, AdminAdd)
  {
    forall event | event in part
      ensures !LooksUp(event, package) && !(event.Engine? && event.call == RequestAssignment(package, policy, AdminAdd))
    {
      assert Submits(event, packages);
    }
  }

  lemma CheckedAsks(part: Log, next: Log, package: Package, policy: string, answer: Answer)
    requires !WasLookedUp(part, package) && !WasRequested(part, package, policy, AdminAdd)
    requires Grows(part, next, Engine(CheckAssignment(package), answer))
    ensures WasLookedUp(next, package) && !WasRequested(next, package, policy, AdminAdd)
    ensures ShownMissing(next, package) <==> answer.Lookup? && answer.found != Some(Delivered)
  {
    var last := Engine(CheckAssignment(package), answer);
    assert last in next && LooksUp(last, package);
    assert NothingDelivered(last) <==> answer.Lookup? && answer.found != Some(Delivered);
    forall event | event in next && LooksUp(event, package)
      ensures event == last || (event in part && LooksUp(event, package))
    {
    }
  }

  lemma RequestedAsks(part: Log, next: Log, package: Package, policy: string, answer: Answer)
    requires WasLookedUp(part, package) && ShownMissing(part, package)
    requires Grows(part, next, Engine(RequestAssignment(package, policy, AdminAdd), answer))
    ensures WasLookedUp(next, package) && ShownMissing(next, package) && WasRequested(next, package, policy, AdminAdd)
  {
    var shown :| shown in part && NothingDelivered(shown) && shown.call.package == package;
    assert shown in next && LooksUp(shown, package);
    assert Engine(RequestAssignment(package, policy, AdminAdd), answer) in next;
  }

  lemma AdditionLeaves(oracle: Oracle, log: Log, from: nat, other: Package, policies: map<Package, string>,
      package: Package, policy: string)
    requires from <= |log| && AskedRightly(log[from..], package, policy) && other != package
    ensures AskedRightly(SubmitAddition(oracle, log, other, policies).log[from..], package, policy)
  {
    var check := CheckAssignment(other);
    var checked := Ask(oracle, log, check);
    AskGrows(oracle, log, from, check);
    AskedRightlyStays(log[from..], checked[from..], Engine(check, Heard(oracle, log, check)), package, policy);
    var request := RequestAssignment(other, PolicyFor(policies, other), AdminAdd);
    AskGrows(oracle, checked, from, request);
    AskedRightlyStays(checked[from..], Ask(oracle, checked, request)[from..],
                      Engine(request, Heard(oracle, checked, request)), package, policy);
  }

  /**
   * Submitting additions: a package without a policy is left alone; every other one is
   * looked up first, and requested under its policy exactly if that lookup was answered
   * and did not show it delivered.
   */
  lemma {:induction false} AdditionsAskRightly(oracle: Oracle, log: Log, order: seq<Package>,
                                               policies: map<Package, string>)
    requires NoDuplicates(order)
    ensures var r := Submit(oracle, log, order, policies, AdminAdd);
      forall i :: 0 <= i < |order| ==> AskedRightly(Since(log, r.log), order[i], PolicyFor(policies, order[i]))
  {
    if order != [] {
      var init, last := order[..|order| - 1], order[|order| - 1];
      SubmitTold(oracle, log, init, policies, AdminAdd);
      SubmitTold(oracle, log, order, policies, AdminAdd);
      AdditionsAskRightly(oracle, log, init, policies);
      var most := Submit(oracle, log, init, policies, AdminAdd);
      AdditionAsks(oracle, most.log, |log|, init, last, policies);
      var after := Submit(oracle, log, order, policies, AdminAdd).log;
      assert after == SubmitAddition(oracle, most.log, last, policies).log;
      forall i | 0 <= i < |order| ensures AskedRightly(Since(log, after), order[i], PolicyFor(policies, order[i])) {
        if i < |init| {
          assert order[i] == init[i];
          AdditionLeaves(oracle, most.log, |log|, last, policies, init[i], PolicyFor(policies, init[i]));
        }
      }
    }
  }

  // Polling.

  ghost predicate DistinctRequests(ps: seq<Pending>) {
    forall i, j :: 0 <= i < j < |ps| && ps[i].submitted && ps[j].submitted ==> ps[i].request != ps[j].request
  }

  ghost predicate DistinctPackages(ps: seq<Pending>) {
    forall i, j :: 0 <= i < j < |ps| ==> ps[i].package != ps[j].package
  }

  lemma IdsTellRecordsApart(part: Log, ps: seq<Pending>)
    requires DistinctIds(part) && AllTold(part, ps) && DistinctPackages(ps)
    ensures DistinctRequests(ps)
  {
    forall i, j | 0 <= i < j < |ps| && ps[i].submitted && ps[j].submitted ensures ps[i].request != ps[j].request {
      var a := Engine(RequestAssignment(ps[i].package, ps[i].policy, ps[i].kind), Accepted(ps[i].request));
      var b := Engine(RequestAssignment(ps[j].package, ps[j].policy, ps[j].kind), Accepted(ps[j].request));
      assert Told(part, ps[i]) && Told(part, ps[j]);
      var m :| 0 <= m < |part| && part[m] == a;
      var n :| 0 <= n < |part| && part[n] == b;
      assert m != n && AcceptedAs(part[m], ps[i].request) && AcceptedAs(part[n], ps[j].request);
    }
  }

  lemma PollOneTold(oracle: Oracle, log: Log, from: nat, p: Pending)
    requires from <= |log| && Told(log[from..], p)
    ensures var one := PollOne(oracle, log, p); log <= one.log && Told(one.log[from..], one.value)
  {
    if Open(p) {
      var call := GetRequestStatus(p.request);
      AskGrows(oracle, log, from, call);
      AnsweredTold(log[from..], Ask(oracle, log, call)[from..], p, Heard(oracle, log, call));
    }
  }

  lemma AnsweredTold(part: Log, next: Log, p: Pending, answer: Answer)
    requires Told(part, p) && Open(p) && Grows(part, next, Engine(GetRequestStatus(p.request), answer))
    ensures Told(next, Updated(p, answer))
  {
  }

  lemma PollOneLeaves(oracle: Oracle, log: Log, from: nat, p: Pending, other: Pending)
    requires from <= |log| && Told(log[from..], other)
    requires p.submitted && other.submitted ==> p.request != other.request
    ensures Told(PollOne(oracle, log, p).log[from..], other)
  {
    if Open(p) {
      var call := GetRequestStatus(p.request);
      AskGrows(oracle, log, from, call);
      ToldStays(log[from..], Ask(oracle, log, call)[from..], Engine(call, Heard(oracle, log, call)), other);
    }
  }

  /** One pass over `ps`, with `others` standing by. */
  lemma {:induction false} PassTold(oracle: Oracle, log: Log, from: nat, ps: seq<Pending>, others: seq<Pending>)
    requires from <= |log| && AllTold(log[from..], ps + others) && DistinctRequests(ps + others)
    ensures var r := PollPass(oracle, log, ps);
      log <= r.log && AllTold(r.log[from..], r.value + others) && DistinctRequests(r.value + others)
    decreases |ps|
  {
    if ps == [] {
      assert PollPass(oracle, log, ps).value + others == ps + others;
    } else {
      var init, last := ps[..|ps| - 1], ps[|ps| - 1];
      assert ps + others == init + ([last] + others);
      PassTold(oracle, log, from, init, [last] + others);
      PollPassExtends(oracle, log, init);
      PassTurn(oracle, PollPass(oracle, log, init).log, from, PollPass(oracle, log, init).value, last, others);
    }
  }

  /** The turn of one record of a pass. */
  lemma PassTurn(oracle: Oracle, log: Log, from: nat, done: seq<Pending>, p: Pending, others: seq<Pending>)
    requires from <= |log|
    requires AllTold(log[from..], done + ([p] + others)) && DistinctRequests(done + ([p] + others))
    ensures var one := PollOne(oracle, log, p);
      && log <= one.log
      && AllTold(one.log[from..], (done + [one.value]) + others) && DistinctRequests((done + [one.value]) + others)
  {
    var before := done + ([p] + others);
    var one := PollOne(oracle, log, p);
    var after := (done + [one.value]) + others;
    assert before[|done|] == p && after[|done|] == one.value && |after| == |before|;
    assert forall i :: 0 <= i < |before| && i != |done| ==> after[i] == before[i];
    assert one.value.submitted == p.submitted && one.value.request == p.request;
    PollOneTold(oracle, log, from, p);
    forall i | 0 <= i < |after| ensures Told(one.log[from..], after[i]) {
      if i != |done| {
        PollOneLeaves(oracle, log, from, p, before[i]);
      }
    }
  }

  lemma WholePassTold(oracle: Oracle, log: Log, from: nat, ps: seq<Pending>)
    requires from <= |log| && AllTold(log[from..], ps) && DistinctRequests(ps)
    ensures var r := PollPass(oracle, log, ps);
      log <= r.log && AllTold(r.log[from..], r.value) && DistinctRequests(r.value)
  {
    assert ps + [] == ps;
    PassTold(oracle, log, from, ps, []);
    assert PollPass(oracle, log, ps).value + [] == PollPass(oracle, log, ps).value;
  }

  lemma {:induction false} PollTold(oracle: Oracle, log: Log, from: nat, ps: seq<Pending>, attempts: nat, interval: nat)
    requires from <= |log| && AllTold(log[from..], ps) && DistinctRequests(ps)
    ensures var r := SyncPoll(oracle, log, ps, attempts, interval); log <= r.log && AllTold(r.log[from..], r.value)
    decreases attempts
  {
    if attempts > 0 && !AllTerminal(ps) {
      WholePassTold(oracle, log, from, ps);
      var pass := PollPass(oracle, log, ps);
      if !AllTerminal(pass.value) {
        WaitTold(pass.log, from, interval, pass.value);
        PollTold(oracle, pass.log + [Waited(interval)], from, pass.value, attempts - 1, interval);
      }
    }
  }

  lemma WaitTold(log: Log, from: nat, seconds: nat, ps: seq<Pending>)
    requires from <= |log| && AllTold(log[from..], ps)
    ensures AllTold((log + [Waited(seconds)])[from..], ps)
  {
    var next := (log + [Waited(seconds)])[from..];
    assert next == log[from..] + [Waited(seconds)];
    forall i | 0 <= i < |ps| ensures Told(next, ps[i]) {
      assert Told(log[from..], ps[i]);
    }
  }

  // Finalizing.

  lemma ConfirmTold(oracle: Oracle, log: Log, from: nat, p: Pending)
    requires from <= |log| && Told(log[from..], p)
    ensures var one := Confirm(oracle, log, p);
      log <= one.log &&
      (one.value.Some? ==> (one.value.value <==> Confirmed(one.log[from..], p.package, p.kind)))
  {
    if NeedsLookup(p) {
      var call := CheckAssignment(p.package);
      AskGrows(oracle, log, from, call);
      if Heard(oracle, log, call).Lookup? {
        LookedUpTold(log[from..], Ask(oracle, log, call)[from..], p, Heard(oracle, log, call));
      }
    } else {
      SettledTold(log[from..], p);
    }
  }

  /** A record that needs no lookup says whether its package was confirmed. */
  lemma SettledTold(part: Log, p: Pending)
    requires Told(part, p) && !NeedsLookup(p)
    ensures Confirmed(part, p.package, p.kind) <==>
      (p.skipped && p.kind.AdminAdd?) || (p.submitted && p.state.Delivered?)
  {
    RequestsTold(part, p);
    if p.kind.AdminRemove? {
      forall event | event in part ensures !LooksUp(event, p.package) {}
    }
  }

  /** A record says whether its request was confirmed. */
  lemma RequestsTold(part: Log, p: Pending)
    requires Told(part, p)
    ensures RequestConfirmed(part, p.package, p.kind) <==> p.submitted && p.state.Delivered?
  {
    if RequestConfirmed(part, p.package, p.kind) {
      var policy, id :| Engine(RequestAssignment(p.package, policy, p.kind), Accepted(id)) in part &&
        Engine(GetRequestStatus(id), Status(Delivered)) in part;
      assert AcceptedFor(Engine(RequestAssignment(p.package, policy, p.kind), Accepted(id)), p.package);
    }
  }

  /** What a fallback lookup settles. */
  lemma LookedUpTold(part: Log, next: Log, p: Pending, answer: Answer)
    requires Told(part, p) && Grows(part, next, Engine(CheckAssignment(p.package), answer))
    requires p.submitted && !p.skipped && !p.state.Delivered? && answer.Lookup?
    ensures Confirmed(next, p.package, p.kind) <==> ((answer.found == Some(Delivered)) == p.kind.AdminAdd?)
  {
    var last := Engine(CheckAssignment(p.package), answer);
    RequestsTold(part, p);
    assert RequestConfirmed(next, p.package, p.kind) <==> RequestConfirmed(part, p.package, p.kind);
    if p.kind.AdminRemove? {
      assert NothingDelivered(last) <==> answer.found != Some(Delivered);
    }
  }

  /** A later lookup of another package changes nothing about a confirmation. */
  lemma ConfirmLeaves(oracle: Oracle, log: Log, from: nat, p: Pending, package: Package, kind: RequestKind)
    requires from <= |log| && p.package != package
    ensures Confirmed(Confirm(oracle, log, p).log[from..], package, kind) <==> Confirmed(log[from..], package, kind)
  {
    var call := CheckAssignment(p.package);
    var next := Ask(oracle, log, call)[from..];
    AskGrows(oracle, log, from, call);
    ElsewhereLeaves(log[from..], next, Engine(call, Heard(oracle, log, call)), package, kind);
  }

  lemma ElsewhereLeaves(part: Log, next: Log, last: Event, package: Package, kind: RequestKind)
    requires Grows(part, next, last) && last.Engine? && last.call.CheckAssignment? && last.call.package != package
    ensures Confirmed(next, package, kind) <==> Confirmed(part, package, kind)
  {
    assert RequestConfirmed(next, package, kind) <==> RequestConfirmed(part, package, kind);
    if kind.AdminRemove? {
      forall event: Event | NothingDelivered(event) && event.call.package == package
        ensures event in next <==> event in part
      {
        assert event != last;
      }
    }
  }

  lemma ConfirmLeavesTold(oracle: Oracle, log: Log, from: nat, p: Pending, other: Pending)
    requires from <= |log| && p.package != other.package && Told(log[from..], other)
    ensures Told(Confirm(oracle, log, p).log[from..], other)
  {
    var call := CheckAssignment(p.package);
    AskGrows(oracle, log, from, call);
    ToldStays(log[from..], Ask(oracle, log, call)[from..], Engine(call, Heard(oracle, log, call)), other);
  }

  /** The actions so far tell exactly what the part shows of their packages. */
  ghost predicate Reports(part: Log, actions: seq<Action>) {
    forall i :: 0 <= i < |actions| ==> (actions[i].succeeded <==> Confirmed(part, actions[i].package, actions[i].kind))
  }

  /** Finalizing `ps`, with `others` still to come. */
  lemma {:induction false} FinalizeReports(oracle: Oracle, log: Log, from: nat, ps: seq<Pending>, others: seq<Pending>)
    requires from <= |log| && AllTold(log[from..], ps + others) && DistinctPackages(ps + others)
    requires Finalize(oracle, log, ps).value.Some?
    ensures var r := Finalize(oracle, log, ps);
      log <= r.log && Reports(r.log[from..], r.value.value) && AllTold(r.log[from..], others)
    decreases |ps|
  {
    if ps == [] {
      assert ps + others == others;
    } else {
      var init, last := ps[..|ps| - 1], ps[|ps| - 1];
      assert ps + others == init + ([last] + others);
      FinalizeReports(oracle, log, from, init, [last] + others);
      FinalizeRecords(oracle, log, init);
      PackagesSplit(init, last, others);
      var most := Finalize(oracle, log, init);
      FinalizeTurn(oracle, most.log, from, most.value.value, last, others);
    }
  }

  lemma PackagesSplit(init: seq<Pending>, last: Pending, others: seq<Pending>)
    requires DistinctPackages(init + ([last] + others))
    ensures DistinctPackages([last] + others) && forall i :: 0 <= i < |init| ==> init[i].package != last.package
  {
    var all := init + ([last] + others);
    assert forall i :: 0 <= i < |[last] + others| ==> ([last] + others)[i] == all[|init| + i];
    assert all[|init|] == last && forall i :: 0 <= i < |init| ==> all[i] == init[i];
  }

  lemma FinalizeTurn(oracle: Oracle, log: Log, from: nat, done: seq<Action>, p: Pending, others: seq<Pending>)
    requires from <= |log| && Reports(log[from..], done) && AllTold(log[from..], [p] + others)
    requires DistinctPackages([p] + others) && forall i :: 0 <= i < |done| ==> done[i].package != p.package
    requires Confirm(oracle, log, p).value.Some?
    ensures var one := Confirm(oracle, log, p);
      && log <= one.log && AllTold(one.log[from..], others)
      && Reports(one.log[from..], done + [Action(p.kind, p.package, one.value.value)])
  {
    var one := Confirm(oracle, log, p);
    var left, actions := [p] + others, done + [Action(p.kind, p.package, one.value.value)];
    assert left[0] == p && forall i :: 0 <= i < |others| ==> left[i + 1] == others[i];
    ConfirmTold(oracle, log, from, p);
    forall i | 0 <= i < |others| ensures Told(one.log[from..], others[i]) {
      assert left[i + 1].package != left[0].package;
      ConfirmLeavesTold(oracle, log, from, p, others[i]);
    }
    forall i | 0 <= i < |actions|
      ensures actions[i].succeeded <==> Confirmed(one.log[from..], actions[i].package, actions[i].kind)
    {
      if i < |done| {
        ConfirmLeaves(oracle, log, from, p, done[i].package, done[i].kind);
      }
    }
  }

  /**
   * The report of a whole operation, for every tenant and window: one action per package
   * in order, each a success if and only if what was heard since the operation began
   * confirms it, provided the tenant gives every request an id of its own.
   */
  lemma OperationReports(oracle: Oracle, log: Log, order: seq<Package>, policies: map<Package, string>,
      kind: RequestKind, window: Window)
    requires NoDuplicates(order) && Operation(oracle, log, order, policies, kind, window).value.Some?
    requires DistinctIds(Since(log, Operation(oracle, log, order, policies, kind, window).log))
    ensures var r := Operation(oracle, log, order, policies, kind, window);
      && log <= r.log && |r.value.value| == |order|
      && forall i :: 0 <= i < |order| ==>
        r.value.value[i] == Action(kind, order[i], Confirmed(Since(log, r.log), order[i], kind))
  {
    var r := Operation(oracle, log, order, policies, kind, window);
    var submitted := Submit(oracle, log, order, policies, kind);
    var polled := SyncPoll(oracle, submitted.log, submitted.value, window.attempts, window.interval);
    SubmitTold(oracle, log, order, policies, kind);
    SubmitExtends(oracle, log, order, policies, kind);
    OperationGrows(oracle, log, order, policies, kind, window);
    IdsTellRecordsApart(submitted.log[|log|..], submitted.value);
    PollTold(oracle, submitted.log, |log|, submitted.value, window.attempts, window.interval);
    PollKeeps(oracle, submitted.log, submitted.value, window.attempts, window.interval);
    assert polled.value + [] == polled.value;
    forall i | 0 <= i < |order| ensures polled.value[i].package == order[i] && polled.value[i].kind == kind {
      assert SameRequest(submitted.value[i], polled.value[i]);
    }
    FinalizeReports(oracle, polled.log, |log|, polled.value, []);
    FinalizeRecords(oracle, polled.log, polled.value);
  }

  /** Ids that are distinct in the whole operation were distinct when it had only submitted. */
  lemma OperationGrows(oracle: Oracle, log: Log, order: seq<Package>, policies: map<Package, string>,
      kind: RequestKind, window: Window)
    requires DistinctIds(Since(log, Operation(oracle, log, order, policies, kind, window).log))
    ensures log <= Submit(oracle, log, order, policies, kind).log
    ensures DistinctIds(Since(log, Submit(oracle, log, order, policies, kind).log))
  {
    var submitted := Submit(oracle, log, order, policies, kind);
    var polled := SyncPoll(oracle, submitted.log, submitted.value, window.attempts, window.interval);
    SubmitExtends(oracle, log, order, policies, kind);
    PollExtends(oracle, submitted.log, submitted.value, window.attempts, window.interval);
    FinalizeExtends(oracle, polled.log, polled.value);
    var part, whole := submitted.log[|log|..], Operation(oracle, log, order, policies, kind, window).log[|log|..];
    assert part <= whole;
    assert forall i :: 0 <= i < |part| ==> part[i] == whole[i];
  }

  /** A grounded log has ids of their own, and so has every part of it. */
  lemma GroundedIdsAreDistinct(start: set<Package>, log: Log, from: nat)
    requires Grounded(start, log) && from <= |log|
    ensures DistinctIds(log[from..])
  {
    var part := log[from..];
    forall i, j, id | 0 <= i < j < |part| && AcceptedAs(part[i], id) ensures !AcceptedAs(part[j], id) {
      assert GroundedAt(start, log, from + j);
      assert part[i] == log[from + i] && part[j] == log[from + j];
    }
  }

  // A tenant that does all it is asked.

  predicate Answers(oracle: Oracle, log: Log, call: Call, answer: Answer) {
    Heard(oracle, log, call) == answer
  }

  predicate Accepts(oracle: Oracle, log: Log, call: Call) {
    Heard(oracle, log, call).Accepted?
  }

  /** From logs of this length on every request is accepted and delivered; nothing is assigned yet. */
  ghost predicate Obliges(oracle: Oracle, from: nat) {
    && (forall log: Log, call: Call :: |log| >= from && call.RequestAssignment? ==> Accepts(oracle, log, call))
    && (forall log: Log, call: Call ::
          |log| >= from && call.GetRequestStatus? ==> Answers(oracle, log, call, Status(Delivered)))
    && (forall log: Log, call: Call ::
          |log| >= from && call.CheckAssignment? ==> Answers(oracle, log, call, Lookup(None)))
  }

  /** One request per package, in order, under its policy. */
  function RequestsFor(order: seq<Package>, policies: map<Package, string>, kind: RequestKind): (calls: seq<Call>)
    ensures |calls| == |order|
    ensures forall i :: 0 <= i < |order| ==>
      calls[i] == RequestAssignment(order[i], PolicyFor(policies, order[i]), kind)
  {
    seq(|order|, i requires 0 <= i < |order| => RequestAssignment(order[i], PolicyFor(policies, order[i]), kind))
  }

  predicate JustAccepted(p: Pending) {
    p.submitted && !p.skipped && p.state == Submitted
  }

  ghost predicate AllAccepted(ps: seq<Pending>) {
    forall i :: 0 <= i < |ps| ==> JustAccepted(ps[i])
  }

  ghost predicate AllDelivered(ps: seq<Pending>) {
    forall i :: 0 <= i < |ps| ==> ps[i].submitted && ps[i].state == Delivered
  }

  lemma AcceptedRequest(oracle: Oracle, log: Log, p: Pending)
    requires Accepts(oracle, log, RequestAssignment(p.package, p.policy, p.kind)) && !p.skipped
    ensures var one := RequestNow(oracle, log, p);
      JustAccepted(one.value) && Writes(one.log) == Writes(log) + [RequestAssignment(p.package, p.policy, p.kind)]
  {
    WritesOfAsk(oracle, log, RequestAssignment(p.package, p.policy, p.kind));
  }

  lemma ObligedRequest(oracle: Oracle, log: Log, p: Pending, from: nat)
    requires Obliges(oracle, from) && from <= |log| && !p.skipped
    ensures var one := RequestNow(oracle, log, p);
      JustAccepted(one.value) && Writes(one.log) == Writes(log) + [RequestAssignment(p.package, p.policy, p.kind)]
  {
    assert Accepts(oracle, log, RequestAssignment(p.package, p.policy, p.kind));
    AcceptedRequest(oracle, log, p);
  }

  lemma ObligedOne(oracle: Oracle, log: Log, package: Package, policies: map<Package, string>, kind: RequestKind,
      from: nat)
    requires Obliges(oracle, from) && from <= |log|
    requires kind.AdminAdd? ==> PolicyFor(policies, package) != ""
    ensures var one := SubmitOne(oracle, log, package, policies, kind);
      JustAccepted(one.value) &&
      Writes(one.log) == Writes(log) + [RequestAssignment(package, PolicyFor(policies, package), kind)]
  {
    var p := Fresh(package, PolicyFor(policies, package), kind);
    if kind == AdminAdd {
      var check := CheckAssignment(package);
      var checked := Ask(oracle, log, check);
      ObligedRequest(oracle, checked, p, from);
      ReadCall(oracle, log, check);
      assert Answers(oracle, log, check, Lookup(None));
      NotYetAssigned(oracle, log, package, policies);
    } else {
      ObligedRequest(oracle, log, p, from);
    }
  }

  lemma NotYetAssigned(oracle: Oracle, log: Log, package: Package, policies: map<Package, string>)
    requires PolicyFor(policies, package) != "" && Heard(oracle, log, CheckAssignment(package)) == Lookup(None)
    ensures SubmitOne(oracle, log, package, policies, AdminAdd) ==
      RequestNow(oracle, Ask(oracle, log, CheckAssignment(package)),
                 Fresh(package, PolicyFor(policies, package), AdminAdd))
  {
  }

  lemma {:induction false} ObligedSubmit(oracle: Oracle, log: Log, order: seq<Package>, policies: map<Package, string>,
      kind: RequestKind, from: nat)
    requires Obliges(oracle, from) && from <= |log|
    requires kind.AdminAdd? ==> forall p :: p in order ==> PolicyFor(policies, p) != ""
    ensures var r := Submit(oracle, log, order, policies, kind);
      AllAccepted(r.value) && Writes(r.log) == Writes(log) + RequestsFor(order, policies, kind)
  {
    if order != [] {
      var init, last := order[..|order| - 1], order[|order| - 1];
      ObligedSubmit(oracle, log, init, policies, kind, from);
      SubmitExtends(oracle, log, init, policies, kind);
      var most := Submit(oracle, log, init, policies, kind);
      ObligedOne(oracle, most.log, last, policies, kind, from);
      OneMoreRequest(order, policies, kind);
      Associative(Writes(log), RequestsFor(init, policies, kind),
                  [RequestAssignment(last, PolicyFor(policies, last), kind)]);
    }
  }

  lemma OneMoreRequest(order: seq<Package>, policies: map<Package, string>, kind: RequestKind)
    requires order != []
    ensures var init, last := order[..|order| - 1], order[|order| - 1];
      RequestsFor(order, policies, kind) ==
        RequestsFor(init, policies, kind) + [RequestAssignment(last, PolicyFor(policies, last), kind)]
  {
  }

  lemma DeliveredOne(oracle: Oracle, log: Log, p: Pending)
    requires JustAccepted(p) && Answers(oracle, log, GetRequestStatus(p.request), Status(Delivered))
    ensures var one := PollOne(oracle, log, p); one.value.submitted && one.value.state == Delivered
  {
  }

  lemma DeliveredPass(oracle: Oracle, log: Log, ps: seq<Pending>, most: Step<seq<Pending>>, one: Step<Pending>)
    requires ps != [] && most == PollPass(oracle, log, ps[..|ps| - 1])
    requires one == PollOne(oracle, most.log, ps[|ps| - 1])
    requires AllDelivered(most.value) && one.value.submitted && one.value.state == Delivered
    ensures AllDelivered(PollPass(oracle, log, ps).value)
  {
    assert PollPass(oracle, log, ps).value == most.value + [one.value];
  }

  lemma {:induction false} ObligedPass(oracle: Oracle, log: Log, ps: seq<Pending>, from: nat)
    requires Obliges(oracle, from) && from <= |log| && AllAccepted(ps)
    ensures AllDelivered(PollPass(oracle, log, ps).value)
  {
    if ps != [] {
      var init, last := ps[..|ps| - 1], ps[|ps| - 1];
      ObligedPass(oracle, log, init, from);
      PollPassExtends(oracle, log, init);
      var most := PollPass(oracle, log, init);
      assert JustAccepted(last) && Answers(oracle, most.log, GetRequestStatus(last.request), Status(Delivered));
      DeliveredOne(oracle, most.log, last);
      DeliveredPass(oracle, log, ps, most, PollOne(oracle, most.log, last));
    }
  }

  lemma {:induction false} DeliveredFinalize(oracle: Oracle, log: Log, ps: seq<Pending>)
    requires AllDelivered(ps)
    ensures var r := Finalize(oracle, log, ps); r.log == log && r.value.Some? && AllSucceeded(r.value.value)
  {
    if ps != [] {
      DeliveredFinalize(oracle, log, ps[..|ps| - 1]);
    }
  }

  /**
   * What a tenant does is not lost: if it accepts and delivers whatever it is asked, one
   * pass of polling is enough, and an operation whose packages have policies requests each
   * of them once and reports every one of them done.
   */
  lemma ObligedOperation(oracle: Oracle, log: Log, order: seq<Package>, policies: map<Package, string>,
      kind: RequestKind, window: Window, from: nat)
    requires Obliges(oracle, from) && from <= |log| && window.attempts > 0
    requires kind.AdminAdd? ==> forall p :: p in order ==> PolicyFor(policies, p) != ""
    ensures var r := Operation(oracle, log, order, policies, kind, window);
      && log <= r.log && r.value.Some? && AllSucceeded(r.value.value)
      && Writes(r.log) == Writes(log) + RequestsFor(order, policies, kind)
  {
    var submitted := Submit(oracle, log, order, policies, kind);
    ObligedSubmit(oracle, log, order, policies, kind, from);
    SubmitExtends(oracle, log, order, policies, kind);
    ObligedPass(oracle, submitted.log, submitted.value, from);
    var pass := PollPass(oracle, submitted.log, submitted.value);
    OperationWrites(oracle, log, order, policies, kind, window);
    ObligedPoll(oracle, submitted.log, submitted.value, window, pass);
    var polled := SyncPoll(oracle, submitted.log, submitted.value, window.attempts, window.interval);
    DeliveredFinalize(oracle, polled.log, polled.value);
  }

  lemma ObligedPoll(oracle: Oracle, log: Log, ps: seq<Pending>, window: Window, pass: Step<seq<Pending>>)
    requires AllAccepted(ps) && pass == PollPass(oracle, log, ps) && AllDelivered(pass.value) && window.attempts > 0
    ensures AllDelivered(SyncPoll(oracle, log, ps, window.attempts, window.interval).value)
  {
    if ps == [] {
      assert AllTerminal(ps);
    } else {
      assert Open(ps[0]);
      assert AllTerminal(pass.value);
    }
  }

  // How long polling goes on.

  /** How often the engine waited, and how often it made this call. */
  ghost function Waits(log: Log): nat {
    if log == [] then 0 else Waits(log[..|log| - 1]) + if log[|log| - 1].Waited? then 1 else 0
  }

  ghost function Times(log: Log, call: Call): nat {
    if log == [] then 0
    else
      var last := log[|log| - 1];
      Times(log[..|log| - 1], call) + if last.Engine? && last.call == call then 1 else 0
  }

  lemma {:induction false} CountsOfOwn(log: Log, changes: seq<Change>, call: Call)
    ensures Waits(log + OwnChanges(changes)) == Waits(log)
    ensures Times(log + OwnChanges(changes), call) == Times(log, call)
  {
    if changes == [] {
      assert log + OwnChanges(changes) == log;
    } else {
      var init := changes[..|changes| - 1];
      CountsOfOwn(log, init, call);
      var all := log + OwnChanges(changes);
      assert all[..|all| - 1] == log + OwnChanges(init);
    }
  }

  lemma CountsOfAsk(oracle: Oracle, log: Log, asked: Call, call: Call)
    ensures Waits(Ask(oracle, log, asked)) == Waits(log)
    ensures Times(Ask(oracle, log, asked), call) == Times(log, call) + if asked == call then 1 else 0
  {
    var changes := oracle(log, asked).changes;
    CountsOfOwn(log, changes, call);
    var next := Ask(oracle, log, asked);
    assert next[..|next| - 1] == log + OwnChanges(changes);
  }

  lemma CountsOfWait(log: Log, seconds: nat, call: Call)
    ensures Waits(log + [Waited(seconds)]) == Waits(log) + 1
    ensures Times(log + [Waited(seconds)], call) == Times(log, call)
  {
    assert (log + [Waited(seconds)])[..|log|] == log;
  }

  lemma PollOneCounts(oracle: Oracle, log: Log, p: Pending, call: Call)
    ensures var one := PollOne(oracle, log, p);
      && Waits(one.log) == Waits(log) && Times(one.log, call) >= Times(log, call)
      && (Open(p) && call == GetRequestStatus(p.request) ==> Times(one.log, call) > Times(log, call))
  {
    CountsOfAsk(oracle, log, GetRequestStatus(p.request), call);
  }

  /** A pass asks at least once about every open record. */
  lemma {:induction false} PassCounts(oracle: Oracle, log: Log, ps: seq<Pending>, call: Call)
    ensures var r := PollPass(oracle, log, ps);
      && Waits(r.log) == Waits(log) && Times(r.log, call) >= Times(log, call)
      && ((exists i :: 0 <= i < |ps| && Open(ps[i]) && call == GetRequestStatus(ps[i].request)) ==>
            Times(r.log, call) > Times(log, call))
  {
    if ps != [] {
      var init, last := ps[..|ps| - 1], ps[|ps| - 1];
      PassCounts(oracle, log, init, call);
      PollOneCounts(oracle, PollPass(oracle, log, init).log, last, call);
    }
  }

  /** `after` is what polling from `log` may leave of record `i`, given so many attempts. */
  ghost predicate Patient(log: Log, after: Log, record: Pending, attempts: nat) {
    && Waits(after) <= Waits(log) + attempts
    && (Open(record) ==>
          && Waits(after) == Waits(log) + attempts
          && Times(after, GetRequestStatus(record.request)) >= Times(log, GetRequestStatus(record.request)) + attempts)
  }

  /** One pass and one wait before the rest. */
  lemma PatientStep(oracle: Oracle, log: Log, ps: seq<Pending>, i: nat, interval: nat, after: Log, record: Pending,
      attempts: nat)
    requires i < |ps| && attempts > 0 && (Open(record) ==> Open(ps[i]) && record.request == ps[i].request)
    requires Patient(PollPass(oracle, log, ps).log + [Waited(interval)], after, record, attempts - 1)
    ensures Patient(log, after, record, attempts)
  {
    var call := GetRequestStatus(record.request);
    PassCounts(oracle, log, ps, call);
    CountsOfWait(PollPass(oracle, log, ps).log, interval, call);
  }

  /**
   * The window is used to the full: polling waits at most as often as it allows, and if a
   * record is still open at the end it has waited exactly that often and asked about that
   * record at least as often.
   */
  lemma {:induction false} PollIsPatient(oracle: Oracle, log: Log, ps: seq<Pending>, attempts: nat, interval: nat,
                                         i: nat)
    requires i < |ps|
    ensures var r := SyncPoll(oracle, log, ps, attempts, interval); Patient(log, r.log, r.value[i], attempts)
    decreases attempts
  {
    PollKeeps(oracle, log, ps, attempts, interval);
    if attempts > 0 && !AllTerminal(ps) {
      PassCounts(oracle, log, ps, GetRequestStatus(ps[i].request));
      var pass := PollPass(oracle, log, ps);
      if !AllTerminal(pass.value) {
        PollIsPatient(oracle, pass.log + [Waited(interval)], pass.value, attempts - 1, interval, i);
        var rest := SyncPoll(oracle, pass.log + [Waited(interval)], pass.value, attempts - 1, interval);
        PatientStep(oracle, log, ps, i, interval, rest.log, rest.value[i], attempts);
      }
    }
  }

  // Which answers end it.

  /** From logs of this length on every status query is answered in the same way. */
  ghost predicate AlwaysSays(oracle: Oracle, from: nat, state: RequestState) {
    forall log: Log, call: Call ::
      |log| >= from && call.GetRequestStatus? ==> Answers(oracle, log, call, Status(state))
  }

  predicate Final(state: RequestState) {
    state in {Delivered, Denied, Canceled, Failed}
  }

  lemma OneRecordPass(oracle: Oracle, log: Log, p: Pending)
    ensures var one := PollOne(oracle, log, p); PollPass(oracle, log, [p]) == Step(one.log, [one.value])
  {
    var ps := [p];
    assert ps[..|ps| - 1] == [] && ps[|ps| - 1] == p;
    assert PollPass(oracle, log, []) == Step(log, []);
    var one := PollOne(oracle, log, p);
    assert [] + [one.value] == [one.value];
  }

  lemma OneRecordPoll(oracle: Oracle, log: Log, p: Pending, attempts: nat, interval: nat, one: Step<Pending>)
    requires Open(p) && attempts > 0 && PollPass(oracle, log, [p]) == Step(one.log, [one.value])
    ensures SyncPoll(oracle, log, [p], attempts, interval) ==
      if Open(one.value) then SyncPoll(oracle, one.log + [Waited(interval)], [one.value], attempts - 1, interval)
      else Step(one.log, [one.value])
  {
    assert Open([p][0]) && [one.value][0] == one.value;
    assert AllTerminal([one.value]) <==> !Open(one.value);
  }

  /** What an answer that is not final makes of an open record. */
  lemma UpdatedStaysOpen(p: Pending, state: RequestState)
    requires p.submitted && !Final(p.state)
    ensures var next := Updated(p, Status(state));
      Open(p) && next.submitted && (Open(next) <==> !Final(state)) && (!Final(state) ==> !Final(next.state))
  {
  }

  lemma OpenIsAsked(oracle: Oracle, log: Log, p: Pending)
    requires Open(p)
    ensures PollOne(oracle, log, p) ==
      Step(Ask(oracle, log, GetRequestStatus(p.request)), Updated(p, Heard(oracle, log, GetRequestStatus(p.request))))
  {
  }

  /** One round of polling a record whose query is answered so. */
  lemma OneRound(oracle: Oracle, log: Log, p: Pending, attempts: nat, interval: nat, state: RequestState)
    requires p.submitted && !Final(p.state) && attempts > 0
    requires Heard(oracle, log, GetRequestStatus(p.request)) == Status(state)
    ensures var asked, next := Ask(oracle, log, GetRequestStatus(p.request)), Updated(p, Status(state));
      && next.submitted && (!Final(state) ==> !Final(next.state))
      && SyncPoll(oracle, log, [p], attempts, interval) ==
         if Final(state) then Step(asked, [next])
         else SyncPoll(oracle, asked + [Waited(interval)], [next], attempts - 1, interval)
  {
    UpdatedStaysOpen(p, state);
    OpenIsAsked(oracle, log, p);
    OneRecordPass(oracle, log, p);
    OneRecordPoll(oracle, log, p, attempts, interval, PollOne(oracle, log, p));
  }

  /** What a round adds to the waits. */
  lemma RoundWaits(oracle: Oracle, log: Log, p: Pending, attempts: nat, interval: nat, state: RequestState)
    requires p.submitted && !Final(p.state) && attempts > 0
    requires Heard(oracle, log, GetRequestStatus(p.request)) == Status(state)
    ensures var later := Ask(oracle, log, GetRequestStatus(p.request)) + [Waited(interval)];
      && |later| >= |log| && Waits(later) == Waits(log) + 1
      && Waits(SyncPoll(oracle, log, [p], attempts, interval).log) ==
         if Final(state) then Waits(log)
         else Waits(SyncPoll(oracle, later, [Updated(p, Status(state))], attempts - 1, interval).log)
  {
    var call := GetRequestStatus(p.request);
    OneRound(oracle, log, p, attempts, interval, state);
    CountsOfAsk(oracle, log, call, call);
    CountsOfWait(Ask(oracle, log, call), interval, call);
  }

  /**
   * Delivered, denied, canceled and failed end the polling of a record at the first pass;
   * whatever else the tenant keeps saying, it is asked again until the window is over.
   */
  lemma {:induction false} FourAnswersEndPolling(oracle: Oracle, log: Log, p: Pending, attempts: nat, interval: nat,
                                                 from: nat, state: RequestState)
    requires AlwaysSays(oracle, from, state) && from <= |log| && p.submitted && !Final(p.state)
    ensures Waits(SyncPoll(oracle, log, [p], attempts, interval).log) ==
      Waits(log) + if Final(state) then 0 else attempts
    decreases attempts
  {
    if attempts > 0 {
      var call := GetRequestStatus(p.request);
      assert Answers(oracle, log, call, Status(state));
      RoundWaits(oracle, log, p, attempts, interval, state);
      if !Final(state) {
        UpdatedStaysOpen(p, state);
        FourAnswersEndPolling(oracle, Ask(oracle, log, call) + [Waited(interval)], Updated(p, Status(state)),
                              attempts - 1, interval, from, state);
      }
    }
  }

  // What a record remembers.

  /** What submitting an addition leaves in its record, by what the policy and the tenant said. */
  lemma SubmissionIs(oracle: Oracle, log: Log, package: Package, policies: map<Package, string>)
    ensures var p := SubmitAddition(oracle, log, package, policies).value;
      var checked := Ask(oracle, log, CheckAssignment(package));
      var found := Heard(oracle, log, CheckAssignment(package));
      var policy := if package in policies then policies[package] else "";
      var answer := Heard(oracle, checked, RequestAssignment(package, policy, AdminAdd));
      && p.package == package && p.kind == AdminAdd && p.policy == policy && p.previous == Blank
      && (p.fault == NoPolicy <==> policy == "")
      && (p.skipped <==> policy != "" && found == Lookup(Some(Delivered)))
      && (p.submitted <==> policy != "" && found.Lookup? && found.found != Some(Delivered) && answer.Accepted?)
      && (p.fault == CallFailed <==> policy != "" && !p.skipped && !p.submitted)
      && (p.submitted ==> p.request == answer.request && p.state == Submitted)
      && (!p.submitted && !p.skipped ==> p.state == SubmissionFailed)
  {
  }

  /** A removal is requested at once, under the policy on record or none. */
  lemma RemovalSubmissionIs(oracle: Oracle, log: Log, package: Package, policies: map<Package, string>)
    ensures var p := SubmitOne(oracle, log, package, policies, AdminRemove).value;
      var policy := if package in policies then policies[package] else "";
      var answer := Heard(oracle, log, RequestAssignment(package, policy, AdminRemove));
      && p.package == package && p.kind == AdminRemove && p.policy == policy && !p.skipped
      && (p.submitted <==> answer.Accepted?) && (p.fault == CallFailed <==> !answer.Accepted?) && p.fault != NoPolicy
      && (p.submitted ==> p.request == answer.request && p.state == Submitted)
      && (!p.submitted ==> p.state == SubmissionFailed)
  {
  }

  /**
   * What a status query leaves in an open record: the state it was told and the one
   * before, unless it was told nothing new, a blank or an error.
   */
  lemma QueryUpdates(oracle: Oracle, log: Log, p: Pending)
    requires Open(p)
    ensures var next, answer := PollOne(oracle, log, p).value, Heard(oracle, log, GetRequestStatus(p.request));
      var told := answer.Status? && answer.state != Blank && answer.state != p.state;
      && (told ==> next.state == answer.state && next.previous == p.state)
      && (!told ==> next == p)
  {
  }

  /** A dictionary with only the mandatory keys is a record that has not been submitted. */
  lemma BareDictIsFresh(package: Package, policy: string, kind: RequestKind)
    ensures FromDict(PendingDict(Some(package), Some(policy), Some(kind), None, None, None, None, None, None)) ==
      Some(Fresh(package, policy, kind))
    ensures forall d: PendingDict ::
      FromDict(d).None? <==> d.accessPackageId.None? || d.policyId.None? || d.requestType.None?
  {
  }
}
