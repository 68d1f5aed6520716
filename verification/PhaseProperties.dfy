/** What the phases promise, on every tenant and for any number of polls. */
module PhaseProperties {
  import opened Collections
  import opened Tenant
  import opened Phases
  import opened PollLoops

  // Polling keeps records.

  /** The part of a record that polling never touches. */
  predicate SameRequest(a: Pending, b: Pending) {
    a.package == b.package && a.policy == b.policy && a.kind == b.kind && a.request == b.request
    && a.submitted == b.submitted && a.skipped == b.skipped && a.fault == b.fault
  }

  ghost predicate PolledFrom(before: seq<Pending>, after: seq<Pending>) {
    |after| == |before| &&
    forall i :: 0 <= i < |before| ==>
      SameRequest(before[i], after[i]) && (!Open(before[i]) ==> after[i] == before[i])
  }

  lemma {:induction false} PassKeeps(oracle: Oracle, log: Log, ps: seq<Pending>)
    ensures PolledFrom(ps, PollPass(oracle, log, ps).value)
  {
    if ps != [] {
      PassKeeps(oracle, log, ps[..|ps| - 1]);
    }
  }

  lemma PolledFromTransitive(a: seq<Pending>, b: seq<Pending>, c: seq<Pending>)
    requires PolledFrom(a, b) && PolledFrom(b, c)
    ensures PolledFrom(a, c)
  {
  }

  /**
   * However long the window, polling changes only the state of open records: a record
   * that has reached a terminal state, was skipped or was never submitted is final.
   */
  lemma {:induction false} PollKeeps(oracle: Oracle, log: Log, ps: seq<Pending>, attempts: nat, interval: nat)
    ensures PolledFrom(ps, SyncPoll(oracle, log, ps, attempts, interval).value)
    decreases attempts
  {
    if attempts > 0 && !AllTerminal(ps) {
      PassKeeps(oracle, log, ps);
      var pass := PollPass(oracle, log, ps);
      if !AllTerminal(pass.value) {
        PollKeeps(oracle, pass.log + [Waited(interval)], pass.value, attempts - 1, interval);
        PolledFromTransitive(ps, pass.value,
                             SyncPoll(oracle, pass.log + [Waited(interval)], pass.value, attempts - 1, interval).value);
      }
    }
  }

  lemma {:induction false} PollExtends(oracle: Oracle, log: Log, ps: seq<Pending>, attempts: nat, interval: nat)
    ensures OnlyReads(log, SyncPoll(oracle, log, ps, attempts, interval).log)
    decreases attempts
  {
    if attempts > 0 && !AllTerminal(ps) {
      PollPassExtends(oracle, log, ps);
      var pass := PollPass(oracle, log, ps);
      if !AllTerminal(pass.value) {
        var waited := pass.log + [Waited(interval)];
        WritesOfWait(pass.log, interval);
        ReadsOn(log, pass.log, waited);
        PollExtends(oracle, waited, pass.value, attempts - 1, interval);
        ReadsOn(log, waited, SyncPoll(oracle, waited, pass.value, attempts - 1, interval).log);
      }
    }
  }

  // Records are backed by the log.

  ghost predicate Tracked(log: Log, p: Pending) {
    && (p.skipped ==> Engine(CheckAssignment(p.package), Lookup(Some(Delivered))) in log)
    && (p.submitted ==> Engine(RequestAssignment(p.package, p.policy, p.kind), Accepted(p.request)) in log)
    && (p.submitted && p.state == Delivered ==> Engine(GetRequestStatus(p.request), Status(Delivered)) in log)
  }

  ghost predicate AllTracked(log: Log, ps: seq<Pending>) {
    forall i :: 0 <= i < |ps| ==> Tracked(log, ps[i])
  }

  lemma SubmitOneTracked(oracle: Oracle, log: Log, package: Package, policies: map<Package, string>, kind: RequestKind)
    ensures Tracked(SubmitOne(oracle, log, package, policies, kind).log,
                    SubmitOne(oracle, log, package, policies, kind).value)
  {
  }

  lemma {:induction false} SubmitTracked(oracle: Oracle, log: Log, order: seq<Package>, policies: map<Package, string>,
      kind: RequestKind)
    ensures var r := Submit(oracle, log, order, policies, kind); AllTracked(r.log, r.value)
  {
    if order != [] {
      var init, last := order[..|order| - 1], order[|order| - 1];
      SubmitTracked(oracle, log, init, policies, kind);
      var most := Submit(oracle, log, init, policies, kind);
      SubmitOneTracked(oracle, most.log, last, policies, kind);
      SubmitOneExtends(oracle, most.log, last, policies, kind);
    }
  }

  lemma PollOneTracked(oracle: Oracle, log: Log, p: Pending)
    requires Tracked(log, p)
    ensures Tracked(PollOne(oracle, log, p).log, PollOne(oracle, log, p).value)
    ensures log <= PollOne(oracle, log, p).log
  {
  }

  lemma {:induction false} PassTracked(oracle: Oracle, log: Log, ps: seq<Pending>)
    requires AllTracked(log, ps)
    ensures var r := PollPass(oracle, log, ps); AllTracked(r.log, r.value)
  {
    if ps != [] {
      var init, last := ps[..|ps| - 1], ps[|ps| - 1];
      PassTracked(oracle, log, init);
      PollPassExtends(oracle, log, init);
      var most := PollPass(oracle, log, init);
      assert Tracked(most.log, last);
      PollOneTracked(oracle, most.log, last);
    }
  }

  lemma {:induction false} PollTracked(oracle: Oracle, log: Log, ps: seq<Pending>, attempts: nat, interval: nat)
    requires AllTracked(log, ps)
    ensures var r := SyncPoll(oracle, log, ps, attempts, interval); AllTracked(r.log, r.value)
    decreases attempts
  {
    if attempts > 0 && !AllTerminal(ps) {
      PassTracked(oracle, log, ps);
      var pass := PollPass(oracle, log, ps);
      if !AllTerminal(pass.value) {
        PollTracked(oracle, pass.log + [Waited(interval)], pass.value, attempts - 1, interval);
      }
    }
  }

  // The action records.

  /** One action per record, about its package, in the records' order. */
  ghost predicate OneActionEach(actions: seq<Action>, ps: seq<Pending>) {
    |actions| == |ps| &&
    forall i :: 0 <= i < |ps| ==> actions[i].package == ps[i].package && actions[i].kind == ps[i].kind
  }

  lemma {:induction false} FinalizeRecords(oracle: Oracle, log: Log, ps: seq<Pending>)
    requires Finalize(oracle, log, ps).value.Some?
    ensures OneActionEach(Finalize(oracle, log, ps).value.value, ps)
  {
    if ps != [] {
      FinalizeRecords(oracle, log, ps[..|ps| - 1]);
    }
  }

  /**
   * The gate: with one action per package, every action succeeded exactly when the
   * delivered set is the whole set that was asked for.
   */
  lemma AllSucceededIffAllDelivered(actions: seq<Action>, order: seq<Package>)
    requires NoDuplicates(order) && |actions| == |order|
    requires forall i :: 0 <= i < |order| ==> actions[i].package == order[i]
    ensures AllSucceeded(actions) <==> Succeeded(actions) == Elements(order)
    ensures Succeeded(actions) <= Elements(order)
  {
    forall p | p in Succeeded(actions) ensures p in Elements(order) {
      var a :| a in actions && a.succeeded && a.package == p;
    }
    if AllSucceeded(actions) {
      forall p | p in Elements(order) ensures p in Succeeded(actions) {
        var i :| 0 <= i < |order| && order[i] == p;
        assert actions[i] in actions;
      }
    }
    if Succeeded(actions) == Elements(order) {
      forall i | 0 <= i < |actions| ensures actions[i].succeeded {
        assert order[i] in Succeeded(actions);
        var a :| a in actions && a.succeeded && a.package == order[i];
        var j :| 0 <= j < |actions| && actions[j] == a;
        assert i == j;
      }
    }
  }

  /** The log shows the removal: its request delivered, or a lookup that found nothing delivered. */
  ghost predicate RemovalConfirmed(log: Log, p: Package) {
    RequestConfirmed(log, p, AdminRemove) ||
    exists event :: event in log && NothingDelivered(event) && event.call.package == p
  }

  ghost predicate Confirmed(log: Log, p: Package, kind: RequestKind) {
    if kind.AdminAdd? then AddConfirmed(log, p) else RemovalConfirmed(log, p)
  }

  lemma ConfirmedGrows(log: Log, later: Log, p: Package, kind: RequestKind)
    requires log <= later && Confirmed(log, p, kind)
    ensures Confirmed(later, p, kind)
  {
    if kind.AdminAdd? && Engine(CheckAssignment(p), Lookup(Some(Delivered))) in log {
    } else if RequestConfirmed(log, p, kind) {
      var policy, id :| Engine(RequestAssignment(p, policy, kind), Accepted(id)) in log &&
        Engine(GetRequestStatus(id), Status(Delivered)) in log;
      assert Engine(RequestAssignment(p, policy, kind), Accepted(id)) in later;
    } else {
      var event :| event in log && NothingDelivered(event) && event.call.package == p;
      assert event in later;
    }
  }

  /** A confirmed removal that nobody asks to add again is gone from then on. */
  lemma ConfirmedRemovalIsGone(start: set<Package>, log: Log, p: Package, n: nat, j: nat)
    requires Grounded(start, log) && LookupsComplete(start, log) && n <= j <= |log|
    requires RemovalConfirmed(log[..n], p)
    requires forall k :: 0 <= k < j ==> !Requests(log[k], p, AdminAdd)
    ensures p !in Held(start, log, j)
  {
    if RequestConfirmed(log[..n], p, AdminRemove) {
      ConfirmedTookEffect(start, log, p, AdminRemove, n);
      var m :| 0 <= m < n && log[m] == Fulfils(p, AdminRemove);
      assert p !in Held(start, log, m + 1);
      StaysAway(start, log, p, m + 1, j);
    } else {
      var event :| event in log[..n] && NothingDelivered(event) && event.call.package == p;
      var i :| 0 <= i < n && log[i] == event;
      StaysAway(start, log, p, i, j);
    }
  }

  lemma ConfirmIsBacked(oracle: Oracle, log: Log, p: Pending)
    requires Tracked(log, p)
    requires Confirm(oracle, log, p).value == Some(true)
    ensures Confirmed(Confirm(oracle, log, p).log, p.package, p.kind)
  {
    var r := Confirm(oracle, log, p);
    if p.skipped && p.kind.AdminAdd? {
    } else if p.state.Delivered? {
      assert RequestConfirmed(r.log, p.package, p.kind);
    } else {
      var event := Engine(CheckAssignment(p.package), Heard(oracle, log, CheckAssignment(p.package)));
      assert event in r.log;
    }
  }

  /** No success is recorded that the log does not show. */
  lemma {:induction false} SuccessIsBacked(oracle: Oracle, log: Log, ps: seq<Pending>)
    requires AllTracked(log, ps)
    requires Finalize(oracle, log, ps).value.Some?
    ensures var r := Finalize(oracle, log, ps);
      forall i :: 0 <= i < |r.value.value| && r.value.value[i].succeeded ==>
        Confirmed(r.log, r.value.value[i].package, r.value.value[i].kind)
  {
    if ps != [] {
      var init, p := ps[..|ps| - 1], ps[|ps| - 1];
      SuccessIsBacked(oracle, log, init);
      FinalizeExtends(oracle, log, init);
      var most := Finalize(oracle, log, init);
      var one := Confirm(oracle, most.log, p);
      var r := Finalize(oracle, log, ps);
      assert r.log == one.log && most.log <= one.log;
      assert r.value.value == most.value.value + [Action(p.kind, p.package, one.value.value)];
      forall i | 0 <= i < |r.value.value| && r.value.value[i].succeeded
        ensures Confirmed(r.log, r.value.value[i].package, r.value.value[i].kind)
      {
        if i < |most.value.value| {
          assert r.value.value[i] == most.value.value[i];
          ConfirmedGrows(most.log, r.log, r.value.value[i].package, r.value.value[i].kind);
        } else {
          assert Tracked(most.log, p);
          ConfirmIsBacked(oracle, most.log, p);
        }
      }
    }
  }

  // Raising.

  /** The log ends with a lookup of an assignment that was not answered. */
  ghost predicate EndsInFailedLookup(log: Log) {
    log != [] && var last := log[|log| - 1]; last.Engine? && last.call.CheckAssignment? && !last.answer.Lookup?
  }

  /** The record is one the phase falls back to a lookup for. */
  predicate NeedsLookup(p: Pending) {
    p.submitted && !(p.kind.AdminAdd? && p.skipped) && !p.state.Delivered? && !(p.kind.AdminAdd? && Terminal(p.state))
  }

  /** A finalize phase raises exactly when a lookup it falls back to is not answered. */
  lemma {:induction false} FinalizeRaisesIff(oracle: Oracle, log: Log, ps: seq<Pending>)
    ensures Finalize(oracle, log, ps).value.None? <==>
      exists i :: 0 <= i < |ps| && NeedsLookup(ps[i]) && Finalize(oracle, log, ps[..i]).value.Some? &&
        !Heard(oracle, Finalize(oracle, log, ps[..i]).log, CheckAssignment(ps[i].package)).Lookup?
    ensures Finalize(oracle, log, ps).value.None? ==> EndsInFailedLookup(Finalize(oracle, log, ps).log)
  {
    if ps != [] {
      var n := |ps| - 1;
      FinalizeRaisesIff(oracle, log, ps[..n]);
      forall i | 0 <= i < n ensures ps[..n][..i] == ps[..i] && ps[..n][i] == ps[i] {}
      var most := Finalize(oracle, log, ps[..n]);
      if most.value.Some? {
        assert Finalize(oracle, log, ps).value.None? <==> Confirm(oracle, most.log, ps[n]).value.None?;
      }
    }
  }

  // A whole operation: submit, poll, finalize.

  /** One loop of a driver, from submission to its actions (None: the fallback raised). */
  function Operation(oracle: Oracle, log: Log, order: seq<Package>, policies: map<Package, string>, kind: RequestKind,
      window: Window): Step<Option<seq<Action>>> {
    var submitted := Submit(oracle, log, order, policies, kind);
    var polled := SyncPoll(oracle, submitted.log, submitted.value, window.attempts, window.interval);
    Finalize(oracle, polled.log, polled.value)
  }

  /**
   * For every tenant and every window: a finished operation has exactly one action per
   * package, its gate is open exactly when everything asked for was delivered, and each
   * success it reports is shown by the log.
   */
  lemma OperationIsExact(oracle: Oracle, log: Log, order: seq<Package>, policies: map<Package, string>,
      kind: RequestKind, window: Window)
    requires NoDuplicates(order)
    requires Operation(oracle, log, order, policies, kind, window).value.Some?
    ensures var r := Operation(oracle, log, order, policies, kind, window);
      var actions := r.value.value;
      && |actions| == |order|
      && (forall i :: 0 <= i < |order| ==> actions[i].package == order[i] && actions[i].kind == kind)
      && (AllSucceeded(actions) <==> Succeeded(actions) == Elements(order))
      && Succeeded(actions) <= Elements(order)
      && (forall p :: p in Succeeded(actions) ==> Confirmed(r.log, p, kind))
  {
    var submitted := Submit(oracle, log, order, policies, kind);
    var polled := SyncPoll(oracle, submitted.log, submitted.value, window.attempts, window.interval);
    var actions := Finalize(oracle, polled.log, polled.value).value.value;
    SubmitExtends(oracle, log, order, policies, kind);
    SubmitTracked(oracle, log, order, policies, kind);
    PollKeeps(oracle, submitted.log, submitted.value, window.attempts, window.interval);
    PollTracked(oracle, submitted.log, submitted.value, window.attempts, window.interval);
    FinalizeRecords(oracle, polled.log, polled.value);
    forall i | 0 <= i < |order| ensures actions[i].package == order[i] && actions[i].kind == kind {
      assert SameRequest(submitted.value[i], polled.value[i]);
    }
    AllSucceededIffAllDelivered(actions, order);
    SuccessIsBacked(oracle, polled.log, polled.value);
  }

  /** A wholly successful operation is confirmed by every log that goes on from it. */
  lemma OperationConfirms(oracle: Oracle, log: Log, order: seq<Package>, policies: map<Package, string>,
      kind: RequestKind, window: Window, after: Log)
    requires NoDuplicates(order)
    requires var r := Operation(oracle, log, order, policies, kind, window);
      r.value.Some? && AllSucceeded(r.value.value) && r.log <= after
    ensures forall p :: p in Elements(order) ==> Confirmed(after, p, kind)
  {
    OperationIsExact(oracle, log, order, policies, kind, window);
    var r := Operation(oracle, log, order, policies, kind, window);
    forall p | p in Elements(order) ensures Confirmed(after, p, kind) {
      ConfirmedGrows(r.log, after, p, kind);
    }
  }

  lemma OperationRaises(oracle: Oracle, log: Log, order: seq<Package>, policies: map<Package, string>,
      kind: RequestKind, window: Window)
    ensures var r := Operation(oracle, log, order, policies, kind, window);
      r.value.None? ==> EndsInFailedLookup(r.log)
  {
    var submitted := Submit(oracle, log, order, policies, kind);
    var polled := SyncPoll(oracle, submitted.log, submitted.value, window.attempts, window.interval);
    FinalizeRaisesIff(oracle, polled.log, polled.value);
  }

  /** An operation extends the log; its only writes are those of its submissions. */
  lemma OperationWrites(oracle: Oracle, log: Log, order: seq<Package>, policies: map<Package, string>,
      kind: RequestKind, window: Window)
    ensures var r := Operation(oracle, log, order, policies, kind, window);
      log <= r.log && Writes(r.log) == Writes(Submit(oracle, log, order, policies, kind).log)
  {
    var submitted := Submit(oracle, log, order, policies, kind);
    var polled := SyncPoll(oracle, submitted.log, submitted.value, window.attempts, window.interval);
    SubmitExtends(oracle, log, order, policies, kind);
    PollExtends(oracle, submitted.log, submitted.value, window.attempts, window.interval);
    FinalizeExtends(oracle, polled.log, polled.value);
  }
}
