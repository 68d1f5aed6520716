/**
 * What a Leaver run asks for and reports, told by what the tenant was asked and what it
 * answered alone.
 */
module LeaverReports {
  import opened Collections
  import opened Tenant
  import opened Phases
  import opened PollLoops
  import opened PhaseProperties
  import opened PhaseReports
  import opened Accounts
  import opened Verifier
  import opened Drivers
  import opened LeaverRun
  import opened LeaverTheorems
  import ES = EventStore
  import CQ = ConflictQueue
  import MR = MoverResults

  // What is removed.

  lemma {:induction false} WriteHappened(log: Log, call: Call)
    requires call in Writes(log)
    ensures exists k :: 0 <= k < |log| && log[k].Engine? && log[k].call == call
  {
    if log != [] {
      var n := |log| - 1;
      if log[n].Engine? && log[n].call == call {
      } else {
        WriteHappened(log[..n], call);
        var k :| 0 <= k < n && log[..n][k].Engine? && log[..n][k].call == call;
        assert log[k].call == call;
      }
    }
  }

  /** The call was made after `before`. */
  ghost predicate MadeSince(before: Log, after: Log, call: Call) {
    exists k :: |before| <= k < |after| && after[k].Engine? && after[k].call == call
  }

  lemma AddedCallsWereMade(before: Log, after: Log, calls: seq<Call>, call: Call)
    requires Adds(before, after, calls) && call in calls
    ensures MadeSince(before, after, call)
  {
    var rest := after[|before|..];
    assert after == before + rest;
    WritesConcat(before, rest);
    assert (Writes(before) + calls)[|Writes(before)|..] == calls;
    assert (Writes(before) + Writes(rest))[|Writes(before)|..] == Writes(rest);
    WriteHappened(rest, call);
    var k :| 0 <= k < |rest| && rest[k].Engine? && rest[k].call == call;
    assert after[|before| + k] == rest[k];
  }

  /** What a prepared run found out before it locked the account out. */
  lemma PreparedFrom(oracle: Oracle, s: Setting, w: World, pre: PreStep, all: seq<Assignment>)
    requires pre == Prepare(oracle, s, w) && pre.prepared.Ready?
    requires Heard(oracle, Ask(oracle, w.log, GetUser), GetAssignments) == Assignments(all)
    ensures Heard(oracle, w.log, GetUser).User? && pre.prepared.user == Heard(oracle, w.log, GetUser).id
    ensures pre.prepared.packages == Fetched(all) && pre.prepared.policies == CurrentPolicies(all)
  {
  }

  lemma RemovalOf(order: seq<Package>, policies: map<Package, string>, p: Package)
    requires p in order
    ensures RequestAssignment(p, PolicyFor(policies, p), AdminRemove) in RemovalRequests(order, policies)
  {
    var i :| 0 <= i < |order| && order[i] == p;
    assert RemovalRequests(order, policies)[i] == RequestAssignment(p, PolicyFor(policies, p), AdminRemove);
  }

  /**
   * What the tenant listed when the run began is removed: a prepared run, however it ends,
   * asks to remove the package of every assignment, under the policy of the last one of it.
   */
  lemma FoundIsRemoved(driver: Driver, oracle: Oracle, s: Setting, w: World, t: Trace, all: seq<Assignment>, i: nat)
    requires IsRun(driver, oracle, s, w, t) && Iterates(s.order) && t.pre.prepared.Ready?
    requires Heard(oracle, Ask(oracle, w.log, GetUser), GetAssignments) == Assignments(all)
    requires i < |all| && all[i].package != "" && forall j :: i < j < |all| ==> all[j].package != all[i].package
    ensures MadeSince(w.log, t.run.world.log, RequestAssignment(all[i].package, all[i].policy, AdminRemove))
  {
    Unfold(driver, oracle, s, w, t);
    PreparedFrom(oracle, s, w, t.pre, all);
    var r := t.pre.prepared;
    assert Assignment(all[i].package, all[i].policy) in all;
    FetchedIff(all, all[i].package);
    CurrentPolicyIsTheLast(all, i);
    assert all[i].package in Elements(s.order(r.packages));
    RemovalOf(s.order(r.packages), r.policies, all[i].package);
    var call := RequestAssignment(all[i].package, all[i].policy, AdminRemove);
    if t.run.end.Raised? {
      OtherRunsWrite(driver, oracle, s, w, t);
      AddedCallsWereMade(w.log, t.run.world.log,
                         LockOutCalls(r) + RemovalRequests(s.order(r.packages), r.policies), call);
    } else {
      WritesInOrder(driver, oracle, s, w, t);
      AddedCallsWereMade(w.log, t.run.world.log,
                         MainWrites(r, s, Groups(oracle, t)) + DeletedLater(driver, oracle, s, t), call);
    }
  }

  lemma {:induction false} LastOf(all: seq<Assignment>, i: nat) returns (last: nat)
    requires i < |all|
    ensures i <= last < |all| && all[last].package == all[i].package
    ensures forall j :: last < j < |all| ==> all[j].package != all[i].package
    decreases |all| - i
  {
    if j :| i < j < |all| && all[j].package == all[i].package {
      last := LastOf(all, j);
    } else {
      last := i;
    }
  }

  /** So no package found is forgotten, however often it is listed. */
  lemma NoPackageIsForgotten(driver: Driver, oracle: Oracle, s: Setting, w: World, t: Trace, all: seq<Assignment>)
    requires IsRun(driver, oracle, s, w, t) && Iterates(s.order) && t.pre.prepared.Ready?
    requires Heard(oracle, Ask(oracle, w.log, GetUser), GetAssignments) == Assignments(all)
    ensures forall found :: found in all && found.package != "" ==> exists policy ::
      MadeSince(w.log, t.run.world.log, RequestAssignment(found.package, policy, AdminRemove))
  {
    forall found | found in all && found.package != ""
      ensures exists policy ::
        MadeSince(w.log, t.run.world.log, RequestAssignment(found.package, policy, AdminRemove))
    {
      var i :| 0 <= i < |all| && all[i] == found;
      var last := LastOf(all, i);
      FoundIsRemoved(driver, oracle, s, w, t, all, last);
    }
  }

  // What is reported.

  /** The removals a run reports as done are exactly the packages whose removal was confirmed, the others failed. */
  lemma RemovalsAreReported(driver: Driver, oracle: Oracle, s: Setting, w: World, t: Trace, p: Package)
    requires IsRun(driver, oracle, s, w, t) && Iterates(s.order) && t.pre.prepared.Ready? && t.run.end.Returned?
    requires DistinctIds(Since(t.pre.world.log, t.removal.log))
    ensures var part := Since(t.pre.world.log, t.removal.log);
      && (p in t.run.end.removed <==> p in t.pre.prepared.packages && RemovalConfirmed(part, p))
      && (p in t.run.end.failed <==> p in t.pre.prepared.packages && !RemovalConfirmed(part, p))
  {
    EndsVerifiedOrDeferred(driver, oracle, s, w, t);
    Unfold(driver, oracle, s, w, t);
    var r, part := t.pre.prepared, Since(t.pre.world.log, t.removal.log);
    var order := s.order(r.packages);
    OperationReports(oracle, t.pre.world.log, order, r.policies, AdminRemove, s.window);
    var actions := t.removal.value.value;
    WithIs(actions, true, p);
    WithIs(actions, false, p);
    assert p in Elements(order) <==> p in r.packages;
    forall i | 0 <= i < |order| ensures actions[i].succeeded <==> Confirmed(part, order[i], AdminRemove) {}
    if p in r.packages {
      var i :| 0 <= i < |order| && order[i] == p;
      assert actions[i] == Action(AdminRemove, p, Confirmed(part, p, AdminRemove));
    }
  }

  /** The account was deleted by the run, without an error. */
  ghost predicate DeletedBy(oracle: Oracle, s: Setting, t: Trace)
    requires t.pre.prepared.Ready?
  {
    var user := t.pre.prepared.user;
    s.hold == 0 && !Heard(oracle, TerminatePim(oracle, t.removal.log, user), DeleteUser(user)).GraphError?
  }

  /**
   * Which status the verification ends with.  Offboarded: every removal succeeded, and
   * the account was deleted or then reads as disabled.  Failed: it was not deleted and the
   * re-fetch is not answered.  Partly: everything else.
   */
  lemma VerdictIff(driver: Driver, oracle: Oracle, s: Setting, w: World, t: Trace)
    requires IsRun(driver, oracle, s, w, t) && t.pre.prepared.Ready? && t.verified.end.Returned?
    ensures var log := t.verified.world.log;
      && log != [] && log[|log| - 1].Engine? && log[|log| - 1].call == GetUser
      && (t.verified.end.final == Offboarded <==>
            t.verified.end.failed == [] && (DeletedBy(oracle, s, t) || ReadsDisabled(log[|log| - 1].answer)))
      && (t.verified.end.final == OffboardFailed <==> !DeletedBy(oracle, s, t) && !log[|log| - 1].answer.User?)
      && t.verified.end.final != QueuedConcurrent
  {
    Unfold(driver, oracle, s, w, t);
  }

  /** The closing lookup confirms a deletion if it finds no one, and anything else only if it finds the account off. */
  lemma CheckIs(oracle: Oracle, log: Log, deleted: bool)
    ensures var check, answer := CheckAccount(oracle, log, deleted), Heard(oracle, log, GetUser);
      && check.log == Ask(oracle, log, GetUser)
      && (check.value == Some(true) <==> if deleted then !answer.User? else ReadsDisabled(answer))
      && (check.value == None <==> !deleted && !answer.User?)
  {
  }

  /** Of the runs that end, the partial ones and no others name the verification in their row. */
  lemma PartlyRowIs(driver: Driver, oracle: Oracle, s: Setting, w: World, t: Trace)
    requires IsRun(driver, oracle, s, w, t) && t.pre.prepared.Ready? && t.verified.end.Returned?
    requires ES.Find(t.pre.world.rows, s.event).Some?
    ensures var row := ES.Find(t.run.world.rows, s.event);
      row.Some? && row.value.failureStep ==
        if t.verified.end.final == OffboardedPartly then "PostOffboardVerification"
        else ES.Find(t.pre.world.rows, s.event).value.failureStep
  {
    EndsVerifiedOrDeferred(driver, oracle, s, w, t);
    Unfold(driver, oracle, s, w, t);
    ClosedStep(t.pre.world.rows, s.event, t.verified.end.final);
  }

  lemma ClosedStep(rows: ES.Partition, event: ES.EventId, final: Final)
    requires ES.Find(rows, event).Some?
    ensures var row := ES.Find(Closed(rows, event, final), event);
      row.Some? && row.value.failureStep ==
        if final == OffboardedPartly then "PostOffboardVerification" else ES.Find(rows, event).value.failureStep
  {
    var row := ES.Find(rows, event).value.(lock := ES.Unlocked, holder := "");
    ES.FindPut(rows, row, event);
    var status := if final == Offboarded then ES.Completed else ES.Failed;
    var step := if final == OffboardedPartly then "PostOffboardVerification" else row.failureStep;
    ES.FindPut(ES.Release(rows, event), row.(status := status, failureStep := step), event);
  }

  // Early exits.

  lemma FetchedExits(oracle: Oracle, s: Setting, w: World)
    requires ES.Find(w.rows, s.event).Some?
    ensures var pre := FetchAndLockOut(oracle, s, w);
      var found := Heard(oracle, w.log, GetUser).User?;
      var fetched := Heard(oracle, Ask(oracle, w.log, GetUser), GetAssignments).Assignments?;
      && (pre.prepared.Ready? <==> found && fetched)
      && (!pre.prepared.Ready? ==>
            pre.prepared == Exited(OffboardFailed) &&
            MR.RowIs(pre.world.rows, s.event, ES.Failed, ES.Find(w.rows, s.event).value.lock) &&
            ES.Find(pre.world.rows, s.event).value.failureStep == if !found then "UserFetch" else "PackageFetch")
  {
    var row := ES.Find(w.rows, s.event).value;
    ES.FindPut(w.rows, row.(status := ES.Failed, failureStep := "UserFetch"), s.event);
    ES.FindPut(w.rows, row.(status := ES.Failed, failureStep := "PackageFetch"), s.event);
  }

  lemma PreparesCleared(oracle: Oracle, s: Setting, w: World, pre: PreStep)
    requires pre == Prepare(oracle, s, w)
    ensures var mine := ES.Claimable(ES.Find(w.rows, s.event), s.claimAt) && !s.concurrent;
      if mine then pre == FetchAndLockOut(oracle, s, World(w.log, Cleared(s, w)))
      else pre.prepared == Exited(QueuedConcurrent)
  {
  }

  /** Which leavers exit early: those not theirs to run, and those whose state cannot be fetched, with the step. */
  lemma EarlyExitsAre(oracle: Oracle, s: Setting, w: World, pre: PreStep)
    requires pre == Prepare(oracle, s, w) && ES.Sorted(w.rows)
    ensures var mine := ES.Claimable(ES.Find(w.rows, s.event), s.claimAt) && !s.concurrent;
      var found := Heard(oracle, w.log, GetUser).User?;
      var fetched := Heard(oracle, Ask(oracle, w.log, GetUser), GetAssignments).Assignments?;
      && (pre.prepared == Exited(QueuedConcurrent) <==> !mine)
      && (pre.prepared.Ready? <==> mine && found && fetched)
      && (mine && !(found && fetched) ==>
            pre.prepared == Exited(OffboardFailed) && MR.RowIs(pre.world.rows, s.event, ES.Failed, ES.Unlocked) &&
            ES.Find(pre.world.rows, s.event).value.failureStep == if !found then "UserFetch" else "PackageFetch")
  {
    PreparesCleared(oracle, s, w, pre);
    if ES.Claimable(ES.Find(w.rows, s.event), s.claimAt) && !s.concurrent {
      ClearedRow(s, w);
      FetchedExits(oracle, s, World(w.log, Cleared(s, w)));
    }
  }

  /** An early exit has looked the user up, and the assignments if there is one, and done nothing else. */
  lemma EarlyExitsOnlyLook(oracle: Oracle, s: Setting, w: World, pre: PreStep)
    requires pre == Prepare(oracle, s, w) && pre.prepared.Exited?
    ensures pre.world.log ==
      if pre.prepared == Exited(QueuedConcurrent) then w.log
      else if !Heard(oracle, w.log, GetUser).User? then Ask(oracle, w.log, GetUser)
      else Ask(oracle, Ask(oracle, w.log, GetUser), GetAssignments)
  {
  }

  /**
   * A Leaver that finds another one running turns back, but has by then superseded
   * everything else that was pending, and leaves its own row claimed and unlocked.
   */
  lemma TurnedAwayHasSuperseded(oracle: Oracle, s: Setting, w: World, pre: PreStep, other: ES.EventId)
    requires pre == Prepare(oracle, s, w) && ES.Sorted(w.rows)
    requires ES.Claimable(ES.Find(w.rows, s.event), s.claimAt) && s.concurrent
    ensures pre.prepared == Exited(QueuedConcurrent) && MR.RowIs(pre.world.rows, s.event, ES.Pending, ES.Unlocked)
    ensures var found := ES.Find(pre.world.rows, other);
      other != s.event && found.Some? ==> found.value.status != ES.Pending
  {
    assert pre.world.rows == Cleared(s, w);
    ClearedRow(s, w);
    if other != s.event {
      ClearedOfPending(s, w, other);
    }
  }

  // The ordinary case.

  lemma ObligedRemoval(oracle: Oracle, s: Setting, log: Log, r: Prepared)
    requires r.Ready? && Obliges(oracle, |log|) && s.window.attempts > 0
    ensures var removal := Removal(Synchronous, oracle, s, log, r);
      removal.value.Some? && AllSucceeded(removal.value.value)
  {
    ObligedOperation(oracle, log, s.order(r.packages), r.policies, AdminRemove, s.window, |log|);
  }

  /** Actions that all succeeded leave nothing failed. */
  lemma NothingFailed(actions: seq<Action>)
    requires AllSucceeded(actions)
    ensures With(actions, false) == []
  {
    if With(actions, false) != [] {
      WithIs(actions, false, With(actions, false)[0]);
    }
  }

  lemma ObligedConclusion(oracle: Oracle, s: Setting, rows: ES.Partition, user: UserId,
                          removal: Step<Option<seq<Action>>>)
    requires removal.value.Some? && AllSucceeded(removal.value.value)
    ensures var done := Conclude(oracle, s, rows, user, removal).end; done.Returned? && done.failed == []
  {
    NothingFailed(removal.value.value);
  }

  /**
   * On a tenant that accepts and delivers whatever it is asked, a prepared run removes
   * every package, whatever else happens, and is a success as soon as its delete is
   * accepted or its last reading finds the account disabled.
   */
  lemma ObligedLeaverSucceeds(driver: Driver, oracle: Oracle, s: Setting, w: World, t: Trace)
    requires IsRun(driver, oracle, s, w, t) && Iterates(s.order) && ES.Sorted(w.rows)
    requires t.pre.prepared.Ready? && Obliges(oracle, |t.pre.world.log|) && s.window.attempts > 0
    ensures t.verified.end.Returned? && t.run.end.Returned? && t.run.end.failed == []
    ensures Elements(t.run.end.removed) == t.pre.prepared.packages
    ensures var log := t.verified.world.log;
      DeletedBy(oracle, s, t) || (log != [] && log[|log| - 1].Engine? && ReadsDisabled(log[|log| - 1].answer)) ==>
        t.verified.end.final == Offboarded && MR.RowIs(t.run.world.rows, s.event, ES.Completed, ES.Unlocked)
  {
    ObligedParts(driver, oracle, s, w, t);
    PackagesAreAccountedFor(driver, oracle, s, w, t);
    VerdictIff(driver, oracle, s, w, t);
    RaisesIff(driver, oracle, s, w, t);
    RowTellsTheVerdict(driver, oracle, s, w, t);
  }

  lemma ObligedParts(driver: Driver, oracle: Oracle, s: Setting, w: World, t: Trace)
    requires IsRun(driver, oracle, s, w, t) && t.pre.prepared.Ready?
    requires Obliges(oracle, |t.pre.world.log|) && s.window.attempts > 0
    ensures t.verified.end.Returned? && t.verified.end.failed == []
    ensures t.run.end.Returned? && t.run.end.failed == []
  {
    EndsVerifiedOrDeferred(driver, oracle, s, w, t);
    Unfold(driver, oracle, s, w, t);
    ObligedRemoval(oracle, s, t.pre.world.log, t.pre.prepared);
    ObligedConclusion(oracle, s, t.pre.world.rows, t.pre.prepared.user, t.removal);
  }
}
