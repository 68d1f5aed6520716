/** The Leaver's deferred delete, with the tenant changing accounts during the hold. */
module DeferredDeletion {
  import opened Collections
  import opened Tenant
  import opened Accounts
  import opened Phases
  import opened PhaseProperties
  import opened Drivers
  import opened LeaverRun
  import opened LeaverTheorems
  import opened Verifier
  import ES = EventStore
  import MR = MoverResults

  // At most one delete.

  lemma NoDeleteAmong(calls: seq<Call>, user: UserId)
    requires forall call :: call in calls ==> !call.DeleteUser?
    ensures multiset(calls)[DeleteUser(user)] == 0
  {
    assert DeleteUser(user) !in calls;
  }

  lemma OneDeleteInMain(r: Prepared, s: Setting, groups: seq<string>)
    requires r.Ready?
    ensures multiset(MainWrites(r, s, groups))[DeleteUser(r.user)] == if s.hold == 0 then 1 else 0
    ensures s.hold > 0 ==> forall call :: call in MainWrites(r, s, groups) ==> !call.DeleteUser?
  {
    var first, requests, cancels := [DisableUser(r.user), RevokeSessions(r.user)],
      RemovalRequests(s.order(r.packages), r.policies), CancelCalls(r.user, groups);
    forall call: Call | call in first + requests + cancels ensures !call.DeleteUser? {
      if call in cancels {
        CancelCallsAre(r.user, groups, call);
      } else if call in requests {
        var i :| 0 <= i < |requests| && requests[i] == call;
      }
    }
    NoDeleteAmong(first + requests + cancels, r.user);
  }

  /**
   * A run attempts at most one delete of the account, whatever happens during the hold:
   * one without a hold; with a hold none under the synchronous driver and, under the
   * durable one, one exactly when the re-check reads the account as disabled.
   */
  lemma AtMostOneDelete(driver: Driver, oracle: Oracle, s: Setting, w: World, t: Trace)
    requires IsRun(driver, oracle, s, w, t) && t.pre.prepared.Ready? && t.run.end.Returned?
    ensures var delete := DeleteUser(t.pre.prepared.user);
      multiset(Writes(t.run.world.log))[delete] == multiset(Writes(w.log))[delete] +
        if s.hold == 0 || (driver == Durable && ReadsDisabled(Recheck(oracle, s, t))) then 1 else 0
  {
    WritesInOrder(driver, oracle, s, w, t);
    OneDeleteInMain(t.pre.prepared, s, Groups(oracle, t));
  }

  /** `k` is a delete made after the hold, right after a reading of the account as disabled. */
  ghost predicate RecheckedDelete(log: Log, hold: nat, k: nat)
    requires k < |log|
  {
    exists i, j :: 0 <= i < j < k && log[i] == Waited(hold)
      && log[j].Engine? && log[j].call == GetUser && ReadsDisabled(log[j].answer)
      && forall m :: j < m < k ==> log[m].Tenant?
  }

  /** The deferred part: the wait, the re-check, and the delete as its last event. */
  lemma DeferredShape(oracle: Oracle, before: Log, user: UserId, hold: nat, m: nat)
    requires |before| <= m < |DeferredDelete(oracle, before + [Waited(hold)], user).log|
    ensures var waited := before + [Waited(hold)];
      var checked, log := Ask(oracle, waited, GetUser), DeferredDelete(oracle, waited, user).log;
      && checked <= log
      && (m == |before| ==> log[m] == Waited(hold))
      && (|before| < m < |checked| - 1 ==> log[m].Tenant?)
      && (m == |checked| - 1 ==> log[m] == Engine(GetUser, Heard(oracle, waited, GetUser)))
      && (|checked| <= m < |log| - 1 ==> log[m].Tenant?)
      && (m >= |checked| ==> ReadsDisabled(Heard(oracle, waited, GetUser)))
  {
    var waited := before + [Waited(hold)];
    var checked, log := Ask(oracle, waited, GetUser), DeferredDelete(oracle, waited, user).log;
    assert m < |checked| ==> log[m] == checked[m];
    assert m < |waited| ==> checked[m] == waited[m];
  }

  lemma DeferredDeletesAreRechecked(oracle: Oracle, before: Log, user: UserId, hold: nat, k: nat)
    requires var log := DeferredDelete(oracle, before + [Waited(hold)], user).log;
      |before| <= k < |log| && log[k].Engine? && log[k].call.DeleteUser?
    ensures RecheckedDelete(DeferredDelete(oracle, before + [Waited(hold)], user).log, hold, k)
  {
    var log := DeferredDelete(oracle, before + [Waited(hold)], user).log;
    var i, j := |before|, |Ask(oracle, before + [Waited(hold)], GetUser)| - 1;
    DeferredShape(oracle, before, user, hold, k);
    DeferredShape(oracle, before, user, hold, i);
    DeferredShape(oracle, before, user, hold, j);
    forall m | j < m < k ensures log[m].Tenant? {
      DeferredShape(oracle, before, user, hold, m);
    }
  }

  /**
   * With a hold configured, every delete of a durable run comes after the hold timer and
   * directly after a re-check that read the account as disabled; only changes of the
   * tenant's own can come between the two.
   */
  lemma HeldDeletesAreRechecked(oracle: Oracle, s: Setting, w: World, t: Trace, k: nat)
    requires IsRun(Durable, oracle, s, w, t) && t.pre.prepared.Ready? && t.run.end.Returned? && s.hold > 0
    requires |w.log| <= k < |t.run.world.log|
    requires t.run.world.log[k].Engine? && t.run.world.log[k].call.DeleteUser?
    ensures RecheckedDelete(t.run.world.log, s.hold, k)
  {
    var r, verified, log := t.pre.prepared, t.verified.world.log, t.run.world.log;
    DriversAgreeUpToDeferral(oracle, s, w, t);
    DeferredWrites(oracle, verified + [Waited(s.hold)], r.user);
    if k < |verified| {
      VerifiedWrites(Durable, oracle, s, w, t);
      OneDeleteInMain(r, s, Groups(oracle, t));
      assert verified[k] == log[k];
      SuffixWrites(w.log, verified, MainWrites(r, s, Groups(oracle, t)), k);
    } else {
      DeferredDeletesAreRechecked(oracle, verified, r.user, s.hold, k);
    }
  }

  // Whose account is deleted, and in which state.

  /** A durable run with a hold whose re-check reads disabled, and so deletes. */
  ghost predicate Deletes(oracle: Oracle, s: Setting, w: World, t: Trace) {
    && IsRun(Durable, oracle, s, w, t)
    && t.pre.prepared.Ready? && t.run.end.Returned? && s.hold > 0
    && ReadsDisabled(Recheck(oracle, s, t))
  }

  function Checked(oracle: Oracle, s: Setting, t: Trace): Log {
    Ask(oracle, t.verified.world.log + [Waited(s.hold)], GetUser)
  }

  /** What the tenant changes between the re-check and the delete. */
  function InBetween(oracle: Oracle, s: Setting, t: Trace): seq<Change>
    requires t.pre.prepared.Ready?
  {
    oracle(Checked(oracle, s, t), DeleteUser(t.pre.prepared.user)).changes
  }

  /** The delete is the run's last event: what the directory is at the end is what the delete finds. */
  lemma DeleteEndsTheRun(oracle: Oracle, s: Setting, w: World, t: Trace)
    requires Deletes(oracle, s, w, t)
    ensures t.run.world.log == Ask(oracle, Checked(oracle, s, t), DeleteUser(t.pre.prepared.user))
  {
    DriversAgreeUpToDeferral(oracle, s, w, t);
  }

  /**
   * Exactly what the re-check protects from: given nothing but its answer and the changes
   * that follow it, the account is surely not enabled when the delete reaches it if and
   * only if those changes leave it off, or leave it alone and the re-check read that very
   * account, which it looked up by name.
   */
  lemma RecheckProtectsIff(oracle: Oracle, s: Setting, w: World, t: Trace)
    requires Deletes(oracle, s, w, t)
    ensures
      (forall d: Directory :: Reads(d, Recheck(oracle, s, t)) ==>
         !On(Changed(d, InBetween(oracle, s, t)), t.pre.prepared.user)) <==>
      match LastSet(InBetween(oracle, s, t), t.pre.prepared.user)
      case Some(on) => !on
      case None => Recheck(oracle, s, t).id == t.pre.prepared.user
  {
    ReadingProtectsIff(Recheck(oracle, s, t).id, InBetween(oracle, s, t), t.pre.prepared.user);
  }

  /**
   * The same at the delete of a whole run on a truthful tenant: if the re-check read the
   * account to be deleted, the delete finds it enabled exactly when the changes in between
   * leave it so.
   */
  lemma DeleteFindsEnabledIff(oracle: Oracle, s: Setting, w: World, t: Trace, d: Directory)
    requires Deletes(oracle, s, w, t) && Truthful(d, t.run.world.log)
    requires Recheck(oracle, s, t).id == t.pre.prepared.user
    ensures On(DirectoryEnd(d, t.run.world.log), t.pre.prepared.user) <==>
      LastSet(InBetween(oracle, s, t), t.pre.prepared.user) == Some(true)
  {
    var user := t.pre.prepared.user;
    var waited, checked := t.verified.world.log + [Waited(s.hold)], Checked(oracle, s, t);
    DeleteEndsTheRun(oracle, s, w, t);
    CallFinds(d, oracle, checked, DeleteUser(user));
    CallFinds(d, oracle, waited, GetUser);
    LastSetDecides(DirectoryEnd(d, checked), InBetween(oracle, s, t), user);
  }

  /**
   * In general, over all that a run's log shows: the account is surely not enabled at the
   * delete exactly when the last thing the log says of it is that it is off, which the
   * re-check says if it read that account, and otherwise the changes around it or what
   * went before must.
   */
  lemma DeletedAccountIsSurelyOffIff(oracle: Oracle, s: Setting, w: World, t: Trace, d: Directory)
    requires Deletes(oracle, s, w, t) && Truthful(d, t.run.world.log)
    ensures var user, waited := t.pre.prepared.user, t.verified.world.log + [Waited(s.hold)];
      SurelyOff(t.run.world.log, user) <==>
        match LastSet(InBetween(oracle, s, t), user)
        case Some(on) => !on
        case None =>
          || Recheck(oracle, s, t).id == user
          || (match LastSet(oracle(waited, GetUser).changes, user)
              case Some(on) => !on
              case None => Shown(t.verified.world.log, user) == Some(false))
  {
    DeleteEndsTheRun(oracle, s, w, t);
    SurelyOffIff(d, t.run.world.log, t.pre.prepared.user);
    DeleteShows(oracle, t.verified.world.log, s.hold, t.pre.prepared.user);
  }

  /** What is shown of the account at a delete by wait, re-check and delete. */
  lemma DeleteShows(oracle: Oracle, verified: Log, hold: nat, user: UserId)
    requires ReadsDisabled(Heard(oracle, verified + [Waited(hold)], GetUser))
    ensures var waited := verified + [Waited(hold)];
      var checked := Ask(oracle, waited, GetUser);
      var late := LastSet(oracle(checked, DeleteUser(user)).changes, user);
      var early := LastSet(oracle(waited, GetUser).changes, user);
      Shown(Ask(oracle, checked, DeleteUser(user)), user) ==
        if late.Some? then late
        else if Heard(oracle, waited, GetUser).id == user then Some(false)
        else if early.Some? then early
        else Shown(verified, user)
  {
    var waited := verified + [Waited(hold)];
    CallShows(oracle, Ask(oracle, waited, GetUser), DeleteUser(user), user);
    CallShows(oracle, waited, GetUser, user);
    assert waited[..|verified|] == verified;
  }

  // Two tenants on which an enabled account is deleted.

  predicate JustWaited(log: Log) {
    log != [] && log[|log| - 1].Waited?
  }

  /**
   * The user is found, disabled, and signed out.  Then, after the hold, either the name
   * has moved to a new disabled account while the old one was enabled again (`moved`), or
   * the old one is enabled again right after the re-check.
   */
  function Rehired(moved: bool): Oracle {
    (log: Log, call: Call) =>
      match call
      case GetUser =>
        if log == [] then Reply([NameBound("old"), AccountSet("old", true)], User("old", Some(true)))
        else if JustWaited(log) && moved then
          Reply([AccountSet("old", true), AccountSet("new", false), NameBound("new")], User("new", Some(false)))
        else Reply([], User("old", Some(false)))
      case GetAssignments => Reply([], Assignments([]))
      case RevokeSessions(_) => Reply([AccountSet("old", false)], Ok)
      case DeleteUser(_) => Reply(if moved then [] else [AccountSet("old", true)], Ok)
      case _ => Reply([], Ok)
  }

  /** The log of every such run up to its verification. */
  function RehiredStart(moved: bool): Log {
    var o := Rehired(moved);
    Ask(o, LockOut(o, Ask(o, Ask(o, [], GetUser), GetAssignments), "old"), GetPimSessions("old"))
  }

  /** Up to there every starting directory is told the truth, and the account is off. */
  lemma RehiredStartsTruthful(moved: bool, d: Directory)
    ensures Truthful(d, RehiredStart(moved)) && RehiredStart(moved) != []
    ensures DirectoryEnd(d, RehiredStart(moved)) == Directory(Some("old"), d.enabled["old" := false])
    ensures !JustWaited(RehiredStart(moved))
  {
    RehiredFetch(moved, d);
    var o := Rehired(moved);
    RehiredLockOut(moved, Ask(o, Ask(o, [], GetUser), GetAssignments), d);
  }

  lemma RehiredFetch(moved: bool, d: Directory)
    ensures var fetched := Ask(Rehired(moved), Ask(Rehired(moved), [], GetUser), GetAssignments);
      Truthful(d, fetched) && DirectoryEnd(d, fetched) == Directory(Some("old"), d.enabled["old" := true])
  {
    var o := Rehired(moved);
    CallFinds(d, o, [], GetUser);
    TwoChanges(d, NameBound("old"), AccountSet("old", true));
    CallFinds(d, o, Ask(o, [], GetUser), GetAssignments);
  }

  lemma RehiredLockOut(moved: bool, fetched: Log, d: Directory)
    requires Truthful(d, fetched) && DirectoryEnd(d, fetched) == Directory(Some("old"), d.enabled["old" := true])
    ensures var end := Ask(Rehired(moved), LockOut(Rehired(moved), fetched, "old"), GetPimSessions("old"));
      Truthful(d, end) && !JustWaited(end) && DirectoryEnd(d, end) == Directory(Some("old"), d.enabled["old" := false])
  {
    var o := Rehired(moved);
    var c := Ask(o, fetched, DisableUser("old"));
    var e := Ask(o, c, RevokeSessions("old"));
    CallFinds(d, o, fetched, DisableUser("old"));
    CallFinds(d, o, c, RevokeSessions("old"));
    OneChange(DirectoryEnd(d, c), AccountSet("old", false));
    CallFinds(d, o, e, GetPimSessions("old"));
    assert d.enabled["old" := true]["old" := false] == d.enabled["old" := false];
  }

  lemma OneChange(d: Directory, a: Change)
    ensures Changed(d, [a]) == DirectoryAfter(d, Tenant(a))
  {
    assert [a][..0] == [];
  }

  lemma TwoChanges(d: Directory, a: Change, b: Change)
    ensures Changed(d, [a, b]) == DirectoryAfter(DirectoryAfter(d, Tenant(a)), Tenant(b))
  {
    assert [a, b][..1] == [a] && [a][..0] == [];
    assert Changed(d, [a]) == DirectoryAfter(d, Tenant(a));
  }

  lemma RehiredIsPrepared(moved: bool, s: Setting, w: World, cleared: World)
    requires w.log == [] && ES.Claimable(ES.Find(w.rows, s.event), s.claimAt) && !s.concurrent
    requires cleared == World(w.log, Cleared(s, w))
    ensures Prepare(Rehired(moved), s, w) == FetchAndLockOut(Rehired(moved), s, cleared)
  {
  }

  lemma RehiredFetches(moved: bool, s: Setting, w: World)
    requires w.log == []
    ensures var o, pre := Rehired(moved), FetchAndLockOut(Rehired(moved), s, w);
      && pre.prepared == Ready("old", {}, map[])
      && pre.world.log == LockOut(o, Ask(o, Ask(o, [], GetUser), GetAssignments), "old")
  {
    assert Fetched([]) == {};
  }

  lemma RehiredRun(moved: bool, s: Setting, w: World, t: Trace)
    requires IsRun(Durable, Rehired(moved), s, w, t) && Iterates(s.order) && w.log == [] && s.hold > 0
    requires ES.Claimable(ES.Find(w.rows, s.event), s.claimAt) && !s.concurrent
    ensures t.pre.prepared.Ready? && t.pre.prepared.user == "old"
    ensures t.verified.end.Returned? && t.verified.world.log == Ask(Rehired(moved), RehiredStart(moved), GetUser)
  {
    var o := Rehired(moved);
    Unfold(Durable, o, s, w, t);
    RehiredIsPrepared(moved, s, w, World(w.log, Cleared(s, w)));
    RehiredFetches(moved, s, World(w.log, Cleared(s, w)));
    RehiredRemoves(moved, s, t.pre.world.log);
    RehiredConcludes(moved, s, t.pre.world.rows, t.removal);
  }

  lemma RehiredRemoves(moved: bool, s: Setting, log: Log)
    requires Iterates(s.order)
    ensures Removal(Synchronous, Rehired(moved), s, log, Ready("old", {}, map[])) == Step(log, Some([]))
  {
    NoElements(s.order({}));
    assert Elements(s.order({})) == {};
    EmptyOperation(Rehired(moved), log, map[], AdminRemove, s.window);
  }

  lemma RehiredConcludes(moved: bool, s: Setting, rows: ES.Partition, removal: Step<Option<seq<Action>>>)
    requires removal.value.Some? && s.hold > 0
    ensures var done := Conclude(Rehired(moved), s, rows, "old", removal);
      done.end.Returned? &&
      done.world.log == Ask(Rehired(moved), Ask(Rehired(moved), removal.log, GetPimSessions("old")), GetUser)
  {
    RehiredHasNoSessions(moved, removal.log);
    HeldConclusion(Rehired(moved), s, rows, "old", removal);
    RehiredIsFound(moved, TerminatePim(Rehired(moved), removal.log, "old"));
  }

  lemma RehiredHasNoSessions(moved: bool, log: Log)
    ensures TerminatePim(Rehired(moved), log, "old") == Ask(Rehired(moved), log, GetPimSessions("old"))
  {
    assert Heard(Rehired(moved), log, GetPimSessions("old")) == Ok;
  }

  lemma RehiredIsFound(moved: bool, log: Log)
    ensures Heard(Rehired(moved), log, GetUser).User?
  {
  }

  /** With a hold the conclusion is the sessions and one check. */
  lemma HeldConclusion(oracle: Oracle, s: Setting, rows: ES.Partition, user: UserId,
                       removal: Step<Option<seq<Action>>>)
    requires removal.value.Some? && s.hold > 0
    ensures var done := Conclude(oracle, s, rows, user, removal);
      done.end.Returned? && done.world.log == Ask(oracle, TerminatePim(oracle, removal.log, user), GetUser)
  {
  }

  lemma RehiredIsDeleted(moved: bool, s: Setting, w: World, t: Trace)
    requires IsRun(Durable, Rehired(moved), s, w, t) && Iterates(s.order) && w.log == [] && s.hold > 0
    requires ES.Claimable(ES.Find(w.rows, s.event), s.claimAt) && !s.concurrent
    ensures Deletes(Rehired(moved), s, w, t) && t.pre.prepared.user == "old"
    ensures Recheck(Rehired(moved), s, t).id == if moved then "new" else "old"
    ensures t.verified.world.log == Ask(Rehired(moved), RehiredStart(moved), GetUser)
  {
    RehiredRun(moved, s, w, t);
    DriversAgreeUpToDeferral(Rehired(moved), s, w, t);
    var waited := t.verified.world.log + [Waited(s.hold)];
    assert JustWaited(waited);
  }

  /**
   * The deferred delete does not spare a re-created account: on these tenants, truthful
   * from every starting directory, every durable run with a hold ends by deleting an
   * account that is enabled.  In one the re-check read another account, in the other it
   * read the right one and was overtaken.
   */
  lemma EnabledAccountsAreDeleted(moved: bool, s: Setting, w: World, t: Trace, d: Directory)
    requires IsRun(Durable, Rehired(moved), s, w, t) && Iterates(s.order) && w.log == [] && s.hold > 0
    requires ES.Claimable(ES.Find(w.rows, s.event), s.claimAt) && !s.concurrent
    ensures Deletes(Rehired(moved), s, w, t) && t.pre.prepared.user == "old"
    ensures Recheck(Rehired(moved), s, t).id == if moved then "new" else "old"
    ensures Truthful(d, t.run.world.log) && On(DirectoryEnd(d, t.run.world.log), "old")
  {
    RehiredIsDeleted(moved, s, w, t);
    DeleteEndsTheRun(Rehired(moved), s, w, t);
    RehiredStartsTruthful(moved, d);
    RehiredEnd(moved, RehiredStart(moved), s.hold, d);
  }

  /** From the verification to the delete. */
  lemma RehiredEnd(moved: bool, start: Log, hold: nat, d: Directory)
    requires start != [] && !JustWaited(start) && Truthful(d, start)
    requires DirectoryEnd(d, start) == Directory(Some("old"), d.enabled["old" := false])
    ensures var o := Rehired(moved);
      var end := Ask(o, Ask(o, Ask(o, start, GetUser) + [Waited(hold)], GetUser), DeleteUser("old"));
      Truthful(d, end) && On(DirectoryEnd(d, end), "old")
  {
    CallFinds(d, Rehired(moved), start, GetUser);
    WaitKeeps(d, Ask(Rehired(moved), start, GetUser), hold);
    RehiredDelete(moved, Ask(Rehired(moved), start, GetUser) + [Waited(hold)], d);
  }

  lemma RehiredDelete(moved: bool, waited: Log, d: Directory)
    requires JustWaited(waited) && Truthful(d, waited)
    requires DirectoryEnd(d, waited) == Directory(Some("old"), d.enabled["old" := false])
    ensures var end := Ask(Rehired(moved), Ask(Rehired(moved), waited, GetUser), DeleteUser("old"));
      Truthful(d, end) && On(DirectoryEnd(d, end), "old")
  {
    var o := Rehired(moved);
    var checked := Ask(o, waited, GetUser);
    CallFinds(d, o, waited, GetUser);
    CallFinds(d, o, checked, DeleteUser("old"));
    if moved {
      ThreeChanges(DirectoryEnd(d, waited), AccountSet("old", true), AccountSet("new", false), NameBound("new"));
    } else {
      LastSetDecides(DirectoryEnd(d, checked), [AccountSet("old", true)], "old");
    }
  }

  lemma ThreeChanges(d: Directory, a: Change, b: Change, c: Change)
    ensures Changed(d, [a, b, c]) == DirectoryAfter(DirectoryAfter(DirectoryAfter(d, Tenant(a)), Tenant(b)), Tenant(c))
  {
    assert [a, b, c][..2] == [a, b];
    TwoChanges(d, a, b);
  }

  // What the orchestration reports.

  /** A tenant on which nothing the Leaver asks for happens: the account stays enabled. */
  function Unmoved(log: Log, call: Call): Reply {
    Reply([], match call
              case GetUser => User("u", Some(true))
              case GetAssignments => Assignments([Assignment("p", "policy")])
              case _ => GraphError)
  }

  /**
   * The deferred delete's result replaces the verification's: on that tenant every
   * durable run with a hold returns success, although the account is still enabled and
   * the event row, rightly, says Failed.
   */
  lemma DeferralForgetsTheVerdict(s: Setting, w: World, t: Trace)
    requires IsRun(Durable, Unmoved, s, w, t)
    requires ES.Sorted(w.rows) && ES.Find(w.rows, s.event).None? && !s.concurrent && s.hold > 0
    ensures EndsIn(t.run, Offboarded) && EndsIn(t.verified, OffboardedPartly)
    ensures MR.RowIs(t.run.world.rows, s.event, ES.Failed, ES.Unlocked)
  {
    UnmovedIsPrepared(s, w, t);
    UnmovedIsVerified(s, w, t);
    DriversAgreeUpToDeferral(Unmoved, s, w, t);
    UnmovedIsDeferred(s, t.pre.prepared.user, t.verified);
    RowTellsTheVerdict(Durable, Unmoved, s, w, t);
  }

  predicate EndsIn(run: Outcome, final: Final) {
    run.end.Returned? && run.end.final == final
  }

  lemma UnmovedIsPrepared(s: Setting, w: World, t: Trace)
    requires IsRun(Durable, Unmoved, s, w, t)
    requires ES.Find(w.rows, s.event).None? && !s.concurrent
    ensures t.pre.prepared.Ready?
  {
    Unfold(Durable, Unmoved, s, w, t);
  }

  lemma UnmovedIsVerified(s: Setting, w: World, t: Trace)
    requires IsRun(Durable, Unmoved, s, w, t) && t.pre.prepared.Ready? && s.hold > 0
    ensures EndsIn(t.verified, OffboardedPartly)
  {
    Unfold(Durable, Unmoved, s, w, t);
    UnmovedRemoval(s, t.pre.world.log, t.pre.prepared);
    UnmovedConcludes(s, t.pre.world.rows, t.pre.prepared.user, t.removal);
  }

  lemma UnmovedRemoval(s: Setting, log: Log, r: Prepared)
    requires r.Ready?
    ensures Removal(Synchronous, Unmoved, s, log, r).value.Some?
  {
    assert Refuses(Unmoved, 0);
    NothingAcceptedNothingPolled(Unmoved, log, s.order(r.packages), r.policies, AdminRemove, s.window, 0);
  }

  lemma UnmovedConcludes(s: Setting, rows: ES.Partition, user: UserId, removal: Step<Option<seq<Action>>>)
    requires s.hold > 0 && removal.value.Some?
    ensures EndsIn(Conclude(Unmoved, s, rows, user, removal), OffboardedPartly)
  {
  }

  lemma UnmovedIsDeferred(s: Setting, user: UserId, done: Outcome)
    requires s.hold > 0 && done.end.Returned?
    ensures EndsIn(Deferred(Unmoved, s, user, done), Offboarded)
  {
  }

  /** Exactly which status a durable run with a hold returns: only a failed delete shows. */
  lemma HeldRunsReport(oracle: Oracle, s: Setting, w: World, t: Trace)
    requires IsRun(Durable, oracle, s, w, t) && t.pre.prepared.Ready? && t.run.end.Returned? && s.hold > 0
    ensures var checked := Ask(oracle, t.verified.world.log + [Waited(s.hold)], GetUser);
      t.run.end.final ==
        if ReadsDisabled(Recheck(oracle, s, t)) && Heard(oracle, checked, DeleteUser(t.pre.prepared.user)) == GraphError
        then OffboardedPartly else Offboarded
  {
    DriversAgreeUpToDeferral(oracle, s, w, t);
  }
}
