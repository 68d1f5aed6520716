/** What a Leaver run guarantees, for every tenant and under either driver. */
module LeaverTheorems {
  import opened Collections
  import opened Tenant
  import opened Phases
  import opened PollLoops
  import opened PhaseProperties
  import opened Accounts
  import opened Drivers
  import opened LeaverRun
  import opened Verifier
  import ES = EventStore
  import CQ = ConflictQueue
  import JS = JoinerStages
  import MR = MoverResults

  // The two drivers.

  /**
   * The durable Leaver is the synchronous one followed by the deferral: without a hold
   * both make the same calls, leave the same rows and return the same result.
   */
  lemma DriversAgreeUpToDeferral(oracle: Oracle, s: Setting, w: World, t: Trace)
    requires IsRun(Durable, oracle, s, w, t)
    ensures t.run == if t.pre.prepared.Ready? then Deferred(oracle, s, t.pre.prepared.user, t.verified) else t.verified
    ensures s.hold == 0 ==> t.run == t.verified
    ensures t.run.world.rows == t.verified.world.rows
  {
    Unfold(Durable, oracle, s, w, t);
    var r := t.pre.prepared;
    if r.Ready? {
      OperationsAgree(oracle, t.pre.world.log, s.order(r.packages), r.policies, AdminRemove, s.window);
    }
  }

  /** Under either driver the end is the verified state, or what a deferral made of it. */
  lemma EndsVerifiedOrDeferred(driver: Driver, oracle: Oracle, s: Setting, w: World, t: Trace)
    requires IsRun(driver, oracle, s, w, t)
    ensures t.run ==
      if driver == Durable && t.pre.prepared.Ready? then Deferred(oracle, s, t.pre.prepared.user, t.verified)
      else t.verified
  {
    if driver == Durable {
      DriversAgreeUpToDeferral(oracle, s, w, t);
    } else {
      Unfold(driver, oracle, s, w, t);
    }
  }

  // The order of writes.

  /** The log has grown, and these are its new writes. */
  ghost predicate Adds(before: Log, after: Log, calls: seq<Call>) {
    before <= after && Writes(after) == Writes(before) + calls
  }

  lemma AddsThen(a: Log, b: Log, c: Log, first: seq<Call>, second: seq<Call>)
    requires Adds(a, b, first) && Adds(b, c, second)
    ensures Adds(a, c, first + second)
  {
    Associative(Writes(a), first, second);
  }

  function CancelCalls(user: UserId, groups: seq<string>): seq<Call> {
    if groups == [] then []
    else
      var rest, last := CancelCalls(user, groups[..|groups| - 1]), groups[|groups| - 1];
      if last == "" then rest else rest + [CancelPimSession(user, last)]
  }

  lemma {:induction false} CancelWrites(oracle: Oracle, log: Log, user: UserId, groups: seq<string>)
    ensures log <= CancelAll(oracle, log, user, groups)
    ensures Writes(CancelAll(oracle, log, user, groups)) == Writes(log) + CancelCalls(user, groups)
  {
    if groups != [] {
      var init, last := groups[..|groups| - 1], groups[|groups| - 1];
      CancelWrites(oracle, log, user, init);
      WritesOfAsk(oracle, CancelAll(oracle, log, user, init), CancelPimSession(user, last));
      Associative(Writes(log), CancelCalls(user, init), [CancelPimSession(user, last)]);
    }
  }

  /** The PIM sessions the tenant listed when asked; none if it did not answer. */
  function SessionsListed(oracle: Oracle, log: Log, user: UserId): seq<string> {
    match Heard(oracle, log, GetPimSessions(user))
    case Sessions(groups) => groups
    case _ => []
  }

  lemma TerminateWrites(oracle: Oracle, log: Log, user: UserId)
    ensures log <= TerminatePim(oracle, log, user)
    ensures Writes(TerminatePim(oracle, log, user)) ==
      Writes(log) + CancelCalls(user, SessionsListed(oracle, log, user))
  {
    var asked := Ask(oracle, log, GetPimSessions(user));
    ReadCall(oracle, log, GetPimSessions(user));
    match Heard(oracle, log, GetPimSessions(user))
    case Sessions(all) =>
      CancelWrites(oracle, asked, user, all);
      assert TerminatePim(oracle, log, user) == CancelAll(oracle, asked, user, all);
    case _ =>
      assert TerminatePim(oracle, log, user) == asked;
  }

  function DeletedNow(user: UserId, hold: nat): seq<Call> {
    if hold == 0 then [DeleteUser(user)] else []
  }

  lemma EndWrites(oracle: Oracle, log: Log, user: UserId, hold: nat)
    ensures var deletion := SoftDelete(oracle, TerminatePim(oracle, log, user), user, hold);
      Adds(log, CheckAccount(oracle, deletion.log, deletion.value).log,
           CancelCalls(user, SessionsListed(oracle, log, user)) + DeletedNow(user, hold))
  {
    var cancels := CancelCalls(user, SessionsListed(oracle, log, user));
    TerminateWrites(oracle, log, user);
    var terminated := TerminatePim(oracle, log, user);
    WritesOfAsk(oracle, terminated, DeleteUser(user));
    var deletion := SoftDelete(oracle, terminated, user, hold);
    assert Adds(terminated, deletion.log, DeletedNow(user, hold));
    AddsThen(log, terminated, deletion.log, cancels, DeletedNow(user, hold));
    ReadCall(oracle, deletion.log, GetUser);
  }

  /** The deferred part deletes exactly when its re-check reads disabled, and then once. */
  lemma DeferredWrites(oracle: Oracle, log: Log, user: UserId)
    ensures var after := DeferredDelete(oracle, log, user).log;
      && log <= after
      && Writes(after) == Writes(log) + if ReadsDisabled(Heard(oracle, log, GetUser)) then [DeleteUser(user)] else []
  {
    var checked := Ask(oracle, log, GetUser);
    WritesOfAsk(oracle, log, GetUser);
    WritesOfAsk(oracle, checked, DeleteUser(user));
  }

  lemma LockOutWrites(oracle: Oracle, log: Log, user: UserId)
    ensures log <= LockOut(oracle, log, user)
    ensures Writes(LockOut(oracle, log, user)) == Writes(log) + [DisableUser(user), RevokeSessions(user)]
  {
    WritesOfAsk(oracle, log, DisableUser(user));
    WritesOfAsk(oracle, Ask(oracle, log, DisableUser(user)), RevokeSessions(user));
    Associative(Writes(log), [DisableUser(user)], [RevokeSessions(user)]);
    assert [DisableUser(user)] + [RevokeSessions(user)] == [DisableUser(user), RevokeSessions(user)];
  }

  /** What a prepared run has written: disable and revoke if it goes on, nothing otherwise. */
  function LockOutCalls(prepared: Prepared): seq<Call> {
    match prepared
    case Exited(_) => []
    case Ready(user, _, _) => [DisableUser(user), RevokeSessions(user)]
  }

  lemma FetchPackagesWrites(oracle: Oracle, s: Setting, w: World, user: UserId)
    ensures var pre := FetchPackages(oracle, s, w, user);
      w.log <= pre.world.log && Writes(pre.world.log) == Writes(w.log) + LockOutCalls(pre.prepared)
  {
    var fetched := Ask(oracle, w.log, GetAssignments);
    ReadCall(oracle, w.log, GetAssignments);
    LockOutWrites(oracle, fetched, user);
  }

  lemma FetchWrites(oracle: Oracle, s: Setting, w: World)
    ensures var pre := FetchAndLockOut(oracle, s, w);
      w.log <= pre.world.log && Writes(pre.world.log) == Writes(w.log) + LockOutCalls(pre.prepared)
  {
    var asked := Ask(oracle, w.log, GetUser);
    ReadCall(oracle, w.log, GetUser);
    match Heard(oracle, w.log, GetUser)
    case User(user, _) => FetchPackagesWrites(oracle, s, World(asked, w.rows), user);
    case _ =>
  }

  lemma PrepareWrites(oracle: Oracle, s: Setting, w: World)
    ensures var pre := Prepare(oracle, s, w);
      w.log <= pre.world.log && Writes(pre.world.log) == Writes(w.log) + LockOutCalls(pre.prepared)
  {
    var claimed := ES.Claim(w.rows, s.event, ES.Leaver, s.claimAt);
    FetchWrites(oracle, s, World(w.log, CQ.AfterConflict(claimed, s.event, ES.Leaver, s.conflictAt)));
  }

  lemma RemovalWrites(oracle: Oracle, s: Setting, log: Log, r: Prepared)
    requires r.Ready?
    ensures Adds(log, Removal(Synchronous, oracle, s, log, r).log, RemovalRequests(s.order(r.packages), r.policies))
  {
    OperationWrites(oracle, log, s.order(r.packages), r.policies, AdminRemove, s.window);
    SubmitRemovalsWrites(oracle, log, s.order(r.packages), r.policies);
  }

  /** What a run that got past its lock-out writes before any deferral. */
  function MainWrites(r: Prepared, s: Setting, groups: seq<string>): seq<Call>
    requires r.Ready?
  {
    LockOutCalls(r) + RemovalRequests(s.order(r.packages), r.policies)
    + (CancelCalls(r.user, groups) + DeletedNow(r.user, s.hold))
  }

  /** Up to the removals: disable, revoke, then one request per package. */
  lemma FirstWrites(driver: Driver, oracle: Oracle, s: Setting, w: World, t: Trace)
    requires IsRun(driver, oracle, s, w, t) && t.pre.prepared.Ready?
    ensures var r := t.pre.prepared;
      Adds(w.log, t.removal.log, LockOutCalls(r) + RemovalRequests(s.order(r.packages), r.policies))
  {
    Unfold(driver, oracle, s, w, t);
    var r := t.pre.prepared;
    PrepareWrites(oracle, s, w);
    RemovalWrites(oracle, s, t.pre.world.log, r);
    AddsThen(w.log, t.pre.world.log, t.removal.log, LockOutCalls(r), RemovalRequests(s.order(r.packages), r.policies));
  }

  /** The log right after `verify_finalize`, which for the synchronous driver is the end. */
  lemma VerifiedWrites(driver: Driver, oracle: Oracle, s: Setting, w: World, t: Trace)
    requires IsRun(driver, oracle, s, w, t) && t.pre.prepared.Ready? && t.verified.end.Returned?
    ensures Adds(w.log, t.verified.world.log, MainWrites(t.pre.prepared, s, Groups(oracle, t)))
  {
    Unfold(driver, oracle, s, w, t);
    var r := t.pre.prepared;
    FirstWrites(driver, oracle, s, w, t);
    EndWrites(oracle, t.removal.log, r.user, s.hold);
    AddsThen(w.log, t.removal.log, t.verified.world.log,
             LockOutCalls(r) + RemovalRequests(s.order(r.packages), r.policies),
             CancelCalls(r.user, Groups(oracle, t)) + DeletedNow(r.user, s.hold));
  }

  /** The sessions a run found once its removals were over. */
  function Groups(oracle: Oracle, t: Trace): seq<string>
    requires t.pre.prepared.Ready?
  {
    SessionsListed(oracle, t.removal.log, t.pre.prepared.user)
  }

  /** The answer to the re-check that follows the hold. */
  function Recheck(oracle: Oracle, s: Setting, t: Trace): Answer {
    Heard(oracle, t.verified.world.log + [Waited(s.hold)], GetUser)
  }

  /** The delete, if any, of the deferred part. */
  function DeletedLater(driver: Driver, oracle: Oracle, s: Setting, t: Trace): seq<Call>
    requires t.pre.prepared.Ready?
  {
    if driver == Durable && s.hold > 0 && ReadsDisabled(Recheck(oracle, s, t)) then [DeleteUser(t.pre.prepared.user)]
    else []
  }

  /**
   * Everything a returning run writes, in order: disable, revoke, one removal request
   * for every package held at the start, a cancellation of every PIM session the tenant
   * then listed, and at most one delete, which is the immediate one without a hold and
   * otherwise the deferred one, made only by the durable driver and only if the re-check
   * reads the account as disabled.
   */
  lemma WritesInOrder(driver: Driver, oracle: Oracle, s: Setting, w: World, t: Trace)
    requires IsRun(driver, oracle, s, w, t) && t.pre.prepared.Ready? && t.run.end.Returned?
    ensures Adds(w.log, t.run.world.log,
                 MainWrites(t.pre.prepared, s, Groups(oracle, t)) + DeletedLater(driver, oracle, s, t))
  {
    EndsVerifiedOrDeferred(driver, oracle, s, w, t);
    VerifiedWrites(driver, oracle, s, w, t);
    var waited := t.verified.world.log + [Waited(s.hold)];
    WritesOfWait(t.verified.world.log, s.hold);
    DeferredWrites(oracle, waited, t.pre.prepared.user);
    assert Adds(t.verified.world.log, t.run.world.log, DeletedLater(driver, oracle, s, t));
    AddsThen(w.log, t.verified.world.log, t.run.world.log,
             MainWrites(t.pre.prepared, s, Groups(oracle, t)), DeletedLater(driver, oracle, s, t));
  }

  /** A run that exits early writes nothing; one that raises has locked the account out first. */
  lemma OtherRunsWrite(driver: Driver, oracle: Oracle, s: Setting, w: World, t: Trace)
    requires IsRun(driver, oracle, s, w, t)
    ensures t.pre.prepared.Exited? ==> Writes(t.run.world.log) == Writes(w.log)
    ensures t.run.end.Raised? ==> (
      && t.pre.prepared.Ready?
      && Adds(w.log, t.run.world.log,
              LockOutCalls(t.pre.prepared) +
              RemovalRequests(s.order(t.pre.prepared.packages), t.pre.prepared.policies)))
  {
    EndsVerifiedOrDeferred(driver, oracle, s, w, t);
    Unfold(driver, oracle, s, w, t);
    if t.pre.prepared.Exited? {
      PrepareWrites(oracle, s, w);
    } else {
      FirstWrites(driver, oracle, s, w, t);
    }
  }

  // Removed and failed.

  lemma {:induction false} WithIs(actions: seq<Action>, ok: bool, p: Package)
    ensures p in With(actions, ok) <==>
      exists i :: 0 <= i < |actions| && actions[i].package == p && actions[i].succeeded == ok
    ensures |With(actions, true)| + |With(actions, false)| == |actions|
  {
    if actions != [] {
      WithIs(actions[..|actions| - 1], ok, p);
    }
  }

  /** The removed and the failed list split the packages held at the start, without overlap. */
  ghost predicate Splits(packages: set<Package>, removed: seq<Package>, failed: seq<Package>) {
    && Elements(removed) + Elements(failed) == packages
    && Elements(removed) !! Elements(failed)
    && |removed| + |failed| == |packages|
  }

  lemma ActionsSplit(actions: seq<Action>, order: seq<Package>, packages: set<Package>)
    requires NoDuplicates(order) && Elements(order) == packages && |actions| == |order|
    requires forall i :: 0 <= i < |order| ==> actions[i].package == order[i]
    ensures Splits(packages, With(actions, true), With(actions, false))
    ensures With(actions, false) == [] ==> AllSucceeded(actions)
  {
    var removed, failed := With(actions, true), With(actions, false);
    forall p ensures p in removed <==> exists i :: 0 <= i < |order| && order[i] == p && actions[i].succeeded {
      WithIs(actions, true, p);
    }
    forall p ensures p in failed <==> exists i :: 0 <= i < |order| && order[i] == p && !actions[i].succeeded {
      WithIs(actions, false, p);
    }
    forall p | p in packages ensures p in removed || p in failed {
      var i :| 0 <= i < |order| && order[i] == p;
      assert actions[i].succeeded || !actions[i].succeeded;
    }
    WithIs(actions, true, "");
    DistinctCount(order);
    forall i | 0 <= i < |actions| && failed == [] ensures actions[i].succeeded {
      assert order[i] !in failed;
    }
  }

  lemma {:induction false} DistinctCount(xs: seq<Package>)
    requires NoDuplicates(xs)
    ensures |Elements(xs)| == |xs|
  {
    if xs != [] {
      var init, last := xs[..|xs| - 1], xs[|xs| - 1];
      DistinctCount(init);
      assert xs == init + [last];
      assert Elements(xs) == Elements(init) + {last};
    }
  }

  /** Every returning run accounts for every package it found. */
  lemma PackagesAreAccountedFor(driver: Driver, oracle: Oracle, s: Setting, w: World, t: Trace)
    requires IsRun(driver, oracle, s, w, t) && Iterates(s.order)
    requires t.pre.prepared.Ready? && t.run.end.Returned?
    ensures Splits(t.pre.prepared.packages, t.run.end.removed, t.run.end.failed)
  {
    EndsVerifiedOrDeferred(driver, oracle, s, w, t);
    Unfold(driver, oracle, s, w, t);
    var r := t.pre.prepared;
    OperationIsExact(oracle, t.pre.world.log, s.order(r.packages), r.policies, AdminRemove, s.window);
    ActionsSplit(t.removal.value.value, s.order(r.packages), r.packages);
  }

  // What success means.

  /**
   * From position `from` on the log shows the account's delete accepted, or ends with a
   * reading by name of an account as disabled.
   */
  ghost predicate ClosedAfter(log: Log, from: nat, user: UserId) {
    || (exists k ::
          from <= k < |log| && log[k].Engine? && log[k].call == DeleteUser(user) && !log[k].answer.GraphError?)
    || EndsReadDisabled(log, from)
  }

  ghost predicate EndsReadDisabled(log: Log, from: nat) {
    from < |log| && var last := log[|log| - 1]; last.Engine? && last.call == GetUser && ReadsDisabled(last.answer)
  }

  lemma CancelCallsAre(user: UserId, groups: seq<string>, call: Call)
    requires call in CancelCalls(user, groups)
    ensures call.CancelPimSession? && call.user == user && call.group != "" && call.group in groups
  {
    if groups != [] {
      var init, last := groups[..|groups| - 1], groups[|groups| - 1];
      if call in CancelCalls(user, init) {
        CancelCallsAre(user, init, call);
      }
    }
  }

  lemma MainRequestsAreRemovals(r: Prepared, s: Setting, groups: seq<string>, call: Call)
    requires r.Ready? && call in MainWrites(r, s, groups) && call.RequestAssignment?
    ensures call.kind == AdminRemove
  {
    if call in CancelCalls(r.user, groups) {
      CancelCallsAre(r.user, groups, call);
    } else {
      var requests := RemovalRequests(s.order(r.packages), r.policies);
      assert call in requests;
      var i :| 0 <= i < |requests| && requests[i] == call;
    }
  }

  /** A run asks for no addition; one in its log was asked for earlier. */
  lemma OnlyRemovalsRequested(driver: Driver, oracle: Oracle, s: Setting, w: World, t: Trace, k: nat, p: Package)
    requires IsRun(driver, oracle, s, w, t)
    requires t.pre.prepared.Ready? && t.verified.end.Returned? && k < |t.verified.world.log|
    ensures Requests(t.verified.world.log[k], p, AdminAdd) ==> p in Asked(w.log, AdminAdd)
  {
    var log := t.verified.world.log;
    VerifiedWrites(driver, oracle, s, w, t);
    var calls := MainWrites(t.pre.prepared, s, Groups(oracle, t));
    if Requests(log[k], p, AdminAdd) {
      if k < |w.log| {
        assert w.log[k] == log[k];
        RequestIsAsked(w.log, AdminAdd, k, p);
      } else {
        SuffixWrites(w.log, log, calls, k);
        MainRequestsAreRemovals(t.pre.prepared, s, Groups(oracle, t), log[k].call);
      }
    }
  }

  /**
   * What success rests on: every package confirmed removed and, after the removals, the
   * account confirmed closed.
   */
  lemma SuccessIsShown(driver: Driver, oracle: Oracle, s: Setting, w: World, t: Trace)
    requires IsRun(driver, oracle, s, w, t) && Iterates(s.order) && t.pre.prepared.Ready?
    requires t.verified.end.Returned? && t.verified.end.final == Offboarded
    ensures ClosedAfter(t.verified.world.log, |t.removal.log|, t.pre.prepared.user)
    ensures forall p :: p in t.pre.prepared.packages ==> RemovalConfirmed(t.verified.world.log, p)
  {
    Unfold(driver, oracle, s, w, t);
    var r, log := t.pre.prepared, t.verified.world.log;
    var order := s.order(r.packages);
    OperationIsExact(oracle, t.pre.world.log, order, r.policies, AdminRemove, s.window);
    ActionsSplit(t.removal.value.value, order, r.packages);
    EndWrites(oracle, t.removal.log, r.user, s.hold);
    forall p | p in r.packages ensures RemovalConfirmed(log, p) {
      assert Confirmed(t.removal.log, p, AdminRemove);
      ConfirmedGrows(t.removal.log, log, p, AdminRemove);
    }
    TerminateWrites(oracle, t.removal.log, r.user);
    ClosedShows(oracle, TerminatePim(oracle, t.removal.log, r.user), r.user, s.hold, |t.removal.log|);
  }

  lemma ClosedShows(oracle: Oracle, log: Log, user: UserId, hold: nat, from: nat)
    requires from <= |log|
    requires var deletion := SoftDelete(oracle, log, user, hold);
      var check := CheckAccount(oracle, deletion.log, deletion.value).value;
      check.Some? && (check.value || deletion.value)
    ensures var deletion := SoftDelete(oracle, log, user, hold);
      ClosedAfter(CheckAccount(oracle, deletion.log, deletion.value).log, from, user)
  {
    var deletion := SoftDelete(oracle, log, user, hold);
    var after := CheckAccount(oracle, deletion.log, deletion.value).log;
    if deletion.value {
      var k := |deletion.log| - 1;
      assert after[k] == deletion.log[k] == Engine(DeleteUser(user), Heard(oracle, log, DeleteUser(user)));
    } else {
      assert after[|after| - 1] == Engine(GetUser, Heard(oracle, deletion.log, GetUser));
    }
  }

  /**
   * Offboarding soundness: when the verification ends in success, nothing that was
   * assigned at the start is still held, unless an earlier run asked to add it, and, after
   * the removals, the account's delete was accepted or an account read as disabled, on
   * every tenant where deliveries and empty lookups are real and nobody else grants.
   */
  lemma SuccessMeansGone(driver: Driver, oracle: Oracle, s: Setting, w: World, t: Trace, start: set<Package>)
    requires IsRun(driver, oracle, s, w, t) && Iterates(s.order) && t.pre.prepared.Ready?
    requires t.verified.end.Returned? && t.verified.end.final == Offboarded
    requires Grounded(start, t.verified.world.log) && LookupsComplete(start, t.verified.world.log)
    ensures ClosedAfter(t.verified.world.log, |t.removal.log|, t.pre.prepared.user)
    ensures var log := t.verified.world.log;
      t.pre.prepared.packages - Asked(w.log, AdminAdd) !! Held(start, log, |log|)
  {
    var r, log := t.pre.prepared, t.verified.world.log;
    SuccessIsShown(driver, oracle, s, w, t);
    forall p | p in r.packages - Asked(w.log, AdminAdd) ensures p !in Held(start, log, |log|) {
      forall k | 0 <= k < |log| ensures !Requests(log[k], p, AdminAdd) {
        OnlyRemovalsRequested(driver, oracle, s, w, t, k, p);
      }
      TakeAll(log);
      ConfirmedRemovalIsGone(start, log, p, |log|, |log|);
    }
  }

  // Retries.

  lemma NoAdditionAmong(before: Log, after: Log, calls: seq<Call>)
    requires Adds(before, after, calls)
    requires forall call :: call in calls && call.RequestAssignment? ==> call.kind == AdminRemove
    ensures Asked(after, AdminAdd) == Asked(before, AdminAdd)
  {
    forall p | p in Asked(after, AdminAdd) ensures p in Asked(before, AdminAdd) {
      var k := AskedSomewhere(after, AdminAdd, p);
      if k < |before| {
        assert before[k] == after[k];
        RequestIsAsked(before, AdminAdd, k, p);
      } else {
        SuffixWrites(before, after, calls, k);
      }
    }
    forall p | p in Asked(before, AdminAdd) ensures p in Asked(after, AdminAdd) {
      var k := AskedSomewhere(before, AdminAdd, p);
      assert before[k] == after[k];
      RequestIsAsked(after, AdminAdd, k, p);
    }
  }

  /** However it ends, a Leaver run asks to add nothing. */
  lemma LeaversAddNothing(driver: Driver, oracle: Oracle, s: Setting, w: World, t: Trace)
    requires IsRun(driver, oracle, s, w, t)
    ensures Asked(t.run.world.log, AdminAdd) == Asked(w.log, AdminAdd)
  {
    var r := t.pre.prepared;
    if r.Exited? {
      EndsVerifiedOrDeferred(driver, oracle, s, w, t);
      Unfold(driver, oracle, s, w, t);
      PrepareWrites(oracle, s, w);
      NoAdditionAmong(w.log, t.run.world.log, []);
    } else {
      var groups := Groups(oracle, t);
      forall call | call in MainWrites(r, s, groups) && call.RequestAssignment? ensures call.kind == AdminRemove {
        MainRequestsAreRemovals(r, s, groups, call);
      }
      if t.run.end.Raised? {
        OtherRunsWrite(driver, oracle, s, w, t);
        NoAdditionAmong(w.log, t.run.world.log, LockOutCalls(r) + RemovalRequests(s.order(r.packages), r.policies));
      } else {
        WritesInOrder(driver, oracle, s, w, t);
        NoAdditionAmong(w.log, t.run.world.log, MainWrites(r, s, groups) + DeletedLater(driver, oracle, s, t));
      }
    }
  }

  datatype Attempt = Attempt(driver: Driver, setting: Setting)

  /** One Leaver run after another, each starting from what the last one left. */
  function Repeat(oracle: Oracle, attempts: seq<Attempt>, w: World): World {
    if attempts == [] then w
    else
      var before := Repeat(oracle, attempts[..|attempts| - 1], w);
      var last := attempts[|attempts| - 1];
      Run(last.driver, oracle, last.setting, before).world
  }

  lemma {:induction false} RetriesAddNothing(oracle: Oracle, attempts: seq<Attempt>, w: World)
    ensures Asked(Repeat(oracle, attempts, w).log, AdminAdd) == Asked(w.log, AdminAdd)
  {
    if attempts != [] {
      var last, before := attempts[|attempts| - 1], Repeat(oracle, attempts[..|attempts| - 1], w);
      RetriesAddNothing(oracle, attempts[..|attempts| - 1], w);
      var t := TraceOf(last.driver, oracle, last.setting, before);
      LeaversAddNothing(last.driver, oracle, last.setting, before, t);
      Unfold(last.driver, oracle, last.setting, before, t);
    }
  }

  /**
   * A retry means the same: after any number of Leaver runs, failed or raised, the first
   * that ends in success leaves nothing that it found assigned, unless it was asked for
   * before the first of them.
   */
  lemma RetriedSuccessMeansGone(oracle: Oracle, attempts: seq<Attempt>, first: World, last: Attempt, w: World, t: Trace,
                                start: set<Package>)
    requires w == Repeat(oracle, attempts, first) && IsRun(last.driver, oracle, last.setting, w, t)
    requires Iterates(last.setting.order) && t.pre.prepared.Ready?
    requires t.verified.end.Returned? && t.verified.end.final == Offboarded
    requires Grounded(start, t.verified.world.log) && LookupsComplete(start, t.verified.world.log)
    ensures var log := t.verified.world.log;
      t.pre.prepared.packages - Asked(first.log, AdminAdd) !! Held(start, log, |log|)
  {
    RetriesAddNothing(oracle, attempts, first);
    SuccessMeansGone(last.driver, oracle, last.setting, w, t, start);
  }

  /**
   * Whose account the last reading is about: the lookup goes by name.  On a truthful
   * directory a log ending with such a reading shows the user's account to be off if the
   * answer carries the user's id; if it carries another, the account is surely off exactly
   * when what the log last said of it before is that.
   */
  lemma ReadingIsAboutTheUserIff(log: Log, from: nat, user: UserId, d: Directory)
    requires EndsReadDisabled(log, from) && Truthful(d, log)
    ensures SurelyOff(log, user) <==>
      log[|log| - 1].answer.id == user || Shown(log[..|log| - 1], user) == Some(false)
  {
    SurelyOffIff(d, log, user);
  }

  // The event row.

  /** A prepared run raises exactly when the last thing it did was a lookup that was not answered. */
  lemma RaisesIff(driver: Driver, oracle: Oracle, s: Setting, w: World, t: Trace)
    requires IsRun(driver, oracle, s, w, t)
    ensures t.run.end.Raised? <==> t.pre.prepared.Ready? && EndsInFailedLookup(t.run.world.log)
    ensures t.run.end.Raised? <==> t.verified.end.Raised?
  {
    EndsVerifiedOrDeferred(driver, oracle, s, w, t);
    Unfold(driver, oracle, s, w, t);
    var r := t.pre.prepared;
    if r.Ready? {
      OperationRaises(oracle, t.pre.world.log, s.order(r.packages), r.policies, AdminRemove, s.window);
      ConclusionsEndChecked(oracle, s, t.pre.world.rows, r.user, t.removal);
      DeferralsEndChecked(oracle, t.verified.world.log + [Waited(s.hold)], r.user);
    }
  }

  lemma ConclusionsEndChecked(oracle: Oracle, s: Setting, rows: ES.Partition, user: UserId,
                              removal: Step<Option<seq<Action>>>)
    ensures var done := Conclude(oracle, s, rows, user, removal);
      && (done.end.Raised? <==> removal.value.None?)
      && (done.end.Raised? ==> done.world.log == removal.log)
      && (done.end.Returned? ==> !EndsInFailedLookup(done.world.log))
  {
  }

  lemma DeferralsEndChecked(oracle: Oracle, log: Log, user: UserId)
    ensures !EndsInFailedLookup(DeferredDelete(oracle, log, user).log)
  {
  }

  /**
   * The row of a prepared run is unlocked and Completed exactly when the verification
   * succeeded, Failed otherwise, under both drivers, unless the last thing the run did was
   * a lookup that was not answered: then it stays locked and Processing.
   */
  lemma RowTellsTheVerdict(driver: Driver, oracle: Oracle, s: Setting, w: World, t: Trace)
    requires IsRun(driver, oracle, s, w, t) && ES.Sorted(w.rows) && t.pre.prepared.Ready?
    ensures if EndsInFailedLookup(t.run.world.log) then
        MR.RowIs(t.run.world.rows, s.event, ES.Processing, ES.LockedAt(s.lockAt)) && t.run.end.Raised?
      else
        && t.verified.end.Returned?
        && MR.RowIs(t.run.world.rows, s.event,
             if t.verified.end.final == Offboarded then ES.Completed else ES.Failed, ES.Unlocked)
  {
    RaisesIff(driver, oracle, s, w, t);
    EndsVerifiedOrDeferred(driver, oracle, s, w, t);
    Unfold(driver, oracle, s, w, t);
    LockedAfterPrepare(oracle, s, w);
    ConcludedRow(oracle, s, t.pre.world.rows, t.pre.prepared.user, t.removal);
  }

  lemma FalteringFetches(s: Setting, w: World)
    ensures var r := FetchAndLockOut(Faltering, s, w).prepared; r.Ready? && r.packages == {"p"}
  {
    var all := [Assignment("p", "policy")];
    assert Fetched(all) == {"p"} by {
      assert all[0] in all;
    }
  }

  lemma FalteringIsPrepared(s: Setting, w: World)
    requires ES.Claimable(ES.Find(w.rows, s.event), s.claimAt) && !s.concurrent
    ensures var r := Prepare(Faltering, s, w).prepared; r.Ready? && r.packages == {"p"}
  {
    FalteringFetches(s, World(w.log, Cleared(s, w)));
    assert Prepare(Faltering, s, w) == FetchAndLockOut(Faltering, s, World(w.log, Cleared(s, w)));
  }

  /**
   * So the lock is not always released, whatever the window: on a tenant where one
   * package is held, its removal is accepted and then every lookup fails, every run under
   * either driver raises and leaves its row locked and Processing.
   */
  lemma FailedLookupStrandsTheRun(driver: Driver, s: Setting, w: World, t: Trace)
    requires IsRun(driver, Faltering, s, w, t) && ES.Sorted(w.rows) && Iterates(s.order)
    requires ES.Claimable(ES.Find(w.rows, s.event), s.claimAt) && !s.concurrent
    ensures t.run.end.Raised? && MR.RowIs(t.run.world.rows, s.event, ES.Processing, ES.LockedAt(s.lockAt))
  {
    Unfold(driver, Faltering, s, w, t);
    FalteringIsPrepared(s, w);
    assert Elements(s.order({"p"})) == {"p"};
    OnlyElement(s.order({"p"}), "p");
    FalteringRemovalRaises(t.pre.world.log, "p", t.pre.prepared.policies, s.window);
    ConclusionsEndChecked(Faltering, s, t.pre.world.rows, t.pre.prepared.user, t.removal);
    RaisesIff(driver, Faltering, s, w, t);
    RowTellsTheVerdict(driver, Faltering, s, w, t);
  }

  lemma ConcludedRow(oracle: Oracle, s: Setting, rows: ES.Partition, user: UserId, removal: Step<Option<seq<Action>>>)
    requires ES.Sorted(rows) && MR.RowIs(rows, s.event, ES.Processing, ES.LockedAt(s.lockAt))
    ensures var done := Conclude(oracle, s, rows, user, removal);
      match done.end
      case Raised => done.world.rows == rows
      case Returned(final, _, _) =>
        MR.RowIs(done.world.rows, s.event, if final == Offboarded then ES.Completed else ES.Failed, ES.Unlocked)
  {
    MR.EndedRow(rows, s.event, ES.Completed, "");
    MR.EndedRow(rows, s.event, ES.Failed, "");
    MR.EndedRow(rows, s.event, ES.Failed, "PostOffboardVerification");
  }

  lemma AcquiredRow(rows: ES.Partition, s: Setting)
    requires ES.Sorted(rows) && ES.Find(rows, s.event).Some?
    ensures var locked := ES.Acquire(rows, s.event, s.holder, s.lockAt);
      ES.Sorted(locked) && MR.RowIs(locked, s.event, ES.Processing, ES.LockedAt(s.lockAt))
  {
    var row := ES.Find(rows, s.event).value;
    ES.FindPut(rows, row.(status := ES.Processing, lock := ES.LockedAt(s.lockAt), holder := s.holder), s.event);
  }

  /** The rows once the event is claimed and the pending ones are superseded. */
  function Cleared(s: Setting, w: World): ES.Partition {
    CQ.AfterConflict(ES.Claim(w.rows, s.event, ES.Leaver, s.claimAt), s.event, ES.Leaver, s.conflictAt)
  }

  lemma ClearedRow(s: Setting, w: World)
    requires ES.Sorted(w.rows) && ES.Claimable(ES.Find(w.rows, s.event), s.claimAt)
    ensures ES.Sorted(Cleared(s, w)) && MR.RowIs(Cleared(s, w), s.event, ES.Pending, ES.Unlocked)
  {
    ES.ClaimEffect(w.rows, s.event, ES.Leaver, s.claimAt, s.event);
    ClaimKeepsOrder(w.rows, s.event, s.claimAt);
    CQ.SupersedeIsExact(ES.Claim(w.rows, s.event, ES.Leaver, s.claimAt), s.event, s.conflictAt, s.event);
  }

  /** A prepared run's rows: claimed, cleared of pending events, and locked. */
  lemma PreparedRows(oracle: Oracle, s: Setting, w: World)
    requires Prepare(oracle, s, w).prepared.Ready?
    ensures ES.Claimable(ES.Find(w.rows, s.event), s.claimAt)
    ensures Prepare(oracle, s, w).world.rows == ES.Acquire(Cleared(s, w), s.event, s.holder, s.lockAt)
  {
    assert Prepare(oracle, s, w) == FetchAndLockOut(oracle, s, World(w.log, Cleared(s, w)));
  }

  lemma LockedAfterPrepare(oracle: Oracle, s: Setting, w: World)
    requires ES.Sorted(w.rows) && Prepare(oracle, s, w).prepared.Ready?
    ensures var rows := Prepare(oracle, s, w).world.rows;
      ES.Sorted(rows) && MR.RowIs(rows, s.event, ES.Processing, ES.LockedAt(s.lockAt))
  {
    PreparedRows(oracle, s, w);
    ClearedRow(s, w);
    AcquiredRow(Cleared(s, w), s);
  }

  /** By the time a Leaver touches the tenant, nothing else of the employee is pending. */
  lemma NothingElseIsPending(driver: Driver, oracle: Oracle, s: Setting, w: World, t: Trace, other: ES.EventId)
    requires IsRun(driver, oracle, s, w, t) && ES.Sorted(w.rows) && t.pre.prepared.Ready? && other != s.event
    ensures var found := ES.Find(t.pre.world.rows, other); found.Some? ==> found.value.status != ES.Pending
  {
    Unfold(driver, oracle, s, w, t);
    PreparedRows(oracle, s, w);
    ClearedRow(s, w);
    ClearedOfPending(s, w, other);
    var row := ES.Find(Cleared(s, w), s.event).value;
    ES.FindPut(Cleared(s, w), row.(status := ES.Processing, lock := ES.LockedAt(s.lockAt), holder := s.holder), other);
  }

  lemma ClearedOfPending(s: Setting, w: World, other: ES.EventId)
    requires ES.Sorted(w.rows) && ES.Claimable(ES.Find(w.rows, s.event), s.claimAt) && other != s.event
    ensures var found := ES.Find(Cleared(s, w), other); found.Some? ==> found.value.status != ES.Pending
  {
    ClaimKeepsOrder(w.rows, s.event, s.claimAt);
    CQ.SupersedeIsExact(ES.Claim(w.rows, s.event, ES.Leaver, s.claimAt), s.event, s.conflictAt, other);
  }
}
