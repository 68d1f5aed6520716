/**
 * Accounts and the user name that leads to one of them, as a log of the tenant moves
 * them.  What a call brings about follows it in the log, so the directory at a call is
 * the one the call finds.
 */
module Accounts {
  import opened Collections
  import opened Tenant

  /** Which account the user name leads to, and which accounts exist and are enabled. */
  datatype Directory = Directory(bound: Option<UserId>, enabled: map<UserId, bool>)

  predicate On(d: Directory, user: UserId) {
    user in d.enabled && d.enabled[user]
  }

  function DirectoryAfter(d: Directory, event: Event): Directory {
    match event
    case Tenant(AccountSet(user, on)) => d.(enabled := d.enabled[user := on])
    case Tenant(AccountRemoved(user)) =>
      Directory(if d.bound == Some(user) then None else d.bound, d.enabled - {user})
    case Tenant(NameBound(user)) => d.(bound := Some(user))
    case _ => d
  }

  ghost function DirectoryAt(d: Directory, log: Log, n: nat): Directory
    requires n <= |log|
  {
    if n == 0 then d else DirectoryAfter(DirectoryAt(d, log, n - 1), log[n - 1])
  }

  ghost function DirectoryEnd(d: Directory, log: Log): Directory {
    DirectoryAt(d, log, |log|)
  }

  function Changed(d: Directory, changes: seq<Change>): Directory {
    if changes == [] then d
    else DirectoryAfter(Changed(d, changes[..|changes| - 1]), Tenant(changes[|changes| - 1]))
  }

  /** What a lookup by name may truthfully say. */
  predicate Reads(d: Directory, answer: Answer) {
    answer.User? ==>
      && d.bound == Some(answer.id)
      && answer.id in d.enabled
      && (answer.enabled.Some? ==> answer.enabled.value == d.enabled[answer.id])
  }

  ghost predicate Truthful(d: Directory, log: Log) {
    forall i :: 0 <= i < |log| && log[i].Engine? && log[i].call == GetUser ==>
      Reads(DirectoryAt(d, log, i), log[i].answer)
  }

  /** A reading of the account the name leads to as disabled. */
  predicate ReadsDisabled(answer: Answer) {
    answer.User? && answer.enabled == Some(false)
  }

  // One call.

  lemma {:induction false} SameDirectory(d: Directory, log: Log, more: Log, n: nat)
    requires log <= more && n <= |log|
    ensures DirectoryAt(d, log, n) == DirectoryAt(d, more, n)
  {
    if n > 0 {
      SameDirectory(d, log, more, n - 1);
    }
  }

  lemma {:induction false} OwnChangesMove(d: Directory, log: Log, changes: seq<Change>)
    ensures DirectoryEnd(d, log + OwnChanges(changes)) == Changed(DirectoryEnd(d, log), changes)
  {
    if changes == [] {
      assert log + OwnChanges(changes) == log;
    } else {
      var init, last := changes[..|changes| - 1], changes[|changes| - 1];
      OwnChangesMove(d, log, init);
      var before, after := log + OwnChanges(init), log + OwnChanges(changes);
      assert after == before + [Tenant(last)];
      SameDirectory(d, before, after, |before|);
    }
  }

  /** A call finds the directory its changes left, leaves it as it is, and reads it truthfully or not. */
  lemma CallFinds(d: Directory, oracle: Oracle, log: Log, call: Call)
    ensures var next, found := Ask(oracle, log, call), Changed(DirectoryEnd(d, log), oracle(log, call).changes);
      && DirectoryAt(d, next, |next| - 1) == found && DirectoryEnd(d, next) == found
      && (Truthful(d, next) <==> Truthful(d, log) && (call == GetUser ==> Reads(found, Heard(oracle, log, call))))
  {
    var own := log + OwnChanges(oracle(log, call).changes);
    var next := Ask(oracle, log, call);
    assert next == own + [Engine(call, Heard(oracle, log, call))];
    OwnChangesMove(d, log, oracle(log, call).changes);
    SameDirectory(d, own, next, |own|);
    forall i | 0 <= i < |log| ensures DirectoryAt(d, next, i) == DirectoryAt(d, log, i) && next[i] == log[i] {
      SameDirectory(d, log, next, i);
    }
    assert Truthful(d, next) ==> Truthful(d, log);
    assert next[|next| - 1] == Engine(call, Heard(oracle, log, call));
    forall i | |log| <= i < |next| - 1 ensures next[i].Tenant? {}
  }

  lemma WaitKeeps(d: Directory, log: Log, seconds: nat)
    ensures DirectoryEnd(d, log + [Waited(seconds)]) == DirectoryEnd(d, log)
    ensures Truthful(d, log + [Waited(seconds)]) <==> Truthful(d, log)
  {
    var next := log + [Waited(seconds)];
    forall i | 0 <= i <= |log| ensures DirectoryAt(d, next, i) == DirectoryAt(d, log, i) {
      SameDirectory(d, log, next, i);
    }
    assert forall i :: 0 <= i < |log| ==> next[i] == log[i];
  }

  // What a log shows of one account.

  /** What the last of these changes to the account makes of it; None if they leave it alone. */
  function LastSet(changes: seq<Change>, user: UserId): Option<bool> {
    if changes == [] then None
    else
      match changes[|changes| - 1]
      case AccountSet(u, on) => if u == user then Some(on) else LastSet(changes[..|changes| - 1], user)
      case AccountRemoved(u) => if u == user then Some(false) else LastSet(changes[..|changes| - 1], user)
      case _ => LastSet(changes[..|changes| - 1], user)
  }

  lemma {:induction false} LastSetDecides(d: Directory, changes: seq<Change>, user: UserId)
    ensures On(Changed(d, changes), user) ==
      if LastSet(changes, user).Some? then LastSet(changes, user).value
      else On(d, user)
  {
    if changes != [] {
      LastSetDecides(d, changes[..|changes| - 1], user);
    }
  }

  /** Whether an event says how the account stands: a change of it, or a reading of it. */
  function Says(event: Event, user: UserId): Option<bool> {
    match event
    case Tenant(AccountSet(u, on)) => if u == user then Some(on) else None
    case Tenant(AccountRemoved(u)) => if u == user then Some(false) else None
    case Engine(GetUser, User(u, enabled)) => if u == user then enabled else None
    case _ => None
  }

  /** The last thing a log says about the account. */
  function Shown(log: Log, user: UserId): Option<bool> {
    if log == [] then None
    else if Says(log[|log| - 1], user).Some? then Says(log[|log| - 1], user)
    else Shown(log[..|log| - 1], user)
  }

  lemma {:induction false} ShownIsTrue(d: Directory, log: Log, user: UserId)
    requires Truthful(d, log) && Shown(log, user).Some?
    ensures On(DirectoryEnd(d, log), user) == Shown(log, user).value
  {
    var init, last := log[..|log| - 1], log[|log| - 1];
    SameDirectory(d, init, log, |init|);
    if Says(last, user).None? {
      TruthfulPrefix(d, init, log);
      ShownIsTrue(d, init, user);
    }
  }

  lemma TruthfulPrefix(d: Directory, log: Log, more: Log)
    requires log <= more && Truthful(d, more)
    ensures Truthful(d, log)
  {
    forall i | 0 <= i < |log| && log[i].Engine? && log[i].call == GetUser
      ensures Reads(DirectoryAt(d, log, i), log[i].answer)
    {
      SameDirectory(d, log, more, i);
      assert more[i] == log[i];
    }
  }

  function SwitchedOn(d: Directory, user: UserId): Directory {
    d.(enabled := d.enabled[user := true])
  }

  /** Of an account the log is silent about, the log would look the same were it enabled. */
  lemma {:induction false} SilenceFitsEnabled(d: Directory, log: Log, user: UserId)
    requires Truthful(d, log) && Shown(log, user).None?
    ensures DirectoryEnd(SwitchedOn(d, user), log) == SwitchedOn(DirectoryEnd(d, log), user)
    ensures Truthful(SwitchedOn(d, user), log)
  {
    if log != [] {
      var init, last := log[..|log| - 1], log[|log| - 1];
      TruthfulPrefix(d, init, log);
      SilenceFitsEnabled(d, init, user);
      SameDirectory(d, init, log, |init|);
      SameDirectory(SwitchedOn(d, user), init, log, |init|);
      SilentStep(DirectoryEnd(d, init), last, user);
      forall i | 0 <= i < |log| && log[i].Engine? && log[i].call == GetUser
        ensures Reads(DirectoryAt(SwitchedOn(d, user), log, i), log[i].answer)
      {
        SameDirectory(SwitchedOn(d, user), init, log, i);
        if i < |init| {
          assert init[i] == log[i];
        }
      }
    }
  }

  lemma SilentStep(d: Directory, event: Event, user: UserId)
    requires Says(event, user).None?
    ensures DirectoryAfter(SwitchedOn(d, user), event) == SwitchedOn(DirectoryAfter(d, event), user)
  {
    match event
    case Tenant(AccountSet(u, on)) =>
      assert d.enabled[user := true][u := on] == d.enabled[u := on][user := true];
    case Tenant(AccountRemoved(u)) =>
      assert d.enabled[user := true] - {u} == (d.enabled - {u})[user := true];
    case _ =>
  }

  /** In every directory that could have given this log, the account is not enabled at its end. */
  ghost predicate SurelyOff(log: Log, user: UserId) {
    forall d: Directory :: Truthful(d, log) ==> !On(DirectoryEnd(d, log), user)
  }

  /** Exactly when a truthful log settles that the account is off: the last thing it says of it is that. */
  lemma SurelyOffIff(d: Directory, log: Log, user: UserId)
    requires Truthful(d, log)
    ensures SurelyOff(log, user) <==> Shown(log, user) == Some(false)
  {
    if Shown(log, user).Some? {
      forall e: Directory | Truthful(e, log) ensures On(DirectoryEnd(e, log), user) == Shown(log, user).value {
        ShownIsTrue(e, log, user);
      }
      assert On(DirectoryEnd(d, log), user) == Shown(log, user).value;
    } else {
      SilenceFitsEnabled(d, log, user);
      var e := SwitchedOn(d, user);
      assert Truthful(e, log) && On(DirectoryEnd(e, log), user);
    }
  }

  /**
   * What one reading by name as disabled is worth after some further changes: the account
   * is off in every directory that could have answered so exactly when the changes leave
   * it off, or leave it alone and it is the account that was read.
   */
  lemma ReadingProtectsIff(id: UserId, changes: seq<Change>, user: UserId)
    ensures (forall d: Directory :: Reads(d, User(id, Some(false))) ==> !On(Changed(d, changes), user)) <==>
      match LastSet(changes, user)
      case Some(on) => !on
      case None => id == user
  {
    forall d: Directory
      ensures On(Changed(d, changes), user) ==
        if LastSet(changes, user).Some? then LastSet(changes, user).value else On(d, user)
    {
      LastSetDecides(d, changes, user);
    }
    var other := Directory(Some(id), map[user := true][id := false]);
    assert Reads(other, User(id, Some(false)));
    assert id != user ==> On(other, user);
    assert On(Changed(other, changes), user) ==
      if LastSet(changes, user).Some? then LastSet(changes, user).value else On(other, user);
  }

  /** What a call adds to what is shown of an account. */
  lemma CallShows(oracle: Oracle, log: Log, call: Call, user: UserId)
    ensures var own := LastSet(oracle(log, call).changes, user);
      var said := Says(Engine(call, Heard(oracle, log, call)), user);
      Shown(Ask(oracle, log, call), user) ==
        if said.Some? then said else if own.Some? then own else Shown(log, user)
  {
    var changes := oracle(log, call).changes;
    ChangesShow(log, changes, user);
    var own, next := log + OwnChanges(changes), Ask(oracle, log, call);
    assert next == own + [Engine(call, Heard(oracle, log, call))];
    assert next[..|next| - 1] == own;
  }

  lemma {:induction false} ChangesShow(log: Log, changes: seq<Change>, user: UserId)
    ensures Shown(log + OwnChanges(changes), user) ==
      if LastSet(changes, user).Some? then LastSet(changes, user) else Shown(log, user)
  {
    if changes == [] {
      assert log + OwnChanges(changes) == log;
    } else {
      var init, last := changes[..|changes| - 1], changes[|changes| - 1];
      ChangesShow(log, init, user);
      var all := log + OwnChanges(changes);
      assert all[..|all| - 1] == log + OwnChanges(init) && all[|all| - 1] == Tenant(last);
    }
  }
}
