/**
 * The Entra tenant as the engine meets it.
 *
 * The engine only ever calls the tenant and reads an answer.  Everything that can be
 * observed is therefore a log: the calls in the order they were made with their
 * answers, the changes the tenant made on its own between them, and the engine's
 * waits.  How the tenant behaves is an arbitrary function of that log (an `Oracle`),
 * so a statement about every oracle is a statement about every tenant, including one
 * that delivers late, denies, loses requests or answers with errors.
 */
module Tenant {
  import opened Collections

  type Package = string
  type RequestId = string
  type UserId = string

  datatype RequestKind = AdminAdd | AdminRemove

  /** The `state` values of requests and assignments that the engine tells apart. */
  datatype RequestState =
    | Blank | Submitted | SubmissionFailed
    | Delivered | Denied | Canceled | Failed
    | Other(text: string)

  datatype Assignment = Assignment(package: Package, policy: string)

  datatype Call =
    | GetUser
    | GetManager
    | GetAssignments
    | GetIncompatibilities(package: Package)
    | CheckAssignment(package: Package)
    | RequestAssignment(package: Package, policy: string, kind: RequestKind)
    | GetRequestStatus(request: RequestId)
    | PatchUser
    | GetMemberships
    | DisableUser(user: UserId)
    | RevokeSessions(user: UserId)
    | GetPimSessions(user: UserId)
    | CancelPimSession(user: UserId, group: string)
    | DeleteUser(user: UserId)

  /** `GraphError` stands for every raised GraphClientError. */
  datatype Answer =
    | GraphError
    | Ok
    | User(id: UserId, enabled: Option<bool>)
    | Assignments(all: seq<Assignment>)
    | Incompatible(packages: set<Package>)
    | Lookup(found: Option<RequestState>)
    | Accepted(request: RequestId)
    | Status(state: RequestState)
    | Memberships(compliant: bool)
    | Sessions(groups: seq<string>)

  /** What changes in the tenant between two calls of the engine. */
  datatype Change =
    | Granted(package: Package)
    | Withdrawn(package: Package)
    | AccountSet(user: UserId, enabled: bool)
    | AccountRemoved(user: UserId)
    | NameBound(user: UserId)

  datatype Event =
    | Tenant(change: Change)
    | Engine(call: Call, answer: Answer)
    | Waited(seconds: nat)

  type Log = seq<Event>

  datatype Reply = Reply(changes: seq<Change>, answer: Answer)

  type Oracle = (Log, Call) -> Reply

  /** One call: first the tenant's own changes, then the call with its answer. */
  function Ask(oracle: Oracle, log: Log, call: Call): (next: Log)
    ensures log <= next
    ensures next != [] && next[|next| - 1] == Engine(call, Heard(oracle, log, call))
  {
    log + OwnChanges(oracle(log, call).changes) + [Engine(call, Heard(oracle, log, call))]
  }

  function Heard(oracle: Oracle, log: Log, call: Call): Answer {
    oracle(log, call).answer
  }

  function OwnChanges(changes: seq<Change>): (events: Log)
    ensures |events| == |changes|
    ensures forall i :: 0 <= i < |events| ==> events[i] == Tenant(changes[i])
  {
    seq(|changes|, i requires 0 <= i < |changes| => Tenant(changes[i]))
  }

  /** The Graph client the stages and phases are handed. */
  class GraphClient {
    const oracle: Oracle
    var log: Log

    constructor (oracle: Oracle)
      ensures this.oracle == oracle && log == []
    {
      this.oracle := oracle;
      log := [];
    }

    method Send(call: Call) returns (answer: Answer)
      modifies this`log
      ensures log == Ask(oracle, old(log), call)
      ensures answer == Heard(oracle, old(log), call)
    {
      var reply := oracle(log, call);
      answer := reply.answer;
      log := log + OwnChanges(reply.changes) + [Engine(call, answer)];
    }

    /** `time.sleep` in the synchronous drivers, a durable timer in the orchestrators. */
    method Wait(seconds: nat)
      modifies this`log
      ensures log == old(log) + [Waited(seconds)]
    {
      log := log + [Waited(seconds)];
    }
  }

  // Writes: the calls that change the tenant.

  predicate IsWrite(call: Call) {
    call.RequestAssignment? || call.PatchUser? || call.DisableUser? || call.RevokeSessions?
    || call.CancelPimSession? || call.DeleteUser?
  }

  /** The tenant writes of a log, in the order they were attempted. */
  ghost function Writes(log: Log): seq<Call> {
    if log == [] then []
    else
      var last := log[|log| - 1];
      Writes(log[..|log| - 1]) + if last.Engine? && IsWrite(last.call) then [last.call] else []
  }

  lemma {:induction false} WritesConcat(a: Log, b: Log)
    ensures Writes(a + b) == Writes(a) + Writes(b)
  {
    if b == [] {
      assert a + b == a;
    } else {
      assert (a + b)[..|a + b| - 1] == a + b[..|b| - 1];
      WritesConcat(a, b[..|b| - 1]);
    }
  }

  lemma {:induction false} NoWrites(log: Log)
    requires forall i :: 0 <= i < |log| ==> !log[i].Engine?
    ensures Writes(log) == []
  {
    if log != [] {
      NoWrites(log[..|log| - 1]);
    }
  }

  /** A call adds itself to the writes if it is one, and nothing else. */
  lemma WritesOfAsk(oracle: Oracle, log: Log, call: Call)
    ensures Writes(Ask(oracle, log, call)) == Writes(log) + if IsWrite(call) then [call] else []
  {
    var own := OwnChanges(oracle(log, call).changes);
    var end := [Engine(call, Heard(oracle, log, call))];
    NoWrites(own);
    WritesConcat(log, own);
    WritesConcat(log + own, end);
    assert end[..0] == [];
    assert Writes(end) == if IsWrite(call) then [call] else [];
  }

  lemma WritesOfWait(log: Log, seconds: nat)
    ensures Writes(log + [Waited(seconds)]) == Writes(log)
  {
    assert (log + [Waited(seconds)])[..|log|] == log;
  }

  lemma {:induction false} WriteIsRecorded(log: Log, i: nat)
    requires i < |log| && log[i].Engine? && IsWrite(log[i].call)
    ensures log[i].call in Writes(log)
  {
    if i < |log| - 1 {
      WriteIsRecorded(log[..|log| - 1], i);
    }
  }

  /** A write that came later is one of the later writes. */
  lemma SuffixWrites(before: Log, after: Log, extra: seq<Call>, k: nat)
    requires before <= after && Writes(after) == Writes(before) + extra
    requires |before| <= k < |after| && after[k].Engine? && IsWrite(after[k].call)
    ensures after[k].call in extra
  {
    var rest := after[|before|..];
    assert after == before + rest;
    WritesConcat(before, rest);
    assert Writes(after)[|Writes(before)|..] == extra;
    assert (Writes(before) + Writes(rest))[|Writes(before)|..] == Writes(rest);
    assert rest[k - |before|] == after[k];
    WriteIsRecorded(rest, k - |before|);
  }

  /** The log has grown without a write. */
  ghost predicate OnlyReads(before: Log, after: Log) {
    before <= after && Writes(after) == Writes(before)
  }

  lemma ReadsOn(a: Log, b: Log, c: Log)
    requires OnlyReads(a, b) && OnlyReads(b, c)
    ensures OnlyReads(a, c)
  {
  }

  lemma ReadCall(oracle: Oracle, log: Log, call: Call)
    requires !IsWrite(call)
    ensures OnlyReads(log, Ask(oracle, log, call))
  {
    WritesOfAsk(oracle, log, call);
  }

  // Holdings: what the user really holds.

  function HeldAfter(held: set<Package>, event: Event): set<Package> {
    match event
    case Tenant(Granted(p)) => held + {p}
    case Tenant(Withdrawn(p)) => held - {p}
    case _ => held
  }

  /** The packages the user holds once the first `n` events of the log have happened. */
  ghost function Held(start: set<Package>, log: Log, n: nat): set<Package>
    requires n <= |log|
  {
    if n == 0 then start else HeldAfter(Held(start, log, n - 1), log[n - 1])
  }

  predicate Requests(event: Event, package: Package, kind: RequestKind) {
    event.Engine? && event.call.RequestAssignment? && event.call.package == package && event.call.kind == kind
  }

  /** The packages a log asks to add, or asks to remove. */
  ghost function Asked(log: Log, kind: RequestKind): set<Package> {
    set event | event in log && event.Engine? && event.call.RequestAssignment? && event.call.kind == kind
      :: event.call.package
  }

  lemma RequestIsAsked(log: Log, kind: RequestKind, k: nat, p: Package)
    requires k < |log| && Requests(log[k], p, kind)
    ensures p in Asked(log, kind)
  {
    assert log[k] in log;
  }

  lemma AskedSomewhere(log: Log, kind: RequestKind, p: Package) returns (k: nat)
    requires p in Asked(log, kind)
    ensures k < |log| && Requests(log[k], p, kind)
  {
    var event :| event in log && Requests(event, p, kind);
    k :| 0 <= k < |log| && log[k] == event;
  }

  /** The tenant's change that fulfils a request. */
  function Fulfils(package: Package, kind: RequestKind): Event {
    Tenant(if kind.AdminAdd? then Granted(package) else Withdrawn(package))
  }

  /**
   * Event `i` is one a tenant may produce: holdings change only because this log's
   * requests asked for it, every accepted request gets an id of its own, a request is
   * reported delivered only after its change happened, and an assignment is reported
   * delivered only while it is held.  Lateness, denial, errors and lost requests are
   * all allowed; so is a request that takes effect although the call itself failed.
   */
  ghost predicate GroundedAt(start: set<Package>, log: Log, i: nat)
    requires i < |log|
  {
    match log[i]
    case Tenant(Granted(p)) => exists k :: 0 <= k < i && Requests(log[k], p, AdminAdd)
    case Tenant(Withdrawn(p)) => exists k :: 0 <= k < i && Requests(log[k], p, AdminRemove)
    case Engine(RequestAssignment(_, _, _), Accepted(id)) =>
      forall k :: 0 <= k < i ==> !AcceptedAs(log[k], id)
    case Engine(GetRequestStatus(id), Status(Delivered)) => Fulfilled(log, id, i)
    case Engine(CheckAssignment(p), Lookup(Some(Delivered))) => p in Held(start, log, i)
    case _ => true
  }

  predicate AcceptedAs(event: Event, id: RequestId) {
    event.Engine? && event.call.RequestAssignment? && event.answer == Accepted(id)
  }

  /** Before position `n`, some request was accepted under `id` and later took effect. */
  ghost predicate Fulfilled(log: Log, id: RequestId, n: nat)
    requires n <= |log|
  {
    exists k, m :: 0 <= k < m < n && AcceptedAs(log[k], id) &&
      log[m] == Fulfils(log[k].call.package, log[k].call.kind)
  }

  ghost predicate Grounded(start: set<Package>, log: Log) {
    forall i :: 0 <= i < |log| ==> GroundedAt(start, log, i)
  }

  /** A lookup that was answered and showed no delivered assignment. */
  predicate NothingDelivered(event: Event) {
    event.Engine? && event.call.CheckAssignment? && event.answer.Lookup? && event.answer.found != Some(Delivered)
  }

  /** The stronger reading of a lookup: no delivered assignment means it is not held. */
  ghost predicate LookupsComplete(start: set<Package>, log: Log) {
    forall i :: 0 <= i < |log| && NothingDelivered(log[i]) ==> log[i].call.package !in Held(start, log, i)
  }

  /** A package nobody asked to remove stays held. */
  lemma {:induction false} StaysHeld(start: set<Package>, log: Log, p: Package, m: nat, n: nat)
    requires Grounded(start, log) && m <= n <= |log|
    requires p in Held(start, log, m)
    requires forall k :: 0 <= k < n ==> !Requests(log[k], p, AdminRemove)
    ensures p in Held(start, log, n)
  {
    if m < n {
      StaysHeld(start, log, p, m, n - 1);
      assert GroundedAt(start, log, n - 1);
    }
  }

  /** A package nobody asked to add stays away. */
  lemma {:induction false} StaysAway(start: set<Package>, log: Log, p: Package, m: nat, n: nat)
    requires Grounded(start, log) && m <= n <= |log|
    requires p !in Held(start, log, m)
    requires forall k :: 0 <= k < n ==> !Requests(log[k], p, AdminAdd)
    ensures p !in Held(start, log, n)
  {
    if m < n {
      StaysAway(start, log, p, m, n - 1);
      assert GroundedAt(start, log, n - 1);
    }
  }

  // Evidence: what the engine takes as confirmation, read off the log.

  /** The log shows the package's request accepted and later reported delivered. */
  ghost predicate RequestConfirmed(log: Log, p: Package, kind: RequestKind) {
    exists policy, id ::
      Engine(RequestAssignment(p, policy, kind), Accepted(id)) in log &&
      Engine(GetRequestStatus(id), Status(Delivered)) in log
  }

  ghost predicate AddConfirmed(log: Log, p: Package) {
    Engine(CheckAssignment(p), Lookup(Some(Delivered))) in log || RequestConfirmed(log, p, AdminAdd)
  }

  /** A confirmed request really took effect at some position of the log. */
  lemma ConfirmedTookEffect(start: set<Package>, log: Log, p: Package, kind: RequestKind, n: nat)
    requires Grounded(start, log) && n <= |log|
    requires RequestConfirmed(log[..n], p, kind)
    ensures exists m :: 0 <= m < n && log[m] == Fulfils(p, kind)
  {
    var policy, id :|
      Engine(RequestAssignment(p, policy, kind), Accepted(id)) in log[..n] &&
      Engine(GetRequestStatus(id), Status(Delivered)) in log[..n];
    var a :| 0 <= a < n && log[a] == Engine(RequestAssignment(p, policy, kind), Accepted(id));
    var s :| 0 <= s < n && log[s] == Engine(GetRequestStatus(id), Status(Delivered));
    assert GroundedAt(start, log, s);
    assert Fulfilled(log, id, s);
    var k, m :| 0 <= k < m < s && AcceptedAs(log[k], id) &&
      log[m] == Fulfils(log[k].call.package, log[k].call.kind);
    assert AcceptedAs(log[a], id);
    assert GroundedAt(start, log, a) && GroundedAt(start, log, k);
    assert k == a;
  }

  /** A confirmed addition that nothing asks to remove again is held from then on. */
  lemma ConfirmedAddIsHeld(start: set<Package>, log: Log, p: Package, n: nat, j: nat)
    requires Grounded(start, log) && n <= j <= |log|
    requires AddConfirmed(log[..n], p)
    requires forall k :: 0 <= k < j ==> !Requests(log[k], p, AdminRemove)
    ensures p in Held(start, log, j)
  {
    if Engine(CheckAssignment(p), Lookup(Some(Delivered))) in log[..n] {
      var i :| 0 <= i < n && log[i] == Engine(CheckAssignment(p), Lookup(Some(Delivered)));
      assert GroundedAt(start, log, i);
      StaysHeld(start, log, p, i, j);
    } else {
      ConfirmedTookEffect(start, log, p, AdminAdd, n);
      var m :| 0 <= m < n && log[m] == Fulfils(p, AdminAdd);
      assert p in Held(start, log, m + 1);
      StaysHeld(start, log, p, m + 1, j);
    }
  }

  /** Grounded logs are not empty talk: here one package is delivered and another then withdrawn. */
  lemma GroundedExchange(gained: Package, lost: Package)
    requires gained != lost
    ensures var log := [
        Engine(RequestAssignment(gained, "policy", AdminAdd), Accepted("1")), Tenant(Granted(gained)),
        Engine(GetRequestStatus("1"), Status(Delivered)),
        Engine(RequestAssignment(lost, "policy", AdminRemove), Accepted("2")), Tenant(Withdrawn(lost))];
      Grounded({lost}, log) && Held({lost}, log, 3) == {lost, gained} && Held({lost}, log, 5) == {gained}
  {
    var log := [
      Engine(RequestAssignment(gained, "policy", AdminAdd), Accepted("1")), Tenant(Granted(gained)),
      Engine(GetRequestStatus("1"), Status(Delivered)),
      Engine(RequestAssignment(lost, "policy", AdminRemove), Accepted("2")), Tenant(Withdrawn(lost))];
    assert Held({lost}, log, 1) == {lost};
    assert Held({lost}, log, 2) == {lost, gained};
    assert Held({lost}, log, 3) == {lost, gained};
    assert Held({lost}, log, 4) == {lost, gained};
    assert Requests(log[0], gained, AdminAdd) && Requests(log[3], lost, AdminRemove);
    assert AcceptedAs(log[0], "1") && log[1] == Fulfils(gained, AdminAdd);
    assert Fulfilled(log, "1", 2) && !AcceptedAs(log[0], "2");
    forall i | 0 <= i < |log| ensures GroundedAt({lost}, log, i) {}
  }
}
