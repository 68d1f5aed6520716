/**
 * The two ways of driving a submitted list to its end: the synchronous loop
 * (`_poll_until_terminal`, sleeping in the worker) and the durable one
 * (`_run_poll_loop`, a timer between activities that hand the list over as JSON).
 */
module PollLoops {
  import opened Collections
  import opened Tenant
  import opened Phases

  datatype Window = Window(attempts: nat, interval: nat)

  /** Up to `attempts` passes, stopping as soon as nothing is open. */
  function SyncPoll(oracle: Oracle, log: Log, ps: seq<Pending>, attempts: nat, interval: nat): (r: Step<seq<Pending>>)
    ensures |r.value| == |ps|
    decreases attempts
  {
    if attempts == 0 || AllTerminal(ps) then Step(log, ps)
    else
      var pass := PollPass(oracle, log, ps);
      if AllTerminal(pass.value) then pass
      else SyncPoll(oracle, pass.log + [Waited(interval)], pass.value, attempts - 1, interval)
  }

  // The JSON form of a record: an object whose keys may be missing.

  datatype PendingDict = PendingDict(
    accessPackageId: Option<Package>, policyId: Option<string>, requestType: Option<RequestKind>,
    requestId: Option<RequestId>, state: Option<RequestState>, previousState: Option<RequestState>,
    submitted: Option<bool>, skipped: Option<bool>, error: Option<Fault>)

  function ToDict(p: Pending): PendingDict {
    PendingDict(Some(p.package), Some(p.policy), Some(p.kind), Some(p.request), Some(p.state),
                Some(p.previous), Some(p.submitted), Some(p.skipped), Some(p.fault))
  }

  function GetOr<T>(field: Option<T>, default: T): T {
    match field
    case Some(value) => value
    case None => default
  }

  /** None is the KeyError of a missing mandatory key. */
  function FromDict(d: PendingDict): Option<Pending> {
    if d.accessPackageId.None? || d.policyId.None? || d.requestType.None? then None
    else Some(Pending(
      d.accessPackageId.value, d.policyId.value, d.requestType.value, GetOr(d.requestId, ""),
      GetOr(d.state, Blank), GetOr(d.previousState, Blank), GetOr(d.submitted, false),
      GetOr(d.skipped, false), GetOr(d.error, NoFault)))
  }

  function ToDicts(ps: seq<Pending>): (ds: seq<PendingDict>)
    ensures |ds| == |ps|
    ensures forall i :: 0 <= i < |ps| ==> ds[i] == ToDict(ps[i])
  {
    seq(|ps|, i requires 0 <= i < |ps| => ToDict(ps[i]))
  }

  function FromDicts(ds: seq<PendingDict>): (r: Option<seq<Pending>>)
    ensures r.Some? <==> forall i :: 0 <= i < |ds| ==> FromDict(ds[i]).Some?
    ensures r.Some? ==> |r.value| == |ds| && forall i :: 0 <= i < |ds| ==> FromDict(ds[i]) == Some(r.value[i])
  {
    if forall i :: 0 <= i < |ds| ==> FromDict(ds[i]).Some? then
      Some(seq(|ds|, i requires 0 <= i < |ds| && FromDict(ds[i]).Some? => FromDict(ds[i]).value))
    else None
  }

  /** Handing a list over as JSON and reading it back loses nothing. */
  lemma DictRoundTrip(ps: seq<Pending>)
    ensures FromDicts(ToDicts(ps)) == Some(ps)
  {
    var r := FromDicts(ToDicts(ps));
    forall i | 0 <= i < |ps| ensures FromDict(ToDicts(ps)[i]) == Some(ps[i]) {}
    assert r.value == ps;
  }

  /** What one `check` activity returns; `None` when the handed-over list is malformed. */
  datatype Checked = Checked(dicts: seq<PendingDict>, allTerminal: bool)

  function Check(oracle: Oracle, log: Log, ds: seq<PendingDict>): Step<Option<Checked>> {
    match FromDicts(ds)
    case None => Step(log, None)
    case Some(ps) =>
      var pass := PollPass(oracle, log, ps);
      Step(pass.log, Some(Checked(ToDicts(pass.value), AllTerminal(pass.value))))
  }

  function DurablePoll(oracle: Oracle, log: Log, ds: seq<PendingDict>, attempts: nat,
      interval: nat): Step<Option<seq<PendingDict>>>
    decreases attempts
  {
    if attempts == 0 then Step(log, Some(ds))
    else
      var checked := Check(oracle, log, ds);
      match checked.value
      case None => Step(checked.log, None)
      case Some(c) =>
        if c.allTerminal then Step(checked.log, Some(c.dicts))
        else DurablePoll(oracle, checked.log + [Waited(interval)], c.dicts, attempts - 1, interval)
  }

  /** A pass over a list with nothing open asks nothing and changes nothing. */
  lemma {:induction false} PassOverTerminal(oracle: Oracle, log: Log, ps: seq<Pending>)
    requires AllTerminal(ps)
    ensures PollPass(oracle, log, ps) == Step(log, ps)
  {
    if ps != [] {
      PassOverTerminal(oracle, log, ps[..|ps| - 1]);
      assert !Open(ps[|ps| - 1]);
      assert ps == ps[..|ps| - 1] + [ps[|ps| - 1]];
    }
  }

  lemma CheckIsAPass(oracle: Oracle, log: Log, ps: seq<Pending>)
    ensures var pass := PollPass(oracle, log, ps);
      Check(oracle, log, ToDicts(ps)) == Step(pass.log, Some(Checked(ToDicts(pass.value), AllTerminal(pass.value))))
  {
    DictRoundTrip(ps);
  }

  /**
   * The durable loop refines the synchronous one: for every tenant and every window
   * both ask the same questions in the same order, wait the same number of times and
   * end with the same records, although the durable one has no check before its first
   * pass and passes the list through JSON between any two passes.
   */
  lemma {:induction false} PollLoopsAgree(oracle: Oracle, log: Log, ps: seq<Pending>, attempts: nat, interval: nat)
    ensures var sync := SyncPoll(oracle, log, ps, attempts, interval);
      DurablePoll(oracle, log, ToDicts(ps), attempts, interval) == Step(sync.log, Some(ToDicts(sync.value)))
    decreases attempts
  {
    if attempts > 0 {
      CheckIsAPass(oracle, log, ps);
      var pass := PollPass(oracle, log, ps);
      if AllTerminal(ps) {
        PassOverTerminal(oracle, log, ps);
      } else if !AllTerminal(pass.value) {
        PollLoopsAgree(oracle, pass.log + [Waited(interval)], pass.value, attempts - 1, interval);
      }
    }
  }
}
