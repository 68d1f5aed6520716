/** Post-move verification: what the tenant shows against what the move should have left. */
module Verifier {
  import opened Collections
  import opened Tenant
  import opened Phases

  datatype Kind = Missing | Unexpected

  datatype Discrepancy = Discrepancy(package: Package, kind: Kind)

  datatype Verdict = MoveSuccess | MovePartial | VerificationError

  /** The package ids of fetched assignments; one without an id is skipped. */
  function Fetched(all: seq<Assignment>): set<Package> {
    set a | a in all && a.package != "" :: a.package
  }

  /** Every assignment with a package id counts, whatever its policy and wherever it stands. */
  lemma FetchedIff(all: seq<Assignment>, p: Package)
    ensures p in Fetched(all) <==> p != "" && exists policy :: Assignment(p, policy) in all
  {
    if p in Fetched(all) {
      var a :| a in all && a.package != "" && a.package == p;
      assert a == Assignment(p, a.policy);
    }
    if policy :| Assignment(p, policy) in all {
      assert p != "" ==> Assignment(p, policy).package in Fetched(all);
    }
  }

  predicate IsDiscrepancy(d: Discrepancy, expected: set<Package>, actual: set<Package>, excluded: set<Package>) {
    match d.kind
    case Missing => d.package in expected && d.package !in actual
    case Unexpected => d.package in actual && d.package !in expected && d.package !in excluded
  }

  predicate Matches(expected: set<Package>, actual: set<Package>, excluded: set<Package>) {
    expected <= actual <= expected + excluded
  }

  /** `_calculate_discrepancies`: one entry per discrepancy, none when the sets match. */
  method CalculateDiscrepancies(expected: set<Package>, actual: set<Package>, unmanaged: set<Package>,
                                recentlyRemoved: set<Package>, order: set<Package> -> seq<Package>)
    returns (ds: seq<Discrepancy>)
    requires Iterates(order)
    ensures NoDuplicates(ds)
    ensures forall d :: d in ds <==> IsDiscrepancy(d, expected, actual, unmanaged + recentlyRemoved)
    ensures ds == [] <==> Matches(expected, actual, unmanaged + recentlyRemoved)
  {
    ds := [];
    var missing, unexpected := order(expected - actual), order(actual - expected - (unmanaged + recentlyRemoved));
    assert forall p :: p in missing <==> p in Elements(missing);
    assert forall p :: p in unexpected <==> p in Elements(unexpected);
    for i := 0 to |missing|
      invariant |ds| == i
      invariant forall k :: 0 <= k < i ==> ds[k] == Discrepancy(missing[k], Missing)
    {
      ds := ds + [Discrepancy(missing[i], Missing)];
    }
    for i := 0 to |unexpected|
      invariant |ds| == |missing| + i
      invariant forall k :: 0 <= k < |missing| ==> ds[k] == Discrepancy(missing[k], Missing)
      invariant forall k :: 0 <= k < i ==> ds[|missing| + k] == Discrepancy(unexpected[k], Unexpected)
    {
      ds := ds + [Discrepancy(unexpected[i], Unexpected)];
    }
    ListedAre(ds, missing, unexpected);
    forall d ensures d in ds <==> IsDiscrepancy(d, expected, actual, unmanaged + recentlyRemoved) {
      assert d.package in missing <==> d.package in expected - actual;
      assert d.package in unexpected <==> d.package in actual - expected - (unmanaged + recentlyRemoved);
    }
    if ds == [] {
      forall p | p in expected ensures p in actual {
        assert Discrepancy(p, Missing) !in ds;
      }
      forall p | p in actual ensures p in expected + (unmanaged + recentlyRemoved) {
        assert Discrepancy(p, Unexpected) !in ds;
      }
    } else {
      assert ds[0] in ds;
    }
  }

  lemma ListedAre(ds: seq<Discrepancy>, missing: seq<Package>, unexpected: seq<Package>)
    requires |ds| == |missing| + |unexpected|
    requires forall k :: 0 <= k < |missing| ==> ds[k] == Discrepancy(missing[k], Missing)
    requires forall k :: 0 <= k < |unexpected| ==> ds[|missing| + k] == Discrepancy(unexpected[k], Unexpected)
    ensures forall d :: d in ds <==> if d.kind == Missing then d.package in missing else d.package in unexpected
    ensures NoDuplicates(missing) && NoDuplicates(unexpected) ==> NoDuplicates(ds)
  {
    forall d | d in ds ensures if d.kind == Missing then d.package in missing else d.package in unexpected {
      var k :| 0 <= k < |ds| && ds[k] == d;
      if k >= |missing| {
        assert ds[|missing| + (k - |missing|)] == Discrepancy(unexpected[k - |missing|], Unexpected);
      }
    }
    forall p | p in missing ensures Discrepancy(p, Missing) in ds {
      var k :| 0 <= k < |missing| && missing[k] == p;
      assert ds[k] == Discrepancy(p, Missing);
    }
    forall p | p in unexpected ensures Discrepancy(p, Unexpected) in ds {
      var k :| 0 <= k < |unexpected| && unexpected[k] == p;
      assert ds[|missing| + k] == Discrepancy(p, Unexpected);
    }
    if NoDuplicates(missing) && NoDuplicates(unexpected) {
      forall i, j | 0 <= i < j < |ds| ensures ds[i] != ds[j] {
        if i >= |missing| {
          assert ds[|missing| + (i - |missing|)].package == unexpected[i - |missing|];
        }
        if j >= |missing| {
          assert ds[|missing| + (j - |missing|)].package == unexpected[j - |missing|];
        }
      }
    }
  }

  /** Success: the re-fetch succeeded and matches, and memberships were read and comply. */
  function Judged(fetched: Answer, memberships: Answer, expected: set<Package>, excluded: set<Package>): Verdict {
    if !fetched.Assignments? then VerificationError
    else if Matches(expected, Fetched(fetched.all), excluded) && memberships == Memberships(true) then MoveSuccess
    else MovePartial
  }

  /** The assignments are read first; memberships only if that worked. */
  function Verify(oracle: Oracle, log: Log, expected: set<Package>, excluded: set<Package>): Step<Verdict> {
    var fetched := Heard(oracle, log, GetAssignments);
    var read := Ask(oracle, log, GetAssignments);
    if fetched.Assignments? then
      Step(Ask(oracle, read, GetMemberships), Judged(fetched, Heard(oracle, read, GetMemberships), expected, excluded))
    else Step(read, VerificationError)
  }

  /** `verify_post_move_state` with the waiting left to the driver. */
  method VerifyPostMoveState(graph: GraphClient, unaltered: set<Package>, retained: set<Package>, adds: set<Package>,
                             unmanaged: set<Package>, recentlyRemoved: set<Package>,
                             order: set<Package> -> seq<Package>)
    returns (verdict: Verdict)
    requires Iterates(order)
    modifies graph`log
    ensures Step(graph.log, verdict) ==
      Verify(graph.oracle, old(graph.log), unaltered + retained + adds, unmanaged + recentlyRemoved)
  {
    var expected := unaltered + retained + adds;
    var fetched := graph.Send(GetAssignments);
    if !fetched.Assignments? {
      return VerificationError;
    }
    var actual := Fetched(fetched.all);
    var ds := CalculateDiscrepancies(expected, actual, unmanaged, recentlyRemoved, order);
    var memberships := graph.Send(GetMemberships);
    var governanceFailed := !(memberships.Memberships? && memberships.compliant);
    if ds != [] || governanceFailed {
      return MovePartial;
    }
    return MoveSuccess;
  }

  lemma VerifyExtends(oracle: Oracle, log: Log, expected: set<Package>, excluded: set<Package>)
    ensures log <= Verify(oracle, log, expected, excluded).log
    ensures Writes(Verify(oracle, log, expected, excluded).log) == Writes(log)
  {
    WritesOfAsk(oracle, log, GetAssignments);
    WritesOfAsk(oracle, Ask(oracle, log, GetAssignments), GetMemberships);
  }
}
