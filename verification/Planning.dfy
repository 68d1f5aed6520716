/** What a move will do: package delta, retention, and the pre-flight conflict check. */
module Planning {
  import opened Collections
  import opened Tenant
  import opened Phases

  // Delta.

  datatype Delta = Delta(adds: set<Package>, removes: set<Package>, unaltered: set<Package>, unmanaged: set<Package>)

  function CalculateDelta(current: set<Package>, target: set<Package>, catalogue: set<Package>): Delta {
    var managed := current * catalogue;
    Delta(target - managed, managed - target, managed * target, current - catalogue)
  }

  // Retention.

  type Date = nat

  datatype RetentionOutcome = Retained | Expired | NoRecord

  datatype RetentionDecision = RetentionDecision(package: Package, outcome: RetentionOutcome)

  /** `registry` holds the review dates of the readable records; anything else is no record. */
  function EvaluateRetention(registry: map<Package, Date>, package: Package, today: Date): RetentionOutcome {
    if package !in registry then NoRecord
    else if registry[package] >= today then Retained
    else Expired
  }

  /** A record is good up to and including its review date; without a readable one nothing is retained. */
  lemma RetentionIs(registry: map<Package, Date>, package: Package, today: Date)
    ensures var outcome := EvaluateRetention(registry, package, today);
      && (outcome == NoRecord <==> package !in registry)
      && (outcome == Retained <==> package in registry && today <= registry[package])
      && (outcome == Expired <==> package in registry && registry[package] < today)
  {
  }

  function RetainedAmong(removes: set<Package>, registry: map<Package, Date>, today: Date): set<Package> {
    set p | p in removes && EvaluateRetention(registry, p, today) == Retained
  }

  /** `evaluate_all_retentions`: every candidate gets one decision and lands in exactly one set. */
  method EvaluateAllRetentions(order: seq<Package>, registry: map<Package, Date>, today: Date)
    returns (removeConfirmed: set<Package>, retainSet: set<Package>, decisions: seq<RetentionDecision>)
    ensures retainSet == RetainedAmong(Elements(order), registry, today)
    ensures removeConfirmed == Elements(order) - retainSet
    ensures |decisions| == |order|
    ensures forall i :: 0 <= i < |order| ==>
      decisions[i] == RetentionDecision(order[i], EvaluateRetention(registry, order[i], today))
  {
    removeConfirmed, retainSet, decisions := {}, {}, [];
    for i := 0 to |order|
      invariant retainSet == RetainedAmong(Elements(order[..i]), registry, today)
      invariant removeConfirmed == Elements(order[..i]) - retainSet
      invariant |decisions| == i
      invariant forall k :: 0 <= k < i ==>
        decisions[k] == RetentionDecision(order[k], EvaluateRetention(registry, order[k], today))
    {
      TakeOneMore(order, i);
      assert Elements(order[..i + 1]) == Elements(order[..i]) + {order[i]};
      var outcome := EvaluateRetention(registry, order[i], today);
      decisions := decisions + [RetentionDecision(order[i], outcome)];
      if outcome == Retained {
        retainSet := retainSet + {order[i]};
      } else {
        removeConfirmed := removeConfirmed + {order[i]};
      }
    }
    TakeAll(order);
  }

  /** The package sets of one move. */
  datatype Plan = Plan(adds: set<Package>, removes: set<Package>, unaltered: set<Package>, retained: set<Package>,
                       unmanaged: set<Package>) {
    function Keep(): set<Package> {
      unaltered + retained + unmanaged
    }
  }

  function MakePlan(current: set<Package>, target: set<Package>, catalogue: set<Package>, registry: map<Package, Date>,
      today: Date): Plan {
    var delta := CalculateDelta(current, target, catalogue);
    var retained := RetainedAmong(delta.removes, registry, today);
    Plan(delta.adds, delta.removes - retained, delta.unaltered, retained, delta.unmanaged)
  }

  /**
   * Conservation: what the user holds is split, without overlap or loss, into what is
   * left alone, what is still right, what is retained and what will be removed.
   */
  lemma HoldingsArePartitioned(current: set<Package>, target: set<Package>, catalogue: set<Package>,
      registry: map<Package, Date>, today: Date)
    ensures var plan := MakePlan(current, target, catalogue, registry, today);
      && current == plan.Keep() + plan.removes
      && plan.unmanaged !! plan.unaltered !! plan.retained !! plan.removes
      && |current| == |plan.unmanaged| + |plan.unaltered| + |plan.retained| + |plan.removes|
  {
    var plan := MakePlan(current, target, catalogue, registry, today);
    assert current == plan.unmanaged + plan.unaltered + plan.retained + plan.removes;
  }

  /**
   * Additions are new to the user exactly when no held target is outside the catalogue;
   * with managed targets (as resolution delivers them) they are the missing targets.
   */
  lemma AdditionsAreNew(current: set<Package>, target: set<Package>, catalogue: set<Package>,
      registry: map<Package, Date>, today: Date)
    ensures var plan := MakePlan(current, target, catalogue, registry, today);
      && (plan.adds !! current <==> target * current <= catalogue)
      && (target <= catalogue ==> plan.adds == target - current && plan.adds !! current)
      && plan.adds + plan.unaltered == target - (current * catalogue - target)
  {
    var plan := MakePlan(current, target, catalogue, registry, today);
    if plan.adds !! current {
      forall p | p in target * current ensures p in catalogue {
        assert p !in plan.adds;
      }
    }
  }

  // Pre-flight separation of duties.

  datatype Decision = Add | RemoveFirst | Block

  datatype Preflight = Proceed(reorder: bool) | HeldForReview(blocked: seq<Package>)

  /** A failed query lets the addition through: the platform enforces its own rules. */
  function Classify(answer: Answer, removes: set<Package>, keep: set<Package>): Decision {
    if !answer.Incompatible? then Add
    else if answer.packages * keep != {} then Block
    else if answer.packages * removes != {} then RemoveFirst
    else Add
  }

  /** The log and the answers of asking about each addition in turn. */
  function QueryAll(oracle: Oracle, log: Log, adds: seq<Package>): (r: Step<seq<Answer>>)
    ensures |r.value| == |adds|
  {
    if adds == [] then Step(log, [])
    else
      var most, call := QueryAll(oracle, log, adds[..|adds| - 1]), GetIncompatibilities(adds[|adds| - 1]);
      Step(Ask(oracle, most.log, call), most.value + [Heard(oracle, most.log, call)])
  }

  function Blocked(adds: seq<Package>, answers: seq<Answer>, removes: set<Package>, keep: set<Package>): seq<Package>
    requires |answers| == |adds|
  {
    if adds == [] then []
    else
      var n := |adds| - 1;
      Blocked(adds[..n], answers[..n], removes, keep) +
        if Classify(answers[n], removes, keep) == Block then [adds[n]] else []
  }

  predicate Reordering(answers: seq<Answer>, removes: set<Package>, keep: set<Package>) {
    exists i :: 0 <= i < |answers| && Classify(answers[i], removes, keep) == RemoveFirst
  }

  function Judge(adds: seq<Package>, answers: seq<Answer>, removes: set<Package>, keep: set<Package>): Preflight
    requires |answers| == |adds|
  {
    var blocked := Blocked(adds, answers, removes, keep);
    if blocked != [] then HeldForReview(blocked) else Proceed(Reordering(answers, removes, keep))
  }

  function RunPreflight(oracle: Oracle, log: Log, adds: seq<Package>, removes: set<Package>,
      keep: set<Package>): Step<Preflight> {
    var asked := QueryAll(oracle, log, adds);
    Step(asked.log, Judge(adds, asked.value, removes, keep))
  }

  /** `stage_preflight_sod`. */
  method StagePreflightSod(graph: GraphClient, adds: seq<Package>, removes: set<Package>,
      keep: set<Package>) returns (result: Preflight)
    modifies graph`log
    ensures Step(graph.log, result) == RunPreflight(graph.oracle, old(graph.log), adds, removes, keep)
  {
    if adds == [] {
      return Proceed(false);
    }
    var blocked: seq<Package> := [];
    var needsReorder := false;
    ghost var answers: seq<Answer> := [];
    for i := 0 to |adds|
      invariant Step(graph.log, answers) == QueryAll(graph.oracle, old(graph.log), adds[..i])
      invariant blocked == Blocked(adds[..i], answers, removes, keep)
      invariant needsReorder == Reordering(answers, removes, keep)
    {
      TakeOneMore(adds, i);
      ghost var before := answers;
      var answer := graph.Send(GetIncompatibilities(adds[i]));
      answers := answers + [answer];
      assert answers[..i] == before && answers[i] == answer;
      ReorderingOneMore(before, answer, removes, keep);
      if !answer.Incompatible? {
        continue;
      }
      if answer.packages == {} {
        continue;
      }
      if answer.packages * keep != {} {
        blocked := blocked + [adds[i]];
        continue;
      }
      if answer.packages * removes != {} {
        needsReorder := true;
      }
    }
    TakeAll(adds);
    if blocked != [] {
      return HeldForReview(blocked);
    }
    return Proceed(needsReorder);
  }

  lemma ReorderingOneMore(answers: seq<Answer>, last: Answer, removes: set<Package>, keep: set<Package>)
    ensures Reordering(answers + [last], removes, keep) <==>
      Reordering(answers, removes, keep) || Classify(last, removes, keep) == RemoveFirst
  {
    var all := answers + [last];
    assert all[|answers|] == last;
    if Reordering(answers, removes, keep) {
      var i :| 0 <= i < |answers| && Classify(answers[i], removes, keep) == RemoveFirst;
      assert all[i] == answers[i];
    }
  }

  lemma {:induction false} BlockedAre(adds: seq<Package>, answers: seq<Answer>, removes: set<Package>,
      keep: set<Package>, p: Package)
    requires |answers| == |adds|
    ensures p in Blocked(adds, answers, removes, keep) <==>
      exists i :: 0 <= i < |adds| && adds[i] == p && Classify(answers[i], removes, keep) == Block
  {
    if adds != [] {
      var n := |adds| - 1;
      BlockedAre(adds[..n], answers[..n], removes, keep, p);
    }
  }

  /** The answers agree with the tenant's incompatibility table wherever a query was answered. */
  ghost predicate AnswersFrom(table: map<Package, set<Package>>, adds: seq<Package>, answers: seq<Answer>) {
    |answers| == |adds| &&
    forall i :: 0 <= i < |adds| && answers[i].Incompatible? ==>
      adds[i] in table && answers[i].packages == table[adds[i]]
  }

  ghost predicate AllAnswered(answers: seq<Answer>) {
    forall i :: 0 <= i < |answers| ==> answers[i].Incompatible?
  }

  /** The move is held exactly when an answered query names a package the user keeps. */
  lemma HeldIffKeptConflict(adds: seq<Package>, answers: seq<Answer>, removes: set<Package>, keep: set<Package>)
    requires |answers| == |adds|
    ensures Judge(adds, answers, removes, keep).HeldForReview? <==>
      exists i :: 0 <= i < |adds| && answers[i].Incompatible? && answers[i].packages * keep != {}
  {
    var blocked := Blocked(adds, answers, removes, keep);
    if blocked != [] {
      BlockedAre(adds, answers, removes, keep, blocked[0]);
    }
    forall i | 0 <= i < |adds| && answers[i].Incompatible? && answers[i].packages * keep != {}
      ensures blocked != []
    {
      BlockedAre(adds, answers, removes, keep, adds[i]);
    }
  }

  /** No addition is incompatible with anything in `held`. */
  ghost predicate Compatible(table: map<Package, set<Package>>, adds: seq<Package>, held: set<Package>) {
    forall p :: p in adds && p in table ==> table[p] * held == {}
  }

  /**
   * With every query answered, the move proceeds in the default order exactly when no
   * addition is incompatible with anything the user holds.
   */
  lemma ProceedIffCompatible(table: map<Package, set<Package>>, adds: seq<Package>, answers: seq<Answer>, plan: Plan,
      current: set<Package>)
    requires AnswersFrom(table, adds, answers) && AllAnswered(answers)
    requires current == plan.Keep() + plan.removes
    ensures Judge(adds, answers, plan.removes, plan.Keep()) == Proceed(false) <==> Compatible(table, adds, current)
  {
    var verdict := Judge(adds, answers, plan.removes, plan.Keep());
    HeldIffKeptConflict(adds, answers, plan.removes, plan.Keep());
    if verdict == Proceed(false) {
      forall p | p in adds && p in table ensures table[p] * current == {} {
        var i :| 0 <= i < |adds| && adds[i] == p;
        assert answers[i].Incompatible?;
        assert Classify(answers[i], plan.removes, plan.Keep()) != RemoveFirst;
      }
    }
    if Compatible(table, adds, current) {
      forall i | 0 <= i < |adds|
        ensures answers[i].packages * plan.Keep() == {} && Classify(answers[i], plan.removes, plan.Keep()) == Add
      {
        assert answers[i].Incompatible? && adds[i] in adds && table[adds[i]] * current == {};
        assert answers[i].packages * plan.Keep() <= table[adds[i]] * current;
        assert answers[i].packages * plan.removes <= table[adds[i]] * current;
      }
    }
  }

  /**
   * When it proceeds at all, every conflict with current holdings is with a package that
   * is going to be removed: once those are gone, none is left.
   */
  lemma ConflictsAreRemoved(table: map<Package, set<Package>>, adds: seq<Package>, answers: seq<Answer>, plan: Plan,
      current: set<Package>)
    requires AnswersFrom(table, adds, answers) && AllAnswered(answers)
    requires current == plan.Keep() + plan.removes
    requires Judge(adds, answers, plan.removes, plan.Keep()).Proceed?
    ensures forall p :: p in adds && p in table ==> table[p] * current <= plan.removes
    ensures Compatible(table, adds, current - plan.removes)
  {
    HeldIffKeptConflict(adds, answers, plan.removes, plan.Keep());
    forall p | p in adds && p in table
      ensures table[p] * current <= plan.removes && table[p] * (current - plan.removes) == {}
    {
      var i :| 0 <= i < |adds| && adds[i] == p;
      assert answers[i].Incompatible?;
      assert answers[i].packages * plan.Keep() == {};
      forall q | q in table[p] && q in current ensures q in plan.removes {
        assert q !in answers[i].packages * plan.Keep();
      }
    }
  }

  /** The verdict does not depend on the order in which the additions are looked at. */
  lemma VerdictIgnoresOrder(reply: map<Package, Answer>, one: seq<Package>, a: seq<Answer>, other: seq<Package>,
      b: seq<Answer>, removes: set<Package>, keep: set<Package>)
    requires |a| == |one| && |b| == |other| && Elements(one) == Elements(other)
    requires forall i :: 0 <= i < |one| ==> one[i] in reply && a[i] == reply[one[i]]
    requires forall i :: 0 <= i < |other| ==> other[i] in reply && b[i] == reply[other[i]]
    ensures Judge(one, a, removes, keep).HeldForReview? <==> Judge(other, b, removes, keep).HeldForReview?
    ensures Elements(Blocked(one, a, removes, keep)) == Elements(Blocked(other, b, removes, keep))
    ensures Reordering(a, removes, keep) <==> Reordering(b, removes, keep)
  {
    BlockedWithin(reply, one, a, other, b, removes, keep);
    BlockedWithin(reply, other, b, one, a, removes, keep);
    var x, y := Blocked(one, a, removes, keep), Blocked(other, b, removes, keep);
    assert x != [] ==> x[0] in Elements(x);
    assert y != [] ==> y[0] in Elements(y);
  }

  lemma BlockedWithin(reply: map<Package, Answer>, one: seq<Package>, a: seq<Answer>, other: seq<Package>,
      b: seq<Answer>, removes: set<Package>, keep: set<Package>)
    requires |a| == |one| && |b| == |other| && Elements(one) <= Elements(other)
    requires forall i :: 0 <= i < |one| ==> one[i] in reply && a[i] == reply[one[i]]
    requires forall i :: 0 <= i < |other| ==> other[i] in reply && b[i] == reply[other[i]]
    ensures Elements(Blocked(one, a, removes, keep)) <= Elements(Blocked(other, b, removes, keep))
    ensures Reordering(a, removes, keep) ==> Reordering(b, removes, keep)
  {
    forall i | 0 <= i < |one| ensures exists j :: 0 <= j < |other| && other[j] == one[i] && b[j] == a[i] {
      assert one[i] in Elements(other);
      var j :| 0 <= j < |other| && other[j] == one[i];
      assert b[j] == a[i];
    }
    forall p | p in Blocked(one, a, removes, keep) ensures p in Blocked(other, b, removes, keep) {
      BlockedAre(one, a, removes, keep, p);
      BlockedAre(other, b, removes, keep, p);
    }
    if Reordering(a, removes, keep) {
      var i :| 0 <= i < |a| && Classify(a[i], removes, keep) == RemoveFirst;
      assert one[i] in Elements(other);
      var j :| 0 <= j < |other| && other[j] == one[i];
      assert Classify(b[j], removes, keep) == RemoveFirst;
    }
  }

  lemma {:induction false} QueriesExtend(oracle: Oracle, log: Log, adds: seq<Package>)
    ensures log <= QueryAll(oracle, log, adds).log
    ensures Writes(QueryAll(oracle, log, adds).log) == Writes(log)
  {
    if adds != [] {
      QueriesExtend(oracle, log, adds[..|adds| - 1]);
      WritesOfAsk(oracle, QueryAll(oracle, log, adds[..|adds| - 1]).log, GetIncompatibilities(adds[|adds| - 1]));
    }
  }

  /**
   * What a plan does with a package, told by what is held, wanted, managed and on record:
   * a managed package that is held and no longer wanted goes, unless a retention record
   * is good for today or longer; nothing unmanaged is touched.
   */
  lemma PlanOfAPackage(current: set<Package>, target: set<Package>, catalogue: set<Package>,
      registry: map<Package, Date>, today: Date, p: Package)
    ensures var plan := MakePlan(current, target, catalogue, registry, today);
      && (p in plan.removes <==>
            p in current && p in catalogue && p !in target && !(p in registry && today <= registry[p]))
      && (p in plan.adds <==> p in target && !(p in current && p in catalogue))
      && (p in plan.Keep() <==> p in current && p !in plan.removes)
      && (p in plan.retained <==>
            p in current && p in catalogue && p !in target && p in registry && today <= registry[p])
  {
  }
}
