/** Entitlement resolution: the rules that match an identity, and the packages they grant. */
module Resolver {
  import opened Collections
  import opened Text
  import opened Tenant

  datatype Operator = Exact | ContainsText | StartsWithText | UnknownOperator

  datatype Condition = Condition(operator: Operator, value: string)

  /** `other` tells whether the rule has condition keys the resolver does not look at. */
  datatype Conditions = Conditions(
    department: Option<Condition>, jobTitle: Option<Condition>, employmentType: Option<Condition>, other: bool)

  /** Missing entitlement keys are empty strings: both are falsy to the resolver. */
  datatype Rule = Rule(id: string, conditions: Conditions, package: Package, policy: string)

  datatype Identity = Identity(department: string, jobTitle: string, employmentType: string)

  /** An AccessPackageAssignment. */
  datatype Grant = Grant(rule: string, package: Package, policy: string)

  predicate ConditionMatches(condition: Condition, value: string) {
    if value == "" then false
    else
      match condition.operator
      case Exact => Normalise(value) == Normalise(condition.value)
      case ContainsText => Contains(Normalise(value), Normalise(condition.value))
      case StartsWithText => StartsWith(Normalise(value), Normalise(condition.value))
      case UnknownOperator => false
  }

  predicate Holds(condition: Option<Condition>, value: string) {
    condition.Some? ==> ConditionMatches(condition.value, value)
  }

  /** Every condition holds; a rule without any condition never matches. */
  predicate RuleMatches(rule: Rule, who: Identity) {
    var c := rule.conditions;
    && (c.department.Some? || c.jobTitle.Some? || c.employmentType.Some? || c.other)
    && Holds(c.department, who.department)
    && Holds(c.jobTitle, who.jobTitle)
    && Holds(c.employmentType, who.employmentType)
  }

  /** The rule matches and names both a package and a policy. */
  predicate Grants(rule: Rule, who: Identity) {
    RuleMatches(rule, who) && rule.package != "" && rule.policy != ""
  }

  /** What each granting rule contributes, before deduplication. */
  function Candidates(rules: seq<Rule>, who: Identity): seq<Grant> {
    if rules == [] then []
    else
      var rest, rule := Candidates(rules[..|rules| - 1], who), rules[|rules| - 1];
      if Grants(rule, who) then rest + [Grant(rule.id, rule.package, rule.policy)] else rest
  }

  predicate SameKey(a: Grant, b: Grant) {
    a.package == b.package && a.policy == b.policy
  }

  predicate Seen(grants: seq<Grant>, g: Grant) {
    exists i :: 0 <= i < |grants| && SameKey(grants[i], g)
  }

  /** Keep the first grant of every package/policy pair, in order. */
  function Dedup(grants: seq<Grant>): seq<Grant> {
    if grants == [] then []
    else
      var rest, g := Dedup(grants[..|grants| - 1]), grants[|grants| - 1];
      if Seen(rest, g) then rest else rest + [g]
  }

  function Resolve(rules: seq<Rule>, who: Identity): seq<Grant> {
    Dedup(Candidates(rules, who))
  }

  /** `resolve_entitlements`: one pass over the rules, one over what they granted. */
  method ResolveEntitlements(rules: seq<Rule>, who: Identity) returns (packages: seq<Grant>)
    ensures packages == Resolve(rules, who)
  {
    var all := [];
    for i := 0 to |rules|
      invariant all == Candidates(rules[..i], who)
    {
      TakeOneMore(rules, i);
      var rule := rules[i];
      if RuleMatches(rule, who) {
        if rule.package != "" && rule.policy != "" {
          all := all + [Grant(rule.id, rule.package, rule.policy)];
        }
      }
    }
    TakeAll(rules);

    packages := [];
    var seen: set<(Package, string)> := {};
    for i := 0 to |all|
      invariant packages == Dedup(all[..i])
      invariant forall g: Grant :: (g.package, g.policy) in seen <==> Seen(packages, g)
    {
      TakeOneMore(all, i);
      var g := all[i];
      if (g.package, g.policy) !in seen {
        ghost var before := packages;
        packages := packages + [g];
        seen := seen + {(g.package, g.policy)};
        assert forall h: Grant :: Seen(packages, h) <==> Seen(before, h) || SameKey(g, h) by {
          assert packages[|before|] == g;
          assert forall k :: 0 <= k < |before| ==> packages[k] == before[k];
        }
      }
    }
    TakeAll(all);
  }

  // Laws.

  lemma {:induction false} CandidatesConcat(a: seq<Rule>, b: seq<Rule>, who: Identity)
    ensures Candidates(a + b, who) == Candidates(a, who) + Candidates(b, who)
  {
    if b == [] {
      assert a + b == a;
    } else {
      assert (a + b)[..|a + b| - 1] == a + b[..|b| - 1];
      CandidatesConcat(a, b[..|b| - 1], who);
    }
  }

  /** Deduplication keeps exactly the keys there are. */
  lemma {:induction false} DedupKeepsKeys(grants: seq<Grant>, g: Grant)
    ensures Seen(Dedup(grants), g) <==> Seen(grants, g)
  {
    if grants != [] {
      var init, last := grants[..|grants| - 1], grants[|grants| - 1];
      DedupKeepsKeys(init, g);
      DedupKeepsKeys(init, last);
      SeenSnoc(init, last, g);
      SeenSnoc(Dedup(init), last, g);
      assert grants == init + [last];
      if Seen(Dedup(init), last) && SameKey(last, g) {
        var i :| 0 <= i < |Dedup(init)| && SameKey(Dedup(init)[i], last);
        assert SameKey(Dedup(init)[i], g);
      }
    }
  }

  lemma SeenSnoc(grants: seq<Grant>, last: Grant, g: Grant)
    ensures Seen(grants + [last], g) <==> Seen(grants, g) || SameKey(last, g)
  {
    var all := grants + [last];
    if Seen(grants, g) {
      var i :| 0 <= i < |grants| && SameKey(grants[i], g);
      assert SameKey(all[i], g);
    }
    if SameKey(last, g) {
      assert SameKey(all[|grants|], g);
    }
  }

  lemma {:induction false} DedupOfConcat(a: seq<Grant>, b: seq<Grant>)
    ensures Dedup(a + b) == Dedup(Dedup(a) + Dedup(b))
  {
    if b == [] {
      assert a + b == a && Dedup(a) + Dedup(b) == Dedup(a);
      DedupTwice(a);
    } else {
      var init, last := b[..|b| - 1], b[|b| - 1];
      assert (a + b)[..|a + b| - 1] == a + init;
      DedupOfConcat(a, init);
      DedupKeepsKeys(a + init, last);
      SeenConcat(a, init, last);
      DedupKeepsKeys(a, last);
      DedupKeepsKeys(init, last);
      SeenConcat(Dedup(a), Dedup(init), last);
      DedupKeepsKeys(Dedup(a) + Dedup(init), last);
      if !Seen(Dedup(init), last) {
        assert (Dedup(a) + Dedup(b))[..|Dedup(a) + Dedup(b)| - 1] == Dedup(a) + Dedup(init);
      }
    }
  }

  lemma SeenConcat(a: seq<Grant>, b: seq<Grant>, g: Grant)
    ensures Seen(a + b, g) <==> Seen(a, g) || Seen(b, g)
  {
    if Seen(a, g) {
      var i :| 0 <= i < |a| && SameKey(a[i], g);
      assert SameKey((a + b)[i], g);
    }
    if Seen(b, g) {
      var i :| 0 <= i < |b| && SameKey(b[i], g);
      assert SameKey((a + b)[|a| + i], g);
    }
  }

  lemma {:induction false} DedupTwice(grants: seq<Grant>)
    ensures Dedup(Dedup(grants)) == Dedup(grants)
  {
    if grants != [] {
      var init, last := grants[..|grants| - 1], grants[|grants| - 1];
      DedupTwice(init);
      if !Seen(Dedup(init), last) {
        assert Dedup(grants)[..|Dedup(grants)| - 1] == Dedup(init);
      }
    }
  }

  /** Two rule lists one after the other resolve to the deduplicated results one after the other. */
  lemma ResolveConcat(a: seq<Rule>, b: seq<Rule>, who: Identity)
    ensures Resolve(a + b, who) == Dedup(Resolve(a, who) + Resolve(b, who))
  {
    CandidatesConcat(a, b, who);
    DedupOfConcat(Candidates(a, who), Candidates(b, who));
  }

  /** `grants[i]` is the first with its package/policy pair. */
  ghost predicate FirstOfItsKey(grants: seq<Grant>, i: nat)
    requires i < |grants|
  {
    forall j :: 0 <= j < i ==> grants[j].package != grants[i].package || grants[j].policy != grants[i].policy
  }

  /** A package is granted by the first rule that names its package/policy pair, and by no other. */
  lemma {:induction false} DedupIsFirsts(grants: seq<Grant>, g: Grant)
    ensures g in Dedup(grants) <==> AmongFirsts(grants, g)
  {
    if grants != [] {
      var init, last := grants[..|grants| - 1], grants[|grants| - 1];
      DedupIsFirsts(init, g);
      DedupKeepsKeys(init, last);
      FirstsOneMore(init, last, g);
      assert grants == init + [last];
    }
  }

  ghost predicate AmongFirsts(grants: seq<Grant>, g: Grant) {
    exists i :: 0 <= i < |grants| && grants[i] == g && FirstOfItsKey(grants, i)
  }

  lemma FirstsOneMore(init: seq<Grant>, last: Grant, g: Grant)
    ensures AmongFirsts(init + [last], g) <==> AmongFirsts(init, g) || (g == last && !Seen(init, last))
  {
    var grants := init + [last];
    forall i | 0 <= i < |init| ensures FirstOfItsKey(init, i) <==> FirstOfItsKey(grants, i) {
      assert forall j :: 0 <= j < i ==> grants[j] == init[j];
    }
    assert grants[|init|] == last && forall j :: 0 <= j < |init| ==> grants[j] == init[j];
    assert FirstOfItsKey(grants, |init|) <==> !Seen(init, last);
    if AmongFirsts(init, g) {
      var i :| 0 <= i < |init| && init[i] == g && FirstOfItsKey(init, i);
      assert grants[i] == g;
    }
    if g == last && !Seen(init, last) {
      assert grants[|init|] == g;
    }
  }

  function PackagesOf(grants: seq<Grant>): set<Package> {
    set g | g in grants :: g.package
  }

  lemma {:induction false} CandidateOf(rules: seq<Rule>, who: Identity, g: Grant)
    ensures g in Candidates(rules, who) <==>
      exists rule :: rule in rules && Grants(rule, who) && g == Grant(rule.id, rule.package, rule.policy)
  {
    if rules != [] {
      var init, last := rules[..|rules| - 1], rules[|rules| - 1];
      CandidateOf(init, who, g);
      assert rules == init + [last];
    }
  }

  /**
   * The packages an identity gets are those of the rules granting it, whatever their
   * order: the result depends on the set of rules alone and grows with it.
   */
  lemma PackagesAreThoseGranted(rules: seq<Rule>, who: Identity)
    ensures PackagesOf(Resolve(rules, who)) == set rule | rule in rules && Grants(rule, who) :: rule.package
  {
    var granted := set rule | rule in rules && Grants(rule, who) :: rule.package;
    forall p | p in PackagesOf(Resolve(rules, who)) ensures p in granted {
      var g :| g in Resolve(rules, who) && g.package == p;
      DedupIsFirsts(Candidates(rules, who), g);
      CandidateOf(rules, who, g);
    }
    forall p | p in granted ensures p in PackagesOf(Resolve(rules, who)) {
      var rule :| rule in rules && Grants(rule, who) && rule.package == p;
      var g := Grant(rule.id, rule.package, rule.policy);
      CandidateOf(rules, who, g);
      var i :| 0 <= i < |Candidates(rules, who)| && Candidates(rules, who)[i] == g;
      assert SameKey(Candidates(rules, who)[i], g);
      DedupKeepsKeys(Candidates(rules, who), g);
      var k :| 0 <= k < |Resolve(rules, who)| && SameKey(Resolve(rules, who)[k], g);
      assert Resolve(rules, who)[k] in Resolve(rules, who);
    }
  }

  lemma MoreRulesMorePackages(rules: seq<Rule>, more: seq<Rule>, who: Identity)
    requires Elements(rules) <= Elements(more)
    ensures PackagesOf(Resolve(rules, who)) <= PackagesOf(Resolve(more, who))
  {
    PackagesAreThoseGranted(rules, who);
    PackagesAreThoseGranted(more, who);
    forall p | p in PackagesOf(Resolve(rules, who)) ensures p in PackagesOf(Resolve(more, who)) {
      var rule :| rule in rules && Grants(rule, who) && rule.package == p;
      assert rule in Elements(rules);
      assert rule in more;
    }
  }

  /** `{ap.access_package_id: ap.policy_id for ap in ...}`: a later pair overwrites. */
  function PolicyMap(grants: seq<Grant>): map<Package, string> {
    if grants == [] then map[]
    else PolicyMap(grants[..|grants| - 1])[grants[|grants| - 1].package := grants[|grants| - 1].policy]
  }

  /** Every package id any rule names, with or without a policy. */
  function Catalogue(rules: seq<Rule>): set<Package> {
    set rule | rule in rules && rule.package != "" :: rule.package
  }

  lemma {:induction false} PolicyMapCovers(grants: seq<Grant>)
    ensures PolicyMap(grants).Keys == PackagesOf(grants)
    ensures forall p :: p in PolicyMap(grants) ==>
      exists g :: g in grants && g.package == p && g.policy == PolicyMap(grants)[p]
  {
    if grants != [] {
      var init, last := grants[..|grants| - 1], grants[|grants| - 1];
      PolicyMapCovers(init);
      assert grants == init + [last];
      assert PackagesOf(grants) == PackagesOf(init) + {last.package};
      forall p | p in PolicyMap(grants)
        ensures exists g :: g in grants && g.package == p && g.policy == PolicyMap(grants)[p]
      {
        if p != last.package {
          var g :| g in init && g.package == p && g.policy == PolicyMap(init)[p];
          assert g in grants;
        }
      }
    }
  }

  /**
   * Every target package is managed, and every one has a policy: the pipeline never
   * hands a package without policy to the submission phase.
   */
  lemma TargetsAreManagedAndCovered(rules: seq<Rule>, who: Identity)
    ensures PackagesOf(Resolve(rules, who)) <= Catalogue(rules)
    ensures forall p :: p in PackagesOf(Resolve(rules, who)) ==>
      p in PolicyMap(Resolve(rules, who)) && PolicyMap(Resolve(rules, who))[p] != ""
  {
    var grants := Resolve(rules, who);
    PackagesAreThoseGranted(rules, who);
    PolicyMapCovers(grants);
    forall p | p in PackagesOf(grants) ensures PolicyMap(grants)[p] != "" {
      var g :| g in grants && g.package == p && g.policy == PolicyMap(grants)[p];
      DedupIsFirsts(Candidates(rules, who), g);
      CandidateOf(rules, who, g);
    }
  }

  /** The policy of a package is that of its last grant. */
  lemma {:induction false} PolicyIsOfTheLastGrant(grants: seq<Grant>, i: nat)
    requires i < |grants| && forall j :: i < j < |grants| ==> grants[j].package != grants[i].package
    ensures grants[i].package in PolicyMap(grants) && PolicyMap(grants)[grants[i].package] == grants[i].policy
  {
    if i < |grants| - 1 {
      PolicyIsOfTheLastGrant(grants[..|grants| - 1], i);
    }
  }

  /** Any rule that names a package puts it in the catalogue, whether or not it matches anybody. */
  lemma CatalogueIff(rules: seq<Rule>, p: Package)
    ensures p in Catalogue(rules) <==> p != "" && exists i :: 0 <= i < |rules| && rules[i].package == p
  {
    if i :| 0 <= i < |rules| && rules[i].package == p {
      assert rules[i] in rules;
    }
  }

  /** A condition of a rule with the attribute it is about, if the rule has it. */
  function Conditioned(rule: Rule, who: Identity): seq<(Option<Condition>, string)> {
    [(rule.conditions.department, who.department), (rule.conditions.jobTitle, who.jobTitle),
     (rule.conditions.employmentType, who.employmentType)]
  }

  /** What a condition asks of an attribute, by its characters: the same text, a part of it, or its beginning. */
  ghost predicate Asks(c: Condition, value: string) {
    var v, wanted := Normalise(value), Normalise(c.value);
    value != "" &&
    match c.operator
    case Exact => v == wanted
    case ContainsText => exists i :: OccursAt(v, wanted, i)
    case StartsWithText => |wanted| <= |v| && v[..|wanted|] == wanted
    case UnknownOperator => false
  }

  /**
   * Which rules match: those with some condition, all of whose conditions on a department,
   * a job title or an employment type are met; a blank attribute meets none.
   */
  lemma MatchesIff(rule: Rule, who: Identity)
    ensures RuleMatches(rule, who) <==>
      && ((exists k :: 0 <= k < 3 && Conditioned(rule, who)[k].0.Some?) || rule.conditions.other)
      && forall k :: 0 <= k < 3 && Conditioned(rule, who)[k].0.Some? ==>
        Asks(Conditioned(rule, who)[k].0.value, Conditioned(rule, who)[k].1)
  {
    var all := Conditioned(rule, who);
    forall k | 0 <= k < 3 && all[k].0.Some? ensures Holds(all[k].0, all[k].1) <==> Asks(all[k].0.value, all[k].1) {
      ContainsIff(Normalise(all[k].1), Normalise(all[k].0.value.value));
    }
    assert all[0] == (rule.conditions.department, who.department);
    assert all[1] == (rule.conditions.jobTitle, who.jobTitle);
    assert all[2] == (rule.conditions.employmentType, who.employmentType);
    assert RuleMatches(rule, who) <==>
      && (all[0].0.Some? || all[1].0.Some? || all[2].0.Some? || rule.conditions.other)
      && Holds(all[0].0, all[0].1) && Holds(all[1].0, all[1].1) && Holds(all[2].0, all[2].1);
  }
}
