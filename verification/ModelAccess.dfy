/** The model-access part of a governance policy: may this model process data of these classes? */
module ModelAccess {
  import opened Basics

  datatype DataClass = Public | Internal | Confidential | Personal | SpecialCategory

  function Sensitivity(c: DataClass): nat {
    match c
    case Public => 0
    case Internal => 1
    case Confidential => 2
    case Personal => 3
    case SpecialCategory => 4
  }

  datatype ApprovalStatus = Draft | Approved | Suspended | Retired

  datatype Cost = Cost(inputPerMillion: real, outputPerMillion: real, cachedInputPerMillion: Option<real>)

  /** A registry entry; prices are not negative (`z.number().min(0)`). */
  datatype ModelRecord = ModelRecord(
    provider: string, model: string, adapter: string, hosting: string,
    approvalStatus: ApprovalStatus,
    retentionDays: nat, usedForTraining: bool, dpaAvailable: bool, zeroDataRetention: bool,
    allowedDataClasses: seq<DataClass>,
    cost: Option<Cost>, qualityTier: int, latencyTier: int)

  datatype Requirement = Requirement(
    approvalStatus: Option<seq<ApprovalStatus>>,
    usedForTraining: Option<bool>, dpaAvailable: Option<bool>, zeroDataRetention: Option<bool>,
    maxRetentionDays: Option<nat>,
    hosting: Option<seq<string>>, providers: Option<seq<string>>, adapters: Option<seq<string>>)

  datatype Rule = Rule(id: string, dataClasses: seq<DataClass>, deny: bool, require: Requirement)

  datatype AccessPolicy = AccessPolicy(id: string, version: nat, rules: seq<Rule>)

  /** One constructor per clause of a requirement. */
  datatype Mismatch =
    | StatusIs | TrainingIs | DpaIs | ZeroRetentionIs
    | RetentionExceeds | HostingNotIn | ProviderNotIn | AdapterNotIn

  datatype Reason =
    | NotInRegistryEntry(cls: DataClass)
    | DenyRuleMatches(id: string, cls: DataClass)
    | NoAllowRule(cls: DataClass)
    | NoAllowRuleSatisfied(cls: DataClass, why: seq<Mismatch>)

  datatype AccessDecision = AccessDecision(allowed: bool, matched: seq<string>, reasons: seq<Reason>)

  // ---------- requirements ----------

  /** This clause of the requirement rules the model out. */
  predicate RulesOut(req: Requirement, m: ModelRecord, clause: Mismatch) {
    match clause
    case StatusIs => req.approvalStatus.Some? && m.approvalStatus !in req.approvalStatus.value
    case TrainingIs => req.usedForTraining.Some? && m.usedForTraining != req.usedForTraining.value
    case DpaIs => req.dpaAvailable.Some? && m.dpaAvailable != req.dpaAvailable.value
    case ZeroRetentionIs => req.zeroDataRetention.Some? && m.zeroDataRetention != req.zeroDataRetention.value
    case RetentionExceeds => req.maxRetentionDays.Some? && m.retentionDays > req.maxRetentionDays.value
    case HostingNotIn => req.hosting.Some? && m.hosting !in req.hosting.value
    case ProviderNotIn => req.providers.Some? && m.provider !in req.providers.value
    case AdapterNotIn => req.adapters.Some? && m.adapter !in req.adapters.value
  }

  predicate Satisfied(req: Requirement, m: ModelRecord) {
    forall c: Mismatch :: !RulesOut(req, m, c)
  }

  /** A requirement is met by exactly the models that have what it asks for, clause by clause. */
  lemma RequirementMeans(req: Requirement, m: ModelRecord)
    ensures Satisfied(req, m) <==>
      && (match req.approvalStatus case Some(allowed) => m.approvalStatus in allowed case None => true)
      && (match req.usedForTraining case Some(flag) => m.usedForTraining == flag case None => true)
      && (match req.dpaAvailable case Some(flag) => m.dpaAvailable == flag case None => true)
      && (match req.zeroDataRetention case Some(flag) => m.zeroDataRetention == flag case None => true)
      && (match req.maxRetentionDays case Some(days) => m.retentionDays <= days case None => true)
      && (match req.hosting case Some(allowed) => m.hosting in allowed case None => true)
      && (match req.providers case Some(allowed) => m.provider in allowed case None => true)
      && (match req.adapters case Some(allowed) => m.adapter in allowed case None => true)
  {
    assert Satisfied(req, m) ==>
      && !RulesOut(req, m, StatusIs) && !RulesOut(req, m, TrainingIs) && !RulesOut(req, m, DpaIs)
      && !RulesOut(req, m, ZeroRetentionIs) && !RulesOut(req, m, RetentionExceeds) && !RulesOut(req, m, HostingNotIn)
      && !RulesOut(req, m, ProviderNotIn) && !RulesOut(req, m, AdapterNotIn);
    if !Satisfied(req, m) {
      var c: Mismatch :| RulesOut(req, m, c);
      match c
      case StatusIs | TrainingIs | DpaIs | ZeroRetentionIs =>
      case RetentionExceeds | HostingNotIn | ProviderNotIn | AdapterNotIn =>
    }
  }

  function Noted(req: Requirement, m: ModelRecord, clause: Mismatch, before: seq<Mismatch>): (r: seq<Mismatch>)
    ensures forall c :: c in r <==> c in before || (c == clause && RulesOut(req, m, clause))
  {
    if RulesOut(req, m, clause) then before + [clause] else before
  }

  /** The complaints so far, followed by every clause that rules the model out. */
  function WithMismatches(req: Requirement, m: ModelRecord, before: seq<Mismatch>): (r: seq<Mismatch>)
    ensures forall c :: c in r <==> c in before || RulesOut(req, m, c)
  {
    hide RulesOut;
    var general := Noted(req, m, RetentionExceeds, Noted(req, m, ZeroRetentionIs, Noted(req, m, DpaIs,
                     Noted(req, m, TrainingIs, Noted(req, m, StatusIs, before)))));
    Noted(req, m, AdapterNotIn, Noted(req, m, ProviderNotIn, Noted(req, m, HostingNotIn, general)))
  }

  /** `requirementSatisfied`: every clause is looked at, failed or not, and each failure is reported in order. */
  method RequirementSatisfied(req: Requirement, m: ModelRecord, reasons: seq<Mismatch>)
    returns (ok: bool, extended: seq<Mismatch>)
    ensures ok <==> Satisfied(req, m)
    ensures extended == WithMismatches(req, m, reasons)
  {
    hide RulesOut;
    ok, extended := true, reasons;
    ok, extended := Check(req, m, StatusIs, ok, extended);
    ok, extended := Check(req, m, TrainingIs, ok, extended);
    ok, extended := Check(req, m, DpaIs, ok, extended);
    ok, extended := Check(req, m, ZeroRetentionIs, ok, extended);
    ok, extended := Check(req, m, RetentionExceeds, ok, extended);
    ok, extended := Check(req, m, HostingNotIn, ok, extended);
    ok, extended := Check(req, m, ProviderNotIn, ok, extended);
    ok, extended := Check(req, m, AdapterNotIn, ok, extended);
    if ok {
      forall c: Mismatch ensures !RulesOut(req, m, c) {
        match c
        case StatusIs | TrainingIs | DpaIs | ZeroRetentionIs =>
        case RetentionExceeds | HostingNotIn | ProviderNotIn | AdapterNotIn =>
      }
    }
  }

  method Check(req: Requirement, m: ModelRecord, clause: Mismatch, ok: bool, reasons: seq<Mismatch>)
    returns (still: bool, extended: seq<Mismatch>)
    ensures still <==> ok && !RulesOut(req, m, clause)
    ensures extended == Noted(req, m, clause, reasons)
  {
    still, extended := ok, reasons;
    if RulesOut(req, m, clause) {
      still := false;
      extended := extended + [clause];
    }
  }

  // ---------- the declarative rule ----------

  /** Some rule of this effect that covers the class is satisfied by the model. */
  predicate SomeRule(p: AccessPolicy, m: ModelRecord, cls: DataClass, deny: bool) {
    exists r :: r in p.rules && Applies(r, m, cls, deny)
  }

  predicate Applies(r: Rule, m: ModelRecord, cls: DataClass, deny: bool) {
    r.deny == deny && cls in r.dataClasses && Satisfied(r.require, m)
  }

  predicate ClassPermitted(p: AccessPolicy, m: ModelRecord, cls: DataClass) {
    && cls in m.allowedDataClasses
    && !SomeRule(p, m, cls, true)
    && SomeRule(p, m, cls, false)
  }

  function Requested(classes: seq<DataClass>): set<DataClass> {
    if classes == [] then {Public} else set c | c in classes
  }

  /** Every requested class is under the registry ceiling, hit by no deny rule and covered by an allow rule. */
  predicate Permitted(p: AccessPolicy, m: ModelRecord, classes: seq<DataClass>) {
    forall c :: c in Requested(classes) ==> ClassPermitted(p, m, c)
  }

  // ---------- the evaluation order ----------

  predicate MostSensitiveFirst(xs: seq<DataClass>) {
    forall i, j :: 0 <= i < j < |xs| ==> Sensitivity(xs[i]) > Sensitivity(xs[j])
  }

  /** There is exactly one list of these classes without repetition, most sensitive first. */
  lemma {:induction false} OrderIsUnique(xs: seq<DataClass>, ys: seq<DataClass>)
    requires MostSensitiveFirst(xs) && MostSensitiveFirst(ys) && forall c :: c in xs <==> c in ys
    ensures xs == ys
  {
    assert |xs| > 0 ==> xs[0] in xs;
    assert |ys| > 0 ==> ys[0] in ys;
    if xs != [] && ys != [] {
      assert xs[0] in ys && ys[0] in xs;
      assert xs[0] == ys[0];
      forall c ensures c in xs[1..] <==> c in ys[1..] {
        assert c in xs <==> c == xs[0] || c in xs[1..];
        assert c in ys <==> c == ys[0] || c in ys[1..];
        assert xs[0] !in xs[1..] && ys[0] !in ys[1..];
      }
      OrderIsUnique(xs[1..], ys[1..]);
    }
  }

  const BY_SENSITIVITY := [SpecialCategory, Personal, Confidential, Internal, Public]

  function OnlyIn(order: seq<DataClass>, wanted: set<DataClass>): (r: seq<DataClass>)
    ensures forall c :: c in r <==> c in order && c in wanted
  {
    if order == [] then []
    else (if order[0] in wanted then [order[0]] else []) + OnlyIn(order[1..], wanted)
  }

  /** The classes to look at: distinct, most sensitive first, `public` if none were given. */
  function Ordered(classes: seq<DataClass>): seq<DataClass> {
    OnlyIn(BY_SENSITIVITY, Requested(classes))
  }

  lemma {:induction false} OnlyInKeepsOrder(order: seq<DataClass>, wanted: set<DataClass>)
    requires MostSensitiveFirst(order)
    ensures MostSensitiveFirst(OnlyIn(order, wanted))
  {
    if order != [] {
      OnlyInKeepsOrder(order[1..], wanted);
      var rest := OnlyIn(order[1..], wanted);
      forall j | 0 <= j < |rest| ensures Sensitivity(order[0]) > Sensitivity(rest[j]) {
        assert rest[j] in order[1..];
      }
    }
  }

  lemma OrderedIsSorted(classes: seq<DataClass>)
    ensures MostSensitiveFirst(Ordered(classes))
    ensures forall c :: c in Ordered(classes) <==> c in Requested(classes)
  {
    OnlyInKeepsOrder(BY_SENSITIVITY, Requested(classes));
    forall c: DataClass ensures c in BY_SENSITIVITY {
      assert BY_SENSITIVITY[4 - Sensitivity(c)] == c;
    }
  }

  /** Insertion into a list that is most sensitive first; a class already there is not repeated. */
  function Insert(c: DataClass, xs: seq<DataClass>): (r: seq<DataClass>)
    ensures forall d :: d in r <==> d == c || d in xs
  {
    if xs == [] then [c]
    else if xs[0] == c then xs
    else if Sensitivity(c) > Sensitivity(xs[0]) then [c] + xs
    else [xs[0]] + Insert(c, xs[1..])
  }

  lemma {:induction false} InsertKeepsOrder(c: DataClass, xs: seq<DataClass>)
    requires MostSensitiveFirst(xs)
    ensures MostSensitiveFirst(Insert(c, xs))
  {
    if xs != [] && xs[0] != c && Sensitivity(c) < Sensitivity(xs[0]) {
      InsertKeepsOrder(c, xs[1..]);
      var rest := Insert(c, xs[1..]);
      forall j | 0 <= j < |rest| ensures Sensitivity(xs[0]) > Sensitivity(rest[j]) {
        assert rest[j] == c || rest[j] in xs[1..];
      }
    }
  }

  /** Deduplication and sorting of the request's classes. */
  method SortClasses(classes: seq<DataClass>) returns (sorted: seq<DataClass>)
    ensures sorted == Ordered(classes)
  {
    hide Insert, Ordered, OnlyIn;
    sorted := [];
    for i := 0 to |classes|
      invariant MostSensitiveFirst(sorted)
      invariant forall c :: c in sorted <==> c in classes[..i]
    {
      InsertKeepsOrder(classes[i], sorted);
      assert classes[..i + 1] == classes[..i] + [classes[i]];
      sorted := Insert(classes[i], sorted);
    }
    assert classes[..|classes|] == classes;
    assert sorted == [] <==> classes == [] by {
      assert classes != [] ==> classes[0] in sorted;
      assert sorted != [] ==> sorted[0] in classes;
    }
    if |sorted| == 0 {
      sorted := [Public];
    }
    OrderedIsSorted(classes);
    OrderIsUnique(sorted, Ordered(classes));
  }

  // ---------- evaluation ----------

  /** The first rule, in policy order, of this effect that covers the class and is satisfied. */
  function FirstRule(rules: seq<Rule>, m: ModelRecord, cls: DataClass, deny: bool): (r: Option<Rule>)
    ensures r.None? <==> forall x :: x in rules ==> !Applies(x, m, cls, deny)
    ensures r.Some? ==> r.value in rules && Applies(r.value, m, cls, deny)
  {
    if rules == [] then None
    else if Applies(rules[0], m, cls, deny) then Some(rules[0])
    else FirstRule(rules[1..], m, cls, deny)
  }

  /** What the allow rules for a class complain about, one rule after the other. */
  function Complaints(rules: seq<Rule>, m: ModelRecord, cls: DataClass, before: seq<Mismatch>): seq<Mismatch> {
    if rules == [] then before
    else Complaints(rules[1..], m, cls,
                    if !rules[0].deny && cls in rules[0].dataClasses
                      then WithMismatches(rules[0].require, m, before) else before)
  }

  predicate CoveredByAllowRule(rules: seq<Rule>, cls: DataClass) {
    exists r :: r in rules && !r.deny && cls in r.dataClasses
  }

  /** Why a class that is not permitted is refused. */
  function Refusal(p: AccessPolicy, m: ModelRecord, cls: DataClass): Reason {
    if cls !in m.allowedDataClasses then NotInRegistryEntry(cls)
    else
      var d := FirstRule(p.rules, m, cls, true);
      if d.Some? then DenyRuleMatches(d.value.id, cls)
      else if !CoveredByAllowRule(p.rules, cls) then NoAllowRule(cls)
      else NoAllowRuleSatisfied(cls, Complaints(p.rules, m, cls, []))
  }

  /** The rule ids reported for a class: the deny rule that hit it, or the first allow rule that covers it. */
  function RuleFor(p: AccessPolicy, m: ModelRecord, cls: DataClass): seq<string> {
    if cls !in m.allowedDataClasses then []
    else
      var d, a := FirstRule(p.rules, m, cls, true), FirstRule(p.rules, m, cls, false);
      if d.Some? then [d.value.id] else if a.Some? then [a.value.id] else []
  }

  function DecideFrom(p: AccessPolicy, m: ModelRecord, classes: seq<DataClass>, matched: seq<string>): AccessDecision {
    if classes == [] then AccessDecision(true, matched, [])
    else if !ClassPermitted(p, m, classes[0])
    then AccessDecision(false, matched + RuleFor(p, m, classes[0]), [Refusal(p, m, classes[0])])
    else DecideFrom(p, m, classes[1..], matched + RuleFor(p, m, classes[0]))
  }

  function Evaluate(p: AccessPolicy, m: ModelRecord, classes: seq<DataClass>): AccessDecision {
    DecideFrom(p, m, Ordered(classes), [])
  }

  /** `evaluateModelAccess`, with its early exits. */
  method EvaluateModelAccess(p: AccessPolicy, m: ModelRecord, dataClasses: seq<DataClass>) returns (d: AccessDecision)
    ensures d == Evaluate(p, m, dataClasses)
  {
    hide Complaints, FirstRule, Ordered, Satisfied;
    var classes := SortClasses(dataClasses);
    var matched: seq<string> := [];
    for i := 0 to |classes|
      invariant DecideFrom(p, m, classes[i..], matched) == Evaluate(p, m, dataClasses)
    {
      var cls := classes[i];
      assert classes[i..][0] == cls && classes[i..][1..] == classes[i + 1..];
      if cls !in m.allowedDataClasses {
        return AccessDecision(false, matched, [NotInRegistryEntry(cls)]);
      }
      var denying := FindDeny(p.rules, m, cls);
      if denying.Some? {
        return AccessDecision(false, matched + [denying.value.id], [DenyRuleMatches(denying.value.id, cls)]);
      }
      var allowing, complaints, count := FindAllow(p.rules, m, cls);
      if allowing.None? {
        return AccessDecision(false, matched,
                              [if count == 0 then NoAllowRule(cls) else NoAllowRuleSatisfied(cls, complaints)]);
      }
      matched := matched + [allowing.value.id];
    }
    return AccessDecision(true, matched, []);
  }

  method FindDeny(rules: seq<Rule>, m: ModelRecord, cls: DataClass) returns (r: Option<Rule>)
    ensures r == FirstRule(rules, m, cls, true)
  {
    for i := 0 to |rules|
      invariant FirstRule(rules[i..], m, cls, true) == FirstRule(rules, m, cls, true)
    {
      assert rules[i..][1..] == rules[i + 1..];
      if rules[i].deny && cls in rules[i].dataClasses {
        var ok, _ := RequirementSatisfied(rules[i].require, m, []);
        if ok {
          return Some(rules[i]);
        }
      }
    }
    return None;
  }

  lemma FirstRuleStep(rules: seq<Rule>, m: ModelRecord, cls: DataClass, deny: bool, i: nat)
    requires i < |rules|
    ensures FirstRule(rules[i..], m, cls, deny)
         == if Applies(rules[i], m, cls, deny) then Some(rules[i]) else FirstRule(rules[i + 1..], m, cls, deny)
  {
    assert rules[i..][1..] == rules[i + 1..];
    hide Applies;
  }

  lemma ComplaintsStep(rules: seq<Rule>, m: ModelRecord, cls: DataClass, before: seq<Mismatch>, i: nat)
    requires i < |rules|
    ensures var now := if !rules[i].deny && cls in rules[i].dataClasses
                       then WithMismatches(rules[i].require, m, before) else before;
            Complaints(rules[i..], m, cls, before) == Complaints(rules[i + 1..], m, cls, now)
  {
    assert rules[i..][1..] == rules[i + 1..];
    hide WithMismatches;
  }

  lemma NoRulesLeft(rules: seq<Rule>, m: ModelRecord, cls: DataClass, before: seq<Mismatch>)
    ensures FirstRule(rules[|rules|..], m, cls, false) == None
    ensures Complaints(rules[|rules|..], m, cls, before) == before
    ensures rules[0..] == rules
  {}

  /** Tries the allow rules for the class in order, collecting complaints until one is satisfied. */
  method FindAllow(rules: seq<Rule>, m: ModelRecord, cls: DataClass)
    returns (r: Option<Rule>, complaints: seq<Mismatch>, count: nat)
    ensures r == FirstRule(rules, m, cls, false)
    ensures r.None? ==> complaints == Complaints(rules, m, cls, []) && (count == 0 <==> !CoveredByAllowRule(rules, cls))
  {
    hide WithMismatches, Satisfied, FirstRule, Complaints;
    complaints, count := [], 0;
    NoRulesLeft(rules, m, cls, complaints);
    for i := 0 to |rules|
      invariant FirstRule(rules[i..], m, cls, false) == FirstRule(rules, m, cls, false)
      invariant Complaints(rules[i..], m, cls, complaints) == Complaints(rules, m, cls, [])
      invariant count == 0 <==> forall j :: 0 <= j < i ==> rules[j].deny || cls !in rules[j].dataClasses
    {
      FirstRuleStep(rules, m, cls, false, i);
      ComplaintsStep(rules, m, cls, complaints, i);
      if !rules[i].deny && cls in rules[i].dataClasses {
        count := count + 1;
        var ok, extended := RequirementSatisfied(rules[i].require, m, complaints);
        if ok {
          return Some(rules[i]), complaints, count;
        }
        complaints := extended;
      }
    }
    NoRulesLeft(rules, m, cls, complaints);
    return None, complaints, count;
  }

  // ---------- what the evaluation decides ----------

  lemma {:induction false} DecideFromIsExact(p: AccessPolicy, m: ModelRecord, classes: seq<DataClass>,
                                             matched: seq<string>)
    ensures DecideFrom(p, m, classes, matched).allowed <==> forall c :: c in classes ==> ClassPermitted(p, m, c)
  {
    hide ClassPermitted, RuleFor, Refusal;
    if classes != [] {
      DecideFromIsExact(p, m, classes[1..], matched + RuleFor(p, m, classes[0]));
      assert forall c :: c in classes <==> c == classes[0] || c in classes[1..];
    }
  }

  /** The early exits decide exactly the declarative rule. */
  lemma AccessIsExact(p: AccessPolicy, m: ModelRecord, classes: seq<DataClass>)
    ensures Evaluate(p, m, classes).allowed <==> Permitted(p, m, classes)
  {
    OrderedIsSorted(classes);
    DecideFromIsExact(p, m, Ordered(classes), []);
    hide ClassPermitted, Ordered;
  }

  /** Order and repetition of the requested classes change nothing, not even the reasons. */
  lemma OrderAndRepetitionIrrelevant(p: AccessPolicy, m: ModelRecord, a: seq<DataClass>, b: seq<DataClass>)
    requires forall c :: c in a <==> c in b
    ensures Evaluate(p, m, a) == Evaluate(p, m, b)
  {
    OrderedIsSorted(a);
    OrderedIsSorted(b);
    assert a == [] <==> b == [] by {
      assert a != [] ==> a[0] in b;
      assert b != [] ==> b[0] in a;
    }
    OrderIsUnique(Ordered(a), Ordered(b));
  }

  /** Asking for more classes can only lose access; `public` alone is what an empty request means. */
  lemma MoreClassesNeverWiden(p: AccessPolicy, m: ModelRecord, fewer: seq<DataClass>, more: seq<DataClass>)
    requires Requested(fewer) <= Requested(more) && Evaluate(p, m, more).allowed
    ensures Evaluate(p, m, fewer).allowed
  {
    AccessIsExact(p, m, fewer);
    AccessIsExact(p, m, more);
  }

  lemma {:induction false} DecideFromDenies(p: AccessPolicy, m: ModelRecord, classes: seq<DataClass>,
                                            matched: seq<string>) returns (k: nat)
    requires !DecideFrom(p, m, classes, matched).allowed
    ensures k < |classes| && !ClassPermitted(p, m, classes[k])
    ensures forall j :: 0 <= j < k ==> ClassPermitted(p, m, classes[j])
    ensures DecideFrom(p, m, classes, matched).reasons == [Refusal(p, m, classes[k])]
  {
    hide ClassPermitted, RuleFor, Refusal;
    if !ClassPermitted(p, m, classes[0]) {
      k := 0;
    } else {
      var rest := DecideFromDenies(p, m, classes[1..], matched + RuleFor(p, m, classes[0]));
      k := rest + 1;
      forall j | 0 <= j < k ensures ClassPermitted(p, m, classes[j]) {
        assert j > 0 ==> classes[j] == classes[1..][j - 1];
      }
    }
  }

  /** A denial gives one reason, and it is about the most sensitive requested class that is not permitted. */
  lemma DenialNamesMostSensitive(p: AccessPolicy, m: ModelRecord, classes: seq<DataClass>)
    requires !Evaluate(p, m, classes).allowed
    ensures exists c :: c in Requested(classes) && !ClassPermitted(p, m, c)
              && Evaluate(p, m, classes).reasons == [Refusal(p, m, c)]
              && forall e :: e in Requested(classes) && !ClassPermitted(p, m, e) ==> Sensitivity(e) <= Sensitivity(c)
  {
    OrderedIsSorted(classes);
    var order := Ordered(classes);
    var k := DecideFromDenies(p, m, order, []);
    hide ClassPermitted, Refusal, Ordered, DecideFrom;
    assert order[k] in order;
    forall e | e in Requested(classes) && !ClassPermitted(p, m, e) ensures Sensitivity(e) <= Sensitivity(order[k]) {
      assert e in order;
      var j :| 0 <= j < |order| && order[j] == e;
    }
  }

  // ---------- the rules and reasons that are reported ----------

  /** `id` names the first rule, in policy order, of this effect that covers the class and is satisfied. */
  predicate FirstToApply(rules: seq<Rule>, m: ModelRecord, cls: DataClass, deny: bool, id: string) {
    exists k :: 0 <= k < |rules| && rules[k].id == id && Applies(rules[k], m, cls, deny)
                && forall j :: 0 <= j < k ==> !Applies(rules[j], m, cls, deny)
  }

  lemma {:induction false} FirstRuleIsFirst(rules: seq<Rule>, m: ModelRecord, cls: DataClass, deny: bool)
    requires FirstRule(rules, m, cls, deny).Some?
    ensures FirstToApply(rules, m, cls, deny, FirstRule(rules, m, cls, deny).value.id)
  {
    hide Applies;
    var id := FirstRule(rules, m, cls, deny).value.id;
    if Applies(rules[0], m, cls, deny) {
      assert rules[0].id == id;
    } else {
      FirstRuleIsFirst(rules[1..], m, cls, deny);
      var k :| 0 <= k < |rules[1..]| && rules[1..][k].id == id && Applies(rules[1..][k], m, cls, deny)
        && forall j :: 0 <= j < k ==> !Applies(rules[1..][j], m, cls, deny);
      forall j | 0 <= j < k + 1 ensures !Applies(rules[j], m, cls, deny) {
        assert j > 0 ==> rules[j] == rules[1..][j - 1];
      }
      assert rules[k + 1] == rules[1..][k];
    }
  }

  lemma {:induction false} DecideFromAppends(p: AccessPolicy, m: ModelRecord, classes: seq<DataClass>,
                                             matched: seq<string>)
    ensures DecideFrom(p, m, classes, matched).matched == matched + DecideFrom(p, m, classes, []).matched
  {
    hide ClassPermitted, RuleFor, Refusal;
    if classes != [] && ClassPermitted(p, m, classes[0]) {
      var ids, rest := RuleFor(p, m, classes[0]), DecideFrom(p, m, classes[1..], []).matched;
      DecideFromAppends(p, m, classes[1..], matched + ids);
      DecideFromAppends(p, m, classes[1..], [] + ids);
      assert matched + ids + rest == matched + ([] + ids + rest);
    }
  }

  lemma {:induction false} DecideFromMatches(p: AccessPolicy, m: ModelRecord, classes: seq<DataClass>)
    requires forall c :: c in classes ==> ClassPermitted(p, m, c)
    ensures var ids := DecideFrom(p, m, classes, []).matched;
            && |ids| == |classes|
            && forall i :: 0 <= i < |classes| ==> FirstToApply(p.rules, m, classes[i], false, ids[i])
  {
    hide FirstToApply, Refusal;
    if classes != [] {
      var c := classes[0];
      assert c in classes;
      FirstRuleIsFirst(p.rules, m, c, false);
      var id := FirstRule(p.rules, m, c, false).value.id;
      assert RuleFor(p, m, c) == [id];
      hide RuleFor, ClassPermitted, FirstRule;
      assert forall d :: d in classes[1..] ==> d in classes;
      DecideFromMatches(p, m, classes[1..]);
      DecideFromAppends(p, m, classes[1..], [] + [id]);
    }
  }

  /** A permit names, most sensitive class first, the first allow rule in policy order that admits each class. */
  lemma PermitNamesFirstRules(p: AccessPolicy, m: ModelRecord, classes: seq<DataClass>)
    requires Permitted(p, m, classes)
    ensures var d := Evaluate(p, m, classes);
            && |d.matched| == |Ordered(classes)|
            && forall i :: 0 <= i < |d.matched| ==>
                 FirstToApply(p.rules, m, Ordered(classes)[i], false, d.matched[i])
  {
    hide ClassPermitted, FirstToApply, Ordered;
    OrderedIsSorted(classes);
    DecideFromMatches(p, m, Ordered(classes));
  }

  lemma {:induction false} ComplaintsAre(rules: seq<Rule>, m: ModelRecord, cls: DataClass, before: seq<Mismatch>,
                                         c: Mismatch)
    ensures c in Complaints(rules, m, cls, before) <==>
      c in before || exists r :: r in rules && !r.deny && cls in r.dataClasses && RulesOut(r.require, m, c)
  {
    hide RulesOut, WithMismatches;
    if rules != [] {
      var now := if !rules[0].deny && cls in rules[0].dataClasses
                 then WithMismatches(rules[0].require, m, before) else before;
      ComplaintsAre(rules[1..], m, cls, now, c);
      assert forall r :: r in rules <==> r == rules[0] || r in rules[1..];
    }
  }

  /**
    The reason given for a class is the first that holds: the registry entry does not list it, a deny rule hits it
    (the first in policy order), no allow rule mentions it, or those that do complain, about exactly what is listed.
   */
  lemma RefusalIsExact(p: AccessPolicy, m: ModelRecord, cls: DataClass)
    requires !ClassPermitted(p, m, cls)
    ensures var mentioned := exists r :: r in p.rules && !r.deny && cls in r.dataClasses;
            var hit := exists r :: r in p.rules && Applies(r, m, cls, true);
            match Refusal(p, m, cls)
            case NotInRegistryEntry(c) => c == cls && cls !in m.allowedDataClasses
            case DenyRuleMatches(id, c) =>
              c == cls && cls in m.allowedDataClasses && hit && FirstToApply(p.rules, m, cls, true, id)
            case NoAllowRule(c) => c == cls && cls in m.allowedDataClasses && !hit && !mentioned
            case NoAllowRuleSatisfied(c, why) =>
              && c == cls && cls in m.allowedDataClasses && !hit && mentioned
              && forall clause :: clause in why <==>
                   exists r :: r in p.rules && !r.deny && cls in r.dataClasses && RulesOut(r.require, m, clause)
  {
    hide Satisfied, RulesOut, FirstToApply, Complaints;
    if FirstRule(p.rules, m, cls, true).Some? {
      FirstRuleIsFirst(p.rules, m, cls, true);
    }
    forall clause ensures clause in Complaints(p.rules, m, cls, []) <==>
      exists r :: r in p.rules && !r.deny && cls in r.dataClasses && RulesOut(r.require, m, clause)
    {
      ComplaintsAre(p.rules, m, cls, [], clause);
    }
  }

  /** The five classes from the most to the least sensitive, however they are asked for. */
  lemma AllClassesInOrder(classes: seq<DataClass>)
    requires forall c: DataClass :: c in classes
    ensures Ordered(classes) == [SpecialCategory, Personal, Confidential, Internal, Public]
  {
    OrderedIsSorted(classes);
    hide Ordered;
    var all := [SpecialCategory, Personal, Confidential, Internal, Public];
    forall c: DataClass ensures c in all {
      assert all[4 - Sensitivity(c)] == c;
    }
    assert classes != [] by { assert Public in classes; }
    OrderIsUnique(Ordered(classes), all);
  }
}
