/** The publication part of a governance policy: `evaluatePublication` in policy.ts. */
module PublicationPolicy {
  import opened Basics

  datatype Effect = Allow | Deny | RequireApproval

  /** `policy.publication`, flattened. */
  datatype Policy = Policy(
    always: bool,
    approveAiAssisted: bool,
    readinessBelow: real,
    readinessUnknown: bool,
    approveCoverageBelow: real,
    topics: set<string>,
    disclosureWhenAiAssisted: bool,
    machineReadableMarking: bool,
    blockUnsupportedClaims: bool,
    blockCoverageBelow: real,
    prohibitedSourceKinds: set<string>)

  datatype Facts = Facts(
    aiAssisted: bool,
    readiness: Option<real>,
    coverage: real,
    unsupportedClaims: nat,
    topics: seq<string>,
    sourceKinds: seq<string>)

  /** One constructor per message the evaluator can push. */
  datatype Finding =
    | Unsupported(count: nat)
    | CoverageBlocked(coverage: real)
    | ProhibitedSources
    | ApprovalAlways
    | AiNeedsApproval
    | ReadinessNotAssessed
    | ReadinessLow(score: real)
    | CoverageLow(coverage: real)
    | SensitiveTopics

  datatype Decision = Decision(
    effect: Effect,
    reasons: seq<Finding>,
    blockers: seq<Finding>,
    warnings: seq<Finding>,
    requiresDisclosure: bool,
    requiresMarking: bool)

  predicate UsesProhibitedSource(p: Policy, f: Facts) {
    exists k :: k in f.sourceKinds && k in p.prohibitedSourceKinds
  }

  predicate OnSensitiveTopic(p: Policy, f: Facts) {
    exists t :: t in f.topics && t in p.topics
  }

  /** Some blocking condition of the policy holds. */
  predicate Blocked(p: Policy, f: Facts) {
    || (p.blockUnsupportedClaims && f.unsupportedClaims > 0)
    || f.coverage < p.blockCoverageBelow
    || UsesProhibitedSource(p, f)
  }

  /** Some approval condition of the policy holds. */
  predicate NeedsApproval(p: Policy, f: Facts) {
    || p.always
    || (p.approveAiAssisted && f.aiAssisted)
    || (if f.readiness.None? then p.readinessUnknown else f.readiness.value < p.readinessBelow)
    || f.coverage < p.approveCoverageBelow
    || OnSensitiveTopic(p, f)
  }

  function When(c: bool, f: Finding): (s: seq<Finding>)
    ensures s != [] <==> c
  {
    if c then [f] else []
  }

  function Blockers(p: Policy, f: Facts): (s: seq<Finding>)
    ensures s != [] <==> Blocked(p, f)
  {
    [] + When(p.blockUnsupportedClaims && f.unsupportedClaims > 0, Unsupported(f.unsupportedClaims))
    + When(f.coverage < p.blockCoverageBelow, CoverageBlocked(f.coverage))
    + When(UsesProhibitedSource(p, f), ProhibitedSources)
  }

  function ApprovalReasons(p: Policy, f: Facts): (s: seq<Finding>)
    ensures s != [] <==> NeedsApproval(p, f)
  {
    [] + When(p.always, ApprovalAlways)
    + When(p.approveAiAssisted && f.aiAssisted, AiNeedsApproval)
    + (if f.readiness.None? then When(p.readinessUnknown, ReadinessNotAssessed)
       else When(f.readiness.value < p.readinessBelow, ReadinessLow(f.readiness.value)))
    + When(f.coverage < p.approveCoverageBelow, CoverageLow(f.coverage))
    + When(OnSensitiveTopic(p, f), SensitiveTopics)
  }

  /** The decision as a value; blockers win over approval, approval over allow. */
  function Decide(p: Policy, f: Facts): (d: Decision)
    ensures d.effect == Deny <==> Blocked(p, f)
    ensures d.effect == RequireApproval <==> !Blocked(p, f) && NeedsApproval(p, f)
    ensures d.requiresDisclosure <==> f.aiAssisted && p.disclosureWhenAiAssisted
    ensures d.requiresMarking <==> f.aiAssisted && p.disclosureWhenAiAssisted && p.machineReadableMarking
  {
    var blockers := Blockers(p, f);
    var disclosure := f.aiAssisted && p.disclosureWhenAiAssisted;
    var marking := disclosure && p.machineReadableMarking;
    if blockers != [] then
      Decision(Deny, blockers, blockers, [], disclosure, marking)
    else
      var reasons := ApprovalReasons(p, f);
      Decision(if reasons != [] then RequireApproval else Allow, reasons, [],
               When(f.readiness.None? && !p.readinessUnknown, ReadinessNotAssessed), disclosure, marking)
  }

  /** The blockers name exactly the blocking conditions that hold. */
  lemma BlockersAreExact(p: Policy, f: Facts, b: Finding)
    ensures b in Blockers(p, f) <==>
      match b
      case Unsupported(n) => p.blockUnsupportedClaims && n > 0 && n == f.unsupportedClaims
      case CoverageBlocked(x) => f.coverage < p.blockCoverageBelow && x == f.coverage
      case ProhibitedSources => exists k :: k in f.sourceKinds && k in p.prohibitedSourceKinds
      case _ => false
  {}

  /** The reasons for asking name exactly the approval conditions that hold. */
  lemma ReasonsAreExact(p: Policy, f: Facts, r: Finding)
    ensures r in ApprovalReasons(p, f) <==>
      match r
      case ApprovalAlways => p.always
      case AiNeedsApproval => p.approveAiAssisted && f.aiAssisted
      case ReadinessNotAssessed => f.readiness.None? && p.readinessUnknown
      case ReadinessLow(x) => f.readiness == Some(x) && x < p.readinessBelow
      case CoverageLow(x) => f.coverage < p.approveCoverageBelow && x == f.coverage
      case SensitiveTopics => exists k :: k in f.topics && k in p.topics
      case _ => false
  {
    hide When, NeedsApproval, OnSensitiveTopic;
    var readiness := if f.readiness.None? then When(p.readinessUnknown, ReadinessNotAssessed)
                     else When(f.readiness.value < p.readinessBelow, ReadinessLow(f.readiness.value));
    assert r in ApprovalReasons(p, f) <==>
      r in When(p.always, ApprovalAlways) || r in When(p.approveAiAssisted && f.aiAssisted, AiNeedsApproval)
      || r in readiness || r in When(f.coverage < p.approveCoverageBelow, CoverageLow(f.coverage))
      || r in When(OnSensitiveTopic(p, f), SensitiveTopics);
    InWhen(r);
    SensitiveMeans(p, f);
  }

  lemma InWhen(r: Finding)
    ensures forall c: bool, f: Finding :: r in When(c, f) <==> c && r == f
  {}

  lemma SensitiveMeans(p: Policy, f: Facts)
    ensures OnSensitiveTopic(p, f) <==> exists k :: k in f.topics && k in p.topics
  {}

  /** A denial states its blockers; any other decision states why it asks, if it does, and warns of the unassessed. */
  lemma FindingsAreExact(p: Policy, f: Facts)
    ensures var d := Decide(p, f);
            if Blocked(p, f)
            then d.blockers == Blockers(p, f) && d.reasons == d.blockers && d.warnings == []
            else d.blockers == [] && d.reasons == ApprovalReasons(p, f)
                 && (f.readiness.None? && !p.readinessUnknown ==> d.warnings == [ReadinessNotAssessed])
                 && (f.readiness.Some? || p.readinessUnknown ==> d.warnings == [])
  {
    hide ApprovalReasons, Blockers, Blocked, NeedsApproval;
  }

  /** One guarded `push` onto a list of findings. */
  method PushIf(c: bool, f: Finding, list: seq<Finding>) returns (pushed: seq<Finding>)
    ensures pushed == list + When(c, f)
  {
    pushed := list;
    if c {
      pushed := pushed + [f];
    }
  }

  /** The blocking conditions, each pushed if it holds. */
  method PushBlockers(p: Policy, f: Facts) returns (blockers: seq<Finding>)
    ensures blockers == Blockers(p, f)
  {
    hide When, Blocked, UsesProhibitedSource;
    blockers := [];
    blockers := PushIf(p.blockUnsupportedClaims && f.unsupportedClaims > 0, Unsupported(f.unsupportedClaims), blockers);
    blockers := PushIf(f.coverage < p.blockCoverageBelow, CoverageBlocked(f.coverage), blockers);
    blockers := PushIf(UsesProhibitedSource(p, f), ProhibitedSources, blockers);
  }

  /** The approval conditions, each pushed if it holds, and the warning when readiness was not assessed. */
  method PushReasons(p: Policy, f: Facts) returns (reasons: seq<Finding>, warnings: seq<Finding>)
    ensures reasons == ApprovalReasons(p, f)
    ensures warnings == When(f.readiness.None? && !p.readinessUnknown, ReadinessNotAssessed)
  {
    hide NeedsApproval, OnSensitiveTopic;
    reasons, warnings := [], [];
    reasons := PushIf(p.always, ApprovalAlways, reasons);
    reasons := PushIf(p.approveAiAssisted && f.aiAssisted, AiNeedsApproval, reasons);
    if f.readiness.None? {
      reasons := PushIf(p.readinessUnknown, ReadinessNotAssessed, reasons);
      warnings := PushIf(!p.readinessUnknown, ReadinessNotAssessed, warnings);
    } else {
      reasons := PushIf(f.readiness.value < p.readinessBelow, ReadinessLow(f.readiness.value), reasons);
    }
    reasons := PushIf(f.coverage < p.approveCoverageBelow, CoverageLow(f.coverage), reasons);
    reasons := PushIf(OnSensitiveTopic(p, f), SensitiveTopics, reasons);
  }

  /** The evaluator as written: it pushes findings and then reads off the effect. */
  method EvaluatePublication(p: Policy, f: Facts) returns (d: Decision)
    ensures d == Decide(p, f)
  {
    hide When, Blockers, ApprovalReasons, Blocked, NeedsApproval;
    var blockers := PushBlockers(p, f);
    var disclosure := f.aiAssisted && p.disclosureWhenAiAssisted;
    var marking := disclosure && p.machineReadableMarking;
    if blockers != [] {
      return Decision(Deny, blockers, blockers, [], disclosure, marking);
    }
    var reasons, warnings := PushReasons(p, f);
    var effect := if reasons != [] then RequireApproval else Allow;
    return Decision(effect, reasons, [], warnings, disclosure, marking);
  }
}
