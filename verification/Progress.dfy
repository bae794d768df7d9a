/** What a run of the workflow graph does, said without the graph's own definitions:
    which node follows which and what it stores, spelled out in the artifacts; when a
    node raises; and what an undisturbed run with good answers achieves. */
module Progress {
  import opened Basics
  import opened Artifacts
  import opened Policies
  import opened Workflow
  import opened Recovery

  // ------------------------------------------------ the rules, spelled out

  predicate Identified(specification: Option<Specification>) {
    && specification.Some? && specification.value.requirements != []
    && var items := specification.value.requirements;
       && (forall k :: 0 <= k < |items| ==> items[k].id != "")
       && (forall k, l :: 0 <= k < l < |items| ==> items[k].id != items[l].id)
  }

  predicate WellFormed(scenario: Scenario) {
    && scenario.id != "" && scenario.requirementIds != []
    && scenario.given != "" && scenario.when_ != "" && scenario.then_ != ""
  }

  predicate ScenariosWellFormed(specification: Option<Specification>) {
    && specification.Some? && specification.value.scenarios != []
    && forall k :: 0 <= k < |specification.value.scenarios| ==> WellFormed(specification.value.scenarios[k])
  }

  predicate SomeIdentified(items: seq<Requirement>) {
    exists k :: 0 <= k < |items| && items[k].id != ""
  }

  /** Every identified requirement is named by a scenario. */
  predicate Traceable(specification: Option<Specification>) {
    && specification.Some?
    && var items, scenarios := specification.value.requirements, specification.value.scenarios;
       && SomeIdentified(items)
       && forall k :: 0 <= k < |items| && items[k].id != "" ==>
            exists l :: 0 <= l < |scenarios| && items[k].id in scenarios[l].requirementIds
  }

  /** Every identified requirement is named by a test case. */
  predicate PlanCovers(specification: Option<Specification>, plan: Option<TestPlan>) {
    && specification.Some? && plan.Some?
    && var items, cases := specification.value.requirements, plan.value.testCases;
       && SomeIdentified(items)
       && forall k :: 0 <= k < |items| && items[k].id != "" ==>
            exists l :: 0 <= l < |cases| && items[k].id in cases[l].requirementIds
  }

  predicate HasNegativeSecurityTest(plan: Option<TestPlan>) {
    plan.Some? && exists l :: 0 <= l < |plan.value.testCases| && IsNegativeSecurityTest(plan.value.testCases[l])
  }

  predicate IsNegativeSecurityTest(case_: TestCase) {
    case_.negative && case_.testType == SecurityTest
  }

  predicate OpenFinding(security: Option<SecurityReview>, severity: Severity) {
    security.Some? && exists k :: 0 <= k < |security.value.findings| && IsOpen(security.value.findings[k], severity)
  }

  predicate IsOpen(finding: Finding, severity: Severity) {
    finding.severity == severity && finding.status == Open
  }

  predicate HasThreatModel(security: Option<SecurityReview>) {
    security.Some? && security.value.threatModel.Some?
  }

  predicate HasSecurityRequirements(security: Option<SecurityReview>) {
    HasThreatModel(security) && security.value.threatModel.value.securityRequirements != []
  }

  /** What each rule of policies/quality-gates.yaml asks of the artifacts. */
  predicate Holds(rule: PolicyId, s: State) {
    match rule
    case AUDIT_001 => s.evidence != []
    case REQ_001 => s.requirements.Some?
    case ARCH_001 => s.architecture.Some?
    case SPEC_001 => s.specification.Some?
    case SPEC_002 => Identified(s.specification)
    case SPEC_003 => ScenariosWellFormed(s.specification)
    case TRACE_001 => Traceable(s.specification)
    case SEC_001 => !OpenFinding(s.security, Critical)
    case SEC_002 => !OpenFinding(s.security, High)
    case SEC_003 => HasThreatModel(s.security)
    case SEC_004 => HasSecurityRequirements(s.security)
    case IMPL_001 => s.implementation.Some?
    case TESTPLAN_001 => s.testPlan.Some?
    case TESTPLAN_002 => PlanCovers(s.specification, s.testPlan)
    case TESTPLAN_003 => HasNegativeSecurityTest(s.testPlan)
    case TEST_001 => s.validation.Some? && s.validation.value.testPassed
    case SCAN_001 => s.validation.Some? && s.validation.value.scannersPassed
  }

  lemma CoverageSpelled(items: seq<Requirement>, scenarios: seq<Scenario>, cases: seq<TestCase>)
    ensures RequirementIds(items) <= CoveredByScenarios(scenarios) <==>
      forall k :: 0 <= k < |items| && items[k].id != "" ==>
        exists l :: 0 <= l < |scenarios| && items[k].id in scenarios[l].requirementIds
    ensures RequirementIds(items) <= CoveredByTests(cases) <==>
      forall k :: 0 <= k < |items| && items[k].id != "" ==>
        exists l :: 0 <= l < |cases| && items[k].id in cases[l].requirementIds
    ensures RequirementIds(items) != {} <==> SomeIdentified(items)
  {
    forall k | 0 <= k < |items| && items[k].id != ""
      ensures items[k].id in RequirementIds(items)
      ensures items[k].id in CoveredByScenarios(scenarios) <==>
        exists l :: 0 <= l < |scenarios| && items[k].id in scenarios[l].requirementIds
      ensures items[k].id in CoveredByTests(cases) <==>
        exists l :: 0 <= l < |cases| && items[k].id in cases[l].requirementIds
    {
    }
  }

  lemma CoverageChecks(s: State)
    ensures Check(TRACE_001, s) <==> Holds(TRACE_001, s)
    ensures Check(TESTPLAN_002, s) <==> Holds(TESTPLAN_002, s)
  {
    CoverageSpelled(SpecRequirements(s), Scenarios(s), TestCases(s));
    hide RequirementIds, CoveredByScenarios, CoveredByTests;
  }

  lemma IdentityChecks(s: State)
    ensures Check(SPEC_002, s) <==> Holds(SPEC_002, s)
    ensures Check(SPEC_003, s) <==> Holds(SPEC_003, s)
  {
    UniqueIdentifiers(s);
    hide RequirementIds;
  }

  lemma FindingChecks(s: State)
    ensures Check(SEC_001, s) <==> Holds(SEC_001, s)
    ensures Check(SEC_002, s) <==> Holds(SEC_002, s)
  {
    NoneOpen(Findings(s), Critical);
    NoneOpen(Findings(s), High);
    hide SeverityCount;
  }

  lemma NegativeTestCheck(s: State)
    ensures Check(TESTPLAN_003, s) <==> Holds(TESTPLAN_003, s)
  {
    assert s.testPlan.Some? ==> TestCases(s) == s.testPlan.value.testCases;
  }

  /** The policy engine checks exactly what the rules say. */
  lemma ChecksSpelled(rule: PolicyId, s: State)
    ensures Check(rule, s) <==> Holds(rule, s)
  {
    match rule
    case TRACE_001 => CoverageChecks(s);
    case TESTPLAN_002 => CoverageChecks(s);
    case TESTPLAN_003 => NegativeTestCheck(s);
    case SPEC_002 => IdentityChecks(s);
    case SPEC_003 => IdentityChecks(s);
    case SEC_001 => FindingChecks(s);
    case SEC_002 => FindingChecks(s);
    case _ =>
  }

  // ------------------------------------------------------ what follows what

  /** The decisions a node appends to `before`: for each rule in turn its name, whether
      it holds, and, if not, the action the policy file gives it. */
  predicate Decides(before: seq<Decision>, after: seq<Decision>, rules: seq<PolicyId>, s: State) {
    && |after| == |before| + |rules| && after[..|before|] == before
    && forall k :: 0 <= k < |rules| ==> DecidesRule(after[|before| + k], rules[k], s)
  }

  predicate DecidesRule(d: Decision, rule: PolicyId, s: State) {
    && d.policy == rule
    && (d.passed <==> Holds(rule, s))
    && d.action == if d.passed then Action.Allow
                   else if rule == SEC_002 then Action.AskHuman
                   else if rule == TEST_001 || rule == SCAN_001 then Action.Rework
                   else Action.Block
  }

  lemma DecisionsSpelled(rules: seq<PolicyId>, s: State)
    ensures Decides([], EvaluateAll(rules, s), rules, s)
    ensures AnyFailed(EvaluateAll(rules, s)) <==> exists k :: 0 <= k < |rules| && !Holds(rules[k], s)
  {
    hide Check, Holds;
    var d := EvaluateAll(rules, s);
    forall k | 0 <= k < |rules|
      ensures DecidesRule(d[k], rules[k], s)
    {
      assert d[k] == Evaluate(rules[k], s);
      ChecksSpelled(rules[k], s);
    }
    if k :| 0 <= k < |rules| && !Holds(rules[k], s) {
      assert !d[k].passed;
    }
    if k :| 0 <= k < |d| && !d[k].passed {
      assert !Holds(rules[k], s);
    }
  }

  lemma Appended(before: seq<Decision>, more: seq<Decision>, rules: seq<PolicyId>, s: State)
    requires Decides([], more, rules, s)
    ensures Decides(before, before + more, rules, s)
  {
    hide DecidesRule;
  }

  predicate Answered<T(==)>(reply: Reply<T>, result: T) {
    reply.Answer? && reply.result == result
  }

  /** The evidence a node records: one entry per kind the agent reports. */
  predicate Records(before: seq<Evidence>, after: seq<Evidence>, kinds: seq<string>) {
    && |after| == |before| + |kinds| && after[..|before|] == before
    && forall k :: 0 <= k < |kinds| ==> after[|before| + k].Noted? && after[|before| + k].kind == kinds[k]
  }

  predicate AgentFollows(env: Env, v: Visit, t: State, next: Node) {
    var s := v.before;
    match v.node
    case Requirements =>
      s.bundle.Some? &&
      var reply := env.agents.requirements(s.request, s.bundle.value.content);
      && Answered(reply, t.requirements) && Records([], t.evidence, reply.evidence)
      && t.status == Analyzing && next == RequirementsGate
    case SpecificationNode =>
      var reply := env.agents.specification(s.requirements);
      && Answered(reply, t.specification) && Records(s.evidence, t.evidence, reply.evidence)
      && t.status == Specifying && next == SpecificationGate
    case Architecture =>
      var reply := env.agents.architecture(s.requirements);
      && Answered(reply, t.architecture) && Records(s.evidence, t.evidence, reply.evidence)
      && t.status == Architecting && next == ArchitectureGate
    case Security =>
      var reply := env.agents.security(s.requirements, s.architecture);
      && reply.Answer? && t.security == Some(reply.result) && t.riskLevel == Some(reply.result.overallRisk)
      && Records(s.evidence, t.evidence, reply.evidence) && t.status == SecurityReviewing && next == SecurityGate
    case TestPlanningNode =>
      var reply := env.agents.testPlanning(s.specification, s.architecture, s.security);
      && Answered(reply, t.testPlan) && Records(s.evidence, t.evidence, reply.evidence)
      && t.status == TestPlanning && next == TestPlanGate
    case Implementation =>
      var reply := env.agents.implementation(s.requirements, s.architecture, s.security, s.testPlan, s.reworkDecision);
      && Answered(reply, t.implementation) && Records(s.evidence, t.evidence, reply.evidence)
      && t.status == Implementing && next == ImplementationGate
    case Validation =>
      var reply := env.agents.validation(s.implementation);
      && reply.Answer? && t.validation == Some(reply.result)
      && Records(s.evidence, t.evidence, reply.evidence) && t.status == Validating && next == ValidationGate
    case _ => true
  }

  /** A gate that only lets pass or blocks: it marks the state and changes no status. */
  predicate Marks(s: State, t: State, next: Node) {
    t.blocked == (next == BlockedNode) && t.status == s.status && t.evidence == s.evidence
  }

  predicate GateFollows(v: Visit, t: State, next: Node) {
    var s := v.before;
    match v.node
    case RequirementsGate =>
      && Decides([], t.policyResults, [REQ_001, AUDIT_001], s) && Marks(s, t, next)
      && next == if s.requirements.Some? && s.evidence != [] then SpecificationNode else BlockedNode
    case SpecificationGate =>
      && Decides(s.policyResults, t.policyResults, [SPEC_001, SPEC_002, SPEC_003, TRACE_001], s) && Marks(s, t, next)
      && next == if s.specification.Some? && Identified(s.specification) && ScenariosWellFormed(s.specification)
                    && Traceable(s.specification)
                 then Architecture else BlockedNode
    case ArchitectureGate =>
      && Decides(s.policyResults, t.policyResults, [ARCH_001], s) && Marks(s, t, next)
      && next == if s.architecture.Some? then Security else BlockedNode
    case SecurityGate =>
      && Decides(s.policyResults, t.policyResults, [SEC_001, SEC_002, SEC_003, SEC_004], s)
      && t.evidence == s.evidence
      && (if OpenFinding(s.security, Critical) || !HasThreatModel(s.security) || !HasSecurityRequirements(s.security)
          then next == End && t.status == Status.Blocked && t.blocked
          else if OpenFinding(s.security, High) then
            next == PrepareHumanReview && t.status == HumanReviewNeeded && !t.blocked
          else next == TestPlanningNode && t.status == ReadyForImplementation && !t.blocked)
    case TestPlanGate =>
      && Decides(s.policyResults, t.policyResults, [TESTPLAN_001, TESTPLAN_002, TESTPLAN_003], s) && Marks(s, t, next)
      && next == if s.testPlan.Some? && PlanCovers(s.specification, s.testPlan) && HasNegativeSecurityTest(s.testPlan)
                 then Implementation else BlockedNode
    case ImplementationGate =>
      && Decides(s.policyResults, t.policyResults, [IMPL_001], s)
      && t.blocked == s.implementation.None? && t.evidence == s.evidence
      && t.status == (if s.implementation.Some? then Implementing else Status.Blocked)
      && next == if s.implementation.Some? then Validation else BlockedNode
    case _ => true
  }

  /** The validation gate: a passed validation goes to the judge; a failed one goes back
      to implementation while attempts are left and rework is automatic, and otherwise
      ends the run. */
  predicate ValidationFollows(env: Env, v: Visit, t: State, next: Node) {
    v.node == ValidationGate ==>
      var s, max := v.before, env.settings.maxRework;
      var test := s.validation.Some? && s.validation.value.testPassed;
      var scan := s.validation.Some? && s.validation.value.scannersPassed;
      && Decides(s.policyResults, t.policyResults, [TEST_001, SCAN_001], s)
      && t.reworkDecision.Some? && t.reworkHistory == s.reworkHistory + [t.reworkDecision.value]
      && t.evidence != [] && t.evidence[..|t.evidence| - 1] == s.evidence
      && t.evidence[|t.evidence| - 1].ReworkDecided? && t.evidence[|t.evidence| - 1].decision == t.reworkDecision.value
      && t.reworkDecision.value.attempt == t.reworkCount && t.reworkDecision.value.maxAttempts == max
      && t.reworkDecision.value.reasons == (if test then [] else [TEST_001]) + (if scan then [] else [SCAN_001])
      && t.reworkDecision.value.automatic == env.settings.automaticRework
      && (t.reworkDecision.value.required <==> !(test && scan))
      && (t.reworkDecision.value.exhausted <==> !(test && scan) && s.reworkCount + 1 >= max)
      && (if test && scan then next == Judge && t.status == Completed && t.reworkCount == s.reworkCount
          else
            && t.reworkCount == s.reworkCount + 1
            && if s.reworkCount + 1 >= max then next == End && t.status == ReworkExhausted
               else if env.settings.automaticRework then next == Implementation && t.status == ReworkRequired
               else next == End && t.status == HumanReviewNeeded)
  }

  predicate OthersFollow(env: Env, v: Visit, resume: Option<Resume>, t: State, next: Node) {
    var s := v.before;
    match v.node
    case Context =>
      && t.bundle.Some? && (if s.bundle.Some? then t.bundle == s.bundle
                            else t.bundle.value.content == env.settings.emptyBundle(s.request))
      && Records(s.evidence, t.evidence, ["context_bundle"])
      && t.status == Contextualizing && next == Requirements
    case PrepareHumanReview =>
      && t.review.Some? && t.status == HumanReviewNeeded && next == HumanReview
      && var r := t.review.value;
         && r.status == Pending && r.expiresAt == r.requestedAt + env.settings.reviewTtl
         && r.policyResultCount == |s.policyResults|
         && r.reviewer == None && r.justification == None && r.decidedAt == None
         && t.evidence == s.evidence + [ReviewRequested(r.requestedAt, r.expiresAt)]
    case HumanReview =>
      && s.review.Some? && resume.Some? && t.review.Some?
      && var r, d := t.review.value, resume.value;
         && r.status == d.status && r.reviewer == Some(d.reviewer) && r.justification == Some(d.justification)
         && r.decidedAt == Some(d.decidedAt) && r.requestedAt == s.review.value.requestedAt
         && t.evidence == s.evidence + [ReviewDecided(d.decidedAt, d.status, d.reviewer)]
         && r.expiresAt == s.review.value.expiresAt && r.policyResultCount == s.review.value.policyResultCount
         && (if d.status == Approved then next == TestPlanningNode && t.status == ReadyForImplementation && !t.blocked
             else next == BlockedNode && t.status == Status.Blocked && t.blocked)
    case Judge =>
      && t.judge.Some? && t.status == s.status && next == End
      && Records(s.evidence, t.evidence, ["judge_evaluation_receipt"])
      && var reply := env.agents.judge(JudgeInput(s.requirements, s.specification, s.architecture, s.security,
                                                  s.testPlan, s.implementation, s.validation));
         if !env.settings.judgeEnabled then t.judge.value.status == JudgeSkipped
         else if reply.Raises? then t.judge.value.status == JudgeUnavailable
         else t.judge.value.status == JudgeCompleted && t.judge.value.report == reply.result
    case BlockedNode => t == s.(status := Status.Blocked) && next == End
    case _ => true
  }

  /** What a completed node has done, and what comes next. */
  predicate Follows(env: Env, v: Visit, resume: Option<Resume>, t: State, next: Node) {
    && AgentFollows(env, v, t, next) && GateFollows(v, t, next) && ValidationFollows(env, v, t, next)
    && OthersFollow(env, v, resume, t, next)
  }

  lemma AgentsFollow(env: Env, node: Node, s: State, now: Time, resume: Option<Resume>)
    requires node != End && RunNode(env, node, s, now, resume).Updated?
    ensures var t := RunNode(env, node, s, now, resume).state;
            AgentFollows(env, Visit(node, s), t, Route(node, t))
  {
    hide EvaluateAll, Evaluate, AnyFailed, AnyFailedWith, FailedPolicies, Decide;
  }

  lemma RequirementsGateFollows(s: State)
    ensures var t := GateRequirements(s); GateFollows(Visit(RequirementsGate, s), t, Route(RequirementsGate, t))
  {
    DecisionsSpelled(REQUIREMENTS_POLICIES, s);
    var d := EvaluateAll(REQUIREMENTS_POLICIES, s);
    assert DecidesRule(d[0], REQ_001, s) && DecidesRule(d[1], AUDIT_001, s);
    hide EvaluateAll;
  }

  lemma SpecificationGateFollows(s: State)
    ensures var t := GateAny(SPECIFICATION_POLICIES, s);
            GateFollows(Visit(SpecificationGate, s), t, Route(SpecificationGate, t))
  {
    hide EvaluateAll, AnyFailed, Decides, Identified, ScenariosWellFormed, Traceable;
    var rules := SPECIFICATION_POLICIES;
    DecisionsSpelled(rules, s);
    Appended(s.policyResults, EvaluateAll(rules, s), rules, s);
    assert (exists k :: 0 <= k < |rules| && !Holds(rules[k], s)) <==>
      !Holds(rules[0], s) || !Holds(rules[1], s) || !Holds(rules[2], s) || !Holds(rules[3], s);
  }

  lemma ArchitectureGateFollows(s: State)
    ensures var t := GateAny([ARCH_001], s);
            GateFollows(Visit(ArchitectureGate, s), t, Route(ArchitectureGate, t))
  {
    hide EvaluateAll, AnyFailed, Decides;
    var rules := [ARCH_001];
    DecisionsSpelled(rules, s);
    Appended(s.policyResults, EvaluateAll(rules, s), rules, s);
    assert (exists k :: 0 <= k < |rules| && !Holds(rules[k], s)) <==> !Holds(rules[0], s);
  }

  lemma TestPlanGateFollows(s: State)
    ensures var t := GateAny(TEST_PLAN_POLICIES, s);
            GateFollows(Visit(TestPlanGate, s), t, Route(TestPlanGate, t))
  {
    hide EvaluateAll, AnyFailed, Decides, PlanCovers, HasNegativeSecurityTest;
    var rules := TEST_PLAN_POLICIES;
    DecisionsSpelled(rules, s);
    Appended(s.policyResults, EvaluateAll(rules, s), rules, s);
    assert (exists k :: 0 <= k < |rules| && !Holds(rules[k], s)) <==>
      !Holds(rules[0], s) || !Holds(rules[1], s) || !Holds(rules[2], s);
  }

  lemma SecurityDecisions(s: State)
    ensures var d := EvaluateAll(SECURITY_POLICIES, s);
      && Decides(s.policyResults, s.policyResults + d, SECURITY_POLICIES, s)
      && (AnyFailedWith(d, Block) <==>
            OpenFinding(s.security, Critical) || !HasThreatModel(s.security) || !HasSecurityRequirements(s.security))
      && (AnyFailedWith(d, AskHuman) <==> OpenFinding(s.security, High))
  {
    hide OpenFinding, HasThreatModel, HasSecurityRequirements, Check;
    var d := EvaluateAll(SECURITY_POLICIES, s);
    DecisionsSpelled(SECURITY_POLICIES, s);
    Appended(s.policyResults, d, SECURITY_POLICIES, s);
    assert DecidesRule(d[0], SEC_001, s) && DecidesRule(d[1], SEC_002, s);
    assert DecidesRule(d[2], SEC_003, s) && DecidesRule(d[3], SEC_004, s);
    hide EvaluateAll, Decides, Evaluate;
    assert AnyFailedWith(d, Block) <==> !d[0].passed || !d[2].passed || !d[3].passed;
    assert AnyFailedWith(d, AskHuman) <==> !d[1].passed;
  }

  lemma SecurityGateFollows(s: State)
    ensures var t := GateSecurity(s); GateFollows(Visit(SecurityGate, s), t, Route(SecurityGate, t))
  {
    hide EvaluateAll, Decides, AnyFailedWith, OpenFinding, HasThreatModel, HasSecurityRequirements;
    SecurityDecisions(s);
  }

  lemma ImplementationGateFollows(s: State)
    ensures var t := GateImplementation(s); GateFollows(Visit(ImplementationGate, s), t, Route(ImplementationGate, t))
  {
    ChecksSpelled(IMPL_001, s);
  }

  lemma ReasonsSpelled(s: State)
    ensures FailedPolicies(EvaluateAll(VALIDATION_POLICIES, s)) ==
      (if Holds(TEST_001, s) then [] else [TEST_001]) + (if Holds(SCAN_001, s) then [] else [SCAN_001])
  {
    var d := EvaluateAll(VALIDATION_POLICIES, s);
    var test, scan := Evaluate(TEST_001, s), Evaluate(SCAN_001, s);
    assert d == [test, scan] && d[1..] == [scan] && [scan][1..] == [];
    assert FailedPolicies([scan]) == if scan.passed then [] else [scan.policy];
    assert FailedPolicies(d) == (if test.passed then [] else [test.policy]) + FailedPolicies([scan]);
  }

  lemma ValidationGateFollows(env: Env, s: State, now: Time)
    requires GateValidation(env, s, now).Updated?
    ensures var t := GateValidation(env, s, now).state;
            ValidationFollows(env, Visit(ValidationGate, s), t, Route(ValidationGate, t))
  {
    DecisionsSpelled(VALIDATION_POLICIES, s);
    Appended(s.policyResults, EvaluateAll(VALIDATION_POLICIES, s), VALIDATION_POLICIES, s);
    ReasonsSpelled(s);
    hide EvaluateAll, Decides, FailedPolicies;
  }

  lemma TheOthersFollow(env: Env, node: Node, s: State, now: Time, resume: Option<Resume>)
    requires node != End && RunNode(env, node, s, now, resume).Updated?
    ensures var t := RunNode(env, node, s, now, resume).state;
            OthersFollow(env, Visit(node, s), resume, t, Route(node, t))
  {
    hide Stamp, WithEvidence, EvaluateAll, Evaluate, AnyFailed, AnyFailedWith, FailedPolicies, Decide;
  }

  lemma NodeFollows(env: Env, node: Node, s: State, now: Time, resume: Option<Resume>)
    requires node != End && RunNode(env, node, s, now, resume).Updated?
    ensures var t := RunNode(env, node, s, now, resume).state;
            Follows(env, Visit(node, s), resume, t, Route(node, t))
  {
    AgentsFollow(env, node, s, now, resume);
    TheOthersFollow(env, node, s, now, resume);
    hide AgentFollows, OthersFollow, Route, GateRequirements, GateAny, GateSecurity, GateImplementation, GateValidation;
    match node
    case RequirementsGate => RequirementsGateFollows(s);
    case SpecificationGate => SpecificationGateFollows(s);
    case ArchitectureGate => ArchitectureGateFollows(s);
    case SecurityGate => SecurityGateFollows(s);
    case TestPlanGate => TestPlanGateFollows(s);
    case ImplementationGate => ImplementationGateFollows(s);
    case ValidationGate => ValidationGateFollows(env, s, now);
    case _ =>
  }

  /** When a node raises: its agent does, or something it needs is missing. */
  predicate Fails(env: Env, v: Visit) {
    var s, agents := v.before, env.agents;
    match v.node
    case Requirements => s.bundle == None || agents.requirements(s.request, s.bundle.value.content).Raises?
    case SpecificationNode => agents.specification(s.requirements).Raises?
    case Architecture => agents.architecture(s.requirements).Raises?
    case Security => agents.security(s.requirements, s.architecture).Raises?
    case HumanReview => s.review == None
    case TestPlanningNode => agents.testPlanning(s.specification, s.architecture, s.security).Raises?
    case Implementation =>
      agents.implementation(s.requirements, s.architecture, s.security, s.testPlan, s.reworkDecision).Raises?
    case Validation => agents.validation(s.implementation).Raises?
    case ValidationGate => env.settings.maxRework < 1
    case _ => false
  }

  /** When a node interrupts: the review, until a decision is delivered to it. */
  predicate Waits(v: Visit, resume: Option<Resume>) {
    v.node == HumanReview && v.before.review.Some? && resume == None
  }

  lemma OutcomeSpelled(env: Env, node: Node, s: State, now: Time, resume: Option<Resume>)
    requires node != End
    ensures RunNode(env, node, s, now, resume).Raised? <==> Fails(env, Visit(node, s))
    ensures RunNode(env, node, s, now, resume).Interrupted? <==> Waits(Visit(node, s), resume)
  {
    hide Stamp, WithEvidence, EvaluateAll, Evaluate, AnyFailed, AnyFailedWith, FailedPolicies;
  }

  // ----------------------------------------------------------- over any run

  function StateAfter(a: Attempt, k: nat): State
    requires k < |a.started| && a.thread.Saved?
  {
    if k + 1 < |a.started| then a.started[k + 1].before else a.thread.values
  }

  function NodeAfter(a: Attempt, k: nat): Node
    requires k < |a.started| && a.thread.Saved?
  {
    if k + 1 < |a.started| then a.started[k + 1].node else a.thread.next
  }

  /** A completed visit: it neither failed nor waited, and handed on what it should. */
  predicate WentOn(env: Env, a: Attempt, k: nat, resume: Option<Resume>)
    requires k < |a.started| && a.thread.Saved?
  {
    && !Fails(env, a.started[k]) && !Waits(a.started[k], resume)
    && Follows(env, a.started[k], resume, StateAfter(a, k), NodeAfter(a, k))
  }

  lemma VisitWentOn(env: Env, a: Attempt, k: nat, c: Clock, i: nat, resume: Option<Resume>)
    requires k < |a.started| && a.thread.Saved? && HandsOn(env, a, k, c, i, resume)
    ensures WentOn(env, a, k, if k == 0 then resume else None)
  {
    hide RunNode, Route, Follows, Fails, Waits;
    var v := a.started[k];
    OutcomeSpelled(env, v.node, v.before, c(i + k), if k == 0 then resume else None);
    NodeFollows(env, v.node, v.before, c(i + k), if k == 0 then resume else None);
  }

  lemma VisitStopped(env: Env, a: Attempt, k: nat, c: Clock, i: nat, resume: Option<Resume>)
    requires k < |a.started| && StopsAt(env, a, k, c, i, resume)
    ensures a.halt == Some(Failed) ==> Fails(env, a.started[k])
    ensures a.halt == Some(Paused) ==> Waits(a.started[k], if k == 0 then resume else None)
  {
    hide RunNode, Fails, Waits;
    OutcomeSpelled(env, a.started[k].node, a.started[k].before, c(i + k), if k == 0 then resume else None);
  }

  /** Over any call of the graph, cut short or not: every completed node did its work
      and was followed by the node that the artifacts before it ask for; a call that
      failed did so at a node that had to, and one that paused waits for a decision. */
  lemma WhatFollows(env: Env, s: State, node: Node, c: Clock, i: nat, resume: Option<Resume>, budget: Option<nat>)
    ensures var a := Drive(env, s, node, c, i, resume, budget);
      && |a.completed| <= |a.started|
      && (forall k :: 0 <= k < |a.completed| ==>
            a.completed[k] == a.started[k].node && WentOn(env, a, k, if k == 0 then resume else None))
      && (a.halt == Some(Failed) ==> |a.completed| < |a.started| && Fails(env, a.started[|a.completed|]))
      && (a.halt == Some(Paused) ==>
            |a.completed| < |a.started| && Waits(a.started[|a.completed|], if a.completed == [] then resume else None))
  {
    hide Drive, HandsOn, StopsAt, WentOn, Fails, Waits;
    DriveFollowsTheGraph(env, s, node, c, i, resume, budget);
    var a := Drive(env, s, node, c, i, resume, budget);
    forall k | 0 <= k < |a.completed|
      ensures a.completed[k] == a.started[k].node && WentOn(env, a, k, if k == 0 then resume else None)
    {
      VisitWentOn(env, a, k, c, i, resume);
    }
    if a.halt != Some(Finished) {
      VisitStopped(env, a, |a.completed|, c, i, resume);
    }
  }

  // ------------------------------------------------ what good answers achieve

  /** What the design agents deliver for one request. */
  datatype Design = Design(
    requirements: Document, specification: Specification, architecture: Document,
    security: SecurityReview, plan: TestPlan)

  /** One pass of implementation and validation. */
  datatype Pass = Pass(implementation: Document, report: ValidationReport)

  predicate Designs(env: Env, request: string, content: string, d: Design) {
    && Answered(env.agents.requirements(request, content), Some(d.requirements))
    && env.agents.requirements(request, content).evidence != []
    && Answered(env.agents.specification(Some(d.requirements)), Some(d.specification))
    && Answered(env.agents.architecture(Some(d.requirements)), Some(d.architecture))
    && Answered(env.agents.security(Some(d.requirements), Some(d.architecture)), d.security)
    && Answered(env.agents.testPlanning(Some(d.specification), Some(d.architecture), Some(d.security)), Some(d.plan))
  }

  predicate DesignMet(d: Design) {
    && Identified(Some(d.specification)) && ScenariosWellFormed(Some(d.specification))
    && Traceable(Some(d.specification))
    && !OpenFinding(Some(d.security), Critical)
    && HasThreatModel(Some(d.security)) && HasSecurityRequirements(Some(d.security))
    && PlanCovers(Some(d.specification), Some(d.plan)) && HasNegativeSecurityTest(Some(d.plan))
  }

  predicate Passes(report: ValidationReport) {
    report.testPassed && report.scannersPassed
  }

  /** The decision a failed validation hands to the next implementation. */
  function Feedback(env: Env, attempt: nat, report: ValidationReport): ReworkDecision {
    ReworkDecision(true, attempt, env.settings.maxRework, attempt >= env.settings.maxRework,
                   env.settings.automaticRework,
                   (if report.testPassed then [] else [TEST_001]) + (if report.scannersPassed then [] else [SCAN_001]))
  }

  function FeedbackBefore(env: Env, passes: seq<Pass>, k: nat): Option<ReworkDecision>
    requires k <= |passes|
  {
    if k == 0 then None else Some(Feedback(env, k, passes[k - 1].report))
  }

  /** The passes the delivery agents make of this design: each implementation sees the
      feedback on the one before, all but the last fail, and the last passes or is the
      last allowed. */
  predicate Delivers(env: Env, d: Design, passes: seq<Pass>) {
    && 1 <= |passes| <= env.settings.maxRework
    && (forall k :: 0 <= k < |passes| ==> DeliversPass(env, d, passes, k))
    && (forall k :: 0 <= k < |passes| - 1 ==> !Passes(passes[k].report))
    && (Passes(passes[|passes| - 1].report) || |passes| == env.settings.maxRework)
  }

  predicate DeliversPass(env: Env, d: Design, passes: seq<Pass>, k: nat)
    requires k < |passes|
  {
    && Answered(env.agents.implementation(Some(d.requirements), Some(d.architecture), Some(d.security), Some(d.plan),
                                          FeedbackBefore(env, passes, k)),
                Some(passes[k].implementation))
    && Answered(env.agents.validation(Some(passes[k].implementation)), passes[k].report)
  }

  /** A request, the design and the passes the agents answer it with. */
  datatype Plan = Plan(request: string, bundle: Bundle, design: Design, passes: seq<Pass>)

  predicate GoodPlan(env: Env, p: Plan) {
    && env.settings.automaticRework
    && Designs(env, p.request, p.bundle.content, p.design) && DesignMet(p.design)
    && Delivers(env, p.design, p.passes)
  }

  /** How many of the seven artifacts a good run has when `node` is due. */
  function Made(node: Node): nat {
    match node
    case Context => 0
    case Requirements => 0
    case RequirementsGate => 1
    case SpecificationNode => 1
    case SpecificationGate => 2
    case Architecture => 2
    case ArchitectureGate => 3
    case Security => 3
    case SecurityGate => 4
    case PrepareHumanReview => 4
    case HumanReview => 4
    case TestPlanningNode => 4
    case TestPlanGate => 5
    case Implementation => 5
    case ImplementationGate => 6
    case Validation => 6
    case _ => 7
  }

  predicate Has(p: Plan, k: nat, made: nat, s: State)
    requires k < |p.passes|
  {
    && s.request == p.request && s.bundle.Some? && s.bundle.value.content == p.bundle.content
    && (made >= 1 ==> s.requirements == Some(p.design.requirements) && s.evidence != [])
    && (made >= 2 ==> s.specification == Some(p.design.specification))
    && (made >= 3 ==> s.architecture == Some(p.design.architecture))
    && (made >= 4 ==> s.security == Some(p.design.security))
    && (made >= 5 ==> s.testPlan == Some(p.design.plan))
    && (made >= 6 ==> s.implementation == Some(p.passes[k].implementation))
    && (made >= 7 ==> s.validation == Some(p.passes[k].report))
  }

  /** The state a good run is in when `node` is due, after `k` failed validations. */
  predicate OnCourse(env: Env, p: Plan, k: nat, node: Node, s: State) {
    && k < |p.passes| && node != BlockedNode && node != End
    && Has(p, k, Made(node), s)
    && (Made(node) < 5 || node == TestPlanGate ==> k == 0)
    && (node == HumanReview ==> s.review.Some?)
    && (node != Judge ==> s.reworkCount == k && s.reworkDecision == FeedbackBefore(env, p.passes, k))
    && (node == Judge ==>
          k == |p.passes| - 1 && s.status == Completed && s.reworkCount == k && Passes(p.passes[k].report))
  }

  /** The node after `node` in a good run, and the failed validations by then. */
  function CourseAfter(p: Plan, k: nat, node: Node): (Node, nat)
    requires k < |p.passes|
  {
    match node
    case Context => (Requirements, k)
    case Requirements => (RequirementsGate, k)
    case RequirementsGate => (SpecificationNode, k)
    case SpecificationNode => (SpecificationGate, k)
    case SpecificationGate => (Architecture, k)
    case Architecture => (ArchitectureGate, k)
    case ArchitectureGate => (Security, k)
    case Security => (SecurityGate, k)
    case SecurityGate =>
      (if OpenFinding(Some(p.design.security), High) then PrepareHumanReview else TestPlanningNode, k)
    case PrepareHumanReview => (HumanReview, k)
    case HumanReview => (TestPlanningNode, k)
    case TestPlanningNode => (TestPlanGate, k)
    case TestPlanGate => (Implementation, k)
    case Implementation => (ImplementationGate, k)
    case ImplementationGate => (Validation, k)
    case Validation => (ValidationGate, k)
    case ValidationGate =>
      if Passes(p.passes[k].report) then (Judge, k)
      else if k + 1 < |p.passes| then (Implementation, k + 1)
      else (End, k)
    case _ => (End, k)
  }

  predicate Approves(node: Node, resume: Option<Resume>) {
    node == HumanReview ==> resume.Some? && resume.value.status == Approved
  }

  lemma CourseGoesOn(env: Env, p: Plan, k: nat, node: Node, s: State, resume: Option<Resume>)
    requires GoodPlan(env, p) && OnCourse(env, p, k, node, s) && Approves(node, resume)
    ensures !Fails(env, Visit(node, s)) && !Waits(Visit(node, s), resume)
  {
    hide Identified, ScenariosWellFormed, Traceable, PlanCovers, HasNegativeSecurityTest, OpenFinding, HasThreatModel,
         HasSecurityRequirements, Feedback;
    assert DeliversPass(env, p.design, p.passes, k);
  }

  /** What one node leaves alone (`Workflow.NodesWriteTheirOwn`). */
  predicate KeepsOthers(node: Node, s: State, t: State) {
    && t.request == s.request
    && (node != Context ==> t.bundle == s.bundle)
    && (node != Requirements ==> t.requirements == s.requirements && s.evidence <= t.evidence)
    && (node != SpecificationNode ==> t.specification == s.specification)
    && (node != Architecture ==> t.architecture == s.architecture)
    && (node != Security ==> t.security == s.security)
    && (node != PrepareHumanReview && node != HumanReview ==> t.review == s.review)
    && (node != TestPlanningNode ==> t.testPlan == s.testPlan)
    && (node != Implementation ==> t.implementation == s.implementation)
    && (node != Validation ==> t.validation == s.validation)
    && (node != ValidationGate ==> t.reworkCount == s.reworkCount && t.reworkDecision == s.reworkDecision)
  }

  predicate IsGate(node: Node) {
    node in {RequirementsGate, SpecificationGate, ArchitectureGate, SecurityGate, TestPlanGate}
  }

  lemma DesignGateCourse(env: Env, p: Plan, node: Node, s: State, t: State, next: Node)
    requires GoodPlan(env, p) && OnCourse(env, p, 0, node, s) && IsGate(node)
    requires GateFollows(Visit(node, s), t, next) && KeepsOthers(node, s, t)
    ensures next == CourseAfter(p, 0, node).0 && OnCourse(env, p, 0, next, t)
  {
    hide Identified, ScenariosWellFormed, Traceable, PlanCovers, HasNegativeSecurityTest, OpenFinding, HasThreatModel,
         HasSecurityRequirements, Delivers, Designs, Feedback, FeedbackBefore, Decides;
  }

  /** What the plan says of one pass. */
  lemma PassFacts(env: Env, p: Plan, k: nat)
    requires GoodPlan(env, p) && k < |p.passes|
    ensures env.settings.automaticRework && |p.passes| <= env.settings.maxRework
    ensures DeliversPass(env, p.design, p.passes, k)
    ensures k < |p.passes| - 1 ==> !Passes(p.passes[k].report)
    ensures k == |p.passes| - 1 ==> Passes(p.passes[k].report) || |p.passes| == env.settings.maxRework
  {
    hide DeliversPass;
  }

  lemma DesignNodeCourse(env: Env, p: Plan, node: Node, s: State, resume: Option<Resume>, t: State, next: Node)
    requires GoodPlan(env, p) && OnCourse(env, p, 0, node, s) && Approves(node, resume)
    requires Made(node) < 5 && !IsGate(node)
    requires AgentFollows(env, Visit(node, s), t, next) && OthersFollow(env, Visit(node, s), resume, t, next)
    requires KeepsOthers(node, s, t)
    ensures next == CourseAfter(p, 0, node).0 && OnCourse(env, p, 0, next, t)
  {
    hide DesignMet, Delivers, Feedback, FeedbackBefore;
  }

  lemma ImplementationCourse(env: Env, p: Plan, k: nat, s: State, t: State, next: Node)
    requires GoodPlan(env, p) && OnCourse(env, p, k, Implementation, s)
    requires AgentFollows(env, Visit(Implementation, s), t, next) && KeepsOthers(Implementation, s, t)
    ensures next == ImplementationGate && OnCourse(env, p, k, next, t)
  {
    PassFacts(env, p, k);
    hide GoodPlan, FeedbackBefore, Records;
  }

  lemma ValidatedCourse(env: Env, p: Plan, k: nat, s: State, t: State, next: Node)
    requires GoodPlan(env, p) && OnCourse(env, p, k, Validation, s)
    requires AgentFollows(env, Visit(Validation, s), t, next) && KeepsOthers(Validation, s, t)
    ensures next == ValidationGate && OnCourse(env, p, k, next, t)
  {
    PassFacts(env, p, k);
    hide GoodPlan, FeedbackBefore, Records;
  }

  lemma ImplementationGateCourse(env: Env, p: Plan, k: nat, s: State, t: State, next: Node)
    requires OnCourse(env, p, k, ImplementationGate, s)
    requires GateFollows(Visit(ImplementationGate, s), t, next) && KeepsOthers(ImplementationGate, s, t)
    ensures next == Validation && OnCourse(env, p, k, next, t)
  {
    hide FeedbackBefore, Decides;
  }

  lemma HasKept(p: Plan, k: nat, s: State, t: State)
    requires k < |p.passes| && Has(p, k, 7, s) && KeepsOthers(ValidationGate, s, t)
    ensures Has(p, k, 7, t)
  {
  }

  /** The design outlasts the passes. */
  lemma HasDesign(p: Plan, k: nat, later: nat, t: State)
    requires k < |p.passes| && later < |p.passes| && Has(p, k, 7, t)
    ensures Has(p, later, 5, t)
  {
  }

  lemma VerdictOf(env: Env, s: State, t: State, next: Node, report: ValidationReport)
    requires ValidationFollows(env, Visit(ValidationGate, s), t, next) && s.validation == Some(report)
    requires s.reworkCount >= 0 && env.settings.automaticRework
    ensures Passes(report) ==> next == Judge && t.status == Completed && t.reworkCount == s.reworkCount
    ensures !Passes(report) ==> t.reworkCount == s.reworkCount + 1
    ensures !Passes(report) && s.reworkCount + 1 < env.settings.maxRework ==>
      next == Implementation && t.reworkDecision == Some(Feedback(env, s.reworkCount + 1, report))
    ensures !Passes(report) && s.reworkCount + 1 >= env.settings.maxRework ==>
      next == End && t.status == ReworkExhausted
  {
    hide Decides;
  }

  lemma AtTheGate(env: Env, p: Plan, k: nat, s: State)
    requires OnCourse(env, p, k, ValidationGate, s)
    ensures k < |p.passes| && Has(p, k, 7, s) && s.validation == Some(p.passes[k].report) && s.reworkCount == k
  {
  }

  lemma ToTheJudge(env: Env, p: Plan, k: nat, t: State)
    requires k == |p.passes| - 1 && Has(p, k, 7, t) && Passes(p.passes[k].report)
    requires t.status == Completed && t.reworkCount == k
    ensures OnCourse(env, p, k, Judge, t)
  {
    hide Has, Passes;
  }

  lemma BackToWork(env: Env, p: Plan, k: nat, t: State)
    requires k + 1 < |p.passes| && Has(p, k, 7, t) && t.reworkCount == k + 1
    requires t.reworkDecision == Some(Feedback(env, k + 1, p.passes[k].report))
    ensures OnCourse(env, p, k + 1, Implementation, t)
  {
    HasDesign(p, k, k + 1, t);
    hide Has, Feedback;
  }

  lemma ValidationCourse(env: Env, p: Plan, k: nat, s: State, t: State, next: Node)
    requires GoodPlan(env, p) && OnCourse(env, p, k, ValidationGate, s)
    requires ValidationFollows(env, Visit(ValidationGate, s), t, next) && KeepsOthers(ValidationGate, s, t)
    ensures k < |p.passes| && next == CourseAfter(p, k, ValidationGate).0
    ensures next != End ==> OnCourse(env, p, CourseAfter(p, k, ValidationGate).1, next, t)
    ensures next == End ==>
      k == |p.passes| - 1 == env.settings.maxRework - 1 && t.status == ReworkExhausted && t.reworkCount == k + 1
    ensures Has(p, k, 7, t)
  {
    hide GoodPlan, OnCourse, DeliversPass, KeepsOthers, ValidationFollows, Has, Passes, Feedback;
    AtTheGate(env, p, k, s);
    PassFacts(env, p, k);
    HasKept(p, k, s, t);
    VerdictOf(env, s, t, next, p.passes[k].report);
    if Passes(p.passes[k].report) {
      ToTheJudge(env, p, k, t);
    } else if k + 1 < |p.passes| {
      BackToWork(env, p, k, t);
    }
  }

  // --------------------------------------------------------- the whole run

  /** How a good run ends: COMPLETED if the last pass was validated, and otherwise
      REWORK_EXHAUSTED, with everything the agents delivered last. */
  predicate EndsWell(p: Plan, s: State) {
    && p.passes != []
    && var n := |p.passes|;
       && Has(p, n - 1, 7, s)
       && if Passes(p.passes[n - 1].report) then s.status == Completed && s.reworkCount == n - 1 && s.judge.Some?
          else s.status == ReworkExhausted && s.reworkCount == n
  }

  lemma AtTheJudge(env: Env, p: Plan, k: nat, s: State)
    requires OnCourse(env, p, k, Judge, s)
    ensures k == |p.passes| - 1 && Has(p, k, 7, s) && s.status == Completed && s.reworkCount == k
    ensures Passes(p.passes[k].report)
  {
    hide Has, Passes;
  }

  lemma HasAfterJudge(p: Plan, k: nat, s: State, t: State)
    requires k < |p.passes| && Has(p, k, 7, s) && KeepsOthers(Judge, s, t)
    ensures Has(p, k, 7, t) && t.reworkCount == s.reworkCount
  {
  }

  lemma JudgeCourse(env: Env, p: Plan, k: nat, s: State, resume: Option<Resume>, t: State, next: Node)
    requires OnCourse(env, p, k, Judge, s)
    requires OthersFollow(env, Visit(Judge, s), resume, t, next) && KeepsOthers(Judge, s, t)
    ensures next == End && EndsWell(p, t)
  {
    hide OnCourse, Has, Passes, KeepsOthers;
    AtTheJudge(env, p, k, s);
    HasAfterJudge(p, k, s, t);
  }

  /** The node has done its work: the run is still on course, or has ended well. */
  lemma CourseNode(env: Env, p: Plan, k: nat, node: Node, s: State, resume: Option<Resume>, t: State, next: Node)
    requires GoodPlan(env, p) && OnCourse(env, p, k, node, s) && Approves(node, resume)
    requires Follows(env, Visit(node, s), resume, t, next) && KeepsOthers(node, s, t)
    ensures k < |p.passes| && next == CourseAfter(p, k, node).0
    ensures if next == End then EndsWell(p, t) else OnCourse(env, p, CourseAfter(p, k, node).1, next, t)
  {
    CourseStage(env, p, k, node, s);
    hide GoodPlan, OnCourse, AgentFollows, GateFollows, ValidationFollows, OthersFollow, KeepsOthers, Approves;
    hide EndsWell;
    match node
    case Implementation => ImplementationCourse(env, p, k, s, t, next);
    case ImplementationGate => ImplementationGateCourse(env, p, k, s, t, next);
    case Validation => ValidatedCourse(env, p, k, s, t, next);
    case ValidationGate => ValidationEnds(env, p, k, s, t, next);
    case Judge => JudgeCourse(env, p, k, s, resume, t, next);
    case _ =>
      if IsGate(node) {
        DesignGateCourse(env, p, node, s, t, next);
      } else {
        DesignNodeCourse(env, p, node, s, resume, t, next);
      }
  }

  lemma ValidationEnds(env: Env, p: Plan, k: nat, s: State, t: State, next: Node)
    requires GoodPlan(env, p) && OnCourse(env, p, k, ValidationGate, s)
    requires ValidationFollows(env, Visit(ValidationGate, s), t, next) && KeepsOthers(ValidationGate, s, t)
    ensures next == CourseAfter(p, k, ValidationGate).0
    ensures if next == End then EndsWell(p, t) else OnCourse(env, p, CourseAfter(p, k, ValidationGate).1, next, t)
  {
    hide GoodPlan, OnCourse, ValidationFollows, KeepsOthers, Has, DeliversPass, Passes;
    AtTheGate(env, p, k, s);
    PassFacts(env, p, k);
    ValidationCourse(env, p, k, s, t, next);
  }

  /** One node of a good run. */
  lemma CourseStep(env: Env, p: Plan, k: nat, node: Node, s: State, now: Time, resume: Option<Resume>)
    returns (t: State)
    requires GoodPlan(env, p) && OnCourse(env, p, k, node, s) && Approves(node, resume)
    ensures node != End && RunNode(env, node, s, now, resume) == Updated(t)
    ensures k < |p.passes| && Route(node, t) == CourseAfter(p, k, node).0
    ensures if Route(node, t) == End then EndsWell(p, t)
            else OnCourse(env, p, CourseAfter(p, k, node).1, Route(node, t), t)
  {
    CourseStage(env, p, k, node, s);
    CourseGoesOn(env, p, k, node, s, resume);
    hide RunNode, Route, GoodPlan, OnCourse, Follows, Fails, Waits, EndsWell, CourseAfter, Approves;
    OutcomeSpelled(env, node, s, now, resume);
    t := RunNode(env, node, s, now, resume).state;
    NodeFollows(env, node, s, now, resume);
    NodesWriteTheirOwn(env, node, s, now, resume);
    CourseNode(env, p, k, node, s, resume, t, Route(node, t));
  }

  lemma CourseStage(env: Env, p: Plan, k: nat, node: Node, s: State)
    requires GoodPlan(env, p) && OnCourse(env, p, k, node, s)
    ensures k < |p.passes| && node != End && node != BlockedNode
    ensures node !in {Implementation, ImplementationGate, Validation, ValidationGate, Judge} ==> k == 0
    ensures node == Judge ==> k == |p.passes| - 1 && Passes(p.passes[k].report)
  {
  }

  /** The nodes of a good run from `node` on, up to a pause or to the end. */
  function CoursePath(p: Plan, k: nat, node: Node): seq<Node>
    requires k < |p.passes|
    decreases |p.passes| - k, Rank(node)
  {
    if node == End || node == BlockedNode then []
    else
      var (next, k') := CourseAfter(p, k, node);
      [node] + (if next == HumanReview || next == End then [] else CoursePath(p, k', next))
  }

  /** A good run pauses if the review is still ahead, and ends well otherwise. */
  predicate PausesOrEnds(env: Env, p: Plan, pausing: bool, a: Attempt) {
    && a.thread.Saved?
    && if pausing then
         a.halt == Some(Paused) && a.thread == Saved(a.thread.values, HumanReview, true)
         && OnCourse(env, p, 0, HumanReview, a.thread.values)
       else a.halt == Some(Finished) && EndsWell(p, a.thread.values)
  }

  predicate ReviewAhead(p: Plan, node: Node) {
    node == PrepareHumanReview || (Rank(node) >= Rank(SecurityGate) && OpenFinding(Some(p.design.security), High))
  }

  /** What the review ahead means one node later. */
  lemma AheadStep(p: Plan, k: nat, node: Node)
    requires k < |p.passes| && node != End && node != BlockedNode
    ensures var next := CourseAfter(p, k, node).0;
      && (next == HumanReview ==> ReviewAhead(p, node))
      && (next == End ==> !ReviewAhead(p, node))
      && (next != HumanReview && next != End ==> ReviewAhead(p, next) == ReviewAhead(p, node))
      && next != BlockedNode
  {
    hide OpenFinding;
  }

  lemma DriveStep(env: Env, s: State, node: Node, c: Clock, i: nat, resume: Option<Resume>, t: State)
    requires node != End && RunNode(env, node, s, c(i), resume) == Updated(t)
    ensures Drive(env, s, node, c, i, resume, None)
         == After(node, s, Drive(env, t, Route(node, t), c, i + 1, None, None))
  {
    hide RunNode, Route, Rank, ReworkLeft;
  }

  lemma AtTheEnd(env: Env, t: State, c: Clock, i: nat)
    ensures Drive(env, t, End, c, i, None, None) == Attempt(Saved(t, End, false), Some(Finished), [], [])
  {
  }

  lemma {:induction false} CourseRun(env: Env, p: Plan, k: nat, node: Node, s: State, c: Clock, i: nat,
                                     resume: Option<Resume>)
    requires GoodPlan(env, p) && OnCourse(env, p, k, node, s) && Approves(node, resume)
    ensures k < |p.passes| && node != End
    ensures var a := Drive(env, s, node, c, i, resume, None);
            a.completed == CoursePath(p, k, node) && PausesOrEnds(env, p, ReviewAhead(p, node), a)
    decreases |p.passes| - k, Rank(node)
  {
    CourseStage(env, p, k, node, s);
    var t := CourseStep(env, p, k, node, s, c(i), resume);
    var (next, k') := CourseAfter(p, k, node);
    AheadStep(p, k, node);
    DriveStep(env, s, node, c, i, resume, t);
    CourseMeasure(p, k, node);
    hide RunNode, Route, GoodPlan, OnCourse, EndsWell, ReviewAhead, Drive, CourseAfter, Rank;
    if next == HumanReview {
      CourseStage(env, p, k', next, t);
      PauseHere(env, p, t, c, i + 1);
    } else if next == End {
      AtTheEnd(env, t, c, i + 1);
    } else {
      NoReview(next);
      CourseRun(env, p, k', next, t, c, i + 1, None);
    }
  }

  lemma NoReview(node: Node)
    requires node != HumanReview
    ensures Approves(node, None)
  {
  }

  lemma CourseMeasure(p: Plan, k: nat, node: Node)
    requires k < |p.passes| && node != End && node != BlockedNode
    ensures var (next, k') := CourseAfter(p, k, node);
      k' < |p.passes| && (k' == k + 1 || (k' == k && Rank(next) < Rank(node)))
  {
  }

  lemma PauseHere(env: Env, p: Plan, s: State, c: Clock, i: nat)
    requires OnCourse(env, p, 0, HumanReview, s)
    ensures var a := Drive(env, s, HumanReview, c, i, None, None);
            a.completed == [] && PausesOrEnds(env, p, true, a)
  {
    hide RunNode, Route;
    OutcomeSpelled(env, HumanReview, s, c(i), None);
  }

  const DESIGN_NODES := [
    Context, Requirements, RequirementsGate, SpecificationNode, SpecificationGate,
    Architecture, ArchitectureGate, Security, SecurityGate]

  const DELIVERY_NODES := [Implementation, ImplementationGate, Validation, ValidationGate]

  function Repeated(n: nat): seq<Node> {
    if n == 0 then [] else DELIVERY_NODES + Repeated(n - 1)
  }

  /** Implementation and validation once per pass, and the judge if the last one passed. */
  function DeliveryPath(p: Plan, k: nat): seq<Node>
    requires k < |p.passes|
  {
    Repeated(|p.passes| - k) + (if Passes(p.passes[|p.passes| - 1].report) then [Judge] else [])
  }

  function WorkPath(p: Plan): seq<Node>
    requires p.passes != []
  {
    [TestPlanningNode, TestPlanGate] + DeliveryPath(p, 0)
  }

  lemma PathStep(p: Plan, k: nat, node: Node)
    requires k < |p.passes| && node != End && node != BlockedNode
    ensures var (next, k') := CourseAfter(p, k, node);
      && k' < |p.passes|
      && CoursePath(p, k, node)
           == [node] + (if next == HumanReview || next == End then [] else CoursePath(p, k', next))
  {
    CourseMeasure(p, k, node);
    hide OpenFinding, Passes, Rank;
  }

  lemma OnePass(p: Plan, k: nat)
    requires k < |p.passes|
    ensures CoursePath(p, k, Implementation) == DELIVERY_NODES
      + (if Passes(p.passes[k].report) then [Judge]
         else if k + 1 < |p.passes| then CoursePath(p, k + 1, Implementation) else [])
  {
    hide CoursePath, Passes;
    PathStep(p, k, Implementation);
    PathStep(p, k, ImplementationGate);
    PathStep(p, k, Validation);
    PathStep(p, k, ValidationGate);
    PathStep(p, k, Judge);
  }

  lemma {:induction false} PassesSpelled(env: Env, p: Plan, k: nat)
    requires GoodPlan(env, p) && k < |p.passes|
    ensures CoursePath(p, k, Implementation) == DeliveryPath(p, k)
    decreases |p.passes| - k
  {
    hide GoodPlan, CoursePath, CourseAfter, Passes, DeliversPass;
    PassFacts(env, p, k);
    OnePass(p, k);
    var n := |p.passes| - k;
    assert Repeated(n) == DELIVERY_NODES + Repeated(n - 1) && Repeated(0) == [];
    if k + 1 < |p.passes| {
      PassesSpelled(env, p, k + 1);
    } else {
      assert DELIVERY_NODES + [] == DELIVERY_NODES;
    }
  }

  function AfterSecurity(p: Plan): seq<Node>
    requires p.passes != []
  {
    if OpenFinding(Some(p.design.security), High) then [PrepareHumanReview] else WorkPath(p)
  }

  lemma WorkSpelled(env: Env, p: Plan)
    requires GoodPlan(env, p) && p.passes != []
    ensures CoursePath(p, 0, TestPlanningNode) == WorkPath(p)
    ensures CoursePath(p, 0, HumanReview) == [HumanReview] + WorkPath(p)
    ensures CoursePath(p, 0, SecurityGate) == [SecurityGate] + AfterSecurity(p)
  {
    hide GoodPlan, OpenFinding, CoursePath, DeliveryPath;
    PassesSpelled(env, p, 0);
    PathStep(p, 0, TestPlanGate);
    PathStep(p, 0, TestPlanningNode);
    PathStep(p, 0, HumanReview);
    PathStep(p, 0, PrepareHumanReview);
    PathStep(p, 0, SecurityGate);
  }

  lemma NextInDesign(p: Plan, m: nat)
    requires p.passes != [] && m + 1 < |DESIGN_NODES|
    ensures CourseAfter(p, 0, DESIGN_NODES[m]) == (DESIGN_NODES[m + 1], 0)
    ensures DESIGN_NODES[m + 1] !in {HumanReview, End, BlockedNode} && DESIGN_NODES[m] !in {End, BlockedNode}
  {
  }

  /** The straight path, written out. */
  lemma {:induction false} PathSpelled(env: Env, p: Plan, m: nat)
    requires GoodPlan(env, p) && p.passes != [] && m < |DESIGN_NODES|
    ensures CoursePath(p, 0, DESIGN_NODES[m]) == DESIGN_NODES[m..] + AfterSecurity(p)
    decreases |DESIGN_NODES| - m
  {
    hide GoodPlan, CoursePath, AfterSecurity, CourseAfter, OpenFinding;
    WorkSpelled(env, p);
    if m + 1 < |DESIGN_NODES| {
      NextInDesign(p, m);
      PathSpelled(env, p, m + 1);
      PathStep(p, 0, DESIGN_NODES[m]);
      assert DESIGN_NODES[m..] == [DESIGN_NODES[m]] + DESIGN_NODES[m + 1..];
    } else {
      assert DESIGN_NODES[m..] == [SecurityGate];
    }
  }

  lemma EndErased(p: Plan, s: State, t: State)
    requires Erase(s) == Erase(t) && EndsWell(p, s)
    ensures EndsWell(p, t)
  {
    FieldsErased(s, t);
    assert Erase(s).bundle == Erase(t).bundle && Erase(s).judge == Erase(t).judge;
  }

  lemma PauseErased(env: Env, p: Plan, s: State, t: State)
    requires Erase(s) == Erase(t) && OnCourse(env, p, 0, HumanReview, s)
    ensures OnCourse(env, p, 0, HumanReview, t)
  {
    FieldsErased(s, t);
    assert Erase(s).bundle == Erase(t).bundle && Erase(s).review == Erase(t).review;
  }

  lemma EndsAlike(env: Env, p: Plan, pausing: bool, a: Attempt, b: Attempt)
    requires SameEnd(b, a) && PausesOrEnds(env, p, pausing, a)
    ensures PausesOrEnds(env, p, pausing, b)
  {
    hide OnCourse, EndsWell, Erase;
    if pausing {
      PauseErased(env, p, a.thread.values, b.thread.values);
    } else {
      EndErased(p, a.thread.values, b.thread.values);
    }
  }

  lemma WhenAhead(p: Plan)
    ensures ReviewAhead(p, Context) <==> OpenFinding(Some(p.design.security), High)
    ensures !ReviewAhead(p, HumanReview)
  {
    hide OpenFinding;
  }

  lemma GoodExecution(env: Env, p: Plan, deaths: seq<Death>, c: Clock)
    requires GoodPlan(env, p)
    ensures p.passes != []
    ensures var h := Session(env, Fresh, Input(InitialState(p.request, Some(p.bundle))), false, deaths, c);
      && h.completed == DESIGN_NODES + AfterSecurity(p)
      && PausesOrEnds(env, p, OpenFinding(Some(p.design.security), High), h.last)
  {
    hide GoodPlan, OnCourse, Drive, Session, RunNode, Route, CoursePath, AfterSecurity, OpenFinding, PausesOrEnds;
    hide SameEnd, ReviewAhead;
    PassFactsAtStart(env, p);
    StartsOnCourse(env, p);
    PathSpelled(env, p, 0);
    WhenAhead(p);
    var initial := InitialState(p.request, Some(p.bundle));
    CourseRun(env, p, 0, Context, initial, c, 0, None);
    ExecuteJobRecovers(env, initial, deaths, c);
    var u := Drive(env, initial, Context, c, 0, None, None);
    EndsAlike(env, p, ReviewAhead(p, Context), u, Session(env, Fresh, Input(initial), false, deaths, c).last);
    assert DESIGN_NODES[0] == Context && DESIGN_NODES[0..] == DESIGN_NODES;
  }

  lemma GoodResumption(env: Env, p: Plan, paused: State, decision: Resume, deaths: seq<Death>, c: Clock)
    requires GoodPlan(env, p) && p.passes != [] && OnCourse(env, p, 0, HumanReview, paused)
    requires decision.status == Approved
    ensures var h := Session(env, Saved(paused, HumanReview, true), Command(decision), false, deaths, c);
      && h.completed == [HumanReview] + WorkPath(p) && PausesOrEnds(env, p, false, h.last)
  {
    hide GoodPlan, OnCourse, Drive, Session, RunNode, Route, CoursePath, WorkPath, OpenFinding, PausesOrEnds;
    hide SameEnd, ReviewAhead;
    WorkSpelled(env, p);
    WhenAhead(p);
    CourseRun(env, p, 0, HumanReview, paused, c, 0, Some(decision));
    ResumeJobRecovers(env, paused, decision, deaths, c);
    var u := Drive(env, paused, HumanReview, c, 0, Some(decision), None);
    var h := Session(env, Saved(paused, HumanReview, true), Command(decision), false, deaths, c);
    EndsAlike(env, p, false, u, h.last);
  }

  /** Good work gets done. Whatever deaths strike its jobs: a task whose agents answer,
      whose design meets every gate, and whose passes fail until the last one, runs
      exactly the straight path, with one round of delivery per pass; it pauses exactly
      for an open HIGH finding and goes on after an approval; and it ends COMPLETED if
      the last pass was validated and REWORK_EXHAUSTED if none was, holding exactly
      what its agents delivered. */
  lemma GoodTaskSucceeds(env: Env, p: Plan, deaths: seq<Death>, c: Clock, decision: Resume, resumeDeaths: seq<Death>,
                         d: Clock)
    requires GoodPlan(env, p) && decision.status == Approved
    ensures p.passes != []
    ensures var first := Session(env, Fresh, Input(InitialState(p.request, Some(p.bundle))), false, deaths, c);
      && first.last.thread.Saved?
      && if OpenFinding(Some(p.design.security), High) then
           var second := Session(env, first.last.thread, Command(decision), false, resumeDeaths, d);
           && first.last.halt == Some(Paused) && first.completed == DESIGN_NODES + [PrepareHumanReview]
           && second.last.halt == Some(Finished) && second.completed == [HumanReview] + WorkPath(p)
           && second.last.thread.Saved? && EndsWell(p, second.last.thread.values)
         else
           && first.last.halt == Some(Finished) && first.completed == DESIGN_NODES + WorkPath(p)
           && EndsWell(p, first.last.thread.values)
  {
    hide GoodPlan, OnCourse, Session, EndsWell, WorkPath, OpenFinding;
    GoodExecution(env, p, deaths, c);
    var first := Session(env, Fresh, Input(InitialState(p.request, Some(p.bundle))), false, deaths, c);
    if OpenFinding(Some(p.design.security), High) {
      GoodResumption(env, p, first.last.thread.values, decision, resumeDeaths, d);
    }
  }

  lemma PassFactsAtStart(env: Env, p: Plan)
    requires GoodPlan(env, p)
    ensures p.passes != []
  {
  }

  lemma StartsOnCourse(env: Env, p: Plan)
    requires p.passes != []
    ensures OnCourse(env, p, 0, Context, InitialState(p.request, Some(p.bundle)))
  {
  }
}
