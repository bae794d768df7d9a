/** The policy engine (app/policies/engine.py) under policies/quality-gates.yaml. */
module Policies {
  import opened Basics
  import opened Artifacts

  function SpecRequirements(s: State): seq<Requirement> {
    if s.specification.Some? then s.specification.value.requirements else []
  }

  function Scenarios(s: State): seq<Scenario> {
    if s.specification.Some? then s.specification.value.scenarios else []
  }

  function TestCases(s: State): seq<TestCase> {
    if s.testPlan.Some? then s.testPlan.value.testCases else []
  }

  function Findings(s: State): seq<Finding> {
    if s.security.Some? then s.security.value.findings else []
  }

  function RequirementIds(items: seq<Requirement>): set<string> {
    set k | 0 <= k < |items| && items[k].id != "" :: items[k].id
  }

  function CoveredByScenarios(scenarios: seq<Scenario>): set<string> {
    set k, l | 0 <= k < |scenarios| && 0 <= l < |scenarios[k].requirementIds| :: scenarios[k].requirementIds[l]
  }

  function CoveredByTests(cases: seq<TestCase>): set<string> {
    set k, l | 0 <= k < |cases| && 0 <= l < |cases[k].requirementIds| :: cases[k].requirementIds[l]
  }

  function SeverityCount(findings: seq<Finding>, severity: Severity): nat {
    if findings == [] then 0
    else (if findings[0].severity == severity && findings[0].status == Open then 1 else 0)
         + SeverityCount(findings[1..], severity)
  }

  predicate Structured(scenario: Scenario) {
    && scenario.id != "" && scenario.requirementIds != []
    && scenario.given != "" && scenario.when_ != "" && scenario.then_ != ""
  }

  /** The check named by each rule of quality-gates.yaml. */
  predicate Check(policy: PolicyId, s: State) {
    var ids := RequirementIds(SpecRequirements(s));
    match policy
    case AUDIT_001 => s.evidence != []
    case REQ_001 => s.requirements.Some?
    case ARCH_001 => s.architecture.Some?
    case SPEC_001 => s.specification.Some?
    case SPEC_002 => ids != {} && |ids| == |SpecRequirements(s)|
    case SPEC_003 =>
      Scenarios(s) != [] && forall k :: 0 <= k < |Scenarios(s)| ==> Structured(Scenarios(s)[k])
    case TRACE_001 => ids != {} && ids <= CoveredByScenarios(Scenarios(s))
    case SEC_001 => SeverityCount(Findings(s), Critical) == 0
    case SEC_002 => SeverityCount(Findings(s), High) == 0
    case SEC_003 => s.security.Some? && s.security.value.threatModel.Some?
    case SEC_004 =>
      && s.security.Some? && s.security.value.threatModel.Some?
      && s.security.value.threatModel.value.securityRequirements != []
    case IMPL_001 => s.implementation.Some?
    case TESTPLAN_001 => s.testPlan.Some?
    case TESTPLAN_002 => ids != {} && ids <= CoveredByTests(TestCases(s))
    case TESTPLAN_003 =>
      exists k :: 0 <= k < |TestCases(s)| && TestCases(s)[k].negative && TestCases(s)[k].testType == SecurityTest
    case TEST_001 => s.validation.Some? && s.validation.value.testPassed
    case SCAN_001 => s.validation.Some? && s.validation.value.scannersPassed
  }

  function ActionOf(policy: PolicyId): Action {
    match policy
    case SEC_002 => AskHuman
    case TEST_001 => Rework
    case SCAN_001 => Rework
    case _ => Block
  }

  function Evaluate(policy: PolicyId, s: State): Decision {
    var passed := Check(policy, s);
    Decision(policy, passed, if passed then Allow else ActionOf(policy))
  }

  // -------------------------------------------- what the checks mean

  predicate AllIdentified(items: seq<Requirement>) {
    && (forall k :: 0 <= k < |items| ==> items[k].id != "")
    && (forall k, l :: 0 <= k < l < |items| ==> items[k].id != items[l].id)
  }

  /** The cardinality test of SPEC-002 says exactly: there are requirements, every
      one has an identifier, and no two share one. */
  lemma UniqueIdentifiers(s: State)
    ensures Check(SPEC_002, s) <==> SpecRequirements(s) != [] && AllIdentified(SpecRequirements(s))
  {
    var items := SpecRequirements(s);
    CardinalityOfIds(items);
    if items != [] && AllIdentified(items) {
      assert items[0].id in RequirementIds(items);
    }
  }

  lemma IdsOfLast(init: seq<Requirement>, last: Requirement)
    ensures RequirementIds(init + [last]) == RequirementIds(init) + (if last.id == "" then {} else {last.id})
  {
    var items := init + [last];
    forall x
      ensures x in RequirementIds(items) <==> x in RequirementIds(init) || (last.id != "" && x == last.id)
    {
      if x in RequirementIds(init) {
        var k :| 0 <= k < |init| && init[k].id != "" && init[k].id == x;
        assert items[k].id == x;
      }
      if last.id != "" && x == last.id {
        assert items[|init|].id == x;
      }
    }
  }

  lemma IdentifiedLast(init: seq<Requirement>, last: Requirement)
    ensures AllIdentified(init + [last])
      <==> AllIdentified(init) && last.id != "" && last.id !in RequirementIds(init)
  {
    var items := init + [last];
    assert items[|init|] == last;
    assert forall k :: 0 <= k < |init| ==> items[k] == init[k];
    if last.id != "" && last.id in RequirementIds(init) {
      var k :| 0 <= k < |init| && init[k].id != "" && init[k].id == last.id;
      assert items[k].id == items[|init|].id;
    }
    if AllIdentified(init) && last.id !in RequirementIds(init) {
      assert forall k :: 0 <= k < |init| ==> init[k].id in RequirementIds(init);
    }
  }

  lemma {:induction false} CardinalityOfIds(items: seq<Requirement>)
    ensures |RequirementIds(items)| <= |items|
    ensures |RequirementIds(items)| == |items| <==> AllIdentified(items)
  {
    if items == [] {
      assert RequirementIds(items) == {};
    } else {
      var init, last := items[..|items| - 1], items[|items| - 1];
      assert items == init + [last];
      CardinalityOfIds(init);
      IdsOfLast(init, last);
      IdentifiedLast(init, last);
      if last.id in RequirementIds(init) {
        assert RequirementIds(init) + {last.id} == RequirementIds(init);
      }
    }
  }

  /** Some finding of this severity is still OPEN. */
  predicate HasOpen(s: State, severity: Severity) {
    exists k :: 0 <= k < |Findings(s)| && Findings(s)[k].severity == severity && Findings(s)[k].status == Open
  }

  /** A severity count of zero means that no open finding has that severity. */
  lemma {:induction false} NoneOpen(findings: seq<Finding>, severity: Severity)
    ensures SeverityCount(findings, severity) == 0
      <==> forall k :: 0 <= k < |findings| ==> !(findings[k].severity == severity && findings[k].status == Open)
  {
    if findings != [] {
      NoneOpen(findings[1..], severity);
      assert forall k :: 1 <= k < |findings| ==> findings[k] == findings[1..][k - 1];
    }
  }
}
