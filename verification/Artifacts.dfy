/** Artifacts of the engineering workflow and its state (app/models/state.py).

    `None` stands for a missing or an empty artifact, and the empty string for a
    missing or an empty text: the policy engine treats both alike. */
module Artifacts {
  import opened Basics

  type Time = int

  datatype Document = Document(text: string)

  datatype Bundle = Bundle(content: string, createdAt: Time)

  datatype Requirement = Requirement(id: string)

  datatype Scenario = Scenario(id: string, requirementIds: seq<string>, given: string, when_: string, then_: string)

  datatype Specification = Specification(requirements: seq<Requirement>, scenarios: seq<Scenario>)

  datatype TestType = UnitTest | IntegrationTest | EndToEndTest | SecurityTest

  datatype TestCase = TestCase(requirementIds: seq<string>, negative: bool, testType: TestType)

  datatype TestPlan = TestPlan(testCases: seq<TestCase>)

  datatype Severity = Info | Low | Medium | High | Critical

  datatype FindingStatus = Open | Accepted | Mitigated | FalsePositive

  datatype Finding = Finding(severity: Severity, status: FindingStatus)

  datatype ThreatModel = ThreatModel(securityRequirements: seq<string>)

  datatype SecurityReview = SecurityReview(threatModel: Option<ThreatModel>, findings: seq<Finding>,
                                           overallRisk: Severity)

  datatype ValidationReport = ValidationReport(testPassed: bool, scannersPassed: bool)

  datatype ReviewStatus = Pending | Approved | Rejected | Expired

  datatype ReviewRequest = ReviewRequest(
    status: ReviewStatus,
    requestedAt: Time,
    expiresAt: Time,
    policyResultCount: nat,
    reviewer: Option<string>,
    justification: Option<string>,
    decidedAt: Option<Time>)

  /** Payload of the resume command. */
  datatype Resume = Resume(status: ReviewStatus, reviewer: string, justification: string, decidedAt: Time)

  datatype PolicyId =
    | AUDIT_001 | REQ_001 | ARCH_001
    | SPEC_001 | SPEC_002 | SPEC_003 | TRACE_001
    | SEC_001 | SEC_002 | SEC_003 | SEC_004
    | IMPL_001 | TESTPLAN_001 | TESTPLAN_002 | TESTPLAN_003
    | TEST_001 | SCAN_001

  datatype Action = Allow | Block | AskHuman | Rework

  datatype Decision = Decision(policy: PolicyId, passed: bool, action: Action)

  datatype ReworkDecision = ReworkDecision(
    required: bool, attempt: int, maxAttempts: int, exhausted: bool, automatic: bool, reasons: seq<PolicyId>)

  datatype JudgeStatus = JudgeCompleted | JudgeSkipped | JudgeUnavailable

  datatype JudgeEvaluation = JudgeEvaluation(status: JudgeStatus, report: Document, evaluatedAt: Time)

  datatype Evidence =
    | Noted(kind: string, at: Time)
    | ReviewRequested(at: Time, expires: Time)
    | ReviewDecided(at: Time, status: ReviewStatus, reviewer: string)
    | ReworkDecided(at: Time, decision: ReworkDecision)

  datatype Status =
    | Contextualizing | Analyzing | Specifying | Architecting | SecurityReviewing | TestPlanning
    | ReadyForImplementation | Implementing | Validating
    | HumanReviewNeeded | Blocked | ReworkRequired | ReworkExhausted | Completed | WorkflowFailed

  datatype State = State(
    request: string,
    status: Status,
    bundle: Option<Bundle>,
    requirements: Option<Document>,
    specification: Option<Specification>,
    architecture: Option<Document>,
    security: Option<SecurityReview>,
    riskLevel: Option<Severity>,
    review: Option<ReviewRequest>,
    testPlan: Option<TestPlan>,
    implementation: Option<Document>,
    validation: Option<ValidationReport>,
    judge: Option<JudgeEvaluation>,
    reworkCount: int,
    reworkDecision: Option<ReworkDecision>,
    reworkHistory: seq<ReworkDecision>,
    evidence: seq<Evidence>,
    policyResults: seq<Decision>,
    blocked: bool)

  /** What `run_task_workflow` passes to the graph. */
  function InitialState(request: string, bundle: Option<Bundle>): State {
    State(request, Analyzing, bundle, None, None, None, None, None, None, None, None, None, None,
          0, None, [], [], [], false)
  }
}
