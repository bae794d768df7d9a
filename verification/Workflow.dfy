/** The engineering graph (app/orchestration/graph.py) and the rework controller
    (app/orchestration/rework.py): what each node writes, how the routes choose,
    and one run of the graph with its checkpoints.

    Agents are functions of the artifacts they are given; they may raise. A node
    reads the clock once. */
module Workflow {
  import opened Basics
  import opened Artifacts
  import opened Policies

  type Clock = nat -> Time

  datatype Reply<+T> = Answer(result: T, evidence: seq<string>) | Raises

  datatype JudgeInput = JudgeInput(
    requirements: Option<Document>,
    specification: Option<Specification>,
    architecture: Option<Document>,
    security: Option<SecurityReview>,
    testPlan: Option<TestPlan>,
    implementation: Option<Document>,
    validation: Option<ValidationReport>)

  datatype Agents = Agents(
    requirements: (string, string) -> Reply<Option<Document>>,
    specification: Option<Document> -> Reply<Option<Specification>>,
    architecture: Option<Document> -> Reply<Option<Document>>,
    security: (Option<Document>, Option<Document>) -> Reply<SecurityReview>,
    testPlanning: (Option<Specification>, Option<Document>, Option<SecurityReview>) -> Reply<Option<TestPlan>>,
    implementation: (Option<Document>, Option<Document>, Option<SecurityReview>, Option<TestPlan>,
                     Option<ReworkDecision>)
      -> Reply<Option<Document>>,
    validation: Option<Document> -> Reply<ValidationReport>,
    judge: JudgeInput -> Reply<Document>)

  datatype Settings = Settings(
    maxRework: int,
    automaticRework: bool,
    reviewTtl: nat,
    judgeEnabled: bool,
    emptyBundle: string -> string)

  datatype Env = Env(agents: Agents, settings: Settings)

  datatype Node =
    | Context | Requirements | RequirementsGate | SpecificationNode | SpecificationGate
    | Architecture | ArchitectureGate | Security | SecurityGate
    | PrepareHumanReview | HumanReview | TestPlanningNode | TestPlanGate
    | Implementation | ImplementationGate | Validation | ValidationGate
    | Judge | BlockedNode | End

  datatype NodeOutcome = Updated(state: State) | Interrupted | Raised

  // --------------------------------------------------------------- nodes

  function Stamp(kinds: seq<string>, now: Time): seq<Evidence> {
    seq(|kinds|, k requires 0 <= k < |kinds| => Noted(kinds[k], now))
  }

  function WithEvidence(s: State, kinds: seq<string>, now: Time): State {
    s.(evidence := s.evidence + Stamp(kinds, now))
  }

  function EvaluateAll(policies: seq<PolicyId>, s: State): seq<Decision> {
    seq(|policies|, k requires 0 <= k < |policies| => Evaluate(policies[k], s))
  }

  predicate AnyFailed(decisions: seq<Decision>) {
    exists k :: 0 <= k < |decisions| && !decisions[k].passed
  }

  predicate AnyFailedWith(decisions: seq<Decision>, action: Action) {
    exists k :: 0 <= k < |decisions| && !decisions[k].passed && decisions[k].action == action
  }

  function Contextualize(env: Env, s: State, now: Time): State {
    var bundle := if s.bundle.Some? then s.bundle.value else Bundle(env.settings.emptyBundle(s.request), now);
    s.(bundle := Some(bundle),
       evidence := s.evidence + [Noted("context_bundle", bundle.createdAt)],
       status := Contextualizing)
  }

  /** The first agent: it replaces the evidence collected so far. */
  function RunRequirements(env: Env, s: State, now: Time): NodeOutcome {
    if s.bundle == None then Raised
    else
      match env.agents.requirements(s.request, s.bundle.value.content)
      case Raises => Raised
      case Answer(result, kinds) =>
        Updated(s.(requirements := result, evidence := Stamp(kinds, now), status := Analyzing))
  }

  const REQUIREMENTS_POLICIES := [REQ_001, AUDIT_001]
  const SPECIFICATION_POLICIES := [SPEC_001, SPEC_002, SPEC_003, TRACE_001]
  const SECURITY_POLICIES := [SEC_001, SEC_002, SEC_003, SEC_004]
  const TEST_PLAN_POLICIES := [TESTPLAN_001, TESTPLAN_002, TESTPLAN_003]
  const VALIDATION_POLICIES := [TEST_001, SCAN_001]

  /** The first gate: it starts the list of policy results. */
  function GateRequirements(s: State): State {
    var decisions := EvaluateAll(REQUIREMENTS_POLICIES, s);
    s.(policyResults := decisions, blocked := AnyFailedWith(decisions, Block))
  }

  function GateAny(policies: seq<PolicyId>, s: State): State {
    var decisions := EvaluateAll(policies, s);
    s.(policyResults := s.policyResults + decisions, blocked := AnyFailed(decisions))
  }

  function RunSpecification(env: Env, s: State, now: Time): NodeOutcome {
    match env.agents.specification(s.requirements)
    case Raises => Raised
    case Answer(result, kinds) =>
      Updated(WithEvidence(s, kinds, now).(specification := result, status := Specifying))
  }

  function RunArchitecture(env: Env, s: State, now: Time): NodeOutcome {
    match env.agents.architecture(s.requirements)
    case Raises => Raised
    case Answer(result, kinds) =>
      Updated(WithEvidence(s, kinds, now).(architecture := result, status := Architecting))
  }

  function RunSecurity(env: Env, s: State, now: Time): NodeOutcome {
    match env.agents.security(s.requirements, s.architecture)
    case Raises => Raised
    case Answer(result, kinds) =>
      Updated(WithEvidence(s, kinds, now).(
        security := Some(result), riskLevel := Some(result.overallRisk), status := SecurityReviewing))
  }

  function GateSecurity(s: State): State {
    var decisions := EvaluateAll(SECURITY_POLICIES, s);
    var hardBlock := AnyFailedWith(decisions, Block);
    s.(policyResults := s.policyResults + decisions,
       blocked := hardBlock,
       status := if hardBlock then Status.Blocked
                 else if AnyFailedWith(decisions, AskHuman) then HumanReviewNeeded
                 else ReadyForImplementation)
  }

  function PrepareReview(env: Env, s: State, now: Time): State {
    var expires := now + env.settings.reviewTtl;
    s.(review := Some(ReviewRequest(Pending, now, expires, |s.policyResults|, None, None, None)),
       status := HumanReviewNeeded,
       evidence := s.evidence + [ReviewRequested(now, expires)])
  }

  /** Interrupts until a decision is resumed into it. */
  function RunHumanReview(s: State, resume: Option<Resume>): NodeOutcome {
    if s.review == None then Raised
    else if resume == None then Interrupted
    else
      var r := resume.value;
      var approved := r.status == Approved;
      Updated(s.(
        review := Some(s.review.value.(
          status := r.status, reviewer := Some(r.reviewer),
          justification := Some(r.justification), decidedAt := Some(r.decidedAt))),
        status := if approved then ReadyForImplementation else Status.Blocked,
        blocked := !approved,
        evidence := s.evidence + [ReviewDecided(r.decidedAt, r.status, r.reviewer)]))
  }

  function RunTestPlanning(env: Env, s: State, now: Time): NodeOutcome {
    match env.agents.testPlanning(s.specification, s.architecture, s.security)
    case Raises => Raised
    case Answer(result, kinds) =>
      Updated(WithEvidence(s, kinds, now).(testPlan := result, status := TestPlanning))
  }

  function RunImplementation(env: Env, s: State, now: Time): NodeOutcome {
    match env.agents.implementation(s.requirements, s.architecture, s.security, s.testPlan, s.reworkDecision)
    case Raises => Raised
    case Answer(result, kinds) =>
      Updated(WithEvidence(s, kinds, now).(implementation := result, status := Implementing))
  }

  function GateImplementation(s: State): State {
    var decision := Evaluate(IMPL_001, s);
    s.(policyResults := s.policyResults + [decision],
       blocked := !decision.passed,
       status := if decision.passed then Implementing else Status.Blocked)
  }

  function RunValidation(env: Env, s: State, now: Time): NodeOutcome {
    match env.agents.validation(s.implementation)
    case Raises => Raised
    case Answer(result, kinds) =>
      Updated(WithEvidence(s, kinds, now).(validation := Some(result), status := Validating))
  }

  function FailedPolicies(decisions: seq<Decision>): seq<PolicyId> {
    if decisions == [] then []
    else (if decisions[0].passed then [] else [decisions[0].policy]) + FailedPolicies(decisions[1..])
  }

  /** `ReworkController.decide`; `None` stands for the ValueError. */
  function Decide(settings: Settings, attempt: int, reasons: seq<PolicyId>): Option<ReworkDecision> {
    if settings.maxRework < 1 then None
    else
      var required := reasons != [];
      Some(ReworkDecision(required, attempt, settings.maxRework,
                          required && attempt >= settings.maxRework, settings.automaticRework, reasons))
  }

  function NextStatus(decision: ReworkDecision): Status {
    if !decision.required then Completed
    else if decision.exhausted then ReworkExhausted
    else if decision.automatic then ReworkRequired
    else HumanReviewNeeded
  }

  function GateValidation(env: Env, s: State, now: Time): NodeOutcome {
    var decisions := EvaluateAll(VALIDATION_POLICIES, s);
    var reasons := FailedPolicies(decisions);
    match Decide(env.settings, if reasons != [] then s.reworkCount + 1 else s.reworkCount, reasons)
    case None => Raised
    case Some(decision) =>
      Updated(s.(
        policyResults := s.policyResults + decisions,
        status := NextStatus(decision),
        reworkCount := decision.attempt,
        reworkDecision := Some(decision),
        reworkHistory := s.reworkHistory + [decision],
        evidence := s.evidence + [ReworkDecided(now, decision)]))
  }

  function JudgeInputOf(s: State): JudgeInput {
    JudgeInput(s.requirements, s.specification, s.architecture, s.security, s.testPlan, s.implementation, s.validation)
  }

  /** Never raises: every failure becomes a non-authoritative evaluation. */
  function RunJudge(env: Env, s: State, now: Time): State {
    var evaluation :=
      if !env.settings.judgeEnabled then JudgeEvaluation(JudgeSkipped, Document(""), now)
      else match env.agents.judge(JudgeInputOf(s))
        case Raises => JudgeEvaluation(JudgeUnavailable, Document(""), now)
        case Answer(report, _) => JudgeEvaluation(JudgeCompleted, report, now);
    s.(judge := Some(evaluation), evidence := s.evidence + [Noted("judge_evaluation_receipt", now)])
  }

  function RunNode(env: Env, node: Node, s: State, now: Time, resume: Option<Resume>): NodeOutcome
    requires node != End
  {
    match node
    case Context => Updated(Contextualize(env, s, now))
    case Requirements => RunRequirements(env, s, now)
    case RequirementsGate => Updated(GateRequirements(s))
    case SpecificationNode => RunSpecification(env, s, now)
    case SpecificationGate => Updated(GateAny(SPECIFICATION_POLICIES, s))
    case Architecture => RunArchitecture(env, s, now)
    case ArchitectureGate => Updated(GateAny([ARCH_001], s))
    case Security => RunSecurity(env, s, now)
    case SecurityGate => Updated(GateSecurity(s))
    case PrepareHumanReview => Updated(PrepareReview(env, s, now))
    case HumanReview => RunHumanReview(s, resume)
    case TestPlanningNode => RunTestPlanning(env, s, now)
    case TestPlanGate => Updated(GateAny(TEST_PLAN_POLICIES, s))
    case Implementation => RunImplementation(env, s, now)
    case ImplementationGate => Updated(GateImplementation(s))
    case Validation => RunValidation(env, s, now)
    case ValidationGate => GateValidation(env, s, now)
    case Judge => Updated(RunJudge(env, s, now))
    case BlockedNode => Updated(s.(status := Status.Blocked))
  }

  // -------------------------------------------------------------- routes

  function Route(node: Node, s: State): Node
    requires node != End
  {
    match node
    case Context => Requirements
    case Requirements => RequirementsGate
    case RequirementsGate => if s.blocked then BlockedNode else SpecificationNode
    case SpecificationNode => SpecificationGate
    case SpecificationGate => if s.blocked then BlockedNode else Architecture
    case Architecture => ArchitectureGate
    case ArchitectureGate => if s.blocked then BlockedNode else Security
    case Security => SecurityGate
    case SecurityGate =>
      if s.status == ReadyForImplementation then TestPlanningNode
      else if s.status == HumanReviewNeeded then PrepareHumanReview
      else End
    case PrepareHumanReview => HumanReview
    case HumanReview => if s.status == ReadyForImplementation then TestPlanningNode else BlockedNode
    case TestPlanningNode => TestPlanGate
    case TestPlanGate => if s.blocked then BlockedNode else Implementation
    case Implementation => ImplementationGate
    case ImplementationGate => if s.blocked then BlockedNode else Validation
    case Validation => ValidationGate
    case ValidationGate =>
      if s.status == ReworkRequired then Implementation
      else if s.status == Completed then Judge
      else End
    case Judge => End
    case BlockedNode => End
  }

  /** Position in the graph; only the rework edge goes back up. */
  function Rank(node: Node): nat {
    match node
    case Context => 19
    case Requirements => 18
    case RequirementsGate => 17
    case SpecificationNode => 16
    case SpecificationGate => 15
    case Architecture => 14
    case ArchitectureGate => 13
    case Security => 12
    case SecurityGate => 11
    case PrepareHumanReview => 10
    case HumanReview => 9
    case TestPlanningNode => 8
    case TestPlanGate => 7
    case Implementation => 6
    case ImplementationGate => 5
    case Validation => 4
    case ValidationGate => 3
    case Judge => 2
    case BlockedNode => 1
    case End => 0
  }

  function ReworkLeft(env: Env, s: State): nat {
    if s.reworkCount < env.settings.maxRework then env.settings.maxRework - s.reworkCount else 0
  }

  /** Every node either keeps the rework budget and moves down the graph, or is the
      validation gate sending the work back and spending one unit of it. */
  lemma NodesMakeProgress(env: Env, node: Node, s: State, now: Time, resume: Option<Resume>)
    requires node != End
    requires RunNode(env, node, s, now, resume).Updated?
    ensures var t := RunNode(env, node, s, now, resume).state;
            || (ReworkLeft(env, t) <= ReworkLeft(env, s) && Rank(Route(node, t)) < Rank(node))
            || (&& node == ValidationGate && Route(node, t) == Implementation
                && ReworkLeft(env, t) == ReworkLeft(env, s) - 1)
  {
    hide Stamp, Evaluate, EvaluateAll, AnyFailed, AnyFailedWith, FailedPolicies;
  }

  /** Every artifact has one writer (the review has two), and from the requirements
      node on the evidence is append-only. */
  lemma NodesWriteTheirOwn(env: Env, node: Node, s: State, now: Time, resume: Option<Resume>)
    requires node != End && RunNode(env, node, s, now, resume).Updated?
    ensures var t := RunNode(env, node, s, now, resume).state;
            && t.request == s.request
            && (node != Context ==> t.bundle == s.bundle)
            && (node != Requirements ==> t.requirements == s.requirements && s.evidence <= t.evidence)
            && (node != SpecificationNode ==> t.specification == s.specification)
            && (node != Architecture ==> t.architecture == s.architecture)
            && (node != Security ==> t.security == s.security && t.riskLevel == s.riskLevel)
            && (node != PrepareHumanReview && node != HumanReview ==> t.review == s.review)
            && (node != TestPlanningNode ==> t.testPlan == s.testPlan)
            && (node != Implementation ==> t.implementation == s.implementation)
            && (node != Validation ==> t.validation == s.validation)
            && (node != ValidationGate ==> t.reworkCount == s.reworkCount && t.reworkDecision == s.reworkDecision)
            && (node != Judge ==> t.judge == s.judge)
  {
    hide Stamp, Evaluate, EvaluateAll, AnyFailed, AnyFailedWith, FailedPolicies, Decide;
  }

  lemma OnlyReviewInterrupts(env: Env, node: Node, s: State, now: Time, resume: Option<Resume>)
    requires node != End && RunNode(env, node, s, now, resume).Interrupted?
    ensures node == HumanReview && resume == None
  {
    hide Stamp, WithEvidence, Evaluate, EvaluateAll, AnyFailed, AnyFailedWith, FailedPolicies;
  }

  /** The rework edge goes back to implementation, never above the review. */
  lemma StaysBelowReview(node: Node, s: State)
    requires node != End && Rank(node) <= Rank(HumanReview)
    ensures Rank(Route(node, s)) < Rank(HumanReview)
  {
  }

  // ---------------------------------------------------------------- runs

  datatype Halt = Finished | Paused | Failed

  /** A node that was started, and the state it was started in. */
  datatype Visit = Visit(node: Node, before: State)

  /** Checkpoints of one thread: none yet, or the state after the last completed
      node, the node due next, and whether that node has interrupted. */
  datatype Thread = Fresh | Saved(values: State, next: Node, interrupted: bool)

  /** How a call of the graph ends: `halt` is None when the process died. */
  datatype Attempt = Attempt(thread: Thread, halt: Option<Halt>, started: seq<Visit>, completed: seq<Node>)

  /** The graph from one checkpoint on. Each node's checkpoint is stored before the
      next node starts. With a budget, the process dies inside the node after that
      many completed ones. A decision is delivered to the first node only. */
  function Drive(env: Env, s: State, node: Node, clock: Clock, tick: nat, resume: Option<Resume>, budget: Option<nat>)
    : (r: Attempt)
    ensures r.thread.Saved?
    decreases ReworkLeft(env, s), Rank(node)
  {
    if node == End then Attempt(Saved(s, End, false), Some(Finished), [], [])
    else if budget == Some(0) then Attempt(Saved(s, node, resume.Some?), None, [Visit(node, s)], [])
    else
      match RunNode(env, node, s, clock(tick), resume)
      case Raised => Attempt(Saved(s, node, resume.Some?), Some(Failed), [Visit(node, s)], [])
      case Interrupted => Attempt(Saved(s, node, true), Some(Paused), [Visit(node, s)], [])
      case Updated(t) =>
        NodesMakeProgress(env, node, s, clock(tick), resume);
        var rest := Drive(env, t, Route(node, t), clock, tick + 1, None, Spend(budget));
        rest.(started := [Visit(node, s)] + rest.started, completed := [node] + rest.completed)
  }

  /** Visit `k` ran its node once, as the clock stood, and handed the new state on along
      its route: to the next visit, or to the last checkpoint. */
  predicate HandsOn(env: Env, a: Attempt, k: nat, clock: Clock, tick: nat, resume: Option<Resume>)
    requires k < |a.started|
  {
    var v := a.started[k];
    && v.node != End
    && var o := RunNode(env, v.node, v.before, clock(tick + k), if k == 0 then resume else None);
       && o.Updated?
       && if k + 1 < |a.started| then a.started[k + 1] == Visit(Route(v.node, o.state), o.state)
          else a.thread == Saved(o.state, End, false) && Route(v.node, o.state) == End
  }

  /** The visit a call stopped in: it raised, interrupted or was hit by a death, and the
      checkpoint is still the one it started from. */
  predicate StopsAt(env: Env, a: Attempt, k: nat, clock: Clock, tick: nat, resume: Option<Resume>)
    requires k < |a.started|
  {
    var v := a.started[k];
    && a.thread.Saved? && a.thread.values == v.before && a.thread.next == v.node != End
    && var o := RunNode(env, v.node, v.before, clock(tick + k), if k == 0 then resume else None);
       && (a.halt == Some(Failed) ==> o.Raised?)
       && (a.halt == Some(Paused) ==> o.Interrupted? && a.thread.interrupted)
  }

  predicate OnOnePath(env: Env, a: Attempt, s: State, node: Node, clock: Clock, tick: nat,
                      resume: Option<Resume>, budget: Option<nat>)
  {
    && (if node == End then a.started == [] && a.thread == Saved(s, End, false)
        else a.started != [] && a.started[0] == Visit(node, s))
    && |a.started| == |a.completed| + (if a.halt == Some(Finished) then 0 else 1)
    && (forall k :: 0 <= k < |a.completed| ==>
          a.started[k].node == a.completed[k] && HandsOn(env, a, k, clock, tick, resume))
    && (a.halt != Some(Finished) ==> StopsAt(env, a, |a.completed|, clock, tick, resume))
    && (match budget
        case None => a.halt != None
        case Some(n) => |a.completed| <= n && (a.halt == None ==> |a.completed| == n))
  }

  /** A call visits the nodes of one path of the graph, each from the state the one
      before it stored, completes all of them but the one it stopped in, and dies
      exactly when its budget of checkpoints is used up. */
  lemma {:induction false} DriveFollowsTheGraph(env: Env, s: State, node: Node, clock: Clock, tick: nat,
                                                resume: Option<Resume>, budget: Option<nat>)
    ensures OnOnePath(env, Drive(env, s, node, clock, tick, resume, budget), s, node, clock, tick, resume, budget)
    decreases ReworkLeft(env, s), Rank(node)
  {
    hide RunNode, Route, Rank, ReworkLeft, OnOnePath;
    if node == End || budget == Some(0) || !RunNode(env, node, s, clock(tick), resume).Updated? {
      PathEndsHere(env, s, node, clock, tick, resume, budget);
    } else {
      var t := RunNode(env, node, s, clock(tick), resume).state;
      NodesMakeProgress(env, node, s, clock(tick), resume);
      DriveFollowsTheGraph(env, t, Route(node, t), clock, tick + 1, None, Spend(budget));
      var rest := Drive(env, t, Route(node, t), clock, tick + 1, None, Spend(budget));
      PathGoesOn(env, s, node, clock, tick, resume, budget, rest);
    }
  }

  lemma PathEndsHere(env: Env, s: State, node: Node, clock: Clock, tick: nat, resume: Option<Resume>,
                     budget: Option<nat>)
    requires node == End || budget == Some(0) || !RunNode(env, node, s, clock(tick), resume).Updated?
    ensures OnOnePath(env, Drive(env, s, node, clock, tick, resume, budget), s, node, clock, tick, resume, budget)
  {
    hide RunNode, Route, Rank, ReworkLeft;
  }

  lemma PathGoesOn(env: Env, s: State, node: Node, clock: Clock, tick: nat, resume: Option<Resume>, budget: Option<nat>,
                   rest: Attempt)
    requires node != End && budget != Some(0) && RunNode(env, node, s, clock(tick), resume).Updated?
    requires var t := RunNode(env, node, s, clock(tick), resume).state;
             OnOnePath(env, rest, t, Route(node, t), clock, tick + 1, None, Spend(budget))
    ensures var a := rest.(started := [Visit(node, s)] + rest.started, completed := [node] + rest.completed);
            OnOnePath(env, a, s, node, clock, tick, resume, budget)
  {
    hide RunNode, Route, HandsOn, StopsAt;
    var a := rest.(started := [Visit(node, s)] + rest.started, completed := [node] + rest.completed);
    FirstVisit(env, s, node, clock, tick, resume, rest);
    forall k | 0 <= k < |a.completed|
      ensures a.started[k].node == a.completed[k] && HandsOn(env, a, k, clock, tick, resume)
    {
      if k > 0 {
        LaterVisit(env, a, rest, k, clock, tick, resume);
      }
    }
    if a.halt != Some(Finished) {
      LaterVisit(env, a, rest, |a.completed|, clock, tick, resume);
    }
  }

  lemma FirstVisit(env: Env, s: State, node: Node, clock: Clock, tick: nat, resume: Option<Resume>, rest: Attempt)
    requires node != End && RunNode(env, node, s, clock(tick), resume).Updated?
    requires var t := RunNode(env, node, s, clock(tick), resume).state;
             if Route(node, t) == End then rest.started == [] && rest.thread == Saved(t, End, false)
             else rest.started != [] && rest.started[0] == Visit(Route(node, t), t)
    ensures var a := rest.(started := [Visit(node, s)] + rest.started, completed := [node] + rest.completed);
            HandsOn(env, a, 0, clock, tick, resume)
  {
    hide RunNode, Route;
    var started := [Visit(node, s)] + rest.started;
    assert started[0] == Visit(node, s) && (rest.started != [] ==> started[1] == rest.started[0]);
  }

  lemma LaterVisit(env: Env, a: Attempt, rest: Attempt, k: nat, clock: Clock, tick: nat, resume: Option<Resume>)
    requires 1 <= k < |a.started| && a.started[1..] == rest.started && a.thread == rest.thread && a.halt == rest.halt
    ensures HandsOn(env, a, k, clock, tick, resume) <==> HandsOn(env, rest, k - 1, clock, tick + 1, None)
    ensures StopsAt(env, a, k, clock, tick, resume) <==> StopsAt(env, rest, k - 1, clock, tick + 1, None)
  {
    hide RunNode, Route;
    assert a.started[k] == rest.started[k - 1];
    assert k + 1 < |a.started| ==> a.started[k + 1] == rest.started[k];
  }

  function Spend(budget: Option<nat>): Option<nat> {
    match budget
    case None => None
    case Some(n) => if n == 0 then Some(0) else Some(n - 1)
  }

  // ---------------------------------------------------- invoke_workflow

  datatype Start = Input(initial: State) | Command(decision: Resume) | Continue

  /** `graph.invoke`. A budget of zero on a new thread is a death before the input
      checkpoint is stored; a decision on a thread without checkpoints raises. */
  function Invoke(env: Env, thread: Thread, start: Start, clock: Clock, budget: Option<nat>): Attempt
    requires start.Continue? ==> thread.Saved?
  {
    match start
    case Input(initial) =>
      if budget == Some(0) then Attempt(thread, None, [], [])
      else Drive(env, initial, Context, clock, 0, None, Spend(budget))
    case Command(decision) =>
      if thread.Fresh? then Attempt(thread, Some(Failed), [], [])
      else Drive(env, thread.values, thread.next, clock, 0, Some(decision), budget)
    case Continue => Drive(env, thread.values, thread.next, clock, 0, None, budget)
  }

  function Reuse(thread: Thread): Attempt
    requires thread.Saved?
  {
    Attempt(thread, Some(if thread.interrupted then Paused else Finished), [], [])
  }

  /** `invoke_workflow`, branch by branch. */
  function InvokeWorkflow(env: Env, thread: Thread, start: Start, recover: bool, resumeInterrupt: bool,
                          clock: Clock, budget: Option<nat>): Attempt
    requires start.Continue? ==> thread.Saved?
  {
    if recover && thread.Saved? then
      if thread.interrupted then
        if !resumeInterrupt then Reuse(thread) else Invoke(env, thread, start, clock, budget)
      else if thread.next != End then Invoke(env, thread, Continue, clock, budget)
      else Reuse(thread)
    else Invoke(env, thread, start, clock, budget)
  }
}
