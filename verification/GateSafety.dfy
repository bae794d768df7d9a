/** What must be true whenever the implementation agent is called, over whole runs
    of a workflow: first pass or rework, interrupted by a review or not, and with
    any deaths and recoveries in between. */
module GateSafety {
  import opened Basics
  import opened Artifacts
  import opened Policies
  import opened Workflow
  import opened Recovery

  /** Requirements are there, identified one by one, and each is taken up by an
      acceptance scenario. */
  predicate SpecificationGated(s: State) {
    var items := SpecRequirements(s);
    && items != [] && AllIdentified(items)
    && RequirementIds(items) <= CoveredByScenarios(Scenarios(s))
  }

  predicate ApprovedByHuman(s: State) {
    s.review.Some? && s.review.value.status == Approved
  }

  predicate TestPlanGated(s: State) {
    && RequirementIds(SpecRequirements(s)) <= CoveredByTests(TestCases(s))
    && exists k :: 0 <= k < |TestCases(s)| && TestCases(s)[k].negative && TestCases(s)[k].testType == SecurityTest
  }

  predicate SecurityCleared(s: State) {
    !HasOpen(s, Critical) && (HasOpen(s, High) ==> ApprovedByHuman(s))
  }

  predicate ReadyToImplement(s: State) {
    SpecificationGated(s) && TestPlanGated(s) && SecurityCleared(s)
  }

  predicate InDesign(node: Node) {
    node in {Architecture, ArchitectureGate, Security, SecurityGate}
  }

  predicate InTestPlanning(node: Node) {
    node == TestPlanningNode || node == TestPlanGate
  }

  predicate InReview(node: Node) {
    node == PrepareHumanReview || node == HumanReview
  }

  predicate InDelivery(node: Node) {
    node in {Implementation, ImplementationGate, Validation, ValidationGate}
  }

  /** What the gates passed so far have established, node by node. */
  predicate Gated(node: Node, s: State) {
    && ((InDesign(node) || InReview(node) || InTestPlanning(node) || InDelivery(node)) ==> SpecificationGated(s))
    && (InReview(node) ==> !HasOpen(s, Critical))
    && ((InTestPlanning(node) || InDelivery(node)) ==> SecurityCleared(s))
    && (InDelivery(node) ==> TestPlanGated(s))
  }

  lemma SpecificationGatePasses(s: State)
    ensures !AnyFailed(EvaluateAll(SPECIFICATION_POLICIES, s)) ==> SpecificationGated(s)
  {
    var decisions := EvaluateAll(SPECIFICATION_POLICIES, s);
    assert decisions[1] == Evaluate(SPEC_002, s) && decisions[3] == Evaluate(TRACE_001, s);
    UniqueIdentifiers(s);
  }

  lemma TestPlanGatePasses(s: State)
    ensures !AnyFailed(EvaluateAll(TEST_PLAN_POLICIES, s)) ==> TestPlanGated(s)
  {
    var decisions := EvaluateAll(TEST_PLAN_POLICIES, s);
    assert decisions[1] == Evaluate(TESTPLAN_002, s) && decisions[2] == Evaluate(TESTPLAN_003, s);
  }

  /** The review names a threat model with security requirements. */
  predicate ThreatsModelled(s: State) {
    && s.security.Some? && s.security.value.threatModel.Some?
    && s.security.value.threatModel.value.securityRequirements != []
  }

  lemma SecurityGatePasses(s: State)
    ensures var decisions := EvaluateAll(SECURITY_POLICIES, s);
            && (!AnyFailedWith(decisions, Block) <==> !HasOpen(s, Critical) && ThreatsModelled(s))
            && (!AnyFailedWith(decisions, AskHuman) <==> !HasOpen(s, High))
  {
    var decisions := EvaluateAll(SECURITY_POLICIES, s);
    assert decisions[0] == Evaluate(SEC_001, s) && decisions[1] == Evaluate(SEC_002, s);
    assert decisions[2] == Evaluate(SEC_003, s) && decisions[3] == Evaluate(SEC_004, s);
    NoneOpen(Findings(s), Critical);
    NoneOpen(Findings(s), High);
  }

  /** Nodes read by the predicates above change only where a gate follows. */
  lemma UntouchedArtifacts(env: Env, node: Node, s: State, now: Time, resume: Option<Resume>)
    requires node != End && RunNode(env, node, s, now, resume).Updated?
    ensures var t := RunNode(env, node, s, now, resume).state;
            && (node != SpecificationNode ==> t.specification == s.specification)
            && (node != Security ==> t.security == s.security)
            && (node != TestPlanningNode ==> t.testPlan == s.testPlan)
            && (!InReview(node) ==> t.review == s.review)
            && (node == HumanReview && t.status == ReadyForImplementation ==> ApprovedByHuman(t))
  {
    NodesWriteTheirOwn(env, node, s, now, resume);
    hide Stamp, Evaluate, EvaluateAll, AnyFailed, AnyFailedWith, FailedPolicies;
  }

  lemma SameVerdicts(s: State, t: State)
    requires t.specification == s.specification
    ensures SpecificationGated(t) == SpecificationGated(s)
    ensures t.testPlan == s.testPlan ==> TestPlanGated(t) == TestPlanGated(s)
    ensures t.security == s.security ==> forall severity :: HasOpen(t, severity) == HasOpen(s, severity)
  {
    assert SpecRequirements(t) == SpecRequirements(s) && Scenarios(t) == Scenarios(s);
    assert t.testPlan == s.testPlan ==> TestCases(t) == TestCases(s);
    assert t.security == s.security ==> Findings(t) == Findings(s);
  }

  /** The three gates that establish something. */
  lemma GateKeepsGates(env: Env, node: Node, s: State, now: Time, resume: Option<Resume>)
    requires node in {SpecificationGate, SecurityGate, TestPlanGate} && Gated(node, s)
    ensures var t := RunNode(env, node, s, now, resume).state;
            Gated(Route(node, t), t)
  {
    hide Check, Evaluate, EvaluateAll, SpecificationGated, TestPlanGated, HasOpen, AnyFailed, AnyFailedWith;
    var t := RunNode(env, node, s, now, resume).state;
    SameVerdicts(s, t);
    if node == SpecificationGate {
      SpecificationGatePasses(s);
    } else if node == SecurityGate {
      SecurityGatePasses(s);
    } else {
      TestPlanGatePasses(s);
    }
  }

  lemma SameApproval(s: State, t: State)
    ensures t.review == s.review ==> ApprovedByHuman(t) == ApprovedByHuman(s)
  {
  }

  lemma OtherNodesKeepGates(env: Env, node: Node, s: State, now: Time, resume: Option<Resume>)
    requires node != End && node !in {SpecificationGate, SecurityGate, TestPlanGate} && Gated(node, s)
    requires RunNode(env, node, s, now, resume).Updated?
    ensures var t := RunNode(env, node, s, now, resume).state;
            Gated(Route(node, t), t)
  {
    hide RunNode, SpecificationGated, TestPlanGated, HasOpen, ApprovedByHuman;
    UntouchedArtifacts(env, node, s, now, resume);
    var t := RunNode(env, node, s, now, resume).state;
    if node != SpecificationNode {
      SameVerdicts(s, t);
      SameApproval(s, t);
    }
  }

  lemma NodeKeepsGates(env: Env, node: Node, s: State, now: Time, resume: Option<Resume>)
    requires node != End && Gated(node, s)
    requires RunNode(env, node, s, now, resume).Updated?
    ensures var t := RunNode(env, node, s, now, resume).state;
            Gated(Route(node, t), t)
  {
    hide *;
    if node in {SpecificationGate, SecurityGate, TestPlanGate} {
      GateKeepsGates(env, node, s, now, resume);
    } else {
      OtherNodesKeepGates(env, node, s, now, resume);
    }
  }

  predicate ImplementsOnlyWhenReady(visits: seq<Visit>) {
    forall k :: 0 <= k < |visits| && visits[k].node == Implementation ==> ReadyToImplement(visits[k].before)
  }

  /** One call of the graph, from any checkpoint the gates vouch for. */
  lemma {:induction false} DriveGated(env: Env, s: State, node: Node, c: Clock, i: nat, resume: Option<Resume>,
                                      budget: Option<nat>)
    requires Gated(node, s)
    ensures var a := Drive(env, s, node, c, i, resume, budget);
            ImplementsOnlyWhenReady(a.started) && Gated(a.thread.next, a.thread.values)
    decreases ReworkLeft(env, s), Rank(node)
  {
    hide RunNode, Route, Rank, SpecificationGated, TestPlanGated, HasOpen;
    if node != End && budget != Some(0) {
      var a := RunNode(env, node, s, c(i), resume);
      if a.Updated? {
        NodesMakeProgress(env, node, s, c(i), resume);
        NodeKeepsGates(env, node, s, c(i), resume);
        DriveGated(env, a.state, Route(node, a.state), c, i + 1, None, Spend(budget));
      }
    }
  }

  predicate ThreadGated(thread: Thread) {
    thread.Saved? ==> Gated(thread.next, thread.values)
  }

  /** Gate safety over every attempt of a job: each start of the implementation
      agent, those that died included, finds every gate satisfied. */
  lemma {:induction false} SessionGated(env: Env, thread: Thread, start: Start, recover: bool, deaths: seq<Death>,
                                        clock: Clock)
    requires !start.Input? ==> thread.Saved?
    requires ThreadGated(thread)
    ensures var h := Session(env, thread, start, recover, deaths, clock);
            ImplementsOnlyWhenReady(h.started) && ThreadGated(h.last.thread)
    decreases |deaths|
  {
    hide SpecificationGated, TestPlanGated, HasOpen, RunNode;
    var c := if deaths == [] then clock else deaths[0].clock;
    var budget := if deaths == [] then None else Some(deaths[0].budget);
    var a := InvokeWorkflow(env, thread, start, recover, start.Command?, c, budget);
    AttemptGated(env, thread, start, recover, c, budget);
    if deaths != [] {
      SessionGated(env, a.thread, start, true, deaths[1..], clock);
    }
  }

  lemma AttemptGated(env: Env, thread: Thread, start: Start, recover: bool, c: Clock, budget: Option<nat>)
    requires !start.Input? ==> thread.Saved?
    requires ThreadGated(thread)
    ensures var a := InvokeWorkflow(env, thread, start, recover, start.Command?, c, budget);
            ImplementsOnlyWhenReady(a.started) && ThreadGated(a.thread)
  {
    hide SpecificationGated, TestPlanGated, HasOpen, RunNode;
    if start.Input? {
      DriveGated(env, start.initial, Context, c, 0, None, Spend(budget));
    }
    if thread.Saved? {
      DriveGated(env, thread.values, thread.next, c, 0, None, budget);
      if start.Command? {
        DriveGated(env, thread.values, thread.next, c, 0, Some(start.decision), budget);
      }
    }
  }

  /** A whole task: its execute job with any deaths, and, if that pauses for
      review, the resume job with any decision and any deaths. */
  lemma TaskGated(env: Env, initial: State, deaths: seq<Death>, clock: Clock,
                  decision: Resume, resumeDeaths: seq<Death>, resumeClock: Clock)
    ensures var first := Session(env, Fresh, Input(initial), false, deaths, clock);
            && ImplementsOnlyWhenReady(first.started)
            && (first.last.thread.Saved? ==>
                  ImplementsOnlyWhenReady(
                    Session(env, first.last.thread, Command(decision), false, resumeDeaths, resumeClock).started))
  {
    SessionGated(env, Fresh, Input(initial), false, deaths, clock);
    var first := Session(env, Fresh, Input(initial), false, deaths, clock);
    if first.last.thread.Saved? {
      SessionGated(env, first.last.thread, Command(decision), false, resumeDeaths, resumeClock);
    }
  }
}
