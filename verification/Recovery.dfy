/** Crash-transparent recovery of a workflow thread (docs/ADR-017): whatever
    deaths strike a job, its attempts together do what one uninterrupted run
    does, up to timestamps. */
module Recovery {
  import opened Basics
  import opened Artifacts
  import opened Policies
  import opened Workflow

  // ------------------------------------------------- erasing timestamps

  function EraseEvidence(e: Evidence): Evidence {
    match e
    case Noted(kind, _) => Noted(kind, 0)
    case ReviewRequested(_, _) => ReviewRequested(0, 0)
    case ReviewDecided(at, status, reviewer) => e
    case ReworkDecided(_, decision) => ReworkDecided(0, decision)
  }

  function EraseLog(log: seq<Evidence>): seq<Evidence> {
    seq(|log|, k requires 0 <= k < |log| => EraseEvidence(log[k]))
  }

  function Erase(s: State): State {
    s.(bundle := if s.bundle.Some? then Some(s.bundle.value.(createdAt := 0)) else None,
       review := if s.review.Some? then Some(s.review.value.(requestedAt := 0, expiresAt := 0)) else None,
       judge := if s.judge.Some? then Some(s.judge.value.(evaluatedAt := 0)) else None,
       evidence := EraseLog(s.evidence))
  }

  function EraseOutcome(o: NodeOutcome): NodeOutcome {
    if o.Updated? then Updated(Erase(o.state)) else o
  }

  function EraseThread(t: Thread): Thread {
    if t.Saved? then t.(values := Erase(t.values)) else t
  }

  predicate SameEnd(a: Attempt, b: Attempt) {
    EraseThread(a.thread) == EraseThread(b.thread) && a.halt == b.halt
  }

  lemma EraseLogAppend(a: seq<Evidence>, b: seq<Evidence>)
    ensures EraseLog(a + b) == EraseLog(a) + EraseLog(b)
  {
  }

  lemma StampErased(kinds: seq<string>, t: Time, u: Time)
    ensures EraseLog(Stamp(kinds, t)) == EraseLog(Stamp(kinds, u))
  {
  }

  /** Everything but the stamped fields is untouched by erasure. */
  lemma FieldsErased(s: State, t: State)
    requires Erase(s) == Erase(t)
    ensures s.request == t.request && s.status == t.status && s.blocked == t.blocked
    ensures s.requirements == t.requirements && s.specification == t.specification && s.architecture == t.architecture
    ensures s.security == t.security && s.riskLevel == t.riskLevel && s.testPlan == t.testPlan
    ensures s.implementation == t.implementation && s.validation == t.validation
    ensures s.reworkCount == t.reworkCount && s.reworkDecision == t.reworkDecision && s.reworkHistory == t.reworkHistory
    ensures s.policyResults == t.policyResults
    ensures |s.evidence| == |t.evidence| && EraseLog(s.evidence) == EraseLog(t.evidence)
  {
    assert Erase(s).evidence == EraseLog(s.evidence) && Erase(t).evidence == EraseLog(t.evidence);
    assert Erase(s).request == s.request && Erase(s).status == s.status && Erase(s).blocked == s.blocked;
    assert |EraseLog(s.evidence)| == |s.evidence| && |EraseLog(t.evidence)| == |t.evidence|;
  }

  /** The checks see no timestamps. */
  lemma ChecksErased(s: State, t: State, policy: PolicyId)
    requires Erase(s) == Erase(t)
    ensures Evaluate(policy, s) == Evaluate(policy, t)
  {
    FieldsErased(s, t);
    assert SpecRequirements(s) == SpecRequirements(t) && Scenarios(s) == Scenarios(t);
    assert TestCases(s) == TestCases(t) && Findings(s) == Findings(t);
    assert s.evidence == [] <==> t.evidence == [];
    assert Check(policy, s) == Check(policy, t);
  }

  lemma GatesErased(s: State, t: State, policies: seq<PolicyId>)
    requires Erase(s) == Erase(t)
    ensures EvaluateAll(policies, s) == EvaluateAll(policies, t)
  {
    hide Evaluate;
    forall k | 0 <= k < |policies|
      ensures Evaluate(policies[k], s) == Evaluate(policies[k], t)
    {
      ChecksErased(s, t, policies[k]);
    }
  }

  lemma AgentNodesErased(env: Env, node: Node, s: State, t: State, now: Time, later: Time, resume: Option<Resume>)
    requires Erase(s) == Erase(t)
    requires node in {Requirements, SpecificationNode, Architecture, Security, TestPlanningNode, Implementation,
                      Validation}
    ensures EraseOutcome(RunNode(env, node, s, now, resume)) == EraseOutcome(RunNode(env, node, t, later, resume))
  {
    hide Contextualize, GateRequirements, GateAny, GateSecurity, PrepareReview, RunHumanReview, GateImplementation,
         GateValidation, RunJudge;
    forall kinds: seq<string>
      ensures EraseLog(Stamp(kinds, now)) == EraseLog(Stamp(kinds, later))
      ensures EraseLog(s.evidence + Stamp(kinds, now)) == EraseLog(t.evidence + Stamp(kinds, later))
    {
      StampErased(kinds, now, later);
      EraseLogAppend(s.evidence, Stamp(kinds, now));
      EraseLogAppend(t.evidence, Stamp(kinds, later));
    }
  }

  lemma SecurityGateErased(s: State, t: State)
    requires Erase(s) == Erase(t)
    ensures Erase(GateSecurity(s)) == Erase(GateSecurity(t))
  {
    hide Evaluate, EvaluateAll, AnyFailedWith;
    GatesErased(s, t, SECURITY_POLICIES);
    FieldsErased(s, t);
  }

  lemma SimpleGatesErased(s: State, t: State, policies: seq<PolicyId>)
    requires Erase(s) == Erase(t)
    ensures Erase(GateAny(policies, s)) == Erase(GateAny(policies, t))
    ensures Erase(GateRequirements(s)) == Erase(GateRequirements(t))
    ensures Erase(GateImplementation(s)) == Erase(GateImplementation(t))
  {
    hide Evaluate, EvaluateAll, AnyFailed, AnyFailedWith;
    GatesErased(s, t, policies);
    GatesErased(s, t, REQUIREMENTS_POLICIES);
    ChecksErased(s, t, IMPL_001);
    FieldsErased(s, t);
  }

  lemma PolicyGatesErased(env: Env, node: Node, s: State, t: State, now: Time, later: Time, resume: Option<Resume>)
    requires Erase(s) == Erase(t)
    requires node in {RequirementsGate, SpecificationGate, ArchitectureGate, SecurityGate, TestPlanGate,
                      ImplementationGate}
    ensures EraseOutcome(RunNode(env, node, s, now, resume)) == EraseOutcome(RunNode(env, node, t, later, resume))
  {
    hide Erase, GateAny, GateRequirements, GateSecurity, GateImplementation;
    SecurityGateErased(s, t);
    SimpleGatesErased(s, t, SPECIFICATION_POLICIES);
    SimpleGatesErased(s, t, [ARCH_001]);
    SimpleGatesErased(s, t, TEST_PLAN_POLICIES);
  }

  lemma ValidationGateErased(env: Env, s: State, t: State, now: Time, later: Time)
    requires Erase(s) == Erase(t)
    ensures EraseOutcome(GateValidation(env, s, now)) == EraseOutcome(GateValidation(env, t, later))
  {
    hide Check, Evaluate, EvaluateAll, FailedPolicies;
    GatesErased(s, t, VALIDATION_POLICIES);
    FieldsErased(s, t);
    var a, b := GateValidation(env, s, now), GateValidation(env, t, later);
    if a.Updated? {
      var d := a.state.reworkDecision.value;
      EraseLogAppend(s.evidence, [ReworkDecided(now, d)]);
      EraseLogAppend(t.evidence, [ReworkDecided(later, d)]);
      assert EraseLog([ReworkDecided(now, d)]) == EraseLog([ReworkDecided(later, d)]);
    }
  }

  lemma OtherNodesErased(env: Env, node: Node, s: State, t: State, now: Time, later: Time, resume: Option<Resume>)
    requires Erase(s) == Erase(t)
    requires node in {Context, PrepareHumanReview, HumanReview, Judge, BlockedNode}
    ensures EraseOutcome(RunNode(env, node, s, now, resume)) == EraseOutcome(RunNode(env, node, t, later, resume))
  {
    hide RunRequirements, GateRequirements, RunSpecification, GateAny, RunArchitecture, RunSecurity, GateSecurity,
         RunTestPlanning, RunImplementation, GateImplementation, RunValidation, GateValidation;
    forall a: Evidence, b: Evidence | EraseEvidence(a) == EraseEvidence(b)
      ensures EraseLog(s.evidence + [a]) == EraseLog(t.evidence + [b])
    {
      EraseLogAppend(s.evidence, [a]);
      EraseLogAppend(t.evidence, [b]);
    }
    var a, b := RunNode(env, node, s, now, resume), RunNode(env, node, t, later, resume);
    if a.Updated? && node != BlockedNode {
      var i := |s.evidence|;
      assert |EraseLog(s.evidence)| == i && |EraseLog(t.evidence)| == |t.evidence|;
      assert a.state.evidence == s.evidence + [a.state.evidence[i]];
      assert b.state.evidence == t.evidence + [b.state.evidence[i]];
      assert EraseEvidence(a.state.evidence[i]) == EraseEvidence(b.state.evidence[i]);
    }
  }

  /** A node that starts from the same artifacts does the same, whenever it runs. */
  lemma NodeErased(env: Env, node: Node, s: State, t: State, now: Time, later: Time, resume: Option<Resume>)
    requires Erase(s) == Erase(t) && node != End
    ensures EraseOutcome(RunNode(env, node, s, now, resume)) == EraseOutcome(RunNode(env, node, t, later, resume))
  {
    if node in {Context, PrepareHumanReview, HumanReview, Judge, BlockedNode} {
      OtherNodesErased(env, node, s, t, now, later, resume);
    } else if node in {Requirements, SpecificationNode, Architecture, Security, TestPlanningNode, Implementation,
                       Validation} {
      AgentNodesErased(env, node, s, t, now, later, resume);
    } else if node == ValidationGate {
      ValidationGateErased(env, s, t, now, later);
    } else {
      PolicyGatesErased(env, node, s, t, now, later, resume);
    }
  }

  lemma RouteErased(node: Node, s: State, t: State)
    requires Erase(s) == Erase(t) && node != End
    ensures Route(node, s) == Route(node, t)
  {
    FieldsErased(s, t);
  }

  // ---------------------------------------------- one run after another

  /** Runs from equal artifacts, on any clocks, end alike after the same nodes. */
  lemma {:induction false} DriveErased(env: Env, s: State, t: State, node: Node, c: Clock, i: nat, d: Clock, j: nat,
                                       resume: Option<Resume>)
    requires Erase(s) == Erase(t)
    ensures var a := Drive(env, s, node, c, i, resume, None);
            var b := Drive(env, t, node, d, j, resume, None);
            SameEnd(a, b) && a.completed == b.completed && |a.started| == |b.started|
    decreases ReworkLeft(env, s), Rank(node)
  {
    hide RunNode, Route;
    if node != End {
      NodeErased(env, node, s, t, c(i), d(j), resume);
      var a, b := RunNode(env, node, s, c(i), resume), RunNode(env, node, t, d(j), resume);
      if a.Updated? {
        NodesMakeProgress(env, node, s, c(i), resume);
        RouteErased(node, a.state, b.state);
        DriveErased(env, a.state, b.state, Route(node, a.state), c, i + 1, d, j + 1, None);
      }
    }
  }

  /** An attempt `a` that was cut short, the run `rest` that picks its checkpoint
      up, and the uninterrupted run `u`: together `a` and `rest` complete every
      node of `u` once and start one node twice. */
  predicate AddsUp(a: Attempt, rest: Attempt, u: Attempt) {
    && SameEnd(rest, u) && a.completed + rest.completed == u.completed
    && |a.started| + |rest.started| == |u.started| + 1
  }

  predicate SameRun(a: Attempt, u: Attempt) {
    SameEnd(a, u) && a.completed == u.completed && |a.started| == |u.started|
  }

  predicate Returned(a: Attempt) {
    a.halt == Some(Finished) || a.halt == Some(Paused)
  }

  function After(first: Node, before: State, rest: Attempt): Attempt {
    rest.(started := [Visit(first, before)] + rest.started, completed := [first] + rest.completed)
  }

  lemma AddsUpAfter(node: Node, s: State, t: State, a: Attempt, rest: Attempt, u: Attempt)
    requires AddsUp(a, rest, u)
    ensures AddsUp(After(node, s, a), rest, After(node, t, u))
  {
    assert ([node] + a.completed) + rest.completed == [node] + (a.completed + rest.completed);
  }

  function PickUpRun(env: Env, a: Attempt, clock: Clock, resume: Option<Resume>): Attempt
    requires a.thread.Saved?
  {
    Drive(env, a.thread.values, a.thread.next, clock, 0, if a.thread.interrupted then resume else None, None)
  }

  lemma {:induction false} PickUp(env: Env, s: State, t: State, node: Node, c: Clock, i: nat, d: Clock, j: nat,
                                  e: Clock, resume: Option<Resume>, budget: nat)
    requires Erase(s) == Erase(t)
    ensures var a := Drive(env, s, node, c, i, resume, Some(budget));
            var u := Drive(env, t, node, d, j, resume, None);
            if Returned(a) then SameRun(a, u)
            else a.thread.next != End && AddsUp(a, PickUpRun(env, a, e, resume), u)
    decreases ReworkLeft(env, s), Rank(node)
  {
    hide RunNode, Route, Rank, Erase, ReworkLeft;
    var x := Drive(env, s, node, c, i, resume, Some(budget));
    if node == End {
    } else if budget == 0 {
      DriveErased(env, s, t, node, e, 0, d, j, resume);
    } else {
      NodeErased(env, node, s, t, c(i), d(j), resume);
      var a, b := RunNode(env, node, s, c(i), resume), RunNode(env, node, t, d(j), resume);
      if a.Updated? {
        NodesMakeProgress(env, node, s, c(i), resume);
        RouteErased(node, a.state, b.state);
        var next := Route(node, a.state);
        PickUp(env, a.state, b.state, next, c, i + 1, d, j + 1, e, None, budget - 1);
        var y := Drive(env, a.state, next, c, i + 1, None, Some(budget - 1));
        var u := Drive(env, b.state, next, d, j + 1, None, None);
        assert x == After(node, s, y);
        assert Drive(env, t, node, d, j, resume, None) == After(node, t, u);
        if !Returned(y) {
          NotInterruptedWithoutReview(env, a.state, next, c, i + 1, Some(budget - 1));
          AddsUpAfter(node, s, t, y, PickUpRun(env, y, e, None), u);
        }
      } else {
        NodeErased(env, node, s, t, e(0), d(j), resume);
      }
    }
  }

  lemma {:induction false} NotInterruptedWithoutReview(env: Env, s: State, node: Node, c: Clock, i: nat,
                                                       budget: Option<nat>)
    ensures var a := Drive(env, s, node, c, i, None, budget);
            a.thread.interrupted ==> a.halt == Some(Paused)
    decreases ReworkLeft(env, s), Rank(node)
  {
    hide RunNode, Route, Rank;
    if node != End && budget != Some(0) {
      var a := RunNode(env, node, s, c(i), None);
      if a.Updated? {
        NodesMakeProgress(env, node, s, c(i), None);
        NotInterruptedWithoutReview(env, a.state, Route(node, a.state), c, i + 1, Spend(budget));
      }
    }
  }

  /** A resumed thread does not stop for a second decision. */
  lemma {:induction false} NoPauseAfterReview(env: Env, s: State, node: Node, c: Clock, i: nat, budget: Option<nat>)
    requires Rank(node) < Rank(HumanReview)
    ensures Drive(env, s, node, c, i, None, budget).halt != Some(Paused)
    decreases ReworkLeft(env, s), Rank(node)
  {
    hide RunNode, Route;
    if node != End && budget != Some(0) {
      var a := RunNode(env, node, s, c(i), None);
      if a.Interrupted? {
        OnlyReviewInterrupts(env, node, s, c(i), None);
      }
      if a.Updated? {
        StaysBelowReview(node, a.state);
        NodesMakeProgress(env, node, s, c(i), None);
        NoPauseAfterReview(env, a.state, Route(node, a.state), c, i + 1, Spend(budget));
      }
    }
  }

  lemma ResumedThreadDoesNotPause(env: Env, s: State, c: Clock, decision: Resume, budget: Option<nat>)
    ensures Drive(env, s, HumanReview, c, 0, Some(decision), budget).halt != Some(Paused)
  {
    hide RunNode, Route;
    if budget != Some(0) {
      var a := RunNode(env, HumanReview, s, c(0), Some(decision));
      if a.Interrupted? {
        OnlyReviewInterrupts(env, HumanReview, s, c(0), Some(decision));
      }
      if a.Updated? {
        StaysBelowReview(HumanReview, a.state);
        NoPauseAfterReview(env, a.state, Route(HumanReview, a.state), c, 1, Spend(budget));
      }
    }
  }

  // ------------------------------------------------ a job and its deaths

  /** The process dies after storing at most `budget` checkpoints in this attempt,
      or after the graph has returned, if it returns before that. */
  datatype Death = Death(budget: nat, clock: Clock)

  datatype History = History(last: Attempt, started: seq<Visit>, completed: seq<Node>, struck: nat)

  /** Deaths that hit a node: it had been started and has to be started again. */
  function Struck(a: Attempt): nat {
    if Returned(a) || a.started == [] then 0 else 1
  }

  /** Every attempt of one job, in order. The first one runs without recovery. */
  function Session(env: Env, thread: Thread, start: Start, recover: bool, deaths: seq<Death>, clock: Clock)
    : (h: History)
    requires !start.Input? ==> thread.Saved?
    decreases |deaths|
  {
    if deaths == [] then
      var a := InvokeWorkflow(env, thread, start, recover, start.Command?, clock, None);
      History(a, a.started, a.completed, 0)
    else
      var a := InvokeWorkflow(env, thread, start, recover, start.Command?, deaths[0].clock, Some(deaths[0].budget));
      var h := Session(env, a.thread, start, true, deaths[1..], clock);
      History(h.last, a.started + h.started, a.completed + h.completed, Struck(a) + h.struck)
  }

  /** Threads a job of this kind meets: an execution starts fresh, a resume starts
      at the interrupt. */
  predicate ThreadOf(thread: Thread, start: Start, recover: bool) {
    match start
    case Input(_) => recover || thread.Fresh?
    case Command(_) =>
      && thread.Saved? && (recover || thread.interrupted)
      && (if thread.interrupted then thread.next == HumanReview else Rank(thread.next) < Rank(HumanReview))
    case Continue => false
  }

  /** Where a resumed thread can be checkpointed. */
  lemma {:induction false} ResumeStaysBelowReview(env: Env, s: State, node: Node, c: Clock, i: nat,
                                                  resume: Option<Resume>, budget: Option<nat>)
    requires if resume.Some? then node == HumanReview else Rank(node) < Rank(HumanReview)
    ensures var a := Drive(env, s, node, c, i, resume, budget);
            if a.thread.interrupted then a.thread.next == HumanReview && resume.Some? && node == HumanReview
            else Rank(a.thread.next) < Rank(HumanReview)
    decreases ReworkLeft(env, s), Rank(node)
  {
    hide RunNode, Route;
    if node != End && budget != Some(0) {
      var a := RunNode(env, node, s, c(i), resume);
      if a.Interrupted? {
        OnlyReviewInterrupts(env, node, s, c(i), resume);
      }
      if a.Updated? {
        StaysBelowReview(node, a.state);
        NodesMakeProgress(env, node, s, c(i), resume);
        ResumeStaysBelowReview(env, a.state, Route(node, a.state), c, i + 1, None, Spend(budget));
      }
    }
  }

  /** One attempt cut short, then a full one, against the full one alone. */
  predicate Transparent(env: Env, thread: Thread, start: Start, recover: bool, death: Death, clock: Clock)
    requires !start.Input? ==> thread.Saved?
  {
    var a := InvokeWorkflow(env, thread, start, recover, start.Command?, death.clock, Some(death.budget));
    var u := InvokeWorkflow(env, thread, start, recover, start.Command?, clock, None);
    && ThreadOf(a.thread, start, true)
    && var next := InvokeWorkflow(env, a.thread, start, true, start.Command?, clock, None);
       && SameEnd(next, u) && a.completed + next.completed == u.completed
       && |a.started| + |next.started| == |u.started| + Struck(a)
  }

  lemma ExecutionTransparent(env: Env, thread: Thread, initial: State, recover: bool, death: Death, clock: Clock)
    requires ThreadOf(thread, Input(initial), recover)
    ensures Transparent(env, thread, Input(initial), recover, death, clock)
  {
    hide RunNode, Route, Rank, Erase, Drive;
    if thread.Fresh? {
      if death.budget != 0 {
        PickUp(env, initial, initial, Context, death.clock, 0, clock, 0, clock, None, death.budget - 1);
        NotInterruptedWithoutReview(env, initial, Context, death.clock, 0, Some(death.budget - 1));
        EndsWhenFinished(env, initial, Context, death.clock, 0, None, Some(death.budget - 1));
      }
    } else if !thread.interrupted && thread.next != End {
      PickUp(env, thread.values, thread.values, thread.next, death.clock, 0, clock, 0, clock, None, death.budget);
      NotInterruptedWithoutReview(env, thread.values, thread.next, death.clock, 0, Some(death.budget));
      EndsWhenFinished(env, thread.values, thread.next, death.clock, 0, None, Some(death.budget));
    }
  }

  lemma ResumeTransparent(env: Env, thread: Thread, decision: Resume, recover: bool, death: Death, clock: Clock)
    requires ThreadOf(thread, Command(decision), recover)
    ensures Transparent(env, thread, Command(decision), recover, death, clock)
  {
    hide RunNode, Route, Erase;
    if thread.interrupted {
      PickUp(env, thread.values, thread.values, HumanReview, death.clock, 0, clock, 0, clock, Some(decision),
             death.budget);
      ResumeStaysBelowReview(env, thread.values, HumanReview, death.clock, 0, Some(decision), Some(death.budget));
      ResumedThreadDoesNotPause(env, thread.values, death.clock, decision, Some(death.budget));
      EndsWhenFinished(env, thread.values, HumanReview, death.clock, 0, Some(decision), Some(death.budget));
    } else if thread.next != End {
      PickUp(env, thread.values, thread.values, thread.next, death.clock, 0, clock, 0, clock, None, death.budget);
      ResumeStaysBelowReview(env, thread.values, thread.next, death.clock, 0, None, Some(death.budget));
      NoPauseAfterReview(env, thread.values, thread.next, death.clock, 0, Some(death.budget));
      EndsWhenFinished(env, thread.values, thread.next, death.clock, 0, None, Some(death.budget));
    }
  }

  /** The halt and the checkpoint agree. */
  lemma {:induction false} EndsWhenFinished(env: Env, s: State, node: Node, c: Clock, i: nat, resume: Option<Resume>,
                                            budget: Option<nat>)
    ensures var a := Drive(env, s, node, c, i, resume, budget);
            && (a.halt == Some(Finished) <==> a.thread.next == End)
            && (a.halt == Some(Finished) ==> !a.thread.interrupted)
            && (a.halt == Some(Paused) ==> a.thread.interrupted)
            && (!Returned(a) ==> a.started != [])
            && (budget == None ==> a.halt != None)
    decreases ReworkLeft(env, s), Rank(node)
  {
    hide RunNode, Route, Rank;
    if node != End && budget != Some(0) {
      var a := RunNode(env, node, s, c(i), resume);
      if a.Updated? {
        NodesMakeProgress(env, node, s, c(i), resume);
        EndsWhenFinished(env, a.state, Route(node, a.state), c, i + 1, None, Spend(budget));
      }
    }
  }

  /** Crash-transparent recovery. For any number of deaths at any points, the job's
      attempts together end in the checkpoint and the outcome of one uninterrupted
      run, timestamps erased; they complete exactly its nodes, in its order, each
      once; and each death that hit a node costs exactly one more start. */
  lemma {:induction false} RecoveryIsTransparent(env: Env, thread: Thread, start: Start, recover: bool,
                                                 deaths: seq<Death>, clock: Clock)
    requires ThreadOf(thread, start, recover)
    ensures var h := Session(env, thread, start, recover, deaths, clock);
            var u := InvokeWorkflow(env, thread, start, recover, start.Command?, clock, None);
            && SameEnd(h.last, u)
            && h.completed == u.completed
            && |h.started| == |u.started| + h.struck
            && h.struck <= |deaths|
    decreases |deaths|
  {
    if deaths != [] {
      var a := InvokeWorkflow(env, thread, start, recover, start.Command?, deaths[0].clock, Some(deaths[0].budget));
      if start.Input? {
        ExecutionTransparent(env, thread, start.initial, recover, deaths[0], clock);
      } else {
        ResumeTransparent(env, thread, start.decision, recover, deaths[0], clock);
      }
      RecoveryIsTransparent(env, a.thread, start, true, deaths[1..], clock);
    }
  }

  /** The execute job: a new thread, run from its input. */
  lemma ExecuteJobRecovers(env: Env, initial: State, deaths: seq<Death>, clock: Clock)
    ensures var h := Session(env, Fresh, Input(initial), false, deaths, clock);
            var u := Drive(env, initial, Context, clock, 0, None, None);
            SameEnd(h.last, u) && h.completed == u.completed && |h.started| == |u.started| + h.struck
  {
    RecoveryIsTransparent(env, Fresh, Input(initial), false, deaths, clock);
  }

  /** The resume job: the decision is applied exactly once, even if the worker dies
      before, while or after the interrupted node runs. */
  lemma ResumeJobRecovers(env: Env, paused: State, decision: Resume, deaths: seq<Death>, clock: Clock)
    ensures var h := Session(env, Saved(paused, HumanReview, true), Command(decision), false, deaths, clock);
            var u := Drive(env, paused, HumanReview, clock, 0, Some(decision), None);
            SameEnd(h.last, u) && h.completed == u.completed && |h.started| == |u.started| + h.struck
  {
    RecoveryIsTransparent(env, Saved(paused, HumanReview, true), Command(decision), false, deaths, clock);
  }
}
