/** The services that run the graph for a task and write its record and its audit
    trail (app/services/tasks.py), and what the trail adds up to across the pause
    for a human review. */
module TaskService {
  import opened Basics
  import opened Artifacts
  import opened Policies
  import opened Workflow
  import opened Recovery

  /** `results[count:]`: past the end of the list there is nothing left. */
  function Drop<T>(items: seq<T>, count: nat): (rest: seq<T>)
    ensures count <= |items| ==> rest == items[count..]
    ensures count > |items| ==> rest == []
  {
    if count <= |items| then items[count..] else []
  }

  /** The JSON columns of a task row that hold workflow artifacts. */
  datatype Columns = Columns(
    bundle: Option<Bundle>,
    requirements: Option<Document>,
    specification: Option<Specification>,
    architecture: Option<Document>,
    security: Option<SecurityReview>,
    riskLevel: Option<Severity>,
    implementation: Option<Document>,
    testPlan: Option<TestPlan>,
    validation: Option<ValidationReport>,
    judge: Option<JudgeEvaluation>)

  class TaskRecord {
    const request: string
    var status: Option<Status>
    var artifacts: Columns
    var reworkCount: int
    var reworkDecision: Option<ReworkDecision>
    var review: Option<ReviewRequest>

    // Checkpoints of the task's thread.
    var thread: Thread

    // Payloads of its POLICY_DECISION and REWORK_DECISION events, oldest first.
    var policyEvents: seq<Decision>
    var reworkEvents: seq<ReworkDecision>

    /** A new task; its context bundle may not have been persisted yet. */
    constructor (request: string, bundle: Option<Bundle>)
      ensures this.request == request && artifacts.bundle == bundle
      ensures thread == Fresh && policyEvents == [] && reworkEvents == [] && review == None && status == None
    {
      this.request := request;
      status, reworkCount, reworkDecision, review := None, 0, None, None;
      artifacts := Columns(bundle, None, None, None, None, None, None, None, None, None);
      thread, policyEvents, reworkEvents := Fresh, [], [];
    }

    /** The row shows this workflow state. */
    predicate Shows(s: State)
      reads this
    {
      && status == Some(s.status) && review == s.review
      && reworkCount == s.reworkCount && reworkDecision == s.reworkDecision
      && artifacts.bundle == s.bundle && artifacts.requirements == s.requirements
      && artifacts.specification == s.specification && artifacts.architecture == s.architecture
      && artifacts.security == s.security && artifacts.riskLevel == s.riskLevel
      && artifacts.implementation == s.implementation && artifacts.testPlan == s.testPlan
      && artifacts.validation == s.validation && artifacts.judge == s.judge
    }

    method ApplyWorkflowResult(s: State)
      modifies this
      ensures Shows(s)
      ensures thread == old(thread) && policyEvents == old(policyEvents) && reworkEvents == old(reworkEvents)
    {
      artifacts := Columns(s.bundle, s.requirements, s.specification, s.architecture, s.security,
                           s.riskLevel, s.implementation, s.testPlan, s.validation, s.judge);
      reworkCount, reworkDecision := s.reworkCount, s.reworkDecision;
      review := s.review;
      status := Some(s.status);
    }

    method RecordPolicies(decisions: seq<Decision>)
      modifies this`policyEvents
      ensures policyEvents == old(policyEvents) + decisions
    {
      for k := 0 to |decisions|
        invariant policyEvents == old(policyEvents) + decisions[..k]
      {
        policyEvents := policyEvents + [decisions[k]];
      }
    }

    method RecordReworks(decisions: seq<ReworkDecision>)
      modifies this`reworkEvents
      ensures reworkEvents == old(reworkEvents) + decisions
    {
      for k := 0 to |decisions|
        invariant reworkEvents == old(reworkEvents) + decisions[..k]
      {
        reworkEvents := reworkEvents + [decisions[k]];
      }
    }

    /** `run_task_workflow`: a task without a context bundle is refused before anything
        is written; otherwise the whole list of policy results is audited. */
    method RunTaskWorkflow(env: Env, recover: bool, clock: Clock) returns (raised: bool)
      modifies this
      ensures var initial := InitialState(request, old(artifacts).bundle);
              var a := InvokeWorkflow(env, old(thread), Input(initial), recover, false, clock, None);
              && (raised <==> old(artifacts).bundle == None || a.halt == Some(Failed))
              && (!raised ==>
                    && thread == a.thread && a.thread.Saved? && Shows(a.thread.values)
                    && policyEvents == old(policyEvents) + a.thread.values.policyResults
                    && reworkEvents == old(reworkEvents) + a.thread.values.reworkHistory)
              && (raised ==>
                    && status == (if old(artifacts).bundle == None then old(status) else Some(Analyzing))
                    && thread == (if old(artifacts).bundle == None then old(thread) else a.thread)
                    && review == old(review) && artifacts == old(artifacts)
                    && reworkCount == old(reworkCount) && reworkDecision == old(reworkDecision)
                    && policyEvents == old(policyEvents) && reworkEvents == old(reworkEvents))
    {
      if artifacts.bundle == None {
        return true;
      }
      var initial := InitialState(request, artifacts.bundle);
      status := Some(Analyzing);
      var a := InvokeWorkflow(env, thread, Input(initial), recover, false, clock, None);
      thread := a.thread;
      raised := a.halt == Some(Failed);
      if !raised {
        ApplyWorkflowResult(a.thread.values);
        RecordPolicies(a.thread.values.policyResults);
        RecordReworks(a.thread.values.reworkHistory);
      }
    }

    /** `run_human_review_resume`: only the policy results added after the pause are
        audited; the pending request on the row marks the cut. */
    method RunHumanReviewResume(env: Env, decision: Resume, recover: bool, clock: Clock) returns (raised: bool)
      modifies this
      ensures var a := InvokeWorkflow(env, old(thread), Command(decision), recover, true, clock, None);
              && (raised <==> old(review) == None || a.halt == Some(Failed))
              && (!raised ==>
                    && a.thread.Saved? && thread == a.thread && Shows(a.thread.values)
                    && policyEvents == old(policyEvents)
                         + Drop(a.thread.values.policyResults, old(review).value.policyResultCount)
                    && reworkEvents == old(reworkEvents) + a.thread.values.reworkHistory)
              && (raised ==>
                    && status == (if old(review) == None then old(status) else Some(WorkflowFailed))
                    && thread == (if old(review) == None then old(thread) else a.thread)
                    && review == old(review) && artifacts == old(artifacts)
                    && reworkCount == old(reworkCount) && reworkDecision == old(reworkDecision)
                    && policyEvents == old(policyEvents) && reworkEvents == old(reworkEvents))
    {
      if review == None {
        return true;
      }
      var pending := review.value;
      var a := InvokeWorkflow(env, thread, Command(decision), recover, true, clock, None);
      thread := a.thread;
      if a.halt == Some(Failed) {
        status := Some(WorkflowFailed);
        return true;
      }
      ApplyWorkflowResult(a.thread.values);
      RecordPolicies(Drop(a.thread.values.policyResults, pending.policyResultCount));
      RecordReworks(a.thread.values.reworkHistory);
      raised := false;
    }

    /** An attempt that dies in the graph, or after it before anything is committed. */
    method DieInWorkflow(env: Env, start: Start, recover: bool, death: Death)
      requires !start.Input? ==> thread.Saved?
      modifies this
      ensures var budget := Some(death.budget);
              thread == InvokeWorkflow(env, old(thread), start, recover, start.Command?, death.clock, budget).thread
      ensures review == old(review) && artifacts == old(artifacts)
      ensures policyEvents == old(policyEvents) && reworkEvents == old(reworkEvents)
      ensures !start.Input? ==> thread.Saved?
    {
      if start.Input? {
        status := Some(Analyzing);
      }
      var a := InvokeWorkflow(env, thread, start, recover, start.Command?, death.clock, Some(death.budget));
      thread := a.thread;
    }

    /** Every attempt of the execute job of a new task with its context persisted. */
    method ExecuteJob(env: Env, deaths: seq<Death>, clock: Clock) returns (raised: bool)
      requires thread == Fresh && artifacts.bundle.Some?
      modifies this
      ensures var initial := InitialState(request, old(artifacts).bundle);
              var last := Session(env, Fresh, Input(initial), false, deaths, clock).last;
              && thread == last.thread && (raised <==> last.halt == Some(Failed))
              && (!raised ==>
                    && thread.Saved? && Shows(thread.values)
                    && policyEvents == old(policyEvents) + thread.values.policyResults
                    && reworkEvents == old(reworkEvents) + thread.values.reworkHistory)
    {
      hide Drive;
      var initial := InitialState(request, artifacts.bundle);
      ghost var whole := Session(env, Fresh, Input(initial), false, deaths, clock).last;
      assert deaths[0..] == deaths;
      for k := 0 to |deaths|
        invariant Session(env, thread, Input(initial), k > 0, deaths[k..], clock).last == whole
        invariant policyEvents == old(policyEvents) && reworkEvents == old(reworkEvents)
        invariant artifacts == old(artifacts)
      {
        assert deaths[k..][0] == deaths[k] && deaths[k..][1..] == deaths[k + 1..];
        DieInWorkflow(env, Input(initial), k > 0, deaths[k]);
      }
      raised := RunTaskWorkflow(env, |deaths| > 0, clock);
    }

    /** Every attempt of the resume job of a paused task. */
    method ResumeJob(env: Env, decision: Resume, deaths: seq<Death>, clock: Clock) returns (raised: bool)
      requires thread.Saved? && review.Some?
      modifies this
      ensures var last := Session(env, old(thread), Command(decision), false, deaths, clock).last;
              && (raised <==> last.halt == Some(Failed))
              && (!raised ==>
                    && thread == last.thread && thread.Saved? && Shows(thread.values)
                    && policyEvents == old(policyEvents)
                         + Drop(thread.values.policyResults, old(review).value.policyResultCount)
                    && reworkEvents == old(reworkEvents) + thread.values.reworkHistory)
    {
      hide Drive;
      ghost var whole := Session(env, thread, Command(decision), false, deaths, clock).last;
      assert deaths[0..] == deaths;
      for k := 0 to |deaths|
        invariant thread.Saved? && review == old(review)
        invariant Session(env, thread, Command(decision), k > 0, deaths[k..], clock).last == whole
        invariant policyEvents == old(policyEvents) && reworkEvents == old(reworkEvents)
      {
        assert deaths[k..][0] == deaths[k] && deaths[k..][1..] == deaths[k + 1..];
        DieInWorkflow(env, Command(decision), k > 0, deaths[k]);
      }
      raised := RunHumanReviewResume(env, decision, |deaths| > 0, clock);
    }

    /** The execute job of a new task with its context persisted and, if that pauses,
        its resume job, with any deaths in the graph of either. It raises exactly when
        one of the two jobs fails. If neither does, the events recorded are exactly the
        policy results and the rework decisions of the final state, in order and once
        each, and the row shows that state. */
    method RunTask(env: Env, deaths: seq<Death>, c: Clock, decision: Resume, resumeDeaths: seq<Death>, d: Clock)
      returns (raised: bool)
      requires thread == Fresh && artifacts.bundle.Some? && policyEvents == [] && reworkEvents == []
      modifies this
      ensures var initial := InitialState(request, old(artifacts).bundle);
        var first := Session(env, Fresh, Input(initial), false, deaths, c).last;
        && first.thread.Saved?
        && var second := Session(env, first.thread, Command(decision), false, resumeDeaths, d).last;
           && (raised <==>
                 first.halt == Some(Failed) || (first.halt == Some(Paused) && second.halt == Some(Failed)))
           && (!raised ==> thread == if first.halt == Some(Paused) then second.thread else first.thread)
      ensures !raised ==>
        && thread.Saved? && Shows(thread.values)
        && policyEvents == thread.values.policyResults && reworkEvents == thread.values.reworkHistory
    {
      hide Drive, Session, RunNode;
      ghost var source := artifacts.bundle;
      raised := ExecuteJob(env, deaths, c);
      InterruptMeansPaused(env, request, source, deaths, c);
      if raised {
        return;
      }
      if !thread.interrupted {
        return;
      }
      AuditedExactlyOnce(env, request, source, deaths, c, decision, resumeDeaths, d);
      raised := ResumeJob(env, decision, resumeDeaths, d);
    }
  }

  /** Whether an execute job paused can be read off its checkpoint. */
  lemma InterruptMeansPaused(env: Env, request: string, source: Option<Bundle>, deaths: seq<Death>, c: Clock)
    ensures var last := Session(env, Fresh, Input(InitialState(request, source)), false, deaths, c).last;
            && last.thread.Saved?
            && (last.halt != Some(Failed) ==> (last.thread.interrupted <==> last.halt == Some(Paused)))
  {
    hide RunNode, Route, Erase, Session, Drive;
    var initial := InitialState(request, source);
    var u := Drive(env, initial, Context, c, 0, None, None);
    ExecuteJobRecovers(env, initial, deaths, c);
    EndsWhenFinished(env, initial, Context, c, 0, None, None);
    var last := Session(env, Fresh, Input(initial), false, deaths, c).last;
    assert last.thread.interrupted == u.thread.interrupted && last.halt == u.halt;
    match u.halt.value
    case Finished =>
    case Paused =>
    case Failed =>
  }

  /** After the first gate, nodes only append to the policy results and the rework
      history. */
  lemma NodeAppends(env: Env, node: Node, s: State, now: Time, resume: Option<Resume>)
    requires node != End && node != RequirementsGate
    requires RunNode(env, node, s, now, resume).Updated?
    ensures var t := RunNode(env, node, s, now, resume).state;
            s.policyResults <= t.policyResults && s.reworkHistory <= t.reworkHistory
  {
    hide Check, Evaluate, EvaluateAll, FailedPolicies, AnyFailed, AnyFailedWith;
  }

  lemma {:induction false} ResultsOnlyGrow(env: Env, s: State, node: Node, c: Clock, i: nat, resume: Option<Resume>)
    requires Rank(node) < Rank(RequirementsGate)
    ensures var a := Drive(env, s, node, c, i, resume, None);
            s.policyResults <= a.thread.values.policyResults && s.reworkHistory <= a.thread.values.reworkHistory
    decreases ReworkLeft(env, s), Rank(node)
  {
    hide RunNode, Route;
    if node != End {
      var a := RunNode(env, node, s, c(i), resume);
      if a.Updated? {
        NodesMakeProgress(env, node, s, c(i), resume);
        NodeAppends(env, node, s, c(i), resume);
        ResultsOnlyGrow(env, a.state, Route(node, a.state), c, i + 1, None);
      }
    }
  }

  /** Evidence once recorded stays: runs from below the requirements node only append
      to it. That node itself starts the log afresh. */
  lemma {:induction false} EvidenceOnlyGrows(env: Env, s: State, node: Node, c: Clock, i: nat, resume: Option<Resume>,
                                             budget: Option<nat>)
    requires Rank(node) < Rank(Requirements)
    ensures var t := Drive(env, s, node, c, i, resume, budget).thread.values;
            s.evidence <= t.evidence && s.requirements == t.requirements && s.bundle == t.bundle
    decreases ReworkLeft(env, s), Rank(node)
  {
    hide RunNode, Route;
    if node != End && budget != Some(0) {
      var a := RunNode(env, node, s, c(i), resume);
      if a.Updated? {
        NodesMakeProgress(env, node, s, c(i), resume);
        NodesWriteTheirOwn(env, node, s, c(i), resume);
        EvidenceOnlyGrows(env, a.state, Route(node, a.state), c, i + 1, None, Spend(budget));
      }
    }
  }

  /** Before the pause: no rework yet, and once the request is prepared its count is
      the length of the list. */
  predicate CutMarked(node: Node, s: State) {
    && (Rank(node) >= Rank(HumanReview) ==> s.reworkHistory == [])
    && (node == HumanReview ==> s.review.Some? && s.review.value.policyResultCount == |s.policyResults|)
  }

  lemma CutStep(env: Env, node: Node, s: State, now: Time)
    requires CutMarked(node, s) && Rank(node) >= Rank(HumanReview)
    ensures var o := RunNode(env, node, s, now, None);
            && (o.Interrupted? ==> node == HumanReview)
            && (o.Updated? ==> CutMarked(Route(node, o.state), o.state))
  {
    hide Stamp, Check, Evaluate, EvaluateAll, FailedPolicies, AnyFailed, AnyFailedWith;
  }

  /** A paused run leaves a request whose count is exactly the number of policy
      results audited so far. */
  lemma {:induction false} PauseMarksTheCut(env: Env, s: State, node: Node, c: Clock, i: nat)
    requires CutMarked(node, s)
    ensures var a := Drive(env, s, node, c, i, None, None);
            a.halt == Some(Paused) ==> a.thread.next == HumanReview && CutMarked(HumanReview, a.thread.values)
    decreases ReworkLeft(env, s), Rank(node)
  {
    hide RunNode, Route;
    if Rank(node) < Rank(HumanReview) {
      NoPauseAfterReview(env, s, node, c, i, None);
    } else {
      CutStep(env, node, s, c(i));
      var a := RunNode(env, node, s, c(i), None);
      if a.Updated? {
        NodesMakeProgress(env, node, s, c(i), None);
        PauseMarksTheCut(env, a.state, Route(node, a.state), c, i + 1);
      }
    }
  }

  /** Audit exactly once across the pause. The events of the execute job (all policy
      results of the paused state) followed by those of the resume job (what its
      final state has beyond the marked cut) are the final list, in order; the
      rework events likewise. Deaths inside the graph do not matter; a death while
      events are being written is outside this statement. */
  lemma AuditedExactlyOnce(env: Env, request: string, source: Option<Bundle>, deaths: seq<Death>, c: Clock,
                           decision: Resume, resumeDeaths: seq<Death>, d: Clock)
    ensures var first := Session(env, Fresh, Input(InitialState(request, source)), false, deaths, c).last;
            first.thread.Saved? && (first.halt == Some(Paused) ==>
              var second := Session(env, first.thread, Command(decision), false, resumeDeaths, d).last;
              var paused := first.thread.values;
              && paused.review.Some? && second.thread.Saved?
              && var final := second.thread.values;
                 && final.policyResults
                      == paused.policyResults + Drop(final.policyResults, paused.review.value.policyResultCount)
                 && paused.reworkHistory + final.reworkHistory == final.reworkHistory)
  {
    hide RunNode, Route, Erase, Drive, Session, InvokeWorkflow;
    var initial := InitialState(request, source);
    var first := Session(env, Fresh, Input(initial), false, deaths, c).last;
    var u := Drive(env, initial, Context, c, 0, None, None);
    ExecuteJobRecovers(env, initial, deaths, c);
    if first.halt == Some(Paused) {
      var paused := first.thread.values;
      PauseMarksTheCut(env, initial, Context, c, 0);
      EndsWhenFinished(env, initial, Context, c, 0, None, None);
      FieldsErased(u.thread.values, paused);
      ReviewErased(u.thread.values, paused);
      var second := Session(env, first.thread, Command(decision), false, resumeDeaths, d).last;
      var v := Drive(env, paused, HumanReview, d, 0, Some(decision), None);
      ResumeJobRecovers(env, paused, decision, resumeDeaths, d);
      ResultsOnlyGrow(env, paused, HumanReview, d, 0, Some(decision));
      FieldsErased(v.thread.values, second.thread.values);
    }
  }

  lemma ReviewErased(s: State, t: State)
    requires Erase(s) == Erase(t)
    ensures s.review.Some? <==> t.review.Some?
    ensures s.review.Some? ==> s.review.value.policyResultCount == t.review.value.policyResultCount
  {
    assert Erase(s).review == Erase(t).review;
  }
}
