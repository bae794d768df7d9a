/** How workflow runs end: bounded rework, what COMPLETED means, when a run pauses,
    and what an expired review leads to. */
module Rework {
  import opened Basics
  import opened Artifacts
  import opened Policies
  import opened Workflow
  import opened Recovery

  // ------------------------------------------------------- rework ledger

  function FailedValidations(history: seq<ReworkDecision>): nat {
    if history == [] then 0
    else FailedValidations(history[..|history| - 1]) + (if history[|history| - 1].required then 1 else 0)
  }

  function Times(node: Node, nodes: seq<Node>): nat {
    if nodes == [] then 0 else (if nodes[0] == node then 1 else 0) + Times(node, nodes[1..])
  }

  predicate ValidationPassed(s: State) {
    s.validation.Some? && s.validation.value.testPassed && s.validation.value.scannersPassed
  }

  lemma ValidationVerdict(s: State)
    ensures FailedPolicies(EvaluateAll(VALIDATION_POLICIES, s)) == [] <==> ValidationPassed(s)
  {
    var decisions := EvaluateAll(VALIDATION_POLICIES, s);
    var test, scan := Evaluate(TEST_001, s), Evaluate(SCAN_001, s);
    assert decisions == [test, scan] && decisions[1..] == [scan] && [scan][1..] == [];
    assert FailedPolicies([scan]) == if scan.passed then [] else [scan.policy];
    assert FailedPolicies([test, scan]) == (if test.passed then [] else [test.policy]) + FailedPolicies([scan]);
  }

  /** The counter in the state is the number of failed validations on record. */
  predicate CountsFailures(s: State) {
    s.reworkCount == FailedValidations(s.reworkHistory)
  }

  /** Only the validation gate touches the ledger, and it adds one true entry. */
  lemma LedgerStep(env: Env, node: Node, s: State, now: Time, resume: Option<Resume>)
    requires node != End && RunNode(env, node, s, now, resume).Updated?
    ensures var t := RunNode(env, node, s, now, resume).state;
            if node == ValidationGate then
              exists d :: t.reworkHistory == s.reworkHistory + [d] && (d.required <==> !ValidationPassed(s))
                && t.reworkCount == s.reworkCount + (if d.required then 1 else 0)
            else t.reworkHistory == s.reworkHistory && t.reworkCount == s.reworkCount
  {
    hide Check, Evaluate, EvaluateAll, FailedPolicies, AnyFailed, AnyFailedWith;
    if node == ValidationGate {
      ValidationVerdict(s);
      var t := RunNode(env, node, s, now, resume).state;
      assert t.reworkHistory == s.reworkHistory + [t.reworkDecision.value];
    }
  }

  /** The same, as the ledger sees it. */
  lemma LedgerStepCounts(env: Env, node: Node, s: State, now: Time, resume: Option<Resume>)
    requires node != End && RunNode(env, node, s, now, resume).Updated?
    ensures var t := RunNode(env, node, s, now, resume).state;
            && (CountsFailures(s) ==> CountsFailures(t))
            && s.reworkHistory <= t.reworkHistory
            && |t.reworkHistory| == |s.reworkHistory| + (if node == ValidationGate then 1 else 0)
  {
    hide RunNode, ValidationPassed;
    LedgerStep(env, node, s, now, resume);
    var t := RunNode(env, node, s, now, resume).state;
    if node == ValidationGate {
      var d :| t.reworkHistory == s.reworkHistory + [d] && (d.required <==> !ValidationPassed(s))
            && t.reworkCount == s.reworkCount + (if d.required then 1 else 0);
      assert t.reworkHistory[..|t.reworkHistory| - 1] == s.reworkHistory;
    }
  }

  lemma NoTimes(node: Node)
    ensures Times(node, []) == 0
  {
  }

  lemma TimesAfter(node: Node, first: Node, rest: seq<Node>)
    ensures Times(node, [first] + rest) == (if first == node then 1 else 0) + Times(node, rest)
  {
    assert ([first] + rest)[1..] == rest;
  }

  /** Over a whole run: one ledger entry per validation, and the counter stays the
      number of failed ones. */
  lemma {:induction false} ReworkLedger(env: Env, s: State, node: Node, c: Clock, i: nat, resume: Option<Resume>)
    requires CountsFailures(s)
    ensures var a := Drive(env, s, node, c, i, resume, None);
            && CountsFailures(a.thread.values)
            && |a.thread.values.reworkHistory| == |s.reworkHistory| + Times(ValidationGate, a.completed)
            && s.reworkHistory <= a.thread.values.reworkHistory
    decreases ReworkLeft(env, s), Rank(node)
  {
    hide RunNode, Route, Rank, ReworkLeft, CountsFailures;
    if node != End {
      var a := RunNode(env, node, s, c(i), resume);
      if a.Updated? {
        var t := a.state;
        NodesMakeProgress(env, node, s, c(i), resume);
        LedgerStepCounts(env, node, s, c(i), resume);
        ReworkLedger(env, t, Route(node, t), c, i + 1, None);
        TimesAfter(ValidationGate, node, Drive(env, t, Route(node, t), c, i + 1, None, None).completed);
      }
    }
  }

  // -------------------------------------------------------- bounded work

  /** Implementations a run may still complete from this node on. */
  function Allowance(env: Env, node: Node, s: State): int {
    if Rank(node) >= Rank(Implementation) then env.settings.maxRework - s.reworkCount
    else env.settings.maxRework - s.reworkCount - 1
  }

  predicate InWork(node: Node) {
    Rank(node) >= Rank(ValidationGate)
  }

  /** What one node does to the allowance, and how a run can leave the work. */
  predicate SpendsAllowance(env: Env, node: Node, s: State, t: State)
    requires node != End
  {
    && Allowance(env, node, s) >= (if node == Implementation then 1 else 0)
    && if InWork(Route(node, t)) then
         && t.reworkCount < env.settings.maxRework
         && Allowance(env, Route(node, t), t) == Allowance(env, node, s) - (if node == Implementation then 1 else 0)
       else
         && node != Implementation
         && (Route(node, t) == Judge ==> t.status == Completed)
         && (Route(node, t) == End && t.status == ReworkExhausted ==>
               node == ValidationGate && Allowance(env, node, s) == 0)
  }

  lemma AllowanceAtTheGates(env: Env, node: Node, s: State, now: Time, resume: Option<Resume>)
    requires (node == ValidationGate || node == SecurityGate) && s.reworkCount < env.settings.maxRework
    requires RunNode(env, node, s, now, resume).Updated?
    ensures SpendsAllowance(env, node, s, RunNode(env, node, s, now, resume).state)
  {
    hide Stamp, Check, Evaluate, EvaluateAll, FailedPolicies, AnyFailed, AnyFailedWith;
  }

  lemma AllowanceElsewhere(env: Env, node: Node, s: State, t: State)
    requires InWork(node) && node != ValidationGate && node != SecurityGate
    requires t.reworkCount == s.reworkCount < env.settings.maxRework
    ensures SpendsAllowance(env, node, s, t)
  {
  }

  lemma AllowanceStep(env: Env, node: Node, s: State, now: Time, resume: Option<Resume>)
    requires InWork(node) && s.reworkCount < env.settings.maxRework
    requires RunNode(env, node, s, now, resume).Updated?
    ensures SpendsAllowance(env, node, s, RunNode(env, node, s, now, resume).state)
  {
    hide RunNode, Route, SpendsAllowance;
    if node == ValidationGate || node == SecurityGate {
      AllowanceAtTheGates(env, node, s, now, resume);
    } else {
      NodesWriteTheirOwn(env, node, s, now, resume);
      AllowanceElsewhere(env, node, s, RunNode(env, node, s, now, resume).state);
    }
  }

  lemma TailStatus(env: Env, node: Node, s: State, c: Clock, i: nat)
    requires !InWork(node)
    ensures node in {Judge, BlockedNode, End}
    ensures var a := Drive(env, s, node, c, i, None, None);
            && Times(Implementation, a.completed) == 0 && a.halt == Some(Finished)
            && a.thread.values.status == (if node == BlockedNode then Status.Blocked else s.status)
  {
    hide Check, Evaluate, EvaluateAll, FailedPolicies, AnyFailed, AnyFailedWith;
    if node != End {
      var t := if node == Judge then RunJudge(env, s, c(i)) else s.(status := Status.Blocked);
      assert RunNode(env, node, s, c(i), None) == Updated(t) && Route(node, t) == End;
      assert Drive(env, s, node, c, i, None, None)
          == Attempt(Saved(t, End, false), Some(Finished), [Visit(node, s)], [node]);
      assert [node][1..] == [];
    }
  }

  lemma AllowanceIsNatural(env: Env, node: Node, s: State)
    requires InWork(node) && s.reworkCount < env.settings.maxRework
    ensures Allowance(env, node, s) >= 0 && node != End
  {
  }

  /** Bounded rework: a run never completes more implementations than the policy
      allows, and ends REWORK_EXHAUSTED only when it has used them all. */
  lemma {:induction false} ReworkBounded(env: Env, s: State, node: Node, c: Clock, i: nat, resume: Option<Resume>)
    requires InWork(node) && s.reworkCount < env.settings.maxRework
    ensures var a := Drive(env, s, node, c, i, resume, None);
            && Times(Implementation, a.completed) <= Allowance(env, node, s)
            && ((a.halt == Some(Finished) && a.thread.values.status == ReworkExhausted) ==>
                  Times(Implementation, a.completed) == Allowance(env, node, s))
    decreases ReworkLeft(env, s), Rank(node)
  {
    hide RunNode, Route, Rank, ReworkLeft, Allowance, Times;
    AllowanceIsNatural(env, node, s);
    var a := RunNode(env, node, s, c(i), resume);
    if a.Updated? {
      var t := a.state;
      NodesMakeProgress(env, node, s, c(i), resume);
      AllowanceStep(env, node, s, c(i), resume);
      var next := Route(node, t);
      var rest := Drive(env, t, next, c, i + 1, None, None);
      if InWork(next) {
        ReworkBounded(env, t, next, c, i + 1, None);
      } else {
        TailStatus(env, next, t, c, i + 1);
      }
      TimesAfter(Implementation, node, rest.completed);
    } else {
      NoTimes(Implementation);
    }
  }

  // ----------------------------------------------- what COMPLETED means

  /** Where a run can be with respect to its last validation. */
  predicate VerdictKnown(node: Node, s: State) {
    if Rank(node) >= Rank(Validation) then !ValidationPassed(s) && s.status != Completed
    else if node == ValidationGate then s.status != Completed
    else if node == BlockedNode then !ValidationPassed(s)
    else s.status == Completed <==> ValidationPassed(s)
  }

  lemma VerdictStep(env: Env, node: Node, s: State, now: Time, resume: Option<Resume>)
    requires node != End && VerdictKnown(node, s)
    requires RunNode(env, node, s, now, resume).Updated?
    ensures var t := RunNode(env, node, s, now, resume).state;
            VerdictKnown(Route(node, t), t)
  {
    hide Check, Evaluate, EvaluateAll, FailedPolicies, AnyFailed, AnyFailedWith;
    ValidationVerdict(s);
  }

  /** COMPLETED means validated: a finished run ends COMPLETED if and only if its
      last validation passed both gates, whatever the judge answers or throws. */
  lemma {:induction false} CompletedMeansValidated(env: Env, s: State, node: Node, c: Clock, i: nat,
                                                   resume: Option<Resume>)
    requires VerdictKnown(node, s)
    ensures var a := Drive(env, s, node, c, i, resume, None);
            a.halt == Some(Finished) ==> (a.thread.values.status == Completed <==> ValidationPassed(a.thread.values))
    decreases ReworkLeft(env, s), Rank(node)
  {
    hide RunNode, Route, ValidationPassed;
    if node != End {
      var a := RunNode(env, node, s, c(i), resume);
      if a.Updated? {
        NodesMakeProgress(env, node, s, c(i), resume);
        VerdictStep(env, node, s, c(i), resume);
        CompletedMeansValidated(env, a.state, Route(node, a.state), c, i + 1, None);
      }
    }
  }

  // ------------------------------------------------------ pauses and ends

  predicate EndKnown(env: Env, node: Node, s: State) {
    && ((node == PrepareHumanReview || node == HumanReview) ==> HasOpen(s, High) && s.status == HumanReviewNeeded)
    && (node == Judge ==> s.status == Completed)
    && (node == End ==> s.status in {Completed, Status.Blocked, ReworkExhausted}
                        || (!env.settings.automaticRework && s.status == HumanReviewNeeded))
  }

  lemma EndStep(env: Env, node: Node, s: State, now: Time, resume: Option<Resume>)
    requires node != End && EndKnown(env, node, s)
    requires RunNode(env, node, s, now, resume).Updated?
    ensures var t := RunNode(env, node, s, now, resume).state;
            EndKnown(env, Route(node, t), t)
  {
    hide Check, Evaluate, EvaluateAll, FailedPolicies, AnyFailed, HasOpen;
    var t := RunNode(env, node, s, now, resume).state;
    if node == SecurityGate || node == PrepareHumanReview {
      AskedMeansOpenHigh(s);
      SameFindings(s, t);
    }
  }

  lemma SameFindings(s: State, t: State)
    ensures s.security == t.security ==> HasOpen(s, High) == HasOpen(t, High)
  {
    assert s.security == t.security ==> Findings(s) == Findings(t);
  }

  lemma AskedMeansOpenHigh(s: State)
    ensures AnyFailedWith(EvaluateAll(SECURITY_POLICIES, s), AskHuman) <==> HasOpen(s, High)
  {
    var decisions := EvaluateAll(SECURITY_POLICIES, s);
    assert decisions[0] == Evaluate(SEC_001, s) && decisions[1] == Evaluate(SEC_002, s);
    assert decisions[2] == Evaluate(SEC_003, s) && decisions[3] == Evaluate(SEC_004, s);
    NoneOpen(Findings(s), High);
  }

  /** With automatic rework, a returned run is COMPLETED, BLOCKED or
      REWORK_EXHAUSTED, or it is paused at the review with an open HIGH finding. */
  lemma {:induction false} HowRunsEnd(env: Env, s: State, node: Node, c: Clock, i: nat, resume: Option<Resume>)
    requires EndKnown(env, node, s)
    ensures var a := Drive(env, s, node, c, i, resume, None);
            && ((a.halt == Some(Finished) && env.settings.automaticRework) ==>
                  a.thread.values.status in {Completed, Status.Blocked, ReworkExhausted})
            && (a.halt == Some(Paused) ==>
                  a.thread.values.status == HumanReviewNeeded && HasOpen(a.thread.values, High))
    decreases ReworkLeft(env, s), Rank(node)
  {
    hide Route, HasOpen, Check, Evaluate, EvaluateAll, FailedPolicies, AnyFailed, AnyFailedWith;
    if node != End {
      var a := RunNode(env, node, s, c(i), resume);
      if a.Updated? {
        NodesMakeProgress(env, node, s, c(i), resume);
        EndStep(env, node, s, c(i), resume);
        HowRunsEnd(env, a.state, Route(node, a.state), c, i + 1, None);
      }
    }
  }

  /** A pause always has a finding to store (used by `Protocol.ResultAllowed`). */
  lemma PauseHasFinding(env: Env, request: string, bundle: Option<Bundle>, c: Clock)
    ensures var a := Drive(env, InitialState(request, bundle), Context, c, 0, None, None);
            a.halt == Some(Paused) ==> Findings(a.thread.values) != []
  {
    HowRunsEnd(env, InitialState(request, bundle), Context, c, 0, None);
  }

  /** A resumed run never asks again (used by `Protocol.ResultAllowed`). */
  lemma ResumeNeverPauses(env: Env, paused: State, decision: Resume, c: Clock)
    requires env.settings.automaticRework
    requires HasOpen(paused, High) && paused.status == HumanReviewNeeded
    ensures var a := Drive(env, paused, HumanReview, c, 0, Some(decision), None);
            && a.halt != Some(Paused)
            && (a.halt == Some(Finished) ==> a.thread.values.status in {Completed, Status.Blocked, ReworkExhausted})
  {
    ResumedThreadDoesNotPause(env, paused, c, decision, None);
    HowRunsEnd(env, paused, HumanReview, c, 0, Some(decision));
  }

  // ---------------------------------------------------- the whole workflow

  /** Nothing was validated or reworked before a pause. */
  predicate Untouched(s: State) {
    s.validation == None && s.reworkCount == 0 && s.reworkHistory == []
  }

  lemma UntouchedStep(env: Env, node: Node, s: State, now: Time)
    requires Untouched(s) && Rank(node) >= Rank(HumanReview)
    ensures var o := RunNode(env, node, s, now, None);
            && (o.Interrupted? ==> node == HumanReview)
            && (o.Updated? && Rank(Route(node, o.state)) >= Rank(HumanReview) ==> Untouched(o.state))
  {
    hide Stamp, Check, Evaluate, EvaluateAll, FailedPolicies, AnyFailed, AnyFailedWith;
  }

  lemma {:induction false} PausedIsUntouched(env: Env, s: State, node: Node, c: Clock, i: nat)
    requires Rank(node) >= Rank(HumanReview) ==> Untouched(s)
    ensures var a := Drive(env, s, node, c, i, None, None);
            a.halt == Some(Paused) ==>
              Untouched(a.thread.values) && a.thread.next == HumanReview && a.thread.interrupted
    decreases ReworkLeft(env, s), Rank(node)
  {
    hide RunNode, Route, Untouched;
    if Rank(node) < Rank(HumanReview) {
      NoPauseAfterReview(env, s, node, c, i, None);
    } else {
      UntouchedStep(env, node, s, c(i));
      var a := RunNode(env, node, s, c(i), None);
      if a.Updated? {
        NodesMakeProgress(env, node, s, c(i), None);
        PausedIsUntouched(env, a.state, Route(node, a.state), c, i + 1);
      }
    }
  }

  /** What a returned run of the graph promises about its end. */
  predicate GoodEnd(env: Env, end: State, completed: seq<Node>) {
    && end.reworkCount == FailedValidations(end.reworkHistory)
    && |end.reworkHistory| == Times(ValidationGate, completed)
    && Times(Implementation, completed) <= env.settings.maxRework
    && end.status in {Completed, Status.Blocked, ReworkExhausted}
    && (end.status == Completed <==> ValidationPassed(end))
    && (end.status == ReworkExhausted ==> Times(Implementation, completed) == env.settings.maxRework)
  }

  lemma GoodEndErased(env: Env, end: State, other: State, completed: seq<Node>)
    requires Erase(end) == Erase(other) && GoodEnd(env, end, completed)
    ensures GoodEnd(env, other, completed)
  {
    FieldsErased(end, other);
  }

  /** A whole task, with automatic rework, any deaths in its execute job and any in
      its resume job: the execute job either ends well or pauses at the review, and
      then the resume job ends well, whatever was decided. Completed nodes count
      each node once, however often deaths made it start. */
  lemma TaskOutcome(env: Env, request: string, bundle: Option<Bundle>, deaths: seq<Death>, c: Clock,
                    decision: Resume, resumeDeaths: seq<Death>, d: Clock)
    requires env.settings.maxRework >= 1 && env.settings.automaticRework
    ensures var first := Session(env, Fresh, Input(InitialState(request, bundle)), false, deaths, c);
            && first.last.thread.Saved?
            && (first.last.halt == Some(Finished) ==> GoodEnd(env, first.last.thread.values, first.completed))
            && (first.last.halt == Some(Paused) ==>
                  var second := Session(env, first.last.thread, Command(decision), false, resumeDeaths, d);
                  && second.last.thread.Saved? && second.last.halt != Some(Paused)
                  && (second.last.halt == Some(Finished) ==> GoodEnd(env, second.last.thread.values, second.completed)))
  {
    hide RunNode, HasOpen, Erase, GoodEnd;
    var initial := InitialState(request, bundle);
    var first := Session(env, Fresh, Input(initial), false, deaths, c);
    var u := Drive(env, initial, Context, c, 0, None, None);
    ExecuteJobRecovers(env, initial, deaths, c);
    if first.last.halt == Some(Finished) {
      FinishedRunEndsWell(env, request, bundle, c);
      GoodEndErased(env, u.thread.values, first.last.thread.values, u.completed);
    } else if first.last.halt == Some(Paused) {
      var paused := first.last.thread.values;
      PausedIsUntouched(env, initial, Context, c, 0);
      HowRunsEnd(env, initial, Context, c, 0, None);
      FieldsErased(u.thread.values, paused);
      SameFindings(u.thread.values, paused);
      ResumeJobRecovers(env, paused, decision, resumeDeaths, d);
      var second := Session(env, first.last.thread, Command(decision), false, resumeDeaths, d);
      var v := Drive(env, paused, HumanReview, d, 0, Some(decision), None);
      ResumeNeverPauses(env, paused, decision, d);
      if second.last.halt == Some(Finished) {
        ResumedRunEndsWell(env, paused, decision, d);
        GoodEndErased(env, v.thread.values, second.last.thread.values, v.completed);
      }
    }
  }

  lemma FinishedRunEndsWell(env: Env, request: string, bundle: Option<Bundle>, c: Clock)
    requires env.settings.maxRework >= 1 && env.settings.automaticRework
    ensures var a := Drive(env, InitialState(request, bundle), Context, c, 0, None, None);
            a.halt == Some(Finished) ==> GoodEnd(env, a.thread.values, a.completed)
  {
    hide RunNode, Drive;
    var s := InitialState(request, bundle);
    ReworkLedger(env, s, Context, c, 0, None);
    ReworkBounded(env, s, Context, c, 0, None);
    CompletedMeansValidated(env, s, Context, c, 0, None);
    HowRunsEnd(env, s, Context, c, 0, None);
  }

  lemma ResumedRunEndsWell(env: Env, paused: State, decision: Resume, c: Clock)
    requires env.settings.maxRework >= 1 && env.settings.automaticRework
    requires HasOpen(paused, High) && paused.status == HumanReviewNeeded && Untouched(paused)
    ensures var a := Drive(env, paused, HumanReview, c, 0, Some(decision), None);
            a.halt == Some(Finished) ==> GoodEnd(env, a.thread.values, a.completed)
  {
    hide RunNode, HasOpen, Drive;
    ReworkLedger(env, paused, HumanReview, c, 0, Some(decision));
    ReworkBounded(env, paused, HumanReview, c, 0, Some(decision));
    CompletedMeansValidated(env, paused, HumanReview, c, 0, Some(decision));
    HowRunsEnd(env, paused, HumanReview, c, 0, Some(decision));
  }

  // ----------------------------------------------------- review decisions

  /** `resolve_review_outcome`, with the resume payload built from it. */
  function ResolveReview(pending: ReviewRequest, approve: bool, reviewer: string, justification: string,
                         decidedAt: Time): Resume
  {
    if decidedAt >= pending.expiresAt then
      Resume(Expired, reviewer, "Human review request expired before a decision.", decidedAt)
    else if approve then Resume(Approved, reviewer, justification, decidedAt)
    else Resume(Rejected, reviewer, justification, decidedAt)
  }

  /** What the decision carries: the reviewer's own words unless the request has
      expired, and the reviewer and the time in any case. */
  lemma ResolvedReview(pending: ReviewRequest, approve: bool, reviewer: string, justification: string, decidedAt: Time)
    ensures var r := ResolveReview(pending, approve, reviewer, justification, decidedAt);
      && r.reviewer == reviewer && r.decidedAt == decidedAt
      && (r.status == Expired <==> decidedAt >= pending.expiresAt)
      && (r.status == Approved <==> decidedAt < pending.expiresAt && approve)
      && (r.status == Rejected <==> decidedAt < pending.expiresAt && !approve)
      && (r.status != Expired ==> r.justification == justification)
      && (r.status == Expired ==> r.justification == "Human review request expired before a decision.")
  {
  }

  /** One uninterrupted resume: an approval given in time goes on to test planning, any
      other decision ends BLOCKED after two nodes. */
  lemma TimelyApprovalInOneRun(env: Env, paused: State, approve: bool, reviewer: string, justification: string,
                                    decidedAt: Time, c: Clock)
    requires paused.review.Some?
    ensures var decision := ResolveReview(paused.review.value, approve, reviewer, justification, decidedAt);
            var a := Drive(env, paused, HumanReview, c, 0, Some(decision), None);
            if approve && decidedAt < paused.review.value.expiresAt then
              |a.started| >= 2 && a.started[1].node == TestPlanningNode
            else
              && a.halt == Some(Finished) && a.thread.values.status == Status.Blocked && a.thread.values.blocked
              && a.completed == [HumanReview, BlockedNode]
              && forall k :: 0 <= k < |a.started| ==> a.started[k].node in {HumanReview, BlockedNode}
  {
    var decision := ResolveReview(paused.review.value, approve, reviewer, justification, decidedAt);
    var t := RunNode(env, HumanReview, paused, c(0), Some(decision)).state;
    var rest := Drive(env, t, Route(HumanReview, t), c, 1, None, None);
    if approve && decidedAt < paused.review.value.expiresAt {
      assert Route(HumanReview, t) == TestPlanningNode;
      assert rest.started[0].node == TestPlanningNode;
    } else {
      var u := RunNode(env, BlockedNode, t, c(1), None).state;
      assert Drive(env, u, End, c, 2, None, None) == Attempt(Saved(u, End, false), Some(Finished), [], []);
    }
  }

  predicate Starts(node: Node, visits: seq<Visit>) {
    exists k :: 0 <= k < |visits| && visits[k].node == node
  }

  predicate OnlyRejects(visits: seq<Visit>) {
    forall k :: 0 <= k < |visits| ==> visits[k].node == HumanReview || visits[k].node == BlockedNode
  }

  /** Threads a resume job with a negative decision meets between its attempts. */
  predicate Rejecting(thread: Thread) {
    && thread.Saved?
    && if thread.interrupted then thread.next == HumanReview && thread.values.review.Some?
       else thread.next == BlockedNode || thread.next == End
  }

  lemma RejectedDrive(env: Env, s: State, node: Node, c: Clock, resume: Option<Resume>, budget: Option<nat>)
    requires if resume.Some? then node == HumanReview && s.review.Some? && resume.value.status != Approved
             else node == BlockedNode || node == End
    ensures var a := Drive(env, s, node, c, 0, resume, budget);
            OnlyRejects(a.started) && Rejecting(a.thread)
  {
    if node == HumanReview && budget != Some(0) {
      var t := RunNode(env, HumanReview, s, c(0), resume).state;
      assert Route(HumanReview, t) == BlockedNode;
      BlockedDrive(env, t, BlockedNode, c, 1, Spend(budget));
    } else if node != HumanReview {
      BlockedDrive(env, s, node, c, 0, budget);
    }
  }

  lemma BlockedDrive(env: Env, s: State, node: Node, c: Clock, i: nat, budget: Option<nat>)
    requires node == BlockedNode || node == End
    ensures var a := Drive(env, s, node, c, i, None, budget);
            OnlyRejects(a.started) && Rejecting(a.thread)
  {
    if node == BlockedNode && budget != Some(0) {
      var t := RunNode(env, BlockedNode, s, c(i), None).state;
      assert Drive(env, t, End, c, i + 1, None, Spend(budget)) == Attempt(Saved(t, End, false), Some(Finished), [], []);
    }
  }

  /** However often the worker dies, a resume with a negative decision starts nothing
      but the review node and the blocking node. */
  lemma {:induction false} RejectedSession(env: Env, thread: Thread, decision: Resume, recover: bool,
                                           deaths: seq<Death>, c: Clock)
    requires Rejecting(thread) && (recover || thread.interrupted) && decision.status != Approved
    ensures OnlyRejects(Session(env, thread, Command(decision), recover, deaths, c).started)
    decreases |deaths|
  {
    hide RunNode, Route, Drive;
    var clock := if deaths == [] then c else deaths[0].clock;
    var budget := if deaths == [] then None else Some(deaths[0].budget);
    var resume := if thread.interrupted then Some(decision) else None;
    RejectedDrive(env, thread.values, thread.next, clock, resume, budget);
    if deaths != [] {
      var a := InvokeWorkflow(env, thread, Command(decision), recover, true, clock, budget);
      RejectedSession(env, a.thread, decision, true, deaths[1..], c);
    }
  }

  lemma StartsInEither(node: Node, a: seq<Visit>, b: seq<Visit>)
    requires Starts(node, a) || Starts(node, b)
    ensures Starts(node, a + b)
  {
    if Starts(node, a) {
      var k :| 0 <= k < |a| && a[k].node == node;
      assert (a + b)[k] == a[k];
    } else {
      var k :| 0 <= k < |b| && b[k].node == node;
      assert (a + b)[|a| + k] == b[k];
    }
  }

  lemma ApprovedDrive(env: Env, paused: State, decision: Resume, c: Clock, budget: Option<nat>)
    requires paused.review.Some? && decision.status == Approved && budget != Some(0)
    ensures Starts(TestPlanningNode, Drive(env, paused, HumanReview, c, 0, Some(decision), budget).started)
  {
    var t := RunNode(env, HumanReview, paused, c(0), Some(decision)).state;
    assert Route(HumanReview, t) == TestPlanningNode;
    var rest := Drive(env, t, TestPlanningNode, c, 1, None, Spend(budget));
    var a := Drive(env, paused, HumanReview, c, 0, Some(decision), budget);
    assert a.started[1] == rest.started[0] && rest.started[0].node == TestPlanningNode;
  }

  /** However often the worker dies, a resume with an approval starts test planning. */
  lemma {:induction false} ApprovedSession(env: Env, paused: State, decision: Resume, recover: bool,
                                           deaths: seq<Death>, c: Clock)
    requires paused.review.Some? && decision.status == Approved
    ensures Starts(TestPlanningNode, Session(env, Saved(paused, HumanReview, true), Command(decision), recover,
                                             deaths, c).started)
    decreases |deaths|
  {
    hide RunNode, Route, Starts;
    if deaths == [] {
      ApprovedDrive(env, paused, decision, c, None);
    } else {
      var budget := Some(deaths[0].budget);
      var a := Drive(env, paused, HumanReview, deaths[0].clock, 0, Some(decision), budget);
      var rest := Session(env, a.thread, Command(decision), true, deaths[1..], c).started;
      if budget == Some(0) {
        ApprovedSession(env, paused, decision, true, deaths[1..], c);
      } else {
        ApprovedDrive(env, paused, decision, deaths[0].clock, budget);
      }
      hide Drive;
      StartsInEither(TestPlanningNode, a.started, rest);
    }
  }

  /** Only an approval given in time lets the work go on, whatever deaths strike the
      resume job: test planning is started if and only if the decision is one. Any
      other decision ends the task BLOCKED after two nodes, and nothing but those two
      nodes, the implementation included, is ever started. */
  lemma OnlyTimelyApprovalContinues(env: Env, paused: State, approve: bool, reviewer: string, justification: string,
                                    decidedAt: Time, deaths: seq<Death>, c: Clock)
    requires paused.review.Some?
    ensures var decision := ResolveReview(paused.review.value, approve, reviewer, justification, decidedAt);
            var h := Session(env, Saved(paused, HumanReview, true), Command(decision), false, deaths, c);
            var timely := approve && decidedAt < paused.review.value.expiresAt;
            && (Starts(TestPlanningNode, h.started) <==> timely)
            && (!timely ==>
                  && h.last.halt == Some(Finished) && h.last.thread.Saved?
                  && h.last.thread.values.status == Status.Blocked && h.last.thread.values.blocked
                  && h.completed == [HumanReview, BlockedNode] && OnlyRejects(h.started))
  {
    hide Drive, Session, RunNode, Route, Erase;
    var decision := ResolveReview(paused.review.value, approve, reviewer, justification, decidedAt);
    var u := Drive(env, paused, HumanReview, c, 0, Some(decision), None);
    TimelyApprovalInOneRun(env, paused, approve, reviewer, justification, decidedAt, c);
    ResumeJobRecovers(env, paused, decision, deaths, c);
    if approve && decidedAt < paused.review.value.expiresAt {
      ApprovedSession(env, paused, decision, false, deaths, c);
    } else {
      RejectedSession(env, Saved(paused, HumanReview, true), decision, false, deaths, c);
      var h := Session(env, Saved(paused, HumanReview, true), Command(decision), false, deaths, c);
      FieldsErased(u.thread.values, h.last.thread.values);
    }
  }
}
