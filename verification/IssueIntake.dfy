/** Intake of a GitHub issue (app/services/github_issues.py): an analysis, a context
    bundle built from it, and then the workflow, in a job whose worker may die
    anywhere and be replaced. The analysis agent is not a function of the issue: it
    may answer differently, or raise, every time it runs. */
module IssueIntake {
  import opened Basics
  import opened Artifacts
  import opened Workflow
  import opened Recovery

  datatype Issue = Issue(snapshot: string)

  datatype Analysis = Analysis(report: string)

  /** `_task_request` and the context engine over `_context_sources`; the engine may
      refuse its sources. */
  datatype Builders = Builders(taskRequest: Analysis -> string, bundle: (string, Issue, Analysis) -> Option<string>)

  datatype IntakeStatus = Queued | AnalyzingIssue | InWorkflow | Shown(status: Status) | FailedTask

  /** What is stored for the task: columns of its row, its ledger of analysis runs,
      and the checkpoints of its thread. */
  datatype Intake = Intake(
    status: IntakeStatus, request: string, analysis: Option<Analysis>, bundle: Option<Bundle>,
    analysisRuns: nat, thread: Thread)

  function NewIntake(title: string): Intake {
    Intake(Queued, title, None, None, 0, Fresh)
  }

  /** Where the worker of one attempt dies. An attempt that skips the analysis cannot
      die in it and dies before its first new checkpoint instead. */
  datatype Stop = DuringAnalysis | BeforeBundle | InGraph(checkpoints: nat)

  /** What one attempt of the job meets: the agent's answer (None when it raises), the
      clock, and the death, if any. */
  datatype Try = Try(answer: Option<Analysis>, now: Time, clock: Clock, stop: Option<Stop>)

  datatype Outcome = Died | Threw | Ended(halt: Option<Halt>)

  function Budget(stop: Option<Stop>): Option<nat> {
    match stop
    case None => None
    case Some(InGraph(n)) => Some(n)
    case Some(_) => Some(0)
  }

  /** `run_task_workflow`, with a death in the graph or after it. */
  function WorkflowTry(env: Env, i: Intake, attempt: nat, t: Try): (Intake, Outcome) {
    var start := Input(InitialState(i.request, i.bundle));
    var a := InvokeWorkflow(env, i.thread, start, attempt > 1, false, t.clock, Budget(t.stop));
    var after := i.(status := InWorkflow, thread := a.thread);
    if a.halt == Some(Failed) then (after, Threw)
    else if t.stop.Some? then (after, Died)
    else (after.(status := Shown(a.thread.values.status), bundle := a.thread.values.bundle), Ended(a.halt))
  }

  predicate Analysed(i: Intake) {
    i.analysis.Some? && i.bundle.Some?
  }

  /** One attempt of `run_github_issue_analysis`. */
  function TryOnce(b: Builders, env: Env, issue: Issue, i: Intake, attempt: nat, t: Try): (Intake, Outcome) {
    if attempt > 1 && Analysed(i) then WorkflowTry(env, i, attempt, t)
    else
      var begun := i.(status := AnalyzingIssue, analysisRuns := i.analysisRuns + 1);
      if t.stop == Some(DuringAnalysis) then (begun, Died)
      else if t.answer == None then (begun.(status := FailedTask), Threw)
      else
        var analysis := t.answer.value;
        var analysed := begun.(analysis := Some(analysis), request := b.taskRequest(analysis));
        if t.stop == Some(BeforeBundle) then (analysed, Died)
        else
          match b.bundle(analysed.request, issue, analysis)
          case None => (analysed.(status := FailedTask), Threw)
          case Some(content) =>
            var (after, outcome) := WorkflowTry(env, analysed.(bundle := Some(Bundle(content, t.now))), attempt, t);
            (if outcome == Threw then after.(status := FailedTask) else after, outcome)
  }

  class IssueTask {
    const issue: Issue
    var stored: Intake

    constructor (issue: Issue, title: string)
      ensures this.issue == issue && stored == NewIntake(title)
    {
      this.issue := issue;
      stored := NewIntake(title);
    }

    method RunTaskWorkflow(env: Env, attempt: nat, t: Try) returns (outcome: Outcome)
      modifies this
      ensures (stored, outcome) == WorkflowTry(env, old(stored), attempt, t)
    {
      var start := Input(InitialState(stored.request, stored.bundle));
      stored := stored.(status := InWorkflow);
      var a := InvokeWorkflow(env, stored.thread, start, attempt > 1, false, t.clock, Budget(t.stop));
      stored := stored.(thread := a.thread);
      if a.halt == Some(Failed) {
        return Threw;
      }
      if t.stop.Some? {
        return Died;
      }
      stored := stored.(bundle := a.thread.values.bundle);
      stored := stored.(status := Shown(a.thread.values.status));
      outcome := Ended(a.halt);
    }

    /** `run_github_issue_analysis`, commit by commit. */
    method RunGithubIssueAnalysis(b: Builders, env: Env, attempt: nat, t: Try) returns (outcome: Outcome)
      modifies this
      ensures (stored, outcome) == TryOnce(b, env, issue, old(stored), attempt, t)
    {
      if attempt > 1 && stored.analysis.Some? && stored.bundle.Some? {
        outcome := RunTaskWorkflow(env, attempt, t);
        return;
      }
      stored := stored.(status := AnalyzingIssue, analysisRuns := stored.analysisRuns + 1);
      if t.stop == Some(DuringAnalysis) {
        return Died;
      }
      if t.answer == None {
        FailTask();
        return Threw;
      }
      var analysis := t.answer.value;
      stored := stored.(analysis := Some(analysis), request := b.taskRequest(analysis));
      if t.stop == Some(BeforeBundle) {
        return Died;
      }
      var content := b.bundle(stored.request, issue, analysis);
      if content == None {
        FailTask();
        return Threw;
      }
      stored := stored.(bundle := Some(Bundle(content.value, t.now)));
      outcome := RunTaskWorkflow(env, attempt, t);
      if outcome == Threw {
        FailTask();
      }
    }

    method FailTask()
      modifies this
      ensures stored == old(stored).(status := FailedTask)
    {
      stored := stored.(status := FailedTask);
    }
  }

  // ------------------------------------------------------------ whole lives

  /** The attempts of one job from number `attempt` on: a dead one is followed by the
      next, any other is the last. */
  function Life(b: Builders, env: Env, issue: Issue, i: Intake, attempt: nat, tries: seq<Try>): (Intake, Outcome)
    decreases |tries|
  {
    if tries == [] then (i, Died)
    else
      var (after, outcome) := TryOnce(b, env, issue, i, attempt, tries[0]);
      if outcome != Died then (after, outcome) else Life(b, env, issue, after, attempt + 1, tries[1..])
  }

  /** Stored data fit together: a request that was analysed is the analysis's own, a
      bundle was built from the stored request and analysis, and checkpoints exist
      only of a workflow started from exactly the stored request and bundle. */
  predicate Consistent(b: Builders, issue: Issue, i: Intake) {
    && (i.analysis.Some? ==> i.request == b.taskRequest(i.analysis.value))
    && (i.bundle.Some? ==>
          && i.analysis.Some?
          && b.bundle(i.request, issue, i.analysis.value) == Some(i.bundle.value.content))
    && (i.thread.Saved? ==>
          && Analysed(i)
          && i.thread.values.request == i.request && i.thread.values.bundle == i.bundle)
  }

  lemma NodeKeepsInputs(env: Env, node: Node, s: State, now: Time, resume: Option<Resume>)
    requires node != End && s.bundle.Some? && RunNode(env, node, s, now, resume).Updated?
    ensures var t := RunNode(env, node, s, now, resume).state;
            t.request == s.request && t.bundle == s.bundle
  {
    hide EvaluateAll, AnyFailed, AnyFailedWith, FailedPolicies;
  }

  /** No run changes the request or the bundle it was given. */
  lemma {:induction false} DriveKeepsInputs(env: Env, s: State, node: Node, c: Clock, k: nat, resume: Option<Resume>,
                                            budget: Option<nat>)
    requires s.bundle.Some?
    ensures var t := Drive(env, s, node, c, k, resume, budget).thread.values;
            t.request == s.request && t.bundle == s.bundle
    decreases ReworkLeft(env, s), Rank(node)
  {
    hide RunNode, Route, Rank;
    if node != End && budget != Some(0) {
      var a := RunNode(env, node, s, c(k), resume);
      if a.Updated? {
        NodesMakeProgress(env, node, s, c(k), resume);
        NodeKeepsInputs(env, node, s, c(k), resume);
        DriveKeepsInputs(env, a.state, Route(node, a.state), c, k + 1, None, Spend(budget));
      }
    }
  }

  lemma WorkflowTryKeeps(b: Builders, env: Env, issue: Issue, i: Intake, attempt: nat, t: Try)
    requires Consistent(b, issue, i) && Analysed(i)
    ensures var after := WorkflowTry(env, i, attempt, t).0;
      && Consistent(b, issue, after)
      && after == i.(status := after.status, thread := after.thread)
  {
    var initial := InitialState(i.request, i.bundle);
    DriveKeepsInputs(env, initial, Context, t.clock, 0, None, Spend(Budget(t.stop)));
    if i.thread.Saved? {
      DriveKeepsInputs(env, i.thread.values, i.thread.next, t.clock, 0, None, Budget(t.stop));
    }
  }

  /** Every attempt keeps the stored data consistent, whatever the agent answers and
      wherever the worker dies. Once analysis and bundle are stored, a later attempt
      neither runs the agent again nor changes them. */
  lemma TryKeeps(b: Builders, env: Env, issue: Issue, i: Intake, attempt: nat, t: Try)
    requires Consistent(b, issue, i) && (attempt > 1 || !Analysed(i))
    ensures var after := TryOnce(b, env, issue, i, attempt, t).0;
      && Consistent(b, issue, after)
      && (Analysed(i) ==> after == i.(status := after.status, thread := after.thread))
      && after.analysisRuns <= i.analysisRuns + 1
  {
    hide WorkflowTry;
    if Analysed(i) {
      WorkflowTryKeeps(b, env, issue, i, attempt, t);
    } else if t.answer.Some? {
      var analysis := t.answer.value;
      var request := b.taskRequest(analysis);
      var content := b.bundle(request, issue, analysis);
      if content.Some? {
        var ready := Intake(AnalyzingIssue, request, Some(analysis), Some(Bundle(content.value, t.now)),
                            i.analysisRuns + 1, i.thread);
        WorkflowTryKeeps(b, env, issue, ready, attempt, t);
      }
    }
  }

  /** What the status column says after an attempt, and what an attempt that does not
      reach the workflow leaves. */
  lemma StatusTells(b: Builders, env: Env, issue: Issue, i: Intake, attempt: nat, t: Try)
    ensures var (after, outcome) := TryOnce(b, env, issue, i, attempt, t);
      && (outcome.Ended? ==>
            after.thread.Saved? && after.status == Shown(after.thread.values.status)
            && after.bundle == after.thread.values.bundle)
      && (outcome == Died ==> after.status == AnalyzingIssue || after.status == InWorkflow)
      && (outcome == Threw ==>
            after.status == if attempt > 1 && Analysed(i) then InWorkflow else FailedTask)
      && (!(attempt > 1 && Analysed(i)) && t.stop == Some(DuringAnalysis) ==>
            outcome == Died && after == i.(status := AnalyzingIssue, analysisRuns := i.analysisRuns + 1))
      && (!(attempt > 1 && Analysed(i)) && t.stop != Some(DuringAnalysis) && t.answer == None ==>
            outcome == Threw && after == i.(status := FailedTask, analysisRuns := i.analysisRuns + 1))
      && (!(attempt > 1 && Analysed(i)) && t.stop == Some(BeforeBundle) && t.answer.Some? ==>
            && outcome == Died && after.analysis == t.answer && after.request == b.taskRequest(t.answer.value)
            && after.bundle == i.bundle && after.status == AnalyzingIssue && after.thread == i.thread)
  {
    hide Drive;
  }

  /** Over whole lives: consistency always, and nothing analysed twice. Every prefix
      of a life is a life, so this holds at every moment a worker can die. */
  lemma {:induction false} LifeKeeps(b: Builders, env: Env, issue: Issue, i: Intake, attempt: nat, tries: seq<Try>)
    requires Consistent(b, issue, i) && (attempt > 1 || !Analysed(i)) && attempt >= 1
    ensures var after := Life(b, env, issue, i, attempt, tries).0;
      && Consistent(b, issue, after)
      && (Analysed(i) ==> after == i.(status := after.status, thread := after.thread))
      && after.analysisRuns <= i.analysisRuns + |tries|
    decreases |tries|
  {
    hide TryOnce, Consistent;
    if tries != [] {
      TryKeeps(b, env, issue, i, attempt, tries[0]);
      var after := TryOnce(b, env, issue, i, attempt, tries[0]).0;
      LifeKeeps(b, env, issue, after, attempt + 1, tries[1..]);
    }
  }

  /** A job from its first attempt on. */
  lemma IntakeConsistent(b: Builders, env: Env, issue: Issue, title: string, tries: seq<Try>)
    ensures var after := Life(b, env, issue, NewIntake(title), 1, tries).0;
      Consistent(b, issue, after) && after.analysisRuns <= |tries|
  {
    LifeKeeps(b, env, issue, NewIntake(title), 1, tries);
  }

  /** Once the graph has been started, nothing later in the job runs the agent. */
  lemma NoAnalysisAfterTheGraph(b: Builders, env: Env, issue: Issue, title: string, tries: seq<Try>, more: seq<Try>)
    ensures var before := Life(b, env, issue, NewIntake(title), 1, tries).0;
      before.thread.Saved? ==>
        var after := Life(b, env, issue, before, |tries| + 1, more).0;
        && after.analysisRuns == before.analysisRuns && after.analysis == before.analysis
        && after.bundle == before.bundle && after.request == before.request
  {
    var before := Life(b, env, issue, NewIntake(title), 1, tries).0;
    IntakeConsistent(b, env, issue, title, tries);
    if before.thread.Saved? {
      assert |tries| > 0;
      LifeKeeps(b, env, issue, before, |tries| + 1, more);
    }
  }

  // ------------------------------------- the whole job against one clean run

  /** A run that ends within its budget is the run without one. */
  lemma {:induction false} WithinBudget(env: Env, s: State, node: Node, c: Clock, k: nat, resume: Option<Resume>,
                                        budget: nat)
    requires Drive(env, s, node, c, k, resume, Some(budget)).halt != None
    ensures Drive(env, s, node, c, k, resume, Some(budget)) == Drive(env, s, node, c, k, resume, None)
    decreases ReworkLeft(env, s), Rank(node)
  {
    hide RunNode, Route, Rank;
    if node != End && budget != 0 {
      var a := RunNode(env, node, s, c(k), resume);
      if a.Updated? {
        NodesMakeProgress(env, node, s, c(k), resume);
        WithinBudget(env, a.state, Route(node, a.state), c, k + 1, None, budget - 1);
      }
    }
  }

  /** An attempt that failed within its budget failed as the uninterrupted one does. */
  lemma FailureIsGenuine(env: Env, thread: Thread, initial: State, recover: bool, c: Clock, budget: Option<nat>,
                         d: Clock)
    requires ThreadOf(thread, Input(initial), recover)
    ensures var a := InvokeWorkflow(env, thread, Input(initial), recover, false, c, budget);
            var u := InvokeWorkflow(env, thread, Input(initial), recover, false, d, None);
            (budget == None || a.halt == Some(Failed)) ==> SameEnd(a, u)
  {
    hide RunNode, Route, Rank, ReworkLeft, Erase;
    var a := InvokeWorkflow(env, thread, Input(initial), recover, false, c, budget);
    if thread.Fresh? {
      DriveErased(env, initial, initial, Context, c, 0, d, 0, None);
      if budget.Some? && a.halt == Some(Failed) {
        WithinBudget(env, initial, Context, c, 0, None, budget.value - 1);
      }
    } else {
      DriveErased(env, thread.values, thread.values, thread.next, c, 0, d, 0, None);
      if budget.Some? && a.halt == Some(Failed) && !thread.interrupted && thread.next != End {
        WithinBudget(env, thread.values, thread.next, c, 0, None, budget.value);
      }
    }
  }

  /** The stored thread and the way the job ended agree with an attempt. */
  predicate Matches(after: Intake, outcome: Outcome, u: Attempt) {
    && outcome != Died ==>
      && EraseThread(after.thread) == EraseThread(u.thread)
      && (outcome == Threw <==> u.halt == Some(Failed))
      && (outcome.Ended? ==> outcome.halt == u.halt)
  }

  function CleanRun(env: Env, i: Intake, recover: bool, clock: Clock): Attempt {
    InvokeWorkflow(env, i.thread, Input(InitialState(i.request, i.bundle)), recover, false, clock, None)
  }

  /** One attempt of the workflow: it ends like the clean run or leaves a thread from
      which the clean run still comes out. */
  lemma WorkflowTryTransparent(env: Env, i: Intake, attempt: nat, t: Try, clock: Clock)
    requires ThreadOf(i.thread, Input(InitialState(i.request, i.bundle)), attempt > 1)
    ensures var (after, outcome) := WorkflowTry(env, i, attempt, t);
      && Matches(after, outcome, CleanRun(env, i, attempt > 1, clock))
      && (outcome == Died ==>
            SameEnd(
              InvokeWorkflow(env, after.thread, Input(InitialState(i.request, i.bundle)), true, false, clock, None),
              CleanRun(env, i, attempt > 1, clock)))
  {
    var initial := InitialState(i.request, i.bundle);
    FailureIsGenuine(env, i.thread, initial, attempt > 1, t.clock, Budget(t.stop), clock);
    if t.stop.Some? {
      ExecutionTransparent(env, i.thread, initial, attempt > 1, Death(Budget(t.stop).value, t.clock), clock);
    }
    hide RunNode, Drive, Erase;
  }

  /** End to end. Whatever the agent answered and wherever workers died, a job that
      ends with a stored bundle ends as one uninterrupted workflow over the stored
      request and bundle, timestamps erased; and what is stored is consistent. */
  lemma {:induction false} LifeIsTransparent(b: Builders, env: Env, issue: Issue, i: Intake, attempt: nat,
                                             tries: seq<Try>, clock: Clock)
    requires Consistent(b, issue, i) && Analysed(i) && attempt > 1
    ensures var (after, outcome) := Life(b, env, issue, i, attempt, tries);
            Matches(after, outcome, CleanRun(env, i, true, clock))
    decreases |tries|
  {
    hide WorkflowTry, InvokeWorkflow, Consistent, EraseThread;
    if tries != [] {
      TryKeeps(b, env, issue, i, attempt, tries[0]);
      WorkflowTryTransparent(env, i, attempt, tries[0], clock);
      var (after, outcome) := TryOnce(b, env, issue, i, attempt, tries[0]);
      if outcome == Died {
        LifeIsTransparent(b, env, issue, after, attempt + 1, tries[1..], clock);
      }
    }
  }

  /** The attempt that stores the bundle starts the workflow on a new thread. */
  predicate StoresBundle(b: Builders, issue: Issue, t: Try) {
    && t.stop != Some(DuringAnalysis) && t.stop != Some(BeforeBundle) && t.answer.Some?
    && b.bundle(b.taskRequest(t.answer.value), issue, t.answer.value).Some?
  }

  function Ready(b: Builders, issue: Issue, i: Intake, t: Try): Intake
    requires StoresBundle(b, issue, t)
  {
    var request := b.taskRequest(t.answer.value);
    Intake(AnalyzingIssue, request, t.answer,
           Some(Bundle(b.bundle(request, issue, t.answer.value).value, t.now)), i.analysisRuns + 1, i.thread)
  }

  lemma FirstTries(b: Builders, env: Env, issue: Issue, i: Intake, attempt: nat, t: Try)
    requires Consistent(b, issue, i) && !Analysed(i)
    ensures var (after, outcome) := TryOnce(b, env, issue, i, attempt, t);
      if StoresBundle(b, issue, t) then
        && outcome == WorkflowTry(env, Ready(b, issue, i, t), attempt, t).1
        && after.thread == WorkflowTry(env, Ready(b, issue, i, t), attempt, t).0.thread
        && Consistent(b, issue, Ready(b, issue, i, t)) && Analysed(Ready(b, issue, i, t))
      else !Analysed(after) && !outcome.Ended?
  {
    hide WorkflowTry;
  }

  lemma BundleTry(b: Builders, env: Env, issue: Issue, i: Intake, attempt: nat, t: Try, clock: Clock)
    requires Consistent(b, issue, i) && !Analysed(i) && StoresBundle(b, issue, t)
    ensures var (after, outcome) := TryOnce(b, env, issue, i, attempt, t);
      var clean := Drive(env, InitialState(after.request, after.bundle), Context, clock, 0, None, None);
      && Analysed(after) && Matches(after, outcome, clean)
      && (outcome == Died ==> SameEnd(CleanRun(env, after, true, clock), clean))
  {
    var ready := Ready(b, issue, i, t);
    FirstTries(b, env, issue, i, attempt, t);
    WorkflowTryTransparent(env, ready, attempt, t, clock);
    WorkflowTryKeeps(b, env, issue, ready, attempt, t);
    hide Drive, EraseThread;
  }

  /** End to end, from acceptance on. The answer that counts is the last one stored:
      whatever the agent answered and wherever workers died, a job that ends with a
      stored bundle ends as one uninterrupted workflow over the stored request and
      bundle, timestamps erased, and a job can only end with a bundle or an
      exception. */
  lemma {:induction false} IntakeIsTransparent(b: Builders, env: Env, issue: Issue, i: Intake, attempt: nat,
                                               tries: seq<Try>, clock: Clock)
    requires Consistent(b, issue, i) && !Analysed(i) && attempt >= 1
    ensures var (after, outcome) := Life(b, env, issue, i, attempt, tries);
      && (outcome.Ended? ==> Analysed(after))
      && (Analysed(after) ==>
            Matches(after, outcome,
                    Drive(env, InitialState(after.request, after.bundle), Context, clock, 0, None, None)))
    decreases |tries|
  {
    hide Drive, Consistent, WorkflowTry, EraseThread, TryOnce, StoresBundle, CleanRun;
    if tries != [] {
      var (after, outcome) := TryOnce(b, env, issue, i, attempt, tries[0]);
      TryKeeps(b, env, issue, i, attempt, tries[0]);
      FirstTries(b, env, issue, i, attempt, tries[0]);
      if StoresBundle(b, issue, tries[0]) {
        BundleTry(b, env, issue, i, attempt, tries[0], clock);
      }
      if outcome == Died {
        if Analysed(after) {
          LifeIsTransparent(b, env, issue, after, attempt + 1, tries[1..], clock);
          LifeKeeps(b, env, issue, after, attempt + 1, tries[1..]);
        } else {
          IntakeIsTransparent(b, env, issue, after, attempt + 1, tries[1..], clock);
        }
      }
    }
  }
}
