/** Tasks, agent runs, reviewers and workers on top of the job queue
    (app/services/tasks.py, app/worker.py, app/services/audit.py).

    Each committed transaction is one atomic step. Workers are fail-stop: a
    worker whose lease was reaped takes no further step on that job, so the
    progress of a claimed job is a property of the job itself (its phase). A
    crash is no step at all: the phase stays where it was until the reaper comes
    by. `LateFinishStrandsTask` below shows what the assumption buys. */
module Protocol {
  import opened Basics
  import Q = JobQueue

  type Time = Q.Time
  type TaskId = Q.TaskId
  type JobId = Q.JobId

  datatype TaskStatus =
    | TaskQueued | AnalyzingIssue | AnalyzingPullRequest | Analyzing | Resuming
    | HumanReview | Blocked | ReworkExhausted | Completed | TaskFailed

  predicate Terminal(status: TaskStatus) {
    status in {Blocked, ReworkExhausted, Completed, TaskFailed}
  }

  /** Statuses in which nobody owes the task any work. */
  predicate Resting(status: TaskStatus) {
    Terminal(status) || status == HumanReview
  }

  /** `findingsStored`: rows of this task's security findings exist. Their
      primary keys come from the checkpointed review, so a recovered job would
      insert the same keys again. */
  datatype Task = Task(status: TaskStatus, findingsStored: bool)

  datatype RunStatus = Started | RunSucceeded | RunFailed | Abandoned

  /** `job` is the job on whose behalf the agent was started. */
  datatype AgentRun = AgentRun(task: TaskId, job: JobId, status: RunStatus)

  /** Where the worker that holds a job is: it has claimed it, is between two
      writes, is inside an agent call, or has only the job row left to close. */
  datatype Phase = Off | Claimed | Working | InAgent(run: nat) | Settled

  datatype State = State(jobs: seq<Q.Job>, tasks: seq<Task>, runs: seq<AgentRun>, phases: seq<Phase>)

  const INIT := State([], [], [], [])

  datatype Event =
    | Accept(kind: Q.JobKind, now: Time)
    | Claim(job: JobId, worker: string, now: Time, leaseSeconds: nat)
    | Renew(job: JobId, worker: string, now: Time, leaseSeconds: nat)
    | Begin(job: JobId, progress: Option<TaskStatus>)
    | StartAgent(job: JobId)
    | EndAgent(job: JobId, ok: bool)
    | WriteResult(job: JobId, result: TaskStatus, findings: bool)
    | Fail(job: JobId)
    | Finish(job: JobId, outcome: Q.JobStatus, error: Option<string>, now: Time)
    | Reap(job: JobId, now: Time)
    | Decide(task: TaskId, now: Time)

  // ---------------------------------------------------------- transitions

  predicate Held(s: State, j: JobId) {
    j < |s.jobs| && j < |s.phases| && s.jobs[j].task < |s.tasks| && s.jobs[j].status == Q.Running
  }

  /** First writes of the handlers: a resume writes none. */
  predicate BeginAllowed(kind: Q.JobKind, progress: Option<TaskStatus>) {
    if kind == Q.ResumeHumanReview then progress == None
    else progress.Some? && progress.value in {AnalyzingIssue, AnalyzingPullRequest, Analyzing}
  }

  /** Results the handlers write. A workflow pauses for review only over an open
      HIGH finding and never pauses again once resumed (`Rework.PauseHasFinding`
      and `Rework.ResumeNeverPauses`); a resume and a pull-request review store
      no findings. */
  predicate ResultAllowed(kind: Q.JobKind, result: TaskStatus, findings: bool) {
    match kind
    case ReviewPullRequest => result == Completed && !findings
    case ResumeHumanReview => Terminal(result) && !findings
    case _ => Resting(result) && (result == HumanReview ==> findings)
  }

  /** The result and the findings commit together, unless a primary key is already
      taken; then the transaction rolls back and the handler raises. */
  predicate KeysFree(task: Task, findings: bool) {
    !(findings && task.findingsStored)
  }

  predicate Enabled(s: State, e: Event) {
    match e
    case Accept(kind, _) => kind != Q.ResumeHumanReview
    case Claim(j, worker, now, lease) => j < |s.phases| && Q.Enabled(s.jobs, Q.Claim(j, worker, now, lease))
    case Renew(j, worker, now, lease) => Q.Enabled(s.jobs, Q.Renew(j, worker, now, lease))
    case Begin(j, progress) =>
      Held(s, j) && (s.phases[j] == Claimed || s.phases[j] == Working) && BeginAllowed(s.jobs[j].kind, progress)
    case StartAgent(j) => Held(s, j) && s.phases[j] == Working
    case EndAgent(j, _) => Held(s, j) && s.phases[j].InAgent? && s.phases[j].run < |s.runs|
    case WriteResult(j, result, findings) =>
      && Held(s, j) && s.phases[j] == Working
      && ResultAllowed(s.jobs[j].kind, result, findings) && KeysFree(s.tasks[s.jobs[j].task], findings)
    case Fail(j) => Held(s, j) && s.phases[j] in {Claimed, Working, Settled}
    case Finish(j, outcome, error, now) =>
      Held(s, j) && s.phases[j] == Settled && Q.Enabled(s.jobs, Q.Finish(j, outcome, error, now))
    case Reap(j, now) => Held(s, j) && Q.Enabled(s.jobs, Q.Reap(j, now))
    case Decide(t, _) => t < |s.tasks| && s.tasks[t].status == HumanReview
  }

  function WithStatus(s: State, t: TaskId, status: TaskStatus): State
    requires t < |s.tasks|
  {
    s.(tasks := s.tasks[t := s.tasks[t].(status := status)])
  }

  function WithPhase(s: State, j: JobId, phase: Phase): State
    requires j < |s.phases|
  {
    s.(phases := s.phases[j := phase])
  }

  function AbandonRuns(runs: seq<AgentRun>, task: TaskId): (r: seq<AgentRun>)
    ensures |r| == |runs|
  {
    seq(|runs|, k requires 0 <= k < |runs| =>
      if runs[k].task == task && runs[k].status == Started then runs[k].(status := Abandoned) else runs[k])
  }

  function Apply(s: State, e: Event, maxAttempts: int): State
    requires Enabled(s, e)
  {
    match e
    case Accept(kind, now) =>
      State(Q.Apply(s.jobs, Q.Enqueue(|s.tasks|, kind, now), maxAttempts),
            s.tasks + [Task(TaskQueued, false)], s.runs, s.phases + [Off])
    case Claim(j, worker, now, lease) =>
      WithPhase(s, j, Claimed).(jobs := Q.Apply(s.jobs, Q.Claim(j, worker, now, lease), maxAttempts))
    case Renew(j, worker, now, lease) =>
      s.(jobs := Q.Apply(s.jobs, Q.Renew(j, worker, now, lease), maxAttempts))
    case Begin(j, progress) =>
      var busy := WithPhase(s, j, Working);
      if progress.Some? then WithStatus(busy, s.jobs[j].task, progress.value) else busy
    case StartAgent(j) =>
      WithPhase(s, j, InAgent(|s.runs|)).(runs := s.runs + [AgentRun(s.jobs[j].task, j, Started)])
    case EndAgent(j, ok) =>
      var k := s.phases[j].run;
      WithPhase(s, j, Working).(runs := s.runs[k := s.runs[k].(status := if ok then RunSucceeded else RunFailed)])
    case WriteResult(j, result, findings) =>
      var t := s.jobs[j].task;
      WithPhase(s, j, Settled).(
        tasks := s.tasks[t := Task(result, s.tasks[t].findingsStored || findings)])
    case Fail(j) =>
      WithStatus(WithPhase(s, j, Settled), s.jobs[j].task, TaskFailed)
    case Finish(j, outcome, error, now) =>
      WithPhase(s, j, Off).(jobs := Q.Apply(s.jobs, Q.Finish(j, outcome, error, now), maxAttempts))
    case Reap(j, now) =>
      var closed := WithPhase(s, j, Off).(
        jobs := Q.Apply(s.jobs, Q.Reap(j, now), maxAttempts),
        runs := AbandonRuns(s.runs, s.jobs[j].task));
      if Q.Recoverable(s.jobs[j], maxAttempts) then closed
      else WithStatus(closed, s.jobs[j].task, TaskFailed)
    case Decide(t, now) =>
      WithStatus(s, t, Resuming).(
        jobs := Q.Apply(s.jobs, Q.Enqueue(t, Q.ResumeHumanReview, now), maxAttempts),
        phases := s.phases + [Off])
  }

  predicate Valid(s: State, run: seq<Event>, maxAttempts: int)
    decreases |run|
  {
    run == [] || (Enabled(s, run[0]) && Valid(Apply(s, run[0], maxAttempts), run[1..], maxAttempts))
  }

  function Exec(s: State, run: seq<Event>, maxAttempts: int): State
    requires Valid(s, run, maxAttempts)
    decreases |run|
  {
    if run == [] then s else Exec(Apply(s, run[0], maxAttempts), run[1..], maxAttempts)
  }

  lemma {:induction false} RunAppend(s: State, run: seq<Event>, more: seq<Event>, maxAttempts: int)
    requires Valid(s, run, maxAttempts)
    requires Valid(Exec(s, run, maxAttempts), more, maxAttempts)
    ensures Valid(s, run + more, maxAttempts)
    ensures Exec(s, run + more, maxAttempts) == Exec(Exec(s, run, maxAttempts), more, maxAttempts)
    decreases |run|
  {
    if run == [] {
      assert run + more == more;
    } else {
      assert (run + more)[1..] == run[1..] + more;
      RunAppend(Apply(s, run[0], maxAttempts), run[1..], more, maxAttempts);
    }
  }

  lemma NoSteps(s: State, maxAttempts: int)
    ensures Valid(s, [], maxAttempts) && Exec(s, [], maxAttempts) == s
  {
  }

  lemma OneMore(s: State, run: seq<Event>, e: Event, maxAttempts: int)
    requires Valid(s, run, maxAttempts)
    requires Enabled(Exec(s, run, maxAttempts), e)
    ensures Valid(s, run + [e], maxAttempts)
    ensures Exec(s, run + [e], maxAttempts) == Apply(Exec(s, run, maxAttempts), e, maxAttempts)
  {
    assert [e][1..] == [];
    RunAppend(s, run, [e], maxAttempts);
  }

  lemma TwoSteps(s: State, e: Event, f: Event, maxAttempts: int)
    requires Enabled(s, e) && Enabled(Apply(s, e, maxAttempts), f)
    ensures Valid(s, [e, f], maxAttempts)
    ensures Exec(s, [e, f], maxAttempts) == Apply(Apply(s, e, maxAttempts), f, maxAttempts)
  {
    OneMore(s, [], e, maxAttempts);
    OneMore(s, [e], f, maxAttempts);
    assert [] + [e] == [e] && [e] + [f] == [e, f];
  }

  // ------------------------------------- the queue inside the protocol

  /** What a protocol step does to the job table. */
  function QueueEvents(s: State, e: Event): seq<Q.Event> {
    match e
    case Accept(kind, now) => [Q.Enqueue(|s.tasks|, kind, now)]
    case Claim(j, worker, now, lease) => [Q.Claim(j, worker, now, lease)]
    case Renew(j, worker, now, lease) => [Q.Renew(j, worker, now, lease)]
    case Finish(j, outcome, error, now) => [Q.Finish(j, outcome, error, now)]
    case Reap(j, now) => [Q.Reap(j, now)]
    case Decide(t, now) => [Q.Enqueue(t, Q.ResumeHumanReview, now)]
    case _ => []
  }

  function QueueRun(s: State, run: seq<Event>, maxAttempts: int): seq<Q.Event>
    requires Valid(s, run, maxAttempts)
    decreases |run|
  {
    if run == [] then []
    else QueueEvents(s, run[0]) + QueueRun(Apply(s, run[0], maxAttempts), run[1..], maxAttempts)
  }

  /** Refinement: every protocol run is, on the job table, a run of the queue. So
      the attempt bound, the draining measure and the overtaking bound hold of the
      full protocol. */
  lemma {:induction false} RefinesQueue(s: State, run: seq<Event>, maxAttempts: int)
    requires Valid(s, run, maxAttempts)
    ensures Q.Valid(s.jobs, QueueRun(s, run, maxAttempts), maxAttempts)
    ensures Q.Exec(s.jobs, QueueRun(s, run, maxAttempts), maxAttempts) == Exec(s, run, maxAttempts).jobs
    decreases |run|
  {
    if run != [] {
      var next := Apply(s, run[0], maxAttempts);
      var rest := QueueRun(next, run[1..], maxAttempts);
      RefinesQueue(next, run[1..], maxAttempts);
      var here := QueueEvents(s, run[0]);
      if here == [] {
        assert here + rest == rest;
      } else {
        assert (here + rest)[0] == here[0] && (here + rest)[1..] == rest;
      }
    }
  }

  // ---------------------------------------------------------- invariants

  predicate JobShape(s: State, j: JobId)
    requires j < |s.jobs| == |s.phases|
  {
    && s.jobs[j].task < |s.tasks|
    && (s.phases[j] == Off <==> s.jobs[j].status != Q.Running)
    && (s.phases[j].InAgent? ==> s.phases[j].run < |s.runs| && s.runs[s.phases[j].run].job == j)
  }

  predicate RunShape(s: State, k: nat)
    requires k < |s.runs|
  {
    s.runs[k].job < |s.jobs| && s.runs[k].task == s.jobs[s.runs[k].job].task
  }

  predicate Shape(s: State) {
    && |s.phases| == |s.jobs|
    && (forall j :: 0 <= j < |s.jobs| ==> JobShape(s, j))
    && (forall k :: 0 <= k < |s.runs| ==> RunShape(s, k))
  }

  /** Truthful ledger: an agent run that reads STARTED is the call some running
      job is inside at this moment. */
  predicate TruthfulLedger(s: State)
    requires Shape(s)
  {
    forall k :: 0 <= k < |s.runs| && s.runs[k].status == Started ==>
      RunShape(s, k) && s.phases[s.runs[k].job] == InAgent(k)
  }

  predicate Responsible(s: State, j: JobId, t: TaskId) {
    && j < |s.jobs| && j < |s.phases| && s.jobs[j].task == t
    && (s.jobs[j].status == Q.Queued || (s.jobs[j].status == Q.Running && s.phases[j] != Settled))
  }

  /** No stuck task: whoever still waits for an outcome has a job that owes it. */
  ghost predicate Attended(s: State) {
    forall t :: 0 <= t < |s.tasks| && !Resting(s.tasks[t].status) ==> exists j :: Responsible(s, j, t)
  }

  function ResumeOf(t: TaskId): Q.Job -> int {
    (job: Q.Job) => if job.kind == Q.ResumeHumanReview && job.task == t then 1 else 0
  }

  /** Decisions that won the compare-and-swap for this task. */
  function Winners(s: State, t: TaskId): int {
    Sum(s.jobs, ResumeOf(t))
  }

  /** A review request is published at most once per task, and every winner uses
      up a publication. */
  predicate OneRequest(s: State) {
    forall t :: 0 <= t < |s.tasks| ==>
      Winners(s, t) + (if s.tasks[t].status == HumanReview then 1 else 0)
        <= (if s.tasks[t].findingsStored then 1 else 0)
  }

  ghost predicate Invariant(s: State, maxAttempts: int) {
    Shape(s) && TruthfulLedger(s) && Attended(s) && OneRequest(s) && Q.Invariant(s.jobs, maxAttempts)
  }

  lemma StepKeepsShape(s: State, e: Event, maxAttempts: int)
    requires Shape(s) && Enabled(s, e)
    ensures Shape(Apply(s, e, maxAttempts))
  {
    var n := Apply(s, e, maxAttempts);
    assert |n.phases| == |n.jobs|;
    forall j | 0 <= j < |n.jobs|
      ensures JobShape(n, j)
    {
      if j < |s.jobs| {
        assert JobShape(s, j);
      }
    }
    forall k | 0 <= k < |n.runs|
      ensures RunShape(n, k)
    {
      if k < |s.runs| {
        assert RunShape(s, k);
      }
    }
  }

  lemma StepKeepsLedger(s: State, e: Event, maxAttempts: int)
    requires Shape(s) && TruthfulLedger(s) && Enabled(s, e)
    ensures Shape(Apply(s, e, maxAttempts)) && TruthfulLedger(Apply(s, e, maxAttempts))
  {
    StepKeepsShape(s, e, maxAttempts);
    var n := Apply(s, e, maxAttempts);
    forall k | 0 <= k < |n.runs| && n.runs[k].status == Started
      ensures RunShape(n, k) && n.phases[n.runs[k].job] == InAgent(k)
    {
      if k < |s.runs| {
        assert RunShape(s, k) && JobShape(s, s.runs[k].job);
      }
    }
  }

  lemma StepKeepsAttended(s: State, e: Event, maxAttempts: int)
    requires Shape(s) && Attended(s) && Enabled(s, e)
    ensures Attended(Apply(s, e, maxAttempts))
  {
    var n := Apply(s, e, maxAttempts);
    forall t | 0 <= t < |n.tasks| && !Resting(n.tasks[t].status)
      ensures exists j :: Responsible(n, j, t)
    {
      if e.Begin? && e.progress.Some? && s.jobs[e.job].task == t {
        assert Responsible(n, e.job, t);
      } else if (e.Decide? && e.task == t) || (e.Accept? && t == |s.tasks|) {
        assert Responsible(n, |s.jobs|, t);
      } else {
        var j :| Responsible(s, j, t);
        assert JobShape(s, j);
        assert Responsible(n, j, t);
      }
    }
  }

  lemma StepKeepsOneRequest(s: State, e: Event, maxAttempts: int)
    requires Shape(s) && OneRequest(s) && Enabled(s, e)
    ensures OneRequest(Apply(s, e, maxAttempts))
  {
    var n := Apply(s, e, maxAttempts);
    forall t | 0 <= t < |n.tasks|
      ensures Winners(n, t) + (if n.tasks[t].status == HumanReview then 1 else 0)
           <= (if n.tasks[t].findingsStored then 1 else 0)
    {
      WinnersAfter(s, e, maxAttempts, t);
      if t == |s.tasks| {
        NoWinnersYet(s, t);
      }
    }
  }

  lemma WinnersAfter(s: State, e: Event, maxAttempts: int, t: TaskId)
    requires Shape(s) && Enabled(s, e)
    ensures Winners(Apply(s, e, maxAttempts), t)
         == Winners(s, t) + (if e.Decide? && e.task == t then 1 else 0)
  {
    var n := Apply(s, e, maxAttempts);
    var f := ResumeOf(t);
    if e.Accept? || e.Decide? {
      var row := n.jobs[|s.jobs|];
      assert n.jobs == s.jobs + [row];
      SumAppend(s.jobs, [row], f);
      SumSingle(row, f);
    } else {
      SumUpdate(s.jobs, e.job, n.jobs[e.job], f);
      assert n.jobs == s.jobs[e.job := n.jobs[e.job]];
    }
  }

  lemma NoWinnersYet(s: State, t: TaskId)
    requires Shape(s) && t >= |s.tasks|
    ensures Winners(s, t) == 0
  {
    forall job | job in s.jobs
      ensures 0 <= ResumeOf(t)(job) <= 0
    {
      var j :| 0 <= j < |s.jobs| && s.jobs[j] == job;
      assert JobShape(s, j);
    }
    SumBounds(s.jobs, ResumeOf(t), 0, 0);
  }

  /** Safety over whole runs: from the empty database, whatever any number of
      workers, reapers, reviewers and API callers do. */
  lemma SafetyOverRuns(run: seq<Event>, maxAttempts: int)
    requires maxAttempts >= 1
    requires Valid(INIT, run, maxAttempts)
    ensures Invariant(Exec(INIT, run, maxAttempts), maxAttempts)
  {
    InvariantOverRun(INIT, run, maxAttempts);
  }

  lemma {:induction false} InvariantOverRun(s: State, run: seq<Event>, maxAttempts: int)
    requires maxAttempts >= 1
    requires Invariant(s, maxAttempts)
    requires Valid(s, run, maxAttempts)
    ensures Invariant(Exec(s, run, maxAttempts), maxAttempts)
    decreases |run|
  {
    if run != [] {
      StepKeepsInvariant(s, run[0], maxAttempts);
      InvariantOverRun(Apply(s, run[0], maxAttempts), run[1..], maxAttempts);
    }
  }

  lemma StepKeepsInvariant(s: State, e: Event, maxAttempts: int)
    requires maxAttempts >= 1
    requires Invariant(s, maxAttempts) && Enabled(s, e)
    ensures Invariant(Apply(s, e, maxAttempts), maxAttempts)
  {
    StepKeepsLedger(s, e, maxAttempts);
    StepKeepsAttended(s, e, maxAttempts);
    StepKeepsOneRequest(s, e, maxAttempts);
    var es := QueueEvents(s, e);
    if es != [] {
      Q.StepKeepsInvariant(s.jobs, es[0], maxAttempts);
    }
  }

  // ------------------------------------------------------------ readings

  /** When the queue is empty, every task has an outcome or waits for a human, and
      no agent run is open. */
  lemma EmptyQueueMeansSettled(run: seq<Event>, maxAttempts: int)
    requires maxAttempts >= 1
    requires Valid(INIT, run, maxAttempts)
    requires forall j :: 0 <= j < |Exec(INIT, run, maxAttempts).jobs| ==> !Q.Live(Exec(INIT, run, maxAttempts).jobs[j])
    ensures var end := Exec(INIT, run, maxAttempts);
      && (forall t :: 0 <= t < |end.tasks| ==> Resting(end.tasks[t].status))
      && (forall k :: 0 <= k < |end.runs| ==> end.runs[k].status != Started)
  {
    SafetyOverRuns(run, maxAttempts);
    var s := Exec(INIT, run, maxAttempts);
    forall t | 0 <= t < |s.tasks|
      ensures Resting(s.tasks[t].status)
    {
    }
    forall k | 0 <= k < |s.runs|
      ensures s.runs[k].status != Started
    {
      assert RunShape(s, k) && JobShape(s, s.runs[k].job);
    }
  }

  /** Every reachable state can be brought to rest by claims and reaps alone: even
      if from now on every worker dies on every job it takes, each task ends with
      an outcome or a pending review. */
  lemma {:induction false} CanAlwaysSettle(s: State, maxAttempts: int, worker: string) returns (run: seq<Event>)
    requires maxAttempts >= 1
    requires Invariant(s, maxAttempts)
    ensures Valid(s, run, maxAttempts)
    ensures |run| <= Q.QueueRank(s.jobs, maxAttempts)
    ensures forall k :: 0 <= k < |run| ==> run[k].Claim? || run[k].Reap?
    ensures forall t :: 0 <= t < |Exec(s, run, maxAttempts).tasks| ==>
      Resting(Exec(s, run, maxAttempts).tasks[t].status)
    decreases Q.QueueRank(s.jobs, maxAttempts)
  {
    Q.RankIsNatural(s.jobs, maxAttempts);
    if j: JobId :| j < |s.jobs| && Q.Live(s.jobs[j]) {
      assert JobShape(s, j);
      var now := Q.LaterThanLeases(s.jobs);
      var e := if s.jobs[j].status == Q.Queued then Claim(j, worker, now, 0) else Reap(j, now);
      var next := Apply(s, e, maxAttempts);
      Q.RankStep(s.jobs, QueueEvents(s, e)[0], maxAttempts);
      StepKeepsInvariant(s, e, maxAttempts);
      Q.RankIsNatural(next.jobs, maxAttempts);
      var rest := CanAlwaysSettle(next, maxAttempts, worker);
      run := [e] + rest;
      assert run[1..] == rest;
    } else {
      run := [];
      forall t | 0 <= t < |s.tasks|
        ensures Resting(s.tasks[t].status)
      {
      }
    }
  }

  // ------------------------------------------------------- review winners

  function Decisions(run: seq<Event>, t: TaskId): nat {
    if run == [] then 0
    else (if run[0].Decide? && run[0].task == t then 1 else 0) + Decisions(run[1..], t)
  }

  lemma {:induction false} WinnersAreDecisions(s: State, run: seq<Event>, maxAttempts: int, t: TaskId)
    requires maxAttempts >= 1
    requires Invariant(s, maxAttempts)
    requires Valid(s, run, maxAttempts)
    ensures Winners(Exec(s, run, maxAttempts), t) == Winners(s, t) + Decisions(run, t)
    decreases |run|
  {
    if run != [] {
      WinnersAfter(s, run[0], maxAttempts, t);
      StepKeepsInvariant(s, run[0], maxAttempts);
      WinnersAreDecisions(Apply(s, run[0], maxAttempts), run[1..], maxAttempts, t);
    }
  }

  /** Single winner: for any number of reviewers and in any interleaving with
      crashes and recoveries, at most one decision per task passes the
      compare-and-swap, and exactly that one has a resume job. */
  lemma SingleWinner(run: seq<Event>, maxAttempts: int, t: TaskId)
    requires maxAttempts >= 1
    requires Valid(INIT, run, maxAttempts)
    ensures Decisions(run, t) == Winners(Exec(INIT, run, maxAttempts), t) <= 1
    ensures Decisions(run, t) == 1 ==> !Enabled(Exec(INIT, run, maxAttempts), Decide(t, 0))
  {
    SafetyOverRuns(run, maxAttempts);
    WinnersAreDecisions(INIT, run, maxAttempts, t);
    if t >= |Exec(INIT, run, maxAttempts).tasks| {
      NoWinnersYet(Exec(INIT, run, maxAttempts), t);
    }
  }

  // ------------------------------------------------ recovery of the tail

  /** Once findings are stored they stay stored, and no later attempt of any job
      can commit a workflow result that carries findings for that task. */
  lemma {:induction false} StoredFindingsBlockResults(s: State, run: seq<Event>, maxAttempts: int, t: TaskId)
    requires Valid(s, run, maxAttempts)
    requires t < |s.tasks| && s.tasks[t].findingsStored
    ensures t < |Exec(s, run, maxAttempts).tasks| && Exec(s, run, maxAttempts).tasks[t].findingsStored
    ensures var end := Exec(s, run, maxAttempts);
            forall j: JobId, result ::
              (j < |end.jobs| && end.jobs[j].task == t) ==> !Enabled(end, WriteResult(j, result, true))
    decreases |run|
  {
    if run != [] {
      StoredFindingsBlockResults(Apply(s, run[0], maxAttempts), run[1..], maxAttempts, t);
    }
  }

  /** A run shown state by state. */
  predicate Trace(states: seq<State>, run: seq<Event>, maxAttempts: int) {
    && |states| == |run| + 1
    && forall i :: 0 <= i < |run| ==>
         Enabled(states[i], run[i]) && states[i + 1] == Apply(states[i], run[i], maxAttempts)
  }

  lemma {:induction false} TraceIsRun(states: seq<State>, run: seq<Event>, maxAttempts: int)
    requires Trace(states, run, maxAttempts)
    ensures Valid(states[0], run, maxAttempts)
    ensures Exec(states[0], run, maxAttempts) == states[|run|]
    decreases |run|
  {
    if run != [] {
      assert forall i :: 0 <= i < |run[1..]| ==> run[1..][i] == run[i + 1] && states[1..][i] == states[i + 1];
      TraceIsRun(states[1..], run[1..], maxAttempts);
    }
  }

  function JobRow(kind: Q.JobKind, status: Q.JobStatus, attempts: int, worker: Option<string>,
                  lease: Option<Time>, error: Option<string>, created: Time, started: Option<Time>): Q.Job {
    Q.Job(0, kind, status, attempts, worker, lease, error, created, started, None)
  }

  function RecoveredTail(): seq<Event> {
    [ Accept(Q.ExecuteTask, 0), Claim(0, "w1", 1, 30), Begin(0, Some(Analyzing)), WriteResult(0, Completed, true),
      Reap(0, 100), Claim(0, "w2", 101, 30), Begin(0, Some(Analyzing)),
      Fail(0), Finish(0, Q.Failed, Some("IntegrityError"), 102) ]
  }

  function RecoveredTailStates(): seq<State> {
    var queued := JobRow(Q.ExecuteTask, Q.Queued, 0, None, None, None, 0, None);
    var first := JobRow(Q.ExecuteTask, Q.Running, 1, Some("w1"), Some(31), None, 0, Some(1));
    var reaped := JobRow(Q.ExecuteTask, Q.Queued, 1, Some("w1"), None, Some(Q.LEASE_EXPIRED), 0, Some(1));
    var second := JobRow(Q.ExecuteTask, Q.Running, 2, Some("w2"), Some(131), Some(Q.LEASE_EXPIRED), 0, Some(101));
    var closed := second.(status := Q.Failed, lease := None, lastError := Some("IntegrityError"),
                          finished := Some(102));
    [ INIT,
      State([queued], [Task(TaskQueued, false)], [], [Off]),
      State([first], [Task(TaskQueued, false)], [], [Claimed]),
      State([first], [Task(Analyzing, false)], [], [Working]),
      State([first], [Task(Completed, true)], [], [Settled]),
      State([reaped], [Task(Completed, true)], [], [Off]),
      State([second], [Task(Completed, true)], [], [Claimed]),
      State([second], [Task(Analyzing, true)], [], [Working]),
      State([second], [Task(TaskFailed, true)], [], [Settled]),
      State([closed], [Task(TaskFailed, true)], [], [Off]) ]
  }

  predicate TailStep(i: nat) {
    var states, run := RecoveredTailStates(), RecoveredTail();
    i < |run| < |states| && Enabled(states[i], run[i]) && states[i + 1] == Apply(states[i], run[i], 2)
  }

  lemma TailStepsBeforeTheDeath(i: nat)
    requires i < 4
    ensures TailStep(i)
  {
    var n, t := Apply(RecoveredTailStates()[i], RecoveredTail()[i], 2), RecoveredTailStates()[i + 1];
    assert n.jobs == t.jobs && n.tasks == t.tasks && n.runs == t.runs && n.phases == t.phases;
  }

  lemma TailStepsAfterTheDeath(i: nat)
    requires 4 <= i < 9
    ensures TailStep(i)
  {
    var n, t := Apply(RecoveredTailStates()[i], RecoveredTail()[i], 2), RecoveredTailStates()[i + 1];
    assert n.jobs == t.jobs && n.tasks == t.tasks && n.runs == t.runs && n.phases == t.phases;
  }

  lemma RecoveredTailTrace()
    ensures Trace(RecoveredTailStates(), RecoveredTail(), 2)
  {
    forall i | 0 <= i < 9
      ensures TailStep(i)
    {
      if i < 4 { TailStepsBeforeTheDeath(i); } else { TailStepsAfterTheDeath(i); }
    }
    var states, run := RecoveredTailStates(), RecoveredTail();
    forall i | 0 <= i < |run|
      ensures Enabled(states[i], run[i]) && states[i + 1] == Apply(states[i], run[i], 2)
    {
      assert TailStep(i);
    }
  }

  /** COMPLETED is not absorbing. A worker that dies after committing its result
      with findings, before closing its job, leaves a job whose recovery collides
      on the finding keys and turns the completed task into a failed one. */
  lemma DeathInTailFailsCompletedTask()
    ensures Valid(INIT, RecoveredTail(), 2)
    ensures Valid(INIT, RecoveredTail()[..4], 2)
    ensures Exec(INIT, RecoveredTail()[..4], 2).tasks == [Task(Completed, true)]
    ensures Exec(INIT, RecoveredTail(), 2).tasks == [Task(TaskFailed, true)]
  {
    RecoveredTailTrace();
    TraceIsRun(RecoveredTailStates(), RecoveredTail(), 2);
    var states, run := RecoveredTailStates()[..5], RecoveredTail()[..4];
    assert Trace(states, run, 2);
    TraceIsRun(states, run, 2);
  }

  /** Recovery of a committed result: the lease runs out, another worker claims the
      job and starts its handler again. */
  function TailRecovery(j: JobId, progress: Option<TaskStatus>, worker: string, reaped: Time, claimed: Time,
                        lease: nat): seq<Event>
  {
    [Reap(j, reaped), Claim(j, worker, claimed, lease), Begin(j, progress)]
  }

  lemma RecoveredState(s: State, j: JobId, progress: Option<TaskStatus>, worker: string,
                       reaped: Time, claimed: Time, lease: nat, maxAttempts: int)
    requires Shape(s) && j < |s.jobs| && Enabled(s, Reap(j, reaped)) && Q.Recoverable(s.jobs[j], maxAttempts)
    requires BeginAllowed(s.jobs[j].kind, progress)
    ensures var run := TailRecovery(j, progress, worker, reaped, claimed, lease);
      && Valid(s, run, maxAttempts)
      && var r := Exec(s, run, maxAttempts);
         && |r.jobs| == |s.jobs| && |r.phases| == |s.phases| && |r.tasks| == |s.tasks|
         && Held(r, j) && r.phases[j] == Working
         && r.jobs[j].kind == s.jobs[j].kind && r.jobs[j].task == s.jobs[j].task
         && (progress == None ==> r.tasks == s.tasks)
         && var t := s.jobs[j].task;
            progress.Some? ==> r.tasks == s.tasks[t := s.tasks[t].(status := progress.value)]
  {
    assert JobShape(s, j);
    var a := Apply(s, Reap(j, reaped), maxAttempts);
    var b := Apply(a, Claim(j, worker, claimed, lease), maxAttempts);
    TwoSteps(s, Reap(j, reaped), Claim(j, worker, claimed, lease), maxAttempts);
    OneMore(s, [Reap(j, reaped), Claim(j, worker, claimed, lease)], Begin(j, progress), maxAttempts);
    assert TailRecovery(j, progress, worker, reaped, claimed, lease)
        == [Reap(j, reaped), Claim(j, worker, claimed, lease)] + [Begin(j, progress)];
  }

  /** What follows a death in the tail if nothing else goes wrong. The reaper comes by;
      if the job has attempts left, another worker takes it and its handler comes back
      with the result the checkpoint holds. */
  function AfterTailDeath(s: State, j: JobId, result: TaskStatus, findings: bool, progress: Option<TaskStatus>,
                          worker: string, reaped: Time, claimed: Time, lease: nat, maxAttempts: int): seq<Event>
    requires j < |s.jobs|
  {
    if !Q.Recoverable(s.jobs[j], maxAttempts) then [Reap(j, reaped)]
    else
      TailRecovery(j, progress, worker, reaped, claimed, lease)
      + [if findings then Fail(j) else WriteResult(j, result, findings)]
  }

  /** The handler that comes back can commit its result again exactly when the result
      carries no findings; otherwise the commit is refused and the handler fails. */
  lemma RecoveredHandler(s: State, j: JobId, result: TaskStatus, findings: bool, progress: Option<TaskStatus>,
                         worker: string, reaped: Time, claimed: Time, lease: nat, maxAttempts: int)
    requires Shape(s) && Enabled(s, WriteResult(j, result, findings))
    requires Q.Recoverable(s.jobs[j], maxAttempts) && Q.Expired(s.jobs[j], reaped)
    requires BeginAllowed(s.jobs[j].kind, progress)
    ensures var committed := Apply(s, WriteResult(j, result, findings), maxAttempts);
      var run := TailRecovery(j, progress, worker, reaped, claimed, lease);
      && Valid(committed, run, maxAttempts)
      && (Enabled(Exec(committed, run, maxAttempts), WriteResult(j, result, findings)) <==> !findings)
      && (!findings ==>
            && Valid(committed, run + [WriteResult(j, result, findings)], maxAttempts)
            && Exec(committed, run + [WriteResult(j, result, findings)], maxAttempts).tasks == committed.tasks)
      && (findings ==>
            && Valid(committed, run + [Fail(j)], maxAttempts)
            && var t := s.jobs[j].task;
               t < |s.tasks|
               && Exec(committed, run + [Fail(j)], maxAttempts).tasks == committed.tasks[t := Task(TaskFailed, true)])
  {
    var committed := Apply(s, WriteResult(j, result, findings), maxAttempts);
    var run := TailRecovery(j, progress, worker, reaped, claimed, lease);
    StepKeepsShape(s, WriteResult(j, result, findings), maxAttempts);
    RecoveredState(committed, j, progress, worker, reaped, claimed, lease, maxAttempts);
    hide Exec, Valid, Shape;
    if findings {
      OneMore(committed, run, Fail(j), maxAttempts);
    } else {
      OneMore(committed, run, WriteResult(j, result, findings), maxAttempts);
    }
  }

  /** When a death in the tail is harmless: the task ends up as it was committed if and
      only if the job has an attempt left and the result carries no findings, or the
      result was a failure in the first place. In every other case it ends FAILED. */
  lemma TailDeathHarmlessIff(s: State, j: JobId, result: TaskStatus, findings: bool, progress: Option<TaskStatus>,
                             worker: string, reaped: Time, claimed: Time, lease: nat, maxAttempts: int)
    requires Shape(s) && Enabled(s, WriteResult(j, result, findings))
    requires Q.Expired(s.jobs[j], reaped) && BeginAllowed(s.jobs[j].kind, progress)
    ensures var committed := Apply(s, WriteResult(j, result, findings), maxAttempts);
      var run := AfterTailDeath(s, j, result, findings, progress, worker, reaped, claimed, lease, maxAttempts);
      && Valid(committed, run, maxAttempts)
      && var end, t := Exec(committed, run, maxAttempts), s.jobs[j].task;
         && t < |s.tasks| == |end.tasks|
         && (end.tasks == committed.tasks <==>
               (Q.Recoverable(s.jobs[j], maxAttempts) && !findings) || result == TaskFailed)
         && (end.tasks != committed.tasks ==> end.tasks[t].status == TaskFailed)
  {
    var committed := Apply(s, WriteResult(j, result, findings), maxAttempts);
    var t := s.jobs[j].task;
    assert committed.tasks[t].status == result && (findings ==> committed.tasks[t].findingsStored);
    if Q.Recoverable(s.jobs[j], maxAttempts) {
      RecoveredHandler(s, j, result, findings, progress, worker, reaped, claimed, lease, maxAttempts);
    } else {
      StepKeepsShape(s, WriteResult(j, result, findings), maxAttempts);
      NoSteps(committed, maxAttempts);
      OneMore(committed, [], Reap(j, reaped), maxAttempts);
      assert [] + [Reap(j, reaped)] == [Reap(j, reaped)];
      assert Exec(committed, [Reap(j, reaped)], maxAttempts).tasks
          == committed.tasks[t := committed.tasks[t].(status := TaskFailed)];
    }
    hide Exec, Valid, Shape;
  }

  // --------------------------------------------------- without fail-stop

  /** `finish_job` by a worker that no longer holds the lease: it changes the job
      row only, whatever the new holder is doing. */
  function LateFinish(s: State, j: JobId, outcome: Q.JobStatus, now: Time): State
    requires j < |s.jobs|
  {
    s.(jobs := s.jobs[j := Q.FinishedJob(s.jobs[j], outcome, None, now)])
  }

  /** A late finish leaves every task attended if and only if the task of the job it
      hits is at rest already or has another job that owes it an outcome. */
  lemma LateFinishHarmlessIff(s: State, j: JobId, outcome: Q.JobStatus, now: Time)
    requires Shape(s) && Attended(s) && j < |s.jobs| && (outcome == Q.Succeeded || outcome == Q.Failed)
    ensures var t := s.jobs[j].task;
      t < |s.tasks| &&
      (Attended(LateFinish(s, j, outcome, now)) <==>
         Resting(s.tasks[t].status) || exists k: JobId :: k != j && Responsible(s, k, t))
  {
    assert JobShape(s, j);
    var t, n := s.jobs[j].task, LateFinish(s, j, outcome, now);
    forall k: JobId, u: TaskId
      ensures Responsible(n, k, u) <==> k != j && Responsible(s, k, u)
    {
    }
    if Resting(s.tasks[t].status) || exists k: JobId :: k != j && Responsible(s, k, t) {
      forall u | 0 <= u < |n.tasks| && !Resting(n.tasks[u].status)
        ensures exists k :: Responsible(n, k, u)
      {
        if u == t {
          var k: JobId :| k != j && Responsible(s, k, t);
          assert Responsible(n, k, u);
        } else {
          var k :| Responsible(s, k, u);
          assert Responsible(n, k, u);
        }
      }
    }
  }

  /** `_apply_workflow_result` by such a worker: the task row only. */
  function LateResult(s: State, t: TaskId, result: TaskStatus): State
    requires t < |s.tasks|
  {
    WithStatus(s, t, result)
  }

  /** A first worker has begun its handler when its lease runs out; a second one claims
      the requeued job. */
  function RequeuedAndClaimed(): seq<Event> {
    [ Accept(Q.ExecuteTask, 0), Claim(0, "w1", 1, 30), Begin(0, Some(Analyzing)),
      Reap(0, 100), Claim(0, "w2", 101, 30) ]
  }

  function ClaimedAgain(): State {
    State([JobRow(Q.ExecuteTask, Q.Running, 2, Some("w2"), Some(131), Some(Q.LEASE_EXPIRED), 0, Some(101))],
          [Task(Analyzing, false)], [], [Claimed])
  }

  function RequeuedAndClaimedStates(): seq<State> {
    var queued := JobRow(Q.ExecuteTask, Q.Queued, 0, None, None, None, 0, None);
    var first := JobRow(Q.ExecuteTask, Q.Running, 1, Some("w1"), Some(31), None, 0, Some(1));
    var reaped := JobRow(Q.ExecuteTask, Q.Queued, 1, Some("w1"), None, Some(Q.LEASE_EXPIRED), 0, Some(1));
    [ INIT,
      State([queued], [Task(TaskQueued, false)], [], [Off]),
      State([first], [Task(TaskQueued, false)], [], [Claimed]),
      State([first], [Task(Analyzing, false)], [], [Working]),
      State([reaped], [Task(Analyzing, false)], [], [Off]),
      ClaimedAgain() ]
  }

  lemma RequeuedAndClaimedTrace()
    ensures Trace(RequeuedAndClaimedStates(), RequeuedAndClaimed(), 2)
  {
    var states, run := RequeuedAndClaimedStates(), RequeuedAndClaimed();
    forall i | 0 <= i < |run|
      ensures Enabled(states[i], run[i]) && states[i + 1] == Apply(states[i], run[i], 2)
    {
      var n, t := Apply(states[i], run[i], 2), states[i + 1];
      assert n.jobs == t.jobs && n.tasks == t.tasks && n.runs == t.runs && n.phases == t.phases;
    }
  }

  lemma ClaimedAgainIsReached()
    ensures Valid(INIT, RequeuedAndClaimed(), 2)
    ensures Exec(INIT, RequeuedAndClaimed(), 2) == ClaimedAgain()
  {
    RequeuedAndClaimedTrace();
    TraceIsRun(RequeuedAndClaimedStates(), RequeuedAndClaimed(), 2);
  }

  /** Why fail-stop is assumed. A first worker outlives its lease: it commits its
      result, a second worker begins the requeued job over it, and then the first one
      closes the job. The job row is finished, so no reaper will ever look at it, and
      if the second worker now dies the task keeps ANALYZING with nobody
      responsible. Every state before that last step is attended. */
  lemma LateFinishStrandsTask()
    ensures Valid(INIT, RequeuedAndClaimed(), 2)
    ensures var claimed := Exec(INIT, RequeuedAndClaimed(), 2);
            && Attended(claimed) && |claimed.tasks| == 1
            && var late := LateResult(claimed, 0, Completed);
               && Attended(late) && Enabled(late, Begin(0, Some(Analyzing)))
               && var begun := Apply(late, Begin(0, Some(Analyzing)), 2);
                  && Attended(begun) && |begun.jobs| == 1
                  && var s := LateFinish(begun, 0, Q.Succeeded, 110);
                     s.tasks[0].status == Analyzing && !Attended(s) && (forall now :: !Enabled(s, Reap(0, now)))
  {
    ClaimedAgainIsReached();
    hide Exec, Valid, RequeuedAndClaimed;
    var claimed := ClaimedAgain();
    var begun := Apply(LateResult(claimed, 0, Completed), Begin(0, Some(Analyzing)), 2);
    assert Responsible(claimed, 0, 0);
    assert begun.jobs == claimed.jobs && begun.phases[0] == Working && |begun.tasks| == 1;
    assert Responsible(begun, 0, 0);
  }
}
