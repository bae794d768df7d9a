/** The database tables and the code that writes them, in the form the source has:
    functions that change rows in place (app/services/jobs.py,
    app/services/audit.py, app/orchestration/lifecycle.py) and the worker that
    drives them (app/worker.py). Every method is tied to the protocol: what it
    does to the tables is a step, or a run of steps, of `Protocol`. */
module JobStore {
  import opened Basics
  import Q = JobQueue
  import P = Protocol

  /** How one agent call ends, and whether its node swallows the exception (the
      judge node does). */
  datatype AgentCall = AgentCall(ok: bool, caught: bool)

  /** What a handler does with its job: first status writes, agent calls, and the
      result it commits; `raises` stands for any other exception before that. */
  datatype Script = Script(
    progress: seq<P.TaskStatus>,
    calls: seq<AgentCall>,
    raises: bool,
    result: P.TaskStatus,
    findings: bool)

  predicate ScriptFor(kind: Q.JobKind, script: Script) {
    && P.ResultAllowed(kind, script.result, script.findings)
    && (kind == Q.ResumeHumanReview <==> script.progress == [])
    && forall k :: 0 <= k < |script.progress| ==> P.BeginAllowed(kind, Some(script.progress[k]))
  }

  /** The handler returns normally: every agent call succeeds or is swallowed,
      nothing else raises, and the finding keys are free. */
  predicate Succeeds(script: Script, task: P.Task) {
    && (forall k :: 0 <= k < |script.calls| ==> script.calls[k].ok || script.calls[k].caught)
    && !script.raises
    && P.KeysFree(task, script.findings)
  }

  function StartedRuns(task: Q.TaskId): P.AgentRun -> int {
    (run: P.AgentRun) => if run.task == task && run.status == P.Started then 1 else 0
  }

  function ExpiredJobs(jobs: seq<Q.Job>, now: Q.Time): (ids: seq<Q.JobId>)
    ensures forall k :: 0 <= k < |ids| ==> ids[k] < |jobs| && Q.Expired(jobs[ids[k]], now)
    ensures forall i :: 0 <= i < |jobs| && Q.Expired(jobs[i], now) ==> i in ids
    ensures forall k, l :: 0 <= k < l < |ids| ==> ids[k] < ids[l]
  {
    if jobs == [] then []
    else
      var last := |jobs| - 1;
      var ids := ExpiredJobs(jobs[..last], now);
      if Q.Expired(jobs[last], now) then ids + [last] else ids
  }

  function Reaps(ids: seq<Q.JobId>, now: Q.Time): (trace: seq<P.Event>)
    ensures |trace| == |ids|
  {
    seq(|ids|, k requires 0 <= k < |ids| => P.Reap(ids[k], now))
  }

  /** The lease has run out: the reaper's own selection, column by column. */
  predicate LeaseRanOut(job: Q.Job, now: Q.Time) {
    job.status == Q.Running && job.lease.Some? && job.lease.value < now
  }

  predicate UsedUp(job: Q.Job, maxAttempts: int) {
    job.attempts >= maxAttempts
  }

  /** A row after the reaper, column by column. */
  predicate RowAfterReap(before: Q.Job, after: Q.Job, now: Q.Time, maxAttempts: int) {
    if !LeaseRanOut(before, now) then after == before
    else if UsedUp(before, maxAttempts) then
      after == before.(status := Q.Failed, lease := None, lastError := Some("LeaseExpired"), finished := Some(now))
    else after == before.(status := Q.Queued, lease := None, lastError := Some("LeaseExpired"))
  }

  predicate TaskAfterReap(reaped: bool, before: P.Task, after: P.Task) {
    after == if reaped then before.(status := P.TaskFailed) else before
  }

  predicate RunAfterReap(reaped: bool, before: P.AgentRun, after: P.AgentRun) {
    after == if reaped && before.status == P.Started then before.(status := P.Abandoned) else before
  }

  /** One of these jobs belongs to the task; for the second, it has no attempt left. */
  predicate Touched(jobs: seq<Q.Job>, ids: seq<Q.JobId>, task: Q.TaskId) {
    exists k :: 0 <= k < |ids| && ids[k] < |jobs| && jobs[ids[k]].task == task
  }

  predicate Condemned(jobs: seq<Q.Job>, ids: seq<Q.JobId>, task: Q.TaskId, maxAttempts: int) {
    exists k :: 0 <= k < |ids| && ids[k] < |jobs| && jobs[ids[k]].task == task && UsedUp(jobs[ids[k]], maxAttempts)
  }

  /** The reaper has dealt with these jobs, their tasks and the runs of those, and with
      nothing else. */
  predicate ReapedSoFar(start: P.State, now: P.State, ids: seq<Q.JobId>, time: Q.Time, maxAttempts: int) {
    && |now.jobs| == |start.jobs| && |now.tasks| == |start.tasks| && |now.runs| == |start.runs|
    && (forall i :: 0 <= i < |now.jobs| && i !in ids ==> now.jobs[i] == start.jobs[i])
    && (forall i :: 0 <= i < |now.jobs| && i in ids ==> RowAfterReap(start.jobs[i], now.jobs[i], time, maxAttempts))
    && (forall t :: 0 <= t < |now.tasks| ==>
          TaskAfterReap(Condemned(start.jobs, ids, t, maxAttempts), start.tasks[t], now.tasks[t]))
    && (forall k :: 0 <= k < |now.runs| ==>
          RunAfterReap(Touched(start.jobs, ids, start.runs[k].task), start.runs[k], now.runs[k]))
  }

  lemma TouchedOneMore(jobs: seq<Q.Job>, ids: seq<Q.JobId>, id: Q.JobId, task: Q.TaskId, maxAttempts: int)
    requires id < |jobs|
    ensures Touched(jobs, ids + [id], task) <==> Touched(jobs, ids, task) || jobs[id].task == task
    ensures Condemned(jobs, ids + [id], task, maxAttempts) <==>
      Condemned(jobs, ids, task, maxAttempts) || (jobs[id].task == task && UsedUp(jobs[id], maxAttempts))
  {
    hide UsedUp;
    var more := ids + [id];
    assert more[|ids|] == id && forall k :: 0 <= k < |ids| ==> more[k] == ids[k];
  }

  lemma ReapedOneMore(start: P.State, before: P.State, after: P.State, ids: seq<Q.JobId>, id: Q.JobId, time: Q.Time,
                      maxAttempts: int)
    requires ReapedSoFar(start, before, ids, time, maxAttempts)
    requires id < |start.jobs| && id !in ids
    requires |after.jobs| == |before.jobs| && |after.tasks| == |before.tasks| && |after.runs| == |before.runs|
    requires forall i :: 0 <= i < |after.jobs| && i != id ==> after.jobs[i] == before.jobs[i]
    requires RowAfterReap(before.jobs[id], after.jobs[id], time, maxAttempts)
    requires forall t :: 0 <= t < |after.tasks| ==>
      TaskAfterReap(t == start.jobs[id].task && UsedUp(start.jobs[id], maxAttempts), before.tasks[t], after.tasks[t])
    requires forall k :: 0 <= k < |after.runs| ==>
      RunAfterReap(before.runs[k].task == start.jobs[id].task, before.runs[k], after.runs[k])
    ensures ReapedSoFar(start, after, ids + [id], time, maxAttempts)
  {
    hide RowAfterReap, UsedUp, Touched, Condemned;
    forall t: Q.TaskId
      ensures Touched(start.jobs, ids + [id], t) <==> Touched(start.jobs, ids, t) || start.jobs[id].task == t
      ensures Condemned(start.jobs, ids + [id], t, maxAttempts) <==>
        Condemned(start.jobs, ids, t, maxAttempts) || (start.jobs[id].task == t && UsedUp(start.jobs[id], maxAttempts))
    {
      TouchedOneMore(start.jobs, ids, id, t, maxAttempts);
    }
  }

  lemma NothingReaped(start: P.State, time: Q.Time, maxAttempts: int)
    ensures ReapedSoFar(start, start, [], time, maxAttempts)
  {
  }

  /** Every row, task and run after the reaper, in terms of the rows before it. */
  predicate AfterReaper(start: P.State, end: P.State, now: Q.Time, maxAttempts: int) {
    && |end.jobs| == |start.jobs| && |end.tasks| == |start.tasks| && |end.runs| == |start.runs|
    && (forall i :: 0 <= i < |end.jobs| ==> RowAfterReap(start.jobs[i], end.jobs[i], now, maxAttempts))
    && (forall t :: 0 <= t < |end.tasks| ==>
          TaskAfterReap(exists i :: 0 <= i < |start.jobs| && LeaseRanOut(start.jobs[i], now)
                          && start.jobs[i].task == t && UsedUp(start.jobs[i], maxAttempts),
                        start.tasks[t], end.tasks[t]))
    && (forall k :: 0 <= k < |end.runs| ==>
          RunAfterReap(exists i :: 0 <= i < |start.jobs| && LeaseRanOut(start.jobs[i], now)
                         && start.jobs[i].task == start.runs[k].task,
                       start.runs[k], end.runs[k]))
  }

  lemma ReapedAll(start: P.State, end: P.State, ids: seq<Q.JobId>, now: Q.Time, maxAttempts: int)
    requires ReapedSoFar(start, end, ids, now, maxAttempts)
    requires forall i :: i in ids <==> 0 <= i < |start.jobs| && LeaseRanOut(start.jobs[i], now)
    ensures AfterReaper(start, end, now, maxAttempts)
  {
    hide UsedUp, TaskAfterReap, RunAfterReap;
    forall t: Q.TaskId
      ensures Condemned(start.jobs, ids, t, maxAttempts) <==>
        exists i :: 0 <= i < |start.jobs| && LeaseRanOut(start.jobs[i], now)
          && start.jobs[i].task == t && UsedUp(start.jobs[i], maxAttempts)
      ensures Touched(start.jobs, ids, t) <==>
        exists i :: 0 <= i < |start.jobs| && LeaseRanOut(start.jobs[i], now) && start.jobs[i].task == t
    {
      hide LeaseRanOut;
      if i :| 0 <= i < |start.jobs| && LeaseRanOut(start.jobs[i], now) && start.jobs[i].task == t {
        var k :| 0 <= k < |ids| && ids[k] == i;
      }
      if i :| 0 <= i < |start.jobs| && LeaseRanOut(start.jobs[i], now) && start.jobs[i].task == t
              && UsedUp(start.jobs[i], maxAttempts) {
        var k :| 0 <= k < |ids| && ids[k] == i;
      }
    }
  }

  lemma NoneLeftExpired(start: P.State, end: P.State, now: Q.Time, maxAttempts: int)
    requires AfterReaper(start, end, now, maxAttempts)
    ensures forall i :: 0 <= i < |end.jobs| ==> !Q.Expired(end.jobs[i], now)
  {
    hide TaskAfterReap, RunAfterReap;
  }

  lemma {:induction false} OldestExists(jobs: seq<Q.Job>)
    requires exists i :: 0 <= i < |jobs| && jobs[i].status == Q.Queued
    ensures exists i: Q.JobId :: i < |jobs| && Q.OldestQueued(jobs, i)
  {
    var last := |jobs| - 1;
    var init := jobs[..last];
    if exists i :: 0 <= i < |init| && init[i].status == Q.Queued {
      OldestExists(init);
      var o: Q.JobId :| o < |init| && Q.OldestQueued(init, o);
      if jobs[last].status == Q.Queued && jobs[last].created < jobs[o].created {
        assert Q.OldestQueued(jobs, last);
      } else {
        assert Q.OldestQueued(jobs, o);
      }
    } else {
      assert Q.OldestQueued(jobs, last);
    }
  }

  lemma StartedRunsAbandoned(runs: seq<P.AgentRun>, task: Q.TaskId)
    ensures Sum(P.AbandonRuns(runs, task), StartedRuns(task)) == 0
  {
    var closed := P.AbandonRuns(runs, task);
    forall r | r in closed
      ensures 0 <= StartedRuns(task)(r) <= 0
    {
      var k :| 0 <= k < |closed| && closed[k] == r;
    }
    SumBounds(closed, StartedRuns(task), 0, 0);
  }

  lemma ReapEnabled(s: P.State, job: Q.JobId, now: Q.Time, maxAttempts: int)
    requires P.Invariant(s, maxAttempts) && job < |s.jobs| && Q.Expired(s.jobs[job], now)
    ensures P.Enabled(s, P.Reap(job, now))
  {
    assert P.JobShape(s, job);
  }

  /** The task statuses a finished job of each kind can leave. */
  predicate EndStatus(kind: Q.JobKind, status: P.TaskStatus) {
    match kind
    case ReviewPullRequest => status == P.Completed
    case ResumeHumanReview => status in {P.Blocked, P.ReworkExhausted, P.Completed, P.TaskFailed}
    case _ => status in {P.HumanReview, P.Blocked, P.ReworkExhausted, P.Completed, P.TaskFailed}
  }

  lemma ScriptEnds(kind: Q.JobKind, script: Script)
    requires ScriptFor(kind, script)
    ensures EndStatus(kind, script.result)
  {
  }

  predicate Raises(call: AgentCall) {
    !call.ok && !call.caught
  }

  /** Calls a handler gets to: all of them, or those up to the first that raises. */
  function CallsMade(calls: seq<AgentCall>): (n: nat)
    ensures n <= |calls|
    ensures forall k :: 0 <= k < n && Raises(calls[k]) ==> k == n - 1
    ensures n < |calls| ==> n > 0 && Raises(calls[n - 1])
  {
    if calls == [] then 0
    else if Raises(calls[0]) then 1
    else 1 + CallsMade(calls[1..])
  }

  lemma {:induction false} CallsMadeUpTo(calls: seq<AgentCall>, k: nat)
    requires k <= |calls| && forall l :: 0 <= l < k ==> !Raises(calls[l])
    ensures k == |calls| ==> CallsMade(calls) == k
    ensures k < |calls| && Raises(calls[k]) ==> CallsMade(calls) == k + 1
  {
    if k > 0 {
      assert forall l :: 0 <= l < k - 1 ==> calls[1..][l] == calls[l + 1];
      assert k < |calls| ==> calls[1..][k - 1] == calls[k];
      CallsMadeUpTo(calls[1..], k - 1);
    }
  }

  /** The ledger entries of the first `n` calls: one per call, closed as the call went. */
  function RunsOf(task: Q.TaskId, job: Q.JobId, calls: seq<AgentCall>, n: nat): (runs: seq<P.AgentRun>)
    requires n <= |calls|
    ensures |runs| == n
  {
    seq(n, k requires 0 <= k < n => P.AgentRun(task, job, if calls[k].ok then P.RunSucceeded else P.RunFailed))
  }

  lemma NoRuns(task: Q.TaskId, job: Q.JobId, calls: seq<AgentCall>, runs: seq<P.AgentRun>)
    ensures runs == runs + RunsOf(task, job, calls, 0)
  {
  }

  lemma RunsOfOneMore(task: Q.TaskId, job: Q.JobId, calls: seq<AgentCall>, n: nat, before: seq<P.AgentRun>,
                      after: seq<P.AgentRun>)
    requires n < |calls| && |after| == |before| + 1 && after[..|before|] == before
    requires after[|before|] == P.AgentRun(task, job, if calls[n].ok then P.RunSucceeded else P.RunFailed)
    ensures after == before + [after[|before|]]
    ensures RunsOf(task, job, calls, n + 1) == RunsOf(task, job, calls, n) + [after[|before|]]
  {
  }

  /** A step that the handler of this job takes. */
  predicate HandlerStep(e: P.Event, job: Q.JobId) {
    (e.Begin? || e.StartAgent? || e.EndAgent? || e.WriteResult?) && e.job == job
  }

  predicate HandlerSteps(trace: seq<P.Event>, job: Q.JobId) {
    forall e :: e in trace ==> HandlerStep(e, job)
  }

  lemma OneHandlerStep(e: P.Event, job: Q.JobId)
    requires HandlerStep(e, job)
    ensures HandlerSteps([e], job)
  {
  }

  lemma MoreHandlerSteps(trace: seq<P.Event>, more: seq<P.Event>, job: Q.JobId)
    requires HandlerSteps(trace, job) && HandlerSteps(more, job)
    ensures HandlerSteps(trace + more, job)
  {
  }

  lemma NoRunLeftOpen(s: P.State, job: Q.JobId, maxAttempts: int)
    requires P.Invariant(s, maxAttempts) && job < |s.jobs| && s.jobs[job].status != Q.Running
    ensures forall k :: 0 <= k < |s.runs| && s.runs[k].job == job ==> s.runs[k].status != P.Started
  {
    forall k | 0 <= k < |s.runs| && s.runs[k].job == job
      ensures s.runs[k].status != P.Started
    {
      assert P.RunShape(s, k) && P.JobShape(s, job);
    }
  }

  class Tables {
    const maxAttempts: int
    var jobs: seq<Q.Job>
    var tasks: seq<P.Task>
    var runs: seq<P.AgentRun>
    ghost var phases: seq<P.Phase>

    ghost function View(): P.State
      reads this
    {
      P.State(jobs, tasks, runs, phases)
    }

    ghost predicate Valid()
      reads this
    {
      maxAttempts >= 1 && P.Invariant(View(), maxAttempts)
    }

    constructor (maxAttempts: int)
      requires maxAttempts >= 1
      ensures Valid() && View() == P.INIT && this.maxAttempts == maxAttempts
    {
      this.maxAttempts := maxAttempts;
      jobs, tasks, runs, phases := [], [], [], [];
      new;
      P.SafetyOverRuns([], maxAttempts);
    }

    /** `accept_task` and its siblings: the task and its job commit together. */
    method Accept(kind: Q.JobKind, now: Q.Time) returns (task: Q.TaskId, job: Q.JobId)
      requires Valid() && kind != Q.ResumeHumanReview
      modifies this
      ensures Valid() && View() == P.Apply(old(View()), P.Accept(kind, now), maxAttempts)
      ensures task == |old(tasks)| && job == |old(jobs)|
      ensures tasks == old(tasks) + [P.Task(P.TaskQueued, false)]
      ensures jobs == old(jobs) + [Q.Job(task, kind, Q.Queued, 0, None, None, None, now, None, None)]
    {
      P.StepKeepsInvariant(View(), P.Accept(kind, now), maxAttempts);
      task, job := |tasks|, |jobs|;
      tasks := tasks + [P.Task(P.TaskQueued, false)];
      jobs := jobs + [Q.NewJob(task, kind, now)];
      phases := phases + [P.Off];
    }

    method ClaimNextJob(worker: string, leaseSeconds: nat, now: Q.Time) returns (claimed: Option<Q.JobId>)
      requires Valid()
      modifies this
      ensures Valid()
      ensures claimed == None <==> forall i :: 0 <= i < |old(jobs)| ==> old(jobs)[i].status != Q.Queued
      ensures claimed == None ==> View() == old(View())
      ensures claimed.Some? ==>
        && Q.OldestQueued(old(jobs), claimed.value)
        && P.Enabled(old(View()), P.Claim(claimed.value, worker, now, leaseSeconds))
        && View() == P.Apply(old(View()), P.Claim(claimed.value, worker, now, leaseSeconds), maxAttempts)
        && (forall i :: 0 <= i < |old(jobs)| && old(jobs)[i].status == Q.Queued ==>
              old(jobs)[claimed.value].created <= old(jobs)[i].created)
        && var row := old(jobs)[claimed.value];
           jobs == old(jobs)[claimed.value := row.(
             status := Q.Running, attempts := row.attempts + 1, lockedBy := Some(worker),
             started := Some(now), lease := Some(now + leaseSeconds))]
    {
      if !exists i :: 0 <= i < |jobs| && jobs[i].status == Q.Queued {
        return None;
      }
      OldestExists(jobs);
      var i: Q.JobId :| i < |jobs| && Q.OldestQueued(jobs, i);
      P.StepKeepsInvariant(View(), P.Claim(i, worker, now, leaseSeconds), maxAttempts);
      jobs := jobs[i := Q.ClaimedJob(jobs[i], worker, now, leaseSeconds)];
      phases := phases[i := P.Claimed];
      claimed := Some(i);
    }

    method RenewLease(job: Q.JobId, worker: string, leaseSeconds: nat, now: Q.Time) returns (renewed: bool)
      requires Valid() && job < |jobs|
      modifies this
      ensures Valid()
      ensures renewed <==> old(jobs)[job].status == Q.Running && old(jobs)[job].lockedBy == Some(worker)
      ensures renewed ==> jobs == old(jobs)[job := old(jobs)[job].(lease := Some(now + leaseSeconds))]
      ensures View() == P.Apply(old(View()), P.Renew(job, worker, now, leaseSeconds), maxAttempts)
      ensures !renewed ==> View() == old(View())
    {
      P.StepKeepsInvariant(View(), P.Renew(job, worker, now, leaseSeconds), maxAttempts);
      renewed := Q.HeldBy(jobs[job], worker);
      if renewed {
        jobs := jobs[job := jobs[job].(lease := Some(now + leaseSeconds))];
      } else {
        assert jobs[job := jobs[job]] == jobs;
      }
    }

    /** `finish_job` as written: it asks nobody for the lease, so it may be called
        on any row; only the row changes. */
    method FinishJob(job: Q.JobId, outcome: Q.JobStatus, error: Option<string>, now: Q.Time)
      requires Q.Enabled(jobs, Q.Finish(job, outcome, error, now)) && job < |phases|
      modifies this
      ensures jobs == Q.Apply(old(jobs), Q.Finish(job, outcome, error, now), maxAttempts)
      ensures tasks == old(tasks) && runs == old(runs) && phases == old(phases)[job := P.Off]
      ensures |jobs| == |old(jobs)| && forall i :: 0 <= i < |jobs| && i != job ==> jobs[i] == old(jobs)[i]
      ensures jobs[job] == old(jobs)[job].(status := outcome, finished := Some(now), lease := None,
                                           lastError := jobs[job].lastError)
      ensures match error
        case None => jobs[job].lastError == None
        case Some(text) =>
          if text == "" then jobs[job].lastError == None
          else jobs[job].lastError.Some? && jobs[job].lastError.value <= text
               && |jobs[job].lastError.value| == if |text| < 120 then |text| else 120
    {
      jobs := jobs[job := Q.FinishedJob(jobs[job], outcome, error, now)];
      phases := phases[job := P.Off];
    }

    method AbandonAgentRuns(task: Q.TaskId) returns (abandoned: int)
      modifies this
      ensures runs == P.AbandonRuns(old(runs), task)
      ensures abandoned == Sum(old(runs), StartedRuns(task)) - Sum(runs, StartedRuns(task))
      ensures jobs == old(jobs) && tasks == old(tasks) && phases == old(phases)
    {
      abandoned := Sum(runs, StartedRuns(task));
      StartedRunsAbandoned(runs, task);
      runs := P.AbandonRuns(runs, task);
    }

    /** One iteration of the reaper's loop. */
    method ReapJob(job: Q.JobId, now: Q.Time)
      requires Valid() && P.Enabled(View(), P.Reap(job, now))
      modifies this
      ensures Valid() && View() == P.Apply(old(View()), P.Reap(job, now), maxAttempts)
      ensures |jobs| == |old(jobs)| && |tasks| == |old(tasks)| && |runs| == |old(runs)|
      ensures forall i :: 0 <= i < |jobs| && i != job ==> jobs[i] == old(jobs)[i]
      ensures RowAfterReap(old(jobs)[job], jobs[job], now, maxAttempts)
      ensures forall t :: 0 <= t < |tasks| ==>
        TaskAfterReap(t == old(jobs)[job].task && UsedUp(old(jobs)[job], maxAttempts), old(tasks)[t], tasks[t])
      ensures forall k :: 0 <= k < |runs| ==>
        RunAfterReap(old(runs)[k].task == old(jobs)[job].task, old(runs)[k], runs[k])
    {
      P.StepKeepsInvariant(View(), P.Reap(job, now), maxAttempts);
      var row := jobs[job].(lease := None, lastError := Some(Q.LEASE_EXPIRED));
      var task := jobs[job].task;
      var _ := AbandonAgentRuns(task);
      if jobs[job].attempts < maxAttempts {
        row := row.(status := Q.Queued);
      } else {
        row := row.(status := Q.Failed, finished := Some(now));
        tasks := tasks[task := tasks[task].(status := P.TaskFailed)];
      }
      jobs := jobs[job := row];
      phases := phases[job := P.Off];
    }

    /** `trace` is the run of reaps that closed the first k selected jobs. */
    ghost predicate Reaping(start: P.State, trace: seq<P.Event>, ids: seq<Q.JobId>, k: nat, now: Q.Time)
      reads this
    {
      && Valid()
      && P.Valid(start, trace, maxAttempts) && View() == P.Exec(start, trace, maxAttempts)
      && k == |trace| <= |ids| && (forall l :: 0 <= l < k ==> trace[l] == P.Reap(ids[l], now))
      && (forall l :: 0 <= l < |ids| ==> ids[l] < |start.jobs|)
      && ReapedSoFar(start, View(), ids[..k], now, maxAttempts)
    }

    method ReapNext(ghost start: P.State, ghost trace: seq<P.Event>, ids: seq<Q.JobId>, k: nat, now: Q.Time)
      requires Reaping(start, trace, ids, k, now)
      requires k < |ids| && ids[k] !in ids[..k] && Q.Expired(start.jobs[ids[k]], now)
      modifies this
      ensures Reaping(start, trace + [P.Reap(ids[k], now)], ids, k + 1, now)
    {
      hide P.Apply, P.Exec, P.Valid, P.Invariant, P.Enabled;
      var id := ids[k];
      ReapEnabled(View(), id, now, maxAttempts);
      P.OneMore(start, trace, P.Reap(id, now), maxAttempts);
      ghost var before := View();
      ReapJob(id, now);
      assert ids[..k + 1] == ids[..k] + [id];
      ReapedOneMore(start, before, View(), ids[..k], id, now, maxAttempts);
    }

    /** The reaper: every expired lease is handled, once, and nothing else is
        touched; afterwards no lease is expired. */
    method ReapExpiredJobs(now: Q.Time) returns (reaped: nat, ghost trace: seq<P.Event>)
      requires Valid()
      modifies this
      ensures Valid()
      ensures P.Valid(old(View()), trace, maxAttempts) && View() == P.Exec(old(View()), trace, maxAttempts)
      ensures var ids := ExpiredJobs(old(jobs), now);
              && reaped == |trace| == |ids|
              && forall k :: 0 <= k < |ids| ==> trace[k] == P.Reap(ids[k], now)
      ensures forall i :: 0 <= i < |jobs| ==> !Q.Expired(jobs[i], now)
      ensures AfterReaper(old(View()), View(), now, maxAttempts)
    {
      hide P.Exec, P.Valid, P.Apply, P.Invariant, ReapedSoFar, AfterReaper;
      var ids := ExpiredJobs(jobs, now);
      ghost var start := View();
      trace := [];
      P.NoSteps(start, maxAttempts);
      NothingReaped(start, now, maxAttempts);
      for k := 0 to |ids|
        invariant Reaping(start, trace, ids, k, now)
      {
        ReapNext(start, trace, ids, k, now);
        trace := trace + [P.Reap(ids[k], now)];
      }
      assert ids[..|ids|] == ids;
      ReapedAll(start, View(), ids, now, maxAttempts);
      NoneLeftExpired(start, View(), now, maxAttempts);
      reaped := |ids|;
    }

    /** The reviewer's compare-and-swap. `pending` is what the caller read before:
        the record exists and its review was still undecided. */
    method ClaimHumanReview(task: Q.TaskId, pending: bool, now: Q.Time) returns (won: bool)
      requires Valid()
      modifies this
      ensures Valid()
      ensures won <==> pending && task < |old(tasks)| && old(tasks)[task].status == P.HumanReview
      ensures won ==> View() == P.Apply(old(View()), P.Decide(task, now), maxAttempts)
      ensures !won ==> View() == old(View())
    {
      won := false;
      if !pending || task >= |tasks| || tasks[task].status != P.HumanReview {
        return;
      }
      P.StepKeepsInvariant(View(), P.Decide(task, now), maxAttempts);
      tasks := tasks[task := tasks[task].(status := P.Resuming)];
      jobs := jobs + [Q.NewJob(task, Q.ResumeHumanReview, now)];
      phases := phases + [P.Off];
      won := true;
    }

    // ------------------------------------------------ inside a handler

    method WriteProgress(job: Q.JobId, progress: Option<P.TaskStatus>)
      requires Valid() && P.Enabled(View(), P.Begin(job, progress))
      modifies this
      ensures Valid() && View() == P.Apply(old(View()), P.Begin(job, progress), maxAttempts)
    {
      P.StepKeepsInvariant(View(), P.Begin(job, progress), maxAttempts);
      if progress.Some? {
        var task := jobs[job].task;
        tasks := tasks[task := tasks[task].(status := progress.value)];
      }
      phases := phases[job := P.Working];
    }

    /** `AgentLifecycle.execute`: the run is opened before the call and closed on
        both ways out. */
    method ExecuteAgent(job: Q.JobId, ok: bool) returns (run: nat)
      requires Valid() && P.Enabled(View(), P.StartAgent(job))
      modifies this
      ensures Valid()
      ensures P.Valid(old(View()), [P.StartAgent(job), P.EndAgent(job, ok)], maxAttempts)
      ensures View() == P.Exec(old(View()), [P.StartAgent(job), P.EndAgent(job, ok)], maxAttempts)
      ensures jobs == old(jobs) && tasks == old(tasks) && phases == old(phases)
      ensures run == |old(runs)| && |runs| == run + 1 && runs[..run] == old(runs)
      ensures runs[run] == P.AgentRun(jobs[job].task, job, if ok then P.RunSucceeded else P.RunFailed)
    {
      ghost var start := View();
      ghost var inside := P.Apply(start, P.StartAgent(job), maxAttempts);
      P.StepKeepsInvariant(start, P.StartAgent(job), maxAttempts);
      P.StepKeepsInvariant(inside, P.EndAgent(job, ok), maxAttempts);
      P.TwoSteps(start, P.StartAgent(job), P.EndAgent(job, ok), maxAttempts);
      run := |runs|;
      runs := runs + [P.AgentRun(jobs[job].task, job, P.Started)];
      phases := phases[job := P.InAgent(run)];
      assert View() == inside;
      if ok {
        runs := runs[run := runs[run].(status := P.RunSucceeded)];
      } else {
        runs := runs[run := runs[run].(status := P.RunFailed)];
      }
      phases := phases[job := P.Working];
      assert phases == start.phases;
    }

    /** `_apply_workflow_result` and `persist_security_findings` commit together;
        a taken finding key rolls both back and raises. */
    method CommitResult(job: Q.JobId, result: P.TaskStatus, findings: bool) returns (committed: bool)
      requires Valid() && P.Held(View(), job) && phases[job] == P.Working
      requires P.ResultAllowed(jobs[job].kind, result, findings)
      modifies this
      ensures Valid()
      ensures committed <==> P.KeysFree(old(tasks)[old(jobs)[job].task], findings)
      ensures committed ==> View() == P.Apply(old(View()), P.WriteResult(job, result, findings), maxAttempts)
      ensures !committed ==> View() == old(View())
    {
      var task := jobs[job].task;
      committed := !(findings && tasks[task].findingsStored);
      if committed {
        P.StepKeepsInvariant(View(), P.WriteResult(job, result, findings), maxAttempts);
        tasks := tasks[task := P.Task(result, tasks[task].findingsStored || findings)];
        phases := phases[job := P.Settled];
      }
    }

    method MarkTaskFailed(job: Q.JobId)
      requires Valid() && P.Enabled(View(), P.Fail(job))
      modifies this
      ensures Valid() && View() == P.Apply(old(View()), P.Fail(job), maxAttempts)
    {
      P.StepKeepsInvariant(View(), P.Fail(job), maxAttempts);
      var task := jobs[job].task;
      if tasks[task].status != P.TaskFailed {
        tasks := tasks[task := tasks[task].(status := P.TaskFailed)];
      } else {
        assert tasks[task := tasks[task].(status := P.TaskFailed)] == tasks;
      }
      phases := phases[job := P.Settled];
    }

    /** `trace` lists steps of this job's handler that lead from `start` to here, while
        the worker holds `job` and nothing but agent runs and statuses moved. */
    ghost predicate Follows(start: P.State, trace: seq<P.Event>, job: Q.JobId)
      reads this
    {
      && Valid()
      && P.Held(start, job) && P.Held(View(), job) && jobs == start.jobs && |tasks| == |start.tasks|
      && P.Valid(start, trace, maxAttempts) && View() == P.Exec(start, trace, maxAttempts)
      && HandlerSteps(trace, job)
    }

    /** The first writes of a handler. */
    method StartHandler(job: Q.JobId, script: Script) returns (ghost trace: seq<P.Event>)
      requires Valid() && P.Held(View(), job) && phases[job] == P.Claimed
      requires ScriptFor(jobs[job].kind, script)
      modifies this
      ensures Follows(old(View()), trace, job) && phases[job] == P.Working && runs == old(runs)
      ensures tasks[jobs[job].task].findingsStored == old(tasks)[jobs[job].task].findingsStored
    {
      ghost var start := View();
      var task := jobs[job].task;
      trace := [];
      if jobs[job].kind == Q.ResumeHumanReview {
        P.OneMore(start, trace, P.Begin(job, None), maxAttempts);
        MoreHandlerSteps(trace, [P.Begin(job, None)], job);
        trace := trace + [P.Begin(job, None)];
        WriteProgress(job, None);
        return;
      }
      for k := 0 to |script.progress|
        invariant Follows(start, trace, job) && runs == start.runs
        invariant phases[job] == if k == 0 then P.Claimed else P.Working
        invariant tasks[task].findingsStored == start.tasks[task].findingsStored
      {
        P.OneMore(start, trace, P.Begin(job, Some(script.progress[k])), maxAttempts);
        MoreHandlerSteps(trace, [P.Begin(job, Some(script.progress[k]))], job);
        trace := trace + [P.Begin(job, Some(script.progress[k]))];
        WriteProgress(job, Some(script.progress[k]));
      }
    }

    /** The agent calls of a handler, in order, up to the first one that raises. Each
        call made leaves one run of this job in the ledger, closed as the call went. */
    method CallAgents(job: Q.JobId, calls: seq<AgentCall>) returns (raised: bool, ghost trace: seq<P.Event>)
      requires Valid() && P.Held(View(), job) && phases[job] == P.Working
      modifies this
      ensures Follows(old(View()), trace, job) && phases[job] == P.Working && tasks == old(tasks)
      ensures raised <==> exists k :: 0 <= k < |calls| && Raises(calls[k])
      ensures runs == old(runs) + RunsOf(jobs[job].task, job, calls, CallsMade(calls))
    {
      hide P.Apply, P.Exec, P.Valid, P.Invariant, Q.Invariant, RunsOf, CallsMade;
      ghost var start := View();
      ghost var task := jobs[job].task;
      trace := [];
      P.NoSteps(start, maxAttempts);
      NoRuns(task, job, calls, runs);
      for k := 0 to |calls|
        invariant Follows(start, trace, job) && phases[job] == P.Working && tasks == start.tasks
        invariant forall l :: 0 <= l < k ==> !Raises(calls[l])
        invariant runs == start.runs + RunsOf(task, job, calls, k)
      {
        ghost var call := [P.StartAgent(job), P.EndAgent(job, calls[k].ok)];
        ghost var before := runs;
        var _ := ExecuteAgent(job, calls[k].ok);
        P.RunAppend(start, trace, call, maxAttempts);
        MoreHandlerSteps(trace, call, job);
        trace := trace + call;
        RunsOfOneMore(task, job, calls, k, before, runs);
        assert runs == start.runs + RunsOf(task, job, calls, k + 1);
        if !calls[k].ok && !calls[k].caught {
          CallsMadeUpTo(calls, k);
          return true, trace;
        }
      }
      CallsMadeUpTo(calls, |calls|);
      raised := false;
    }

    /** Handler of one claimed job. `trace` lists the protocol steps it took. */
    method RunHandler(job: Q.JobId, script: Script) returns (raised: bool, ghost trace: seq<P.Event>)
      requires Valid() && P.Held(View(), job) && phases[job] == P.Claimed
      requires ScriptFor(jobs[job].kind, script)
      modifies this
      ensures Follows(old(View()), trace, job)
      ensures raised <==> !Succeeds(script, old(tasks)[old(jobs)[job].task])
      ensures runs == old(runs) + RunsOf(old(jobs)[job].task, job, script.calls, CallsMade(script.calls))
      ensures if raised then phases[job] == P.Working
              else phases[job] == P.Settled && tasks[jobs[job].task].status == script.result
    {
      hide P.Exec, P.Valid, P.Invariant, HandlerSteps, RunsOf, CallsMade;
      ghost var start := View();
      ghost var more;
      trace := StartHandler(job, script);
      raised, more := CallAgents(job, script.calls);
      P.RunAppend(start, trace, more, maxAttempts);
      MoreHandlerSteps(trace, more, job);
      trace := trace + more;
      if raised || script.raises {
        return true, trace;
      }
      ghost var write := P.WriteResult(job, script.result, script.findings);
      ghost var ready := View();
      var committed := CommitResult(job, script.result, script.findings);
      if committed {
        assert P.Enabled(ready, write);
        P.OneMore(start, trace, write, maxAttempts);
        OneHandlerStep(write, job);
        MoreHandlerSteps(trace, [write], job);
        trace := trace + [write];
      }
      raised := !committed;
    }

    /** `_run_job` when the worker survives: a run of protocol steps after which the
        job is closed, its task has an outcome or waits for a human, and no agent
        run of this job is open. It succeeds exactly when the handler does. */
    method RunJob(job: Q.JobId, script: Script, now: Q.Time) returns (outcome: Q.JobStatus, ghost trace: seq<P.Event>)
      requires Valid() && P.Held(View(), job) && phases[job] == P.Claimed
      requires ScriptFor(jobs[job].kind, script)
      modifies this
      ensures Valid()
      ensures P.Valid(old(View()), trace, maxAttempts) && View() == P.Exec(old(View()), trace, maxAttempts)
      ensures |jobs| == |old(jobs)| && jobs[job].status == outcome && jobs[job].task == old(jobs)[job].task < |tasks|
      ensures jobs[job].kind == old(jobs)[job].kind
      ensures outcome == if Succeeds(script, old(tasks)[old(jobs)[job].task]) then Q.Succeeded else Q.Failed
      ensures jobs[job].finished == Some(now)
      ensures jobs[job].lastError == if outcome == Q.Failed then Some("handler") else None
      ensures tasks[jobs[job].task].status == if outcome == Q.Succeeded then script.result else P.TaskFailed
      ensures outcome == Q.Succeeded ==>
        EndStatus(jobs[job].kind, tasks[jobs[job].task].status)
      ensures forall k :: 0 <= k < |runs| && runs[k].job == job ==> runs[k].status != P.Started
      ensures runs == old(runs) + RunsOf(old(jobs)[job].task, job, script.calls, CallsMade(script.calls))
    {
      hide P.Exec, P.Valid, P.Invariant, HandlerSteps, RunsOf, CallsMade, ScriptFor, EndStatus;
      ScriptEnds(jobs[job].kind, script);
      ghost var start := View();
      var raised;
      raised, trace := RunHandler(job, script);
      var error := None;
      if raised {
        P.OneMore(start, trace, P.Fail(job), maxAttempts);
        trace := trace + [P.Fail(job)];
        MarkTaskFailed(job);
        error := Some("handler");
      }
      outcome := if raised then Q.Failed else Q.Succeeded;
      ghost var close := P.Finish(job, outcome, error, now);
      P.OneMore(start, trace, close, maxAttempts);
      P.StepKeepsInvariant(View(), close, maxAttempts);
      trace := trace + [close];
      FinishJob(job, outcome, error, now);
      NoRunLeftOpen(View(), job, maxAttempts);
    }

    /** The ledger ends with the calls of this job's handler, and the task has what a
        handler with this outcome leaves. */
    predicate Handled(job: Q.JobId, script: Script)
      requires job < |jobs|
      reads this
    {
      var task, n := jobs[job].task, CallsMade(script.calls);
      && task < |tasks|
      && tasks[task].status == (if jobs[job].status == Q.Succeeded then script.result else P.TaskFailed)
      && n <= |runs| && runs[|runs| - n..] == RunsOf(task, job, script.calls, n)
    }

    /** One worker iteration: reap, claim the oldest job, run it. The trace begins with
        the reaps; then either nothing is queued, and that is reported, or this worker
        claims a job and closes it. */
    method RunOnce(worker: string, leaseSeconds: nat, scripts: map<Q.JobKind, Script>, now: Q.Time)
      returns (worked: bool, ghost trace: seq<P.Event>)
      requires Valid()
      requires forall kind :: kind in scripts && ScriptFor(kind, scripts[kind])
      modifies this
      ensures Valid()
      ensures P.Valid(old(View()), trace, maxAttempts) && View() == P.Exec(old(View()), trace, maxAttempts)
      ensures var reaps := Reaps(ExpiredJobs(old(jobs), now), now);
        && |reaps| <= |trace| && trace[..|reaps|] == reaps
        && (worked ==>
              && |trace| > |reaps|
              && var claim := trace[|reaps|];
                 && claim.Claim? && claim.worker == worker && claim.now == now && claim.leaseSeconds == leaseSeconds
                 && claim.job < |jobs| && !Q.Live(jobs[claim.job]) && jobs[claim.job].finished == Some(now)
                 && Handled(claim.job, scripts[jobs[claim.job].kind]))
        && (!worked ==> trace == reaps)
      ensures !worked ==> forall i :: 0 <= i < |jobs| ==> jobs[i].status != Q.Queued && !Q.Expired(jobs[i], now)
    {
      hide P.Exec, P.Valid, HandlerSteps, RunsOf, CallsMade, AfterReaper;
      ghost var start := View();
      ghost var reaps := Reaps(ExpiredJobs(jobs, now), now);
      var reaped;
      reaped, trace := ReapExpiredJobs(now);
      assert trace == reaps;
      var claimed := ClaimNextJob(worker, leaseSeconds, now);
      if claimed == None {
        return false, trace;
      }
      ghost var claim := P.Claim(claimed.value, worker, now, leaseSeconds);
      P.OneMore(start, trace, claim, maxAttempts);
      trace := trace + [claim];
      assert P.JobShape(View(), claimed.value);
      var _, handled := RunJob(claimed.value, scripts[jobs[claimed.value].kind], now);
      P.RunAppend(start, trace, handled, maxAttempts);
      assert (trace + handled)[..|reaps|] == reaps && (trace + handled)[|reaps|] == claim;
      trace := trace + handled;
      worked := true;
    }
  }
}
