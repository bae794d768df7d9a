/** The durable job queue of app/services/jobs.py: one row per job, and the
    transactions that change a row.

    A run is any sequence of transactions, in any interleaving of any number of
    workers, reapers and API callers. `Finish` may hit any row at any time: the
    code does not check who holds the lease, so a worker that lost its lease may
    still write its outcome. Everything proved here holds with such late
    finishes. */
module JobQueue {
  import opened Basics

  type Time = int
  type TaskId = nat
  type JobId = nat

  datatype JobKind = ExecuteTask | AnalyzeGithubIssue | ReviewPullRequest | ResumeHumanReview

  datatype JobStatus = Queued | Running | Succeeded | Failed

  datatype Job = Job(
    task: TaskId,
    kind: JobKind,
    status: JobStatus,
    attempts: int,
    lockedBy: Option<string>,
    lease: Option<Time>,
    lastError: Option<string>,
    created: Time,
    started: Option<Time>,
    finished: Option<Time>)

  const LEASE_EXPIRED := "LeaseExpired"
  const MAX_ERROR_LENGTH := 120

  predicate Live(job: Job) {
    job.status == Queued || job.status == Running
  }

  // ---------------------------------------------------------------- rows

  function NewJob(task: TaskId, kind: JobKind, now: Time): Job {
    Job(task, kind, Queued, 0, None, None, None, now, None, None)
  }

  function ClaimedJob(job: Job, worker: string, now: Time, leaseSeconds: nat): Job {
    job.(status := Running, attempts := job.attempts + 1, lockedBy := Some(worker),
         started := Some(now), lease := Some(now + leaseSeconds))
  }

  predicate HeldBy(job: Job, worker: string) {
    job.status == Running && job.lockedBy == Some(worker)
  }

  function RenewedJob(job: Job, worker: string, now: Time, leaseSeconds: nat): Job {
    if HeldBy(job, worker) then job.(lease := Some(now + leaseSeconds)) else job
  }

  function ErrorText(error: Option<string>): Option<string> {
    match error
    case None => None
    case Some(text) =>
      if text == "" then None
      else if |text| > MAX_ERROR_LENGTH then Some(text[..MAX_ERROR_LENGTH])
      else Some(text)
  }

  function FinishedJob(job: Job, status: JobStatus, error: Option<string>, now: Time): Job {
    job.(status := status, finished := Some(now), lease := None, lastError := ErrorText(error))
  }

  predicate Expired(job: Job, now: Time) {
    job.status == Running && job.lease.Some? && job.lease.value < now
  }

  predicate Recoverable(job: Job, maxAttempts: int) {
    job.attempts < maxAttempts
  }

  function ReapedJob(job: Job, now: Time, maxAttempts: int): Job {
    var row := job.(lease := None, lastError := Some(LEASE_EXPIRED));
    if Recoverable(job, maxAttempts) then row.(status := Queued)
    else row.(status := Failed, finished := Some(now))
  }

  // -------------------------------------------------------- transactions

  datatype Event =
    | Enqueue(task: TaskId, kind: JobKind, now: Time)
    | Claim(job: JobId, worker: string, now: Time, leaseSeconds: nat)
    | Renew(job: JobId, worker: string, now: Time, leaseSeconds: nat)
    | Finish(job: JobId, outcome: JobStatus, error: Option<string>, now: Time)
    | Reap(job: JobId, now: Time)

  predicate Enabled(jobs: seq<Job>, e: Event) {
    match e
    case Enqueue(_, _, _) => true
    case Claim(i, _, _, _) => i < |jobs| && jobs[i].status == Queued
    case Renew(i, _, _, _) => i < |jobs|
    case Finish(i, outcome, _, _) => i < |jobs| && (outcome == Succeeded || outcome == Failed)
    case Reap(i, now) => i < |jobs| && Expired(jobs[i], now)
  }

  function Apply(jobs: seq<Job>, e: Event, maxAttempts: int): seq<Job>
    requires Enabled(jobs, e)
  {
    match e
    case Enqueue(task, kind, now) => jobs + [NewJob(task, kind, now)]
    case Claim(i, worker, now, leaseSeconds) => jobs[i := ClaimedJob(jobs[i], worker, now, leaseSeconds)]
    case Renew(i, worker, now, leaseSeconds) => jobs[i := RenewedJob(jobs[i], worker, now, leaseSeconds)]
    case Finish(i, outcome, error, now) => jobs[i := FinishedJob(jobs[i], outcome, error, now)]
    case Reap(i, now) => jobs[i := ReapedJob(jobs[i], now, maxAttempts)]
  }

  predicate Valid(jobs: seq<Job>, run: seq<Event>, maxAttempts: int)
    decreases |run|
  {
    run == [] ||
    (Enabled(jobs, run[0]) && Valid(Apply(jobs, run[0], maxAttempts), run[1..], maxAttempts))
  }

  function Exec(jobs: seq<Job>, run: seq<Event>, maxAttempts: int): seq<Job>
    requires Valid(jobs, run, maxAttempts)
    decreases |run|
  {
    if run == [] then jobs else Exec(Apply(jobs, run[0], maxAttempts), run[1..], maxAttempts)
  }

  function Claims(run: seq<Event>): nat {
    if run == [] then 0 else (if run[0].Claim? then 1 else 0) + Claims(run[1..])
  }

  function Enqueues(run: seq<Event>): nat {
    if run == [] then 0 else (if run[0].Enqueue? then 1 else 0) + Enqueues(run[1..])
  }

  // ------------------------------------------------------- attempt bound

  predicate RowInvariant(job: Job, maxAttempts: int) {
    && 0 <= job.attempts <= maxAttempts
    && (job.status == Queued ==> job.attempts < maxAttempts)
    && (job.status == Running ==> 1 <= job.attempts && job.lease.Some?)
    && (job.status != Running ==> job.lease == None)
  }

  predicate Invariant(jobs: seq<Job>, maxAttempts: int) {
    forall i :: 0 <= i < |jobs| ==> RowInvariant(jobs[i], maxAttempts)
  }

  /** No interleaving, late finishes included, hands a job out more often than
      `maxAttempts`: a queued job can still be claimed, a running one holds a
      lease. */
  lemma {:induction false} AttemptBound(jobs: seq<Job>, run: seq<Event>, maxAttempts: int)
    requires maxAttempts >= 1
    requires Invariant(jobs, maxAttempts)
    requires Valid(jobs, run, maxAttempts)
    ensures Invariant(Exec(jobs, run, maxAttempts), maxAttempts)
    decreases |run|
  {
    if run != [] {
      AttemptBound(Apply(jobs, run[0], maxAttempts), run[1..], maxAttempts);
    }
  }

  /** A finished job stays finished and is never claimed, renewed or reaped into
      life again. */
  lemma {:induction false} FinishedForGood(jobs: seq<Job>, run: seq<Event>, maxAttempts: int, i: JobId)
    requires Valid(jobs, run, maxAttempts)
    requires i < |jobs| && !Live(jobs[i])
    ensures i < |Exec(jobs, run, maxAttempts)| && !Live(Exec(jobs, run, maxAttempts)[i])
    ensures Exec(jobs, run, maxAttempts)[i].attempts == jobs[i].attempts
    ensures forall k :: 0 <= k < |run| && run[k].Claim? ==> run[k].job != i
    decreases |run|
  {
    if run != [] {
      FinishedForGood(Apply(jobs, run[0], maxAttempts), run[1..], maxAttempts, i);
      forall k | 0 <= k < |run| && run[k].Claim?
        ensures run[k].job != i
      {
        if k > 0 {
          assert run[k] == run[1..][k - 1];
        }
      }
    }
  }

  function Attempts(): Job -> int {
    (job: Job) => job.attempts
  }

  /** Every claim is counted in exactly one row, so attempts are conserved. */
  lemma {:induction false} ClaimsAreAttempts(jobs: seq<Job>, run: seq<Event>, maxAttempts: int)
    requires Valid(jobs, run, maxAttempts)
    ensures |Exec(jobs, run, maxAttempts)| == |jobs| + Enqueues(run)
    ensures Sum(Exec(jobs, run, maxAttempts), Attempts()) == Sum(jobs, Attempts()) + Claims(run)
    decreases |run|
  {
    if run != [] {
      var next := Apply(jobs, run[0], maxAttempts);
      if run[0].Enqueue? {
        var row := NewJob(run[0].task, run[0].kind, run[0].now);
        SumAppend(jobs, [row], Attempts());
        SumSingle(row, Attempts());
      } else {
        SumUpdate(jobs, run[0].job, next[run[0].job], Attempts());
      }
      ClaimsAreAttempts(next, run[1..], maxAttempts);
    }
  }

  /** From an empty queue, claims never exceed `maxAttempts` per job enqueued. */
  lemma TotalClaimsBounded(run: seq<Event>, maxAttempts: int)
    requires maxAttempts >= 1
    requires Valid([], run, maxAttempts)
    ensures Claims(run) <= maxAttempts * Enqueues(run)
  {
    AttemptBound([], run, maxAttempts);
    ClaimsAreAttempts([], run, maxAttempts);
    var end := Exec([], run, maxAttempts);
    SumBounds(end, Attempts(), 0, maxAttempts);
  }

  // ----------------------------------------------------------- leases

  /** The deadline this transaction gives to job i, if it gives one: a claim by anybody,
      or a renewal by the worker that holds the job. */
  function DeadlineGiven(jobs: seq<Job>, e: Event, i: JobId): Option<Time> {
    match e
    case Claim(j, _, now, leaseSeconds) => if j == i then Some(now + leaseSeconds) else None
    case Renew(j, worker, now, leaseSeconds) =>
      if j == i < |jobs| && jobs[i].status == Running && jobs[i].lockedBy == Some(worker) then Some(now + leaseSeconds)
      else None
    case _ => None
  }

  /** The deadline given last in a run; `before` stands for the one given before it. */
  function LastDeadline(jobs: seq<Job>, run: seq<Event>, maxAttempts: int, i: JobId, before: Option<Time>): Option<Time>
    requires Valid(jobs, run, maxAttempts)
    decreases |run|
  {
    if run == [] then before
    else
      var given := DeadlineGiven(jobs, run[0], i);
      LastDeadline(Apply(jobs, run[0], maxAttempts), run[1..], maxAttempts, i, if given.Some? then given else before)
  }

  lemma {:induction false} LeaseIsLastDeadline(jobs: seq<Job>, run: seq<Event>, maxAttempts: int, i: JobId,
                                               before: Option<Time>)
    requires Valid(jobs, run, maxAttempts)
    requires i < |jobs| && jobs[i].status == Running ==> before.Some? && jobs[i].lease == before
    ensures var end, last := Exec(jobs, run, maxAttempts), LastDeadline(jobs, run, maxAttempts, i, before);
            i < |end| && end[i].status == Running ==> last.Some? && end[i].lease == last
    decreases |run|
  {
    if run != [] {
      var given := DeadlineGiven(jobs, run[0], i);
      LeaseIsLastDeadline(Apply(jobs, run[0], maxAttempts), run[1..], maxAttempts, i,
                          if given.Some? then given else before);
    }
  }

  /** A lease protects its holder. After any run from the empty table, late finishes
      included, a reaper can take a job if and only if it is running and the deadline
      given last, by its claim or by the holder's latest renewal, has passed. */
  lemma ReapedExactlyAfterDeadline(run: seq<Event>, maxAttempts: int, i: JobId, now: Time)
    requires Valid([], run, maxAttempts)
    ensures var end, last := Exec([], run, maxAttempts), LastDeadline([], run, maxAttempts, i, None);
            Enabled(end, Reap(i, now)) <==> i < |end| && end[i].status == Running && last.Some? && last.value < now
  {
    LeaseIsLastDeadline([], run, maxAttempts, i, None);
  }

  // -------------------------------------------------- draining the queue

  /** What a job can still cost the system: two units for each attempt left and
      one for waiting in the queue. */
  function Rank(maxAttempts: int): Job -> int {
    (job: Job) =>
      if job.status == Queued then 2 * (maxAttempts - job.attempts) + 1
      else if job.status == Running then 2 * (maxAttempts - job.attempts) + 2
      else 0
  }

  function QueueRank(jobs: seq<Job>, maxAttempts: int): int {
    Sum(jobs, Rank(maxAttempts))
  }

  /** Claims, reaps and first finishes: the transactions that move work along. */
  predicate Productive(jobs: seq<Job>, e: Event) {
    e.Claim? || e.Reap? || (e.Finish? && e.job < |jobs| && Live(jobs[e.job]))
  }

  function ProductiveSteps(jobs: seq<Job>, run: seq<Event>, maxAttempts: int): nat
    requires Valid(jobs, run, maxAttempts)
    decreases |run|
  {
    if run == [] then 0
    else (if Productive(jobs, run[0]) then 1 else 0)
         + ProductiveSteps(Apply(jobs, run[0], maxAttempts), run[1..], maxAttempts)
  }

  lemma StepKeepsInvariant(jobs: seq<Job>, e: Event, maxAttempts: int)
    requires maxAttempts >= 1
    requires Invariant(jobs, maxAttempts)
    requires Enabled(jobs, e)
    ensures Invariant(Apply(jobs, e, maxAttempts), maxAttempts)
  {
  }

  lemma RankStep(jobs: seq<Job>, e: Event, maxAttempts: int)
    requires Invariant(jobs, maxAttempts)
    requires Enabled(jobs, e)
    ensures QueueRank(Apply(jobs, e, maxAttempts), maxAttempts) + (if Productive(jobs, e) then 1 else 0)
         <= QueueRank(jobs, maxAttempts) + (if e.Enqueue? then 2 * maxAttempts + 1 else 0)
    ensures e.Enqueue? ==>
      QueueRank(Apply(jobs, e, maxAttempts), maxAttempts) == QueueRank(jobs, maxAttempts) + 2 * maxAttempts + 1
  {
    var next := Apply(jobs, e, maxAttempts);
    if e.Enqueue? {
      var row := NewJob(e.task, e.kind, e.now);
      SumAppend(jobs, [row], Rank(maxAttempts));
      SumSingle(row, Rank(maxAttempts));
    } else {
      SumUpdate(jobs, e.job, next[e.job], Rank(maxAttempts));
    }
  }

  lemma RankIsNatural(jobs: seq<Job>, maxAttempts: int)
    requires Invariant(jobs, maxAttempts)
    ensures 0 <= QueueRank(jobs, maxAttempts)
  {
    SumBounds(jobs, Rank(maxAttempts), 0, 2 * maxAttempts + 2);
  }

  /** Rank that the jobs enqueued in a run bring along. */
  function Brought(run: seq<Event>, maxAttempts: int): int {
    (2 * maxAttempts + 1) * Enqueues(run)
  }

  lemma BroughtStep(run: seq<Event>, maxAttempts: int)
    requires run != []
    ensures Brought(run, maxAttempts) ==
      Brought(run[1..], maxAttempts) + (if run[0].Enqueue? then 2 * maxAttempts + 1 else 0)
  {
    if run[0].Enqueue? {
      OneMoreTime(2 * maxAttempts + 1, Enqueues(run[1..]));
    }
  }

  /** Termination: each productive transaction uses up rank, renewals and repeated
      finishes use none, and a new job brings exactly 2 * maxAttempts + 1. */
  lemma {:induction false} DrainingMeasure(jobs: seq<Job>, run: seq<Event>, maxAttempts: int)
    requires maxAttempts >= 1
    requires Invariant(jobs, maxAttempts)
    requires Valid(jobs, run, maxAttempts)
    ensures 0 <= QueueRank(Exec(jobs, run, maxAttempts), maxAttempts)
    ensures ProductiveSteps(jobs, run, maxAttempts) + QueueRank(Exec(jobs, run, maxAttempts), maxAttempts)
         <= QueueRank(jobs, maxAttempts) + Brought(run, maxAttempts)
    decreases |run|
  {
    hide QueueRank, Invariant, Enabled, Apply, Productive;
    if run == [] {
      RankIsNatural(jobs, maxAttempts);
    } else {
      hide Brought;
      RankStep(jobs, run[0], maxAttempts);
      StepKeepsInvariant(jobs, run[0], maxAttempts);
      DrainingMeasure(Apply(jobs, run[0], maxAttempts), run[1..], maxAttempts);
      BroughtStep(run, maxAttempts);
    }
  }

  lemma {:induction false} LaterThanLeases(jobs: seq<Job>) returns (now: Time)
    ensures forall i :: 0 <= i < |jobs| && jobs[i].lease.Some? ==> jobs[i].lease.value < now
  {
    if jobs == [] {
      now := 0;
    } else {
      var rest := LaterThanLeases(jobs[1..]);
      var first := jobs[0].lease;
      now := if first.Some? && first.value >= rest then first.value + 1 else rest;
      forall i | 0 <= i < |jobs| && jobs[i].lease.Some?
        ensures jobs[i].lease.value < now
      {
        if i > 0 {
          assert jobs[i] == jobs[1..][i - 1];
        }
      }
    }
  }

  /** No live job is ever wedged: from every state the reapers and one worker can
      empty the queue, within the measure, even if every worker dies on every
      job. */
  lemma {:induction false} CanAlwaysDrain(jobs: seq<Job>, maxAttempts: int, worker: string)
    returns (run: seq<Event>)
    requires maxAttempts >= 1
    requires Invariant(jobs, maxAttempts)
    ensures Valid(jobs, run, maxAttempts)
    ensures forall k :: 0 <= k < |run| ==> run[k].Claim? || run[k].Reap?
    ensures forall i :: 0 <= i < |Exec(jobs, run, maxAttempts)| ==> !Live(Exec(jobs, run, maxAttempts)[i])
    ensures |run| <= QueueRank(jobs, maxAttempts)
    decreases QueueRank(jobs, maxAttempts)
  {
    RankIsNatural(jobs, maxAttempts);
    if exists i :: 0 <= i < |jobs| && Live(jobs[i]) {
      var i :| 0 <= i < |jobs| && Live(jobs[i]);
      var now := LaterThanLeases(jobs);
      var e := if jobs[i].status == Queued then Claim(i, worker, now, 0) else Reap(i, now);
      var next := Apply(jobs, e, maxAttempts);
      RankStep(jobs, e, maxAttempts);
      StepKeepsInvariant(jobs, e, maxAttempts);
      RankIsNatural(next, maxAttempts);
      var rest := CanAlwaysDrain(next, maxAttempts, worker);
      run := [e] + rest;
      assert run[1..] == rest;
    } else {
      run := [];
    }
  }

  // -------------------------------------------------- bounded overtaking

  predicate OldestQueued(jobs: seq<Job>, i: JobId) {
    && i < |jobs| && jobs[i].status == Queued
    && forall k :: 0 <= k < |jobs| && jobs[k].status == Queued ==> jobs[i].created <= jobs[k].created
  }

  /** Claims are atomic and take an oldest queued job; later jobs carry later
      stamps than every job already in the table. */
  predicate FairStep(jobs: seq<Job>, e: Event) {
    && (e.Claim? ==> OldestQueued(jobs, e.job))
    && (e.Enqueue? ==> forall k :: 0 <= k < |jobs| ==> jobs[k].created < e.now)
  }

  predicate Fair(jobs: seq<Job>, run: seq<Event>, maxAttempts: int)
    requires Valid(jobs, run, maxAttempts)
    decreases |run|
  {
    run == [] ||
    (FairStep(jobs, run[0]) && Fair(Apply(jobs, run[0], maxAttempts), run[1..], maxAttempts))
  }

  predicate WaitsThroughout(jobs: seq<Job>, run: seq<Event>, maxAttempts: int, i: JobId)
    requires Valid(jobs, run, maxAttempts)
    decreases |run|
  {
    && i < |jobs| && jobs[i].status == Queued
    && (run == [] || WaitsThroughout(Apply(jobs, run[0], maxAttempts), run[1..], maxAttempts, i))
  }

  /** Claims a job may still take ahead of one created at `created`. */
  function Budget(maxAttempts: int, created: Time): Job -> int {
    (job: Job) => if Live(job) && job.created <= created then maxAttempts - job.attempts else 0
  }

  function Others(jobs: seq<Job>, i: JobId): seq<Job>
    requires i < |jobs|
  {
    jobs[..i] + jobs[i + 1..]
  }

  /** A requeued job keeps its creation stamp and so goes ahead of younger ones,
      but only as often as its attempts allow: while job i waits, the claims made
      number at most the attempts left to the other live jobs not younger than
      it. */
  lemma BoundedOvertaking(jobs: seq<Job>, run: seq<Event>, maxAttempts: int, i: JobId)
    requires maxAttempts >= 1
    requires Invariant(jobs, maxAttempts)
    requires Valid(jobs, run, maxAttempts)
    requires Fair(jobs, run, maxAttempts)
    requires WaitsThroughout(jobs, run, maxAttempts, i)
    ensures Claims(run) <= Sum(Others(jobs, i), Budget(maxAttempts, jobs[i].created))
  {
    var f := Budget(maxAttempts, jobs[i].created);
    var end := Exec(jobs, run, maxAttempts);
    OvertakingPotential(jobs, run, maxAttempts, i);
    AttemptBound(jobs, run, maxAttempts);
    SumSplit(jobs, i, f);
    SumSplit(end, i, f);
    forall x | x in Others(end, i)
      ensures 0 <= f(x) <= maxAttempts
    {
      var k :| 0 <= k < |Others(end, i)| && Others(end, i)[k] == x;
      assert x == end[if k < i then k else k + 1];
    }
    SumBounds(Others(end, i), f, 0, maxAttempts);
  }

  lemma {:induction false} OvertakingPotential(jobs: seq<Job>, run: seq<Event>, maxAttempts: int, i: JobId)
    requires Invariant(jobs, maxAttempts)
    requires Valid(jobs, run, maxAttempts)
    requires Fair(jobs, run, maxAttempts)
    requires WaitsThroughout(jobs, run, maxAttempts, i)
    requires maxAttempts >= 1
    ensures i < |Exec(jobs, run, maxAttempts)|
    ensures var row := Exec(jobs, run, maxAttempts)[i];
            row.status == Queued && row.attempts == jobs[i].attempts && row.created == jobs[i].created
    ensures Claims(run) + Sum(Exec(jobs, run, maxAttempts), Budget(maxAttempts, jobs[i].created))
         <= Sum(jobs, Budget(maxAttempts, jobs[i].created))
    decreases |run|
  {
    if run != [] {
      var f := Budget(maxAttempts, jobs[i].created);
      var next := Apply(jobs, run[0], maxAttempts);
      if run[0].Enqueue? {
        var row := NewJob(run[0].task, run[0].kind, run[0].now);
        SumAppend(jobs, [row], f);
        SumSingle(row, f);
      } else {
        SumUpdate(jobs, run[0].job, next[run[0].job], f);
      }
      assert next[i].status == Queued;
      assert next[i].attempts == jobs[i].attempts && next[i].created == jobs[i].created;
      OvertakingPotential(next, run[1..], maxAttempts, i);
    }
  }
}
