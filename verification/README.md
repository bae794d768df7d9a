# A verified model of the task engine

The repository is a service that takes engineering tasks through a gated workflow of
agents. This project models the parts of it where correctness is a matter of protocol
and arithmetic, and proves what they promise, for all inputs, runs and interleavings.

- **Job queue and workers.** `JobQueue` is the table of leased jobs under any
  interleaving of workers, reapers and API callers, late finishes included. `Protocol`
  adds tasks, agent runs and reviewers. `JobStore` models the functions that write those
  rows, as a class whose methods change them in place; each method is proved to take
  exactly protocol steps.
- **Workflow.** `Artifacts`, `Policies` and `Workflow` are the graph: nodes, gates,
  routes, checkpoints, and `invoke_workflow`. `Recovery` proves that crashes do not show,
  `GateSafety` what holds whenever code is generated, `Rework` how runs end, and
  `TaskService` what the task row and the audit trail say afterwards. `Settlement` closes
  the gap to `Protocol`: what workflows end with is what the protocol lets jobs commit.
  `Overlap` lets an execute job and a resume job drive one thread at the same time, and
  `Progress` says what every node does and what follows it without naming the graph, and
  that good work gets done.
- **Issue intake.** `IssueIntake` is the crash-restart logic ahead of the graph, with an
  agent that may answer differently each time, joined to the recovery theorem.
- **Budgets and scores.** `ContextPacking`, `PatchBudget` and `JudgeScoring` relate loops
  to closed forms.
- **Pull request review and workspace.** `PullRequestReview` proves the safeguards for
  any model answer; `Workspace` that the writer and the validator of files agree.

Conventions: a committed transaction is one atomic step; a worker's crash is the absence
of further steps; agents of the workflow graph are arbitrary functions of the artifacts
they are given (they may raise); clocks, worker names and agent answers are parameters.

## What the proofs say about the code

- *COMPLETED is not final.* docs/ADR-017-JOB-RECOVERY.md:73-76 says that a worker's death
  after the graph finished leaves the task status unaffected. The code disagrees in two
  cases. If the result stored findings, recovery inserts the same primary keys again, the
  handler raises, and the completed task becomes FAILED
  (`Protocol.DeathInTailFailsCompletedTask`). If the job has used its last attempt, the
  reaper sets the task FAILED (app/services/jobs.py:198-203). The model follows the code,
  and `Protocol.TailDeathHarmlessIff` has the exact condition: when nothing else goes
  wrong, the committed result survives such a death if and only if the job has an attempt
  left and the result carries no findings, or the result was FAILED to begin with.
- *One reviewer wins per task* under `rework.automatic: true` (policies/execution.yaml:14-16).
  That a recovered worker cannot publish a second review request rests on the same key
  collision: a pause always comes with a finding (`Rework.PauseHasFinding`), and a resumed
  run does not pause again (`Rework.ResumeNeverPauses`).
- *Fail-stop is needed.* `finish_job` does not ask who holds the lease. The attempt bound
  and the draining measure hold all the same; that every unfinished task has somebody
  responsible does not (`Protocol.LateFinishStrandsTask`, and
  `Protocol.LateFinishHarmlessIff` for the exact condition), so `Protocol` assumes that a
  worker whose lease was reaped takes no further step on that job.
- *More tokens can lose a context bundle.* An empty source is an error only once the budget
  reaches it: two tokens can build a bundle where three do not
  (`ContextPacking.MoreBudgetCanFail`; `ContextPacking.LargerBudgetBuildsIff` has the exact
  condition).
- *A model's BLOCK can be overruled.* Pull request post-processing keeps it exactly when
  content was redacted or no other safeguard applies (`PullRequestReview.SafeguardsDecide`).

## Model

| member | source | states |
|---|---|---|
| JobQueue.AttemptBound | app/services/jobs.py:92-206 | In every interleaving, late finishes included: a queued job has attempts left, a running one has between 1 and the maximum and holds a lease, any other holds none |
| JobQueue.FinishedForGood | app/services/jobs.py:92-206 | A finished job is never claimed again and its attempts never change, whatever transactions follow |
| JobQueue.ClaimsAreAttempts | app/services/jobs.py:105-116 | Conservation: attempts over all rows grow by exactly the number of claims, rows by the number of enqueues |
| JobQueue.TotalClaimsBounded | app/services/jobs.py:92-206 | From the empty table, claims never exceed the maximum of attempts times the jobs enqueued |
| JobQueue.LeaseIsLastDeadline | app/services/jobs.py:92-135 | In every run a running job's lease is the deadline given last, by its claim or by an effective renewal |
| JobQueue.ReapedExactlyAfterDeadline | app/services/jobs.py:167-206 | After any run from the empty table, late finishes included, a job can be reaped if and only if it is running and the deadline given last has passed |
| JobQueue.RankStep | app/services/jobs.py:92-206 | Every claim, reap or first finish uses up rank; an enqueue adds exactly twice the maximum plus one; nothing else adds any |
| JobQueue.DrainingMeasure | app/services/jobs.py:92-206 | Over any run, the steps that move work along plus the rank left never exceed the rank at the start plus what enqueues brought: the queue drains |
| JobQueue.CanAlwaysDrain | app/services/jobs.py:92-206 | From every state a run of claims and reaps alone, no longer than the rank, finishes every job, even if every worker dies on every job |
| JobQueue.BoundedOvertaking | app/services/jobs.py:92-206 | While a job waits, claims made ahead of it number at most the attempts left to the other live jobs not younger than it; a requeue keeps the creation stamp |
| JobQueue.OvertakingPotential | app/services/jobs.py:92-206 | The potential behind the bound: claims made plus the attempts still left to older live jobs never grow |
| Protocol.RefinesQueue | app/services/jobs.py:92-206 | Every protocol run, projected to its job rows, is a run of the bare queue, so everything proved of the queue applies |
| Protocol.SafetyOverRuns | app/worker.py:100-199 | From the empty database, in every reachable state of any number of workers, reapers, reviewers and callers: well-shaped rows, a truthful ledger, somebody responsible for every unfinished task, one review request, and the attempt bound |
| Protocol.StepKeepsLedger | app/services/audit.py:32-114 | Every STARTED agent run belongs to a running job whose worker is inside that very call; completion, failure and reaping keep this |
| Protocol.StepKeepsAttended | app/worker.py:100-180 | Every step keeps: a task that is neither terminal nor awaiting review has a queued or running job responsible for it, overlapping execute and resume jobs included |
| Protocol.StepKeepsOneRequest | app/services/tasks.py:331-388 | Every step keeps: won decisions plus a pending review number at most one per task, and only once its findings are stored |
| Protocol.EmptyQueueMeansSettled | app/worker.py:100-199 | When no job is queued or running, every task is terminal or awaits review and no agent run is open |
| Protocol.CanAlwaysSettle | app/services/jobs.py:167-206 | From every safe state claims and reaps alone bring every task to an outcome or a pending review, within the queue rank |
| Protocol.SingleWinner | app/services/tasks.py:331-388 | For any number of reviewers interleaved with anything else, decisions passed equal resume jobs and are at most one per task; afterwards no decision can pass |
| Protocol.StoredFindingsBlockResults | app/services/security.py:10-34 | Once findings of a task are stored, no later attempt of any of its jobs can commit a result that carries findings |
| Protocol.DeathInTailFailsCompletedTask | app/services/tasks.py:178-328 | A concrete run: a death between the commit of a COMPLETED result and the closing of its job, then recovery, ends FAILED |
| Protocol.RecoveredHandler | app/services/tasks.py:143-240 | With an attempt left, the recovered handler can commit its result again exactly when it carries no findings, and the task is then as before the death; with findings the commit is refused and the task fails |
| Protocol.TailDeathHarmlessIff | app/services/tasks.py:143-240 | After a death that follows the commit of any result, then the reaper and, with an attempt left, one undisturbed recovery: the task is as committed if and only if an attempt was left and the result carried no findings, or the result was FAILED anyway; otherwise it ends FAILED |
| Protocol.LateFinishStrandsTask | app/services/jobs.py:138-148 | A concrete run: a worker that lost its lease commits its result, a second worker begins over it, and the first then closes the job; every state is attended up to that close, after which a task in ANALYZING has no responsible job and no reaper can reach it |
| Protocol.LateFinishHarmlessIff | app/services/jobs.py:138-148 | A late finish leaves every task attended if and only if the task it hits is at rest or has another job responsible for it |
| JobStore.Tables.Accept | app/services/tasks.py:113-140 | Task and job appear together, at fresh positions, queued with no attempts; exactly the protocol step |
| JobStore.Tables.ClaimNextJob | app/services/jobs.py:92-116 | Nothing is claimed exactly when nothing is queued; otherwise a queued job with the least creation stamp becomes RUNNING under this worker, with one attempt more and the lease this claim asks for, and no other row changes |
| JobStore.Tables.RenewLease | app/services/jobs.py:119-135 | The lease moves to the new deadline exactly when the row is RUNNING and locked by this worker; otherwise nothing changes |
| JobStore.Tables.FinishJob | app/services/jobs.py:138-148 | On any row, whoever holds it: status, finish time, no lease, and the error cut to 120 characters or none; nothing else changes |
| JobStore.Tables.AbandonAgentRuns | app/services/jobs.py:154-164 | Every STARTED run of the task is abandoned, no other run changes, and the count returned is their number |
| JobStore.Tables.ReapJob | app/services/jobs.py:190-205 | One expired row is requeued below the maximum of attempts and otherwise failed with its task; STARTED runs of its task are abandoned; every other row, task and run is as it was |
| JobStore.Tables.ReapExpiredJobs | app/services/jobs.py:167-206 | In terms of the columns: a row changes if and only if it was RUNNING with its lease before now, to QUEUED or, with attempts used up, FAILED; a task fails if and only if such a used-up job is its own; exactly the STARTED runs of tasks with an expired job are abandoned |
| JobStore.Tables.ClaimHumanReview | app/services/tasks.py:331-388 | The compare-and-swap wins exactly when the request is pending and the task is in HUMAN_REVIEW; status and resume job change together, and a loser changes nothing |
| JobStore.Tables.ExecuteAgent | app/orchestration/lifecycle.py:35-93 | A call opens one run and closes that run, as succeeded or failed; nothing else changes |
| JobStore.Tables.CommitResult | app/services/tasks.py:205-241 | Result and findings commit together exactly when the finding keys are free; otherwise nothing changes |
| JobStore.Tables.MarkTaskFailed | app/worker.py:100-114 | The task of the job ends FAILED, as exactly the protocol step |
| JobStore.Tables.CallAgents | app/orchestration/lifecycle.py:35-93 | Agents are called in order up to the first call that raises; the ledger gains exactly one run of this job per call made, closed as that call went, and the handler raises exactly when a call fails at a node that does not swallow it |
| JobStore.Tables.RunHandler | app/worker.py:44-54 | A handler takes only protocol steps of its job, leaves one ledger entry per agent call made, and returns normally exactly when its calls succeed, nothing else raises and the finding keys are free |
| JobStore.Tables.RunJob | app/worker.py:132-180 | A surviving worker closes its job SUCCEEDED exactly when the handler succeeds, with the task in the handler's result, one that its kind of job can leave, or FAILED, one closed ledger entry per agent call made and no agent run of the job open |
| JobStore.Tables.RunOnce | app/worker.py:183-199 | First exactly the expired jobs are reaped, in order; then either nothing is queued, which is reported and nothing else done, or this worker claims a job, makes its handler's agent calls and closes it with the task status that goes with the outcome |
| Policies.UniqueIdentifiers | app/policies/engine.py:30-102 | The cardinality test of SPEC-002 holds exactly when there are requirements, all identified, no two alike |
| Policies.NoneOpen | app/policies/engine.py:16-27 | A severity count of zero means exactly that no OPEN finding has that severity |
| Workflow.NodesMakeProgress | app/orchestration/graph.py:614-820 | Every node moves down the graph without touching the rework budget, or is the validation gate sending work back and spending one unit: every run terminates |
| Workflow.NodesWriteTheirOwn | app/orchestration/graph.py:101-612 | Every artifact is written by its own node only, and every node but `requirements`, which starts the log afresh, keeps the evidence recorded so far |
| Workflow.DriveFollowsTheGraph | app/orchestration/graph.py:707-820 | A call visits the nodes of one path: each completed node ran once, from the state its predecessor stored, and handed on along its route; the last one raised, interrupted or died with its starting checkpoint still stored; a call with a budget dies exactly when it is used up, and one without always returns |
| Progress.ChecksSpelled | app/policies/engine.py:30-102 | Every check of the engine is what its rule asks of the artifacts, spelled out with identifiers, scenarios, test cases and findings |
| Progress.OutcomeSpelled | app/orchestration/graph.py:101-612 | A node raises exactly when its agent does or what it needs is missing, and interrupts exactly at the review without a decision |
| Progress.NodeFollows | app/orchestration/graph.py:101-820 | What each node stores from which agent asked with which artifacts, which decisions it records, and which node comes next, in terms of the artifacts and not of the routes |
| Progress.WhatFollows | app/orchestration/graph.py:101-820 | Over any call, cut short or not: every completed node has done its work and is followed by the node the artifacts ask for, each gate to its successor exactly when its rules hold, a failed validation to implementation exactly while attempts are left and rework is automatic; a failed or paused call stopped where it had to |
| Progress.GoodTaskSucceeds | app/services/tasks.py:178-488 | With any deaths in both jobs: agents that answer, a design that meets every gate and passes that fail until the last lead through exactly the straight path with one delivery round per pass, pausing exactly for an open HIGH finding and going on after an approval, to COMPLETED if the last pass is validated and REWORK_EXHAUSTED after the last allowed one, with exactly the artifacts the agents delivered |
| Recovery.NodeErased | app/orchestration/graph.py:101-612 | Every node maps artifacts that agree up to timestamps to outcomes that agree up to timestamps |
| Recovery.DriveErased | app/orchestration/graph.py:101-820 | Runs from artifacts that agree up to timestamps end alike, after the same nodes, on any clocks |
| Recovery.PickUp | app/services/tasks.py:143-171 | A run cut off anywhere plus the run that picks its checkpoint up complete exactly the nodes of the uninterrupted run, in order and once each, start one of them twice, and end alike |
| Recovery.RecoveryIsTransparent | app/services/tasks.py:143-171 | For any number of deaths at any points: the attempts of a job together end as one uninterrupted run up to timestamps, complete its nodes once each, and cost one extra start per death that hit a node |
| Recovery.ExecuteJobRecovers | app/services/tasks.py:143-171 | The same for an execute job, from its input on a new thread |
| Recovery.ResumeJobRecovers | app/services/tasks.py:143-171 | The same for a resume job: the claimed decision is applied exactly once, wherever workers die |
| Recovery.NoPauseAfterReview | app/orchestration/graph.py:350-378 | Below the review no run stops for a decision |
| Recovery.EndsWhenFinished | app/services/tasks.py:143-171 | How a call ended can be read off the checkpoint, which is what recovery goes by |
| GateSafety.SpecificationGatePasses | app/orchestration/graph.py:178-190 | Passing the specification gate means: requirements exist, are distinct and are covered by scenarios |
| GateSafety.SecurityGatePasses | app/orchestration/graph.py:267-314 | The security gate blocks exactly on an open CRITICAL finding or a review without a threat model that has security requirements, and asks a human exactly on open HIGH findings |
| GateSafety.NodeKeepsGates | app/orchestration/graph.py:101-628 | Every node and route keeps what the gates passed so far have established |
| GateSafety.SessionGated | app/orchestration/graph.py:101-628 | In every attempt of a job, each start of the implementation agent, first pass or rework, finds requirements distinct and covered by scenarios and tests, a negative security test, no open CRITICAL finding, and any open HIGH one approved |
| GateSafety.TaskGated | app/orchestration/graph.py:101-628 | The same over a whole task: any deaths, a pause, any decision, any deaths after it |
| Rework.ValidationVerdict | app/orchestration/rework.py:16-35 | No reason for rework is found exactly when tests and scanners both passed |
| Rework.ReworkLedger | app/orchestration/graph.py:493-549 | Over a run: one history entry per validation, and the rework count equals the failed ones |
| Rework.ReworkBounded | app/orchestration/graph.py:410-556 | A run implements at most the allowed number of times, and exactly that many if it ends REWORK_EXHAUSTED |
| Rework.CompletedMeansValidated | app/orchestration/graph.py:465-612 | A finished run is COMPLETED if and only if its last validation passed both gates, whatever the judge answers or throws |
| Rework.HowRunsEnd | app/orchestration/graph.py:267-556 | With automatic rework a finished run is COMPLETED, BLOCKED or REWORK_EXHAUSTED; a paused one awaits review with an open HIGH finding |
| Rework.PauseHasFinding | app/orchestration/graph.py:267-314 | A run that pauses has a finding to store |
| Rework.ResumeNeverPauses | app/orchestration/graph.py:350-378 | With automatic rework a resumed run never pauses again and ends in a terminal status |
| Rework.TimelyApprovalInOneRun | app/services/tasks.py:39-51 | The same for one uninterrupted resume: a timely approval goes straight to test planning, any other decision completes exactly the review and the blocking node |
| Rework.ResolvedReview | app/services/tasks.py:39-51 | Expired exactly from the expiry on, approved or rejected as decided before it; the reviewer and the time always, the reviewer's words unless expired |
| Rework.TaskOutcome | app/services/tasks.py:178-488 | A whole task with any deaths: the execute job ends well or pauses, and then the resume job ends well, where ending well is the ledger, bound and verdict statements together |
| Rework.OnlyTimelyApprovalContinues | app/services/tasks.py:39-51 | Whatever deaths strike the resume job: test planning starts if and only if the decision is an approval before the expiry; any other decision ends BLOCKED after two nodes, and no other node, implementation included, is ever started |
| Settlement.ExecuteResultAllowed | app/services/tasks.py:178-328 | With automatic rework, whatever deaths: what an execute or analyze job commits is terminal or a review request with findings, as the protocol requires |
| Settlement.ResumeResultAllowed | app/services/tasks.py:391-488 | With automatic rework, any decision and any deaths: what a resume job commits is terminal and stores no findings |
| Overlap.OverlapIsSafe | app/services/tasks.py:143-171 | An execute job recovered after the decision and the resume job drive one thread at once, node by node in any interleaving, with deaths anywhere: every start of the implementation agent finds all gates satisfied, only the execute job pauses, a finished call is COMPLETED exactly when validated, and with automatic rework every result is one the protocol lets its job commit |
| Overlap.BothMayRun | app/services/tasks.py:143-171 | The overlap does happen: over a paused thread a resume can complete the review and a recovered execute job then begin beside it from the same checkpoint |
| Overlap.StepKeepsSafe | app/services/tasks.py:143-171 | One node of either call keeps gates, ends and verdict known for the checkpoint and for the state of each call, although checkpoints overwrite each other |
| Overlap.AloneIsDrive | app/orchestration/graph.py:707-820 | A call that nobody disturbs leaves the checkpoint, the visits and the result of the run that the other theorems are about |
| TaskService.TaskRecord.ApplyWorkflowResult | app/services/tasks.py:54-72 | The row shows the workflow state field by field; checkpoints and trail are untouched |
| TaskService.TaskRecord.RunTaskWorkflow | app/services/tasks.py:178-328 | A task without a context bundle is refused with nothing written; otherwise the row shows the end state and the whole lists of policy results and rework decisions join the trail; an exception of the graph leaves ANALYZING, with row artifacts, review and trail as they were |
| TaskService.TaskRecord.RunHumanReviewResume | app/services/tasks.py:391-488 | Only policy results past the marked cut join the trail; without a pending review nothing changes but the exception; any other exception, a thread without checkpoints included, ends FAILED with trail and review as they were |
| TaskService.TaskRecord.ExecuteJob | app/services/tasks.py:178-328 | For a new task whose context is persisted: all attempts of its execute job with any deaths in the graph record the events of one run, the policy results and rework decisions of its end state |
| TaskService.TaskRecord.ResumeJob | app/services/tasks.py:391-488 | All attempts of a resume job with any deaths in the graph record exactly the policy results past the cut and the rework decisions, and the row shows the end state |
| TaskService.PauseMarksTheCut | app/orchestration/graph.py:329-348 | A paused run leaves a request whose count is exactly the number of policy results so far |
| TaskService.ResultsOnlyGrow | app/orchestration/graph.py:166-549 | After the first gate, runs only append to policy results and rework history |
| TaskService.EvidenceOnlyGrows | app/orchestration/graph.py:138-612 | Over any run from below the `requirements` node, evidence is append-only and requirements and bundle stay |
| TaskService.AuditedExactlyOnce | app/services/tasks.py:440-450 | The policy results of the paused state followed by what the final state has past the marked cut are the final list, in order and once each, whatever deaths struck the graph; rework decisions likewise |
| TaskService.TaskRecord.RunTask | app/services/tasks.py:178-488 | Execute job, pause and resume job together, with any deaths in the graph: it raises exactly when the execute job fails or pauses and the resume job fails; otherwise the recorded policy and rework events equal the final lists and the row shows the final state |
| IssueIntake.IssueTask.RunGithubIssueAnalysis | app/services/github_issues.py:222-272 | One attempt, commit by commit, with a death between any two: stored data and outcome are those of the attempt function the theorems below are about |
| IssueIntake.DriveKeepsInputs | app/orchestration/graph.py:101-612 | No run of the graph changes the request or the bundle it was given |
| IssueIntake.TryKeeps | app/services/github_issues.py:222-272 | Whatever the agent answers and wherever the worker dies, one attempt keeps the stored data consistent; with analysis and bundle stored it neither runs the agent nor changes them |
| IssueIntake.StatusTells | app/services/github_issues.py:154-272 | What the row says after an attempt: the workflow's status when it ended, FAILED when the attempt outside recovery raised, the stage it had reached when it died, with what was stored by then |
| IssueIntake.IntakeConsistent | app/services/github_issues.py:222-272 | In every crash and requeue schedule: a checkpoint implies analysis and bundle, the bundle was built from the stored request and analysis, and the checkpointed request and bundle are the stored ones |
| IssueIntake.NoAnalysisAfterTheGraph | app/services/github_issues.py:230-232 | Once the graph has a checkpoint, no later attempt runs the analysis agent or changes analysis, request or bundle |
| IssueIntake.IntakeIsTransparent | app/services/github_issues.py:222-272 | A job that stored a bundle ends, up to timestamps, as one uninterrupted workflow over the stored request and bundle, wherever workers died; it ends normally only with a bundle |
| ContextPacking.Build | app/services/context.py:89-159 | Rejected exactly on repeated identities or an empty source that is reached; otherwise the bundle holds the sources of highest priority, ties by identifier and then version in string order, each with the first characters the limits leave; what is left out ranks after everything included and is left out only at a limit; truncated exactly when something is missing or cut |
| ContextPacking.BuildsExactly | app/services/context.py:89-138 | A bundle is built if and only if identities are distinct and every source reached has text; the duplicate error comes exactly on repeated identities |
| ContextPacking.PackFits | app/services/context.py:97-138 | A source takes the least of its estimate, the source cap and the budget left, so the budget never goes negative |
| ContextPacking.BundleClosedForm | app/services/context.py:97-158 | The total is the lesser of max_tokens and the sum over selected sources of the capped estimates |
| ContextPacking.PrefixOfOrder | app/services/context.py:94-138 | Included sources are a prefix of the sorted order, each with a prefix of its text, and marked cut exactly when text is missing |
| ContextPacking.LargerBudgetExtends | app/services/context.py:77-158 | If the larger budget builds a bundle, so does the smaller one, and every content it includes is a prefix of the content the larger bundle has for the same source |
| ContextPacking.MoreBudgetCanFail | app/services/context.py:106-115 | A concrete input: two sources, the second empty after sanitization; max_tokens 2 builds a bundle and max_tokens 3 raises |
| ContextPacking.LargerBudgetBuildsIff | app/services/context.py:77-158 | Given a budget that builds a bundle, a larger one builds one if and only if every source it reaches, one before which its budget is not used up, has text |
| ContextPacking.OneSortedOrder | app/services/context.py:94-101 | With distinct identities the key orders the sources in exactly one way |
| ContextPacking.OrderIndependent | app/services/context.py:89-159 | Permuting the inputs changes neither the bundle nor the error |
| PatchBudget.Sanitize | app/services/pull_request_reviews.py:32-140 | Each rejection exactly under its condition; otherwise each file keeps the first characters of its sanitized patch that earlier patches leave in the budget, is flagged for its own name, patch and previous name, and the whole is flagged for its title, body, author or any file; stored patches in a row are the first characters of the sanitized patches in a row |
| PatchBudget.LossyMeansSomeFileTruncated | app/services/pull_request_reviews.py:49-98 | Something is lost if and only if some stored file is marked truncated |
| JudgeScoring.Compile | app/services/judge.py:91-155 | Duplicates and wrong coverage are rejected exactly; otherwise every criterion is scored once, in rubric order, with its proposed score and its weight to four decimals; PASS exactly from the pass score on, FAIL exactly below the concern score, CONCERNS between |
| JudgeScoring.OverallError | app/services/judge.py:130-133 | The overall score is within 0.5026 of the exact weighted average and within 0 to 100 |
| JudgeScoring.EqualScores | app/services/judge.py:120-133 | Equal scores come out as themselves, in spite of rounding and inexact weight totals |
| JudgeScoring.RaisingScoresHelps | app/services/judge.py:120-139 | Raising proposed scores never lowers the overall score or the verdict |
| JudgeScoring.DimensionBetween | app/services/judge.py:141-148 | A dimension score lies between the least and the greatest score of its criteria |
| JudgeScoring.DimensionError | app/services/judge.py:141-148 | A dimension score is within half a point of the exact weighted average of its criteria |
| JudgeScoring.TiesToEven | app/services/judge.py:130-133 | Rounding takes a tie to the even neighbour |
| JudgeScoring.ProposalOrderIrrelevant | app/services/judge.py:99-107 | Permuting the proposal changes neither its acceptance nor any score |
| PullRequestReview.CollectFindings | app/agents/pull_request_review.py:87-181 | The imperative list building equals the rule-by-rule list the lemmas speak of, with the context finding last |
| PullRequestReview.PathsSpelled | app/agents/pull_request_review.py:58-84 | Test files, code files and sensitive paths are those whose folded path begins with, ends with or contains one of the fixed texts, after turning backslashes where the code does |
| PullRequestReview.RequiredExactly | app/agents/pull_request_review.py:87-197 | A rule's finding is present exactly when the rule applies, and nothing else is present |
| PullRequestReview.TestingFindingMeans | app/agents/pull_request_review.py:138-157 | The TESTING finding is there exactly when some code file and no test file changed, which is the stub's own test |
| PullRequestReview.MergeFindings | app/agents/pull_request_review.py:343-359 | At most 100 findings, all from the two lists, no two with the same category, folded title and path, and below the cap one for every finding given; equal to the deduplicated list the lemmas speak of |
| PullRequestReview.KeepsTheFirst | app/agents/pull_request_review.py:343-359 | Deduplication keeps exactly the first finding of each identity |
| PullRequestReview.LosesNothing | app/agents/pull_request_review.py:343-359 | Deduplication loses no identity and keeps none twice |
| PullRequestReview.FindingsSurvive | app/agents/pull_request_review.py:208-228 | For any model review: the code's own findings come first and whole, the rest are the model's, and one of those is missing only behind the same identity or the cap |
| PullRequestReview.RiskIsAFloor | app/agents/pull_request_review.py:224-228 | For any model review: the risk is at least the model's and every kept finding's, is one of them, and each safeguard forces its own floor |
| PullRequestReview.SafeguardsDecide | app/agents/pull_request_review.py:229-252 | For any model review: READY needs the model's word and no safeguard, redaction blocks, a model BLOCK survives exactly when redacted or unguarded, and the review names this pull request |
| PullRequestReview.StubSpelled | app/agents/pull_request_review.py:294-341 | The stub blocks on redaction, asks for changes on any other safeguard or code without tests, and is ready otherwise, with the code's own findings and their highest severity |
| PullRequestReview.StubUnchanged | app/agents/pull_request_review.py:294-341 | Post-processing is the identity on the stub's review |
| PullRequestReview.PostProcess | app/agents/pull_request_review.py:208-252 | The method computes the review the three lemmas above constrain |
| Workspace.PartsOfJoin | app/agents/test_engineer.py:41-46 | Writing canonical components out as a path and splitting it again gives them back |
| Workspace.AsPosixKeeps | app/agents/test_engineer.py:41-46 | Normalising any declared path keeps its components, its root, and whether it has one |
| Workspace.AcceptedStaysInside | app/tools/gateway.py:41-56 | An accepted target is strictly inside the workspace, by steps that are neither empty nor dot nor dot-dot |
| Workspace.WorkspacesApart | app/tools/gateway.py:20-27 | For tasks with different safe names, a target of the one lies in the other's workspace if and only if that workspace is the root itself, or the root is the first task's and the path starts with the other's name |
| Workspace.PlainTasksApart | app/tools/gateway.py:20-27 | Different identifiers of plain characters, such as UUIDs: no target of the one is a path of the other's workspace |
| Workspace.ToolGateway.WriteFile | app/tools/gateway.py:29-66 | A write succeeds exactly on an accepted path with room on the disk, then changes that one file and says whether it was new; each refusal of the first checks exactly under its condition, the alphabet by code point; a refused write changes no file; the disk stays a tree |
| Workspace.RunImplementation | app/agents/implementation.py:122-150 | The run succeeds exactly on feasible plans, a condition on plan and disk alone; it writes the plan, reports each path once, and created are the first writes of new places; a failure leaves a prefix written |
| Workspace.FeasibleStep | app/agents/implementation.py:130-143 | The condition is right step by step: one more change is feasible exactly when it is accepted and finds room on the disk left by the earlier ones |
| Workspace.CreatedCounts | app/agents/implementation.py:137-143 | The files on disk grow by exactly the number of paths reported as created |
| Workspace.LastWriteWins | app/tools/gateway.py:58-60 | A written place holds the content of the last change for it |
| Workspace.UntouchedElsewhere | app/tools/gateway.py:29-66 | A file no change is for is as it was |
| Workspace.RerunEndsAlike | app/agents/implementation.py:122-150 | A feasible plan started over after a death anywhere, in the middle of a write included, is feasible still and leaves the files of one undisturbed run |
| Workspace.RunAgainAfterDeath | app/agents/implementation.py:122-150 | A run that dies after any number of writes, then the run started in its place: it succeeds with the files of one undisturbed run, reports each path once, and differs only in what it calls created |
| Workspace.IntegrityMeansPresent | app/agents/test_engineer.py:12-46 | Whatever is declared, absolute and empty paths included: the check passes exactly when something is declared and each declared path is relative, names something below the workspace and is a file there |
| Workspace.RunThenIntegrity | app/agents/test_engineer.py:12-46 | After a successful run over any earlier contents, created and modified together are the plan's paths and the check passes exactly when the plan has a file |
| Workspace.Validate | app/agents/test_engineer.py:58-87 | Tests pass exactly with the integrity check and without a syntax failure; scanners pass exactly without HIGH and CRITICAL findings |

## Left out

- The lease keeper's thread: renewals interleave freely in `JobQueue` and `Protocol`, but `JobStore.Tables.RunJob` shows one worker's own steps only.
- JobQueue.BoundedOvertaking: takes claims as atomic and later jobs as stamped later; a claim that skips a locked row can pass over the oldest job.
- Protocol.StepKeepsLedger: takes starting a run (its row and the call) as one step; a death between the row's commit and the call is a death inside the call.
- IssueIntake has its own short form of `run_task_workflow`, with deaths and without the audit trail, which is in `TaskService`.
- TaskService.AuditedExactlyOnce: says nothing of deaths while events are being written; recovery writes events again then. `TaskService.TaskRecord.RunTask` has the same limit.
- The tail of `run_task_workflow` after the result commit is one phase; its separate event commits are not steps.
- Recovery.RecoveryIsTransparent: agents are functions of the artifacts they read, and validation reads the implementation artifact rather than the disk. The real implementation agent also reads the disk: started over after a death inside its node, it reports as modified what an undisturbed run reports as created. Its files are the same (`Workspace.RerunEndsAlike`), and so is the outcome of the integrity check (`Workspace.RunThenIntegrity`).
- IssueIntake.IntakeIsTransparent: says nothing of how often the agent's answers before the stored one differed, and takes the request text and bundle content from arbitrary builder functions.
- Overlap.OverlapIsSafe: takes the checkpoint written last as the current one and one call per job at a time (fail-stop); that recovery does not show (`Recovery.RecoveryIsTransparent`) is stated for calls one after the other, since overlapping calls may both run a node.
- `rework.automatic: false` is modelled in `Workflow`, but the statements about terminal statuses and the single winner are for `true`.
- Automatic recovery of a pull request review, which has no checkpoints and starts over, and the rest of `run_pull_request_review`: only its status steps appear, in `Protocol`.
- JudgeScoring.OverallError: over the reals with round-half-even; the rounding of binary floating point inside sums and products is not modelled.
- Texts: sanitization and redaction are arbitrary functions of the text; hashes, JSON, prompt texts, summaries, evidence details and metadata are not modelled.
- PullRequestReview.FindingsSurvive: case folding is an arbitrary function that keeps the six fixed titles apart (lower-casing does, `LoweringKeepsTitlesApart`).
- Workspace.ToolGateway.WriteFile: paths are lexical with no symbolic links, nobody else writes to the disk, and failures of the operating system other than clashes of files and directories do not occur.
- Workspace.IntegrityMeansPresent: asks that the names on disk are canonical, as an operating system guarantees.
- LangGraph beyond the checkpoint contract `invoke_workflow` reads, its recursion limit, and the per-node copies of agent runs kept in the state.
- Database sessions, rollbacks of single statements and locks: a commit is one step.
- The `external-validation` endpoint, which writes task status outside the job protocol.
- Language models, GitHub clients, scanners, Python parsing, HTTP routes, authentication, metrics, logging, migrations, prompt locks and release scripts.
