/** Where the workflow meets the job protocol: the results that workflows end with
    are the results the protocol lets a handler commit, so the protocol's safety
    theorems speak about the workflows the jobs really run. */
module Settlement {
  import opened Basics
  import opened Artifacts
  import opened Policies
  import opened Workflow
  import opened Recovery
  import opened Rework
  import Q = JobQueue
  import P = Protocol

  /** The task status that a workflow status is stored as. */
  function Recorded(status: Status): P.TaskStatus {
    match status
    case Completed => P.Completed
    case Blocked => P.Blocked
    case ReworkExhausted => P.ReworkExhausted
    case HumanReviewNeeded => P.HumanReview
    case WorkflowFailed => P.TaskFailed
    case _ => P.Analyzing
  }

  predicate Delivered(h: History) {
    h.last.halt == Some(Finished) || h.last.halt == Some(Paused)
  }

  /** An execute or analyze job, with any deaths: what it commits is terminal, or a
      review request together with findings. */
  lemma ExecuteResultAllowed(env: Env, request: string, bundle: Option<Bundle>, deaths: seq<Death>, c: Clock)
    requires env.settings.automaticRework
    ensures var h := Session(env, Fresh, Input(InitialState(request, bundle)), false, deaths, c);
            Delivered(h) ==>
              && h.last.thread.Saved?
              && var end := h.last.thread.values;
                 && P.ResultAllowed(Q.ExecuteTask, Recorded(end.status), Findings(end) != [])
                 && P.ResultAllowed(Q.AnalyzeGithubIssue, Recorded(end.status), Findings(end) != [])
  {
    hide RunNode, Route, Erase, Drive, Session, HasOpen;
    var initial := InitialState(request, bundle);
    var h := Session(env, Fresh, Input(initial), false, deaths, c);
    var u := Drive(env, initial, Context, c, 0, None, None);
    ExecuteJobRecovers(env, initial, deaths, c);
    HowRunsEnd(env, initial, Context, c, 0, None);
    PauseHasFinding(env, request, bundle, c);
    if Delivered(h) {
      FieldsErased(u.thread.values, h.last.thread.values);
    }
  }

  /** A resume job, with any decision and any deaths: what it commits is terminal, and
      it stores no findings. */
  lemma ResumeResultAllowed(env: Env, paused: State, decision: Resume, deaths: seq<Death>, c: Clock)
    requires env.settings.automaticRework && HasOpen(paused, High) && paused.status == HumanReviewNeeded
    ensures var h := Session(env, Saved(paused, HumanReview, true), Command(decision), false, deaths, c);
            Delivered(h) ==>
              && h.last.thread.Saved?
              && P.ResultAllowed(Q.ResumeHumanReview, Recorded(h.last.thread.values.status), false)
  {
    hide RunNode, Route, Erase, Drive, Session, HasOpen;
    var h := Session(env, Saved(paused, HumanReview, true), Command(decision), false, deaths, c);
    var u := Drive(env, paused, HumanReview, c, 0, Some(decision), None);
    ResumeJobRecovers(env, paused, decision, deaths, c);
    ResumeNeverPauses(env, paused, decision, c);
    if Delivered(h) {
      FieldsErased(u.thread.values, h.last.thread.values);
    }
  }
}
