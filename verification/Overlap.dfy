/** The jobs of one task at the same time. An execute job that died after publishing a
    review request is recovered even though the decision has been claimed meanwhile, so
    its worker and the worker of the resume job may drive one thread together: each
    keeps the state it works on to itself, and their checkpoints, read when a call
    begins, overwrite each other. What holds in every such interleaving, node by node,
    with deaths anywhere, is proved here. */
module Overlap {
  import opened Basics
  import opened Artifacts
  import opened Policies
  import opened Workflow
  import opened Recovery
  import opened GateSafety
  import opened Rework
  import opened Settlement
  import Q = JobQueue
  import P = Protocol

  datatype JobSlot = ExecuteSlot | ResumeSlot

  /** A call of the graph under way: the node due next and the state it will see. */
  datatype Call = Call(state: State, node: Node, resume: Option<Resume>)

  /** What a call handed back to its handler. */
  datatype Result = Result(slot: JobSlot, values: State, paused: bool)

  datatype World = World(
    thread: Thread, execute: Option<Call>, resume: Option<Call>, decided: bool,
    visits: seq<Visit>, results: seq<Result>)

  const START := World(Fresh, None, None, false, [], [])

  /** A worker calls `invoke_workflow` for a job (the first attempt of an execute job
      without recovery); a call runs its next node; a worker dies. */
  datatype Event =
    | BeginExecute(recover: bool)
    | BeginResume(decision: Resume, recover: bool)
    | RunNext(slot: JobSlot, now: Time)
    | Die(slot: JobSlot)

  function CallOf(w: World, slot: JobSlot): Option<Call> {
    if slot == ExecuteSlot then w.execute else w.resume
  }

  function WithCall(w: World, slot: JobSlot, call: Option<Call>): World {
    if slot == ExecuteSlot then w.(execute := call) else w.(resume := call)
  }

  function Return(w: World, slot: JobSlot, values: State, paused: bool): World {
    WithCall(w, slot, None).(results := w.results + [Result(slot, values, paused)])
  }

  /** One call per job at a time; a task is executed without recovery once, and resumed
      only over the interrupt of a pause or after an earlier attempt of its resume. */
  predicate Enabled(w: World, e: Event) {
    match e
    case BeginExecute(recover) => w.execute == None && (recover || w.thread.Fresh?)
    case BeginResume(_, recover) =>
      w.resume == None && w.thread.Saved? && (w.thread.interrupted || (recover && w.decided))
    case RunNext(slot, _) => CallOf(w, slot).Some?
    case Die(slot) => CallOf(w, slot).Some?
  }

  /** `invoke_workflow` up to its first node, for a job that recovers or starts. */
  function Begin(w: World, slot: JobSlot, start: Start, recover: bool): World
    requires start.Continue? ==> w.thread.Saved?
  {
    if recover && w.thread.Saved? && !w.thread.interrupted then
      if w.thread.next == End then Return(w, slot, w.thread.values, false)
      else WithCall(w, slot, Some(Call(w.thread.values, w.thread.next, None)))
    else if recover && w.thread.Saved? && !start.Command? then Return(w, slot, w.thread.values, true)
    else
      match start
      case Input(initial) =>
        WithCall(w, slot, Some(Call(initial, Context, None))).(thread := Saved(initial, Context, false))
      case Command(decision) =>
        if w.thread.Fresh? then w
        else WithCall(w, slot, Some(Call(w.thread.values, w.thread.next, Some(decision))))
      case Continue => WithCall(w, slot, Some(Call(w.thread.values, w.thread.next, None)))
  }

  function Step(env: Env, w: World, slot: JobSlot, now: Time): World
    requires CallOf(w, slot).Some?
  {
    var call := CallOf(w, slot).value;
    if call.node == End then Return(w, slot, call.state, false)
    else
      var started := w.(visits := w.visits + [Visit(call.node, call.state)]);
      match RunNode(env, call.node, call.state, now, call.resume)
      case Raised => WithCall(started, slot, None)
      case Interrupted => Return(started, slot, call.state, true).(thread := Saved(call.state, call.node, true))
      case Updated(t) =>
        var next := Route(call.node, t);
        WithCall(started, slot, Some(Call(t, next, None))).(thread := Saved(t, next, false))
  }

  function Apply(env: Env, request: string, bundle: Option<Bundle>, w: World, e: Event): World
    requires Enabled(w, e)
  {
    match e
    case BeginExecute(recover) => Begin(w, ExecuteSlot, Input(InitialState(request, bundle)), recover)
    case BeginResume(decision, recover) => Begin(w, ResumeSlot, Command(decision), recover).(decided := true)
    case RunNext(slot, now) => Step(env, w, slot, now)
    case Die(slot) => WithCall(w, slot, None)
  }

  predicate Valid(env: Env, request: string, bundle: Option<Bundle>, w: World, run: seq<Event>)
    decreases |run|
  {
    run == [] || (Enabled(w, run[0]) && Valid(env, request, bundle, Apply(env, request, bundle, w, run[0]), run[1..]))
  }

  function Exec(env: Env, request: string, bundle: Option<Bundle>, w: World, run: seq<Event>): World
    requires Valid(env, request, bundle, w, run)
    decreases |run|
  {
    if run == [] then w else Exec(env, request, bundle, Apply(env, request, bundle, w, run[0]), run[1..])
  }

  // ---------------------------------------------------------- invariant

  /** What is known of a state due at a node: gates, ends and the verdict. */
  predicate Known(env: Env, node: Node, s: State) {
    Gated(node, s) && EndKnown(env, node, s) && VerdictKnown(node, s)
  }

  predicate BelowReview(node: Node) {
    Rank(node) < Rank(HumanReview)
  }

  predicate ThreadKnown(env: Env, w: World) {
    && (w.decided ==> w.thread.Saved? && (w.thread.interrupted || BelowReview(w.thread.next)))
    && (w.thread.Saved? ==> Known(env, w.thread.next, w.thread.values))
    && (w.thread.Saved? && w.thread.interrupted ==> w.thread.next == HumanReview && w.execute == None)
  }

  predicate CallsKnown(env: Env, w: World) {
    && (w.execute.Some? ==>
          && Known(env, w.execute.value.node, w.execute.value.state)
          && w.execute.value.resume == None && (w.decided ==> BelowReview(w.execute.value.node)))
    && (w.resume.Some? ==>
          && Known(env, w.resume.value.node, w.resume.value.state) && w.decided
          && if w.resume.value.resume.Some? then w.resume.value.node == HumanReview
             else BelowReview(w.resume.value.node))
  }

  /** A result the protocol lets the job commit. */
  predicate Committable(r: Result) {
    && (r.paused <==> r.values.status == HumanReviewNeeded)
    && (r.slot == ExecuteSlot ==>
          && P.ResultAllowed(Q.ExecuteTask, Recorded(r.values.status), Findings(r.values) != [])
          && P.ResultAllowed(Q.AnalyzeGithubIssue, Recorded(r.values.status), Findings(r.values) != []))
    && (r.slot == ResumeSlot ==> P.ResultAllowed(Q.ResumeHumanReview, Recorded(r.values.status), false))
  }

  /** Only an execute job pauses; what is not paused is COMPLETED exactly when it was
      validated; and with automatic rework the job may commit it. */
  predicate ResultKnown(env: Env, r: Result) {
    && (r.slot == ResumeSlot ==> !r.paused)
    && (!r.paused ==> (r.values.status == Completed <==> ValidationPassed(r.values)))
    && (env.settings.automaticRework ==> Committable(r))
  }

  predicate Safe(env: Env, w: World) {
    && ThreadKnown(env, w) && CallsKnown(env, w)
    && ImplementsOnlyWhenReady(w.visits)
    && forall r :: r in w.results ==> ResultKnown(env, r)
  }

  // -------------------------------------------------------------- steps

  lemma NodeKeepsKnown(env: Env, node: Node, s: State, now: Time, resume: Option<Resume>)
    requires node != End && Known(env, node, s) && RunNode(env, node, s, now, resume).Updated?
    ensures var t := RunNode(env, node, s, now, resume).state; Known(env, Route(node, t), t)
  {
    hide RunNode, Route, Gated, EndKnown, VerdictKnown;
    NodeKeepsGates(env, node, s, now, resume);
    EndStep(env, node, s, now, resume);
    VerdictStep(env, node, s, now, resume);
  }

  /** A run of the graph that is over, or paused, hands back an allowed result. */
  lemma FinishedIsKnown(env: Env, slot: JobSlot, s: State)
    requires Known(env, End, s)
    ensures ResultKnown(env, Result(slot, s, false))
  {
    hide Gated;
  }

  lemma PausedIsKnown(env: Env, s: State)
    requires Known(env, HumanReview, s)
    ensures ResultKnown(env, Result(ExecuteSlot, s, true))
  {
    hide Gated;
    assert HasOpen(s, High);
  }

  lemma ReadyWhenGated(s: State)
    requires Gated(Implementation, s)
    ensures ReadyToImplement(s)
  {
    hide SpecificationGated, TestPlanGated, SecurityCleared;
  }

  lemma VisitKnown(env: Env, visits: seq<Visit>, v: Visit)
    requires ImplementsOnlyWhenReady(visits) && Known(env, v.node, v.before)
    ensures ImplementsOnlyWhenReady(visits + [v])
  {
    hide Gated, EndKnown, VerdictKnown, ReadyToImplement;
    if v.node == Implementation {
      ReadyWhenGated(v.before);
    }
  }

  /** What a call may begin with: the input, or the checkpoint. */
  lemma ThreadResults(env: Env, w: World, slot: JobSlot)
    requires ThreadKnown(env, w) && w.thread.Saved?
    ensures w.thread.next == End ==> ResultKnown(env, Result(slot, w.thread.values, false))
    ensures w.thread.interrupted ==> ResultKnown(env, Result(ExecuteSlot, w.thread.values, true))
  {
    hide Known, ResultKnown;
    if w.thread.next == End {
      FinishedIsKnown(env, slot, w.thread.values);
    }
    if w.thread.interrupted {
      PausedIsKnown(env, w.thread.values);
    }
  }

  lemma BeginExecuteKeepsSafe(env: Env, request: string, bundle: Option<Bundle>, w: World, recover: bool)
    requires Safe(env, w) && Enabled(w, BeginExecute(recover))
    ensures Safe(env, Begin(w, ExecuteSlot, Input(InitialState(request, bundle)), recover))
  {
    assert Known(env, Context, InitialState(request, bundle));
    hide Known, ResultKnown, ImplementsOnlyWhenReady;
    if w.thread.Saved? {
      ThreadResults(env, w, ExecuteSlot);
    }
  }

  lemma BeginResumeKeepsSafe(env: Env, w: World, decision: Resume, recover: bool)
    requires Safe(env, w) && Enabled(w, BeginResume(decision, recover))
    ensures Safe(env, Begin(w, ResumeSlot, Command(decision), recover).(decided := true))
  {
    hide Known, ResultKnown, ImplementsOnlyWhenReady;
    ThreadResults(env, w, ResumeSlot);
  }

  lemma StepKeepsSafe(env: Env, w: World, slot: JobSlot, now: Time)
    requires Safe(env, w) && CallOf(w, slot).Some?
    ensures Safe(env, Step(env, w, slot, now))
  {
    hide Known, ResultKnown, RunNode, Route, Rank;
    var call := CallOf(w, slot).value;
    if call.node == End {
      FinishedIsKnown(env, slot, call.state);
    } else {
      VisitKnown(env, w.visits, Visit(call.node, call.state));
      var o := RunNode(env, call.node, call.state, now, call.resume);
      if o.Interrupted? {
        OnlyReviewInterrupts(env, call.node, call.state, now, call.resume);
        PausedIsKnown(env, call.state);
      } else if o.Updated? {
        NodeKeepsKnown(env, call.node, call.state, now, call.resume);
        if Rank(call.node) <= Rank(HumanReview) {
          StaysBelowReview(call.node, o.state);
        }
      }
    }
  }

  lemma EventKeepsSafe(env: Env, request: string, bundle: Option<Bundle>, w: World, e: Event)
    requires Safe(env, w) && Enabled(w, e)
    ensures Safe(env, Apply(env, request, bundle, w, e))
  {
    hide Safe, Begin, Step, WithCall;
    match e
    case RunNext(slot, now) => StepKeepsSafe(env, w, slot, now);
    case Die(slot) => DeathKeepsSafe(env, w, slot);
    case BeginExecute(recover) => BeginExecuteKeepsSafe(env, request, bundle, w, recover);
    case BeginResume(decision, recover) => BeginResumeKeepsSafe(env, w, decision, recover);
  }

  lemma {:induction false} SafeOverRuns(env: Env, request: string, bundle: Option<Bundle>, w: World, run: seq<Event>)
    requires Safe(env, w) && Valid(env, request, bundle, w, run)
    ensures Safe(env, Exec(env, request, bundle, w, run))
    decreases |run|
  {
    hide Safe, Enabled, Apply;
    if run != [] {
      EventKeepsSafe(env, request, bundle, w, run[0]);
      SafeOverRuns(env, request, bundle, Apply(env, request, bundle, w, run[0]), run[1..]);
    }
  }

  lemma DeathKeepsSafe(env: Env, w: World, slot: JobSlot)
    requires Safe(env, w)
    ensures Safe(env, WithCall(w, slot, None))
  {
    hide Known, ResultKnown;
  }

  /** Overlapping jobs of one task. In every interleaving each start of the
      implementation agent finds every gate satisfied, only the execute job pauses, a
      finished call is COMPLETED exactly when its state passed validation, and, with
      automatic rework, every result is one the protocol lets its job commit. */
  lemma OverlapIsSafe(env: Env, request: string, bundle: Option<Bundle>, run: seq<Event>)
    requires Valid(env, request, bundle, START, run)
    ensures var w := Exec(env, request, bundle, START, run);
      && ImplementsOnlyWhenReady(w.visits)
      && forall r :: r in w.results ==> ResultKnown(env, r)
  {
    assert Safe(env, START);
    SafeOverRuns(env, request, bundle, START, run);
  }

  lemma ReviewMovesOn(env: Env, w: World, now: Time)
    requires w.resume.Some? && w.resume.value.node == HumanReview
    requires w.resume.value.resume.Some? && w.resume.value.state.review.Some?
    ensures var after := Step(env, w, ResumeSlot, now);
      && after.resume.Some? && after.resume.value.node in {TestPlanningNode, BlockedNode}
      && after.thread == Saved(after.resume.value.state, after.resume.value.node, false)
      && after.execute == w.execute
  {
  }

  lemma ThreeSteps(env: Env, request: string, bundle: Option<Bundle>, w: World, a: Event, b: Event, c: Event)
    requires Enabled(w, a)
    requires Enabled(Apply(env, request, bundle, w, a), b)
    requires Enabled(Apply(env, request, bundle, Apply(env, request, bundle, w, a), b), c)
    ensures var second := Apply(env, request, bundle, Apply(env, request, bundle, w, a), b);
      && Valid(env, request, bundle, w, [a, b, c])
      && Exec(env, request, bundle, w, [a, b, c]) == Apply(env, request, bundle, second, c)
  {
    hide Enabled, Apply;
    var first := Apply(env, request, bundle, w, a);
    var second := Apply(env, request, bundle, first, b);
    assert [c][1..] == [] && [b, c][1..] == [c] && [a, b, c][1..] == [b, c];
    assert Valid(env, request, bundle, second, [c]);
    assert Valid(env, request, bundle, first, [b, c]);
    var third := Apply(env, request, bundle, second, c);
    assert Exec(env, request, bundle, third, []) == third;
    assert Exec(env, request, bundle, second, [c]) == third;
    assert Exec(env, request, bundle, first, [b, c]) == third;
  }

  /** The overlap happens: over a paused thread a resume can begin and complete the
      review, and a recovered execute job can then begin beside it, from the same
      checkpoint. */
  lemma BothMayRun(env: Env, request: string, bundle: Option<Bundle>, w: World, decision: Resume, now: Time)
    requires w.execute == None && w.resume == None && w.thread.Saved?
    requires w.thread == Saved(w.thread.values, HumanReview, true) && w.thread.values.review.Some?
    ensures var run := [BeginResume(decision, false), RunNext(ResumeSlot, now), BeginExecute(true)];
      && Valid(env, request, bundle, w, run)
      && var end := Exec(env, request, bundle, w, run);
         && end.execute.Some? && end.resume.Some? && end.thread.Saved?
         && end.execute.value.state == end.resume.value.state == end.thread.values
         && end.execute.value.node == end.resume.value.node == end.thread.next
  {
    var a, b, c := BeginResume(decision, false), RunNext(ResumeSlot, now), BeginExecute(true);
    var first := Apply(env, request, bundle, w, a);
    ReviewMovesOn(env, first, now);
    hide Step, Valid, Exec;
    ThreeSteps(env, request, bundle, w, a, b, c);
  }

  // -------------------------------------------------- a call on its own

  /** The checkpoint is the one this call works from. */
  predicate InStep(w: World, slot: JobSlot) {
    CallOf(w, slot).Some? ==>
      var call := CallOf(w, slot).value;
      w.thread == Saved(call.state, call.node, call.resume.Some?) && (call.node == End ==> call.resume == None)
  }

  /** The call runs on until it returns or raises, and nobody else does anything. */
  function Alone(env: Env, w: World, slot: JobSlot, clock: Clock, tick: nat): World
    decreases if CallOf(w, slot).Some? then ReworkLeft(env, CallOf(w, slot).value.state) + 1 else 0,
              if CallOf(w, slot).Some? then Rank(CallOf(w, slot).value.node) else 0
  {
    if CallOf(w, slot) == None then w
    else
      var call := CallOf(w, slot).value;
      if call.node != End && RunNode(env, call.node, call.state, clock(tick), call.resume).Updated? then
        NodesMakeProgress(env, call.node, call.state, clock(tick), call.resume);
        Alone(env, Step(env, w, slot, clock(tick)), slot, clock, tick + 1)
      else Step(env, w, slot, clock(tick))
  }

  /** From `w` to `end` one call did what the run `a` does. */
  predicate Did(w: World, slot: JobSlot, a: Attempt, end: World) {
    && CallOf(end, slot) == None && end.thread == a.thread && a.thread.Saved?
    && end.visits == w.visits + a.started
    && end.results == w.results
         + (if Returned(a) then [Result(slot, a.thread.values, a.halt == Some(Paused))] else [])
  }

  lemma LastStep(env: Env, w: World, slot: JobSlot, clock: Clock, tick: nat)
    requires CallOf(w, slot).Some? && InStep(w, slot)
    requires var call := CallOf(w, slot).value;
             call.node == End || !RunNode(env, call.node, call.state, clock(tick), call.resume).Updated?
    ensures var call := CallOf(w, slot).value;
            var a := Drive(env, call.state, call.node, clock, tick, call.resume, None);
            Did(w, slot, a, Step(env, w, slot, clock(tick)))
  {
    hide RunNode, Route, Rank, ReworkLeft;
    var call := CallOf(w, slot).value;
    var a, end := Drive(env, call.state, call.node, clock, tick, call.resume, None), Step(env, w, slot, clock(tick));
    if call.node == End {
      assert a == Attempt(Saved(call.state, End, false), Some(Finished), [], []);
    } else if RunNode(env, call.node, call.state, clock(tick), call.resume).Raised? {
      assert end.thread == w.thread == a.thread;
    } else {
      assert RunNode(env, call.node, call.state, clock(tick), call.resume).Interrupted?;
    }
  }

  lemma DidAfter(w: World, next: World, slot: JobSlot, first: Visit, rest: Attempt, end: World)
    requires Did(next, slot, rest, end)
    requires next.visits == w.visits + [first] && next.results == w.results
    ensures Did(w, slot, After(first.node, first.before, rest), end)
  {
    assert w.visits + ([first] + rest.started) == (w.visits + [first]) + rest.started;
  }

  /** On its own, a call of this machine is the run `Drive` describes: the same
      checkpoint, the same visits, and a result exactly when the run returns. */
  lemma {:induction false} AloneIsDrive(env: Env, w: World, slot: JobSlot, clock: Clock, tick: nat)
    requires CallOf(w, slot).Some? && InStep(w, slot)
    ensures var call := CallOf(w, slot).value;
      Did(w, slot, Drive(env, call.state, call.node, clock, tick, call.resume, None), Alone(env, w, slot, clock, tick))
    decreases ReworkLeft(env, CallOf(w, slot).value.state), Rank(CallOf(w, slot).value.node)
  {
    hide RunNode, Route, Rank, ReworkLeft;
    var call := CallOf(w, slot).value;
    if call.node == End || !RunNode(env, call.node, call.state, clock(tick), call.resume).Updated? {
      LastStep(env, w, slot, clock, tick);
    } else {
      var t := RunNode(env, call.node, call.state, clock(tick), call.resume).state;
      NodesMakeProgress(env, call.node, call.state, clock(tick), call.resume);
      var next := Step(env, w, slot, clock(tick));
      assert CallOf(next, slot) == Some(Call(t, Route(call.node, t), None)) && InStep(next, slot);
      AloneIsDrive(env, next, slot, clock, tick + 1);
      var rest := Drive(env, t, Route(call.node, t), clock, tick + 1, None, None);
      hide Did;
      DidAfter(w, next, slot, Visit(call.node, call.state), rest, Alone(env, next, slot, clock, tick + 1));
      assert Drive(env, call.state, call.node, clock, tick, call.resume, None) == After(call.node, call.state, rest);
    }
  }
}
