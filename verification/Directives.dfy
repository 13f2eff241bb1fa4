/** What an ended run leads to: the directive it is given, its continuation, and how many of them a task may have. */
module Directives {
  import opened Tables
  import opened Records
  import opened Limits
  import opened Controls
  import opened Lifecycle
  import opened Invariants
  import opened Workflow
  import opened Ranking
  import opened Coordination
  import opened Termination

  // ---- The directive ------------------------------------------------------------------------------

  predicate Continues(payload: TaskPayload) {
    && payload.workflowRef.Some? && "workflow_auto_continue" in payload.budget
    && payload.budget["workflow_auto_continue"] == Bool(true)
  }

  predicate EndedBadly(db: Db, event: RunEvent)
    requires event.run < |db.runs|
  {
    || db.runs[event.run].status == Failed || db.runs[event.run].status == TimedOut
    || event.kind == "run.failed" || event.kind == "run.timed_out"
  }

  predicate EndedBlocked(db: Db, event: RunEvent)
    requires event.run < |db.runs| && db.runs[event.run].task < |db.tasks|
  {
    var handoff := db.runs[event.run].details.handoff;
    db.tasks[db.runs[event.run].task].status == Blocked
    || (handoff.Some? && handoff.value.handoff.outcome == "blocked")
  }

  predicate Result(db: Db, event: RunEvent, outcome: string)
    requires event.run < |db.runs| && db.runs[event.run].task < |db.tasks|
  {
    if EndedBadly(db, event) then outcome == "failed"
    else if EndedBlocked(db, event) then outcome == "blocked"
    else outcome == "completed"
  }

  /** The task is to be tried again: it failed, retries were not switched off, and the limit is not used up. */
  predicate Retries(cfg: Settings, cat: Catalog, db: Db, event: RunEvent)
    requires event.run < |db.runs| && db.runs[event.run].task < |db.tasks|
  {
    var run := db.runs[event.run];
    var task := db.tasks[run.task];
    && Continues(task.payload) && EndedBadly(db, event)
    && (var b := task.payload.budget;
        "workflow_retry_failed" in b ==> b["workflow_retry_failed"] == Bool(true))
    && Count(db.runs, OfTask(run.task))
       <= LimitsFor(cfg, cat.budgets, ScopeOf(task, run.worker, run.profile)).maxRetries
  }

  predicate IsAgent(actor: string) {
    |actor| >= 6 && actor[..6] == "agent:"
  }

  /** Whom the parent's work belongs to: its assignee if that is an agent, or else the agent that asked for it. */
  predicate Answers(parent: Task, actor: string) {
    if parent.payload.assignee.Some? && IsAgent(parent.payload.assignee.value) then
      parent.payload.assignee == Some(actor)
    else IsAgent(parent.requester) && actor == parent.requester
  }

  predicate HasText(budget: Budget, field: string) {
    field in budget && budget[field].Str? && budget[field].s != ""
  }

  predicate NewestRun(runs: seq<Run>, task: Id, r: Id) {
    r < |runs| && runs[r].task == task && forall j :: r < j < |runs| ==> runs[j].task != task
  }

  /** The profile that is configured, or the one the parent last ran with, or that of the ended run. */
  ghost predicate ChosenProfile(db: Db, task: TaskPayload, parent: Id, run: Run, profile: string) {
    if HasText(task.budget, "workflow_profile_id") then profile == task.budget["workflow_profile_id"].s
    else
      && (forall r: Id :: NewestRun(db.runs, parent, r) ==> profile == db.runs[r].profile)
      && ((forall r: Id :: !NewestRun(db.runs, parent, r)) ==> profile == run.profile)
  }

  /** What the directive says of where the work goes on: at the ended run's worker, or at the parent's agent. */
  ghost predicate Directs(cfg: Settings, cat: Catalog, db: Db, event: RunEvent, d: Directive)
    requires event.run < |db.runs| && db.runs[event.run].task < |db.tasks|
  {
    var run := db.runs[event.run];
    var payload := db.tasks[run.task].payload;
    && Continues(payload) && Result(db, event, d.outcome)
    && d.scope == (if "workflow_scope" in payload.budget then payload.budget["workflow_scope"] else Str("tradix"))
    && (d.retrySource <==> Retries(cfg, cat, db, event))
    && if d.retrySource then
         d.target == run.worker && d.action == "retry_failed" && d.profile == run.profile && d.taskClass.None?
       else
         && payload.parent.Some? && payload.parent.value < |db.tasks|
         && Answers(db.tasks[payload.parent.value], d.target) && d.action == "resume_" + d.outcome
         && ChosenProfile(db, payload, payload.parent.value, run, d.profile)
         && (if HasText(payload.budget, "workflow_handoff_class")
             then d.taskClass == Some(payload.budget["workflow_handoff_class"].s) else d.taskClass.None?)
  }

  /** Nobody can be found to go on with the work: the parent is missing, or none of its actors is an agent. */
  ghost predicate Leaderless(db: Db, payload: TaskPayload) {
    payload.parent.Some? && forall actor: string ::
      !(payload.parent.value < |db.tasks| && Answers(db.tasks[payload.parent.value], actor))
  }

  lemma NewestRunIsLast(runs: seq<Run>, task: Id)
    ensures forall r: Id :: NewestRun(runs, task, r) <==> Last(runs, OfTask(task)) == Some(r)
  {
    forall r: Id ensures NewestRun(runs, task, r) <==> Last(runs, OfTask(task)) == Some(r) {
      if NewestRun(runs, task, r) {
        assert OfTask(task)(runs[r]);
      }
    }
  }

  lemma ParentAnswers(parent: Task)
    ensures ParentActor(parent).Some? ==> forall actor :: Answers(parent, actor) <==> actor == ParentActor(parent).value
    ensures ParentActor(parent).None? ==> forall actor :: !Answers(parent, actor)
  {
    assert forall s: string :: AGENT <= s <==> IsAgent(s);
  }

  lemma TextIsRead(budget: Budget, field: string)
    ensures TextAt(budget, field) == if HasText(budget, field) then Some(budget[field].s) else None
  {
  }

  lemma ResultIsOutcome(db: Db, event: RunEvent)
    requires event.run < |db.runs| && db.runs[event.run].task < |db.tasks|
    ensures forall outcome :: Result(db, event, outcome) <==> outcome == EventOutcome(db, event)
    ensures EventOutcome(db, event) == "failed" <==> EndedBadly(db, event)
  {
  }

  /**
    An ended run of a continuing task is given exactly the directive described above. Without one there is
    nothing to go on with, or it raises an error, because the work has to go to a parent that nobody answers for.
   */
  lemma DirectivesExactly(cfg: Settings, cat: Catalog, db: Db, event: RunEvent, plan: Plan)
    requires event.run < |db.runs| && db.runs[event.run].task < |db.tasks|
    requires plan == DirectiveFor(cfg, cat, db, event)
    ensures plan.Propose? ==> Directs(cfg, cat, db, event, plan.directive)
    ensures var payload := db.tasks[db.runs[event.run].task].payload;
            var goesUp := Continues(payload) && !Retries(cfg, cat, db, event) && payload.parent.Some?;
            && (plan.Propose? <==>
                  Continues(payload) && (Retries(cfg, cat, db, event) || (goesUp && !Leaderless(db, payload))))
            && (plan.Raise? <==> goesUp && Leaderless(db, payload))
  {
    hide LimitsFor, EventOutcome, Result, EndedBlocked, EndedBadly, Answers, ParentActor, TextAt, HasText;
    var run := db.runs[event.run];
    var payload := db.tasks[run.task].payload;
    ResultIsOutcome(db, event);
    assert Enabled(payload) <==> Continues(payload);
    TextIsRead(payload.budget, "workflow_profile_id");
    TextIsRead(payload.budget, "workflow_handoff_class");
    if payload.parent.Some? && payload.parent.value < |db.tasks| {
      ParentAnswers(db.tasks[payload.parent.value]);
      NewestRunIsLast(db.runs, payload.parent.value);
    }
  }

  // ---- The continuation ---------------------------------------------------------------------------

  /** How many open continuations a task may have: what the settings say, and its own budget if it says less. */
  predicate FanOutAllows(cfg: Settings, budget: Budget, n: nat) {
    if "max_fan_out" in budget && budget["max_fan_out"].Int?
    then n <= cfg.maxFanOut && n <= budget["max_fan_out"].n
    else n <= cfg.maxFanOut
  }

  lemma FanOutIsChecked(cfg: Settings, budget: Budget, n: nat)
    ensures n > 0 ==> (FanOutAllows(cfg, budget, n) <==> n <= MaxContinuations(cfg, budget))
  {
  }

  predicate Tells(row: Continuation, run: Run) {
    if run.summary.Some? && run.summary.value != "" then
      row.summary == Some(if |run.summary.value| <= 4000 then run.summary.value else run.summary.value[..4000])
    else row.summary.None?
  }

  /** Why a continuation is not made, and whether the event is marked as consumed by that. */
  function Hindrance(cfg: Settings, flow: Flow, event: Id): (code: Option<string>)
    requires Known(flow, event)
  {
    var run := flow.db.runs[flow.events[event].run];
    var task := flow.db.tasks[run.task];
    if !flow.events[event].terminal then Some("event_not_terminal")
    else if task.status == Cancelled || run.status == Cancelled || flow.events[event].kind == "run.cancelled" then
      Some("workflow_cancelled")
    else None
  }

  predicate Exists(rows: seq<Continuation>, event: Id, target: string, action: string) {
    exists c :: 0 <= c < |rows| && rows[c].event == event && rows[c].target == target && rows[c].action == action
  }

  /**
    A continuation is made once per event, target and action, for a terminal event of work that goes on, within
    the fan-out.
   */
  lemma ContinuationsExactly(
    cfg: Settings, flow: Flow, event: Id, target: string, action: string, artifacts: seq<string>, made: Made)
    requires Known(flow, event)
    requires made == CreateContinuation(cfg, flow, event, target, action, artifacts)
    ensures var task := flow.db.runs[flow.events[event].run].task;
            var room := FanOutAllows(cfg, flow.db.tasks[task].payload.budget,
                                     Count(flow.continuations, OpenOn(task)) + 1);
            var known := Exists(flow.continuations, event, target, action);
            if Hindrance(cfg, flow, event).Some? || (!known && !room) then
              && made.flow == flow.(skips := flow.skips + [Skip(event, made.out.code)])
              && made.out == Refused(Hindrance(cfg, flow, event).GetOr("workflow_budget_exhausted"))
            else if known then
              && made.flow == flow && made.out.Ok? && made.out.replayed && made.out.id < |flow.continuations|
              && Exists([flow.continuations[made.out.id]], event, target, action)
            else
              && made.out == Ok(|flow.continuations|, false)
              && |made.flow.continuations| == |flow.continuations| + 1
              && made.flow == flow.(continuations := made.flow.continuations)
              && made.flow.continuations[..|flow.continuations|] == flow.continuations
              && var row := made.flow.continuations[|flow.continuations|];
                 && row.task == task && row.event == event && row.target == target && row.action == action
                 && row.status == Pending && Tells(row, flow.db.runs[flow.events[event].run])
                 && row.artifacts == artifacts && row.directive.None? && row.failure.None?
  {
    hide MaxContinuations;
    var task := flow.db.runs[flow.events[event].run].task;
    FanOutIsChecked(cfg, flow.db.tasks[task].payload.budget, Count(flow.continuations, OpenOn(task)) + 1);
    var twin := Last(flow.continuations, Twin(event, target, action));
    if twin.Some? {
      assert Exists(flow.continuations, event, target, action);
      var row := flow.continuations[twin.value];
      assert [row][0].event == event && [row][0].target == target && [row][0].action == action;
    } else {
      assert forall c :: 0 <= c < |flow.continuations| ==> !Twin(event, target, action)(flow.continuations[c]);
    }
  }

  // ---- How many there may be ------------------------------------------------------------------------

  /** Continuations of the task that wait or were dispatched. */
  function StillOpen(task: Id): Continuation -> bool {
    (c: Continuation) => c.task == task && (c.status == Pending || c.status == Records.Dispatched)
  }

  ghost predicate Capped(cfg: Settings, flow: Flow, t: Id) {
    t < |flow.db.tasks| && Count(flow.continuations, OpenOn(t)) > 0 ==>
      FanOutAllows(cfg, flow.db.tasks[t].payload.budget, Count(flow.continuations, OpenOn(t)))
  }

  lemma EditsKeepCaps(cfg: Settings, flow: Flow, after: Flow, c: Id, row: Continuation, t: Id)
    requires c < |flow.continuations| && after == flow.(continuations := flow.continuations[c := row])
    requires row.task == flow.continuations[c].task && (flow.continuations[c].status == Failed ==> row.status == Failed)
    requires Capped(cfg, flow, t)
    ensures Capped(cfg, after, t)
  {
    CountUpdate(flow.continuations, c, row, OpenOn(t));
  }

  lemma DiscoveriesKeepCaps(
    cfg: Settings, cat: Catalog, flow: Flow, event: Id, artifacts: seq<string>, after: Flow, t: Id)
    requires Recorded(flow) && after == DiscoverEvent(cfg, cat, flow, event, artifacts) && Capped(cfg, flow, t)
    ensures Capped(cfg, after, t)
  {
    hide DirectiveFor, CreateContinuation, FanOutAllows, Hindrance, Exists;
    if InBatch(cfg, flow, event) && !Seen(flow, event) {
      var plan := DirectiveFor(cfg, cat, flow.db, flow.events[event]);
      if plan.Propose? {
        var d := plan.directive;
        var made := CreateContinuation(cfg, flow, event, d.target, d.action, artifacts);
        ContinuationsExactly(cfg, flow, event, d.target, d.action, artifacts, made);
        if |made.flow.continuations| > |flow.continuations| {
          var row := made.flow.continuations[|flow.continuations|];
          assert made.flow.continuations == flow.continuations + [row];
          CountAppend(flow.continuations, row, OpenOn(t));
        }
      }
    }
  }

  lemma SameRowsKeepCaps(cfg: Settings, flow: Flow, after: Flow, t: Id)
    requires Fits(cfg, flow) && Grows(flow, after) && after.continuations == flow.continuations && Capped(cfg, flow, t)
    ensures Capped(cfg, after, t)
  {
    if |flow.db.tasks| <= t < |after.db.tasks| {
      forall c | 0 <= c < |flow.continuations| ensures !OpenOn(t)(flow.continuations[c]) {
        assert ContinuationFits(flow, c);
      }
      CountZero(flow.continuations, OpenOn(t));
    }
  }

  lemma StepsKeepCaps(cfg: Settings, flow: Flow, commit: Commit, now: Time, after: Flow, t: Id)
    requires Wired(cfg, flow) && after == Advance(cfg, flow, commit, now) && Capped(cfg, flow, t)
    ensures Capped(cfg, after, t)
  {
    hide Inv, Fits, Apply, Capped, DiscoverEvent, CreateSuccessor, RetrySource, EnlistSuccessor;
    GrowthStep(cfg, flow, commit, now, after);
    match commit
    case Discover(event, cat, artifacts) =>
      FitsRecorded(cfg, flow);
      DiscoveriesKeepCaps(cfg, cat, flow, event, artifacts, after, t);
    case Annotate(c, directive) =>
      if after != flow {
        EditsKeepCaps(cfg, flow, after, c, after.continuations[c], t);
      }
    case Confirm(c) =>
      if after != flow {
        EditsKeepCaps(cfg, flow, after, c, after.continuations[c], t);
      }
    case Abandon(c, code) =>
      if after != flow {
        EditsKeepCaps(cfg, flow, after, c, after.continuations[c], t);
      }
    case _ => SameRowsKeepCaps(cfg, flow, after, t);
  }

  lemma FitsRecorded(cfg: Settings, flow: Flow)
    requires Fits(cfg, flow)
    ensures Recorded(flow)
  {
  }

  lemma {:induction false} AlwaysCapped(cfg: Settings, history: seq<Entry>, t: Id)
    requires Admissible(cfg, QUIET_START, history)
    ensures Capped(cfg, Unroll(cfg, QUIET_START, history), t)
  {
    if history == [] {
    } else {
      hide Inv, Fits, Advance, Permitted, Capped;
      var init, last := history[..|history| - 1], history[|history| - 1];
      StartIsWired(cfg);
      WorkIsBounded(cfg, QUIET_START, init);
      AlwaysCapped(cfg, init, t);
      StepsKeepCaps(cfg, Unroll(cfg, QUIET_START, init), last.commit, last.now, Unroll(cfg, QUIET_START, history), t);
    }
  }

  lemma OpenMeans(cfg: Settings, flow: Flow, t: Id)
    requires Fits(cfg, flow)
    ensures Count(flow.continuations, StillOpen(t)) == Count(flow.continuations, OpenOn(t))
  {
    forall c | 0 <= c < |flow.continuations|
      ensures StillOpen(t)(flow.continuations[c]) == OpenOn(t)(flow.continuations[c])
    {
      assert ContinuationFits(flow, c);
    }
    CountSame(flow.continuations, flow.continuations, StillOpen(t), OpenOn(t));
  }

  /**
    In every history a task has no more continuations that wait or were dispatched than the settings allow, nor
    more than its own budget does.
   */
  lemma FanOutIsCapped(cfg: Settings, history: seq<Entry>, flow: Flow, t: Id)
    requires Admissible(cfg, QUIET_START, history) && flow == Unroll(cfg, QUIET_START, history) && t < |flow.db.tasks|
    ensures var open := Count(flow.continuations, StillOpen(t));
            var own := JsonAt(flow.db.tasks[t].payload.budget, "max_fan_out");
            open <= Max(0, cfg.maxFanOut) && (own.Int? ==> open <= Max(0, own.n))
  {
    hide Inv, Unroll;
    StartIsWired(cfg);
    WorkIsBounded(cfg, QUIET_START, history);
    AlwaysCapped(cfg, history, t);
    OpenMeans(cfg, flow, t);
  }
}
