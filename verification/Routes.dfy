/** Which work the coordinator may hand on: the depth, the agents and the communication edge behind every successor. */
module Routes {
  import opened Tables
  import opened Records
  import opened Limits
  import opened Controls
  import opened Lifecycle
  import opened Invariants
  import opened Admission
  import opened Histories
  import opened Identity
  import opened Chains
  import opened Workflow
  import opened Coordination
  import opened Termination
  import opened Coordinator

  // ---- What a hand-over between agents takes ------------------------------------------------------

  /** The actor is an agent, and active. */
  predicate OnDuty(dir: Directory, actor: string) {
    |actor| >= 6 && actor[..6] == "agent:" && actor[6..] in dir.agents
  }

  predicate Bears(e: Edge, wanted: Option<string>) {
    if wanted.Some? then wanted.value in e.classes else exists c :: c in e.classes && c != "visibility"
  }

  /** A live edge between the two agents carries the class, or any but "visibility", within the scope. */
  predicate Connected(dir: Directory, source: string, target: string, scope: Json, wanted: Option<string>) {
    exists e :: e in dir.edges && Connects(e, source, target, scope, wanted)
  }

  predicate Connects(e: Edge, source: string, target: string, scope: Json, wanted: Option<string>) {
    e.live && "agent:" + e.source == source && "agent:" + e.target == target && scope in e.scopes && Bears(e, wanted)
  }

  /** The chain of parents is sound, and `extra` levels below the task are within the settings and its own bound. */
  predicate WithinDepth(cfg: Settings, tasks: seq<Task>, t: Id, extra: nat)
    requires t < |tasks|
  {
    && DepthOf(tasks, t).Deep?
    && var n, own := DepthOf(tasks, t).n + extra, JsonAt(tasks[t].payload.budget, "workflow_max_depth");
       if own.Int? then n == 0 || (n <= cfg.workflowMaxDepth && n <= own.n) else n <= cfg.workflowMaxDepth
  }

  /** Why an actor is not on duty: it is no agent, or not an active one. */
  function OffDuty(actor: string): string {
    if |actor| >= 6 && actor[..6] == "agent:" then "workflow_target_unavailable" else "workflow_target_invalid"
  }

  /** What is wrong with the chain of parents, if its depth is not within the bounds. */
  function BadChain(tasks: seq<Task>, t: Id): string
    requires t < |tasks|
  {
    match DepthOf(tasks, t)
    case ParentMissing => "workflow_parent_missing"
    case CycleDetected => "workflow_cycle_detected"
    case Deep(_) => "workflow_depth_exceeded"
  }

  lemma DutyIsChecked(dir: Directory, actor: string)
    ensures AgentProblem(dir, actor).None? <==> OnDuty(dir, actor)
    ensures AgentProblem(dir, actor).Some? ==> AgentProblem(dir, actor).value == OffDuty(actor)
  {
  }

  lemma DepthIsChecked(cfg: Settings, tasks: seq<Task>, t: Id, extra: nat)
    requires t < |tasks|
    ensures DepthProblem(cfg, tasks, t, extra).None? <==> WithinDepth(cfg, tasks, t, extra)
    ensures DepthProblem(cfg, tasks, t, extra).Some? ==> DepthProblem(cfg, tasks, t, extra).value == BadChain(tasks, t)
  {
  }

  lemma EdgesAreChecked(dir: Directory, source: string, target: string, scope: Json, wanted: Option<string>)
    requires OnDuty(dir, source) && OnDuty(dir, target)
    ensures HasHandoffEdge(dir, source, target, scope, wanted) <==> Connected(dir, source, target, scope, wanted)
  {
    var from, to := source[6..], target[6..];
    assert source == "agent:" + from && target == "agent:" + to;
    assert WithoutPrefix(source, AGENT) == from && WithoutPrefix(target, AGENT) == to;
    if e, c :| e in dir.edges && c in e.classes && Allows(e, from, to, c, scope)
               && (match wanted case Some(w) => c == w case None => c != "visibility") {
      assert Connects(e, source, target, scope, wanted);
    }
    if e :| e in dir.edges && Connects(e, source, target, scope, wanted) {
      assert ("agent:" + e.source)[6..] == e.source && ("agent:" + e.target)[6..] == e.target;
      var c :| c in e.classes && (match wanted case Some(w) => c == w case None => c != "visibility");
      assert Allows(e, from, to, c, scope);
    }
  }

  /** The way is clear from the worker of the continuation's run to the target of the directive. */
  predicate Routed(cfg: Settings, dir: Directory, flow: Flow, c: Id, d: Directive) {
    && Live(flow, c)
    && var run := flow.db.runs[flow.events[flow.continuations[c].event].run];
       && WithinDepth(cfg, flow.db.tasks, run.task, 1) && OnDuty(dir, run.worker) && OnDuty(dir, d.target)
       && Connected(dir, run.worker, d.target, d.scope, d.taskClass)
  }

  /** Depth and agents are in order; only the communication may still be denied. */
  predicate AgentsReady(cfg: Settings, dir: Directory, flow: Flow, c: Id, d: Directive) {
    && Live(flow, c)
    && var run := flow.db.runs[flow.events[flow.continuations[c].event].run];
       WithinDepth(cfg, flow.db.tasks, run.task, 1) && OnDuty(dir, run.worker) && OnDuty(dir, d.target)
  }

  const DENIED := "workflow_communication_denied"

  /** What stands in the way, if it is not clear: the chain, the worker, the target or the communication. */
  function Obstacle(cfg: Settings, dir: Directory, flow: Flow, c: Id, d: Directive): string
    requires Live(flow, c)
  {
    var run := flow.db.runs[flow.events[flow.continuations[c].event].run];
    if !WithinDepth(cfg, flow.db.tasks, run.task, 1) then BadChain(flow.db.tasks, run.task)
    else if !OnDuty(dir, run.worker) then OffDuty(run.worker)
    else if !OnDuty(dir, d.target) then OffDuty(d.target)
    else DENIED
  }

  lemma RouteIsChecked(cfg: Settings, dir: Directory, flow: Flow, c: Id, d: Directive)
    requires Live(flow, c)
    ensures ResumeProblem(cfg, dir, flow, c, d).None? <==> Routed(cfg, dir, flow, c, d)
    ensures ResumeProblem(cfg, dir, flow, c, d).Some? ==>
              ResumeProblem(cfg, dir, flow, c, d).value == Obstacle(cfg, dir, flow, c, d)
    ensures ResumeProblem(cfg, dir, flow, c, d) == Some(DENIED) <==>
            AgentsReady(cfg, dir, flow, c, d) && !Routed(cfg, dir, flow, c, d)
  {
    hide DepthProblem, AgentProblem, HasHandoffEdge, Connected, OnDuty, WithinDepth;
    var run := SourceRun(flow, c);
    DepthIsChecked(cfg, flow.db.tasks, run.task, 1);
    DutyIsChecked(dir, run.worker);
    DutyIsChecked(dir, d.target);
    if OnDuty(dir, run.worker) && OnDuty(dir, d.target) {
      EdgesAreChecked(dir, run.worker, d.target, d.scope, d.taskClass);
    }
  }

  lemma ObstaclesAreNamed(cfg: Settings, dir: Directory, flow: Flow, c: Id, d: Directive)
    requires Live(flow, c)
    ensures Obstacle(cfg, dir, flow, c, d) != ""
  {
  }

  // ---- What a successor inherits --------------------------------------------------------------------

  /** Each of the values once, in the order in which they first occur. */
  ghost predicate FirstOccurrences(xs: seq<string>, ys: seq<string>) {
    && (forall y :: y in ys <==> y in xs)
    && (forall i, j :: 0 <= i < j < |ys| ==> ComesFirst(xs, ys[i], ys[j]))
  }

  /** `a` occurs before `b` does. */
  predicate ComesFirst(xs: seq<string>, a: string, b: string) {
    exists k :: 0 <= k < |xs| && xs[k] == a && b !in xs[..k + 1]
  }

  lemma {:induction false} DistinctOccurrences(xs: seq<string>)
    ensures FirstOccurrences(xs, Distinct(xs))
  {
    if xs != [] {
      var init, x := xs[..|xs| - 1], xs[|xs| - 1];
      var rest, ys := Distinct(init), Distinct(xs);
      DistinctOccurrences(init);
      assert xs == init + [x];
      forall i, j | 0 <= i < j < |ys| ensures ComesFirst(xs, ys[i], ys[j]) {
        if j < |rest| {
          assert ComesFirst(init, rest[i], rest[j]);
          var k :| 0 <= k < |init| && init[k] == rest[i] && rest[j] !in init[..k + 1];
          assert xs[..k + 1] == init[..k + 1];
        } else {
          assert rest[i] in init;
          var k :| 0 <= k < |init| && init[k] == rest[i];
          assert x !in init && xs[..k + 1] == init[..k + 1];
        }
      }
    }
  }

  /** The source's budget without the coordinator's own fields, which are set anew. */
  ghost predicate BudgetPassedOn(from: Budget, to: Budget, c: Id, depth: int) {
    && (forall k :: !("workflow_" <= k) ==> (k in to <==> k in from) && (k in from ==> k in to && to[k] == from[k]))
    && (forall k :: k in to && "workflow_" <= k ==>
          k in {"workflow_depth", "workflow_source_continuation_id", "workflow_auto_continue"})
    && JsonAt(to, "workflow_depth") == Int(depth)
    && JsonAt(to, "workflow_source_continuation_id") == Int(c)
    && JsonAt(to, "workflow_auto_continue") == Bool(true)
  }

  /** The first of the recorded summaries that says something. */
  predicate TellsOf(row: Continuation, run: Run, told: string) {
    if row.summary.Some? && row.summary.value != "" then told == row.summary.value
    else if run.summary.Some? && run.summary.value != "" then told == run.summary.value
    else told == "Sin resumen terminal"
  }

  predicate EndsIn(s: string, end: string) {
    |end| <= |s| && s[|s| - |end|..] == end
  }

  /** A successor carries on the source's workflow for the target, within the source's limits and deadline. */
  ghost predicate Inherits(flow: Flow, c: Id, d: Directive, p: TaskPayload)
    requires Live(flow, c)
  {
    var row := flow.continuations[c];
    var run := flow.db.runs[flow.events[row.event].run];
    var source := flow.db.tasks[run.task].payload;
    && p.parent == Some(run.task) && p.workflowRef == source.workflowRef && p.assignee == Some(d.target)
    && p.reviewer.None? && !p.independentReview && p.priority == source.priority && p.deadline == source.deadline
    && p.dependencies == []
    && (exists depth: nat :: DepthOf(flow.db.tasks, run.task) == Deep(depth)
          && BudgetPassedOn(source.budget, p.budget, c, depth + 1))
    && (exists all :: FirstOccurrences(source.references + row.artifacts, all)
          && p.references == if |all| <= 20 then all else all[..20])
    && (exists told :: TellsOf(row, run, told) && EndsIn(p.objective, if |told| <= 2000 then told else told[..2000]))
  }

  lemma BudgetIsPassedOn(from: Budget, c: Id, depth: int)
    ensures BudgetPassedOn(from, SuccessorBudget(from, c, depth), c, depth)
  {
    OwnFields();
    var kept := map k | k in from && !("workflow_" <= k) :: from[k];
    assert forall k :: k in kept <==> k in from && !("workflow_" <= k);
    var to := kept[DEPTH := Int(depth)][SOURCE := Int(c)][AUTO := Bool(true)];
    assert forall k :: k in to <==> k in kept || k in {DEPTH, SOURCE, AUTO};
    assert forall k :: k in kept ==> to[k] == kept[k];
  }

  const DEPTH := "workflow_depth"
  const SOURCE := "workflow_source_continuation_id"
  const AUTO := "workflow_auto_continue"

  lemma OwnFields()
    ensures DEPTH != SOURCE && DEPTH != AUTO && SOURCE != AUTO
    ensures "workflow_" <= DEPTH && "workflow_" <= SOURCE && "workflow_" <= AUTO
  {
    assert DEPTH[9] != SOURCE[9] && DEPTH[9] != AUTO[9] && SOURCE[9] != AUTO[9];
  }

  lemma SuccessorInherits(flow: Flow, c: Id, d: Directive, depth: nat)
    requires Live(flow, c) && DepthOf(flow.db.tasks, SourceRun(flow, c).task) == Deep(depth)
    ensures Inherits(flow, c, d, SuccessorPayload(flow, c, d, depth + 1))
  {
    hide Distinct, SuccessorBudget, FirstOccurrences, BudgetPassedOn, DepthOf, Decimal;
    var run, row := SourceRun(flow, c), flow.continuations[c];
    var source := flow.db.tasks[run.task].payload;
    var p := SuccessorPayload(flow, c, d, depth + 1);
    DistinctOccurrences(source.references + row.artifacts);
    BudgetIsPassedOn(source.budget, c, depth + 1);
    var told := OrElse(row.summary, OrElse(run.summary, "Sin resumen terminal"));
    assert TellsOf(row, run, told);
    var head := "Reanuda el workflow " + source.workflowRef.GetOr("None") + " tras resultado " + d.outcome
        + " de la tarea " + Decimal(run.task) + ". Contexto terminal: ";
    assert p.objective == head + Clip(told, 2000);
    assert EndsIn(head + Clip(told, 2000), Clip(told, 2000));
  }

  // ---- What a resume does ---------------------------------------------------------------------------

  /** The task that was appended continues the source of the continuation for the target of its directive. */
  ghost predicate Succeeds(flow: Flow, c: Id, d: Directive, actor: string, row: Task)
    requires Live(flow, c)
  {
    row.key == WorkflowTask(c) && row.requester == actor && Inherits(flow, c, d, row.payload)
  }

  predicate Continued(tasks: seq<Task>, c: Id) {
    exists t :: 0 <= t < |tasks| && tasks[t].key == WorkflowTask(c)
  }

  lemma CreationOutcomes(db: Db, actor: string, c: Id, payload: TaskPayload, step: Step)
    requires step == CreateTask(db, actor, WorkflowTask(c), payload) && payload.dependencies == []
    requires payload.parent.Some? && payload.parent.value < |db.tasks|
    ensures !Continued(db.tasks, c) ==>
              && step.out == Ok(|db.tasks|, false)
              && step.db.tasks == db.tasks + [Task(actor, WorkflowTask(c), payload, Pending, None)]
              && step.db.runs == db.runs
    ensures Continued(db.tasks, c) ==> step.db == db
    ensures step.out.Refused? ==> step.out.code == "idempotency_conflict"
  {
    if t :| 0 <= t < |db.tasks| && db.tasks[t].key == WorkflowTask(c) {
      assert TaskKeyed(WorkflowTask(c))(db.tasks[t]);
    }
  }

  /** A successor is created if and only if the way is clear and there is none yet. */
  lemma SuccessorsAreRouted(
    cfg: Settings, dir: Directory, flow: Flow, c: Id, d: Directive, actor: string, step: Step)
    requires Live(flow, c) && step == CreateSuccessor(cfg, dir, flow, c, d, actor)
    ensures !Routed(cfg, dir, flow, c, d) ==> step == Step(flow.db, Refused(Obstacle(cfg, dir, flow, c, d)))
    ensures Routed(cfg, dir, flow, c, d) && Continued(flow.db.tasks, c) ==> step.db == flow.db
    ensures Routed(cfg, dir, flow, c, d) && !Continued(flow.db.tasks, c) ==>
              && step.out == Ok(|flow.db.tasks|, false) && |step.db.tasks| == |flow.db.tasks| + 1
              && step.db.tasks[..|flow.db.tasks|] == flow.db.tasks
              && Succeeds(flow, c, d, actor, step.db.tasks[|flow.db.tasks|])
    ensures step.out == Refused(DENIED) <==> AgentsReady(cfg, dir, flow, c, d) && !Routed(cfg, dir, flow, c, d)
  {
    hide ResumeProblem, CreateTask, SuccessorPayload, Inherits, Routed, AgentsReady, Continued, DepthOf, Obstacle;
    RouteIsChecked(cfg, dir, flow, c, d);
    if Routed(cfg, dir, flow, c, d) {
      var depth := RoutedDepth(cfg, dir, flow, c, d);
      var payload := SuccessorPayload(flow, c, d, depth + 1);
      SuccessorInherits(flow, c, d, depth);
      InheritedLinks(flow, c, d, payload);
      CreationOutcomes(flow.db, actor, c, payload, step);
      assert "idempotency_conflict" != DENIED;
    }
  }

  lemma InheritedLinks(flow: Flow, c: Id, d: Directive, p: TaskPayload)
    requires Live(flow, c) && Inherits(flow, c, d, p)
    ensures p.dependencies == [] && p.parent.Some? && p.parent.value < |flow.db.tasks|
  {
  }

  lemma RoutedDepth(cfg: Settings, dir: Directory, flow: Flow, c: Id, d: Directive) returns (depth: nat)
    requires Live(flow, c) && Routed(cfg, dir, flow, c, d)
    ensures DepthOf(flow.db.tasks, SourceRun(flow, c).task) == Deep(depth)
  {
    hide Connected, OnDuty;
    depth := DepthOf(flow.db.tasks, SourceRun(flow, c).task).n;
  }

  lemma DispatchSaysOtherwise(
    cfg: Settings, cat: Catalog, db: Db, task: Id, actor: string, key: Key, p: DispatchPayload, now: Time, step: Step)
    requires step == DispatchTask(cfg, cat, db, task, actor, key, p, now)
    ensures step.out != Refused(DENIED)
  {
    hide LimitsFor, LoadOf, Launch, Last, Has, Unmet, ActiveOf, Exhausted;
  }

  /** How the continuation stands after it was processed. */
  predicate FailedWith(flow: Flow, c: Id, code: string) {
    c < |flow.continuations| && flow.continuations[c].status == Failed && flow.continuations[c].failure == Some(code)
  }

  /**
    Resuming appends a task exactly if the way is clear and the continuation has none yet; with depth and agents
    in order, it fails for the communication exactly if no edge allows it.
   */
  lemma ResumesAreRouted(
    cfg: Settings, dir: Directory, cat: Catalog, flow: Flow, c: Id, d: Directive, actor: string, now: Time, after: Flow)
    requires Live(flow, c) && after == ResumePass(cfg, dir, cat, flow, c, d, actor, now)
    ensures |after.db.tasks| ==
            |flow.db.tasks| + (if Routed(cfg, dir, flow, c, d) && !Continued(flow.db.tasks, c) then 1 else 0)
    ensures |after.db.tasks| > |flow.db.tasks| ==>
              Succeeds(flow, c, d, actor, after.db.tasks[|flow.db.tasks|])
    ensures |after.db.runs| > |flow.db.runs| ==> Routed(cfg, dir, flow, c, d)
    ensures !Routed(cfg, dir, flow, c, d) ==>
              after.db == flow.db && FailedWith(after, c, Obstacle(cfg, dir, flow, c, d))
    ensures FailedWith(after, c, DENIED) <==> AgentsReady(cfg, dir, flow, c, d) && !Routed(cfg, dir, flow, c, d)
  {
    hide CreateSuccessor, DispatchTask, Routed, AgentsReady, Inherits, Continued, Obstacle;
    ObstaclesAreNamed(cfg, dir, flow, c, d);
    var step := CreateSuccessor(cfg, dir, flow, c, d, actor);
    SuccessorsAreRouted(cfg, dir, flow, c, d, actor, step);
    if step.out.Ok? {
      var next := EnlistSuccessor(cfg, cat, flow.(db := step.db), c, step.out.id, d, actor, now);
      DispatchAppends(cfg, cat, step.db, step.out.id, actor, WorkflowDispatch(c), RequestFor(cfg, d), now, next);
      DispatchSaysOtherwise(
        cfg, cat, step.db, step.out.id, actor, WorkflowDispatch(c), RequestFor(cfg, d), now, next);
    }
  }

  // ---- What a retry and a dispatch do -------------------------------------------------------------

  /** The run was dispatched for the directive, under the continuation's own key. */
  predicate RunsFor(cfg: Settings, c: Id, d: Directive, task: Id, row: Run) {
    && row.key == WorkflowDispatch(c) && row.task == task && row.worker == d.target && row.profile == d.profile
    && row.request.worker == d.target && row.request.profile == d.profile && !row.request.requiresApproval
    && row.request.timeoutSeconds == cfg.workflowTimeoutSeconds
  }

  lemma EnlistsFor(
    cfg: Settings, cat: Catalog, db: Db, task: Id, c: Id, d: Directive, actor: string, now: Time, step: Step)
    requires step == DispatchTask(cfg, cat, db, task, actor, WorkflowDispatch(c), RequestFor(cfg, d), now)
    ensures |db.runs| <= |step.db.runs| <= |db.runs| + 1 && SameTasks(db.tasks, step.db.tasks)
    ensures |step.db.runs| > |db.runs| ==> step.out.Ok? && RunsFor(cfg, c, d, task, step.db.runs[|db.runs|])
    ensures step.out.Ok? && |step.db.runs| == |db.runs| ==> Has(step.db.runs, RunKeyed(WorkflowDispatch(c)))
  {
    hide DispatchTask;
    var p := RequestFor(cfg, d);
    DispatchAppends(cfg, cat, db, task, actor, WorkflowDispatch(c), p, now, step);
    if Admission.Dispatched(step) {
      DispatchShape(cfg, cat, db, task, actor, WorkflowDispatch(c), p, now, step);
    }
  }

  /** The source task may be dispatched again: the chain above it is sound and the agent is active. */
  predicate Retriable(cfg: Settings, dir: Directory, flow: Flow, c: Id, d: Directive) {
    && Live(flow, c)
    && WithinDepth(cfg, flow.db.tasks, flow.db.runs[flow.events[flow.continuations[c].event].run].task, 0)
    && OnDuty(dir, d.target)
  }

  /** A retry dispatches the source task, and only while it may be. */
  lemma RetriesAreChecked(
    cfg: Settings, dir: Directory, cat: Catalog, flow: Flow, c: Id, d: Directive, actor: string, now: Time, step: Step)
    requires Live(flow, c) && step == RetrySource(cfg, dir, cat, flow, c, d, actor, now)
    ensures !Retriable(cfg, dir, flow, c, d) ==>
              var task := flow.db.runs[flow.events[flow.continuations[c].event].run].task;
              step == Step(flow.db, Refused(
                if WithinDepth(cfg, flow.db.tasks, task, 0) then OffDuty(d.target) else BadChain(flow.db.tasks, task)))
    ensures |flow.db.runs| <= |step.db.runs| <= |flow.db.runs| + 1 && SameTasks(flow.db.tasks, step.db.tasks)
    ensures |step.db.runs| > |flow.db.runs| ==>
              && step.out.Ok? && Retriable(cfg, dir, flow, c, d)
              && RunsFor(cfg, c, d, flow.db.runs[flow.events[flow.continuations[c].event].run].task,
                         step.db.runs[|flow.db.runs|])
    ensures step.out.Ok? && |step.db.runs| == |flow.db.runs| ==> Has(step.db.runs, RunKeyed(WorkflowDispatch(c)))
  {
    hide DispatchTask, DepthProblem, AgentProblem, WithinDepth, OnDuty;
    var task := SourceRun(flow, c).task;
    DepthIsChecked(cfg, flow.db.tasks, task, 0);
    DutyIsChecked(dir, d.target);
    if Retriable(cfg, dir, flow, c, d) {
      EnlistsFor(cfg, cat, flow.db, task, c, d, actor, now, step);
    }
  }

  lemma ResumesRunFor(
    cfg: Settings, dir: Directory, cat: Catalog, flow: Flow, c: Id, d: Directive, actor: string, now: Time, after: Flow)
    requires Live(flow, c) && after == ResumePass(cfg, dir, cat, flow, c, d, actor, now)
    ensures |flow.db.runs| <= |after.db.runs| <= |flow.db.runs| + 1
    ensures |after.db.runs| > |flow.db.runs| ==>
              var row := after.db.runs[|flow.db.runs|];
              && RunsFor(cfg, c, d, row.task, row) && row.task < |after.db.tasks|
              && after.db.tasks[row.task].key == WorkflowTask(c)
    ensures |after.continuations| == |flow.continuations|
    ensures after.continuations[c].status in {Records.Dispatched, Failed}
    ensures after.continuations[c].status == Records.Dispatched ==> Has(after.db.runs, RunKeyed(WorkflowDispatch(c)))
  {
    hide CreateSuccessor, DispatchTask, Routed, Succeeds, RunsFor;
    var step := CreateSuccessor(cfg, dir, flow, c, d, actor);
    SuccessorIsKeyed(cfg, dir, flow, c, d, actor, step);
    if step.out.Ok? {
      var next := EnlistSuccessor(cfg, cat, flow.(db := step.db), c, step.out.id, d, actor, now);
      EnlistsFor(cfg, cat, step.db, step.out.id, c, d, actor, now, next);
      RunIsKeyed(cfg, step.db, next.db, c, d, step.out.id, next.out);
    }
  }

  lemma RunIsKeyed(cfg: Settings, db: Db, after: Db, c: Id, d: Directive, task: Id, out: Outcome)
    requires |db.runs| <= |after.runs|
    requires |after.runs| > |db.runs| ==> RunsFor(cfg, c, d, task, after.runs[|db.runs|])
    requires out.Ok? && |after.runs| == |db.runs| ==> Has(after.runs, RunKeyed(WorkflowDispatch(c)))
    ensures out.Ok? ==> Has(after.runs, RunKeyed(WorkflowDispatch(c)))
    ensures |after.runs| > |db.runs| ==> after.runs[|db.runs|].task == task
  {
    if |after.runs| > |db.runs| {
      assert RunKeyed(WorkflowDispatch(c))(after.runs[|db.runs|]);
    }
  }

  lemma SuccessorIsKeyed(
    cfg: Settings, dir: Directory, flow: Flow, c: Id, d: Directive, actor: string, step: Step)
    requires Live(flow, c) && step == CreateSuccessor(cfg, dir, flow, c, d, actor)
    ensures step.db.runs == flow.db.runs
    ensures step.out.Ok? ==> step.out.id < |step.db.tasks| && step.db.tasks[step.out.id].key == WorkflowTask(c)
  {
    hide ResumeProblem, SuccessorPayload, DepthOf;
  }

  /** A pending continuation is processed as its directive says, and what is left of it says how that went. */
  lemma ProcessedAsDirected(
    cfg: Settings, dir: Directory, cat: Catalog, flow: Flow, c: Id, actor: string, now: Time, after: Flow)
    requires Live(flow, c) && after == ProcessPass(cfg, dir, cat, flow, c, actor, now)
    ensures |flow.db.runs| <= |after.db.runs| && |flow.db.tasks| <= |after.db.tasks|
    ensures |after.continuations| == |flow.continuations|
    ensures after.continuations[c].status in {Records.Dispatched, Failed}
    ensures after.continuations[c].status == Records.Dispatched ==> Has(after.db.runs, RunKeyed(WorkflowDispatch(c)))
    ensures flow.continuations[c].directive.None? ==>
              after.db == flow.db && FailedWith(after, c, "workflow_directive_missing")
    ensures flow.continuations[c].directive.Some? ==>
              var d, source := flow.continuations[c].directive.value,
                               flow.db.runs[flow.events[flow.continuations[c].event].run].task;
              if d.retrySource then
                && |after.db.tasks| == |flow.db.tasks|
                && (|after.db.runs| > |flow.db.runs| ==>
                      Retriable(cfg, dir, flow, c, d) && RunsFor(cfg, c, d, source, after.db.runs[|flow.db.runs|]))
              else
                && (|after.db.tasks| > |flow.db.tasks| <==>
                      Routed(cfg, dir, flow, c, d) && !Continued(flow.db.tasks, c))
                && (|after.db.runs| > |flow.db.runs| ==>
                      var row := after.db.runs[|flow.db.runs|];
                      && Routed(cfg, dir, flow, c, d) && RunsFor(cfg, c, d, row.task, row)
                      && row.task < |after.db.tasks| && after.db.tasks[row.task].key == WorkflowTask(c))
  {
    hide ResumePass, RetrySource, Routed, AgentsReady, Retriable, Succeeds, RunsFor, Continued;
    if flow.continuations[c].directive.Some? {
      var d := flow.continuations[c].directive.value;
      if d.retrySource {
        var step := RetrySource(cfg, dir, cat, flow, c, d, actor, now);
        RetriesAreChecked(cfg, dir, cat, flow, c, d, actor, now, step);
        RunIsKeyed(cfg, flow.db, step.db, c, d, SourceRun(flow, c).task, step.out);
      } else {
        ResumesAreRouted(cfg, dir, cat, flow, c, d, actor, now, after);
        ResumesRunFor(cfg, dir, cat, flow, c, d, actor, now, after);
      }
    }
  }

  // ---- Histories ------------------------------------------------------------------------------------

  /** The transaction created the successor of its continuation, along a way that was clear in its directory. */
  ghost predicate CameBy(cfg: Settings, flow: Flow, commit: Commit, c: Id, row: Task) {
    && commit.Succeed? && commit.continuation == c && Live(flow, c) && flow.continuations[c].directive.Some?
    && Routed(cfg, commit.dir, flow, c, flow.continuations[c].directive.value)
    && Succeeds(flow, c, flow.continuations[c].directive.value, commit.actor, row)
  }

  lemma OnlySucceedCreates(cfg: Settings, flow: Flow, commit: Commit, now: Time, after: Flow, t: Id, c: Id)
    requires Wired(cfg, flow) && Permitted(flow, commit, now) && after == Advance(cfg, flow, commit, now)
    requires |flow.db.tasks| <= t < |after.db.tasks| && after.db.tasks[t].key == WorkflowTask(c)
    ensures CameBy(cfg, flow, commit, c, after.db.tasks[t])
  {
    hide Inv, Fits, Apply, CreateSuccessor, RetrySource, EnlistSuccessor, Routed, Succeeds, DiscoverEvent;
    match commit
    case Outside(cmd) => OutsideTasks(cfg, flow.db, cmd, now, Apply(cfg, flow.db, cmd, now));
    case Succeed(k, dir, actor) =>
      var d := flow.continuations[k].directive.value;
      SuccessorsAreRouted(cfg, dir, flow, k, d, actor, CreateSuccessor(cfg, dir, flow, k, d, actor));
      SucceedsUnderKey(flow, k, d, actor, after.db.tasks[|flow.db.tasks|]);
    case Enlist(k, cat, actor) => EnlistTasks(cfg, flow, k, cat, actor, now, after);
    case Redispatch(k, dir, cat, actor) =>
      var d := flow.continuations[k].directive.value;
      RetriesAreChecked(cfg, dir, cat, flow, k, d, actor, now, RetrySource(cfg, dir, cat, flow, k, d, actor, now));
    case Discover(event, cat, artifacts) => DiscoveryShape(cfg, cat, flow, event, artifacts, after);
    case _ =>
  }

  lemma SucceedsUnderKey(flow: Flow, k: Id, d: Directive, actor: string, row: Task)
    requires Live(flow, k) && Succeeds(flow, k, d, actor, row)
    ensures row.key == WorkflowTask(k)
  {
  }

  lemma OutsideTasks(cfg: Settings, db: Db, cmd: Command, now: Time, step: Step)
    requires Inv(cfg, db) && step == Apply(cfg, db, cmd, now) && (cmd.Create? ==> cmd.key.Named?)
    ensures |db.tasks| <= |step.db.tasks|
    ensures forall t :: |db.tasks| <= t < |step.db.tasks| ==> step.db.tasks[t].key.Named?
  {
    hide Inv, Apply;
    if cmd.Create? {
      CreatedTasks(cfg, db, cmd, now, step);
    } else if cmd.Dispatch? {
      DispatchedTasks(cfg, db, cmd, now, step);
    } else {
      OthersCarry(cfg, db, cmd, now, step);
    }
  }

  lemma CreatedTasks(cfg: Settings, db: Db, cmd: Command, now: Time, step: Step)
    requires cmd.Create? && step == Apply(cfg, db, cmd, now) && cmd.key.Named?
    ensures |db.tasks| <= |step.db.tasks|
    ensures forall t :: |db.tasks| <= t < |step.db.tasks| ==> step.db.tasks[t].key.Named?
  {
    hide CreateTask;
    CreateAppends(db, cmd.actor, cmd.key, cmd.payload, step);
  }

  lemma DispatchedTasks(cfg: Settings, db: Db, cmd: Command, now: Time, step: Step)
    requires cmd.Dispatch? && step == Apply(cfg, db, cmd, now)
    ensures |step.db.tasks| == |db.tasks|
  {
    hide DispatchTask;
    DispatchAppends(cfg, cmd.cat, db, cmd.task, cmd.actor, cmd.key, cmd.request, now, step);
  }

  lemma EnlistTasks(cfg: Settings, flow: Flow, k: Id, cat: Catalog, actor: string, now: Time, after: Flow)
    requires after == Advance(cfg, flow, Enlist(k, cat, actor), now)
    ensures |after.db.tasks| == |flow.db.tasks|
  {
    hide DispatchTask;
    var successor := Last(flow.db.tasks, TaskKeyed(WorkflowTask(k)));
    if Directed(flow, k, false) && successor.Some? {
      var d := flow.continuations[k].directive.value;
      EnlistsFor(cfg, cat, flow.db, successor.value, k, d, actor, now,
        EnlistSuccessor(cfg, cat, flow, k, successor.value, d, actor, now));
    }
  }

  lemma CameByKept(cfg: Settings, flow: Flow, commit: Commit, c: Id, row: Task, later: Task)
    requires CameBy(cfg, flow, commit, c, row)
    requires later.key == row.key && later.requester == row.requester && later.payload == row.payload
    ensures CameBy(cfg, flow, commit, c, later)
  {
    hide Routed, Inherits;
  }

  /**
    Whatever the interleaving and the crashes, every successor was created by one transaction of the coordinator
    that found, in the directory it acted on, both agents active and a live edge from the worker of the continued
    run to the successor's assignee for the class and scope of the directive.
   */
  lemma {:induction false} SuccessorsHadRoutes(cfg: Settings, history: seq<Entry>, t: Id, c: Id) returns (i: Id)
    requires Admissible(cfg, QUIET_START, history)
    requires t < |Unroll(cfg, QUIET_START, history).db.tasks|
    requires Unroll(cfg, QUIET_START, history).db.tasks[t].key == WorkflowTask(c)
    ensures i < |history|
    ensures CameBy(cfg, Unroll(cfg, QUIET_START, history[..i]), history[i].commit, c,
                   Unroll(cfg, QUIET_START, history).db.tasks[t])
  {
    hide Inv, Fits, Advance, Permitted, CameBy;
    if history == [] {
      assert false;
    } else {
      var init, last := history[..|history| - 1], history[|history| - 1];
      var before, after := Unroll(cfg, QUIET_START, init), Unroll(cfg, QUIET_START, history);
      StartIsWired(cfg);
      WorkIsBounded(cfg, QUIET_START, init);
      GrowthStep(cfg, before, last.commit, last.now, after);
      if t < |before.db.tasks| {
        i := SuccessorsHadRoutes(cfg, init, t, c);
        assert init[..i] == history[..i];
        CameByKept(
          cfg, Unroll(cfg, QUIET_START, history[..i]), history[i].commit, c, before.db.tasks[t], after.db.tasks[t]);
      } else {
        i := |history| - 1;
        OnlySucceedCreates(cfg, before, last.commit, last.now, after, t, c);
      }
    }
  }
}
