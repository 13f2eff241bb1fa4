/**
  Workflow continuations: how a terminal run event becomes a retry of its task or a successor task.
  Each function is one transaction of the coordinator, so a crash can fall between any two of them.
 */
module Workflow {
  import opened Tables
  import opened Records
  import opened Limits
  import opened Controls
  import opened Lifecycle
  import opened Chains

  datatype RunEvent = RunEvent(run: Id, kind: string, terminal: bool)

  datatype Directive = Directive(
    outcome: string,
    target: string,
    action: string,
    profile: string,
    retrySource: bool,
    scope: Json,
    taskClass: Option<string>)

  /** `summary`, `artifacts` and `directive` are the parts of the context snapshot that are read back. */
  datatype Continuation = Continuation(
    task: Id,
    event: Id,
    target: string,
    action: string,
    status: Status,
    summary: Option<string>,
    artifacts: seq<string>,
    directive: Option<Directive>,
    failure: Option<string>)

  /** The audit row that marks an event as consumed without a continuation. */
  datatype Skip = Skip(event: Id, reason: string)

  datatype Flow = Flow(db: Db, events: seq<RunEvent>, continuations: seq<Continuation>, skips: seq<Skip>)

  datatype Edge = Edge(source: string, target: string, classes: set<string>, scopes: set<Json>, live: bool)

  /** Active agents by slug, and the communication edges between them. */
  datatype Directory = Directory(agents: set<string>, edges: seq<Edge>)

  // ---- Row predicates -------------------------------------------------------------------------

  function TriggeredBy(event: Id): Continuation -> bool {
    (c: Continuation) => c.event == event
  }

  function SkipOf(event: Id): Skip -> bool {
    (s: Skip) => s.event == event
  }

  function OpenOn(task: Id): Continuation -> bool {
    (c: Continuation) => c.task == task && c.status != Failed
  }

  function Twin(event: Id, target: string, action: string): Continuation -> bool {
    (c: Continuation) => c.event == event && c.target == target && c.action == action
  }

  predicate Enabled(payload: TaskPayload) {
    payload.workflowRef.Some? && JsonAt(payload.budget, "workflow_auto_continue") == Bool(true)
  }

  /** The discovery query's condition on an event. */
  function Trigger(db: Db): RunEvent -> bool {
    (e: RunEvent) =>
      && e.terminal && e.run < |db.runs| && db.runs[e.run].task < |db.tasks|
      && Enabled(db.tasks[db.runs[e.run].task].payload)
  }

  predicate Known(flow: Flow, event: Id) {
    && event < |flow.events| && flow.events[event].run < |flow.db.runs|
    && flow.db.runs[flow.events[event].run].task < |flow.db.tasks|
  }

  predicate Seen(flow: Flow, event: Id) {
    Has(flow.continuations, TriggeredBy(event)) || Has(flow.skips, SkipOf(event))
  }

  /** The discovery query returns the oldest triggers, seen or not, up to four batches. */
  predicate InBatch(cfg: Settings, flow: Flow, event: Id) {
    && event < |flow.events| && Trigger(flow.db)(flow.events[event])
    && Count(flow.events[..event], Trigger(flow.db)) < 4 * cfg.workflowBatch
  }

  // ---- Directives -----------------------------------------------------------------------------

  const AGENT := "agent:"

  function EventOutcome(db: Db, event: RunEvent): string
    requires event.run < |db.runs| && db.runs[event.run].task < |db.tasks|
  {
    var run := db.runs[event.run];
    if run.status in {Failed, TimedOut} || event.kind in {"run.failed", "run.timed_out"} then "failed"
    else if || db.tasks[run.task].status == Blocked
            || (run.details.handoff.Some? && run.details.handoff.value.handoff.outcome == "blocked")
    then "blocked"
    else "completed"
  }

  datatype Plan = Nothing | Propose(directive: Directive) | Raise(code: string)

  function TextAt(budget: Budget, field: string): Option<string> {
    match JsonAt(budget, field)
    case Str(s) => if s == "" then None else Some(s)
    case _ => None
  }

  /** The parent's assignee if it is an agent, else its requester if that is one. */
  function ParentActor(parent: Task): Option<string> {
    if parent.payload.assignee.Some? && AGENT <= parent.payload.assignee.value then parent.payload.assignee
    else if AGENT <= parent.requester then Some(parent.requester)
    else None
  }

  function LatestProfile(runs: seq<Run>, task: Id): Option<string> {
    match Last(runs, OfTask(task))
    case Some(i) => Some(runs[i].profile)
    case None => None
  }

  function DirectiveFor(cfg: Settings, cat: Catalog, db: Db, event: RunEvent): Plan
    requires event.run < |db.runs| && db.runs[event.run].task < |db.tasks|
  {
    var run := db.runs[event.run];
    var task := db.tasks[run.task];
    var budget := task.payload.budget;
    var outcome := EventOutcome(db, event);
    var scope := if "workflow_scope" in budget then budget["workflow_scope"] else Str("tradix");
    if !Enabled(task.payload) then Nothing
    else if && outcome == "failed"
            && ("workflow_retry_failed" in budget ==> budget["workflow_retry_failed"] == Bool(true))
            && Count(db.runs, OfTask(run.task))
               <= LimitsFor(cfg, cat.budgets, ScopeOf(task, run.worker, run.profile)).maxRetries
    then Propose(Directive(outcome, run.worker, "retry_failed", run.profile, true, scope, None))
    else match task.payload.parent
      case None => Nothing
      case Some(p) =>
        if p >= |db.tasks| then Raise("workflow_parent_missing")
        else match ParentActor(db.tasks[p])
          case None => Raise("workflow_parent_actor_missing")
          case Some(target) =>
            var profile := TextAt(budget, "workflow_profile_id").GetOr(LatestProfile(db.runs, p).GetOr(run.profile));
            Propose(Directive(outcome, target, "resume_" + outcome, profile, false, scope,
                              TextAt(budget, "workflow_handoff_class")))
  }

  // ---- Discovery ------------------------------------------------------------------------------

  function MaxContinuations(cfg: Settings, budget: Budget): int {
    match JsonAt(budget, "max_fan_out")
    case Int(n) => Max(0, Min(cfg.maxFanOut, n))
    case _ => cfg.maxFanOut
  }

  function Clip(s: string, n: nat): string {
    if |s| <= n then s else s[..n]
  }

  function Summarised(run: Run): Option<string> {
    match run.summary
    case Some(s) => if s == "" then None else Some(Clip(s, 4000))
    case None => None
  }

  datatype Made = Made(flow: Flow, out: Outcome)

  function SkipEvent(flow: Flow, event: Id, reason: string): Made {
    Made(flow.(skips := flow.skips + [Skip(event, reason)]), Refused(reason))
  }

  function CreateContinuation(
    cfg: Settings, flow: Flow, event: Id, target: string, action: string, artifacts: seq<string>): Made
  {
    if !Known(flow, event) then Made(flow, Refused("event_not_found"))
    else
      var run := flow.db.runs[flow.events[event].run];
      var task := flow.db.tasks[run.task];
      if !flow.events[event].terminal then SkipEvent(flow, event, "event_not_terminal")
      else if task.status == Cancelled || run.status == Cancelled || flow.events[event].kind == "run.cancelled" then
        SkipEvent(flow, event, "workflow_cancelled")
      else match Last(flow.continuations, Twin(event, target, action))
        case Some(c) => Made(flow, Ok(c, true))
        case None =>
          if Count(flow.continuations, OpenOn(run.task)) >= MaxContinuations(cfg, task.payload.budget) then
            SkipEvent(flow, event, "workflow_budget_exhausted")
          else
            var row := Continuation(run.task, event, target, action, Pending, Summarised(run), artifacts, None, None);
            Made(flow.(continuations := flow.continuations + [row]), Ok(|flow.continuations|, false))
  }

  /** One turn of the discovery loop; only `Raise` would end the loop early. */
  function DiscoverEvent(cfg: Settings, cat: Catalog, flow: Flow, event: Id, artifacts: seq<string>): Flow {
    if !InBatch(cfg, flow, event) || Seen(flow, event) then flow
    else match DirectiveFor(cfg, cat, flow.db, flow.events[event])
      case Propose(d) => CreateContinuation(cfg, flow, event, d.target, d.action, artifacts).flow
      case _ => flow
  }

  /** The directive is stored by a second transaction. */
  function StoreDirective(flow: Flow, c: Id, directive: Directive): Flow {
    if c < |flow.continuations| && flow.continuations[c].directive.None? then
      PutContinuation(flow, c, flow.continuations[c].(directive := Some(directive)))
    else flow
  }

  function PutContinuation(flow: Flow, c: Id, row: Continuation): Flow
    requires c < |flow.continuations|
  {
    flow.(continuations := flow.continuations[c := row])
  }

  // ---- Processing -----------------------------------------------------------------------------

  predicate Live(flow: Flow, c: Id) {
    c < |flow.continuations| && flow.continuations[c].status == Pending && Known(flow, flow.continuations[c].event)
  }

  function SourceRun(flow: Flow, c: Id): Run
    requires Live(flow, c)
  {
    flow.db.runs[flow.events[flow.continuations[c].event].run]
  }

  /** The depth a task may have below its root. */
  function DepthLimit(cfg: Settings, budget: Budget): int {
    match JsonAt(budget, "workflow_max_depth")
    case Int(n) => Max(0, Min(cfg.workflowMaxDepth, n))
    case _ => cfg.workflowMaxDepth
  }

  function DepthProblem(cfg: Settings, tasks: seq<Task>, task: Id, extra: nat): Option<string>
    requires task < |tasks|
  {
    match DepthOf(tasks, task)
    case ParentMissing => Some("workflow_parent_missing")
    case CycleDetected => Some("workflow_cycle_detected")
    case Deep(n) =>
      if n + extra > DepthLimit(cfg, tasks[task].payload.budget) then Some("workflow_depth_exceeded") else None
  }

  function AgentProblem(dir: Directory, actor: string): Option<string> {
    if !(AGENT <= actor) then Some("workflow_target_invalid")
    else if WithoutPrefix(actor, AGENT) !in dir.agents then Some("workflow_target_unavailable")
    else None
  }

  predicate Allows(e: Edge, source: string, target: string, taskClass: string, scope: Json) {
    e.source == source && e.target == target && e.live && taskClass in e.classes && scope in e.scopes
  }

  /** Some live edge carries the class and the scope; without a class, any but "visibility" will do. */
  predicate HasHandoffEdge(dir: Directory, source: string, target: string, scope: Json, taskClass: Option<string>) {
    exists e, c :: e in dir.edges && c in e.classes
      && Allows(e, WithoutPrefix(source, AGENT), WithoutPrefix(target, AGENT), c, scope)
      && (match taskClass case Some(wanted) => c == wanted case None => c != "visibility")
  }

  function OrCheck(first: Option<string>, second: Option<string>): Option<string> {
    if first.Some? then first else second
  }

  function RetryProblem(cfg: Settings, dir: Directory, flow: Flow, c: Id, d: Directive): Option<string>
    requires Live(flow, c)
  {
    OrCheck(DepthProblem(cfg, flow.db.tasks, SourceRun(flow, c).task, 0), AgentProblem(dir, d.target))
  }

  function ResumeProblem(cfg: Settings, dir: Directory, flow: Flow, c: Id, d: Directive): Option<string>
    requires Live(flow, c)
  {
    var run := SourceRun(flow, c);
    OrCheck(DepthProblem(cfg, flow.db.tasks, run.task, 1),
    OrCheck(AgentProblem(dir, run.worker),
    OrCheck(AgentProblem(dir, d.target),
      if HasHandoffEdge(dir, run.worker, d.target, d.scope, d.taskClass) then None
      else Some("workflow_communication_denied"))))
  }

  /** `list(dict.fromkeys(xs))`: first occurrences, in order. */
  function Distinct(xs: seq<string>): seq<string> {
    if xs == [] then []
    else
      var rest, x := Distinct(xs[..|xs| - 1]), xs[|xs| - 1];
      if x in rest then rest else rest + [x]
  }

  function SuccessorBudget(budget: Budget, c: Id, depth: int): Budget {
    (map k | k in budget && !("workflow_" <= k) :: budget[k])
      ["workflow_depth" := Int(depth)]
      ["workflow_source_continuation_id" := Int(c)]
      ["workflow_auto_continue" := Bool(true)]
  }

  function SuccessorPayload(flow: Flow, c: Id, d: Directive, depth: int): TaskPayload
    requires Live(flow, c)
  {
    var run, row := SourceRun(flow, c), flow.continuations[c];
    var source := flow.db.tasks[run.task].payload;
    var summary := OrElse(row.summary, OrElse(run.summary, "Sin resumen terminal"));
    var references := Distinct(source.references + row.artifacts);
    TaskPayload(
      Some(run.task), source.workflowRef, Some(d.target), None, false, source.priority,
      "Reanuda el workflow " + source.workflowRef.GetOr("None") + " tras resultado " + d.outcome
        + " de la tarea " + Decimal(run.task) + ". Contexto terminal: " + Clip(summary, 2000),
      ["Revisar el contexto terminal y la tarea padre",
       "Decidir y registrar el siguiente paso durable del workflow"],
      SuccessorBudget(source.budget, c, depth),
      if |references| <= 20 then references else references[..20],
      [], source.deadline)
  }

  function RequestFor(cfg: Settings, d: Directive): DispatchPayload {
    DispatchPayload(d.target, d.profile, cfg.workflowTimeoutSeconds, false, "dispatch", 900)
  }

  /** `_retry`: dispatch the source task again. */
  function RetrySource(
    cfg: Settings, dir: Directory, cat: Catalog, flow: Flow, c: Id, d: Directive, actor: string, now: Time): Step
    requires Live(flow, c)
  {
    match RetryProblem(cfg, dir, flow, c, d)
    case Some(code) => Step(flow.db, Refused(code))
    case None =>
      DispatchTask(cfg, cat, flow.db, SourceRun(flow, c).task, actor, WorkflowDispatch(c), RequestFor(cfg, d), now)
  }

  /** `_resume`, first transaction: create the successor task. */
  function CreateSuccessor(cfg: Settings, dir: Directory, flow: Flow, c: Id, d: Directive, actor: string): Step
    requires Live(flow, c)
  {
    match ResumeProblem(cfg, dir, flow, c, d)
    case Some(code) => Step(flow.db, Refused(code))
    case None =>
      var depth := DepthOf(flow.db.tasks, SourceRun(flow, c).task).n + 1;
      CreateTask(flow.db, actor, WorkflowTask(c), SuccessorPayload(flow, c, d, depth))
  }

  /** `_resume`, second transaction: dispatch the successor. */
  function EnlistSuccessor(
    cfg: Settings, cat: Catalog, flow: Flow, c: Id, task: Id, d: Directive, actor: string, now: Time): Step
  {
    DispatchTask(cfg, cat, flow.db, task, actor, WorkflowDispatch(c), RequestFor(cfg, d), now)
  }

  /** A permitted transition of a continuation; only a failure has a code. */
  function Settle(flow: Flow, c: Id, status: Status, failure: Option<string>): Flow
    requires c < |flow.continuations|
  {
    var row := flow.continuations[c];
    PutContinuation(flow, c, row.(
      status := status,
      failure := if status == Failed then Some(OrElse(failure, "dispatch_failed")) else row.failure))
  }

  predicate MayContinue(from: Status, to: Status) {
    match from
    case Pending => to in {Dispatched, Failed}
    case Dispatched => to == Failed
    case _ => false
  }

  function TransitionContinuation(flow: Flow, c: Id, status: Status, failure: Option<string>): Made {
    if c >= |flow.continuations| then Made(flow, Refused("continuation_not_found"))
    else if status !in {Pending, Dispatched, Failed} then Made(flow, Refused("invalid_continuation_status"))
    else if !MayContinue(flow.continuations[c].status, status) then
      Made(flow, Refused("invalid_continuation_transition"))
    else Made(Settle(flow, c, status, failure), Ok(c, false))
  }

  // ---- Transactions ---------------------------------------------------------------------------

  datatype Commit =
    | Outside(cmd: Command)
    | Record(event: RunEvent)
    | Discover(trigger: Id, cat: Catalog, artifacts: seq<string>)
    | Annotate(continuation: Id, directive: Directive)
    | Succeed(continuation: Id, dir: Directory, actor: string)
    | Enlist(continuation: Id, cat: Catalog, actor: string)
    | Redispatch(continuation: Id, dir: Directory, cat: Catalog, actor: string)
    | Confirm(continuation: Id)
    | Abandon(continuation: Id, code: string)

  /** Processing stores rows only for a pending continuation whose directive is stored. */
  predicate Directed(flow: Flow, c: Id, retry: bool) {
    Live(flow, c) && flow.continuations[c].directive.Some? && flow.continuations[c].directive.value.retrySource == retry
  }

  /** One transaction, of the coordinator or of anybody else, at any moment. */
  function Advance(cfg: Settings, flow: Flow, commit: Commit, now: Time): Flow {
    match commit
    case Outside(cmd) => flow.(db := Apply(cfg, flow.db, cmd, now).db)
    case Record(event) => flow.(events := flow.events + [event])
    case Discover(event, cat, artifacts) => DiscoverEvent(cfg, cat, flow, event, artifacts)
    case Annotate(c, directive) => StoreDirective(flow, c, directive)
    case Succeed(c, dir, actor) =>
      if Directed(flow, c, false)
      then flow.(db := CreateSuccessor(cfg, dir, flow, c, flow.continuations[c].directive.value, actor).db)
      else flow
    case Enlist(c, cat, actor) =>
      var successor := Last(flow.db.tasks, TaskKeyed(WorkflowTask(c)));
      if Directed(flow, c, false) && successor.Some? then
        flow.(db := EnlistSuccessor(cfg, cat, flow, c, successor.value, flow.continuations[c].directive.value,
                                    actor, now).db)
      else flow
    case Redispatch(c, dir, cat, actor) =>
      if Directed(flow, c, true)
      then flow.(db := RetrySource(cfg, dir, cat, flow, c, flow.continuations[c].directive.value, actor, now).db)
      else flow
    case Confirm(c) =>
      if Live(flow, c) && Has(flow.db.runs, RunKeyed(WorkflowDispatch(c)))
      then Settle(flow, c, Dispatched, None)
      else flow
    case Abandon(c, code) =>
      if Live(flow, c) then Settle(flow, c, Failed, Some(code)) else flow
  }
}
