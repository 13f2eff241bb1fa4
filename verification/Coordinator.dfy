/** The workflow coordinator as it runs, on top of the lifecycle services of one session. */
module Coordinator {
  import opened Tables
  import opened Records
  import opened Limits
  import opened Controls
  import opened Lifecycle
  import opened Chains
  import opened Workflow
  import opened ControlPlane
  import R = AgentRequests

  // ---- One pass, transaction by transaction -----------------------------------------------------

  /** A pass of the discovery loop from event `e` on, and the error that ended it early, if any. */
  datatype Pass = Pass(flow: Flow, raised: Option<string>)

  function DiscoverPass(cfg: Settings, cat: Catalog, flow: Flow, e: Id, artifacts: Id -> seq<string>): Pass
    decreases |flow.events| - e
  {
    if e >= |flow.events| then Pass(flow, None)
    else
      var turn := DiscoverOne(cfg, cat, flow, e, artifacts(e));
      if turn.raised.Some? then turn else DiscoverPass(cfg, cat, turn.flow, e + 1, artifacts)
  }

  /** One turn of the loop: an event outside the batch or already seen is passed over. */
  function DiscoverOne(cfg: Settings, cat: Catalog, flow: Flow, e: Id, artifacts: seq<string>): (turn: Pass)
    ensures turn.flow.events == flow.events && turn.flow.db == flow.db
  {
    if !InBatch(cfg, flow, e) || Seen(flow, e) then Pass(flow, None)
    else match DirectiveFor(cfg, cat, flow.db, flow.events[e])
      case Nothing => Pass(flow, None)
      case Raise(code) => Pass(flow, Some(code))
      case Propose(d) => Pass(Proposed(cfg, flow, e, d, artifacts), None)
  }

  /** Both transactions of a discovered event: the continuation, then its directive. */
  function Proposed(cfg: Settings, flow: Flow, e: Id, d: Directive, artifacts: seq<string>): (after: Flow)
    ensures after.events == flow.events && after.db == flow.db
  {
    var made := Workflow.CreateContinuation(cfg, flow, e, d.target, d.action, artifacts);
    if made.out.Ok? && made.out.id < |made.flow.continuations| then
      PutContinuation(made.flow, made.out.id, made.flow.continuations[made.out.id].(directive := Some(d)))
    else made.flow
  }

  function Settled(flow: Flow, c: Id, out: Outcome): Flow
    requires c < |flow.continuations|
  {
    match out
    case Ok(_, _) => Settle(flow, c, Dispatched, None)
    case Refused(code) => Settle(flow, c, Failed, Some(code))
  }

  function RetryPass(
    cfg: Settings, dir: Directory, cat: Catalog, flow: Flow, c: Id, d: Directive, actor: string, now: Time): Flow
    requires Live(flow, c)
  {
    var step := RetrySource(cfg, dir, cat, flow, c, d, actor, now);
    Settled(flow.(db := step.db), c, step.out)
  }

  /** The rest of a resume, once the successor exists or was refused. */
  function Enlisted(
    cfg: Settings, cat: Catalog, created: Flow, c: Id, d: Directive, actor: string, now: Time, out: Outcome): Flow
    requires c < |created.continuations|
  {
    match out
    case Refused(_) => Settled(created, c, out)
    case Ok(task, _) =>
      var next := EnlistSuccessor(cfg, cat, created, c, task, d, actor, now);
      Settled(created.(db := next.db), c, next.out)
  }

  function ResumePass(
    cfg: Settings, dir: Directory, cat: Catalog, flow: Flow, c: Id, d: Directive, actor: string, now: Time): Flow
    requires Live(flow, c)
  {
    var step := CreateSuccessor(cfg, dir, flow, c, d, actor);
    Enlisted(cfg, cat, flow.(db := step.db), c, d, actor, now, step.out)
  }

  function ProcessPass(
    cfg: Settings, dir: Directory, cat: Catalog, flow: Flow, c: Id, actor: string, now: Time): Flow
  {
    if c >= |flow.continuations| || flow.continuations[c].status != Pending then flow
    else if !Known(flow, flow.continuations[c].event) then Settle(flow, c, Failed, Some("event_not_found"))
    else match flow.continuations[c].directive
      case None => Settle(flow, c, Failed, Some("workflow_directive_missing"))
      case Some(d) =>
        if d.retrySource then RetryPass(cfg, dir, cat, flow, c, d, actor, now)
        else ResumePass(cfg, dir, cat, flow, c, d, actor, now)
  }

  /** The oldest pending continuations, at most `limit` of them. */
  function PendingIds(rows: seq<Continuation>, n: nat, limit: nat): seq<Id>
    requires n <= |rows|
    decreases |rows| - n
  {
    if n == |rows| || limit == 0 then []
    else if rows[n].status == Pending then [n] + PendingIds(rows, n + 1, limit - 1)
    else PendingIds(rows, n + 1, limit)
  }

  function ProcessEach(
    cfg: Settings, dir: Directory, cat: Catalog, flow: Flow, ids: seq<Id>, actor: string, now: Time): Flow
  {
    if ids == [] then flow
    else
      ProcessPass(cfg, dir, cat, ProcessEach(cfg, dir, cat, flow, ids[..|ids| - 1], actor, now), ids[|ids| - 1],
                  actor, now)
  }

  /** One round of the coordinator: discover, then process; an escaped error ends the round. */
  function Round(
    cfg: Settings, dir: Directory, cat: Catalog, flow: Flow, artifacts: Id -> seq<string>, actor: string,
    now: Time): Pass
  {
    var found := DiscoverPass(cfg, cat, flow, 0, artifacts);
    if found.raised.Some? then found
    else
      var ids := PendingIds(found.flow.continuations, 0, cfg.workflowBatch);
      Pass(ProcessEach(cfg, dir, cat, found.flow, ids, actor, now), None)
  }

  // ---- The service ----------------------------------------------------------------------------

  /** What the agent policy's pass does to the registry, and the error that escapes from it, if any. */
  function PolicyPass(
    policy: Option<R.Policy>, reg: R.Registry, limit: nat, errors: Id -> Option<string>): R.Processed
  {
    match policy
    case None => R.Processed(reg, None)
    case Some(p) => R.ProcessBatch(p, reg, R.PolicyBatch(p, reg.asks, 0, limit), errors)
  }

  class WorkflowCoordinator {
    const session: Session
    const agents: R.AgentService
    const actor: string
    var events: seq<RunEvent>
    var continuations: seq<Continuation>
    var skips: seq<Skip>

    constructor (session: Session, agents: R.AgentService, actor: string)
      ensures this.session == session && this.agents == agents && this.actor == actor
      ensures events == [] && continuations == [] && skips == []
    {
      this.session, this.agents, this.actor := session, agents, actor;
      events, continuations, skips := [], [], [];
    }

    function View(): Flow
      reads this, session
    {
      Flow(session.Snapshot(), events, continuations, skips)
    }

    method AuditRejection(event: Id, reason: string) returns (out: Outcome)
      modifies this
      ensures Made(View(), out) == SkipEvent(old(View()), event, reason)
    {
      skips := skips + [Skip(event, reason)];
      out := Refused(reason);
    }

    method CreateWorkflowContinuation(event: Id, target: string, action: string, artifacts: seq<string>)
      returns (out: Outcome)
      modifies this
      ensures Made(View(), out)
           == Workflow.CreateContinuation(session.cfg, old(View()), event, target, action, artifacts)
    {
      if !Known(View(), event) {
        return Refused("event_not_found");
      }
      var run := session.runs[events[event].run];
      var task := session.tasks[run.task];
      if !events[event].terminal {
        out := AuditRejection(event, "event_not_terminal");
        return;
      }
      if task.status == Cancelled || run.status == Cancelled || events[event].kind == "run.cancelled" {
        out := AuditRejection(event, "workflow_cancelled");
        return;
      }
      var existing := Last(continuations, Twin(event, target, action));
      if existing.Some? {
        return Ok(existing.value, true);
      }
      var maxFanOut := MaxContinuations(session.cfg, task.payload.budget);
      var used := Count(continuations, OpenOn(run.task));
      if used >= maxFanOut {
        out := AuditRejection(event, "workflow_budget_exhausted");
        return;
      }
      out := Ok(|continuations|, false);
      continuations := continuations + [
        Continuation(run.task, event, target, action, Pending, Summarised(run), artifacts, None, None)];
    }

    method TransitionContinuation(c: Id, status: Status, failure: Option<string>) returns (out: Outcome)
      modifies this
      ensures Made(View(), out) == Workflow.TransitionContinuation(old(View()), c, status, failure)
    {
      if c >= |continuations| {
        return Refused("continuation_not_found");
      }
      if status !in {Pending, Dispatched, Failed} {
        return Refused("invalid_continuation_status");
      }
      if !MayContinue(continuations[c].status, status) {
        return Refused("invalid_continuation_transition");
      }
      var row := continuations[c].(status := status);
      if status == Failed {
        row := row.(failure := Some(OrElse(failure, "dispatch_failed")));
      }
      continuations := continuations[c := row];
      out := Ok(c, false);
    }

    /** `_discover`: errors other than a refused continuation escape and end the pass. */
    method Discover(cat: Catalog, artifacts: Id -> seq<string>) returns (raised: Option<string>)
      modifies this
      ensures Pass(View(), raised) == DiscoverPass(session.cfg, cat, old(View()), 0, artifacts)
    {
      var e, taken := 0, 0;
      while e < |events|
        invariant 0 <= e <= |events| && events == old(events) && session.Snapshot() == old(session.Snapshot())
        invariant taken == Count(events[..e], Trigger(session.Snapshot()))
        invariant DiscoverPass(session.cfg, cat, old(View()), 0, artifacts)
               == DiscoverPass(session.cfg, cat, View(), e, artifacts)
      {
        CountNext(events, e, Trigger(session.Snapshot()));
        if Trigger(session.Snapshot())(events[e]) {
          if taken < 4 * session.cfg.workflowBatch {
            raised := DiscoverNext(cat, e, artifacts(e));
            if raised.Some? {
              return;
            }
          }
          taken := taken + 1;
        }
        e := e + 1;
      }
      raised := None;
    }

    method DiscoverNext(cat: Catalog, e: Id, artifacts: seq<string>) returns (raised: Option<string>)
      requires InBatch(session.cfg, View(), e)
      modifies this
      ensures Pass(View(), raised) == DiscoverOne(session.cfg, cat, old(View()), e, artifacts)
    {
      raised := None;
      if !Seen(View(), e) {
        match DirectiveFor(session.cfg, cat, session.Snapshot(), events[e])
        case Nothing =>
        case Raise(code) => raised := Some(code);
        case Propose(d) => Propose(e, d, artifacts);
      }
    }

    method Propose(e: Id, d: Directive, artifacts: seq<string>)
      modifies this
      ensures View() == Proposed(session.cfg, old(View()), e, d, artifacts)
    {
      var created := CreateWorkflowContinuation(e, d.target, d.action, artifacts);
      if created.Ok? && created.id < |continuations| {
        continuations := continuations[created.id := continuations[created.id].(directive := Some(d))];
      }
    }

    method CheckDepth(task: Id, extra: nat) returns (problem: Option<string>)
      requires task < |session.tasks|
      ensures problem == DepthProblem(session.cfg, session.tasks, task, extra)
    {
      var depth := WorkflowDepth(session.tasks, task);
      match depth
      case ParentMissing => problem := Some("workflow_parent_missing");
      case CycleDetected => problem := Some("workflow_cycle_detected");
      case Deep(n) =>
        problem := None;
        if n + extra > DepthLimit(session.cfg, session.tasks[task].payload.budget) {
          problem := Some("workflow_depth_exceeded");
        }
    }

    method Retry(c: Id, d: Directive, dir: Directory, cat: Catalog, now: Time) returns (out: Outcome)
      requires Live(View(), c)
      modifies this, session
      ensures Step(session.Snapshot(), out)
           == RetrySource(session.cfg, dir, cat, old(View()), c, d, actor, now)
      ensures events == old(events) && continuations == old(continuations) && skips == old(skips)
    {
      var task := SourceRun(View(), c).task;
      var problem := CheckDepth(task, 0);
      if problem.Some? {
        return Refused(problem.value);
      }
      problem := AgentProblem(dir, d.target);
      if problem.Some? {
        return Refused(problem.value);
      }
      out := session.DispatchTask(cat, task, actor, WorkflowDispatch(c), RequestFor(session.cfg, d), now);
    }

    method Succeed(c: Id, d: Directive, dir: Directory) returns (out: Outcome)
      requires Live(View(), c)
      modifies this, session
      ensures Step(session.Snapshot(), out) == CreateSuccessor(session.cfg, dir, old(View()), c, d, actor)
      ensures events == old(events) && continuations == old(continuations) && skips == old(skips)
    {
      hide Lifecycle.CreateTask, SuccessorPayload, HasHandoffEdge;
      var source := SourceRun(View(), c);
      var problem := CheckDepth(source.task, 1);
      if problem.Some? {
        return Refused(problem.value);
      }
      problem := AgentProblem(dir, source.worker);
      if problem.Some? {
        return Refused(problem.value);
      }
      problem := AgentProblem(dir, d.target);
      if problem.Some? {
        return Refused(problem.value);
      }
      if !HasHandoffEdge(dir, source.worker, d.target, d.scope, d.taskClass) {
        return Refused("workflow_communication_denied");
      }
      var depth := WorkflowDepth(session.tasks, source.task);
      out := session.CreateTask(actor, WorkflowTask(c), SuccessorPayload(View(), c, d, depth.n + 1));
    }

    /** `_process`: act on a pending continuation and settle it, whatever happens. */
    method Process(c: Id, dir: Directory, cat: Catalog, now: Time)
      modifies this, session
      ensures View() == ProcessPass(session.cfg, dir, cat, old(View()), c, actor, now)
    {
      if c >= |continuations| || continuations[c].status != Pending {
        return;
      }
      if !Known(View(), continuations[c].event) {
        Fail(c, "event_not_found");
        return;
      }
      if continuations[c].directive.None? {
        Fail(c, "workflow_directive_missing");
        return;
      }
      var d := continuations[c].directive.value;
      if d.retrySource {
        var out := Retry(c, d, dir, cat, now);
        SettleWith(c, out);
      } else {
        Resume(c, d, dir, cat, now);
      }
    }

    /** `_resume`: the successor task, then its first run. */
    method Resume(c: Id, d: Directive, dir: Directory, cat: Catalog, now: Time)
      requires Live(View(), c)
      modifies this, session
      ensures View() == ResumePass(session.cfg, dir, cat, old(View()), c, d, actor, now)
    {
      var out := Succeed(c, d, dir);
      if out.Ok? {
        out := session.DispatchTask(cat, out.id, actor, WorkflowDispatch(c), RequestFor(session.cfg, d), now);
      }
      SettleWith(c, out);
    }

    /** `_fail`. */
    method Fail(c: Id, code: string)
      requires c < |continuations| && continuations[c].status == Pending
      modifies this
      ensures View() == Settle(old(View()), c, Failed, Some(code))
    {
      var out := TransitionContinuation(c, Failed, Some(code));
    }

    method SettleWith(c: Id, out: Outcome)
      requires c < |continuations| && continuations[c].status == Pending
      modifies this
      ensures View() == Settled(old(View()), c, out)
    {
      match out
      case Ok(_, _) => var confirmed := TransitionContinuation(c, Dispatched, None);
      case Refused(code) => Fail(c, code);
    }

    /** The pending continuations of a batch, one after another. */
    method ProcessBatch(dir: Directory, cat: Catalog, now: Time)
      modifies this, session
      ensures View() == ProcessEach(session.cfg, dir, cat, old(View()),
                                    PendingIds(old(continuations), 0, session.cfg.workflowBatch), actor, now)
    {
      hide ProcessPass, PendingIds;
      ghost var found := View();
      var ids := PendingIds(continuations, 0, session.cfg.workflowBatch);
      for k := 0 to |ids|
        invariant View() == ProcessEach(session.cfg, dir, cat, found, ids[..k], actor, now)
      {
        assert ids[..k + 1][..k] == ids[..k];
        Process(ids[k], dir, cat, now);
      }
      assert ids[..|ids|] == ids;
    }

    /**
      `run_once`: the pass over the agent requests, unless the policy is disabled; then discovery; then the
      batch. An error that escapes ends the round.
     */
    method RunOnce(
      policy: Option<R.Policy>, limit: nat, errors: Id -> Option<string>, dir: Directory, cat: Catalog,
      artifacts: Id -> seq<string>, now: Time)
      returns (raised: Option<string>)
      modifies this, session, agents
      ensures var passed := PolicyPass(policy, old(agents.Snapshot()), limit, errors);
              && agents.Snapshot() == passed.registry
              && Pass(View(), raised) ==
                 if passed.raised.Some? then Pass(old(View()), passed.raised)
                 else Round(session.cfg, dir, cat, old(View()), artifacts, actor, now)
    {
      hide DiscoverPass, ProcessEach, R.ProcessBatch;
      raised := None;
      if policy.Some? {
        raised := agents.RunPolicy(policy.value, limit, errors);
      }
      if raised.None? {
        raised := Discover(cat, artifacts);
      }
      if raised.None? {
        ProcessBatch(dir, cat, now);
      }
    }
  }
}
