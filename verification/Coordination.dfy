/** What the coordinator's transactions keep, between any two of which it may crash or be overtaken. */
module Coordination {
  import opened Tables
  import opened Records
  import opened Controls
  import opened Lifecycle
  import opened Invariants
  import opened Admission
  import opened Histories
  import opened Identity
  import opened Chains
  import opened Workflow
  import opened Ranking

  // ---- The invariant --------------------------------------------------------------------------

  /** A continuation descends from an event of its own, and a dispatched one has its run. */
  ghost predicate ContinuationFits(flow: Flow, c: Id)
    requires Recorded(flow) && c < |flow.continuations|
  {
    var row := flow.continuations[c];
    && row.status in {Pending, Dispatched, Failed}
    && row.task == flow.db.runs[flow.events[row.event].run].task
    && flow.events[row.event].terminal
    && (row.status == Dispatched ==> Has(flow.db.runs, RunKeyed(WorkflowDispatch(c))))
  }

  /** A successor hangs below the task it continues, at the depth it declares and within the limit. */
  ghost predicate SuccessorFits(cfg: Settings, tasks: seq<Task>, rows: seq<Continuation>, t: Id)
    requires t < |tasks|
  {
    tasks[t].key.WorkflowTask? ==>
      && tasks[t].key.continuation < |rows|
      && tasks[t].payload.parent == Some(rows[tasks[t].key.continuation].task)
      && JsonAt(tasks[t].payload.budget, "workflow_depth") == Int(Level(tasks, t))
      && Level(tasks, t) <= cfg.workflowMaxDepth
  }

  /** A coordinator's run is a run of the continued task or of its successor. */
  ghost predicate DispatchFits(tasks: seq<Task>, rows: seq<Continuation>, run: Run) {
    run.key.WorkflowDispatch? ==>
      && run.key.continuation < |rows| && run.task < |tasks|
      && (run.task == rows[run.key.continuation].task
          || tasks[run.task].key == WorkflowTask(run.key.continuation))
  }

  ghost predicate Wired(cfg: Settings, flow: Flow) {
    Inv(cfg, flow.db) && Fits(cfg, flow)
  }

  ghost predicate Fits(cfg: Settings, flow: Flow) {
    && Recorded(flow)
    && (forall c :: 0 <= c < |flow.continuations| ==> ContinuationFits(flow, c))
    && (forall c, d :: 0 <= c < d < |flow.continuations| ==>
          flow.continuations[c].event != flow.continuations[d].event)
    && (forall t :: 0 <= t < |flow.db.tasks| ==> SuccessorFits(cfg, flow.db.tasks, flow.continuations, t))
    && (forall r :: 0 <= r < |flow.db.runs| ==> DispatchFits(flow.db.tasks, flow.continuations, flow.db.runs[r]))
  }

  /** Approvals are decided safely, and the derived keys are the coordinator's own. */
  predicate Permitted(flow: Flow, commit: Commit, now: Time) {
    match commit
    case Outside(cmd) =>
      && Safe(flow.db, At(cmd, now))
      && (cmd.Create? ==> cmd.key.Named?) && (cmd.Dispatch? ==> cmd.key.Named?)
    case Record(event) => event.run < |flow.db.runs|
    case _ => true
  }

  // ---- Changes of the lifecycle tables --------------------------------------------------------

  lemma SuccessorStillFits(cfg: Settings, a: seq<Task>, b: seq<Task>, rows: seq<Continuation>, t: Id)
    requires SameParents(a, b) && t < |a| && SuccessorFits(cfg, a, rows, t)
    requires a[t].payload == b[t].payload && a[t].key == b[t].key
    ensures SuccessorFits(cfg, b, rows, t)
  {
    LevelKept(a, b, t);
  }

  lemma RunStillKeyed(a: seq<Run>, b: seq<Run>, key: Key)
    requires |a| <= |b| && forall r :: 0 <= r < |a| ==> SameRun(a[r], b[r])
    requires Has(a, RunKeyed(key))
    ensures Has(b, RunKeyed(key))
  {
    var r :| 0 <= r < |a| && RunKeyed(key)(a[r]);
    assert RunKeyed(key)(b[r]);
  }

  lemma ContinuationStillFits(flow: Flow, after: Flow, c: Id)
    requires Recorded(flow) && Recorded(after) && c < |flow.continuations| && ContinuationFits(flow, c)
    requires after == flow.(db := after.db) && Extends(flow.db, after.db)
    ensures ContinuationFits(after, c)
  {
    if flow.continuations[c].status == Dispatched {
      RunStillKeyed(flow.db.runs, after.db.runs, WorkflowDispatch(c));
    }
  }

  /** The lifecycle tables grew by rows that fit. */
  lemma ExtensionKeepsWired(cfg: Settings, flow: Flow, after: Flow)
    requires Wired(cfg, flow) && after == flow.(db := after.db)
    requires Inv(cfg, after.db) && Extends(flow.db, after.db)
    requires forall t :: |flow.db.tasks| <= t < |after.db.tasks| ==>
               SuccessorFits(cfg, after.db.tasks, after.continuations, t)
    requires forall r :: |flow.db.runs| <= r < |after.db.runs| ==>
               DispatchFits(after.db.tasks, after.continuations, after.db.runs[r])
    ensures Wired(cfg, after)
  {
    hide AllSealed, Booked, WithinCaps, Numbered, Keyed, OneActive, Unleased;
    assert Recorded(after);
    forall c | 0 <= c < |after.continuations| ensures ContinuationFits(after, c) {
      ContinuationStillFits(flow, after, c);
    }
    forall t | 0 <= t < |after.db.tasks| ensures SuccessorFits(cfg, after.db.tasks, after.continuations, t) {
      if t < |flow.db.tasks| {
        SuccessorStillFits(cfg, flow.db.tasks, after.db.tasks, flow.continuations, t);
      }
    }
    forall r | 0 <= r < |after.db.runs|
      ensures DispatchFits(after.db.tasks, after.continuations, after.db.runs[r])
    {
      if r < |flow.db.runs| {
        assert DispatchFits(flow.db.tasks, flow.continuations, flow.db.runs[r]);
      }
    }
  }

  // ---- Transactions of others -----------------------------------------------------------------

  /** What a transaction may add to the rank: only tasks from outside and second endings do. */
  function Allowance(cfg: Settings, flow: Flow, commit: Commit): nat {
    match commit
    case Outside(cmd) => if cmd.Create? then TaskWeight(cfg, Max(0, cfg.workflowMaxDepth)) else 0
    case Record(event) => if event.run < |flow.db.runs| then EventAllowance(cfg, flow, event) else 0
    case _ => 0
  }

  /** The transaction left tasks, runs, continuations and consumed events as they were. */
  predicate Idle(flow: Flow, after: Flow) {
    && |after.db.tasks| == |flow.db.tasks| && after.db.runs == flow.db.runs
    && after.continuations == flow.continuations && after.skips == flow.skips
  }

  /** The transactions that use up rank. */
  predicate Advances(flow: Flow, commit: Commit, after: Flow) {
    match commit
    case Outside(_) => |after.db.runs| > |flow.db.runs|
    case Record(event) => event.terminal && !Has(flow.events, EndOf(event.run))
    case _ => !Idle(flow, after)
  }

  lemma Scaled(n: nat, x: nat, y: nat)
    requires x <= y
    ensures n * x <= n * y
  {
  }

  lemma {:induction false} OneLevelMore(cfg: Settings, k: nat)
    ensures ContinuationWeight(cfg, k) <= ContinuationWeight(cfg, k + 1)
    ensures TaskWeight(cfg, k) <= TaskWeight(cfg, k + 1)
  {
    if k > 0 {
      OneLevelMore(cfg, k - 1);
    }
    assert ContinuationWeight(cfg, k) <= ContinuationWeight(cfg, k + 1);
    assert RunWeight(cfg, k) <= RunWeight(cfg, k + 1);
    Scaled(Attempts(cfg), 1 + RunWeight(cfg, k), 1 + RunWeight(cfg, k + 1));
  }

  lemma {:induction false} TaskWeightGrows(cfg: Settings, j: nat, k: nat)
    requires j <= k
    ensures TaskWeight(cfg, j) <= TaskWeight(cfg, k)
    decreases k
  {
    if j < k {
      TaskWeightGrows(cfg, j, k - 1);
      OneLevelMore(cfg, k - 1);
    }
  }

  // ---- Steps that append a row ----------------------------------------------------------------

  lemma TaskExtends(db: Db, after: Db, row: Task)
    requires after.tasks == db.tasks + [row] && after.runs == db.runs
    ensures Extends(db, after)
  {
  }

  lemma TaskKeepsWired(cfg: Settings, flow: Flow, after: Flow, row: Task)
    requires Wired(cfg, flow) && after == flow.(db := after.db) && Inv(cfg, after.db)
    requires after.db.tasks == flow.db.tasks + [row] && after.db.runs == flow.db.runs
    requires SuccessorFits(cfg, after.db.tasks, flow.continuations, |flow.db.tasks|)
    ensures Wired(cfg, after)
  {
    TaskExtends(flow.db, after.db, row);
    ExtensionKeepsWired(cfg, flow, after);
  }

  lemma TaskStep(cfg: Settings, flow: Flow, after: Flow, row: Task)
    requires Wired(cfg, flow) && after == flow.(db := after.db) && Inv(cfg, after.db)
    requires after.db.tasks == flow.db.tasks + [row] && after.db.runs == flow.db.runs
    requires SuccessorFits(cfg, after.db.tasks, flow.continuations, |flow.db.tasks|)
    ensures Wired(cfg, after)
    ensures Rank(cfg, after) <= Rank(cfg, flow) + TaskWeight(cfg, Max(0, cfg.workflowMaxDepth))
  {
    TaskKeepsWired(cfg, flow, after, row);
    TaskAppendedRank(cfg, flow, after, row);
    TaskWeightGrows(cfg, Slack(cfg, after.db.tasks, |flow.db.tasks|), Max(0, cfg.workflowMaxDepth));
  }

  lemma RunKeepsWired(cfg: Settings, flow: Flow, after: Flow, row: Run)
    requires Wired(cfg, flow) && after == flow.(db := after.db) && Inv(cfg, after.db)
    requires SameTasks(flow.db.tasks, after.db.tasks) && after.db.runs == flow.db.runs + [row]
    requires DispatchFits(flow.db.tasks, flow.continuations, row)
    ensures Wired(cfg, after)
  {
    RunExtends(flow.db, after.db, row);
    assert DispatchFits(after.db.tasks, after.continuations, row);
    ExtensionKeepsWired(cfg, flow, after);
  }

  lemma RunExtends(db: Db, after: Db, row: Run)
    requires SameTasks(db.tasks, after.tasks) && after.runs == db.runs + [row]
    ensures Extends(db, after)
  {
  }

  lemma RunStep(cfg: Settings, flow: Flow, after: Flow, row: Run)
    requires Wired(cfg, flow) && after == flow.(db := after.db) && Inv(cfg, after.db)
    requires SameTasks(flow.db.tasks, after.db.tasks) && after.db.runs == flow.db.runs + [row]
    requires row.task < |flow.db.tasks| && Count(flow.db.runs, OfTask(row.task)) <= cfg.maxRetries
    requires DispatchFits(flow.db.tasks, flow.continuations, row)
    ensures Wired(cfg, after) && Rank(cfg, after) < Rank(cfg, flow)
  {
    RunKeepsWired(cfg, flow, after, row);
    RunAppendedRank(cfg, flow, after, row);
  }

  lemma CarriedStep(cfg: Settings, flow: Flow, after: Flow)
    requires Wired(cfg, flow) && after == flow.(db := after.db) && Inv(cfg, after.db)
    requires KeepsRows(flow.db, after.db)
    ensures Wired(cfg, after) && Rank(cfg, after) <= Rank(cfg, flow)
  {
    ExtensionKeepsWired(cfg, flow, after);
    CarriedRank(cfg, flow, after);
  }

  lemma OutsideTaskStep(
    cfg: Settings, flow: Flow, actor: string, key: Key, payload: TaskPayload, step: Step, after: Flow)
    requires Wired(cfg, flow) && key.Named? && step == CreateTask(flow.db, actor, key, payload)
    requires after == flow.(db := step.db)
    ensures Wired(cfg, after) && |after.db.runs| == |flow.db.runs|
    ensures Rank(cfg, after) <= Rank(cfg, flow) + TaskWeight(cfg, Max(0, cfg.workflowMaxDepth))
  {
    CreateAppends(flow.db, actor, key, payload, step);
    CreateKeepsInv(cfg, flow.db, actor, key, payload, step);
    if step.out.Ok? && !step.out.replayed {
      TaskStep(cfg, flow, after, Task(actor, key, payload, Pending, None));
    }
  }

  /** A dispatch, whoever asks for it, spends rank if it inserts a run and nothing otherwise. */
  lemma DispatchStep(
    cfg: Settings, cat: Catalog, flow: Flow, task: Id, actor: string, key: Key, p: DispatchPayload, now: Time,
    step: Step, after: Flow)
    requires Wired(cfg, flow) && step == DispatchTask(cfg, cat, flow.db, task, actor, key, p, now)
    requires after == flow.(db := step.db)
    requires key.WorkflowDispatch? ==>
               && key.continuation < |flow.continuations| && task < |flow.db.tasks|
               && (task == flow.continuations[key.continuation].task
                   || flow.db.tasks[task].key == WorkflowTask(key.continuation))
    ensures Wired(cfg, after) && |after.db.tasks| == |flow.db.tasks|
    ensures after.db.runs == flow.db.runs || Rank(cfg, after) < Rank(cfg, flow)
    ensures Rank(cfg, after) <= Rank(cfg, flow)
    ensures step.out.Ok? ==> Has(after.db.runs, RunKeyed(key))
  {
    hide Inv, DispatchTask, Fits, Rank;
    DispatchAppends(cfg, cat, flow.db, task, actor, key, p, now, step);
    DispatchKeepsInv(cfg, cat, flow.db, task, actor, key, p, now, step);
    if Admission.Dispatched(step) {
      var row := step.db.runs[|flow.db.runs|];
      RunStep(cfg, flow, after, row);
      assert RunKeyed(key)(row);
    } else {
      CarriedStep(cfg, flow, after);
    }
  }

  lemma AncestorsAreOlder(cfg: Settings, db: Db, t: Id)
    requires Linked(db) && t < |db.tasks|
    ensures DepthOf(db.tasks, t) == Deep(Level(db.tasks, t))
  {
    WalkIsLevel(db.tasks, t, |db.tasks|);
  }

  /** A successor is created only one level below its source and within the depth limit. */
  lemma ResumableDepth(cfg: Settings, dir: Directory, flow: Flow, c: Id, d: Directive)
    requires Wired(cfg, flow) && Live(flow, c) && ResumeProblem(cfg, dir, flow, c, d).None?
    ensures SourceRun(flow, c).task == flow.continuations[c].task < |flow.db.tasks|
    ensures DepthOf(flow.db.tasks, flow.continuations[c].task)
         == Deep(Level(flow.db.tasks, flow.continuations[c].task))
    ensures Level(flow.db.tasks, flow.continuations[c].task) < cfg.workflowMaxDepth
  {
    assert ContinuationFits(flow, c);
    AncestorsAreOlder(cfg, flow.db, flow.continuations[c].task);
  }

  lemma SuccessorPayloadFits(flow: Flow, c: Id, d: Directive, depth: int, payload: TaskPayload)
    requires Live(flow, c) && payload == SuccessorPayload(flow, c, d, depth)
    ensures payload.parent == Some(SourceRun(flow, c).task)
    ensures JsonAt(payload.budget, "workflow_depth") == Int(depth)
  {
    assert "workflow_depth" != "workflow_source_continuation_id";
    assert "workflow_depth" != "workflow_auto_continue";
  }

  /** A task that continues the source of continuation `c`, one level below it. */
  ghost predicate Follows(cfg: Settings, flow: Flow, c: Id, row: Task) {
    && c < |flow.continuations| && row.key == WorkflowTask(c)
    && var source := flow.continuations[c].task;
       && source < |flow.db.tasks| && row.payload.parent == Some(source)
       && Level(flow.db.tasks, source) < cfg.workflowMaxDepth
       && JsonAt(row.payload.budget, "workflow_depth") == Int(Level(flow.db.tasks, source) + 1)
  }

  lemma FollowerFits(cfg: Settings, flow: Flow, c: Id, row: Task)
    requires Follows(cfg, flow, c, row)
    ensures SuccessorFits(cfg, flow.db.tasks + [row], flow.continuations, |flow.db.tasks|)
  {
    LevelKept(flow.db.tasks, flow.db.tasks + [row], flow.continuations[c].task);
  }

  lemma SuccessorStep(cfg: Settings, flow: Flow, after: Flow, row: Task, c: Id)
    requires Wired(cfg, flow) && after == flow.(db := after.db) && Inv(cfg, after.db)
    requires after.db.tasks == flow.db.tasks + [row] && after.db.runs == flow.db.runs
    requires Live(flow, c) && Follows(cfg, flow, c, row)
    requires Last(flow.db.tasks, TaskKeyed(WorkflowTask(c))).None?
    ensures Wired(cfg, after) && Rank(cfg, after) < Rank(cfg, flow)
  {
    FollowerFits(cfg, flow, c, row);
    TaskKeepsWired(cfg, flow, after, row);
    SuccessorRank(cfg, flow, after, row, c);
  }

  lemma PayloadFollows(cfg: Settings, flow: Flow, c: Id, d: Directive, actor: string, depth: int, row: Task)
    requires Live(flow, c) && SourceRun(flow, c).task == flow.continuations[c].task < |flow.db.tasks|
    requires Level(flow.db.tasks, flow.continuations[c].task) + 1 == depth <= cfg.workflowMaxDepth
    requires row == Task(actor, WorkflowTask(c), SuccessorPayload(flow, c, d, depth), Pending, None)
    ensures Follows(cfg, flow, c, row)
  {
    SuccessorPayloadFits(flow, c, d, depth, row.payload);
  }

  /** Creating a successor is creating one task, which follows its continuation. */
  lemma SuccessorIsCreated(cfg: Settings, dir: Directory, flow: Flow, c: Id, d: Directive, actor: string, step: Step)
    returns (row: Task)
    requires Live(flow, c) && ResumeProblem(cfg, dir, flow, c, d).None?
    requires SourceRun(flow, c).task == flow.continuations[c].task < |flow.db.tasks|
    requires DepthOf(flow.db.tasks, flow.continuations[c].task)
          == Deep(Level(flow.db.tasks, flow.continuations[c].task))
    requires Level(flow.db.tasks, flow.continuations[c].task) < cfg.workflowMaxDepth
    requires step == CreateSuccessor(cfg, dir, flow, c, d, actor)
    ensures row == Task(actor, WorkflowTask(c), row.payload, Pending, None)
    ensures step == CreateTask(flow.db, actor, WorkflowTask(c), row.payload)
    ensures Follows(cfg, flow, c, row)
  {
    hide SuccessorPayload, CreateTask, ResumeProblem, Level, Follows;
    var depth := Level(flow.db.tasks, flow.continuations[c].task) + 1;
    row := Task(actor, WorkflowTask(c), SuccessorPayload(flow, c, d, depth), Pending, None);
    PayloadFollows(cfg, flow, c, d, actor, depth, row);
  }

  lemma SucceedStep(
    cfg: Settings, dir: Directory, flow: Flow, c: Id, d: Directive, actor: string, step: Step, after: Flow)
    requires Wired(cfg, flow) && Live(flow, c) && step == CreateSuccessor(cfg, dir, flow, c, d, actor)
    requires after == flow.(db := step.db)
    ensures Wired(cfg, after) && after.db.runs == flow.db.runs
    ensures after == flow || Rank(cfg, after) < Rank(cfg, flow)
    ensures step.out.Ok? ==> Last(after.db.tasks, TaskKeyed(WorkflowTask(c))) == Some(step.out.id)
  {
    if ResumeProblem(cfg, dir, flow, c, d).None? {
      ResumableDepth(cfg, dir, flow, c, d);
      var row := SuccessorIsCreated(cfg, dir, flow, c, d, actor, step);
      CreatedStep(cfg, flow, c, actor, row, step, after);
    }
  }

  lemma CreatedStep(cfg: Settings, flow: Flow, c: Id, actor: string, row: Task, step: Step, after: Flow)
    requires Wired(cfg, flow) && Live(flow, c) && Follows(cfg, flow, c, row)
    requires row == Task(actor, WorkflowTask(c), row.payload, Pending, None)
    requires step == CreateTask(flow.db, actor, WorkflowTask(c), row.payload) && after == flow.(db := step.db)
    ensures Wired(cfg, after) && after.db.runs == flow.db.runs
    ensures after == flow || Rank(cfg, after) < Rank(cfg, flow)
    ensures step.out.Ok? ==> Last(after.db.tasks, TaskKeyed(WorkflowTask(c))) == Some(step.out.id)
  {
    CreateAppends(flow.db, actor, WorkflowTask(c), row.payload, step);
    CreateFinds(flow.db, actor, WorkflowTask(c), row.payload, step);
    CreateKeepsInv(cfg, flow.db, actor, WorkflowTask(c), row.payload, step);
    if step.out.Ok? && !step.out.replayed {
      SuccessorStep(cfg, flow, after, row, c);
    }
  }

  // ---- Steps of the continuation table --------------------------------------------------------

  lemma EditStep(cfg: Settings, flow: Flow, after: Flow, c: Id, row: Continuation)
    requires Wired(cfg, flow) && c < |flow.continuations| && after == PutContinuation(flow, c, row)
    requires row.event == flow.continuations[c].event && row.task == flow.continuations[c].task
    requires row.status in {Pending, Dispatched, Failed}
    requires row.status == Dispatched ==> Has(flow.db.runs, RunKeyed(WorkflowDispatch(c)))
    ensures Wired(cfg, after)
  {
    hide Inv;
    assert Recorded(after);
    forall i | 0 <= i < |after.continuations| ensures ContinuationFits(after, i) {
      assert ContinuationFits(flow, i);
    }
    forall t | 0 <= t < |after.db.tasks| ensures SuccessorFits(cfg, after.db.tasks, after.continuations, t) {
      assert SuccessorFits(cfg, flow.db.tasks, flow.continuations, t);
    }
    forall r | 0 <= r < |after.db.runs|
      ensures DispatchFits(after.db.tasks, after.continuations, after.db.runs[r])
    {
      assert DispatchFits(flow.db.tasks, flow.continuations, flow.db.runs[r]);
    }
  }

  /** Appending continuations does not disturb what fitted before. */
  lemma RowsStillFit(cfg: Settings, db: Db, rows: seq<Continuation>, more: seq<Continuation>)
    requires forall t :: 0 <= t < |db.tasks| ==> SuccessorFits(cfg, db.tasks, rows, t)
    requires forall r :: 0 <= r < |db.runs| ==> DispatchFits(db.tasks, rows, db.runs[r])
    ensures forall t :: 0 <= t < |db.tasks| ==> SuccessorFits(cfg, db.tasks, rows + more, t)
    ensures forall r :: 0 <= r < |db.runs| ==> DispatchFits(db.tasks, rows + more, db.runs[r])
  {
    forall t | 0 <= t < |db.tasks| ensures SuccessorFits(cfg, db.tasks, rows + more, t) {
      assert SuccessorFits(cfg, db.tasks, rows, t);
    }
    forall r | 0 <= r < |db.runs| ensures DispatchFits(db.tasks, rows + more, db.runs[r]) {
      assert DispatchFits(db.tasks, rows, db.runs[r]);
    }
  }

  lemma ContinueKeepsWired(cfg: Settings, flow: Flow, after: Flow, row: Continuation)
    requires Wired(cfg, flow) && after == flow.(continuations := flow.continuations + [row])
    requires Known(flow, row.event) && flow.events[row.event].terminal && !Seen(flow, row.event)
    requires row.task == flow.db.runs[flow.events[row.event].run].task && row.status == Pending
    ensures Wired(cfg, after)
  {
    hide Inv;
    assert Recorded(after);
    RowsStillFit(cfg, flow.db, flow.continuations, [row]);
    forall c | 0 <= c < |flow.continuations|
      ensures ContinuationFits(after, c) && flow.continuations[c].event != row.event
    {
      assert ContinuationFits(flow, c);
      assert !TriggeredBy(row.event)(flow.continuations[c]);
    }
  }

  /** Appending events or skip marks disturbs no row. */
  lemma MarksKeepWired(cfg: Settings, flow: Flow, after: Flow)
    requires Wired(cfg, flow) && Recorded(after)
    requires after == flow.(events := after.events, skips := after.skips)
    requires |flow.events| <= |after.events| && flow.events == after.events[..|flow.events|]
    ensures Wired(cfg, after)
  {
    forall c | 0 <= c < |flow.continuations| ensures ContinuationFits(after, c) {
      assert ContinuationFits(flow, c);
    }
  }

  /** The fate of a discovered event: a continuation, a skip mark, or nothing at all. */
  lemma DiscoveryShape(
    cfg: Settings, cat: Catalog, flow: Flow, event: Id, artifacts: seq<string>, after: Flow)
    requires after == DiscoverEvent(cfg, cat, flow, event, artifacts)
    ensures after == flow
         || (&& Known(flow, event) && flow.events[event].terminal && !Seen(flow, event)
             && ((exists reason :: after == flow.(skips := flow.skips + [Skip(event, reason)]))
                 || exists row: Continuation ::
                      && after == flow.(continuations := flow.continuations + [row])
                      && row.event == event && row.task == flow.db.runs[flow.events[event].run].task
                      && row.directive.None? && row.status == Pending))
  {
  }

  lemma SkipStep(cfg: Settings, flow: Flow, event: Id, reason: string, after: Flow)
    requires Wired(cfg, flow) && after == flow.(skips := flow.skips + [Skip(event, reason)])
    requires Known(flow, event) && flow.events[event].terminal && !Seen(flow, event)
    ensures Wired(cfg, after) && Rank(cfg, after) < Rank(cfg, flow)
  {
    assert Recorded(after);
    MarksKeepWired(cfg, flow, after);
    SkipRank(cfg, flow, after, event, reason);
  }

  lemma ContinueStep(cfg: Settings, flow: Flow, row: Continuation, after: Flow)
    requires Wired(cfg, flow) && after == flow.(continuations := flow.continuations + [row])
    requires Known(flow, row.event) && flow.events[row.event].terminal && !Seen(flow, row.event)
    requires row.task == flow.db.runs[flow.events[row.event].run].task && row.directive.None? && row.status == Pending
    ensures Wired(cfg, after) && Rank(cfg, after) < Rank(cfg, flow)
  {
    ContinueKeepsWired(cfg, flow, after, row);
    ContinuationRank(cfg, flow, after, row);
  }

  lemma DiscoverStep(cfg: Settings, cat: Catalog, flow: Flow, event: Id, artifacts: seq<string>, after: Flow)
    requires Wired(cfg, flow) && after == DiscoverEvent(cfg, cat, flow, event, artifacts)
    ensures Wired(cfg, after) && after.db == flow.db
    ensures after == flow || Rank(cfg, after) < Rank(cfg, flow)
  {
    DiscoveryShape(cfg, cat, flow, event, artifacts, after);
    if after != flow {
      if reason :| after == flow.(skips := flow.skips + [Skip(event, reason)]) {
        SkipStep(cfg, flow, event, reason, after);
      } else {
        var row: Continuation :|
          && after == flow.(continuations := flow.continuations + [row])
          && row.event == event && row.task == flow.db.runs[flow.events[event].run].task
          && row.directive.None? && row.status == Pending;
        ContinueStep(cfg, flow, row, after);
      }
    }
  }

  lemma RecordStep(cfg: Settings, flow: Flow, event: RunEvent, after: Flow)
    requires Wired(cfg, flow) && event.run < |flow.db.runs| && after == flow.(events := flow.events + [event])
    ensures Wired(cfg, after) && Rank(cfg, after) <= Rank(cfg, flow) + EventAllowance(cfg, flow, event)
    ensures event.terminal && !Has(flow.events, EndOf(event.run)) ==> Rank(cfg, after) < Rank(cfg, flow)
  {
    EventRank(cfg, flow, after, event);
    assert Recorded(after);
    MarksKeepWired(cfg, flow, after);
  }
}
