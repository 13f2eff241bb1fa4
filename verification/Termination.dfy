/**
  Whole workflow histories: any interleaving of coordinators, crashes included, with clients, workers
  and dispatchers. The autonomous loop terminates, and replays after a crash create nothing twice.
 */
module Termination {
  import opened Tables
  import opened Records
  import opened Controls
  import opened Lifecycle
  import opened Invariants
  import opened Histories
  import opened Admission
  import opened Identity
  import opened Chains
  import opened Workflow
  import opened Ranking
  import opened Coordination

  lemma OutsideStep(cfg: Settings, flow: Flow, cmd: Command, now: Time, after: Flow)
    requires Wired(cfg, flow) && Permitted(flow, Outside(cmd), now)
    requires after == flow.(db := Apply(cfg, flow.db, cmd, now).db)
    ensures Wired(cfg, after)
    ensures Rank(cfg, after) <= Rank(cfg, flow) + Allowance(cfg, flow, Outside(cmd))
    ensures |after.db.runs| > |flow.db.runs| ==> Rank(cfg, after) < Rank(cfg, flow)
  {
    var step := Apply(cfg, flow.db, cmd, now);
    if cmd.Create? {
      OutsideTaskStep(cfg, flow, cmd.actor, cmd.key, cmd.payload, step, after);
    } else if cmd.Dispatch? {
      DispatchStep(cfg, cmd.cat, flow, cmd.task, cmd.actor, cmd.key, cmd.request, now, step, after);
    } else {
      OthersCarry(cfg, flow.db, cmd, now, step);
      StepKeepsInv(cfg, flow.db, At(cmd, now), step);
      CarriedStep(cfg, flow, after);
    }
  }

  lemma EnlistStep(cfg: Settings, cat: Catalog, flow: Flow, c: Id, task: Id, d: Directive, actor: string, now: Time,
    step: Step, after: Flow)
    requires Wired(cfg, flow) && Live(flow, c) && Last(flow.db.tasks, TaskKeyed(WorkflowTask(c))) == Some(task)
    requires step == EnlistSuccessor(cfg, cat, flow, c, task, d, actor, now) && after == flow.(db := step.db)
    ensures Wired(cfg, after) && Rank(cfg, after) <= Rank(cfg, flow)
    ensures Idle(flow, after) || Rank(cfg, after) < Rank(cfg, flow)
    ensures step.out.Ok? ==> Has(after.db.runs, RunKeyed(WorkflowDispatch(c)))
  {
    DispatchStep(cfg, cat, flow, task, actor, WorkflowDispatch(c), RequestFor(cfg, d), now, step, after);
  }

  lemma RedispatchStep(
    cfg: Settings, dir: Directory, cat: Catalog, flow: Flow, c: Id, d: Directive, actor: string, now: Time,
    step: Step, after: Flow)
    requires Wired(cfg, flow) && Live(flow, c)
    requires step == RetrySource(cfg, dir, cat, flow, c, d, actor, now) && after == flow.(db := step.db)
    ensures Wired(cfg, after) && Rank(cfg, after) <= Rank(cfg, flow)
    ensures Idle(flow, after) || Rank(cfg, after) < Rank(cfg, flow)
    ensures step.out.Ok? ==> Has(after.db.runs, RunKeyed(WorkflowDispatch(c)))
  {
    assert ContinuationFits(flow, c);
    if RetryProblem(cfg, dir, flow, c, d).None? {
      DispatchStep(cfg, cat, flow, SourceRun(flow, c).task, actor, WorkflowDispatch(c), RequestFor(cfg, d), now,
        step, after);
    }
  }

  lemma SettleStep(cfg: Settings, flow: Flow, c: Id, status: Status, failure: Option<string>, after: Flow)
    requires Wired(cfg, flow) && Live(flow, c) && status in {Dispatched, Failed}
    requires status == Dispatched ==> Has(flow.db.runs, RunKeyed(WorkflowDispatch(c)))
    requires after == Settle(flow, c, status, failure)
    ensures Wired(cfg, after) && Rank(cfg, after) < Rank(cfg, flow)
  {
    hide Inv;
    var row := after.continuations[c];
    EditStep(cfg, flow, after, c, row);
    EditRank(cfg, flow, after, c, row);
  }

  lemma AnnotateStep(cfg: Settings, flow: Flow, c: Id, directive: Directive, after: Flow)
    requires Wired(cfg, flow) && after == StoreDirective(flow, c, directive)
    ensures Wired(cfg, after) && (after == flow || Rank(cfg, after) < Rank(cfg, flow))
  {
    if c < |flow.continuations| && flow.continuations[c].directive.None? {
      var row := flow.continuations[c].(directive := Some(directive));
      assert ContinuationFits(flow, c);
      EditStep(cfg, flow, after, c, row);
      EditRank(cfg, flow, after, c, row);
    }
  }

  /** A transaction of the coordinator either changes nothing the loop depends on or uses up rank. */
  lemma CoordinatorStep(cfg: Settings, flow: Flow, commit: Commit, now: Time, after: Flow)
    requires Wired(cfg, flow) && !commit.Outside? && !commit.Record?
    requires after == Advance(cfg, flow, commit, now)
    ensures Wired(cfg, after) && Rank(cfg, after) <= Rank(cfg, flow)
    ensures Idle(flow, after) || Rank(cfg, after) < Rank(cfg, flow)
  {
    if commit.Discover? {
      DiscoverStep(cfg, commit.cat, flow, commit.trigger, commit.artifacts, after);
    } else if commit.Annotate? {
      AnnotateStep(cfg, flow, commit.continuation, commit.directive, after);
    } else if commit.Confirm? || commit.Abandon? {
      SettlementStep(cfg, flow, commit, now, after);
    } else {
      ProcessingStep(cfg, flow, commit, now, after);
    }
  }

  lemma SettlementStep(cfg: Settings, flow: Flow, commit: Commit, now: Time, after: Flow)
    requires Wired(cfg, flow) && (commit.Confirm? || commit.Abandon?)
    requires after == Advance(cfg, flow, commit, now)
    ensures Wired(cfg, after) && (after == flow || Rank(cfg, after) < Rank(cfg, flow))
  {
    if after != flow {
      if commit.Confirm? {
        SettleStep(cfg, flow, commit.continuation, Dispatched, None, after);
      } else {
        SettleStep(cfg, flow, commit.continuation, Failed, Some(commit.code), after);
      }
    }
  }

  lemma ProcessingStep(cfg: Settings, flow: Flow, commit: Commit, now: Time, after: Flow)
    requires Wired(cfg, flow) && (commit.Succeed? || commit.Enlist? || commit.Redispatch?)
    requires after == Advance(cfg, flow, commit, now)
    ensures Wired(cfg, after) && Rank(cfg, after) <= Rank(cfg, flow)
    ensures Idle(flow, after) || Rank(cfg, after) < Rank(cfg, flow)
  {
    hide Inv, Fits, Rank, CreateSuccessor, RetrySource, EnlistSuccessor;
    var c := commit.continuation;
    if Directed(flow, c, commit.Redispatch?) {
      var d := flow.continuations[c].directive.value;
      if commit.Succeed? {
        SucceedStep(cfg, commit.dir, flow, c, d, commit.actor,
          CreateSuccessor(cfg, commit.dir, flow, c, d, commit.actor), after);
      } else if commit.Redispatch? {
        RedispatchStep(cfg, commit.dir, commit.cat, flow, c, d, commit.actor, now,
          RetrySource(cfg, commit.dir, commit.cat, flow, c, d, commit.actor, now), after);
      } else {
        var successor := Last(flow.db.tasks, TaskKeyed(WorkflowTask(c)));
        if successor.Some? {
          EnlistStep(cfg, commit.cat, flow, c, successor.value, d, commit.actor, now,
            EnlistSuccessor(cfg, commit.cat, flow, c, successor.value, d, commit.actor, now), after);
        }
      }
    }
  }

  lemma CommitStep(cfg: Settings, flow: Flow, commit: Commit, now: Time, after: Flow)
    requires Wired(cfg, flow) && Permitted(flow, commit, now) && after == Advance(cfg, flow, commit, now)
    ensures Wired(cfg, after)
    ensures Rank(cfg, after) + (if Advances(flow, commit, after) then 1 else 0)
         <= Rank(cfg, flow) + Allowance(cfg, flow, commit)
  {
    match commit
    case Outside(cmd) => OutsideStep(cfg, flow, cmd, now, after);
    case Record(event) => RecordStep(cfg, flow, event, after);
    case _ => CoordinatorStep(cfg, flow, commit, now, after);
  }

  // ---- Histories ------------------------------------------------------------------------------

  datatype Entry = Entry(commit: Commit, now: Time)

  function Unroll(cfg: Settings, start: Flow, history: seq<Entry>): Flow {
    if history == [] then start
    else
      var last := history[|history| - 1];
      Advance(cfg, Unroll(cfg, start, history[..|history| - 1]), last.commit, last.now)
  }

  predicate Admissible(cfg: Settings, start: Flow, history: seq<Entry>) {
    history == [] ||
    (&& Admissible(cfg, start, history[..|history| - 1])
     && Permitted(Unroll(cfg, start, history[..|history| - 1]),
                  history[|history| - 1].commit, history[|history| - 1].now))
  }

  /** One history after another is a history. */
  lemma {:induction false} UnrollSplit(cfg: Settings, start: Flow, past: seq<Entry>, future: seq<Entry>)
    ensures Unroll(cfg, start, past + future) == Unroll(cfg, Unroll(cfg, start, past), future)
    ensures Admissible(cfg, start, past) && Admissible(cfg, Unroll(cfg, start, past), future) ==>
              Admissible(cfg, start, past + future)
  {
    hide Advance, Permitted;
    if future == [] {
      assert past + future == past;
    } else {
      var init := future[..|future| - 1];
      assert (past + future)[..|past + future| - 1] == past + init;
      UnrollSplit(cfg, start, past, init);
    }
  }

  lemma UnrollOne(cfg: Settings, start: Flow, e: Entry)
    ensures Unroll(cfg, start, [e]) == Advance(cfg, start, e.commit, e.now)
    ensures Admissible(cfg, start, [e]) <==> Permitted(start, e.commit, e.now)
  {
    hide Advance, Permitted;
    assert [e][..0] == [];
  }

  /** How many transactions of the history advanced the workflow. */
  function Progress(cfg: Settings, start: Flow, history: seq<Entry>): nat {
    if history == [] then 0
    else
      var init, last := history[..|history| - 1], history[|history| - 1];
      Progress(cfg, start, init)
      + (if Advances(Unroll(cfg, start, init), last.commit, Unroll(cfg, start, history)) then 1 else 0)
  }

  /** What the outside world added: new tasks, and runs that ended a second time. */
  function Supply(cfg: Settings, start: Flow, history: seq<Entry>): nat {
    if history == [] then 0
    else
      var init := history[..|history| - 1];
      Supply(cfg, start, init) + Allowance(cfg, Unroll(cfg, start, init), history[|history| - 1].commit)
  }

  /** The work done never exceeds the initial rank and what the outside supplied since. */
  lemma {:induction false} WorkIsBounded(cfg: Settings, start: Flow, history: seq<Entry>)
    requires Wired(cfg, start) && Admissible(cfg, start, history)
    ensures Wired(cfg, Unroll(cfg, start, history))
    ensures Rank(cfg, Unroll(cfg, start, history)) + Progress(cfg, start, history)
         <= Rank(cfg, start) + Supply(cfg, start, history)
  {
    hide Inv, Fits, Advance, Permitted, Rank;
    if history != [] {
      var init, last := history[..|history| - 1], history[|history| - 1];
      WorkIsBounded(cfg, start, init);
      CommitStep(cfg, Unroll(cfg, start, init), last.commit, last.now, Unroll(cfg, start, history));
    }
  }

  /** Nobody outside creates tasks, and no run ends twice. */
  predicate LeftAlone(cfg: Settings, start: Flow, history: seq<Entry>) {
    history == [] ||
    (var init, last := history[..|history| - 1], history[|history| - 1];
     && LeftAlone(cfg, start, init)
     && (last.commit.Outside? ==> !last.commit.cmd.Create?)
     && (last.commit.Record? && last.commit.event.terminal ==>
           !Has(Unroll(cfg, start, init).events, EndOf(last.commit.event.run))))
  }

  lemma {:induction false} AloneSuppliesNothing(cfg: Settings, start: Flow, history: seq<Entry>)
    requires LeftAlone(cfg, start, history)
    ensures Supply(cfg, start, history) == 0
  {
    if history != [] {
      AloneSuppliesNothing(cfg, start, history[..|history| - 1]);
    }
  }

  // ---- Growth ---------------------------------------------------------------------------------

  function Rows(flow: Flow): nat {
    |flow.db.tasks| + |flow.db.runs|
  }

  /** Tables only grow, row by row, and existing rows keep their identity. */
  ghost predicate Grows(flow: Flow, after: Flow) {
    && Extends(flow.db, after.db)
    && |flow.events| <= |after.events| && after.events[..|flow.events|] == flow.events
  }

  /** At most one row was appended, and none unless the workflow tables changed. */
  ghost predicate GrowsByOne(flow: Flow, after: Flow) {
    Grows(flow, after) && Rows(after) <= Rows(flow) + (if Idle(flow, after) then 0 else 1)
  }

  lemma DispatchGrowth(
    cfg: Settings, cat: Catalog, flow: Flow, task: Id, actor: string, key: Key, p: DispatchPayload, now: Time,
    step: Step, after: Flow)
    requires step == DispatchTask(cfg, cat, flow.db, task, actor, key, p, now) && after == flow.(db := step.db)
    ensures GrowsByOne(flow, after) && |after.db.tasks| == |flow.db.tasks|
  {
    DispatchAppends(cfg, cat, flow.db, task, actor, key, p, now, step);
  }

  lemma CreateGrowth(flow: Flow, actor: string, key: Key, payload: TaskPayload, step: Step, after: Flow)
    requires step == CreateTask(flow.db, actor, key, payload) && after == flow.(db := step.db)
    ensures GrowsByOne(flow, after) && after.db.runs == flow.db.runs
  {
    CreateAppends(flow.db, actor, key, payload, step);
  }

  lemma CarriedGrowth(cfg: Settings, flow: Flow, cmd: Command, now: Time, step: Step, after: Flow)
    requires Inv(cfg, flow.db) && !cmd.Create? && !cmd.Dispatch?
    requires step == Apply(cfg, flow.db, cmd, now) && after == flow.(db := step.db)
    ensures Grows(flow, after) && Rows(after) == Rows(flow)
  {
    hide Inv, Apply;
    OthersCarry(cfg, flow.db, cmd, now, step);
  }

  lemma OutsideGrowth(cfg: Settings, flow: Flow, cmd: Command, now: Time, step: Step, after: Flow)
    requires Inv(cfg, flow.db) && step == Apply(cfg, flow.db, cmd, now) && after == flow.(db := step.db)
    ensures Grows(flow, after)
    ensures !cmd.Create? ==> Rows(after) <= Rows(flow) + (if |after.db.runs| > |flow.db.runs| then 1 else 0)
  {
    if cmd.Create? {
      CreateGrowth(flow, cmd.actor, cmd.key, cmd.payload, step, after);
    } else if cmd.Dispatch? {
      DispatchGrowth(cfg, cmd.cat, flow, cmd.task, cmd.actor, cmd.key, cmd.request, now, step, after);
    } else {
      CarriedGrowth(cfg, flow, cmd, now, step, after);
    }
  }

  lemma SuccessorCreation(cfg: Settings, dir: Directory, flow: Flow, c: Id, d: Directive, actor: string)
    returns (payload: TaskPayload)
    requires Live(flow, c) && ResumeProblem(cfg, dir, flow, c, d).None?
    ensures CreateSuccessor(cfg, dir, flow, c, d, actor) == CreateTask(flow.db, actor, WorkflowTask(c), payload)
  {
    payload := SuccessorPayload(flow, c, d, DepthOf(flow.db.tasks, SourceRun(flow, c).task).n + 1);
  }

  lemma SuccessorGrowth(cfg: Settings, dir: Directory, flow: Flow, c: Id, d: Directive, actor: string, after: Flow)
    requires Live(flow, c) && after == flow.(db := CreateSuccessor(cfg, dir, flow, c, d, actor).db)
    ensures GrowsByOne(flow, after)
  {
    if ResumeProblem(cfg, dir, flow, c, d).None? {
      var payload := SuccessorCreation(cfg, dir, flow, c, d, actor);
      CreateGrowth(flow, actor, WorkflowTask(c), payload, CreateTask(flow.db, actor, WorkflowTask(c), payload), after);
    }
  }

  lemma RetryGrowth(
    cfg: Settings, dir: Directory, cat: Catalog, flow: Flow, c: Id, d: Directive, actor: string, now: Time, step: Step,
    after: Flow)
    requires Live(flow, c) && step == RetrySource(cfg, dir, cat, flow, c, d, actor, now)
    requires after == flow.(db := step.db)
    ensures GrowsByOne(flow, after)
  {
    if RetryProblem(cfg, dir, flow, c, d).None? {
      DispatchGrowth(cfg, cat, flow, SourceRun(flow, c).task, actor, WorkflowDispatch(c), RequestFor(cfg, d), now,
        step, after);
    }
  }

  lemma EnlistGrowth(
    cfg: Settings, cat: Catalog, flow: Flow, c: Id, task: Id, d: Directive, actor: string, now: Time, step: Step,
    after: Flow)
    requires step == EnlistSuccessor(cfg, cat, flow, c, task, d, actor, now) && after == flow.(db := step.db)
    ensures GrowsByOne(flow, after)
  {
    DispatchGrowth(cfg, cat, flow, task, actor, WorkflowDispatch(c), RequestFor(cfg, d), now, step, after);
  }

  lemma ProcessingGrowth(cfg: Settings, flow: Flow, commit: Commit, now: Time, after: Flow)
    requires commit.Succeed? || commit.Enlist? || commit.Redispatch?
    requires after == Advance(cfg, flow, commit, now)
    ensures GrowsByOne(flow, after)
  {
    var c := commit.continuation;
    if Directed(flow, c, commit.Redispatch?) {
      var d := flow.continuations[c].directive.value;
      if commit.Succeed? {
        SuccessorGrowth(cfg, commit.dir, flow, c, d, commit.actor, after);
      } else if commit.Redispatch? {
        RetryGrowth(cfg, commit.dir, commit.cat, flow, c, d, commit.actor, now,
          RetrySource(cfg, commit.dir, commit.cat, flow, c, d, commit.actor, now), after);
      } else {
        var successor := Last(flow.db.tasks, TaskKeyed(WorkflowTask(c)));
        if successor.Some? {
          EnlistGrowth(cfg, commit.cat, flow, c, successor.value, d, commit.actor, now,
            EnlistSuccessor(cfg, commit.cat, flow, c, successor.value, d, commit.actor, now), after);
        }
      }
    }
  }

  lemma TableGrowth(cfg: Settings, flow: Flow, commit: Commit, now: Time, after: Flow)
    requires commit.Record? || commit.Discover? || commit.Annotate? || commit.Confirm? || commit.Abandon?
    requires after == Advance(cfg, flow, commit, now)
    ensures Grows(flow, after) && after.db == flow.db
  {
    if commit.Discover? {
      DiscoveryShape(cfg, commit.cat, flow, commit.trigger, commit.artifacts, after);
    }
    SameDbGrows(flow, after);
  }

  lemma SameDbGrows(flow: Flow, after: Flow)
    requires after.db == flow.db && |flow.events| <= |after.events| && after.events[..|flow.events|] == flow.events
    ensures Grows(flow, after)
  {
  }

  /** No transaction appends more than one row, and none does so without advancing the workflow. */
  lemma GrowthStep(cfg: Settings, flow: Flow, commit: Commit, now: Time, after: Flow)
    requires Inv(cfg, flow.db) && after == Advance(cfg, flow, commit, now)
    ensures Grows(flow, after)
    ensures (commit.Outside? ==> !commit.cmd.Create?) ==>
              Rows(after) <= Rows(flow) + (if Advances(flow, commit, after) then 1 else 0)
  {
    if commit.Outside? {
      OutsideGrowth(cfg, flow, commit.cmd, now, Apply(cfg, flow.db, commit.cmd, now), after);
    } else if commit.Succeed? || commit.Enlist? || commit.Redispatch? {
      ProcessingGrowth(cfg, flow, commit, now, after);
    } else {
      TableGrowth(cfg, flow, commit, now, after);
    }
  }

  lemma {:induction false} GrowthIsProgress(cfg: Settings, start: Flow, history: seq<Entry>)
    requires Wired(cfg, start) && Admissible(cfg, start, history) && LeftAlone(cfg, start, history)
    ensures Rows(Unroll(cfg, start, history)) <= Rows(start) + Progress(cfg, start, history)
  {
    hide Inv, Fits, Advance, Permitted, Rank;
    if history != [] {
      var init, last := history[..|history| - 1], history[|history| - 1];
      GrowthIsProgress(cfg, start, init);
      WorkIsBounded(cfg, start, init);
      GrowthStep(cfg, Unroll(cfg, start, init), last.commit, last.now, Unroll(cfg, start, history));
    }
  }

  /**
    The autonomous loop terminates. Left alone, a workflow makes no more progress than its initial rank,
    so it creates no more than that many tasks and runs, however often coordinators crash and restart.
   */
  lemma LoopTerminates(cfg: Settings, start: Flow, history: seq<Entry>)
    requires Wired(cfg, start) && Admissible(cfg, start, history) && LeftAlone(cfg, start, history)
    ensures Progress(cfg, start, history) <= Rank(cfg, start)
    ensures Rows(Unroll(cfg, start, history)) <= Rows(start) + Rank(cfg, start)
  {
    WorkIsBounded(cfg, start, history);
    AloneSuppliesNothing(cfg, start, history);
    GrowthIsProgress(cfg, start, history);
  }

  // ---- At most once ---------------------------------------------------------------------------

  const QUIET_START: Flow := Flow(EMPTY, [], [], [])

  lemma EmptyFits(cfg: Settings, flow: Flow)
    requires flow.db.tasks == [] && flow.db.runs == []
    requires flow.events == [] && flow.continuations == [] && flow.skips == []
    ensures Fits(cfg, flow)
  {
  }

  lemma StartIsWired(cfg: Settings)
    ensures Wired(cfg, QUIET_START)
  {
    EmptyInv(cfg);
    EmptyFits(cfg, QUIET_START);
  }

  lemma {:induction false} RunKeyedOnce(runs: seq<Run>, key: Key)
    requires forall i, j :: 0 <= i < j < |runs| ==> runs[i].key != runs[j].key
    ensures Count(runs, RunKeyed(key)) <= 1
  {
    if runs != [] {
      var last := |runs| - 1;
      RunKeyedOnce(runs[..last], key);
      if RunKeyed(key)(runs[last]) {
        CountZero(runs[..last], RunKeyed(key));
      }
    }
  }

  lemma {:induction false} TaskKeyedOnce(tasks: seq<Task>, key: Key)
    requires forall i, j :: 0 <= i < j < |tasks| ==> tasks[i].key != tasks[j].key
    ensures Count(tasks, TaskKeyed(key)) <= 1
  {
    if tasks != [] {
      var last := |tasks| - 1;
      TaskKeyedOnce(tasks[..last], key);
      if TaskKeyed(key)(tasks[last]) {
        CountZero(tasks[..last], TaskKeyed(key));
      }
    }
  }

  lemma WiredActsOnce(cfg: Settings, flow: Flow, c: Id)
    requires Wired(cfg, flow) && c < |flow.continuations|
    ensures Count(flow.db.tasks, TaskKeyed(WorkflowTask(c))) <= 1
    ensures Count(flow.db.runs, RunKeyed(WorkflowDispatch(c))) <= 1
    ensures flow.continuations[c].status == Dispatched ==> Count(flow.db.runs, RunKeyed(WorkflowDispatch(c))) == 1
    ensures forall d :: 0 <= d < |flow.continuations| && d != c ==>
              flow.continuations[d].event != flow.continuations[c].event
  {
    hide WithinCaps, Numbered, Booked, OneActive, Linked, AllSealed, SuccessorFits, DispatchFits;
    TaskKeyedOnce(flow.db.tasks, WorkflowTask(c));
    RunKeyedOnce(flow.db.runs, WorkflowDispatch(c));
    assert ContinuationFits(flow, c);
    CountZero(flow.db.runs, RunKeyed(WorkflowDispatch(c)));
  }

  /** Whatever crashed and was replayed, a continuation has one successor and one run at the most. */
  lemma ContinuationsActOnce(cfg: Settings, history: seq<Entry>, flow: Flow, c: Id)
    requires Admissible(cfg, QUIET_START, history) && flow == Unroll(cfg, QUIET_START, history)
    requires c < |flow.continuations|
    ensures Count(flow.db.tasks, TaskKeyed(WorkflowTask(c))) <= 1
    ensures Count(flow.db.runs, RunKeyed(WorkflowDispatch(c))) <= 1
    ensures flow.continuations[c].status == Dispatched ==> Count(flow.db.runs, RunKeyed(WorkflowDispatch(c))) == 1
    ensures forall d :: 0 <= d < |flow.continuations| && d != c ==>
              flow.continuations[d].event != flow.continuations[c].event
  {
    StartIsWired(cfg);
    WorkIsBounded(cfg, QUIET_START, history);
    WiredActsOnce(cfg, flow, c);
  }

  /** Every successor lies below the task it continues, as deep as it says and no deeper than allowed. */
  lemma SuccessorsRespectDepth(cfg: Settings, history: seq<Entry>, flow: Flow, t: Id, c: Id)
    requires Admissible(cfg, QUIET_START, history) && flow == Unroll(cfg, QUIET_START, history)
    requires t < |flow.db.tasks| && flow.db.tasks[t].key == WorkflowTask(c)
    ensures c < |flow.continuations| && flow.db.tasks[t].payload.parent == Some(flow.continuations[c].task)
    ensures DepthOf(flow.db.tasks, t).Deep? && DepthOf(flow.db.tasks, t).n <= cfg.workflowMaxDepth
    ensures JsonAt(flow.db.tasks[t].payload.budget, "workflow_depth") == Int(DepthOf(flow.db.tasks, t).n)
  {
    StartIsWired(cfg);
    WorkIsBounded(cfg, QUIET_START, history);
    assert SuccessorFits(cfg, flow.db.tasks, flow.continuations, t);
    AncestorsAreOlder(cfg, flow.db, t);
  }

  /** Parents and dependencies never form a cycle: on no history does a depth computation fail. */
  lemma WorkflowsAreAcyclic(cfg: Settings, history: seq<Entry>, flow: Flow, t: Id, n: nat)
    requires Admissible(cfg, QUIET_START, history) && flow == Unroll(cfg, QUIET_START, history)
    requires t < |flow.db.tasks| && Ancestor(flow.db.tasks, t, n).Some?
    ensures n > 0 ==> Ancestor(flow.db.tasks, t, n).value < t
    ensures forall d :: d in flow.db.tasks[t].payload.dependencies ==> d < t
  {
    StartIsWired(cfg);
    WorkIsBounded(cfg, QUIET_START, history);
    assert LinksBack(flow.db.tasks, t);
    AncestorsDescend(flow.db.tasks, t, n);
  }

  lemma {:induction false} AncestorsDescend(tasks: seq<Task>, t: Id, n: nat)
    requires forall k :: 0 <= k < |tasks| ==> LinksBack(tasks, k)
    requires t < |tasks| && Ancestor(tasks, t, n).Some?
    ensures Ancestor(tasks, t, n).value <= t && (n > 0 ==> Ancestor(tasks, t, n).value < t)
    decreases n
  {
    if n > 0 {
      assert LinksBack(tasks, t);
      AncestorsDescend(tasks, tasks[t].payload.parent.value, n - 1);
    }
  }

  // ---- What discovery can reach ---------------------------------------------------------------

  lemma CreationConsumes(
    cfg: Settings, flow: Flow, event: Id, target: string, action: string, artifacts: seq<string>, after: Flow, k: Id)
    requires Known(flow, event) && !Seen(flow, event)
    requires after == CreateContinuation(cfg, flow, event, target, action, artifacts).flow
    ensures Seen(after, k) <==> Seen(flow, k) || k == event
  {
    if after.skips != flow.skips {
      HasAppend(flow.skips, after.skips[|flow.skips|], SkipOf(k));
    } else {
      assert forall c :: 0 <= c < |flow.continuations| ==> !TriggeredBy(event)(flow.continuations[c]);
      HasAppend(flow.continuations, after.continuations[|flow.continuations|], TriggeredBy(k));
    }
  }

  /** A turn of discovery consumes its event exactly when the query returns it and a directive exists. */
  lemma DiscoveryConsumes(
    cfg: Settings, cat: Catalog, flow: Flow, event: Id, artifacts: seq<string>, after: Flow, k: Id)
    requires after == DiscoverEvent(cfg, cat, flow, event, artifacts)
    ensures Seen(after, k) <==>
              || Seen(flow, k)
              || (&& k == event && InBatch(cfg, flow, event)
                  && DirectiveFor(cfg, cat, flow.db, flow.events[event]).Propose?)
  {
    if InBatch(cfg, flow, event) && !Seen(flow, event) {
      var plan := DirectiveFor(cfg, cat, flow.db, flow.events[event]);
      if plan.Propose? {
        CreationConsumes(cfg, flow, event, plan.directive.target, plan.directive.action, artifacts, after, k);
      }
    }
  }

  lemma TriggersKept(flow: Flow, after: Flow, n: nat)
    requires Recorded(flow) && Grows(flow, after) && n <= |flow.events|
    ensures Count(after.events[..n], Trigger(after.db)) == Count(flow.events[..n], Trigger(flow.db))
  {
    forall i | 0 <= i < n ensures Trigger(after.db)(after.events[..n][i]) == Trigger(flow.db)(flow.events[..n][i]) {
      assert after.events[..|flow.events|][i] == after.events[i];
    }
    CountSame(flow.events[..n], after.events[..n], Trigger(flow.db), Trigger(after.db));
  }

  lemma SeenStep(cfg: Settings, flow: Flow, commit: Commit, now: Time, after: Flow, k: Id)
    requires after == Advance(cfg, flow, commit, now)
    ensures Seen(after, k) && !Seen(flow, k) ==>
              && commit.Discover? && InBatch(cfg, flow, k)
              && DirectiveFor(cfg, commit.cat, flow.db, flow.events[k]).Propose?
  {
    if commit.Discover? {
      DiscoveryConsumes(cfg, commit.cat, flow, commit.trigger, commit.artifacts, after, k);
    } else if after.continuations != flow.continuations {
      EditKeepsSeen(flow, commit.continuation, after.continuations[commit.continuation], k);
    }
  }

  /**
    The discovery query does not leave out events that were consumed already. So an event with four
    batches of older triggers before it is never discovered, whatever happens later.
   */
  lemma {:induction false} LateEventsAreNeverDiscovered(
    cfg: Settings, start: Flow, history: seq<Entry>, event: Id)
    requires Wired(cfg, start) && Admissible(cfg, start, history)
    requires event < |start.events| && !Seen(start, event)
    requires Count(start.events[..event], Trigger(start.db)) >= 4 * cfg.workflowBatch
    ensures var end := Unroll(cfg, start, history);
            && !Seen(end, event) && event < |end.events|
            && Count(end.events[..event], Trigger(end.db)) >= 4 * cfg.workflowBatch
  {
    if history != [] {
      var init, last := history[..|history| - 1], history[|history| - 1];
      var before, after := Unroll(cfg, start, init), Unroll(cfg, start, history);
      LateEventsAreNeverDiscovered(cfg, start, init, event);
      WorkIsBounded(cfg, start, init);
      GrowthStep(cfg, before, last.commit, last.now, after);
      SeenStep(cfg, before, last.commit, last.now, after, event);
      TriggersKept(before, after, event);
    }
  }
}
