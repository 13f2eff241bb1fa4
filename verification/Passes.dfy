/** What a whole pass of the coordinator achieves, and what can stop it. */
module Passes {
  import opened Tables
  import opened Records
  import opened Limits
  import opened Controls
  import opened Lifecycle
  import opened Invariants
  import opened Endings
  import opened Workflow
  import opened Ranking
  import opened Coordination
  import opened Termination
  import opened Coordinator

  // ---- Processing settles ---------------------------------------------------------------------

  lemma SettledStep(cfg: Settings, flow: Flow, c: Id, out: Outcome, after: Flow)
    requires Wired(cfg, flow) && Live(flow, c) && after == Settled(flow, c, out)
    requires out.Ok? ==> Has(flow.db.runs, RunKeyed(WorkflowDispatch(c)))
    ensures Wired(cfg, after) && Rank(cfg, after) < Rank(cfg, flow) && after.continuations[c].status != Pending
  {
    match out
    case Ok(_, _) => SettleStep(cfg, flow, c, Dispatched, None, after);
    case Refused(code) => SettleStep(cfg, flow, c, Failed, Some(code), after);
  }

  lemma StillLive(flow: Flow, after: Flow, c: Id)
    requires Recorded(after) && after == flow.(db := after.db) && Live(flow, c)
    ensures Live(after, c)
  {
  }

  lemma RetrySettles(
    cfg: Settings, dir: Directory, cat: Catalog, flow: Flow, c: Id, d: Directive, actor: string, now: Time, after: Flow)
    requires Wired(cfg, flow) && Live(flow, c) && after == RetryPass(cfg, dir, cat, flow, c, d, actor, now)
    ensures Wired(cfg, after) && Rank(cfg, after) < Rank(cfg, flow) && c < |after.continuations|
    ensures after.continuations[c].status != Pending
  {
    var step := RetrySource(cfg, dir, cat, flow, c, d, actor, now);
    var moved := flow.(db := step.db);
    RedispatchStep(cfg, dir, cat, flow, c, d, actor, now, step, moved);
    StillLive(flow, moved, c);
    SettledStep(cfg, moved, c, step.out, after);
  }

  lemma EnlistSettles(
    cfg: Settings, cat: Catalog, flow: Flow, c: Id, task: Id, d: Directive, actor: string, now: Time, step: Step,
    after: Flow)
    requires Wired(cfg, flow) && Live(flow, c) && Last(flow.db.tasks, TaskKeyed(WorkflowTask(c))) == Some(task)
    requires step == EnlistSuccessor(cfg, cat, flow, c, task, d, actor, now)
    requires after == Settled(flow.(db := step.db), c, step.out)
    ensures Wired(cfg, after) && Rank(cfg, after) < Rank(cfg, flow) && after.continuations[c].status != Pending
  {
    var moved := flow.(db := step.db);
    EnlistStep(cfg, cat, flow, c, task, d, actor, now, step, moved);
    StillLive(flow, moved, c);
    SettledStep(cfg, moved, c, step.out, after);
  }

  lemma CreatedSettles(
    cfg: Settings, cat: Catalog, created: Flow, c: Id, d: Directive, actor: string, now: Time, out: Outcome,
    after: Flow)
    requires Wired(cfg, created) && Live(created, c)
    requires out.Ok? ==> Last(created.db.tasks, TaskKeyed(WorkflowTask(c))) == Some(out.id)
    requires after == Enlisted(cfg, cat, created, c, d, actor, now, out)
    ensures Wired(cfg, after) && Rank(cfg, after) < Rank(cfg, created) && c < |after.continuations|
    ensures after.continuations[c].status != Pending
  {
    match out
    case Refused(_) => SettledStep(cfg, created, c, out, after);
    case Ok(task, _) =>
      EnlistSettles(cfg, cat, created, c, task, d, actor, now,
        EnlistSuccessor(cfg, cat, created, c, task, d, actor, now), after);
  }

  lemma ResumeSettles(
    cfg: Settings, dir: Directory, cat: Catalog, flow: Flow, c: Id, d: Directive, actor: string, now: Time,
    step: Step, after: Flow)
    requires Wired(cfg, flow) && Live(flow, c) && step == CreateSuccessor(cfg, dir, flow, c, d, actor)
    requires after == Enlisted(cfg, cat, flow.(db := step.db), c, d, actor, now, step.out)
    ensures Wired(cfg, after) && Rank(cfg, after) < Rank(cfg, flow) && c < |after.continuations|
    ensures after.continuations[c].status != Pending
  {
    var created := flow.(db := step.db);
    SucceedStep(cfg, dir, flow, c, d, actor, step, created);
    StillLive(flow, created, c);
    CreatedSettles(cfg, cat, created, c, d, actor, now, step.out, after);
  }

  /** Processing a pending continuation settles it for good and uses up rank, whatever the outcome. */
  lemma ProcessingSettles(
    cfg: Settings, dir: Directory, cat: Catalog, flow: Flow, c: Id, actor: string, now: Time, after: Flow)
    requires Wired(cfg, flow) && after == ProcessPass(cfg, dir, cat, flow, c, actor, now)
    requires c < |flow.continuations| && flow.continuations[c].status == Pending
    ensures Wired(cfg, after) && Rank(cfg, after) < Rank(cfg, flow) && c < |after.continuations|
    ensures after.continuations[c].status != Pending
  {
    assert ContinuationFits(flow, c);
    assert Live(flow, c);
    match flow.continuations[c].directive
    case None => SettleStep(cfg, flow, c, Failed, Some("workflow_directive_missing"), after);
    case Some(d) =>
      if d.retrySource {
        RetrySettles(cfg, dir, cat, flow, c, d, actor, now, after);
      } else {
        ResumeSettles(cfg, dir, cat, flow, c, d, actor, now, CreateSuccessor(cfg, dir, flow, c, d, actor), after);
      }
  }

  // ---- Discovery ------------------------------------------------------------------------------

  lemma ProposedSteps(
    cfg: Settings, cat: Catalog, flow: Flow, e: Id, d: Directive, artifacts: seq<string>, created: Flow, after: Flow)
    requires InBatch(cfg, flow, e) && !Seen(flow, e)
    requires DirectiveFor(cfg, cat, flow.db, flow.events[e]) == Propose(d)
    requires created == DiscoverEvent(cfg, cat, flow, e, artifacts) && after == Proposed(cfg, flow, e, d, artifacts)
    ensures after == created
         || (|flow.continuations| < |created.continuations|
             && after == StoreDirective(created, |flow.continuations|, d))
  {
    assert forall c :: 0 <= c < |flow.continuations| ==> !TriggeredBy(e)(flow.continuations[c]);
  }

  /** Both transactions of a discovered event keep the invariant and use up rank. */
  lemma ProposedStep(
    cfg: Settings, cat: Catalog, flow: Flow, e: Id, d: Directive, artifacts: seq<string>, after: Flow)
    requires Wired(cfg, flow) && InBatch(cfg, flow, e) && !Seen(flow, e)
    requires DirectiveFor(cfg, cat, flow.db, flow.events[e]) == Propose(d)
    requires after == Proposed(cfg, flow, e, d, artifacts)
    ensures Wired(cfg, after) && Rank(cfg, after) < Rank(cfg, flow)
  {
    var created := DiscoverEvent(cfg, cat, flow, e, artifacts);
    DiscoverStep(cfg, cat, flow, e, artifacts, created);
    DiscoveryConsumes(cfg, cat, flow, e, artifacts, created, e);
    ProposedSteps(cfg, cat, flow, e, d, artifacts, created, after);
    if after != created {
      AnnotateStep(cfg, created, |flow.continuations|, d, after);
    }
  }

  /** They consume that event and no other. */
  lemma ProposedSeen(
    cfg: Settings, cat: Catalog, flow: Flow, e: Id, d: Directive, artifacts: seq<string>, after: Flow, k: Id)
    requires InBatch(cfg, flow, e) && !Seen(flow, e)
    requires DirectiveFor(cfg, cat, flow.db, flow.events[e]) == Propose(d)
    requires after == Proposed(cfg, flow, e, d, artifacts)
    ensures Seen(after, k) <==> Seen(flow, k) || k == e
  {
    var created := DiscoverEvent(cfg, cat, flow, e, artifacts);
    DiscoveryConsumes(cfg, cat, flow, e, artifacts, created, k);
    ProposedSteps(cfg, cat, flow, e, d, artifacts, created, after);
    if after != created {
      var c := |flow.continuations|;
      EditKeepsSeen(created, c, after.continuations[c], k);
    }
  }

  lemma DiscoverOneStep(cfg: Settings, cat: Catalog, flow: Flow, e: Id, artifacts: seq<string>, turn: Pass)
    requires Wired(cfg, flow) && turn == DiscoverOne(cfg, cat, flow, e, artifacts)
    ensures Wired(cfg, turn.flow)
    ensures turn.flow == flow || Rank(cfg, turn.flow) < Rank(cfg, flow)
  {
    if InBatch(cfg, flow, e) && !Seen(flow, e) && DirectiveFor(cfg, cat, flow.db, flow.events[e]).Propose? {
      ProposedStep(
        cfg, cat, flow, e, DirectiveFor(cfg, cat, flow.db, flow.events[e]).directive, artifacts, turn.flow);
    }
  }

  /** What every turn keeps, the whole pass keeps. */
  lemma {:induction false} DiscoveryKeeps(
    cfg: Settings, cat: Catalog, flow: Flow, e: Id, artifacts: Id -> seq<string>, pass: Pass, good: Flow -> bool)
    requires pass == DiscoverPass(cfg, cat, flow, e, artifacts) && good(flow)
    requires forall f: Flow, k: Id :: good(f) ==> good(DiscoverOne(cfg, cat, f, k, artifacts(k)).flow)
    ensures good(pass.flow)
    decreases |flow.events| - e
  {
    hide DiscoverOne, DirectiveFor, Seen, Trigger;
    if e < |flow.events| {
      var turn := DiscoverOne(cfg, cat, flow, e, artifacts(e));
      if turn.raised.None? {
        DiscoveryKeeps(cfg, cat, turn.flow, e + 1, artifacts, pass, good);
      }
    }
  }

  ghost predicate Improved(cfg: Settings, flow: Flow, after: Flow) {
    && Wired(cfg, after) && after.db == flow.db && after.events == flow.events
    && (after == flow || Rank(cfg, after) < Rank(cfg, flow))
  }

  lemma DiscoveryKeepsWired(
    cfg: Settings, cat: Catalog, flow: Flow, e: Id, artifacts: Id -> seq<string>, pass: Pass)
    requires Wired(cfg, flow) && pass == DiscoverPass(cfg, cat, flow, e, artifacts)
    ensures Improved(cfg, flow, pass.flow)
  {
    forall f: Flow, k: Id | Improved(cfg, flow, f)
      ensures Improved(cfg, flow, DiscoverOne(cfg, cat, f, k, artifacts(k)).flow)
    {
      DiscoverOneStep(cfg, cat, f, k, artifacts(k), DiscoverOne(cfg, cat, f, k, artifacts(k)));
    }
    DiscoveryKeeps(cfg, cat, flow, e, artifacts, pass, f => Improved(cfg, flow, f));
  }

  // ---- Errors that end a pass -----------------------------------------------------------------

  predicate Consumable(cfg: Settings, cat: Catalog, flow: Flow, e: Id) {
    InBatch(cfg, flow, e) && DirectiveFor(cfg, cat, flow.db, flow.events[e]).Propose?
  }

  predicate Raises(cfg: Settings, cat: Catalog, flow: Flow, e: Id) {
    InBatch(cfg, flow, e) && !Seen(flow, e) && DirectiveFor(cfg, cat, flow.db, flow.events[e]).Raise?
  }

  /** The first event from `e` on whose directive raises an error; the number of events if none does. */
  function FirstError(cfg: Settings, cat: Catalog, flow: Flow, e: Id): (j: Id)
    requires e <= |flow.events|
    ensures e <= j <= |flow.events| && (j < |flow.events| ==> Raises(cfg, cat, flow, j))
    ensures forall k :: e <= k < j ==> !Raises(cfg, cat, flow, k)
    decreases |flow.events| - e
  {
    if e == |flow.events| || Raises(cfg, cat, flow, e) then e else FirstError(cfg, cat, flow, e + 1)
  }

  lemma {:induction false} SameErrorsAhead(cfg: Settings, cat: Catalog, flow: Flow, next: Flow, seen: Id, e: Id)
    requires next.db == flow.db && next.events == flow.events && seen < e <= |flow.events|
    requires forall j: Id :: j != seen ==> (Seen(next, j) <==> Seen(flow, j))
    ensures FirstError(cfg, cat, next, e) == FirstError(cfg, cat, flow, e)
    decreases |flow.events| - e
  {
    if e < |flow.events| {
      assert Raises(cfg, cat, next, e) == Raises(cfg, cat, flow, e);
      SameErrorsAhead(cfg, cat, flow, next, seen, e + 1);
    }
  }

  /** One turn of the loop. */
  lemma DiscoveryTurn(cfg: Settings, cat: Catalog, flow: Flow, e: Id, artifacts: seq<string>, turn: Pass)
    requires turn == DiscoverOne(cfg, cat, flow, e, artifacts)
    ensures turn.raised.Some? <==> Raises(cfg, cat, flow, e)
    ensures turn.raised.Some? ==> turn.flow == flow
    ensures forall j: Id :: Seen(turn.flow, j) <==> Seen(flow, j) || (j == e && Consumable(cfg, cat, flow, e))
  {
    if Consumable(cfg, cat, flow, e) && !Seen(flow, e) {
      var d := DirectiveFor(cfg, cat, flow.db, flow.events[e]).directive;
      forall j: Id ensures Seen(turn.flow, j) <==> Seen(flow, j) || j == e {
        ProposedSeen(cfg, cat, flow, e, d, artifacts, turn.flow, j);
      }
    }
  }

  /**
    A discovery pass consumes exactly the consumable events of the batch that come before the first one
    whose directive raises an error; that event and everything after it wait for another pass.
   */
  lemma {:induction false} DiscoveryStopsAtTheFirstError(
    cfg: Settings, cat: Catalog, flow: Flow, e: Id, artifacts: Id -> seq<string>, pass: Pass, k: Id)
    requires pass == DiscoverPass(cfg, cat, flow, e, artifacts) && e <= |flow.events|
    ensures pass.raised.None? <==> FirstError(cfg, cat, flow, e) == |flow.events|
    ensures Seen(pass.flow, k) <==>
              Seen(flow, k) || (e <= k < FirstError(cfg, cat, flow, e) && Consumable(cfg, cat, flow, k))
    decreases |flow.events| - e
  {
    hide DiscoverOne, DirectiveFor, Seen, Trigger;
    if e < |flow.events| {
      var turn := DiscoverOne(cfg, cat, flow, e, artifacts(e));
      DiscoveryTurn(cfg, cat, flow, e, artifacts(e), turn);
      if turn.raised.None? {
        SameErrorsAhead(cfg, cat, flow, turn.flow, e, e + 1);
        DiscoveryStopsAtTheFirstError(cfg, cat, turn.flow, e + 1, artifacts, pass, k);
        assert Consumable(cfg, cat, turn.flow, k) == Consumable(cfg, cat, flow, k);
      }
    }
  }

  /** The event is no failure, or its task's budget disables retries, or its runs exhaust any limit on them. */
  predicate Unretried(cfg: Settings, db: Db, event: RunEvent)
    requires event.run < |db.runs| && db.runs[event.run].task < |db.tasks|
  {
    var run := db.runs[event.run];
    var task := db.tasks[run.task];
    || EventOutcome(db, event) != "failed"
    || ("workflow_retry_failed" in task.payload.budget
        && task.payload.budget["workflow_retry_failed"] != Bool(true))
    || Count(db.runs, OfTask(run.task)) > LimitsFor(cfg, [], ScopeOf(task, run.worker, run.profile)).maxRetries
  }

  /** A result that must go to the parent of its task, where the parent names no agent. */
  predicate Orphaned(cfg: Settings, db: Db, event: RunEvent) {
    && Trigger(db)(event)
    && var payload := db.tasks[db.runs[event.run].task].payload;
       && payload.parent.Some? && payload.parent.value < |db.tasks|
       && ParentActor(db.tasks[payload.parent.value]).None?
       && Unretried(cfg, db, event)
  }

  predicate Stuck(cfg: Settings, flow: Flow, e: Id) {
    InBatch(cfg, flow, e) && !Seen(flow, e) && Orphaned(cfg, flow.db, flow.events[e])
  }

  lemma OrphansRaise(cfg: Settings, cat: Catalog, flow: Flow, e: Id)
    requires Stuck(cfg, flow, e)
    ensures Raises(cfg, cat, flow, e)
  {
    var event := flow.events[e];
    var run := flow.db.runs[event.run];
    BudgetsOnlyTighten(cfg, [], cat.budgets, ScopeOf(flow.db.tasks[run.task], run.worker, run.profile));
  }

  /** The events whose directive raises an error whatever the budgets are exactly the orphans of the batch. */
  lemma OrphansRaiseExactly(cfg: Settings, flow: Flow, e: Id)
    requires Linked(flow.db)
    ensures Stuck(cfg, flow, e) <==> forall cat: Catalog :: Raises(cfg, cat, flow, e)
  {
    if Stuck(cfg, flow, e) {
      forall cat: Catalog ensures Raises(cfg, cat, flow, e) {
        OrphansRaise(cfg, cat, flow, e);
      }
    }
    if Raises(cfg, Catalog([], map[], map[]), flow, e) {
      var task := flow.db.runs[flow.events[e].run].task;
      assert LinksBack(flow.db.tasks, task);
    }
  }

  /** With an orphan in the batch every round ends in an error, before any continuation is processed. */
  lemma OrphansStopTheRound(
    cfg: Settings, dir: Directory, cat: Catalog, flow: Flow, e: Id, artifacts: Id -> seq<string>, actor: string,
    now: Time, round: Pass)
    requires Wired(cfg, flow) && Stuck(cfg, flow, e)
    requires round == Round(cfg, dir, cat, flow, artifacts, actor, now)
    ensures round.raised.Some? && round.flow.db == flow.db
    ensures Stuck(cfg, round.flow, e)
    ensures forall k: Id :: e < k && !Seen(flow, k) ==> !Seen(round.flow, k)
  {
    OrphansRaise(cfg, cat, flow, e);
    var pass := DiscoverPass(cfg, cat, flow, 0, artifacts);
    DiscoveryKeepsWired(cfg, cat, flow, 0, artifacts, pass);
    DiscoveryStopsAtTheFirstError(cfg, cat, flow, 0, artifacts, pass, e);
    assert FirstError(cfg, cat, flow, 0) <= e;
    forall k: Id | e < k && !Seen(flow, k) ensures !Seen(pass.flow, k) {
      DiscoveryStopsAtTheFirstError(cfg, cat, flow, 0, artifacts, pass, k);
    }
  }

  /** An outcome other than failure is one the run has really ended with. */
  predicate Ended(db: Db, event: RunEvent)
    requires event.run < |db.runs| && db.runs[event.run].task < |db.tasks|
  {
    EventOutcome(db, event) != "failed" ==> Terminal(db.runs[event.run].status)
  }

  predicate StuckForGood(cfg: Settings, flow: Flow, e: Id) {
    Stuck(cfg, flow, e) && Ended(flow.db, flow.events[e])
  }

  /** And nothing that happens afterwards can release it: orphans stay orphans. */
  lemma {:induction false} OrphansStayStuck(cfg: Settings, start: Flow, history: seq<Entry>, e: Id)
    requires Wired(cfg, start) && Admissible(cfg, start, history) && StuckForGood(cfg, start, e)
    ensures StuckForGood(cfg, Unroll(cfg, start, history), e)
  {
    hide Wired, Permitted, StuckForGood, Advance;
    if history != [] {
      var init, last := history[..|history| - 1], history[|history| - 1];
      var before, after := Unroll(cfg, start, init), Unroll(cfg, start, history);
      OrphansStayStuck(cfg, start, init, e);
      WorkIsBounded(cfg, start, init);
      WorkIsBounded(cfg, start, history);
      StuckStep(cfg, before, last.commit, last.now, after, e);
    }
  }

  lemma RunsOnlyAdd(a: seq<Run>, b: seq<Run>, task: Id)
    requires |a| <= |b| && forall r :: 0 <= r < |a| ==> SameRun(a[r], b[r])
    ensures Count(a, OfTask(task)) <= Count(b, OfTask(task))
  {
    CountSame(a, b[..|a|], OfTask(task), OfTask(task));
    CountPrefix(b, |a|, OfTask(task));
  }

  /** Without budget rows the limit on retries is a matter of the task's own budget. */
  lemma SameRetryLimit(cfg: Settings, a: Scope, b: Scope)
    requires a.budget == b.budget
    ensures LimitsFor(cfg, [], a).maxRetries == LimitsFor(cfg, [], b).maxRetries
  {
  }

  lemma OrphanKept(cfg: Settings, flow: Flow, after: Flow, e: Id)
    requires Recorded(flow) && Grows(flow, after) && e < |flow.events| && Orphaned(cfg, flow.db, flow.events[e])
    requires Ended(flow.db, flow.events[e])
    requires Terminal(flow.db.runs[flow.events[e].run].status) ==>
               after.db.runs[flow.events[e].run].status == flow.db.runs[flow.events[e].run].status
    ensures e < |after.events| && Orphaned(cfg, after.db, after.events[e]) && Ended(after.db, after.events[e])
  {
    hide LimitsFor;
    assert after.events[..|flow.events|][e] == after.events[e];
    var event := flow.events[e];
    var x, y := flow.db.runs[event.run], after.db.runs[event.run];
    RunsOnlyAdd(flow.db.runs, after.db.runs, x.task);
    SameRetryLimit(cfg, ScopeOf(flow.db.tasks[x.task], x.worker, x.profile),
      ScopeOf(after.db.tasks[x.task], y.worker, y.profile));
  }

  lemma StuckStep(cfg: Settings, flow: Flow, commit: Commit, now: Time, after: Flow, e: Id)
    requires Wired(cfg, flow) && Wired(cfg, after) && StuckForGood(cfg, flow, e)
    requires after == Advance(cfg, flow, commit, now)
    ensures StuckForGood(cfg, after, e)
  {
    hide Inv, Advance, Orphaned, Ended, LimitsFor, DirectiveFor;
    GrowthStep(cfg, flow, commit, now, after);
    SeenStep(cfg, flow, commit, now, after, e);
    if Terminal(flow.db.runs[flow.events[e].run].status) {
      EndingsKept(cfg, flow, commit, now, after, flow.events[e].run);
    }
    OrphanKept(cfg, flow, after, e);
    TriggersKept(flow, after, e);
    if commit.Discover? {
      OrphansRaise(cfg, commit.cat, flow, e);
    }
  }

  lemma LedgerKept(cfg: Settings, flow: Flow, commit: Commit, now: Time, after: Flow)
    requires Wired(cfg, flow) && after == Advance(cfg, flow, commit, now)
    ensures LedgerGrows(flow.db, after.db)
  {
    hide Wired, Apply, DirectiveFor, RetrySource, EnlistSuccessor, CreateSuccessor, RunKeyed, TaskKeyed;
    match commit
    case Outside(cmd) => OutsideLedger(cfg, flow, cmd, now);
    case Enlist(c, cat, actor) =>
      var successor := Last(flow.db.tasks, TaskKeyed(WorkflowTask(c)));
      if Directed(flow, c, false) && successor.Some? {
        EnlistLedger(cfg, cat, flow, c, successor.value, flow.continuations[c].directive.value, actor, now);
      }
    case Redispatch(c, dir, cat, actor) =>
      if Directed(flow, c, true) {
        RetryLedger(cfg, dir, cat, flow, c, flow.continuations[c].directive.value, actor, now);
      }
    case Succeed(c, dir, actor) =>
      if Directed(flow, c, false) {
        SuccessorLedger(cfg, dir, flow, c, flow.continuations[c].directive.value, actor);
      }
    case _ =>
  }

  lemma EnlistLedger(
    cfg: Settings, cat: Catalog, flow: Flow, c: Id, task: Id, d: Directive, actor: string, now: Time)
    ensures LedgerGrows(flow.db, EnlistSuccessor(cfg, cat, flow, c, task, d, actor, now).db)
  {
    hide DispatchTask;
    DispatchGrows(cfg, cat, flow.db, task, actor, WorkflowDispatch(c), RequestFor(cfg, d), now,
      EnlistSuccessor(cfg, cat, flow, c, task, d, actor, now));
  }

  lemma RetryLedger(
    cfg: Settings, dir: Directory, cat: Catalog, flow: Flow, c: Id, d: Directive, actor: string, now: Time)
    requires Live(flow, c)
    ensures LedgerGrows(flow.db, RetrySource(cfg, dir, cat, flow, c, d, actor, now).db)
  {
    hide DispatchTask, RetryProblem;
    var task := SourceRun(flow, c).task;
    DispatchGrows(cfg, cat, flow.db, task, actor, WorkflowDispatch(c), RequestFor(cfg, d), now,
      DispatchTask(cfg, cat, flow.db, task, actor, WorkflowDispatch(c), RequestFor(cfg, d), now));
  }

  lemma SuccessorLedger(cfg: Settings, dir: Directory, flow: Flow, c: Id, d: Directive, actor: string)
    requires Live(flow, c)
    ensures LedgerGrows(flow.db, CreateSuccessor(cfg, dir, flow, c, d, actor).db)
  {
    hide ResumeProblem, SuccessorPayload;
  }

  lemma OutsideLedger(cfg: Settings, flow: Flow, cmd: Command, now: Time)
    requires Wired(cfg, flow)
    ensures LedgerGrows(flow.db, Apply(cfg, flow.db, cmd, now).db)
  {
    hide Apply, Fits;
    LedgerIsAppendOnly(cfg, flow.db, cmd, now, Apply(cfg, flow.db, cmd, now).db);
  }

  lemma EndingsKept(cfg: Settings, flow: Flow, commit: Commit, now: Time, after: Flow, run: Id)
    requires Wired(cfg, flow) && Wired(cfg, after) && after == Advance(cfg, flow, commit, now)
    requires run < |flow.db.runs| && Terminal(flow.db.runs[run].status)
    ensures run < |after.db.runs| && after.db.runs[run].status == flow.db.runs[run].status
  {
    hide Advance, Fits;
    GrowthStep(cfg, flow, commit, now, after);
    LedgerKept(cfg, flow, commit, now, after);
    BookedStatusStays(flow.db, after.db, run);
  }
}
