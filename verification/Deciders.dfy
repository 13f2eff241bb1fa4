/** Who decides: over whole histories no worker decides about its own run, and reviews are decided by their reviewer. */
module Deciders {
  import opened Tables
  import opened Records
  import opened Lifecycle
  import opened Invariants
  import opened Admission
  import opened Closing
  import opened Histories
  import opened Identity
  import opened Moves
  import Effects

  /** Someone other than the run's worker, and the reviewer where the task asks for an independent review. */
  predicate Entitled(db: Db, run: Id, who: Option<string>) {
    && who.Some? && run < |db.runs| && who.value != db.runs[run].worker && db.runs[run].task < |db.tasks|
    && var payload := db.tasks[db.runs[run].task].payload;
       payload.independentReview ==> payload.reviewer == who
  }

  /** An approval that nobody has decided yet. */
  predicate Fresh(a: Approval) {
    a.verdict == Undecided && a.decidedBy.None? && a.reason.None? && a.decisionKey.None?
  }

  predicate ByDecision(a: Approval) {
    a.decisionKey.Some? && a.decisionKey.value.Named?
  }

  predicate ByCancellation(a: Approval) {
    a.decisionKey.Some? && a.decisionKey.value.CancelRejection?
  }

  /** What one call may do to an approval: nothing, reject it with its task, let it lapse, or decide it. */
  predicate ApprovalStep(db: Db, a: Approval, b: Approval) {
    || b == a
    || (&& a.verdict == Undecided && b.verdict == Rejected && ByCancellation(b)
        && a == b.(verdict := a.verdict, decidedBy := a.decidedBy, reason := a.reason, decisionKey := a.decisionKey))
    || (a.decisionKey.None? && b == a.(verdict := Expired))
    || (&& a.decisionKey.None? && ByDecision(b) && Entitled(db, a.run, b.decidedBy)
        && b.verdict in {Approved, Rejected}
        && a == b.(verdict := a.verdict, decidedBy := a.decidedBy, reason := a.reason, decisionKey := a.decisionKey))
  }

  ghost predicate ApprovalSteps(db: Db, after: Db) {
    && |db.approvals| <= |after.approvals|
    && (forall a :: 0 <= a < |db.approvals| ==> ApprovalStep(db, db.approvals[a], after.approvals[a]))
    && (forall a :: |db.approvals| <= a < |after.approvals| ==> Fresh(after.approvals[a]))
  }

  lemma NoneStepped(db: Db, after: Db)
    requires after.approvals == db.approvals
    ensures ApprovalSteps(db, after)
  {
  }

  lemma DispatchAsks(
    cfg: Settings, cat: Catalog, db: Db, task: Id, actor: string, key: Key, p: DispatchPayload, now: Time, step: Step)
    requires step == DispatchTask(cfg, cat, db, task, actor, key, p, now)
    ensures ApprovalSteps(db, step.db)
  {
    hide DispatchTask, NewRun;
    if Admission.Dispatched(step) {
      DispatchChecks(cfg, cat, db, task, actor, key, p, now, step);
      LaunchAsks(db, NotedFor(cfg, cat, db, task, actor, p, now), task, actor, key, p, now, step.db);
    } else {
      DispatchElse(cfg, cat, db, task, actor, key, p, now, step);
    }
  }

  lemma LaunchAsks(db: Db, noted: Db, task: Id, actor: string, key: Key, p: DispatchPayload, now: Time, after: Db)
    requires task < |db.tasks| && noted == db.(audit := noted.audit)
    requires after == Launch(noted, task, actor, key, p, now)
    ensures ApprovalSteps(db, after)
  {
    hide NewRun;
  }

  lemma DeliverAsks(db: Db, task: Id, actor: string, key: string, handoff: Handoff, ttl: int, now: Time, step: Step)
    requires step == HandoffTask(db, task, actor, key, handoff, ttl, now)
    ensures ApprovalSteps(db, step.db)
  {
  }

  lemma CancelRejects(
    cfg: Settings, db: Db, task: Id, actor: string, key: string, reason: string, now: Time, step: Step)
    requires Inv(cfg, db) && step == CancelTask(cfg, db, task, actor, key, reason, now)
    ensures ApprovalSteps(db, step.db)
  {
    hide Inv, CancelTask;
    Effects.CancelExactly(cfg, db, task, actor, key, reason, now, step);
  }

  lemma ResolveDecides(
    cfg: Settings, db: Db, run: Id, actor: string, key: string, decision: Verdict, reason: string, now: Time,
    step: Step)
    requires Inv(cfg, db) && step == ResolveApproval(cfg, db, run, actor, key, decision, reason, now)
    requires decision in {Approved, Rejected}
    ensures ApprovalSteps(db, step.db)
  {
    hide Inv, ResolveApproval;
    if forall a :: 0 <= a < |db.approvals| ==> db.approvals[a].run != run {
      Effects.NothingToResolve(cfg, db, run, actor, key, decision, reason, now, step);
    } else {
      var a := Effects.NewestOf(cfg, db, run);
      Effects.ResolveExactly(cfg, db, run, a, actor, key, decision, reason, now, step);
    }
  }

  lemma CallsStepApprovals(cfg: Settings, db: Db, e: Event, step: Step)
    requires Inv(cfg, db) && Safe(db, e) && step == Apply(cfg, db, e.cmd, e.now)
    ensures ApprovalSteps(db, step.db)
  {
    hide Inv, ApprovalSteps, TransitionRun, CancelTask, ResolveApproval, ExpireDueRuns, HandoffTask, DispatchTask;
    match e.cmd
    case Create(actor, key, payload) =>
      CreateAppends(db, actor, key, payload, step);
      NoneStepped(db, step.db);
    case Dispatch(cat, task, actor, key, p) => DispatchAsks(cfg, cat, db, task, actor, key, p, e.now, step);
    case Move(cat, run, to, actor, code, summary) =>
      MovesExactly(cfg, cat, db, run, to, actor, code, summary, e.now, step);
      NoneStepped(db, step.db);
    case Deliver(task, actor, key, handoff, ttl) =>
      DeliverAsks(db, task, actor, key, handoff, ttl, e.now, step);
    case Cancel(task, actor, key, reason) => CancelRejects(cfg, db, task, actor, key, reason, e.now, step);
    case Resolve(run, actor, key, decision, reason) =>
      ResolveDecides(cfg, db, run, actor, key, decision, reason, e.now, step);
    case Sweep(cat, actor) =>
      SweepKeepsInv(cfg, cat, db, actor, e.now, step);
      NoneStepped(db, step.db);
    case _ =>
      ColumnEditsAreQuiet(cfg, db, e.cmd, e.now);
      NoneStepped(db, step.db);
  }

  /** The approval was decided by someone entitled to it, rejected with its task, or not decided at all. */
  predicate Proper(db: Db, a: Approval) {
    if ByDecision(a) then Entitled(db, a.run, a.decidedBy) && a.verdict in {Approved, Rejected}
    else if ByCancellation(a) then a.verdict == Rejected
    else a.decisionKey.None? && a.verdict in {Undecided, Expired}
  }

  ghost predicate AllProper(db: Db) {
    forall a :: 0 <= a < |db.approvals| ==> Proper(db, db.approvals[a])
  }

  lemma StepsStayProper(db: Db, after: Db)
    requires AllProper(db) && ApprovalSteps(db, after) && Extends(db, after)
    ensures AllProper(after)
  {
    hide Entitled;
    forall a | 0 <= a < |after.approvals| ensures Proper(after, after.approvals[a]) {
      if a < |db.approvals| {
        EntitledStays(db, after, after.approvals[a].run, after.approvals[a].decidedBy);
        assert Proper(db, db.approvals[a]) && ApprovalStep(db, db.approvals[a], after.approvals[a]);
      }
    }
  }

  lemma EntitledStays(db: Db, after: Db, run: Id, who: Option<string>)
    requires Extends(db, after)
    ensures Entitled(db, run, who) ==> Entitled(after, run, who)
  {
  }

  lemma {:induction false} EveryDeciderIsProper(cfg: Settings, history: seq<Event>)
    requires Guarded(cfg, history)
    ensures AllProper(Replay(cfg, history))
  {
    hide Inv, Apply, Proper, ApprovalSteps, Safe;
    if history != [] {
      var init, last := history[..|history| - 1], history[|history| - 1];
      var before := Replay(cfg, init);
      EveryHistoryIsSafe(cfg, init);
      EveryDeciderIsProper(cfg, init);
      var step := Apply(cfg, before, last.cmd, last.now);
      CallsStepApprovals(cfg, before, last, step);
      ApplyExtends(cfg, before, last.cmd, last.now, step);
      StepsStayProper(before, step.db);
    }
  }

  /**
    In every guarded history an approval granted, or rejected by a decision, was decided by an actor other than
    the worker of its run, and by the reviewer if the task asks for an independent review.
   */
  lemma DecidersAreEntitled(cfg: Settings, history: seq<Event>, db: Db, a: Id)
    requires Guarded(cfg, history) && db == Replay(cfg, history) && a < |db.approvals|
    requires db.approvals[a].verdict == Approved || ByDecision(db.approvals[a])
    ensures var row := db.approvals[a];
            && row.run < |db.runs| && db.runs[row.run].task < |db.tasks|
            && row.decidedBy.Some? && row.decidedBy.value != db.runs[row.run].worker
            && (db.tasks[db.runs[row.run].task].payload.independentReview ==>
                  row.decidedBy == db.tasks[db.runs[row.run].task].payload.reviewer)
  {
    hide Replay, Guarded;
    EveryDeciderIsProper(cfg, history);
    assert Proper(db, db.approvals[a]);
  }
}
