/** A reachable state in which approving a dispatch damages the tables. */
module LateApproval {
  import opened Tables
  import opened Records
  import opened Limits
  import opened Controls
  import opened Lifecycle
  import opened Invariants
  import opened Closing
  import opened Approvals
  import opened Histories

  /** The run is overdue while its dispatch approval is still pending, unexpired and up to `actor`. */
  ghost predicate Racing(db: Db, run: Id, approval: Id, actor: string, key: string, now: Time) {
    && run < |db.runs| && db.runs[run].task < |db.tasks|
    && db.runs[run].status == AwaitingApproval && Overdue(db.runs[run], now)
    && Last(db.approvals, ApprovalOf(run)) == Some(approval)
    && (var a := db.approvals[approval];
        a.action != COMPLETION && a.verdict == Undecided && a.decisionKey.None? && a.expiresAt > now)
    && DecisionProblem(db, run, actor, now).None? && !Has(db.approvals, DecidedWith(Named(key)))
  }

  /**
    The watchdog and a reviewer racing for the same run. If a run waiting for its dispatch approval
    is swept as overdue and then approved, the approval goes through: the run is dispatched again
    although the ledger already holds its timeout.
   */
  lemma LateApprovalReopensARun(
    cfg: Settings, cat: Catalog, db: Db, run: Id, approval: Id, actor: string, key: string, reason: string, now: Time,
    swept: Step, after: Db)
    requires Inv(cfg, db) && Racing(db, run, approval, actor, key, now)
    requires swept == ExpireDueRuns(cfg, cat, db, WATCHDOG, now)
    requires after == ResolveApproval(cfg, swept.db, run, actor, key, Approved, reason, now).db
    ensures Inv(cfg, swept.db) && run < |swept.db.runs| && swept.db.runs[run].status == TimedOut
    ensures Unsafe(swept.db, run, actor, key, Approved, now) && !Inv(cfg, after)
  {
    hide Inv;
    SweepKeepsInv(cfg, cat, db, WATCHDOG, now, swept);
    assert AtDecision(swept.db, run, actor, key, now);
    ResolveKeepsInvExactly(cfg, swept.db, run, actor, key, Approved, reason, now, after);
  }

  const DEFAULTS: Settings :=
    Settings("tradix", 86400, 5_000_000, 10_000_000, 1, 3, 1, 3, 3600, 10, 2, 900)

  const NO_BUDGETS: Catalog := Catalog([], map[], map[])

  const ONE_TASK: TaskPayload :=
    TaskPayload(None, None, None, None, false, 50, "objective", ["criterion"], map[], [], [], None)

  const GATED: DispatchPayload := DispatchPayload("agent:developer", "high", 1, true, "dispatch", 900)

  const CREATION: Event := At(Create("user:owner", Named("task"), ONE_TASK), 0)
  const DISPATCH: Event := At(Dispatch(NO_BUDGETS, 0, "user:owner", Named("dispatch"), GATED), 0)

  /** One task, dispatched for one second behind an approval that lasts fifteen minutes. */
  const WAITING: seq<Event> := [CREATION, DISPATCH]

  lemma ReplayTwo(cfg: Settings, a: Event, b: Event)
    ensures Replay(cfg, [a, b]) == Apply(cfg, Apply(cfg, EMPTY, a.cmd, a.now).db, b.cmd, b.now).db
    ensures !a.cmd.Resolve? && !b.cmd.Resolve? ==> Guarded(cfg, [a, b])
  {
    assert [a, b][..1] == [a] && [a][..0] == [];
    assert Replay(cfg, [a]) == Apply(cfg, EMPTY, a.cmd, a.now).db;
  }

  lemma FirstDispatch(db: Db)
    requires db.tasks == [Task("user:owner", Named("task"), ONE_TASK, Pending, None)]
    requires db.runs == [] && db.approvals == [] && db.ledger == [] && db.circuits == map[]
    ensures DispatchTask(DEFAULTS, NO_BUDGETS, db, 0, "user:owner", Named("dispatch"), GATED, 0).db
         == Launch(db, 0, "user:owner", Named("dispatch"), GATED, 0)
  {
    var who := ScopeOf(db.tasks[0], GATED.worker, GATED.profile);
    assert LimitsFor(DEFAULTS, [], who)
        == ControlLimits(86400, Some(5_000_000), Some(10_000_000), 1, 3, 1, 3, 3600);
  }

  /** One run waits for an approval that outlives it. */
  ghost predicate OneWaiting(db: Db) {
    && |db.runs| == 1 && |db.approvals| == 1 && |db.tasks| == 1 && db.tasks[0].payload == ONE_TASK
    && db.runs[0].task == 0 && db.runs[0].status == AwaitingApproval && db.runs[0].timeoutAt == 1000
    && db.runs[0].worker == "agent:developer"
    && db.approvals[0] == Approval(0, "dispatch", Undecided, "user:owner", 900_000, None, None, None)
  }

  lemma WaitingState(created: Db, db: Db)
    requires created == CreateTask(EMPTY, "user:owner", Named("task"), ONE_TASK).db
    requires db == DispatchTask(DEFAULTS, NO_BUDGETS, created, 0, "user:owner", Named("dispatch"), GATED, 0).db
    ensures OneWaiting(db)
  {
    FirstDispatch(created);
  }

  lemma WaitingIsReachable(db: Db)
    requires db == Replay(DEFAULTS, WAITING)
    ensures Guarded(DEFAULTS, WAITING) && Inv(DEFAULTS, db) && OneWaiting(db)
  {
    ReplayTwo(DEFAULTS, CREATION, DISPATCH);
    WaitingState(CreateTask(EMPTY, "user:owner", Named("task"), ONE_TASK).db, db);
    EveryHistoryIsSafe(DEFAULTS, WAITING);
  }

  /** From there the sweep is harmless, and by the lemma above the late approval breaks the invariant. */
  lemma WaitingRaces(db: Db)
    requires OneWaiting(db)
    ensures Racing(db, 0, 0, "agent:validator", "late", 2000)
  {
    assert ApprovalOf(0)(db.approvals[0]);
  }
}
