/** A completion approval that lapsed before its task was cancelled can still restate the task. */
module LapsedApproval {
  import opened Tables
  import opened Records
  import opened Limits
  import opened Controls
  import opened Lifecycle
  import opened Invariants
  import opened Preservation
  import opened Closing
  import opened Approvals
  import opened Histories
  import opened LateApproval

  // ---- In any state -----------------------------------------------------------------------------

  /** An ended run whose completion approval has just passed its expiry undecided, and that `actor` may decide. */
  ghost predicate Lapsing(db: Db, run: Id, approval: Id, actor: string, now: Time) {
    && run < |db.runs| && db.runs[run].task < |db.tasks| && db.tasks[db.runs[run].task].cancelKey.None?
    && Last(db.approvals, ApprovalOf(run)) == Some(approval) && DecisionProblem(db, run, actor, now).None?
    && var a := db.approvals[approval];
       a.action == COMPLETION && a.verdict == Undecided && a.decisionKey.None? && a.expiresAt <= now
  }

  /** The approval is marked as expired, but no decision is on record for it. */
  ghost predicate Lapsed(db: Db, run: Id, approval: Id, actor: string, now: Time) {
    && run < |db.runs| && db.runs[run].task < |db.tasks| && db.runs[run].status == Completed
    && Last(db.approvals, ApprovalOf(run)) == Some(approval) && DecisionProblem(db, run, actor, now).None?
    && var a := db.approvals[approval];
       a.action == COMPLETION && a.verdict == Expired && a.decisionKey.None? && a.expiresAt <= now
  }

  lemma {:induction false} LastSame<T>(a: seq<T>, b: seq<T>, p: T -> bool)
    requires |a| == |b| && forall i :: 0 <= i < |a| ==> p(a[i]) == p(b[i])
    ensures Last(a, p) == Last(b, p)
  {
    if a != [] {
      LastSame(a[..|a| - 1], b[..|b| - 1], p);
    }
  }

  lemma Lapses(
    cfg: Settings, db: Db, run: Id, approval: Id, actor: string, key: string, decision: Verdict, reason: string,
    now: Time, after: Db)
    requires Inv(cfg, db) && Lapsing(db, run, approval, actor, now) && decision in {Approved, Rejected}
    requires after == ResolveApproval(cfg, db, run, actor, key, decision, reason, now).db
    ensures Inv(cfg, after) && Lapsed(after, run, approval, actor, now) && after.runs == db.runs
    ensures after.tasks == PutTaskStatus(db, db.runs[run].task, Failed).tasks
    ensures !Unsafe(db, run, actor, key, decision, now)
  {
    hide Inv;
    ResolveKeepsInvExactly(cfg, db, run, actor, key, decision, reason, now, after);
    LastSame(db.approvals, after.approvals, ApprovalOf(run));
  }

  lemma CancelLeavesLapsed(
    cfg: Settings, db: Db, run: Id, approval: Id, actor: string, now: Time, canceller: string, cancelKey: string,
    why: string, at: Time, step: Step)
    requires Inv(cfg, db) && Lapsed(db, run, approval, actor, now) && CancelsAfresh(db, db.runs[run].task, cancelKey)
    requires step == CancelTask(cfg, db, db.runs[run].task, canceller, cancelKey, why, at)
    ensures Inv(cfg, step.db) && Lapsed(step.db, run, approval, actor, now) && step.out.Ok?
    ensures step.db.tasks == db.tasks[db.runs[run].task := CancelledTask(db.tasks[db.runs[run].task], cancelKey)]
    ensures step.db.runs[run] == db.runs[run]
  {
    hide CancelTask, Inv, CancelEffect;
    CancelKeepsInv(cfg, db, db.runs[run].task, canceller, cancelKey, why, at, step);
    CancelShapeUnderInv(cfg, db, db.runs[run].task, canceller, cancelKey, why, at, step);
    EffectLeavesLapsed(db, run, approval, actor, now, canceller, cancelKey, why, at, step.db);
  }

  lemma CancelShapeUnderInv(
    cfg: Settings, db: Db, task: Id, actor: string, key: string, reason: string, now: Time, step: Step)
    requires Inv(cfg, db) && CancelsAfresh(db, task, key)
    requires step == CancelTask(cfg, db, task, actor, key, reason, now)
    ensures step.out == Ok(task, false) && CancelEffect(db, step.db, task, actor, key, reason, now)
  {
    hide CancelTask, Core, AllSealed, CancelEffect;
    CancelShape(cfg, db, task, actor, key, reason, now, step);
  }

  lemma EffectLeavesLapsed(
    db: Db, run: Id, approval: Id, actor: string, now: Time, canceller: string, cancelKey: string, why: string,
    at: Time, after: Db)
    requires Lapsed(db, run, approval, actor, now)
    requires CancelEffect(db, after, db.runs[run].task, canceller, cancelKey, why, at)
    ensures Lapsed(after, run, approval, actor, now) && after.runs[run] == db.runs[run]
    ensures after.tasks == db.tasks[db.runs[run].task := CancelledTask(db.tasks[db.runs[run].task], cancelKey)]
  {
    LastSame(db.approvals, after.approvals, ApprovalOf(run));
  }

  lemma Restates(
    cfg: Settings, db: Db, run: Id, approval: Id, actor: string, key: string, decision: Verdict, reason: string,
    now: Time, after: Db)
    requires Inv(cfg, db) && Lapsed(db, run, approval, actor, now) && decision in {Approved, Rejected}
    requires db.tasks[db.runs[run].task].cancelKey.Some?
    requires after == ResolveApproval(cfg, db, run, actor, key, decision, reason, now).db
    ensures Unsafe(db, run, actor, key, decision, now) && !Inv(cfg, after)
    ensures after.tasks == PutTaskStatus(db, db.runs[run].task, Failed).tasks
  {
    hide Inv;
    ResolveKeepsInvExactly(cfg, db, run, actor, key, decision, reason, now, after);
  }

  /** The task was cancelled under `key` and is in `status`. */
  predicate CancelledYet(db: Db, task: Id, key: string, status: Status) {
    task < |db.tasks| && db.tasks[task].cancelKey == Some(key) && db.tasks[task].status == status
  }

  /**
    A decision that comes too late only marks the approval as expired. If the task is cancelled after that,
    any second decision, of either kind, finds the approval again and turns the cancelled task into a failed one.
   */
  lemma LapsedApprovalRestates(
    cfg: Settings, db: Db, run: Id, task: Id, approval: Id, actor: string, keys: (string, string),
    decisions: (Verdict, Verdict), reason: string, now: Time, canceller: string, cancelKey: string, lapsed: Db,
    cancelled: Step, after: Db)
    requires run < |db.runs| && task == db.runs[run].task && Lapsing(db, run, approval, actor, now) && Inv(cfg, db)
    requires decisions.0 in {Approved, Rejected} && decisions.1 in {Approved, Rejected}
    requires lapsed == ResolveApproval(cfg, db, run, actor, keys.0, decisions.0, reason, now).db
    requires !Has(lapsed.tasks, CancelledWith(cancelKey))
    requires cancelled == CancelTask(cfg, lapsed, task, canceller, cancelKey, reason, now)
    requires after == ResolveApproval(cfg, cancelled.db, run, actor, keys.1, decisions.1, reason, now).db
    ensures !Unsafe(db, run, actor, keys.0, decisions.0, now) && Inv(cfg, lapsed)
    ensures Inv(cfg, cancelled.db) && CancelledYet(cancelled.db, task, cancelKey, Cancelled)
    ensures Unsafe(cancelled.db, run, actor, keys.1, decisions.1, now)
    ensures CancelledYet(after, task, cancelKey, Failed) && !Inv(cfg, after)
  {
    hide Inv, ResolveApproval, CancelTask, Unsafe, DecisionProblem;
    Lapses(cfg, db, run, approval, actor, keys.0, decisions.0, reason, now, lapsed);
    CancelLeavesLapsed(cfg, lapsed, run, approval, actor, now, canceller, cancelKey, reason, now, cancelled);
    Restates(cfg, cancelled.db, run, approval, actor, keys.1, decisions.1, reason, now, after);
  }

  // ---- From the empty tables ----------------------------------------------------------------------

  const REVIEWED: TaskPayload :=
    TaskPayload(None, None, None, Some("user:reviewer"), true, 50, "objective", ["criterion"], map[], [], [], None)

  const OPEN: DispatchPayload := DispatchPayload("agent:developer", "high", 3600, false, "dispatch", 900)

  const RESULT: Handoff := Handoff("completed", "note")

  /** A task under review is dispatched, run, handed over for a second's review, and completed. */
  function Reviewing(): seq<Event> {
    [At(Create("user:owner", Named("task"), REVIEWED), 0),
     At(Dispatch(NO_BUDGETS, 0, "user:owner", Named("dispatch"), OPEN), 0),
     At(Move(NO_BUDGETS, 0, Running, "dispatcher", None, None), 0),
     At(Deliver(0, "agent:developer", "handoff", RESULT, 1), 0),
     At(Move(NO_BUDGETS, 0, Completed, "dispatcher", None, None), 0)]
  }

  lemma ReplayFive(cfg: Settings, h: seq<Event>, a: Db, b: Db, c: Db, d: Db)
    requires |h| == 5 && forall e :: e in h ==> !e.cmd.Resolve?
    requires a == Apply(cfg, EMPTY, h[0].cmd, h[0].now).db && b == Apply(cfg, a, h[1].cmd, h[1].now).db
    requires c == Apply(cfg, b, h[2].cmd, h[2].now).db && d == Apply(cfg, c, h[3].cmd, h[3].now).db
    ensures Replay(cfg, h) == Apply(cfg, d, h[4].cmd, h[4].now).db && Guarded(cfg, h)
  {
    hide Apply, Unsafe;
    var four, three, two, one := h[..4], h[..3], h[..2], h[..1];
    assert four[..3] == three && three[..2] == two && two[..1] == one && one[..0] == [];
    assert Replay(cfg, one) == a && Guarded(cfg, one);
    assert Replay(cfg, two) == b && Guarded(cfg, two);
    assert Replay(cfg, three) == c && Guarded(cfg, three);
    assert Replay(cfg, four) == d && Guarded(cfg, four);
  }

  /** One task with one run, which nobody has charged or booked anything for. */
  ghost predicate Alone(db: Db, status: Status, taskStatus: Status) {
    && db.tasks == [Task("user:owner", Named("task"), REVIEWED, taskStatus, None)]
    && |db.runs| == 1 && db.runs[0].task == 0 && db.runs[0].status == status && db.runs[0].worker == "agent:developer"
    && db.ledger == [] && db.comments == []
  }

  lemma IsDispatched(a: Db, b: Db)
    requires a == CreateTask(EMPTY, "user:owner", Named("task"), REVIEWED).db
    requires b == DispatchTask(DEFAULTS, NO_BUDGETS, a, 0, "user:owner", Named("dispatch"), OPEN, 0).db
    ensures Alone(b, Dispatching, Records.Dispatched) && b.approvals == []
  {
    hide LimitsFor;
    var who := ScopeOf(a.tasks[0], OPEN.worker, OPEN.profile);
    ReviewLimits(who);
  }

  lemma ReviewLimits(who: Scope)
    requires who.budget == map[]
    ensures LimitsFor(DEFAULTS, [], who) == ControlLimits(86400, Some(5_000_000), Some(10_000_000), 1, 3, 1, 3, 3600)
  {
  }

  lemma IsStarted(b: Db, c: Db)
    requires Alone(b, Dispatching, Records.Dispatched) && b.approvals == []
    requires c == TransitionRun(DEFAULTS, NO_BUDGETS, b, 0, Running, "dispatcher", None, None, 0).db
    ensures Alone(c, Running, InProgress) && c.approvals == []
  {
  }

  /** The hand-over is on the run, and its approval waits. */
  ghost predicate HandedOver(db: Db) {
    && |db.runs| == 1 && db.runs[0].details.handoff.Some?
    && db.runs[0].details.handoff.value.handoff.outcome == "completed"
    && db.approvals == [Approval(0, COMPLETION, Undecided, "agent:developer", 1000, None, None, None)]
  }

  lemma IsHandedOver(c: Db, d: Db)
    requires Alone(c, Running, InProgress) && c.approvals == []
    requires d == HandoffTask(c, 0, "agent:developer", "handoff", RESULT, 1, 0).db
    ensures Alone(d.(comments := []), Running, AwaitingApproval) && HandedOver(d)
  {
  }

  lemma IsCompleted(d: Db, end: Db)
    requires Alone(d.(comments := []), Running, AwaitingApproval) && HandedOver(d)
    requires end == TransitionRun(DEFAULTS, NO_BUDGETS, d, 0, Completed, "dispatcher", None, None, 0).db
    ensures Lapsing(end, 0, 0, "user:reviewer", 1000)
  {
    hide RecordOutcome;
    var moved := Restated(d, 0, Completed, "dispatcher", None, None, 0);
    assert Has(d.approvals, PendingCompletion(0)) by {
      assert PendingCompletion(0)(d.approvals[0]);
    }
    RecordOutcomeFrame(DEFAULTS, NO_BUDGETS, moved, 0, "dispatcher", 0);
    assert ApprovalOf(0)(end.approvals[0]);
  }

  /** So the race of the lemma above can be run from the empty tables. */
  lemma LapsingIsReachable(end: Db)
    requires end == Replay(DEFAULTS, Reviewing())
    ensures Guarded(DEFAULTS, Reviewing()) && Inv(DEFAULTS, end) && Lapsing(end, 0, 0, "user:reviewer", 1000)
  {
    hide CreateTask, DispatchTask, TransitionRun, HandoffTask, Alone, HandedOver, Inv, Lapsing;
    var a := CreateTask(EMPTY, "user:owner", Named("task"), REVIEWED).db;
    var b := DispatchTask(DEFAULTS, NO_BUDGETS, a, 0, "user:owner", Named("dispatch"), OPEN, 0).db;
    var c := TransitionRun(DEFAULTS, NO_BUDGETS, b, 0, Running, "dispatcher", None, None, 0).db;
    var d := HandoffTask(c, 0, "agent:developer", "handoff", RESULT, 1, 0).db;
    ReplayFive(DEFAULTS, Reviewing(), a, b, c, d);
    IsDispatched(a, b);
    IsStarted(b, c);
    IsHandedOver(c, d);
    IsCompleted(d, end);
    EveryHistoryIsSafe(DEFAULTS, Reviewing());
  }
}
