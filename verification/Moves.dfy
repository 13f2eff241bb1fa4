/** What a move of a run does to every table, and what the ledger entry of an ended run says. */
module Moves {
  import opened Tables
  import opened Records
  import opened Controls
  import opened Lifecycle
  import opened Invariants
  import opened Preservation

  // ---- The ledger entry -------------------------------------------------------------------------

  predicate QuotaCode(code: Option<string>) {
    code == Some("quota_exhausted") || code == Some("rate_limited")
  }

  /** When the quota is said to be available again: at the reported time, or after the reported delay. */
  predicate ResetsAt(details: Details, from: Time, reset: Option<Time>) {
    if details.quotaResetAt.Some? then reset == details.quotaResetAt
    else if details.retryAfterSeconds.Some? then reset == Some(from + Seconds(details.retryAfterSeconds.value))
    else reset.None?
  }

  /** From the start, or the dispatch if the run never started, to the end, and never negative. */
  predicate Lasted(row: Run, duration: Option<int>) {
    && row.finishedAt.Some? && duration.Some? && duration.value >= 0
    && var from := if row.startedAt.Some? then row.startedAt.value else row.createdAt;
       if from <= row.finishedAt.value then duration.value == row.finishedAt.value - from else duration.value == 0
  }

  /** The entry says what the row of the ended run says. */
  predicate Carries(project: string, task: Task, r: Id, row: Run, e: LedgerEntry) {
    && e.run == r && e.task == row.task && e.project == project && e.requester == task.requester
    && e.category == OrElse(task.payload.workflowRef, "uncategorized")
    && e.executor == row.worker && e.requestedProfile == row.profile && e.effectiveProfile == row.effectiveProfile
    && e.usage == row.usage && e.outcome == row.status
    && e.retryNumber >= 0 && (row.attempt >= 1 ==> e.retryNumber == row.attempt - 1)
    && (e.quotaExhausted <==> QuotaCode(row.errorCode))
    && (QuotaCode(row.errorCode) && row.finishedAt.Some? ==>
          ResetsAt(row.details, row.finishedAt.value, e.quotaResetAt))
    && (!QuotaCode(row.errorCode) ==> e.quotaResetAt.None?)
    && Lasted(row, e.durationMs)
    && e.payload.usage == row.usage && e.payload.errorCode == row.errorCode && e.payload.details == row.details
    && e.payload.status == row.status && e.payload.profile == OrElse(row.effectiveProfile, row.profile)
  }

  lemma EntryCarries(cfg: Settings, tasks: seq<Task>, r: Id, row: Run, now: Time)
    requires row.task < |tasks| && row.finishedAt.Some?
    ensures Carries(cfg.project, tasks[row.task], r, row, EntryFor(cfg, tasks, r, row, now))
    ensures EntryFor(cfg, tasks, r, row, now).createdAt == now
  {
  }

  /** Nothing is filed yet for the run. */
  predicate Unbooked(db: Db, run: Id) {
    forall e :: 0 <= e < |db.ledger| ==> db.ledger[e].run != run
  }

  lemma ActiveIsUnbooked(cfg: Settings, db: Db, run: Id)
    requires Inv(cfg, db) && run < |db.runs| && Active(db.runs[run].status)
    ensures Unbooked(db, run)
  {
    hide AllSealed, WithinCaps, Numbered, Keyed;
    forall e | 0 <= e < |db.ledger| ensures db.ledger[e].run != run {
      CountZero(db.ledger, ForRun(run));
      assert ForRun(run)(db.ledger[e]) <==> db.ledger[e].run == run;
    }
  }

  /** The first filing for a run appends its entry, and its entry only. */
  lemma FilingAppends(cfg: Settings, db: Db, run: Id, actor: string, now: Time, filing: Filing)
    requires run < |db.runs| && db.runs[run].task < |db.tasks| && db.runs[run].finishedAt.Some? && Unbooked(db, run)
    requires filing == Ingest(cfg, db, run, actor, now)
    ensures filing.Filed? && |filing.db.ledger| == |db.ledger| + 1 && filing.db.ledger[..|db.ledger|] == db.ledger
    ensures filing.db == db.(ledger := filing.db.ledger, audit := filing.db.audit)
    ensures filing.db.audit == db.audit + [Audit(actor, "usage.ingested", LedgerRow(|db.ledger|))]
    ensures Carries(cfg.project, db.tasks[db.runs[run].task], run, db.runs[run], filing.db.ledger[|db.ledger|])
  {
    hide EntryFor, Carries;
    EntryCarries(cfg, db.tasks, run, db.runs[run], now);
    assert Last(db.ledger, ForRun(run)).None?;
  }

  // ---- The row and the task ---------------------------------------------------------------------

  /** The moves that a run may make. */
  const MOVES: set<(Status, Status)> :=
    {(Dispatching, Running), (Dispatching, Failed), (Dispatching, Cancelled), (Dispatching, TimedOut),
     (Running, AwaitingApproval), (Running, Completed), (Running, Failed), (Running, Cancelled), (Running, TimedOut),
     (AwaitingApproval, Dispatching), (AwaitingApproval, Failed), (AwaitingApproval, Cancelled),
     (AwaitingApproval, TimedOut)}

  /** The row before and after: only what a move is about has changed. */
  predicate RowMoved(a: Run, b: Run, to: Status, code: Option<string>, summary: Option<string>, now: Time) {
    && b == a.(status := to, errorCode := code, summary := summary, startedAt := b.startedAt,
               finishedAt := b.finishedAt, lease := b.lease)
    && (if to == Running && a.startedAt.None? then b.startedAt == Some(now) else b.startedAt == a.startedAt)
    && (if to in {Completed, Failed, Cancelled, TimedOut} then b.finishedAt == Some(now) && b.lease.None?
        else b.finishedAt == a.finishedAt && b.lease == a.lease)
  }

  /** Some approval of the hand-over waits for its decision. */
  predicate AwaitsReview(approvals: seq<Approval>, run: Id) {
    exists a :: 0 <= a < |approvals| && PendingReview(approvals[a], run)
  }

  predicate PendingReview(a: Approval, run: Id) {
    a.run == run && a.action == "completion" && a.verdict == Undecided
  }

  /** The task follows its run, except that the hand-over of a completed run decides for it. */
  predicate TaskFollows(approvals: seq<Approval>, run: Id, row: Run, to: Status, status: Status) {
    if to == Completed && row.details.handoff.Some? then
      && (status == Blocked <==> row.details.handoff.value.handoff.outcome == "blocked")
      && (status == AwaitingApproval <==>
            row.details.handoff.value.handoff.outcome != "blocked" && AwaitsReview(approvals, run))
      && (status == Completed <==>
            row.details.handoff.value.handoff.outcome != "blocked" && !AwaitsReview(approvals, run))
    else
      && (to == Dispatching ==> status == Dispatched) && (to == Running ==> status == InProgress)
      && (to in {AwaitingApproval, Completed, Failed, Cancelled, TimedOut} ==> status == to)
  }

  /** All that the tables say after an accepted move. */
  ghost predicate MoveDone(
    cfg: Settings, db: Db, after: Db, run: Id, to: Status, code: Option<string>, summary: Option<string>, now: Time)
    requires run < |db.runs| && db.runs[run].task < |db.tasks|
  {
    var task := db.runs[run].task;
    && |after.runs| == |db.runs| && RowMoved(db.runs[run], after.runs[run], to, code, summary, now)
    && (forall r :: 0 <= r < |db.runs| && r != run ==> after.runs[r] == db.runs[r])
    && |after.tasks| == |db.tasks|
    && after.tasks[task] == db.tasks[task].(status := after.tasks[task].status)
    && TaskFollows(db.approvals, run, db.runs[run], to, after.tasks[task].status)
    && (forall t :: 0 <= t < |db.tasks| && t != task ==> after.tasks[t] == db.tasks[t])
    && after.approvals == db.approvals && after.comments == db.comments
    && if to in {Completed, Failed, Cancelled, TimedOut}
       then && |after.ledger| == |db.ledger| + 1 && after.ledger[..|db.ledger|] == db.ledger
            && Carries(cfg.project, db.tasks[task], run, after.runs[run], after.ledger[|db.ledger|])
       else after.ledger == db.ledger
  }

  lemma TaskStatusFollows(approvals: seq<Approval>, run: Id, row: Run, to: Status)
    requires Terminal(to) || Active(to)
    ensures TaskFollows(approvals, run, row, to, TaskStatusAfter(approvals, run, row, to))
  {
    if Has(approvals, PendingCompletion(run)) {
      var a :| 0 <= a < |approvals| && PendingCompletion(run)(approvals[a]);
      assert PendingReview(approvals[a], run);
    }
    if a :| 0 <= a < |approvals| && PendingReview(approvals[a], run) {
      assert PendingCompletion(run)(approvals[a]);
    }
  }

  lemma RowIsMoved(row: Run, to: Status, code: Option<string>, summary: Option<string>, now: Time)
    ensures RowMoved(row, Moved(row, to, code, summary, now), to, code, summary, now)
  {
  }

  lemma MovesAllowed(from: Status, to: Status)
    ensures MayMove(from, to) <==> (from, to) in MOVES
  {
  }

  /** The tables between the restatement of the run and its accounting. */
  lemma RestatedFrame(
    db: Db, run: Id, to: Status, actor: string, code: Option<string>, summary: Option<string>, now: Time, moved: Db)
    requires run < |db.runs| && db.runs[run].task < |db.tasks|
    requires moved == Restated(db, run, to, actor, code, summary, now)
    ensures moved == db.(runs := moved.runs, tasks := moved.tasks, audit := moved.audit)
    ensures moved.runs == db.runs[run := Moved(db.runs[run], to, code, summary, now)]
    ensures moved.tasks == db.tasks[db.runs[run].task := db.tasks[db.runs[run].task].(
              status := TaskStatusAfter(db.approvals, run, db.runs[run], to))]
  {
    hide Moved, TaskStatusAfter;
  }

  lemma MoveIsDone(
    cfg: Settings, cat: Catalog, db: Db, run: Id, to: Status, actor: string, code: Option<string>,
    summary: Option<string>, now: Time, step: Step)
    requires run < |db.runs| && db.runs[run].task < |db.tasks| && Unbooked(db, run)
    requires MayMove(db.runs[run].status, to)
    requires step == TransitionRun(cfg, cat, db, run, to, actor, code, summary, now)
    ensures step.out == Ok(run, false) && MoveDone(cfg, db, step.db, run, to, code, summary, now)
  {
    hide Restated, RecordOutcome, Ingest, TaskFollows, TaskStatusAfter, Moved, RowMoved, Carries, Unbooked;
    var moved := Restated(db, run, to, actor, code, summary, now);
    var row := Moved(db.runs[run], to, code, summary, now);
    RestatedFrame(db, run, to, actor, code, summary, now, moved);
    RowIsMoved(db.runs[run], to, code, summary, now);
    MovedFinishes(db.runs[run], to, code, summary, now);
    TaskStatusFollows(db.approvals, run, db.runs[run], to);
    RecordOutcomeFrame(cfg, cat, moved, run, actor, now);
    var judged :=
      if to in {Completed, Failed, TimedOut} then RecordOutcome(cfg, cat, moved, run, actor, now) else moved;
    if Terminal(to) {
      StillUnbooked(db, judged, run);
      FilingAppends(cfg, judged, run, actor, now, Ingest(cfg, judged, run, actor, now));
      CarriesAlike(cfg.project, judged.tasks[row.task], db.tasks[row.task], run, row, step.db.ledger[|db.ledger|]);
    }
  }

  lemma MovedFinishes(row: Run, to: Status, code: Option<string>, summary: Option<string>, now: Time)
    ensures Terminal(to) ==> Moved(row, to, code, summary, now).finishedAt.Some?
    ensures Moved(row, to, code, summary, now).task == row.task
  {
  }

  lemma StillUnbooked(db: Db, after: Db, run: Id)
    requires Unbooked(db, run) && after.ledger == db.ledger
    ensures Unbooked(after, run)
  {
  }

  lemma CarriesAlike(project: string, a: Task, b: Task, r: Id, row: Run, e: LedgerEntry)
    requires Carries(project, a, r, row, e) && a.requester == b.requester && a.payload == b.payload
    ensures Carries(project, b, r, row, e)
  {
  }

  /**
    Under the invariant a move is accepted exactly if the lifecycle allows it, and then the run, its task and
    the ledger say what was reported, and nothing else has changed; a refused move changes no table.
   */
  lemma MovesExactly(
    cfg: Settings, cat: Catalog, db: Db, run: Id, to: Status, actor: string, code: Option<string>,
    summary: Option<string>, now: Time, step: Step)
    requires Inv(cfg, db) && step == TransitionRun(cfg, cat, db, run, to, actor, code, summary, now)
    ensures step.out.Ok? <==> run < |db.runs| && (db.runs[run].status, to) in MOVES
    ensures step.out.Ok? ==>
              db.runs[run].task < |db.tasks| && MoveDone(cfg, db, step.db, run, to, code, summary, now)
    ensures step.out.Refused? ==> step.db == db
  {
    hide MoveRun, MoveDone, AllSealed, WithinCaps, Numbered, Booked, OneActive, Unleased, Keyed;
    if run < |db.runs| {
      MovesAllowed(db.runs[run].status, to);
      if MayMove(db.runs[run].status, to) {
        ActiveIsUnbooked(cfg, db, run);
        MoveIsDone(cfg, cat, db, run, to, actor, code, summary, now, step);
      }
    }
  }
}
